/** What WhenAll gives its caller, in every interleaving, and exactly when an error can be lost. */
module WhenAllTheorems {
  import opened Options
  import opened Counting
  import opened FutureCore
  import opened WhenAll
  import opened WhenAllInvariant

  /** No call made with crashIfFailed true fails: the last success always finds the future as it needs it, only the
      owner reaches SetFailed, and every value copied is there. */
  lemma NeverCrashes(c: Config, run: seq<State>, i: nat)
    requires Run(c, run) && i < |run|
    ensures run[i].crash == NoCrash
  {
    RunInv(c, run, i);
  }

  /** Success means every parent succeeded, with the results in the order of the parents however they completed;
      failure means the error of the one parent whose call claimed the future. */
  lemma ResultIsRight(c: Config, run: seq<State>, i: nat)
    requires Run(c, run) && i < |run|
    ensures |run[i].held| == |run[i].values| == |c.outcomes|
    ensures run[i].state == Succeeded ==>
              forall j :: 0 <= j < |c.outcomes| ==>
                c.outcomes[j].Value? && run[i].held[j] && (c.hasValue ==> run[i].values[j] == Some(c.outcomes[j].value))
    ensures run[i].state == Failed ==>
              && run[i].winner.Some? && run[i].winner.value < |c.outcomes|
              && c.outcomes[run[i].winner.value].Error? && run[i].error == Some(c.outcomes[run[i].winner.value].error)
  {
    var s := run[i];
    RunInv(c, run, i);
    if s.state == Succeeded {
      CountAll(s.pcs, HasCounted);
      forall j | 0 <= j < |c.outcomes| ensures c.outcomes[j].Value? && s.held[j] { assert PcOK(c, s, j); }
    }
  }

  /** A parent's entry becomes a counted reference when its own callback runs, and at no other time. */
  lemma HoldsWhatItStored(c: Config, run: seq<State>, i: nat, j: nat)
    requires Run(c, run) && i < |run| && j < |c.outcomes|
    ensures |run[i].held| == |run[i].pcs| == |c.outcomes|
    ensures run[i].held[j] == (c.outcomes[j].Value? && !run[i].pcs[j].Waiting? && !run[i].pcs[j].Storing?)
  {
    RunInv(c, run, i);
    assert PcOK(c, run[i], j);
  }

  /** CompleteCount is the number of parents whose callback counted, so it never passes the number of parents, and
      reaches it in one callback at most. */
  lemma CountIsExact(c: Config, run: seq<State>, i: nat)
    requires Run(c, run) && i < |run|
    ensures run[i].completeCount == Count(run[i].pcs, HasCounted) <= |c.outcomes|
    ensures Count(run[i].pcs, IsLast) <= 1
  {
    RunInv(c, run, i);
    CountBound(run[i].pcs, HasCounted);
  }

  lemma WinnerStays(c: Config, s: State, t: State)
    requires Inv(c, s) && Next(c, s, t)
    ensures s.winner.Some? ==> t.winner == s.winner
    ensures IsDone(s.state) ==> t.state == s.state && t.error == s.error
  {
    if !AddStep(c, s, t) && !exists k: nat :: ParentStep(c, s, t, k) {
      var i: nat :| CallbackStep(c, s, t, i);
      CallbackKeepsClaim(c, s, t, i);
    }
  }

  lemma CallbackKeepsClaim(c: Config, s: State, t: State, i: nat)
    requires Inv(c, s) && CallbackStep(c, s, t, i)
    ensures s.winner.Some? ==> t.winner == s.winner
    ensures IsDone(s.state) ==> t.state == s.state && t.error == s.error
  {
    if ClaimStep(c, s, t, i) || WriteStep(c, s, t, i) || SettleStep(c, s, t, i) {
      assert PcOK(c, s, i);
      if IsLast(s.pcs[i]) { LastIsAlone(c, s, i); }
    }
  }

  /** The first claim decides: later errors change neither the result nor the error. */
  lemma {:induction false} FirstClaimDecides(c: Config, run: seq<State>, i: nat, j: nat)
    requires Run(c, run) && i <= j < |run|
    ensures run[i].winner.Some? ==> run[j].winner == run[i].winner
    ensures IsDone(run[i].state) ==> run[j].state == run[i].state && run[j].error == run[i].error
    decreases j
  {
    if i < j {
      FirstClaimDecides(c, run, i, j - 1);
      RunInv(c, run, j - 1);
      assert StepAt(c, run, j - 1);
      WinnerStays(c, run[j - 1], run[j]);
    }
  }

  // ---------- the end of a run ----------

  predicate AllSucceed(c: Config) {
    forall i :: 0 <= i < |c.outcomes| ==> c.outcomes[i].Value?
  }

  /** Some parent fails, and some parent that may have an earlier continuation has no failing one behind it. */
  predicate AtRisk(c: Config) {
    !AllSucceed(c) && exists k :: 0 <= k < |c.hasEarlier| && c.hasEarlier[k] && NoneFailsAfter(c, k)
  }

  predicate NoneFailsAfter(c: Config, k: nat) {
    forall i :: k < i < |c.outcomes| ==> c.outcomes[i].Value?
  }

  lemma {:induction false} EveryoneCounts(pcs: seq<Pc>)
    requires forall i :: 0 <= i < |pcs| ==> pcs[i] == Over(true)
    ensures Count(pcs, HasCounted) == |pcs| && Count(pcs, IsLast) == 0
  {
    CountBound(pcs, HasCounted);
    CountBound(pcs, IsLast);
  }

  lemma {:induction false} LastFailing(c: Config, n: nat) returns (i: nat)
    requires n <= |c.outcomes| && exists j :: 0 <= j < n && c.outcomes[j].Error?
    ensures i < n && c.outcomes[i].Error? && forall j :: i < j < n ==> c.outcomes[j].Value?
  {
    if c.outcomes[n - 1].Error? { i := n - 1; } else { i := LastFailing(c, n - 1); }
  }

  lemma EndIsSettled(c: Config, s: State)
    requires Inv(c, s) && Ended(c, s) && !AtRisk(c)
    ensures s.state == if AllSucceed(c) then Succeeded else Failed
  {
    forall j | 0 <= j < |s.pcs| ensures s.pcs[j] == Over(c.outcomes[j].Value?) { assert PcOK(c, s, j); }
    if AllSucceed(c) {
      EveryoneCounts(s.pcs);
    } else {
      var i := LastFailing(c, |c.outcomes|);
      assert PcOK(c, s, i);
      NobodyIsLast(c, s, i);
      forall k | i <= k < |c.hasEarlier| ensures !c.hasEarlier[k] { assert NoneFailsAfter(c, k); }
    }
  }

  /** When no parent has an earlier continuation, WhenAll ends Succeeded if and only if all parents succeeded, and
      otherwise Failed. */
  lemma AllOrError(c: Config, run: seq<State>, i: nat)
    requires Run(c, run) && i < |run| && Ended(c, run[i])
    requires forall k :: 0 <= k < |c.hasEarlier| ==> !c.hasEarlier[k]
    ensures run[i].state == Succeeded <==> AllSucceed(c)
    ensures run[i].state == Failed <==> !AllSucceed(c)
  {
    RunInv(c, run, i);
    EndIsSettled(c, run[i]);
  }

  // ---------- the error that is lost ----------

  ghost predicate Reachable(c: Config, s: State) {
    exists run :: Run(c, run) && run[|run| - 1] == s
  }

  lemma Extend(c: Config, s: State, t: State)
    requires Reachable(c, s) && Next(c, s, t)
    ensures Reachable(c, t) && Inv(c, t)
  {
    var run :| Run(c, run) && run[|run| - 1] == s;
    var longer := run + [t];
    forall i | 0 <= i < |longer| - 1 ensures StepAt(c, longer, i) {
      if i < |run| - 1 { assert StepAt(c, run, i); }
    }
    assert Run(c, longer);
    RunInv(c, longer, |run|);
  }

  /** Nobody claimed the future yet, and parent e, which fails, keeps every success from being the last. */
  ghost predicate Unclaimed(c: Config, s: State, e: nat) {
    Reachable(c, s) && Inv(c, s) && s.state == Pending && e < |c.outcomes| && c.outcomes[e].Error?
  }

  /** AddContinuation is between parents; those before `done` are settled, and the rest are not. */
  ghost predicate Calm(c: Config, s: State, done: nat) {
    && s.adding == Between && |s.words| == |c.outcomes| && done <= s.added
    && forall k :: done <= k < |s.words| ==> s.words[k] == ParentWord(k < s.added, false)
  }

  lemma AddOne(c: Config, s: State, e: nat, link: bool, done: nat) returns (t: State)
    requires Unclaimed(c, s, e) && Calm(c, s, done) && s.added < |c.outcomes| && (link ==> c.hasEarlier[s.added])
    ensures Unclaimed(c, t, e) && Calm(c, t, done) && t.added == s.added + 1 && t.linked == link && t.pcs == s.pcs
  {
    var word := ParentWord(link, false);
    var k := s.added;
    t := s.(words := s.words[k := word]);
    if link {
      assert ParentStep(c, s, t, k);
      Extend(c, s, t);
    } else {
      assert t == s;
    }
    var loaded := t.(adding := Loaded(word));
    assert AddStep(c, t, loaded);
    Extend(c, t, loaded);
    var detached := loaded.(adding := Detached(word), linked := false);
    assert AddStep(c, loaded, detached);
    Extend(c, loaded, detached);
    var linked := detached.(adding := Linked(word), linked := link);
    assert AddStep(c, detached, linked);
    Extend(c, detached, linked);
    t := linked.(added := k + 1, adding := Between, words := linked.words[k := ParentWord(true, false)]);
    assert AddStep(c, linked, t);
    Extend(c, linked, t);
  }

  lemma Settle(c: Config, s: State, e: nat, j: nat) returns (t: State)
    requires Unclaimed(c, s, e) && Calm(c, s, j) && j < s.added
    ensures Unclaimed(c, t, e) && Calm(c, t, j + 1) && t == s.(words := s.words[j := ParentWord(false, true)])
  {
    t := s.(words := s.words[j := ParentWord(false, true)]);
    assert ParentStep(c, s, t, j);
    Extend(c, s, t);
  }

  /** With m_link set, TryStartSetError refuses from Pending: the callback ends and the error is gone. */
  lemma LoseError(c: Config, s: State, j: nat, e: nat) returns (t: State)
    requires Unclaimed(c, s, e) && j < s.added && s.pcs[j].Waiting? && s.words[j].done
    requires c.outcomes[j].Error? && s.linked
    ensures Unclaimed(c, t, e) && t == Go(s, j, Over(false))
  {
    var posted := Go(s, j, Claiming(StartSetError, Load));
    var loaded := Go(s, j, Claiming(StartSetError, Check(Pending)));
    t := Go(s, j, Over(false));
    assert CallbackStep(c, s, posted, j);
    Extend(c, s, posted);
    assert loaded == Go(posted, j, Claiming(StartSetError, Check(Pending))) && CallbackStep(c, posted, loaded, j);
    Extend(c, posted, loaded);
    assert t == Go(loaded, j, Over(false)) && CallbackStep(c, loaded, t, j);
    Extend(c, loaded, t);
  }

  lemma NotLast(c: Config, s: State, j: nat, e: nat)
    requires Unclaimed(c, s, e) && j < |s.pcs| && s.pcs[j].Counting?
    ensures s.completeCount + 1 != |c.outcomes|
  {
    assert PcOK(c, s, j) && PcOK(c, s, e);
    CountUpdate(s.pcs, j, Over(true), HasCounted);
    CountSkip(s.pcs[j := Over(true)], e, HasCounted);
  }

  lemma CountValue(c: Config, s: State, j: nat, e: nat) returns (t: State)
    requires Unclaimed(c, s, e) && j < s.added && s.pcs[j].Waiting? && s.words[j].done && c.outcomes[j].Value?
    ensures Unclaimed(c, t, e) && t.added == s.added && t.linked == s.linked && t.pcs == s.pcs[j := Over(true)]
    ensures t.adding == s.adding && t.words == s.words
  {
    var posted := Go(s, j, Storing);
    assert CallbackStep(c, s, posted, j);
    Extend(c, s, posted);
    var stored := Go(posted, j, Counting).(held := posted.held[j := true]);
    assert CallbackStep(c, posted, stored, j);
    Extend(c, posted, stored);
    NotLast(c, stored, j, e);
    t := Go(stored, j, Over(true)).(completeCount := stored.completeCount + 1);
    assert CallbackStep(c, stored, t, j);
    Extend(c, stored, t);
  }

  /** From parent s.added on, each one is added to and its callback runs, the failing ones while m_link is set. */
  lemma {:induction false} RunRest(c: Config, s: State, e: nat, done: nat) returns (t: State)
    requires Unclaimed(c, s, e) && Calm(c, s, done)
    requires forall j :: 0 <= j < |s.pcs| ==> s.pcs[j] == if j < done then Over(c.outcomes[j].Value?) else Waiting
    requires forall j :: done <= j < |c.outcomes| && c.outcomes[j].Error? ==> j < s.added && s.linked
    ensures Unclaimed(c, t, e) && Ended(c, t)
    decreases |c.outcomes| - done, |c.outcomes| - s.added
  {
    if done < s.added {
      var u := Settle(c, s, e, done);
      if c.outcomes[done].Error? { u := LoseError(c, u, done, e); } else { u := CountValue(c, u, done, e); }
      t := RunRest(c, u, e, done + 1);
    } else if s.added < |c.outcomes| {
      var u := AddOne(c, s, e, false, done);
      t := RunRest(c, u, e, done);
    } else {
      t := s;
    }
  }

  lemma {:induction false} AddUpTo(c: Config, k: nat, e: nat) returns (t: State)
    requires ValidConfig(c) && k < |c.outcomes| && c.hasEarlier[k] && e < |c.outcomes| && c.outcomes[e].Error?
    ensures Unclaimed(c, t, e) && Calm(c, t, 0) && t.added == k + 1 && t.linked
    ensures forall j :: 0 <= j < |t.pcs| ==> t.pcs[j] == Waiting
  {
    var n := |c.outcomes|;
    t := State(0, Between, seq(n, _ => ParentWord(false, false)), false, Pending, None, 0,
               seq(n, _ => false), seq(n, _ => None), seq(n, _ => Waiting), None, NoCrash);
    assert Run(c, [t]) && [t][|[t]| - 1] == t;
    RunInv(c, [t], 0);
    while t.added <= k
      invariant Unclaimed(c, t, e) && Calm(c, t, 0) && t.added <= k + 1 && (t.added == k + 1 ==> t.linked)
      invariant forall j :: 0 <= j < |t.pcs| ==> t.pcs[j] == Waiting
      decreases k + 1 - t.added
    {
      t := AddOne(c, t, e, t.added == k, 0);
    }
  }

  /** In every configuration at risk, there is a run in which every parent settled and every callback returned, some
      parent failed, and the combined future is still Pending. */
  lemma ErrorCanBeLost(c: Config)
    requires ValidConfig(c) && AtRisk(c)
    ensures exists s :: Reachable(c, s) && Ended(c, s) && s.state == Pending
  {
    var k: nat :| k < |c.hasEarlier| && c.hasEarlier[k] && NoneFailsAfter(c, k);
    var e: nat :| e < |c.outcomes| && c.outcomes[e].Error?;
    var s := AddUpTo(c, k, e);
    var t := RunRest(c, s, e, 0);
    assert Reachable(c, t) && Ended(c, t) && t.state == Pending;
  }

  /** WhenAll settles in every run if and only if no parent at or after the last failing one may have an earlier
      continuation. */
  lemma SettlesExactlyWhenSafe(c: Config)
    requires ValidConfig(c)
    ensures (forall s :: Reachable(c, s) && Ended(c, s) ==> IsDone(s.state)) <==> !AtRisk(c)
  {
    if AtRisk(c) {
      ErrorCanBeLost(c);
    } else {
      forall s | Reachable(c, s) && Ended(c, s) ensures IsDone(s.state) {
        var run :| Run(c, run) && run[|run| - 1] == s;
        RunInv(c, run, |run| - 1);
        EndIsSettled(c, s);
      }
    }
  }
}
