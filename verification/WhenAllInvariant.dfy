/** Why the callbacks of WhenAll do not disturb one another: whoever claims the combined future owns it, and the last
    success is alone.

    Shape and LinkOK say where AddContinuation can be and where a link can come from, CountsOK that CompleteCount counts
    the callbacks that got that far and that the one that reached the number of parents is the only one left, WordOK
    what each state of the combined future means, and PcOK what each callback may rely on at each point.

    A step of one callback changes its own place and what it owns. So each kind of step has lemmas for the callback
    itself, for the others (Unaffected), for the word and for the counts. */
module WhenAllInvariant {
  import opened Options
  import opened Counting
  import opened FutureCore
  import opened WhenAll

  predicate HasCounted(pc: Pc) {
    (pc.Claiming? && pc.req == StartSetValue) || pc.Copying? || (pc.Settling? && pc.req == SetSuccess)
        || pc == Over(true)
  }

  /** The callback whose increment reached the number of parents. */
  predicate IsLast(pc: Pc) {
    HasCounted(pc) && !pc.Over?
  }

  ghost predicate Shape(c: Config, s: State) {
    && ValidConfig(c)
    && |s.pcs| == |s.held| == |s.values| == |c.outcomes| && s.added <= |c.outcomes| && s.crash == NoCrash
    && s.state in {Pending, SettingResult, Succeeded, Failed}
    && (s.linked ==> EarlierFrom(c, s.added - 1))
  }

  /** Some parent from i on may have an earlier continuation. */
  predicate EarlierFrom(c: Config, i: int) {
    exists k :: i <= k && 0 <= k < |c.hasEarlier| && c.hasEarlier[k]
  }

  /** Where m_link can come from: only parents with an earlier continuation make it a future. */
  ghost predicate LinkOK(c: Config, s: State) {
    && |s.words| == |c.outcomes| && (!s.adding.Between? ==> s.added < |c.outcomes|)
    && (!s.adding.Between? && s.adding.seen.hasContinuation ==> EarlierAt(c, s.added))
    && (s.adding.Detached? ==> !s.linked)
    && (s.adding.Linked? && s.linked ==> s.adding.seen.hasContinuation)
    && forall k :: s.added <= k < |s.words| && s.words[k].hasContinuation ==> EarlierAt(c, k)
  }

  predicate EarlierAt(c: Config, k: nat) {
    k < |c.hasEarlier| && c.hasEarlier[k]
  }

  ghost predicate CountsOK(c: Config, s: State) {
    && s.completeCount == Count(s.pcs, HasCounted)
    && Count(s.pcs, IsLast) + One(s.state == Succeeded) == One(s.completeCount == |c.outcomes|)
  }

  /** The first k results are the values of the first k parents, in the order the parents were given. */
  ghost predicate Copied(c: Config, s: State, k: nat) {
    |s.values| == |c.outcomes| &&
    forall j :: 0 <= j < k && j < |c.outcomes| ==> c.outcomes[j].Value? && s.values[j] == Some(c.outcomes[j].value)
  }

  /** The state between a claim and its settling belongs to the winner. */
  ghost predicate Owns(s: State, i: nat) {
    s.winner == Some(i) && s.state == SettingResult
  }

  ghost predicate WordOK(c: Config, s: State)
    requires Shape(c, s)
  {
    match s.state
    case Pending => s.winner == None
    case SettingResult =>
      s.winner.Some? && s.winner.value < |s.pcs| &&
      (match s.pcs[s.winner.value]
       case Copying(_) => true
       case Keeping => true
       case Settling(req, _) => req == FinishError || c.hasValue
       case _ => false)
    case Succeeded => c.hasValue ==> Copied(c, s, |c.outcomes|)
    case Failed =>
      && s.winner.Some? && s.winner.value < |s.pcs| && s.pcs[s.winner.value] == Over(false)
      && c.outcomes[s.winner.value].Error? && s.error == Some(c.outcomes[s.winner.value].error)
    case _ => false
  }

  ghost predicate PcOK(c: Config, s: State, i: nat)
    requires Shape(c, s) && i < |s.pcs|
  {
    var isValue := c.outcomes[i].Value?;
    && (!s.pcs[i].Waiting? ==> i < s.added)
    && match s.pcs[i] {
         case Waiting => !s.held[i]
         case Storing => isValue && !s.held[i]
         case Counting => isValue && s.held[i]
         case Claiming(StartSetValue, loop) =>
           && isValue && s.held[i] && c.hasValue && s.state == Pending
           && loop in {Load, Check(Pending), Swap(Pending, SettingResult)}
         case Claiming(StartSetError, loop) =>
           && !isValue && !s.held[i]
           && (match loop
               case Load => true
               case Check(seen) => seen in {Pending, SettingResult, Succeeded, Failed}
                  && (seen != Pending ==> s.state != Pending)
               case Swap(expected, next) => expected == Pending && next == SettingResult)
         case Copying(k) => isValue && s.held[i] && c.hasValue && Owns(s, i) && k <= |c.outcomes| && Copied(c, s, k)
         case Keeping => !isValue && !s.held[i] && Owns(s, i)
         case Settling(SetSuccess, loop) =>
           && isValue && s.held[i]
           && (if c.hasValue then Owns(s, i) && Copied(c, s, |c.outcomes|) else s.state == Pending)
           && loop in {Load, Check(s.state), Swap(s.state, Succeeded)}
         case Settling(FinishError, loop) =>
           && !isValue && !s.held[i] && Owns(s, i) && s.error == Some(c.outcomes[i].error)
           && loop in {Load, Check(SettingResult), Swap(SettingResult, Failed)}
         case Over(counted) =>
           && counted == isValue && s.held[i] == isValue
           && (!isValue ==> s.state != Pending || EarlierFrom(c, i))
         case _ => false
       }
  }

  ghost predicate Inv(c: Config, s: State) {
    && Shape(c, s) && LinkOK(c, s) && CountsOK(c, s) && WordOK(c, s)
    && forall i {:trigger PcOK(c, s, i)} :: 0 <= i < |s.pcs| ==> PcOK(c, s, i)
  }

  // ---------- who can be where at the same time ----------

  /** The last success runs when every other callback is over, and every parent succeeded. */
  lemma LastIsAlone(c: Config, s: State, i: nat)
    requires Inv(c, s) && i < |s.pcs| && IsLast(s.pcs[i])
    ensures s.completeCount == |c.outcomes| && s.state != Succeeded && Count(s.pcs, IsLast) == 1
    ensures forall j :: 0 <= j < |s.pcs| ==> c.outcomes[j].Value? && (j != i ==> s.pcs[j] == Over(true))
  {
    CountSome(s.pcs, i, IsLast);
    CountAll(s.pcs, HasCounted);
    forall j | 0 <= j < |s.pcs| ensures c.outcomes[j].Value? && (j != i ==> s.pcs[j] == Over(true)) {
      assert PcOK(c, s, j);
      if j != i && IsLast(s.pcs[j]) { CountUnique(s.pcs, if i < j then i else j, if i < j then j else i, IsLast); }
    }
  }

  /** While some callback has not counted, nobody is last. */
  lemma NobodyIsLast(c: Config, s: State, i: nat)
    requires Inv(c, s) && i < |s.pcs| && !HasCounted(s.pcs[i])
    ensures s.completeCount < |c.outcomes| && s.state != Succeeded
    ensures forall j :: 0 <= j < |s.pcs| ==> !IsLast(s.pcs[j])
  {
    CountSkip(s.pcs, i, HasCounted);
    forall j | 0 <= j < |s.pcs| ensures !IsLast(s.pcs[j]) {
      if IsLast(s.pcs[j]) { CountSome(s.pcs, j, IsLast); }
    }
  }

  lemma OthersAreNotLast(c: Config, s: State, i: nat, j: nat)
    requires Inv(c, s) && i < |s.pcs| && j < |s.pcs| && j != i && (IsLast(s.pcs[i]) || !HasCounted(s.pcs[i]))
    ensures !IsLast(s.pcs[j])
  {
    if IsLast(s.pcs[i]) { LastIsAlone(c, s, i); } else { NobodyIsLast(c, s, i); }
  }

  // ---------- steps ----------

  /** A callback moves on its own; what it shares with callback j stays. */
  ghost predicate SameFor(s: State, t: State, j: nat) {
    && t.state == s.state && t.winner == s.winner && t.error == s.error && t.values == s.values && t.added >= s.added
    && j < |s.pcs| == |t.pcs| && j < |s.held| == |t.held| && t.pcs[j] == s.pcs[j] && t.held[j] == s.held[j]
  }

  lemma Unaffected(c: Config, s: State, t: State, j: nat)
    requires Shape(c, s) && Shape(c, t) && SameFor(s, t, j) && PcOK(c, s, j)
    ensures PcOK(c, t, j)
  {
  }

  lemma AddLinks(c: Config, s: State, t: State)
    requires ValidConfig(c) && LinkOK(c, s) && AddStep(c, s, t)
    ensures LinkOK(c, t)
    ensures t.linked ==> (s.linked && t.added == s.added) || EarlierAt(c, s.added)
    ensures s.added <= t.added <= |c.outcomes| && t.added <= s.added + 1
  {
    forall k | t.added <= k < |t.words| && t.words[k].hasContinuation ensures EarlierAt(c, k) {
      assert t.words[k] == s.words[k];
    }
  }

  lemma AddPreserves(c: Config, s: State, t: State)
    requires Inv(c, s) && AddStep(c, s, t)
    ensures Inv(c, t)
  {
    AddLinks(c, s, t);
    if EarlierAt(c, s.added) { assert c.hasEarlier[s.added]; }
    forall i | 0 <= i < |t.pcs| ensures PcOK(c, t, i) {
      assert PcOK(c, s, i);
      Unaffected(c, s, t, i);
    }
  }

  lemma ParentPreserves(c: Config, s: State, t: State, k: nat)
    requires Inv(c, s) && ParentStep(c, s, t, k)
    ensures Inv(c, t)
  {
    forall j | t.added <= j < |t.words| && t.words[j].hasContinuation ensures EarlierAt(c, j) {
      if j != k { assert t.words[j] == s.words[j]; }
    }
    forall i | 0 <= i < |t.pcs| ensures PcOK(c, t, i) {
      assert PcOK(c, s, i);
      Unaffected(c, s, t, i);
    }
  }

  /** Once the combined future is claimed, what its owner does with it concerns no other callback. */
  lemma OwnersBusiness(c: Config, s: State, t: State, i: nat, j: nat)
    requires Shape(c, s) && Shape(c, t) && j < |s.pcs| && j != i && PcOK(c, s, j)
    requires t.pcs[j] == s.pcs[j] && t.held[j] == s.held[j] && t.added == s.added && t.state != Pending
    requires Owns(s, i) || (s.state == Pending && !IsLast(s.pcs[j]))
    ensures PcOK(c, t, j)
  {
  }

  /** A callback does not touch m_link or the parents' words. */
  ghost predicate SameLinks(s: State, t: State) {
    t.added == s.added && t.adding == s.adding && t.words == s.words && t.linked == s.linked
  }

  lemma LinksStay(c: Config, s: State, t: State)
    requires LinkOK(c, s) && SameLinks(s, t)
    ensures LinkOK(c, t)
  {
  }

  // ---------- one lemma a kind of step: the others, the word, the counts ----------

  lemma Counts(c: Config, s: State, t: State, i: nat)
    requires Inv(c, s) && i < |s.pcs| == |t.pcs| && t.pcs == s.pcs[i := t.pcs[i]]
    requires t.completeCount == s.completeCount - One(HasCounted(s.pcs[i])) + One(HasCounted(t.pcs[i]))
    requires One(IsLast(t.pcs[i])) - One(IsLast(s.pcs[i])) + One(t.state == Succeeded) - One(s.state == Succeeded) ==
             One(t.completeCount == |c.outcomes|) - One(s.completeCount == |c.outcomes|)
    ensures CountsOK(c, t)
  {
    CountUpdate(s.pcs, i, t.pcs[i], HasCounted);
    CountUpdate(s.pcs, i, t.pcs[i], IsLast);
  }

  lemma PostPreserves(c: Config, s: State, t: State, i: nat)
    requires Inv(c, s) && PostStep(c, s, t, i)
    ensures Inv(c, t)
  {
    assert PcOK(c, s, i);
    Counts(c, s, t, i);
    forall j | 0 <= j < |t.pcs| ensures PcOK(c, t, j) {
      assert PcOK(c, s, j);
      if j != i { Unaffected(c, s, t, j); }
    }
  }

  /** When a success is the last to count, nobody has claimed the future, and nobody else will. */
  lemma LastCount(c: Config, s: State, i: nat)
    requires Inv(c, s) && i < |s.pcs| && s.pcs[i].Counting? && s.completeCount + 1 == |c.outcomes|
    ensures s.state == Pending
  {
    NobodyIsLast(c, s, i);
    CountUpdate(s.pcs, i, Over(true), HasCounted);
    CountAll(s.pcs[i := Over(true)], HasCounted);
    forall j | 0 <= j < |s.pcs| && j != i ensures s.pcs[j] == Over(true) {
      assert s.pcs[i := Over(true)][j] == s.pcs[j];
    }
  }

  lemma InvokePreserves(c: Config, s: State, t: State, i: nat)
    requires Inv(c, s) && InvokeStep(c, s, t, i)
    ensures Inv(c, t)
  {
    assert PcOK(c, s, i);
    NobodyIsLast(c, s, i);
    if s.pcs[i].Counting? && s.completeCount + 1 == |c.outcomes| { LastCount(c, s, i); }
    Counts(c, s, t, i);
    forall j | 0 <= j < |t.pcs| ensures PcOK(c, t, j) {
      assert PcOK(c, s, j);
      if j != i { Unaffected(c, s, t, j); }
    }
  }

  /** What the loops decide here, out of all the cases of Decide. */
  lemma Decisions(c: Config, s: State, seen: FutureState)
    requires seen in {Pending, SettingResult, Succeeded, Failed}
    ensures c.hasValue ==> Decided(c, s, StartSetValue, Pending) == MoveTo(SettingResult)
    ensures Decided(c, s, StartSetError, seen) == if seen == Pending && !s.linked then MoveTo(SettingResult) else Refuse
    ensures !c.hasValue ==> Decided(c, s, SetSuccess, Pending) == MoveTo(Succeeded)
    ensures Decided(c, s, SetSuccess, SettingResult) == MoveTo(Succeeded)
    ensures Decided(c, s, FinishError, SettingResult) == MoveTo(Failed)
  {
  }

  lemma ClaimCheck(c: Config, s: State, t: State, i: nat)
    requires Shape(c, s) && i < |s.pcs| && PcOK(c, s, i) && s.pcs[i].Claiming? && s.pcs[i].loop.Check?
        && ClaimStep(c, s, t, i)
    ensures t == Go(s, i, t.pcs[i]) && PcOK(c, t, i)
    ensures (t.pcs[i].Claiming? && t.pcs[i].req == s.pcs[i].req)
        || (s.pcs[i].req == StartSetError && t.pcs[i] == Over(false))
  {
    Decisions(c, s, s.pcs[i].loop.seen);
    if t.pcs[i].Over? && s.state == Pending { assert i <= s.added - 1 && EarlierFrom(c, s.added - 1); }
  }

  lemma ClaimOwn(c: Config, s: State, t: State, i: nat)
    requires Shape(c, s) && WordOK(c, s) && i < |s.pcs| && PcOK(c, s, i) && ClaimStep(c, s, t, i)
    ensures Shape(c, t) && WordOK(c, t) && PcOK(c, t, i) && SameLinks(s, t) && t.pcs == s.pcs[i := t.pcs[i]]
    ensures t.completeCount == s.completeCount && HasCounted(t.pcs[i]) == HasCounted(s.pcs[i])
    ensures IsLast(s.pcs[i]) == IsLast(t.pcs[i]) && (t.state == Succeeded <==> s.state == Succeeded)
  {
    if s.pcs[i].loop.Check? { ClaimCheck(c, s, t, i); }
  }

  lemma ClaimOthers(c: Config, s: State, t: State, i: nat, j: nat)
    requires Shape(c, s) && i < |s.pcs| && PcOK(c, s, i) && ClaimStep(c, s, t, i) && Shape(c, t)
    requires j < |s.pcs| && j != i && PcOK(c, s, j) && !IsLast(s.pcs[j])
    ensures PcOK(c, t, j)
  {
    if t.state == s.state { Unaffected(c, s, t, j); } else { OwnersBusiness(c, s, t, i, j); }
  }

  lemma ClaimPreserves(c: Config, s: State, t: State, i: nat)
    requires Inv(c, s) && ClaimStep(c, s, t, i)
    ensures Inv(c, t)
  {
    assert PcOK(c, s, i);
    ClaimOwn(c, s, t, i);
    LinksStay(c, s, t);
    Counts(c, s, t, i);
    forall j | 0 <= j < |t.pcs| ensures PcOK(c, t, j) {
      assert PcOK(c, s, j);
      if j != i {
        OthersAreNotLast(c, s, i, j);
        ClaimOthers(c, s, t, i, j);
      }
    }
  }

  lemma WriteOwn(c: Config, s: State, t: State, i: nat)
    requires Inv(c, s) && WriteStep(c, s, t, i)
    ensures Shape(c, t) && WordOK(c, t) && PcOK(c, t, i)
    ensures t.completeCount == s.completeCount && HasCounted(t.pcs[i]) == HasCounted(s.pcs[i])
        && IsLast(t.pcs[i]) == IsLast(s.pcs[i])
  {
    assert PcOK(c, s, i);
    if IsLast(s.pcs[i]) { LastIsAlone(c, s, i); }
  }

  lemma WritePreserves(c: Config, s: State, t: State, i: nat)
    requires Inv(c, s) && WriteStep(c, s, t, i)
    ensures Inv(c, t)
  {
    WriteOwn(c, s, t, i);
    Counts(c, s, t, i);
    forall j | 0 <= j < |t.pcs| ensures PcOK(c, t, j) {
      assert PcOK(c, s, i) && PcOK(c, s, j);
      if j != i { OwnersBusiness(c, s, t, i, j); }
    }
  }

  lemma SettleCheck(c: Config, s: State, t: State, i: nat)
    requires Shape(c, s) && i < |s.pcs| && PcOK(c, s, i) && s.pcs[i].Settling? && s.pcs[i].loop.Check?
        && SettleStep(c, s, t, i)
    ensures t == Go(s, i, t.pcs[i]) && PcOK(c, t, i) && t.pcs[i].Settling? && t.pcs[i].req == s.pcs[i].req
  {
    Decisions(c, s, s.pcs[i].loop.seen);
  }

  lemma SettleOwn(c: Config, s: State, t: State, i: nat)
    requires Shape(c, s) && WordOK(c, s) && i < |s.pcs| && PcOK(c, s, i) && SettleStep(c, s, t, i)
    ensures Shape(c, t) && WordOK(c, t) && PcOK(c, t, i) && SameLinks(s, t) && t.pcs == s.pcs[i := t.pcs[i]]
    ensures t.completeCount == s.completeCount && HasCounted(t.pcs[i]) == HasCounted(s.pcs[i])
    ensures One(IsLast(s.pcs[i])) - One(IsLast(t.pcs[i])) == One(t.state == Succeeded) - One(s.state == Succeeded)
  {
    if s.pcs[i].loop.Check? { SettleCheck(c, s, t, i); }
  }

  lemma SettleOthers(c: Config, s: State, t: State, i: nat, j: nat)
    requires Shape(c, s) && i < |s.pcs| && PcOK(c, s, i) && SettleStep(c, s, t, i) && Shape(c, t)
    requires j < |s.pcs| && j != i && PcOK(c, s, j) && !IsLast(s.pcs[j])
    ensures PcOK(c, t, j)
  {
    if t.state == s.state { Unaffected(c, s, t, j); } else { OwnersBusiness(c, s, t, i, j); }
  }

  lemma SettlePreserves(c: Config, s: State, t: State, i: nat)
    requires Inv(c, s) && SettleStep(c, s, t, i)
    ensures Inv(c, t)
  {
    assert PcOK(c, s, i);
    SettleOwn(c, s, t, i);
    LinksStay(c, s, t);
    Counts(c, s, t, i);
    forall j | 0 <= j < |t.pcs| ensures PcOK(c, t, j) {
      assert PcOK(c, s, j);
      if j != i {
        OthersAreNotLast(c, s, i, j);
        SettleOthers(c, s, t, i, j);
      }
    }
  }

  lemma NextPreserves(c: Config, s: State, t: State)
    requires Inv(c, s) && Next(c, s, t)
    ensures Inv(c, t)
  {
    if AddStep(c, s, t) {
      AddPreserves(c, s, t);
    } else if k: nat :| ParentStep(c, s, t, k) {
      ParentPreserves(c, s, t, k);
    } else {
      var i :| CallbackStep(c, s, t, i);
      if PostStep(c, s, t, i) {
        PostPreserves(c, s, t, i);
      } else if InvokeStep(c, s, t, i) {
        InvokePreserves(c, s, t, i);
      } else if ClaimStep(c, s, t, i) {
        ClaimPreserves(c, s, t, i);
      } else if WriteStep(c, s, t, i) {
        WritePreserves(c, s, t, i);
      } else {
        SettlePreserves(c, s, t, i);
      }
    }
  }

  lemma {:induction false} NoneCounted(pcs: seq<Pc>)
    requires forall i :: 0 <= i < |pcs| ==> pcs[i].Waiting?
    ensures Count(pcs, HasCounted) == 0 && Count(pcs, IsLast) == 0
  {
    CountBound(pcs, HasCounted);
    CountBound(pcs, IsLast);
  }

  lemma {:induction false} RunInv(c: Config, run: seq<State>, i: nat)
    requires Run(c, run) && i < |run|
    ensures Inv(c, run[i])
  {
    if i == 0 {
      NoneCounted(run[0].pcs);
      forall j | 0 <= j < |run[0].pcs| ensures PcOK(c, run[0], j) {}
    } else {
      RunInv(c, run, i - 1);
      assert StepAt(c, run, i - 1);
      NextPreserves(c, run[i - 1], run[i]);
    }
  }
}
