/** What callers of the future protocol must be held to: the calls that crash it, or lose a list, otherwise. */
module FutureDiscipline {
  import opened FutureCore
  import opened FutureProtocol
  import opened FutureInvariant
  import opened FutureTheorems
  import opened FutureLists
  import opened FutureDelivery
  import opened Paths

  // ---------- an intruder between the halves of TrySetError ----------

  const UNCLAIMED := Discipline(false, true)

  /** Call o is between TryStartSetError and the end of SetFailed on f. */
  predicate HalfDone(s: State, o: nat, f: nat) {
    && o in s.acts && f in s.heap && s.acts[o].frame.Update?
    && s.acts[o].frame.req == FinishError && s.acts[o].frame.fut == f && s.acts[o].frame.owner
  }

  /** Its future was settled under it. */
  predicate Robbed(s: State, o: nat, f: nat) {
    HalfDone(s, o, f) && IsDone(s.heap[f].word.state)
  }

  /** What the loop of a half-done TrySetError can have seen: the claim, or what came after it. */
  predicate SawClaim(s: State, o: nat, f: nat)
    requires HalfDone(s, o, f)
  {
    var u := s.acts[o].frame;
    match u.updatePc
    case Load => true
    case Check => u.seen.state == SettingResult || IsDone(u.seen.state)
    case Swap => u.seen.state == SettingResult && u.next == Failed
  }

  lemma CheckCrashes(s: State, o: nat, f: nat, d: Discipline)
    requires s.crash == NoCrash && HalfDone(s, o, f) && s.acts[o].frame.updatePc == Check
        && IsDone(s.acts[o].frame.seen.state)
    ensures Next(s, s.(crash := FailedUnexpectedly), d)
  {
    var t := s.(crash := FailedUnexpectedly);
    assert StepCheck(s, t, o, d.claims);
    assert Continue(s, t, o, d.claims);
  }

  /** A path that only looks: no future changes on it. */
  ghost predicate Looking(path: seq<State>, d: Discipline) {
    Path(Steps(d), path) && forall i :: 0 <= i < |path| ==> path[i].heap == path[0].heap
  }

  lemma Looks(path: seq<State>, t: State, d: Discipline)
    requires Looking(path, d) && Next(path[|path| - 1], t, d) && t.heap == path[0].heap
    ensures Looking(path + [t], d)
  {
    var longer := path + [t];
    forall i | 0 <= i < |longer| - 1 ensures StepOf(Steps(d), longer, i) {
      if i < |path| - 1 { assert StepOf(Steps(d), path, i); }
    }
  }

  /** A robbed TrySetError crashes by its own next steps, without touching any future. */
  lemma RobbedCrashes(s: State, o: nat, f: nat, d: Discipline) returns (path: seq<State>)
    requires s.crash == NoCrash && Robbed(s, o, f) && SawClaim(s, o, f)
    ensures Looking(path, d) && path[0] == s && path[|path| - 1].crash == FailedUnexpectedly
  {
    var u := s.acts[o].frame;
    path := [s];
    if u.updatePc == Check && !IsDone(u.seen.state) {
      var swapping := Go(s, o, u.(next := Failed, updatePc := Swap));
      assert StepCheck(s, swapping, o, d.claims) && Continue(s, swapping, o, d.claims);
      Looks(path, swapping, d);
      path := path + [swapping];
    }
    var now := path[|path| - 1];
    var v := now.acts[o].frame;
    if v.updatePc != Check {
      var looked := Go(now, o, v.(seen := s.heap[f].word, updatePc := Check));
      assert StepLoad(now, looked, o) || StepSwapRetry(now, looked, o);
      assert Continue(now, looked, o, d.claims);
      Looks(path, looked, d);
      path := path + [looked];
    }
    var last := path[|path| - 1];
    CheckCrashes(last, o, f, d);
    Looks(path, last.(crash := FailedUnexpectedly), d);
    path := path + [last.(crash := FailedUnexpectedly)];
  }

  /** A call by somebody new that its decision allows comes to its swap. */
  lemma Approaches(s: State, a: nat, r: Request, f: nat, next: FutureState, d: Discipline) returns (t: State)
    requires s.crash == NoCrash && a !in s.acts && f in s.heap && (d.publishes ==> !Untouched(s.heap[f].place))
    requires r in {StartSetValue, SetSuccess, StartSetError, SetInvoking, Request.StartAwaiting}
    requires Decide(r, s.heap[f].traits, s.heap[f].word.state, s.heap[f].link == Null, false) == MoveTo(next)
    requires d.claims && r == SetSuccess ==> s.heap[f].word.state != SettingResult
    ensures Leads(Steps(d), s, t)
    ensures t == s.(acts := s.acts[a := Act(Update(r, f, false, s.heap[f].word, next, Swap), Null)])
  {
    var word := s.heap[f].word;
    var begun := s.(acts := s.acts[a := Act(Update(r, f, false, Word(Pending, Null), Pending, Load), Null)]);
    var loaded := s.(acts := s.acts[a := Act(Update(r, f, false, word, Pending, Check), Null)]);
    t := s.(acts := s.acts[a := Act(Update(r, f, false, word, next, Swap), Null)]);
    Stays(Steps(d), s);
    assert BeginUpdate(s, begun, a, Null, r, f, d.publishes);
    Then(Steps(d), s, s, begun);
    assert StepLoad(begun, loaded, a) && Continue(begun, loaded, a, d.claims);
    Then(Steps(d), s, begun, loaded);
    assert StepCheck(loaded, t, a, d.claims) && Continue(loaded, t, a, d.claims);
    Then(Steps(d), s, loaded, t);
  }

  /** One TrySetSuccess of an intruder. */
  lemma Intrude(s: State, o: nat, f: nat, a: nat) returns (t: State)
    requires Inv(s) && Published(s) && s.crash == NoCrash && HalfDone(s, o, f) && a !in s.acts
    ensures Leads(Steps(UNCLAIMED), s, t) && t.crash == NoCrash && Robbed(t, o, f) && t.acts[o] == s.acts[o]
  {
    assert ActOK(s.heap, s.acts, o) && AtPublished(s.heap, s.acts[o].frame);
    var near := Approaches(s, a, SetSuccess, f, Succeeded, UNCLAIMED);
    var word := s.heap[f].word;
    var fut := s.heap[f].(
      word := Swapped(word, Succeeded), settled := s.heap[f].settled + 1, walker := Ref(a), setter := Null);
    t := Go(Put(near, f, fut), a, Cleanup(f, word.cont, word.cont == ContinuationInvoked));
    assert StepSwap(near, t, a) && Continue(near, t, a, false);
    Then(Steps(UNCLAIMED), s, near, t);
  }

  /** However far a TrySetError has come between its halves, one call of TrySetSuccess by somebody else can crash it:
      from every state that disciplined callers can reach. */
  lemma IntruderCrashesSetFailed(s: State, o: nat, f: nat, a: nat)
    requires Inv(s) && Published(s) && s.crash == NoCrash && HalfDone(s, o, f) && a !in s.acts
    ensures exists t :: Leads(Steps(UNCLAIMED), s, t) && t.crash == FailedUnexpectedly
  {
    assert ActOK(s.heap, s.acts, o);
    var robbed := Intrude(s, o, f, a);
    var path := RobbedCrashes(robbed, o, f, UNCLAIMED);
    var t := path[|path| - 1];
    assert Leads(Steps(UNCLAIMED), robbed, t);
    Joins(Steps(UNCLAIMED), s, robbed, t);
  }

  /** And only an intruder can: callers who touch nothing unpublished crash SetFailed, or any other inner check, only
      if one of them went on from a claim that was not its own. */
  lemma OnlyIntrudersCrash(run: seq<State>)
    requires Run(run, UNCLAIMED) && run[|run| - 1].crash !in {NoCrash, AddedTwice, AwaitedTooLate, PostedTooLate}
    ensures exists i, a :: 0 <= i < |run| - 1 && Intrudes(run[i], a) && StepCheck(run[i], run[i + 1], a, false)
  {
    if forall i, a :: 0 <= i < |run| - 1 && Intrudes(run[i], a) ==> !StepCheck(run[i], run[i + 1], a, false) {
      forall i | 0 <= i < |run| - 1 ensures StepAt(run, i, STRICT) {
        assert StepAt(run, i, UNCLAIMED);
        if !Begin(run[i], run[i + 1], true) {
          var a: nat :| Continue(run[i], run[i + 1], a, false);
          assert Continue(run[i], run[i + 1], a, true);
        }
      }
      NoInternalCrash(run, |run| - 1);
    }
  }

  // ---------- a continuation touched before it is published ----------

  /** Call d adds c to a list of p that is not empty, has looked at it, and is about to write the link. */
  predicate Exposed(s: State, d: nat, p: nat, c: nat) {
    && p in s.heap && c in s.heap && p != c && d in s.acts
    && s.acts[d].frame == Add(p, c, s.heap[p].word, AddLink)
    && !IsDone(s.heap[p].word.state) && s.heap[p].word.cont.Ref? && s.heap[p].chain != []
    && (s.heap[p].traits.isShared || PassThrough(s.heap[c].traits))
    && s.heap[c].word.state == Pending && s.heap[c].link == Null
  }

  /** One TrySetSuccess of somebody else would settle p. */
  predicate Settleable(s: State, p: nat) {
    && p in s.heap && s.heap[p].word.state != SettingResult
    && Decide(SetSuccess, s.heap[p].traits, s.heap[p].word.state, s.heap[p].link == Null, false) == MoveTo(Succeeded)
  }

  /** p with c in front of its list, and c in that list, past Pending. */
  function Touched(s: State, p: nat, c: nat, e: nat): map<nat, Fut>
    requires p in s.heap && c in s.heap
  {
    var fp, fc := s.heap[p], s.heap[c];
    s.heap[p := fp.(word := Word(fp.word.state, Ref(c)), chain := [c] + fp.chain, listed := fp.listed + [c])][
           c := fc.(word := Word(SettingResult, fc.word.cont), place := Listed(p), link := fp.word.cont,
                    setter := Ref(e))]
  }

  /** Call d links and publishes c. */
  lemma Publishes(s: State, d: nat, p: nat, c: nat) returns (t: State)
    requires s.crash == NoCrash && Exposed(s, d, p, c)
    ensures Leads(Steps(CLAIMED), s, t)
    ensures var fp, fc := s.heap[p], s.heap[c];
            t == Go(s, d, Ended).(heap := s.heap[
              p := fp.(word := Word(fp.word.state, Ref(c)), chain := [c] + fp.chain, listed := fp.listed + [c])][
              c := fc.(link := fp.word.cont, place := Listed(p))])
  {
    var fp, fc := s.heap[p], s.heap[c];
    var linked := Go(Put(s, c, fc.(link := fp.word.cont)), d, Add(p, c, fp.word, AddSwap));
    t := Go(s, d, Ended).(heap := s.heap[
      p := fp.(word := Word(fp.word.state, Ref(c)), chain := [c] + fp.chain, listed := fp.listed + [c])][
      c := fc.(link := fp.word.cont, place := Listed(p))]);
    Stays(Steps(CLAIMED), s);
    assert StepAddLink(s, linked, d) && Continue(s, linked, d, true);
    Then(Steps(CLAIMED), s, s, linked);
    assert StepAddSwap(linked, t, d) && Continue(linked, t, d, true);
    Then(Steps(CLAIMED), s, linked, t);
  }

  /** TryStartSetError by e saw the null link before that, and its swap succeeds after it: the list is spoilt. */
  lemma Touch(s: State, d: nat, p: nat, c: nat, e: nat) returns (t: State)
    requires s.crash == NoCrash && Exposed(s, d, p, c) && e !in s.acts
    ensures Leads(Steps(CLAIMED), s, t)
    ensures t == State(
              Touched(s, p, c, e),
              s.acts[d := s.acts[d].(frame := Ended)][
                     e := Act(Update(FinishError, c, true, s.heap[c].word, SettingResult, Load), Null)],
              NoCrash)
  {
    var aimed := Approaches(s, e, StartSetError, c, SettingResult, CLAIMED);
    var listed := Publishes(aimed, d, p, c);
    Joins(Steps(CLAIMED), s, aimed, listed);
    var fc := listed.heap[c];
    t := Go(Put(listed, c, fc.(word := Word(SettingResult, fc.word.cont), setter := Ref(e))),
            e, Update(FinishError, c, true, fc.word, SettingResult, Load));
    assert StepSwap(listed, t, e) && Continue(listed, t, e, true);
    Then(Steps(CLAIMED), s, listed, t);
    assert t.acts == s.acts[d := s.acts[d].(frame := Ended)][
                            e := Act(Update(FinishError, c, true, s.heap[c].word, SettingResult, Load), Null)];
  }

  /** p after x settled it. */
  function Settled(fp: Fut, x: nat): Fut {
    fp.(word := Swapped(fp.word, Succeeded), settled := fp.settled + 1, walker := Ref(x), setter := Null)
  }

  lemma Settle(s: State, p: nat, x: nat) returns (t: State)
    requires s.crash == NoCrash && Settleable(s, p) && x !in s.acts && s.heap[p].word.cont != ContinuationInvoked
    ensures Leads(Steps(CLAIMED), s, t)
    ensures t == State(s.heap[p := Settled(s.heap[p], x)],
                       s.acts[x := Act(Cleanup(p, s.heap[p].word.cont, false), Null)], NoCrash)
  {
    var near := Approaches(s, x, SetSuccess, p, Succeeded, CLAIMED);
    t := Go(Put(near, p, Settled(s.heap[p], x)), x, Cleanup(p, s.heap[p].word.cont, false));
    assert StepSwap(near, t, x) && Continue(near, t, x, true);
    Then(Steps(CLAIMED), s, near, t);
  }

  /** The settling call x cleans up after itself. */
  lemma Cleans(s: State, p: nat, x: nat) returns (t: State)
    requires s.crash == NoCrash && p in s.heap && x in s.acts && s.acts[x].frame.Cleanup?
    requires s.acts[x].frame.done == p && !s.acts[x].frame.sentinel
    ensures Leads(Steps(CLAIMED), s, t)
    ensures var fp := s.heap[p];
            var keeps := fp.word.state == Succeeded && fp.traits.useParentValue;
            t == Go(Put(s, p, fp.(link := if keeps then fp.link else Null)),
                    x, Walk(Ref(p), true, s.acts[x].frame.taken, Null, fp.word, AtNode))
  {
    var fp := s.heap[p];
    var keeps := fp.word.state == Succeeded && fp.traits.useParentValue;
    t := Go(Put(s, p, fp.(link := if keeps then fp.link else Null)),
            x, Walk(Ref(p), true, s.acts[x].frame.taken, Null, fp.word, AtNode));
    Stays(Steps(CLAIMED), s);
    assert StepCleanup(s, t, x) && Continue(s, t, x, true);
    Then(Steps(CLAIMED), s, s, t);
  }

  /** And takes the first of its list. */
  lemma TakesFirst(s: State, p: nat, c: nat, x: nat) returns (t: State)
    requires s.crash == NoCrash && p in s.heap && c in s.heap && p != c && x in s.acts
    requires s.acts[x].frame == Cleanup(p, Ref(c), false)
    ensures Leads(Steps(CLAIMED), s, t) && t.crash == NoCrash && t.heap.Keys == s.heap.Keys
    ensures t.acts == s.acts[x := s.acts[x].(
                    frame := Walk(Ref(p), true, Ref(c), Null, s.heap[p].word, PostLoad))]
    ensures t.heap[p].word == s.heap[p].word && t.heap[p].chain == Taken(s.heap[p], c).chain
    ensures t.heap[c].word == s.heap[c].word && t.heap[c].link == s.heap[c].link
  {
    var clean := Cleans(s, p, x);
    var taken := clean.heap[p := Taken(clean.heap[p], c)];
    t := Go(clean, x, Walk(Ref(p), true, Ref(c), Null, s.heap[p].word, PostLoad)).(heap :=
      taken[c := taken[c].(place := Handed, handed := taken[c].handed + 1, handler := Ref(x))]);
    assert StepNode(clean, t, x) && Continue(clean, t, x, true);
    Then(Steps(CLAIMED), s, clean, t);
  }

  /** It finds it past Pending. */
  lemma FindsItSettled(s: State, p: nat, c: nat, x: nat) returns (t: State)
    requires s.crash == NoCrash && c in s.heap && s.heap[c].word.state != Pending && x in s.acts
    requires s.acts[x].frame.Walk? && s.acts[x].frame.source == Ref(p) && s.acts[x].frame.node == Ref(c)
    requires s.acts[x].frame.walkPc == PostLoad
    ensures Leads(Steps(CLAIMED), s, t)
    ensures if s.heap[c].link != Null then t.crash == LinkOutsidePending
            else t == Go(s, x, Ended)
  {
    var Walk(src, isList, node, cursor, _, _) := s.acts[x].frame;
    var looked := Go(s, x, Walk(src, isList, node, cursor, s.heap[c].word, PostCheck));
    Stays(Steps(CLAIMED), s);
    assert StepPostLoad(s, looked, x) && Continue(s, looked, x, true);
    Then(Steps(CLAIMED), s, s, looked);
    if s.heap[c].link != Null {
      t := looked.(crash := LinkOutsidePending);
      assert StepPostCheck(looked, t, x) && Continue(looked, t, x, true);
      Then(Steps(CLAIMED), s, looked, t);
    } else {
      var last := Go(looked, x, Walk(src, isList, Null, Null, s.heap[c].word, AtNode));
      assert StepPostCheck(looked, last, x) && Continue(looked, last, x, true);
      Then(Steps(CLAIMED), s, looked, last);
      t := Go(last, x, Ended);
      assert StepNode(last, t, x) && Continue(last, t, x, true);
      Then(Steps(CLAIMED), s, last, t);
    }
  }

  /** However the list of p came about: while a continuation is being put in front of it, an error set on that one and a
      success of p crash the walk. */
  lemma TouchCrashesWalk(s: State, d: nat, p: nat, c: nat, e: nat, x: nat)
    requires s.crash == NoCrash && Exposed(s, d, p, c) && Settleable(s, p) && e != x && {e, x} !! s.acts.Keys
    ensures exists t :: Leads(Steps(CLAIMED), s, t) && t.crash == LinkOutsidePending
  {
    var spoilt := Touch(s, d, p, c, e);
    var settled := Settle(spoilt, p, x);
    Joins(Steps(CLAIMED), s, spoilt, settled);
    var taken := TakesFirst(settled, p, c, x);
    Joins(Steps(CLAIMED), s, settled, taken);
    var t := FindsItSettled(taken, p, c, x);
    Joins(Steps(CLAIMED), s, taken, t);
  }

  /** The second half of the TrySetError of e, up to its swap. */
  lemma NearFailed(s: State, c: nat, e: nat) returns (t: State)
    requires s.crash == NoCrash && HalfDone(s, e, c) && s.acts[e].frame.updatePc == Load
    requires s.heap[c].word.state == SettingResult
    ensures Leads(Steps(CLAIMED), s, t)
    ensures t == Go(s, e, Update(FinishError, c, true, s.heap[c].word, Failed, Swap))
  {
    var word := s.heap[c].word;
    var loaded := Go(s, e, Update(FinishError, c, true, word, s.acts[e].frame.next, Check));
    t := Go(s, e, Update(FinishError, c, true, word, Failed, Swap));
    Stays(Steps(CLAIMED), s);
    assert StepLoad(s, loaded, e) && Continue(s, loaded, e, true);
    Then(Steps(CLAIMED), s, s, loaded);
    assert t == Go(loaded, e, t.acts[e].frame);
    assert StepCheck(loaded, t, e, true) && Continue(loaded, t, e, true);
    Then(Steps(CLAIMED), s, loaded, t);
  }

  lemma Fails(s: State, c: nat, e: nat) returns (t: State)
    requires s.crash == NoCrash && HalfDone(s, e, c) && s.acts[e].frame.updatePc == Load
    requires s.heap[c].word == Word(SettingResult, Null)
    ensures Leads(Steps(CLAIMED), s, t)
    ensures var fc := s.heap[c];
            t == Go(
              Put(s, c, fc.(word := Word(Failed, Null), settled := fc.settled + 1, walker := Ref(e), setter := Null)),
              e, Cleanup(c, Null, false))
  {
    var near := NearFailed(s, c, e);
    var fc := s.heap[c];
    var failed := fc.(word := Word(Failed, Null), settled := fc.settled + 1, walker := Ref(e), setter := Null);
    t := Go(Put(near, c, failed), e, Cleanup(c, Null, false));
    assert StepSwap(near, t, e) && Continue(near, t, e, true);
    Then(Steps(CLAIMED), s, near, t);
    assert t == Go(Put(s, c, failed), e, Cleanup(c, Null, false));
  }

  /** And to its end, on a future without continuations. */
  lemma Finishes(s: State, c: nat, e: nat) returns (t: State)
    requires s.crash == NoCrash && HalfDone(s, e, c) && s.acts[e].frame.updatePc == Load
    requires s.heap[c].word == Word(SettingResult, Null)
    ensures Leads(Steps(CLAIMED), s, t) && t.crash == NoCrash && t.acts == s.acts[e := s.acts[e].(frame := Ended)]
    ensures c in t.heap && t.heap == s.heap[c := t.heap[c]] && t.heap[c].word.state == Failed && t.heap[c].link == Null
  {
    var failed := Fails(s, c, e);
    var clean := Cleans(failed, c, e);
    Joins(Steps(CLAIMED), s, failed, clean);
    t := Go(clean, e, Ended);
    assert StepNode(clean, t, e) && Continue(clean, t, e, true);
    Then(Steps(CLAIMED), s, clean, t);
  }

  /** And if the error is through with before p settles, nothing crashes: all three calls return, p is settled, and the
      whole list it had before is never handed over. */
  lemma TouchLosesList(s: State, d: nat, p: nat, c: nat, e: nat, x: nat)
    requires s.crash == NoCrash && Exposed(s, d, p, c) && Settleable(s, p) && e != x && {e, x} !! s.acts.Keys
    requires s.heap[c].word.cont == Null
    ensures exists t :: Leads(Steps(CLAIMED), s, t) && Lost(s, t, d, p, e, x)
  {
    var spoilt := Touch(s, d, p, c, e);
    var failed := Finishes(spoilt, c, e);
    Joins(Steps(CLAIMED), s, spoilt, failed);
    var settled := Settle(failed, p, x);
    Joins(Steps(CLAIMED), s, failed, settled);
    var taken := TakesFirst(settled, p, c, x);
    Joins(Steps(CLAIMED), s, settled, taken);
    var t := FindsItSettled(taken, p, c, x);
    Joins(Steps(CLAIMED), s, taken, t);
  }

  ghost predicate Lost(s: State, t: State, d: nat, p: nat, e: nat, x: nat) {
    && t.crash == NoCrash && t.acts.Keys == s.acts.Keys + {e, x} && d in t.acts
    && t.acts[d].frame == t.acts[e].frame == t.acts[x].frame == Ended
    && (forall a <- s.acts :: a != d ==> t.acts[a] == s.acts[a])
    && p in s.heap && p in t.heap && t.heap[p].word.state == Succeeded
    && t.heap[p].chain == s.heap[p].chain != []
  }
}
