/** What the driver's fingerprint of an instance can and cannot see. */
module Progress {
  import opened Graph
  import opened Template
  import opened State
  import opened Gates
  import opened Engine
  import opened Driver

  /** How far a status is from pending, within one round. */
  function Stage(st: Status): nat {
    match st
    case Pending => 0
    case Running => 0
    case Done => 1
    case Failed => 1
    case Blocked => 2
  }

  ghost predicate NewRound(a: State, b: State) {
    exists x :: AttemptOf(a, x) < AttemptOf(b, x)
  }

  ghost predicate Onward(a: State, b: State) {
    forall x :: Stage(StatusOf(a.status, x)) <= Stage(StatusOf(b.status, x))
  }

  ghost predicate Further(a: State, b: State) {
    Onward(a, b) && exists x :: Stage(StatusOf(a.status, x)) < Stage(StatusOf(b.status, x))
  }

  /** Something moved: a node entered a new round, or some status went further and none came back. */
  ghost predicate Changed(a: State, b: State) {
    RoundsGrow(a, b) && (NewRound(a, b) || Further(a, b))
  }

  ghost predicate Forward(a: State, b: State) {
    a == b || Changed(a, b)
  }

  lemma RoundsChain(a: State, b: State, c: State)
    requires RoundsGrow(a, b) && RoundsGrow(b, c)
    ensures RoundsGrow(a, c)
    ensures NewRound(a, b) || NewRound(b, c) ==> NewRound(a, c)
  {
    forall x
      ensures AttemptOf(a, x) <= AttemptOf(c, x)
    {
      assert AttemptOf(a, x) <= AttemptOf(b, x) <= AttemptOf(c, x);
    }
    if x :| AttemptOf(a, x) < AttemptOf(b, x) {
      assert AttemptOf(b, x) <= AttemptOf(c, x);
    }
    if x :| AttemptOf(b, x) < AttemptOf(c, x) {
      assert AttemptOf(a, x) <= AttemptOf(b, x);
    }
  }

  lemma FurtherChain(a: State, b: State, c: State)
    requires Further(a, b) && Further(b, c)
    ensures Further(a, c)
  {
    forall x
      ensures Stage(StatusOf(a.status, x)) <= Stage(StatusOf(c.status, x))
    {
      assert Stage(StatusOf(a.status, x)) <= Stage(StatusOf(b.status, x)) <= Stage(StatusOf(c.status, x));
    }
    var x :| Stage(StatusOf(a.status, x)) < Stage(StatusOf(b.status, x));
    assert Stage(StatusOf(b.status, x)) <= Stage(StatusOf(c.status, x));
  }

  lemma ChangedChain(a: State, b: State, c: State)
    requires Changed(a, b) && Changed(b, c)
    ensures Changed(a, c)
  {
    hide Further, NewRound, RoundsGrow;
    RoundsChain(a, b, c);
    if Further(a, b) && Further(b, c) {
      FurtherChain(a, b, c);
    }
  }

  lemma ForwardChain(a: State, b: State, c: State)
    requires Forward(a, b) && Forward(b, c)
    ensures Forward(a, c)
    ensures a == c ==> a == b == c
  {
    hide Changed;
    if Changed(a, b) && Changed(b, c) {
      ChangedChain(a, b, c);
    }
    if Changed(a, c) {
      ChangedShows(a, c);
    }
  }

  /** The fingerprint: status, reopen counts and rounds. */
  function Fingerprint(s: State): (map<Id, Status>, map<Id, nat>, map<Id, nat>) {
    (s.status, s.counts, s.attempts)
  }

  /** Whatever moved shows in the fingerprint. */
  lemma ChangedShows(a: State, b: State)
    requires Changed(a, b)
    ensures Fingerprint(a) != Fingerprint(b)
  {
  }

  lemma CompleteChanges(s: State, x: Id, r: Result)
    requires Valid(s) && CanComplete(s, x)
    ensures Changed(s, Complete(s, x, r))
  {
    hide Complete, ValidTemplate, Outcome;
    var k :| 0 <= k < |s.dag| && s.dag[k].id == x && IsReady(s.status, s.dag[k]);
    var s' := Complete(s, x, r);
    CompleteRounds(s, x, r);
    OutcomeStage(s.dag[k], r);
    forall y
      ensures Stage(StatusOf(s.status, y)) <= Stage(StatusOf(s'.status, y))
      ensures y == x ==> Stage(StatusOf(s.status, y)) < Stage(StatusOf(s'.status, y))
    {
      CompleteAtIndex(s, k, r, y);
    }
  }

  lemma OutcomeStage(n: Node, r: Result)
    ensures Stage(Outcome(n, r)) == 1
  {
  }

  /** A dispatch that resets nothing to pending only ever takes gates from failed to blocked. */
  lemma OnlyBlockedIsFurther(s: State, x: Id)
    requires Valid(s) && x in ReopenResets(s)
    requires forall y :: y in ReopenResets(s) ==> ReopenResets(s)[y] != Pending
    ensures Further(s, Dispatch(s))
  {
    hide Valid, ReopenResets, Dispatch;
    forall y
      ensures Stage(StatusOf(s.status, y)) <= Stage(StatusOf(Dispatch(s).status, y))
      ensures y in ReopenResets(s) ==> Stage(StatusOf(s.status, y)) < Stage(StatusOf(Dispatch(s).status, y))
    {
      DispatchAt(s, y);
      ResetsChar(s, y);
      if y in ReopenResets(s) {
        BlockedWasFailed(s, y);
      }
    }
    assert Stage(StatusOf(s.status, x)) < Stage(StatusOf(Dispatch(s).status, x));
  }

  /** A dispatch that writes anything changes the fingerprint for good; otherwise it is the identity. */
  lemma DispatchForward(s: State)
    requires Valid(s)
    ensures ReopenResets(s) == map[] ==> Dispatch(s) == s
    ensures ReopenResets(s) != map[] ==> Changed(s, Dispatch(s))
  {
    hide Valid, ReopenResets;
    DispatchRounds(s);
    if ReopenResets(s) != map[] {
      hide Dispatch;
      var x :| x in ReopenResets(s);
      if x' :| x' in ReopenResets(s) && ReopenResets(s)[x'] == Pending {
        DispatchAt(s, x');
        assert AttemptOf(s, x') < AttemptOf(Dispatch(s), x');
        assert NewRound(s, Dispatch(s));
      } else {
        OnlyBlockedIsFurther(s, x);
      }
    }
  }

  // ---------- stalling ----------

  /** Work that should be out and is not: a failed gate to settle, or a ready node nobody is running. */
  ghost predicate Stalled(r: Inst) {
    ReopenResets(r.s) != map[] || !(ReadyIds(r.s) <= r.ints.Values)
  }

  /** Why an unchanged fingerprint is a sound reason to stop: if a touch of the state ended where it began, dispatch had
      nothing to do and the super-step it launched, now all waiting on people, is everything that is ready. */
  lemma UnchangedIsQuiet(s: State, r: Inst)
    requires Valid(s)
    requires Forward(Dispatch(s), r.s) && Fingerprint(r.s) == Fingerprint(s)
    requires r.s == Dispatch(s) ==> r.step == ReadyIds(Dispatch(s))
    requires forall x :: x in r.step && StatusOf(r.s.status, x) == Pending ==> x in r.ints.Values
    ensures !Stalled(r)
  {
    hide Valid, Dispatch, ReopenResets, Changed, Fingerprint;
    DispatchForward(s);
    if Changed(s, Dispatch(s)) {
      ForwardChain(s, Dispatch(s), r.s);
      ChangedShowsForward(s, Dispatch(s), r.s);
    }
    assert Dispatch(s) == s;
    if Changed(s, r.s) {
      ChangedShows(s, r.s);
    }
    forall x | x in ReadyIds(r.s)
      ensures x in r.ints.Values
    {
      ReadyPending(r.s, x);
    }
  }

  lemma ChangedShowsForward(a: State, b: State, c: State)
    requires Changed(a, b) && Forward(b, c)
    ensures Fingerprint(a) != Fingerprint(c)
  {
    hide Changed, Fingerprint;
    if b != c {
      ChangedChain(a, b, c);
    }
    ChangedShows(a, c);
  }

  lemma ReadyPending(s: State, x: Id)
    requires x in ReadyIds(s)
    ensures StatusOf(s.status, x) == Pending
  {
  }

  // ---------- what it means not to be stalled ----------

  /** Upstream of x somebody is awaited, or a gate is blocked. */
  ghost predicate HeldUp(r: Inst, x: Id) {
    exists b :: b in Ancestors(r.s.dag, x) && (StatusOf(r.s.status, b) == Blocked || b in r.ints.Values)
  }

  lemma {:induction false} HeldUpOrWaiting(r: Inst, i: nat)
    requires Valid(r.s) && i < |r.s.dag| && ReadyIds(r.s) <= r.ints.Values
    requires forall x :: StatusOf(r.s.status, x) != Failed
    ensures var x := r.s.dag[i].id;
            AtRest(StatusOf(r.s.status, x)) || x in r.ints.Values || HeldUp(r, x)
    decreases Ancestors(r.s.dag, r.s.dag[i].id)
  {
    ValidIsUnique(r.s.dag);
    hide ValidTemplate, DepMap, Ids, Reach, IsReady, Ancestors;
    var s, x := r.s, r.s.dag[i].id;
    if StatusOf(s.status, x) == Pending && x !in r.ints.Values {
      assert x !in ReadyIds(s);
      var d := Unready(s, s.dag[i]);
      DepIsAncestor(s.dag, i, d);
      if StatusOf(s.status, d) == Pending && d !in r.ints.Values {
        var j := IndexOf(s.dag, i, d);
        FewerAncestors(s.dag, i, d);
        HeldUpOrWaiting(r, j);
        var b :| b in Ancestors(s.dag, d) && (StatusOf(s.status, b) == Blocked || b in r.ints.Values);
        assert b in Ancestors(s.dag, x);
      }
    }
  }

  /** An instance that is not stalled has no failed gate left to settle, and whatever is unfinished in it is a blocked
      gate, waits for somebody who has been asked, or lies downstream of such. */
  lemma QuietMeans(r: Inst)
    requires Valid(r.s) && !Stalled(r)
    ensures forall x :: StatusOf(r.s.status, x) != Failed
    ensures forall i :: 0 <= i < |r.s.dag| ==>
      (AtRest(StatusOf(r.s.status, r.s.dag[i].id)) || r.s.dag[i].id in r.ints.Values || HeldUp(r, r.s.dag[i].id))
  {
    hide ValidTemplate, ReopenResets, ReadyIds, HeldUp;
    forall x
      ensures StatusOf(r.s.status, x) != Failed
    {
      if StatusOf(r.s.status, x) == Failed {
        var i :| 0 <= i < |r.s.dag| && r.s.dag[i].id == x;
        FailedIsReset(r.s, i);
      }
    }
    forall i | 0 <= i < |r.s.dag|
      ensures AtRest(StatusOf(r.s.status, r.s.dag[i].id)) || r.s.dag[i].id in r.ints.Values || HeldUp(r, r.s.dag[i].id)
    {
      HeldUpOrWaiting(r, i);
    }
  }
}
