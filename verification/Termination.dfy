/** Why the engine stops: a measure every effective step lowers, and the bound on a run that follows from it. */
module Termination {
  import opened Graph
  import opened Template
  import opened State
  import opened Gates
  import opened Engine

  // ---------- sums ----------

  function Sum(xs: seq<nat>): nat {
    if xs == [] then 0 else Sum(xs[..|xs| - 1]) + xs[|xs| - 1]
  }

  lemma {:induction false} SumAtMost(xs: seq<nat>, ys: seq<nat>)
    requires |xs| == |ys| && forall i :: 0 <= i < |xs| ==> xs[i] <= ys[i]
    ensures Sum(xs) <= Sum(ys)
  {
    if xs != [] {
      SumAtMost(xs[..|xs| - 1], ys[..|xs| - 1]);
    }
  }

  lemma {:induction false} SumBelow(xs: seq<nat>, ys: seq<nat>, k: nat)
    requires |xs| == |ys| && forall i :: 0 <= i < |xs| ==> xs[i] <= ys[i]
    requires k < |xs| && xs[k] < ys[k]
    ensures Sum(xs) < Sum(ys)
  {
    var m := |xs| - 1;
    if k < m {
      SumBelow(xs[..m], ys[..m], k);
    } else {
      SumAtMost(xs[..m], ys[..m]);
    }
  }

  lemma {:induction false} SumBounded(xs: seq<nat>, b: nat)
    requires forall i :: 0 <= i < |xs| ==> xs[i] <= b
    ensures Sum(xs) <= b * |xs|
  {
    if xs != [] {
      SumBounded(xs[..|xs| - 1], b);
      assert b * |xs| == b * (|xs| - 1) + b;
    }
  }

  // ---------- the measure ----------

  /** How often a gate may still send work back under its budget. */
  function LeftOf(s: State, n: Node): nat {
    if n.role.Gate? then Max(0, EffectiveBudget(n, s.unblocks) - CountOf(s.counts, n.id)) else 0
  }

  function Weight(st: Status): nat {
    if st == Pending then 2 else if st == Failed then 1 else 0
  }

  function Lefts(s: State): (r: seq<nat>)
    ensures |r| == |s.dag| && forall i :: 0 <= i < |s.dag| ==> r[i] == LeftOf(s, s.dag[i])
  {
    seq(|s.dag|, i requires 0 <= i < |s.dag| => LeftOf(s, s.dag[i]))
  }

  function Weights(s: State): (r: seq<nat>)
    ensures |r| == |s.dag| && forall i :: 0 <= i < |s.dag| ==> r[i] == Weight(StatusOf(s.status, s.dag[i].id))
  {
    seq(|s.dag|, i requires 0 <= i < |s.dag| => Weight(StatusOf(s.status, s.dag[i].id)))
  }

  function Remaining(s: State): nat {
    Sum(Lefts(s))
  }

  /** The lexicographic measure (budget left, then pending and failed nodes) as one number. */
  function Rank(s: State): nat {
    Remaining(s) * (2 * |s.dag| + 1) + Sum(Weights(s))
  }

  /** The whole graph's send-back budget, human grants included. */
  function TotalReopenBudget(dag: Dag, grants: map<Id, seq<Grant>>): nat {
    if dag == [] then 0
    else
      var n := dag[|dag| - 1];
      TotalReopenBudget(dag[..|dag| - 1], grants) + if n.role.Gate? then EffectiveBudget(n, grants) else 0
  }

  lemma {:induction false} RemainingWithinTotal(s: State, k: nat)
    requires k <= |s.dag|
    ensures Sum(Lefts(s)[..k]) <= TotalReopenBudget(s.dag[..k], s.unblocks)
  {
    if k > 0 {
      RemainingWithinTotal(s, k - 1);
      assert Lefts(s)[..k][..k - 1] == Lefts(s)[..k - 1];
      assert s.dag[..k][..k - 1] == s.dag[..k - 1];
    }
  }

  lemma RankBound(s: State)
    ensures Rank(s) <= Remaining(s) * (2 * |s.dag| + 1) + 2 * |s.dag|
    ensures Remaining(s) <= TotalReopenBudget(s.dag, s.unblocks)
  {
    SumBounded(Weights(s), 2);
    RemainingWithinTotal(s, |s.dag|);
    assert s.dag[..|s.dag|] == s.dag && Lefts(s)[..|s.dag|] == Lefts(s);
  }

  lemma LexLower(r: nat, r': nat, w: nat, w': nat, n: nat)
    requires r' < r && w' <= 2 * n
    ensures r' * (2 * n + 1) + w' < r * (2 * n + 1) + w
  {
    var m, d := 2 * n + 1, r - r' - 1;
    assert r * m == (r' + 1 + d) * m == r' * m + m + d * m;
    assert 0 <= d * m;
  }

  // ---------- steps that change something ----------

  /** Some failed gate is under budget with a legal target. */
  ghost predicate SendsBack(s: State) {
    exists i :: 0 <= i < |s.dag| && Rule(s, s.dag[i]).Sends?
  }

  /** A dispatch that writes something, or a worker that returns. */
  ghost predicate Effective(s: State, e: Event) {
    (e.Dispatched? && ReopenResets(s) != map[]) || e.Completed?
  }

  lemma DispatchLeft(s: State, i: nat)
    requires Valid(s) && i < |s.dag|
    ensures LeftOf(Dispatch(s), s.dag[i]) <= LeftOf(s, s.dag[i])
    ensures Rule(s, s.dag[i]).Sends? ==> LeftOf(Dispatch(s), s.dag[i]) < LeftOf(s, s.dag[i])
  {
    hide Dispatch, ReopenResets, Valid, Ids, Rule, EffectiveBudget;
    DispatchAt(s, s.dag[i].id);
    DispatchFrame(s);
    assert EffectiveBudget(s.dag[i], Dispatch(s).unblocks) == EffectiveBudget(s.dag[i], s.unblocks);
    if Rule(s, s.dag[i]).Sends? {
      SenderUnderBudget(s, i);
    }
  }

  lemma SendBackLowersRemaining(s: State)
    requires Valid(s) && SendsBack(s)
    ensures Remaining(Dispatch(s)) < Remaining(s)
  {
    hide Dispatch, Rule, LeftOf, Valid, ValidTemplate;
    DispatchFrame(s);
    var k :| 0 <= k < |s.dag| && Rule(s, s.dag[k]).Sends?;
    forall i | 0 <= i < |s.dag|
      ensures LeftOf(Dispatch(s), s.dag[i]) <= LeftOf(s, s.dag[i])
    {
      DispatchLeft(s, i);
    }
    DispatchLeft(s, k);
    SumBelow(Lefts(Dispatch(s)), Lefts(s), k);
  }

  lemma DispatchKeepsRemaining(s: State)
    requires Valid(s)
    ensures Remaining(Dispatch(s)) <= Remaining(s)
  {
    hide Dispatch, Rule, LeftOf, Valid;
    DispatchFrame(s);
    forall i | 0 <= i < |s.dag|
      ensures LeftOf(Dispatch(s), s.dag[i]) <= LeftOf(s, s.dag[i])
    {
      DispatchLeft(s, i);
    }
    SumAtMost(Lefts(Dispatch(s)), Lefts(s));
  }

  /** Without a gate that sends work back, dispatch only turns failed gates into blocked ones. */
  lemma OnlyBlocks(s: State, x: Id)
    requires Valid(s) && !SendsBack(s)
    ensures var was, now := StatusOf(s.status, x), StatusOf(Dispatch(s).status, x);
            && (x in ReopenResets(s) <==> was == Failed)
            && now == (if was == Failed then Blocked else was)
  {
    hide Dispatch, ReopenResets, Rule, ValidTemplate, Pull, Ids;
    DispatchAt(s, x);
    ResetsChar(s, x);
    forall i | 0 <= i < |s.dag|
      ensures !SentBackBy(s, i, x)
      ensures HaltedAt(s, i, x) ==> StatusOf(s.status, x) == Failed
    {
      RuleTargetsLegal(s, s.dag[i]);
    }
    if StatusOf(s.status, x) == Failed {
      var i := IndexIn(s.dag, x);
      FailedIsReset(s, i);
    }
  }

  lemma IndexIn(dag: Dag, x: Id) returns (i: nat)
    requires x in Ids(dag)
    ensures i < |dag| && dag[i].id == x
  {
    i :| 0 <= i < |dag| && dag[i].id == x;
  }

  lemma BlockingLowersWeight(s: State, x: Id)
    requires Valid(s) && !SendsBack(s) && x in ReopenResets(s)
    ensures Sum(Weights(Dispatch(s))) < Sum(Weights(s))
  {
    hide Dispatch, ReopenResets, SendsBack, ValidTemplate, RunInv, Ids;
    DispatchFrame(s);
    forall i | 0 <= i < |s.dag|
      ensures Weight(StatusOf(Dispatch(s).status, s.dag[i].id)) <= Weight(StatusOf(s.status, s.dag[i].id))
    {
      OnlyBlocks(s, s.dag[i].id);
    }
    OnlyBlocks(s, x);
    var k := IndexIn(s.dag, x);
    SumBelow(Weights(Dispatch(s)), Weights(s), k);
  }

  lemma DispatchLowersRank(s: State)
    requires Valid(s) && ReopenResets(s) != map[]
    ensures Rank(Dispatch(s)) < Rank(s)
  {
    hide Dispatch, ReopenResets, Valid, Lefts, Weights, Sum, SendsBack;
    var s' := Dispatch(s);
    DispatchFrame(s);
    if SendsBack(s) {
      SendBackLowersRemaining(s);
      SumBounded(Weights(s'), 2);
      LexLower(Remaining(s), Remaining(s'), Sum(Weights(s)), Sum(Weights(s')), |s.dag|);
    } else {
      var x :| x in ReopenResets(s);
      BlockingLowersWeight(s, x);
      DispatchKeepsRemaining(s);
      assert Remaining(s') * (2 * |s.dag| + 1) <= Remaining(s) * (2 * |s.dag| + 1);
    }
  }

  lemma CompleteLowersRank(s: State, x: Id, r: Result)
    requires Valid(s) && CanComplete(s, x)
    ensures Rank(Complete(s, x, r)) < Rank(s)
    ensures Remaining(Complete(s, x, r)) == Remaining(s)
  {
    hide Complete, ValidTemplate, Outcome, Sum, Lefts, Weights, RunInv, Consistent;
    var k :| 0 <= k < |s.dag| && s.dag[k].id == x && IsReady(s.status, s.dag[k]);
    CompleteKeepsLefts(s, k, r);
    CompleteLowersWeight(s, k, r);
  }

  lemma CompleteKeepsLefts(s: State, k: nat, r: Result)
    requires ValidTemplate(s.dag) && k < |s.dag|
    ensures var s' := Complete(s, s.dag[k].id, r); s'.dag == s.dag && Lefts(s') == Lefts(s)
  {
    hide Complete, ValidTemplate, Outcome;
    CompleteAtIndex(s, k, r, s.dag[k].id);
  }

  lemma CompleteLowersWeight(s: State, k: nat, r: Result)
    requires ValidTemplate(s.dag) && k < |s.dag| && StatusOf(s.status, s.dag[k].id) == Pending
    ensures Sum(Weights(Complete(s, s.dag[k].id, r))) < Sum(Weights(s))
  {
    hide Complete, ValidTemplate, Outcome, Sum;
    var s' := Complete(s, s.dag[k].id, r);
    CompleteAtIndex(s, k, r, s.dag[k].id);
    OutcomeSettled(s.dag[k], r);
    forall i | 0 <= i < |s.dag|
      ensures Weight(StatusOf(s'.status, s.dag[i].id)) <= Weight(StatusOf(s.status, s.dag[i].id))
    {
      CompleteAtIndex(s, k, r, s.dag[i].id);
    }
    SumBelow(Weights(s'), Weights(s), k);
  }

  lemma OutcomeSettled(n: Node, r: Result)
    ensures Settled(Outcome(n, r))
    ensures Weight(Outcome(n, r)) < 2
  {
  }

  /** Every effective step lowers the measure: it ends, whatever the workers answer. */
  lemma StepLowersRank(s: State, e: Event, s': State)
    requires Valid(s) && Next(s, e, s') && Effective(s, e)
    ensures Rank(s') < Rank(s)
    ensures Remaining(s') + (if e.Dispatched? && SendsBack(s) then 1 else 0) <= Remaining(s)
    ensures s'.dag == s.dag && s'.unblocks == s.unblocks
  {
    hide Dispatch, Complete, Valid, Rank, Remaining, ReopenResets, SendsBack, CanComplete;
    match e
    case Dispatched =>
      DispatchLowersRank(s);
      DispatchKeepsRemaining(s);
      DispatchFrame(s);
      if SendsBack(s) {
        SendBackLowersRemaining(s);
      }
    case Completed(x, r) =>
      CompleteLowersRank(s, x, r);
      assert CanComplete(s, x) ==> x in Ids(s.dag) by { CompletableInDag(s, x); }
      CompleteAt(s, x, r, x);
    case _ =>
  }

  lemma CompletableInDag(s: State, x: Id)
    ensures CanComplete(s, x) ==> x in Ids(s.dag)
  {
  }

  /** How many dispatches of a run sent something back. */
  ghost function SendBackCount(ss: seq<State>, es: seq<Event>): nat
    requires |es| <= |ss|
  {
    if es == [] then 0
    else
      var k := |es| - 1;
      SendBackCount(ss[..k], es[..k]) + if es[k].Dispatched? && SendsBack(ss[k]) then 1 else 0
  }

  lemma {:induction false} RunConsumes(ss: seq<State>, es: seq<Event>)
    requires IsRun(ss, es) && Valid(ss[0])
    requires forall k :: 0 <= k < |es| ==> Effective(ss[k], es[k])
    ensures Valid(ss[|es|])
    ensures Rank(ss[|es|]) + |es| <= Rank(ss[0])
    ensures Remaining(ss[|es|]) + SendBackCount(ss, es) <= Remaining(ss[0])
  {
    hide Next, Valid, Rank, Remaining, Effective, SendsBack;
    if es != [] {
      var k := |es| - 1;
      RunConsumes(ss[..k + 1], es[..k]);
      assert ss[..k + 1][..k] == ss[..k];
      SendBackPrefix(ss, ss[..k + 1], es[..k]);
      assert Next(ss[k], es[k], ss[k + 1]);
      StepLowersRank(ss[k], es[k], ss[k + 1]);
      StepKeepsValid(ss[k], es[k], ss[k + 1]);
      assert ss[..k][..k] == ss[..k];
      SendBackPrefix(ss[..k + 1], ss[..k], es[..k]);
    }
  }

  lemma {:induction false} SendBackPrefix(ss: seq<State>, ss': seq<State>, es: seq<Event>)
    requires |es| <= |ss| && |es| <= |ss'| && forall i :: 0 <= i < |es| ==> ss[i] == ss'[i]
    ensures SendBackCount(ss, es) == SendBackCount(ss', es)
  {
    hide SendsBack;
    if es != [] {
      SendBackPrefix(ss[..|es| - 1], ss'[..|es| - 1], es[..|es| - 1]);
    }
  }

  /** The explicit bounds: between human interventions a run of n nodes with remaining budget b takes at most
      b(2n + 1) + 2n effective steps, and at most `total_reopen_budget` dispatches send anything back. */
  lemma RunsAreBounded(ss: seq<State>, es: seq<Event>)
    requires IsRun(ss, es) && Valid(ss[0])
    requires forall k :: 0 <= k < |es| ==> Effective(ss[k], es[k])
    ensures |es| <= Remaining(ss[0]) * (2 * |ss[0].dag| + 1) + 2 * |ss[0].dag|
    ensures SendBackCount(ss, es) <= TotalReopenBudget(ss[0].dag, ss[0].unblocks)
  {
    hide Effective, Valid, Rank, Remaining, SendBackCount, TotalReopenBudget;
    RunConsumes(ss, es);
    RankBound(ss[0]);
  }
}
