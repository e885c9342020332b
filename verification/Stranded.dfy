/** Who a write leaves behind: a person whose round goes on but whose old interrupt id is led nowhere, because the write
    crashed, or because the driver predicted, wrongly, that it would send his work back. */
module Stranded {
  import opened Graph
  import opened Template
  import opened State
  import opened Gates
  import opened Engine
  import opened LiveGraph
  import opened Accounting
  import opened Driver
  import opened Rounds
  import opened Safety

  ghost predicate SentBackIn(s: State, x: Id) {
    exists k :: 0 <= k < |s.dag| && SentBackBy(s, k, x)
  }

  lemma SentBackMeansReset(s: State, x: Id)
    requires StatusOf(s.status, x) != Failed
    ensures SentBackIn(s, x) <==> x in ReopenResets(s) && ReopenResets(s)[x] == Pending
  {
    hide ReopenResets, Pull;
    ResetsChar(s, x);
    forall k | 0 <= k < |s.dag|
      ensures !HaltedAt(s, k, x)
    {
      HaltedHasFailed(s, k);
    }
  }

  lemma HaltedHasFailed(s: State, k: nat)
    requires k < |s.dag|
    ensures Rule(s, s.dag[k]).Halts? ==> StatusOf(s.status, s.dag[k].id) == Failed
  {
    hide Keep, Ancestors;
  }

  /** What an update alone does to a pending node: only an unblock that pulls it starts a new round. */
  lemma UpdateAt(s: State, u: Update, x: Id)
    requires StatusOf(s.status, x) == Pending
    ensures StatusOf(Updated(s, u).status, x) == Pending
    ensures AttemptOf(Updated(s, u), x) ==
            AttemptOf(s, x) + if u.Lift? && x in UnblockResets(s.dag, u.node, u.targets) then 1 else 0
  {
    hide Thaw, Pull;
    if u.Lift? {
      ThawAt(s, u.node, u.targets, u.grant, x);
    }
  }

  lemma WaiterIsPending(r: Inst, i: nat)
    requires RunOk(r) && i in r.ints && Unanswered(r.s, r.ints[i])
    ensures StatusOf(r.s.status, r.ints[i]) == Pending
  {
    assert IntOk(r, i);
    MemberSettledOrPending(r, r.ints[i]);
    hide RunOk;
  }

  // ---------- senders before and after an update ----------

  /** A gate that sends work back before an accepted edit does the same after it. */
  lemma SenderStays(s: State, dag': Dag, k: nat) returns (j: nat)
    requires Valid(s) && CanEdit(s, dag') && k < |s.dag| && Rule(s, s.dag[k]).Sends?
    ensures j < |dag'| && dag'[j] == s.dag[k]
    ensures Rule(s.(dag := dag'), dag'[j]) == Rule(s, s.dag[k])
  {
    RuleTargetsLegal(s, s.dag[k]);
    HistoryUnchanged(s, dag', k);
    assert s.dag[k] in dag';
    j :| 0 <= j < |dag'| && dag'[j] == s.dag[k];
    SameRule(s, s.(dag := dag'), s.dag[k]);
  }

  /** A waiter's ancestors are frozen, so what pulled him back still does. */
  lemma PullStays(s: State, dag': Dag, k: nat, gate: Id, targets: seq<Id>)
    requires Valid(s) && CanEdit(s, dag') && k < |s.dag| && DepsDone(s, s.dag[k]) && s.dag[k] in dag'
    requires s.dag[k].id in Pull(s.dag, gate, targets)
    ensures s.dag[k].id in Pull(dag', gate, targets)
  {
    var x := s.dag[k].id;
    AncestorsFrozen(s, dag', k);
    ValidIsUnique(s.dag);
    ValidIsUnique(dag');
    hide Valid, ValidTemplate, Ancestors, Downstream, CanEdit;
    if x != gate {
      var t :| t in targets && (x == t || x in Downstream(s.dag, t));
      ReachabilityDuality(s.dag, t, x);
      ReachabilityDuality(dag', t, x);
    }
  }

  lemma StillSentBack(r: Inst, dag': Dag, i: nat)
    requires RunOk(r) && CanUpdate(r, Edit(dag')) && i in r.ints && Unanswered(r.s, r.ints[i])
    requires SentBackIn(r.s, r.ints[i])
    ensures SentBackIn(r.s.(dag := dag'), r.ints[i])
  {
    var s, x := r.s, r.ints[i];
    assert IntOk(r, i);
    WaiterIsPending(r, i);
    var n := MemberCanComplete(r, x);
    ReadyDepsDone(s, s.dag[n]);
    assert x in r.ints.Values;
    hide RunOk, Valid, CanEdit, Rule, Pull, IsReady, DepsDone;
    assert s.dag[n] in dag';
    var k :| 0 <= k < |s.dag| && SentBackBy(s, k, x);
    assert Valid(s) by { RunIsValid(r); }
    var j := SenderStays(s, dag', k);
    PullStays(s, dag', n, s.dag[k].id, Rule(s, s.dag[k]).targets);
    assert SentBackBy(s.(dag := dag'), j, x);
  }

  /** The budget the gate has without the last grant on its log. */
  function BudgetWithout(s: State, n: Node): nat {
    var log := LogOf(s.unblocks, n.id);
    ReopenBudget(n) + Max(0, NetAmount(if log == [] then [] else log[..|log| - 1]))
  }

  /** When an update makes the prediction wrong, read off the state before it. A refund: everyone who would send him
      back is the refunded gate, and only its last grant lets it. An unblock: everyone who would send him back is
      itself pulled back, and he is not. */
  ghost predicate Mispredicted(s: State, u: Update, x: Id) {
    match u
    case Touch => false
    case Edit(_) => false
    case Refund(g) =>
      SentBackIn(s, x) && forall k :: 0 <= k < |s.dag| && SentBackBy(s, k, x) ==>
        s.dag[k].id == g && CountOf(s.counts, g) >= BudgetWithout(s, s.dag[k])
    case Lift(y, targets, _) =>
      && SentBackIn(s, x) && x !in UnblockResets(s.dag, y, targets)
      && forall k :: 0 <= k < |s.dag| && SentBackBy(s, k, x) ==> s.dag[k].id in UnblockResets(s.dag, y, targets)
  }

  lemma RefundedBudget(s: State, n: Node)
    requires CanRefund(s, n.id)
    ensures EffectiveBudget(n, TakeBack(s, n.id).unblocks) == BudgetWithout(s, n)
  {
    var log := LogOf(s.unblocks, n.id);
    var refund := Grant(log[|log| - 1].amount, true);
    assert LogOf(TakeBack(s, n.id).unblocks, n.id) == log + [refund];
    assert (log + [refund])[..|log|] == log;
    assert NetAmount(log + [refund]) == NetAmount(log) - refund.amount;
    assert NetAmount(log) == NetAmount(log[..|log| - 1]) + refund.amount;
  }

  /** After a refund the same gates send the same targets back, but for the refunded one, if its budget no longer
      allows. */
  lemma RefundSender(s: State, g: Id, k: nat, x: Id)
    requires AllKept(s) && CanRefund(s, g) && k < |s.dag|
    ensures SentBackBy(TakeBack(s, g), k, x) <==>
            SentBackBy(s, k, x) && !(s.dag[k].id == g && CountOf(s.counts, g) >= BudgetWithout(s, s.dag[k]))
  {
    hide Ancestors, Pull, Keep, BudgetWithout, AllKept, TakeBack, EffectiveBudget;
    var n := s.dag[k];
    TakeBackFrame(s, g);
    if n.id == g {
      RefundedBudget(s, n);
    } else {
      OtherBudget(s, g, n);
    }
    if SentBackBy(TakeBack(s, g), k, x) {
      RefundRule(s, g, n);
    }
  }

  lemma TakeBackFrame(s: State, g: Id)
    ensures TakeBack(s, g) == s.(unblocks := TakeBack(s, g).unblocks)
  {
  }

  lemma OtherBudget(s: State, g: Id, n: Node)
    requires n.id != g
    ensures EffectiveBudget(n, TakeBack(s, g).unblocks) == EffectiveBudget(n, s.unblocks)
  {
    assert LogOf(TakeBack(s, g).unblocks, n.id) == LogOf(s.unblocks, n.id);
  }

  /** After an unblock the same gates send the same targets back, but for those it pulled back. */
  lemma LiftSender(s: State, y: Id, targets: seq<Id>, grant: int, k: nat, x: Id)
    requires k < |s.dag|
    ensures Thaw(s, y, targets, grant).dag == s.dag
    ensures SentBackBy(Thaw(s, y, targets, grant), k, x) <==>
            SentBackBy(s, k, x) && s.dag[k].id !in UnblockResets(s.dag, y, targets)
  {
    hide Ancestors, Pull, Keep, Thaw, NetAmount;
    ThawAt(s, y, targets, grant, s.dag[k].id);
    if s.dag[k].id !in UnblockResets(s.dag, y, targets) {
      ThawSameRule(s, Thaw(s, y, targets, grant), s.dag[k]);
    }
  }

  /** The guard is exact: the state before would have sent him back, but neither the state after the update nor the
      update itself does. */
  lemma MispredictedIff(r: Inst, u: Update, i: nat)
    requires RunOk(r) && CanUpdate(r, u) && i in r.ints && Unanswered(r.s, r.ints[i])
    requires AttemptOf(Dispatch(Updated(r.s, u)), r.ints[i]) == AttemptOf(r.s, r.ints[i])
    ensures r.ints[i] in Reopening(r.s, u) <==> Mispredicted(r.s, u, r.ints[i])
  {
    hide RunOk, Dispatch, ReopenResets, UnblockResets, SentBackIn, Thaw, TakeBack, Mispredicted, CanUpdate;
    var x, s1 := r.ints[i], Updated(r.s, u);
    WaiterIsPending(r, i);
    UpdateAt(r.s, u, x);
    SentBackMeansReset(r.s, x);
    SentBackMeansReset(s1, x);
    DispatchAt(s1, x);
    assert !SentBackIn(s1, x);
    SendersAfter(r, u, i);
  }

  lemma SendersAfter(r: Inst, u: Update, i: nat)
    requires RunOk(r) && CanUpdate(r, u) && i in r.ints && Unanswered(r.s, r.ints[i])
    requires u.Lift? ==> r.ints[i] !in UnblockResets(r.s.dag, u.node, u.targets)
    ensures Mispredicted(r.s, u, r.ints[i]) <==> SentBackIn(r.s, r.ints[i]) && !SentBackIn(Updated(r.s, u), r.ints[i])
  {
    hide RunOk, SentBackBy, UnblockResets, Thaw, TakeBack, BudgetWithout, SentBackIn, CanEdit, CanUnblock, CanRefund;
    match u
    case Touch =>
    case Edit(dag') =>
      if SentBackIn(r.s, r.ints[i]) {
        StillSentBack(r, dag', i);
      }
    case Refund(g) => RefundSenders(r, g, r.ints[i]);
    case Lift(y, targets, grant) => LiftSenders(r.s, y, targets, grant, r.ints[i]);
  }

  lemma RefundSenders(r: Inst, g: Id, x: Id)
    requires RunOk(r) && CanRefund(r.s, g)
    ensures Mispredicted(r.s, Refund(g), x) <==> SentBackIn(r.s, x) && !SentBackIn(TakeBack(r.s, g), x)
  {
    RunIsValid(r);
    hide RunOk, Valid, SentBackBy, TakeBack, BudgetWithout, AllKept;
    var s := r.s;
    TakeBackFrame(s, g);
    forall k: nat | k < |s.dag|
      ensures SentBackBy(TakeBack(s, g), k, x) <==>
              SentBackBy(s, k, x) && !(s.dag[k].id == g && CountOf(s.counts, g) >= BudgetWithout(s, s.dag[k]))
    {
      RefundSender(s, g, k, x);
    }
  }

  lemma LiftSenders(s: State, y: Id, targets: seq<Id>, grant: int, x: Id)
    requires x !in UnblockResets(s.dag, y, targets)
    ensures Mispredicted(s, Lift(y, targets, grant), x) <==>
            SentBackIn(s, x) && !SentBackIn(Thaw(s, y, targets, grant), x)
  {
    hide SentBackBy, UnblockResets, Thaw;
    ThawDag(s, y, targets, grant);
    forall k: nat | k < |s.dag|
      ensures SentBackBy(Thaw(s, y, targets, grant), k, x) <==>
              SentBackBy(s, k, x) && s.dag[k].id !in UnblockResets(s.dag, y, targets)
    {
      LiftSender(s, y, targets, grant, k, x);
    }
  }

  lemma ThawDag(s: State, y: Id, targets: seq<Id>, grant: int)
    ensures Thaw(s, y, targets, grant).dag == s.dag
  {
  }

  // ---------- whole writes ----------

  /** One write of a history: from its update to its end or its crash. */
  ghost predicate IsWrite(acts: seq<Action>, m: nat, p: nat) {
    && m < p < |acts| && acts[m].WriteBegins? && (acts[p].WriteEnds? || acts[p].WriteCrashes?)
    && forall k :: m < k < p ==> !acts[k].WriteEnds? && !acts[k].WriteCrashes?
  }

  /** In the middle of a write the chains and the list of people to carry over stand still. */
  lemma {:induction false} DuringWrite(vs: seq<Svc>, acts: seq<Action>, m: nat, p: nat, k: nat)
    requires IsHistory(vs, acts) && IsWrite(acts, m, p) && m < k <= p
    ensures vs[k].bridge == Some(Survivors(vs[m].run, acts[m].update)) && vs[k].remap == vs[m].remap
  {
    hide Dispatch, Updated, CanUpdate, Survivors, Carried, ReadyIds, KindOf, CanFail, Waits, Provisioned;
    hide Complete, Busy;
    assert ActsOnce(vs, acts, k - 1);
    if k > m + 1 {
      DuringWrite(vs, acts, m, p, k - 1);
    }
  }

  /** He waited under this id before the write, his round goes on after it, and the id leads nowhere. */
  ghost predicate LeftBehind(vs: seq<Svc>, m: nat, p: nat, i: nat)
    requires m < p < |vs| - 1
  {
    var v, v' := vs[m], vs[p + 1];
    && i in v.run.ints && Unanswered(v.run.s, v.run.ints[i])
    && AttemptOf(v'.run.s, v.run.ints[i]) == AttemptOf(v.run.s, v.run.ints[i])
    && i !in v'.remap
  }

  /** Exactly who is left behind by a write, among those whose round goes on: everybody, if a call fails on the way;
      otherwise those about whom the prediction is wrong. */
  lemma WhoIsLeftBehind(vs: seq<Svc>, acts: seq<Action>, m: nat, p: nat, i: nat)
    requires IsHistory(vs, acts) && Inv(vs[0]) && IsWrite(acts, m, p)
    requires i in vs[m].run.ints && Unanswered(vs[m].run.s, vs[m].run.ints[i])
    requires AttemptOf(vs[p + 1].run.s, vs[m].run.ints[i]) == AttemptOf(vs[m].run.s, vs[m].run.ints[i])
    ensures LeftBehind(vs, m, p, i) <==>
            acts[p].WriteCrashes? || Mispredicted(vs[m].run.s, acts[m].update, vs[m].run.ints[i])
  {
    hide Inv, Step, IsHistory, Survivors, Mispredicted, Unanswered, Carried;
    var u := acts[m].update;
    HistoryIsOneLonger(vs, acts);
    HistoryInv(vs, acts, m);
    HistoryInv(vs, acts, p);
    DuringWrite(vs, acts, m, p, p);
    LiveIsNew(vs[m], i);
    SameRoundBetween(vs, acts, m, p, vs[m].run.ints[i]);
    BeganWith(vs, acts, m, u);
    InvRunOk(vs[m]);
    MispredictedIff(vs[m].run, u, i);
    EndedWith(vs, acts, p);
    if acts[p].WriteEnds? {
      CarriedWhole(vs[p], vs[p].bridge.value);
      SurvivorIff(vs[m].run, u, i);
    }
  }

  lemma LiveIsNew(v: Svc, i: nat)
    requires Inv(v) && i in v.run.ints
    ensures i !in v.remap
  {
  }

  lemma SameRoundBetween(vs: seq<Svc>, acts: seq<Action>, m: nat, p: nat, x: Id)
    requires IsHistory(vs, acts) && m < p < |acts| && AttemptOf(vs[p + 1].run.s, x) == AttemptOf(vs[m].run.s, x)
    ensures AttemptOf(vs[m + 1].run.s, x) == AttemptOf(vs[m].run.s, x)
  {
    hide IsHistory;
    HistoryIsOneLonger(vs, acts);
    HistoryGrows(vs, acts, m, m + 1);
    HistoryGrows(vs, acts, m + 1, p + 1);
  }

  lemma BeganWith(vs: seq<Svc>, acts: seq<Action>, m: nat, u: Update)
    requires IsHistory(vs, acts) && m < |acts| && acts[m] == WriteBegins(u)
    ensures CanUpdate(vs[m].run, u) && vs[m + 1].run.s == Dispatch(Updated(vs[m].run.s, u))
  {
    hide CanUpdate, Dispatch, Updated, Survivors, ReadyIds;
    assert ActsOnce(vs, acts, m);
  }

  lemma EndedWith(vs: seq<Svc>, acts: seq<Action>, p: nat)
    requires IsHistory(vs, acts) && p < |acts|
    ensures acts[p].WriteCrashes? ==> vs[p + 1].remap == vs[p].remap
    ensures acts[p].WriteEnds? ==> vs[p].bridge.Some? && Waits(vs[p].run)
    ensures acts[p].WriteEnds? ==> vs[p + 1].remap == vs[p].remap + Carried(vs[p].bridge.value, vs[p].run.ints)
  {
    hide Carried, Waits, CanFail;
    assert ActsOnce(vs, acts, p);
  }

  /** When a write ends, everyone it set out to carry over has been asked again, and is carried. */
  lemma CarriedWhole(v: Svc, b: map<nat, Id>)
    requires Inv(v) && v.bridge == Some(b) && Waits(v.run)
    ensures forall o :: o in Carried(b, v.run.ints) <==> o in b
  {
    forall o | o in b
      ensures b[o] in v.run.ints.Values
    {
      assert CarryOk(v, o, b[o]);
      assert Handled(v.run, b[o]);
    }
    hide Inv, Waits;
  }

  lemma SurvivorIff(r: Inst, u: Update, i: nat)
    requires i in r.ints && Unanswered(r.s, r.ints[i])
    ensures i in Survivors(r, u) <==> r.ints[i] !in Reopening(r.s, u)
  {
    hide Reopening;
  }

  /** A plain push or an edit that runs to its end leaves nobody behind. */
  lemma NobodyIsLeftBehind(vs: seq<Svc>, acts: seq<Action>, m: nat, p: nat, i: nat)
    requires IsHistory(vs, acts) && Inv(vs[0]) && IsWrite(acts, m, p)
    requires acts[p].WriteEnds? && (acts[m].update.Touch? || acts[m].update.Edit?)
    ensures !LeftBehind(vs, m, p, i)
  {
    hide Inv, IsHistory;
    HistoryIsOneLonger(vs, acts);
    if LeftBehind(vs, m, p, i) {
      WhoIsLeftBehind(vs, acts, m, p, i);
    }
  }
}
