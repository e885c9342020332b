/** The step relation of a running instance: what every step keeps, why it ends, and why it never ends silently. */
module Engine {
  import opened Graph
  import opened Template
  import opened State
  import opened Gates

  // ---------- invariant ----------

  predicate Settled(st: Status) {
    st == Done || st == Failed
  }

  predicate Stopped(st: Status) {
    st == Failed || st == Blocked
  }

  ghost predicate DepsDone(s: State, n: Node) {
    forall d :: d in n.deps ==> StatusOf(s.status, d) == Done
  }

  /** A node that is done or failed has every dependency done. */
  ghost predicate RunInv(s: State) {
    forall i :: 0 <= i < |s.dag| && Settled(StatusOf(s.status, s.dag[i].id)) ==> DepsDone(s, s.dag[i])
  }

  ghost predicate Consistent(s: State) {
    && (forall i :: 0 <= i < |s.dag| && Stopped(StatusOf(s.status, s.dag[i].id)) ==> s.dag[i].role.Gate?)
    && (forall x :: StatusOf(s.status, x) != Pending ==> x in Ids(s.dag))
    && (forall x :: StatusOf(s.status, x) != Running)
  }

  ghost predicate Valid(s: State) {
    ValidTemplate(s.dag) && RunInv(s) && Consistent(s)
  }

  // ---------- steps ----------

  datatype Event =
    | Dispatched
    | Completed(node: Id, result: Result)
    | Unblocked(node: Id, targets: seq<Id>, grant: int)
    | Refunded(node: Id)
    | Edited(dag: Dag)

  ghost predicate CanComplete(s: State, x: Id) {
    exists i :: 0 <= i < |s.dag| && s.dag[i].id == x && IsReady(s.status, s.dag[i])
  }

  ghost predicate CanUnblock(s: State, x: Id, targets: seq<Id>) {
    && x in Ids(s.dag)
    && StatusOf(s.status, x) == Blocked
    && GrantsUsed(s.unblocks, x) < MAX_UNBLOCK_GRANTS
    && forall t :: t in targets ==> t in Ancestors(s.dag, x)
  }

  /** What one accepted unblock writes, before the dispatch that follows it. */
  ghost function Thaw(s: State, x: Id, targets: seq<Id>, grant: int): State {
    var resets := UnblockResets(s.dag, x, targets);
    s.(status := Merge(s.status, resets),
       attempts := AddCounts(s.attempts, AttemptIncrements(resets)),
       unblocks := ExtendLists(s.unblocks, map[x := [Grant(ClampGrant(grant), false)]]))
  }

  ghost predicate CanRefund(s: State, x: Id) {
    var log := LogOf(s.unblocks, x);
    log != [] && !log[|log| - 1].refund
  }

  function TakeBack(s: State, x: Id): State {
    var log := LogOf(s.unblocks, x);
    if log == [] then s
    else s.(unblocks := ExtendLists(s.unblocks, map[x := [Grant(log[|log| - 1].amount, true)]]))
  }

  /** An accepted edit: still a valid template, and no node that has left pending was touched. */
  ghost predicate CanEdit(s: State, dag': Dag) {
    ValidTemplate(dag') && Frozen(s.dag, s.status, dag')
  }

  ghost predicate Frozen(dag: Dag, status: map<Id, Status>, dag': Dag) {
    forall i :: 0 <= i < |dag| && StatusOf(status, dag[i].id) != Pending ==> dag[i] in dag'
  }

  ghost predicate Next(s: State, e: Event, s': State) {
    match e
    case Dispatched => s' == Dispatch(s)
    case Completed(x, r) => CanComplete(s, x) && s' == Complete(s, x, r)
    case Unblocked(x, targets, grant) => CanUnblock(s, x, targets) && s' == Thaw(s, x, targets, grant)
    case Refunded(x) => CanRefund(s, x) && s' == TakeBack(s, x)
    case Edited(dag') => CanEdit(s, dag') && s' == s.(dag := dag')
  }

  ghost predicate IsRun(ss: seq<State>, es: seq<Event>) {
    |ss| == |es| + 1 && forall k :: 0 <= k < |es| ==> Next(ss[k], es[k], ss[k + 1])
  }

  /** A fresh instance: a validated template and empty channels. */
  function Fresh(dag: Dag): State {
    State(dag, map[], map[], map[], map[], map[])
  }

  // ---------- what dispatch does to one node ----------

  /** Dispatch, node by node: a written node is pending with one more attempt or blocked with the same attempt. */
  lemma DispatchAt(s: State, x: Id)
    ensures var r, s' := ReopenResets(s), Dispatch(s);
            && StatusOf(s'.status, x) == (if x in r then r[x] else StatusOf(s.status, x))
            && CountOf(s'.attempts, x) == CountOf(s.attempts, x) + (if x in r && r[x] == Pending then 1 else 0)
            && CountOf(s'.counts, x) == CountOf(s.counts, x) +
                 (if x in Ids(s.dag) && StatusOf(s.status, x) == Failed && x in r && r[x] == Pending then 1 else 0)
  {
    hide ReopenResets;
  }

  lemma DispatchFrame(s: State)
    ensures Dispatch(s).dag == s.dag && Dispatch(s).outputs == s.outputs && Dispatch(s).unblocks == s.unblocks
  {
    hide ReopenResets;
  }

  /** A gate that sends work back is itself sent back, whatever other gates do. */
  lemma SenderResets(s: State, i: nat)
    requires UniqueIds(s.dag) && i < |s.dag|
    requires Rule(s, s.dag[i]).Sends? && Rule(s, s.dag[i]).targets != []
    ensures s.dag[i].id in ReopenResets(s) && ReopenResets(s)[s.dag[i].id] == Pending
  {
    hide Rule, ReopenResets;
    var g := s.dag[i].id;
    assert SentBackBy(s, i, g);
    forall j | i < j < |s.dag|
      ensures !HaltedAt(s, j, g)
    {
      assert s.dag[i].id != s.dag[j].id;
    }
    ResetsChar(s, g);
  }

  lemma RuleOfFailed(s: State, i: nat)
    requires Valid(s) && i < |s.dag| && StatusOf(s.status, s.dag[i].id) == Failed
    ensures Rule(s, s.dag[i]).Halts? || (Rule(s, s.dag[i]).Sends? && Rule(s, s.dag[i]).targets != [])
  {
    GateHasDeps(s.dag, i);
    hide Ancestors;
  }

  /** Dispatch settles every failed gate. */
  lemma FailedIsReset(s: State, i: nat)
    requires Valid(s) && i < |s.dag| && StatusOf(s.status, s.dag[i].id) == Failed
    ensures s.dag[i].id in ReopenResets(s)
  {
    hide Rule, ReopenResets;
    RuleOfFailed(s, i);
    if Rule(s, s.dag[i]).Halts? {
      assert HaltedAt(s, i, s.dag[i].id);
      ResetsChar(s, s.dag[i].id);
    } else {
      SenderResets(s, i);
    }
  }

  /** A gate that sends work back is failed, under budget, and itself goes back to pending. */
  lemma SenderUnderBudget(s: State, i: nat)
    requires Valid(s) && i < |s.dag| && Rule(s, s.dag[i]).Sends?
    ensures s.dag[i].id in Ids(s.dag) && s.dag[i].role.Gate?
    ensures StatusOf(s.status, s.dag[i].id) == Failed
    ensures CountOf(s.counts, s.dag[i].id) < EffectiveBudget(s.dag[i], s.unblocks)
    ensures s.dag[i].id in ReopenResets(s) && ReopenResets(s)[s.dag[i].id] == Pending
  {
    RuleOfFailed(s, i);
    ValidIsUnique(s.dag);
    SenderResets(s, i);
    hide Ancestors, EffectiveBudget, ReopenResets, ValidTemplate, RunInv, Pull, Find;
  }

  lemma NoFailedAfterDispatch(s: State)
    requires Valid(s)
    ensures forall x :: StatusOf(Dispatch(s).status, x) != Failed
  {
    hide Dispatch, ReopenResets, ValidTemplate;
    forall x
      ensures StatusOf(Dispatch(s).status, x) != Failed
    {
      DispatchAt(s, x);
      ResetsChar(s, x);
      if StatusOf(s.status, x) == Failed {
        var i :| 0 <= i < |s.dag| && s.dag[i].id == x;
        FailedIsReset(s, i);
      }
    }
  }

  lemma RuleTargetsLegal(s: State, n: Node)
    ensures Rule(s, n).Sends? ==> forall t :: t in Rule(s, n).targets ==> t in Ancestors(s.dag, n.id)
    ensures Rule(s, n) != Untouched ==> StatusOf(s.status, n.id) == Failed
  {
    hide Ancestors;
  }

  lemma PullInDag(dag: Dag, gate: Id, targets: seq<Id>)
    requires UniqueIds(dag) && DepsClosed(dag) && gate in Ids(dag)
    requires forall t :: t in targets ==> t in Ancestors(dag, gate)
    ensures Pull(dag, gate, targets) <= Ids(dag)
  {
    hide Ancestors, Downstream, Ids;
    AncestorsInDag(dag, gate);
    forall m | m in Pull(dag, gate, targets)
      ensures m in Ids(dag)
    {
      if m != gate {
        var t :| t in targets && (m == t || m in Downstream(dag, t));
        DownstreamInDag(dag, t);
      }
    }
  }

  lemma ResetInDag(s: State, x: Id)
    requires ValidTemplate(s.dag) && x in ReopenResets(s)
    ensures x in Ids(s.dag)
  {
    hide Rule, ReopenResets, Pull, Ids, Ancestors;
    ResetsChar(s, x);
    var i :| 0 <= i < |s.dag| && (SentBackBy(s, i, x) || HaltedAt(s, i, x));
    if SentBackBy(s, i, x) {
      RuleTargetsLegal(s, s.dag[i]);
      PullInDag(s.dag, s.dag[i].id, Rule(s, s.dag[i]).targets);
    }
  }

  // ---------- closure: nothing done is left standing on something reset ----------

  /** Any set that is closed under children contains a node as soon as it contains a dependency of it. */
  lemma PullClosed(dag: Dag, gate: Id, targets: seq<Id>, i: nat, d: Id)
    requires UniqueIds(dag) && i < |dag| && d in dag[i].deps
    requires d in Pull(dag, gate, targets) && d != gate
    ensures dag[i].id in Pull(dag, gate, targets)
  {
    hide Downstream;
    var t :| t in targets && (d == t || d in Downstream(dag, t));
    DownstreamClosed(dag, t, i, d);
  }

  /** If dispatch rewrites a dependency that was done, it rewrites the node too. */
  lemma ResetSpreads(s: State, i: nat, d: Id)
    requires Valid(s) && i < |s.dag| && d in s.dag[i].deps
    requires StatusOf(s.status, d) == Done && d in ReopenResets(s)
    ensures s.dag[i].id in ReopenResets(s)
    ensures StatusOf(s.status, s.dag[i].id) != Failed ==> ReopenResets(s)[s.dag[i].id] == Pending
  {
    hide Rule, ReopenResets, Pull, ValidTemplate;
    assert UniqueIds(s.dag) by { ValidIsUnique(s.dag); }
    ResetsChar(s, d);
    var j :| 0 <= j < |s.dag| && (SentBackBy(s, j, d) || HaltedAt(s, j, d));
    RuleTargetsLegal(s, s.dag[j]);
    PullClosed(s.dag, s.dag[j].id, Rule(s, s.dag[j]).targets, i, d);
    assert SentBackBy(s, j, s.dag[i].id);
    ResetsChar(s, s.dag[i].id);
    forall k | 0 <= k < |s.dag| && HaltedAt(s, k, s.dag[i].id)
      ensures StatusOf(s.status, s.dag[i].id) == Failed
    {
      RuleTargetsLegal(s, s.dag[k]);
    }
  }

  lemma ValidIsUnique(dag: Dag)
    requires ValidTemplate(dag)
    ensures UniqueIds(dag) && DepsClosed(dag) && Acyclic(dag)
  {
  }

  /** The only moves dispatch makes: back to pending, or from failed to blocked. */
  lemma DispatchMoves(s: State, x: Id)
    requires ValidTemplate(s.dag)
    ensures var was, now := StatusOf(s.status, x), StatusOf(Dispatch(s).status, x);
            && (now == was || now == Pending || (was == Failed && now == Blocked))
            && (now != was ==> x in Ids(s.dag))
  {
    hide Dispatch, ReopenResets, ValidTemplate, Ids;
    DispatchAt(s, x);
    ResetsChar(s, x);
    if x in ReopenResets(s) {
      ResetInDag(s, x);
      if ReopenResets(s)[x] == Blocked {
        BlockedWasFailed(s, x);
      }
    }
  }

  lemma DispatchKeepsValid(s: State)
    requires Valid(s)
    ensures Valid(Dispatch(s))
  {
    hide Dispatch, ReopenResets, ValidTemplate, Ids, DepsDone;
    var s' := Dispatch(s);
    DispatchFrame(s);
    forall x
      ensures StatusOf(s'.status, x) != Pending ==> x in Ids(s.dag)
      ensures StatusOf(s'.status, x) != Running
      ensures Stopped(StatusOf(s'.status, x)) ==> Stopped(StatusOf(s.status, x))
    {
      DispatchMoves(s, x);
    }
    forall i | 0 <= i < |s'.dag| && Settled(StatusOf(s'.status, s'.dag[i].id))
      ensures DepsDone(s', s'.dag[i])
    {
      DoneSurvives(s, i);
    }
  }

  lemma BlockedWasFailed(s: State, x: Id)
    requires x in ReopenResets(s) && ReopenResets(s)[x] == Blocked
    ensures StatusOf(s.status, x) == Failed
  {
    hide Rule, ReopenResets, Pull;
    ResetsChar(s, x);
    forall i | 0 <= i < |s.dag|
      ensures HaltedAt(s, i, x) ==> StatusOf(s.status, x) == Failed
    {
      RuleTargetsLegal(s, s.dag[i]);
    }
  }

  /** A node still done after dispatch kept all its dependencies done. */
  lemma DoneSurvives(s: State, i: nat)
    requires Valid(s) && i < |s.dag| && Settled(StatusOf(Dispatch(s).status, s.dag[i].id))
    ensures DepsDone(Dispatch(s), s.dag[i])
  {
    hide Dispatch, ReopenResets, ValidTemplate, Ids;
    var x := s.dag[i].id;
    DispatchAt(s, x);
    ResetsChar(s, x);
    forall d | d in s.dag[i].deps
      ensures StatusOf(Dispatch(s).status, d) == Done
    {
      DispatchAt(s, d);
      if d in ReopenResets(s) {
        ResetSpreads(s, i, d);
      }
    }
  }

  lemma CompleteAt(s: State, x: Id, r: Result, y: Id)
    requires x in Ids(s.dag)
    ensures StatusOf(Complete(s, x, r).status, y) == if y == x then Outcome(Find(s.dag, x).value, r)
        else StatusOf(s.status, y)
    ensures Complete(s, x, r) == s.(status := Complete(s, x, r).status, outputs := Complete(s, x, r).outputs)
  {
  }

  lemma CompleteAtIndex(s: State, k: nat, r: Result, y: Id)
    requires ValidTemplate(s.dag) && k < |s.dag|
    ensures var x, s' := s.dag[k].id, Complete(s, s.dag[k].id, r);
            && StatusOf(s'.status, y) == (if y == x then Outcome(s.dag[k], r) else StatusOf(s.status, y))
            && s' == s.(status := s'.status, outputs := s'.outputs)
  {
    hide Complete, Ids;
    FindUnique(s.dag, k);
    CompleteAt(s, s.dag[k].id, r, y);
  }

  lemma CompleteKeepsValid(s: State, x: Id, r: Result)
    requires Valid(s) && CanComplete(s, x)
    ensures Valid(Complete(s, x, r))
  {
    hide Complete, ValidTemplate, Ids;
    var s' := Complete(s, x, r);
    var k :| 0 <= k < |s.dag| && s.dag[k].id == x && IsReady(s.status, s.dag[k]);
    forall y
      ensures StatusOf(s'.status, y) == (if y == x then Outcome(s.dag[k], r) else StatusOf(s.status, y))
    {
      CompleteAtIndex(s, k, r, y);
    }
    CompleteAtIndex(s, k, r, x);
    ValidIsUnique(s.dag);
    forall i | 0 <= i < |s'.dag|
      ensures Settled(StatusOf(s'.status, s'.dag[i].id)) ==> DepsDone(s', s'.dag[i])
      ensures Stopped(StatusOf(s'.status, s'.dag[i].id)) ==> s'.dag[i].role.Gate?
    {
      if i == k {
        ReadyDepsDone(s, s.dag[k]);
      } else {
        assert s.dag[i].id != x by { assert i < k || k < i; }
        assert Settled(StatusOf(s.status, s.dag[i].id)) ==> DepsDone(s, s.dag[i]);
      }
    }
  }

  lemma ReadyDepsDone(s: State, n: Node)
    requires IsReady(s.status, n)
    ensures DepsDone(s, n)
  {
  }

  /** A pending node that is not ready has a dependency that is not done. */
  lemma Unready(s: State, n: Node) returns (d: Id)
    requires StatusOf(s.status, n.id) == Pending && !IsReady(s.status, n)
    ensures d in n.deps && StatusOf(s.status, d) != Done
  {
    var i :| 0 <= i < |n.deps| && !(n.deps[i] in s.status && s.status[n.deps[i]] == Done);
    d := n.deps[i];
  }

  lemma ThawAt(s: State, x: Id, targets: seq<Id>, grant: int, y: Id)
    ensures var s', pulled := Thaw(s, x, targets, grant), {x} + Pull(s.dag, x, targets);
            && StatusOf(s'.status, y) == (if y in pulled then Pending else StatusOf(s.status, y))
            && CountOf(s'.attempts, y) == CountOf(s.attempts, y) + (if y in pulled then 1 else 0)
            && s' == s.(status := s'.status, attempts := s'.attempts, unblocks := s'.unblocks)
            && (y != x ==> LogOf(s'.unblocks, y) == LogOf(s.unblocks, y))
            && LogOf(s'.unblocks, x) == LogOf(s.unblocks, x) + [Grant(ClampGrant(grant), false)]
  {
    hide Pull;
  }

  /** What an accepted unblock does: the gate, every picked target and all downstream of one enter a new round, nothing
      else moves, and the gate may send back once to three times more. */
  lemma LiftRule(s: State, x: Id, targets: seq<Id>, grant: int, y: Id)
    ensures var s' := Thaw(s, x, targets, grant);
            var moves := y == x || exists t :: t in targets && (y == t || y in Downstream(s.dag, t));
            && StatusOf(s'.status, y) == (if moves then Pending else StatusOf(s.status, y))
            && CountOf(s'.attempts, y) == CountOf(s.attempts, y) + (if moves then 1 else 0)
            && s' == s.(status := s'.status, attempts := s'.attempts, unblocks := s'.unblocks)
            && NetCount(LogOf(s'.unblocks, y)) == NetCount(LogOf(s.unblocks, y)) + (if y == x then 1 else 0)
            && NetAmount(LogOf(s'.unblocks, y)) == NetAmount(LogOf(s.unblocks, y))
                 + (if y != x then 0 else if grant <= 1 then 1 else if grant >= 3 then 3 else grant)
  {
    ThawAt(s, x, targets, grant, y);
    AmountRule(LogOf(s.unblocks, x), ClampGrant(grant));
    ClampRule(grant);
    hide Thaw, Downstream, NetCount, NetAmount, ClampGrant, Pull;
    assert targets != [] ==> targets[0] in targets;
  }

  lemma ThawKeepsValid(s: State, x: Id, targets: seq<Id>, grant: int)
    requires Valid(s) && CanUnblock(s, x, targets)
    ensures Valid(Thaw(s, x, targets, grant))
  {
    hide Thaw, Pull, ValidTemplate, Ids, Ancestors;
    var s' := Thaw(s, x, targets, grant);
    ThawAt(s, x, targets, grant, x);
    forall y
      ensures StatusOf(s'.status, y) == Pending || StatusOf(s'.status, y) == StatusOf(s.status, y)
    {
      ThawAt(s, x, targets, grant, y);
    }
    ValidIsUnique(s.dag);
    forall i | 0 <= i < |s'.dag| && Settled(StatusOf(s'.status, s'.dag[i].id))
      ensures DepsDone(s', s'.dag[i])
    {
      forall d | d in s.dag[i].deps
        ensures StatusOf(s'.status, d) == Done
      {
        ThawAt(s, x, targets, grant, s.dag[i].id);
        ThawAt(s, x, targets, grant, d);
        if d in Pull(s.dag, x, targets) && d != x {
          PullClosed(s.dag, x, targets, i, d);
        }
      }
    }
  }

  /** After an accepted edit, a node that has left pending is one of the old nodes, unchanged. */
  lemma EditKeepsNode(s: State, dag': Dag, j: nat) returns (i: nat)
    requires Consistent(s) && UniqueIds(dag') && Frozen(s.dag, s.status, dag')
    requires j < |dag'| && StatusOf(s.status, dag'[j].id) != Pending
    ensures i < |s.dag| && s.dag[i] == dag'[j]
  {
    assert dag'[j].id in Ids(s.dag);
    i :| 0 <= i < |s.dag| && s.dag[i].id == dag'[j].id;
    assert s.dag[i] in dag';
    var k :| 0 <= k < |dag'| && dag'[k] == s.dag[i];
    assert k == j by {
      if k < j {} else if j < k {}
    }
  }

  lemma EditKeepsId(s: State, dag': Dag, x: Id)
    requires Consistent(s) && Frozen(s.dag, s.status, dag') && StatusOf(s.status, x) != Pending
    ensures x in Ids(dag')
  {
    var i :| 0 <= i < |s.dag| && s.dag[i].id == x;
    assert s.dag[i] in dag';
    var k :| 0 <= k < |dag'| && dag'[k] == s.dag[i];
  }

  lemma EditKeepsValid(s: State, dag': Dag)
    requires Valid(s) && CanEdit(s, dag')
    ensures Valid(s.(dag := dag'))
  {
    ValidIsUnique(dag');
    hide ValidTemplate, Ids, Frozen, UniqueIds, DepsClosed, Acyclic;
    var s' := s.(dag := dag');
    forall x | StatusOf(s.status, x) != Pending
      ensures x in Ids(dag')
    {
      EditKeepsId(s, dag', x);
    }
    forall j | 0 <= j < |dag'| && StatusOf(s.status, dag'[j].id) != Pending
      ensures Settled(StatusOf(s.status, dag'[j].id)) ==> DepsDone(s', dag'[j])
      ensures Stopped(StatusOf(s.status, dag'[j].id)) ==> dag'[j].role.Gate?
    {
      var i := EditKeepsNode(s, dag', j);
      assert Settled(StatusOf(s.status, dag'[j].id)) ==> DepsDone(s, s.dag[i]);
    }
  }

  /** Every step keeps the invariant: worker completions, dispatches with any number of failed gates,
      unblocks with legal targets, refunds, and accepted edits. */
  lemma StepKeepsValid(s: State, e: Event, s': State)
    requires Valid(s) && Next(s, e, s')
    ensures Valid(s')
  {
    hide Dispatch, Complete, Thaw, ValidTemplate;
    match e
    case Dispatched => DispatchKeepsValid(s);
    case Completed(x, r) => CompleteKeepsValid(s, x, r);
    case Unblocked(x, targets, grant) => ThawKeepsValid(s, x, targets, grant);
    case Refunded(x) =>
      assert forall i :: 0 <= i < |s.dag| && DepsDone(s, s.dag[i]) ==> DepsDone(s', s.dag[i]);
    case Edited(dag') => EditKeepsValid(s, dag');
  }

  /** Over whole runs: in every reachable state a node that is done or failed has all its dependencies done. */
  lemma {:induction false} RunKeepsValid(ss: seq<State>, es: seq<Event>, k: nat)
    requires IsRun(ss, es) && Valid(ss[0]) && k < |ss|
    ensures Valid(ss[k])
  {
    hide Valid, Next;
    if k > 0 {
      RunKeepsValid(ss, es, k - 1);
      assert Next(ss[k - 1], es[k - 1], ss[k - 1 + 1]);
      StepKeepsValid(ss[k - 1], es[k - 1], ss[k]);
    }
  }

  lemma FreshIsValid(dag: Dag)
    requires ValidTemplate(dag)
    ensures Valid(Fresh(dag))
  {
    hide ValidTemplate;
  }

  // ---------- no silent deadlock ----------

  predicate AtRest(st: Status) {
    st == Done || st == Blocked
  }

  ghost predicate HasBlockedAncestor(s: State, x: Id) {
    exists b :: b in Ancestors(s.dag, x) && StatusOf(s.status, b) == Blocked
  }

  lemma {:induction false} StuckIsExplained(s: State, i: nat)
    requires Valid(s) && i < |s.dag|
    requires forall x :: StatusOf(s.status, x) != Failed
    requires ReadyIds(s) == {}
    ensures AtRest(StatusOf(s.status, s.dag[i].id)) || HasBlockedAncestor(s, s.dag[i].id)
    decreases Ancestors(s.dag, s.dag[i].id)
  {
    ValidIsUnique(s.dag);
    hide ValidTemplate, DepMap, Ids, Reach;
    var x := s.dag[i].id;
    if StatusOf(s.status, x) == Pending {
      assert x !in ReadyIds(s);
      var d := Unready(s, s.dag[i]);
      DepIsAncestor(s.dag, i, d);
      if StatusOf(s.status, d) == Pending {
        var j := IndexOf(s.dag, i, d);
        FewerAncestors(s.dag, i, d);
        StuckIsExplained(s, j);
        var b :| b in Ancestors(s.dag, d) && StatusOf(s.status, b) == Blocked;
        assert b in Ancestors(s.dag, x);
      }
    }
  }

  lemma IndexOf(dag: Dag, i: nat, d: Id) returns (j: nat)
    requires DepsClosed(dag) && i < |dag| && d in dag[i].deps
    ensures j < |dag| && dag[j].id == d
  {
    assert d in Ids(dag);
    j :| 0 <= j < |dag| && dag[j].id == d;
  }

  /** When nothing is ready after a dispatch, no gate is failed and every node is done, is blocked,
      or waits behind a blocked ancestor: the instance never stops without a visible cause. */
  lemma NoSilentDeadlock(s: State)
    requires Valid(s) && ReadyIds(Dispatch(s)) == {}
    ensures var s' := Dispatch(s);
            && (forall x :: StatusOf(s'.status, x) != Failed)
            && forall i :: 0 <= i < |s'.dag| ==>
                 AtRest(StatusOf(s'.status, s'.dag[i].id)) || HasBlockedAncestor(s', s'.dag[i].id)
  {
    hide Dispatch, Valid;
    var s' := Dispatch(s);
    NoFailedAfterDispatch(s);
    DispatchKeepsValid(s);
    forall i | 0 <= i < |s'.dag|
      ensures AtRest(StatusOf(s'.status, s'.dag[i].id)) || HasBlockedAncestor(s', s'.dag[i].id)
    {
      StuckIsExplained(s', i);
    }
  }
}
