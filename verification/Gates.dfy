/** Readiness, gate verdicts, sending work back, and the budget that bounds it. */
module Gates {
  import opened Graph
  import opened State

  const DEFAULT_REOPEN_BUDGET: nat := 3
  const MAX_UNBLOCK_GRANTS: nat := 3
  const MAX_GRANT_PER_UNBLOCK: nat := DEFAULT_REOPEN_BUDGET

  // ---------- readiness ----------

  predicate IsReady(status: map<Id, Status>, n: Node) {
    && StatusOf(status, n.id) == Pending
    && forall i :: 0 <= i < |n.deps| ==> n.deps[i] in status && status[n.deps[i]] == Done
  }

  ghost function ReadyIds(s: State): (r: set<Id>)
    ensures r <= Ids(s.dag)
  {
    set i | 0 <= i < |s.dag| && IsReady(s.status, s.dag[i]) :: s.dag[i].id
  }

  /** The ready nodes, in graph order. */
  function ReadyNodes(dag: Dag, status: map<Id, Status>): (r: seq<Node>)
    ensures forall n :: n in r <==> n in dag && IsReady(status, n)
  {
    if dag == [] then []
    else
      assert dag == dag[..|dag| - 1] + [dag[|dag| - 1]];
      var before := ReadyNodes(dag[..|dag| - 1], status);
      if IsReady(status, dag[|dag| - 1]) then before + [dag[|dag| - 1]] else before
  }

  method CollectReady(dag: Dag, status: map<Id, Status>) returns (out: seq<Node>)
    ensures out == ReadyNodes(dag, status)
  {
    out := [];
    for i := 0 to |dag|
      invariant out == ReadyNodes(dag[..i], status)
    {
      assert dag[..i + 1][..i] == dag[..i];
      if StatusOf(status, dag[i].id) == Pending {
        var all := true;
        for j := 0 to |dag[i].deps|
          invariant all <==> forall k :: 0 <= k < j ==> dag[i].deps[k] in status && status[dag[i].deps[k]] == Done
        {
          if !(dag[i].deps[j] in status && status[dag[i].deps[j]] == Done) {
            all := false;
          }
        }
        if all {
          out := out + [dag[i]];
        }
      }
    }
    assert dag[..|dag|] == dag;
  }

  method ReadySet(s: State) returns (ids: set<Id>)
    ensures ids == ReadyIds(s)
  {
    var ready := CollectReady(s.dag, s.status);
    ids := set i | 0 <= i < |ready| :: ready[i].id;
    forall x
      ensures x in ids <==> x in ReadyIds(s)
    {
      if x in ids {
        var i :| 0 <= i < |ready| && ready[i].id == x;
        assert ready[i] in ready;
        var k :| 0 <= k < |s.dag| && s.dag[k] == ready[i];
        assert IsReady(s.status, s.dag[k]);
      }
      if x in ReadyIds(s) {
        var k :| 0 <= k < |s.dag| && IsReady(s.status, s.dag[k]) && s.dag[k].id == x;
        assert s.dag[k] in ready;
      }
    }
  }

  // ---------- budget ----------

  function Max(a: int, b: int): int {
    if a < b then b else a
  }

  function ReopenBudget(n: Node): nat {
    Max(1, if n.reopenBudget.Some? then n.reopenBudget.value else DEFAULT_REOPEN_BUDGET)
  }

  /** The grants of a log minus its refunds. */
  function NetAmount(log: seq<Grant>): int {
    if log == [] then 0
    else
      var r := log[|log| - 1];
      NetAmount(log[..|log| - 1]) + (if r.refund then -r.amount else r.amount)
  }

  function NetCount(log: seq<Grant>): int {
    if log == [] then 0
    else NetCount(log[..|log| - 1]) + (if log[|log| - 1].refund then -1 else 1)
  }

  function GrantsUsed(grants: map<Id, seq<Grant>>, x: Id): int {
    NetCount(LogOf(grants, x))
  }

  function GrantedBudget(grants: map<Id, seq<Grant>>, x: Id): nat {
    Max(0, NetAmount(LogOf(grants, x)))
  }

  method SumGrants(grants: map<Id, seq<Grant>>, x: Id) returns (total: nat)
    ensures total == GrantedBudget(grants, x)
  {
    var log, sum := LogOf(grants, x), 0;
    for i := 0 to |log|
      invariant sum == NetAmount(log[..i])
    {
      assert log[..i + 1][..i] == log[..i];
      sum := sum + if log[i].refund then -log[i].amount else log[i].amount;
    }
    assert log[..|log|] == log;
    total := Max(0, sum);
  }

  function EffectiveBudget(n: Node, grants: map<Id, seq<Grant>>): nat {
    ReopenBudget(n) + GrantedBudget(grants, n.id)
  }

  function ClampGrant(grant: int): (g: nat)
    ensures 1 <= g <= MAX_GRANT_PER_UNBLOCK
  {
    Max(1, if grant < MAX_GRANT_PER_UNBLOCK then grant else MAX_GRANT_PER_UNBLOCK)
  }

  // ---------- sending work back ----------

  /** The picked targets, or by default the direct dependencies. */
  function ReopenTargets(n: Node, outputs: map<Id, Result>): seq<Id> {
    if n.id in outputs && outputs[n.id].reopen != [] then outputs[n.id].reopen else n.deps
  }

  function Keep(targets: seq<Id>, legal: set<Id>): (r: seq<Id>)
    ensures forall t :: t in r <==> t in targets && t in legal
  {
    if targets == [] then []
    else
      assert targets == targets[..|targets| - 1] + [targets[|targets| - 1]];
      Keep(targets[..|targets| - 1], legal) + if targets[|targets| - 1] in legal then [targets[|targets| - 1]] else []
  }

  /** What dispatch decides about one node: nothing, stop and call a person, or send the targets back. */
  datatype Ruling = Untouched | Halts | Sends(targets: seq<Id>)

  ghost function Rule(s: State, n: Node): Ruling {
    if StatusOf(s.status, n.id) != Failed then Untouched
    else if CountOf(s.counts, n.id) >= EffectiveBudget(n, s.unblocks) then Halts
    else
      var targets := ReopenTargets(n, s.outputs);
      var legal := Keep(targets, Ancestors(s.dag, n.id));
      if targets != [] && legal == [] then Halts else Sends(legal)
  }

  /** Sending targets back resets each target, everything downstream of it, and the gate itself. */
  ghost function Pull(dag: Dag, gate: Id, targets: seq<Id>): (r: set<Id>)
    ensures forall m :: m in r <==>
      (targets != [] && (m == gate || exists t :: t in targets && (m == t || m in Downstream(dag, t))))
  {
    if targets == [] then {}
    else
      var k := |targets| - 1;
      assert targets == targets[..k] + [targets[k]];
      Pull(dag, gate, targets[..k]) + {targets[k]} + Downstream(dag, targets[k]) + {gate}
  }

  /** What the ruling on one node writes. */
  ghost function Effect(s: State, n: Node): (e: map<Id, Status>)
    ensures forall x :: x in e ==> e[x] == Pending || e[x] == Blocked
  {
    match Rule(s, n)
    case Untouched => map[]
    case Halts => map[n.id := Blocked]
    case Sends(targets) => map m | m in Pull(s.dag, n.id, targets) :: Pending
  }

  /** The rulings of the first k nodes, later ones overwriting earlier ones. */
  ghost function ResetsUpTo(s: State, k: nat): map<Id, Status>
    requires k <= |s.dag|
  {
    if k == 0 then map[] else ResetsUpTo(s, k - 1) + Effect(s, s.dag[k - 1])
  }

  ghost function ReopenResets(s: State): map<Id, Status> {
    ResetsUpTo(s, |s.dag|)
  }

  ghost predicate SentBackBy(s: State, i: nat, x: Id)
    requires i < |s.dag|
  {
    Rule(s, s.dag[i]).Sends? && x in Pull(s.dag, s.dag[i].id, Rule(s, s.dag[i]).targets)
  }

  ghost predicate HaltedAt(s: State, i: nat, x: Id)
    requires i < |s.dag|
  {
    Rule(s, s.dag[i]).Halts? && s.dag[i].id == x
  }

  lemma EffectAt(s: State, i: nat, x: Id)
    requires i < |s.dag|
    ensures var e := Effect(s, s.dag[i]);
            && (x in e <==> SentBackBy(s, i, x) || HaltedAt(s, i, x))
            && (x in e ==> (e[x] == Pending <==> SentBackBy(s, i, x)))
            && !(SentBackBy(s, i, x) && HaltedAt(s, i, x))
  {
  }

  /** The last node in graph order that writes x decides its value. */
  lemma {:induction false} ResetsLast(s: State, k: nat, x: Id) returns (i: nat)
    requires k <= |s.dag| && x in ResetsUpTo(s, k)
    ensures i < k && x in Effect(s, s.dag[i]) && ResetsUpTo(s, k)[x] == Effect(s, s.dag[i])[x]
    ensures forall j :: i < j < k ==> x !in Effect(s, s.dag[j])
  {
    hide Effect;
    if x in Effect(s, s.dag[k - 1]) {
      i := k - 1;
    } else {
      i := ResetsLast(s, k - 1, x);
    }
  }

  lemma {:induction false} ResetsHold(s: State, k: nat, i: nat, x: Id)
    requires i < k <= |s.dag| && x in Effect(s, s.dag[i])
    ensures x in ResetsUpTo(s, k)
  {
    hide Effect;
    if i < k - 1 {
      ResetsHold(s, k - 1, i, x);
    }
  }

  /** The exact outcome: x is written iff some gate touches it, and it goes back to pending iff a gate that
      sends it back comes after every gate that would halt there. */
  lemma ResetsChar(s: State, x: Id)
    ensures var r := ReopenResets(s);
            && (x in r <==> exists i :: 0 <= i < |s.dag| && (SentBackBy(s, i, x) || HaltedAt(s, i, x)))
            && (x in r ==> r[x] == Pending || r[x] == Blocked)
            && (x in r && r[x] == Pending <==>
                  exists i :: 0 <= i < |s.dag| && SentBackBy(s, i, x) &&
                      forall j :: i < j < |s.dag| ==> !HaltedAt(s, j, x))
            && (x in r && r[x] == Blocked ==> exists i :: 0 <= i < |s.dag| && HaltedAt(s, i, x))
  {
    hide Effect, SentBackBy, HaltedAt;
    var r := ReopenResets(s);
    forall i | 0 <= i < |s.dag|
      ensures SentBackBy(s, i, x) || HaltedAt(s, i, x) ==> x in r
    {
      EffectAt(s, i, x);
      if x in Effect(s, s.dag[i]) {
        ResetsHold(s, |s.dag|, i, x);
      }
    }
    if x in r {
      var i := ResetsLast(s, |s.dag|, x);
      EffectAt(s, i, x);
      forall j | i < j < |s.dag|
        ensures !SentBackBy(s, j, x) && !HaltedAt(s, j, x)
      {
        EffectAt(s, j, x);
      }
    }
  }

  /** Targets outside the gate's ancestors. */
  method IllegalReopen(dag: Dag, gate: Id, targets: seq<Id>) returns (bad: seq<Id>)
    ensures forall t :: t in bad <==> t in targets && t !in Ancestors(dag, gate)
  {
    var ancestors := DepsAncestors(dag, gate);
    bad := [];
    for i := 0 to |targets|
      invariant forall t :: t in bad <==> t in targets[..i] && t !in ancestors
    {
      assert targets[..i + 1] == targets[..i] + [targets[i]];
      if targets[i] !in ancestors {
        bad := bad + [targets[i]];
      }
    }
    assert targets[..|targets|] == targets;
  }

  method PullBack(dag: Dag, gate: Id, targets: seq<Id>, resets: map<Id, Status>) returns (out: map<Id, Status>)
    ensures out == resets + map m | m in Pull(dag, gate, targets) :: Pending
  {
    var touched: set<Id> := {};
    for i := 0 to |targets|
      invariant touched == Pull(dag, gate, targets[..i])
    {
      assert targets[..i + 1][..i] == targets[..i];
      var down := StaleDownstream(dag, targets[i]);
      touched := touched + {targets[i]} + down + {gate};
    }
    assert targets[..|targets|] == targets;
    out := resets + map m | m in touched :: Pending;
  }

  method Filter(targets: seq<Id>, bad: seq<Id>) returns (out: seq<Id>)
    ensures out == Keep(targets, (set t | t in targets) - set t | t in bad)
  {
    ghost var legal := (set t | t in targets) - set t | t in bad;
    out := [];
    for i := 0 to |targets|
      invariant out == Keep(targets[..i], legal)
    {
      assert targets[..i + 1][..i] == targets[..i];
      if targets[i] !in bad {
        out := out + [targets[i]];
      }
    }
    assert targets[..|targets|] == targets;
  }

  lemma {:induction false} KeepSame(targets: seq<Id>, a: set<Id>, b: set<Id>)
    requires forall t :: t in targets ==> (t in a <==> t in b)
    ensures Keep(targets, a) == Keep(targets, b)
  {
    if targets != [] {
      assert targets == targets[..|targets| - 1] + [targets[|targets| - 1]];
      KeepSame(targets[..|targets| - 1], a, b);
    }
  }

  lemma {:induction false} KeepAll(targets: seq<Id>, a: set<Id>)
    requires forall t :: t in targets ==> t in a
    ensures Keep(targets, a) == targets
  {
    if targets != [] {
      assert targets == targets[..|targets| - 1] + [targets[|targets| - 1]];
      KeepAll(targets[..|targets| - 1], a);
    }
  }

  /** The verdict on one failed gate, branch by branch. */
  method RuleOn(s: State, n: Node) returns (r: Ruling)
    ensures r == Rule(s, n)
  {
    if StatusOf(s.status, n.id) != Failed {
      return Untouched;
    }
    var granted := SumGrants(s.unblocks, n.id);
    if CountOf(s.counts, n.id) >= ReopenBudget(n) + granted {
      return Halts;
    }
    var targets := ReopenTargets(n, s.outputs);
    var bad := IllegalReopen(s.dag, n.id, targets);
    if bad != [] {
      assert bad[0] in targets;
      var legal := Filter(targets, bad);
      KeepSame(targets, (set t | t in targets) - (set t | t in bad), Ancestors(s.dag, n.id));
      if legal == [] {
        return Halts;
      }
      return Sends(legal);
    }
    forall t | t in targets
      ensures t in Ancestors(s.dag, n.id)
    {
      assert t !in bad;
    }
    KeepAll(targets, Ancestors(s.dag, n.id));
    r := Sends(targets);
  }

  method EffectOf(s: State, n: Node, resets: map<Id, Status>) returns (out: map<Id, Status>)
    ensures out == resets + Effect(s, n)
  {
    var ruling := RuleOn(s, n);
    match ruling {
      case Untouched => out := resets;
      case Halts => out := resets[n.id := Blocked];
      case Sends(targets) => out := PullBack(s.dag, n.id, targets, resets);
    }
  }

  method ComputeReopenResets(s: State) returns (resets: map<Id, Status>)
    ensures resets == ReopenResets(s)
  {
    resets := map[];
    for i := 0 to |s.dag|
      invariant resets == ResetsUpTo(s, i)
    {
      resets := EffectOf(s, s.dag[i], resets);
    }
  }

  /** A person lifts a block: the gate, and each thawed target with everything downstream, go back to pending. */
  ghost function UnblockResets(dag: Dag, gate: Id, targets: seq<Id>): map<Id, Status> {
    map m | m in {gate} + Pull(dag, gate, targets) :: Pending
  }

  method ComputeUnblockResets(dag: Dag, gate: Id, targets: seq<Id>) returns (resets: map<Id, Status>)
    ensures resets == UnblockResets(dag, gate, targets)
  {
    resets := PullBack(dag, gate, targets, map[gate := Pending]);
  }

  // ---------- the rules, in terms of what is on record ----------

  /** A gate may send back as often as its node says, once at least, three times if it says nothing, plus what people
      have granted it on balance. */
  lemma BudgetRule(n: Node, grants: map<Id, seq<Grant>>)
    ensures var granted := NetAmount(LogOf(grants, n.id));
            var own := EffectiveBudget(n, grants) - if granted > 0 then granted else 0;
            && (n.reopenBudget.None? ==> own == 3)
            && (n.reopenBudget.Some? && n.reopenBudget.value >= 1 ==> own == n.reopenBudget.value)
            && (n.reopenBudget.Some? && n.reopenBudget.value < 1 ==> own == 1)
  {
    hide NetAmount;
  }

  lemma AmountRule(log: seq<Grant>, amount: int)
    ensures NetAmount([]) == 0 && NetCount([]) == 0
    ensures NetAmount(log + [Grant(amount, false)]) == NetAmount(log) + amount
    ensures NetAmount(log + [Grant(amount, true)]) == NetAmount(log) - amount
    ensures NetCount(log + [Grant(amount, false)]) == NetCount(log) + 1
    ensures NetCount(log + [Grant(amount, true)]) == NetCount(log) - 1
  {
    assert (log + [Grant(amount, false)])[..|log|] == log;
    assert (log + [Grant(amount, true)])[..|log|] == log;
  }

  /** A grant of one, two or three is taken as it is, less counts as one, more as three. */
  lemma ClampRule(grant: int)
    ensures ClampGrant(grant) == if grant <= 1 then 1 else if grant >= 3 then 3 else grant
  {
  }

  /** What a gate's answer on record asks to send back: what was picked, or, if nothing was, its direct dependencies. */
  ghost predicate Asks(s: State, n: Node, ts: seq<Id>) {
    if n.id in s.outputs && s.outputs[n.id].reopen != [] then ts == s.outputs[n.id].reopen else ts == n.deps
  }

  /** A failed gate under budget sends back every asked-for ancestor, all downstream of it, and itself, and nothing
      else; targets that are no ancestors are passed over, and if none is left, it stops. */
  lemma SendRule(s: State, i: nat, ts: seq<Id>, x: Id)
    requires i < |s.dag| && StatusOf(s.status, s.dag[i].id) == Failed && Asks(s, s.dag[i], ts)
    requires CountOf(s.counts, s.dag[i].id) < EffectiveBudget(s.dag[i], s.unblocks)
    ensures SentBackBy(s, i, x) <==>
      (exists t :: t in ts && t in Ancestors(s.dag, s.dag[i].id)
                   && (x == t || x in Downstream(s.dag, t) || x == s.dag[i].id))
    ensures HaltedAt(s, i, x) <==>
      (x == s.dag[i].id && ts != [] && forall t :: t in ts ==> t !in Ancestors(s.dag, s.dag[i].id))
  {
    hide Ancestors, Downstream, EffectiveBudget, Keep, Pull;
    var n := s.dag[i];
    assert ts == ReopenTargets(n, s.outputs);
    var legal := Keep(ts, Ancestors(s.dag, n.id));
    assert forall t :: t in legal <==> t in ts && t in Ancestors(s.dag, n.id);
    assert legal != [] ==> legal[0] in legal;
    assert ts != [] ==> ts[0] in ts;
  }

  /** A failed gate that has used up its budget stops; a node that has not failed does neither. */
  lemma StopRule(s: State, i: nat, x: Id)
    requires i < |s.dag|
    requires StatusOf(s.status, s.dag[i].id) != Failed
             || CountOf(s.counts, s.dag[i].id) >= EffectiveBudget(s.dag[i], s.unblocks)
    ensures !SentBackBy(s, i, x)
    ensures HaltedAt(s, i, x) <==> StatusOf(s.status, s.dag[i].id) == Failed && x == s.dag[i].id
  {
    hide EffectiveBudget;
  }

  // ---------- dispatch ----------

  function ReopenIncrements(s: State, resets: map<Id, Status>): map<Id, nat> {
    map x | x in Ids(s.dag) && StatusOf(s.status, x) == Failed && x in resets && resets[x] == Pending :: 1
  }

  function AttemptIncrements(resets: map<Id, Status>): map<Id, nat> {
    map x | x in resets && resets[x] == Pending :: 1
  }

  function WithResets(s: State, resets: map<Id, Status>): State {
    if resets == map[] then s
    else s.(status := Merge(s.status, resets),
            counts := AddCounts(s.counts, ReopenIncrements(s, resets)),
            attempts := AddCounts(s.attempts, AttemptIncrements(resets)))
  }

  /** The single writer of other nodes' status. */
  ghost function Dispatch(s: State): State {
    WithResets(s, ReopenResets(s))
  }

  method RunDispatch(s: State) returns (s': State)
    ensures s' == Dispatch(s)
  {
    var resets := ComputeReopenResets(s);
    s' := WithResets(s, resets);
  }
}
