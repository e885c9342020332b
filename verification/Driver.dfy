/** The driver around the engine as a state machine: super-steps with a barrier, people's interrupts and their
    changing ids, value-preserving writes, dispatched cards and tasks. */
module Driver {
  import opened Graph
  import opened Template
  import opened State
  import opened Gates
  import opened Engine
  import opened LiveGraph
  import opened Accounting
  import opened Deliverables

  /** What an interrupt was raised for. */
  datatype Ticket = Ticket(node: Id, attempt: nat)

  /** The engine's side: the merged channels, the nodes of the current super-step, the interrupts it holds
      (answered ones linger until the step is over), and every ticket ever issued, by interrupt id. */
  datatype Inst = Inst(s: State, step: set<Id>, ints: map<nat, Id>, issued: seq<Ticket>)

  datatype Kind = TaskKind | CardKind

  /** One dispatch: this node, in this round, by this channel. */
  datatype Key = Key(node: Id, attempt: nat, kind: Kind)

  /** A correlation row of an external object. */
  datatype Row = Row(interrupt: nat, node: Id, kind: Kind)

  /** The whole driver. External ids are positions in `created`, which the outside world only ever extends; `minted`
      has, for each of them, the interrupt id it was created with, which is what the buttons of a card carry for
      good; `bridge` holds the interrupts a write in progress will carry over. */
  datatype Svc = Svc(
    run: Inst,
    bridge: Option<map<nat, Id>>,
    remap: map<nat, nat>,
    idem: map<Key, nat>,
    rows: map<nat, Row>,
    created: seq<Key>,
    minted: seq<nat>,
    closed: set<nat>,
    finished: set<nat>)

  function AttemptOf(s: State, x: Id): nat {
    CountOf(s.attempts, x)
  }

  function Unanswered(s: State, x: Id): bool {
    !Settled(StatusOf(s.status, x))
  }

  predicate IsHuman(s: State, x: Id) {
    var n := Find(s.dag, x);
    n.Some? && n.value.executor.Human?
  }

  // ---------- updates ----------

  /** The four things the driver writes into a running instance. */
  datatype Update = Touch | Edit(dag: Dag) | Lift(node: Id, targets: seq<Id>, grant: int) | Refund(node: Id)

  ghost function Updated(s: State, u: Update): State {
    match u
    case Touch => s
    case Edit(dag') => s.(dag := dag')
    case Lift(x, targets, grant) => Thaw(s, x, targets, grant)
    case Refund(x) => TakeBack(s, x)
  }

  ghost predicate CanUpdate(r: Inst, u: Update) {
    match u
    case Touch => true
    case Edit(dag') =>
      CanEdit(r.s, dag') && forall k :: 0 <= k < |r.s.dag| && r.s.dag[k].id in r.ints.Values ==> r.s.dag[k] in dag'
    case Lift(x, targets, grant) => CanUnblock(r.s, x, targets)
    case Refund(x) => CanRefund(r.s, x)
  }

  /** Nodes the driver predicts will enter a new round: sent back by the coming dispatch, or reset by the update. */
  ghost function Reopening(s: State, u: Update): set<Id> {
    (set x | x in ReopenResets(s) && ReopenResets(s)[x] == Pending)
    + (if u.Lift? then UnblockResets(s.dag, u.node, u.targets).Keys else {})
  }

  /** Interrupts whose holder will still be waiting in the same round after the write. */
  ghost function Survivors(r: Inst, u: Update): map<nat, Id> {
    map i | i in r.ints && Unanswered(r.s, r.ints[i]) && r.ints[i] !in Reopening(r.s, u) :: r.ints[i]
  }

  /** A new super-step: the ready nodes, nobody asked yet. */
  ghost function Launch(r: Inst, s: State): Inst {
    Inst(s, ReadyIds(s), map[], r.issued)
  }

  // ---------- actions ----------

  datatype Action =
    | WorkerReturns(node: Id, result: Result)
    | PersonAsked(node: Id)
    | BarrierLifts
    | PersonAnswers(interrupt: nat, result: Result)
    | WriteBegins(update: Update)
    | WriteEnds
    | WriteCrashes(node: Id)
    | Provisions(interrupt: nat)
    | Closes(ext: nat)
    | PersonFinishes(ext: nat)

  /** Executing this node can end in an exception: a tool or model call may fail, and so may the creation of the
      document a person is to write. */
  predicate MayRaise(s: State, x: Id) {
    var n := Find(s.dag, x);
    && n.Some?
    && (!n.value.executor.Human?
        || (n.value.role.Produce? && n.value.deliverable && PriorHandle(s.outputs, x).None?))
  }

  /** A member of the super-step that is still out, has not been asked, and can fail. */
  predicate CanFail(r: Inst, x: Id) {
    x in r.step && StatusOf(r.s.status, x) == Pending && x !in r.ints.Values && MayRaise(r.s, x)
  }

  /** Whoever of the super-step is still out is a person who has been asked. */
  ghost predicate Waits(r: Inst) {
    forall x :: x in r.step ==> Handled(r, x)
  }

  ghost predicate Handled(r: Inst, x: Id) {
    x in r.step && StatusOf(r.s.status, x) == Pending ==> IsHuman(r.s, x) && x in r.ints.Values
  }

  ghost predicate Busy(r: Inst) {
    exists x :: x in r.step && StatusOf(r.s.status, x) == Pending
  }

  function KindOf(s: State, x: Id): Option<Kind> {
    match Find(s.dag, x)
    case None => None
    case Some(n) =>
      match n.signal
      case None => None
      case Some(TaskComplete) => Some(TaskKind)
      case Some(CardAction) => Some(CardKind)
  }

  function KeyOf(s: State, x: Id): Key
    requires KindOf(s, x).Some?
  {
    Key(x, AttemptOf(s, x), KindOf(s, x).value)
  }

  function Asked(r: Inst, x: Id): Inst {
    r.(ints := r.ints[|r.issued| := x], issued := r.issued + [Ticket(x, AttemptOf(r.s, x))])
  }

  /** Waiting interrupts found again under a new id after the write. */
  ghost function Carried(b: map<nat, Id>, ints: map<nat, Id>): (m: map<nat, nat>)
    ensures forall o :: o in m <==> o in b && b[o] in ints.Values
    ensures forall o :: o in m ==> m[o] in ints && ints[m[o]] == b[o]
  {
    map o | o in b && b[o] in ints.Values :: var i :| i in ints && ints[i] == b[o]; i
  }

  function Provisioned(v: Svc, i: nat): Svc
    requires i in v.run.ints && KindOf(v.run.s, v.run.ints[i]).Some?
  {
    var key := KeyOf(v.run.s, v.run.ints[i]);
    if key in v.idem then v.(rows := v.rows[v.idem[key] := Row(i, key.node, key.kind)])
    else v.(idem := v.idem[key := |v.created|], created := v.created + [key], minted := v.minted + [i],
            rows := v.rows[|v.created| := Row(i, key.node, key.kind)])
  }

  ghost predicate Step(v: Svc, a: Action, v': Svc) {
    var r := v.run;
    match a
    case WorkerReturns(x, res) =>
      x in r.step && StatusOf(r.s.status, x) == Pending && !IsHuman(r.s, x) && v' ==
          v.(run := r.(s := Complete(r.s, x, res)))
    case PersonAsked(x) =>
      x in r.step && StatusOf(r.s.status, x) == Pending && IsHuman(r.s, x) && x !in r.ints.Values && v' ==
          v.(run := Asked(r, x))
    case BarrierLifts => !Busy(r) && v' == v.(run := Launch(r, Dispatch(r.s)))
    case PersonAnswers(i, res) =>
      v.bridge.None? && i in r.ints && StatusOf(r.s.status, r.ints[i]) == Pending
      && v' == v.(run := r.(s := Complete(r.s, r.ints[i], res)))
    case WriteBegins(u) =>
      v.bridge.None? && CanUpdate(r, u)
      && v' == v.(run := Launch(r, Dispatch(Updated(r.s, u))), bridge := Some(Survivors(r, u)))
    case WriteEnds =>
      v.bridge.Some? && Waits(r)
      && v' == v.(bridge := None, remap := v.remap + Carried(v.bridge.value, r.ints))
    case WriteCrashes(x) => v.bridge.Some? && CanFail(r, x) && v' == v.(bridge := None)
    case Provisions(i) =>
      v.bridge.None? && i in r.ints && Unanswered(r.s, r.ints[i]) && KindOf(r.s, r.ints[i]).Some? && v' ==
          Provisioned(v, i)
    case Closes(e) =>
      e < |v.created| && v.created[e].kind.TaskKind? && v.created[e].attempt < AttemptOf(r.s, v.created[e].node)
      && v' == v.(closed := v.closed + {e})
    case PersonFinishes(e) => e < |v.created| && v.created[e].kind.TaskKind? && v' == v.(finished := v.finished + {e})
  }

  // ---------- invariant ----------

  /** Members of a super-step are ready or have returned. */
  ghost predicate StepOk(r: Inst) {
    && r.step <= Ids(r.s.dag)
    && (forall x :: x in r.step ==> StatusOf(r.s.status, x) != Blocked)
    && (forall k :: 0 <= k < |r.s.dag| && r.s.dag[k].id in r.step && StatusOf(r.s.status, r.s.dag[k].id) == Pending ==>
          IsReady(r.s.status, r.s.dag[k]))
  }

  /** An interrupt belongs to a person's node of the current super-step, in that node's current round. */
  ghost predicate IntOk(r: Inst, i: nat) {
    i in r.ints ==>
      && i < |r.issued| && r.issued[i] == Ticket(r.ints[i], AttemptOf(r.s, r.ints[i]))
      && r.ints[i] in r.step && IsHuman(r.s, r.ints[i])
  }

  ghost predicate OnePerNode(ints: map<nat, Id>) {
    forall i, j :: i in ints && j in ints && ints[i] == ints[j] ==> i == j
  }

  ghost predicate RunOk(r: Inst) {
    Valid(r.s) && AllKept(r.s) && StepOk(r) && OnePerNode(r.ints) && forall i :: IntOk(r, i)
  }

  /** A remap edge links two interrupts of one node in one round, the older to the newer. */
  ghost predicate EdgeOk(issued: seq<Ticket>, a: nat, b: nat) {
    a < b < |issued| && issued[a] == issued[b]
  }

  ghost predicate RemapOk(v: Svc) {
    && (forall a :: a in v.remap ==> EdgeOk(v.run.issued, a, v.remap[a]))
    && (forall a :: a in v.remap ==> a !in v.run.ints)
  }

  /** While a write is in progress, whoever it will carry over is waiting in the new super-step, in the same round. */
  ghost predicate CarryOk(v: Svc, o: nat, x: Id) {
    && o < |v.run.issued| && v.run.issued[o] == Ticket(x, AttemptOf(v.run.s, x)) && o !in v.remap
    && x in v.run.step && StatusOf(v.run.s.status, x) == Pending && IsHuman(v.run.s, x)
    && forall i :: i in v.run.ints ==> o < i
  }

  ghost predicate BridgeOk(v: Svc) {
    v.bridge.Some? ==> forall o :: o in v.bridge.value ==> CarryOk(v, o, v.bridge.value[o])
  }

  /** Idempotency keys and external objects correspond one to one. */
  ghost predicate IdemOk(v: Svc) {
    && (forall k :: k in v.idem ==> v.idem[k] < |v.created| && v.created[v.idem[k]] == k)
    && (forall e :: 0 <= e < |v.created| ==> v.created[e] in v.idem && v.idem[v.created[e]] == e)
    && (forall e :: 0 <= e < |v.created| ==> v.created[e].attempt <= AttemptOf(v.run.s, v.created[e].node))
  }

  /** Every object was created with an interrupt of its own node and round. */
  ghost predicate MintOk(v: Svc) {
    && |v.minted| == |v.created|
    && forall e :: 0 <= e < |v.created| ==>
         v.minted[e] < |v.run.issued| && v.run.issued[v.minted[e]] == Ticket(v.created[e].node, v.created[e].attempt)
  }

  /** While a write is in progress, the interrupts raised so far are new: no object carries one, nothing leads to
      one. */
  ghost predicate FreshOk(v: Svc) {
    v.bridge.Some? ==>
      && (forall e :: 0 <= e < |v.minted| ==> v.minted[e] !in v.run.ints)
      && (forall a :: a in v.remap ==> v.remap[a] !in v.run.ints)
  }

  /** A row leads to an interrupt of the node and round its object was created for. */
  ghost predicate RowOk(v: Svc, e: nat) {
    e in v.rows ==>
      && e < |v.created| && v.rows[e].node == v.created[e].node && v.rows[e].kind == v.created[e].kind
      && v.rows[e].interrupt < |v.run.issued|
      && v.run.issued[v.rows[e].interrupt] == Ticket(v.created[e].node, v.created[e].attempt)
  }

  ghost predicate RowsOk(v: Svc) {
    forall e :: RowOk(v, e)
  }

  /** Every task the engine closed belongs to a round its node has left. */
  ghost predicate ClosedOk(v: Svc) {
    forall e :: e in v.closed ==>
      e < |v.created| && v.created[e].kind.TaskKind? && v.created[e].attempt < AttemptOf(v.run.s, v.created[e].node)
  }

  ghost predicate Inv(v: Svc) {
    RunOk(v.run) && RemapOk(v) && BridgeOk(v) && IdemOk(v) && RowsOk(v) && ClosedOk(v) && MintOk(v) && FreshOk(v)
  }

  // ---------- rounds only go up ----------

  ghost predicate RoundsGrow(s: State, s': State) {
    forall x :: AttemptOf(s, x) <= AttemptOf(s', x)
  }

  lemma DispatchRounds(s: State)
    ensures RoundsGrow(s, Dispatch(s))
  {
    hide Dispatch, ReopenResets, Ids;
    forall x
      ensures AttemptOf(s, x) <= AttemptOf(Dispatch(s), x)
    {
      DispatchAt(s, x);
    }
  }

  lemma UpdateRounds(s: State, u: Update)
    ensures RoundsGrow(s, Updated(s, u))
  {
    hide Thaw, Pull;
    if u.Lift? {
      forall x
        ensures AttemptOf(s, x) <= AttemptOf(Updated(s, u), x)
      {
        ThawAt(s, u.node, u.targets, u.grant, x);
      }
    }
  }

  lemma CompleteRounds(s: State, x: Id, r: Result)
    ensures Complete(s, x, r).attempts == s.attempts && Complete(s, x, r).dag == s.dag
    ensures Complete(s, x, r).unblocks == s.unblocks
  {
  }

  // ---------- a surviving waiter survives ----------

  /** The gate that sends something back after the update would have done the same before it. */
  lemma SenderWasSender(r: Inst, u: Update, i: nat) returns (j: nat)
    requires Valid(r.s) && AllKept(r.s) && CanUpdate(r, u)
    requires i < |Updated(r.s, u).dag| && Rule(Updated(r.s, u), Updated(r.s, u).dag[i]).Sends?
    ensures j < |r.s.dag| && r.s.dag[j] == Updated(r.s, u).dag[i]
    ensures Rule(r.s, r.s.dag[j]) == Rule(Updated(r.s, u), Updated(r.s, u).dag[i])
  {
    var s, s1 := r.s, Updated(r.s, u);
    var n := s1.dag[i];
    RuleTargetsLegal(s1, n);
    match u {
      case Touch =>
        j := i;
      case Edit(dag') =>
        j := FailedNodeKept(s, dag', i);
        HistoryUnchanged(s, dag', j);
        SameRule(s, s1, n);
      case Lift(x, targets, grant) =>
        j := i;
        ThawAt(s, x, targets, grant, n.id);
        ThawAt(s, x, targets, grant, x);
        assert n.id != x;
        ThawSameRule(s, s1, n);
      case Refund(x) =>
        j := i;
        RefundRule(s, x, n);
    }
  }

  lemma FailedNodeKept(s: State, dag': Dag, i: nat) returns (j: nat)
    requires Valid(s) && CanEdit(s, dag') && i < |dag'| && StatusOf(s.status, dag'[i].id) == Failed
    ensures j < |s.dag| && s.dag[j] == dag'[i]
  {
    ValidIsUnique(dag');
    hide ValidTemplate, Ids, UniqueIds, Frozen, RunInv;
    j := EditKeepsNode(s, dag', i);
  }

  lemma SameRule(s: State, s1: State, n: Node)
    requires s1 == s.(dag := s1.dag) && Ancestors(s1.dag, n.id) == Ancestors(s.dag, n.id)
    ensures Rule(s1, n) == Rule(s, n)
  {
    hide Ancestors;
  }

  lemma ThawSameRule(s: State, s1: State, n: Node)
    requires s1 == s.(status := s1.status, attempts := s1.attempts, unblocks := s1.unblocks)
    requires StatusOf(s1.status, n.id) == StatusOf(s.status, n.id)
    requires LogOf(s1.unblocks, n.id) == LogOf(s.unblocks, n.id)
    ensures Rule(s1, n) == Rule(s, n)
  {
    hide Ancestors, NetAmount;
  }

  /** A refund can only take budget away. */
  lemma RefundRule(s: State, x: Id, n: Node)
    requires AllKept(s) && CanRefund(s, x) && Rule(TakeBack(s, x), n).Sends?
    ensures Rule(s, n) == Rule(TakeBack(s, x), n)
  {
    var log := LogOf(s.unblocks, x);
    var s1 := TakeBack(s, x);
    if n.id != x {
      assert LogOf(s1.unblocks, n.id) == LogOf(s.unblocks, n.id);
      ThawSameRule(s, s1, n);
    } else {
      var refund := Grant(log[|log| - 1].amount, true);
      assert LogOf(s1.unblocks, x) == log + [refund];
      assert (log + [refund])[..|log|] == log;
      LastGrantPositive(log);
      assert EffectiveBudget(n, s1.unblocks) <= EffectiveBudget(n, s.unblocks);
      LowerBudgetRule(s, s1, n);
    }
  }

  lemma LastGrantPositive(log: seq<Grant>)
    requires WellKept(log) && log != [] && !log[|log| - 1].refund
    ensures log[|log| - 1].amount >= 1
  {
  }

  lemma LowerBudgetRule(s: State, s1: State, n: Node)
    requires s1 == s.(unblocks := s1.unblocks)
    requires EffectiveBudget(n, s1.unblocks) <= EffectiveBudget(n, s.unblocks) && Rule(s1, n).Sends?
    ensures Rule(s, n) == Rule(s1, n)
  {
    hide Ancestors, EffectiveBudget;
  }

  /** The updated graph pulls a waiter back only if the old one did: a waiter's ancestors are done and frozen. */
  lemma PullWasPull(r: Inst, u: Update, k: nat, gate: Id, targets: seq<Id>)
    requires Valid(r.s) && CanUpdate(r, u) && k < |r.s.dag| && gate != r.s.dag[k].id
    requires DepsDone(r.s, r.s.dag[k]) && r.s.dag[k] in Updated(r.s, u).dag
    requires r.s.dag[k].id in Pull(Updated(r.s, u).dag, gate, targets)
    ensures r.s.dag[k].id in Pull(r.s.dag, gate, targets)
  {
    var s, x := r.s, r.s.dag[k].id;
    if u.Edit? {
      AncestorsFrozen(s, u.dag, k);
      ValidIsUnique(s.dag);
      ValidIsUnique(u.dag);
      hide Valid, ValidTemplate, Ancestors, Downstream, CanUpdate, CanEdit;
      var t :| t in targets && (x == t || x in Downstream(u.dag, t));
      ReachabilityDuality(s.dag, t, x);
      ReachabilityDuality(u.dag, t, x);
    } else {
      hide Valid, Pull, CanUpdate, Thaw;
      if u.Lift? { ThawAt(s, u.node, u.targets, u.grant, x); }
    }
  }

  /** Nothing the driver did not predict resets a waiter. */
  lemma WaiterNotReset(r: Inst, u: Update, k: nat)
    requires Valid(r.s) && AllKept(r.s) && CanUpdate(r, u) && k < |r.s.dag|
    requires IsReady(r.s.status, r.s.dag[k]) && r.s.dag[k].id !in Reopening(r.s, u)
    requires r.s.dag[k] in Updated(r.s, u).dag && StatusOf(Updated(r.s, u).status, r.s.dag[k].id) == Pending
    ensures r.s.dag[k].id !in ReopenResets(Updated(r.s, u))
  {
    hide Valid, Rule, ReopenResets, Pull, CanUpdate, Updated, AllKept;
    var s, s1, x := r.s, Updated(r.s, u), r.s.dag[k].id;
    ResetsChar(s1, x);
    ResetsChar(s, x);
    ReadyDepsDone(s, s.dag[k]);
    forall i | 0 <= i < |s1.dag|
      ensures !SentBackBy(s1, i, x) && !HaltedAt(s1, i, x)
    {
      RuleTargetsLegal(s1, s1.dag[i]);
      if SentBackBy(s1, i, x) {
        var j := SenderWasSender(r, u, i);
        PullWasPull(r, u, k, s1.dag[i].id, Rule(s1, s1.dag[i]).targets);
        PendingIsReopening(s, j, x);
      }
    }
  }

  lemma PendingIsReopening(s: State, j: nat, x: Id)
    requires j < |s.dag| && SentBackBy(s, j, x) && StatusOf(s.status, x) == Pending
    ensures x in ReopenResets(s) && ReopenResets(s)[x] == Pending
  {
    hide Rule, ReopenResets, Pull;
    ResetsChar(s, x);
    forall i | 0 <= i < |s.dag|
      ensures !HaltedAt(s, i, x)
    {
      RuleTargetsLegal(s, s.dag[i]);
    }
  }

  // ---------- how a person is reached ----------

  /** A node's person is sent a task exactly if it is completed by task, and a card exactly if by card; nobody else is
      sent anything. */
  lemma KindRule(s: State, i: nat)
    requires UniqueIds(s.dag) && i < |s.dag|
    ensures KindOf(s, s.dag[i].id) == Some(TaskKind) <==> s.dag[i].signal == Some(TaskComplete)
    ensures KindOf(s, s.dag[i].id) == Some(CardKind) <==> s.dag[i].signal == Some(CardAction)
    ensures KindOf(s, s.dag[i].id).None? <==> s.dag[i].signal.None?
  {
    FindUnique(s.dag, i);
    hide Find;
  }

  /** Running a node can fail exactly if it calls a tool or a model, or is a person's and the document he is to write
      does not exist yet. */
  lemma MayRaiseRule(s: State, i: nat)
    requires UniqueIds(s.dag) && i < |s.dag|
    ensures var n := s.dag[i];
            MayRaise(s, n.id) <==>
              || n.executor == Tool || n.executor == Llm
              || (n.role == Produce && n.deliverable && !(n.id in s.outputs && s.outputs[n.id].handle.Some?))
  {
    FindUnique(s.dag, i);
    hide Find;
  }
}
