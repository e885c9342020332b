/** Changing a graph while it runs: only nodes still pending may be added, removed or changed. */
module LiveGraph {
  import opened Graph
  import opened Template
  import opened State
  import opened Engine

  /** The fields an update sets; the id is listed because setting it is refused, and `other` says whether it also sets
      any of the fields the engine's decisions do not depend on, such as the label, the prompt or the tool. */
  datatype Patch = Patch(
    id: Option<Id>,
    deps: Option<seq<Id>>,
    executor: Option<Executor>,
    role: Option<Role>,
    policy: Option<Option<Policy>>,
    reopenBudget: Option<Option<int>>,
    signal: Option<Option<Signal>>,
    assignee: Option<Option<Token>>,
    vote: Option<Option<Vote>>,
    deliverable: Option<bool>,
    other: bool)

  const NOTHING := Patch(None, None, None, None, None, None, None, None, None, None, false)

  datatype Op = AddNode(node: Option<Node>) | RemoveNode(id: Option<Id>)
      | UpdateNode(id: Option<Id>, changes: Patch) | UnknownOp

  datatype EditError =
    | NoOps
    | MissingId
    | IdExists(id: Id)
    | NoSuchNode(id: Id)
    | PastFreezeLine(id: Id, status: Status)
    | NothingToSet
    | ChangesId
    | UnknownKind

  datatype Edit = Ok(dag: Dag) | Err(error: EditError)

  function Or<T>(a: Option<T>, b: T): T {
    if a.Some? then a.value else b
  }

  function Patched(n: Node, p: Patch): (r: Node)
    ensures r.id == n.id
  {
    Node(n.id, Or(p.deps, n.deps), Or(p.executor, n.executor), Or(p.role, n.role), Or(p.policy, n.policy),
         Or(p.reopenBudget, n.reopenBudget), Or(p.signal, n.signal), Or(p.assignee, n.assignee), Or(p.vote, n.vote),
         Or(p.deliverable, n.deliverable))
  }

  predicate HasId(x: Option<Id>) {
    x.Some? && x.value.text != ""
  }

  // ---------- specification ----------

  function Without(dag: Dag, x: Id): Dag {
    if dag == [] then []
    else
      var k := |dag| - 1;
      if dag[k].id == x then Without(dag[..k], x) else Without(dag[..k], x) + [dag[k]]
  }

  function With(dag: Dag, x: Id, p: Patch): (r: Dag)
    ensures |r| == |dag|
    ensures forall i :: 0 <= i < |dag| ==> r[i] == if dag[i].id == x then Patched(dag[i], p) else dag[i]
  {
    seq(|dag|, i requires 0 <= i < |dag| => if dag[i].id == x then Patched(dag[i], p) else dag[i])
  }

  /** The id of an existing, still editable node, or the error the code raises. */
  function Editable(ids: set<Id>, status: map<Id, Status>, x: Option<Id>): Option<EditError> {
    if !HasId(x) then Some(MissingId)
    else if x.value !in ids then Some(NoSuchNode(x.value))
    else if StatusOf(status, x.value) != Pending then Some(PastFreezeLine(x.value, StatusOf(status, x.value)))
    else None
  }

  function Refusal(ids: set<Id>, status: map<Id, Status>, op: Op): Option<EditError> {
    match op
    case AddNode(node) =>
      if node.None? || node.value.id.text == "" then Some(MissingId)
      else if node.value.id in ids then Some(IdExists(node.value.id))
      else None
    case RemoveNode(x) => Editable(ids, status, x)
    case UpdateNode(x, p) =>
      var e := Editable(ids, status, x);
      if e.Some? then e
      else if p == NOTHING then Some(NothingToSet)
      else if p.id.Some? then Some(ChangesId)
      else None
    case UnknownOp => Some(UnknownKind)
  }

  function Apply(dag: Dag, status: map<Id, Status>, op: Op): Edit {
    var refused := Refusal(Ids(dag), status, op);
    if refused.Some? then Err(refused.value)
    else
      match op
      case AddNode(node) => Ok(dag + [node.value])
      case RemoveNode(x) => Ok(Without(dag, x.value))
      case UpdateNode(x, p) => Ok(With(dag, x.value, p))
      case UnknownOp => Err(UnknownKind)
  }

  function ApplyAll(dag: Dag, status: map<Id, Status>, ops: seq<Op>): Edit
    decreases |ops|
  {
    if ops == [] then Ok(dag)
    else
      match Apply(dag, status, ops[0])
      case Err(e) => Err(e)
      case Ok(dag') => ApplyAll(dag', status, ops[1..])
  }

  function ApplyOps(dag: Dag, status: map<Id, Status>, ops: seq<Op>): Edit {
    if ops == [] then Err(NoOps) else ApplyAll(dag, status, ops)
  }

  // ---------- the loop over mutable node records ----------

  /** A node record of the copied graph, shared by the list and the index. */
  class Cell {
    var node: Node

    constructor (n: Node)
      ensures node == n
    {
      node := n;
    }
  }

  /** The records hold the graph d, in order. */
  ghost predicate Holds(list: seq<Cell>, d: Dag)
    reads list
  {
    |list| == |d| && forall i :: 0 <= i < |list| ==> list[i].node == d[i]
  }

  /** The index has exactly the ids of the graph, each leading to the record the list has for it. */
  ghost predicate Agree(d: Dag, list: seq<Cell>, index: map<Id, Cell>) {
    && UniqueIds(d) && |list| == |d| && index.Keys == Ids(d)
    && forall i :: 0 <= i < |d| ==> d[i].id in index && index[d[i].id] == list[i]
  }

  lemma {:induction false} WithoutAbsent(dag: Dag, x: Id)
    requires forall i :: 0 <= i < |dag| ==> dag[i].id != x
    ensures Without(dag, x) == dag
  {
    if dag != [] {
      WithoutAbsent(dag[..|dag| - 1], x);
    }
  }

  lemma {:induction false} WithoutAt(dag: Dag, k: nat)
    requires UniqueIds(dag) && k < |dag|
    ensures Without(dag, dag[k].id) == dag[..k] + dag[k + 1..]
  {
    var m := |dag| - 1;
    if k == m {
      assert forall i :: 0 <= i < m ==> dag[..m][i].id != dag[k].id;
      WithoutAbsent(dag[..m], dag[k].id);
      assert dag[k + 1..] == [];
    } else {
      assert dag[..m][k] == dag[k] && dag[m].id != dag[k].id;
      WithoutAt(dag[..m], k);
      assert dag[..m][..k] + dag[..m][k + 1..] + [dag[m]] == dag[..k] + dag[k + 1..];
    }
  }

  method CopyOf(dag: Dag) returns (list: seq<Cell>, index: map<Id, Cell>)
    requires UniqueIds(dag)
    ensures forall i :: 0 <= i < |list| ==> fresh(list[i])
    ensures Agree(dag, list, index) && Holds(list, dag)
  {
    list, index := [], map[];
    hide Ids, UniqueIds;
    assert Agree(dag[..0], list, index) by { NothingAgrees(); }
    for k := 0 to |dag|
      invariant Agree(dag[..k], list, index) && Holds(list, dag[..k])
      invariant forall i :: 0 <= i < |list| ==> fresh(list[i])
    {
      var c := new Cell(dag[k]);
      NotYet(dag, k);
      AddAgrees(dag[..k], list, index, dag[k], c);
      assert dag[..k + 1] == dag[..k] + [dag[k]];
      list, index := list + [c], index[dag[k].id := c];
    }
    assert dag[..|dag|] == dag;
  }

  lemma NothingAgrees()
    ensures Agree([], [], map[])
  {
  }

  lemma NotYet(dag: Dag, k: nat)
    requires UniqueIds(dag) && k < |dag|
    ensures dag[k].id !in Ids(dag[..k])
  {
    assert forall j :: 0 <= j < k ==> dag[..k][j] == dag[j];
  }

  lemma AddAgrees(d: Dag, list: seq<Cell>, index: map<Id, Cell>, n: Node, c: Cell)
    requires Agree(d, list, index) && n.id !in Ids(d)
    ensures Agree(d + [n], list + [c], index[n.id := c])
  {
    IdsSnoc(d, n);
    hide Ids;
  }

  function Drop<T>(list: seq<T>, k: nat): (r: seq<T>)
    requires k < |list|
    ensures |r| == |list| - 1
    ensures forall i :: 0 <= i < |r| ==> r[i] == if i < k then list[i] else list[i + 1]
  {
    list[..k] + list[k + 1..]
  }

  lemma DropUnique(d: Dag, k: nat)
    requires UniqueIds(d) && k < |d|
    ensures UniqueIds(Drop(d, k))
    ensures forall i :: 0 <= i < |Drop(d, k)| ==> Drop(d, k)[i].id != d[k].id
  {
    var d' := Drop(d, k);
    forall i | 0 <= i < |d'|
      ensures d'[i].id != d[k].id
      ensures forall j :: i < j < |d'| ==> d'[i].id != d'[j].id
    {
      var i' := if i < k then i else i + 1;
      assert d'[i] == d[i'];
      assert d[i'].id != d[k].id by { if i' < k {} else {} }
      forall j | i < j < |d'|
        ensures d'[i].id != d'[j].id
      {
        var j' := if j < k then j else j + 1;
        assert d'[j] == d[j'] && d[i'].id != d[j'].id;
      }
    }
  }

  lemma DropAgrees(d: Dag, list: seq<Cell>, index: map<Id, Cell>, k: nat)
    requires Agree(d, list, index) && k < |d|
    ensures Agree(Without(d, d[k].id), Drop(list, k), index - {d[k].id})
    ensures Without(d, d[k].id) == Drop(d, k)
  {
    WithoutAt(d, k);
    WithoutIds(d, d[k].id);
    DropUnique(d, k);
    DropIndex(d, list, index, k);
    hide Ids, Without, UniqueIds, Drop;
  }

  lemma DropIndex(d: Dag, list: seq<Cell>, index: map<Id, Cell>, k: nat)
    requires |list| == |d| && k < |d| && UniqueIds(d)
    requires forall i :: 0 <= i < |d| ==> d[i].id in index && index[d[i].id] == list[i]
    ensures var d', index' := Drop(d, k), index - {d[k].id};
            forall i :: 0 <= i < |d'| ==> d'[i].id in index' && index'[d'[i].id] == Drop(list, k)[i]
  {
    DropUnique(d, k);
    hide UniqueIds, Drop;
    var d', list' := Drop(d, k), Drop(list, k);
    forall i | 0 <= i < |d'|
      ensures d'[i].id in index && d'[i].id != d[k].id && index[d'[i].id] == list'[i]
    {
      var i' := if i < k then i else i + 1;
      assert d'[i] == d[i'] && list'[i] == list[i'];
    }
  }

  lemma PatchAgrees(d: Dag, list: seq<Cell>, index: map<Id, Cell>, x: Id, p: Patch)
    requires Agree(d, list, index)
    ensures Agree(With(d, x, p), list, index)
  {
    SameIds(d, With(d, x, p));
    hide Ids;
  }

  lemma SameIds(d: Dag, d': Dag)
    requires |d| == |d'| && forall i :: 0 <= i < |d| ==> d'[i].id == d[i].id
    ensures Ids(d') == Ids(d)
  {
    KeepsIds(d, d');
    KeepsIds(d', d);
    hide Ids;
  }

  /** One accepted operation on the shared records. */
  method Perform(ghost d: Dag, list: seq<Cell>, index: map<Id, Cell>, status: map<Id, Status>, op: Op)
    returns (ghost d': Dag, list': seq<Cell>, index': map<Id, Cell>)
    requires Agree(d, list, index) && Holds(list, d) && Refusal(index.Keys, status, op).None?
    modifies list
    ensures Apply(d, status, op) == Ok(d')
    ensures Agree(d', list', index') && Holds(list', d')
    ensures forall i :: 0 <= i < |list'| ==> list'[i] in list || fresh(list'[i])
  {
    hide Ids, Without;
    match op {
      case AddNode(node) =>
        var c := new Cell(node.value);
        AddAgrees(d, list, index, node.value, c);
        d', list', index' := d + [node.value], list + [c], index[node.value.id := c];
      case RemoveNode(x) =>
        d', list', index' := RemoveRecord(d, list, index, x.value);
      case UpdateNode(x, p) =>
        PatchAgrees(d, list, index, x.value, p);
        d' := With(d, x.value, p);
        list', index' := list, index;
        UpdateRecord(d, list, index, x.value, p);
    }
  }

  method Locate(ghost d: Dag, list: seq<Cell>, x: Id) returns (k: nat)
    requires Holds(list, d) && x in Ids(d)
    ensures k < |d| && d[k].id == x
  {
    ghost var at :| 0 <= at < |d| && d[at].id == x;
    k := 0;
    while list[k].node.id != x
      invariant k <= at
      decreases at - k
    {
      k := k + 1;
    }
  }

  /** The list drops the record and the index pops the id. */
  method RemoveRecord(ghost d: Dag, list: seq<Cell>, index: map<Id, Cell>, x: Id)
    returns (ghost d': Dag, list': seq<Cell>, index': map<Id, Cell>)
    requires Agree(d, list, index) && Holds(list, d) && x in index
    ensures d' == Without(d, x)
    ensures Agree(d', list', index') && Holds(list', d')
    ensures forall i :: 0 <= i < |list'| ==> list'[i] in list
  {
    hide Ids, Without, Drop, Agree;
    assert |list| == |d| && index.Keys == Ids(d) by { AgreeShape(d, list, index); }
    var k := Locate(d, list, x);
    DropAgrees(d, list, index, k);
    DropHolds(d, list, k);
    d', list', index' := Without(d, x), Drop(list, k), index - {x};
  }

  lemma AgreeShape(d: Dag, list: seq<Cell>, index: map<Id, Cell>)
    requires Agree(d, list, index)
    ensures |list| == |d| && index.Keys == Ids(d)
  {
    hide Ids, UniqueIds;
  }

  lemma DropHolds(d: Dag, list: seq<Cell>, k: nat)
    requires Holds(list, d) && k < |d|
    ensures Holds(Drop(list, k), Drop(d, k))
    ensures forall i :: 0 <= i < |Drop(list, k)| ==> Drop(list, k)[i] in list
  {
    var list', d' := Drop(list, k), Drop(d, k);
    forall i | 0 <= i < |list'|
      ensures list'[i].node == d'[i] && list'[i] in list
    {
      var i' := if i < k then i else i + 1;
      assert list'[i] == list[i'] && d'[i] == d[i'];
    }
  }

  /** Writing through the index changes that node of the list and no other. */
  method UpdateRecord(ghost d: Dag, list: seq<Cell>, index: map<Id, Cell>, x: Id, p: Patch)
    requires Agree(d, list, index) && Holds(list, d) && x in index
    modifies list
    ensures Holds(list, With(d, x, p))
  {
    ghost var at :| 0 <= at < |d| && d[at].id == x;
    hide Ids;
    var c := index[x];
    assert c == list[at];
    assert forall i :: 0 <= i < |d| && i != at ==> list[i] != c by {
      forall i | 0 <= i < |d| && i != at
        ensures list[i] != c
      {
        assert list[i].node == d[i] && c.node == d[at];
        assert d[i].id != d[at].id by { if i < at {} else {} }
      }
    }
    c.node := Patched(c.node, p);
  }

  /** The edit loop: list and index agree throughout, and the result is the specified graph or error. */
  method EditGraph(dag: Dag, status: map<Id, Status>, ops: seq<Op>) returns (r: Edit)
    requires UniqueIds(dag)
    ensures r == ApplyOps(dag, status, ops)
    ensures r.Ok? ==> UniqueIds(r.dag)
  {
    if ops == [] {
      return Err(NoOps);
    }
    hide Ids, Refusal;
    var list, index := CopyOf(dag);
    ghost var d := dag;
    for k := 0 to |ops|
      invariant forall i :: 0 <= i < |list| ==> fresh(list[i])
      invariant Agree(d, list, index) && Holds(list, d)
      invariant ApplyAll(dag, status, ops) == ApplyAll(d, status, ops[k..])
    {
      assert ops[k..][0] == ops[k] && ops[k..][1..] == ops[k + 1..];
      var refused := Refusal(index.Keys, status, ops[k]);
      if refused.Some? {
        return Err(refused.value);
      }
      d, list, index := Perform(d, list, index, status, ops[k]);
    }
    assert ops[|ops|..] == [];
    var nodes: Dag := [];
    for i := 0 to |list|
      invariant nodes == d[..i]
    {
      nodes := nodes + [list[i].node];
    }
    r := Ok(nodes);
  }

  // ---------- the freeze line ----------

  /** The part of a graph that has left pending, among the ids given. */
  function FrozenPart(dag: Dag, status: map<Id, Status>, among: set<Id>): Dag {
    if dag == [] then []
    else
      var k := |dag| - 1;
      var before := FrozenPart(dag[..k], status, among);
      if dag[k].id in among && StatusOf(status, dag[k].id) != Pending then before + [dag[k]] else before
  }

  lemma {:induction false} WithoutKeepsFrozen(dag: Dag, status: map<Id, Status>, among: set<Id>, x: Id)
    requires StatusOf(status, x) == Pending
    ensures FrozenPart(Without(dag, x), status, among) == FrozenPart(dag, status, among)
  {
    if dag != [] {
      var k := |dag| - 1;
      WithoutKeepsFrozen(dag[..k], status, among, x);
      if dag[k].id != x {
        var w := Without(dag[..k], x);
        assert (w + [dag[k]])[..|w|] == w;
      }
    }
  }

  lemma {:induction false} WithKeepsFrozen(dag: Dag, status: map<Id, Status>, among: set<Id>, x: Id, p: Patch)
    requires StatusOf(status, x) == Pending
    ensures FrozenPart(With(dag, x, p), status, among) == FrozenPart(dag, status, among)
  {
    if dag != [] {
      var k := |dag| - 1;
      WithKeepsFrozen(dag[..k], status, among, x, p);
      assert With(dag, x, p)[..k] == With(dag[..k], x, p);
    }
  }

  lemma OpKeepsFrozen(dag: Dag, status: map<Id, Status>, among: set<Id>, op: Op)
    requires Apply(dag, status, op).Ok?
    requires forall x :: x in among && StatusOf(status, x) != Pending ==> x in Ids(dag)
    ensures FrozenPart(Apply(dag, status, op).dag, status, among) == FrozenPart(dag, status, among)
    ensures forall x :: x in among && StatusOf(status, x) != Pending ==> x in Ids(Apply(dag, status, op).dag)
  {
    var dag' := Apply(dag, status, op).dag;
    match op
    case AddNode(node) =>
      assert dag'[..|dag|] == dag;
      KeepsIds(dag, dag');
    case RemoveNode(x) =>
      WithoutKeepsFrozen(dag, status, among, x.value);
      WithoutIds(dag, x.value);
    case UpdateNode(x, p) =>
      WithKeepsFrozen(dag, status, among, x.value, p);
      KeepsIds(dag, dag');
  }

  lemma KeepsIds(dag: Dag, dag': Dag)
    requires |dag| <= |dag'| && forall i :: 0 <= i < |dag| ==> dag'[i].id == dag[i].id
    ensures forall x :: x in Ids(dag) ==> x in Ids(dag')
  {
    forall x | x in Ids(dag)
      ensures x in Ids(dag')
    {
      var i :| 0 <= i < |dag| && dag[i].id == x;
      assert dag'[i].id == x;
    }
  }

  lemma {:induction false} WithoutIds(dag: Dag, x: Id)
    ensures Ids(Without(dag, x)) == Ids(dag) - {x}
  {
    if dag != [] {
      var k := |dag| - 1;
      WithoutIds(dag[..k], x);
      IdsSnoc(dag[..k], dag[k]);
      assert dag[..k] + [dag[k]] == dag;
      IdsSnoc(Without(dag[..k], x), dag[k]);
    }
  }

  lemma IdsSnoc(dag: Dag, n: Node)
    ensures Ids(dag + [n]) == Ids(dag) + {n.id}
  {
    var d := dag + [n];
    assert d[|dag|] == n;
    forall x | x in Ids(dag)
      ensures x in Ids(d)
    {
      var i :| 0 <= i < |dag| && dag[i].id == x;
      assert d[i].id == x;
    }
    forall x | x in Ids(d)
      ensures x in Ids(dag) + {n.id}
    {
      var i :| 0 <= i < |d| && d[i].id == x;
    }
  }

  /** Only the future changes: every node that has left pending survives, unchanged and in the same order. */
  lemma {:induction false} FreezeLineHolds(dag: Dag, status: map<Id, Status>, among: set<Id>, ops: seq<Op>)
    requires ApplyAll(dag, status, ops).Ok?
    requires forall x :: x in among && StatusOf(status, x) != Pending ==> x in Ids(dag)
    ensures FrozenPart(ApplyAll(dag, status, ops).dag, status, among) == FrozenPart(dag, status, among)
    decreases |ops|
  {
    hide Apply, Ids;
    if ops != [] {
      OpKeepsFrozen(dag, status, among, ops[0]);
      FreezeLineHolds(Apply(dag, status, ops[0]).dag, status, among, ops[1..]);
    }
  }

  /** Applying two operation lists in turn is applying their concatenation, errors included. */
  lemma {:induction false} OpsCompose(dag: Dag, status: map<Id, Status>, a: seq<Op>, b: seq<Op>)
    requires b != []
    ensures ApplyAll(dag, status, a + b) ==
            match ApplyAll(dag, status, a) { case Err(e) => Err(e) case Ok(mid) => ApplyOps(mid, status, b) }
    decreases |a|
  {
    hide Apply;
    if a == [] {
      assert a + b == b;
    } else {
      assert (a + b)[0] == a[0] && (a + b)[1..] == a[1..] + b;
      var first := Apply(dag, status, a[0]);
      if first.Ok? {
        OpsCompose(first.dag, status, a[1..], b);
      }
    }
  }

  lemma {:induction false} FrozenPartHolds(dag: Dag, status: map<Id, Status>, among: set<Id>, n: Node)
    ensures n in FrozenPart(dag, status, among) <==> n in dag && n.id in among && StatusOf(status, n.id) != Pending
  {
    if dag != [] {
      var k := |dag| - 1;
      FrozenPartHolds(dag[..k], status, among, n);
      assert dag == dag[..k] + [dag[k]];
    }
  }

  /** The freeze line of the service: the recorded status, with every waiting person counted as running. */
  function Frontier(status: map<Id, Status>, waiting: set<Id>): map<Id, Status> {
    status + map x | x in waiting :: Running
  }

  /** An edit that passes the freeze line and validation is a legal engine step, and waiting people's nodes survive
      it. */
  lemma AcceptedEditIsLegal(s: State, waiting: set<Id>, ops: seq<Op>)
    requires Valid(s) && waiting <= Ids(s.dag)
    requires ApplyOps(s.dag, Frontier(s.status, waiting), ops).Ok?
    requires ValidTemplate(ApplyOps(s.dag, Frontier(s.status, waiting), ops).dag)
    ensures CanEdit(s, ApplyOps(s.dag, Frontier(s.status, waiting), ops).dag)
    ensures forall n :: n in s.dag && n.id in waiting ==> n in ApplyOps(s.dag, Frontier(s.status, waiting), ops).dag
  {
    hide ValidTemplate, ApplyAll, RunInv;
    var f := Frontier(s.status, waiting);
    var dag' := ApplyOps(s.dag, f, ops).dag;
    FreezeLineHolds(s.dag, f, Ids(s.dag), ops);
    forall n | n in s.dag && StatusOf(f, n.id) != Pending
      ensures n in dag'
    {
      FrozenPartHolds(s.dag, f, Ids(s.dag), n);
      FrozenPartHolds(dag', f, Ids(s.dag), n);
    }
  }

  // ---------- ancestors do not move ----------

  lemma SettledAncestors(s: State, i: nat, a: Id)
    requires Valid(s) && i < |s.dag| && DepsDone(s, s.dag[i]) && a in Ancestors(s.dag, s.dag[i].id)
    ensures StatusOf(s.status, a) == Done && a in Ids(s.dag)
  {
    ValidIsUnique(s.dag);
    AncestorsInDag(s.dag, s.dag[i].id);
    var done := set x | x in Ids(s.dag) && StatusOf(s.status, x) == Done;
    hide ValidTemplate, Ids, Ancestors, DepMap;
    DepMapAt(s.dag, i);
    forall d | d in s.dag[i].deps
      ensures d in done
    {
    }
    forall j, d | 0 <= j < |s.dag| && s.dag[j].id in done && d in s.dag[j].deps
      ensures d in done
    {
      assert DepsDone(s, s.dag[j]);
    }
    AncestorsWithin(s.dag, s.dag[i].id, done);
  }

  lemma KeptDeps(dag: Dag, dag': Dag, i: nat)
    requires UniqueIds(dag) && UniqueIds(dag') && i < |dag| && dag[i] in dag'
    ensures Lookup(DepMap(dag), dag[i].id) == Lookup(DepMap(dag'), dag[i].id)
  {
    hide UniqueIds, DepMap;
    var j :| 0 <= j < |dag'| && dag'[j] == dag[i];
    DepMapAt(dag, i);
    DepMapAt(dag', j);
  }

  /** The history of a node whose dependencies are all done does not move under an accepted edit. */
  lemma AncestorsFrozen(s: State, dag': Dag, i: nat)
    requires Valid(s) && CanEdit(s, dag')
    requires i < |s.dag| && DepsDone(s, s.dag[i]) && s.dag[i] in dag'
    ensures Ancestors(dag', s.dag[i].id) == Ancestors(s.dag, s.dag[i].id)
  {
    ValidIsUnique(s.dag);
    ValidIsUnique(dag');
    hide ValidTemplate, Ids, Ancestors, DepMap, UniqueIds, Acyclic, DepsClosed, RunInv, Consistent;
    forall y | y == s.dag[i].id || y in Ancestors(s.dag, s.dag[i].id)
      ensures Lookup(DepMap(s.dag), y) == Lookup(DepMap(dag'), y)
    {
      var j := i;
      if y != s.dag[i].id {
        SettledAncestors(s, i, y);
        j :| 0 <= j < |s.dag| && s.dag[j].id == y;
      }
      KeptDeps(s.dag, dag', j);
    }
    SameAncestors(s.dag, dag', s.dag[i].id);
  }

  lemma SettledKept(s: State, dag': Dag, i: nat)
    requires Valid(s) && CanEdit(s, dag') && i < |s.dag| && Settled(StatusOf(s.status, s.dag[i].id))
    ensures DepsDone(s, s.dag[i]) && s.dag[i] in dag'
  {
    hide ValidTemplate, Consistent, DepsDone;
  }

  /** In particular the ancestors of every done or failed node are the same before and after. */
  lemma HistoryUnchanged(s: State, dag': Dag, i: nat)
    requires Valid(s) && CanEdit(s, dag') && i < |s.dag| && Settled(StatusOf(s.status, s.dag[i].id))
    ensures Ancestors(dag', s.dag[i].id) == Ancestors(s.dag, s.dag[i].id)
  {
    hide Valid, CanEdit, DepsDone, Ancestors;
    SettledKept(s, dag', i);
    AncestorsFrozen(s, dag', i);
  }

  // ---------- what an operation does, in terms of the nodes ----------

  /** A node of this id is in the graph, and neither finished, stopped nor being worked on. */
  ghost predicate StillOpen(dag: Dag, status: map<Id, Status>, x: Option<Id>) {
    && x.Some? && x.value.text != "" && (exists i :: 0 <= i < |dag| && dag[i].id == x.value)
    && (x.value in status ==> status[x.value] == Pending)
  }

  /** An operation is accepted exactly if what it adds is new and named, or what it removes or changes is still open and
      what it sets is something other than the id. */
  ghost predicate Acceptable(dag: Dag, status: map<Id, Status>, op: Op) {
    match op
    case AddNode(n) => n.Some? && n.value.id.text != "" && forall i :: 0 <= i < |dag| ==> dag[i].id != n.value.id
    case RemoveNode(x) => StillOpen(dag, status, x)
    case UpdateNode(x, p) => StillOpen(dag, status, x) && p != NOTHING && p.id.None?
    case UnknownOp => false
  }

  /** n' is n with these fields set and all others as they were. */
  ghost predicate SetsOnly(n: Node, p: Patch, n': Node) {
    && n'.id == n.id
    && (p.deps.None? ==> n'.deps == n.deps) && (p.deps.Some? ==> n'.deps == p.deps.value)
    && (p.executor.None? ==> n'.executor == n.executor) && (p.executor.Some? ==> n'.executor == p.executor.value)
    && (p.role.None? ==> n'.role == n.role) && (p.role.Some? ==> n'.role == p.role.value)
    && (p.policy.None? ==> n'.policy == n.policy) && (p.policy.Some? ==> n'.policy == p.policy.value)
    && (p.reopenBudget.None? ==> n'.reopenBudget == n.reopenBudget)
    && (p.reopenBudget.Some? ==> n'.reopenBudget == p.reopenBudget.value)
    && (p.signal.None? ==> n'.signal == n.signal) && (p.signal.Some? ==> n'.signal == p.signal.value)
    && (p.assignee.None? ==> n'.assignee == n.assignee) && (p.assignee.Some? ==> n'.assignee == p.assignee.value)
    && (p.vote.None? ==> n'.vote == n.vote) && (p.vote.Some? ==> n'.vote == p.vote.value)
    && (p.deliverable.None? ==> n'.deliverable == n.deliverable)
    && (p.deliverable.Some? ==> n'.deliverable == p.deliverable.value)
  }

  /** The graph after an accepted operation: one node more at the end, one node less, or one node changed. */
  ghost predicate Becomes(dag: Dag, op: Op, dag': Dag) {
    match op
    case AddNode(n) => n.Some? && dag' == dag + [n.value]
    case RemoveNode(x) => exists i :: 0 <= i < |dag| && Some(dag[i].id) == x && dag' == dag[..i] + dag[i + 1..]
    case UpdateNode(x, p) =>
      |dag'| == |dag| && forall i :: 0 <= i < |dag| ==>
        if Some(dag[i].id) == x then SetsOnly(dag[i], p, dag'[i]) else dag'[i] == dag[i]
    case UnknownOp => false
  }

  lemma OpRule(dag: Dag, status: map<Id, Status>, op: Op)
    requires UniqueIds(dag)
    ensures Apply(dag, status, op).Ok? <==> Acceptable(dag, status, op)
    ensures Apply(dag, status, op).Ok? ==> Becomes(dag, op, Apply(dag, status, op).dag)
    ensures Apply(dag, status, op).Err? ==>
      (Apply(dag, status, op).error.PastFreezeLine? <==>
         ((op.RemoveNode? || op.UpdateNode?) && HasId(op.id) && op.id.value in Ids(dag)
          && op.id.value in status && status[op.id.value] != Pending))
  {
    hide Without, With, Patched, UniqueIds, SetsOnly;
    if Apply(dag, status, op).Ok? {
      match op
      case AddNode(n) =>
      case RemoveNode(x) =>
        var i :| 0 <= i < |dag| && dag[i].id == x.value;
        WithoutAt(dag, i);
      case UpdateNode(x, p) =>
        forall i | 0 <= i < |dag|
          ensures SetsOnly(dag[i], p, Patched(dag[i], p))
        {
          PatchRule(dag[i], p);
        }
    }
  }

  lemma PatchRule(n: Node, p: Patch)
    ensures SetsOnly(n, p, Patched(n, p))
  {
  }

  /** To an edit, a node is open exactly if its status is pending and nobody waits at it. */
  lemma FrontierRule(status: map<Id, Status>, waiting: set<Id>, x: Id)
    ensures StatusOf(Frontier(status, waiting), x) == Pending <==>
      (x !in waiting && (x in status ==> status[x] == Pending))
  {
  }
}
