/** The node contract and the reachability questions the engine asks of a dependency graph. */
module Graph {

  /** A node id. */
  datatype Id = Name(text: string)

  /** An opaque identity: a role name of a template or an account id. */
  type Token = string

  datatype Option<+T> = None | Some(value: T)

  datatype Executor = Tool | Llm | Human

  datatype Role = Produce | Gate

  datatype Policy = Auto | Single | AnyOf | AllOf | Threshold

  datatype Signal = TaskComplete | CardAction

  datatype Vote = Vote(voters: seq<Token>, primary: Option<Token>)

  /** One node of a template or of a live graph. `deliverable` says whether a landing place is declared. */
  datatype Node = Node(
    id: Id,
    deps: seq<Id>,
    executor: Executor,
    role: Role,
    policy: Option<Policy>,
    reopenBudget: Option<int>,
    signal: Option<Signal>,
    assignee: Option<Token>,
    vote: Option<Vote>,
    deliverable: bool)

  type Dag = seq<Node>

  /** Adjacency lists, as the worklists build them. */
  type Adj = map<Id, seq<Id>>

  function Ids(dag: Dag): (ids: set<Id>)
    ensures forall i :: 0 <= i < |dag| ==> dag[i].id in ids
    ensures forall x :: x in ids ==> exists i :: 0 <= i < |dag| && dag[i].id == x
  {
    set i | 0 <= i < |dag| :: dag[i].id
  }

  ghost predicate UniqueIds(dag: Dag) {
    forall i, j :: 0 <= i < j < |dag| ==> dag[i].id != dag[j].id
  }

  ghost predicate DepsClosed(dag: Dag) {
    forall i :: 0 <= i < |dag| ==> forall d :: d in dag[i].deps ==> d in Ids(dag)
  }

  function Lookup(adj: Adj, x: Id): seq<Id> {
    if x in adj then adj[x] else []
  }

  // ---------- node_by_id ----------

  function Find(dag: Dag, x: Id): (n: Option<Node>)
    ensures n.Some? <==> x in Ids(dag)
    ensures n.Some? ==> n.value.id == x && exists i :: 0 <= i < |dag| && dag[i] == n.value
  {
    if dag == [] then None
    else if dag[0].id == x then Some(dag[0])
    else
      assert forall i :: 0 < i < |dag| ==> dag[i] == dag[1..][i - 1];
      Find(dag[1..], x)
  }

  lemma {:induction false} FindUnique(dag: Dag, i: nat)
    requires UniqueIds(dag) && i < |dag|
    ensures Find(dag, dag[i].id) == Some(dag[i])
  {
    if i > 0 {
      assert dag[0].id != dag[i].id;
      assert dag[1..][i - 1] == dag[i];
      FindUnique(dag[1..], i - 1);
    }
  }

  /** The first node carrying the id, or the key error of a missing one. */
  method NodeById(dag: Dag, x: Id) returns (n: Option<Node>)
    ensures n == Find(dag, x)
  {
    for i := 0 to |dag|
      invariant Find(dag, x) == Find(dag[i..], x)
    {
      assert dag[i..][0] == dag[i] && dag[i..][1..] == dag[i + 1..];
      if dag[i].id == x {
        return Some(dag[i]);
      }
    }
    assert dag[|dag|..] == [];
    n := None;
  }

  // ---------- adjacency ----------

  /** Dependencies by id; with a repeated id the last node wins. */
  function DepMap(dag: Dag): Adj {
    if dag == [] then map[]
    else
      var k := |dag| - 1;
      DepMap(dag[..k])[dag[k].id := dag[k].deps]
  }

  function AddChild(m: Adj, deps: seq<Id>, child: Id): Adj {
    if deps == [] then m
    else
      var k := |deps| - 1;
      var before := AddChild(m, deps[..k], child);
      before[deps[k] := Lookup(before, deps[k]) + [child]]
  }

  /** Children by id: the edges of the graph turned round. */
  function ChildMap(dag: Dag): Adj {
    if dag == [] then map[]
    else
      var k := |dag| - 1;
      AddChild(ChildMap(dag[..k]), dag[k].deps, dag[k].id)
  }

  lemma {:induction false} DepMapKeys(dag: Dag, x: Id)
    ensures x in DepMap(dag) <==> exists i :: 0 <= i < |dag| && dag[i].id == x
  {
    if dag != [] {
      var k := |dag| - 1;
      DepMapKeys(dag[..k], x);
      assert forall i :: 0 <= i < k ==> dag[..k][i] == dag[i];
    }
  }

  lemma {:induction false} DepMapAt(dag: Dag, i: nat)
    requires UniqueIds(dag) && i < |dag|
    ensures dag[i].id in DepMap(dag) && DepMap(dag)[dag[i].id] == dag[i].deps
  {
    var k := |dag| - 1;
    if i < k {
      assert dag[..k][i] == dag[i];
      assert dag[i].id != dag[k].id;
      DepMapAt(dag[..k], i);
    }
  }

  lemma {:induction false} AddChildChar(m: Adj, deps: seq<Id>, child: Id, d: Id, x: Id)
    ensures x in Lookup(AddChild(m, deps, child), d) <==> x in Lookup(m, d) || (x == child && d in deps)
  {
    if deps != [] {
      var k := |deps| - 1;
      AddChildChar(m, deps[..k], child, d, x);
      assert deps == deps[..k] + [deps[k]];
    }
  }

  lemma {:induction false} ChildMapChar(dag: Dag, d: Id, x: Id)
    ensures x in Lookup(ChildMap(dag), d) <==> exists i :: 0 <= i < |dag| && dag[i].id == x && d in dag[i].deps
  {
    if dag != [] {
      var k := |dag| - 1;
      ChildMapChar(dag[..k], d, x);
      AddChildChar(ChildMap(dag[..k]), dag[k].deps, dag[k].id, d, x);
      assert forall i :: 0 <= i < k ==> dag[..k][i] == dag[i];
    }
  }

  // ---------- reachability ----------

  ghost predicate StepAt(adj: Adj, p: seq<Id>, i: int)
    requires 0 <= i < |p| - 1
  {
    p[i + 1] in Lookup(adj, p[i])
  }

  ghost predicate IsPath(adj: Adj, p: seq<Id>) {
    |p| >= 2 && forall i :: 0 <= i < |p| - 1 ==> StepAt(adj, p, i)
  }

  /** There is a non-empty path of edges from a to b. */
  ghost predicate Reach(adj: Adj, a: Id, b: Id) {
    exists p :: IsPath(adj, p) && p[0] == a && p[|p| - 1] == b
  }

  lemma ReachEdge(adj: Adj, a: Id, b: Id)
    requires b in Lookup(adj, a)
    ensures Reach(adj, a, b)
  {
    assert IsPath(adj, [a, b]);
  }

  lemma ReachTrans(adj: Adj, a: Id, b: Id, c: Id)
    requires Reach(adj, a, b) && Reach(adj, b, c)
    ensures Reach(adj, a, c)
  {
    var p :| IsPath(adj, p) && p[0] == a && p[|p| - 1] == b;
    var q :| IsPath(adj, q) && q[0] == b && q[|q| - 1] == c;
    var r := p + q[1..];
    forall i | 0 <= i < |r| - 1
      ensures StepAt(adj, r, i)
    {
      if i < |p| - 1 {
        assert StepAt(adj, p, i);
      } else {
        assert StepAt(adj, q, i - |p| + 1);
      }
    }
    assert IsPath(adj, r) && r[|r| - 1] == c;
  }

  /** A set that holds the successors of a and is closed under edges holds everything a reaches. */
  lemma ClosedHoldsReach(adj: Adj, a: Id, b: Id, closed: set<Id>)
    requires Reach(adj, a, b)
    requires forall x :: x in Lookup(adj, a) ==> x in closed
    requires forall x, y :: x in closed && y in Lookup(adj, x) ==> y in closed
    ensures b in closed
  {
    var p :| IsPath(adj, p) && p[0] == a && p[|p| - 1] == b;
    for i := 1 to |p|
      invariant p[i - 1] == a || p[i - 1] in closed
      invariant i > 1 ==> p[i - 1] in closed
    {
      assert StepAt(adj, p, i - 1);
    }
  }

  /** The first edge of a path. */
  lemma ReachFirst(adj: Adj, a: Id, b: Id) returns (c: Id)
    requires Reach(adj, a, b)
    ensures c in Lookup(adj, a) && (c == b || Reach(adj, c, b))
  {
    var p :| IsPath(adj, p) && p[0] == a && p[|p| - 1] == b;
    assert StepAt(adj, p, 0);
    c := p[1];
    if |p| > 2 {
      var q := p[1..];
      forall i | 0 <= i < |q| - 1
        ensures StepAt(adj, q, i)
      {
        assert StepAt(adj, p, i + 1);
      }
      assert IsPath(adj, q);
    }
  }

  function Successors(adj: Adj): set<Id> {
    set k, i | k in adj && 0 <= i < |adj[k]| :: adj[k][i]
  }

  ghost function ReachSet(adj: Adj, a: Id): (r: set<Id>)
    ensures forall b :: b in r <==> Reach(adj, a, b)
  {
    forall b | Reach(adj, a, b)
      ensures b in Successors(adj)
    {
      var p :| IsPath(adj, p) && p[0] == a && p[|p| - 1] == b;
      assert StepAt(adj, p, |p| - 2);
    }
    set b | b in Successors(adj) && Reach(adj, a, b)
  }

  /** The worklist both reachability functions run: everything the starting list leads to. */
  method Closure(adj: Adj, start: seq<Id>) returns (out: set<Id>)
    ensures forall x :: x in out <==> x in start || exists s :: s in start && Reach(adj, s, x)
  {
    out := {};
    var stack := start;
    ghost var all := Successors(adj) + set s | s in start;
    while stack != []
      invariant forall x :: x in out || x in stack ==> x in start || exists s :: s in start && Reach(adj, s, x)
      invariant forall x, y :: x in out && y in Lookup(adj, x) ==> y in out || y in stack
      invariant forall s :: s in start ==> s in out || s in stack
      invariant forall x :: x in stack ==> x in all
      decreases all - out, |stack|
    {
      var k := |stack| - 1;
      var x := stack[k];
      ghost var was := stack;
      assert was == was[..k] + [x];
      stack := stack[..k];
      if x !in out {
        forall y | y in Lookup(adj, x)
          ensures y in start || exists s :: s in start && Reach(adj, s, y)
        {
          ReachEdge(adj, x, y);
          if x !in start {
            var s :| s in start && Reach(adj, s, x);
            ReachTrans(adj, s, x, y);
          }
        }
        out := out + {x};
        stack := stack + Lookup(adj, x);
      }
    }
    forall x, s | s in start && Reach(adj, s, x)
      ensures x in out
    {
      ClosedHoldsReach(adj, s, x, out);
    }
  }

  // ---------- ancestors and downstream ----------

  /** Everything node x transitively depends on. */
  ghost function Ancestors(dag: Dag, x: Id): set<Id> {
    ReachSet(DepMap(dag), x)
  }

  /** Everything that transitively depends on node t. */
  ghost function Downstream(dag: Dag, t: Id): set<Id> {
    ReachSet(ChildMap(dag), t)
  }

  method DepsAncestors(dag: Dag, x: Id) returns (seen: set<Id>)
    ensures seen == Ancestors(dag, x)
  {
    var deps: Adj := map[];
    for i := 0 to |dag|
      invariant deps == DepMap(dag[..i])
    {
      assert dag[..i + 1][..i] == dag[..i];
      deps := deps[dag[i].id := dag[i].deps];
    }
    assert dag[..|dag|] == dag;
    seen := Closure(deps, Lookup(deps, x));
    ClosureIsReach(deps, x, seen);
  }

  method StaleDownstream(dag: Dag, t: Id) returns (out: set<Id>)
    ensures out == Downstream(dag, t)
  {
    var children: Adj := map[];
    for i := 0 to |dag|
      invariant children == ChildMap(dag[..i])
    {
      assert dag[..i + 1][..i] == dag[..i];
      var deps := dag[i].deps;
      for j := 0 to |deps|
        invariant children == AddChild(ChildMap(dag[..i]), deps[..j], dag[i].id)
      {
        assert deps[..j + 1][..j] == deps[..j];
        children := children[deps[j] := Lookup(children, deps[j]) + [dag[i].id]];
      }
      assert deps[..|deps|] == deps;
    }
    assert dag[..|dag|] == dag;
    out := Closure(children, Lookup(children, t));
    ClosureIsReach(children, t, out);
  }

  lemma ClosureIsReach(adj: Adj, a: Id, out: set<Id>)
    requires forall x :: x in out <==> x in Lookup(adj, a) || exists s :: s in Lookup(adj, a) && Reach(adj, s, x)
    ensures out == ReachSet(adj, a)
  {
    forall x | x in out
      ensures Reach(adj, a, x)
    {
      if x in Lookup(adj, a) {
        ReachEdge(adj, a, x);
      } else {
        var s :| s in Lookup(adj, a) && Reach(adj, s, x);
        ReachEdge(adj, a, s);
        ReachTrans(adj, a, s, x);
      }
    }
    forall x | Reach(adj, a, x)
      ensures x in out
    {
      var c := ReachFirst(adj, a, x);
    }
  }

  /** With unique ids the child edges are exactly the dependency edges turned round. */
  lemma EdgesTranspose(dag: Dag, x: Id, d: Id)
    requires UniqueIds(dag)
    ensures d in Lookup(DepMap(dag), x) <==> x in Lookup(ChildMap(dag), d)
  {
    ChildMapChar(dag, d, x);
    DepMapKeys(dag, x);
    if x in DepMap(dag) {
      var i :| 0 <= i < |dag| && dag[i].id == x;
      DepMapAt(dag, i);
    }
  }

  ghost predicate Transposed(up: Adj, down: Adj) {
    forall x, d :: d in Lookup(up, x) <==> x in Lookup(down, d)
  }

  function Reversed<T>(p: seq<T>): (q: seq<T>)
    ensures |q| == |p| && forall i :: 0 <= i < |p| ==> q[i] == p[|p| - 1 - i]
  {
    seq(|p|, i requires 0 <= i < |p| => p[|p| - 1 - i])
  }

  /** Turning every edge round turns every path round. */
  lemma PathReversed(up: Adj, down: Adj, a: Id, b: Id)
    requires Transposed(up, down)
    requires Reach(up, a, b)
    ensures Reach(down, b, a)
  {
    var p :| IsPath(up, p) && p[0] == a && p[|p| - 1] == b;
    var q := Reversed(p);
    forall i | 0 <= i < |q| - 1
      ensures StepAt(down, q, i)
    {
      assert StepAt(up, p, |p| - 2 - i);
    }
    assert IsPath(down, q);
  }

  /** A node is an ancestor of a gate exactly when the gate is downstream of the node. */
  lemma ReachabilityDuality(dag: Dag, t: Id, g: Id)
    requires UniqueIds(dag)
    ensures t in Ancestors(dag, g) <==> g in Downstream(dag, t)
  {
    hide DepMap, ChildMap;
    var up, down := DepMap(dag), ChildMap(dag);
    forall x, d
      ensures d in Lookup(up, x) <==> x in Lookup(down, d)
    {
      EdgesTranspose(dag, x, d);
    }
    if Reach(up, g, t) {
      PathReversed(up, down, g, t);
    }
    if Reach(down, t, g) {
      PathReversed(down, up, t, g);
    }
  }

  // ---------- facts the engine proofs use ----------

  lemma DepIsAncestor(dag: Dag, i: nat, d: Id)
    requires UniqueIds(dag) && i < |dag| && d in dag[i].deps
    ensures d in Ancestors(dag, dag[i].id)
    ensures dag[i].id in Downstream(dag, d)
  {
    DepMapAt(dag, i);
    ReachEdge(DepMap(dag), dag[i].id, d);
    ReachabilityDuality(dag, d, dag[i].id);
  }

  /** Downstream sets are closed under taking children. */
  lemma DownstreamClosed(dag: Dag, t: Id, i: nat, d: Id)
    requires UniqueIds(dag) && i < |dag| && d in dag[i].deps
    requires d == t || d in Downstream(dag, t)
    ensures dag[i].id in Downstream(dag, t)
  {
    DepIsAncestor(dag, i, d);
    if d != t {
      ReachTrans(ChildMap(dag), t, d, dag[i].id);
    }
  }

  lemma DownstreamInDag(dag: Dag, t: Id)
    ensures Downstream(dag, t) <= Ids(dag)
  {
    forall x | x in Downstream(dag, t)
      ensures x in Ids(dag)
    {
      var p :| IsPath(ChildMap(dag), p) && p[0] == t && p[|p| - 1] == x;
      assert StepAt(ChildMap(dag), p, |p| - 2);
      ChildMapChar(dag, p[|p| - 2], x);
    }
  }

  lemma AncestorsInDag(dag: Dag, x: Id)
    requires UniqueIds(dag) && DepsClosed(dag)
    ensures Ancestors(dag, x) <= Ids(dag)
  {
    forall b | b in Ancestors(dag, x)
      ensures b in Ids(dag)
    {
      var p :| IsPath(DepMap(dag), p) && p[0] == x && p[|p| - 1] == b;
      var y := p[|p| - 2];
      assert StepAt(DepMap(dag), p, |p| - 2);
      DepMapKeys(dag, y);
      var i :| 0 <= i < |dag| && dag[i].id == y;
      DepMapAt(dag, i);
    }
  }

  /** A set closed under dependencies that holds the dependencies of a node holds its ancestors. */
  lemma AncestorsWithin(dag: Dag, x: Id, closed: set<Id>)
    requires UniqueIds(dag)
    requires forall d :: d in Lookup(DepMap(dag), x) ==> d in closed
    requires forall i, d :: 0 <= i < |dag| && dag[i].id in closed && d in dag[i].deps ==> d in closed
    ensures Ancestors(dag, x) <= closed
  {
    forall y, z | y in closed && z in Lookup(DepMap(dag), y)
      ensures z in closed
    {
      DepMapKeys(dag, y);
      var i :| 0 <= i < |dag| && dag[i].id == y;
      DepMapAt(dag, i);
    }
    forall b | b in Ancestors(dag, x)
      ensures b in closed
    {
      ClosedHoldsReach(DepMap(dag), x, b, closed);
    }
  }

  /** The start of a path reaches each later node of it. */
  lemma {:induction false} PathPrefix(adj: Adj, p: seq<Id>, i: nat)
    requires IsPath(adj, p) && 0 < i < |p|
    ensures Reach(adj, p[0], p[i])
  {
    hide Reach;
    assert StepAt(adj, p, i - 1);
    ReachEdge(adj, p[i - 1], p[i]);
    if i > 1 {
      PathPrefix(adj, p, i - 1);
      ReachTrans(adj, p[0], p[i - 1], p[i]);
    }
  }

  /** A path of one adjacency is a path of another that agrees on everything the start reaches. */
  lemma SamePaths(a: Adj, a': Adj, x: Id, b: Id)
    requires forall y :: y == x || Reach(a, x, y) ==> Lookup(a, y) == Lookup(a', y)
    requires Reach(a, x, b)
    ensures Reach(a', x, b)
  {
    var p :| IsPath(a, p) && p[0] == x && p[|p| - 1] == b;
    hide Reach;
    forall i | 0 <= i < |p| - 1
      ensures StepAt(a', p, i)
    {
      assert StepAt(a, p, i);
      if i > 0 {
        PathPrefix(a, p, i);
      }
    }
    assert IsPath(a', p);
    PathPrefix(a', p, |p| - 1);
  }

  /** Two graphs that give the same dependencies to x and all of its ancestors give it the same ancestors. */
  lemma SameAncestors(dag: Dag, dag': Dag, x: Id)
    requires forall y :: y == x || y in Ancestors(dag, x) ==> Lookup(DepMap(dag), y) == Lookup(DepMap(dag'), y)
    ensures Ancestors(dag', x) == Ancestors(dag, x)
  {
    hide DepMap, Reach;
    var a, a' := DepMap(dag), DepMap(dag');
    var s := Ancestors(dag, x);
    forall y, z | (y == x || y in s) && z in Lookup(a, y)
      ensures z in s
    {
      ReachEdge(a, y, z);
      if y != x { ReachTrans(a, x, y, z); }
    }
    forall b | Reach(a', x, b)
      ensures Reach(a, x, b)
    {
      ClosedHoldsReach(a', x, b, s);
    }
    forall b | Reach(a, x, b)
      ensures Reach(a', x, b)
    {
      SamePaths(a, a', x, b);
    }
  }

  ghost predicate Acyclic(dag: Dag) {
    forall x :: x !in Ancestors(dag, x)
  }

  /** In an acyclic graph a dependency has strictly fewer ancestors, which is what induction runs on. */
  lemma FewerAncestors(dag: Dag, i: nat, d: Id)
    requires UniqueIds(dag) && Acyclic(dag) && i < |dag| && d in dag[i].deps
    ensures Ancestors(dag, d) < Ancestors(dag, dag[i].id)
  {
    var x := dag[i].id;
    DepIsAncestor(dag, i, d);
    forall b | b in Ancestors(dag, d)
      ensures b in Ancestors(dag, x)
    {
      ReachTrans(DepMap(dag), x, d, b);
    }
    assert d in Ancestors(dag, x) && d !in Ancestors(dag, d);
  }
}
