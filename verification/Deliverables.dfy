/** Which upstream deliverables a node reads: through the nodes that produce nothing, up to the first that did. */
module Deliverables {
  import opened Graph
  import opened State

  /** The registered handle of a node. */
  function PriorHandle(outputs: map<Id, Result>, x: Id): Option<string> {
    if x in outputs then outputs[x].handle else None
  }

  function Declared(dag: Dag): map<Id, bool> {
    if dag == [] then map[]
    else Declared(dag[..|dag| - 1])[dag[|dag| - 1].id := dag[|dag| - 1].deliverable]
  }

  /** Looked through: present, no registered handle, no declared landing place. */
  predicate Transparent(s: State, x: Id) {
    var declared := Declared(s.dag);
    PriorHandle(s.outputs, x).None? && x in declared && !declared[x]
  }

  /** Dependency edges that leave transparent nodes only. */
  ghost function PassMap(s: State): Adj {
    map x | x in DepMap(s.dag) && Transparent(s, x) :: DepMap(s.dag)[x]
  }

  /** A node is seen from a dependency list when a path whose interior is transparent ends at it. */
  ghost predicate Seen(pass: Adj, start: seq<Id>, x: Id) {
    x in start || exists d :: d in start && Reach(pass, d, x)
  }

  ghost predicate Visible(s: State, start: seq<Id>, x: Id) {
    PriorHandle(s.outputs, x).Some? && Seen(PassMap(s), start, x)
  }

  lemma SeenStep(pass: Adj, start: seq<Id>, x: Id, y: Id)
    requires Seen(pass, start, x) && y in Lookup(pass, x)
    ensures Seen(pass, start, y)
  {
    hide Reach;
    ReachEdge(pass, x, y);
    if x !in start {
      var d :| d in start && Reach(pass, d, x);
      ReachTrans(pass, d, x, y);
    }
  }

  lemma SeenClosed(pass: Adj, start: seq<Id>, x: Id, closed: set<Id>)
    requires Seen(pass, start, x)
    requires forall d :: d in start ==> d in closed
    requires forall y, z :: y in closed && z in Lookup(pass, y) ==> z in closed
    ensures x in closed
  {
    hide Reach;
    if x !in start {
      var d :| d in start && Reach(pass, d, x);
      ClosedHoldsReach(pass, d, x, closed);
    }
  }

  /** Breadth first over the dependencies: exactly the visible handles, each with its registered value. */
  method UpstreamHandles(s: State, node: Node) returns (found: map<Id, string>)
    ensures forall x :: x in found <==> Visible(s, node.deps, x)
    ensures forall x :: x in found ==> PriorHandle(s.outputs, x) == Some(found[x])
  {
    var declared, deps := Declared(s.dag), DepMap(s.dag);
    ghost var pass := PassMap(s);
    ghost var all := Successors(pass) + set d | d in node.deps;
    found := map[];
    var seen: set<Id> := {};
    var queue := node.deps;
    hide DepMap, Declared, Seen;
    forall d | d in node.deps
      ensures Seen(pass, node.deps, d)
    {
      StartSeen(pass, node.deps, d);
    }
    while queue != []
      invariant forall x :: x in seen || x in queue ==> Seen(pass, node.deps, x)
      invariant forall d :: d in node.deps ==> d in seen || d in queue
      invariant forall x, y :: x in seen && y in Lookup(pass, x) ==> y in seen || y in queue
      invariant forall x :: x in found <==> x in seen && PriorHandle(s.outputs, x).Some?
      invariant forall x :: x in found ==> PriorHandle(s.outputs, x) == Some(found[x])
      invariant forall x :: x in queue ==> x in all
      decreases all - seen, |queue|
    {
      var dep := queue[0];
      ghost var was := queue;
      assert was == [dep] + was[1..];
      queue := queue[1..];
      if dep !in seen {
        seen := seen + {dep};
        var handle := PriorHandle(s.outputs, dep);
        if handle.Some? {
          found := found[dep := handle.value];
        } else if dep in declared && !declared[dep] {
          forall y | y in Lookup(pass, dep)
            ensures Seen(pass, node.deps, y)
          {
            SeenStep(pass, node.deps, dep, y);
          }
          assert Lookup(deps, dep) == Lookup(pass, dep);
          queue := queue + Lookup(deps, dep);
        }
      }
    }
    forall x | Seen(pass, node.deps, x)
      ensures x in seen
    {
      SeenClosed(pass, node.deps, x, seen);
    }
  }

  lemma StartSeen(pass: Adj, start: seq<Id>, d: Id)
    requires d in start
    ensures Seen(pass, start, d)
  {
  }

  // ---------- a review gate in between does not cut the flow ----------

  /** `dag` with a fresh gate put on the j-th dependency of the i-th node. */
  ghost function Inserted(dag: Dag, i: nat, j: nat, gate: Node): Dag
    requires i < |dag| && j < |dag[i].deps|
  {
    dag[i := dag[i].(deps := dag[i].deps[j := gate.id])] + [gate]
  }

  ghost predicate FreshGate(s: State, d: Id, gate: Node) {
    && gate.role.Gate? && !gate.deliverable && gate.deps == [d]
    && gate.id !in Ids(s.dag) && gate.id !in s.outputs
    && forall i :: 0 <= i < |s.dag| ==> gate.id !in s.dag[i].deps
  }

  lemma {:induction false} DeclaredAt(dag: Dag, i: nat)
    requires UniqueIds(dag) && i < |dag|
    ensures dag[i].id in Declared(dag) && Declared(dag)[dag[i].id] == dag[i].deliverable
  {
    var k := |dag| - 1;
    if i < k {
      assert dag[..k][i] == dag[i] && dag[i].id != dag[k].id;
      DeclaredAt(dag[..k], i);
    }
  }

  lemma {:induction false} DeclaredKeys(dag: Dag, x: Id)
    ensures x in Declared(dag) ==> x in Ids(dag)
  {
    if dag != [] {
      var k := |dag| - 1;
      DeclaredKeys(dag[..k], x);
      assert forall i :: 0 <= i < k ==> dag[..k][i] == dag[i];
    }
  }

  /** The pass-through edges of a node, read off the graph. */
  lemma PassAt(s: State, i: nat)
    requires UniqueIds(s.dag) && i < |s.dag|
    ensures Lookup(PassMap(s), s.dag[i].id) ==
            if PriorHandle(s.outputs, s.dag[i].id).None? && !s.dag[i].deliverable then s.dag[i].deps else []
  {
    hide DepMap, Declared;
    DepMapAt(s.dag, i);
    DeclaredAt(s.dag, i);
  }

  lemma PassKeys(s: State, x: Id)
    requires x !in Ids(s.dag)
    ensures Lookup(PassMap(s), x) == []
  {
    DeclaredKeys(s.dag, x);
    hide DepMap, Declared;
  }

  /** Each old edge is still an edge, or now goes through the gate; the gate leads to d and nowhere else. */
  ghost predicate Rerouted(pass: Adj, pass': Adj, c: Id, d: Id, g: Id) {
    && Lookup(pass', g) == [d]
    && (forall y, z :: y != g && z in Lookup(pass, y) ==>
          (z in Lookup(pass', y) || (y == c && z == d && g in Lookup(pass', y))))
    && (forall y, z :: y != g && z in Lookup(pass', y) ==>
          (z in Lookup(pass, y) || (y == c && z == g && d in Lookup(pass, y))))
    && Lookup(pass, g) == []
    && (forall y :: g !in Lookup(pass, y))
  }

  lemma InsertedUnique(s: State, i: nat, j: nat, gate: Node)
    requires UniqueIds(s.dag) && i < |s.dag| && j < |s.dag[i].deps| && gate.id !in Ids(s.dag)
    ensures UniqueIds(Inserted(s.dag, i, j, gate))
  {
    var dag' := Inserted(s.dag, i, j, gate);
    assert forall k :: 0 <= k < |s.dag| ==> dag'[k].id == s.dag[k].id;
  }

  lemma InsertReroutes(s: State, i: nat, j: nat, gate: Node)
    requires UniqueIds(s.dag) && i < |s.dag| && j < |s.dag[i].deps| && FreshGate(s, s.dag[i].deps[j], gate)
    ensures Rerouted(PassMap(s), PassMap(s.(dag := Inserted(s.dag, i, j, gate))), s.dag[i].id, s.dag[i].deps[j],
        gate.id)
  {
    var s' := s.(dag := Inserted(s.dag, i, j, gate));
    InsertedUnique(s, i, j, gate);
    hide PassMap, UniqueIds;
    PassAt(s', |s.dag|);
    PassKeys(s, gate.id);
    forall y | y != gate.id
      ensures y == s.dag[i].id || Lookup(PassMap(s'), y) == Lookup(PassMap(s), y)
      ensures y == s.dag[i].id ==> Lookup(PassMap(s'), y) == Lookup(PassMap(s), y)
                                   || (Lookup(PassMap(s), y) == s.dag[i].deps && Lookup(PassMap(s'), y) ==
                                        s'.dag[i].deps)
    {
      if y in Ids(s.dag) {
        var k :| 0 <= k < |s.dag| && s.dag[k].id == y;
        PassAt(s, k);
        PassAt(s', k);
      } else {
        NotInserted(s, i, j, gate, y);
        PassKeys(s, y);
        PassKeys(s', y);
      }
    }
    forall y
      ensures gate.id !in Lookup(PassMap(s), y)
    {
      if y in Ids(s.dag) {
        var k :| 0 <= k < |s.dag| && s.dag[k].id == y;
        PassAt(s, k);
      } else {
        PassKeys(s, y);
      }
    }
    SwapMembers(s.dag[i].deps, j, gate.id);
    assert s'.dag[i].deps == s.dag[i].deps[j := gate.id];
    hide Lookup;
  }

  lemma NotInserted(s: State, i: nat, j: nat, gate: Node, y: Id)
    requires i < |s.dag| && j < |s.dag[i].deps| && y !in Ids(s.dag) && y != gate.id
    ensures y !in Ids(Inserted(s.dag, i, j, gate))
  {
    var dag' := Inserted(s.dag, i, j, gate);
    forall k | 0 <= k < |dag'|
      ensures dag'[k].id != y
    {
      assert k < |s.dag| ==> dag'[k].id == s.dag[k].id;
    }
  }

  lemma SwapMembers(deps: seq<Id>, j: nat, g: Id)
    requires j < |deps|
    ensures forall z :: z in deps ==> z in deps[j := g] || z == deps[j]
    ensures forall z :: z in deps[j := g] ==> z in deps || z == g
    ensures g in deps[j := g]
  {
    var deps' := deps[j := g];
    assert deps'[j] == g;
    forall z | z in deps
      ensures z in deps' || z == deps[j]
    {
      var k :| 0 <= k < |deps| && deps[k] == z;
      assert k != j ==> deps'[k] == z;
    }
  }

  lemma ReachRerouted(pass: Adj, pass': Adj, c: Id, d: Id, g: Id, a: Id, x: Id)
    requires Rerouted(pass, pass', c, d, g) && a != g && x != g
    ensures Reach(pass, a, x) <==> Reach(pass', a, x)
  {
    hide Reach;
    if Reach(pass, a, x) {
      var through := ReachSet(pass', a);
      forall y, z | (y in through || y == a) && z in Lookup(pass, y)
        ensures z in through
      {
        if z in Lookup(pass', y) {
          ReachEdge(pass', y, z);
        } else {
          ReachEdge(pass', y, g);
          ReachEdge(pass', g, d);
          ReachTrans(pass', y, g, d);
        }
        if y != a {
          ReachTrans(pass', a, y, z);
        }
      }
      ClosedHoldsReach(pass, a, x, through);
    }
    if Reach(pass', a, x) {
      var former := ReachSet(pass, a) - {g};
      var closed := former + if d in former then {g} else {};
      forall y, z | (y in closed || y == a) && z in Lookup(pass', y)
        ensures z in closed
      {
        if y != g {
          var e := if z in Lookup(pass, y) then z else d;
          ReachEdge(pass, y, e);
          if y != a {
            ReachTrans(pass, a, y, e);
          }
        }
      }
      ClosedHoldsReach(pass', a, x, closed);
    }
  }

  lemma SeenRerouted(pass: Adj, pass': Adj, c: Id, d: Id, g: Id, start: seq<Id>, x: Id)
    requires Rerouted(pass, pass', c, d, g) && g !in start && x != g
    ensures Seen(pass, start, x) <==> Seen(pass', start, x)
  {
    hide Reach, Rerouted;
    forall a | a in start
      ensures Reach(pass, a, x) <==> Reach(pass', a, x)
    {
      ReachRerouted(pass, pass', c, d, g, a, x);
    }
  }

  /** From the consumer's own list, in which the gate took the place of d. */
  lemma SeenThroughGate(pass': Adj, d: Id, g: Id, start: seq<Id>, j: nat, x: Id)
    requires Lookup(pass', g) == [d] && j < |start| && start[j] == d && g !in start && x != g
    ensures Seen(pass', start[j := g], x) <==> Seen(pass', start, x)
  {
    hide Reach;
    SwapMembers(start, j, g);
    var start' := start[j := g];
    ReachEdge(pass', g, d);
    if Seen(pass', start, x) {
      if x in start && x !in start' {
        assert Reach(pass', g, x);
      } else if x !in start {
        var a :| a in start && Reach(pass', a, x);
        if a !in start' {
          ReachTrans(pass', g, d, x);
        }
      }
    }
    if Seen(pass', start', x) && x !in start {
      var a :| a in start' && Reach(pass', a, x);
      if a == g {
        var b := ReachFirst(pass', g, x);
        assert start[j] in start;
      }
    }
  }

  /** Inserting a review gate on one dependency edge changes what no existing node reads. */
  lemma GateInsertionIsTransparent(s: State, i: nat, j: nat, gate: Node, k: nat, x: Id)
    requires UniqueIds(s.dag) && i < |s.dag| && j < |s.dag[i].deps| && FreshGate(s, s.dag[i].deps[j], gate)
    requires k < |s.dag|
    ensures var s' := s.(dag := Inserted(s.dag, i, j, gate));
            Visible(s', s'.dag[k].deps, x) <==> Visible(s, s.dag[k].deps, x)
  {
    var s' := s.(dag := Inserted(s.dag, i, j, gate));
    InsertReroutes(s, i, j, gate);
    hide PassMap, Seen, UniqueIds;
    if x != gate.id {
      var d := s.dag[i].deps[j];
      SeenRerouted(PassMap(s), PassMap(s'), s.dag[i].id, d, gate.id, s.dag[k].deps, x);
      if k == i {
        SeenThroughGate(PassMap(s'), d, gate.id, s.dag[i].deps, j, x);
      }
    }
  }

  // ---------- what is visible, in terms of the graph ----------

  /** y is a dependency of x, and x has neither a handle nor a declared landing place. */
  ghost predicate LooksThrough(s: State, x: Id, y: Id) {
    && (x in s.outputs ==> s.outputs[x].handle.None?)
    && exists i :: 0 <= i < |s.dag| && s.dag[i].id == x && !s.dag[i].deliverable && y in s.dag[i].deps
  }

  ghost predicate LooksThroughAt(s: State, p: seq<Id>, i: int)
    requires 0 <= i < |p| - 1
  {
    LooksThrough(s, p[i], p[i + 1])
  }

  /** A way upstream from one of these nodes, through nodes without deliverables, to one with a registered handle. */
  ghost predicate LeadsUp(s: State, start: seq<Id>, p: seq<Id>) {
    && p != [] && p[0] in start && (forall i :: 0 <= i < |p| - 1 ==> LooksThroughAt(s, p, i))
    && p[|p| - 1] in s.outputs && s.outputs[p[|p| - 1]].handle.Some?
  }

  lemma PassRule(s: State, x: Id, y: Id)
    requires UniqueIds(s.dag)
    ensures y in Lookup(PassMap(s), x) <==> LooksThrough(s, x, y)
  {
    hide PassMap, Lookup;
    if x in Ids(s.dag) {
      var i :| 0 <= i < |s.dag| && s.dag[i].id == x;
      PassAt(s, i);
      assert forall j :: 0 <= j < |s.dag| && s.dag[j].id == x ==> j == i;
    } else {
      PassKeys(s, x);
    }
  }

  /** A node's handle is handed down exactly along such a way. */
  lemma VisibleRule(s: State, start: seq<Id>, x: Id)
    requires UniqueIds(s.dag)
    ensures Visible(s, start, x) <==> exists p :: LeadsUp(s, start, p) && p[|p| - 1] == x
  {
    hide PassMap, UniqueIds, LooksThrough;
    forall y, z
      ensures z in Lookup(PassMap(s), y) <==> LooksThrough(s, y, z)
    {
      PassRule(s, y, z);
    }
    if Visible(s, start, x) {
      if x in start {
        assert LeadsUp(s, start, [x]);
      } else {
        var d :| d in start && Reach(PassMap(s), d, x);
        var p :| IsPath(PassMap(s), p) && p[0] == d && p[|p| - 1] == x;
        forall i | 0 <= i < |p| - 1
          ensures LooksThroughAt(s, p, i)
        {
          assert StepAt(PassMap(s), p, i);
        }
        assert LeadsUp(s, start, p);
      }
    }
    if p :| LeadsUp(s, start, p) && p[|p| - 1] == x {
      if |p| > 1 {
        forall i | 0 <= i < |p| - 1
          ensures StepAt(PassMap(s), p, i)
        {
          assert LooksThroughAt(s, p, i);
        }
        assert IsPath(PassMap(s), p);
        assert Reach(PassMap(s), p[0], x);
      }
    }
  }
}
