/** Template validation: unique ids, no dangling dependency, no cycle, and the guardrails of each node. */
module Template {
  import opened Graph

  datatype Colour = Visiting | Finished

  datatype Verdict = Accepted | Empty | RepeatedId(id: Id) | Dangling(id: Id, dep: Id) | Cycle(trail: seq<Id>)
      | Unguarded(id: Id)

  // ---------- acyclicity ----------

  ghost predicate Shaped(adj: Adj) {
    forall x, y :: x in adj && y in adj[x] ==> y in adj
  }

  /** What the colours mean between calls: finished nodes lead only to finished nodes and lie on no cycle. */
  ghost predicate Coloured(adj: Adj, state: map<Id, Colour>) {
    && state.Keys <= adj.Keys
    && (forall x, y :: x in state && state[x] == Finished && y in adj[x] ==> y in state && state[y] == Finished)
    && (forall x :: x in state && state[x] == Finished ==> !Reach(adj, x, x))
  }

  /** A trail of edges whose last node already occurs on it. */
  ghost predicate ClosesCycle(adj: Adj, trail: seq<Id>) {
    && IsPath(adj, trail)
    && exists i :: 0 <= i < |trail| - 1 && trail[i] == trail[|trail| - 1]
  }

  lemma CycleReaches(adj: Adj, trail: seq<Id>)
    requires ClosesCycle(adj, trail)
    ensures Reach(adj, trail[|trail| - 1], trail[|trail| - 1])
  {
    var i :| 0 <= i < |trail| - 1 && trail[i] == trail[|trail| - 1];
    var loop := trail[i..];
    forall j | 0 <= j < |loop| - 1
      ensures StepAt(adj, loop, j)
    {
      assert StepAt(adj, trail, i + j);
    }
    assert IsPath(adj, loop);
  }

  /** The nodes being visited, followed by the next one, form a path. */
  ghost predicate Trail(adj: Adj, stack: seq<Id>, x: Id) {
    stack == [] || IsPath(adj, stack + [x])
  }

  lemma TrailStep(adj: Adj, stack: seq<Id>, x: Id, d: Id)
    requires Trail(adj, stack, x) && d in Lookup(adj, x)
    ensures Trail(adj, stack + [x], d)
  {
    var was, p := stack + [x], stack + [x] + [d];
    forall i | 0 <= i < |p| - 1
      ensures StepAt(adj, p, i)
    {
      if i < |stack| {
        assert StepAt(adj, was, i);
      }
    }
  }

  lemma TrailCloses(adj: Adj, stack: seq<Id>, x: Id)
    requires Trail(adj, stack, x) && x in stack
    ensures ClosesCycle(adj, stack + [x])
  {
    var i :| 0 <= i < |stack| && stack[i] == x;
    assert (stack + [x])[i] == x;
  }

  /** The colours between calls of the search: the visiting nodes are exactly the stack. */
  ghost predicate Midway(adj: Adj, state: map<Id, Colour>, stack: seq<Id>) {
    Coloured(adj, state) && forall y :: y in state && state[y] == Visiting <==> y in stack
  }

  ghost predicate IsFinished(state: map<Id, Colour>, x: Id) {
    x in state && state[x] == Finished
  }

  ghost predicate Grows(before: map<Id, Colour>, after: map<Id, Colour>) {
    before.Keys <= after.Keys && forall y :: IsFinished(before, y) ==> IsFinished(after, y)
  }

  lemma MarkVisiting(adj: Adj, state: map<Id, Colour>, stack: seq<Id>, x: Id)
    requires Midway(adj, state, stack) && x in adj && x !in state
    ensures Midway(adj, state[x := Visiting], stack + [x]) && Grows(state, state[x := Visiting])
  {
  }

  lemma MarkFinished(adj: Adj, state: map<Id, Colour>, stack: seq<Id>, x: Id)
    requires Midway(adj, state, stack + [x]) && x in adj && x !in stack
    requires forall y :: y in adj[x] ==> IsFinished(state, y)
    ensures Midway(adj, state[x := Finished], stack) && Grows(state, state[x := Finished])
  {
    assert x in stack + [x];
    FinishedFenceOff(adj, state, x);
    forall y ensures y in stack <==> y in stack + [x] && y != x {}
  }

  /** A node none of whose successors is unfinished, and which is not finished itself, lies on no cycle. */
  lemma FinishedFenceOff(adj: Adj, state: map<Id, Colour>, x: Id)
    requires Coloured(adj, state) && x in adj
    requires x in state ==> state[x] != Finished
    requires forall y :: y in adj[x] ==> y in state && state[y] == Finished
    ensures !Reach(adj, x, x)
  {
    if Reach(adj, x, x) {
      ClosedHoldsReach(adj, x, x, set y | y in state && state[y] == Finished);
    }
  }

  method Visit(adj: Adj, x: Id, stack: seq<Id>, colours: map<Id, Colour>)
    returns (cycle: Option<seq<Id>>, state: map<Id, Colour>)
    requires Shaped(adj) && x in adj && Midway(adj, colours, stack)
    requires Trail(adj, stack, x)
    ensures cycle.Some? ==> ClosesCycle(adj, cycle.value)
    ensures cycle.None? ==> Midway(adj, state, stack) && IsFinished(state, x) && Grows(colours, state)
    decreases adj.Keys - colours.Keys
  {
    hide Coloured, ClosesCycle, Trail;
    state := colours;
    if x in state && state[x] == Finished {
      return None, state;
    }
    if x in state && state[x] == Visiting {
      TrailCloses(adj, stack, x);
      return Some(stack + [x]), state;
    }
    MarkVisiting(adj, state, stack, x);
    state := state[x := Visiting];
    assert x in adj.Keys - colours.Keys && x !in adj.Keys - state.Keys;
    for j := 0 to |adj[x]|
      invariant Midway(adj, state, stack + [x]) && Grows(colours, state) && x in state
      invariant forall k :: 0 <= k < j ==> IsFinished(state, adj[x][k])
    {
      TrailStep(adj, stack, x, adj[x][j]);
      cycle, state := Visit(adj, adj[x][j], stack + [x], state);
      if cycle.Some? {
        return;
      }
    }
    MarkFinished(adj, state, stack, x);
    state := state[x := Finished];
    cycle := None;
  }

  lemma DepMapShaped(dag: Dag)
    requires UniqueIds(dag) && DepsClosed(dag)
    ensures Shaped(DepMap(dag))
  {
    var adj := DepMap(dag);
    forall x, y | x in adj && y in adj[x]
      ensures y in adj
    {
      DepMapKeys(dag, x);
      var i :| 0 <= i < |dag| && dag[i].id == x;
      DepMapAt(dag, i);
      assert y in Ids(dag);
      DepMapKeys(dag, y);
    }
  }

  lemma FinishedIsAcyclic(adj: Adj, state: map<Id, Colour>, roots: seq<Id>)
    requires Coloured(adj, state)
    requires forall k :: 0 <= k < |roots| ==> IsFinished(state, roots[k])
    ensures forall r :: r in roots ==> !Reach(adj, r, r)
  {
    hide Reach;
    forall r | r in roots
      ensures !Reach(adj, r, r)
    {
      assert IsFinished(state, r);
    }
  }

  /** The loop over the roots: either a cycle is reported, or every root is finished. */
  method VisitAll(adj: Adj, roots: seq<Id>) returns (cycle: Option<seq<Id>>)
    requires Shaped(adj) && forall r :: r in roots ==> r in adj
    ensures cycle.Some? ==> ClosesCycle(adj, cycle.value)
    ensures cycle.None? ==> forall r :: r in roots ==> !Reach(adj, r, r)
  {
    hide Reach, ClosesCycle;
    var state: map<Id, Colour> := map[];
    for i := 0 to |roots|
      invariant Midway(adj, state, [])
      invariant forall k :: 0 <= k < i ==> IsFinished(state, roots[k])
    {
      cycle, state := Visit(adj, roots[i], [], state);
      if cycle.Some? {
        return;
      }
    }
    FinishedIsAcyclic(adj, state, roots);
    cycle := None;
  }

  lemma CycleBreaksDag(dag: Dag, trail: seq<Id>)
    requires ClosesCycle(DepMap(dag), trail)
    ensures !Acyclic(dag)
  {
    hide DepMap, Reach;
    CycleReaches(DepMap(dag), trail);
    assert trail[|trail| - 1] in Ancestors(dag, trail[|trail| - 1]);
  }

  lemma RootsSuffice(dag: Dag, roots: seq<Id>)
    requires forall i :: 0 <= i < |dag| ==> dag[i].id in roots
    requires forall r :: r in roots ==> !Reach(DepMap(dag), r, r)
    ensures Acyclic(dag)
  {
    hide Reach;
    forall x
      ensures x !in Ancestors(dag, x)
    {
      DepMapKeys(dag, x);
      if x !in DepMap(dag) {
        NoEdgesNoReach(DepMap(dag), x);
      }
    }
  }

  lemma NoEdgesNoReach(adj: Adj, x: Id)
    requires x !in adj
    ensures !Reach(adj, x, x)
  {
    if Reach(adj, x, x) {
      var c := ReachFirst(adj, x, x);
    }
  }

  /** The three-colour search accepts exactly the graphs without a cycle. */
  method AssertAcyclic(dag: Dag) returns (cycle: Option<seq<Id>>)
    requires UniqueIds(dag) && DepsClosed(dag)
    ensures cycle.None? <==> Acyclic(dag)
    ensures cycle.Some? ==> ClosesCycle(DepMap(dag), cycle.value)
  {
    hide DepMap, ClosesCycle, Acyclic, Reach, Shaped;
    DepMapShaped(dag);
    var roots := seq(|dag|, i requires 0 <= i < |dag| => dag[i].id);
    forall r | r in roots
      ensures r in DepMap(dag)
    {
      DepMapKeys(dag, r);
    }
    cycle := VisitAll(DepMap(dag), roots);
    if cycle.Some? {
      CycleBreaksDag(dag, cycle.value);
    } else {
      assert forall i :: 0 <= i < |dag| ==> roots[i] == dag[i].id;
      RootsSuffice(dag, roots);
    }
  }

  // ---------- guardrails ----------

  /** The guardrails of one node; every gate must have somewhere to send work back to. */
  ghost predicate Guarded(dag: Dag, n: Node) {
    && (n.role.Gate? ==>
          && !n.deliverable
          && n.policy.Some?
          && Ancestors(dag, n.id) != {}
          && n.executor == (if n.policy.value.Auto? then Tool else Human))
    && (n.executor.Llm? && n.role.Produce? ==> n.deliverable)
    && (n.executor.Human? ==>
          && n.signal.Some?
          && (n.role.Gate? ==> n.signal.value.CardAction?)
          && (HasText(n.assignee) || (n.vote.Some? && n.vote.value.voters != [])))
    && (n.vote.Some? ==>
          && n.vote.value.voters != []
          && n.vote.value.primary.Some? && n.vote.value.primary.value in n.vote.value.voters)
  }

  predicate HasText(t: Option<Token>) {
    t.Some? && t.value != ""
  }

  ghost predicate ValidTemplate(dag: Dag) {
    && dag != []
    && UniqueIds(dag)
    && DepsClosed(dag)
    && Acyclic(dag)
    && forall i :: 0 <= i < |dag| ==> Guarded(dag, dag[i])
  }

  method ValidateShape(dag: Dag) returns (v: Verdict)
    ensures v.Accepted? <==> UniqueIds(dag) && DepsClosed(dag)
    ensures v.Accepted? || v.RepeatedId? || v.Dangling?
  {
    var ids: set<Id> := {};
    for i := 0 to |dag|
      invariant ids == set k | 0 <= k < i :: dag[k].id
      invariant forall j, k :: 0 <= j < k < i ==> dag[j].id != dag[k].id
    {
      if dag[i].id in ids {
        return RepeatedId(dag[i].id);
      }
      ids := ids + {dag[i].id};
    }
    for i := 0 to |dag|
      invariant forall k, d :: 0 <= k < i && d in dag[k].deps ==> d in ids
    {
      var deps := dag[i].deps;
      for j := 0 to |deps|
        invariant forall k :: 0 <= k < j ==> deps[k] in ids
      {
        if deps[j] !in ids {
          assert deps[j] in dag[i].deps && deps[j] !in Ids(dag);
          return Dangling(dag[i].id, deps[j]);
        }
      }
    }
    v := Accepted;
  }

  method ValidateNode(dag: Dag, n: Node) returns (ok: bool)
    ensures ok <==> Guarded(dag, n)
  {
    var ancestors := DepsAncestors(dag, n.id);
    if n.role.Gate? {
      if n.deliverable || n.policy.None? || ancestors == {} {
        return false;
      }
      var wanted := if n.policy.value.Auto? then Tool else Human;
      if n.executor != wanted {
        return false;
      }
    }
    if n.executor.Llm? && n.role.Produce? && !n.deliverable {
      return false;
    }
    if n.executor.Human? {
      if n.signal.None? {
        return false;
      }
      if n.role.Gate? && !n.signal.value.CardAction? {
        return false;
      }
      if !HasText(n.assignee) && (n.vote.None? || n.vote.value.voters == []) {
        return false;
      }
    }
    if n.vote.Some? && (n.vote.value.voters == [] || n.vote.value.primary.None? ||
        n.vote.value.primary.value !in n.vote.value.voters) {
      return false;
    }
    ok := true;
  }

  /** Acceptance is exactly validity: nothing valid is refused and nothing invalid gets through. */
  method ValidateTemplate(dag: Dag) returns (v: Verdict)
    ensures v.Accepted? <==> ValidTemplate(dag)
  {
    if dag == [] {
      return Empty;
    }
    v := ValidateShape(dag);
    if !v.Accepted? {
      return;
    }
    var cycle := AssertAcyclic(dag);
    if cycle.Some? {
      return Cycle(cycle.value);
    }
    for i := 0 to |dag|
      invariant forall k :: 0 <= k < i ==> Guarded(dag, dag[k])
    {
      var ok := ValidateNode(dag, dag[i]);
      if !ok {
        return Unguarded(dag[i].id);
      }
    }
    v := Accepted;
  }

  /** In a valid template every gate has a direct dependency, so a failed gate always has a default target. */
  lemma GateHasDeps(dag: Dag, i: nat)
    requires ValidTemplate(dag) && i < |dag| && dag[i].role.Gate?
    ensures dag[i].deps != []
  {
    assert Guarded(dag, dag[i]);
    var b :| b in Ancestors(dag, dag[i].id);
    var c := ReachFirst(DepMap(dag), dag[i].id, b);
    DepMapAt(dag, i);
  }
}
