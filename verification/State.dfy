/** The state channels of one running instance, their reducers, and why a super-step is confluent. */
module State {
  import opened Graph

  /** `Running` never enters the status channel; only the freeze line of a graph edit uses it. */
  datatype Status = Pending | Done | Failed | Blocked | Running

  /** What a node's worker hands back: a gate's verdict, the picked targets, a registered deliverable. */
  datatype Result = Result(passed: bool, reopen: seq<Id>, handle: Option<string>)

  /** One audit record of a human unblock; a refund carries the amount of the grant it takes back. */
  datatype Grant = Grant(amount: int, refund: bool)

  datatype State = State(
    dag: Dag,
    status: map<Id, Status>,
    outputs: map<Id, Result>,
    counts: map<Id, nat>,
    attempts: map<Id, nat>,
    unblocks: map<Id, seq<Grant>>)

  function StatusOf(status: map<Id, Status>, x: Id): Status {
    if x in status then status[x] else Pending
  }

  function CountOf(counts: map<Id, nat>, x: Id): nat {
    if x in counts then counts[x] else 0
  }

  function LogOf<T>(logs: map<Id, seq<T>>, x: Id): seq<T> {
    if x in logs then logs[x] else []
  }

  // ---------- reducers ----------

  function Merge<V>(a: map<Id, V>, b: map<Id, V>): map<Id, V> {
    a + b
  }

  function AddCounts(a: map<Id, nat>, b: map<Id, nat>): (c: map<Id, nat>)
    ensures forall x :: CountOf(c, x) == CountOf(a, x) + CountOf(b, x)
  {
    map x | x in a.Keys + b.Keys :: CountOf(a, x) + CountOf(b, x)
  }

  function ExtendLists<T>(a: map<Id, seq<T>>, b: map<Id, seq<T>>): (c: map<Id, seq<T>>)
    ensures forall x :: LogOf(c, x) == LogOf(a, x) + LogOf(b, x)
  {
    map x | x in a.Keys + b.Keys :: LogOf(a, x) + LogOf(b, x)
  }

  /** The reducer as it runs: key by key over a copy of the left table. */
  method FoldCounts(a: map<Id, nat>, b: map<Id, nat>) returns (c: map<Id, nat>)
    ensures c == AddCounts(a, b)
  {
    c := a;
    var todo := b.Keys;
    while todo != {}
      invariant todo <= b.Keys && c.Keys == a.Keys + (b.Keys - todo)
      invariant forall x :: x in c ==> c[x] == CountOf(a, x) + (if x in todo then 0 else CountOf(b, x))
    {
      var x :| x in todo;
      c := c[x := CountOf(c, x) + b[x]];
      todo := todo - {x};
    }
  }

  method FoldLists<T>(a: map<Id, seq<T>>, b: map<Id, seq<T>>) returns (c: map<Id, seq<T>>)
    ensures c == ExtendLists(a, b)
  {
    c := a;
    var todo := b.Keys;
    while todo != {}
      invariant todo <= b.Keys && c.Keys == a.Keys + (b.Keys - todo)
      invariant forall x :: x in c ==> c[x] == LogOf(a, x) + (if x in todo then [] else LogOf(b, x))
    {
      var x :| x in todo;
      c := c[x := LogOf(c, x) + b[x]];
      todo := todo - {x};
    }
  }

  // ---------- a worker's delta ----------

  datatype Delta = Delta(status: map<Id, Status>, outputs: map<Id, Result>)

  function Outcome(n: Node, r: Result): Status {
    if n.role.Gate? && !r.passed then Failed else Done
  }

  /** A worker's whole contribution: its own node's status and output. An unknown node is a key error. */
  function Finish(dag: Dag, x: Id, r: Result): Option<Delta> {
    match Find(dag, x)
    case None => None
    case Some(n) => Some(Delta(map[x := Outcome(n, r)], map[x := r]))
  }

  function ApplyDelta(s: State, d: Delta): State {
    s.(status := Merge(s.status, d.status), outputs := Merge(s.outputs, d.outputs))
  }

  /** One completed worker, folded into the shared channels. */
  function Complete(s: State, x: Id, r: Result): State {
    match Finish(s.dag, x, r)
    case None => s
    case Some(d) => ApplyDelta(s, d)
  }

  /** A node that returns is done, unless it is a gate that was not passed: then it has failed. Its answer is on
      record. */
  lemma ReturnRule(s: State, x: Id, r: Result, n: Node)
    requires Find(s.dag, x) == Some(n)
    ensures var s' := Complete(s, x, r);
            && StatusOf(s'.status, x) == (if n.role.Gate? && !r.passed then Failed else Done)
            && x in s'.outputs && s'.outputs[x] == r
            && s' == s.(status := s'.status, outputs := s'.outputs)
  {
    hide Find;
  }

  // ---------- confluence ----------

  datatype Work = Work(node: Id, result: Result)

  /** The deltas of one super-step, folded in the order in which the workers happened to return. */
  function FoldWork(s: State, done: seq<Work>): State {
    if done == [] then s
    else
      var k := |done| - 1;
      Complete(FoldWork(s, done[..k]), done[k].node, done[k].result)
  }

  ghost predicate OncePerNode(done: seq<Work>) {
    forall i, j :: 0 <= i < j < |done| ==> done[i].node != done[j].node
  }

  /** x has the same status and output in both states. */
  ghost predicate AgreeAt(s: State, s': State, x: Id) {
    && (x in s.status <==> x in s'.status) && (x in s.status ==> s.status[x] == s'.status[x])
    && (x in s.outputs <==> x in s'.outputs) && (x in s.outputs ==> s.outputs[x] == s'.outputs[x])
  }

  /** Folding changes nothing but the status and output of the nodes that returned. */
  lemma {:induction false} FoldFrame(s: State, done: seq<Work>, x: Id)
    ensures FoldWork(s, done).(status := s.status, outputs := s.outputs) == s
    ensures (forall i :: 0 <= i < |done| ==> done[i].node != x) ==> AgreeAt(FoldWork(s, done), s, x)
  {
    if done != [] {
      FoldFrame(s, done[..|done| - 1], x);
    }
  }

  lemma CompleteFrame(s: State, n: Id, r: Result, x: Id)
    requires n != x
    ensures AgreeAt(Complete(s, n, r), s, x)
  {
  }

  lemma CompleteOwn(s: State, s': State, n: Id, r: Result)
    requires s.dag == s'.dag && n in Ids(s.dag)
    ensures AgreeAt(Complete(s, n, r), Complete(s', n, r), n)
  {
  }

  lemma {:induction false} FoldAt(s: State, done: seq<Work>, i: nat)
    requires OncePerNode(done) && i < |done| && done[i].node in Ids(s.dag)
    ensures AgreeAt(FoldWork(s, done), Complete(s, done[i].node, done[i].result), done[i].node)
  {
    hide Complete;
    var k := |done| - 1;
    var before := FoldWork(s, done[..k]);
    FoldFrame(s, done[..k], done[i].node);
    if i < k {
      FoldAt(s, done[..k], i);
      CompleteFrame(before, done[k].node, done[k].result, done[i].node);
    } else {
      CompleteOwn(s, before, done[k].node, done[k].result);
    }
  }

  lemma SameWork(done: seq<Work>, done': seq<Work>, i: nat) returns (j: nat)
    requires multiset(done) == multiset(done') && i < |done|
    ensures j < |done'| && done'[j] == done[i]
  {
    assert done[i] in multiset(done);
    assert done[i] in multiset(done');
    j :| 0 <= j < |done'| && done'[j] == done[i];
  }

  lemma FoldsAgree(s: State, done: seq<Work>, done': seq<Work>, x: Id)
    requires OncePerNode(done) && OncePerNode(done') && multiset(done) == multiset(done')
    requires forall i :: 0 <= i < |done| ==> done[i].node in Ids(s.dag)
    ensures AgreeAt(FoldWork(s, done), FoldWork(s, done'), x)
  {
    if i :| 0 <= i < |done| && done[i].node == x {
      var j := SameWork(done, done', i);
      FoldAt(s, done, i);
      FoldAt(s, done', j);
    } else {
      forall j | 0 <= j < |done'|
        ensures done'[j].node != x
      {
        var i := SameWork(done', done, j);
      }
      FoldFrame(s, done, x);
      FoldFrame(s, done', x);
    }
  }

  lemma AgreeEverywhere(s: State, s': State)
    requires forall x :: AgreeAt(s, s', x)
    ensures s.status == s'.status && s.outputs == s'.outputs
  {
    forall x: Id
      ensures (x in s.status <==> x in s'.status) && (x in s.status ==> s.status[x] == s'.status[x])
      ensures (x in s.outputs <==> x in s'.outputs) && (x in s.outputs ==> s.outputs[x] == s'.outputs[x])
    {
      assert AgreeAt(s, s', x);
    }
  }

  /** However the workers of a super-step interleave, the merged state is the same. */
  lemma SuperStepConfluence(s: State, done: seq<Work>, done': seq<Work>)
    requires OncePerNode(done) && OncePerNode(done') && multiset(done) == multiset(done')
    requires forall i :: 0 <= i < |done| ==> done[i].node in Ids(s.dag)
    ensures FoldWork(s, done) == FoldWork(s, done')
  {
    hide FoldWork, OncePerNode, Ids;
    var f, f' := FoldWork(s, done), FoldWork(s, done');
    forall x: Id
      ensures AgreeAt(f, f', x)
    {
      FoldsAgree(s, done, done', x);
    }
    AgreeEverywhere(f, f');
    FoldFrame(s, done, Name(""));
    FoldFrame(s, done', Name(""));
  }
}
