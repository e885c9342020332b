/** A write into a running instance goes through the reducers, on top of what is committed: why the observed status and
    outputs have to be carried along, and why the accumulating channels must not be. */
module WriteBack {
  import opened Graph
  import opened State
  import opened Gates
  import opened Engine
  import opened Driver

  /** What a caller of the write hands over, channel by channel. */
  datatype Payload = Payload(
    dag: Option<Dag>,
    status: map<Id, Status>,
    attempts: map<Id, nat>,
    unblocks: map<Id, seq<Grant>>)

  /** The write as the reducers see it: the update over everything observed in the two merged channels, and nothing but
      the update in the accumulating ones. */
  function WriteThrough(committed: State, observed: State, p: Payload): State {
    committed.(
      dag := if p.dag.Some? && p.dag.value != [] then p.dag.value else observed.dag,
      status := Merge(committed.status, Merge(observed.status, p.status)),
      outputs := Merge(committed.outputs, observed.outputs),
      attempts := AddCounts(committed.attempts, p.attempts),
      unblocks := ExtendLists(committed.unblocks, p.unblocks))
  }

  ghost function PayloadOf(s: State, u: Update): Payload
    requires u.Refund? ==> CanRefund(s, u.node)
  {
    match u
    case Touch => Payload(None, map[], map[], map[])
    case Edit(dag) => Payload(Some(dag), map[], map[], map[])
    case Lift(x, targets, grant) =>
      var resets := UnblockResets(s.dag, x, targets);
      Payload(None, resets, AttemptIncrements(resets), map[x := [Grant(ClampGrant(grant), false)]])
    case Refund(x) =>
      var log := LogOf(s.unblocks, x);
      Payload(None, map[], map[], map[x := [Grant(log[|log| - 1].amount, true)]])
  }

  lemma MergeOver<V>(a: map<Id, V>, b: map<Id, V>, c: map<Id, V>)
    requires a.Keys <= b.Keys
    ensures Merge(a, Merge(b, c)) == Merge(b, c) && Merge(a, b) == b
  {
    assert a + b == b;
    assert a + (b + c) == b + c;
  }

  lemma NothingAdded(status: map<Id, Status>, counts: map<Id, nat>, logs: map<Id, seq<Grant>>)
    ensures Merge(status, map[]) == status
    ensures AddCounts(counts, map[]) == counts && ExtendLists(logs, map[]) == logs
  {
    assert status + map[] == status;
    assert forall x :: x in logs ==> logs[x] + [] == logs[x];
    assert ExtendLists(logs, map[]).Keys == logs.Keys;
  }

  lemma {:induction false} FoldOnlyAdds(s: State, done: seq<Work>)
    ensures var f := FoldWork(s, done);
            && s.status.Keys <= f.status.Keys && s.outputs.Keys <= f.outputs.Keys
            && f == s.(status := f.status, outputs := f.outputs)
  {
    if done != [] {
      FoldOnlyAdds(s, done[..|done| - 1]);
    }
  }

  /** Nothing that came back meanwhile is lost, and nothing is counted twice: written over a checkpoint that has not
      yet absorbed the returned work of the super-step, every update comes out as if it were applied to the observed
      state. */
  lemma WriteIsUpdate(committed: State, done: seq<Work>, u: Update)
    requires u.Edit? ==> u.dag != []
    requires u.Refund? ==> CanRefund(FoldWork(committed, done), u.node)
    ensures var observed := FoldWork(committed, done);
            WriteThrough(committed, observed, PayloadOf(observed, u)) == Updated(observed, u)
  {
    hide FoldWork, Pull, AttemptIncrements, UnblockResets, AddCounts, ExtendLists;
    var f := FoldWork(committed, done);
    FoldOnlyAdds(committed, done);
    MergeOver(committed.status, f.status, PayloadOf(f, u).status);
    MergeOver(committed.outputs, f.outputs, map[]);
    MergeOver(f.status, f.status, map[]);
    NothingAdded(f.status, committed.attempts, committed.unblocks);
  }

  // ---------- the bare update ----------

  /** This piece of returned work is in the checkpoint already, or the update overwrites its status anyway. */
  predicate Absorbed(committed: State, p: Payload, w: Work)
    requires w.node in Ids(committed.dag)
  {
    && w.node in committed.outputs && committed.outputs[w.node] == w.result
    && (w.node in p.status
        || (w.node in committed.status && committed.status[w.node] ==
             Outcome(Find(committed.dag, w.node).value, w.result)))
  }

  lemma FoldedAt(committed: State, done: seq<Work>, i: nat)
    requires OncePerNode(done) && i < |done| && done[i].node in Ids(committed.dag)
    ensures var f, w := FoldWork(committed, done), done[i];
            && w.node in f.status && f.status[w.node] == Outcome(Find(committed.dag, w.node).value, w.result)
            && w.node in f.outputs && f.outputs[w.node] == w.result
  {
    hide FoldWork;
    FoldAt(committed, done, i);
  }

  /** Off the nodes it writes, the bare update agrees with the observed state exactly where every return is absorbed. */
  lemma SameStatusIff(committed: State, done: seq<Work>, p: Payload)
    requires OncePerNode(done) && forall i :: 0 <= i < |done| ==> done[i].node in Ids(committed.dag)
    ensures var f := FoldWork(committed, done);
            committed.status + p.status == f.status + p.status && committed.outputs == f.outputs
            <==> forall i :: 0 <= i < |done| ==> Absorbed(committed, p, done[i])
  {
    hide FoldWork, Ids, Outcome, OncePerNode;
    var f := FoldWork(committed, done);
    forall i | 0 <= i < |done|
      ensures Absorbed(committed, p, done[i]) <==> SameAt(committed, f, p, done[i].node)
    {
      FoldedAt(committed, done, i);
    }
    forall x
      ensures SameAt(committed, f, p, x) || exists i :: 0 <= i < |done| && done[i].node == x
    {
      if forall i :: 0 <= i < |done| ==> done[i].node != x {
        FoldFrame(committed, done, x);
      }
    }
    SameEverywhere(committed, f, p);
  }

  ghost predicate SameAt(s: State, s': State, p: Payload, x: Id) {
    && (x in s.outputs <==> x in s'.outputs) && (x in s.outputs ==> s.outputs[x] == s'.outputs[x])
    && (x in p.status || ((x in s.status <==> x in s'.status) && (x in s.status ==> s.status[x] == s'.status[x])))
  }

  lemma SameEverywhere(s: State, s': State, p: Payload)
    ensures s.status + p.status == s'.status + p.status && s.outputs == s'.outputs <==> forall x :: SameAt(s, s', p, x)
  {
    var a, b := s.status + p.status, s'.status + p.status;
    if a == b && s.outputs == s'.outputs {
      forall x
        ensures SameAt(s, s', p, x)
      {
        assert x in a <==> x in b;
        assert x in a ==> a[x] == b[x];
      }
    }
    if forall x :: SameAt(s, s', p, x) {
      forall x
        ensures (x in a <==> x in b) && (x in a ==> a[x] == b[x])
        ensures (x in s.outputs <==> x in s'.outputs) && (x in s.outputs ==> s.outputs[x] == s'.outputs[x])
      {
        assert SameAt(s, s', p, x);
      }
    }
  }

  /** The update alone, without the observed channels, is right exactly when there is nothing it could drop: every
      piece of returned work is committed already, or its status is overwritten by the update. */
  lemma BareWriteIff(committed: State, done: seq<Work>, u: Update)
    requires u.Edit? ==> u.dag != []
    requires u.Refund? ==> CanRefund(FoldWork(committed, done), u.node)
    requires OncePerNode(done) && forall i :: 0 <= i < |done| ==> done[i].node in Ids(committed.dag)
    ensures var observed := FoldWork(committed, done);
            var p := PayloadOf(observed, u);
            WriteThrough(committed, committed, p) == Updated(observed, u)
            <==> forall i :: 0 <= i < |done| ==> Absorbed(committed, p, done[i])
  {
    hide FoldWork, Updated, CanRefund, Absorbed, PayloadOf, OncePerNode;
    var f := FoldWork(committed, done);
    var p := PayloadOf(f, u);
    WriteIsUpdate(committed, done, u);
    FoldOnlyAdds(committed, done);
    MergeOver(committed.status, committed.status, p.status);
    MergeOver(committed.outputs, committed.outputs, map[]);
    MergeOver(committed.status, f.status, p.status);
    MergeOver(committed.outputs, f.outputs, map[]);
    SameStatusIff(committed, done, p);
  }

  // ---------- carrying the accumulating channels ----------

  /** The write that also carries along what it observed in the accumulating channels. */
  function CarryingWrite(committed: State, observed: State, p: Payload): State {
    WriteThrough(committed, observed,
                 p.(attempts := AddCounts(observed.attempts, p.attempts),
                     unblocks := ExtendLists(observed.unblocks, p.unblocks)))
  }

  lemma CarryingDoubles(counts: map<Id, nat>, more: map<Id, nat>)
    ensures AddCounts(counts, AddCounts(counts, more)) == AddCounts(counts, more) <==>
      forall x :: CountOf(counts, x) == 0
  {
    var once := AddCounts(counts, more);
    var twice := AddCounts(counts, once);
    if twice == once {
      forall x
        ensures CountOf(counts, x) == 0
      {
        assert CountOf(twice, x) == CountOf(counts, x) + CountOf(once, x);
      }
    }
    assert forall x :: x in once ==> twice[x] == CountOf(counts, x) + CountOf(once, x) && once[x] == CountOf(once, x);
  }

  lemma CarryingRepeats(logs: map<Id, seq<Grant>>, more: map<Id, seq<Grant>>)
    ensures ExtendLists(logs, ExtendLists(logs, more)) == ExtendLists(logs, more) <==> forall x :: LogOf(logs, x) == []
  {
    var once := ExtendLists(logs, more);
    var twice := ExtendLists(logs, once);
    if twice == once {
      forall x
        ensures LogOf(logs, x) == []
      {
        assert |LogOf(twice, x)| == |LogOf(logs, x)| + |LogOf(once, x)|;
      }
    }
    assert forall x :: x in once ==> twice[x] == LogOf(logs, x) + LogOf(once, x) && once[x] == LogOf(once, x);
    assert forall x :: x in once ==> [] + once[x] == once[x];
    assert twice.Keys == once.Keys;
  }

  /** Carrying those channels along is right for no update and no returned work once anything has been counted or
      granted. */
  lemma CarryingIff(committed: State, done: seq<Work>, u: Update)
    requires u.Edit? ==> u.dag != []
    requires u.Refund? ==> CanRefund(FoldWork(committed, done), u.node)
    ensures var observed := FoldWork(committed, done);
            CarryingWrite(committed, observed, PayloadOf(observed, u)) == Updated(observed, u)
            <==> forall x :: CountOf(committed.attempts, x) == 0 && LogOf(committed.unblocks, x) == []
  {
    hide FoldWork, Updated, CanRefund, PayloadOf, AddCounts, ExtendLists, CountOf, LogOf;
    var f := FoldWork(committed, done);
    var p := PayloadOf(f, u);
    WriteIsUpdate(committed, done, u);
    FoldOnlyAdds(committed, done);
    CarryingDoubles(committed.attempts, p.attempts);
    CarryingRepeats(committed.unblocks, p.unblocks);
  }
}
