/** Every action of the driver keeps its invariant, and what that means for answers, tasks and dispatches. */
module Rounds {
  import opened Graph
  import opened Template
  import opened State
  import opened Gates
  import opened Engine
  import opened Accounting
  import opened Driver

  // ---------- the engine's side ----------

  lemma UpdateKeepsValid(r: Inst, u: Update)
    requires Valid(r.s) && AllKept(r.s) && CanUpdate(r, u)
    ensures Valid(Updated(r.s, u)) && AllKept(Updated(r.s, u))
  {
    hide Valid, AllKept, Thaw, TakeBack, CanEdit, CanUnblock, CanRefund, Dispatch, Complete;
    var s, s1 := r.s, Updated(r.s, u);
    match u
    case Touch =>
    case Edit(dag') =>
      StepKeepsValid(s, Edited(dag'), s1);
      StepKeepsLogs(s, Edited(dag'), s1);
    case Lift(x, targets, grant) =>
      StepKeepsValid(s, Unblocked(x, targets, grant), s1);
      StepKeepsLogs(s, Unblocked(x, targets, grant), s1);
    case Refund(x) =>
      StepKeepsValid(s, Refunded(x), s1);
      StepKeepsLogs(s, Refunded(x), s1);
  }

  lemma DispatchKeeps(s: State)
    requires Valid(s) && AllKept(s)
    ensures Valid(Dispatch(s)) && AllKept(Dispatch(s))
  {
    hide Valid, AllKept, Dispatch;
    StepKeepsValid(s, Dispatched, Dispatch(s));
    StepKeepsLogs(s, Dispatched, Dispatch(s));
  }

  lemma ReadyIsPending(s: State, x: Id) returns (k: nat)
    requires x in ReadyIds(s)
    ensures k < |s.dag| && s.dag[k].id == x && IsReady(s.status, s.dag[k]) && StatusOf(s.status, x) == Pending
  {
    k :| 0 <= k < |s.dag| && IsReady(s.status, s.dag[k]) && s.dag[k].id == x;
  }

  lemma LaunchOk(r: Inst, s: State)
    requires Valid(s) && AllKept(s)
    ensures RunOk(Launch(r, s))
  {
    hide Valid, AllKept, Ids;
    var r' := Launch(r, s);
    forall x | x in r'.step
      ensures StatusOf(s.status, x) == Pending
    {
      var k := ReadyIsPending(s, x);
    }
    forall k | 0 <= k < |s.dag| && s.dag[k].id in r'.step
      ensures IsReady(s.status, s.dag[k])
    {
      var j := ReadyIsPending(s, s.dag[k].id);
      SameIndex(s, j, k);
    }
  }

  lemma SameIndex(s: State, j: nat, k: nat)
    requires j < |s.dag| && k < |s.dag| && s.dag[j].id == s.dag[k].id && Valid(s)
    ensures j == k
  {
    ValidIsUnique(s.dag);
    hide Valid, ValidTemplate;
    if j < k {} else if k < j {}
  }

  lemma MemberCanComplete(r: Inst, x: Id) returns (k: nat)
    requires RunOk(r) && x in r.step && StatusOf(r.s.status, x) == Pending
    ensures k < |r.s.dag| && r.s.dag[k].id == x && IsReady(r.s.status, r.s.dag[k])
    ensures CanComplete(r.s, x)
  {
    hide Valid, AllKept, IntOk;
    assert x in Ids(r.s.dag);
    k :| 0 <= k < |r.s.dag| && r.s.dag[k].id == x;
  }

  lemma CompleteStatus(r: Inst, x: Id, res: Result)
    requires RunOk(r) && x in r.step && StatusOf(r.s.status, x) == Pending
    ensures forall y :: y != x ==> StatusOf(Complete(r.s, x, res).status, y) == StatusOf(r.s.status, y)
    ensures Settled(StatusOf(Complete(r.s, x, res).status, x))
  {
    hide Complete, AllKept, IntOk, Outcome, Ids, RunInv, Consistent;
    var k := MemberCanComplete(r, x);
    forall y
      ensures StatusOf(Complete(r.s, x, res).status, y) == if y == x then Outcome(r.s.dag[k], res)
          else StatusOf(r.s.status, y)
    {
      CompleteAtIndex(r.s, k, res, y);
    }
    OutcomeRests(r.s.dag[k], res);
  }

  lemma CompleteStepOk(r: Inst, x: Id, res: Result)
    requires RunOk(r) && x in r.step && StatusOf(r.s.status, x) == Pending
    ensures StepOk(r.(s := Complete(r.s, x, res)))
  {
    hide Valid, Complete, AllKept, IntOk, Ids, IsReady, OnePerNode;
    CompleteStatus(r, x, res);
    CompleteRounds(r.s, x, res);
    var s' := Complete(r.s, x, res);
    forall j | 0 <= j < |s'.dag| && s'.dag[j].id in r.step && StatusOf(s'.status, s'.dag[j].id) == Pending
      ensures IsReady(s'.status, s'.dag[j])
    {
      ReadyWithout(r.s, s', x, r.s.dag[j]);
    }
  }

  /** A worker's or a person's return leaves everyone else in the super-step as they were. */
  lemma CompleteOk(r: Inst, x: Id, res: Result)
    requires RunOk(r) && x in r.step && StatusOf(r.s.status, x) == Pending
    ensures RunOk(r.(s := Complete(r.s, x, res)))
  {
    hide Valid, Complete, AllKept, StepOk, CanComplete;
    var k := MemberCanComplete(r, x);
    var s' := Complete(r.s, x, res);
    StepKeepsValid(r.s, Completed(x, res), s');
    StepKeepsLogs(r.s, Completed(x, res), s');
    CompleteStepOk(r, x, res);
    CompleteRounds(r.s, x, res);
    forall i
      ensures IntOk(r.(s := s'), i)
    {
      assert IntOk(r, i);
    }
  }

  lemma OutcomeRests(n: Node, res: Result)
    ensures Settled(Outcome(n, res))
  {
  }

  lemma ReadyWithout(s: State, s': State, x: Id, n: Node)
    requires IsReady(s.status, n) && n.id != x && StatusOf(s.status, x) == Pending
    requires forall y :: y != x ==> StatusOf(s'.status, y) == StatusOf(s.status, y)
    ensures IsReady(s'.status, n)
  {
    forall i | 0 <= i < |n.deps|
      ensures n.deps[i] in s'.status && s'.status[n.deps[i]] == Done
    {
      assert StatusOf(s.status, n.deps[i]) == Done;
      assert n.deps[i] != x;
      assert StatusOf(s'.status, n.deps[i]) == Done;
    }
  }

  lemma AskedOk(r: Inst, x: Id)
    requires RunOk(r) && x in r.step && IsHuman(r.s, x) && x !in r.ints.Values
    ensures RunOk(Asked(r, x))
  {
    hide Valid, AllKept, IsHuman, Ids;
    var r' := Asked(r, x);
    forall i
      ensures IntOk(r', i)
    {
      assert IntOk(r, i);
    }
    forall i, j | i in r'.ints && j in r'.ints && r'.ints[i] == r'.ints[j]
      ensures i == j
    {
      assert IntOk(r, i) && IntOk(r, j);
      assert i in r.ints ==> r.ints[i] in r.ints.Values;
      assert j in r.ints ==> r.ints[j] in r.ints.Values;
    }
  }

  // ---------- survivors ----------

  /** The waiter's node is in the graph after the update, untouched. */
  lemma SurvivorNode(r: Inst, u: Update, i: nat) returns (k: nat)
    requires RunOk(r) && CanUpdate(r, u) && i in Survivors(r, u)
    ensures k < |r.s.dag| && r.s.dag[k].id == r.ints[i] && IsReady(r.s.status, r.s.dag[k])
    ensures r.s.dag[k] in Updated(r.s, u).dag
    ensures r.s.dag[k].id !in Reopening(r.s, u)
  {
    assert IntOk(r, i);
    MemberSettledOrPending(r, r.ints[i]);
    k := MemberCanComplete(r, r.ints[i]);
    hide Valid, AllKept, CanEdit, Thaw, Reopening, IntOk;
  }

  lemma MemberSettledOrPending(r: Inst, x: Id)
    requires RunOk(r) && x in r.step
    ensures StatusOf(r.s.status, x) == Pending || Settled(StatusOf(r.s.status, x))
  {
    hide IntOk;
  }

  /** The update itself leaves a survivor pending, in its round, with its dependencies done. */
  lemma UpdateSpares(r: Inst, u: Update, k: nat)
    requires Valid(r.s) && CanUpdate(r, u) && k < |r.s.dag|
    requires IsReady(r.s.status, r.s.dag[k]) && r.s.dag[k].id !in Reopening(r.s, u)
    ensures var x, s1 := r.s.dag[k].id, Updated(r.s, u);
            && StatusOf(s1.status, x) == Pending && AttemptOf(s1, x) == AttemptOf(r.s, x)
            && DepsDone(s1, r.s.dag[k])
  {
    var s, x := r.s, r.s.dag[k].id;
    ReadyDepsDone(s, s.dag[k]);
    if u.Lift? {
      ThawAt(s, u.node, u.targets, u.grant, x);
      assert x !in UnblockResets(s.dag, u.node, u.targets).Keys;
      ValidIsUnique(s.dag);
      hide Valid, Pull, Thaw, ReopenResets, Ancestors;
      forall d | d in s.dag[k].deps
        ensures StatusOf(Updated(s, u).status, d) == Done
      {
        ThawAt(s, u.node, u.targets, u.grant, d);
        if d in Pull(s.dag, u.node, u.targets) && d != u.node {
          PullClosed(s.dag, u.node, u.targets, k, d);
        }
      }
    } else {
      hide Valid, ReopenResets, CanEdit;
    }
  }

  lemma ReadyFromDone(s: State, n: Node)
    requires StatusOf(s.status, n.id) == Pending && DepsDone(s, n)
    ensures IsReady(s.status, n)
  {
    forall i | 0 <= i < |n.deps|
      ensures n.deps[i] in s.status && s.status[n.deps[i]] == Done
    {
      assert n.deps[i] in n.deps;
    }
  }

  /** Dispatch leaves a node it does not write ready, if it was. */
  lemma DispatchSpares(s: State, k: nat)
    requires Valid(s) && k < |s.dag| && s.dag[k].id !in ReopenResets(s)
    requires StatusOf(s.status, s.dag[k].id) == Pending && DepsDone(s, s.dag[k])
    ensures IsReady(Dispatch(s).status, s.dag[k]) && AttemptOf(Dispatch(s), s.dag[k].id) == AttemptOf(s, s.dag[k].id)
  {
    hide Valid, Dispatch, ReopenResets;
    DispatchAt(s, s.dag[k].id);
    forall d | d in s.dag[k].deps
      ensures StatusOf(Dispatch(s).status, d) == Done
    {
      DispatchAt(s, d);
      if d in ReopenResets(s) {
        ResetSpreads(s, k, d);
      }
    }
    ReadyFromDone(Dispatch(s), s.dag[k]);
  }

  /** One write with a surviving waiter performs exactly one dispatch from his point of view: he is ready again,
      pending, and in the same round. */
  lemma SurvivorKept(r: Inst, u: Update, i: nat)
    requires RunOk(r) && CanUpdate(r, u) && i in Survivors(r, u)
    ensures var x, s2 := r.ints[i], Dispatch(Updated(r.s, u));
            && x in ReadyIds(s2) && StatusOf(s2.status, x) == Pending && AttemptOf(s2, x) == AttemptOf(r.s, x)
            && IsHuman(s2, x)
  {
    var k := SurvivorNode(r, u, i);
    var s1 := Updated(r.s, u);
    UpdateSpares(r, u, k);
    UpdateKeepsValid(r, u);
    WaiterNotReset(r, u, k);
    assert IntOk(r, i);
    hide RunOk, Valid, AllKept, Updated, CanUpdate, Reopening, ReopenResets, Dispatch, Ids;
    var j :| 0 <= j < |s1.dag| && s1.dag[j] == r.s.dag[k];
    DispatchSpares(s1, j);
    DispatchFrame(s1);
    SameFind(r.s, s1, k, j);
    assert r.s.dag[k].id in ReadyIds(Dispatch(s1));
  }

  lemma SameFind(s: State, s1: State, k: nat, j: nat)
    requires Valid(s) && Valid(s1) && k < |s.dag| && j < |s1.dag| && s.dag[k] == s1.dag[j]
    ensures Find(s1.dag, s.dag[k].id) == Find(s.dag, s.dag[k].id) == Some(s.dag[k])
  {
    ValidIsUnique(s.dag);
    ValidIsUnique(s1.dag);
    hide Valid, ValidTemplate, UniqueIds;
    FindUnique(s.dag, k);
    FindUnique(s1.dag, j);
  }

  // ---------- each action keeps the invariant ----------

  /** Rows, keys and closed tasks only depend on rounds going up and tickets being kept. */
  lemma TicketsKept(v: Svc, v': Svc)
    requires IdemOk(v) && RowsOk(v) && ClosedOk(v) && MintOk(v)
    requires v'.idem == v.idem && v'.rows == v.rows && v'.created == v.created && v'.closed == v.closed
    requires v'.minted == v.minted && RoundsGrow(v.run.s, v'.run.s) && v.run.issued <= v'.run.issued
    ensures IdemOk(v') && RowsOk(v') && ClosedOk(v') && MintOk(v')
  {
    forall e
      ensures RowOk(v', e)
    {
      assert RowOk(v, e);
    }
  }

  lemma SameRounds(s: State, s': State)
    requires s'.attempts == s.attempts
    ensures RoundsGrow(s, s')
  {
  }

  lemma BridgeKept(v: Svc, v': Svc)
    requires BridgeOk(v) && v'.bridge == v.bridge
    requires v.bridge.Some? ==>
      forall o :: o in v.bridge.value && CarryOk(v, o, v.bridge.value[o]) ==> CarryOk(v', o, v.bridge.value[o])
    ensures BridgeOk(v')
  {
    hide CarryOk;
  }

  lemma CarryAfterReturn(v: Svc, x: Id, res: Result, o: nat, y: Id)
    requires RunOk(v.run) && x in v.run.step && StatusOf(v.run.s.status, x) == Pending
    requires CarryOk(v, o, y) && !IsHuman(v.run.s, x)
    ensures CarryOk(v.(run := v.run.(s := Complete(v.run.s, x, res))), o, y)
  {
    hide RunOk, Complete, IsHuman;
    CompleteStatus(v.run, x, res);
    CompleteRounds(v.run.s, x, res);
    FindSame(v.run.s, Complete(v.run.s, x, res), y);
  }

  lemma ReturnKeepsInv(v: Svc, x: Id, res: Result)
    requires Inv(v) && x in v.run.step && StatusOf(v.run.s.status, x) == Pending
    requires v.bridge.Some? ==> !IsHuman(v.run.s, x)
    ensures Inv(v.(run := v.run.(s := Complete(v.run.s, x, res))))
  {
    hide RunOk, Complete, IsHuman, IdemOk, RowsOk, ClosedOk, CarryOk;
    var v' := v.(run := v.run.(s := Complete(v.run.s, x, res)));
    CompleteOk(v.run, x, res);
    CompleteRounds(v.run.s, x, res);
    SameRounds(v.run.s, v'.run.s);
    TicketsKept(v, v');
    if v.bridge.Some? {
      forall o | o in v.bridge.value && CarryOk(v, o, v.bridge.value[o])
        ensures CarryOk(v', o, v.bridge.value[o])
      {
        CarryAfterReturn(v, x, res, o, v.bridge.value[o]);
      }
    }
    BridgeKept(v, v');
  }

  lemma FindSame(s: State, s': State, x: Id)
    requires s.dag == s'.dag
    ensures IsHuman(s, x) == IsHuman(s', x)
  {
  }

  lemma AskRemapOk(v: Svc, x: Id)
    requires RemapOk(v)
    ensures RemapOk(v.(run := Asked(v.run, x)))
  {
    var v' := v.(run := Asked(v.run, x));
    forall a | a in v'.remap
      ensures EdgeOk(v'.run.issued, a, v'.remap[a]) && a !in v'.run.ints
    {
      assert EdgeOk(v.run.issued, a, v.remap[a]);
    }
  }

  /** The interrupt just raised is newer than every id an object carries or a chain leads to. */
  lemma AskFreshOk(v: Svc, x: Id)
    requires RemapOk(v) && MintOk(v) && FreshOk(v)
    ensures FreshOk(v.(run := Asked(v.run, x)))
  {
    forall a | a in v.remap
      ensures v.remap[a] < |v.run.issued|
    {
      assert EdgeOk(v.run.issued, a, v.remap[a]);
    }
  }

  lemma CarryAfterAsk(v: Svc, x: Id, o: nat, y: Id)
    requires CarryOk(v, o, y)
    ensures CarryOk(v.(run := Asked(v.run, x)), o, y)
  {
    hide IsHuman;
  }

  lemma AskKeepsInv(v: Svc, x: Id)
    requires Inv(v) && x in v.run.step && StatusOf(v.run.s.status, x) == Pending
    requires IsHuman(v.run.s, x) && x !in v.run.ints.Values
    ensures Inv(v.(run := Asked(v.run, x)))
  {
    hide RunOk, IsHuman, IdemOk, RowsOk, ClosedOk, MintOk, FreshOk, CarryOk, RemapOk;
    var v' := v.(run := Asked(v.run, x));
    AskFreshOk(v, x);
    AskedOk(v.run, x);
    SameRounds(v.run.s, v'.run.s);
    TicketsKept(v, v');
    AskRemapOk(v, x);
    if v.bridge.Some? {
      forall o | o in v.bridge.value && CarryOk(v, o, v.bridge.value[o])
        ensures CarryOk(v', o, v.bridge.value[o])
      {
        CarryAfterAsk(v, x, o, v.bridge.value[o]);
      }
    }
    BridgeKept(v, v');
  }

  lemma CarriedIsBusy(v: Svc, o: nat, x: Id)
    requires CarryOk(v, o, x)
    ensures Busy(v.run)
  {
  }

  /** The barrier cannot lift under a write that carries someone over: his node is still out. */
  lemma NobodyCarried(v: Svc)
    requires BridgeOk(v) && !Busy(v.run)
    ensures v.bridge.Some? ==> v.bridge.value == map[]
  {
    hide CarryOk, Busy;
    if v.bridge.Some? {
      forall o
        ensures o !in v.bridge.value
      {
        if o in v.bridge.value {
          CarriedIsBusy(v, o, v.bridge.value[o]);
        }
      }
    }
  }

  lemma LaunchRemapOk(v: Svc, s: State)
    requires RemapOk(v)
    ensures RemapOk(v.(run := Launch(v.run, s)))
  {
    hide ReadyIds, EdgeOk;
  }

  lemma BarrierKeepsInv(v: Svc)
    requires Inv(v) && !Busy(v.run)
    ensures Inv(v.(run := Launch(v.run, Dispatch(v.run.s))))
  {
    hide RunOk, Dispatch, IdemOk, RowsOk, ClosedOk, ReadyIds, CarryOk, RemapOk, Busy;
    var v' := v.(run := Launch(v.run, Dispatch(v.run.s)));
    assert Valid(v.run.s) && AllKept(v.run.s) by { RunIsValid(v.run); }
    DispatchKeeps(v.run.s);
    LaunchOk(v.run, Dispatch(v.run.s));
    DispatchRounds(v.run.s);
    TicketsKept(v, v');
    LaunchRemapOk(v, Dispatch(v.run.s));
    NobodyCarried(v);
  }

  lemma RunIsValid(r: Inst)
    requires RunOk(r)
    ensures Valid(r.s) && AllKept(r.s)
  {
  }

  lemma RoundsTrans(a: State, b: State, c: State)
    requires RoundsGrow(a, b) && RoundsGrow(b, c)
    ensures RoundsGrow(a, c)
  {
    forall x
      ensures AttemptOf(a, x) <= AttemptOf(c, x)
    {
      assert AttemptOf(a, x) <= AttemptOf(b, x) <= AttemptOf(c, x);
    }
  }

  lemma WriteCarries(v: Svc, u: Update, o: nat)
    requires Inv(v) && CanUpdate(v.run, u) && o in Survivors(v.run, u)
    ensures CarryOk(v.(run := Launch(v.run, Dispatch(Updated(v.run.s, u)))), o, v.run.ints[o])
  {
    hide RunOk, IdemOk, RowsOk, ClosedOk, BridgeOk, Updated, Dispatch, ReadyIds, IsHuman, CanUpdate, EdgeOk;
    SurvivorKept(v.run, u, o);
    SurvivorAsked(v.run, u, o);
    assert o in v.remap ==> o !in v.run.ints;
  }

  lemma SurvivorAsked(r: Inst, u: Update, o: nat)
    requires RunOk(r) && o in Survivors(r, u)
    ensures o in r.ints && o < |r.issued| && r.issued[o] == Ticket(r.ints[o], AttemptOf(r.s, r.ints[o]))
    ensures Survivors(r, u)[o] == r.ints[o]
  {
    assert IntOk(r, o);
  }

  lemma WriteKeepsInv(v: Svc, u: Update)
    requires Inv(v) && v.bridge.None? && CanUpdate(v.run, u)
    ensures Inv(v.(run := Launch(v.run, Dispatch(Updated(v.run.s, u))), bridge := Some(Survivors(v.run, u))))
  {
    hide RunOk, Dispatch, Updated, IsHuman, IdemOk, RowsOk, ClosedOk, ReadyIds, Survivors, RemapOk, CarryOk, CanUpdate;
    var s1 := Updated(v.run.s, u);
    var r' := Launch(v.run, Dispatch(s1));
    var v' := v.(run := r', bridge := Some(Survivors(v.run, u)));
    RunIsValid(v.run);
    UpdateKeepsValid(v.run, u);
    DispatchKeeps(s1);
    LaunchOk(v.run, Dispatch(s1));
    UpdateRounds(v.run.s, u);
    DispatchRounds(s1);
    RoundsTrans(v.run.s, s1, Dispatch(s1));
    TicketsKept(v, v');
    LaunchRemapOk(v, Dispatch(s1));
    RemapIgnoresBridge(v.(run := r'), v'.bridge);
    forall o | o in v'.bridge.value
      ensures CarryOk(v', o, v'.bridge.value[o])
    {
      WriteCarries(v, u, o);
      SurvivorAsked(v.run, u, o);
      CarryIgnoresBridge(v.(run := r'), v'.bridge, o, v.run.ints[o]);
    }
  }

  lemma RemapIgnoresBridge(v: Svc, b: Option<map<nat, Id>>)
    requires RemapOk(v)
    ensures RemapOk(v.(bridge := b))
  {
  }

  lemma CarryIgnoresBridge(v: Svc, b: Option<map<nat, Id>>, o: nat, x: Id)
    requires CarryOk(v, o, x)
    ensures CarryOk(v.(bridge := b), o, x)
  {
  }

  lemma CarriedEdge(v: Svc, o: nat)
    requires Inv(v) && v.bridge.Some? && o in Carried(v.bridge.value, v.run.ints)
    ensures EdgeOk(v.run.issued, o, Carried(v.bridge.value, v.run.ints)[o]) && o !in v.run.ints
  {
    hide Valid, IsHuman, IdemOk, RowsOk, ClosedOk, StepOk, AllKept, RemapOk;
    var i := Carried(v.bridge.value, v.run.ints)[o];
    assert CarryOk(v, o, v.bridge.value[o]) && IntOk(v.run, i);
    assert o in v.run.ints ==> o < o;
  }

  lemma EndKeepsInv(v: Svc)
    requires Inv(v) && v.bridge.Some?
    ensures Inv(v.(bridge := None, remap := v.remap + Carried(v.bridge.value, v.run.ints)))
  {
    hide RunOk, Carried, IdemOk, RowsOk, ClosedOk, CarryOk, EdgeOk;
    var v' := v.(bridge := None, remap := v.remap + Carried(v.bridge.value, v.run.ints));
    forall a | a in v'.remap
      ensures EdgeOk(v'.run.issued, a, v'.remap[a]) && a !in v'.run.ints
    {
      if a in Carried(v.bridge.value, v.run.ints) {
        CarriedEdge(v, a);
      }
    }
    SameRounds(v.run.s, v'.run.s);
    TicketsKept(v, v');
  }

  lemma ProvisionTickets(v: Svc, i: nat)
    requires IdemOk(v) && RowsOk(v) && ClosedOk(v) && MintOk(v) && IntOk(v.run, i)
    requires i in v.run.ints && KindOf(v.run.s, v.run.ints[i]).Some?
    ensures IdemOk(Provisioned(v, i)) && RowsOk(Provisioned(v, i)) && ClosedOk(Provisioned(v, i))
    ensures MintOk(Provisioned(v, i))
  {
    hide KindOf, IsHuman;
    var v' := Provisioned(v, i);
    forall e
      ensures RowOk(v', e)
    {
      assert RowOk(v, e);
    }
  }

  lemma ProvisionKeepsInv(v: Svc, i: nat)
    requires Inv(v) && v.bridge.None? && i in v.run.ints && KindOf(v.run.s, v.run.ints[i]).Some?
    ensures Inv(Provisioned(v, i))
  {
    hide RunOk, KindOf, IdemOk, RowsOk, ClosedOk, MintOk, CarryOk, RemapOk, KeyOf, IntOk;
    assert IntOk(v.run, i) by { IntHolds(v.run, i); }
    ProvisionTickets(v, i);
    var v' := Provisioned(v, i);
    RemapOnRun(v, v');
  }

  lemma IntHolds(r: Inst, i: nat)
    requires RunOk(r)
    ensures IntOk(r, i)
  {
  }

  lemma RemapOnRun(v: Svc, v': Svc)
    requires RemapOk(v) && v'.run == v.run && v'.remap == v.remap
    ensures RemapOk(v')
  {
  }

  lemma CarryOnRun(v: Svc, v': Svc, o: nat, x: Id)
    requires CarryOk(v, o, x) && v'.run == v.run && v'.remap == v.remap
    ensures CarryOk(v', o, x)
  {
    hide IsHuman;
  }

  lemma CloseKeepsInv(v: Svc, closed: set<nat>, finished: set<nat>)
    requires Inv(v) && ClosedOk(v.(closed := closed))
    ensures Inv(v.(closed := closed, finished := finished))
  {
    hide RunOk, EdgeOk, CarryOk;
    var v' := v.(closed := closed, finished := finished);
    forall e
      ensures RowOk(v', e)
    {
      assert RowOk(v, e);
    }
    if v.bridge.Some? {
      forall o | o in v.bridge.value && CarryOk(v, o, v.bridge.value[o])
        ensures CarryOk(v', o, v.bridge.value[o])
      {
        CarryOnRun(v, v', o, v.bridge.value[o]);
      }
    }
    BridgeKept(v, v');
  }

  lemma CrashKeepsInv(v: Svc)
    requires Inv(v)
    ensures Inv(v.(bridge := None))
  {
    hide RunOk, IdemOk, RowsOk, ClosedOk, RemapOk;
    SameRounds(v.run.s, v.run.s);
    TicketsKept(v, v.(bridge := None));
    RemapIgnoresBridge(v, None);
  }

  /** Every action of the driver, in any order, keeps the invariant. */
  lemma ActionKeepsInv(v: Svc, a: Action, v': Svc)
    requires Inv(v) && Step(v, a, v')
    ensures Inv(v')
  {
    hide Inv, Dispatch, Updated, Complete, CanUpdate, Survivors, Busy, IsHuman, Carried, Provisioned, ReadyIds, KindOf;
    match a {
      case WorkerReturns(x, res) => ReturnKeepsInv(v, x, res);
      case PersonAsked(x) => AskKeepsInv(v, x);
      case BarrierLifts => BarrierKeepsInv(v);
      case PersonAnswers(i, res) =>
        AskedInStep(v, i);
        ReturnKeepsInv(v, v.run.ints[i], res);
      case WriteBegins(u) => WriteKeepsInv(v, u);
      case WriteEnds => EndKeepsInv(v);
      case WriteCrashes(_) => CrashKeepsInv(v);
      case Provisions(i) => ProvisionKeepsInv(v, i);
      case Closes(e) =>
        InvClosed(v);
        CloseKeepsInv(v, v.closed + {e}, v.finished);
      case PersonFinishes(e) =>
        InvClosed(v);
        CloseKeepsInv(v, v.closed, v.finished + {e});
    }
  }

  lemma AskedInStep(v: Svc, i: nat)
    requires Inv(v) && i in v.run.ints
    ensures v.run.ints[i] in v.run.step && i < |v.run.issued|
    ensures v.run.issued[i] == Ticket(v.run.ints[i], AttemptOf(v.run.s, v.run.ints[i]))
  {
    assert IntOk(v.run, i);
  }

  lemma InvClosed(v: Svc)
    requires Inv(v)
    ensures ClosedOk(v)
  {
  }

  ghost predicate ActsOnce(vs: seq<Svc>, acts: seq<Action>, k: nat)
    requires k < |acts| < |vs|
  {
    Step(vs[k], acts[k], vs[k + 1])
  }

  ghost predicate IsHistory(vs: seq<Svc>, acts: seq<Action>) {
    |vs| == |acts| + 1 && forall k :: 0 <= k < |acts| ==> ActsOnce(vs, acts, k)
  }

  lemma HistoryIsOneLonger(vs: seq<Svc>, acts: seq<Action>)
    requires IsHistory(vs, acts)
    ensures |vs| == |acts| + 1
  {
  }

  lemma ExtendHistory(vs: seq<Svc>, acts: seq<Action>, a: Action, v: Svc)
    requires IsHistory(vs, acts) && Step(vs[|vs| - 1], a, v)
    ensures IsHistory(vs + [v], acts + [a])
  {
    hide Step;
    var vs', acts' := vs + [v], acts + [a];
    forall k | 0 <= k < |acts'|
      ensures ActsOnce(vs', acts', k)
    {
      if k < |acts| {
        assert ActsOnce(vs, acts, k);
      }
    }
  }

  /** An instance just started on a validated template. */
  function Started(dag: Dag): Svc {
    Svc(Inst(Fresh(dag), {}, map[], []), None, map[], map[], map[], [], [], {}, {})
  }

  lemma StartedInv(dag: Dag)
    requires ValidTemplate(dag)
    ensures Inv(Started(dag))
  {
    FreshIsValid(dag);
    hide ValidTemplate, Valid;
    assert AllKept(Fresh(dag)) by {
      forall x ensures WellKept(LogOf(Fresh(dag).unblocks, x)) {}
    }
  }

  lemma {:induction false} HistoryInv(vs: seq<Svc>, acts: seq<Action>, k: nat)
    requires IsHistory(vs, acts) && Inv(vs[0]) && k < |vs|
    ensures Inv(vs[k])
  {
    hide Inv, Step;
    if k > 0 {
      HistoryInv(vs, acts, k - 1);
      assert ActsOnce(vs, acts, k - 1);
      ActionKeepsInv(vs[k - 1], acts[k - 1], vs[k]);
    }
  }
}
