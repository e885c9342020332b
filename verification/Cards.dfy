/** Whether the card a person holds still reaches him: its buttons carry one interrupt id for good, so it lives by the
    migration chain alone. */
module Cards {
  import opened Graph
  import opened State
  import opened Gates
  import opened Driver
  import opened Rounds
  import opened Correlations
  import opened Safety
  import opened Rebound
  import opened Stranded

  /** The action does not cut the chain of somebody who goes on waiting at x: it is neither the crash of a write, nor
      the beginning of one whose prediction is wrong about him. */
  ghost predicate Spares(v: Svc, a: Action, x: Id) {
    match a
    case WriteCrashes(_) => false
    case WriteBegins(u) => !Mispredicted(v.run.s, u, x)
    case _ => true
  }

  /** Nothing has cut the chain since the object was created. */
  ghost predicate SparedSince(vs: seq<Svc>, acts: seq<Action>, n: nat, e: nat, x: Id)
    requires n <= |acts| < |vs|
  {
    forall k :: 0 <= k < n && e < |vs[k].created| ==> Spares(vs[k], acts[k], x)
  }

  /** The person is still waiting in the round the object was created for. */
  ghost predicate Pends(v: Svc, e: nat) {
    e < |v.created| && StatusOf(v.run.s.status, v.created[e].node) == Pending
    && AttemptOf(v.run.s, v.created[e].node) == v.created[e].attempt
  }

  /** The card leads to his live interrupt or, in the middle of a write, to the one the write will carry over. */
  ghost predicate Connected(v: Svc, e: nat) {
    e < |v.created| && e < |v.minted| && Linked(v, v.minted[e], v.created[e].node)
  }

  /** The same for any id that was once issued for somebody waiting at x. */
  ghost predicate Linked(v: Svc, m: nat, x: Id) {
    exists j :: LedTo(v, m, x, j)
  }

  /** The id was issued, and before the write in progress, if there is one. */
  ghost predicate Known(v: Svc, m: nat) {
    m < |v.run.issued| && (v.bridge.Some? ==> m !in v.run.ints)
  }

  /** x goes on waiting in the same round. */
  ghost predicate GoesOn(s: State, s': State, x: Id) {
    StatusOf(s.status, x) == Pending && StatusOf(s'.status, x) == Pending && AttemptOf(s', x) == AttemptOf(s, x)
  }

  ghost predicate LedTo(v: Svc, m: nat, x: Id, j: nat) {
    Leads(v.remap, m, j) && if v.bridge.None? then j in v.run.ints && v.run.ints[j] == x
                            else j in v.bridge.value && v.bridge.value[j] == x
  }

  // ---------- chains ----------

  /** A chain from an issued id stays among issued ids. */
  lemma LeadsIssued(v: Svc, m: nat, j: nat)
    requires Inv(v) && m < |v.run.issued| && Leads(v.remap, m, j)
    ensures j < |v.run.issued|
  {
    hide Inv;
    var k: nat :| Hop(v.remap, m, k) == Some(j);
    ChainKeepsTicket(v, m, k);
  }

  lemma {:induction false} HopAlong(a: map<nat, nat>, b: map<nat, nat>, m: nat, k: nat)
    requires forall o :: o in a ==> o in b && b[o] == a[o]
    requires Hop(a, m, k).Some?
    ensures Hop(b, m, k) == Hop(a, m, k)
  {
    if k > 0 {
      HopAlong(a, b, m, k - 1);
    }
  }

  /** Edges added at once into ids that lead nowhere can only be the last hop of a chain. */
  lemma {:induction false} HopBefore(a: map<nat, nat>, c: map<nat, nat>, m: nat, k: nat)
    requires forall o :: o in c ==> c[o] !in a && c[o] !in c
    requires Hop(a + c, m, k).Some? && (k > 0 ==> Hop(a + c, m, k).value !in c.Values)
    ensures Hop(a, m, k) == Hop(a + c, m, k)
  {
    assert forall o :: o in c ==> c[o] in c.Values;
    if k > 0 {
      var p := Hop(a + c, m, k - 1).value;
      assert p in a + c && p !in c.Values;
      HopBefore(a, c, m, k - 1);
    }
  }

  lemma ChainEnds(remap: map<nat, nat>, m: nat, j: nat)
    ensures Leads(remap, m, j) ==> j == m || j in remap.Values
  {
    if Leads(remap, m, j) {
      var k: nat :| Hop(remap, m, k) == Some(j);
      if k > 0 {
        assert remap[Hop(remap, m, k - 1).value] == j;
      }
    }
  }

  // ---------- one action ----------

  /** An action that leaves chains alone, adds or drops nobody's interrupt but the answered one's, changes nothing
      here. */
  lemma SameChain(v: Svc, v': Svc, m: nat, x: Id)
    requires v'.remap == v.remap && v'.bridge == v.bridge
    requires forall j :: v.bridge.None? ==>
      (j in v'.run.ints && v'.run.ints[j] == x && Leads(v.remap, m, j) <==>
       j in v.run.ints && v.run.ints[j] == x && Leads(v.remap, m, j))
    ensures Linked(v', m, x) <==> Linked(v, m, x)
  {
    hide Leads;
    forall j
      ensures LedTo(v', m, x, j) <==> LedTo(v, m, x, j)
    {
    }
  }

  lemma AskKeepsLinked(v: Svc, y: Id, m: nat, x: Id)
    requires Inv(v) && Known(v, m)
    ensures Linked(v.(run := Asked(v.run, y)), m, x) <==> Linked(v, m, x)
  {
    hide Inv, Leads;
    forall j: nat | Leads(v.remap, m, j)
      ensures j < |v.run.issued|
    {
      LeadsIssued(v, m, j);
    }
    SameChain(v, v.(run := Asked(v.run, y)), m, x);
  }

  /** The barrier cannot lift over somebody waiting to whom the id leads. */
  lemma BarrierKeepsLinked(v: Svc, v': Svc, m: nat, x: Id)
    requires Inv(v) && !Busy(v.run) && v' == v.(run := Launch(v.run, Dispatch(v.run.s)))
    requires StatusOf(v.run.s.status, x) == Pending
    ensures !Linked(v, m, x) && !Linked(v', m, x)
  {
    InvBridge(v);
    NobodyCarried(v);
    hide Inv, Leads, Dispatch, ReadyIds, BridgeOk;
    forall j | j in v.run.ints
      ensures v.run.ints[j] != x
    {
      AskedInStep(v, j);
    }
  }

  lemma InvBridge(v: Svc)
    requires Inv(v)
    ensures BridgeOk(v) && FreshOk(v)
  {
  }

  lemma SurvivesIff(r: Inst, u: Update, x: Id, j: nat)
    requires StatusOf(r.s.status, x) == Pending
    ensures (j in Survivors(r, u) && Survivors(r, u)[j] == x) <==>
      ((j in r.ints && r.ints[j] == x && x !in Reopening(r.s, u)))
  {
    hide Reopening;
  }

  lemma BeginKeepsLinked(v: Svc, u: Update, v': Svc, m: nat, x: Id)
    requires Inv(v) && Step(v, WriteBegins(u), v') && GoesOn(v.run.s, v'.run.s, x)
    ensures Linked(v', m, x) <==> Linked(v, m, x) && Spares(v, WriteBegins(u), x)
  {
    hide Inv, Leads, Dispatch, Updated, CanUpdate, ReadyIds, Reopening, Survivors, Mispredicted, RunOk;
    InvRunOk(v);
    forall j: nat
      ensures LedTo(v', m, x, j) <==> LedTo(v, m, x, j) && !Mispredicted(v.run.s, u, x)
    {
      SurvivesIff(v.run, u, x, j);
      if j in v.run.ints && v.run.ints[j] == x {
        MispredictedIff(v.run, u, j);
      }
    }
  }

  lemma InvMinted(v: Svc)
    requires Inv(v)
    ensures |v.minted| == |v.created|
  {
  }

  lemma EndKeepsLinked(v: Svc, v': Svc, m: nat, x: Id)
    requires Inv(v) && Step(v, WriteEnds, v') && Known(v, m)
    ensures Linked(v', m, x) <==> Linked(v, m, x)
  {
    hide Inv, Waits, Leads, Carried;
    var c := Carried(v.bridge.value, v.run.ints);
    if Linked(v, m, x) {
      var o :| LedTo(v, m, x, o);
      CarriedAsked(v, o);
      LeadsOverEnd(v, m, o);
      assert LedTo(v', m, x, c[o]);
    }
    if Linked(v', m, x) {
      var j :| LedTo(v', m, x, j);
      var o := LedByCarry(v, m, j);
      assert LedTo(v, m, x, o);
    }
  }

  lemma CarriedAsked(v: Svc, o: nat)
    requires Inv(v) && v.bridge.Some? && Waits(v.run) && o in v.bridge.value
    ensures o in Carried(v.bridge.value, v.run.ints)
  {
    InvBridge(v);
    assert CarryOk(v, o, v.bridge.value[o]);
    assert Handled(v.run, v.bridge.value[o]);
    hide Inv;
  }

  lemma LeadsOverEnd(v: Svc, m: nat, o: nat)
    requires Inv(v) && v.bridge.Some? && Leads(v.remap, m, o) && o in Carried(v.bridge.value, v.run.ints)
    ensures var c := Carried(v.bridge.value, v.run.ints); Leads(v.remap + c, m, c[o])
  {
    hide Inv, Carried;
    var c := Carried(v.bridge.value, v.run.ints);
    forall a | a in c
      ensures a !in v.remap
    {
      CarriedIsNew(v, a);
    }
    var k: nat :| Hop(v.remap, m, k) == Some(o);
    HopAlong(v.remap, v.remap + c, m, k);
    assert Hop(v.remap + c, m, k + 1) == Some(c[o]);
  }

  lemma CarriedIsNew(v: Svc, a: nat)
    requires Inv(v) && v.bridge.Some? && a in v.bridge.value
    ensures a !in v.remap
  {
    assert CarryOk(v, a, v.bridge.value[a]);
  }

  /** What leads to an interrupt raised in this write leads there by the edge the write adds. */
  lemma LedByCarry(v: Svc, m: nat, j: nat) returns (o: nat)
    requires Inv(v) && v.bridge.Some? && j in v.run.ints && m !in v.run.ints
    requires Leads(v.remap + Carried(v.bridge.value, v.run.ints), m, j)
    ensures o in v.bridge.value && v.bridge.value[o] == v.run.ints[j] && Leads(v.remap, m, o)
  {
    hide Inv, IdemOk, RowsOk, MintOk, BridgeOk, RemapOk, Carried;
    InvBridge(v);
    InvRemap(v);
    var c := Carried(v.bridge.value, v.run.ints);
    forall a | a in c
      ensures c[a] !in v.remap && c[a] !in c
    {
      CarriedEndsThere(v, a);
    }
    var k: nat :| Hop(v.remap + c, m, k) == Some(j);
    o := Hop(v.remap + c, m, k - 1).value;
    assert o in c && c[o] == j;
    CarriedStarts(v, o);
    HopBefore(v.remap, c, m, k - 1);
    assert Hop(v.remap, m, k - 1) == Some(o);
  }

  lemma CarriedStarts(v: Svc, o: nat)
    requires Inv(v) && v.bridge.Some? && o in Carried(v.bridge.value, v.run.ints)
    ensures o !in Carried(v.bridge.value, v.run.ints).Values
  {
    hide Inv;
    CarriedEdge(v, o);
  }

  lemma CarriedEndsThere(v: Svc, a: nat)
    requires Inv(v) && v.bridge.Some? && a in Carried(v.bridge.value, v.run.ints)
    ensures var c := Carried(v.bridge.value, v.run.ints); c[a] !in v.remap && c[a] !in c
  {
    hide Inv, Carried;
    InvRemap(v);
    var c := Carried(v.bridge.value, v.run.ints);
    if c[a] in c {
      CarriedEdge(v, c[a]);
    }
  }

  /** A crash cuts the chain of everybody who waits. */
  lemma CrashCuts(v: Svc, y: Id, v': Svc, m: nat, x: Id)
    requires Inv(v) && Step(v, WriteCrashes(y), v') && Known(v, m)
    ensures !Linked(v', m, x)
  {
    hide Inv, BridgeOk, CanFail, Leads;
    InvBridge(v);
    forall j
      ensures !LedTo(v', m, x, j)
    {
      ChainEnds(v.remap, m, j);
    }
  }

  lemma ProvisionFrame(v: Svc, i: nat)
    requires i in v.run.ints && KindOf(v.run.s, v.run.ints[i]).Some?
    ensures var v' := Provisioned(v, i);
            v'.run == v.run && v'.remap == v.remap && v'.bridge == v.bridge
  {
    hide KindOf, KeyOf;
  }

  lemma ProvisionKeepsLinked(v: Svc, i: nat, v': Svc, m: nat, x: Id)
    requires Step(v, Provisions(i), v')
    ensures Linked(v', m, x) <==> Linked(v, m, x)
  {
    hide Leads, Provisioned, KindOf, KeyOf, Linked;
    ProvisionFrame(v, i);
    SameChain(v, v', m, x);
  }

  /** An action keeps the chain from an id to somebody who goes on waiting exactly when it spares him. */
  lemma ActionKeepsLinked(v: Svc, a: Action, v': Svc, m: nat, x: Id)
    requires Inv(v) && Step(v, a, v') && Known(v, m) && GoesOn(v.run.s, v'.run.s, x)
    ensures Linked(v', m, x) <==> Linked(v, m, x) && Spares(v, a, x)
  {
    hide Inv, Linked, Dispatch, Updated, Complete, CanUpdate, Survivors, Busy, IsHuman, Carried, ReadyIds;
    hide KindOf, Reopening, Leads, CanFail, Waits, Provisioned, Mispredicted;
    match a
    case PersonAsked(y) => AskKeepsLinked(v, y, m, x);
    case BarrierLifts => BarrierKeepsLinked(v, v', m, x);
    case WriteBegins(u) => BeginKeepsLinked(v, u, v', m, x);
    case WriteEnds => EndKeepsLinked(v, v', m, x);
    case WriteCrashes(y) => CrashCuts(v, y, v', m, x);
    case Provisions(i) => ProvisionKeepsLinked(v, i, v', m, x);
    case _ => SameChain(v, v', m, x);
  }

  lemma ActionKeepsKnown(v: Svc, a: Action, v': Svc, m: nat)
    requires Step(v, a, v') && Known(v, m)
    ensures Known(v', m)
  {
    hide Dispatch, Updated, Complete, CanUpdate, Survivors, Busy, IsHuman, Carried, ReadyIds, KindOf, KeyOf;
    hide CanFail, Waits;
  }

  lemma MintedIsKnown(v: Svc, e: nat)
    requires Inv(v) && e < |v.created|
    ensures e < |v.minted| && Known(v, v.minted[e])
  {
    InvRemap(v);
    InvBridge(v);
    hide Inv, RemapOk, RowsOk, IdemOk, BridgeOk;
  }

  lemma ActionKeepsConnected(v: Svc, a: Action, v': Svc, e: nat)
    requires Inv(v) && Step(v, a, v') && Pends(v, e) && Pends(v', e)
    requires v.created <= v'.created && v.minted <= v'.minted
    ensures Connected(v', e) <==> Connected(v, e) && Spares(v, a, v.created[e].node)
  {
    hide Inv, Linked, Step, Spares;
    MintedIsKnown(v, e);
    ActionKeepsLinked(v, a, v', v.minted[e], v.created[e].node);
  }

  /** Somebody who goes on waiting through a stretch of history that spares him is still led to by the ids that led to
      him when it began. */
  lemma {:induction false} StaysLinked(vs: seq<Svc>, acts: seq<Action>, k: nat, n: nat, m: nat, x: Id)
    requires IsHistory(vs, acts) && Inv(vs[0]) && k <= n < |vs| && |vs| == |acts| + 1
    requires Known(vs[k], m) && Linked(vs[k], m, x) && GoesOn(vs[k].run.s, vs[n].run.s, x)
    requires forall j :: k <= j < n ==> Spares(vs[j], acts[j], x)
    ensures Known(vs[n], m) && Linked(vs[n], m, x)
    decreases n - k
  {
    hide Inv, Step, Known, Linked, Spares;
    if k < n {
      HistoryInv(vs, acts, n - 1);
      GoesOnBetween(vs, acts, k, n - 1, n, x);
      StaysLinked(vs, acts, k, n - 1, m, x);
      assert ActsOnce(vs, acts, n - 1);
      ActionKeepsLinked(vs[n - 1], acts[n - 1], vs[n], m, x);
      ActionKeepsKnown(vs[n - 1], acts[n - 1], vs[n], m);
    }
  }

  lemma GoesOnBetween(vs: seq<Svc>, acts: seq<Action>, k: nat, l: nat, n: nat, x: Id)
    requires IsHistory(vs, acts) && Inv(vs[0]) && k <= l <= n < |vs| && GoesOn(vs[k].run.s, vs[n].run.s, x)
    ensures GoesOn(vs[k].run.s, vs[l].run.s, x) && GoesOn(vs[l].run.s, vs[n].run.s, x)
  {
    hide Inv, IsHistory, BackMeansNewRound;
    HistoryInv(vs, acts, l);
    HistoryGrows(vs, acts, k, l);
    HistoryGrows(vs, acts, l, n);
    HistoryMeansNewRound(vs, acts, l, n, x);
    NeverRunning(vs[l], x);
    PendedThen(vs[l].run.s, vs[n].run.s, x);
  }

  /** x waits in round a. */
  ghost predicate PendingIn(v: Svc, x: Id, a: nat) {
    StatusOf(v.run.s.status, x) == Pending && AttemptOf(v.run.s, x) == a
  }

  /** A round that is over for x is never waited in again. */
  lemma NeverPendingAgain(vs: seq<Svc>, acts: seq<Action>, m: nat, n: nat, x: Id, a: nat)
    requires IsHistory(vs, acts) && Inv(vs[0]) && m <= n < |vs|
    requires a <= AttemptOf(vs[m].run.s, x) && !PendingIn(vs[m], x, a)
    ensures a <= AttemptOf(vs[n].run.s, x) && !PendingIn(vs[n], x, a)
  {
    hide Inv, IsHistory;
    HistoryInv(vs, acts, m);
    NeverRunning(vs[m], x);
    HistoryMeansNewRound(vs, acts, m, n, x);
  }

  /** Who has answered does not wait in that round any more. */
  lemma AnsweredIsOver(vs: seq<Svc>, acts: seq<Action>, k: nat, n: nat)
    requires IsHistory(vs, acts) && Inv(vs[0]) && k < n < |vs| && k < |acts| && acts[k].PersonAnswers?
    ensures acts[k].interrupt in vs[k].run.ints
    ensures var x := vs[k].run.ints[acts[k].interrupt]; !PendingIn(vs[n], x, AttemptOf(vs[k].run.s, x))
  {
    HistoryInv(vs, acts, k);
    assert ActsOnce(vs, acts, k);
    InvRunOk(vs[k]);
    hide Inv, IsHistory, RunOk, Complete;
    var r, i := vs[k].run, acts[k].interrupt;
    AskedInStep(vs[k], i);
    CompleteStatus(r, r.ints[i], acts[k].result);
    CompleteRounds(r.s, r.ints[i], acts[k].result);
    NeverPendingAgain(vs, acts, k + 1, n, r.ints[i], AttemptOf(r.s, r.ints[i]));
  }

  // ---------- sending ----------

  lemma IdemKey(v: Svc, key: Key)
    requires Inv(v) && key in v.idem
    ensures v.idem[key] < |v.created| && v.created[v.idem[key]] == key
  {
    InvRemap(v);
    hide Inv, RemapOk, RowsOk;
  }

  lemma SelfLeads(remap: map<nat, nat>, i: nat)
    ensures Leads(remap, i, i)
  {
    assert Hop(remap, i, 0) == Some(i);
  }

  /** What one dispatch does for the person himself: a task now leads to him, a card does if it is new or did before. */
  lemma ProvisionRoutes(v: Svc, i: nat)
    requires Inv(v) && i in v.run.ints && KindOf(v.run.s, v.run.ints[i]).Some?
    ensures Served(Provisioned(v, i), i)
    ensures Routed(Provisioned(v, i), i) <==>
            KindOf(v.run.s, v.run.ints[i]) == Some(TaskKind) || KeyOf(v.run.s, v.run.ints[i]) !in v.idem || Routed(v, i)
  {
    hide Inv, KindOf, Leads, RemapOk, RowsOk, IdemOk;
    SelfLeads(v.remap, i);
    ProvisionedAddress(v, i);
  }

  lemma ProvisionedAddress(v: Svc, i: nat)
    requires Inv(v) && i in v.run.ints && KindOf(v.run.s, v.run.ints[i]).Some?
    ensures var v', key := Provisioned(v, i), KeyOf(v.run.s, v.run.ints[i]);
            && v'.run == v.run && v'.remap == v.remap && key in v'.idem
            && (key in v.idem ==> v'.idem[key] == v.idem[key])
            && Address(v', v'.idem[key]) ==
                 (if key.kind.TaskKind? || key !in v.idem then Some(i) else Address(v, v.idem[key]))
  {
    hide Inv, KeyOf, KindOf;
    var key := KeyOf(v.run.s, v.run.ints[i]);
    InvMinted(v);
    if key in v.idem {
      IdemKey(v, key);
    }
  }

  // ---------- whole histories ----------

  /** Who waits now for the round of an object has waited for it ever since. */
  lemma PendsBefore(vs: seq<Svc>, acts: seq<Action>, k: nat, n: nat, e: nat)
    requires IsHistory(vs, acts) && Inv(vs[0]) && k <= n < |vs| && e < |vs[k].created| && Pends(vs[n], e)
    ensures Pends(vs[k], e) && vs[k].created[e] == vs[n].created[e]
  {
    hide Inv, IsHistory, RemapOk, RowsOk, MintOk, BackMeansNewRound;
    HistoryInv(vs, acts, k);
    HistoryGrows(vs, acts, k, n);
    var x := vs[n].created[e].node;
    HistoryMeansNewRound(vs, acts, k, n, x);
    NeverRunning(vs[k], x);
    InvRemap(vs[k]);
    PendedThen(vs[k].run.s, vs[n].run.s, x);
  }

  lemma PendedThen(s: State, s': State, x: Id)
    requires BackMeansNewRound(s, s', x) && AttemptOf(s, x) == AttemptOf(s', x) && StatusOf(s'.status, x) == Pending
    ensures !Answered(StatusOf(s.status, x))
  {
  }

  lemma NeverRunning(v: Svc, x: Id)
    requires Inv(v)
    ensures Answered(StatusOf(v.run.s.status, x)) || StatusOf(v.run.s.status, x) == Pending
  {
    InvRunOk(v);
    RunIsValid(v.run);
    hide Inv, RunOk;
  }

  /** Creating an object connects it: it carries the interrupt it is created for. */
  lemma CreationConnects(v: Svc, a: Action, v': Svc)
    requires Inv(v) && Step(v, a, v') && |v.created| < |v'.created|
    ensures Connected(v', |v.created|)
  {
    InvRemap(v);
    hide Inv, RemapOk, IdemOk, RowsOk, Dispatch, Updated, CanUpdate, Survivors, Carried, ReadyIds, KindOf;
    hide CanFail, Waits;
    assert a.Provisions?;
    var e := |v.created|;
    assert v'.minted[e] == a.interrupt && v'.created[e].node == v.run.ints[a.interrupt];
    assert Hop(v'.remap, a.interrupt, 0) == Some(a.interrupt);
    assert LedTo(v', a.interrupt, v'.created[|v.created|].node, a.interrupt);
  }

  lemma OneMore(v: Svc, a: Action, v': Svc)
    requires Step(v, a, v')
    ensures |v.created| <= |v'.created| <= |v.created| + 1
  {
    hide Dispatch, Updated, CanUpdate, Survivors, Carried, ReadyIds, KindOf, CanFail, Waits, KeyOf, Complete;
  }

  /** At any time of a history in which he still waits, his card is connected exactly when nothing since has cut it. */
  lemma {:induction false} ConnectedIff(vs: seq<Svc>, acts: seq<Action>, n: nat, e: nat)
    requires IsHistory(vs, acts) && Inv(vs[0]) && vs[0].created == [] && n < |vs| && Pends(vs[n], e)
    ensures Connected(vs[n], e) <==> SparedSince(vs, acts, n, e, vs[n].created[e].node)
  {
    hide Inv, Step, Connected, Pends, Spares;
    assert e < |vs[n].created| by { PendsIs(vs[n], e); }
    assert n > 0;
    var x := vs[n].created[e].node;
    assert ActsOnce(vs, acts, n - 1);
    HistoryInv(vs, acts, n - 1);
    OneMore(vs[n - 1], acts[n - 1], vs[n]);
    if e < |vs[n - 1].created| {
      PendsBefore(vs, acts, n - 1, n, e);
      ConnectedIff(vs, acts, n - 1, e);
      HistoryGrows(vs, acts, n - 1, n);
      ActionKeepsConnected(vs[n - 1], acts[n - 1], vs[n], e);
    } else {
      CreationConnects(vs[n - 1], acts[n - 1], vs[n]);
      forall k | 0 <= k < n
        ensures |vs[k].created| <= e
      {
        HistoryGrows(vs, acts, k, n - 1);
        GrowsCreated(vs[k], vs[n - 1]);
      }
    }
  }

  lemma PendsIs(v: Svc, e: nat)
    requires Pends(v, e)
    ensures e < |v.created|
  {
  }

  lemma GrowsCreated(v: Svc, v': Svc)
    requires Safety.Grows(v, v')
    ensures |v.created| <= |v'.created|
  {
  }

  /** The card of a waiting person reaches his live interrupt if and only if, since it was sent, no write has crashed
      and no write's prediction was wrong about him. */
  lemma CardReachesIff(vs: seq<Svc>, acts: seq<Action>, n: nat, i: nat)
    requires IsHistory(vs, acts) && Inv(vs[0]) && vs[0].created == [] && n < |vs| && vs[n].bridge.None?
    requires i in vs[n].run.ints && Unanswered(vs[n].run.s, vs[n].run.ints[i])
    requires KindOf(vs[n].run.s, vs[n].run.ints[i]) == Some(CardKind)
    requires KeyOf(vs[n].run.s, vs[n].run.ints[i]) in vs[n].idem
    ensures Routed(vs[n], i) <==>
            SparedSince(vs, acts, n, vs[n].idem[KeyOf(vs[n].run.s, vs[n].run.ints[i])], vs[n].run.ints[i])
  {
    hide Inv, IsHistory, KindOf, SparedSince, Routed, Connected;
    var v, x := vs[n], vs[n].run.ints[i];
    HistoryInv(vs, acts, n);
    CurrentPends(v, i);
    ConnectedIff(vs, acts, n, v.idem[KeyOf(v.run.s, x)]);
    ConnectedIsRouted(v, i);
  }

  lemma CurrentPends(v: Svc, i: nat)
    requires Inv(v) && i in v.run.ints && Unanswered(v.run.s, v.run.ints[i])
    requires KindOf(v.run.s, v.run.ints[i]).Some? && KeyOf(v.run.s, v.run.ints[i]) in v.idem
    ensures var e := v.idem[KeyOf(v.run.s, v.run.ints[i])];
            e < |v.created| && v.created[e] == KeyOf(v.run.s, v.run.ints[i]) && Pends(v, e)
  {
    AskedIsPending(v, i);
    InvRemap(v);
    hide Inv, RemapOk, RowsOk, KindOf;
  }

  lemma AskedIsPending(v: Svc, i: nat)
    requires Inv(v) && i in v.run.ints && Unanswered(v.run.s, v.run.ints[i])
    ensures StatusOf(v.run.s.status, v.run.ints[i]) == Pending
  {
    hide Inv, RunOk;
    InvRunOk(v);
    AskedInStep(v, i);
    MemberSettledOrPending(v.run, v.run.ints[i]);
  }

  lemma ConnectedIsRouted(v: Svc, i: nat)
    requires Inv(v) && v.bridge.None? && i in v.run.ints
    requires KindOf(v.run.s, v.run.ints[i]) == Some(CardKind) && KeyOf(v.run.s, v.run.ints[i]) in v.idem
    ensures Routed(v, i) <==> Connected(v, v.idem[KeyOf(v.run.s, v.run.ints[i])])
  {
    InvRemap(v);
    hide Inv, RemapOk, RowsOk, KindOf, Leads;
    var x := v.run.ints[i];
    var e := v.idem[KeyOf(v.run.s, x)];
    if Connected(v, e) {
      var j :| LedTo(v, v.minted[e], x, j);
      InvOnePerNode(v, i, j);
    }
    if Routed(v, i) {
      assert LedTo(v, v.minted[e], x, i);
    }
  }

  /** So as long as writes are pushes and edits, and run to their end, every card that was sent reaches. */
  lemma CardsReach(vs: seq<Svc>, acts: seq<Action>, n: nat, i: nat)
    requires IsHistory(vs, acts) && Inv(vs[0]) && vs[0].created == [] && n < |vs| && vs[n].bridge.None?
    requires i in vs[n].run.ints && Unanswered(vs[n].run.s, vs[n].run.ints[i])
    requires Served(vs[n], i)
    requires forall k :: 0 <= k < n ==> !acts[k].WriteCrashes?
    requires forall k :: 0 <= k < n && acts[k].WriteBegins? ==> acts[k].update.Touch? || acts[k].update.Edit?
    ensures Routed(vs[n], i)
  {
    hide Inv, IsHistory, Routed;
    HistoryIsOneLonger(vs, acts);
    if KindOf(vs[n].run.s, vs[n].run.ints[i]) == Some(CardKind) {
      CardReachesIff(vs, acts, n, i);
    }
  }

  /** Once a write has crashed under a card, the card is lost for the rest of its round. */
  lemma CrashIsForGood(vs: seq<Svc>, acts: seq<Action>, k: nat, n: nat, i: nat)
    requires IsHistory(vs, acts) && Inv(vs[0]) && vs[0].created == [] && k < n < |vs| && vs[n].bridge.None?
    requires k < |acts| && acts[k].WriteCrashes?
    requires i in vs[n].run.ints && Unanswered(vs[n].run.s, vs[n].run.ints[i])
    requires KindOf(vs[n].run.s, vs[n].run.ints[i]) == Some(CardKind)
    requires KeyOf(vs[n].run.s, vs[n].run.ints[i]) in vs[k].idem
    ensures !Routed(vs[n], i)
  {
    hide Inv, IsHistory, Routed, KindOf, KeyOf, Step;
    HistoryIsOneLonger(vs, acts);
    var key := KeyOf(vs[n].run.s, vs[n].run.ints[i]);
    HistoryInv(vs, acts, k);
    HistoryInv(vs, acts, n);
    HistoryGrows(vs, acts, k, n);
    IdemKey(vs[k], key);
    KeyStays(vs[k], vs[n], key);
    CardReachesIff(vs, acts, n, i);
    assert !Spares(vs[k], acts[k], vs[n].run.ints[i]);
  }

  lemma KeyStays(v: Svc, v': Svc, key: Key)
    requires Inv(v) && Inv(v') && Safety.Grows(v, v') && key in v.idem
    ensures key in v'.idem && v'.idem[key] == v.idem[key] < |v.created|
  {
    IdemKey(v, key);
    InvRemap(v');
    hide Inv, RemapOk, RowsOk, MintOk, RoundsGrow;
    assert v'.created[v.idem[key]] == key;
  }

  /** Nothing in the history has cut the chain of the card this person was sent, if it is a card. */
  ghost predicate Uncut(vs: seq<Svc>, acts: seq<Action>, i: nat)
    requires |vs| == |acts| + 1
  {
    var v := vs[|acts|];
    i in v.run.ints && (KindOf(v.run.s, v.run.ints[i]) == Some(CardKind) ==>
      KeyOf(v.run.s, v.run.ints[i]) in v.idem
      && SparedSince(vs, acts, |acts|, v.idem[KeyOf(v.run.s, v.run.ints[i])], v.run.ints[i]))
  }

  /** Whoever has been sent what is due is reached exactly if his chain is uncut; a task always is. */
  lemma ServedReach(vs: seq<Svc>, acts: seq<Action>, i: nat)
    requires IsHistory(vs, acts) && Inv(vs[0]) && vs[0].created == [] && vs[|acts|].bridge.None?
    requires Served(vs[|acts|], i) && Unanswered(vs[|acts|].run.s, vs[|acts|].run.ints[i])
    ensures Routed(vs[|acts|], i) <==> Uncut(vs, acts, i)
  {
    hide Inv, IsHistory, Routed, SparedSince;
    HistoryIsOneLonger(vs, acts);
    if KindOf(vs[|acts|].run.s, vs[|acts|].run.ints[i]) == Some(CardKind) {
      CardReachesIff(vs, acts, |acts|, i);
    }
  }
}
