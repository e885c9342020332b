/** Histories of a small instance, from its start, in which a person who goes on waiting loses his card: to a write that
    crashes, and to a refund. */
module Signed {
  import opened Graph
  import opened Template
  import opened State
  import opened Gates
  import opened Engine
  import opened Permissions
  import opened Driver
  import opened Rounds
  import opened Safety
  import opened Stranded
  import opened Cards
  import opened Stories

  // ---------- a draft, its check and a signature ----------

  const Draft := Name("draft")
  const Check := Name("check")
  const Sign := Name("sign")

  const DraftNode := Node(Draft, [], Tool, Produce, None, None, None, None, None, false)
  const CheckNode := Node(Check, [Draft], Tool, Gate, Some(Auto), Some(1), None, None, None, false)
  const SignNode := Node(Sign, [Draft], Human, Produce, None, None, Some(CardAction), Some("owner"), None, false)

  /** A draft, an automatic check of it, and a person who signs it off by card. */
  function SmallDag(): Dag {
    [DraftNode, CheckNode, SignNode]
  }

  lemma SmallIsUnique(dag: Dag)
    requires dag == SmallDag()
    ensures UniqueIds(dag) && DepsClosed(dag)
    ensures |dag| == 3 && dag[0] == DraftNode && dag[1] == CheckNode && dag[2] == SignNode
  {
    assert dag[0].id == Draft && dag[1].id == Check && dag[2].id == Sign;
  }

  lemma SmallIsAcyclic(dag: Dag)
    requires dag == SmallDag()
    ensures UniqueIds(dag) && DepsClosed(dag) && Acyclic(dag)
    ensures Ancestors(dag, Check) == {Draft} && Sign in Downstream(dag, Draft)
  {
    hide Ancestors, Downstream, UniqueIds, DepsClosed;
    SmallIsUnique(dag);
    forall x
      ensures Ancestors(dag, x) <= {Draft} && x !in Ancestors(dag, x)
    {
      SmallAncestors(dag, x);
    }
    DepIsAncestor(dag, 1, Draft);
    DepIsAncestor(dag, 2, Draft);
  }

  lemma SmallAncestors(dag: Dag, x: Id)
    requires dag == SmallDag() && UniqueIds(dag)
    ensures Ancestors(dag, x) <= {Draft} && x !in Ancestors(dag, x)
  {
    DepMapKeys(dag, x);
    if x in DepMap(dag) {
      var k :| 0 <= k < |dag| && dag[k].id == x;
      DepMapAt(dag, k);
    }
    if x == Draft {
      AncestorsWithin(dag, x, {});
    } else {
      AncestorsWithin(dag, x, {Draft});
    }
  }

  lemma NodesGuarded(dag: Dag)
    requires Ancestors(dag, Check) != {}
    ensures Guarded(dag, DraftNode) && Guarded(dag, CheckNode) && Guarded(dag, SignNode)
  {
    hide Ancestors;
  }

  lemma SmallIsValid(dag: Dag)
    requires dag == SmallDag()
    ensures ValidTemplate(dag)
  {
    hide Ancestors, Downstream, Acyclic, UniqueIds, DepsClosed, Guarded, SmallDag;
    SmallIsUnique(dag);
    SmallIsAcyclic(dag);
    NodesGuarded(dag);
  }

  const Fail := Result(false, [], None)

  /** The three statuses, the check's count and grants, and the signer's round. */
  ghost predicate View(s: State, d: Status, c: Status, g: Status, n: nat, a: nat, log: seq<Grant>) {
    && s.dag == SmallDag()
    && StatusOf(s.status, Draft) == d && StatusOf(s.status, Check) == c && StatusOf(s.status, Sign) == g
    && (forall x :: StatusOf(s.status, x) == Failed ==> x == Check)
    && CountOf(s.counts, Check) == n && AttemptOf(s, Sign) == a && LogOf(s.unblocks, Check) == log
    && (Check in s.outputs ==> s.outputs[Check].reopen == [])
  }

  lemma SmallKinds(s: State)
    requires s.dag == SmallDag()
    ensures IsHuman(s, Sign) && !IsHuman(s, Draft) && !IsHuman(s, Check)
    ensures KindOf(s, Sign) == Some(CardKind) && MayRaise(s, Check)
  {
    SmallIsUnique(s.dag);
    FindUnique(s.dag, 0);
    FindUnique(s.dag, 1);
    FindUnique(s.dag, 2);
    hide Find, UniqueIds, DepsClosed, SmallDag;
  }

  function SmallStep(d: Status, c: Status, g: Status): set<Id> {
    (if d == Pending then {Draft} else {}) + (if d == Done && c == Pending then {Check} else {})
    + (if d == Done && g == Pending then {Sign} else {})
  }

  /** What is ready, by the three statuses. */
  lemma SmallReady(s: State)
    requires s.dag == SmallDag()
    ensures var d, c, g := StatusOf(s.status, Draft), StatusOf(s.status, Check), StatusOf(s.status, Sign);
            ReadyIds(s) == SmallStep(d, c, g)
  {
    SmallIsUnique(s.dag);
    hide UniqueIds, DepsClosed, SmallDag;
    forall x
      ensures x in ReadyIds(s) <==>
        ((x == Draft && IsReady(s.status, DraftNode)) || (x == Check && IsReady(s.status, CheckNode))
         || (x == Sign && IsReady(s.status, SignNode)))
    {
      assert s.dag[0].id == Draft && s.dag[1].id == Check && s.dag[2].id == Sign;
    }
    assert CheckNode.deps[0] == Draft && SignNode.deps[0] == Draft;
  }

  lemma DraftReturns(s: State, d: Status, c: Status, g: Status, n: nat, a: nat, log: seq<Grant>)
    requires View(s, d, c, g, n, a, log)
    ensures View(Complete(s, Draft, Pass), Done, c, g, n, a, log)
  {
    SmallIsValid(s.dag);
    SmallIsUnique(s.dag);
    hide ValidTemplate, Complete, UniqueIds, DepsClosed, SmallDag;
    forall y
      ensures StatusOf(Complete(s, Draft, Pass).status, y) == if y == Draft then Done else StatusOf(s.status, y)
    {
      CompleteView(s, 0, Pass, y);
    }
    CompleteView(s, 0, Pass, Draft);
  }

  lemma CheckReturns(s: State, res: Result, d: Status, c: Status, g: Status, n: nat, a: nat, log: seq<Grant>)
    requires View(s, d, c, g, n, a, log) && res.reopen == []
    ensures View(Complete(s, Check, res), d, if res.passed then Done else Failed, g, n, a, log)
  {
    SmallIsValid(s.dag);
    SmallIsUnique(s.dag);
    hide ValidTemplate, Complete, UniqueIds, DepsClosed, SmallDag;
    forall y
      ensures StatusOf(Complete(s, Check, res).status, y) ==
              if y == Check then (if res.passed then Done else Failed) else StatusOf(s.status, y)
    {
      CompleteView(s, 1, res, y);
    }
    CompleteView(s, 1, res, Check);
  }

  lemma CheckRule(s: State, d: Status, g: Status, n: nat, a: nat, log: seq<Grant>)
    requires View(s, d, Failed, g, n, a, log)
    ensures OnlyFailed(s, 1) && s.dag[1] == CheckNode && UniqueIds(s.dag)
    ensures Rule(s, CheckNode) == if n >= 1 + Max(0, NetAmount(log)) then Halts else Sends([Draft])
  {
    SmallIsAcyclic(s.dag);
    SmallIsUnique(s.dag);
    KeepAll([Draft], Ancestors(s.dag, Check));
    hide Ancestors, Keep, Downstream, Acyclic, SmallDag, UniqueIds, DepsClosed, NetAmount;
    assert ReopenTargets(CheckNode, s.outputs) == [Draft];
  }

  /** Dispatch, in the three cases: nothing to do, the check has to stop, or everything is sent back. */
  lemma SmallDispatch(s: State, d: Status, c: Status, g: Status, n: nat, a: nat, log: seq<Grant>)
    requires View(s, d, c, g, n, a, log)
    ensures c != Failed ==> Dispatch(s) == s
    ensures c == Failed && n >= 1 + Max(0, NetAmount(log)) ==> View(Dispatch(s), d, Blocked, g, n, a, log)
    ensures c == Failed && n < 1 + Max(0, NetAmount(log)) ==>
      View(Dispatch(s), Pending, Pending, Pending, n + 1, a + 1, log)
  {
    hide Dispatch, NetAmount, Pull, SmallDag;
    DispatchFrame(s);
    if c != Failed {
      QuietDispatch(s);
    } else {
      CheckRule(s, d, g, n, a, log);
      if n >= 1 + Max(0, NetAmount(log)) {
        forall x
          ensures StatusOf(Dispatch(s).status, x) == if x == Check then Blocked else StatusOf(s.status, x)
          ensures AttemptOf(Dispatch(s), x) == AttemptOf(s, x) && CountOf(Dispatch(s).counts, x) == CountOf(s.counts, x)
        {
          HaltDispatch(s, 1, x);
        }
      } else {
        SmallPulled(s.dag);
        forall x
          ensures StatusOf(Dispatch(s).status, x) == if x in Pull(s.dag, Check, [Draft]) then Pending
              else StatusOf(s.status, x)
        {
          SendDispatch(s, 1, x);
        }
        SendDispatch(s, 1, Check);
        SendDispatch(s, 1, Sign);
      }
    }
  }

  lemma SmallPulled(dag: Dag)
    requires dag == SmallDag()
    ensures Draft in Pull(dag, Check, [Draft]) && Check in Pull(dag, Check, [Draft])
    ensures Sign in Pull(dag, Check, [Draft])
  {
    SmallIsAcyclic(dag);
    hide Ancestors, Downstream, Acyclic, SmallDag, Pull, UniqueIds, DepsClosed;
    assert Draft in [Draft];
  }

  // ---------- its moves ----------

  /** What a story has to keep in mind: the statuses, the check's count and grants, the signer's round, the super-
      step, who has been asked under which id, how many ids were issued, whether a write is open, and the rounds with
      a card. */
  datatype Scene = Scene(d: Status, c: Status, g: Status, n: nat, a: nat, log: seq<Grant>,
                         step: set<Id>, ints: map<nat, Id>, ids: nat, open: bool, cards: set<nat>)

  ghost predicate Shows(v: Svc, sc: Scene) {
    && View(v.run.s, sc.d, sc.c, sc.g, sc.n, sc.a, sc.log)
    && v.run.step == sc.step && v.run.ints == sc.ints && |v.run.issued| == sc.ids && (v.bridge.Some? <==> sc.open)
    && forall b :: Key(Sign, b, CardKind) in v.idem <==> b in sc.cards
  }

  lemma StartShows()
    ensures Shows(Started(SmallDag()), Scene(Pending, Pending, Pending, 0, 0, [], {}, map[], 0, false, {}))
  {
    hide SmallDag;
  }

  /** The scene after a dispatch and a launch. */
  function Launched(sc: Scene, open: bool): Scene {
    var halts := sc.n >= 1 + Max(0, NetAmount(sc.log));
    var (d, c, g) := if sc.c != Failed then (sc.d, sc.c, sc.g)
                     else if halts then (sc.d, Blocked, sc.g) else (Pending, Pending, Pending);
    var sent := sc.c == Failed && !halts;
    sc.(d := d, c := c, g := g, n := if sent then sc.n + 1 else sc.n, a := if sent then sc.a + 1 else sc.a,
        step := SmallStep(d, c, g), ints := map[], open := open)
  }

  lemma LaunchShows(v: Svc, s1: State, sc: Scene, b: Option<map<nat, Id>>)
    requires Shows(v.(run := v.run.(s := s1)), sc)
    ensures Shows(v.(run := Launch(v.run, Dispatch(s1)), bridge := b), Launched(sc, b.Some?))
  {
    hide NetAmount, Dispatch, View;
    SmallDispatch(s1, sc.d, sc.c, sc.g, sc.n, sc.a, sc.log);
    ViewDag(Dispatch(s1), Launched(sc, b.Some?));
    SmallReady(Dispatch(s1));
  }

  lemma ViewDag(s: State, sc: Scene)
    ensures View(s, sc.d, sc.c, sc.g, sc.n, sc.a, sc.log) ==>
      s.dag == SmallDag() && StatusOf(s.status, Draft) == sc.d && StatusOf(s.status, Check) == sc.c &&
          StatusOf(s.status, Sign) == sc.g
  {
    hide SmallDag;
  }

  lemma Lifts(vs: seq<Svc>, acts: seq<Action>, v: Svc, sc: Scene) returns (v': Svc)
    requires Tells(SmallDag(), vs, acts, v) && Shows(v, sc) && !Busy(v.run)
    ensures Tells(SmallDag(), vs + [v'], acts + [BarrierLifts], v') && Shows(v', Launched(sc, sc.open))
  {
    hide Tells, Shows, Dispatch, ReadyIds, Busy, SmallDag;
    LaunchShows(v, v.run.s, sc, v.bridge);
    v' := v.(run := Launch(v.run, Dispatch(v.run.s)));
    assert v.(run := v.run.(s := v.run.s)) == v && v' == v.(run := v'.run, bridge := v.bridge);
    SceneOpen(v, sc);
    Tell(SmallDag(), vs, acts, v, BarrierLifts, v');
  }

  lemma SceneOpen(v: Svc, sc: Scene)
    requires Shows(v, sc)
    ensures v.bridge.Some? <==> sc.open
  {
    hide View;
  }

  lemma Drafts(vs: seq<Svc>, acts: seq<Action>, v: Svc, sc: Scene) returns (v': Svc)
    requires Tells(SmallDag(), vs, acts, v) && Shows(v, sc) && Draft in sc.step && sc.d == Pending
    ensures Tells(SmallDag(), vs + [v'], acts + [WorkerReturns(Draft, Pass)], v') && Shows(v', sc.(d := Done))
  {
    hide Tells, Complete, SmallDag, IsHuman, KindOf, MayRaise;
    SmallKinds(v.run.s);
    DraftReturns(v.run.s, sc.d, sc.c, sc.g, sc.n, sc.a, sc.log);
    v' := v.(run := v.run.(s := Complete(v.run.s, Draft, Pass)));
    Tell(SmallDag(), vs, acts, v, WorkerReturns(Draft, Pass), v');
  }

  lemma Checks(vs: seq<Svc>, acts: seq<Action>, v: Svc, sc: Scene, res: Result) returns (v': Svc)
    requires Tells(SmallDag(), vs, acts, v) && Shows(v, sc) && Check in sc.step && sc.c == Pending && res.reopen == []
    ensures Tells(SmallDag(), vs + [v'], acts + [WorkerReturns(Check, res)], v')
    ensures Shows(v', sc.(c := if res.passed then Done else Failed))
  {
    hide Tells, Complete, SmallDag, IsHuman, KindOf, MayRaise;
    SmallKinds(v.run.s);
    CheckReturns(v.run.s, res, sc.d, sc.c, sc.g, sc.n, sc.a, sc.log);
    v' := v.(run := v.run.(s := Complete(v.run.s, Check, res)));
    Tell(SmallDag(), vs, acts, v, WorkerReturns(Check, res), v');
  }

  lemma AsksSign(vs: seq<Svc>, acts: seq<Action>, v: Svc, sc: Scene) returns (v': Svc)
    requires Tells(SmallDag(), vs, acts, v) && Shows(v, sc) && Sign in sc.step && sc.g == Pending && sc.ints == map[]
    ensures Tells(SmallDag(), vs + [v'], acts + [PersonAsked(Sign)], v')
    ensures Shows(v', sc.(ints := map[sc.ids := Sign], ids := sc.ids + 1))
  {
    hide Tells, SmallDag, IsHuman, KindOf, MayRaise;
    SmallKinds(v.run.s);
    v' := v.(run := Asked(v.run, Sign));
    Tell(SmallDag(), vs, acts, v, PersonAsked(Sign), v');
  }

  /** A card goes out to the signer; if it is the first of its round, it leads to him. */
  lemma SendsCard(vs: seq<Svc>, acts: seq<Action>, v: Svc, sc: Scene, i: nat) returns (v': Svc)
    requires Tells(SmallDag(), vs, acts, v) && Shows(v, sc) && !sc.open && sc.g == Pending && sc.ints == map[i := Sign]
    ensures Tells(SmallDag(), vs + [v'], acts + [Provisions(i)], v')
    ensures Shows(v', sc.(cards := sc.cards + {sc.a})) && Served(v', i)
    ensures Routed(v', i) <==> sc.a !in sc.cards || Routed(v, i)
  {
    hide Tells, SmallDag, IsHuman, MayRaise, Inv, Served, Routed, KindOf, View;
    ToldInv(SmallDag(), vs, acts, v);
    ViewDag(v.run.s, sc);
    SmallKinds(v.run.s);
    ProvisionRoutes(v, i);
    v' := Provisioned(v, i);
    SignerKey(v.run.s, sc);
    Tell(SmallDag(), vs, acts, v, Provisions(i), v');
  }

  lemma SignerKey(s: State, sc: Scene)
    requires View(s, sc.d, sc.c, sc.g, sc.n, sc.a, sc.log)
    ensures KindOf(s, Sign).Some? && KeyOf(s, Sign) == Key(Sign, sc.a, CardKind)
  {
    hide SmallDag, IsHuman, MayRaise, KindOf;
    SmallKinds(s);
  }

  lemma Begins(vs: seq<Svc>, acts: seq<Action>, v: Svc, sc: Scene, u: Update, mid: Scene) returns (v': Svc)
    requires Tells(SmallDag(), vs, acts, v) && Shows(v, sc) && !sc.open && CanUpdate(v.run, u)
    requires Shows(v.(run := v.run.(s := Updated(v.run.s, u))), mid)
    ensures Tells(SmallDag(), vs + [v'], acts + [WriteBegins(u)], v') && Shows(v', Launched(mid, true))
  {
    hide Tells, Shows, SmallDag, Dispatch, Updated, CanUpdate, ReadyIds, Survivors;
    SceneOpen(v, sc);
    LaunchShows(v, Updated(v.run.s, u), mid, Some(Survivors(v.run, u)));
    v' := v.(run := Launch(v.run, Dispatch(Updated(v.run.s, u))), bridge := Some(Survivors(v.run, u)));
    Tell(SmallDag(), vs, acts, v, WriteBegins(u), v');
  }

  lemma Touches(vs: seq<Svc>, acts: seq<Action>, v: Svc, sc: Scene) returns (v': Svc)
    requires Tells(SmallDag(), vs, acts, v) && Shows(v, sc) && !sc.open
    ensures Tells(SmallDag(), vs + [v'], acts + [WriteBegins(Touch)], v') && Shows(v', Launched(sc, true))
  {
    hide Tells, Shows, SmallDag;
    assert v.(run := v.run.(s := Updated(v.run.s, Touch))) == v;
    v' := Begins(vs, acts, v, sc, Touch, sc);
  }

  lemma Ends(vs: seq<Svc>, acts: seq<Action>, v: Svc, sc: Scene) returns (v': Svc)
    requires Tells(SmallDag(), vs, acts, v) && Shows(v, sc) && sc.open
    requires sc.d != Pending && (sc.c != Pending || Check !in sc.step) && Sign in sc.ints.Values
    requires sc.step <= {Draft, Check, Sign}
    ensures Tells(SmallDag(), vs + [v'], acts + [WriteEnds], v') && Shows(v', sc.(open := false))
  {
    hide Tells, SmallDag, IsHuman, KindOf, MayRaise, Carried;
    SmallKinds(v.run.s);
    assert Waits(v.run);
    v' := v.(bridge := None, remap := v.remap + Carried(v.bridge.value, v.run.ints));
    Tell(SmallDag(), vs, acts, v, WriteEnds, v');
  }

  lemma Crashes(vs: seq<Svc>, acts: seq<Action>, v: Svc, sc: Scene) returns (v': Svc)
    requires Tells(SmallDag(), vs, acts, v) && Shows(v, sc) && sc.open && Check in sc.step && sc.c == Pending
    requires Check !in sc.ints.Values
    ensures Tells(SmallDag(), vs + [v'], acts + [WriteCrashes(Check)], v') && Shows(v', sc.(open := false))
  {
    hide Tells, SmallDag, IsHuman, KindOf, MayRaise;
    SmallKinds(v.run.s);
    v' := v.(bridge := None);
    Tell(SmallDag(), vs, acts, v, WriteCrashes(Check), v');
  }

  // ---------- what happens to the signer ----------

  /** So far nothing but plain pushes, and none of them crashed. */
  ghost predicate Gentle(acts: seq<Action>) {
    forall k :: 0 <= k < |acts| ==> !acts[k].WriteCrashes? && (acts[k].WriteBegins? ==> acts[k].update.Touch?)
  }

  const Waiting := Scene(Done, Blocked, Pending, 1, 1, [], {Sign}, map[2 := Sign], 3, false, {0, 1})

  lemma FirstRound() returns (vs: seq<Svc>, acts: seq<Action>, v: Svc)
    ensures Tells(SmallDag(), vs, acts, v) && Gentle(acts)
    ensures Shows(v, Scene(Done, Failed, Pending, 0, 0, [], {Check, Sign}, map[0 := Sign], 1, false, {0}))
  {
    hide Tells, Shows, SmallDag, Busy, ValidTemplate;
    SmallIsValid(SmallDag());
    StartShows();
    v := Started(SmallDag());
    vs, acts := [v], [];
    Begun(vs, acts);
    var s0 := Scene(Pending, Pending, Pending, 0, 0, [], {}, map[], 0, false, {});
    NotBusy(v, s0);
    var v1 := Lifts(vs, acts, v, s0);
    vs, acts := vs + [v1], acts + [BarrierLifts];
    var s1 := Launched(s0, false);
    var v2 := Drafts(vs, acts, v1, s1);
    vs, acts := vs + [v2], acts + [WorkerReturns(Draft, Pass)];
    var s2 := s1.(d := Done);
    NotBusy(v2, s2);
    var v3 := Lifts(vs, acts, v2, s2);
    vs, acts := vs + [v3], acts + [BarrierLifts];
    var s3 := Launched(s2, false);
    var v4 := Checks(vs, acts, v3, s3, Fail);
    vs, acts := vs + [v4], acts + [WorkerReturns(Check, Fail)];
    var s4 := s3.(c := Failed);
    var v5 := AsksSign(vs, acts, v4, s4);
    vs, acts := vs + [v5], acts + [PersonAsked(Sign)];
    var s5 := s4.(ints := map[0 := Sign], ids := 1);
    v := SendsCard(vs, acts, v5, s5, 0);
    vs, acts := vs + [v], acts + [Provisions(0)];
    assert s3.step == {Check, Sign} && {} + {s5.a} == {0};
    assert s5.(cards := s5.cards + {s5.a}) ==
        Scene(Done, Failed, Pending, 0, 0, [], {Check, Sign}, map[0 := Sign], 1, false, {0});
  }

  lemma Begun(vs: seq<Svc>, acts: seq<Action>)
    requires ValidTemplate(SmallDag()) && vs == [Started(SmallDag())] && acts == []
    ensures Tells(SmallDag(), vs, acts, Started(SmallDag()))
  {
    hide ValidTemplate, Started;
  }

  /** Nobody of the super-step is out. */
  lemma NotBusy(v: Svc, sc: Scene)
    requires Shows(v, sc) && sc.step <= {Draft, Check, Sign}
    requires (Draft in sc.step ==> sc.d != Pending) && (Check in sc.step ==> sc.c != Pending)
    requires Sign in sc.step ==> sc.g != Pending
    ensures !Busy(v.run)
  {
    hide SmallDag;
  }

  /** The check sends everything back once, fails again, and stops; the signer waits in his second round, card in
      hand. */
  lemma SecondRound() returns (vs: seq<Svc>, acts: seq<Action>, v: Svc)
    ensures Tells(SmallDag(), vs, acts, v) && Gentle(acts) && Shows(v, Waiting)
  {
    hide Tells, Shows, SmallDag, Busy;
    vs, acts, v := FirstRound();
    var s0 := Scene(Done, Failed, Pending, 0, 0, [], {Check, Sign}, map[0 := Sign], 1, false, {0});
    var v1 := Touches(vs, acts, v, s0);
    vs, acts := vs + [v1], acts + [WriteBegins(Touch)];
    var s1 := Launched(s0, true);
    var v2 := Drafts(vs, acts, v1, s1);
    vs, acts := vs + [v2], acts + [WorkerReturns(Draft, Pass)];
    var s2 := s1.(d := Done);
    NotBusy(v2, s2);
    var v3 := Lifts(vs, acts, v2, s2);
    vs, acts := vs + [v3], acts + [BarrierLifts];
    var s3 := Launched(s2, true);
    var v4 := Checks(vs, acts, v3, s3, Fail);
    vs, acts := vs + [v4], acts + [WorkerReturns(Check, Fail)];
    var s4 := s3.(c := Failed);
    var v5 := AsksSign(vs, acts, v4, s4);
    vs, acts := vs + [v5], acts + [PersonAsked(Sign)];
    var s5 := s4.(ints := map[1 := Sign], ids := 2);
    assert s5.ints[1] == Sign;
    var v6 := Ends(vs, acts, v5, s5);
    vs, acts := vs + [v6], acts + [WriteEnds];
    var s6 := s5.(open := false);
    var v7 := SendsCard(vs, acts, v6, s6, 1);
    vs, acts := vs + [v7], acts + [Provisions(1)];
    var s7 := s6.(cards := {0, 1});
    assert s6.cards + {s6.a} == {0, 1};
    vs, acts, v := CheckStops(vs, acts, v7, s7);
  }

  lemma CheckStops(vs0: seq<Svc>, acts0: seq<Action>, v0: Svc, s0: Scene)
    returns (vs: seq<Svc>, acts: seq<Action>, v: Svc)
    requires Tells(SmallDag(), vs0, acts0, v0) && Gentle(acts0) && Shows(v0, s0)
    requires s0 == Scene(Done, Failed, Pending, 1, 1, [], {Check, Sign}, map[1 := Sign], 2, false, {0, 1})
    ensures Tells(SmallDag(), vs, acts, v) && Gentle(acts) && Shows(v, Waiting)
  {
    hide Tells, Shows, SmallDag;
    var v1 := Touches(vs0, acts0, v0, s0);
    vs, acts := vs0 + [v1], acts0 + [WriteBegins(Touch)];
    var s1 := Launched(s0, true);
    var v2 := AsksSign(vs, acts, v1, s1);
    vs, acts := vs + [v2], acts + [PersonAsked(Sign)];
    var s2 := s1.(ints := map[2 := Sign], ids := 3);
    assert s2.ints[2] == Sign;
    v := Ends(vs, acts, v2, s2);
    vs, acts := vs + [v], acts + [WriteEnds];
    assert s1.step == {Sign};
    assert s2.(open := false) == Waiting;
  }

  lemma Owned(v: Svc, sc: Scene, i: nat)
    requires Inv(v) && Shows(v, sc) && sc.g == Pending && sc.ints == map[i := Sign] && sc.a in sc.cards
    ensures i in v.run.ints && v.run.ints[i] == Sign && Unanswered(v.run.s, Sign)
    ensures KindOf(v.run.s, Sign) == Some(CardKind) && KeyOf(v.run.s, Sign) in v.idem && Served(v, i)
    ensures v.bridge.Some? <==> sc.open
  {
    hide Inv, SmallDag, IsHuman, MayRaise, Routed;
    SmallKinds(v.run.s);
    hide KindOf;
  }

  /** In his second round the signer's card reaches him: since it was sent there were only pushes. */
  lemma CardInHand(vs: seq<Svc>, acts: seq<Action>, v: Svc)
    requires Tells(SmallDag(), vs, acts, v) && Gentle(acts) && Shows(v, Waiting)
    ensures Routed(v, 2)
  {
    hide Shows, SmallDag, Inv, Routed, Served, IsHistory, ValidTemplate, Started, KindOf;
    ToldInv(SmallDag(), vs, acts, v);
    Owned(v, Waiting, 2);
    CardsReach(vs, acts, |acts|, 2);
  }

  lemma CanLift(v: Svc, sc: Scene, targets: seq<Id>)
    requires Shows(v, sc) && sc.c == Blocked && sc.log == [] && (targets == [] || targets == [Draft])
    ensures CanUpdate(v.run, Lift(Check, targets, 1))
  {
    hide SmallDag;
    SmallIsAcyclic(v.run.s.dag);
    SmallIsUnique(v.run.s.dag);
    hide Ancestors, Downstream, Acyclic, UniqueIds, DepsClosed;
    assert v.run.s.dag[1].id in Ids(v.run.s.dag);
  }

  lemma LiftView(s: State, d: Status, g: Status, n: nat, a: nat, targets: seq<Id>)
    requires View(s, d, Blocked, g, n, a, []) && (targets == [] || targets == [Draft])
    ensures var s', log := Thaw(s, Check, targets, 1), [Grant(1, false)];
            if targets == [] then View(s', d, Pending, g, n, a, log)
                else View(s', Pending, Pending, Pending, n, a + 1, log)
  {
    hide SmallDag, Thaw;
    LiftPulls(s.dag, targets);
    hide Pull;
    forall x
      ensures StatusOf(Thaw(s, Check, targets, 1).status, x) ==
              if x in {Check} + Pull(s.dag, Check, targets) then Pending else StatusOf(s.status, x)
    {
      ThawAt(s, Check, targets, 1, x);
    }
    ThawAt(s, Check, targets, 1, Check);
    ThawAt(s, Check, targets, 1, Sign);
    assert [] + [Grant(ClampGrant(1), false)] == [Grant(1, false)];
  }

  lemma LiftPulls(dag: Dag, targets: seq<Id>)
    requires dag == SmallDag() && (targets == [] || targets == [Draft])
    ensures var pulled := {Check} + Pull(dag, Check, targets);
            if targets == [] then pulled == {Check} else Draft in pulled && Sign in pulled
  {
    SmallPulled(dag);
    hide SmallDag;
  }

  lemma LiftShows(v: Svc, sc: Scene, targets: seq<Id>)
    requires Shows(v, sc) && sc.c == Blocked && sc.log == [] && (targets == [] || targets == [Draft])
    ensures var mid := sc.(c := Pending, log := [Grant(1, false)]);
            Shows(v.(run := v.run.(s := Updated(v.run.s, Lift(Check, targets, 1)))),
                  if targets == [] then mid else mid.(d := Pending, g := Pending, a := sc.a + 1))
  {
    hide SmallDag, Thaw, View;
    LiftView(v.run.s, sc.d, sc.g, sc.n, sc.a, targets);
  }

  const Lifted := Launched(Waiting.(c := Pending, log := [Grant(1, false)]), true)

  lemma CrashStory() returns (vs: seq<Svc>, acts: seq<Action>, m: nat, v: Svc)
    ensures Tells(SmallDag(), vs, acts, v) && m + 2 == |acts| && |vs| == |acts| + 1
    ensures acts[m] == WriteBegins(Lift(Check, [], 1)) && acts[m + 1] == WriteCrashes(Check)
    ensures Shows(vs[m], Waiting) && Routed(vs[m], 2) && Shows(vs[m + 1], Lifted) && Shows(v, Lifted.(open := false))
  {
    hide Shows, SmallDag, Routed, CanUpdate, Tells, Updated;
    var v0;
    vs, acts, v0 := SecondRound();
    m := |acts|;
    CardInHand(vs, acts, v0);
    Told(vs, acts, v0);
    CanLift(v0, Waiting, []);
    LiftShows(v0, Waiting, []);
    var v1 := Begins(vs, acts, v0, Waiting, Lift(Check, [], 1), Waiting.(c := Pending, log := [Grant(1, false)]));
    vs, acts := vs + [v1], acts + [WriteBegins(Lift(Check, [], 1))];
    v := Crashes(vs, acts, v1, Lifted);
    vs, acts := vs + [v], acts + [WriteCrashes(Check)];
  }

  /** An unblock whose write crashes: the credit is spent, the signer goes on waiting in the same round, and the card
      that reached him before reaches him no more. */
  lemma CrashLosesCard() returns (vs: seq<Svc>, acts: seq<Action>, m: nat, i: nat)
    ensures IsHistory(vs, acts) && vs[0] == Started(SmallDag()) && ValidTemplate(SmallDag()) && m + 2 == |acts|
    ensures acts[m] == WriteBegins(Lift(Check, [], 1)) && acts[m + 1] == WriteCrashes(Check) && IsWrite(acts, m, m + 1)
    ensures Routed(vs[m], i) && LeftBehind(vs, m, m + 1, i)
    ensures GrantsUsed(vs[m + 2].run.s.unblocks, Check) == GrantsUsed(vs[m].run.s.unblocks, Check) + 1
  {
    hide Shows, SmallDag, Routed, ValidTemplate, Started, IsHistory, LeftBehind, Tells;
    var v;
    vs, acts, m, v := CrashStory();
    i := 2;
    Told(vs, acts, v);
    Grants(vs[m], Waiting);
    Grants(v, Lifted.(open := false));
    SameSigner(vs[m], Waiting, v, Lifted.(open := false));
    Leaves(vs, acts, v, m, m + 1, Waiting, i);
  }

  /** Nor does the next push help: he is asked again, under an id his card does not lead to, and no new card is sent. */
  lemma DeadCard() returns (vs: seq<Svc>, acts: seq<Action>, i: nat)
    ensures IsHistory(vs, acts) && vs[0] == Started(SmallDag()) && ValidTemplate(SmallDag())
    ensures acts != [] && |vs| == |acts| + 1 && acts[|acts| - 1] == Provisions(i) && vs[|acts|].bridge.None?
    ensures Served(vs[|acts|], i) && Unanswered(vs[|acts|].run.s, vs[|acts|].run.ints[i]) && !Routed(vs[|acts|], i)
  {
    hide Shows, SmallDag, Inv, Routed, Served, KindOf, ValidTemplate, Started, IsHistory, LeftBehind;
    hide CanUpdate, Tells, Updated;
    hide Busy;
    var k, v0;
    vs, acts, k, v0 := CrashStory();
    Told(vs, acts, v0);
    var w := vs[k + 1];
    var s0 := Lifted.(open := false);
    var v1 := Touches(vs, acts, v0, s0);
    vs, acts := vs + [v1], acts + [WriteBegins(Touch)];
    var s1 := Launched(s0, true);
    var v2 := Checks(vs, acts, v1, s1, Pass);
    vs, acts := vs + [v2], acts + [WorkerReturns(Check, Pass)];
    var s2 := s1.(c := Done);
    var v3 := AsksSign(vs, acts, v2, s2);
    vs, acts := vs + [v3], acts + [PersonAsked(Sign)];
    var s3 := s2.(ints := map[3 := Sign], ids := 4);
    assert s3.ints[3] == Sign;
    var v4 := Ends(vs, acts, v3, s3);
    vs, acts := vs + [v4], acts + [WriteEnds];
    var s4 := s3.(open := false);
    var v5 := SendsCard(vs, acts, v4, s4, 3);
    vs, acts := vs + [v5], acts + [Provisions(3)];
    i := 3;
    assert s4.cards + {s4.a} == {0, 1};
    ToldInv(SmallDag(), vs, acts, v5);
    Told(vs, acts, v5);
    Owned(v5, s4.(cards := {0, 1}), 3);
    CardOf(w, Lifted, v5, s4.(cards := {0, 1}));
    CrashIsForGood(vs, acts, k + 1, |acts|, 3);
  }

  lemma CardOf(v: Svc, sc: Scene, v': Svc, sc': Scene)
    requires Shows(v, sc) && Shows(v', sc') && sc'.a in sc.cards
    ensures KindOf(v'.run.s, Sign) == Some(CardKind) && KeyOf(v'.run.s, Sign) in v.idem
  {
    hide SmallDag, IsHuman, MayRaise;
    SmallKinds(v'.run.s);
    hide KindOf;
  }

  lemma Told(vs: seq<Svc>, acts: seq<Action>, v: Svc)
    requires Tells(SmallDag(), vs, acts, v)
    ensures IsHistory(vs, acts) && vs[0] == Started(SmallDag()) && ValidTemplate(SmallDag()) && |vs| == |acts| + 1
    ensures vs[|acts|] == v
  {
    hide IsHistory, ValidTemplate, Started;
  }

  lemma Grants(v: Svc, sc: Scene)
    requires Shows(v, sc)
    ensures GrantsUsed(v.run.s.unblocks, Check) == NetCount(sc.log)
    ensures NetCount([]) == 0 && NetCount([Grant(1, false)]) == 1
  {
    hide SmallDag;
    assert [Grant(1, false)][..0] == [];
  }

  lemma SameSigner(v: Svc, sc: Scene, v': Svc, sc': Scene)
    requires Shows(v, sc) && Shows(v', sc') && sc.a == sc'.a
    ensures AttemptOf(v.run.s, Sign) == AttemptOf(v'.run.s, Sign)
  {
    hide SmallDag;
  }

  /** A write that crashed, or whose prediction was wrong about the signer, leaves him behind. */
  lemma Leaves(vs: seq<Svc>, acts: seq<Action>, v: Svc, m: nat, p: nat, sc: Scene, i: nat)
    requires Tells(SmallDag(), vs, acts, v) && IsWrite(acts, m, p) && p + 1 == |acts|
    requires Shows(vs[m], sc) && sc.g == Pending && sc.ints == map[i := Sign] && sc.a in sc.cards
    requires AttemptOf(vs[m].run.s, Sign) == AttemptOf(v.run.s, Sign)
    requires acts[p].WriteCrashes? || Mispredicted(vs[m].run.s, acts[m].update, Sign)
    ensures LeftBehind(vs, m, p, i)
  {
    hide Shows, SmallDag, Inv, IsHistory, ValidTemplate, Started, Mispredicted, KindOf, Served;
    ToldInv(SmallDag(), vs, acts, v);
    HistoryInv(vs, acts, m);
    Owned(vs[m], sc, i);
    WhoIsLeftBehind(vs, acts, m, p, i);
  }

  // ---------- a refund ----------

  /** The check is unblocked, and the draft sent back with it; in the signer's third round the check has failed again
      and his new card has just gone out. */
  lemma ThirdRound() returns (vs: seq<Svc>, acts: seq<Action>, v: Svc)
    ensures Tells(SmallDag(), vs, acts, v) && Routed(v, 3)
    ensures Shows(v, Scene(Done, Failed, Pending, 1, 2, [Grant(1, false)], {Check, Sign}, map[3 := Sign], 4,
        false, {0, 1, 2}))
  {
    hide Shows, SmallDag, Routed, CanUpdate, Tells, Updated, Busy;
    var v0;
    vs, acts, v0 := SecondRound();
    CanLift(v0, Waiting, [Draft]);
    LiftShows(v0, Waiting, [Draft]);
    var mid := Waiting.(c := Pending, log := [Grant(1, false)], d := Pending, g := Pending, a := 2);
    var v1 := Begins(vs, acts, v0, Waiting, Lift(Check, [Draft], 1), mid);
    vs, acts := vs + [v1], acts + [WriteBegins(Lift(Check, [Draft], 1))];
    var s1 := Launched(mid, true);
    var v2 := Drafts(vs, acts, v1, s1);
    vs, acts := vs + [v2], acts + [WorkerReturns(Draft, Pass)];
    var s2 := s1.(d := Done);
    NotBusy(v2, s2);
    var v3 := Lifts(vs, acts, v2, s2);
    vs, acts := vs + [v3], acts + [BarrierLifts];
    var s3 := Launched(s2, true);
    var v4 := Checks(vs, acts, v3, s3, Fail);
    vs, acts := vs + [v4], acts + [WorkerReturns(Check, Fail)];
    var s4 := s3.(c := Failed);
    var v5 := AsksSign(vs, acts, v4, s4);
    vs, acts := vs + [v5], acts + [PersonAsked(Sign)];
    var s5 := s4.(ints := map[3 := Sign], ids := 4);
    assert s5.ints[3] == Sign;
    var v6 := Ends(vs, acts, v5, s5);
    vs, acts := vs + [v6], acts + [WriteEnds];
    var s6 := s5.(open := false);
    v := SendsCard(vs, acts, v6, s6, 3);
    vs, acts := vs + [v], acts + [Provisions(3)];
    assert s6.cards + {s6.a} == {0, 1, 2} && s6.step == {Check, Sign};
  }

  lemma RefundView(s: State, d: Status, c: Status, g: Status, n: nat, a: nat)
    requires View(s, d, c, g, n, a, [Grant(1, false)])
    ensures CanRefund(s, Check)
    ensures View(TakeBack(s, Check), d, c, g, n, a, [Grant(1, false), Grant(1, true)])
  {
    hide SmallDag;
    assert [Grant(1, false)] + [Grant(1, true)] == [Grant(1, false), Grant(1, true)];
  }

  lemma LogAmounts()
    ensures NetAmount([]) == 0 && NetAmount([Grant(1, false)]) == 1 && NetAmount([Grant(1, false), Grant(1, true)]) == 0
  {
    var log := [Grant(1, false), Grant(1, true)];
    assert log[..1] == [Grant(1, false)] && log[..1][..0] == [];
  }

  /** The check's last grant is all that lets it send the signer's work back, and the refund takes that grant. */
  lemma RefundMispredicts(s: State)
    requires View(s, Done, Failed, Pending, 1, 2, [Grant(1, false)])
    ensures Mispredicted(s, Refund(Check), Sign)
  {
    LogAmounts();
    CheckRule(s, Done, Pending, 1, 2, [Grant(1, false)]);
    SmallPulled(s.dag);
    SmallIsUnique(s.dag);
    hide SmallDag, Pull, Rule, UniqueIds, DepsClosed, NetAmount;
    assert [Grant(1, false)][..0] == [];
    assert SentBackBy(s, 1, Sign);
    forall k | 0 <= k < |s.dag| && SentBackBy(s, k, Sign)
      ensures s.dag[k].id == Check && CountOf(s.counts, Check) >= BudgetWithout(s, s.dag[k])
    {
      SenderFailed(s, k);
      assert s.dag[k] == CheckNode;
    }
  }

  lemma SenderFailed(s: State, k: nat)
    requires k < |s.dag| && Rule(s, s.dag[k]).Sends?
    ensures StatusOf(s.status, s.dag[k].id) == Failed
  {
    hide Keep, Ancestors;
  }

  /** A refund, written after the card went out and a read cut the push off: nothing crashes, the signer keeps his
      round, and his card leads nowhere. */
  lemma RefundLosesCard() returns (vs: seq<Svc>, acts: seq<Action>, m: nat, i: nat)
    ensures IsHistory(vs, acts) && vs[0] == Started(SmallDag()) && ValidTemplate(SmallDag()) && m + 3 == |acts|
    ensures acts[m] == WriteBegins(Refund(Check)) && acts[m + 2].WriteEnds? && IsWrite(acts, m, m + 2)
    ensures Routed(vs[m], i) && LeftBehind(vs, m, m + 2, i)
  {
    hide Shows, SmallDag, Routed, ValidTemplate, Started, IsHistory, LeftBehind, Tells, Updated, Mispredicted;
    var v0;
    vs, acts, v0 := ThirdRound();
    m, i := |acts|, 3;
    Told(vs, acts, v0);
    var s0 := Scene(Done, Failed, Pending, 1, 2, [Grant(1, false)], {Check, Sign}, map[3 := Sign], 4, false, {0, 1, 2});
    var mid := s0.(log := [Grant(1, false), Grant(1, true)]);
    RefundShows(v0, s0);
    LogAmounts();
    var v1 := Begins(vs, acts, v0, s0, Refund(Check), mid);
    vs, acts := vs + [v1], acts + [WriteBegins(Refund(Check))];
    var s1 := Launched(mid, true);
    assert s1.step == {Sign};
    var v2 := AsksSign(vs, acts, v1, s1);
    vs, acts := vs + [v2], acts + [PersonAsked(Sign)];
    var s2 := s1.(ints := map[4 := Sign], ids := 5);
    assert s2.ints[4] == Sign;
    var v3 := Ends(vs, acts, v2, s2);
    vs, acts := vs + [v3], acts + [WriteEnds];
    Told(vs, acts, v3);
    SameSigner(v0, s0, v3, s2.(open := false));
    Leaves(vs, acts, v3, m, m + 2, s0, i);
  }

  lemma RefundShows(v: Svc, sc: Scene)
    requires Shows(v, sc) && sc.log == [Grant(1, false)]
    requires sc.d == Done && sc.c == Failed && sc.g == Pending && sc.n == 1 && sc.a == 2
    ensures CanUpdate(v.run, Refund(Check)) && Mispredicted(v.run.s, Refund(Check), Sign)
    ensures Shows(v.(run := v.run.(s := Updated(v.run.s, Refund(Check)))),
        sc.(log := [Grant(1, false), Grant(1, true)]))
  {
    hide SmallDag, View, TakeBack, CanRefund, Mispredicted;
    RefundView(v.run.s, sc.d, sc.c, sc.g, sc.n, sc.a);
    RefundMispredicts(v.run.s);
  }
}
