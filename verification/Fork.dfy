/** The history of a small instance, from its start, in which an unblock leaves a person behind: it pulls back the
    very gate that was about to send his work back, and so his work stays, but his card no longer reaches him. */
module Fork {
  import opened Graph
  import opened Template
  import opened State
  import opened Gates
  import opened Engine
  import opened Permissions
  import opened Driver
  import opened Rounds
  import opened Safety
  import opened Stranded
  import opened Cards
  import opened Stories

  const P := Name("plan")
  const Q := Name("figures")
  const G := Name("audit")
  const H := Name("review")
  const W := Name("signature")

  const PlanNode := Node(P, [], Tool, Produce, None, None, None, None, None, false)
  const FiguresNode := Node(Q, [], Tool, Produce, None, None, None, None, None, false)
  const AuditNode := Node(G, [Q], Tool, Gate, Some(Auto), Some(1), None, None, None, false)
  const ReviewNode := Node(H, [P, Q], Human, Gate, Some(Single), Some(1), Some(CardAction), Some("reviewer"),
      None, false)
  const SignatureNode := Node(W, [P], Human, Produce, None, None, Some(CardAction), Some("owner"), None, false)

  /** A plan and its figures; an audit of the figures, a review of both, and a signature under the plan. */
  function ForkDag(): Dag {
    [PlanNode, FiguresNode, AuditNode, ReviewNode, SignatureNode]
  }

  lemma ForkIsUnique(dag: Dag)
    requires dag == ForkDag()
    ensures UniqueIds(dag) && DepsClosed(dag)
    ensures |dag| == 5 && dag[0] == PlanNode && dag[1] == FiguresNode && dag[2] == AuditNode
    ensures dag[3] == ReviewNode && dag[4] == SignatureNode
    ensures Ids(dag) == {P, Q, G, H, W}
  {
    assert dag[0].id == P && dag[1].id == Q && dag[2].id == G && dag[3].id == H && dag[4].id == W;
  }

  lemma ForkAncestors(dag: Dag, x: Id)
    requires dag == ForkDag() && UniqueIds(dag)
    ensures Ancestors(dag, x) <= {P, Q} && x !in Ancestors(dag, x)
    ensures x == P || x == Q ==> Ancestors(dag, x) == {}
    ensures x == G ==> Ancestors(dag, x) <= {Q}
    ensures x == W ==> Ancestors(dag, x) <= {P}
  {
    hide Ancestors, UniqueIds;
    DepMapKeys(dag, x);
    if x in DepMap(dag) {
      var k :| 0 <= k < |dag| && dag[k].id == x;
      DepMapAt(dag, k);
    }
    if x == P || x == Q {
      AncestorsWithin(dag, x, {});
    } else if x == G {
      AncestorsWithin(dag, x, {Q});
    } else if x == W {
      AncestorsWithin(dag, x, {P});
    } else {
      AncestorsWithin(dag, x, {P, Q});
    }
  }

  lemma ForkReach(dag: Dag)
    requires dag == ForkDag()
    ensures Acyclic(dag) && Ancestors(dag, G) == {Q} && Ancestors(dag, H) == {P, Q}
    ensures W in Downstream(dag, P) && H in Downstream(dag, Q) && W !in Downstream(dag, Q)
    ensures P !in Downstream(dag, Q) && Q !in Downstream(dag, Q) && Q !in Downstream(dag, P)
  {
    hide Ancestors, Downstream, UniqueIds, DepsClosed, Ids;
    ForkIsUnique(dag);
    forall x
      ensures x !in Ancestors(dag, x)
    {
      ForkAncestors(dag, x);
    }
    ForkAncestors(dag, G);
    ForkAncestors(dag, H);
    ForkAncestors(dag, W);
    ForkAncestors(dag, P);
    ForkAncestors(dag, Q);
    DepIsAncestor(dag, 2, Q);
    DepIsAncestor(dag, 3, P);
    DepIsAncestor(dag, 3, Q);
    DepIsAncestor(dag, 4, P);
    ReachabilityDuality(dag, Q, W);
    ReachabilityDuality(dag, Q, P);
    ReachabilityDuality(dag, Q, Q);
    ReachabilityDuality(dag, P, Q);
  }

  lemma ForkGuarded(dag: Dag)
    requires Ancestors(dag, G) != {} && Ancestors(dag, H) != {}
    ensures Guarded(dag, PlanNode) && Guarded(dag, FiguresNode) && Guarded(dag, AuditNode)
    ensures Guarded(dag, ReviewNode) && Guarded(dag, SignatureNode)
  {
    hide Ancestors;
  }

  lemma ForkIsValid(dag: Dag)
    requires dag == ForkDag()
    ensures ValidTemplate(dag)
  {
    hide Ancestors, Downstream, Acyclic, UniqueIds, DepsClosed, Guarded, ForkDag, Ids;
    ForkIsUnique(dag);
    ForkReach(dag);
    ForkGuarded(dag);
  }

  /** Both gates pick the plan to send back, which is none of the audit's business. */
  const Pick := Result(false, [P], None)

  ghost predicate View(s: State, st: map<Id, Status>) {
    && s.dag == ForkDag() && (forall x :: StatusOf(s.status, x) == StatusOf(st, x))
    && CountOf(s.counts, G) == 0 && CountOf(s.counts, H) == 0 && AttemptOf(s, W) == 0
    && (StatusOf(st, G) == Failed ==> G in s.outputs && s.outputs[G].reopen == [P])
    && (StatusOf(st, H) == Failed ==> H in s.outputs && s.outputs[H].reopen == [P])
  }

  lemma ForkKinds(s: State)
    requires s.dag == ForkDag()
    ensures IsHuman(s, H) && IsHuman(s, W) && !IsHuman(s, P) && !IsHuman(s, Q) && !IsHuman(s, G)
    ensures KindOf(s, H) == Some(CardKind) && KindOf(s, W) == Some(CardKind)
  {
    ForkIsUnique(s.dag);
    FindUnique(s.dag, 0);
    FindUnique(s.dag, 1);
    FindUnique(s.dag, 2);
    FindUnique(s.dag, 3);
    FindUnique(s.dag, 4);
    hide Find, UniqueIds, DepsClosed, ForkDag, Ids;
  }

  lemma SameReady(s: State, st: map<Id, Status>, n: Node)
    requires forall x :: StatusOf(s.status, x) == StatusOf(st, x)
    ensures IsReady(s.status, n) <==>
      (StatusOf(st, n.id) == Pending && forall i :: 0 <= i < |n.deps| ==> StatusOf(st, n.deps[i]) == Done)
  {
    assert forall i :: 0 <= i < |n.deps| ==>
      (n.deps[i] in s.status && s.status[n.deps[i]] == Done <==> StatusOf(s.status, n.deps[i]) == Done);
  }

  function ForkStep(st: map<Id, Status>): set<Id> {
    var p, q := StatusOf(st, P), StatusOf(st, Q);
    (if p == Pending then {P} else {}) + (if q == Pending then {Q} else {})
    + (if q == Done && StatusOf(st, G) == Pending then {G} else {})
    + (if p == Done && q == Done && StatusOf(st, H) == Pending then {H} else {})
    + (if p == Done && StatusOf(st, W) == Pending then {W} else {})
  }

  lemma ForkReadyIds(s: State)
    requires s.dag == ForkDag()
    ensures forall x :: x in ReadyIds(s) <==>
      || (x == P && IsReady(s.status, PlanNode)) || (x == Q && IsReady(s.status, FiguresNode))
      || (x == G && IsReady(s.status, AuditNode)) || (x == H && IsReady(s.status, ReviewNode))
      || (x == W && IsReady(s.status, SignatureNode))
  {
    hide UniqueIds, DepsClosed, ForkDag, IsReady;
    ForkIsUnique(s.dag);
    assert s.dag[0].id == P && s.dag[1].id == Q && s.dag[2].id == G && s.dag[3].id == H && s.dag[4].id == W;
  }

  lemma ForkReady(s: State, st: map<Id, Status>)
    requires View(s, st)
    ensures ReadyIds(s) == ForkStep(st)
  {
    hide UniqueIds, DepsClosed, ForkDag, IsReady, ReadyIds;
    ForkReadyIds(s);
    SameReady(s, st, PlanNode);
    SameReady(s, st, FiguresNode);
    SameReady(s, st, AuditNode);
    SameReady(s, st, ReviewNode);
    SameReady(s, st, SignatureNode);
    assert AuditNode.deps[0] == Q && ReviewNode.deps[0] == P && ReviewNode.deps[1] == Q && SignatureNode.deps[0] == P;
  }

  lemma ForkReturns(s: State, st: map<Id, Status>, k: nat, x: Id, res: Result)
    requires View(s, st) && k < 5 && x == ForkDag()[k].id && (x == G || x == H ==> res.reopen == [P])
    ensures View(Complete(s, x, res), st[x := Outcome(ForkDag()[k], res)])
    ensures Complete(s, x, res) == s.(status := Complete(s, x, res).status, outputs := Complete(s, x, res).outputs)
  {
    hide ValidTemplate, Complete, Outcome, ForkDag;
    ForkIsValid(s.dag);
    ForkIsUnique(s.dag);
    OutcomeRests(s.dag[k], res);
    forall y
      ensures StatusOf(Complete(s, x, res).status, y) == StatusOf(st[x := Outcome(s.dag[k], res)], y)
    {
      CompleteView(s, k, res, y);
    }
    CompleteView(s, k, res, x);
  }

  /** Dispatch: nothing has failed, or the audit has, and must stop, since it picked what it may not send back. */
  lemma ForkDispatch(s: State, st: map<Id, Status>)
    requires View(s, st) && forall x :: StatusOf(st, x) == Failed ==> x == G
    ensures View(Dispatch(s), if StatusOf(st, G) == Failed then st[G := Blocked] else st)
    ensures Dispatch(s).unblocks == s.unblocks
  {
    hide Dispatch, ForkDag;
    DispatchFrame(s);
    if StatusOf(st, G) != Failed {
      QuietDispatch(s);
    } else {
      AuditHalts(s, st);
      forall x
        ensures StatusOf(Dispatch(s).status, x) == StatusOf(st[G := Blocked], x)
        ensures AttemptOf(Dispatch(s), x) == AttemptOf(s, x) && CountOf(Dispatch(s).counts, x) == CountOf(s.counts, x)
      {
        HaltDispatch(s, 2, x);
      }
    }
  }

  lemma AuditHalts(s: State, st: map<Id, Status>)
    requires View(s, st) && StatusOf(st, G) == Failed && forall x :: StatusOf(st, x) == Failed ==> x == G
    ensures OnlyFailed(s, 2) && UniqueIds(s.dag) && s.dag[2].id == G && Rule(s, s.dag[2]).Halts?
  {
    hide Ancestors, Downstream, Acyclic, UniqueIds, DepsClosed, ForkDag, Ids, NetAmount, Keep;
    ForkIsUnique(s.dag);
    ForkReach(s.dag);
    NothingKept(Ancestors(s.dag, G));
    assert ReopenTargets(AuditNode, s.outputs) == [P];
  }

  lemma NothingKept(legal: set<Id>)
    requires legal == {Q}
    ensures Keep([P], legal) == []
  {
    assert [P][..0] == [];
  }

  // ---------- its moves ----------

  datatype Scene = Scene(st: map<Id, Status>, step: set<Id>, ints: map<nat, Id>, ids: nat, open: bool, cards: set<Id>,
                         log: seq<Grant>)

  ghost predicate Shows(v: Svc, sc: Scene) {
    && View(v.run.s, sc.st) && LogOf(v.run.s.unblocks, G) == sc.log
    && v.run.step == sc.step && v.run.ints == sc.ints && |v.run.issued| == sc.ids && (v.bridge.Some? <==> sc.open)
    && forall x :: Key(x, 0, CardKind) in v.idem <==> x in sc.cards
  }

  function Launched(sc: Scene, open: bool): Scene {
    var st := if StatusOf(sc.st, G) == Failed then sc.st[G := Blocked] else sc.st;
    sc.(st := st, step := ForkStep(st), ints := map[], open := open)
  }

  lemma LaunchShows(v: Svc, s1: State, sc: Scene, b: Option<map<nat, Id>>)
    requires Shows(v.(run := v.run.(s := s1)), sc) && forall x :: StatusOf(sc.st, x) == Failed ==> x == G
    ensures Shows(v.(run := Launch(v.run, Dispatch(s1)), bridge := b), Launched(sc, b.Some?))
  {
    hide Dispatch, View, ForkDag;
    ForkDispatch(s1, sc.st);
    ForkReady(Dispatch(s1), Launched(sc, b.Some?).st);
  }

  lemma SceneOpen(v: Svc, sc: Scene)
    requires Shows(v, sc)
    ensures v.bridge.Some? <==> sc.open
  {
    hide View;
  }

  lemma NotBusy(v: Svc, sc: Scene)
    requires Shows(v, sc) && forall x :: x in sc.step ==> StatusOf(sc.st, x) != Pending
    ensures !Busy(v.run)
  {
    hide ForkDag;
  }

  lemma Lifts(vs: seq<Svc>, acts: seq<Action>, v: Svc, sc: Scene) returns (v': Svc)
    requires Tells(ForkDag(), vs, acts, v) && Shows(v, sc) && !Busy(v.run)
    requires forall x :: StatusOf(sc.st, x) == Failed ==> x == G
    ensures Tells(ForkDag(), vs + [v'], acts + [BarrierLifts], v') && Shows(v', Launched(sc, sc.open))
  {
    hide Tells, Shows, Dispatch, ReadyIds, Busy, ForkDag;
    LaunchShows(v, v.run.s, sc, v.bridge);
    v' := v.(run := Launch(v.run, Dispatch(v.run.s)));
    assert v.(run := v.run.(s := v.run.s)) == v && v' == v.(run := v'.run, bridge := v.bridge);
    SceneOpen(v, sc);
    Tell(ForkDag(), vs, acts, v, BarrierLifts, v');
  }

  lemma Returns(vs: seq<Svc>, acts: seq<Action>, v: Svc, sc: Scene, k: nat, x: Id, res: Result) returns (v': Svc)
    requires Tells(ForkDag(), vs, acts, v) && Shows(v, sc) && k < 3 && x == ForkDag()[k].id
    requires x in sc.step && StatusOf(sc.st, x) == Pending && (x == G ==> res.reopen == [P])
    ensures Tells(ForkDag(), vs + [v'], acts + [WorkerReturns(x, res)], v')
    ensures Shows(v', sc.(st := sc.st[x := Outcome(ForkDag()[k], res)]))
  {
    hide Tells, Complete, IsHuman, KindOf, Outcome;
    ForkKinds(v.run.s);
    ForkReturns(v.run.s, sc.st, k, x, res);
    v' := v.(run := v.run.(s := Complete(v.run.s, x, res)));
    Tell(ForkDag(), vs, acts, v, WorkerReturns(x, res), v');
  }

  lemma Asks(vs: seq<Svc>, acts: seq<Action>, v: Svc, sc: Scene, x: Id) returns (v': Svc)
    requires Tells(ForkDag(), vs, acts, v) && Shows(v, sc) && (x == H || x == W)
    requires x in sc.step && StatusOf(sc.st, x) == Pending && x !in sc.ints.Values
    ensures Tells(ForkDag(), vs + [v'], acts + [PersonAsked(x)], v')
    ensures Shows(v', sc.(ints := sc.ints[sc.ids := x], ids := sc.ids + 1))
  {
    hide Tells, ForkDag, IsHuman, KindOf;
    ForkKinds(v.run.s);
    v' := v.(run := Asked(v.run, x));
    Tell(ForkDag(), vs, acts, v, PersonAsked(x), v');
  }

  /** The signer's first card; it leads to him. */
  lemma SendsCard(vs: seq<Svc>, acts: seq<Action>, v: Svc, sc: Scene, i: nat) returns (v': Svc)
    requires Tells(ForkDag(), vs, acts, v) && Shows(v, sc) && !sc.open && StatusOf(sc.st, W) == Pending
    requires i in sc.ints && sc.ints[i] == W && W !in sc.cards
    ensures Tells(ForkDag(), vs + [v'], acts + [Provisions(i)], v')
    ensures Shows(v', sc.(cards := sc.cards + {W})) && Routed(v', i)
  {
    hide Tells, ForkDag, IsHuman, Inv, Served, Routed, KindOf, View;
    ToldInv(ForkDag(), vs, acts, v);
    SignerKey(v.run.s, sc);
    ProvisionRoutes(v, i);
    v' := Provisioned(v, i);
    Tell(ForkDag(), vs, acts, v, Provisions(i), v');
  }

  lemma SignerKey(s: State, sc: Scene)
    requires View(s, sc.st)
    ensures KindOf(s, W) == Some(CardKind) && KeyOf(s, W) == Key(W, 0, CardKind)
    ensures StatusOf(s.status, W) == StatusOf(sc.st, W)
  {
    hide ForkDag, IsHuman, KindOf;
    ForkKinds(s);
  }

  /** The reviewer sends the plan back; nothing is dispatched while the signer holds the barrier. */
  lemma Reviews(vs: seq<Svc>, acts: seq<Action>, v: Svc, sc: Scene, i: nat) returns (v': Svc)
    requires Tells(ForkDag(), vs, acts, v) && Shows(v, sc) && !sc.open && StatusOf(sc.st, H) == Pending
    requires i in sc.ints && sc.ints[i] == H
    ensures Tells(ForkDag(), vs + [v'], acts + [PersonAnswers(i, Pick)], v')
    ensures Shows(v', sc.(st := sc.st[H := Failed])) && v' == v.(run := v.run.(s := v'.run.s))
    ensures v'.run.s.dag == v.run.s.dag && v'.run.s.attempts == v.run.s.attempts
  {
    hide Tells, Complete;
    ForkReturns(v.run.s, sc.st, 3, H, Pick);
    v' := v.(run := v.run.(s := Complete(v.run.s, H, Pick)));
    Tell(ForkDag(), vs, acts, v, PersonAnswers(i, Pick), v');
  }

  lemma Begins(vs: seq<Svc>, acts: seq<Action>, v: Svc, sc: Scene, u: Update, mid: Scene) returns (v': Svc)
    requires Tells(ForkDag(), vs, acts, v) && Shows(v, sc) && !sc.open && CanUpdate(v.run, u)
    requires Shows(v.(run := v.run.(s := Updated(v.run.s, u))), mid) && forall x :: StatusOf(mid.st, x) == Failed ==>
      x == G
    ensures Tells(ForkDag(), vs + [v'], acts + [WriteBegins(u)], v') && Shows(v', Launched(mid, true))
  {
    hide Tells, Shows, ForkDag, Dispatch, Updated, CanUpdate, ReadyIds, Survivors;
    SceneOpen(v, sc);
    LaunchShows(v, Updated(v.run.s, u), mid, Some(Survivors(v.run, u)));
    v' := v.(run := Launch(v.run, Dispatch(Updated(v.run.s, u))), bridge := Some(Survivors(v.run, u)));
    Tell(ForkDag(), vs, acts, v, WriteBegins(u), v');
  }

  lemma Ends(vs: seq<Svc>, acts: seq<Action>, v: Svc, sc: Scene) returns (v': Svc)
    requires Tells(ForkDag(), vs, acts, v) && Shows(v, sc) && sc.open
    requires forall x :: x in sc.step && StatusOf(sc.st, x) == Pending ==> (x == H || x == W) && x in sc.ints.Values
    ensures Tells(ForkDag(), vs + [v'], acts + [WriteEnds], v') && Shows(v', sc.(open := false))
  {
    hide Tells, ForkDag, IsHuman, KindOf, Carried;
    ForkKinds(v.run.s);
    assert Waits(v.run);
    v' := v.(bridge := None, remap := v.remap + Carried(v.bridge.value, v.run.ints));
    Tell(ForkDag(), vs, acts, v, WriteEnds, v');
  }

  // ---------- what happens to the signer ----------

  lemma Opening() returns (vs: seq<Svc>, acts: seq<Action>, v: Svc)
    ensures Tells(ForkDag(), vs, acts, v)
    ensures Shows(v, Scene(map[P := Done, Q := Done, G := Failed], {G, H, W}, map[0 := H, 1 := W], 2, false, {}, []))
  {
    hide Tells, Shows, Busy, ValidTemplate, Started;
    ForkIsValid(ForkDag());
    StartShows();
    v := Started(ForkDag());
    vs, acts := [v], [];
    Begun(vs, acts);
    var s0 := Scene(map[], {}, map[], 0, false, {}, []);
    NotBusy(v, s0);
    var v1 := Lifts(vs, acts, v, s0);
    vs, acts := vs + [v1], acts + [BarrierLifts];
    var s1 := Launched(s0, false);
    var v2 := Returns(vs, acts, v1, s1, 0, P, Pass);
    vs, acts := vs + [v2], acts + [WorkerReturns(P, Pass)];
    var s2 := s1.(st := map[P := Done]);
    var v3 := Returns(vs, acts, v2, s2, 1, Q, Pass);
    vs, acts := vs + [v3], acts + [WorkerReturns(Q, Pass)];
    var s3 := s2.(st := map[P := Done, Q := Done]);
    NotBusy(v3, s3);
    var v4 := Lifts(vs, acts, v3, s3);
    vs, acts := vs + [v4], acts + [BarrierLifts];
    var s4 := Launched(s3, false);
    assert s4.step == {G, H, W};
    var v5 := Returns(vs, acts, v4, s4, 2, G, Pick);
    vs, acts := vs + [v5], acts + [WorkerReturns(G, Pick)];
    var s5 := s4.(st := map[P := Done, Q := Done, G := Failed]);
    var v6 := Asks(vs, acts, v5, s5, H);
    vs, acts := vs + [v6], acts + [PersonAsked(H)];
    var s6 := s5.(ints := map[0 := H], ids := 1);
    v := Asks(vs, acts, v6, s6, W);
    vs, acts := vs + [v], acts + [PersonAsked(W)];
    assert s6.ints[1 := W] == map[0 := H, 1 := W];
  }

  lemma StartShows()
    ensures Shows(Started(ForkDag()), Scene(map[], {}, map[], 0, false, {}, []))
  {
    hide ForkDag;
  }

  lemma Begun(vs: seq<Svc>, acts: seq<Action>)
    requires ValidTemplate(ForkDag()) && vs == [Started(ForkDag())] && acts == []
    ensures Tells(ForkDag(), vs, acts, Started(ForkDag()))
  {
    hide ValidTemplate, Started;
  }

  const Held := Scene(map[P := Done, Q := Done, G := Blocked, H := Failed], {H, W}, map[2 := H, 3 := W], 4,
      false, {W}, [])

  /** The audit has stopped, the review has just sent the plan back, and the signer's card is out. */
  lemma Review() returns (vs: seq<Svc>, acts: seq<Action>, v: Svc)
    ensures Tells(ForkDag(), vs, acts, v) && Shows(v, Held)
    ensures Routed(v, 3)
  {
    hide Tells, Shows, Routed, ForkDag;
    var v0;
    vs, acts, v0 := Opening();
    var s0 := Scene(map[P := Done, Q := Done, G := Failed], {G, H, W}, map[0 := H, 1 := W], 2, false, {}, []);
    assert v0.(run := v0.run.(s := Updated(v0.run.s, Touch))) == v0;
    var v1 := Begins(vs, acts, v0, s0, Touch, s0);
    vs, acts := vs + [v1], acts + [WriteBegins(Touch)];
    var s1 := Launched(s0, true);
    assert s1.st == map[P := Done, Q := Done, G := Blocked] && s1.step == {H, W};
    var v2 := Asks(vs, acts, v1, s1, H);
    vs, acts := vs + [v2], acts + [PersonAsked(H)];
    var s2 := s1.(ints := map[2 := H], ids := 3);
    var v3 := Asks(vs, acts, v2, s2, W);
    vs, acts := vs + [v3], acts + [PersonAsked(W)];
    var s3 := s2.(ints := map[2 := H, 3 := W], ids := 4);
    assert s2.ints[3 := W] == s3.ints && s3.ints[2] == H && s3.ints[3] == W;
    var v4 := Ends(vs, acts, v3, s3);
    vs, acts := vs + [v4], acts + [WriteEnds];
    var s4 := s3.(open := false);
    var v5 := SendsCard(vs, acts, v4, s4, 3);
    vs, acts := vs + [v5], acts + [Provisions(3)];
    assert {} + {W} == {W};
    var s5 := s4.(cards := {W});
    v := Reviews(vs, acts, v5, s5, 2);
    vs, acts := vs + [v], acts + [PersonAnswers(2, Pick)];
    assert s5.st[H := Failed] == Held.st;
    StaysRouted(v5, v, 3);
  }

  lemma StaysRouted(v: Svc, v': Svc, i: nat)
    requires Routed(v, i) && v' == v.(run := v.run.(s := v'.run.s))
    requires v'.run.s.dag == v.run.s.dag && v'.run.s.attempts == v.run.s.attempts
    ensures Routed(v', i)
  {
    hide Leads;
  }

  /** What the unblock of the audit, with the figures sent back, pulls: the figures, the audit and the review. */
  lemma Pulled(dag: Dag)
    requires dag == ForkDag()
    ensures {G} + Pull(dag, G, [Q]) == {Q, G, H} && W in Pull(dag, H, [P])
  {
    hide ForkDag, Ancestors, Downstream, Acyclic, UniqueIds, DepsClosed, Pull, Ids;
    ForkIsUnique(dag);
    ForkReach(dag);
    DownstreamInDag(dag, Q);
    ReachabilityDuality(dag, Q, G);
    assert P in [P] && Q in [Q];
    forall x
      ensures x in {G} + Pull(dag, G, [Q]) <==> x in {Q, G, H}
    {
    }
  }

  /** Only the review would send the signer's work back, the unblock pulls the review back, and not the signer. */
  lemma LiftMispredicts(s: State)
    requires View(s, Held.st)
    ensures Mispredicted(s, Lift(G, [Q], 1), W)
  {
    hide ForkDag, Pull, Rule, UniqueIds, DepsClosed, Ids, View, SentBackBy;
    HeldStatus(s);
    Pulled(s.dag);
    ReviewSendsBack(s);
    forall k | 0 <= k < |s.dag| && SentBackBy(s, k, W)
      ensures s.dag[k].id in UnblockResets(s.dag, G, [Q])
    {
      OnlyReviewSends(s, k);
    }
  }

  lemma ReviewSendsBack(s: State)
    requires View(s, Held.st)
    ensures 3 < |s.dag| && SentBackBy(s, 3, W)
  {
    hide ForkDag, Pull, Rule, UniqueIds, DepsClosed, Ids, View;
    HeldStatus(s);
    ForkIsUnique(s.dag);
    Pulled(s.dag);
    ReviewSends(s);
  }

  lemma OnlyReviewSends(s: State, k: nat)
    requires View(s, Held.st) && k < |s.dag| && SentBackBy(s, k, W)
    ensures s.dag[k].id == H
  {
    hide ForkDag, Pull, Rule, View;
    HeldStatus(s);
    SenderFailed(s, k);
  }

  lemma HeldStatus(s: State)
    requires View(s, Held.st)
    ensures s.dag == ForkDag() && forall x :: StatusOf(s.status, x) == Failed ==> x == H
  {
    hide ForkDag;
  }

  lemma SenderFailed(s: State, k: nat)
    requires k < |s.dag| && Rule(s, s.dag[k]).Sends?
    ensures StatusOf(s.status, s.dag[k].id) == Failed
  {
    hide Keep, Ancestors;
  }

  lemma ReviewSends(s: State)
    requires View(s, Held.st)
    ensures s.dag[3] == ReviewNode && Rule(s, ReviewNode) == Sends([P])
  {
    hide Ancestors, Downstream, Acyclic, UniqueIds, DepsClosed, ForkDag, Ids, Keep;
    ForkIsUnique(s.dag);
    ForkReach(s.dag);
    KeepAll([P], Ancestors(s.dag, H));
    assert ReopenTargets(ReviewNode, s.outputs) == [P];
  }

  lemma CanLift(v: Svc, sc: Scene)
    requires Shows(v, sc) && sc.st == Held.st && sc.log == []
    ensures CanUpdate(v.run, Lift(G, [Q], 1))
  {
    hide Ancestors, Downstream, Acyclic, UniqueIds, DepsClosed, ForkDag;
    ForkIsUnique(v.run.s.dag);
    ForkReach(v.run.s.dag);
  }

  lemma LiftShows(v: Svc)
    requires Shows(v, Held)
    ensures Shows(v.(run := v.run.(s := Updated(v.run.s, Lift(G, [Q], 1)))),
        Held.(st := map[P := Done], log := [Grant(1, false)]))
  {
    hide ForkDag, Thaw;
    LiftView(v.run.s);
  }

  lemma LiftView(s: State)
    requires View(s, Held.st) && LogOf(s.unblocks, G) == []
    ensures var s' := Thaw(s, G, [Q], 1); View(s', map[P := Done]) && LogOf(s'.unblocks, G) == [Grant(1, false)]
  {
    hide ForkDag, Pull, Thaw;
    Pulled(s.dag);
    forall x
      ensures StatusOf(Thaw(s, G, [Q], 1).status, x) == StatusOf(map[P := Done], x)
    {
      ThawAt(s, G, [Q], 1, x);
    }
    ThawAt(s, G, [Q], 1, W);
    assert [] + [Grant(ClampGrant(1), false)] == [Grant(1, false)];
  }

  /** The audit is unblocked and sends the figures back; nothing crashes, the signer keeps his round, and his card leads
      nowhere. */
  lemma UnblockLosesCard() returns (vs: seq<Svc>, acts: seq<Action>, m: nat, i: nat)
    ensures IsHistory(vs, acts) && vs[0] == Started(ForkDag()) && ValidTemplate(ForkDag()) && m + 4 == |acts|
    ensures acts[m] == WriteBegins(Lift(G, [Q], 1)) && acts[m + 3].WriteEnds? && IsWrite(acts, m, m + 3)
    ensures Routed(vs[m], i) && LeftBehind(vs, m, m + 3, i)
  {
    hide Shows, ForkDag, Routed, ValidTemplate, Started, IsHistory, LeftBehind, Tells, Updated, Mispredicted, CanUpdate;
    var v0;
    vs, acts, v0 := Review();
    m, i := |acts|, 3;
    Told(vs, acts, v0);
    ForkIsUnique(ForkDag());
    LiftShows(v0);
    CanLift(v0, Held);
    var mid := Held.(st := map[P := Done], log := [Grant(1, false)]);
    var v1 := Begins(vs, acts, v0, Held, Lift(G, [Q], 1), mid);
    vs, acts := vs + [v1], acts + [WriteBegins(Lift(G, [Q], 1))];
    var s1 := Launched(mid, true);
    assert s1.step == {Q, W};
    var v2 := Returns(vs, acts, v1, s1, 1, Q, Pass);
    vs, acts := vs + [v2], acts + [WorkerReturns(Q, Pass)];
    var s2 := s1.(st := map[P := Done, Q := Done]);
    var v3 := Asks(vs, acts, v2, s2, W);
    vs, acts := vs + [v3], acts + [PersonAsked(W)];
    var s3 := s2.(ints := map[4 := W], ids := 5);
    assert s2.ints[4 := W] == s3.ints && s3.ints[4] == W;
    var v4 := Ends(vs, acts, v3, s3);
    vs, acts := vs + [v4], acts + [WriteEnds];
    Told(vs, acts, v4);
    SameSigner(v0, Held, v4, s3.(open := false));
    Leaves(vs, acts, v0, v4, m, i);
  }

  lemma Told(vs: seq<Svc>, acts: seq<Action>, v: Svc)
    requires Tells(ForkDag(), vs, acts, v)
    ensures IsHistory(vs, acts) && vs[0] == Started(ForkDag()) && ValidTemplate(ForkDag()) && |vs| == |acts| + 1
    ensures vs[|acts|] == v
  {
    hide IsHistory, ValidTemplate, Started;
  }

  lemma SameSigner(v: Svc, sc: Scene, v': Svc, sc': Scene)
    requires Shows(v, sc) && Shows(v', sc')
    ensures AttemptOf(v.run.s, W) == AttemptOf(v'.run.s, W)
  {
    hide ForkDag;
  }

  lemma Leaves(vs: seq<Svc>, acts: seq<Action>, v: Svc, v': Svc, m: nat, i: nat)
    requires Tells(ForkDag(), vs, acts, v') && IsWrite(acts, m, m + 3) && m + 4 == |acts|
    requires vs[m] == v && Shows(v, Held) && i == 3 && acts[m] == WriteBegins(Lift(G, [Q], 1))
    requires AttemptOf(v.run.s, W) == AttemptOf(v'.run.s, W)
    ensures LeftBehind(vs, m, m + 3, i)
  {
    hide ForkDag, Inv, IsHistory, ValidTemplate, Started, Mispredicted;
    ToldInv(ForkDag(), vs, acts, v');
    LiftMispredicts(v.run.s);
    WhoIsLeftBehind(vs, acts, m, m + 3, i);
  }
}
