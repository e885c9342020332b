/** A family of instances on which the driver's estimate of pump rounds is too small: a chain of automatic steps and a
    check that keeps failing, beside a person who keeps waiting. Every push is then one step, and every send-back
    costs as many pushes as the chain is long, while the estimate allows two. */
module Overrun {
  import opened Graph
  import opened Template
  import opened State
  import opened Gates
  import opened Engine
  import opened Termination
  import opened Permissions
  import opened Driver
  import opened Rounds
  import opened Safety
  import opened Progress
  import opened Stories
  import Service

  // ---------- the family ----------

  const Audit := Name("audit")
  const Desk := Name("desk")

  function Link(i: nat): (x: Id)
    ensures |x.text| == i + 1 && x.text[0] == 'c'
  {
    Name(seq(i + 1, _ => 'c'))
  }

  function LinkNode(i: nat): Node {
    Node(Link(i), if i == 0 then [] else [Link(i - 1)], Tool, Produce, None, None, None, None, None, false)
  }

  function AuditNode(l: nat, b: nat): Node
    requires l >= 1
  {
    Node(Audit, [Link(0), Link(l - 1)], Tool, Gate, Some(Auto), Some(b), None, None, None, false)
  }

  const DeskNode := Node(Desk, [], Human, Produce, None, None, Some(CardAction), Some("owner"), None, false)

  /** A chain of l automatic steps, a check behind it that may send all of it back b times, and a person at a desk. */
  function ChainDag(l: nat, b: nat): Dag
    requires l >= 1
  {
    seq(l, i requires 0 <= i => LinkNode(i)) + [AuditNode(l, b), DeskNode]
  }

  lemma ChainNodes(dag: Dag, l: nat, b: nat)
    requires l >= 1 && dag == ChainDag(l, b)
    ensures |dag| == l + 2 && dag[l] == AuditNode(l, b) && dag[l + 1] == DeskNode
    ensures forall i :: 0 <= i < l ==> dag[i] == LinkNode(i)
  {
  }

  lemma ChainIsUnique(dag: Dag, l: nat, b: nat)
    requires l >= 1 && dag == ChainDag(l, b)
    ensures UniqueIds(dag)
  {
    ChainNodes(dag, l, b);
    hide ChainDag, Link;
    assert Audit.text[0] == 'a' && Desk.text[0] == 'd';
    forall i, j | 0 <= i < j < |dag|
      ensures dag[i].id != dag[j].id
    {
      assert i < l ==> dag[i].id == Link(i);
      assert j < l ==> dag[j].id == Link(j);
    }
  }

  /** Dependencies that only point backwards close no cycle. */
  lemma OrderedIsAcyclic(dag: Dag)
    requires UniqueIds(dag)
    requires forall i, d :: 0 <= i < |dag| && d in dag[i].deps ==> exists j :: 0 <= j < i && dag[j].id == d
    ensures DepsClosed(dag) && Acyclic(dag)
  {
    forall x
      ensures x !in Ancestors(dag, x)
    {
      if x in DepMap(dag) {
        DepMapKeys(dag, x);
        var k :| 0 <= k < |dag| && dag[k].id == x;
        var before := set j | 0 <= j < k :: dag[j].id;
        DepMapAt(dag, k);
        forall i, d | 0 <= i < |dag| && dag[i].id in before && d in dag[i].deps
          ensures d in before
        {
          var j :| 0 <= j < k && dag[j].id == dag[i].id;
          assert i == j by { if i < j {} else if j < i {} }
        }
        AncestorsWithin(dag, x, before);
      } else {
        AncestorsWithin(dag, x, {});
      }
    }
  }

  lemma ChainIsOrdered(dag: Dag, l: nat, b: nat)
    requires l >= 1 && dag == ChainDag(l, b)
    ensures UniqueIds(dag) && DepsClosed(dag) && Acyclic(dag)
  {
    ChainNodes(dag, l, b);
    ChainIsUnique(dag, l, b);
    hide ChainDag, Link, UniqueIds, Acyclic, DepsClosed;
    forall i, d | 0 <= i < |dag| && d in dag[i].deps
      ensures exists j :: 0 <= j < i && dag[j].id == d
    {
      var j := if i < l then i - 1 else if d == Link(0) then 0 else l - 1;
      assert dag[j].id == Link(j);
    }
    OrderedIsAcyclic(dag);
  }

  lemma ChainIsValid(dag: Dag, l: nat, b: nat)
    requires l >= 1 && dag == ChainDag(l, b)
    ensures ValidTemplate(dag)
  {
    ChainNodes(dag, l, b);
    ChainIsOrdered(dag, l, b);
    hide ChainDag, Link, UniqueIds, Acyclic, DepsClosed, Ancestors;
    assert dag[l].deps[0] == Link(0);
    DepIsAncestor(dag, l, Link(0));
  }

  /** What the check sends back is the whole chain and itself, and nothing of the person's. */
  lemma ChainPulled(dag: Dag, l: nat, b: nat)
    requires l >= 1 && dag == ChainDag(l, b)
    ensures var ts := [Link(0), Link(l - 1)];
            && (forall t :: t in ts ==> t in Ancestors(dag, Audit))
            && Audit in Pull(dag, Audit, ts) && Desk !in Pull(dag, Audit, ts)
            && forall i: nat :: i < l ==> Link(i) in Pull(dag, Audit, ts)
  {
    ChainNodes(dag, l, b);
    ChainIsUnique(dag, l, b);
    hide ChainDag, UniqueIds, Ancestors, Downstream, Pull, Link;
    var ts := [Link(0), Link(l - 1)];
    assert ts[0] in ts;
    assert dag[l].deps[0] == Link(0) && dag[l].deps[1] == Link(l - 1);
    DepIsAncestor(dag, l, Link(0));
    DepIsAncestor(dag, l, Link(l - 1));
    forall i: nat | i < l
      ensures Link(i) in Pull(dag, Audit, ts)
    {
      LinkBelow(dag, l, b, i);
    }
    NothingAboveDesk(dag, l, b);
    forall t | t in ts
      ensures t != Desk && Desk !in Downstream(dag, t)
    {
      ReachabilityDuality(dag, t, Desk);
    }
  }

  lemma NothingAboveDesk(dag: Dag, l: nat, b: nat)
    requires l >= 1 && dag == ChainDag(l, b)
    ensures Ancestors(dag, Desk) == {}
  {
    ChainNodes(dag, l, b);
    ChainIsUnique(dag, l, b);
    hide ChainDag, UniqueIds, Ancestors;
    DepMapAt(dag, l + 1);
    AncestorsWithin(dag, Desk, {});
  }

  lemma {:induction false} LinkBelow(dag: Dag, l: nat, b: nat, i: nat)
    requires l >= 1 && dag == ChainDag(l, b) && i < l
    ensures i > 0 ==> Link(i) in Downstream(dag, Link(0))
  {
    if i > 0 {
      LinkBelow(dag, l, b, i - 1);
      ChainNodes(dag, l, b);
      ChainIsUnique(dag, l, b);
      hide ChainDag, UniqueIds, Downstream, Link;
      assert dag[i].deps == [Link(i - 1)] && dag[i].deps[0] == Link(i - 1);
      DownstreamClosed(dag, Link(0), i, Link(i - 1));
    }
  }

  // ---------- its states ----------

  /** p links are done, the check has this status and has sent back n times, and the person at the desk is waiting. */
  ghost predicate View(s: State, l: nat, b: nat, p: nat, g: Status, n: nat)
    requires l >= 1
  {
    && s.dag == ChainDag(l, b) && p <= l
    && (forall i: nat :: i < l ==> StatusOf(s.status, Link(i)) == if i < p then Done else Pending)
    && StatusOf(s.status, Audit) == g && StatusOf(s.status, Desk) == Pending
    && (forall x :: StatusOf(s.status, x) == Failed ==> x == Audit)
    && CountOf(s.counts, Audit) == n && s.unblocks == map[]
    && (Audit in s.outputs ==> s.outputs[Audit].reopen == [])
  }

  /** What runs next once p links are done: the next link, or the check. */
  function Current(l: nat, p: nat): Id {
    if p < l then Link(p) else Audit
  }

  lemma FreshView(l: nat, b: nat)
    requires l >= 1
    ensures View(Fresh(ChainDag(l, b)), l, b, 0, Pending, 0)
  {
    hide ChainDag;
  }

  lemma ReadyByDone(status: map<Id, Status>, n: Node)
    ensures IsReady(status, n) <==>
      (StatusOf(status, n.id) == Pending && forall d :: d in n.deps ==> StatusOf(status, d) == Done)
  {
    if forall d :: d in n.deps ==> StatusOf(status, d) == Done {
      forall i | 0 <= i < |n.deps|
        ensures n.deps[i] in status && status[n.deps[i]] == Done
      {
        assert StatusOf(status, n.deps[i]) == Done;
      }
    }
  }

  lemma ReadyAt(s: State, l: nat, b: nat, p: nat, n: nat, k: nat)
    requires l >= 1 && View(s, l, b, p, Pending, n) && k < l + 2 && |s.dag| == l + 2
    ensures IsReady(s.status, s.dag[k]) <==> k == p || k == l + 1
  {
    ChainNodes(s.dag, l, b);
    hide ChainDag, Link, IsReady;
    ReadyByDone(s.status, s.dag[k]);
    assert k < l ==> s.dag[k].id == Link(k) && (k > 0 ==> s.dag[k].deps == [Link(k - 1)]);
    assert k == l ==> s.dag[k].deps == [Link(0), Link(l - 1)];
  }

  lemma ChainReady(s: State, l: nat, b: nat, p: nat, n: nat)
    requires l >= 1 && View(s, l, b, p, Pending, n)
    ensures ReadyIds(s) == {Current(l, p), Desk}
  {
    ChainNodes(s.dag, l, b);
    hide ChainDag, Link, IsReady, View;
    forall k | 0 <= k < |s.dag|
      ensures IsReady(s.status, s.dag[k]) <==> k == p || k == l + 1
    {
      ReadyAt(s, l, b, p, n, k);
    }
    assert p <= l by { ViewBound(s, l, b, p, Pending, n); }
    assert s.dag[p].id == Current(l, p) && s.dag[l + 1].id == Desk;
  }

  lemma ViewBound(s: State, l: nat, b: nat, p: nat, g: Status, n: nat)
    requires l >= 1 && View(s, l, b, p, g, n)
    ensures p <= l && s.dag == ChainDag(l, b)
    ensures StatusOf(s.status, Current(l, p)) == if p < l then Pending else g
    ensures StatusOf(s.status, Desk) == Pending && CountOf(s.counts, Audit) == n && s.unblocks == map[]
  {
    hide ChainDag, Link;
  }

  lemma AuditAlone(s: State, l: nat, b: nat, n: nat)
    requires l >= 1 && View(s, l, b, l, Failed, n)
    ensures s.dag == ChainDag(l, b) && forall x :: StatusOf(s.status, x) == Failed <==> x == Audit
    ensures CountOf(s.counts, Audit) == n && s.unblocks == map[]
    ensures Audit in s.outputs ==> s.outputs[Audit].reopen == []
  {
    hide ChainDag, Link;
  }

  lemma AuditBudget(l: nat, b: nat)
    requires l >= 1
    ensures EffectiveBudget(AuditNode(l, b), map[]) == if b >= 1 then b else 1
  {
    hide Link;
  }

  lemma AuditRule(s: State, l: nat, b: nat, n: nat)
    requires l >= 1 && View(s, l, b, l, Failed, n) && n < b
    ensures UniqueIds(s.dag) && OnlyFailed(s, l) && s.dag[l].id == Audit
    ensures Rule(s, s.dag[l]) == Sends([Link(0), Link(l - 1)])
  {
    hide ChainDag, Link, UniqueIds, Ancestors, Keep, Pull, View, EffectiveBudget, NetAmount;
    AuditAlone(s, l, b, n);
    AuditBudget(l, b);
    ChainNodes(s.dag, l, b);
    ChainIsUnique(s.dag, l, b);
    ChainPulled(s.dag, l, b);
    KeepAll([Link(0), Link(l - 1)], Ancestors(s.dag, Audit));
    assert ReopenTargets(s.dag[l], s.outputs) == [Link(0), Link(l - 1)];
  }

  /** Dispatch has nothing to do, or sends the whole chain back. */
  lemma ChainDispatch(s: State, l: nat, b: nat, p: nat, g: Status, n: nat)
    requires l >= 1 && View(s, l, b, p, g, n)
    ensures g != Failed ==> Dispatch(s) == s
    ensures g == Failed && p == l && n < b ==> View(Dispatch(s), l, b, 0, Pending, n + 1)
  {
    hide Dispatch, Pull, ChainDag, Link;
    DispatchFrame(s);
    if g != Failed {
      QuietDispatch(s);
    } else if p == l && n < b {
      AuditRule(s, l, b, n);
      ChainPulled(s.dag, l, b);
      forall x
        ensures StatusOf(Dispatch(s).status, x) == if x in Pull(s.dag, Audit, [Link(0), Link(l - 1)]) then Pending
            else StatusOf(s.status, x)
      {
        SendDispatch(s, l, x);
      }
      SendDispatch(s, l, Audit);
    }
  }

  const Fail := Result(false, [], None)

  lemma LinksDiffer()
    ensures forall i: nat, j: nat :: Link(i) == Link(j) ==> i == j
    ensures forall i: nat :: Link(i) != Audit && Link(i) != Desk
  {
    assert Audit.text[0] == 'a' && Desk.text[0] == 'd';
    forall i: nat, j: nat | Link(i) == Link(j)
      ensures i == j
    {
      assert |Link(i).text| == i + 1 && |Link(j).text| == j + 1;
    }
    hide Link;
  }

  lemma MovedView(s: State, s': State, l: nat, b: nat, p: nat, n: nat)
    requires l >= 1 && View(s, l, b, p, Pending, n)
    requires s' == s.(status := s'.status, outputs := s'.outputs)
    requires Audit in s'.outputs ==> s'.outputs[Audit].reopen == []
    requires forall y :: StatusOf(s'.status, y) ==
                         if y == Current(l, p) then (if p < l then Done else Failed) else StatusOf(s.status, y)
    ensures if p < l then View(s', l, b, p + 1, Pending, n) else View(s', l, b, l, Failed, n)
  {
    hide ChainDag, Link;
    LinksDiffer();
    assert Audit != Desk;
  }

  /** The next link returns, or the check does and has not passed. */
  lemma CurrentReturns(s: State, l: nat, b: nat, p: nat, n: nat)
    requires l >= 1 && View(s, l, b, p, Pending, n)
    ensures var s' := Complete(s, Current(l, p), if p < l then Pass else Fail);
            if p < l then View(s', l, b, p + 1, Pending, n) else View(s', l, b, l, Failed, n)
  {
    hide ChainDag, Link, ValidTemplate, Complete, View;
    ViewBound(s, l, b, p, Pending, n);
    ChainIsValid(s.dag, l, b);
    ChainNodes(s.dag, l, b);
    var res := if p < l then Pass else Fail;
    var s' := Complete(s, Current(l, p), res);
    assert s.dag[p].id == Current(l, p);
    forall y
      ensures StatusOf(s'.status, y) ==
              if y == Current(l, p) then (if p < l then Done else Failed) else StatusOf(s.status, y)
    {
      CompleteView(s, p, res, y);
    }
    CompleteView(s, p, res, Audit);
    OldPick(s, l, b, p, n);
    MovedView(s, s', l, b, p, n);
  }

  lemma OldPick(s: State, l: nat, b: nat, p: nat, n: nat)
    requires l >= 1 && View(s, l, b, p, Pending, n)
    ensures Audit in s.outputs ==> s.outputs[Audit].reopen == []
  {
    hide ChainDag, Link;
  }

  // ---------- one push ----------

  /** Between two pushes the person at the desk is asked, and nothing else is out. */
  ghost predicate Rests(v: Svc, l: nat, b: nat, p: nat, g: Status, n: nat)
    requires l >= 1
  {
    View(v.run.s, l, b, p, g, n) && v.bridge.None? && v.run.ints.Values == {Desk}
  }

  /** The check has failed, or has yet to run; and where the chain stands. */
  ghost predicate Underway(l: nat, b: nat, p: nat, g: Status, n: nat) {
    && 1 <= p <= l && (g == Pending || g == Failed) && (g == Failed ==> p == l && n < b)
  }

  /** How many steps it took to get there. */
  function Steps(l: nat, p: nat, g: Status, n: nat): nat {
    n * (l + 1) + p + if g == Failed then 1 else 0
  }

  lemma ChainKinds(s: State, l: nat, b: nat, p: nat)
    requires l >= 1 && s.dag == ChainDag(l, b) && p <= l
    ensures !IsHuman(s, Current(l, p)) && IsHuman(s, Desk) && KindOf(s, Desk) == Some(CardKind)
  {
    ChainNodes(s.dag, l, b);
    ChainIsUnique(s.dag, l, b);
    FindUnique(s.dag, p);
    FindUnique(s.dag, l + 1);
    hide ChainDag, Link, UniqueIds, Find;
    assert s.dag[p].id == Current(l, p);
  }

  /** Runs the launched super-step: the next link or the check returns, and the person is asked again. */
  lemma RunsOn(l: nat, b: nat, vs: seq<Svc>, acts: seq<Action>, v: Svc, p: nat, n: nat) returns (v1: Svc, v2: Svc)
    requires l >= 1 && Tells(ChainDag(l, b), vs, acts, v) && View(v.run.s, l, b, p, Pending, n)
    requires v.run.step == {Current(l, p), Desk} && v.run.ints == map[]
    ensures var res := if p < l then Pass else Fail;
            Tells(ChainDag(l, b), vs + [v1] + [v2],
                  acts + [WorkerReturns(Current(l, p), res)] + [PersonAsked(Desk)], v2)
    ensures if p < l then View(v2.run.s, l, b, p + 1, Pending, n) else View(v2.run.s, l, b, l, Failed, n)
    ensures v2.bridge == v.bridge && v2.run.ints.Values == {Desk} && v2.run.step == v.run.step
    ensures Waits(v2.run)
  {
    hide ChainDag, Link, View, Tells, Complete, IsHuman, KindOf;
    var dag, x, res := ChainDag(l, b), Current(l, p), if p < l then Pass else Fail;
    ViewBound(v.run.s, l, b, p, Pending, n);
    ChainKinds(v.run.s, l, b, p);
    CurrentReturns(v.run.s, l, b, p, n);
    v1 := v.(run := v.run.(s := Complete(v.run.s, x, res)));
    Tell(dag, vs, acts, v, WorkerReturns(x, res), v1);
    var p', g' := if p < l then p + 1 else l, if p < l then Pending else Failed;
    ViewBound(v1.run.s, l, b, p', g', n);
    ChainKinds(v1.run.s, l, b, p');
    v2 := v1.(run := Asked(v1.run, Desk));
    assert v2.run.ints == map[|v1.run.issued| := Desk] && v2.run.ints[|v1.run.issued|] == Desk;
    Tell(dag, vs + [v1], acts + [WorkerReturns(x, res)], v1, PersonAsked(Desk), v2);
    NotOut(v.run.s, v1.run.s, l, b, p, n);
  }

  lemma NotOut(s: State, s': State, l: nat, b: nat, p: nat, n: nat)
    requires l >= 1 && p <= l
    requires if p < l then View(s', l, b, p + 1, Pending, n) else View(s', l, b, l, Failed, n)
    ensures StatusOf(s'.status, Current(l, p)) != Pending && Current(l, p) != Desk
  {
    hide ChainDag, Link;
    LinksDiffer();
  }

  /** One push of the driver: dispatch, launch, run on to the person, who is carried over. */
  lemma Pushes(l: nat, b: nat, vs: seq<Svc>, acts: seq<Action>, v: Svc, p: nat, g: Status, n: nat)
    returns (vs': seq<Svc>, acts': seq<Action>, v': Svc, p': nat, g': Status, n': nat)
    requires l >= 1 && Tells(ChainDag(l, b), vs, acts, v) && Rests(v, l, b, p, g, n) && Underway(l, b, p, g, n)
    ensures Tells(ChainDag(l, b), vs', acts', v') && Rests(v', l, b, p', g', n') && vs <= vs'
    ensures 1 <= p' <= l && (g' == Pending || (g' == Failed && p' == l))
    ensures Steps(l, p', g', n') == Steps(l, p, g, n) + 1
    ensures |acts'| == |acts| + 4 && acts <= acts' && acts'[|acts|] == WriteBegins(Touch)
    ensures acts'[|acts| + 1].WorkerReturns? && acts'[|acts| + 2].PersonAsked? && acts'[|acts| + 3] == WriteEnds
    ensures Fingerprint(v.run.s) != Fingerprint(v'.run.s)
  {
    hide ChainDag, Link, View, Tells, Dispatch, ReadyIds, Survivors, Waits, Fingerprint, Steps, Carried;
    var dag := ChainDag(l, b);
    ChainDispatch(v.run.s, l, b, p, g, n);
    var p0, n0 := if g == Failed then 0 else p, if g == Failed then n + 1 else n;
    var s1 := Dispatch(v.run.s);
    ChainReady(s1, l, b, p0, n0);
    var v1 := v.(run := Launch(v.run, s1), bridge := Some(Survivors(v.run, Touch)));
    Tell(dag, vs, acts, v, WriteBegins(Touch), v1);
    var v2, v3 := RunsOn(l, b, vs + [v1], acts + [WriteBegins(Touch)], v1, p0, n0);
    p', g', n' := if p0 < l then p0 + 1 else l, if p0 < l then Pending else Failed, n0;
    var res := if p0 < l then Pass else Fail;
    acts' := acts + [WriteBegins(Touch)] + [WorkerReturns(Current(l, p0), res)] + [PersonAsked(Desk)];
    vs' := vs + [v1] + [v2] + [v3];
    v' := v3.(bridge := None, remap := v3.remap + Carried(v3.bridge.value, v3.run.ints));
    Tell(dag, vs', acts', v3, WriteEnds, v');
    vs', acts' := vs' + [v'], acts' + [WriteEnds];
    StepsUp(l, p, g, n, p', g', n');
    Moved(v.run.s, v'.run.s, l, b, p, g, n, p', g', n');
  }

  lemma StepsUp(l: nat, p: nat, g: Status, n: nat, p': nat, g': Status, n': nat)
    requires (g == Failed && p == l && p' == 1 && n' == n + 1) || (g == Pending && p < l && p' == p + 1 && n' == n)
             || (g == Pending && p == l && p' == l && n' == n)
    requires l >= 1 && (g == Pending || g == Failed) && (g == Pending && p == l ==> g' == Failed)
    requires g == Failed || p < l ==> g' == Pending
    ensures Steps(l, p', g', n') == Steps(l, p, g, n) + 1
  {
    assert (n + 1) * (l + 1) == n * (l + 1) + l + 1;
  }

  /** The step shows in the fingerprint: in the count, or in the status of what ran. */
  lemma Moved(s: State, s': State, l: nat, b: nat, p: nat, g: Status, n: nat, p': nat, g': Status, n': nat)
    requires l >= 1 && View(s, l, b, p, g, n) && View(s', l, b, p', g', n')
    requires n' != n || g' != g || p < p'
    ensures Fingerprint(s) != Fingerprint(s')
  {
    hide ChainDag, Link;
    if n' == n && g' == g {
      assert StatusOf(s.status, Link(p)) != StatusOf(s'.status, Link(p));
    }
  }

  // ---------- until the estimate is used up ----------

  /** From m to n one push runs to its end, on a stalled instance, and something moves. */
  ghost predicate PushAt(vs: seq<Svc>, acts: seq<Action>, m: nat, n: nat)
    requires |vs| == |acts| + 1
  {
    && m < n <= |acts| && acts[m] == WriteBegins(Touch) && acts[n - 1] == WriteEnds
    && (forall k :: m < k < n ==> !acts[k].WriteBegins?)
    && Stalled(vs[m].run) && Fingerprint(vs[m].run.s) != Fingerprint(vs[n].run.s)
  }

  /** Nobody answers and no call fails. */
  ghost predicate Uneventful(acts: seq<Action>) {
    forall k :: 0 <= k < |acts| ==> !acts[k].PersonAnswers? && !acts[k].WriteCrashes?
  }

  lemma RestsStalled(l: nat, b: nat, vs: seq<Svc>, acts: seq<Action>, v: Svc, p: nat, g: Status, n: nat)
    requires l >= 1 && Tells(ChainDag(l, b), vs, acts, v) && Rests(v, l, b, p, g, n)
    requires g == Pending || g == Failed
    ensures Stalled(v.run)
  {
    hide ChainDag, Link, View, Tells, Inv, RunOk, Valid, ReopenResets, ReadyIds;
    ToldInv(ChainDag(l, b), vs, acts, v);
    InvRunOk(v);
    RunIsValid(v.run);
    ViewBound(v.run.s, l, b, p, g, n);
    ChainNodes(v.run.s.dag, l, b);
    if g == Failed {
      AuditStatus(v.run.s, l, b, p, g, n);
      FailedIsReset(v.run.s, l);
    } else {
      ChainReady(v.run.s, l, b, p, n);
      LinksDiffer();
      assert Audit != Desk && Current(l, p) in ReadyIds(v.run.s);
    }
  }

  lemma AuditStatus(s: State, l: nat, b: nat, p: nat, g: Status, n: nat)
    requires l >= 1 && View(s, l, b, p, g, n)
    ensures StatusOf(s.status, Audit) == g
  {
    hide ChainDag, Link;
  }

  lemma StillUnderway(l: nat, b: nat, p: nat, g: Status, n: nat)
    requires 1 <= p <= l && (g == Pending || (g == Failed && p == l)) && Steps(l, p, g, n) < (b + 1) * (l + 1)
    ensures Underway(l, b, p, g, n)
  {
    var over := n - b;
    assert n * (l + 1) + (l + 1) == (b + 1 + over) * (l + 1) == (b + 1) * (l + 1) + over * (l + 1);
    assert over >= 0 ==> over * (l + 1) >= 0;
  }

  lemma PushStays(vs: seq<Svc>, acts: seq<Action>, vs': seq<Svc>, acts': seq<Action>, m: nat, n: nat)
    requires |vs| == |acts| + 1 && |vs'| == |acts'| + 1 && vs <= vs' && acts <= acts' && PushAt(vs, acts, m, n)
    ensures PushAt(vs', acts', m, n)
  {
    hide Stalled, Fingerprint;
  }

  lemma ToldLength(dag: Dag, vs: seq<Svc>, acts: seq<Action>, v: Svc)
    requires Tells(dag, vs, acts, v)
    ensures |vs| == |acts| + 1 && vs[|acts|] == v
  {
    hide ValidTemplate, IsHistory;
  }

  /** The start: the first link has returned, and the person at the desk has been asked and sent his card. */
  lemma Starts(l: nat, b: nat) returns (vs: seq<Svc>, acts: seq<Action>, v: Svc)
    requires l >= 1
    ensures Tells(ChainDag(l, b), vs, acts, v) && Rests(v, l, b, 1, Pending, 0) && Uneventful(acts)
    ensures |acts| == 4 && acts[3].Provisions?
  {
    hide ChainDag, Link, View, Tells, Dispatch, ReadyIds, ValidTemplate, IsHuman, KindOf, Waits;
    var dag := ChainDag(l, b);
    ChainIsValid(dag, l, b);
    var v0 := Started(dag);
    assert Tells(dag, [v0], [], v0) by { Begun(dag); }
    FreshView(l, b);
    ChainDispatch(v0.run.s, l, b, 0, Pending, 0);
    ChainReady(v0.run.s, l, b, 0, 0);
    var v1 := v0.(run := Launch(v0.run, v0.run.s));
    Tell(dag, [v0], [], v0, BarrierLifts, v1);
    var v2, v3 := RunsOn(l, b, [v0] + [v1], [] + [BarrierLifts], v1, 0, 0);
    ViewBound(v3.run.s, l, b, 1, Pending, 0);
    ChainKinds(v3.run.s, l, b, 1);
    var i :| i in v3.run.ints && v3.run.ints[i] == Desk;
    v := Provisioned(v3, i);
    vs := [v0] + [v1] + [v2] + [v3] + [v];
    acts := [] + [BarrierLifts] + [WorkerReturns(Current(l, 0), Pass)] + [PersonAsked(Desk)] + [Provisions(i)];
    Tell(dag, [v0] + [v1] + [v2] + [v3], acts[..3], v3, Provisions(i), v);
  }

  lemma Begun(dag: Dag)
    requires ValidTemplate(dag)
    ensures Tells(dag, [Started(dag)], [], Started(dag))
  {
    hide ValidTemplate, Started;
  }

  /** k pushes, each of them moving something, as long as the chain and the check's budget have work left. */
  lemma {:induction false} PushesGoOn(l: nat, b: nat, k: nat)
    returns (vs: seq<Svc>, acts: seq<Action>, v: Svc, marks: seq<nat>, p: nat, g: Status, n: nat)
    requires l >= 1 && k + 1 <= (b + 1) * (l + 1)
    ensures Tells(ChainDag(l, b), vs, acts, v) && |vs| == |acts| + 1 && Uneventful(acts)
    ensures Rests(v, l, b, p, g, n) && 1 <= p <= l && (g == Pending || (g == Failed && p == l))
    ensures Steps(l, p, g, n) == k + 1
    ensures |marks| == k + 1 && marks[k] == |acts|
    ensures marks[0] < |vs| && vs[marks[0]].run.s.dag == ChainDag(l, b) && vs[marks[0]].run.s.unblocks == map[]
    ensures forall j :: 0 <= j < k ==> PushAt(vs, acts, marks[j], marks[j + 1])
  {
    hide ChainDag, Link, View, Tells, Stalled, Fingerprint, PushAt, Steps;
    if k == 0 {
      vs, acts, v := Starts(l, b);
      p, g, n, marks := 1, Pending, 0, [|acts|];
      ToldLength(ChainDag(l, b), vs, acts, v);
      ViewBound(v.run.s, l, b, p, g, n);
      FirstStep(l);
    } else {
      var vs0, acts0, v0, marks0, p0, g0, n0 := PushesGoOn(l, b, k - 1);
      StillUnderway(l, b, p0, g0, n0);
      vs, acts, v, p, g, n := Pushes(l, b, vs0, acts0, v0, p0, g0, n0);
      marks := marks0 + [|acts|];
      ToldLength(ChainDag(l, b), vs0, acts0, v0);
      ToldLength(ChainDag(l, b), vs, acts, v);
      RestsStalled(l, b, vs0, acts0, v0, p0, g0, n0);
      assert vs[|acts0|] == v0;
      assert PushAt(vs, acts, |acts0|, |acts|) by { OnePush(vs, acts, |acts0|); }
      forall j | 0 <= j < k
        ensures PushAt(vs, acts, marks[j], marks[j + 1])
      {
        if j < k - 1 {
          PushStays(vs0, acts0, vs, acts, marks0[j], marks0[j + 1]);
        }
      }
      FourMore(acts0, acts);
    }
  }

  lemma FirstStep(l: nat)
    ensures Steps(l, 1, Pending, 0) == 1
  {
  }

  lemma FourMore(acts: seq<Action>, acts': seq<Action>)
    requires Uneventful(acts) && acts <= acts' && |acts'| == |acts| + 4
    requires acts'[|acts|].WriteBegins? && acts'[|acts| + 1].WorkerReturns?
    requires acts'[|acts| + 2].PersonAsked? && acts'[|acts| + 3].WriteEnds?
    ensures Uneventful(acts')
  {
    forall k | 0 <= k < |acts'|
      ensures !acts'[k].PersonAnswers? && !acts'[k].WriteCrashes?
    {
      assert k < |acts| ==> acts'[k] == acts[k];
    }
  }

  lemma OnePush(vs: seq<Svc>, acts: seq<Action>, m: nat)
    requires |vs| == |acts| + 1 && |acts| == m + 4
    requires acts[m] == WriteBegins(Touch) && acts[m + 1].WorkerReturns? && acts[m + 2].PersonAsked?
    requires acts[m + 3] == WriteEnds
    requires Stalled(vs[m].run) && Fingerprint(vs[m].run.s) != Fingerprint(vs[m + 4].run.s)
    ensures PushAt(vs, acts, m, |acts|)
  {
    hide Stalled, Fingerprint;
  }

  lemma {:induction false} NoGateBefore(dag: Dag, k: nat, grants: map<Id, seq<Grant>>)
    requires k <= |dag| && forall i :: 0 <= i < k ==> !dag[i].role.Gate?
    ensures TotalReopenBudget(dag[..k], grants) == 0
  {
    if k > 0 {
      NoGateBefore(dag, k - 1, grants);
      assert dag[..k][..k - 1] == dag[..k - 1];
    }
  }

  lemma ChainEstimate(s: State, l: nat, b: nat)
    requires l >= 1 && b >= 1 && s.dag == ChainDag(l, b) && s.unblocks == map[]
    ensures Service.PumpRounds(s) == 2 * l + 2 * b + 9
  {
    ChainNodes(s.dag, l, b);
    AuditBudget(l, b);
    hide ChainDag, Link, EffectiveBudget;
    NoGateBefore(s.dag, l, s.unblocks);
    assert s.dag[..l + 1][..l] == s.dag[..l] && s.dag[..l + 2][..l + 1] == s.dag[..l + 1] && s.dag[..l + 2] == s.dag;
    assert TotalReopenBudget(s.dag[..l + 1], s.unblocks) == b;
  }

  /** The estimate falls short: on every chain long enough for its budget, from the start of the instance, the driver
      pushes as often as it allows itself, each push moves something, nobody answers and no call fails; and at the end
      the instance is still stalled. */
  lemma EstimateFallsShort(l: nat, b: nat) returns (vs: seq<Svc>, acts: seq<Action>, marks: seq<nat>)
    requires b >= 1 && 2 * l + 2 * b + 9 < (b + 1) * (l + 1)
    ensures ValidTemplate(ChainDag(l, b)) && IsHistory(vs, acts) && vs[0] == Started(ChainDag(l, b))
    ensures |vs| == |acts| + 1 && Uneventful(acts)
    ensures |marks| == 2 * l + 2 * b + 10 && marks[0] < |vs|
    ensures |marks| == Service.PumpRounds(vs[marks[0]].run.s) + 1
    ensures forall j :: 0 <= j < |marks| - 1 ==> PushAt(vs, acts, marks[j], marks[j + 1])
    ensures marks[|marks| - 1] == |acts| && Stalled(vs[|acts|].run)
  {
    hide ChainDag, Link, View, Stalled, PushAt, Steps, Uneventful;
    assert l >= 1;
    var rounds := 2 * l + 2 * b + 9;
    var v, p, g, n;
    vs, acts, v, marks, p, g, n := PushesGoOn(l, b, rounds);
    ToldLength(ChainDag(l, b), vs, acts, v);
    RestsStalled(l, b, vs, acts, v, p, g, n);
    ChainEstimate(vs[marks[0]].run.s, l, b);
    hide ValidTemplate, IsHistory, Service.PumpRounds;
  }

  /** Nine nodes and the default budget of three are enough. */
  lemma NineNodesFallShort() returns (vs: seq<Svc>, acts: seq<Action>, marks: seq<nat>)
    ensures |ChainDag(7, 3)| == 9 && ValidTemplate(ChainDag(7, 3))
    ensures IsHistory(vs, acts) && vs[0] == Started(ChainDag(7, 3)) && |vs| == |acts| + 1 && Uneventful(acts)
    ensures |marks| == 30 && marks[29] == |acts| && Stalled(vs[|acts|].run)
    ensures forall j :: 0 <= j < 29 ==> PushAt(vs, acts, marks[j], marks[j + 1])
  {
    hide ChainDag, Link, Stalled, PushAt, Uneventful, ValidTemplate, IsHistory;
    ChainNodes(ChainDag(7, 3), 7, 3);
    vs, acts, marks := EstimateFallsShort(7, 3);
  }
}
