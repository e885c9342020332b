/** What the driver guarantees over whole histories: answers stay in their round, tasks are sent once and closed late,
    and the engine never acts as the person. */
module Safety {
  import opened Graph
  import opened State
  import opened Gates
  import opened Engine
  import opened Driver
  import opened Rounds
  import opened Correlations

  // ---------- what only grows ----------

  ghost predicate Grows(v: Svc, v': Svc) {
    && v.run.issued <= v'.run.issued
    && v.created <= v'.created
    && v.minted <= v'.minted
    && v.closed <= v'.closed
    && RoundsGrow(v.run.s, v'.run.s)
  }

  lemma GrowsTrans(a: Svc, b: Svc, c: Svc)
    requires Grows(a, b) && Grows(b, c)
    ensures Grows(a, c)
  {
    RoundsTrans(a.run.s, b.run.s, c.run.s);
  }

  lemma ActionGrows(v: Svc, a: Action, v': Svc)
    requires Step(v, a, v')
    ensures Grows(v, v')
  {
    hide Dispatch, Updated, Complete, CanUpdate, Survivors, Busy, IsHuman, Carried, ReadyIds, KindOf, KeyOf;
    match a {
      case WorkerReturns(x, res) => CompleteRounds(v.run.s, x, res);
      case PersonAnswers(i, res) => CompleteRounds(v.run.s, v.run.ints[i], res);
      case BarrierLifts => DispatchRounds(v.run.s);
      case WriteBegins(u) =>
        UpdateRounds(v.run.s, u);
        DispatchRounds(Updated(v.run.s, u));
        RoundsTrans(v.run.s, Updated(v.run.s, u), v'.run.s);
      case _ =>
    }
  }

  lemma {:induction false} HistoryGrows(vs: seq<Svc>, acts: seq<Action>, m: nat, n: nat)
    requires IsHistory(vs, acts) && m <= n < |vs|
    ensures Grows(vs[m], vs[n])
    decreases n - m
  {
    hide Step, Grows;
    if m == n {
      GrowsSelf(vs[m]);
    } else {
      HistoryGrows(vs, acts, m, n - 1);
      assert ActsOnce(vs, acts, n - 1);
      ActionGrows(vs[n - 1], acts[n - 1], vs[n]);
      GrowsTrans(vs[m], vs[n - 1], vs[n]);
    }
  }

  lemma GrowsSelf(v: Svc)
    ensures Grows(v, v)
  {
  }

  // ---------- round safety ----------

  /** Along the migration chain nothing but the id changes, and ids only go up. */
  lemma {:induction false} ChainKeepsTicket(v: Svc, start: nat, k: nat)
    requires Inv(v) && start < |v.run.issued| && Hop(v.remap, start, k).Some?
    ensures var j := Hop(v.remap, start, k).value;
            start + k <= j < |v.run.issued| && v.run.issued[j] == v.run.issued[start]
  {
    hide Inv;
    if k > 0 {
      ChainKeepsTicket(v, start, k - 1);
      assert RemapOk(v) by { InvRemap(v); }
      assert EdgeOk(v.run.issued, Hop(v.remap, start, k - 1).value, Hop(v.remap, start, k).value);
    }
  }

  lemma InvRemap(v: Svc)
    requires Inv(v)
    ensures RemapOk(v) && IdemOk(v) && RowsOk(v) && MintOk(v)
  {
  }

  /** If an interrupt id, however old, still leads to a live interrupt, that interrupt is for the same node in the same
      round the id was issued for, and that round is the node's current one. */
  lemma LiveMeansSameRound(v: Svc, start: nat, k: nat)
    requires Inv(v) && start < |v.run.issued|
    requires Hop(v.remap, start, k).Some? && Hop(v.remap, start, k).value in v.run.ints
    ensures var j := Hop(v.remap, start, k).value;
            v.run.issued[start] == Ticket(v.run.ints[j], AttemptOf(v.run.s, v.run.ints[j]))
  {
    ChainKeepsTicket(v, start, k);
    AskedInStep(v, Hop(v.remap, start, k).value);
  }

  /** Round safety over whole histories: an answer given at time n under an id issued by time m, and let through by the
      chain, completes exactly the node the id was issued for, in exactly the round it was issued for. */
  lemma RoundSafety(vs: seq<Svc>, acts: seq<Action>, m: nat, n: nat, start: nat, k: nat)
    requires IsHistory(vs, acts) && Inv(vs[0]) && m <= n < |acts| && start < |vs[m].run.issued|
    requires acts[n].PersonAnswers? && Hop(vs[n].remap, start, k) == Some(acts[n].interrupt)
    ensures var t, s, s' := vs[m].run.issued[start], vs[n].run.s, vs[n + 1].run.s;
            && AttemptOf(s, t.node) == t.attempt
            && StatusOf(s.status, t.node) == Pending && Settled(StatusOf(s'.status, t.node))
            && forall y :: y != t.node ==> StatusOf(s'.status, y) == StatusOf(s.status, y)
  {
    HistoryInv(vs, acts, n);
    HistoryGrows(vs, acts, m, n);
    assert ActsOnce(vs, acts, n);
    hide Inv, Complete, RoundsGrow;
    var v, i := vs[n], acts[n].interrupt;
    LiveMeansSameRound(v, start, k);
    AskedInStep(v, i);
    assert RunOk(v.run) by { InvRunOk(v); }
    CompleteStatus(v.run, v.run.ints[i], acts[n].result);
  }

  lemma InvRunOk(v: Svc)
    requires Inv(v)
    ensures RunOk(v.run)
  {
  }

  /** The interrupt id an object leads back by: a task's is looked up in its row, a card's stands on its buttons. */
  function Address(v: Svc, e: nat): Option<nat> {
    if e >= |v.created| || e >= |v.minted| then None
    else if v.created[e].kind.CardKind? then Some(v.minted[e])
    else if e in v.rows then Some(v.rows[e].interrupt)
    else None
  }

  lemma AddressTicket(v: Svc, e: nat)
    requires Inv(v) && Address(v, e).Some?
    ensures Address(v, e).value < |v.run.issued|
    ensures v.run.issued[Address(v, e).value] == Ticket(v.created[e].node, v.created[e].attempt)
  {
    InvRemap(v);
    assert RowOk(v, e);
    hide Inv, RemapOk, IdemOk, RowsOk;
  }

  /** The same for a task or card: it leads to the node and round it was created for, or to nothing live. */
  lemma ObjectSafety(v: Svc, e: nat, k: nat)
    requires Inv(v) && Address(v, e).Some?
    requires Hop(v.remap, Address(v, e).value, k).Some? && Hop(v.remap, Address(v, e).value, k).value in v.run.ints
    ensures var j := Hop(v.remap, Address(v, e).value, k).value;
            v.run.ints[j] == v.created[e].node && AttemptOf(v.run.s, v.created[e].node) == v.created[e].attempt
  {
    hide Inv;
    AddressTicket(v, e);
    LiveMeansSameRound(v, Address(v, e).value, k);
  }

  // ---------- dispatched once, closed late ----------

  /** No node is sent twice for one round by one channel: all creations of a history have different keys. */
  lemma SentOnce(vs: seq<Svc>, acts: seq<Action>, n: nat, i: nat, j: nat)
    requires IsHistory(vs, acts) && Inv(vs[0]) && n < |vs| && i < j < |vs[n].created|
    ensures vs[n].created[i] != vs[n].created[j]
  {
    HistoryInv(vs, acts, n);
    InvRemap(vs[n]);
    hide Inv, IsHistory, RemapOk, RowsOk;
  }

  /** A task the engine closed belongs, then and for ever, to a round its node has left. */
  lemma ClosedStaysStale(vs: seq<Svc>, acts: seq<Action>, m: nat, n: nat, e: nat)
    requires IsHistory(vs, acts) && Inv(vs[0]) && m <= n < |vs| && e in vs[m].closed
    ensures e < |vs[m].created| <= |vs[n].created| && vs[n].created[e] == vs[m].created[e]
    ensures vs[m].created[e].attempt < AttemptOf(vs[n].run.s, vs[m].created[e].node)
  {
    HistoryInv(vs, acts, m);
    HistoryInv(vs, acts, n);
    HistoryGrows(vs, acts, m, n);
    InvClosed(vs[m]);
    InvClosed(vs[n]);
    hide Inv, IsHistory, RoundsGrow;
  }

  /** The engine never acts as the person: the task of a node's current round is never one the engine closed, so if it
      reads as completed, a person completed it. */
  lemma CurrentTaskIsThePersons(v: Svc, key: Key)
    requires Inv(v) && key in v.idem && key.attempt == AttemptOf(v.run.s, key.node)
    ensures v.idem[key] < |v.created| && v.created[v.idem[key]] == key && v.idem[key] !in v.closed
  {
    InvRemap(v);
    InvClosed(v);
    hide Inv, RemapOk, RowsOk;
  }

  // ---------- routability ----------

  /** The object of a live interrupt's node and round leads to it along the migration chain. */
  ghost predicate Routed(v: Svc, i: nat) {
    && i in v.run.ints && KindOf(v.run.s, v.run.ints[i]).Some?
    && var key := KeyOf(v.run.s, v.run.ints[i]);
       key in v.idem && Address(v, v.idem[key]).Some? && Leads(v.remap, Address(v, v.idem[key]).value, i)
  }

  /** What sending can vouch for: there is an object, and if it is a task, it leads there. */
  ghost predicate Served(v: Svc, i: nat) {
    && i in v.run.ints && KindOf(v.run.s, v.run.ints[i]).Some?
    && KeyOf(v.run.s, v.run.ints[i]) in v.idem
    && (KindOf(v.run.s, v.run.ints[i]) == Some(TaskKind) ==> Routed(v, i))
  }

  ghost predicate Leads(remap: map<nat, nat>, a: nat, b: nat) {
    exists k: nat :: Hop(remap, a, k) == Some(b)
  }

  /** The resolver finds exactly that interrupt: nothing before it on the chain is live. */
  lemma RoutedResolves(v: Svc, i: nat)
    requires Inv(v) && Routed(v, i)
    ensures FirstLive(v.remap, Address(v, v.idem[KeyOf(v.run.s, v.run.ints[i])]).value, v.run.ints.Keys, i)
  {
    var e := v.idem[KeyOf(v.run.s, v.run.ints[i])];
    AddressTicket(v, e);
    LedIsFirst(v, Address(v, e).value, i);
  }

  /** The first live id on a chain is the only one a waiting person's id leads to. */
  lemma LedIsFirst(v: Svc, start: nat, i: nat)
    requires Inv(v) && start < |v.run.issued| && Leads(v.remap, start, i) && i in v.run.ints
    ensures FirstLive(v.remap, start, v.run.ints.Keys, i)
  {
    hide Inv;
    var k: nat :| Hop(v.remap, start, k) == Some(i);
    forall j: nat | j < k && Hop(v.remap, start, j).Some?
      ensures Hop(v.remap, start, j).value !in v.run.ints.Keys
    {
      EarlierNotLive(v, start, j, k);
    }
  }

  lemma EarlierNotLive(v: Svc, start: nat, j: nat, k: nat)
    requires Inv(v) && start < |v.run.issued| && j < k
    requires Hop(v.remap, start, j).Some? && Hop(v.remap, start, k).Some?
    requires Hop(v.remap, start, k).value in v.run.ints
    ensures Hop(v.remap, start, j).value !in v.run.ints
  {
    hide Inv;
    var a := Hop(v.remap, start, j).value;
    HopsAdd(v.remap, start, j, k - j);
    ChainKeepsTicket(v, start, j);
    ChainKeepsTicket(v, a, k - j);
    if a in v.run.ints {
      AskedInStep(v, a);
      AskedInStep(v, Hop(v.remap, start, k).value);
      InvOnePerNode(v, a, Hop(v.remap, start, k).value);
    }
  }

  lemma InvOnePerNode(v: Svc, i: nat, j: nat)
    requires Inv(v) && i in v.run.ints && j in v.run.ints && v.run.ints[i] == v.run.ints[j]
    ensures i == j
  {
  }
}
