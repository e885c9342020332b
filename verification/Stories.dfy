/** How to tell a concrete history of an instance from its start, one action at a time. */
module Stories {
  import opened Graph
  import opened Template
  import opened State
  import opened Gates
  import opened Engine
  import opened Permissions
  import opened Driver
  import opened Rounds

  const Pass := Result(true, [], None)

  // ---------- one step at a time ----------

  /** A history of this dag from its start, ending in v. */
  ghost predicate Tells(dag: Dag, vs: seq<Svc>, acts: seq<Action>, v: Svc) {
    ValidTemplate(dag) && IsHistory(vs, acts) && vs[0] == Started(dag) && |vs| == |acts| + 1 && vs[|acts|] == v
  }

  lemma Tell(dag: Dag, vs: seq<Svc>, acts: seq<Action>, v: Svc, a: Action, v': Svc)
    requires Tells(dag, vs, acts, v) && Step(v, a, v')
    ensures Tells(dag, vs + [v'], acts + [a], v')
  {
    hide Step, ValidTemplate, Started, IsHistory;
    ExtendHistory(vs, acts, a, v');
  }

  lemma ToldInv(dag: Dag, vs: seq<Svc>, acts: seq<Action>, v: Svc)
    requires Tells(dag, vs, acts, v)
    ensures Inv(vs[0]) && Inv(v) && vs[0].created == []
  {
    hide ValidTemplate, IsHistory, Inv;
    StartedInv(dag);
    HistoryInv(vs, acts, |acts|);
  }

  /** Dispatch where nothing has failed. */
  lemma QuietDispatch(s: State)
    requires forall x :: StatusOf(s.status, x) != Failed
    ensures Dispatch(s) == s
  {
    hide ReopenResets, Keep, Ancestors, Pull;
    forall x
      ensures x !in ReopenResets(s)
    {
      ResetsChar(s, x);
    }
    assert ReopenResets(s) == map[];
  }

  /** Dispatch where a single gate has failed and has to stop. */
  lemma HaltDispatch(s: State, i: nat, x: Id)
    requires UniqueIds(s.dag) && OnlyFailed(s, i) && Rule(s, s.dag[i]).Halts?
    ensures StatusOf(Dispatch(s).status, x) == if x == s.dag[i].id then Blocked else StatusOf(s.status, x)
    ensures AttemptOf(Dispatch(s), x) == AttemptOf(s, x) && CountOf(Dispatch(s).counts, x) == CountOf(s.counts, x)
  {
    hide ReopenResets, Dispatch, Keep, Ancestors, Pull;
    DispatchAt(s, x);
    ResetsChar(s, x);
    forall j | 0 <= j < |s.dag|
      ensures !SentBackBy(s, j, x) && (HaltedAt(s, j, x) <==> x == s.dag[i].id && j == i)
    {
      assert s.dag[j].id == s.dag[i].id ==> j == i by { if j < i {} else if i < j {} }
    }
    assert x == s.dag[i].id ==> HaltedAt(s, i, x);
  }

  /** Dispatch where a single gate has failed and sends work back. */
  lemma SendDispatch(s: State, i: nat, x: Id)
    requires UniqueIds(s.dag) && OnlyFailed(s, i) && Rule(s, s.dag[i]).Sends?
    ensures var pulled := Pull(s.dag, s.dag[i].id, Rule(s, s.dag[i]).targets);
            && StatusOf(Dispatch(s).status, x) == (if x in pulled then Pending else StatusOf(s.status, x))
            && AttemptOf(Dispatch(s), x) == AttemptOf(s, x) + (if x in pulled then 1 else 0)
            && CountOf(Dispatch(s).counts, x) == CountOf(s.counts, x) +
                 (if x in pulled && x == s.dag[i].id then 1 else 0)
  {
    hide ReopenResets, Dispatch, Rule, Pull;
    DispatchAt(s, x);
    SingleSender(s, i);
  }

  lemma CompleteView(s: State, k: nat, res: Result, y: Id)
    requires ValidTemplate(s.dag) && k < |s.dag|
    ensures var s' := Complete(s, s.dag[k].id, res);
            && StatusOf(s'.status, y) == (if y == s.dag[k].id then Outcome(s.dag[k], res) else StatusOf(s.status, y))
            && s' == s.(status := s'.status, outputs := s'.outputs)
            && s'.outputs == s.outputs[s.dag[k].id := res]
  {
    hide ValidTemplate, Complete, Outcome;
    CompleteAtIndex(s, k, res, y);
    CompleteOutputs(s, s.dag[k].id, res);
  }

  lemma CompleteOutputs(s: State, x: Id, res: Result)
    requires x in Ids(s.dag)
    ensures Complete(s, x, res).outputs == s.outputs[x := res]
  {
    assert Merge(s.outputs, map[x := res]) == s.outputs[x := res];
  }
}
