/** The finite credit a person has for lifting a blocked gate, and the reopens it can pay for. */
module Accounting {
  import opened Graph
  import opened State
  import opened Gates
  import opened Engine

  /** A log as the service writes it: clamped grants below the cap, each at most once taken back, at once. */
  ghost predicate WellKept(log: seq<Grant>) {
    log == [] ||
    var k := |log| - 1;
    && WellKept(log[..k])
    && (if log[k].refund
        then k > 0 && !log[k - 1].refund && log[k].amount == log[k - 1].amount
        else 1 <= log[k].amount <= MAX_GRANT_PER_UNBLOCK && NetCount(log[..k]) < MAX_UNBLOCK_GRANTS)
  }

  /** Net grants stay within the cap, and the net amount within the cap's worth of budget. */
  lemma {:induction false} WellKeptBounds(log: seq<Grant>)
    requires WellKept(log)
    ensures 0 <= NetCount(log) <= MAX_UNBLOCK_GRANTS
    ensures NetCount(log) <= NetAmount(log) <= MAX_GRANT_PER_UNBLOCK * NetCount(log)
    decreases |log|
  {
    if log != [] {
      var k := |log| - 1;
      if log[k].refund {
        assert log[..k][..k - 1] == log[..k - 1];
        WellKeptBounds(log[..k - 1]);
      } else {
        WellKeptBounds(log[..k]);
      }
    }
  }

  /** A refund takes back exactly its own grant, wherever the two stand. */
  lemma RefundCancels(log: seq<Grant>, amount: int)
    ensures var after := log + [Grant(amount, false)] + [Grant(amount, true)];
            NetCount(after) == NetCount(log) && NetAmount(after) == NetAmount(log)
  {
    var one := log + [Grant(amount, false)];
    assert one[..|log|] == log;
    assert (one + [Grant(amount, true)])[..|one|] == one;
  }

  ghost predicate AllKept(s: State) {
    forall x :: WellKept(LogOf(s.unblocks, x))
  }

  lemma GrantAppends(log: seq<Grant>, grant: int)
    requires WellKept(log) && NetCount(log) < MAX_UNBLOCK_GRANTS
    ensures WellKept(log + [Grant(ClampGrant(grant), false)])
  {
    assert (log + [Grant(ClampGrant(grant), false)])[..|log|] == log;
  }

  lemma RefundAppends(log: seq<Grant>)
    requires WellKept(log) && log != [] && !log[|log| - 1].refund
    ensures WellKept(log + [Grant(log[|log| - 1].amount, true)])
  {
    assert (log + [Grant(log[|log| - 1].amount, true)])[..|log|] == log;
  }

  lemma StepKeepsLogs(s: State, e: Event, s': State)
    requires Next(s, e, s') && AllKept(s)
    ensures AllKept(s')
  {
    hide Dispatch, Complete, Thaw, WellKept, CanComplete, CanEdit, Ids, Ancestors;
    match e
    case Dispatched => DispatchFrame(s);
    case Completed(x, r) => CompleteFrameAll(s, x, r);
    case Edited(_) =>
    case Unblocked(x, targets, grant) =>
      ThawAt(s, x, targets, grant, x);
      GrantAppends(LogOf(s.unblocks, x), grant);
      forall y
        ensures WellKept(LogOf(s'.unblocks, y))
      {
        ThawAt(s, x, targets, grant, y);
      }
    case Refunded(x) =>
      var log := LogOf(s.unblocks, x);
      RefundAppends(log);
      forall y
        ensures WellKept(LogOf(s'.unblocks, y))
      {
        assert WellKept(LogOf(s.unblocks, y));
        assert LogOf(s'.unblocks, y) == LogOf(s.unblocks, y) + LogOf(map[x := [Grant(log[|log| - 1].amount, true)]], y);
        assert y != x ==> LogOf(s'.unblocks, y) == LogOf(s.unblocks, y);
      }
  }

  lemma CompleteFrameAll(s: State, x: Id, r: Result)
    ensures Complete(s, x, r) == s.(status := Complete(s, x, r).status, outputs := Complete(s, x, r).outputs)
  {
  }

  /** Over every sequence of unblocks, refunds and failures: 0 to 3 net grants, 0 to 9 granted budget. */
  lemma {:induction false} GrantsStayBounded(ss: seq<State>, es: seq<Event>, k: nat)
    requires IsRun(ss, es) && AllKept(ss[0]) && k < |ss|
    ensures AllKept(ss[k])
    ensures forall x :: 0 <= GrantsUsed(ss[k].unblocks, x) <= MAX_UNBLOCK_GRANTS
    ensures forall x :: GrantedBudget(ss[k].unblocks, x) <= MAX_UNBLOCK_GRANTS * MAX_GRANT_PER_UNBLOCK
  {
    hide Next, WellKept;
    if k > 0 {
      GrantsStayBounded(ss, es, k - 1);
      assert Next(ss[k - 1], es[k - 1], ss[k - 1 + 1]);
      StepKeepsLogs(ss[k - 1], es[k - 1], ss[k]);
    }
    forall x
      ensures 0 <= GrantsUsed(ss[k].unblocks, x) <= MAX_UNBLOCK_GRANTS
      ensures GrantedBudget(ss[k].unblocks, x) <= MAX_UNBLOCK_GRANTS * MAX_GRANT_PER_UNBLOCK
    {
      WellKeptBounds(LogOf(ss[k].unblocks, x));
    }
  }

  // ---------- how often one gate can send work back ----------

  ghost predicate SendsAt(s: State, e: Event, g: Id) {
    e.Dispatched? && exists i :: 0 <= i < |s.dag| && s.dag[i].id == g && Rule(s, s.dag[i]).Sends?
  }

  ghost function Reopens(ss: seq<State>, es: seq<Event>, k: nat, g: Id): nat
    requires k <= |es| <= |ss|
  {
    if k == 0 then 0 else Reopens(ss, es, k - 1, g) + if SendsAt(ss[k - 1], es[k - 1], g) then 1 else 0
  }

  /** Reopen counts never go down, and a reopen under budget is counted. */
  lemma StepCounts(s: State, e: Event, s': State, g: Id)
    requires Valid(s) && Next(s, e, s')
    ensures CountOf(s'.counts, g) >= CountOf(s.counts, g) + (if SendsAt(s, e, g) then 1 else 0)
  {
    hide Dispatch, Complete, Thaw, Valid, CanComplete, CanEdit, CanUnblock, Rule;
    match e
    case Dispatched =>
      DispatchAt(s, g);
      if SendsAt(s, e, g) {
        var i :| 0 <= i < |s.dag| && s.dag[i].id == g && Rule(s, s.dag[i]).Sends?;
        SenderUnderBudget(s, i);
      }
    case Completed(x, r) => CompleteFrameAll(s, x, r);
    case Unblocked(x, targets, grant) => ThawAt(s, x, targets, grant, x);
    case _ =>
  }

  /** The whole-run cap: a gate whose own budget nobody edits sends work back at most `reopen_budget` + 9 times,
      however often people unblock it and whatever fails in between. */
  lemma {:induction false} ReopensAreCapped(ss: seq<State>, es: seq<Event>, k: nat, g: Id, budget: nat)
    requires IsRun(ss, es) && Valid(ss[0]) && AllKept(ss[0]) && k <= |es|
    requires forall j, i :: 0 <= j < |ss| && 0 <= i < |ss[j].dag| && ss[j].dag[i].id == g ==>
      ReopenBudget(ss[j].dag[i]) == budget
    ensures Reopens(ss, es, k, g) <= CountOf(ss[k].counts, g)
    ensures Reopens(ss, es, k, g) <= budget + MAX_UNBLOCK_GRANTS * MAX_GRANT_PER_UNBLOCK
  {
    hide Next, Valid, AllKept, SendsAt;
    if k > 0 {
      var s := ss[k - 1];
      ReopensAreCapped(ss, es, k - 1, g, budget);
      assert Next(ss[k - 1], es[k - 1], ss[k - 1 + 1]);
      RunKeepsValid(ss, es, k - 1);
      StepCounts(s, es[k - 1], ss[k], g);
      if SendsAt(s, es[k - 1], g) {
        GrantsStayBounded(ss, es, k - 1);
        UnderBudget(s, es[k - 1], g, budget);
      }
    }
  }

  lemma UnderBudget(s: State, e: Event, g: Id, budget: nat)
    requires Valid(s) && SendsAt(s, e, g)
    requires forall i :: 0 <= i < |s.dag| && s.dag[i].id == g ==> ReopenBudget(s.dag[i]) == budget
    ensures CountOf(s.counts, g) < budget + GrantedBudget(s.unblocks, g)
  {
    hide Valid, Rule, ReopenBudget, GrantedBudget;
    var i :| 0 <= i < |s.dag| && s.dag[i].id == g && Rule(s, s.dag[i]).Sends?;
    SenderUnderBudget(s, i);
  }
}
