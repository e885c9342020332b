/** Within one round a node only moves on: answered stays answered, and a verdict against the work is never lost. */
module Rebound {
  import opened Graph
  import opened Template
  import opened State
  import opened Gates
  import opened Engine
  import opened Accounting
  import opened Driver
  import opened Rounds
  import opened Safety

  /** The gate is no longer waiting for its own answer; blocked counts, because nothing else would end its requests. */
  predicate Answered(st: Status) {
    st == Done || st == Failed || st == Blocked
  }

  /** Between these two states the node's round did not go down, and it went up if the node came back from answered to
      waiting, out of blocked, or from failed to anything but blocked. */
  ghost predicate BackMeansNewRound(s: State, s': State, g: Id) {
    && CountOf(s.attempts, g) <= CountOf(s'.attempts, g)
    && (CountOf(s.attempts, g) == CountOf(s'.attempts, g) ==>
          (Answered(StatusOf(s.status, g)) ==> Answered(StatusOf(s'.status, g)))
          && (StatusOf(s.status, g) == Blocked ==> StatusOf(s'.status, g) == Blocked)
          && (Stopped(StatusOf(s.status, g)) ==> Stopped(StatusOf(s'.status, g))))
  }

  lemma BackMeansNewRoundTrans(a: State, b: State, c: State, g: Id)
    requires BackMeansNewRound(a, b, g) && BackMeansNewRound(b, c, g)
    ensures BackMeansNewRound(a, c, g)
  {
  }

  /** Whenever a gate goes from answered back to waiting, it enters a new round; and rounds never go down. */
  lemma BackToWaitingIsNewRound(s: State, e: Event, s': State, g: Id)
    requires Valid(s) && Next(s, e, s')
    ensures BackMeansNewRound(s, s', g)
  {
    hide Valid, Dispatch, Complete, Thaw, CanEdit, CanUnblock, Pull, ReopenResets, TakeBack;
    match e
    case Dispatched =>
      DispatchAt(s, g);
      ResetsChar(s, g);
    case Completed(x, r) =>
      CompleteSettles(s, x, r, g);
    case Unblocked(x, targets, grant) =>
      ThawAt(s, x, targets, grant, g);
    case Refunded(x) =>
      RefundFrame(s, x);
    case Edited(_) =>
  }

  lemma RefundFrame(s: State, x: Id)
    ensures TakeBack(s, x).status == s.status && TakeBack(s, x).attempts == s.attempts
  {
  }

  lemma CompleteSettles(s: State, x: Id, r: Result, g: Id)
    requires CanComplete(s, x)
    ensures Complete(s, x, r).attempts == s.attempts
    ensures Answered(StatusOf(s.status, g)) ==> StatusOf(Complete(s, x, r).status, g) == StatusOf(s.status, g)
  {
    var k :| 0 <= k < |s.dag| && s.dag[k].id == x && IsReady(s.status, s.dag[k]);
    assert x in Ids(s.dag);
    hide Complete;
    CompleteAt(s, x, r, g);
    CompleteKeepsRounds(s, x, r);
  }

  lemma CompleteKeepsRounds(s: State, x: Id, r: Result)
    ensures Complete(s, x, r).attempts == s.attempts
  {
  }

  // ---------- the driver's actions and histories ----------

  lemma BackRefl(s: State, g: Id)
    ensures BackMeansNewRound(s, s, g)
  {
  }

  lemma UpdateMeansNewRound(r: Inst, u: Update, g: Id)
    requires Valid(r.s) && CanUpdate(r, u)
    ensures BackMeansNewRound(r.s, Updated(r.s, u), g)
  {
    hide Valid, BackMeansNewRound, CanEdit, CanUnblock, CanRefund, Thaw, TakeBack;
    match u
    case Touch => BackRefl(r.s, g);
    case Edit(dag') => BackToWaitingIsNewRound(r.s, Edited(dag'), Updated(r.s, u), g);
    case Lift(x, targets, grant) => BackToWaitingIsNewRound(r.s, Unblocked(x, targets, grant), Updated(r.s, u), g);
    case Refund(x) => BackToWaitingIsNewRound(r.s, Event.Refunded(x), Updated(r.s, u), g);
  }

  lemma WriteMeansNewRound(r: Inst, u: Update, g: Id)
    requires RunOk(r) && CanUpdate(r, u)
    ensures BackMeansNewRound(r.s, Dispatch(Updated(r.s, u)), g)
  {
    RunIsValid(r);
    hide RunOk, Valid, BackMeansNewRound, Dispatch, Updated, CanUpdate;
    UpdateMeansNewRound(r, u, g);
    UpdateKeepsValid(r, u);
    BackToWaitingIsNewRound(Updated(r.s, u), Dispatched, Dispatch(Updated(r.s, u)), g);
    BackMeansNewRoundTrans(r.s, Updated(r.s, u), Dispatch(Updated(r.s, u)), g);
  }

  lemma ReturnMeansNewRound(r: Inst, x: Id, res: Result, g: Id)
    requires RunOk(r) && x in r.step && StatusOf(r.s.status, x) == Pending
    ensures BackMeansNewRound(r.s, Complete(r.s, x, res), g)
  {
    hide RunOk, Valid, BackMeansNewRound, Complete, CanComplete, IsReady, DepsDone;
    RunIsValid(r);
    var k := MemberCanComplete(r, x);
    BackToWaitingIsNewRound(r.s, Completed(x, res), Complete(r.s, x, res), g);
  }

  /** Whatever the driver does, a gate that comes back from answered to waiting has entered a new round. */
  lemma ActionMeansNewRound(v: Svc, a: Action, v': Svc, g: Id)
    requires Inv(v) && Step(v, a, v')
    ensures BackMeansNewRound(v.run.s, v'.run.s, g)
  {
    InvRunOk(v);
    RunIsValid(v.run);
    hide Inv, RunOk, Valid, AllKept, BackMeansNewRound, Dispatch, Updated, Complete, CanUpdate, CanComplete;
    hide Survivors, Busy, IsHuman, Carried, ReadyIds, KindOf, KeyOf;
    var r := v.run;
    BackRefl(r.s, g);
    match a {
      case WorkerReturns(x, res) => ReturnMeansNewRound(r, x, res, g);
      case PersonAnswers(i, res) =>
        AskedInStep(v, i);
        ReturnMeansNewRound(r, r.ints[i], res, g);
      case BarrierLifts => BackToWaitingIsNewRound(r.s, Dispatched, v'.run.s, g);
      case WriteBegins(u) =>
        WriteMeansNewRound(r, u, g);
      case _ =>
    }
  }

  lemma {:induction false} HistoryMeansNewRound(vs: seq<Svc>, acts: seq<Action>, m: nat, n: nat, g: Id)
    requires IsHistory(vs, acts) && Inv(vs[0]) && m <= n < |vs|
    ensures BackMeansNewRound(vs[m].run.s, vs[n].run.s, g)
    decreases n - m
  {
    hide Step, Inv, BackMeansNewRound;
    if m == n {
      BackRefl(vs[m].run.s, g);
    } else {
      HistoryMeansNewRound(vs, acts, m, n - 1, g);
      HistoryInv(vs, acts, n - 1);
      assert ActsOnce(vs, acts, n - 1);
      ActionMeansNewRound(vs[n - 1], acts[n - 1], vs[n], g);
      BackMeansNewRoundTrans(vs[m].run.s, vs[n - 1].run.s, vs[n].run.s, g);
    }
  }

  // ---------- a send-back lands ----------

  /** The verdict has had its effect: the gate is in a new round, or it has stopped and calls a person. */
  ghost predicate Landed(s: State, s': State, g: Id) {
    StatusOf(s'.status, g) == Blocked || CountOf(s.attempts, g) < CountOf(s'.attempts, g)
  }

  lemma LandedStays(a: State, b: State, c: State, g: Id)
    requires Landed(a, b, g) && BackMeansNewRound(a, b, g) && BackMeansNewRound(b, c, g)
    ensures Landed(a, c, g)
  {
  }

  lemma NothingFailedLies(s: State, g: Id)
    requires Valid(s) && ReopenResets(s) == map[]
    ensures StatusOf(s.status, g) != Failed
  {
    hide ReopenResets, ValidTemplate, RunInv;
    if StatusOf(s.status, g) == Failed {
      assert g in Ids(s.dag);
      var k :| 0 <= k < |s.dag| && s.dag[k].id == g;
      FailedIsReset(s, k);
    }
  }

  /** A gate that has failed and finds nothing more to reset has landed: it is not left lying behind the barrier. */
  lemma SendBackLands(vs: seq<Svc>, acts: seq<Action>, m: nat, n: nat, g: Id)
    requires IsHistory(vs, acts) && Inv(vs[0]) && m <= n < |vs|
    requires StatusOf(vs[m].run.s.status, g) == Failed && ReopenResets(vs[n].run.s) == map[]
    ensures Landed(vs[m].run.s, vs[n].run.s, g)
  {
    HistoryMeansNewRound(vs, acts, m, n, g);
    HistoryInv(vs, acts, n);
    InvRunOk(vs[n]);
    RunIsValid(vs[n].run);
    hide Inv, IsHistory, RunOk, Valid, ReopenResets;
    NothingFailedLies(vs[n].run.s, g);
  }
}
