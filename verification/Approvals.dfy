/** Cross-border send-backs beside the service: filing a request instead of sending work back, and carrying out a
    verdict. */
module Approvals {
  import opened Graph
  import opened State
  import opened Gates
  import opened Engine
  import opened Permissions
  import opened Driver
  import opened Rounds
  import opened Safety
  import opened Progress
  import opened Termination
  import opened Service
  import opened Rebound
  import E = Escalations

  function LogFor(logs: map<Id, E.Log>, g: Id): E.Log {
    if g in logs then logs[g] else []
  }

  datatype SettleReply =
    | Refused(why: E.SettleCheck)
    | NoLongerLegal(targets: seq<Id>)
    | NobodyWaiting
    | ExecutionRaised
    | Recorded(approved: bool, reopened: set<Id>)
    | RecordRaised(approved: bool, reopened: set<Id>)

  /** The verdict is on record, whether or not the push behind it ended in an exception. */
  predicate OnRecord(r: SettleReply) {
    r.Recorded? || r.RecordRaised?
  }

  /** Everyone any of the requests names as an approver. */
  function AllApprovers(rs: seq<Request>): (r: set<Token>)
    ensures forall a :: a in r <==> exists i :: 0 <= i < |rs| && a in rs[i].approvers
  {
    if rs == [] then {} else rs[0].approvers + AllApprovers(rs[1..])
  }

  function DeskAt(s: State, logs: map<Id, E.Log>, g: Id): E.Desk {
    E.Desk(s, LogFor(logs, g), None)
  }

  /** Every gate's log is in order: numbered requests, one verdict each, at most five live. */
  ghost predicate LogsOk(s: State, logs: map<Id, E.Log>) {
    forall g :: E.DeskOk(g, DeskAt(s, logs, g))
  }

  /** At no gate did a request that was over come back to waiting. */
  ghost predicate NoneRevived(s: State, logs: map<Id, E.Log>, s': State, logs': map<Id, E.Log>) {
    forall g :: E.StaysOver(g, DeskAt(s, logs, g), DeskAt(s', logs', g))
  }

  /** One request at one gate: the reply, and the logs after it, are what asking comes to. */
  ghost predicate Files(s: State, g: Id, who: Option<Token>, targets: seq<Id>, approvers: set<Token>,
                        notified: set<Token>,
                        logs: map<Id, E.Log>, logs': map<Id, E.Log>, reply: E.AskReply) {
    var asked := E.Ask(LogFor(logs, g), AttemptOf(s, g), Answered(StatusOf(s.status, g)), who, targets,
        approvers, notified);
    reply == asked.1 && logs' == if reply.Filed? then logs[g := asked.0] else logs
  }

  ghost predicate AllLegal(dag: Dag, g: Id, targets: seq<Id>) {
    forall t :: t in targets ==> t in Ancestors(dag, g)
  }

  method IllegalTargetsOf(dag: Dag, g: Id, targets: seq<Id>) returns (bad: seq<Id>)
    ensures bad == [] <==> AllLegal(dag, g, targets)
  {
    hide Ancestors;
    bad := IllegalReopen(dag, g, targets);
    assert bad != [] ==> bad[0] in bad;
  }

  class ApprovalDesk {
    const service: LarkFlowService
    var logs: map<Id, E.Log>

    ghost predicate InOrder()
      reads this, service, service.corr, service.idem, service.world
    {
      service.Valid() && service.bridge.None? && LogsOk(service.run.s, logs)
    }

    /** No request that was over waits again. */
    twostate predicate NothingRevived()
      reads this, service
    {
      NoneRevived(old(service.run.s), old(logs), service.run.s, logs)
    }

    constructor (service: LarkFlowService)
      requires service.Valid() && service.bridge.None?
      ensures InOrder() && this.service == service && logs == map[]
    {
      this.service := service;
      logs := map[];
      new;
      forall g
        ensures E.DeskOk(g, DeskAt(service.run.s, logs, g))
      {
        EmptyDesk(service.Now(), g);
      }
    }

    /** A person's answer. If it would send back work across a border, nothing is executed: the request is filed and the
        approvers are told, unless the same request is already waiting or five are. */
    method Answer(id: nat, claimed: Option<Id>, answer: Result, who: Option<Token>, tokens: set<Token>,
                  owner: set<Token>)
      returns (reply: Reply, filed: Option<E.AskReply>, raised: bool, ghost notified: set<Token>)
      requires InOrder()
      modifies this, service, service.corr, service.idem
      modifies service.world`created, service.world`minted, service.world`closed, service.world`failures
      ensures InOrder() && NothingRevived()
      ensures reply.NeedsApproval? <==> filed.Some?
      ensures Replies(old(service.Now()), id, claimed, answer, if who.Some? then Some(tokens) else None, owner, reply)
      ensures reply.NeedsApproval? ==>
        Escalated(old(service.run.s.dag), reply.gate, answer, if who.Some? then Some(tokens) else None, owner, reply)
      ensures raised ==> filed.Some? && filed.value.Filed? && old(service.world.failures) < service.world.failures
      ensures filed.None? ==> logs == old(logs)
      ensures filed.Some? ==> SendsWorkBack(old(service.run.s.dag), reply.gate, answer)
      ensures filed.Some? ==>
        Files(old(service.run.s), reply.gate, who, SentTargets(old(service.run.s.dag), reply.gate, answer),
              AllApprovers(reply.requests), notified, old(logs), logs, filed.value)
      ensures !reply.Resumed? && !(filed.Some? && filed.value.Filed?) ==> service.Now() == old(service.Now())
    {
      hide Inv, IsHistory, LogsOk, NoneRevived, E.DeskOk, E.StaysOver, E.Ask, Answered, SendsWorkBack, SentTargets;
      hide Escalated, Entitled, SameRound, Leads, LogFor, Marked, Started, Lands, Replies, SendsOnlyAllowed, Reaches;
      ghost var v := service.Now();
      ghost var m, logs0 := |service.acts|, logs;
      HistoryIsOneLonger(service.history, service.acts);
      notified := *;
      var roles := if who.Some? then Some(tokens) else None;
      reply := service.Resume(id, claimed, answer, roles, owner);
      HistoryIsOneLonger(service.history, service.acts);
      assert service.history[m] == v;
      DesksFollow(service.history, service.acts, m, |service.acts|, logs0);
      filed, raised := None, false;
      if reply.NeedsApproval? {
        ReachedIsLive(v, id);
        RepliesEscalated(v, id, claimed, answer, roles, owner, reply);
        var g := reply.gate;
        RequestIsSendBack(v.run.s.dag, g, answer, roles, owner, reply);
        var targets := SentTargets(service.run.s.dag, g, answer);
        var told: set<Token> := *;
        notified := told;
        var asked := E.Ask(LogFor(logs, g), AttemptOf(service.run.s, g), Answered(StatusOf(service.run.s.status, g)),
                           who, targets, AllApprovers(reply.requests), told);
        filed := Some(asked.1);
        if asked.1.Filed? {
          assert E.DeskOk(g, DeskAt(service.run.s, logs, g)) by { LogAt(service.run.s, logs, g); }
          FilingIsLegal(g, DeskAt(service.run.s, logs, g), who, targets, AllApprovers(reply.requests), told);
          ghost var s1, logs1 := service.run.s, logs;
          raised := Append(g, asked.0);
          NoneRevivedTrans(v.run.s, logs0, s1, logs1, service.run.s, logs);
        }
      }
    }

    /** Carries out an approved send-back: the permission layer was answered by the approval, the mechanical one is
        asked again, because the graph may have changed since. */
    method Execute(g: Id, n: nat, targets: seq<Id>) returns (r: SettleReply)
      requires InOrder() && StatusOf(service.run.s.status, g) == Pending
      requires E.DeskOk(g, DeskAt(service.run.s, logs, g).(settling := Some(n)))
      modifies this, service, service.corr, service.idem
      modifies service.world`created, service.world`minted, service.world`closed, service.world`failures
      ensures InOrder() && NothingRevived() && service.Continued() && logs == old(logs)
      ensures E.DeskOk(g, DeskAt(service.run.s, logs, g).(settling := Some(n)))
      ensures r.NoLongerLegal? || r.NobodyWaiting? || r.ExecutionRaised? || r.Recorded?
      ensures r.NoLongerLegal? || r.NobodyWaiting? ==> service.Now() == old(service.Now())
      ensures r.NoLongerLegal? <==> !AllLegal(old(service.run.s.dag), g, targets)
      ensures r.NobodyWaiting? <==> AllLegal(old(service.run.s.dag), g, targets) && g !in old(service.run.ints.Values)
      ensures r.ExecutionRaised? ==> old(service.world.failures) < service.world.failures
      ensures r.ExecutionRaised? || r.Recorded? ==> SentBack(g, targets)
      ensures r.Recorded? ==> r.approved && forall x :: x in r.reopened <==>
        AttemptOf(old(service.run.s), x) < AttemptOf(service.run.s, x)
      ensures old(service.errors) <= service.errors
      ensures (r.Recorded? && service.errors == old(service.errors)
               && SendsWorkBack(old(service.run.s.dag), g, Result(false, targets, None))) ==>
        Landed(old(service.run.s), service.run.s, g)
    {
      hide Inv, IsHistory, LogsOk, NoneRevived, E.DeskOk, E.StaysOver, AllLegal, LogFor, SendsWorkBack;
      hide Landed, Marked, Started;
      var bad := IllegalTargetsOf(service.run.s.dag, g, targets);
      NothingHappened(service.run.s, logs);
      if bad != [] {
        return NoLongerLegal(bad);
      }
      var held := set i | i in service.run.ints && service.run.ints[i] == g;
      assert forall i :: i in service.run.ints && service.run.ints[i] == g ==> i in held;
      if held == {} {
        return NobodyWaiting;
      }
      var j :| j in held;
      assert g in service.run.ints.Values;
      r := SendBackNow(g, n, targets, j);
    }

    method SendBackNow(g: Id, n: nat, targets: seq<Id>, j: nat) returns (r: SettleReply)
      requires InOrder() && StatusOf(service.run.s.status, g) == Pending
      requires j in service.run.ints && service.run.ints[j] == g
      requires E.DeskOk(g, DeskAt(service.run.s, logs, g).(settling := Some(n)))
      modifies this, service, service.corr, service.idem
      modifies service.world`created, service.world`minted, service.world`closed, service.world`failures
      ensures InOrder() && NothingRevived() && service.Continued() && logs == old(logs)
      ensures E.DeskOk(g, DeskAt(service.run.s, logs, g).(settling := Some(n)))
      ensures r.ExecutionRaised? || r.Recorded?
      ensures r.ExecutionRaised? ==> old(service.world.failures) < service.world.failures
      ensures service.Answers([PersonAnswers(j, Result(false, targets, None))])
      ensures r.Recorded? ==> r.approved && forall x :: x in r.reopened <==>
        AttemptOf(old(service.run.s), x) < AttemptOf(service.run.s, x)
      ensures old(service.errors) <= service.errors
      ensures (r.Recorded? && service.errors == old(service.errors)
               && SendsWorkBack(old(service.run.s.dag), g, Result(false, targets, None))) ==>
        Landed(old(service.run.s), service.run.s, g)
    {
      hide Inv, IsHistory, LogsOk, NoneRevived, E.DeskOk, E.StaysOver, LogFor, SendsWorkBack, Landed, Marked, Started;
      ghost var m, d := |service.acts|, DeskAt(service.run.s, logs, g).(settling := Some(n));
      HistoryIsOneLonger(service.history, service.acts);
      var before := service.run.s.attempts;
      var outcome := service.Deliver(j, Result(false, targets, None));
      HistoryIsOneLonger(service.history, service.acts);
      assert service.history[m].run.s == d.s;
      DesksFollow(service.history, service.acts, m, |service.acts|, logs);
      DeskFollows(service.history, service.acts, m, |service.acts|, g, d);
      if outcome.Raised? {
        return ExecutionRaised;
      }
      var after := service.run.s.attempts;
      r := Recorded(true, set x | x in after && CountOf(before, x) < after[x]);
    }

    /** The gate's own interrupt was answered, at once and with exactly these targets, and nobody else's. */
    twostate predicate SentBack(g: Id, targets: seq<Id>)
      reads service
    {
      exists j :: j in old(service.run.ints) && old(service.run.ints)[j] == g
        && service.Answers([PersonAnswers(j, Result(false, targets, None))])
    }

    /** What a verdict on request e comes to: the mechanical check is made again, the gate's own person is answered for
        with the recorded targets, and the verdict goes on record after that. */
    twostate predicate Carries(g: Id, e: E.Entry, approve: bool, reply: SettleReply)
      requires e.Asked?
      reads this, service
    {
      && (reply.NoLongerLegal? <==> approve && !AllLegal(old(service.run.s.dag), g, e.targets))
      && (reply.NobodyWaiting? <==>
            approve && AllLegal(old(service.run.s.dag), g, e.targets) && g !in old(service.run.ints.Values))
      && (reply.ExecutionRaised? ==> approve)
      && (OnRecord(reply) ==>
            && reply.approved == approve
            && logs == old(logs)[g := LogFor(old(logs), g) + [E.Settled(e.number, approve)]])
      && (reply.ExecutionRaised? || (OnRecord(reply) && approve) ==> SentBack(g, e.targets))
      && ((OnRecord(reply) && approve && service.errors == old(service.errors)
           && SendsWorkBack(old(service.run.s.dag), g, Result(false, e.targets, None))) ==>
            Landed(old(service.run.s), service.run.s, g))
    }

    /** A verdict on a request: refused exactly if no request is meant that this person may settle, and otherwise
        carried out if it approves, and only then put on record. */
    method Settle(g: Id, author: Token, tokens: set<Token>, number: Option<nat>, approve: bool)
      returns (reply: SettleReply)
      requires InOrder()
      modifies this, service, service.corr, service.idem
      modifies service.world`created, service.world`minted, service.world`closed, service.world`failures
      ensures InOrder() && NothingRevived()
      ensures var attempt, answered := AttemptOf(old(service.run.s), g),
          Answered(StatusOf(old(service.run.s.status), g));
              var log := LogFor(old(logs), g);
              && (reply.Refused? <==> forall e :: !E.MaySettle(log, attempt, answered, author, tokens, number, e))
              && (reply.Refused? ==> reply.why == E.Check(log, attempt, answered, author, tokens, number))
              && forall e :: E.MaySettle(log, attempt, answered, author, tokens, number, e) ==>
                   Carries(g, e, approve, reply)
      ensures !OnRecord(reply) ==> logs == old(logs)
      ensures reply.Refused? || reply.NoLongerLegal? || reply.NobodyWaiting? ==> service.Now() == old(service.Now())
      ensures reply.ExecutionRaised? || reply.RecordRaised? ==> old(service.world.failures) < service.world.failures
      ensures !approve ==> service.Driven()
      ensures OnRecord(reply) ==>
        forall x :: x in reply.reopened ==> AttemptOf(old(service.run.s), x) < AttemptOf(service.run.s, x)
    {
      hide Inv, IsHistory, LogsOk, NoneRevived, E.DeskOk, E.StaysOver, E.Check, E.Pick, LogFor, Answered, E.MaySettle;
      hide Marked, Started, Carries, E.Numbered;
      var attempt, answered := AttemptOf(service.run.s, g), Answered(StatusOf(service.run.s.status, g));
      var log := LogFor(logs, g);
      var check := E.Check(log, attempt, answered, author, tokens, number);
      NothingHappened(service.run.s, logs);
      LogAt(service.run.s, logs, g);
      DeskIsNumbered(g, DeskAt(service.run.s, logs, g));
      E.RefusedIsNobodys(log, attempt, answered, author, tokens, number);
      if !check.Proceed? {
        return Refused(check);
      }
      E.BeginKeepsDesk(g, DeskAt(service.run.s, logs, g), author, tokens, number);
      E.ProceedIsPicked(log, attempt, answered, author, tokens, number);
      NotAnsweredIsPending(service.Now(), g);
      reply := CarryOut(g, E.Pick(log, attempt, answered, number).0.value, approve);
    }

    /** Executes an approved request, and then records the verdict. */
    method CarryOut(g: Id, e: E.Entry, approve: bool) returns (reply: SettleReply)
      requires InOrder() && StatusOf(service.run.s.status, g) == Pending && e.Asked?
      requires E.DeskOk(g, DeskAt(service.run.s, logs, g).(settling := Some(e.number)))
      modifies this, service, service.corr, service.idem
      modifies service.world`created, service.world`minted, service.world`closed, service.world`failures
      ensures InOrder() && NothingRevived()
      ensures !reply.Refused? && Carries(g, e, approve, reply)
      ensures !OnRecord(reply) ==> logs == old(logs)
      ensures reply.NoLongerLegal? || reply.NobodyWaiting? ==> service.Now() == old(service.Now())
      ensures reply.ExecutionRaised? || reply.RecordRaised? ==> old(service.world.failures) < service.world.failures
      ensures !approve ==> service.Driven()
      ensures OnRecord(reply) ==>
        forall x :: x in reply.reopened ==> AttemptOf(old(service.run.s), x) < AttemptOf(service.run.s, x)
    {
      hide Inv, IsHistory, LogsOk, NoneRevived, E.DeskOk, E.StaysOver, AllLegal, LogFor, Answered;
      hide RoundsGrow, SendsWorkBack, Landed, BackMeansNewRound, Marked, Started;
      ghost var s0, logs0 := service.run.s, logs;
      var log := LogFor(logs, g);
      ghost var m0 := |service.acts|;
      HistoryIsOneLonger(service.history, service.acts);
      NothingHappened(service.run.s, logs);
      var reopened := {};
      if approve {
        var done := Execute(g, e.number, e.targets);
        if !done.Recorded? {
          return done;
        }
        reopened := done.reopened;
      }
      ghost var s1 := service.run.s;
      ghost var m := |service.acts|;
      HistoryIsOneLonger(service.history, service.acts);
      VerdictIsLegal(g, DeskAt(s1, logs, g), e.number, approve);
      var raised := Append(g, log + [E.Settled(e.number, approve)]);
      HistoryIsOneLonger(service.history, service.acts);
      HistoryGrows(service.history, service.acts, m, |service.acts|);
      assert service.history[m].run.s == s1;
      NoneRevivedTrans(s0, logs0, s1, logs0, service.run.s, logs);
      StillReopened(s0, s1, service.run.s, reopened);
      StillLanded(service.history, service.acts, m0, m, |service.acts|, g);
      reply := if raised then RecordRaised(approve, reopened) else Recorded(approve, reopened);
    }

    /** Writes one gate's log into the running instance, and pushes the instance on; either may end in an exception,
        with the log already written. */
    method Append(g: Id, log: E.Log) returns (raised: bool)
      requires InOrder()
      requires E.DeskOk(g, E.Desk(service.run.s, log, None))
      requires E.StaysOver(g, DeskAt(service.run.s, logs, g), E.Desk(service.run.s, log, None))
      modifies this, service, service.corr, service.idem
      modifies service.world`created, service.world`minted, service.world`closed, service.world`failures
      ensures InOrder() && NothingRevived() && service.Driven() && logs == old(logs)[g := log]
      ensures old(service.errors) <= service.errors
      ensures raised ==> old(service.world.failures) < service.world.failures
    {
      hide Inv, IsHistory, LogsOk, NoneRevived, E.DeskOk, E.StaysOver, Waits, CarriedFrom, Extends, Fingerprint;
      hide Stalled, AllServed, SkipServed, CanCrash, Rank, Marked, Started;
      ghost var m, s0, logs0 := |service.acts|, service.run.s, logs;
      WriteLog(s0, logs, g, log);
      HistoryIsOneLonger(service.history, service.acts);
      logs := logs[g := log];
      assert service.Valid();
      var remapped;
      remapped, raised := service.WriteState(Touch);
      if !raised {
        var outcome := service.Advance(remapped);
        raised := outcome.Raised?;
      }
      HistoryIsOneLonger(service.history, service.acts);
      assert service.history[m].run.s == s0;
      DesksFollow(service.history, service.acts, m, |service.acts|, logs);
      NoneRevivedTrans(s0, logs0, s0, logs, service.run.s, logs);
    }
  }

  // ---------- the desk follows the service ----------

  lemma EmptyDesk(v: Svc, g: Id)
    requires Inv(v)
    ensures E.DeskOk(g, E.Desk(v.run.s, [], None))
  {
    InvRunOk(v);
    RunIsValid(v.run);
    hide Inv, Valid;
  }

  lemma RequestIsSendBack(dag: Dag, g: Id, answer: Result, roles: Option<set<Token>>, owner: set<Token>, reply: Reply)
    requires Escalated(dag, g, answer, roles, owner, reply)
    ensures SendsWorkBack(dag, g, answer)
  {
  }

  lemma DeskFollows(vs: seq<Svc>, acts: seq<Action>, m: nat, n: nat, g: Id, d: E.Desk)
    requires IsHistory(vs, acts) && Inv(vs[0]) && m <= n < |vs|
    requires d.s == vs[m].run.s && E.DeskOk(g, d)
    ensures E.DeskOk(g, d.(s := vs[n].run.s)) && E.StaysOver(g, d, d.(s := vs[n].run.s))
  {
    HistoryInv(vs, acts, n);
    InvRunOk(vs[n]);
    RunIsValid(vs[n].run);
    hide Inv, RunOk, Valid, BackMeansNewRound, E.DeskOk, E.StaysOver, IsHistory;
    HistoryMeansNewRound(vs, acts, m, n, g);
    E.MovingOnKeepsDesk(g, d, vs[n].run.s);
  }

  lemma DesksFollow(vs: seq<Svc>, acts: seq<Action>, m: nat, n: nat, logs: map<Id, E.Log>)
    requires IsHistory(vs, acts) && Inv(vs[0]) && m <= n < |vs|
    requires LogsOk(vs[m].run.s, logs)
    ensures LogsOk(vs[n].run.s, logs) && NoneRevived(vs[m].run.s, logs, vs[n].run.s, logs)
  {
    hide Inv, IsHistory, E.DeskOk, E.StaysOver, LogFor;
    forall g
      ensures E.DeskOk(g, DeskAt(vs[n].run.s, logs, g))
      ensures E.StaysOver(g, DeskAt(vs[m].run.s, logs, g), DeskAt(vs[n].run.s, logs, g))
    {
      DeskFollows(vs, acts, m, n, g, DeskAt(vs[m].run.s, logs, g));
    }
  }

  lemma DeskIsNumbered(g: Id, d: E.Desk)
    requires E.DeskOk(g, d)
    ensures E.Numbered(d.log)
  {
  }

  lemma LogAt(s: State, logs: map<Id, E.Log>, g: Id)
    requires LogsOk(s, logs)
    ensures E.DeskOk(g, DeskAt(s, logs, g))
  {
  }

  lemma NotAnsweredIsPending(v: Svc, g: Id)
    requires Inv(v) && !Answered(StatusOf(v.run.s.status, g))
    ensures StatusOf(v.run.s.status, g) == Pending
  {
    InvRunOk(v);
    RunIsValid(v.run);
    hide Inv, RunOk;
  }

  lemma StillLanded(vs: seq<Svc>, acts: seq<Action>, m: nat, n: nat, k: nat, g: Id)
    requires IsHistory(vs, acts) && Inv(vs[0]) && m <= n <= k < |vs|
    ensures Landed(vs[m].run.s, vs[n].run.s, g) ==> Landed(vs[m].run.s, vs[k].run.s, g)
  {
    hide Inv, IsHistory, Landed, BackMeansNewRound;
    HistoryMeansNewRound(vs, acts, m, n, g);
    HistoryMeansNewRound(vs, acts, n, k, g);
    if Landed(vs[m].run.s, vs[n].run.s, g) {
      LandedStays(vs[m].run.s, vs[n].run.s, vs[k].run.s, g);
    }
  }

  lemma StillReopened(s0: State, s1: State, s2: State, reopened: set<Id>)
    requires RoundsGrow(s1, s2) && forall x :: x in reopened ==> AttemptOf(s0, x) < AttemptOf(s1, x)
    ensures forall x :: x in reopened ==> AttemptOf(s0, x) < AttemptOf(s2, x)
  {
  }

  lemma NothingHappened(s: State, logs: map<Id, E.Log>)
    ensures NoneRevived(s, logs, s, logs)
  {
  }

  lemma VerdictIsLegal(g: Id, d: E.Desk, n: nat, approve: bool)
    requires E.DeskOk(g, d.(settling := Some(n)))
    ensures E.DeskOk(g, d.(log := d.log + [E.Settled(n, approve)], settling := None))
    ensures E.StaysOver(g, d, d.(log := d.log + [E.Settled(n, approve)], settling := None))
  {
    hide E.DeskOk, E.StaysOver;
    E.EndKeepsDesk(g, d.(settling := Some(n)), approve);
    E.AppendKeepsOver(g, d, E.Settled(n, approve), None);
  }

  lemma WriteLog(s: State, logs: map<Id, E.Log>, g: Id, log: E.Log)
    requires LogsOk(s, logs) && E.DeskOk(g, E.Desk(s, log, None))
    requires E.StaysOver(g, DeskAt(s, logs, g), E.Desk(s, log, None))
    ensures LogsOk(s, logs[g := log]) && NoneRevived(s, logs, s, logs[g := log])
  {
    hide E.DeskOk, E.Over;
    var logs' := logs[g := log];
    forall h
      ensures E.DeskOk(h, DeskAt(s, logs', h))
    {
      assert E.DeskOk(h, DeskAt(s, logs, h));
    }
  }

  lemma NoneRevivedTrans(s: State, logs: map<Id, E.Log>, s': State, logs': map<Id, E.Log>, s'': State,
                         logs'': map<Id, E.Log>)
    requires NoneRevived(s, logs, s', logs') && NoneRevived(s', logs', s'', logs'')
    ensures NoneRevived(s, logs, s'', logs'')
  {
    hide E.StaysOver, DeskAt;
    forall g
      ensures E.StaysOver(g, DeskAt(s, logs, g), DeskAt(s'', logs'', g))
    {
      E.StaysOverTrans(g, DeskAt(s, logs, g), DeskAt(s', logs', g), DeskAt(s'', logs'', g));
    }
  }

  lemma FilingIsLegal(g: Id, d: E.Desk, who: Option<Token>, targets: seq<Id>, approvers: set<Token>,
                      notified: set<Token>)
    requires E.DeskOk(g, d) && d.settling.None?
    ensures var asked := E.Ask(d.log, AttemptOf(d.s, g), Answered(StatusOf(d.s.status, g)), who, targets,
        approvers, notified);
            E.DeskOk(g, d.(log := asked.0)) && E.StaysOver(g, d, d.(log := asked.0))
  {
    hide E.DeskOk, E.StaysOver, E.Ask;
    E.AskKeepsDesk(g, d, who, targets, approvers, notified);
    E.AskKeepsOver(g, d, who, targets, approvers, notified);
  }
}
