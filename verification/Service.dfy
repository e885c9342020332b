/** The service object: it owns the tables, drives super-steps, and is proved to act as the driver machine does. */
module Service {
  import opened Graph
  import opened Template
  import opened State
  import opened Gates
  import opened Engine
  import opened Termination
  import opened LiveGraph
  import opened Permissions
  import opened Accounting
  import opened Driver
  import opened Rounds
  import Tables = Correlations
  import opened Safety
  import opened Progress
  import opened Rebound
  import opened Cards

  /** The outside: tasks and cards that were created, with the interrupt id each was created with, which tasks read as
      completed, by whom, and how many calls have failed. */
  class World {
    var created: seq<Key>
    var minted: seq<nat>
    var closed: set<nat>
    var finished: set<nat>
    var failures: nat

    constructor ()
      ensures created == [] && minted == [] && closed == {} && finished == {} && failures == 0
    {
      created, minted, closed, finished, failures := [], [], {}, {}, 0;
    }

    /** Any call to the outside may fail, and nothing else does. */
    method Try() returns (ok: bool)
      modifies this`failures
      ensures failures == old(failures) + if ok then 0 else 1
    {
      ok := *;
      if !ok {
        failures := failures + 1;
      }
    }

    /** Creates a task or card; a card's buttons carry the interrupt id for good. */
    method Create(key: Key, interrupt: nat) returns (ext: Option<nat>)
      modifies this`created, this`minted, this`failures
      ensures failures == old(failures) + if ext.Some? then 0 else 1
      ensures ext.None? ==> created == old(created) && minted == old(minted)
      ensures ext.Some? ==> ext.value == |old(created)| && created == old(created) + [key]
      ensures ext.Some? ==> minted == old(minted) + [interrupt]
    {
      var ok := Try();
      if !ok {
        return None;
      }
      ext := Some(|created|);
      created, minted := created + [key], minted + [interrupt];
    }

    /** A person ticks a task off. */
    method Finish(ext: nat)
      modifies this`finished
      ensures finished == old(finished) + {ext}
    {
      finished := finished + {ext};
    }

    /** Marks a task completed on the engine's behalf. */
    method CompleteTask(ext: nat) returns (ok: bool)
      modifies this`closed, this`failures
      ensures failures == old(failures) + if ok then 0 else 1
      ensures closed == if ok then old(closed) + {ext} else old(closed)
    {
      ok := Try();
      if ok {
        closed := closed + {ext};
      }
    }

    /** Reads whether a task is completed; it cannot say by whom. */
    method IsCompleted(ext: nat) returns (answer: Option<bool>)
      modifies this`failures
      ensures failures == old(failures) + if answer.Some? then 0 else 1
      ensures answer.Some? ==> (answer.value <==> ext in closed || ext in finished)
    {
      var ok := Try();
      answer := if ok then Some(ext in closed || ext in finished) else None;
    }
  }

  datatype Trouble =
    | DispatchFailed(node: Id)
    | CloseFailed(node: Id, attempt: nat)
    | ReadFailed(node: Id)
    | Recovered(node: Id)
    | NotConverged(rounds: nat)
    | AdvanceFailed

  datatype PumpOutcome = Quiescent | Exhausted | Raised

  /** What became of a person's answer. */
  datatype Reply =
    | Resumed(interrupt: nat, outcome: PumpOutcome)
    | Stale
    | UnidentifiedGate
    | IllegalTargets(targets: seq<Id>)
    | NotTheAnswerer
    | NotPermitted(targets: seq<Id>)
    | NeedsApproval(gate: Id, requests: seq<Request>)

  datatype EditReply =
    | EditRefused(error: EditError)
    | EditUnauthorized
    | EditMissingAudit
    | EditInvalid(verdict: Template.Verdict)
    | EditApplied(outcome: PumpOutcome)

  datatype UnblockReply =
    | NoSuchNode
    | NotBlocked
    | UnblockMissingAudit
    | UnblockExhausted
    | UnblockIllegal(targets: seq<Id>)
    | Lifted(outcome: PumpOutcome)
    | Refunded
    | WriteRaised

  class LarkFlowService {
    var run: Inst
    var errors: seq<Trouble>
    const corr: Tables.Correlations
    const idem: Tables.IdemStore
    const world: World

    ghost var bridge: Option<map<nat, Id>>
    ghost var history: seq<Svc>
    ghost var acts: seq<Action>

    ghost function Now(): Svc
      reads this, corr, idem, world
    {
      Svc(run, bridge, corr.remap, idem.keys, corr.rows, world.created, world.minted, world.closed, world.finished)
    }

    /** What the object has done so far is a history of the driver machine from the start of the instance to here, and a
        round is only marked as closed when its task has been. */
    ghost predicate Valid()
      reads this, corr, idem, world
    {
      && IsHistory(history, acts)
      && history[|history| - 1] == Now()
      && history[0] == Started(history[0].run.s.dag) && Inv(history[0]) && Inv(Now())
      && Marked(idem.closed, idem.keys, world.closed)
    }

    /** Histories are only ever extended, and failures are not forgotten. */
    twostate predicate Continued()
      reads this, world
    {
      old(acts) <= acts && old(history) <= history && old(world.failures) <= world.failures
    }

    /** Only the engine has been at work since then: nobody's answer was taken. */
    twostate predicate Driven()
      reads this, world
    {
      Continued() && forall k :: |old(acts)| <= k < |acts| ==> !acts[k].PersonAnswers?
    }

    /** Nor did the driver write anything into the instance. */
    twostate predicate Within()
      reads this, world
    {
      Continued() && forall k :: |old(acts)| <= k < |acts| ==>
        !acts[k].PersonAnswers? && !acts[k].WriteBegins? && !acts[k].WriteCrashes?
    }

    /** Whatever the driver wrote were plain pushes, and none of them crashed. */
    twostate predicate Calm()
      reads this, world
    {
      Continued() && forall k :: |old(acts)| <= k < |acts| ==> Mild(acts[k])
    }

    /** The answers taken since then are these, before anything else happened. */
    twostate predicate Answers(first: seq<Action>)
      reads this
    {
      && old(acts) + first <= acts
      && forall k :: |old(acts)| + |first| <= k < |acts| ==> !acts[k].PersonAnswers?
    }

    /** No reading of a task was recorded as failed since then. */
    twostate predicate NoneUnread()
      reads this
    {
      forall k :: |old(errors)| <= k < |errors| ==> !errors[k].ReadFailed?
    }

    /** How a push that began then ended: in an exception only if a call failed, and otherwise with plain pushes only.
        */
    twostate predicate Outcome(outcome: PumpOutcome)
      reads this, world
    {
      && (outcome.Raised? ==> old(world.failures) < world.failures)
      && (!outcome.Raised? ==> Calm())
    }

    /** The first thing done since then is this action. */
    twostate predicate Next(a: Action)
      reads this
    {
      |old(acts)| < |acts| && acts[|old(acts)|] == a
    }

    constructor (dag: Dag)
      requires ValidTemplate(dag)
      ensures Valid() && Now() == Started(dag) && errors == []
      ensures fresh(corr) && fresh(idem) && fresh(world)
    {
      run := Inst(Fresh(dag), {}, map[], []);
      errors := [];
      corr := new Tables.Correlations();
      idem := new Tables.IdemStore();
      world := new World();
      bridge := None;
      history, acts := [Started(dag)], [];
      new;
      StartedInv(dag);
    }

    /** Appends the action that led from the recorded state to the present one. */
    ghost method Record(a: Action)
      requires IsHistory(history, acts) && history[0] == Started(history[0].run.s.dag) && Inv(history[0])
      requires Marked(idem.closed, idem.keys, world.closed)
      requires Inv(history[|history| - 1]) && Step(history[|history| - 1], a, Now())
      modifies this`history, this`acts
      ensures Valid() && Now() == old(Now())
      ensures history == old(history) + [Now()] && acts == old(acts) + [a]
    {
      hide Inv, Step, Marked, Started;
      ghost var vs, bs := history, acts;
      ActionKeepsInv(history[|history| - 1], a, Now());
      history, acts := history + [Now()], acts + [a];
      ExtendHistory(vs, bs, a, Now());
    }

    /** Everyone waiting has been sent a card or task; a task leads to him, and a card does exactly if nothing since
        it was sent has cut its chain. */
    ghost predicate EveryoneServed()
      reads this, corr, idem, world
    {
      |history| == |acts| + 1 && forall i :: Awaited(Now(), i) ==>
        Served(Now(), i) && (Routed(Now(), i) <==> Uncut(history, acts, i))
    }

    lemma ServedIsReached()
      requires Valid() && bridge.None?
      ensures AllServed(Now()) ==> EveryoneServed()
    {
      hide Inv, IsHistory, Served, Routed, Uncut, Unanswered, Marked;
      HistoryIsOneLonger(history, acts);
      forall i | AllServed(Now()) && Awaited(Now(), i)
        ensures Routed(Now(), i) <==> Uncut(history, acts, i)
      {
        ServedReach(history, acts, i);
      }
    }

    // ---------- one action at a time ----------

    method Return(x: Id, res: Result)
      requires Valid() && x in run.step && StatusOf(run.s.status, x) == Pending && !IsHuman(run.s, x)
      modifies this`run, this`history, this`acts
      ensures Valid() && Within() && run == old(run).(s := Complete(old(run.s), x, res))
    {
      hide Inv, Complete, IsHuman;
      run := run.(s := Complete(run.s, x, res));
      Record(WorkerReturns(x, res));
    }

    method Ask(x: Id)
      requires Valid() && x in run.step && StatusOf(run.s.status, x) == Pending
      requires IsHuman(run.s, x) && x !in run.ints.Values
      modifies this`run, this`history, this`acts
      ensures Valid() && Within() && run == Asked(old(run), x)
    {
      hide Inv, IsHuman;
      run := Asked(run, x);
      Record(PersonAsked(x));
    }

    method Answer(i: nat, res: Result)
      requires Valid() && bridge.None? && i in run.ints && StatusOf(run.s.status, run.ints[i]) == Pending
      modifies this`run, this`history, this`acts
      ensures Valid() && Continued() && run == old(run).(s := Complete(old(run.s), old(run.ints[i]), res))
      ensures acts == old(acts) + [PersonAnswers(i, res)]
    {
      hide Inv, Complete;
      run := run.(s := Complete(run.s, run.ints[i], res));
      Record(PersonAnswers(i, res));
    }

    method LiftBarrier()
      requires Valid() && !Busy(run)
      modifies this`run, this`history, this`acts
      ensures Valid() && Within() && run == Launch(old(run), Dispatch(old(run.s)))
    {
      hide Inv, Busy, Dispatch, ReadyIds;
      var s := RunDispatch(run.s);
      var ready := ReadySet(s);
      run := Inst(s, ready, map[], run.issued);
      Record(BarrierLifts);
    }

    // ---------- a super-step, and the run to the next barrier ----------

    /** One member: a tool or model answers as it pleases, a person is asked once, and either can end the whole call
        in an exception, a person's node only while the document to be written is prepared. */
    method RunOne(x: Id) returns (raised: bool)
      requires Valid()
      modifies this`run, this`history, this`acts, world`failures
      ensures Valid() && Within() && Continues(old(run), run)
      ensures !raised ==> Handled(run, x)
      ensures raised ==> !Safe(run) && old(world.failures) < world.failures
      ensures Safe(old(run)) ==> Safe(run) && run.s == old(run.s)
    {
      hide Inv, Complete, IsHuman, Continues, Asked, IsHistory, MayRaise, Marked, Started, Safe, RunOk;
      InvRunOk(Now());
      ghost var r := run;
      raised := false;
      ContinuesSelf(r);
      OnlyPeopleAsked(r, x);
      if x in run.step && StatusOf(run.s.status, x) == Pending && x !in run.ints.Values {
        if MayRaise(run.s, x) {
          var ok := world.Try();
          if !ok {
            FailingIsUnsafe(r, x);
            return true;
          }
        }
        if IsHuman(run.s, x) {
          AskContinues(r, x);
          AskSafe(r, x);
          Ask(x);
        } else {
          MachineIsUnsafe(r, x);
          var res: Result := *;
          ReturnContinues(r, x, res);
          Return(x, res);
        }
      }
    }

    /** Runs everything of the super-step that is still out. */
    method RunStep() returns (waiting: bool, raised: bool)
      requires Valid()
      modifies this`run, this`history, this`acts, world`failures
      ensures Valid() && Within() && Continues(old(run), run)
      ensures !raised ==> Waits(run) && (waiting <==> Busy(run))
      ensures raised ==> !Safe(run) && old(world.failures) < world.failures
      ensures Safe(old(run)) ==> !raised && run.s == old(run.s)
    {
      hide Inv, IsHuman, Continues, Busy, Handled, IsHistory, CanFail, Marked, Started;
      var dag := run.s.dag;
      ghost var r0 := run;
      ContinuesSelf(run);
      for i := 0 to |dag|
        invariant Valid() && Within() && Continues(r0, run)
        invariant forall k :: 0 <= k < i ==> Handled(run, dag[k].id)
        invariant Safe(r0) ==> Safe(run) && run.s == r0.s
      {
        ghost var r := run;
        raised := RunOne(dag[i].id);
        ContinuesChain(r0, r, run);
        if raised {
          return false, true;
        }
        forall k | 0 <= k < i
          ensures Handled(run, dag[k].id)
        {
          HandledStays(r, run, dag[k].id);
        }
      }
      InvRunOk(Now());
      ContinuesDag(r0, run);
      AllHandled(run);
      BusyMeans(run);
      waiting := exists x :: x in run.step && StatusOf(run.s.status, x) == Pending;
      raised := false;
    }

    /** Past the barrier: dispatch, launch what is ready, and run it. */
    method NextStep() returns (waiting: bool, raised: bool)
      requires Valid() && !Busy(run)
      modifies this`run, this`history, this`acts, world`failures
      ensures Valid() && Within() && Moves(old(run), run)
      ensures !raised ==> Waits(run) && (waiting <==> Busy(run))
      ensures raised ==> !Safe(run) && old(world.failures) < world.failures
      ensures !raised && !waiting && run.step != {} ==> Rank(run.s) < Rank(old(run.s))
    {
      hide Inv, Busy, IsHistory, Continues, Waits, Rank, Dispatch, ReadyIds, Moves, Safe, Marked, Started, RunOk;
      ghost var r := run;
      InvRunOk(Now());
      LaunchMoves(r);
      LiftBarrier();
      ghost var r' := run;
      waiting, raised := RunStep();
      MovesInStep(r', run);
      MovesChain(r, r', run);
      MovesRank(r, r');
    }

    /** Super-steps follow one another until a person is awaited, nothing is ready, or a call fails. */
    method Proceed() returns (raised: bool)
      requires Valid()
      modifies this`run, this`history, this`acts, world`failures
      ensures Valid() && Within() && Moves(old(run), run)
      ensures !raised ==> Waits(run)
      ensures raised ==> !Safe(run) && old(world.failures) < world.failures
      ensures !raised ==> Busy(run) || run.step == {}
      ensures Safe(old(run)) && JustLaunched(old(run)) ==> !raised
      ensures JustLaunched(old(run)) && run.s == old(run.s) ==> run.step == old(run.step)
    {
      hide Inv, Busy, IsHistory, Continues, Waits, Rank, Moves;
      ghost var r0 := run;
      var waiting;
      waiting, raised := RunStep();
      MovesInStep(r0, run);
      while !raised && !waiting && run.step != {}
        invariant Valid() && Within() && Moves(r0, run)
        invariant !raised ==> Waits(run) && (waiting <==> Busy(run))
        invariant raised ==> !Safe(run) && old(world.failures) < world.failures
        invariant Safe(r0) && JustLaunched(r0) ==> !raised && (waiting || run.step == {})
        invariant JustLaunched(r0) && run.s == r0.s ==> run.step == r0.step && (raised || waiting || run.step == {})
        decreases Rank(run.s), if raised || waiting || run.step == {} then 0 else 1
      {
        ghost var r := run;
        waiting, raised := NextStep();
        MovesChain(r0, r, run);
        MovesRank(r, run);
      }
    }

    // ---------- writing into a running instance ----------

    /** Whom the coming dispatch or the update itself will send into a new round, judged on the state before the
        write. */
    method Predict(u: Update) returns (reopening: set<Id>)
      ensures reopening == Reopening(run.s, u)
    {
      hide ReopenResets, Pull;
      var resets := ComputeReopenResets(run.s);
      reopening := set x | x in resets && resets[x] == Pending;
      if u.Lift? {
        var thawed := ComputeUnblockResets(run.s.dag, u.node, u.targets);
        reopening := reopening + thawed.Keys;
      }
    }

    /** Applies the update, dispatches, and launches the next super-step; remembers who will be carried over. */
    method BeginWrite(u: Update) returns (before: map<nat, Id>)
      requires Valid() && bridge.None? && CanUpdate(run, u)
      modifies this`run, this`bridge, this`history, this`acts
      ensures Valid() && Driven() && run == Launch(old(run), Dispatch(Updated(old(run.s), u)))
      ensures bridge == Some(before) && before == Survivors(old(run), u)
      ensures acts == old(acts) + [WriteBegins(u)]
    {
      hide Inv, CanUpdate, Dispatch, ReadyIds, Updated, IsHistory, Reopening;
      var reopening := Predict(u);
      before := map i | i in run.ints && Unanswered(run.s, run.ints[i]) && run.ints[i] !in reopening :: run.ints[i];
      var s := ApplyUpdate(run.s, u);
      s := RunDispatch(s);
      var ready := ReadySet(s);
      run := Inst(s, ready, map[], run.issued);
      bridge := Some(before);
      Record(WriteBegins(u));
    }

    /** Records, for everyone carried over, how his old interrupt id leads to the new one. */
    method PutRemaps(before: map<nat, Id>) returns (remapped: set<nat>)
      requires OnePerNode(run.ints)
      modifies corr`remap
      ensures corr.remap == old(corr.remap) + Carried(before, run.ints)
      ensures remapped == Carried(before, run.ints).Values
    {
      ghost var carried := Carried(before, run.ints);
      ghost var done: map<nat, nat> := map[];
      remapped := {};
      var todo := before.Keys;
      hide Carried, OnePerNode;
      assert corr.remap + done == corr.remap;
      while todo != {}
        invariant todo <= before.Keys
        invariant forall o :: o in done <==> o in carried && o !in todo
        invariant forall o :: o in done ==> done[o] == carried[o]
        invariant corr.remap == old(corr.remap) + done && remapped == done.Values
      {
        var o :| o in todo;
        if before[o] in run.ints.Values {
          var i :| i in run.ints && run.ints[i] == before[o];
          CarriedUnique(before, run.ints, o, i);
          corr.PutRemap(o, i);
          remapped := remapped + {i};
          AddPair(done, o, i);
          done := done[o := i];
        }
        todo := todo - {o};
      }
      assert done == carried;
    }

    method RemapInterrupts(before: map<nat, Id>) returns (remapped: set<nat>)
      requires Valid() && bridge == Some(before) && Waits(run)
      modifies this`bridge, this`history, this`acts, corr`remap
      ensures Valid() && Within() && bridge.None?
      ensures corr.remap == old(corr.remap) + Carried(before, run.ints)
      ensures remapped == Carried(before, run.ints).Values
    {
      hide Inv, IsHistory, OnePerNode, Carried;
      assert OnePerNode(run.ints) by { InvDistinct(Now()); }
      remapped := PutRemaps(before);
      bridge := None;
      Record(WriteEnds);
    }

    /** A call failed in the middle of a write: nobody is carried over. */
    method Crash()
      requires Valid() && bridge.Some? && !Safe(run)
      modifies this`bridge, this`history, this`acts
      ensures Valid() && Driven() && Now() == old(Now()).(bridge := None)
      ensures |acts| == |old(acts)| + 1 && acts[|old(acts)|].WriteCrashes?
    {
      hide Inv, IsHistory, CanFail, Marked, Started;
      ghost var x :| CanFail(run, x);
      bridge := None;
      Record(WriteCrashes(x));
    }

    /** The run behind a write, and what it comes to: everyone is carried over, or a call failed and nobody is. */
    method FinishWrite(before: map<nat, Id>) returns (remapped: set<nat>, raised: bool, ghost v: Svc)
      requires Valid() && bridge == Some(before)
      modifies this`run, this`bridge, this`history, this`acts, corr`remap, world`failures
      ensures Valid() && Driven() && bridge.None? && Moves(old(run), run)
      ensures forall k :: |old(acts)| <= k < |acts| ==> !acts[k].WriteBegins?
      ensures raised ==> remapped == {} && corr.remap == old(corr.remap) && old(world.failures) < world.failures
      ensures !raised ==> Within() && Waits(run)
      ensures !raised ==> corr.remap == old(corr.remap) + Carried(before, run.ints)
      ensures !raised ==> remapped == Carried(before, run.ints).Values
      ensures Inv(v) && v == Now().(bridge := Some(before), remap := old(corr.remap))
      ensures Safe(old(run)) && JustLaunched(old(run)) ==> !raised
      ensures JustLaunched(old(run)) && run.s == old(run.s) ==> run.step == old(run.step)
    {
      hide Inv, IsHistory, Carried, Waits, Moves, JustLaunched, Safe, Marked, Started;
      raised := Proceed();
      v := Now();
      assert Inv(v);
      if raised {
        remapped := {};
        Crash();
      } else {
        remapped := RemapInterrupts(before);
      }
    }

    /** A value-preserving write and the run that follows it. If a call fails on the way, nobody is carried over. */
    method WriteState(u: Update) returns (remapped: set<nat>, raised: bool)
      requires Valid() && bridge.None? && CanUpdate(run, u)
      modifies this`run, this`bridge, this`history, this`acts, corr`remap, world`failures
      ensures Valid() && Driven() && bridge.None? && Next(WriteBegins(u))
      ensures run.s.dag == Updated(old(run.s), u).dag && run.s.unblocks == Updated(old(run.s), u).unblocks
      ensures old(run.issued) <= run.issued
      ensures Extends(old(corr.remap), corr.remap)
      ensures forall i :: i in remapped ==> CarriedFrom(old(Now()), Now(), i)
      ensures !raised ==> Waits(run)
      ensures raised ==> CanCrash(Dispatch(Updated(old(run.s), u))) && old(world.failures) < world.failures
      ensures !raised && u.Touch? ==> Calm()
      ensures u.Touch? && !raised && Fingerprint(run.s) == Fingerprint(old(run.s)) ==> !Stalled(run)
      ensures u.Touch? && Fingerprint(run.s) != Fingerprint(old(run.s)) ==> Rank(run.s) < Rank(old(run.s))
    {
      hide Inv, CanUpdate, Dispatch, ReadyIds, Updated, IsHistory, Survivors, Carried, Waits, Moves, Stalled;
      hide JustLaunched, Fingerprint, CarriedFrom, Extends, Safe, CanCrash, Marked, Started, Rank;
      ghost var v0 := Now();
      assert u.Touch? ==> Updated(run.s, u) == run.s by { TouchIsIdentity(run.s, u); }
      var before := BeginWrite(u);
      ghost var launched := run;
      LaunchIsFresh(v0.run, Dispatch(Updated(v0.run.s, u)));
      LaunchCrashes(v0.run, Dispatch(Updated(v0.run.s, u)));
      ghost var v1;
      remapped, raised, v1 := FinishWrite(before);
      LaunchedFrame(v0.run, u, run);
      TouchRank(v0, u, launched, run);
      if raised {
        ExtendsSelf(corr.remap);
      } else {
        QuietAfterTouch(v0, launched, run);
        CarriedOver(v0, u, v1, launched);
      }
    }

    // ---------- sending cards and tasks ----------

    /** One dispatch: reuse the object of this node and round if there is one, else create it; either way its row now
        has the present interrupt. A card created earlier keeps the id on its buttons. A failed creation leaves no
        trace, so that a later call tries again. */
    method Provision(i: nat) returns (ok: bool)
      requires Valid() && bridge.None? && i in run.ints && Unanswered(run.s, run.ints[i])
      requires KindOf(run.s, run.ints[i]).Some?
      modifies this`history, this`acts, corr`rows, idem`keys, world`created, world`minted, world`failures
      ensures Valid() && Within() && Now() == if ok then Provisioned(old(Now()), i) else old(Now())
      ensures !ok ==> old(world.failures) < world.failures
    {
      hide Inv, IsHistory, KindOf, Unanswered, Started;
      var key := KeyOf(run.s, run.ints[i]);
      var ext;
      if key in idem.keys {
        ext := idem.keys[key];
      } else {
        var made := world.Create(key, i);
        if made.None? {
          return false;
        }
        ext := made.value;
        idem.Put(key, ext);
      }
      corr.Put(ext, Row(i, key.node, key.kind));
      Record(Provisions(i));
      ok := true;
    }

    /** Sends to one person; a failure is recorded and stops nobody else. */
    method Send(i: nat)
      requires Valid() && bridge.None? && Awaited(Now(), i)
      modifies this`errors, this`history, this`acts, corr`rows, idem`keys, world`created, world`minted, world`failures
      ensures Valid() && Within() && old(errors) <= errors
      ensures errors == old(errors) ==> Served(Now(), i)
      ensures errors != old(errors) ==> old(world.failures) < world.failures
      ensures KeepsServed(old(Now()), Now())
      ensures NoneUnread()
    {
      hide Inv, IsHistory, KindOf, Served, Provisioned, Marked, Started;
      ghost var v := Now();
      PersonHasChannel(v, i);
      ProvisionServes(v, i);
      var ok := Provision(i);
      if !ok {
        errors := errors + [DispatchFailed(run.ints[i])];
      }
    }

    /** Sends what has to be sent to everyone waiting, except those whose card or task was carried over. */
    method Handle(skip: set<nat>)
      requires Valid() && bridge.None?
      modifies this`errors, this`history, this`acts, corr`rows, idem`keys, world`created, world`minted, world`failures
      ensures Valid() && Within() && old(errors) <= errors
      ensures errors == old(errors) ==> forall i :: Awaited(Now(), i) && i !in skip ==> Served(Now(), i)
      ensures KeepsServed(old(Now()), Now())
      ensures errors != old(errors) ==> old(world.failures) < world.failures
      ensures NoneUnread()
    {
      hide Inv, IsHistory, Served, Unanswered, Marked, Started, KeepsServed, ServedOutside;
      ghost var v0, r := Now(), run;
      var todo := set i | i in run.ints && Unanswered(run.s, run.ints[i]) && i !in skip;
      KeepsServedSelf(v0, skip, todo);
      while todo != {}
        modifies this`errors, this`history, this`acts, corr`rows, idem`keys
        modifies world`created, world`minted, world`failures
        invariant Valid() && Within() && old(errors) <= errors
        invariant NoneUnread()
        invariant forall i :: i in todo ==> Awaited(Now(), i)
        invariant errors == old(errors) ==> ServedOutside(Now(), skip, todo)
        invariant KeepsServed(v0, Now())
        invariant errors != old(errors) ==> old(world.failures) < world.failures
      {
        var i :| i in todo;
        ghost var v, before := Now(), todo;
        todo := todo - {i};
        Send(i);
        OneMoreServed(v0, v, Now(), skip, before, i);
      }
      NobodyOutside(Now(), skip);
    }

    method IsStalled() returns (b: bool)
      ensures b <==> Stalled(run)
    {
      hide ReopenResets, ReadyIds;
      var resets := ComputeReopenResets(run.s);
      var ready := ReadySet(run.s);
      b := resets != map[] || !(ready <= run.ints.Values);
    }

    /** One round of the pump: touch the state, then send what is new. */
    method PumpOnce() returns (raised: bool)
      requires Valid() && bridge.None?
      modifies this, corr, idem`keys, world`created, world`minted, world`failures
      ensures Valid() && Driven() && bridge.None? && old(errors) <= errors
      ensures SameInstance(old(run), run)
      ensures !raised && Fingerprint(run.s) == Fingerprint(old(run.s)) ==> !Stalled(run)
      ensures Fingerprint(run.s) != Fingerprint(old(run.s)) ==> Rank(run.s) < Rank(old(run.s))
      ensures !raised && errors == old(errors) && AllServed(old(Now())) ==> AllServed(Now())
      ensures raised || errors != old(errors) ==> old(world.failures) < world.failures
      ensures !raised ==> Calm()
      ensures NoneUnread()
    {
      hide Inv, IsHistory, Stalled, Fingerprint, Served, Moves, Dispatch, Updated, ReadyIds, CarriedFrom, Waits;
      hide Extends, Unanswered, CanCrash, Marked, Started, Rank;
      ghost var v0 := Now();
      assert CanUpdate(run, Touch);
      TouchIsIdentity(run.s, Touch);
      var remapped;
      remapped, raised := WriteState(Touch);
      if raised {
        return;
      }
      ghost var v1 := Now();
      if AllServed(v0) {
        CarriedStayServed(v0, v1, remapped);
      }
      Handle(remapped);
      AllServedFrom(v1, Now(), remapped);
    }

    /** Pushes branches past the barrier until nothing that could run is left lying. Every round but the last lowers
        the rank, so a graph whose rank is below the number of rounds always gets there. */
    method Pump(skip: set<nat>) returns (outcome: PumpOutcome)
      requires Valid() && bridge.None?
      modifies this, corr, idem`keys, world`created, world`minted, world`failures
      ensures Valid() && Driven() && bridge.None? && old(errors) <= errors
      ensures SameInstance(old(run), run)
      ensures outcome.Quiescent? ==> !Stalled(run)
      ensures outcome.Quiescent? && errors == old(errors) && SkipServed(old(Now()), skip) ==> AllServed(Now())
      ensures outcome.Exhausted? ==> errors != old(errors) && PumpRounds(old(run.s)) <= Rank(old(run.s))
      ensures outcome.Raised? || (errors != old(errors) && !outcome.Exhausted?) ==> old(world.failures) < world.failures
      ensures !outcome.Raised? ==> Calm()
      ensures NoneUnread()
    {
      hide Inv, IsHistory, Stalled, Served, Unanswered, Rank, Marked, Started, PumpRounds;
      ghost var v0 := Now();
      Handle(skip);
      AllServedFrom(v0, Now(), skip);
      var readable := world.Try();
      if !readable {
        return Raised;
      }
      outcome := Push(2 * |run.s.dag| + 2 * TotalReopenBudget(run.s.dag, run.s.unblocks) + 5);
      RoundsAre(run.s);
      RoundsAre(v0.run.s);
    }

    /** At most so many rounds of the pump. */
    method Push(rounds: nat) returns (outcome: PumpOutcome)
      requires Valid() && bridge.None?
      modifies this, corr, idem`keys, world`created, world`minted, world`failures
      ensures Valid() && Driven() && bridge.None? && old(errors) <= errors
      ensures SameInstance(old(run), run)
      ensures outcome.Quiescent? ==> !Stalled(run)
      ensures outcome.Quiescent? && errors == old(errors) && AllServed(old(Now())) ==> AllServed(Now())
      ensures outcome.Exhausted? ==> errors != old(errors) && rounds <= Rank(old(run.s))
      ensures outcome.Raised? || (errors != old(errors) && !outcome.Exhausted?) ==> old(world.failures) < world.failures
      ensures !outcome.Raised? ==> Calm()
      ensures NoneUnread()
    {
      hide Inv, IsHistory, Stalled, Fingerprint, Served, Unanswered, AllServed, Rank, Marked, Started, Mild;
      for k := 0 to rounds
        modifies this, corr, idem`keys, world`created, world`minted, world`failures
        invariant Valid() && Driven() && bridge.None? && old(errors) <= errors
        invariant NoneUnread()
        invariant SameInstance(old(run), run)
        invariant errors == old(errors) && AllServed(old(Now())) ==> AllServed(Now())
        invariant Rank(run.s) + k <= Rank(old(run.s))
        invariant errors != old(errors) ==> old(world.failures) < world.failures
        invariant Calm()
      {
        var stalled := IsStalled();
        if !stalled {
          return Quiescent;
        }
        var mark := Fingerprint(run.s);
        var raised := PumpOnce();
        if raised {
          return Raised;
        }
        if Fingerprint(run.s) == mark {
          return Quiescent;
        }
      }
      errors := errors + [NotConverged(rounds)];
      outcome := Exhausted;
    }

    /** Closes the tasks of rounds their node has left, never the present one; what fails is tried again next time. */
    method CloseStaleTasks()
      requires Valid()
      modifies this`errors, this`history, this`acts, idem`closed, world`closed, world`failures
      ensures Valid() && Within() && old(errors) <= errors
      ensures Now() == old(Now()).(closed := world.closed) && old(world.closed) <= world.closed
      ensures errors == old(errors) ==> AllTidy(Now())
      ensures errors != old(errors) ==> old(world.failures) < world.failures
      ensures NoneUnread()
    {
      hide Inv, IsHistory, Tidy, Marked, Started;
      for k := 0 to |run.s.dag|
        modifies this`errors, this`history, this`acts, idem`closed, world`closed, world`failures
        invariant Valid() && Within() && old(errors) <= errors && old(world.closed) <= world.closed
        invariant NoneUnread()
        invariant Now() == old(Now()).(closed := world.closed)
        invariant errors != old(errors) ==> old(world.failures) < world.failures
        invariant errors == old(errors) ==>
          forall j :: 0 <= j < k ==> Tidy(run.s, idem.keys, run.s.dag[j], world.closed)
      {
        ghost var closed := world.closed;
        CloseTasksOf(run.s.dag[k]);
        TidyStays(run.s, idem.keys, closed, world.closed);
      }
    }

    method CloseTasksOf(n: Node)
      requires Valid()
      modifies this`errors, this`history, this`acts, idem`closed, world`closed, world`failures
      ensures Valid() && Within() && old(errors) <= errors && old(world.closed) <= world.closed
      ensures Now() == old(Now()).(closed := world.closed)
      ensures errors == old(errors) ==> Tidy(run.s, idem.keys, n, world.closed)
      ensures errors != old(errors) ==> old(world.failures) < world.failures
      ensures NoneUnread()
    {
      hide Inv, IsHistory, Marked, Started;
      if n.signal != Some(TaskComplete) {
        return;
      }
      for a := 0 to AttemptOf(run.s, n.id)
        modifies this`errors, this`history, this`acts, idem`closed, world`closed, world`failures
        invariant Valid() && Within() && old(errors) <= errors && old(world.closed) <= world.closed
        invariant NoneUnread()
        invariant Now() == old(Now()).(closed := world.closed)
        invariant errors != old(errors) ==> old(world.failures) < world.failures
        invariant errors == old(errors) ==>
          forall b: nat :: b < a ==> TaskClosed(idem.keys, n.id, b, world.closed)
      {
        ghost var closed := world.closed;
        CloseTask(n.id, a);
        ClosedStay(idem.keys, n.id, closed, world.closed);
      }
    }

    /** One past round: closed at most once, and only recorded as closed once the call has gone through. */
    method CloseTask(x: Id, a: nat)
      requires Valid() && a < AttemptOf(run.s, x)
      modifies this`errors, this`history, this`acts, idem`closed, world`closed, world`failures
      ensures Valid() && Within() && old(errors) <= errors && old(world.closed) <= world.closed
      ensures Now() == old(Now()).(closed := world.closed)
      ensures errors == old(errors) ==> TaskClosed(idem.keys, x, a, world.closed)
      ensures errors != old(errors) ==> old(world.failures) < world.failures
      ensures NoneUnread()
    {
      hide Inv, IsHistory, Started;
      var key := Key(x, a, TaskKind);
      if key in idem.keys && (x, a) !in idem.closed {
        var ext := idem.keys[key];
        IdemKey(Now(), key);
        var ok := world.CompleteTask(ext);
        if ok {
          idem.MarkClosed(x, a);
          Record(Closes(ext));
        } else {
          errors := errors + [CloseFailed(x, a)];
        }
      }
    }

    /** Pump, and then, whatever came of it, tidy up the tasks of past rounds. */
    method Advance(skip: set<nat>) returns (outcome: PumpOutcome)
      requires Valid() && bridge.None?
      modifies this, corr, idem, world`created, world`minted, world`closed, world`failures
      ensures Valid() && Driven() && bridge.None? && old(errors) <= errors
      ensures SameInstance(old(run), run)
      ensures outcome.Quiescent? ==> !Stalled(run)
      ensures outcome.Quiescent? && errors == old(errors) && SkipServed(old(Now()), skip) ==> AllServed(Now())
      ensures outcome.Exhausted? ==> errors != old(errors) && PumpRounds(old(run.s)) <= Rank(old(run.s))
      ensures outcome.Raised? || (errors != old(errors) && !outcome.Exhausted?) ==> old(world.failures) < world.failures
      ensures !outcome.Raised? ==> Calm()
      ensures NoneUnread()
      ensures errors == old(errors) ==> AllTidy(Now())
    {
      hide AllTidy, Inv, IsHistory, Stalled, SkipServed, AllServed, Marked, Started, Rank;
      outcome := Pump(skip);
      ghost var v := Now();
      CloseStaleTasks();
      ServingIgnoresClosed(v, world.closed);
    }

    // ---------- what the outside calls ----------

    /** Starts the instance: the first dispatch and everything up to the first person. */
    method Start() returns (outcome: PumpOutcome)
      requires Valid() && bridge.None? && !Busy(run)
      modifies this, corr, idem, world`created, world`minted, world`closed, world`failures
      ensures Valid() && Driven() && bridge.None?
      ensures outcome.Quiescent? ==> !Stalled(run)
      ensures outcome.Quiescent? && errors == old(errors) ==> EveryoneServed()
      ensures outcome.Raised? || (errors != old(errors) && !outcome.Exhausted?) ==> old(world.failures) < world.failures
      ensures !outcome.Raised? && errors == old(errors) ==> AllTidy(Now())
    {
      hide AllTidy, Inv, IsHistory, Stalled, AllServed, Moves, Waits, Busy, SameInstance, Marked, Started, Rank, Safe;
      var waiting, raised := NextStep();
      if !raised && !waiting {
        raised := Proceed();
      }
      if raised {
        return Raised;
      }
      NothingSkipped(Now());
      outcome := Advance({});
      ServedIsReached();
    }

    /** The permission layer: sending back needs every target allowed, all or nothing; anything else needs an
        answerer. */
    method Judge(x: Id, answer: Result, actor: Option<set<Token>>, owner: set<Token>) returns (refusal: Option<Reply>)
      ensures Judges(run.s.dag, x, answer, actor, owner, refusal)
    {
      hide RulingOn, Correct, CanAnswer, Permitted, Escalated, Judges, Entitled;
      var dag, roles := run.s.dag, if actor.Some? then actor.value else {};
      refusal := None;
      if SendsWorkBack(dag, x, answer) {
        var v := ReopenVerdict(dag, roles, owner, x, SentTargets(dag, x, answer));
        if v.denied != [] {
          refusal := Some(NotPermitted(v.denied));
        } else if v.escalate != [] {
          refusal := Some(NeedsApproval(x, v.escalate));
        }
        VerdictJudges(dag, x, answer, actor, owner, v);
      } else {
        if actor.Some? && !CanAnswer(dag, roles, x) {
          refusal := Some(NotTheAnswerer);
        }
        AnswererJudges(dag, x, answer, actor, owner);
      }
    }

    /** The mechanical layer and the staleness check, in the order the service makes them. */
    method Screen(j: nat, claimed: Option<Id>, answer: Result) returns (refusal: Option<Reply>)
      ensures Screens(run, j, claimed, answer, refusal)
    {
      hide Ancestors;
      var gate := if j in run.ints then Some(run.ints[j]) else claimed;
      if !answer.passed {
        if gate.None? {
          return Some(UnidentifiedGate);
        }
        if answer.reopen != [] {
          var bad := IllegalReopen(run.s.dag, gate.value, answer.reopen);
          if bad != [] {
            assert bad[0] in bad;
            return Some(IllegalTargets(bad));
          }
          assert forall t :: t in answer.reopen ==> t !in bad;
        }
      }
      if (claimed.Some? && StatusOf(run.s.status, claimed.value) == Done) || j !in run.ints {
        return Some(Stale);
      }
      refusal := None;
    }

    /** Runs on to the next people, and pushes everything else as far as it goes. */
    method RunOn() returns (outcome: PumpOutcome)
      requires Valid() && bridge.None?
      modifies this, corr, idem, world`created, world`minted, world`closed, world`failures
      ensures Valid() && Driven() && bridge.None? && old(errors) <= errors && old(run.issued) <= run.issued
      ensures Outcome(outcome)
      ensures outcome.Quiescent? ==> !Stalled(run)
      ensures outcome.Exhausted? ==> errors != old(errors)
      ensures errors != old(errors) && !outcome.Exhausted? ==> old(world.failures) < world.failures
      ensures NoneUnread()
      ensures !outcome.Raised? && errors == old(errors) ==> AllTidy(Now())
    {
      hide AllTidy, Inv, IsHistory, Stalled, AllServed, SkipServed, Waits, Rank, Forward, Busy, Marked, Started, Safe;
      var raised := Proceed();
      if raised {
        return Raised;
      }
      outcome := Advance({});
    }

    /** The answer reaches the engine; an interrupt that was already answered and only lingers takes nothing. If the
        push behind it ends quietly, work that was sent back has been sent back, or the gate has stopped. */
    method Deliver(j: nat, answer: Result) returns (outcome: PumpOutcome)
      requires Valid() && bridge.None? && j in run.ints
      modifies this, corr, idem, world`created, world`minted, world`closed, world`failures
      ensures Valid() && Continued() && bridge.None? && old(errors) <= errors && old(run.issued) <= run.issued
      ensures Answers(Taken(old(run), j, answer))
      ensures Outcome(outcome)
      ensures errors != old(errors) && !outcome.Exhausted? ==> old(world.failures) < world.failures
      ensures outcome.Exhausted? ==> errors != old(errors)
      ensures outcome.Quiescent? ==> Lands(old(run), j, answer, run.s)
      ensures NoneUnread()
      ensures !outcome.Raised? && errors == old(errors) ==> AllTidy(Now())
    {
      hide AllTidy, Inv, IsHistory, Stalled, Complete, SendsWorkBack, Landed, Marked, Started;
      ghost var v := Now();
      if StatusOf(run.s.status, run.ints[j]) == Pending {
        Answer(j, answer);
      }
      ghost var m, x := |acts|, v.run.ints[j];
      HistoryIsOneLonger(history, acts);
      outcome := RunOn();
      HistoryIsOneLonger(history, acts);
      if outcome.Quiescent? && StatusOf(v.run.s.status, x) == Pending && SendsWorkBack(v.run.s.dag, x, answer) {
        AnswerLands(history, acts, m, |acts|, v.run.s, x, answer);
      }
    }

    /** Feeds a person's answer back. The id he holds may be old; who he is comes from the channel, never from the
        card. */
    method Resume(id: nat, claimed: Option<Id>, answer: Result, actor: Option<set<Token>>, owner: set<Token>)
      returns (reply: Reply)
      requires Valid() && bridge.None?
      modifies this, corr, idem, world`created, world`minted, world`closed, world`failures
      ensures Valid() && Continued() && bridge.None? && old(errors) <= errors && old(run.issued) <= run.issued
      ensures Replies(old(Now()), id, claimed, answer, actor, owner, reply)
      ensures !reply.Resumed? ==> Now() == old(Now()) && acts == old(acts) && history == old(history)
      ensures !reply.Resumed? ==> errors == old(errors) && world.failures == old(world.failures)
      ensures reply.Resumed? ==> reply.interrupt in old(run.ints) && SameRound(old(run), id, reply.interrupt)
      ensures reply.Resumed? ==> SendsOnlyAllowed(old(run.s), old(run.ints)[reply.interrupt], answer, actor, owner)
      ensures reply.Resumed? ==> Answers(Taken(old(run), reply.interrupt, answer))
      ensures reply.Resumed? ==> Outcome(reply.outcome)
      ensures reply.Resumed? && reply.outcome.Quiescent? ==> Lands(old(run), reply.interrupt, answer, run.s)
      ensures NoneUnread()
      ensures reply.Resumed? && !reply.outcome.Raised? && errors == old(errors) ==> AllTidy(Now())
    {
      hide AllTidy, Landed, SendsWorkBack, Inv, IsHistory, Entitled, SameRound, Marked, Started, Screens, Judges;
      hide Replies;
      hide Tables.FirstLive, Tables.NeverLive, Reaches, Leads, SendsOnlyAllowed, Lands, Taken;
      ghost var v := Now();
      var j := corr.ResolveInterrupt(id, run.ints.Keys);
      ResolvedReaches(v, id, j);
      var refusal := Screen(j, claimed, answer);
      if refusal.Some? {
        Refused(v, id, claimed, answer, actor, owner, j, refusal);
        ScreenedReply(run, j, claimed, answer, refusal);
        return refusal.value;
      }
      ScreenedReply(run, j, claimed, answer, refusal);
      refusal := Judge(run.ints[j], answer, actor, owner);
      if refusal.Some? {
        Judged(v, id, claimed, answer, actor, owner, j, refusal, refusal.value);
        JudgedReply(run.s.dag, run.ints[j], answer, actor, owner, refusal);
        return refusal.value;
      }
      JudgedReply(run.s.dag, run.ints[j], answer, actor, owner, refusal);
      ResolvedLeads(corr.remap, id, run.ints.Keys, j);
      LeadsSameRound(v, id, j);
      JustifiedSend(v, j, answer, actor, owner);
      var outcome := Deliver(j, answer);
      reply := Resumed(j, outcome);
      Judged(v, id, claimed, answer, actor, owner, j, None, reply);
    }

    /** A task was reported completed: only a task's row counts, never a gate's, and the row says whose answer it is.
        Who waits by task, and is reached by it, is answered for. */
    method TaskEvent(ext: nat) returns (reply: Option<Reply>)
      requires Valid() && bridge.None?
      modifies this, corr, idem, world`created, world`minted, world`closed, world`failures
      ensures Valid() && Continued() && bridge.None? && old(errors) <= errors
      ensures reply.None? || !reply.value.Resumed? ==> Now() == old(Now())
      ensures reply.None? <==> !IsTaskRow(old(Now()), ext)
      ensures reply.Some? ==>
        Replies(old(Now()), old(corr.rows)[ext].interrupt, Some(old(corr.rows)[ext].node), Result(true, [], None), None,
                {}, reply.value)
      ensures reply.Some? && reply.value.Resumed? ==> OfTask(old(Now()), ext, reply.value.interrupt)
      ensures forall i :: WaitsByTask(old(Now()), ext, i) ==>
        reply.Some? && reply.value.Resumed? && reply.value.interrupt == i
    {
      hide Inv, IsHistory, Leads, Entitled, Landed, SendsWorkBack, Escalated, Marked, Started, Replies, Lands;
      hide SendsOnlyAllowed, WaitsByTask;
      ghost var v := Now();
      var row := corr.Get(ext);
      if row.None? || row.value.kind != TaskKind {
        NoneByTask(v, ext);
        return None;
      }
      var n := NodeById(run.s.dag, row.value.node);
      if n.Some? && n.value.role.Gate? {
        NoneByTask(v, ext);
        return None;
      }
      RowAddress(v, ext);
      var r := Resume(row.value.interrupt, Some(row.value.node), Result(true, [], None), None, {});
      TaskTaken(v, ext, r);
      reply := Some(r);
    }

    /** Changes the graph of a running instance: owner only, signed, within the freeze line, and only to a valid
        graph. */
    method EditInstance(ops: seq<Op>, author: Token, reason: string, owner: set<Token>) returns (reply: EditReply)
      requires Valid() && bridge.None?
      modifies this, corr, idem, world`created, world`minted, world`closed, world`failures
      ensures Valid() && Continued() && bridge.None? && old(errors) <= errors
      ensures !reply.EditApplied? ==> Now() == old(Now())
      ensures var edit := ApplyOps(old(run.s.dag), Frontier(old(run.s.status), old(run.ints.Values)), ops);
              var signed := !Blank(author) && !Blank(reason);
              && (reply.EditMissingAudit? <==> !signed)
              && (reply.EditUnauthorized? <==> signed && author !in owner)
              && (reply.EditRefused? <==> signed && author in owner && edit.Err?)
              && (reply.EditRefused? ==> edit == Err(reply.error))
              && (reply.EditInvalid? <==> signed && author in owner && edit.Ok? && !ValidTemplate(edit.dag))
              && (reply.EditApplied? <==> signed && author in owner && edit.Ok? && ValidTemplate(edit.dag))
      ensures reply.EditApplied? ==> author in owner && !Blank(author) && !Blank(reason) && ValidTemplate(run.s.dag)
      ensures reply.EditApplied? ==>
        ApplyOps(old(run.s.dag), Frontier(old(run.s.status), old(run.ints.Values)), ops) == Ok(run.s.dag)
      ensures reply.EditApplied? ==> Next(WriteBegins(Edit(run.s.dag)))
      ensures reply.EditApplied? && reply.outcome.Raised? ==> old(world.failures) < world.failures
      ensures reply.EditApplied? && errors == old(errors) ==> AllTidy(Now())
    {
      hide AllTidy, Inv, IsHistory, Stalled, AllServed, SkipServed, ApplyOps, ValidTemplate, Waits, CanUpdate;
      hide CarriedFrom, Extends, Fingerprint, CanCrash, Marked, Started, Rank;
      if Blank(author) || Blank(reason) {
        return EditMissingAudit;
      }
      if author !in owner {
        return EditUnauthorized;
      }
      InstanceIsUnique(Now());
      var edit := LiveGraph.EditGraph(run.s.dag, Frontier(run.s.status, run.ints.Values), ops);
      if edit.Err? {
        return EditRefused(edit.error);
      }
      var verdict := Template.ValidateTemplate(edit.dag);
      if !verdict.Accepted? {
        return EditInvalid(verdict);
      }
      EditIsLegal(Now(), ops);
      var remapped, raised := WriteState(Edit(edit.dag));
      if raised {
        errors := errors + [AdvanceFailed];
        return EditApplied(Raised);
      }
      var outcome := Advance(remapped);
      reply := EditApplied(outcome);
    }

    /** The service's checks on an unblock, in its order. */
    method ScreenUnblock(x: Id, targets: seq<Id>, author: string, reason: string)
      returns (refusal: Option<UnblockReply>)
      ensures refusal.None? <==> CanUnblock(run.s, x, targets) && !Blank(author) && !Blank(reason)
      ensures refusal.Some? ==> UnblockRefused(run.s, x, targets, author, reason, refusal.value)
    {
      hide Ancestors;
      var n := NodeById(run.s.dag, x);
      if n.None? {
        return Some(UnblockReply.NoSuchNode);
      }
      if StatusOf(run.s.status, x) != Blocked {
        return Some(NotBlocked);
      }
      if Blank(author) || Blank(reason) {
        return Some(UnblockMissingAudit);
      }
      if GrantsUsed(run.s.unblocks, x) >= MAX_UNBLOCK_GRANTS {
        return Some(UnblockExhausted);
      }
      var bad := IllegalReopen(run.s.dag, x, targets);
      if bad != [] {
        assert bad[0] in bad;
        return Some(UnblockIllegal(bad));
      }
      assert forall t :: t in targets ==> t !in bad;
      refusal := None;
    }

    /** The credit comes back when the push after the write fails, by a second record next to the first. */
    method TakeBackGrant(x: Id, ghost log: seq<Grant>, ghost amount: int)
      requires Valid() && bridge.None? && LogOf(run.s.unblocks, x) == log + [Grant(amount, false)]
      modifies this, corr, idem, world`created, world`minted, world`closed, world`failures
      ensures Valid() && Continued() && bridge.None? && old(errors) <= errors
      ensures GrantsUsed(run.s.unblocks, x) == NetCount(log)
    {
      hide Inv, IsHistory, Stalled, AllServed, SkipServed, Waits, CarriedFrom, Extends, Fingerprint;
      hide CanRefund, TakeBack, CanCrash, Marked, Started, Rank;
      RefundTakesBack(run.s, x, log, amount);
      var remapped, raised := WriteState(Refund(x));
      if !raised {
        var outcome := Advance({});
      }
      errors := errors + [AdvanceFailed];
    }

    method LiftAndAdvance(x: Id, targets: seq<Id>, grant: int) returns (reply: UnblockReply)
      requires Valid() && bridge.None? && CanUnblock(run.s, x, targets)
      modifies this, corr, idem, world`created, world`minted, world`closed, world`failures
      ensures Valid() && Continued() && bridge.None? && old(errors) <= errors
      ensures Next(WriteBegins(Lift(x, targets, grant)))
      ensures reply.Lifted? || reply.WriteRaised? || reply.Refunded?
      ensures reply.WriteRaised? ==> CanCrash(Dispatch(Thaw(old(run.s), x, targets, grant)))
      ensures GrantsUsed(run.s.unblocks, x) == GrantsUsed(old(run.s.unblocks), x) + if reply.Refunded? then 0 else 1
      ensures reply.WriteRaised? || reply.Refunded? ==> old(world.failures) < world.failures
      ensures reply.Lifted? && errors == old(errors) ==> AllTidy(Now())
    {
      hide AllTidy, Inv, IsHistory, Stalled, AllServed, SkipServed, Waits, CarriedFrom, Extends, Fingerprint;
      hide CanUnblock, NetCount;
      hide CanCrash, Marked, Started, Rank, Thaw, Dispatch;
      ghost var log := LogOf(run.s.unblocks, x);
      LiftLogs(run.s, x, targets, grant);
      var remapped, raised := WriteState(Lift(x, targets, grant));
      if raised {
        return WriteRaised;
      }
      var outcome := Advance(remapped);
      if outcome.Raised? {
        TakeBackGrant(x, log, ClampGrant(grant));
        return UnblockReply.Refunded;
      }
      reply := Lifted(outcome);
    }

    /** A person lifts a blocked gate: bounded credit, legal targets only. The credit comes back if the push after
        the write fails, but not if the write itself does, and that can only happen if something that is ready at
        once can fail. */
    method Unblock(x: Id, targets: seq<Id>, grant: int, author: string, reason: string) returns (reply: UnblockReply)
      requires Valid() && bridge.None?
      modifies this, corr, idem, world`created, world`minted, world`closed, world`failures
      ensures Valid() && Continued() && bridge.None? && old(errors) <= errors
      ensures var acted := reply.Lifted? || reply.WriteRaised? || reply.Refunded?;
              && (!acted ==> Now() == old(Now()) && UnblockRefused(old(run.s), x, targets, author, reason, reply))
              && (acted <==> !Blank(author) && !Blank(reason) && CanUnblock(old(run.s), x, targets))
              && (acted ==> Next(WriteBegins(Lift(x, targets, grant))))
              && (reply.WriteRaised? ==> CanCrash(Dispatch(Thaw(old(run.s), x, targets, grant))))
              && (acted ==>
                    GrantsUsed(run.s.unblocks, x)
                    == GrantsUsed(old(run.s.unblocks), x) + if reply.Refunded? then 0 else 1)
      ensures reply.WriteRaised? || reply.Refunded? ==> old(world.failures) < world.failures
      ensures reply.Lifted? && errors == old(errors) ==> AllTidy(Now())
    {
      hide AllTidy, Inv, IsHistory, CanUnblock, GrantsUsed, CanCrash, Thaw, Dispatch, Marked, Started;
      var refusal := ScreenUnblock(x, targets, author, reason);
      if refusal.Some? {
        return refusal.value;
      }
      reply := LiftAndAdvance(x, targets, grant);
    }

    /** A person ticks off a task he was sent. */
    method PersonFinishesTask(ext: nat)
      requires Valid() && ext < |world.created| && world.created[ext].kind.TaskKind?
      modifies this`history, this`acts, world`finished
      ensures Valid() && Within() && world.finished == old(world.finished) + {ext}
      ensures Now() == old(Now()).(finished := world.finished)
    {
      hide Inv, IsHistory, Marked, Started;
      world.Finish(ext);
      Record(PersonFinishes(ext));
    }

    /** Every answer taken since then completes a task, of the very node and round it answers, that a person
        finished. */
    twostate predicate Swept()
      reads this, world
    {
      && Continued() && |history| == |acts| + 1
      && forall k :: |old(acts)| <= k < |acts| && acts[k].PersonAnswers? ==> FinishedByPerson(history[k], acts[k])
    }

    /** A task that reads as completed is taken up: recorded as recovered, and answered without an identity. */
    method TakeUp(i: nat, x: Id, attempt: nat) returns (raised: bool)
      requires Valid() && bridge.None? && i < |run.issued| && run.issued[i] == Ticket(x, attempt)
      requires attempt <= AttemptOf(run.s, x) && (PendingIn(Now(), x, attempt) ==> Linked(Now(), i, x))
      requires Key(x, attempt, TaskKind) in idem.keys
      requires idem.keys[Key(x, attempt, TaskKind)] in world.closed + world.finished
      modifies this, corr, idem, world`created, world`minted, world`closed, world`failures
      ensures Valid() && bridge.None? && old(errors) <= errors && old(run.issued) <= run.issued
      ensures Swept() && NoneUnread()
      ensures raised ==> old(world.failures) < world.failures
      ensures !raised ==> Calm()
      ensures !PendingIn(Now(), x, attempt)
    {
      hide Inv, IsHistory, Leads, Landed, SendsWorkBack, Escalated, Marked, Started, Replies, Linked, Lands;
      hide SendsOnlyAllowed, FinishedByPerson, PendingIn;
      HistoryIsOneLonger(history, acts);
      ghost var v, m := Now(), |acts|;
      errors := errors + [Recovered(x)];
      var reply := Resume(i, Some(x), Result(true, [], None), None, {});
      HistoryIsOneLonger(history, acts);
      if reply.Resumed? {
        PersonDidIt(v, Key(x, attempt, TaskKind), i, reply.interrupt);
      }
      raised := reply.Resumed? && reply.outcome.Raised?;
      TakenUp(history, acts, m, |acts|, i, x, attempt, reply);
      if !PendingIn(v, x, attempt) {
        NeverPendingAgain(history, acts, m, |acts|, x, attempt);
      }
    }

    /** One waiting person's task: asked about, and acted on exactly if it reads as completed. */
    method SweepOne(i: nat, x: Id, attempt: nat) returns (raised: bool)
      requires Valid() && bridge.None? && i < |run.issued| && run.issued[i] == Ticket(x, attempt)
      requires attempt <= AttemptOf(run.s, x) && (PendingIn(Now(), x, attempt) ==> Linked(Now(), i, x))
      modifies this, corr, idem, world`created, world`minted, world`closed, world`failures
      ensures Valid() && bridge.None? && old(errors) <= errors && old(run.issued) <= run.issued
      ensures Swept()
      ensures raised || Troubled(errors, |old(errors)|) ==> old(world.failures) < world.failures
      ensures !raised ==> Calm()
      ensures (!raised && !Troubled(errors, |old(errors)|) && Key(x, attempt, TaskKind) in old(idem.keys)
               && old(idem.keys)[Key(x, attempt, TaskKind)] in world.finished) ==> !PendingIn(Now(), x, attempt)
    {
      hide Inv, IsHistory, Marked, Started, Linked, FinishedByPerson, PendingIn;
      raised := false;
      HistoryIsOneLonger(history, acts);
      ghost var was := errors;
      var key := Key(x, attempt, TaskKind);
      if key in idem.keys {
        var answer := world.IsCompleted(idem.keys[key]);
        if answer.None? {
          errors := errors + [ReadFailed(x)];
          assert errors[|was|].ReadFailed?;
        } else if answer.value {
          raised := TakeUp(i, x, attempt);
        }
      }
    }

    /** The next of those who waited when the sweep began, m0 actions into the history. */
    method SweepNext(i: nat, s: State, ints: map<nat, Id>, ghost m0: nat, ghost todo: set<nat>) returns (raised: bool)
      requires Valid() && bridge.None? && m0 <= |acts| < |history| && history[m0].bridge.None?
      requires s == history[m0].run.s && ints == history[m0].run.ints && i in ints && Unanswered(s, ints[i])
      requires forall k :: m0 <= k < |acts| ==> Mild(acts[k])
      modifies this, corr, idem, world`created, world`minted, world`closed, world`failures
      ensures Valid() && bridge.None? && old(errors) <= errors
      ensures Swept()
      ensures raised || Troubled(errors, |old(errors)|) ==> old(world.failures) < world.failures
      ensures !raised ==> Calm()
      ensures (!raised && !Troubled(errors, |old(errors)|) && Cleared(old(history)[m0], old(Now()), todo)) ==>
        Cleared(old(history)[m0], Now(), todo - {i})
    {
      hide Inv, IsHistory, Unanswered, FinishedByPerson, Marked, Started, Linked, PendingIn, Cleared, Troubled, Due;
      hide Mild;
      ghost var m := |acts|;
      HistoryIsOneLonger(history, acts);
      StillLinked(history, acts, m0, m, i);
      raised := SweepOne(i, ints[i], AttemptOf(s, ints[i]));
      HistoryIsOneLonger(history, acts);
      OneMoreCleared(history, acts, m0, m, |acts|, todo, i);
      FinishedGrow(history, acts, m0, |acts|);
      DueIsFinished(history[m0], history[|acts|], i);
    }

    /** Picks up completions whose event was lost, asking only about the task of each waiting person's present round. */
    method SweepTasks() returns (raised: bool)
      requires Valid() && bridge.None?
      modifies this, corr, idem, world`created, world`minted, world`closed, world`failures
      ensures Valid() && bridge.None? && old(errors) <= errors
      ensures Swept()
      ensures raised || Troubled(errors, |old(errors)|) ==> old(world.failures) < world.failures
      ensures !raised ==> Calm()
      ensures !raised && !Troubled(errors, |old(errors)|) ==> Cleared(old(Now()), Now(), {})
    {
      hide Inv, IsHistory, KindOf, Unanswered, FinishedByPerson, Marked, Started, Cleared, Troubled, Mild;
      raised := false;
      HistoryIsOneLonger(history, acts);
      ghost var m0 := |acts|;
      var s, ints := run.s, run.ints;
      var todo := set i | i in ints && Unanswered(s, ints[i]) && KindOf(s, ints[i]) == Some(TaskKind);
      ClearedAtFirst(Now(), errors, todo);
      while todo != {}
        modifies this, corr, idem, world`created, world`minted, world`closed, world`failures
        invariant Valid() && bridge.None? && old(errors) <= errors && Calm() && Swept()
        invariant forall i :: i in todo ==> i in ints && Unanswered(s, ints[i])
        invariant Troubled(errors, |old(errors)|) ==> old(world.failures) < world.failures
        invariant !Troubled(errors, |old(errors)|) ==> Cleared(old(Now()), Now(), todo)
      {
        var i :| i in todo;
        ghost var before, was := todo, errors;
        todo := todo - {i};
        assert history[m0] == old(Now());
        raised := SweepNext(i, s, ints, m0, before);
        if raised {
          return true;
        }
        TroubleSpreads(old(errors), was, errors);
      }
    }

    /** Rebuilds the projection from the authoritative state and pushes every branch as far as it goes. Every task
        that a person had finished in his present round has been taken up, unless a call failed. */
    method Reconcile() returns (outcome: PumpOutcome)
      requires Valid() && bridge.None?
      modifies this, corr, idem, world`created, world`minted, world`closed, world`failures
      ensures Valid() && bridge.None? && Swept()
      ensures outcome.Quiescent? ==> !Stalled(run)
      ensures outcome.Quiescent? && errors == [] ==> EveryoneServed()
      ensures !outcome.Raised? && !Troubled(errors, 0) ==> Cleared(old(Now()), Now(), {})
      ensures outcome.Raised? || Troubled(errors, 0) ==> old(world.failures) < world.failures
      ensures !outcome.Raised? && errors == [] ==> AllTidy(Now())
    {
      hide AllTidy, Inv, IsHistory, Stalled, AllServed, SkipServed, FinishedByPerson, Marked, Started, Rank, Cleared;
      HistoryIsOneLonger(history, acts);
      ghost var m0 := |acts|;
      errors := [];
      var raised := SweepTasks();
      if raised {
        return Raised;
      }
      HistoryIsOneLonger(history, acts);
      ghost var m, was := |acts|, errors;
      NothingSkipped(Now());
      outcome := Advance({});
      HistoryIsOneLonger(history, acts);
      ServedIsReached();
      if !Troubled(was, 0) {
        ClearedStays(history, acts, m0, m, |acts|, {});
      }
    }
  }

  /** Reading a task has failed since then. */
  ghost predicate Troubled(errors: seq<Trouble>, since: nat) {
    exists k :: since <= k < |errors| && errors[k].ReadFailed?
  }

  /** A person waits here by task, the task of his present round was sent, and he has finished it. */
  ghost predicate Due(v: Svc, i: nat) {
    && i in v.run.ints && Unanswered(v.run.s, v.run.ints[i])
    && Find(v.run.s.dag, v.run.ints[i]).Some? && Find(v.run.s.dag, v.run.ints[i]).value.signal == Some(TaskComplete)
    && var key := Key(v.run.ints[i], AttemptOf(v.run.s, v.run.ints[i]), TaskKind);
       key in v.idem && v.idem[key] in v.finished
  }

  /** Nobody for whom that held, outside this list, waits in that round any more. */
  ghost predicate Cleared(v0: Svc, v: Svc, todo: set<nat>) {
    forall i :: Due(v0, i) && i !in todo ==> !PendingIn(v, v0.run.ints[i], AttemptOf(v0.run.s, v0.run.ints[i]))
  }

  /** Why an unblock is refused, the first reason that applies. */
  ghost predicate UnblockRefused(s: State, x: Id, targets: seq<Id>, author: string, reason: string,
                                 reply: UnblockReply) {
    if x !in Ids(s.dag) then reply == UnblockReply.NoSuchNode
    else if StatusOf(s.status, x) != Blocked then reply == NotBlocked
    else if Blank(author) || Blank(reason) then reply == UnblockMissingAudit
    else if GrantsUsed(s.unblocks, x) >= 3 then reply == UnblockExhausted
    else
      && reply.UnblockIllegal?
      && (forall t :: t in reply.targets <==> t in targets && t !in Ancestors(s.dag, x))
      && exists t :: t in targets && t !in Ancestors(s.dag, x)
  }

  /** A completion without identity, of a node waiting in the round of a task that a person, not the engine,
      finished. */
  ghost predicate FinishedByPerson(v: Svc, a: Action) {
    && a.PersonAnswers? && a.result == Result(true, [], None) && a.interrupt in v.run.ints
    && var key := Key(v.run.ints[a.interrupt], AttemptOf(v.run.s, v.run.ints[a.interrupt]), TaskKind);
       key in v.idem && v.idem[key] in v.finished && v.idem[key] !in v.closed
  }

  /** The condition for a spent credit is exact: wherever something ready at once can fail, a write can crash with the
      grant on the books, and nothing takes it back. */
  lemma CrashSpends(v: Svc, x: Id, targets: seq<Id>, grant: int) returns (v1: Svc, y: Id, v2: Svc)
    requires Inv(v) && v.bridge.None? && CanUnblock(v.run.s, x, targets)
    requires CanCrash(Dispatch(Thaw(v.run.s, x, targets, grant)))
    ensures Step(v, WriteBegins(Lift(x, targets, grant)), v1) && Step(v1, WriteCrashes(y), v2)
    ensures v2.bridge.None? && GrantsUsed(v2.run.s.unblocks, x) == GrantsUsed(v.run.s.unblocks, x) + 1
  {
    hide Inv, Thaw, Dispatch, CanUnblock, MayRaise, ReopenResets, Survivors, NetCount;
    var u := Lift(x, targets, grant);
    var s2 := Dispatch(Updated(v.run.s, u));
    v1 := v.(run := Launch(v.run, s2), bridge := Some(Survivors(v.run, u)));
    LaunchCrashes(v.run, s2);
    y :| CanFail(v1.run, y);
    v2 := v1.(bridge := None);
    LiftLogs(v.run.s, x, targets, grant);
    DispatchFrame(Updated(v.run.s, u));
  }

  /** The reply names, with their approvers and the people dragged in, exactly the picked targets that cross a border,
      and there is one, and none is forbidden outright. */
  ghost predicate Escalated(dag: Dag, x: Id, answer: Result, actor: Option<set<Token>>, owner: set<Token>,
                            reply: Reply) {
    && reply.NeedsApproval? && reply.gate == x && reply.requests != []
    && SendsWorkBack(dag, x, answer)
    && var roles := if actor.Some? then actor.value else {};
       var targets := SentTargets(dag, x, answer);
       && RuledAs(dag, roles, owner, x, targets, Denied) == []
       && Targets(reply.requests) == RuledAs(dag, roles, owner, x, targets, Escalates)
       && Explained(dag, roles, owner, x, reply.requests)
  }

  /** Every target that was picked is upstream of the node. */
  ghost predicate Upstream(dag: Dag, x: Id, answer: Result) {
    forall t :: t in answer.reopen ==> t in Ancestors(dag, x)
  }

  /** What the mechanical layer says of an answer to interrupt j, or, if that is not live, to the node the sender
      claims. */
  ghost predicate Screens(r: Inst, j: nat, claimed: Option<Id>, answer: Result, refusal: Option<Reply>) {
    var x := if j in r.ints then Some(r.ints[j]) else claimed;
    var legal := answer.passed || (x.Some? && Upstream(r.s.dag, x.value, answer));
    var over := (claimed.Some? && StatusOf(r.s.status, claimed.value) == Done) || j !in r.ints;
    && (refusal.None? <==> legal && !over)
    && (refusal == Some(Stale) <==> legal && over)
    && (refusal == Some(UnidentifiedGate) <==> !answer.passed && x.None?)
    && (refusal.Some? && refusal.value.IllegalTargets? <==> !legal && x.Some?)
    && (refusal.Some? && refusal.value.IllegalTargets? ==>
          forall t :: t in refusal.value.targets <==> t in answer.reopen && t !in Ancestors(r.s.dag, x.value))
  }

  ghost predicate SomeRuled(dag: Dag, x: Id, answer: Result, actor: Option<set<Token>>, owner: set<Token>, c: Ruled)
    requires SendsWorkBack(dag, x, answer)
  {
    exists t :: t in SentTargets(dag, x, answer)
                && RulingOn(dag, if actor.Some? then actor.value else {}, owner, x, t) == c
  }

  /** What the permission layer says: nothing exactly to those entitled, and otherwise why not. */
  ghost predicate Judges(dag: Dag, x: Id, answer: Result, actor: Option<set<Token>>, owner: set<Token>,
                         refusal: Option<Reply>) {
    var sends := SendsWorkBack(dag, x, answer);
    && (refusal.None? <==> Entitled(dag, x, answer, actor, owner))
    && (refusal == Some(NotTheAnswerer) <==> !sends && actor.Some? && !CanAnswer(dag, actor.value, x))
    && (refusal.Some? && refusal.value.NotPermitted? <==> sends && SomeRuled(dag, x, answer, actor, owner, Denied))
    && (refusal.Some? && refusal.value.NotPermitted? ==> forall t :: t in refusal.value.targets <==>
          (t in SentTargets(dag, x, answer)
           && RulingOn(dag, if actor.Some? then actor.value else {}, owner, x, t) == Denied))
    && (refusal.Some? && refusal.value.NeedsApproval? <==>
          && sends && !SomeRuled(dag, x, answer, actor, owner, Denied)
          && SomeRuled(dag, x, answer, actor, owner, Escalates))
    && (refusal.Some? && refusal.value.NeedsApproval? ==> Escalated(dag, x, answer, actor, owner, refusal.value))
    && (refusal.Some? ==> refusal.value.NotTheAnswerer? || refusal.value.NotPermitted? || refusal.value.NeedsApproval?)
  }

  lemma VerdictJudges(dag: Dag, x: Id, answer: Result, actor: Option<set<Token>>, owner: set<Token>,
                      v: Permissions.Verdict)
    requires SendsWorkBack(dag, x, answer)
    requires Correct(dag, if actor.Some? then actor.value else {}, owner, x, SentTargets(dag, x, answer), v)
    ensures Judges(dag, x, answer, actor, owner,
                   if v.denied != [] then Some(NotPermitted(v.denied))
                   else if v.escalate != [] then Some(NeedsApproval(x, v.escalate)) else None)
  {
    hide RulingOn, Explained, SendsWorkBack, SentTargets, CanAnswer;
    var roles, ts := if actor.Some? then actor.value else {}, SentTargets(dag, x, answer);
    assert forall t :: t in v.denied <==> t in ts && RulingOn(dag, roles, owner, x, t) == Denied;
    assert v.denied != [] ==> v.denied[0] in v.denied;
    var asked := RuledAs(dag, roles, owner, x, ts, Escalates);
    assert forall t :: t in asked <==> t in ts && RulingOn(dag, roles, owner, x, t) == Escalates;
    assert |asked| == |v.escalate|;
    assert asked != [] ==> asked[0] in asked;
    assert Entitled(dag, x, answer, actor, owner) <==> v.denied == [] && v.escalate == [] by {
      if v.denied == [] && v.escalate == [] {
        VerdictPermits(dag, roles, owner, x, ts, v);
      }
    }
  }

  lemma AnswererJudges(dag: Dag, x: Id, answer: Result, actor: Option<set<Token>>, owner: set<Token>)
    requires !SendsWorkBack(dag, x, answer)
    ensures Judges(dag, x, answer, actor, owner,
                   if actor.Some? && !CanAnswer(dag, actor.value, x) then Some(NotTheAnswerer) else None)
  {
    hide SendsWorkBack, CanAnswer, SomeRuled, Escalated, RulingOn;
  }

  // ---------- what a reply means, on the state before ----------

  /** The chain of this id leads first to this live interrupt. */
  ghost predicate Reaches(v: Svc, id: nat, j: nat) {
    Tables.FirstLive(v.remap, id, v.run.ints.Keys, j)
  }

  ghost predicate Unreached(v: Svc, id: nat) {
    forall j :: !Reaches(v, id, j)
  }

  /** The node an answer is about: the one the interrupt asks, or, if none is reached, the one its sender claims. */
  ghost predicate About(v: Svc, id: nat, claimed: Option<Id>, x: Id) {
    (exists j :: Reaches(v, id, j) && v.run.ints[j] == x) || (Unreached(v, id) && claimed == Some(x))
  }

  /** The claimed node has been passed or finished already. */
  ghost predicate Over(v: Svc, claimed: Option<Id>) {
    claimed.Some? && StatusOf(v.run.s.status, claimed.value) == Done
  }

  /** The answer is for live interrupt j, in time, and picks only what is upstream. */
  ghost predicate Arrives(v: Svc, id: nat, claimed: Option<Id>, answer: Result, j: nat) {
    Reaches(v, id, j) && !Over(v, claimed) && (answer.passed || Upstream(v.run.s.dag, v.run.ints[j], answer))
  }

  /** Exactly which reply an answer gets. It is taken exactly if it arrives and its sender is entitled to it. */
  ghost predicate Replies(v: Svc, id: nat, claimed: Option<Id>, answer: Result, actor: Option<set<Token>>,
                          owner: set<Token>, reply: Reply) {
    var dag := v.run.s.dag;
    && (reply.Resumed? <==>
          exists j :: Arrives(v, id, claimed, answer, j) && Entitled(dag, v.run.ints[j], answer, actor, owner))
    && (reply.Resumed? ==> Arrives(v, id, claimed, answer, reply.interrupt)
                           && Entitled(dag, v.run.ints[reply.interrupt], answer, actor, owner))
    && (reply.UnidentifiedGate? <==> !answer.passed && forall x :: !About(v, id, claimed, x))
    && (reply.IllegalTargets? <==>
          !answer.passed && exists x :: About(v, id, claimed, x) && !Upstream(dag, x, answer))
    && (reply.IllegalTargets? ==> forall x :: About(v, id, claimed, x) ==>
          forall t :: t in reply.targets <==> t in answer.reopen && t !in Ancestors(dag, x))
    && (reply.Stale? <==>
          && (Over(v, claimed) || Unreached(v, id))
          && (answer.passed || exists x :: About(v, id, claimed, x) && Upstream(dag, x, answer)))
    && (reply.NotTheAnswerer? || reply.NotPermitted? || reply.NeedsApproval? <==>
          exists j :: Arrives(v, id, claimed, answer, j) && !Entitled(dag, v.run.ints[j], answer, actor, owner))
    && (reply.NotTheAnswerer? || reply.NotPermitted? || reply.NeedsApproval? ==>
          forall j :: Arrives(v, id, claimed, answer, j) ==>
            Judges(dag, v.run.ints[j], answer, actor, owner, Some(reply)))
  }

  /** The answers an interrupt still takes: this one, if its node is pending, and none if it only lingers. */
  function Taken(r: Inst, j: nat, answer: Result): seq<Action> {
    if j in r.ints && StatusOf(r.s.status, r.ints[j]) == Pending then [PersonAnswers(j, answer)] else []
  }

  /** If this was work sent back, it has landed in s'. */
  ghost predicate Lands(r: Inst, j: nat, answer: Result, s': State) {
    j in r.ints && StatusOf(r.s.status, r.ints[j]) == Pending && SendsWorkBack(r.s.dag, r.ints[j], answer) ==>
      Landed(r.s, s', r.ints[j])
  }

  lemma ScreenedReply(r: Inst, j: nat, claimed: Option<Id>, answer: Result, refusal: Option<Reply>)
    requires Screens(r, j, claimed, answer, refusal)
    ensures refusal.None? ==> j in r.ints
    ensures refusal.Some? ==> !refusal.value.Resumed?
  {
    hide Upstream;
  }

  lemma JudgedReply(dag: Dag, x: Id, answer: Result, actor: Option<set<Token>>, owner: set<Token>,
                    refusal: Option<Reply>)
    requires Judges(dag, x, answer, actor, owner, refusal)
    ensures refusal.None? <==> Entitled(dag, x, answer, actor, owner)
    ensures refusal.Some? ==>
      refusal.value.NotTheAnswerer? || refusal.value.NotPermitted? || refusal.value.NeedsApproval?
  {
    hide Entitled, SendsWorkBack, SomeRuled, CanAnswer, Escalated, RulingOn;
  }

  lemma JustifiedSend(v: Svc, j: nat, answer: Result, actor: Option<set<Token>>, owner: set<Token>)
    requires Inv(v) && j in v.run.ints && Entitled(v.run.s.dag, v.run.ints[j], answer, actor, owner)
    ensures SendsOnlyAllowed(v.run.s, v.run.ints[j], answer, actor, owner)
  {
    InvRunOk(v);
    RunIsValid(v.run);
    hide Inv, RunOk, ValidTemplate, Entitled, SendsOnlyAllowed;
    EntitledSendsOnlyAllowed(v.run.s, v.run.ints[j], answer, actor, owner);
  }

  /** A reply that asks for approval names the gate, and exactly what crosses a border there. */
  lemma RepliesEscalated(v: Svc, id: nat, claimed: Option<Id>, answer: Result, actor: Option<set<Token>>,
                         owner: set<Token>, reply: Reply)
    requires Replies(v, id, claimed, answer, actor, owner, reply) && reply.NeedsApproval?
    requires forall j :: Reaches(v, id, j) ==> j in v.run.ints
    ensures reply.gate in v.run.ints.Values && Escalated(v.run.s.dag, reply.gate, answer, actor, owner, reply)
  {
    hide Reaches, Entitled, Escalated, SomeRuled, SendsWorkBack, RulingOn, CanAnswer, Upstream;
    var j :| Arrives(v, id, claimed, answer, j) && !Entitled(v.run.s.dag, v.run.ints[j], answer, actor, owner);
    assert Escalated(v.run.s.dag, v.run.ints[j], answer, actor, owner, reply);
    EscalatedGate(v.run.s.dag, v.run.ints[j], answer, actor, owner, reply);
  }

  lemma EscalatedGate(dag: Dag, x: Id, answer: Result, actor: Option<set<Token>>, owner: set<Token>, reply: Reply)
    requires Escalated(dag, x, answer, actor, owner, reply)
    ensures reply.NeedsApproval? && reply.gate == x
  {
    hide RuledAs, Explained, SentTargets;
  }

  lemma ReachedIsLive(v: Svc, id: nat)
    ensures forall j :: Reaches(v, id, j) ==> j in v.run.ints
  {
    hide Tables.NoneLiveBefore;
  }

  lemma NotBefore(remap: map<nat, nat>, id: nat, live: set<nat>, k: nat, l: nat)
    requires Tables.Hop(remap, id, k).Some? && Tables.Hop(remap, id, k).value in live
    requires Tables.NoneLiveBefore(remap, id, live, l)
    ensures l <= k
  {
  }

  lemma FirstLiveUnique(remap: map<nat, nat>, id: nat, live: set<nat>, a: nat, b: nat)
    requires Tables.FirstLive(remap, id, live, a) && Tables.FirstLive(remap, id, live, b)
    ensures a == b
  {
    hide Tables.NoneLiveBefore;
    var k: nat :| Tables.Hop(remap, id, k) == Some(a) && a in live && Tables.NoneLiveBefore(remap, id, live, k);
    var l: nat :| Tables.Hop(remap, id, l) == Some(b) && b in live && Tables.NoneLiveBefore(remap, id, live, l);
    NotBefore(remap, id, live, k, l);
    NotBefore(remap, id, live, l, k);
  }

  lemma NeverReached(remap: map<nat, nat>, id: nat, live: set<nat>, a: nat)
    requires Tables.NeverLive(remap, id, live)
    ensures !Tables.FirstLive(remap, id, live, a)
  {
  }

  /** What the resolver returns is the interrupt the id reaches, if it reaches one. */
  lemma ResolvedReaches(v: Svc, id: nat, j: nat)
    requires j in v.run.ints ==> Tables.FirstLive(v.remap, id, v.run.ints.Keys, j)
    requires j !in v.run.ints ==> Tables.NeverLive(v.remap, id, v.run.ints.Keys)
    ensures forall l :: Reaches(v, id, l) <==> j in v.run.ints && l == j
  {
    hide Tables.FirstLive, Tables.NeverLive;
    forall l
      ensures Reaches(v, id, l) <==> j in v.run.ints && l == j
    {
      if j !in v.run.ints {
        NeverReached(v.remap, id, v.run.ints.Keys, l);
      } else if Reaches(v, id, l) {
        FirstLiveUnique(v.remap, id, v.run.ints.Keys, l, j);
      }
    }
  }

  /** What an answer is about, once its id is resolved. */
  lemma AboutResolved(v: Svc, id: nat, claimed: Option<Id>, j: nat)
    requires forall l :: Reaches(v, id, l) <==> j in v.run.ints && l == j
    ensures Unreached(v, id) <==> j !in v.run.ints
    ensures forall x ::
      About(v, id, claimed, x) <==> (if j in v.run.ints then Some(v.run.ints[j]) else claimed) == Some(x)
  {
    hide Reaches;
    if j in v.run.ints {
      assert Reaches(v, id, j);
    }
    forall x
      ensures About(v, id, claimed, x) <==> (if j in v.run.ints then Some(v.run.ints[j]) else claimed) == Some(x)
    {
    }
  }

  lemma Refused(v: Svc, id: nat, claimed: Option<Id>, answer: Result, actor: Option<set<Token>>, owner: set<Token>,
                j: nat, refusal: Option<Reply>)
    requires forall l :: Reaches(v, id, l) <==> j in v.run.ints && l == j
    requires Screens(v.run, j, claimed, answer, refusal) && refusal.Some?
    ensures Replies(v, id, claimed, answer, actor, owner, refusal.value)
  {
    hide Ancestors, Reaches, Entitled, Judges, Upstream, About, Unreached;
    AboutResolved(v, id, claimed, j);
    var x := if j in v.run.ints then Some(v.run.ints[j]) else claimed;
    assert x.Some? ==> About(v, id, claimed, x.value);
    assert forall l :: !Arrives(v, id, claimed, answer, l);
  }

  lemma Judged(v: Svc, id: nat, claimed: Option<Id>, answer: Result, actor: Option<set<Token>>, owner: set<Token>,
               j: nat, refusal: Option<Reply>, reply: Reply)
    requires forall l :: Reaches(v, id, l) <==> j in v.run.ints && l == j
    requires Screens(v.run, j, claimed, answer, None) && j in v.run.ints
    requires Judges(v.run.s.dag, v.run.ints[j], answer, actor, owner, refusal)
    requires refusal == Some(reply) || (refusal.None? && reply.Resumed? && reply.interrupt == j)
    ensures Replies(v, id, claimed, answer, actor, owner, reply)
  {
    hide Ancestors, Reaches, Entitled, Upstream, SomeRuled, CanAnswer, SendsWorkBack, Escalated, RulingOn;
    hide About, Unreached, Judges;
    AboutResolved(v, id, claimed, j);
    JudgedReply(v.run.s.dag, v.run.ints[j], answer, actor, owner, refusal);
    assert About(v, id, claimed, v.run.ints[j]);
    assert Arrives(v, id, claimed, answer, j);
    assert forall l :: Arrives(v, id, claimed, answer, l) ==> l == j;
  }

  // ---------- one super-step ----------

  /** No member of the super-step that is still out can end it in an exception. */
  ghost predicate Safe(r: Inst) {
    forall x :: !CanFail(r, x)
  }

  ghost predicate Mild(a: Action) {
    !a.WriteCrashes? && (a.WriteBegins? ==> a.update.Touch?)
  }

  /** Among what is ready here there is something whose execution can end in an exception. */
  ghost predicate CanCrash(s: State) {
    exists x :: x in ReadyIds(s) && MayRaise(s, x)
  }

  /** A round marked as closed had a task, and that task was closed. */
  ghost predicate Marked(marks: set<(Id, nat)>, keys: map<Key, nat>, closed: set<nat>) {
    forall x, a :: (x, a) in marks ==> Key(x, a, TaskKind) in keys && keys[Key(x, a, TaskKind)] in closed
  }

  lemma AskSafe(r: Inst, x: Id)
    requires RunOk(r) && x !in r.ints.Values
    ensures Safe(r) ==> Safe(Asked(r, x))
  {
    hide MayRaise, RunOk, Forward, Rank;
    AskContinues(r, x);
    assert forall y :: CanFail(Asked(r, x), y) ==> CanFail(r, y);
  }

  lemma FailingIsUnsafe(r: Inst, x: Id)
    requires x in r.step && StatusOf(r.s.status, x) == Pending && x !in r.ints.Values && MayRaise(r.s, x)
    ensures !Safe(r)
  {
    assert CanFail(r, x);
  }

  lemma MachineIsUnsafe(r: Inst, x: Id)
    requires RunOk(r) && x in r.step && StatusOf(r.s.status, x) == Pending && x !in r.ints.Values && !IsHuman(r.s, x)
    ensures !Safe(r)
  {
    assert x in Ids(r.s.dag);
    var k :| 0 <= k < |r.s.dag| && r.s.dag[k].id == x;
    RunIsValid(r);
    ValidIsUnique(r.s.dag);
    hide RunOk, Valid, ValidTemplate;
    FindUnique(r.s.dag, k);
    assert CanFail(r, x);
  }

  lemma OnlyPeopleAsked(r: Inst, x: Id)
    requires RunOk(r)
    ensures x in r.ints.Values ==> IsHuman(r.s, x)
  {
    if x in r.ints.Values {
      var i :| i in r.ints && r.ints[i] == x;
      assert IntOk(r, i);
    }
  }

  lemma LaunchCrashes(r: Inst, s: State)
    ensures Safe(Launch(r, s)) <==> !CanCrash(s)
  {
    hide MayRaise;
    forall x
      ensures CanFail(Launch(r, s), x) <==> x in ReadyIds(s) && MayRaise(s, x)
    {
      if x in ReadyIds(s) {
        ReadyPending(s, x);
      }
    }
  }

  /** Within a super-step: the same members and rounds, and every change is progress. */
  ghost predicate Continues(r: Inst, r': Inst) {
    && r'.step == r.step && r'.s.dag == r.s.dag && r'.s.attempts == r.s.attempts && r'.s.unblocks == r.s.unblocks
    && Forward(r.s, r'.s)
    && (r'.s != r.s ==> Rank(r'.s) < Rank(r.s))
    && r.ints.Values <= r'.ints.Values && r.issued <= r'.issued
    && (forall x :: StatusOf(r'.s.status, x) == Pending ==> StatusOf(r.s.status, x) == Pending)
  }

  lemma ContinuesSelf(r: Inst)
    ensures Continues(r, r)
  {
  }

  lemma ContinuesDag(r: Inst, r': Inst)
    requires Continues(r, r')
    ensures r'.s.dag == r.s.dag
  {
  }

  lemma ContinuesChain(a: Inst, b: Inst, c: Inst)
    requires Continues(a, b) && Continues(b, c)
    ensures Continues(a, c)
  {
    hide Forward, Rank;
    ForwardChain(a.s, b.s, c.s);
  }

  lemma AskContinues(r: Inst, x: Id)
    requires x !in r.ints.Values && RunOk(r)
    ensures Continues(r, Asked(r, x)) && x in Asked(r, x).ints.Values && Asked(r, x).s == r.s
  {
    hide Valid, AllKept, StepOk, Rank;
    var r' := Asked(r, x);
    assert r'.ints[|r.issued|] == x;
    forall y | y in r.ints.Values
      ensures y in r'.ints.Values
    {
      var i :| i in r.ints && r.ints[i] == y;
      assert IntOk(r, i);
      assert r'.ints[i] == y;
    }
  }

  lemma ReturnContinues(r: Inst, x: Id, res: Result)
    requires RunOk(r) && x in r.step && StatusOf(r.s.status, x) == Pending
    ensures var r' := r.(s := Complete(r.s, x, res)); Continues(r, r') && StatusOf(r'.s.status, x) != Pending
  {
    hide Valid, AllKept, StepOk, Complete, Rank, IntOk, CanComplete, Changed;
    var k := MemberCanComplete(r, x);
    CompleteStatus(r, x, res);
    CompleteRounds(r.s, x, res);
    CompleteChanges(r.s, x, res);
    CompleteLowersRank(r.s, x, res);
  }

  lemma HandledStays(r: Inst, r': Inst, x: Id)
    requires Continues(r, r') && Handled(r, x)
    ensures Handled(r', x)
  {
    hide Forward, Rank;
  }

  lemma AllHandled(r: Inst)
    requires RunOk(r) && forall k :: 0 <= k < |r.s.dag| ==> Handled(r, r.s.dag[k].id)
    ensures Waits(r)
  {
    hide Valid, AllKept, Handled, IntOk;
    forall x | x in r.step
      ensures Handled(r, x)
    {
      assert x in Ids(r.s.dag);
      var k :| 0 <= k < |r.s.dag| && r.s.dag[k].id == x;
    }
  }

  lemma BusyMeans(r: Inst)
    ensures Busy(r) <==> exists x :: x in r.step && StatusOf(r.s.status, x) == Pending
  {
  }

  /** Over any number of super-steps: the graph and the grants stay, tickets are kept, every change is progress. */
  ghost predicate Moves(r: Inst, r': Inst) {
    r'.s.dag == r.s.dag && r'.s.unblocks == r.s.unblocks && r.issued <= r'.issued
    && Forward(r.s, r'.s) && (r'.s != r.s ==> Rank(r'.s) < Rank(r.s))
  }

  /** The super-step has just been launched: everyone is out, or nothing was ready. */
  ghost predicate JustLaunched(r: Inst) {
    Busy(r) || r.step == {}
  }

  lemma MovesInStep(r: Inst, r': Inst)
    requires Continues(r, r')
    ensures Moves(r, r') && r'.step == r.step
    ensures Busy(r) && !Busy(r') ==> Rank(r'.s) < Rank(r.s)
    ensures Busy(r) && r'.s == r.s ==> Busy(r')
  {
    hide Forward, Rank;
  }

  lemma MovesRank(r: Inst, r': Inst)
    requires Moves(r, r')
    ensures Rank(r'.s) <= Rank(r.s)
  {
  }

  lemma CarriedUnique(before: map<nat, Id>, ints: map<nat, Id>, o: nat, i: nat)
    requires OnePerNode(ints) && o in before && i in ints && ints[i] == before[o]
    ensures o in Carried(before, ints) && Carried(before, ints)[o] == i
  {
    hide Carried;
    assert before[o] in ints.Values;
  }

  lemma AddPair(m: map<nat, nat>, o: nat, i: nat)
    requires o !in m
    ensures m[o := i].Values == m.Values + {i}
  {
    var m' := m[o := i];
    assert m'[o] == i;
    forall y | y in m.Values
      ensures y in m'.Values
    {
      var k :| k in m && m[k] == y;
      assert m'[k] == y;
    }
  }

  lemma InvDistinct(v: Svc)
    requires Inv(v)
    ensures OnePerNode(v.run.ints)
  {
  }

  lemma MovesChain(a: Inst, b: Inst, c: Inst)
    requires Moves(a, b) && Moves(b, c)
    ensures Moves(a, c)
    ensures c.s == a.s ==> b.s == a.s
  {
    hide Rank, Forward;
    ForwardChain(a.s, b.s, c.s);
  }

  /** Lifting the barrier is progress too, and whatever it launches is out. */
  lemma LaunchMoves(r: Inst)
    requires RunOk(r)
    ensures var r' := Launch(r, Dispatch(r.s));
            Moves(r, r') && JustLaunched(r')
  {
    hide Valid, AllKept, Dispatch, Rank, StepOk, IntOk, ReopenResets, Changed;
    DispatchForward(r.s);
    DispatchFrame(r.s);
    if ReopenResets(r.s) != map[] {
      DispatchLowersRank(r.s);
    }
    LaunchIsFresh(r, Dispatch(r.s));
  }

  lemma LaunchIsFresh(r: Inst, s: State)
    ensures JustLaunched(Launch(r, s))
  {
    var r' := Launch(r, s);
    if x :| x in r'.step {
      ReadyPending(s, x);
    }
  }

  method ApplyUpdate(s: State, u: Update) returns (s': State)
    ensures s' == Updated(s, u)
  {
    match u {
      case Touch => s' := s;
      case Edit(dag') => s' := s.(dag := dag');
      case Lift(x, targets, grant) =>
        var resets := ComputeUnblockResets(s.dag, x, targets);
        s' := s.(status := Merge(s.status, resets),
                 attempts := AddCounts(s.attempts, AttemptIncrements(resets)),
                 unblocks := ExtendLists(s.unblocks, map[x := [Grant(ClampGrant(grant), false)]]));
      case Refund(x) => s' := TakeBack(s, x);
    }
  }

  // ---------- carrying people over a write ----------

  ghost predicate Extends(m: map<nat, nat>, m': map<nat, nat>) {
    forall o :: o in m ==> o in m' && m'[o] == m[o]
  }

  lemma ExtendsSelf(m: map<nat, nat>)
    ensures Extends(m, m)
  {
  }

  /** The interrupt waits for the same node, in the same round, as one that was live before, which leads to it. */
  ghost predicate CarriedFrom(v: Svc, v': Svc, i: nat) {
    exists o :: CarriedAs(v, v', o, i)
  }

  ghost predicate CarriedAs(v: Svc, v': Svc, o: nat, i: nat) {
    && o in v.run.ints && Unanswered(v.run.s, v.run.ints[o])
    && o in v'.remap && v'.remap[o] == i
    && i in v'.run.ints && v'.run.ints[i] == v.run.ints[o]
    && AttemptOf(v'.run.s, v.run.ints[o]) == AttemptOf(v.run.s, v.run.ints[o])
    && KindOf(v'.run.s, v.run.ints[o]) == KindOf(v.run.s, v.run.ints[o])
  }

  lemma TouchIsIdentity(s: State, u: Update)
    ensures u.Touch? ==> Updated(s, u) == s
  {
  }

  /** A touch after which anything differs has lowered the rank. */
  lemma TouchRank(v0: Svc, u: Update, launched: Inst, r: Inst)
    requires Inv(v0) && launched == Launch(v0.run, Dispatch(Updated(v0.run.s, u))) && Moves(launched, r)
    ensures u.Touch? && Fingerprint(r.s) != Fingerprint(v0.run.s) ==> Rank(r.s) < Rank(v0.run.s)
  {
    hide Inv, Dispatch, ReadyIds, Rank, Forward, JustLaunched;
    if u.Touch? {
      InvRunOk(v0);
      LaunchMoves(v0.run);
      MovesChain(v0.run, launched, r);
    }
  }

  lemma QuietAfterTouch(v0: Svc, launched: Inst, r: Inst)
    requires Inv(v0) && Moves(launched, r) && Waits(r)
    requires r.s == launched.s ==> r.step == launched.step
    ensures launched == Launch(v0.run, Dispatch(v0.run.s)) && Fingerprint(r.s) == Fingerprint(v0.run.s) ==> !Stalled(r)
  {
    hide Inv, Stalled, Dispatch, ReadyIds, Rank, Fingerprint, Forward;
    if launched == Launch(v0.run, Dispatch(v0.run.s)) && Fingerprint(r.s) == Fingerprint(v0.run.s) {
      assert Valid(v0.run.s) by { InvRunOk(v0); RunIsValid(v0.run); }
      forall x | x in r.step && StatusOf(r.s.status, x) == Pending
        ensures x in r.ints.Values
      {
        assert Handled(r, x);
      }
      UnchangedIsQuiet(v0.run.s, r);
    }
  }

  lemma SurvivorKind(r: Inst, u: Update, o: nat)
    requires RunOk(r) && CanUpdate(r, u) && o in Survivors(r, u)
    ensures KindOf(Updated(r.s, u), r.ints[o]) == KindOf(r.s, r.ints[o])
  {
    hide RunOk, CanUpdate, Survivors, Updated, Valid, AllKept, KindOf, Reopening, IsReady;
    var k := SurvivorNode(r, u, o);
    RunIsValid(r);
    UpdateKeepsValid(r, u);
    var s1 := Updated(r.s, u);
    var j :| 0 <= j < |s1.dag| && s1.dag[j] == r.s.dag[k];
    SameFind(r.s, s1, k, j);
    KindByFind(r.s, s1, r.s.dag[k].id);
  }

  lemma KindByFind(s: State, s': State, x: Id)
    requires Find(s.dag, x) == Find(s'.dag, x)
    ensures KindOf(s', x) == KindOf(s, x)
  {
  }

  lemma KindByDag(s: State, s': State, x: Id)
    requires s.dag == s'.dag
    ensures KindOf(s, x) == KindOf(s', x)
  {
  }

  lemma CarriedOver(v0: Svc, u: Update, v1: Svc, launched: Inst)
    requires Inv(v0) && Inv(v1) && v0.bridge.None? && CanUpdate(v0.run, u)
    requires launched == Launch(v0.run, Dispatch(Updated(v0.run.s, u))) && Moves(launched, v1.run)
    requires v1.bridge == Some(Survivors(v0.run, u)) && v1.remap == v0.remap
    ensures var carried := Carried(Survivors(v0.run, u), v1.run.ints);
            var v2 := v1.(bridge := None, remap := v1.remap + carried);
            && Extends(v0.remap, v2.remap)
            && forall i :: i in carried.Values ==> CarriedFrom(v0, v2, i)
  {
    hide Inv, CanUpdate, Dispatch, Updated, Survivors, Moves, KindOf, Unanswered, ReadyIds;
    var carried := Carried(Survivors(v0.run, u), v1.run.ints);
    var v2 := v1.(bridge := None, remap := v1.remap + carried);
    assert v1.run.s.dag == Updated(v0.run.s, u).dag && v0.run.issued <= v1.run.issued by {
      LaunchedFrame(v0.run, u, v1.run);
    }
    forall o | o in carried
      ensures CarriedAs(v0, v2, o, carried[o])
    {
      CarriesOne(v0, u, v1, o);
    }
    forall o | o in v0.remap
      ensures o in v2.remap && v2.remap[o] == v0.remap[o]
    {
      if o in carried {
        SurvivorIsOld(v0, u, o);
      }
    }
  }

  lemma LaunchedFrame(r: Inst, u: Update, r': Inst)
    requires Moves(Launch(r, Dispatch(Updated(r.s, u))), r')
    ensures r'.s.dag == Updated(r.s, u).dag && r.issued <= r'.issued && r'.s.unblocks == Updated(r.s, u).unblocks
  {
    hide Dispatch, Updated, Forward, Rank, ReadyIds;
    DispatchFrame(Updated(r.s, u));
  }

  lemma SurvivorIsOld(v: Svc, u: Update, o: nat)
    requires Inv(v) && o in Survivors(v.run, u)
    ensures o in v.run.ints && o !in v.remap && Unanswered(v.run.s, v.run.ints[o])
    ensures Survivors(v.run, u)[o] == v.run.ints[o]
  {
    InvRemap(v);
    hide Inv, IdemOk, RowsOk, Reopening;
  }

  lemma CarriesOne(v0: Svc, u: Update, v1: Svc, o: nat)
    requires Inv(v0) && Inv(v1) && CanUpdate(v0.run, u)
    requires v1.run.s.dag == Updated(v0.run.s, u).dag && v0.run.issued <= v1.run.issued
    requires v1.bridge == Some(Survivors(v0.run, u)) && v1.remap == v0.remap
    requires o in Carried(Survivors(v0.run, u), v1.run.ints)
    ensures var carried := Carried(Survivors(v0.run, u), v1.run.ints);
            CarriedAs(v0, v1.(bridge := None, remap := v1.remap + carried), o, carried[o])
  {
    hide Inv, CanUpdate, Updated, Survivors, KindOf, Unanswered, RunOk, IsHuman, EdgeOk;
    SurvivorIsOld(v0, u, o);
    AskedInStep(v0, o);
    InvCarry(v1, o);
    InvRunOk(v0);
    SurvivorKind(v0.run, u, o);
    KindByDag(Updated(v0.run.s, u), v1.run.s, v0.run.ints[o]);
  }

  lemma InvCarry(v: Svc, o: nat)
    requires Inv(v) && v.bridge.Some? && o in v.bridge.value
    ensures CarryOk(v, o, v.bridge.value[o])
  {
  }

  // ---------- routing over dispatches and writes ----------

  ghost predicate Awaited(v: Svc, i: nat) {
    i in v.run.ints && Unanswered(v.run.s, v.run.ints[i])
  }

  ghost predicate AllServed(v: Svc) {
    forall i :: Awaited(v, i) ==> Served(v, i)
  }

  ghost predicate SkipServed(v: Svc, skip: set<nat>) {
    forall i :: Awaited(v, i) && i in skip ==> Served(v, i)
  }

  /** A validated human node always has a channel to be reached by. */
  lemma PersonHasChannel(v: Svc, i: nat)
    requires Inv(v) && i in v.run.ints
    ensures KindOf(v.run.s, v.run.ints[i]).Some?
  {
    InvRunOk(v);
    IntHolds(v.run, i);
    assert ValidTemplate(v.run.s.dag);
    HumanHasKind(v.run.s, v.run.ints[i]);
  }

  lemma HumanHasKind(s: State, x: Id)
    requires ValidTemplate(s.dag) && IsHuman(s, x)
    ensures KindOf(s, x).Some?
  {
    var n := Find(s.dag, x).value;
    var k :| 0 <= k < |s.dag| && s.dag[k] == n;
    assert Guarded(s.dag, s.dag[k]);
  }

  lemma ProvisionServes(v: Svc, i: nat)
    requires Inv(v) && i in v.run.ints && KindOf(v.run.s, v.run.ints[i]).Some?
    ensures Served(Provisioned(v, i), i)
    ensures forall j :: Served(v, j) ==> Served(Provisioned(v, i), j)
  {
    hide Inv, KindOf, Provisioned, Served;
    ProvisionRoutes(v, i);
    forall j | Served(v, j)
      ensures Served(Provisioned(v, i), j)
    {
      if j != i {
        OtherStaysServed(v, i, j);
      }
    }
  }

  lemma OtherRowStays(v: Svc, i: nat, key: Key)
    requires IdemOk(v) && |v.minted| == |v.created| && i in v.run.ints && KindOf(v.run.s, v.run.ints[i]).Some?
    requires key in v.idem && key.node != v.run.ints[i]
    ensures var v' := Provisioned(v, i);
            && key in v'.idem && v'.idem[key] == v.idem[key] && v'.run == v.run && v'.remap == v.remap
            && (Address(v, v.idem[key]).Some? ==> Address(v', v.idem[key]) == Address(v, v.idem[key]))
  {
    hide KindOf;
  }

  lemma OtherStaysServed(v: Svc, i: nat, j: nat)
    requires Inv(v) && i in v.run.ints && KindOf(v.run.s, v.run.ints[i]).Some?
    requires Served(v, j) && j != i
    ensures Served(Provisioned(v, i), j)
  {
    hide Inv, KindOf, Leads, IdemOk, RemapOk, RowsOk, Provisioned, Address;
    InvRemap(v);
    if v.run.ints[i] == v.run.ints[j] {
      InvOnePerNode(v, i, j);
    }
    OtherRowStays(v, i, KeyOf(v.run.s, v.run.ints[j]));
  }

  lemma LeadsFurther(m: map<nat, nat>, m': map<nat, nat>, a: nat, o: nat, i: nat)
    requires Extends(m, m') && Leads(m, a, o) && o in m' && m'[o] == i
    ensures Leads(m', a, i)
  {
    var k: nat :| Tables.Hop(m, a, k) == Some(o);
    HopAlong(m, m', a, k);
    assert Tables.Hop(m', a, k + 1) == Some(i);
  }

  lemma CarriedServed(v: Svc, v': Svc, o: nat, i: nat)
    requires CarriedAs(v, v', o, i) && Served(v, o) && Extends(v.remap, v'.remap)
    requires v' == v.(run := v'.run, bridge := v'.bridge, remap := v'.remap)
    ensures Served(v', i) && (Routed(v, o) ==> Routed(v', i))
  {
    hide KindOf, Leads, Extends;
    var key := KeyOf(v.run.s, v.run.ints[o]);
    assert Address(v', v.idem[key]) == Address(v, v.idem[key]);
    if Routed(v, o) {
      LeadsFurther(v.remap, v'.remap, Address(v, v.idem[key]).value, o, i);
    }
  }

  lemma CarriedStayServed(v: Svc, v': Svc, remapped: set<nat>)
    requires AllServed(v) && Extends(v.remap, v'.remap)
    requires v' == v.(run := v'.run, bridge := v'.bridge, remap := v'.remap)
    requires forall i :: i in remapped ==> CarriedFrom(v, v', i)
    ensures SkipServed(v', remapped)
  {
    hide Served, Routed, Extends, KindOf;
    forall i | i in remapped
      ensures Served(v', i)
    {
      var o :| CarriedAs(v, v', o, i);
      assert Awaited(v, o);
      CarriedServed(v, v', o, i);
    }
  }

  /** The same people wait, and whoever had been sent what is due still has. */
  ghost predicate KeepsServed(v: Svc, v': Svc) {
    v'.run == v.run && forall i :: Served(v, i) ==> Served(v', i)
  }

  /** Everyone waiting but these has been sent what is due. */
  ghost predicate ServedOutside(v: Svc, skip: set<nat>, todo: set<nat>) {
    forall i :: Awaited(v, i) && i !in skip && i !in todo ==> Served(v, i)
  }

  lemma KeepsServedSelf(v: Svc, skip: set<nat>, todo: set<nat>)
    requires forall i :: Awaited(v, i) && i !in skip ==> i in todo
    ensures KeepsServed(v, v) && ServedOutside(v, skip, todo)
  {
  }

  lemma OneMoreServed(v0: Svc, v: Svc, v': Svc, skip: set<nat>, todo: set<nat>, i: nat)
    requires KeepsServed(v0, v) && KeepsServed(v, v')
    ensures KeepsServed(v0, v')
    ensures ServedOutside(v, skip, todo) && Served(v', i) ==> ServedOutside(v', skip, todo - {i})
    ensures forall j :: Awaited(v, j) ==> Awaited(v', j)
  {
    hide Served, Unanswered;
  }

  lemma NobodyOutside(v: Svc, skip: set<nat>)
    ensures ServedOutside(v, skip, {}) ==> forall i :: Awaited(v, i) && i !in skip ==> Served(v, i)
  {
    hide Served, Unanswered;
  }

  /** Sending to everyone outside the skip set, on top of a served skip set, serves everyone. */
  lemma AllServedFrom(v: Svc, v': Svc, skip: set<nat>)
    requires KeepsServed(v, v')
    ensures SkipServed(v, skip) && (forall i :: Awaited(v', i) && i !in skip ==> Served(v', i)) ==> AllServed(v')
  {
    hide Served, Unanswered;
  }

  /** The graph, the grants and the issued tickets of an instance that was only run on. */
  ghost predicate SameInstance(r: Inst, r': Inst) {
    r'.s.dag == r.s.dag && r'.s.unblocks == r.s.unblocks && r.issued <= r'.issued
  }

  ghost predicate TaskClosed(keys: map<Key, nat>, x: Id, a: nat, closed: set<nat>) {
    Key(x, a, TaskKind) in keys ==> keys[Key(x, a, TaskKind)] in closed
  }

  /** Every task that was sent for a round this node has left has been closed. */
  ghost predicate Tidy(s: State, keys: map<Key, nat>, n: Node, closed: set<nat>) {
    n.signal == Some(TaskComplete) ==> forall a: nat :: a < AttemptOf(s, n.id) ==> TaskClosed(keys, n.id, a, closed)
  }

  /** No task is left open of a round its node has left. */
  ghost predicate AllTidy(v: Svc) {
    forall k :: 0 <= k < |v.run.s.dag| ==> Tidy(v.run.s, v.idem, v.run.s.dag[k], v.closed)
  }

  lemma ClosedStay(keys: map<Key, nat>, x: Id, closed: set<nat>, closed': set<nat>)
    requires closed <= closed'
    ensures forall a :: TaskClosed(keys, x, a, closed) ==> TaskClosed(keys, x, a, closed')
  {
  }

  lemma TidyStays(s: State, keys: map<Key, nat>, closed: set<nat>, closed': set<nat>)
    requires closed <= closed'
    ensures forall n :: Tidy(s, keys, n, closed) ==> Tidy(s, keys, n, closed')
  {
    hide TaskClosed;
    forall n | Tidy(s, keys, n, closed)
      ensures Tidy(s, keys, n, closed')
    {
      ClosedStay(keys, n.id, closed, closed');
    }
  }

  /** The driver's estimate of how many rounds pushing an instance on can take. */
  function PumpRounds(s: State): nat {
    2 * |s.dag| + 2 * TotalReopenBudget(s.dag, s.unblocks) + 5
  }

  lemma RoundsAre(s: State)
    ensures PumpRounds(s) == 2 * |s.dag| + 2 * TotalReopenBudget(s.dag, s.unblocks) + 5
  {
  }

  /** The estimate leaves two rounds for every send-back of any run from here on, and two for every node. */
  lemma EstimateCoversSendBacks(ss: seq<State>, es: seq<Event>)
    requires IsRun(ss, es) && Engine.Valid(ss[0])
    requires forall k :: 0 <= k < |es| ==> Effective(ss[k], es[k])
    ensures PumpRounds(ss[0]) >= 2 * SendBackCount(ss, es) + 2 * |ss[0].dag| + 5
  {
    RunsAreBounded(ss, es);
    hide SendBackCount, TotalReopenBudget, Remaining, Effective, Engine.Valid, IsRun;
  }

  /** The estimate is enough when no gate has a send-back left; with budgets left, the rank can be larger. */
  lemma EstimateSuffices(s: State)
    requires Remaining(s) == 0
    ensures Rank(s) < PumpRounds(s)
  {
    RankBound(s);
    hide Rank, Remaining, TotalReopenBudget;
  }

  lemma ServingIgnoresClosed(v: Svc, closed: set<nat>)
    ensures AllServed(v) ==> AllServed(v.(closed := closed))
  {
    hide Served, Unanswered;
    var v' := v.(closed := closed);
    forall i | AllServed(v) && Awaited(v', i)
      ensures Served(v', i)
    {
      assert Awaited(v, i);
      ServedIgnoresClosed(v, closed, i);
    }
  }

  lemma ServedIgnoresClosed(v: Svc, closed: set<nat>, i: nat)
    requires Served(v, i)
    ensures Served(v.(closed := closed), i)
  {
    hide KindOf, Leads;
    var v' := v.(closed := closed);
    var e := v.idem[KeyOf(v.run.s, v.run.ints[i])];
    assert v'.run == v.run && v'.remap == v.remap && v'.idem == v.idem;
    assert Address(v', e) == Address(v, e);
    assert KindOf(v.run.s, v.run.ints[i]) == Some(TaskKind) ==> Routed(v', i);
  }

  // ---------- answers ----------

  lemma ResolvedLeads(remap: map<nat, nat>, id: nat, live: set<nat>, j: nat)
    requires j in live ==> Tables.FirstLive(remap, id, live, j)
    ensures j in live ==> Leads(remap, id, j)
  {
  }

  /** An id that was ever issued was issued for the node the interrupt asks, in its present round. */
  ghost predicate SameRound(r: Inst, id: nat, j: nat) {
    id < |r.issued| && j in r.ints ==> r.issued[id] == Ticket(r.ints[j], AttemptOf(r.s, r.ints[j]))
  }

  lemma LeadsSameRound(v: Svc, id: nat, j: nat)
    requires Inv(v) && Leads(v.remap, id, j)
    ensures SameRound(v.run, id, j)
  {
    hide Inv;
    if id < |v.run.issued| && j in v.run.ints {
      var k: nat :| Tables.Hop(v.remap, id, k) == Some(j);
      LiveMeansSameRound(v, id, k);
    }
  }

  lemma AnswerFails(s: State, x: Id, answer: Result)
    requires SendsWorkBack(s.dag, x, answer)
    ensures StatusOf(Complete(s, x, answer).status, x) == Failed && Complete(s, x, answer).attempts == s.attempts
  {
  }

  lemma AnswerLands(vs: seq<Svc>, acts: seq<Action>, m: nat, n: nat, s: State, x: Id, answer: Result)
    requires IsHistory(vs, acts) && Inv(vs[0]) && m <= n < |vs|
    requires vs[m].run.s == Complete(s, x, answer) && SendsWorkBack(s.dag, x, answer)
    requires !Stalled(vs[n].run)
    ensures Landed(s, vs[n].run.s, x)
  {
    hide Inv, IsHistory, Complete, SendsWorkBack, ReopenResets, ReadyIds;
    AnswerFails(s, x, answer);
    SendBackLands(vs, acts, m, n, x);
  }

  /** The id is a task's, and its node is no gate. */
  ghost predicate IsTaskRow(v: Svc, ext: nat) {
    && ext in v.rows && v.rows[ext].kind == TaskKind
    && !(Find(v.run.s.dag, v.rows[ext].node).Some? && Find(v.run.s.dag, v.rows[ext].node).value.role.Gate?)
  }

  /** Somebody waits by this very task, and it leads to him. */
  ghost predicate WaitsByTask(v: Svc, ext: nat, i: nat) {
    && Awaited(v, i) && KindOf(v.run.s, v.run.ints[i]) == Some(TaskKind)
    && KeyOf(v.run.s, v.run.ints[i]) in v.idem && v.idem[KeyOf(v.run.s, v.run.ints[i])] == ext && Routed(v, i)
  }

  /** Who waits by task is at no gate, and his task has a row. */
  lemma TaskWaiter(v: Svc, ext: nat, i: nat)
    requires Inv(v) && WaitsByTask(v, ext, i)
    ensures IsTaskRow(v, ext) && v.rows[ext].node == v.run.ints[i] && Leads(v.remap, v.rows[ext].interrupt, i)
    ensures v.rows[ext].interrupt < |v.run.issued| && StatusOf(v.run.s.status, v.run.ints[i]) == Pending
  {
    hide Inv, Leads, KindOf, RunOk;
    var key := KeyOf(v.run.s, v.run.ints[i]);
    IdemKey(v, key);
    assert ext in v.rows;
    RowAddress(v, ext);
    AskedIsPending(v, i);
    InvRunOk(v);
    RunIsValid(v.run);
    IntIsHuman(v.run, i);
    TaskIsNoGate(v.run.s, v.run.ints[i]);
  }

  lemma IntIsHuman(r: Inst, i: nat)
    requires RunOk(r) && i in r.ints
    ensures IsHuman(r.s, r.ints[i])
  {
    assert IntOk(r, i);
  }

  lemma TaskIsNoGate(s: State, x: Id)
    requires Engine.Valid(s) && IsHuman(s, x) && KindOf(s, x) == Some(TaskKind)
    ensures Find(s.dag, x).Some? && !Find(s.dag, x).value.role.Gate?
  {
    var n := Find(s.dag, x).value;
    var k :| 0 <= k < |s.dag| && s.dag[k] == n;
    assert Guarded(s.dag, s.dag[k]);
  }

  lemma NoneByTask(v: Svc, ext: nat)
    requires Inv(v) && !IsTaskRow(v, ext)
    ensures forall i :: !WaitsByTask(v, ext, i)
  {
    hide Inv, IsTaskRow, WaitsByTask;
    forall i
      ensures !WaitsByTask(v, ext, i)
    {
      if WaitsByTask(v, ext, i) {
        TaskWaiter(v, ext, i);
      }
    }
  }

  lemma TaskTaken(v: Svc, ext: nat, reply: Reply)
    requires Inv(v) && v.bridge.None? && ext in v.rows && v.rows[ext].interrupt < |v.run.issued|
    requires Replies(v, v.rows[ext].interrupt, Some(v.rows[ext].node), Result(true, [], None), None, {}, reply)
    ensures forall i :: WaitsByTask(v, ext, i) ==> reply.Resumed? && reply.interrupt == i
  {
    hide Inv, WaitsByTask, Replies, Leads;
    forall i | WaitsByTask(v, ext, i)
      ensures reply.Resumed? && reply.interrupt == i
    {
      TaskWaiter(v, ext, i);
      IsWaiting(v, ext, i);
      assert LedTo(v, v.rows[ext].interrupt, v.run.ints[i], i);
      var j := IsAccepted(v, v.rows[ext].interrupt, v.run.ints[i], reply);
      InvOnePerNode(v, i, j);
    }
  }

  lemma IsWaiting(v: Svc, ext: nat, i: nat)
    requires WaitsByTask(v, ext, i)
    ensures i in v.run.ints
  {
    hide Routed, KindOf, Unanswered;
  }

  /** The interrupt asks for the work of the node and round this task was sent for. */
  ghost predicate OfTask(v: Svc, ext: nat, j: nat) {
    && ext < |v.created| && v.created[ext].kind.TaskKind? && j in v.run.ints
    && v.created[ext] == Key(v.run.ints[j], AttemptOf(v.run.s, v.run.ints[j]), TaskKind)
  }

  lemma RowAddress(v: Svc, e: nat)
    requires Inv(v) && e in v.rows
    ensures e < |v.created| && v.rows[e].kind == v.created[e].kind && v.rows[e].interrupt < |v.run.issued|
    ensures v.rows[e].node == v.created[e].node
    ensures v.run.issued[v.rows[e].interrupt] == Ticket(v.created[e].node, v.created[e].attempt)
  {
    InvRemap(v);
    assert RowOk(v, e);
    hide Inv, RemapOk, IdemOk, MintOk;
  }

  lemma NothingSkipped(v: Svc)
    ensures SkipServed(v, {})
  {
  }

  // ---------- edits, unblocks and sweeps ----------

  lemma InstanceIsUnique(v: Svc)
    requires Inv(v)
    ensures UniqueIds(v.run.s.dag)
  {
    InvRunOk(v);
    RunIsValid(v.run);
    ValidIsUnique(v.run.s.dag);
  }

  /** An edit that passes the freeze line and validation is one the driver machine can take. */
  lemma EditIsLegal(v: Svc, ops: seq<Op>)
    requires Inv(v) && ApplyOps(v.run.s.dag, Frontier(v.run.s.status, v.run.ints.Values), ops).Ok?
    requires ValidTemplate(ApplyOps(v.run.s.dag, Frontier(v.run.s.status, v.run.ints.Values), ops).dag)
    ensures CanUpdate(v.run, Edit(ApplyOps(v.run.s.dag, Frontier(v.run.s.status, v.run.ints.Values), ops).dag))
  {
    InvRunOk(v);
    RunIsValid(v.run);
    assert v.run.ints.Values <= Ids(v.run.s.dag) by {
      forall x | x in v.run.ints.Values
        ensures x in Ids(v.run.s.dag)
      {
        var i :| i in v.run.ints && v.run.ints[i] == x;
        assert IntOk(v.run, i);
      }
    }
    hide Inv, Valid, ValidTemplate, ApplyOps, CanEdit;
    AcceptedEditIsLegal(v.run.s, v.run.ints.Values, ops);
  }

  lemma GrantCounts(log: seq<Grant>, amount: int)
    ensures NetCount(log + [Grant(amount, false)]) == NetCount(log) + 1
  {
    assert (log + [Grant(amount, false)])[..|log|] == log;
  }

  lemma LiftLogs(s: State, x: Id, targets: seq<Id>, grant: int)
    ensures LogOf(Updated(s, Lift(x, targets, grant)).unblocks, x) == LogOf(s.unblocks, x) +
        [Grant(ClampGrant(grant), false)]
    ensures NetCount(LogOf(s.unblocks, x) + [Grant(ClampGrant(grant), false)]) == NetCount(LogOf(s.unblocks, x)) + 1
  {
    hide Thaw;
    ThawAt(s, x, targets, grant, x);
    GrantCounts(LogOf(s.unblocks, x), ClampGrant(grant));
  }

  lemma RefundTakesBack(s: State, x: Id, log: seq<Grant>, amount: int)
    requires LogOf(s.unblocks, x) == log + [Grant(amount, false)]
    ensures CanRefund(s, x)
    ensures GrantsUsed(TakeBack(s, x).unblocks, x) == NetCount(log)
  {
    RefundCancels(log, amount);
    assert LogOf(TakeBack(s, x).unblocks, x) == log + [Grant(amount, false)] + [Grant(amount, true)];
  }

  lemma ClearedAtFirst(v0: Svc, errors: seq<Trouble>, todo: set<nat>)
    requires forall i :: i in v0.run.ints && Unanswered(v0.run.s, v0.run.ints[i]) ==>
      (KindOf(v0.run.s, v0.run.ints[i]) == Some(TaskKind) ==> i in todo)
    ensures Cleared(v0, v0, todo) && !Troubled(errors, |errors|)
  {
    hide Unanswered;
    forall i | Due(v0, i)
      ensures i in todo
    {
    }
  }

  lemma TroubleSpreads(first: seq<Trouble>, was: seq<Trouble>, errors: seq<Trouble>)
    requires first <= was <= errors
    ensures Troubled(errors, |first|) <==> Troubled(was, |first|) || Troubled(errors, |was|)
  {
    if Troubled(was, |first|) {
      var k :| |first| <= k < |was| && was[k].ReadFailed?;
      assert errors[k] == was[k];
    }
    if Troubled(errors, |first|) {
      var k :| |first| <= k < |errors| && errors[k].ReadFailed?;
      if k < |was| {
        assert was[k].ReadFailed?;
      }
    }
  }

  lemma ClearedStays(vs: seq<Svc>, acts: seq<Action>, m0: nat, m: nat, n: nat, todo: set<nat>)
    requires IsHistory(vs, acts) && Inv(vs[0]) && m0 <= m <= n < |vs| && Cleared(vs[m0], vs[m], todo)
    ensures Cleared(vs[m0], vs[n], todo)
  {
    hide Inv, IsHistory, PendingIn, KindOf, Find;
    HistoryGrows(vs, acts, m0, m);
    forall i | Due(vs[m0], i) && i !in todo
      ensures !PendingIn(vs[n], vs[m0].run.ints[i], AttemptOf(vs[m0].run.s, vs[m0].run.ints[i]))
    {
      IsDue(vs[m0], i);
      NeverPendingAgain(vs, acts, m, n, vs[m0].run.ints[i], AttemptOf(vs[m0].run.s, vs[m0].run.ints[i]));
    }
  }

  lemma IsDue(v: Svc, i: nat)
    requires Due(v, i)
    ensures i in v.run.ints && Key(v.run.ints[i], AttemptOf(v.run.s, v.run.ints[i]), TaskKind) in v.idem
    ensures v.idem[Key(v.run.ints[i], AttemptOf(v.run.s, v.run.ints[i]), TaskKind)] in v.finished
  {
    hide Find;
  }

  lemma DueIsFinished(v: Svc, v': Svc, i: nat)
    ensures Due(v, i) && v.finished <= v'.finished ==>
      v.idem[Key(v.run.ints[i], AttemptOf(v.run.s, v.run.ints[i]), TaskKind)] in v'.finished
  {
    hide Find;
  }

  lemma FinishedGrow(vs: seq<Svc>, acts: seq<Action>, m: nat, n: nat)
    requires IsHistory(vs, acts) && m <= n < |vs|
    ensures vs[m].finished <= vs[n].finished
    decreases n - m
  {
    hide Dispatch, Updated, CanUpdate, Survivors, Carried, ReadyIds, KindOf, CanFail, Waits, KeyOf, Complete;
    if m < n {
      FinishedGrow(vs, acts, m, n - 1);
      assert ActsOnce(vs, acts, n - 1);
    }
  }

  /** Somebody who waited when the sweep began and still does is reached by the id he had then: the sweep's own pushes
      carried him along. */
  lemma StillLinked(vs: seq<Svc>, acts: seq<Action>, m0: nat, m: nat, i: nat)
    requires IsHistory(vs, acts) && Inv(vs[0]) && m0 <= m < |vs| && |vs| == |acts| + 1
    requires vs[m0].bridge.None? && i in vs[m0].run.ints && Unanswered(vs[m0].run.s, vs[m0].run.ints[i])
    requires forall k :: m0 <= k < m ==> Mild(acts[k])
    ensures var x, a := vs[m0].run.ints[i], AttemptOf(vs[m0].run.s, vs[m0].run.ints[i]);
            && i < |vs[m].run.issued| && vs[m].run.issued[i] == Ticket(x, a) && a <= AttemptOf(vs[m].run.s, x)
            && (PendingIn(vs[m], x, a) ==> Linked(vs[m], i, x))
  {
    hide Inv, IsHistory, Unanswered;
    HistoryInv(vs, acts, m0);
    HistoryGrows(vs, acts, m0, m);
    AskedInStep(vs[m0], i);
    AskedIsPending(vs[m0], i);
    SelfLeads(vs[m0].remap, i);
    var x, a := vs[m0].run.ints[i], AttemptOf(vs[m0].run.s, vs[m0].run.ints[i]);
    assert LedTo(vs[m0], i, x, i);
    if PendingIn(vs[m], x, a) {
      StaysLinked(vs, acts, m0, m, i, x);
    }
  }

  lemma OneMoreCleared(vs: seq<Svc>, acts: seq<Action>, m0: nat, m: nat, n: nat, todo: set<nat>, i: nat)
    requires IsHistory(vs, acts) && Inv(vs[0]) && m0 <= m <= n < |vs| && |vs| == |acts| + 1
    ensures (Cleared(vs[m0], vs[m], todo)
             && (Due(vs[m0], i) ==>
                   !PendingIn(vs[n], vs[m0].run.ints[i], AttemptOf(vs[m0].run.s, vs[m0].run.ints[i])))) ==>
      Cleared(vs[m0], vs[n], todo - {i})
    ensures Due(vs[m0], i) ==>
      var key := Key(vs[m0].run.ints[i], AttemptOf(vs[m0].run.s, vs[m0].run.ints[i]), TaskKind);
      key in vs[m].idem && key in vs[m0].idem && vs[m].idem[key] == vs[m0].idem[key]
  {
    hide Inv, IsHistory, Due, PendingIn;
    if Cleared(vs[m0], vs[m], todo) {
      ClearedStays(vs, acts, m0, m, n, todo);
    }
    if Due(vs[m0], i) {
      IsDue(vs[m0], i);
      HistoryInv(vs, acts, m0);
      HistoryInv(vs, acts, m);
      HistoryGrows(vs, acts, m0, m);
      KeyStays(vs[m0], vs[m], Key(vs[m0].run.ints[i], AttemptOf(vs[m0].run.s, vs[m0].run.ints[i]), TaskKind));
    }
  }

  /** A completed task's answer is taken up: if its person still waits in that round, it is accepted, and he waits no
      more. */
  lemma TakenUp(vs: seq<Svc>, acts: seq<Action>, m: nat, n: nat, i: nat, x: Id, a: nat, reply: Reply)
    requires IsHistory(vs, acts) && Inv(vs[0]) && m <= n < |vs| && |vs| == |acts| + 1 && n == |acts|
    requires vs[m].bridge.None? && i < |vs[m].run.issued|
    requires Replies(vs[m], i, Some(x), Result(true, [], None), None, {}, reply)
    requires reply.Resumed? ==> acts[..m] + Taken(vs[m].run, reply.interrupt, Result(true, [], None)) <= acts
    ensures PendingIn(vs[m], x, a) && Linked(vs[m], i, x) ==> !PendingIn(vs[n], x, a)
  {
    hide Inv, IsHistory, Leads;
    if PendingIn(vs[m], x, a) && Linked(vs[m], i, x) {
      HistoryInv(vs, acts, m);
      var j := IsAccepted(vs[m], i, x, reply);
      assert acts[m] == PersonAnswers(j, Result(true, [], None));
      AnsweredIsOver(vs, acts, m, n);
    }
  }

  lemma IsAccepted(v: Svc, i: nat, x: Id, reply: Reply) returns (j: nat)
    requires Inv(v) && v.bridge.None? && i < |v.run.issued| && StatusOf(v.run.s.status, x) == Pending && Linked(v, i, x)
    requires Replies(v, i, Some(x), Result(true, [], None), None, {}, reply)
    ensures reply.Resumed? && reply.interrupt == j && j in v.run.ints && v.run.ints[j] == x
  {
    hide Inv, Tables.FirstLive;
    j :| LedTo(v, i, x, j);
    LedIsFirst(v, i, j);
    assert Entitled(v.run.s.dag, x, Result(true, [], None), None, {});
    assert Arrives(v, i, Some(x), Result(true, [], None), j);
    FirstLiveUnique(v.remap, i, v.run.ints.Keys, j, reply.interrupt);
  }

  /** If a resume with the id a task was sent under goes through, and the task reads as completed, then a person
      finished it, and it is the task of the node and round that are answered. */
  lemma PersonDidIt(v: Svc, key: Key, i: nat, j: nat)
    requires Inv(v) && key in v.idem && key.kind.TaskKind?
    requires i < |v.run.issued| && v.run.issued[i] == Ticket(key.node, key.attempt)
    requires j in v.run.ints && SameRound(v.run, i, j)
    requires v.idem[key] in v.closed || v.idem[key] in v.finished
    ensures FinishedByPerson(v, PersonAnswers(j, Result(true, [], None)))
  {
    hide Inv;
    assert key == Key(v.run.ints[j], AttemptOf(v.run.s, v.run.ints[j]), TaskKind);
    CurrentTaskIsThePersons(v, key);
  }
}
