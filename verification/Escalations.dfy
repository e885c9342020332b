/** Asking for approval to send other people's work back: an append-only log per gate, read by one yardstick. */
module Escalations {
  import opened Graph
  import opened State
  import opened Engine
  import opened Permissions
  import opened Rebound

  datatype Entry =
    | Asked(number: nat, author: Option<Token>, targets: seq<Id>, approvers: set<Token>, notified: set<Token>,
        attempt: nat)
    | Settled(ref: nat, approved: bool)

  type Log = seq<Entry>

  datatype Standing = Waiting | Approved | Declined | Expired

  // ---------- reading the log ----------

  function Requests(log: Log): (r: Log)
    ensures forall e :: e in r <==> e in log && e.Asked?
  {
    if log == [] then []
    else
      var k := |log| - 1;
      assert log == log[..k] + [log[k]];
      if log[k].Asked? then Requests(log[..k]) + [log[k]] else Requests(log[..k])
  }

  /** The verdict on a request; a later record would win. */
  function VerdictOn(log: Log, n: nat): Option<bool> {
    if log == [] then None
    else
      var k := |log| - 1;
      if log[k].Settled? && log[k].ref == n then Some(log[k].approved) else VerdictOn(log[..k], n)
  }

  /** A request's standing right now, derived, never stored. */
  function StandingOf(log: Log, e: Entry, attempt: nat, answered: bool): Standing
    requires e.Asked?
  {
    match VerdictOn(log, e.number)
    case Some(approved) => if approved then Approved else Declined
    case None => if e.attempt == attempt && !answered then Waiting else Expired
  }

  /** The requests of a log that still wait for somebody. */
  function LiveAmong(rs: Log, log: Log, attempt: nat): (r: Log)
    ensures forall e :: e in r <==> e in rs && e.Asked? && e.attempt == attempt && VerdictOn(log, e.number).None?
    ensures |r| <= |rs|
  {
    if rs == [] then []
    else
      var k := |rs| - 1;
      assert rs == rs[..k] + [rs[k]];
      var e := rs[k];
      if e.Asked? && e.attempt == attempt && VerdictOn(log, e.number).None? then LiveAmong(rs[..k], log, attempt) + [e]
      else LiveAmong(rs[..k], log, attempt)
  }

  function Live(log: Log, attempt: nat, answered: bool): Log {
    if answered then [] else LiveAmong(Requests(log), log, attempt)
  }

  /** The live list and the derived standing are the same yardstick. */
  lemma LiveIsWaiting(log: Log, e: Entry, attempt: nat, answered: bool)
    requires e in Requests(log)
    ensures e in Live(log, attempt, answered) <==> StandingOf(log, e, attempt, answered) == Waiting
  {
  }

  // ---------- asking ----------

  datatype AskReply = Duplicate(number: nat) | TooMany | Filed(number: nat)

  function TargetKey(targets: seq<Id>): set<Id> {
    set i | 0 <= i < |targets| :: targets[i]
  }

  function FirstSame(live: Log, author: Option<Token>, key: set<Id>): Option<nat> {
    if live == [] then None
    else if live[0].Asked? && live[0].author == author && TargetKey(live[0].targets) == key then Some(live[0].number)
    else FirstSame(live[1..], author, key)
  }

  /** One click on a cross-border send-back: the same request again, too many of them, or a new record. */
  function Ask(log: Log, attempt: nat, answered: bool, author: Option<Token>, targets: seq<Id>,
               approvers: set<Token>, notified: set<Token>): (r: (Log, AskReply)) {
    var live := Live(log, attempt, answered);
    match FirstSame(live, author, TargetKey(targets))
    case Some(n) => (log, Duplicate(n))
    case None =>
      if |live| >= MAX_PENDING_ESCALATIONS then (log, TooMany)
      else
        var n := |Requests(log)| + 1;
        (log + [Asked(n, author, targets, approvers, notified, attempt)], Filed(n))
  }

  /** Asking again for the same set of targets, in whatever order or with repeats, files nothing. */
  lemma AskingTwiceFilesOnce(log: Log, attempt: nat, author: Option<Token>, targets: seq<Id>, again: seq<Id>,
                             approvers: set<Token>, notified: set<Token>)
    requires TargetKey(targets) == TargetKey(again) && Numbered(log) && VerdictsPointBack(log)
    requires Ask(log, attempt, false, author, targets, approvers, notified).1.Filed?
    ensures var log' := Ask(log, attempt, false, author, targets, approvers, notified).0;
            Ask(log', attempt, false, author, again, approvers, notified).1.Duplicate?
  {
    var n := |Requests(log)| + 1;
    var e := Asked(n, author, targets, approvers, notified, attempt);
    var log' := log + [e];
    assert log'[..|log|] == log;
    assert Requests(log') == Requests(log) + [e];
    NoVerdictAhead(log, n);
    assert VerdictOn(log', n) == VerdictOn(log, n);
    var live := Live(log', attempt, false);
    assert e in live;
    FoundSame(live, author, TargetKey(again), e);
  }

  lemma {:induction false} FoundSame(live: Log, author: Option<Token>, key: set<Id>, e: Entry)
    requires e in live && e.Asked? && e.author == author && TargetKey(e.targets) == key
    ensures FirstSame(live, author, key).Some?
  {
    if !(live[0].Asked? && live[0].author == author && TargetKey(live[0].targets) == key) {
      FoundSame(live[1..], author, key, e);
    }
  }

  // ---------- settling ----------

  datatype SettleCheck =
    | MissingAudit
    | NoSuchRequest
    | Ambiguous(numbers: nat)
    | AlreadySettled
    | StaleRequest
    | SelfApproval
    | Unauthorized
    | Proceed(number: nat)

  function Numbers(rs: Log, n: nat): Option<Entry> {
    if rs == [] then None
    else if rs[0].Asked? && rs[0].number == n then Some(rs[0])
    else Numbers(rs[1..], n)
  }

  /** Which request is meant; without a number, only an unambiguous one. */
  function Pick(log: Log, attempt: nat, answered: bool, number: Option<nat>): (r: (Option<Entry>, SettleCheck))
    ensures r.0.Some? ==> r.0.value in log && r.0.value.Asked?
  {
    match number
    case Some(n) =>
      var found := Numbers(Requests(log), n);
      if found.Some? then NumbersFinds(Requests(log), n); (found, Proceed(n)) else (None, NoSuchRequest)
    case None =>
      var live := Live(log, attempt, answered);
      if |live| == 0 then (None, NoSuchRequest)
      else if |live| > 1 then (None, Ambiguous(|live|))
      else assert live[0] in live; (Some(live[0]), Proceed(live[0].number))
  }

  lemma {:induction false} NumbersFinds(rs: Log, n: nat)
    ensures Numbers(rs, n).Some? ==>
      Numbers(rs, n).value in rs && Numbers(rs, n).value.Asked? && Numbers(rs, n).value.number == n
  {
    if rs != [] {
      NumbersFinds(rs[1..], n);
    }
  }

  /** The five gates of a verdict, in order: signed, not settled, not stale, not one's own, and entitled. */
  function Check(log: Log, attempt: nat, answered: bool, author: Token, tokens: set<Token>,
                 number: Option<nat>): SettleCheck {
    if Blank(author) then MissingAudit
    else
      var (found, why) := Pick(log, attempt, answered, number);
      match found
      case None => why
      case Some(e) =>
        if VerdictOn(log, e.number).Some? then AlreadySettled
        else if e.attempt != attempt || answered then StaleRequest
        else if e.author == Some(author) then SelfApproval
        else if tokens * e.approvers == {} && author !in e.notified then Unauthorized
        else Proceed(e.number)
  }

  /** Only a waiting request, by someone entitled who did not ask for it himself, can be settled. */
  lemma ProceedMeansWaiting(log: Log, attempt: nat, answered: bool, author: Token, tokens: set<Token>,
                            number: Option<nat>)
    requires Check(log, attempt, answered, author, tokens, number).Proceed?
    ensures exists e :: e in Requests(log) && e.number == Check(log, attempt, answered, author, tokens, number).number
              && StandingOf(log, e, attempt, answered) == Waiting && e.author != Some(author)
              && (tokens * e.approvers != {} || author in e.notified)
  {
    hide Blank, VerdictOn, Requests, Numbers, Live;
    var e := Pick(log, attempt, answered, number).0.value;
    assert e in Requests(log);
    assert StandingOf(log, e, attempt, answered) == Waiting;
  }

  lemma ProceedIsPicked(log: Log, attempt: nat, answered: bool, author: Token, tokens: set<Token>, number: Option<nat>)
    requires Check(log, attempt, answered, author, tokens, number).Proceed?
    ensures Pick(log, attempt, answered, number).0.Some? && !answered
    ensures Pick(log, attempt, answered, number).0.value.number ==
        Check(log, attempt, answered, author, tokens, number).number
  {
  }

  // ---------- the rules, in terms of the records ----------

  /** A request is settled exactly if some record settles it. */
  lemma {:induction false} VerdictRule(log: Log, n: nat)
    ensures VerdictOn(log, n).None? <==> forall k :: 0 <= k < |log| ==> !(log[k].Settled? && log[k].ref == n)
    ensures VerdictOn(log, n).Some? ==> Settled(n, VerdictOn(log, n).value) in log
  {
    if log != [] {
      var k := |log| - 1;
      VerdictRule(log[..k], n);
      assert forall i :: 0 <= i < k ==> log[..k][i] == log[i];
    }
  }

  /** A request waits while nothing settles it, its gate is in the round it was filed in, and the gate is not answered;
      a settled one is what its record says, the rest have expired. */
  lemma StandingRule(log: Log, e: Entry, attempt: nat, answered: bool)
    requires e.Asked?
    ensures StandingOf(log, e, attempt, answered) == Waiting <==>
      (e.attempt == attempt && !answered && forall k :: 0 <= k < |log| ==> !(log[k].Settled? && log[k].ref == e.number))
    ensures StandingOf(log, e, attempt, answered) == Approved ==> Settled(e.number, true) in log
    ensures StandingOf(log, e, attempt, answered) == Declined ==> Settled(e.number, false) in log
  {
    VerdictRule(log, e.number);
    hide VerdictOn;
  }

  ghost predicate Waits(log: Log, attempt: nat, answered: bool, e: Entry) {
    e in Requests(log) && StandingOf(log, e, attempt, answered) == Waiting
  }

  ghost predicate Rising(rs: Log) {
    forall i, j :: 0 <= i < j < |rs| ==> rs[i].Asked? && rs[j].Asked? && rs[i].number < rs[j].number
  }

  lemma PrefixRises(rs: Log, k: nat)
    requires Rising(rs) && k < |rs|
    ensures Rising(rs[..k])
    ensures forall e :: e in rs[..k] ==> e.Asked? && rs[k].Asked? && e.number < rs[k].number
  {
    forall i, j | 0 <= i < j < k
      ensures rs[..k][i].Asked? && rs[..k][j].Asked? && rs[..k][i].number < rs[..k][j].number
    {
      assert rs[..k][i] == rs[i] && rs[..k][j] == rs[j];
    }
    forall e | e in rs[..k]
      ensures e.Asked? && rs[k].Asked? && e.number < rs[k].number
    {
      var i :| 0 <= i < k && rs[..k][i] == e;
      assert rs[i].Asked? && rs[k].Asked? && rs[i].number < rs[k].number;
    }
  }

  lemma {:induction false} LiveRises(rs: Log, log: Log, attempt: nat)
    requires Rising(rs)
    ensures Rising(LiveAmong(rs, log, attempt))
  {
    hide VerdictOn;
    if rs != [] {
      var k := |rs| - 1;
      PrefixRises(rs, k);
      LiveRises(rs[..k], log, attempt);
      SnocRises(LiveAmong(rs[..k], log, attempt), rs[k]);
    }
  }

  lemma SnocRises(rs: Log, e: Entry)
    requires Rising(rs) && forall f :: f in rs ==> f.Asked? && e.Asked? && f.number < e.number
    ensures Rising(rs + [e])
  {
    forall i, j | 0 <= i < j < |rs| + 1
      ensures (rs + [e])[i].Asked? && (rs + [e])[j].Asked? && (rs + [e])[i].number < (rs + [e])[j].number
    {
      assert rs[i] in rs;
    }
  }

  /** The list the quota counts has every waiting request once. */
  lemma LiveListsWaiting(log: Log, attempt: nat, answered: bool)
    requires Numbered(log)
    ensures Rising(Live(log, attempt, answered))
    ensures forall e :: e in Live(log, attempt, answered) <==> Waits(log, attempt, answered, e)
  {
    hide StandingOf, VerdictOn, Requests, LiveAmong;
    assert forall e :: e in Requests(log) ==> e.Asked?;
    LiveRises(Requests(log), log, attempt);
    forall e | e in Requests(log)
      ensures e in Live(log, attempt, answered) <==> StandingOf(log, e, attempt, answered) == Waiting
    {
      LiveIsWaiting(log, e, attempt, answered);
    }
    forall e | e in Live(log, attempt, answered)
      ensures e in Requests(log)
    {
    }
  }

  ghost predicate SameTargets(a: seq<Id>, b: seq<Id>) {
    forall t :: t in a <==> t in b
  }

  lemma {:induction false} FirstSameRule(live: Log, author: Option<Token>, targets: seq<Id>)
    ensures FirstSame(live, author, TargetKey(targets)).Some? <==>
      (exists e :: e in live && e.Asked? && e.author == author && SameTargets(e.targets, targets))
    ensures FirstSame(live, author, TargetKey(targets)).Some? ==>
      exists e :: e in live && e.Asked? && e.author == author && SameTargets(e.targets, targets)
                  && e.number == FirstSame(live, author, TargetKey(targets)).value
  {
    if live != [] {
      FirstSameRule(live[1..], author, targets);
      var e := live[0];
      if e.Asked? {
        KeyRule(e.targets, targets);
      }
      assert live == [e] + live[1..];
    }
  }

  lemma KeyRule(a: seq<Id>, b: seq<Id>)
    ensures TargetKey(a) == TargetKey(b) <==> SameTargets(a, b)
  {
    assert forall t :: t in TargetKey(a) <==> t in a;
    assert forall t :: t in TargetKey(b) <==> t in b;
  }

  /** A request is a duplicate exactly if the same person has one waiting for the same set of targets; otherwise it is
      one too many exactly if five wait; otherwise it is filed, under the next number. */
  lemma AskRule(log: Log, attempt: nat, answered: bool, author: Option<Token>, targets: seq<Id>,
                approvers: set<Token>, notified: set<Token>)
    requires Numbered(log)
    ensures var (log', reply) := Ask(log, attempt, answered, author, targets, approvers, notified);
            var same := exists e ::
              Waits(log, attempt, answered, e) && e.author == author && SameTargets(e.targets, targets);
            var full := |Live(log, attempt, answered)| >= 5;
            && (reply.Duplicate? <==> same)
            && (reply.Duplicate? ==> exists e :: Waits(log, attempt, answered, e) && e.author == author
                                       && SameTargets(e.targets, targets) && e.number == reply.number)
            && (reply.TooMany? <==> !same && full)
            && (reply.Filed? <==> !same && !full)
            && log' == (if reply.Filed?
                 then log + [Asked(reply.number, author, targets, approvers, notified, attempt)] else log)
            && (reply.Filed? ==> reply.number == |Requests(log)| + 1)
  {
    hide FirstSame, Live, Waits, Requests, Numbered, TargetKey;
    LiveListsWaiting(log, attempt, answered);
    FirstSameRule(Live(log, attempt, answered), author, targets);
    WaitingAreAsked(log, attempt, answered);
  }

  lemma WaitingAreAsked(log: Log, attempt: nat, answered: bool)
    ensures forall e :: Waits(log, attempt, answered, e) ==> e.Asked?
  {
  }

  /** The request a verdict is about: the one of that number, or without a number the only one that waits. */
  ghost predicate Meant(log: Log, attempt: nat, answered: bool, number: Option<nat>, e: Entry) {
    && e in Requests(log)
    && match number
       case Some(n) => e.number == n
       case None =>
         Waits(log, attempt, answered, e) && forall other :: Waits(log, attempt, answered, other) ==> other == e
  }

  /** Who may settle it: somebody who signs, did not ask himself, and holds an approver's token or was told to decide.
      */
  ghost predicate MaySettle(log: Log, attempt: nat, answered: bool, author: Token, tokens: set<Token>,
                            number: Option<nat>, e: Entry) {
    && !Blank(author) && Meant(log, attempt, answered, number, e) && Waits(log, attempt, answered, e)
    && e.author != Some(author)
    && ((exists a :: a in tokens && a in e.approvers) || author in e.notified)
  }

  lemma {:induction false} NumbersAt(rs: Log, e: Entry)
    requires Rising(rs) && e in rs && e.Asked?
    ensures Numbers(rs, e.number) == Some(e)
  {
    if rs[0] != e {
      assert e in rs[1..];
      var k :| 0 < k < |rs| && rs[k] == e;
      NumbersAt(rs[1..], e);
    }
  }

  lemma NumberedRises(log: Log)
    requires Numbered(log)
    ensures Rising(Requests(log))
  {
    forall i, j | 0 <= i < j < |Requests(log)|
      ensures Requests(log)[i].Asked? && Requests(log)[j].Asked? && Requests(log)[i].number < Requests(log)[j].number
    {
      assert Requests(log)[i] in Requests(log) && Requests(log)[j] in Requests(log);
    }
  }

  /** Picking finds what is meant, if anything is; without a number, several waiting requests are refused as
      ambiguous. */
  lemma PickRule(log: Log, attempt: nat, answered: bool, number: Option<nat>)
    requires Numbered(log)
    ensures forall e :: Pick(log, attempt, answered, number).0 == Some(e) <==> Meant(log, attempt, answered, number, e)
    ensures Pick(log, attempt, answered, number).0.None? && number.Some? ==>
      Pick(log, attempt, answered, number).1 == NoSuchRequest
    ensures Pick(log, attempt, answered, number).0.None? && number.None? ==>
      if exists a, b :: a != b && Waits(log, attempt, answered, a) && Waits(log, attempt, answered, b)
      then Pick(log, attempt, answered, number).1.Ambiguous?
      else Pick(log, attempt, answered, number).1 == NoSuchRequest
  {
    hide Live, Waits, Requests, Numbered, Rising;
    NumberedRises(log);
    LiveListsWaiting(log, attempt, answered);
    var live := Live(log, attempt, answered);
    match number
    case Some(n) =>
      NumbersFinds(Requests(log), n);
      forall e | e in Requests(log) && e.number == n
        ensures Numbers(Requests(log), n) == Some(e)
      {
        NumbersAt(Requests(log), e);
      }
    case None =>
      OnlyOne(live);
      WaitingAreAsked(log, attempt, answered);
      WaitingAreRequests(log, attempt, answered);
      if |live| >= 1 {
        assert live[0] in live;
      }
      if |live| >= 2 {
        assert live[1] in live && live[0] != live[1];
      }
  }

  lemma WaitingAreRequests(log: Log, attempt: nat, answered: bool)
    ensures forall e :: Waits(log, attempt, answered, e) ==> e in Requests(log)
  {
  }

  lemma OnlyOne(live: Log)
    requires Rising(live)
    ensures |live| >= 2 ==> live[0] != live[1]
    ensures |live| == 1 ==> forall e :: e in live ==> e == live[0]
  {
  }

  /** A verdict goes through exactly if somebody entitled settles a waiting request he means; and each refusal says
      why. */
  lemma CheckRule(log: Log, attempt: nat, answered: bool, author: Token, tokens: set<Token>, number: Option<nat>)
    requires Numbered(log)
    ensures var c := Check(log, attempt, answered, author, tokens, number);
            && (forall n :: c == Proceed(n) <==>
                  exists e :: MaySettle(log, attempt, answered, author, tokens, number, e) && e.number == n)
            && (c.MissingAudit? <==> Blank(author))
            && (!c.MissingAudit? ==>
                  && (c.NoSuchRequest? || c.Ambiguous? <==> forall e :: !Meant(log, attempt, answered, number, e))
                  && (c.Ambiguous? <==>
                        (number.None? && exists a, b ::
                           a != b && Waits(log, attempt, answered, a) && Waits(log, attempt, answered, b)))
                  && (c.AlreadySettled? <==>
                        exists e :: Meant(log, attempt, answered, number, e) && VerdictOn(log, e.number).Some?)
                  && (c.StaleRequest? <==>
                        exists e :: Meant(log, attempt, answered, number, e)
                                    && StandingOf(log, e, attempt, answered) == Expired)
                  && (c.SelfApproval? <==>
                        exists e :: Meant(log, attempt, answered, number, e) && Waits(log, attempt, answered, e)
                                    && e.author == Some(author)))
  {
    hide Pick, Requests, Numbered, Blank, Meant, VerdictOn;
    PickRule(log, attempt, answered, number);
    MeantIsAsked(log, attempt, answered, number);
    var found := Pick(log, attempt, answered, number).0;
    if found.Some? {
      var e := found.value;
      assert Meant(log, attempt, answered, number, e);
      assert tokens * e.approvers != {} <==> exists a :: a in tokens && a in e.approvers by {
        if a :| a in tokens && a in e.approvers {
          assert a in tokens * e.approvers;
        }
        if tokens * e.approvers != {} {
          var a :| a in tokens * e.approvers;
        }
      }
    }
  }

  /** The request that may be settled is the one picked, and the one the verdict goes through for. */
  lemma SettledIsPicked(log: Log, attempt: nat, answered: bool, author: Token, tokens: set<Token>, number: Option<nat>,
                        e: Entry)
    requires Numbered(log) && MaySettle(log, attempt, answered, author, tokens, number, e)
    ensures Pick(log, attempt, answered, number).0 == Some(e) && e.Asked?
    ensures Check(log, attempt, answered, author, tokens, number) == Proceed(e.number)
  {
    hide Pick, Check, Numbered, Meant, Waits;
    CheckRule(log, attempt, answered, author, tokens, number);
    PickRule(log, attempt, answered, number);
    MeantIsAsked(log, attempt, answered, number);
  }

  /** Refused exactly if no request is meant that this person may settle; and what goes through is one such. */
  lemma RefusedIsNobodys(log: Log, attempt: nat, answered: bool, author: Token, tokens: set<Token>, number: Option<nat>)
    requires Numbered(log)
    ensures var c := Check(log, attempt, answered, author, tokens, number);
            && (c.Proceed? <==> exists e :: MaySettle(log, attempt, answered, author, tokens, number, e))
            && forall e :: MaySettle(log, attempt, answered, author, tokens, number, e) ==>
                 && e.Asked? && c == Proceed(e.number)
                 && Pick(log, attempt, answered, number).0 == Some(e)
  {
    hide Pick, Check, Numbered, Meant, Waits, MaySettle;
    var c := Check(log, attempt, answered, author, tokens, number);
    CheckRule(log, attempt, answered, author, tokens, number);
    if c.Proceed? {
      assert c == Proceed(c.number);
    }
    forall e | MaySettle(log, attempt, answered, author, tokens, number, e)
      ensures e.Asked? && c == Proceed(e.number) && Pick(log, attempt, answered, number).0 == Some(e)
    {
      SettledIsPicked(log, attempt, answered, author, tokens, number, e);
    }
  }

  lemma MeantIsAsked(log: Log, attempt: nat, answered: bool, number: Option<nat>)
    ensures forall e :: Meant(log, attempt, answered, number, e) ==> e.Asked? && e in Requests(log)
    ensures number.None? ==> forall e, other ::
      Meant(log, attempt, answered, number, e) && Waits(log, attempt, answered, other) ==> other == e
  {
    hide StandingOf;
  }

  // ---------- the machine ----------

  /** One gate's log beside the engine; `settling` is the request whose verdict is being carried out under the lock. */
  datatype Desk = Desk(s: State, log: Log, settling: Option<nat>)

  datatype Move =
    | Runs(event: Event)
    | Asks(author: Option<Token>, targets: seq<Id>, approvers: set<Token>, notified: set<Token>)
    | Begins(signer: Token, tokens: set<Token>, number: Option<nat>)
    | Ends(approved: bool)
    | Abandons

  ghost predicate Acts(g: Id, d: Desk, m: Move, d': Desk) {
    var attempt, answered := CountOf(d.s.attempts, g), Answered(StatusOf(d.s.status, g));
    match m
    case Runs(e) => Next(d.s, e, d'.s) && d' == d.(s := d'.s)
    case Asks(author, targets, approvers, notified) =>
      d.settling.None? && d' == d.(log := Ask(d.log, attempt, answered, author, targets, approvers, notified).0)
    case Begins(author, tokens, number) =>
      var c := Check(d.log, attempt, answered, author, tokens, number);
      d.settling.None? && c.Proceed? && d' == d.(settling := Some(c.number))
    case Ends(approved) =>
      d.settling.Some? && d' == d.(log := d.log + [Settled(d.settling.value, approved)], settling := None)
    case Abandons => d' == d.(settling := None)
  }

  /** The request no longer waits for anybody. */
  ghost predicate Over(g: Id, d: Desk, e: Entry)
    requires e.Asked?
  {
    StandingOf(d.log, e, CountOf(d.s.attempts, g), Answered(StatusOf(d.s.status, g))) != Waiting
  }

  /** Requests that are over stay on record and stay over. */
  ghost predicate StaysOver(g: Id, d: Desk, d': Desk) {
    forall e :: e in d.log && e.Asked? && Over(g, d, e) ==> e in d'.log && Over(g, d', e)
  }

  /** Requests are numbered 1, 2, 3, ... in the order they were filed. */
  ghost predicate Numbered(log: Log) {
    forall i :: 0 <= i < |Requests(log)| ==> Requests(log)[i].number == i + 1
  }

  /** A verdict refers to a request that exists. */
  ghost predicate VerdictsPointBack(log: Log) {
    forall i :: 0 <= i < |log| && log[i].Settled? ==> 1 <= log[i].ref <= |Requests(log)|
  }

  /** No request is settled twice. */
  ghost predicate OneVerdictEach(log: Log) {
    forall i, j :: 0 <= i < j < |log| && log[i].Settled? && log[j].Settled? ==> log[i].ref != log[j].ref
  }

  ghost predicate NotAhead(log: Log, attempt: nat) {
    forall e :: e in log && e.Asked? ==> e.attempt <= attempt
  }

  ghost predicate DeskOk(g: Id, d: Desk) {
    && Valid(d.s)
    && Numbered(d.log) && VerdictsPointBack(d.log) && OneVerdictEach(d.log)
    && NotAhead(d.log, CountOf(d.s.attempts, g))
    && |Live(d.log, CountOf(d.s.attempts, g), Answered(StatusOf(d.s.status, g)))| <= MAX_PENDING_ESCALATIONS
    && (d.settling.Some? ==> 1 <= d.settling.value <= |Requests(d.log)| && VerdictOn(d.log, d.settling.value).None?)
  }

  lemma {:induction false} NoVerdictAhead(log: Log, n: nat)
    requires forall i :: 0 <= i < |log| && log[i].Settled? ==> log[i].ref < n
    ensures VerdictOn(log, n).None?
  {
    if log != [] {
      NoVerdictAhead(log[..|log| - 1], n);
    }
  }

  lemma {:induction false} NoVerdictNoRecord(log: Log, n: nat, i: nat)
    requires VerdictOn(log, n).None? && i < |log| && log[i].Settled?
    ensures log[i].ref != n
  {
    if i < |log| - 1 {
      NoVerdictNoRecord(log[..|log| - 1], n, i);
    }
  }

  // ---------- what every move keeps ----------

  lemma {:induction false} NothingLive(rs: Log, log: Log, attempt: nat)
    requires forall e :: e in rs && e.Asked? ==> e.attempt < attempt
    ensures LiveAmong(rs, log, attempt) == []
  {
    if rs != [] {
      assert rs == rs[..|rs| - 1] + [rs[|rs| - 1]];
      assert rs[|rs| - 1] in rs;
      NothingLive(rs[..|rs| - 1], log, attempt);
    }
  }

  /** A gate that moves on within its round, or into a new one, has no more live requests than before. */
  lemma LiveOnlyShrinks(log: Log, attempt: nat, answered: bool, attempt': nat, answered': bool)
    requires NotAhead(log, attempt) && attempt <= attempt'
    requires answered && !answered' ==> attempt < attempt'
    ensures |Live(log, attempt', answered')| <= |Live(log, attempt, answered)|
  {
    hide Requests, LiveAmong;
    if attempt < attempt' {
      forall e | e in Requests(log) && e.Asked? ensures e.attempt < attempt' {
        assert e in log;
      }
      NothingLive(Requests(log), log, attempt');
    }
  }

  /** The engine moving on leaves the desk in order. */
  lemma MovingOnKeepsDesk(g: Id, d: Desk, s': State)
    requires DeskOk(g, d) && Valid(s') && BackMeansNewRound(d.s, s', g)
    ensures DeskOk(g, d.(s := s')) && StaysOver(g, d, d.(s := s'))
  {
    hide Valid, Numbered, VerdictsPointBack, OneVerdictEach, Live, Answered, VerdictOn, Requests;
    LiveOnlyShrinks(d.log, CountOf(d.s.attempts, g), Answered(StatusOf(d.s.status, g)),
                    CountOf(s'.attempts, g), Answered(StatusOf(s'.status, g)));
  }

  /** A new record at the end changes no verdict and no standing before it. */
  lemma {:induction false} LiveSnoc(rs: Log, log: Log, e: Entry, attempt: nat)
    requires e.Asked?
    ensures LiveAmong(rs, log + [e], attempt) == LiveAmong(rs, log, attempt)
  {
    assert (log + [e])[..|log|] == log;
    if rs != [] {
      LiveSnoc(rs[..|rs| - 1], log, e, attempt);
    }
  }

  /** Filing the next number keeps the numbering and every verdict where it was. */
  lemma FilingKeepsOrder(log: Log, e: Entry)
    requires Numbered(log) && VerdictsPointBack(log) && OneVerdictEach(log)
    requires e.Asked? && e.number == |Requests(log)| + 1
    ensures Requests(log + [e]) == Requests(log) + [e]
    ensures Numbered(log + [e]) && VerdictsPointBack(log + [e]) && OneVerdictEach(log + [e])
    ensures forall n :: VerdictOn(log + [e], n) == VerdictOn(log, n)
  {
    assert (log + [e])[..|log|] == log;
    assert Requests(log + [e]) == Requests(log) + [e];
  }

  lemma AskKeepsDesk(g: Id, d: Desk, author: Option<Token>, targets: seq<Id>, approvers: set<Token>,
                     notified: set<Token>)
    requires DeskOk(g, d) && d.settling.None?
    ensures var attempt, answered := CountOf(d.s.attempts, g), Answered(StatusOf(d.s.status, g));
            DeskOk(g, d.(log := Ask(d.log, attempt, answered, author, targets, approvers, notified).0))
  {
    hide Valid, FirstSame, Numbered, VerdictsPointBack, OneVerdictEach, Requests, LiveAmong, VerdictOn;
    hide Answered, TargetKey;
    var attempt, answered := CountOf(d.s.attempts, g), Answered(StatusOf(d.s.status, g));
    var (log', reply) := Ask(d.log, attempt, answered, author, targets, approvers, notified);
    if reply.Filed? {
      var e := Asked(|Requests(d.log)| + 1, author, targets, approvers, notified, attempt);
      FilingKeepsOrder(d.log, e);
      LiveSnoc(Requests(d.log), d.log, e, attempt);
      LiveOneMore(Requests(d.log), log', e, attempt);
    }
  }

  lemma LiveOneMore(rs: Log, log: Log, e: Entry, attempt: nat)
    ensures |LiveAmong(rs + [e], log, attempt)| <= |LiveAmong(rs, log, attempt)| + 1
  {
    assert (rs + [e])[..|rs|] == rs;
  }

  lemma {:induction false} LiveShrinks(rs: Log, log: Log, v: Entry, attempt: nat)
    requires v.Settled?
    ensures |LiveAmong(rs, log + [v], attempt)| <= |LiveAmong(rs, log, attempt)|
  {
    assert (log + [v])[..|log|] == log;
    if rs != [] {
      LiveShrinks(rs[..|rs| - 1], log, v, attempt);
    }
  }

  /** A first verdict on a filed request keeps the numbering, and stays the only one. */
  lemma SettlingKeepsOrder(log: Log, v: Entry)
    requires Numbered(log) && VerdictsPointBack(log) && OneVerdictEach(log)
    requires v.Settled? && 1 <= v.ref <= |Requests(log)| && VerdictOn(log, v.ref).None?
    ensures Requests(log + [v]) == Requests(log)
    ensures Numbered(log + [v]) && VerdictsPointBack(log + [v]) && OneVerdictEach(log + [v])
  {
    hide Numbered, VerdictOn;
    var log' := log + [v];
    assert log'[..|log|] == log;
    assert Requests(log') == Requests(log);
    NumberedByRequests(log, log');
    forall i | 0 <= i < |log| && log[i].Settled?
      ensures log[i].ref != v.ref
    {
      NoVerdictNoRecord(log, v.ref, i);
    }
  }

  lemma NumberedByRequests(log: Log, log': Log)
    requires Numbered(log) && Requests(log') == Requests(log)
    ensures Numbered(log')
  {
    hide Requests;
  }

  lemma EndKeepsDesk(g: Id, d: Desk, approved: bool)
    requires DeskOk(g, d) && d.settling.Some?
    ensures DeskOk(g, d.(log := d.log + [Settled(d.settling.value, approved)], settling := None))
  {
    hide Valid, Numbered, VerdictsPointBack, OneVerdictEach, Requests, LiveAmong, VerdictOn, Answered;
    var v := Settled(d.settling.value, approved);
    SettlingKeepsOrder(d.log, v);
    LiveShrinks(Requests(d.log), d.log, v, CountOf(d.s.attempts, g));
    assert NotAhead(d.log + [v], CountOf(d.s.attempts, g));
  }

  lemma BeginKeepsDesk(g: Id, d: Desk, author: Token, tokens: set<Token>, number: Option<nat>)
    requires DeskOk(g, d)
    requires Check(d.log, CountOf(d.s.attempts, g), Answered(StatusOf(d.s.status, g)), author, tokens, number).Proceed?
    ensures DeskOk(g, d.(settling :=
              Some(Check(d.log, CountOf(d.s.attempts, g), Answered(StatusOf(d.s.status, g)), author, tokens,
                  number).number)))
  {
    hide Valid, Check, VerdictsPointBack, OneVerdictEach;
    var attempt, answered := CountOf(d.s.attempts, g), Answered(StatusOf(d.s.status, g));
    ProceedMeansWaiting(d.log, attempt, answered, author, tokens, number);
    var e :| e in Requests(d.log) && e.number == Check(d.log, attempt, answered, author, tokens, number).number
      && StandingOf(d.log, e, attempt, answered) == Waiting;
    var i :| 0 <= i < |Requests(d.log)| && Requests(d.log)[i] == e;
  }

  /** Every move keeps the desk in order: numbered requests, one verdict each, at most five live. */
  lemma MoveKeepsDesk(g: Id, d: Desk, m: Move, d': Desk)
    requires DeskOk(g, d) && Acts(g, d, m, d')
    ensures DeskOk(g, d')
  {
    hide Valid, Next, Check, Ask, Numbered, VerdictsPointBack, OneVerdictEach, Live, Answered, NotAhead;
    hide BackMeansNewRound;
    match m
    case Runs(e) =>
      StepKeepsValid(d.s, e, d'.s);
      BackToWaitingIsNewRound(d.s, e, d'.s, g);
      MovingOnKeepsDesk(g, d, d'.s);
    case Asks(author, targets, approvers, notified) => AskKeepsDesk(g, d, author, targets, approvers, notified);
    case Begins(author, tokens, number) => BeginKeepsDesk(g, d, author, tokens, number);
    case Ends(approved) => EndKeepsDesk(g, d, approved);
    case Abandons =>
  }

  ghost predicate ActsAt(g: Id, ds: seq<Desk>, ms: seq<Move>, k: nat)
    requires k < |ms| < |ds|
  {
    Acts(g, ds[k], ms[k], ds[k + 1])
  }

  ghost predicate IsCase(g: Id, ds: seq<Desk>, ms: seq<Move>) {
    |ds| == |ms| + 1 && forall k :: 0 <= k < |ms| ==> ActsAt(g, ds, ms, k)
  }

  /** Over every history: requests numbered in order, at most one verdict each, at most five of them live. */
  lemma {:induction false} DeskStaysInOrder(g: Id, ds: seq<Desk>, ms: seq<Move>, k: nat)
    requires IsCase(g, ds, ms) && DeskOk(g, ds[0]) && k < |ds|
    ensures DeskOk(g, ds[k])
  {
    hide DeskOk, Acts;
    if k > 0 {
      DeskStaysInOrder(g, ds, ms, k - 1);
      assert ActsAt(g, ds, ms, k - 1);
      MoveKeepsDesk(g, ds[k - 1], ms[k - 1], ds[k]);
    }
  }

  // ---------- once over, over for good ----------

  lemma StaysOverTrans(g: Id, a: Desk, b: Desk, c: Desk)
    requires StaysOver(g, a, b) && StaysOver(g, b, c)
    ensures StaysOver(g, a, c)
  {
    hide StandingOf, Over;
  }

  /** One more record ends no earlier one's being over. */
  lemma AppendKeepsOver(g: Id, d: Desk, e: Entry, settling: Option<nat>)
    ensures StaysOver(g, d, d.(log := d.log + [e], settling := settling))
  {
    assert (d.log + [e])[..|d.log|] == d.log;
  }

  lemma AskKeepsOver(g: Id, d: Desk, author: Option<Token>, targets: seq<Id>, approvers: set<Token>,
                     notified: set<Token>)
    ensures StaysOver(g, d, d.(log := Ask(d.log, CountOf(d.s.attempts, g), Answered(StatusOf(d.s.status, g)),
                                          author, targets, approvers, notified).0))
  {
    hide FirstSame, Live, VerdictOn;
    var attempt := CountOf(d.s.attempts, g);
    AppendKeepsOver(g, d, Asked(|Requests(d.log)| + 1, author, targets, approvers, notified, attempt), d.settling);
  }

  lemma MoveKeepsOver(g: Id, d: Desk, m: Move, d': Desk)
    requires DeskOk(g, d) && Acts(g, d, m, d')
    ensures StaysOver(g, d, d')
  {
    hide Valid, Next, Check, Ask, Numbered, VerdictsPointBack, OneVerdictEach, Live, Answered, NotAhead;
    hide BackMeansNewRound, VerdictOn;
    match m
    case Runs(e) =>
      StepKeepsValid(d.s, e, d'.s);
      BackToWaitingIsNewRound(d.s, e, d'.s, g);
      MovingOnKeepsDesk(g, d, d'.s);
    case Asks(author, targets, approvers, notified) => AskKeepsOver(g, d, author, targets, approvers, notified);
    case Ends(approved) => AppendKeepsOver(g, d, Settled(d.settling.value, approved), None);
    case _ =>
  }

  /** Once a request has left waiting, it never waits again: every way the gate can come back to pending is a new
      round. */
  lemma {:induction false} NeverWaitsAgain(g: Id, ds: seq<Desk>, ms: seq<Move>, i: nat, j: nat, e: Entry)
    requires IsCase(g, ds, ms) && DeskOk(g, ds[0]) && i <= j < |ds|
    requires e in ds[i].log && e.Asked? && Over(g, ds[i], e)
    ensures e in ds[j].log && Over(g, ds[j], e)
    decreases j - i
  {
    hide DeskOk, Acts, Over;
    if i < j {
      NeverWaitsAgain(g, ds, ms, i, j - 1, e);
      DeskStaysInOrder(g, ds, ms, j - 1);
      assert ActsAt(g, ds, ms, j - 1);
      MoveKeepsOver(g, ds[j - 1], ms[j - 1], ds[j]);
      assert StaysOver(g, ds[j - 1], ds[j]);
    }
  }
}
