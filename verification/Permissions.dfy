/** Who may answer a node, and who may send whose work back. */
module Permissions {
  import opened Graph
  import opened Template
  import opened State
  import opened Gates
  import opened Engine

  const MAX_PENDING_ESCALATIONS: nat := 5

  /** Nothing but white space is no signature and no reason. */
  predicate Blank(text: string) {
    forall i :: 0 <= i < |text| ==> text[i] in {' ', '\t', '\n', '\r'}
  }

  function OrElse(a: Option<Token>, b: Option<Token>): Option<Token> {
    if HasText(a) then a else b
  }

  /** The person whose work a human node is. */
  function PrimaryOwner(n: Node): Option<Token> {
    if !n.executor.Human? then None
    else OrElse(if n.vote.Some? then n.vote.value.primary else None, n.assignee)
  }

  /** Everyone who may press a button on the node's card. */
  function Answerers(n: Node): set<Token> {
    if !n.executor.Human? then {}
    else
      (if n.vote.Some? then (set i | 0 <= i < |n.vote.value.voters| &&
          n.vote.value.voters[i] != "" :: n.vote.value.voters[i]) else {})
      + (if n.vote.Some? && HasText(n.vote.value.primary) then {n.vote.value.primary.value} else {})
      + (if HasText(n.assignee) then {n.assignee.value} else {})
  }

  function CanAnswer(dag: Dag, actor: set<Token>, x: Id): bool {
    var n := Find(dag, x);
    n.Some? && Answerers(n.value) * actor != {}
  }

  /** The primary owner may always answer his own node. */
  lemma OwnerCanAnswer(dag: Dag, actor: set<Token>, x: Id)
    requires Find(dag, x).Some? && HasText(PrimaryOwner(Find(dag, x).value))
    requires PrimaryOwner(Find(dag, x).value).value in actor
    ensures CanAnswer(dag, actor, x)
  {
    var n := Find(dag, x).value;
    assert PrimaryOwner(n).value in Answerers(n) * actor;
  }

  function HasStanding(dag: Dag, x: Id, actor: set<Token>): bool {
    var n := Find(dag, x);
    n.Some? && HasText(PrimaryOwner(n.value)) && PrimaryOwner(n.value).value in actor
  }

  /** Who has to redo work when the target is sent back. */
  ghost function RecomputeSet(dag: Dag, t: Id): set<Id> {
    {t} + Downstream(dag, t)
  }

  function OwnedByOthers(dag: Dag, x: Id, actor: set<Token>): bool {
    var n := Find(dag, x);
    n.Some? && n.value.executor.Human? && !(PrimaryOwner(n.value).Some? && PrimaryOwner(n.value).value in actor)
  }

  /** Other people's human nodes dragged into the rework of one target. */
  ghost function Collateral(dag: Dag, actor: set<Token>, gate: Id, t: Id): set<Id> {
    set x | x in RecomputeSet(dag, t) - ({t, gate} + Downstream(dag, gate)) && OwnedByOthers(dag, x, actor)
  }

  method CollateralHumans(dag: Dag, actor: set<Token>, gate: Id, t: Id) returns (out: set<Id>)
    ensures out == Collateral(dag, actor, gate, t)
  {
    var below := StaleDownstream(dag, gate);
    var redo := StaleDownstream(dag, t);
    redo := redo + {t};
    var exempt := {t, gate} + below;
    out := {};
    var todo := redo;
    while todo != {}
      invariant todo <= redo
      invariant forall x :: x in out <==> x in redo - todo && x !in exempt && OwnedByOthers(dag, x, actor)
    {
      var x :| x in todo;
      todo := todo - {x};
      if x !in exempt && OwnedByOthers(dag, x, actor) {
        out := out + {x};
      }
    }
  }

  function Approvers(dag: Dag, owner: set<Token>, t: Id): set<Token> {
    var n := Find(dag, t);
    owner + if n.Some? && HasText(PrimaryOwner(n.value)) then {PrimaryOwner(n.value).value} else {}
  }

  // ---------- rulings ----------

  datatype Ruled = Allowed | Escalates | Denied

  ghost predicate IsOwner(actor: set<Token>, owner: set<Token>) {
    actor * owner != {}
  }

  /** Targets the actor may send back without asking anyone. */
  ghost function AllowedReopen(dag: Dag, actor: set<Token>, owner: set<Token>, gate: Id): set<Id> {
    set t | t in Ancestors(dag, gate) &&
            (IsOwner(actor, owner) || (HasStanding(dag, gate, actor) && Collateral(dag, actor, gate, t) == {}))
  }

  ghost function RulingOn(dag: Dag, actor: set<Token>, owner: set<Token>, gate: Id, t: Id): Ruled {
    if t !in Ancestors(dag, gate) || !(IsOwner(actor, owner) || HasStanding(dag, gate, actor)) then Denied
    else if t in AllowedReopen(dag, actor, owner, gate) then Allowed
    else Escalates
  }

  datatype Request = Request(target: Id, approvers: set<Token>, collateral: set<Id>)

  datatype Verdict = Verdict(allowed: seq<Id>, escalate: seq<Request>, denied: seq<Id>)

  function Targets(rs: seq<Request>): (ts: seq<Id>)
    ensures |ts| == |rs| && forall i :: 0 <= i < |rs| ==> ts[i] == rs[i].target
  {
    seq(|rs|, i requires 0 <= i < |rs| => rs[i].target)
  }

  /** First occurrences only, in the caller's order. */
  function Dedup(ts: seq<Id>): (r: seq<Id>)
    ensures forall t :: t in r <==> t in ts
    ensures forall i, j :: 0 <= i < j < |r| ==> r[i] != r[j]
  {
    if ts == [] then []
    else
      var k := |ts| - 1;
      assert ts == ts[..k] + [ts[k]];
      if ts[k] in ts[..k] then Dedup(ts[..k]) else Dedup(ts[..k]) + [ts[k]]
  }

  /** The deduplicated targets on which the ruling is c. */
  ghost function RuledAs(dag: Dag, actor: set<Token>, owner: set<Token>, gate: Id, ts: seq<Id>, c: Ruled): (r: seq<Id>)
    ensures forall t :: t in r <==> t in ts && RulingOn(dag, actor, owner, gate, t) == c
  {
    if ts == [] then []
    else
      var k := |ts| - 1;
      assert ts == ts[..k] + [ts[k]];
      var before := RuledAs(dag, actor, owner, gate, ts[..k], c);
      if ts[k] in ts[..k] || RulingOn(dag, actor, owner, gate, ts[k]) != c then before else before + [ts[k]]
  }

  method AllowedTargets(dag: Dag, actor: set<Token>, owner: set<Token>, gate: Id) returns (out: set<Id>)
    ensures out == AllowedReopen(dag, actor, owner, gate)
  {
    var candidates := DepsAncestors(dag, gate);
    if actor * owner != {} {
      return candidates;
    }
    if !HasStanding(dag, gate, actor) {
      return {};
    }
    out := {};
    var todo := candidates;
    while todo != {}
      invariant todo <= candidates
      invariant forall t :: t in out <==> t in candidates - todo && Collateral(dag, actor, gate, t) == {}
    {
      var t :| t in todo;
      todo := todo - {t};
      var dragged := CollateralHumans(dag, actor, gate, t);
      if dragged == {} {
        out := out + {t};
      }
    }
  }

  /** Every request carries its approvers and the people it would drag in. */
  ghost predicate Explained(dag: Dag, actor: set<Token>, owner: set<Token>, gate: Id, rs: seq<Request>) {
    forall i :: 0 <= i < |rs| ==>
      && rs[i].approvers == Approvers(dag, owner, rs[i].target)
      && rs[i].collateral == Collateral(dag, actor, gate, rs[i].target)
  }

  ghost predicate Correct(dag: Dag, actor: set<Token>, owner: set<Token>, gate: Id, ts: seq<Id>, v: Verdict) {
    && v.allowed == RuledAs(dag, actor, owner, gate, ts, Allowed)
    && v.denied == RuledAs(dag, actor, owner, gate, ts, Denied)
    && Targets(v.escalate) == RuledAs(dag, actor, owner, gate, ts, Escalates)
    && Explained(dag, actor, owner, gate, v.escalate)
  }

  method ReopenVerdict(dag: Dag, actor: set<Token>, owner: set<Token>, gate: Id, ts: seq<Id>) returns (v: Verdict)
    ensures Correct(dag, actor, owner, gate, ts, v)
  {
    var legal := DepsAncestors(dag, gate);
    var direct := AllowedTargets(dag, actor, owner, gate);
    var standing := actor * owner != {} || HasStanding(dag, gate, actor);
    v := Verdict([], [], []);
    var seen: set<Id> := {};
    hide Ancestors, Collateral, AllowedReopen, Approvers, HasStanding;
    for i := 0 to |ts|
      invariant Correct(dag, actor, owner, gate, ts[..i], v)
      invariant forall t :: t in seen <==> t in ts[..i]
    {
      var t := ts[i];
      assert ts[..i + 1][..i] == ts[..i] && ts[..i + 1][i] == t;
      if t !in seen {
        seen := seen + {t};
        if t !in legal || !standing {
          assert RulingOn(dag, actor, owner, gate, t) == Denied;
          v := v.(denied := v.denied + [t]);
        } else if t in direct {
          assert RulingOn(dag, actor, owner, gate, t) == Allowed;
          v := v.(allowed := v.allowed + [t]);
        } else {
          assert RulingOn(dag, actor, owner, gate, t) == Escalates;
          var dragged := CollateralHumans(dag, actor, gate, t);
          var request := Request(t, Approvers(dag, owner, t), dragged);
          assert Targets(v.escalate + [request]) == Targets(v.escalate) + [t];
          v := v.(escalate := v.escalate + [request]);
        }
      }
    }
    assert ts[..|ts|] == ts;
  }

  // ---------- what the rulings guarantee ----------

  /** The three lists partition the deduplicated targets. */
  lemma {:induction false} VerdictPartitions(dag: Dag, actor: set<Token>, owner: set<Token>, gate: Id, ts: seq<Id>)
    ensures multiset(RuledAs(dag, actor, owner, gate, ts, Allowed)) +
        multiset(RuledAs(dag, actor, owner, gate, ts, Escalates))
            + multiset(RuledAs(dag, actor, owner, gate, ts, Denied)) == multiset(Dedup(ts))
  {
    hide RulingOn;
    if ts != [] {
      VerdictPartitions(dag, actor, owner, gate, ts[..|ts| - 1]);
    }
  }

  /** More roles never take a target away. */
  lemma AllowedIsMonotone(dag: Dag, actor: set<Token>, actor': set<Token>, owner: set<Token>, gate: Id)
    requires actor <= actor'
    ensures AllowedReopen(dag, actor, owner, gate) <= AllowedReopen(dag, actor', owner, gate)
  {
    hide Ancestors, Downstream, Find, PrimaryOwner;
    forall t | t in AllowedReopen(dag, actor, owner, gate)
      ensures t in AllowedReopen(dag, actor', owner, gate)
    {
      if IsOwner(actor, owner) {
        var o :| o in actor * owner;
        assert o in actor' * owner;
      } else {
        forall x | x in Collateral(dag, actor', gate, t)
          ensures x in Collateral(dag, actor, gate, t)
        {
        }
      }
    }
  }

  // ---------- judged and executed are the same set ----------

  ghost predicate OnlyFailed(s: State, i: nat) {
    i < |s.dag| && forall x :: StatusOf(s.status, x) == Failed <==> x == s.dag[i].id
  }

  ghost function Redone(dag: Dag, ts: seq<Id>): (r: set<Id>)
    ensures forall x :: x in r <==> exists t :: t in ts && x in RecomputeSet(dag, t)
  {
    if ts == [] then {}
    else
      var k := |ts| - 1;
      assert ts == ts[..k] + [ts[k]];
      Redone(dag, ts[..k]) + RecomputeSet(dag, ts[k])
  }

  lemma PullIsRedone(dag: Dag, gate: Id, ts: seq<Id>)
    requires UniqueIds(dag) && ts != [] && forall t :: t in ts ==> t in Ancestors(dag, gate)
    ensures Pull(dag, gate, ts) == Redone(dag, ts)
  {
    hide Ancestors, Downstream, Pull, Redone;
    ReachabilityDuality(dag, ts[0], gate);
    assert ts[0] in ts && gate in RecomputeSet(dag, ts[0]);
    forall x
      ensures x in Pull(dag, gate, ts) <==> x in Redone(dag, ts)
    {
    }
  }

  lemma SingleSender(s: State, i: nat)
    requires UniqueIds(s.dag) && OnlyFailed(s, i) && Rule(s, s.dag[i]).Sends?
    ensures ReopenResets(s) == map x | x in Pull(s.dag, s.dag[i].id, Rule(s, s.dag[i]).targets) :: Pending
  {
    hide Rule, ReopenResets, Pull;
    var pulled := Pull(s.dag, s.dag[i].id, Rule(s, s.dag[i]).targets);
    forall x
      ensures x in ReopenResets(s) <==> x in pulled
      ensures x in ReopenResets(s) ==> ReopenResets(s)[x] == Pending
    {
      ResetsChar(s, x);
      assert x in pulled <==> SentBackBy(s, i, x);
      forall j | 0 <= j < |s.dag| && j != i
        ensures !SentBackBy(s, j, x) && !HaltedAt(s, j, x)
      {
        RuleTargetsLegal(s, s.dag[j]);
        assert s.dag[j].id != s.dag[i].id by { assert i < j || j < i; }
      }
      assert !HaltedAt(s, i, x);
    }
  }

  lemma LegalTargetsAreSent(s: State, i: nat, ts: seq<Id>)
    requires i < |s.dag| && StatusOf(s.status, s.dag[i].id) == Failed
    requires CountOf(s.counts, s.dag[i].id) < EffectiveBudget(s.dag[i], s.unblocks)
    requires Asks(s, s.dag[i], ts) && forall t :: t in ts ==> t in Ancestors(s.dag, s.dag[i].id)
    ensures Rule(s, s.dag[i]) == Sends(ts)
  {
    KeepAll(ts, Ancestors(s.dag, s.dag[i].id));
    hide Ancestors, Keep;
  }

  /** What permissions judge is what the engine does: for one failed gate under budget with legal targets, the nodes
      dispatch sends back to pending are exactly those the targets' recompute sets name. */
  lemma JudgedIsExecuted(s: State, i: nat, ts: seq<Id>)
    requires UniqueIds(s.dag) && OnlyFailed(s, i)
    requires CountOf(s.counts, s.dag[i].id) < EffectiveBudget(s.dag[i], s.unblocks)
    requires ts != [] && Asks(s, s.dag[i], ts)
    requires forall t :: t in ts ==> t in Ancestors(s.dag, s.dag[i].id)
    ensures ReopenResets(s) == map x | x in Redone(s.dag, ts) :: Pending
  {
    hide Ancestors, Rule, ReopenResets, Pull, Redone, EffectiveBudget, ReopenTargets;
    LegalTargetsAreSent(s, i, ts);
    SingleSender(s, i);
    PullIsRedone(s.dag, s.dag[i].id, ts);
  }

  lemma AllowedSpares(dag: Dag, actor: set<Token>, owner: set<Token>, gate: Id, t: Id, x: Id)
    requires RulingOn(dag, actor, owner, gate, t) == Allowed && !IsOwner(actor, owner)
    requires x in RecomputeSet(dag, t) && OwnedByOthers(dag, x, actor)
    ensures x == t || x == gate || x in Downstream(dag, gate)
  {
    hide Ancestors, Downstream, OwnedByOthers, HasStanding;
    assert x !in Collateral(dag, actor, gate, t);
  }

  /** Nobody's work is dragged in behind his back: when every target is allowed to someone who is not the owner,
      each other person's human node that dispatch resets is a named target, the gate, or downstream of the gate. */
  lemma NoSurpriseRework(s: State, i: nat, ts: seq<Id>, actor: set<Token>, owner: set<Token>, x: Id)
    requires UniqueIds(s.dag) && OnlyFailed(s, i)
    requires CountOf(s.counts, s.dag[i].id) < EffectiveBudget(s.dag[i], s.unblocks)
    requires ts != [] && Asks(s, s.dag[i], ts)
    requires !IsOwner(actor, owner)
    requires forall t :: t in ts ==> RulingOn(s.dag, actor, owner, s.dag[i].id, t) == Allowed
    requires x in ReopenResets(s) && OwnedByOthers(s.dag, x, actor)
    ensures x in ts || x == s.dag[i].id || x in Downstream(s.dag, s.dag[i].id)
  {
    forall t | t in ts
      ensures t in Ancestors(s.dag, s.dag[i].id)
    {
      assert RulingOn(s.dag, actor, owner, s.dag[i].id, t) == Allowed;
    }
    JudgedIsExecuted(s, i, ts);
    hide Ancestors, Downstream, RulingOn, ReopenResets, OwnedByOthers, Redone, RecomputeSet, EffectiveBudget;
    hide ReopenTargets;
    var t :| t in ts && x in RecomputeSet(s.dag, t);
    AllowedSpares(s.dag, actor, owner, s.dag[i].id, t, x);
  }

  // ---------- the rules, in terms of the graph and its people ----------

  /** A text is blank exactly if it is made of white space only, whatever its length. */
  lemma BlankRule(a: string, b: string, c: char)
    ensures Blank("") && (Blank(a + b) <==> Blank(a) && Blank(b))
    ensures Blank([c]) <==> c == ' ' || c == '\t' || c == '\n' || c == '\r'
  {
    if Blank(a + b) {
      assert forall i :: 0 <= i < |a| ==> (a + b)[i] == a[i];
      assert forall i :: 0 <= i < |b| ==> (a + b)[|a| + i] == b[i];
    }
    assert Blank([c]) ==> [c][0] in {' ', '\t', '\n', '\r'};
  }

  /** The person whose work a node is: of a human node, the vote's primary if there is one, else the assignee. */
  lemma OwnerRule(n: Node, who: Token)
    requires who != ""
    ensures PrimaryOwner(n) == Some(who) <==>
      (n.executor.Human?
       && if n.vote.Some? && HasText(n.vote.value.primary) then n.vote.value.primary == Some(who)
          else n.assignee == Some(who))
  {
  }

  /** Exactly the voters, the primary and the assignee of a human node may answer it; the project's owner may not, as
      such, and for a node that is not there nobody may. */
  lemma AnswerRule(dag: Dag, actor: set<Token>, x: Id)
    ensures CanAnswer(dag, actor, x) <==>
      (exists a :: a in actor && a != "" && Find(dag, x).Some? && Find(dag, x).value.executor.Human?
                   && IsOneOf(Find(dag, x).value, a))
  {
    hide Find;
    if CanAnswer(dag, actor, x) {
      var a :| a in Answerers(Find(dag, x).value) * actor;
      assert a != "" && IsOneOf(Find(dag, x).value, a);
    }
    if a :| a in actor && a != "" && Find(dag, x).Some? && Find(dag, x).value.executor.Human?
            && IsOneOf(Find(dag, x).value, a) {
      assert a in Answerers(Find(dag, x).value) * actor;
    }
  }

  ghost predicate IsOneOf(n: Node, a: Token) {
    n.assignee == Some(a) || (n.vote.Some? && (n.vote.value.primary == Some(a) || a in n.vote.value.voters))
  }

  /** Somebody other than the actor is to redo x if t is sent back from this gate, though neither the gate nor anything
      downstream of it is his. */
  ghost predicate DragsIn(dag: Dag, actor: set<Token>, gate: Id, t: Id, x: Id) {
    && x in Downstream(dag, t) && x != t && x != gate && x !in Downstream(dag, gate)
    && Find(dag, x).Some? && Find(dag, x).value.executor.Human?
    && (PrimaryOwner(Find(dag, x).value).Some? ==> PrimaryOwner(Find(dag, x).value).value !in actor)
  }

  /** The three rules: nothing that is not upstream; the owner anything upstream; the gate's own person what drags in
      nobody else, and for the rest he has to ask; a stranger nothing. */
  lemma SendBackRule(dag: Dag, actor: set<Token>, owner: set<Token>, gate: Id, t: Id)
    ensures var upstream, owns := t in Ancestors(dag, gate), exists a :: a in actor && a in owner;
            var stands := exists a ::
              a in actor && a != "" && Find(dag, gate).Some? && PrimaryOwner(Find(dag, gate).value) == Some(a);
            var alone := forall x :: !DragsIn(dag, actor, gate, t, x);
            && (RulingOn(dag, actor, owner, gate, t) == Allowed <==> upstream && (owns || (stands && alone)))
            && (RulingOn(dag, actor, owner, gate, t) == Escalates <==> upstream && !owns && stands && !alone)
            && (RulingOn(dag, actor, owner, gate, t) == Denied <==> !upstream || (!owns && !stands))
  {
    hide Ancestors, Downstream, Find, PrimaryOwner;
    var owns := exists a :: a in actor && a in owner;
    assert owns <==> IsOwner(actor, owner) by {
      if a :| a in actor && a in owner {
        assert a in actor * owner;
      }
      if IsOwner(actor, owner) {
        var a :| a in actor * owner;
      }
    }
    assert forall x :: DragsIn(dag, actor, gate, t, x) <==> x in Collateral(dag, actor, gate, t);
    assert (forall x :: !DragsIn(dag, actor, gate, t, x)) <==> Collateral(dag, actor, gate, t) == {};
  }

  /** Those who may approve sending t back are the project's owner and the person whose work t is. */
  lemma ApproverRule(dag: Dag, owner: set<Token>, t: Id, a: Token)
    requires a != ""
    ensures a in Approvers(dag, owner, t) <==>
      (a in owner || (Find(dag, t).Some? && PrimaryOwner(Find(dag, t).value) == Some(a)))
  {
    hide Find, PrimaryOwner;
  }

  // ---------- answers ----------

  /** Sending work back, as opposed to answering: a gate, not passed, with somewhere to send to. */
  function SendsWorkBack(dag: Dag, x: Id, answer: Result): bool {
    var n := Find(dag, x);
    !answer.passed && n.Some? && n.value.role.Gate? && (answer.reopen != [] || n.value.deps != [])
  }

  /** The picked targets, or by default the gate's direct dependencies. */
  function SentTargets(dag: Dag, x: Id, answer: Result): seq<Id>
    requires SendsWorkBack(dag, x, answer)
  {
    if answer.reopen != [] then answer.reopen else Find(dag, x).value.deps
  }

  ghost predicate Permitted(dag: Dag, x: Id, targets: seq<Id>, roles: set<Token>, owner: set<Token>) {
    forall t :: t in targets ==> RulingOn(dag, roles, owner, x, t) == Allowed
  }

  /** Who may give this answer: for sending back, someone allowed every target; otherwise an answerer of the node,
      or the engine's own channel, which carries no identity. */
  ghost predicate Entitled(dag: Dag, x: Id, answer: Result, actor: Option<set<Token>>, owner: set<Token>) {
    var roles := if actor.Some? then actor.value else {};
    if SendsWorkBack(dag, x, answer) then Permitted(dag, x, SentTargets(dag, x, answer), roles, owner)
    else actor.None? || CanAnswer(dag, roles, x)
  }

  lemma NobodyIsDenied(dag: Dag, owner: set<Token>, x: Id, t: Id)
    ensures RulingOn(dag, {}, owner, x, t) == Denied
  {
    hide Ancestors, AllowedReopen;
  }

  /** The engine's own channel, which carries no identity, can never send work back. */
  lemma AnonymousNeverSendsBack(dag: Dag, x: Id, answer: Result, owner: set<Token>)
    ensures SendsWorkBack(dag, x, answer) ==> !Entitled(dag, x, answer, None, owner)
  {
    if SendsWorkBack(dag, x, answer) {
      var targets := SentTargets(dag, x, answer);
      assert targets[0] in targets;
      NobodyIsDenied(dag, owner, x, targets[0]);
    }
  }

  /** An answer sends work back exactly if it fails its gate, and it sends back what dispatch will find asked for. */
  lemma SendsBackRule(s: State, x: Id, answer: Result, n: Node)
    requires ValidTemplate(s.dag) && Find(s.dag, x) == Some(n)
    ensures SendsWorkBack(s.dag, x, answer) <==> StatusOf(Complete(s, x, answer).status, x) == Failed
    ensures SendsWorkBack(s.dag, x, answer) ==> Asks(Complete(s, x, answer), n, SentTargets(s.dag, x, answer))
  {
    hide ValidTemplate, Complete, Find, Ids;
    ReturnRule(s, x, answer, n);
    var i :| 0 <= i < |s.dag| && s.dag[i] == n;
    if n.role.Gate? {
      GateHasDeps(s.dag, i);
    }
  }

  /** What the permission layer lets through is all that dispatch will act on: if an answer somebody is entitled to
      makes its gate send anything back, every target it sends was ruled allowed for him. */
  ghost predicate SendsOnlyAllowed(s: State, x: Id, answer: Result, actor: Option<set<Token>>, owner: set<Token>) {
    forall i :: 0 <= i < |s.dag| && s.dag[i].id == x && Rule(Complete(s, x, answer), s.dag[i]).Sends? ==>
      && actor.Some?
      && forall t :: t in Rule(Complete(s, x, answer), s.dag[i]).targets ==>
           RulingOn(s.dag, actor.value, owner, x, t) == Allowed
  }

  lemma EntitledSendsOnlyAllowed(s: State, x: Id, answer: Result, actor: Option<set<Token>>, owner: set<Token>)
    requires ValidTemplate(s.dag) && Entitled(s.dag, x, answer, actor, owner)
    ensures SendsOnlyAllowed(s, x, answer, actor, owner)
  {
    hide ValidTemplate, RulingOn, Complete, Ancestors, CanAnswer, EffectiveBudget;
    AnonymousNeverSendsBack(s.dag, x, answer, owner);
    var s' := Complete(s, x, answer);
    forall i | 0 <= i < |s.dag| && s.dag[i].id == x && Rule(s', s.dag[i]).Sends?
      ensures actor.Some?
      ensures forall t :: t in Rule(s', s.dag[i]).targets ==> RulingOn(s.dag, actor.value, owner, x, t) == Allowed
    {
      ValidIsUnique(s.dag);
      FindUnique(s.dag, i);
      ReturnRule(s, x, answer, s.dag[i]);
      GateHasDeps(s.dag, i);
    }
  }

  lemma VerdictPermits(dag: Dag, roles: set<Token>, owner: set<Token>, x: Id, targets: seq<Id>, v: Verdict)
    requires Correct(dag, roles, owner, x, targets, v) && v.denied == [] && v.escalate == []
    ensures Permitted(dag, x, targets, roles, owner)
  {
    hide RulingOn, Explained;
    assert Targets(v.escalate) == [];
    forall t | t in targets
      ensures RulingOn(dag, roles, owner, x, t) == Allowed
    {
      assert t !in RuledAs(dag, roles, owner, x, targets, Denied);
      assert t !in RuledAs(dag, roles, owner, x, targets, Escalates);
    }
  }
}
