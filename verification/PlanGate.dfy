/** The approval gate between an agent and the swarm (MissionPlanService.cs, MissionPlan.cs, ApprovalCode.cs).

  Each change to a plan happens under the store's lock and is one step; a dispatch is three: the code is
  claimed, the mission is sent, and the outcome is written down. Between them anything may happen.
 */
module PlanGate {

  import opened Wrappers
  import opened Missions

  datatype Status = PendingApproval | Conflicted | Approved | Rejected | Expired | Dispatched

  type Digest = nat

  /** SHA-256 of a code, known only by being injective. */
  type Hash = string -> Digest

  ghost predicate Injective(hash: Hash) {
    forall a, b :: hash(a) == hash(b) ==> a == b
  }

  datatype Options = Options(decisionWindow: real, approvalValidity: real)

  datatype Plan = Plan(
    mission: Mission, conflicts: nat, createdBy: Option<string>, decideBy: real, status: Status,
    decidedAt: Option<real>, decidedBy: Option<string>, codeHash: Option<Digest>, approvalExpires: Option<real>,
    missionId: Option<nat>)

  datatype Problem = WrongState | Refused

  // ----- what each step does -----

  function Proposed(options: Options, mission: Mission, conflicts: nat, createdBy: Option<string>, now: real): Plan {
    Plan(mission, conflicts, createdBy, now + options.decisionWindow, if conflicts > 0 then Conflicted else PendingApproval,
         None, None, None, None, None)
  }

  predicate Lapsed(p: Plan, now: real) {
    match p.status
    case PendingApproval => now > p.decideBy
    case Conflicted => now > p.decideBy
    case Approved => p.approvalExpires.Some? && now > p.approvalExpires.value
    case _ => false
  }

  function Aged(p: Plan, now: real): Plan {
    if Lapsed(p, now) then p.(status := Expired, codeHash := None) else p
  }

  function ApprovalProblem(p: Plan, approver: Option<string>): Option<Problem> {
    if p.status != PendingApproval then Some(WrongState)
    else if approver.Some? && approver == p.createdBy then Some(Refused)
    else None
  }

  function ApprovedBy(hash: Hash, options: Options, p: Plan, approver: Option<string>, code: string, now: real): Plan {
    var aged := Aged(p, now);
    if ApprovalProblem(aged, approver).Some? then aged
    else aged.(codeHash := Some(hash(code)), status := Approved, decidedAt := Some(now), decidedBy := approver,
               approvalExpires := Some(now + options.approvalValidity))
  }

  predicate Rejectable(p: Plan) {
    p.status.PendingApproval? || p.status.Conflicted? || p.status.Approved?
  }

  function RejectedBy(p: Plan, rejecter: Option<string>, now: real): Plan {
    var aged := Aged(p, now);
    if !Rejectable(aged) then aged
    else aged.(status := Rejected, codeHash := None, decidedAt := Some(now), decidedBy := rejecter)
  }

  predicate Matches(hash: Hash, presented: Option<string>, expected: Option<Digest>) {
    presented.Some? && presented.value != "" && expected.Some? && hash(presented.value) == expected.value
  }

  function ClaimProblem(hash: Hash, p: Plan, presented: Option<string>): Option<Problem> {
    if p.status != Approved then Some(WrongState)
    else if !Matches(hash, presented, p.codeHash) then Some(Refused)
    else None
  }

  function Claimed(hash: Hash, p: Plan, presented: Option<string>, now: real): Plan {
    var aged := Aged(p, now);
    if ClaimProblem(hash, aged, presented).Some? then aged else aged.(codeHash := None)
  }

  class MissionPlan {
    const mission: Mission
    const conflicts: nat
    const createdBy: Option<string>
    const decideBy: real
    var status: Status
    var decidedAt: Option<real>
    var decidedBy: Option<string>
    var codeHash: Option<Digest>
    var approvalExpires: Option<real>
    var missionId: Option<nat>

    function View(): Plan
      reads this
    {
      Plan(mission, conflicts, createdBy, decideBy, status, decidedAt, decidedBy, codeHash, approvalExpires, missionId)
    }

    constructor (options: Options, proposed: Mission, conflictCount: nat, proposedBy: Option<string>, now: real)
      ensures View() == Proposed(options, proposed, conflictCount, proposedBy, now)
      ensures mission == proposed && conflicts == conflictCount && createdBy == proposedBy
      ensures decideBy == now + options.decisionWindow && codeHash.None? && decidedBy.None? && missionId.None?
      ensures status == if conflictCount > 0 then Conflicted else PendingApproval
    {
      mission, conflicts, createdBy, decideBy := proposed, conflictCount, proposedBy, now + options.decisionWindow;
      status := if conflictCount > 0 then Conflicted else PendingApproval;
      decidedAt, decidedBy, codeHash, approvalExpires, missionId := None, None, None, None, None;
    }

    method Expire(now: real)
      modifies this
      ensures View() == Aged(old(View()), now)
    {
      var lapsed := match status {
        case PendingApproval => now > decideBy
        case Conflicted => now > decideBy
        case Approved => approvalExpires.Some? && now > approvalExpires.value
        case _ => false
      };
      if lapsed {
        status := Expired;
        codeHash := None;
      }
    }

    method Approve(hash: Hash, options: Options, approver: Option<string>, code: string,
                   now: real) returns (r: Result<real, Problem>)
      modifies this
      ensures View() == ApprovedBy(hash, options, old(View()), approver, code, now)
      ensures r == match ApprovalProblem(Aged(old(View()), now), approver)
                   case Some(problem) => Failure(problem)
                   case None => Success(now + options.approvalValidity)
    {
      Expire(now);
      if status == Conflicted {
        return Failure(WrongState);
      }
      if status != PendingApproval {
        return Failure(WrongState);
      }
      if approver.Some? && approver == createdBy {
        return Failure(Refused);
      }
      codeHash := Some(hash(code));
      status := Approved;
      decidedAt, decidedBy := Some(now), approver;
      approvalExpires := Some(now + options.approvalValidity);
      return Success(now + options.approvalValidity);
    }

    method Reject(rejecter: Option<string>, now: real) returns (r: Result<Status, Problem>)
      modifies this
      ensures View() == RejectedBy(old(View()), rejecter, now)
      ensures r.Success? <==> Rejectable(Aged(old(View()), now))
    {
      Expire(now);
      if status != PendingApproval && status != Conflicted && status != Approved {
        return Failure(WrongState);
      }
      status := Rejected;
      codeHash := None;
      decidedAt, decidedBy := Some(now), rejecter;
      return Success(status);
    }

    /** Checks the plan and its code, and consumes the code. */
    method Claim(hash: Hash, presented: Option<string>, now: real) returns (r: Result<Digest, Problem>)
      modifies this
      ensures View() == Claimed(hash, old(View()), presented, now)
      ensures r == match ClaimProblem(hash, Aged(old(View()), now), presented)
                   case Some(problem) => Failure(problem)
                   case None => Success(Aged(old(View()), now).codeHash.value)
    {
      Expire(now);
      if status == Dispatched {
        return Failure(WrongState);
      }
      if status != Approved {
        return Failure(WrongState);
      }
      if !Matches(hash, presented, codeHash) {
        return Failure(Refused);
      }
      var consumed := codeHash.value;
      codeHash := None;
      return Success(consumed);
    }

    method Commit(id: nat)
      modifies this
      ensures View() == old(View()).(status := Dispatched, missionId := Some(id))
    {
      status := Dispatched;
      missionId := Some(id);
    }

    method GiveBack(consumed: Digest)
      modifies this
      ensures View() == old(View()).(codeHash := Some(consumed))
    {
      codeHash := Some(consumed);
    }
  }

  // ----- every interleaving -----

  datatype Stage = Waiting | Sent | Unreachable

  /** A dispatch under way: the code it consumed, and how far it has come. */
  datatype Flight = Flight(consumed: Digest, presented: string, claimedAt: real, stage: Stage)

  datatype Approval = Approval(at: real, approver: Option<string>, code: string, until: real)

  datatype Launch = Launch(mission: Mission, presented: string, claimedAt: real)

  /** A plan, the dispatches under way, and what has happened so far. */
  datatype Gate = Gate(
    now: real, plan: Plan, flights: map<nat, Flight>, approvals: seq<Approval>, launches: seq<Launch>)

  datatype Outcome = Delivered | SwarmUnavailable | OtherFailure

  datatype Event =
    | Look
    | Approve(approver: Option<string>, code: string)
    | Reject(rejecter: Option<string>)
    | Claim(caller: nat, presented: Option<string>)
    | Send(caller: nat, outcome: Outcome)
    | Finish(caller: nat)

  datatype Timed = Timed(at: real, event: Event)

  /** Time does not go back, codes are not empty, and a dispatch goes through its steps in order. */
  predicate Possible(g: Gate, t: Timed) {
    && t.at >= g.now
    && match t.event
       case Look => true
       case Approve(approver, code) => code != ""
       case Reject(rejecter) => true
       case Claim(caller, presented) => caller !in g.flights
       case Send(caller, outcome) => caller in g.flights && g.flights[caller].stage.Waiting?
       case Finish(caller) => caller in g.flights && !g.flights[caller].stage.Waiting?
  }

  function Next(hash: Hash, options: Options, g: Gate, t: Timed): Gate
    requires Possible(g, t)
  {
    var at := g.(now := t.at);
    match t.event
    case Look => at.(plan := Aged(g.plan, t.at))
    case Approve(approver, code) =>
      at.(plan := ApprovedBy(hash, options, g.plan, approver, code, t.at),
          approvals := if ApprovalProblem(Aged(g.plan, t.at), approver).Some? then g.approvals
                       else g.approvals + [Approval(t.at, approver, code, t.at + options.approvalValidity)])
    case Reject(rejecter) => at.(plan := RejectedBy(g.plan, rejecter, t.at))
    case Claim(caller, presented) =>
      var aged := Aged(g.plan, t.at);
      at.(plan := Claimed(hash, g.plan, presented, t.at),
          flights := if ClaimProblem(hash, aged, presented).Some? then g.flights
                     else g.flights[caller := Flight(aged.codeHash.value, presented.value, t.at, Waiting)])
    case Send(caller, outcome) =>
      var flight := g.flights[caller];
      (match outcome
       case Delivered => at.(flights := g.flights[caller := flight.(stage := Sent)],
                             launches := g.launches + [Launch(Launched(g.plan.mission, t.at), flight.presented, flight.claimedAt)])
       case SwarmUnavailable => at.(flights := g.flights[caller := flight.(stage := Unreachable)])
       case OtherFailure => at.(flights := g.flights - {caller}))
    case Finish(caller) =>
      at.(flights := g.flights - {caller},
          plan := if g.flights[caller].stage.Sent?
                  then g.plan.(status := Dispatched, missionId := Some(g.plan.mission.id))
                  else g.plan.(codeHash := Some(g.flights[caller].consumed)))
  }

  predicate AllPossible(hash: Hash, options: Options, g: Gate, events: seq<Timed>)
    decreases |events|
  {
    events != [] ==> Possible(g, events[0]) && AllPossible(hash, options, Next(hash, options, g, events[0]), events[1..])
  }

  function Run(hash: Hash, options: Options, g: Gate, events: seq<Timed>): Gate
    requires AllPossible(hash, options, g, events)
    decreases |events|
  {
    if events == [] then g else Run(hash, options, Next(hash, options, g, events[0]), events[1..])
  }

  /** Nothing has been decided yet. */
  predicate Opened(options: Options, g: Gate) {
    && g.plan == Proposed(options, g.plan.mission, g.plan.conflicts, g.plan.createdBy, g.now)
    && g.flights == map[] && g.approvals == [] && g.launches == []
  }

  /** The one approval lets one dispatch through: either the code is still there, or somebody holds it, or
      the mission has been launched. */
  ghost predicate OneToken(g: Gate) {
    && |g.launches| <= 1
    && (g.plan.codeHash.Some? ==> g.launches == [] && g.flights == map[])
    && (forall c, d :: c in g.flights && d in g.flights ==> c == d)
    && (forall c :: c in g.flights ==> (g.flights[c].stage.Sent? <==> g.launches != []))
  }

  /** The code was the approval's, presented while the approval was good. */
  ghost predicate InTime(approvals: seq<Approval>, presented: string, claimedAt: real) {
    |approvals| == 1 && presented == approvals[0].code && approvals[0].at <= claimedAt <= approvals[0].until
  }

  ghost predicate Authorised(hash: Hash, g: Gate) {
    && |g.approvals| <= 1
    && (g.approvals != [] ==>
         && g.approvals[0].at <= g.now && g.approvals[0].at <= g.plan.decideBy && g.plan.conflicts == 0
         && !(g.approvals[0].approver.Some? && g.approvals[0].approver == g.plan.createdBy))
    && (g.plan.status.PendingApproval? || g.plan.status.Conflicted? ==> g.approvals == [])
    && (g.plan.status.PendingApproval? ==> g.plan.conflicts == 0)
    && (g.plan.status.Approved? ==> g.approvals != [] && g.plan.approvalExpires == Some(g.approvals[0].until))
    && (g.plan.status.Dispatched? ==> g.launches != [] && g.plan.missionId == Some(g.plan.mission.id))
    && (g.plan.codeHash.Some? ==> g.approvals != [] && g.plan.codeHash == Some(hash(g.approvals[0].code)))
    && (forall c :: c in g.flights ==>
         InTime(g.approvals, g.flights[c].presented, g.flights[c].claimedAt) && g.flights[c].consumed == hash(g.flights[c].presented))
    && (forall k :: 0 <= k < |g.launches| ==> InTime(g.approvals, g.launches[k].presented, g.launches[k].claimedAt))
  }

  /** What is launched is what was previewed: only the time is new. */
  ghost predicate AsPreviewed(g: Gate) {
    forall k :: 0 <= k < |g.launches| ==> g.launches[k].mission == g.plan.mission.(createdAt := g.launches[k].mission.createdAt)
  }

  ghost predicate Kept(hash: Hash, g: Gate) {
    OneToken(g) && Authorised(hash, g) && AsPreviewed(g)
  }

  lemma TokenKept(hash: Hash, options: Options, g: Gate, t: Timed)
    requires Kept(hash, g) && Possible(g, t)
    ensures OneToken(Next(hash, options, g, t))
  {
    if g.launches != [] {
      assert InTime(g.approvals, g.launches[0].presented, g.launches[0].claimedAt);
    }
  }

  lemma AuthorisedKept(hash: Hash, options: Options, g: Gate, t: Timed)
    requires Injective(hash) && Kept(hash, g) && Possible(g, t)
    ensures Authorised(hash, Next(hash, options, g, t))
  {
  }

  lemma NextKept(hash: Hash, options: Options, g: Gate, t: Timed)
    requires Injective(hash) && Kept(hash, g) && Possible(g, t)
    ensures Kept(hash, Next(hash, options, g, t))
  {
    TokenKept(hash, options, g, t);
    AuthorisedKept(hash, options, g, t);
  }

  lemma {:induction false} RunKept(hash: Hash, options: Options, g: Gate, events: seq<Timed>)
    requires Injective(hash) && Kept(hash, g) && AllPossible(hash, options, g, events)
    ensures Kept(hash, Run(hash, options, g, events))
    ensures Run(hash, options, g, events).plan.mission == g.plan.mission
    ensures Run(hash, options, g, events).plan.conflicts == g.plan.conflicts
    ensures Run(hash, options, g, events).plan.createdBy == g.plan.createdBy
    ensures Run(hash, options, g, events).plan.decideBy == g.plan.decideBy
    decreases |events|
  {
    if events != [] {
      NextKept(hash, options, g, events[0]);
      RunKept(hash, options, Next(hash, options, g, events[0]), events[1..]);
    }
  }

  /** Whatever is interleaved with what, a plan is launched at most once; only after its own approval, given in time
      and by somebody else than its proposer when both are known; with the code of that approval, claimed while the
      approval was good; never if it had conflicts; and what is launched is what was previewed. */
  lemma LaunchedAtMostOnce(hash: Hash, options: Options, g: Gate, events: seq<Timed>)
    requires Injective(hash) && Opened(options, g) && AllPossible(hash, options, g, events)
    ensures var end := Run(hash, options, g, events);
      && |end.launches| <= 1
      && (end.plan.status.Dispatched? ==> |end.launches| == 1 && end.plan.missionId == Some(g.plan.mission.id))
      && (end.launches != [] ==>
           && g.plan.conflicts == 0
           && |end.approvals| == 1
           && end.launches[0].presented == end.approvals[0].code
           && end.approvals[0].at <= g.now + options.decisionWindow
           && end.approvals[0].at <= end.launches[0].claimedAt <= end.approvals[0].until
           && (end.approvals[0].approver.Some? && g.plan.createdBy.Some? ==> end.approvals[0].approver != g.plan.createdBy)
           && end.launches[0].mission == g.plan.mission.(createdAt := end.launches[0].mission.createdAt))
  {
    RunKept(hash, options, g, events);
    var end := Run(hash, options, g, events);
    if end.launches != [] {
      assert InTime(end.approvals, end.launches[0].presented, end.launches[0].claimedAt);
    }
  }

  // ----- what a code opens -----

  /** A claim goes through exactly when the plan is approved, still good, and the code is the approval's own
      and not in use. */
  lemma ClaimExactly(hash: Hash, g: Gate, presented: Option<string>, now: real)
    requires Injective(hash) && Kept(hash, g) && now >= g.now
    ensures ClaimProblem(hash, Aged(g.plan, now), presented).None? <==>
      && g.plan.status.Approved? && g.plan.codeHash.Some?
      && now <= g.approvals[0].until && presented == Some(g.approvals[0].code) && presented.value != ""
  {
  }

  /** The code is given back when the swarm could not be reached: an approval that is still good can be
      tried again, and the second try can succeed. */
  lemma RetryAfterUnreachable(hash: Hash, options: Options, g: Gate, caller: nat, again: nat, at: real, later: real)
    requires Injective(hash) && Kept(hash, g)
    requires caller in g.flights && g.flights[caller].stage.Unreachable?
    requires g.now <= at <= later <= g.approvals[0].until && again !in g.flights && g.plan.status.Approved?
    requires g.flights[caller].presented != ""
    ensures Possible(g, Timed(at, Finish(caller)))
    ensures var back := Next(hash, options, g, Timed(at, Finish(caller)));
      var retry := Timed(later, Claim(again, Some(g.flights[caller].presented)));
      Possible(back, retry) && again in Next(hash, options, back, retry).flights
  {
    NextKept(hash, options, g, Timed(at, Finish(caller)));
  }

  // ----- what is final -----

  predicate Finishing(g: Gate) {
    exists c :: c in g.flights && !g.flights[c].stage.Unreachable?
  }

  ghost predicate StaysSo(hash: Hash, options: Options, g: Gate, status: Status) {
    forall events :: AllPossible(hash, options, g, events) ==> Run(hash, options, g, events).plan.status == status
  }

  lemma {:induction false} NothingFinishes(hash: Hash, options: Options, g: Gate, events: seq<Timed>)
    requires g.plan.status.Rejected? || g.plan.status.Expired?
    requires !Finishing(g) && AllPossible(hash, options, g, events)
    ensures Run(hash, options, g, events).plan.status == g.plan.status
    decreases |events|
  {
    if events != [] {
      var after := Next(hash, options, g, events[0]);
      assert !Finishing(after);
      NothingFinishes(hash, options, after, events[1..]);
    }
  }

  lemma OneMore(hash: Hash, options: Options, g: Gate, t: Timed, rest: seq<Timed>)
    requires Possible(g, t) && AllPossible(hash, options, Next(hash, options, g, t), rest)
    ensures AllPossible(hash, options, g, [t] + rest)
    ensures Run(hash, options, g, [t] + rest) == Run(hash, options, Next(hash, options, g, t), rest)
  {
    assert ([t] + rest)[1..] == rest;
  }

  lemma OneFinishes(hash: Hash, options: Options, g: Gate, caller: nat) returns (events: seq<Timed>)
    requires caller in g.flights && !g.flights[caller].stage.Unreachable?
    ensures AllPossible(hash, options, g, events)
    ensures Run(hash, options, g, events).plan.status == Dispatched
  {
    var send, finish := Timed(g.now, Send(caller, Delivered)), Timed(g.now, Finish(caller));
    if g.flights[caller].stage.Waiting? {
      var sent := Next(hash, options, g, send);
      OneMore(hash, options, sent, finish, []);
      OneMore(hash, options, g, send, [finish] + []);
      events := [send] + ([finish] + []);
    } else {
      OneMore(hash, options, g, finish, []);
      events := [finish] + [];
    }
  }

  /** Rejecting a plan, or its expiry, is final exactly when no dispatch of it is already under way: one
      that has claimed its code, and has not failed to reach the swarm, still makes it Dispatched. */
  lemma FinalUnlessUnderWay(hash: Hash, options: Options, g: Gate)
    requires g.plan.status.Rejected? || g.plan.status.Expired?
    ensures StaysSo(hash, options, g, g.plan.status) <==> !Finishing(g)
  {
    if Finishing(g) {
      var caller :| caller in g.flights && !g.flights[caller].stage.Unreachable?;
      var events := OneFinishes(hash, options, g, caller);
      assert Run(hash, options, g, events).plan.status != g.plan.status;
    } else {
      forall events | AllPossible(hash, options, g, events)
        ensures Run(hash, options, g, events).plan.status == g.plan.status
      {
        NothingFinishes(hash, options, g, events);
      }
    }
  }

  ghost predicate CodeMeansApproved(g: Gate) {
    g.plan.codeHash.Some? ==> g.plan.status.Approved?
  }

  /** A code kept means the plan is approved, until a code is given back to a plan that no longer is. */
  lemma CodeMeansApprovedUnless(hash: Hash, options: Options, g: Gate, t: Timed)
    requires Kept(hash, g) && Possible(g, t) && CodeMeansApproved(g)
    ensures CodeMeansApproved(Next(hash, options, g, t)) <==>
      !(t.event.Finish? && g.flights[t.event.caller].stage.Unreachable? && !g.plan.status.Approved?)
  {
  }

  /** Both happen: approved, claimed and rejected, a plan is then dispatched if the swarm takes the mission,
      and has its code back if the swarm cannot be reached. */
  lemma RejectedAndThen(hash: Hash, options: Options, g: Gate, outcome: Outcome)
    returns (before: seq<Timed>, after: seq<Timed>)
    requires Opened(options, g) && g.plan.conflicts == 0 && options.decisionWindow >= 0.0 && options.approvalValidity >= 0.0
    requires !outcome.OtherFailure?
    ensures AllPossible(hash, options, g, before)
    ensures var rejected := Run(hash, options, g, before);
      && rejected.plan.status.Rejected? && AllPossible(hash, options, rejected, after)
      && var end := Run(hash, options, rejected, after).plan;
         if outcome.Delivered? then end.status.Dispatched? else end.status.Rejected? && end.codeHash.Some?
  {
    var approve, claim := Timed(g.now, Approve(None, "code")), Timed(g.now, Claim(0, Some("code")));
    var reject, send, finish := Timed(g.now, Reject(None)), Timed(g.now, Send(0, outcome)), Timed(g.now, Finish(0));
    var approved := Next(hash, options, g, approve);
    assert approved.plan.status.Approved? && approved.plan.codeHash == Some(hash("code"));
    var claimed := Next(hash, options, approved, claim);
    assert claimed.flights == map[0 := Flight(hash("code"), "code", g.now, Waiting)];
    var rejected := Next(hash, options, claimed, reject);
    assert rejected.plan.status.Rejected? && rejected.flights == claimed.flights && rejected.now == g.now;
    OneMore(hash, options, claimed, reject, []);
    OneMore(hash, options, approved, claim, [reject] + []);
    OneMore(hash, options, g, approve, [claim] + ([reject] + []));
    before := [approve] + ([claim] + ([reject] + []));
    var sent := Next(hash, options, rejected, send);
    OneMore(hash, options, sent, finish, []);
    OneMore(hash, options, rejected, send, [finish] + []);
    after := [send] + ([finish] + []);
  }

  /** Every dispatch is finished before anything else happens. */
  predicate Atomic(hash: Hash, options: Options, g: Gate, events: seq<Timed>)
    requires AllPossible(hash, options, g, events)
    decreases |events|
  {
    events != [] ==>
      && (g.flights != map[] ==> events[0].event.Send? || events[0].event.Finish?)
      && Atomic(hash, options, Next(hash, options, g, events[0]), events[1..])
  }

  ghost predicate Orderly(g: Gate) {
    CodeMeansApproved(g) && (g.flights != map[] ==> g.plan.status.Approved?)
  }

  lemma OrderlyKept(hash: Hash, options: Options, g: Gate, t: Timed)
    requires Kept(hash, g) && Possible(g, t) && Orderly(g)
    requires g.flights != map[] ==> t.event.Send? || t.event.Finish?
    ensures Orderly(Next(hash, options, g, t))
    ensures g.plan.status.Rejected? || g.plan.status.Expired? ==> Next(hash, options, g, t).plan.status == g.plan.status
  {
    if t.event.Finish? || t.event.Send? {
      assert t.event.caller in g.flights;
    }
  }

  /** With dispatches finished before anything else happens, a code kept always means the plan is approved,
      and a plan once rejected or expired stays so. */
  lemma {:induction false} FinalWhenAtomic(hash: Hash, options: Options, g: Gate, events: seq<Timed>)
    requires Injective(hash) && Kept(hash, g) && Orderly(g)
    requires AllPossible(hash, options, g, events) && Atomic(hash, options, g, events)
    ensures CodeMeansApproved(Run(hash, options, g, events))
    ensures g.plan.status.Rejected? || g.plan.status.Expired? ==>
              Run(hash, options, g, events).plan.status == g.plan.status
    decreases |events|
  {
    if events != [] {
      NextKept(hash, options, g, events[0]);
      OrderlyKept(hash, options, g, events[0]);
      FinalWhenAtomic(hash, options, Next(hash, options, g, events[0]), events[1..]);
    }
  }
}
