/** What happens to a plan, told by deadlines alone (MissionPlanService.cs): the service lets a plan lapse only when
    somebody next looks at it; here nothing is ever marked as lapsed, and both always agree. */
module PlanStories {

  import opened Wrappers
  import opened PlanGate

  /** What has been done about a plan: the approval given, whether it was rejected or dispatched, whether the code is
      there to be used, and the dispatches under way. */
  datatype Story = Story(approval: Option<Approval>, rejected: bool, dispatched: bool, free: bool, flights: map<nat, Stage>)

  const UNTOLD := Story(None, false, false, false, map[])

  /** Everything a plan is proposed with. */
  datatype Terms = Terms(conflicts: nat, createdBy: Option<string>, decideBy: real, validity: real)

  function StatusAt(terms: Terms, s: Story, now: real): Status {
    if s.dispatched then Dispatched
    else if s.rejected then Rejected
    else if s.approval.Some? then (if now <= s.approval.value.until then Approved else Expired)
    else if now > terms.decideBy then Expired
    else if terms.conflicts > 0 then Conflicted
    else PendingApproval
  }

  /** An approval is granted: undecided, without conflicts, in time, and not to the known proposer. */
  predicate Grants(terms: Terms, s: Story, approver: Option<string>, now: real) {
    && s.approval.None? && !s.rejected && !s.dispatched && terms.conflicts == 0 && now <= terms.decideBy
    && !(approver.Some? && approver == terms.createdBy)
  }

  /** A rejection is taken: neither rejected nor dispatched, and the decision or the approval not lapsed. */
  predicate Takes(terms: Terms, s: Story, now: real) {
    !s.rejected && !s.dispatched && now <= if s.approval.Some? then s.approval.value.until else terms.decideBy
  }

  /** A code opens the plan: approved and still good, its own code, and nobody using it. */
  predicate Opens(s: Story, presented: Option<string>, now: real) {
    && s.approval.Some? && !s.rejected && !s.dispatched && now <= s.approval.value.until
    && s.free && presented == Some(s.approval.value.code)
  }

  function Told(terms: Terms, s: Story, t: Timed): Story {
    match t.event
    case Look => s
    case Approve(approver, code) =>
      if Grants(terms, s, approver, t.at)
      then s.(approval := Some(Approval(t.at, approver, code, t.at + terms.validity)), free := true) else s
    case Reject(rejecter) => if Takes(terms, s, t.at) then s.(rejected := true) else s
    case Claim(caller, presented) =>
      if Opens(s, presented, t.at) then s.(free := false, flights := s.flights[caller := Waiting]) else s
    case Send(caller, outcome) =>
      (match outcome
       case Delivered => s.(flights := s.flights[caller := Sent])
       case SwarmUnavailable => s.(flights := s.flights[caller := Unreachable])
       case OtherFailure => s.(flights := s.flights - {caller}))
    case Finish(caller) =>
      var gone := s.(flights := s.flights - {caller});
      if caller in s.flights && s.flights[caller].Sent? then gone.(dispatched := true) else gone.(free := true)
  }

  function Tale(terms: Terms, s: Story, events: seq<Timed>): Story
    decreases |events|
  {
    if events == [] then s else Tale(terms, Told(terms, s, events[0]), events[1..])
  }

  // ----- the service keeps to the story -----

  ghost predicate SameTerms(terms: Terms, options: Options, p: Plan) {
    && p.conflicts == terms.conflicts && p.createdBy == terms.createdBy && p.decideBy == terms.decideBy
    && options.approvalValidity == terms.validity
  }

  /** The status kept is the story's, as of some time past. */
  ghost predicate StatusTold(terms: Terms, s: Story, p: Plan, now: real) {
    if s.dispatched then p.status.Dispatched?
    else if s.rejected then p.status.Rejected?
    else if s.approval.Some? then
      || (p.status.Approved? && p.approvalExpires == Some(s.approval.value.until))
      || (p.status.Expired? && now > s.approval.value.until)
    else
      || p.status == (if terms.conflicts > 0 then Conflicted else PendingApproval)
      || (p.status.Expired? && now > terms.decideBy)
  }

  ghost predicate CodeTold(hash: Hash, s: Story, p: Plan) {
    && (s.dispatched ==> s.approval.Some?)
    && (s.approval.Some? ==> s.approval.value.code != "")
    && (p.status.Approved? && s.approval.Some? ==>
          p.codeHash == if s.free then Some(hash(s.approval.value.code)) else None)
  }

  ghost predicate FlightsTold(hash: Hash, s: Story, g: Gate) {
    && g.flights.Keys == s.flights.Keys
    && (forall c :: c in g.flights ==>
         g.flights[c].stage == s.flights[c] && s.approval.Some? && g.flights[c].consumed == hash(s.approval.value.code))
  }

  ghost predicate Agrees(hash: Hash, options: Options, terms: Terms, s: Story, g: Gate) {
    && SameTerms(terms, options, g.plan)
    && StatusTold(terms, s, g.plan, g.now)
    && CodeTold(hash, s, g.plan)
    && FlightsTold(hash, s, g)
    && g.approvals == if s.approval.Some? then [s.approval.value] else []
  }

  /** Looking at a plan shows what its deadlines say. */
  lemma AgedAsTold(hash: Hash, options: Options, terms: Terms, s: Story, g: Gate, now: real)
    requires Agrees(hash, options, terms, s, g) && now >= g.now
    ensures Aged(g.plan, now).status == StatusAt(terms, s, now)
  {
  }

  lemma ApproveKept(hash: Hash, options: Options, terms: Terms, s: Story, g: Gate, t: Timed)
    requires t.event.Approve?
    requires Injective(hash) && Agrees(hash, options, terms, s, g) && Possible(g, t)
    ensures Agrees(hash, options, terms, Told(terms, s, t), Next(hash, options, g, t))
  {
    AgedAsTold(hash, options, terms, s, g, t.at);
  }

  lemma RejectKept(hash: Hash, options: Options, terms: Terms, s: Story, g: Gate, t: Timed)
    requires t.event.Reject?
    requires Injective(hash) && Agrees(hash, options, terms, s, g) && Possible(g, t)
    ensures Agrees(hash, options, terms, Told(terms, s, t), Next(hash, options, g, t))
  {
    AgedAsTold(hash, options, terms, s, g, t.at);
  }

  lemma ClaimKept(hash: Hash, options: Options, terms: Terms, s: Story, g: Gate, t: Timed)
    requires t.event.Claim?
    requires Injective(hash) && Agrees(hash, options, terms, s, g) && Possible(g, t)
    ensures Agrees(hash, options, terms, Told(terms, s, t), Next(hash, options, g, t))
  {
    AgedAsTold(hash, options, terms, s, g, t.at);
  }

  lemma SendKept(hash: Hash, options: Options, terms: Terms, s: Story, g: Gate, t: Timed)
    requires t.event.Send?
    requires Injective(hash) && Agrees(hash, options, terms, s, g) && Possible(g, t)
    ensures Agrees(hash, options, terms, Told(terms, s, t), Next(hash, options, g, t))
  {
  }

  lemma FinishKept(hash: Hash, options: Options, terms: Terms, s: Story, g: Gate, t: Timed)
    requires t.event.Finish?
    requires Injective(hash) && Agrees(hash, options, terms, s, g) && Possible(g, t)
    ensures Agrees(hash, options, terms, Told(terms, s, t), Next(hash, options, g, t))
  {
  }

  lemma StoryKept(hash: Hash, options: Options, terms: Terms, s: Story, g: Gate, t: Timed)
    requires Injective(hash) && Agrees(hash, options, terms, s, g) && Possible(g, t)
    ensures Agrees(hash, options, terms, Told(terms, s, t), Next(hash, options, g, t))
  {
    match t.event
    case Look => AgedAsTold(hash, options, terms, s, g, t.at);
    case Approve(approver, code) => ApproveKept(hash, options, terms, s, g, t);
    case Reject(rejecter) => RejectKept(hash, options, terms, s, g, t);
    case Claim(caller, presented) => ClaimKept(hash, options, terms, s, g, t);
    case Send(caller, outcome) => SendKept(hash, options, terms, s, g, t);
    case Finish(caller) => FinishKept(hash, options, terms, s, g, t);
  }

  lemma {:induction false} TaleKept(hash: Hash, options: Options, terms: Terms, s: Story, g: Gate, events: seq<Timed>)
    requires Injective(hash) && Agrees(hash, options, terms, s, g) && AllPossible(hash, options, g, events)
    ensures Agrees(hash, options, terms, Tale(terms, s, events), Run(hash, options, g, events))
    decreases |events|
  {
    if events != [] {
      StoryKept(hash, options, terms, s, g, events[0]);
      TaleKept(hash, options, terms, Told(terms, s, events[0]), Next(hash, options, g, events[0]), events[1..]);
    }
  }

  // ----- what that comes to, over every run from a proposal -----

  function TermsOf(options: Options, g: Gate): Terms {
    Terms(g.plan.conflicts, g.plan.createdBy, g.now + options.decisionWindow, options.approvalValidity)
  }

  /** Whenever somebody looks at a plan, its status is what its deadlines and what was done about it make it; so a plan
      that is undecided when its decision is due, or whose approval is not used in time, shows as expired from then on,
      and never before. */
  lemma StatusExactly(hash: Hash, options: Options, g: Gate, events: seq<Timed>, at: real)
    requires Injective(hash) && Opened(options, g) && AllPossible(hash, options, g, events)
    requires at >= Run(hash, options, g, events).now
    ensures var s, end := Tale(TermsOf(options, g), UNTOLD, events), Run(hash, options, g, events);
      Possible(end, Timed(at, Look)) &&
      Next(hash, options, end, Timed(at, Look)).plan.status == StatusAt(TermsOf(options, g), s, at)
  {
    TaleKept(hash, options, TermsOf(options, g), UNTOLD, g, events);
    AgedAsTold(hash, options, TermsOf(options, g), Tale(TermsOf(options, g), UNTOLD, events), Run(hash, options, g, events), at);
  }

  /** An approval is granted exactly to a plan without conflicts, neither approved nor rejected before, not after its
      decision is due, and to anybody but its proposer, if both are known; and it is good for exactly the validity. */
  lemma ApprovedExactly(hash: Hash, options: Options, g: Gate, events: seq<Timed>, approver: Option<string>, code: string,
                        at: real)
    requires Injective(hash) && Opened(options, g) && AllPossible(hash, options, g, events)
    requires at >= Run(hash, options, g, events).now && code != ""
    ensures var s, end := Tale(TermsOf(options, g), UNTOLD, events), Run(hash, options, g, events);
      var after := Next(hash, options, end, Timed(at, Approve(approver, code)));
      && (after.approvals != end.approvals <==>
           && end.approvals == [] && !s.rejected && g.plan.conflicts == 0 && at <= g.now + options.decisionWindow
           && (approver.None? || g.plan.createdBy.None? || approver != g.plan.createdBy))
      && (after.approvals != end.approvals ==>
           after.approvals == [Approval(at, approver, code, at + options.approvalValidity)] && after.plan.status.Approved?
           && after.plan.decidedBy == approver && after.plan.decidedAt == Some(at))
  {
    var terms := TermsOf(options, g);
    TaleKept(hash, options, terms, UNTOLD, g, events);
    ApprovalDecided(hash, options, terms, Tale(terms, UNTOLD, events), Run(hash, options, g, events), approver, code, at);
  }

  lemma ApprovalDecided(hash: Hash, options: Options, terms: Terms, s: Story, g: Gate, approver: Option<string>, code: string,
                        at: real)
    requires Agrees(hash, options, terms, s, g) && at >= g.now && code != ""
    ensures var after := Next(hash, options, g, Timed(at, Approve(approver, code)));
      && (after.approvals != g.approvals <==>
           && g.approvals == [] && !s.rejected && terms.conflicts == 0 && at <= terms.decideBy
           && (approver.None? || terms.createdBy.None? || approver != terms.createdBy))
      && (after.approvals != g.approvals ==>
           after.approvals == [Approval(at, approver, code, at + terms.validity)] && after.plan.status.Approved?
           && after.plan.decidedBy == approver && after.plan.decidedAt == Some(at))
  {
    AgedAsTold(hash, options, terms, s, g, at);
  }

  /** A rejection is taken exactly while the plan is neither rejected nor dispatched, and neither its decision nor its
      approval has lapsed; then it is recorded, and the plan has no code any more. */
  lemma RejectedExactly(hash: Hash, options: Options, g: Gate, events: seq<Timed>, rejecter: Option<string>, at: real)
    requires Injective(hash) && Opened(options, g) && AllPossible(hash, options, g, events)
    requires at >= Run(hash, options, g, events).now
    ensures var s, end := Tale(TermsOf(options, g), UNTOLD, events), Run(hash, options, g, events);
      var after := Next(hash, options, end, Timed(at, Reject(rejecter)));
      if Takes(TermsOf(options, g), s, at) then
        after.plan.status.Rejected? && after.plan.decidedBy == rejecter && after.plan.decidedAt == Some(at) && after.plan.codeHash.None?
      else after.plan == Next(hash, options, end, Timed(at, Look)).plan
  {
    var terms := TermsOf(options, g);
    TaleKept(hash, options, terms, UNTOLD, g, events);
    RejectionDecided(hash, options, terms, Tale(terms, UNTOLD, events), Run(hash, options, g, events), rejecter, at);
  }

  lemma RejectionDecided(hash: Hash, options: Options, terms: Terms, s: Story, g: Gate, rejecter: Option<string>, at: real)
    requires Agrees(hash, options, terms, s, g) && at >= g.now
    ensures var after := Next(hash, options, g, Timed(at, Reject(rejecter)));
      if Takes(terms, s, at) then
        after.plan.status.Rejected? && after.plan.decidedBy == rejecter && after.plan.decidedAt == Some(at) && after.plan.codeHash.None?
      else after.plan == Next(hash, options, g, Timed(at, Look)).plan
  {
    AgedAsTold(hash, options, terms, s, g, at);
  }

  /** A claim goes through exactly for the approval's own code, while the approval is good and the plan neither rejected
      nor dispatched, and while nobody else has the code. */
  lemma ClaimedExactly(hash: Hash, options: Options, g: Gate, events: seq<Timed>, caller: nat, presented: Option<string>,
                       at: real)
    requires Injective(hash) && Opened(options, g) && AllPossible(hash, options, g, events)
    requires at >= Run(hash, options, g, events).now && caller !in Run(hash, options, g, events).flights
    ensures var s, end := Tale(TermsOf(options, g), UNTOLD, events), Run(hash, options, g, events);
      caller in Next(hash, options, end, Timed(at, Claim(caller, presented))).flights <==> Opens(s, presented, at)
  {
    var terms := TermsOf(options, g);
    TaleKept(hash, options, terms, UNTOLD, g, events);
    StoryKept(hash, options, terms, Tale(terms, UNTOLD, events), Run(hash, options, g, events), Timed(at, Claim(caller, presented)));
  }
}
