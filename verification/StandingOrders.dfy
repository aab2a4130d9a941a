/** What a request, a command and a decision come to (supervisor.py), in terms of the batteries reported and of what each
    drone has last been told. */
module StandingOrders {

  import opened Wrappers
  import opened Fleet
  import opened Lists
  import opened Planning
  import opened Supervision
  import opened Reallocation
  import opened SupervisorRuns

  // ----- who is fit -----

  /** A battery reported below the threshold. */
  predicate KnownLow(s: Reports, d: Drone) {
    d in s.battery && s.battery[d].Some? && s.battery[d].value < s.threshold
  }

  function Fit(s: Reports): set<Drone> {
    set d | d in s.fleet && !KnownLow(s, d)
  }

  lemma FitIsEligible(s: Reports)
    requires InIdOrder(s.fleet)
    ensures Members(Eligible(s, s.fleet)) == Fit(s) && |Eligible(s, s.fleet)| == |Fit(s)|
    ensures InIdOrder(Eligible(s, s.fleet)) && Distinct(Eligible(s, s.fleet))
  {
    EligibleInOrder(s, s.fleet);
    OrderedDistinct(Eligible(s, s.fleet));
    DistinctSize(Eligible(s, s.fleet));
    assert Members(Eligible(s, s.fleet)) == Fit(s);
  }

  lemma {:induction false} EligibleInOrder(s: Reports, fleet: seq<Drone>)
    requires InIdOrder(fleet)
    ensures InIdOrder(Eligible(s, fleet))
  {
    if fleet != [] {
      EligibleInOrder(s, fleet[1..]);
    }
  }

  lemma {:induction false} LowestFirst(drones: seq<Drone>, n: nat, d: Drone, e: Drone)
    requires InIdOrder(drones) && n <= |drones| && d in drones[..n] && e in drones && e !in drones[..n]
    ensures d < e
  {
    assert n > 0 && drones[0] == drones[..n][0];
    assert e in drones[1..];
    if d != drones[0] {
      assert drones[..n] == [drones[0]] + drones[1..][..n - 1];
      LowestFirst(drones[1..], n - 1, d, e);
    }
  }

  // ----- a mission request -----

  /** A plan that can be flown for the mission on the drones that are fit. */
  ghost predicate Suits(plan: Plan, mission: MissionMessage, fit: set<Drone>) {
    plan.id == mission.id && Flyable(plan) && |plan.Drones()| == mission.droneCount && plan.Drones() <= fit
  }

  ghost predicate TakenUp(s: State, after: State, plan: Plan) {
    after == s.(mission := Some(Mission(plan, map[], {}, {})))
  }

  /** What becomes of a request when enough drones are fit. */
  ghost predicate DecidedOn(s: State, mission: MissionMessage, planned: Planned, fit: set<Drone>, after: (State, seq<Action>)) {
    var refused := (s, [Rejected(mission.id)]);
    match planned
    case Returned(plan) => if Suits(plan, mission, fit) then TakenUp(s, after.0, plan) else after == refused
    case NoPlanner =>
      if mission.droneCount < 1 || mission.waypoints == [] then after == (s, [])
      else
        && after.0.mission.Some? && TakenUp(s, after.0, after.0.mission.value.plan)
        && Suits(after.0.mission.value.plan, mission, fit) && Lowest(after.0.mission.value.plan.Drones(), fit)
    case _ => after == refused
  }

  predicate Lowest(chosen: set<Drone>, fit: set<Drone>) {
    forall d, e :: d in chosen && e in fit - chosen ==> d < e
  }

  /** A request that needs more drones than are fit is rejected; otherwise a planner's plan is taken up exactly if it suits,
      and without a planner the drones with the lowest ids fly, unless there is nothing to fly. Whatever is not taken
      up leaves everything as it was. */
  lemma RequestDecidedExactly(s: State, mission: MissionMessage, planned: Planned)
    requires Valid(s)
    ensures var fit, after := Fit(s.reports), Start(s, mission, planned);
      if |fit| < mission.droneCount then after == (s, [Rejected(mission.id)]) else DecidedOn(s, mission, planned, fit, after)
  {
    var eligible := Eligible(s.reports, s.reports.fleet);
    FitIsEligible(s.reports);
    if |eligible| >= mission.droneCount {
      match planned
      case Returned(plan) => PlannersPlan(s, mission, plan);
      case NoPlanner => DefaultPlan(s, mission);
      case _ =>
    }
  }

  lemma PlannersPlan(s: State, mission: MissionMessage, plan: Plan)
    requires Valid(s) && |Eligible(s.reports, s.reports.fleet)| >= mission.droneCount
    ensures DecidedOn(s, mission, Returned(plan), Fit(s.reports), Start(s, mission, Returned(plan)))
  {
    var eligible := Eligible(s.reports, s.reports.fleet);
    FitIsEligible(s.reports);
    assert forall d :: d in Fit(s.reports) <==> d in Members(eligible);
    SuitsIfUsable(plan, mission, eligible, Fit(s.reports));
  }

  lemma DefaultPlan(s: State, mission: MissionMessage)
    requires Valid(s) && |Eligible(s.reports, s.reports.fleet)| >= mission.droneCount
    ensures DecidedOn(s, mission, NoPlanner, Fit(s.reports), Start(s, mission, NoPlanner))
  {
    if mission.droneCount >= 1 && mission.waypoints != [] {
      LowestAreChosen(s.reports, mission, Eligible(s.reports, s.reports.fleet));
    }
  }

  lemma SuitsIfUsable(plan: Plan, mission: MissionMessage, eligible: seq<Drone>, fit: set<Drone>)
    requires forall d :: d in fit <==> d in eligible
    ensures Suits(plan, mission, fit) <==> Unusable(plan, mission, eligible).None?
  {
  }

  lemma LowestAreChosen(s: Reports, mission: MissionMessage, eligible: seq<Drone>)
    requires InIdOrder(s.fleet) && eligible == Eligible(s, s.fleet) && |eligible| >= mission.droneCount >= 1
    requires mission.waypoints != []
    ensures PlanFor(s, mission, NoPlanner).Some?
    ensures var plan := PlanFor(s, mission, NoPlanner).value;
      Suits(plan, mission, Fit(s)) && Lowest(plan.Drones(), Fit(s))
  {
    var names := eligible[..mission.droneCount];
    FitIsEligible(s);
    NamesDistinct(s, mission.droneCount);
    DefaultPlanIsUsable(mission, names);
    var plan := PlanMission(mission, names).value;
    assert forall d :: d in names ==> d in eligible;
    forall d, e | d in plan.Drones() && e in Fit(s) - plan.Drones() ensures d < e {
      assert d in names && e in Members(eligible);
      LowestFirst(eligible, mission.droneCount, d, e);
    }
  }

  /** Once a mission is taken up, its drones have been told their parts, those of the mission before that it does not need
      have been told to return, and nobody else has been told anything. */
  lemma NewMissionTellsEverybody(h: History, e: Event, d: Drone)
    requires Valid(h.state) && Accepted(h.state, e)
    ensures var plan := PlanFor(h.state.reports, e.message, e.planned).value;
      var told, was := Next(h, e).told, if h.state.mission.Some? then h.state.mission.value.plan.Drones() else {};
      && Next(h, e).state.mission == Some(Mission(plan, map[], {}, {}))
      && if d in plan.Drones() then d in told && told[d] == Part(plan, d)
         else if d in was then d in told && told[d] == Obey(Rtl)
         else (d in told <==> d in h.told) && (d in told ==> told[d] == h.told[d])
  {
    var s, plan := h.state, PlanFor(h.state.reports, e.message, e.planned).value;
    PlanIsValid(s.reports, e.message, e.planned);
    var superseded := Pick(s.reports.fleet, Members(MissionDrones(s)) - plan.Drones());
    if s.mission.Some? {
      MissionDronesQueued(s);
      assert forall x :: x in s.mission.value.plan.Drones() ==> x in s.reports.fleet by {
        assert s.mission.value.plan.Drones() <= Members(s.reports.fleet);
      }
    }
    TellBegan(h.told, s.reports.fleet, plan, superseded, ActiveMission(Some(plan.id), MissionDrones(Began(s, plan).0)));
  }

  // ----- a command -----

  /** A command is sent to every drone of the fleet, and nothing else is; the mission is over. */
  lemma CommandReachesEverybody(h: History, command: Command)
    requires Valid(h.state)
    ensures var after := Next(h, CommandRequest(command));
      && after.state == h.state.(mission := None)
      && (forall d :: d in h.state.reports.fleet ==> d in after.told && after.told[d] == Obey(command))
      && forall d :: d !in h.state.reports.fleet ==>
           (d in after.told <==> d in h.told) && (d in after.told ==> after.told[d] == h.told[d])
  {
    var fleet := h.state.reports.fleet;
    TellRecall(h.told, fleet, command);
    TellBoth(h.told, Recall(fleet, command), [ActiveMission(None, [])]);
  }

  predicate IsReport(e: Event) {
    e.BatteryReport? || e.ProgressReport? || e.Tick?
  }

  /** Without a mission nothing is sent until the next request: what was commanded stands. */
  lemma {:induction false} CommandStands(h: History, events: seq<Event>)
    requires Valid(h.state) && h.state.mission.None? && forall k :: 0 <= k < |events| ==> IsReport(events[k])
    ensures Run(h, events).told == h.told && Run(h, events).state.mission.None?
    decreases |events|
  {
    if events != [] {
      StepKeepsValid(h.state, events[0]);
      assert IsReport(events[0]) && Step(h.state, events[0]).1 == [];
      CommandStands(Next(h, events[0]), events[1..]);
    }
  }

  // ----- a decision -----

  /** A drone of the mission, not dropped before, known to be low, that has not reported itself complete. */
  predicate GoesHome(s: Reports, m: Mission, d: Drone) {
    && d in m.plan.Drones() && d !in m.dropped && KnownLow(s, d)
    && !(d in m.progress && m.progress[d].complete)
  }

  lemma {:induction false} NoCommandsToSlots(id: MissionId, followers: map<Drone, Slot>, drones: seq<Drone>)
    requires forall d :: d in drones ==> d in followers
    ensures forall d, c :: Send(d, c) !in SlotOrders(id, followers, drones)
    ensures forall d, i :: TaskDropped(d, i) !in SlotOrders(id, followers, drones)
  {
    if drones != [] {
      NoCommandsToSlots(id, followers, drones[1..]);
    }
  }

  /** One decision sends one drone home, and reports it dropped if nobody takes over. */
  lemma OneGoesHome(fleet: seq<Drone>, m: Mission, decision: Decision, d: Drone, command: Command, id: MissionId)
    requires ValidMission(m, fleet) && Sound(m, fleet, decision)
    ensures Send(d, command) in DecisionActions(fleet, m, decision) <==> d == decision.low && command == Rtl
    ensures TaskDropped(d, id) in DecisionActions(fleet, m, decision) <==> decision == Drop(d) && id == m.plan.id
  {
    if decision.HandOver? {
      var low, heir := decision.low, decision.heir;
      HandedOverFlyable(m, low, heir);
      if low in m.plan.paths {
        var plan := HandedOver(m, low, heir);
        NoCommandsToSlots(plan.id, plan.followers, Pick(fleet, FollowersOf(m.plan.followers, low)));
      }
    }
  }

  lemma {:induction false} SettlingSendsHome(s: Reports, m: Mission, queue: seq<Drone>, d: Drone, command: Command, id: MissionId)
    requires ValidMission(m, s.fleet) && Queued(m, queue)
    ensures Send(d, command) in Settle(s, m, queue).actions <==> d in queue && GoesHome(s, m, d) && command == Rtl
    ensures TaskDropped(d, id) in Settle(s, m, queue).actions ==> d in queue && GoesHome(s, m, d) && id == m.plan.id
    ensures TaskDropped(d, m.plan.id) in Settle(s, m, queue).actions <==> d in Settle(s, m, queue).mission.dropped - m.dropped
    decreases |queue|
  {
    if queue != [] {
      if Leaving(s, m, queue[0]) {
        var decision := Decide(s, m, queue[0]);
        var after := Apply(m, decision);
        NextQueued(s, m, queue);
        DronesAfter(m, s.fleet, decision);
        OneGoesHome(s.fleet, m, decision, d, command, id);
        OneGoesHome(s.fleet, m, decision, d, command, m.plan.id);
        SettlingSendsHome(s, after, queue[1..], d, command, id);
        DroppedGrow(s, after, queue[1..]);
        assert queue[0] !in queue[1..];
      } else {
        SettlingSendsHome(s, m, queue[1..], d, command, id);
      }
    }
  }

  lemma {:induction false} DroppedGrow(s: Reports, m: Mission, queue: seq<Drone>)
    requires ValidMission(m, s.fleet) && Queued(m, queue)
    ensures m.dropped <= Settle(s, m, queue).mission.dropped
    decreases |queue|
  {
    if queue != [] {
      if Leaving(s, m, queue[0]) {
        NextQueued(s, m, queue);
        DroppedGrow(s, Apply(m, Decide(s, m, queue[0])), queue[1..]);
      } else {
        DroppedGrow(s, m, queue[1..]);
      }
    }
  }

  /** The periodic decision sends home exactly the drones of the mission that are known to be low and not complete, and
      reports as dropped exactly those whose task nobody takes over. */
  lemma DecisionSendsHomeExactly(s: State, d: Drone, command: Command)
    requires Valid(s)
    ensures Send(d, command) in Reallocate(s).1 <==> s.mission.Some? && GoesHome(s.reports, s.mission.value, d) && command == Rtl
    ensures s.mission.Some? ==>
      && Reallocate(s).0.mission.Some? && s.mission.value.dropped <= Reallocate(s).0.mission.value.dropped
      && (TaskDropped(d, s.mission.value.plan.id) in Reallocate(s).1 <==>
           d in Reallocate(s).0.mission.value.dropped - s.mission.value.dropped)
  {
    if s.mission.Some? {
      var m := s.mission.value;
      MissionDronesQueued(s);
      SettlingSendsHome(s.reports, m, MissionDrones(s), d, command, m.plan.id);
      DroppedGrow(s.reports, m, MissionDrones(s));
    }
  }

  // ----- what a decision goes by -----

  /** The supervisor, the battery each drone last reported, and who has last reported itself complete for the mission in
      progress. */
  datatype Known = Known(state: State, battery: map<Drone, Option<real>>, done: set<Drone>)

  ghost function NextKnown(k: Known, e: Event): Known
    requires Valid(k.state)
  {
    Known(Step(k.state, e).0,
          if e.BatteryReport? && e.drone in k.battery then k.battery[e.drone := e.pct] else k.battery,
          if Accepted(k.state, e) then {}
          else if e.ProgressReport? && k.state.mission.Some? && e.mission == Some(k.state.mission.value.plan.id)
          then (if e.complete then k.done + {e.drone} else k.done - {e.drone})
          else k.done)
  }

  ghost function RunKnown(k: Known, events: seq<Event>): Known
    requires Valid(k.state)
    decreases |events|
  {
    if events == [] then k
    else
      StepKeepsValid(k.state, events[0]);
      RunKnown(NextKnown(k, events[0]), events[1..])
  }

  ghost predicate Knows(k: Known) {
    && Valid(k.state) && k.state.reports.battery == k.battery
    && (k.state.mission.Some? ==>
          forall d :: d in k.done <==> d in k.state.mission.value.progress && k.state.mission.value.progress[d].complete)
  }

  lemma ReallocateLearnsNothing(s: State)
    requires Valid(s)
    ensures Reallocate(s).0.reports == s.reports
    ensures s.mission.Some? ==> Reallocate(s).0.mission.Some? && Reallocate(s).0.mission.value.progress == s.mission.value.progress
  {
    if s.mission.Some? {
      MissionDronesQueued(s);
    }
  }

  lemma NextKnows(k: Known, e: Event)
    requires Knows(k)
    ensures Knows(NextKnown(k, e))
  {
    if e.MissionRequest? {
      RequestKnows(k, e);
    } else if e.Tick? {
      TickKnows(k);
    } else {
      ReportKnows(k, e);
    }
  }

  lemma ReportKnows(k: Known, e: Event)
    requires Knows(k) && (e.BatteryReport? || e.ProgressReport? || e.CommandRequest?)
    ensures Knows(NextKnown(k, e))
  {
    StepKeepsValid(k.state, e);
  }

  lemma RequestKnows(k: Known, e: Event)
    requires Knows(k) && e.MissionRequest?
    ensures Knows(NextKnown(k, e))
  {
    StepKeepsValid(k.state, e);
    if Accepted(k.state, e) {
      PlanIsValid(k.state.reports, e.message, e.planned);
    }
  }

  lemma TickKnows(k: Known)
    requires Knows(k)
    ensures Knows(NextKnown(k, Tick))
  {
    StepKeepsValid(k.state, Tick);
    ReallocateLearnsNothing(k.state);
  }

  lemma {:induction false} RunKnows(k: Known, events: seq<Event>)
    requires Knows(k)
    ensures Knows(RunKnown(k, events))
    decreases |events|
  {
    if events != [] {
      StepKeepsValid(k.state, events[0]);
      NextKnows(k, events[0]);
      RunKnows(NextKnown(k, events[0]), events[1..]);
    }
  }

  /** So over every run: whoever is sent home is of the mission, last reported a battery below the threshold, and has not last
      reported itself complete; and of those that were not dropped before, nobody else stays. */
  lemma SentHomeByReports(start: State, events: seq<Event>, d: Drone, command: Command)
    requires Valid(start) && start.mission.None?
    ensures var end := RunKnown(Known(start, start.reports.battery, {}), events);
      && Valid(end.state)
      && (Send(d, command) in Reallocate(end.state).1 <==>
           && command == Rtl && end.state.mission.Some?
           && d in end.state.mission.value.plan.Drones() && d !in end.state.mission.value.dropped
           && d in end.battery && end.battery[d].Some? && end.battery[d].value < end.state.reports.threshold
           && d !in end.done)
  {
    var k := Known(start, start.reports.battery, {});
    RunKnows(k, events);
    DecisionSendsHomeExactly(RunKnown(k, events).state, d, command);
  }
}
