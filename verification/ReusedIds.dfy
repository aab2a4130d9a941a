/** Why mission ids must be new (swarm_state.py, supervisor.py): what "complete" comes to when a mission is requested
    under an id that was used before. */
module ReusedIds {

  import opened Wrappers
  import opened Geometry
  import opened Fleet
  import opened Lists
  import Missions
  import opened Planning
  import opened Supervision
  import opened DroneControl
  import opened Swarm
  import opened LaneRecords
  import opened HonestCompletion
  import Reallocation
  import SupervisorRuns

  /** A mission is requested, and the ground takes its next step before it has heard anything. */
  ghost function RequestedAndStepped(sys: System, message: MissionMessage, planned: Planned, now: real): System
    requires Configured(sys)
  {
    SupervisorRuns.BeganIsValid(sys.ground.supervisor, message, planned);
    GroundStepped(Requested(sys, message, planned), now, [])
  }

  /** The last that was heard of the drone is that it has finished a mission of this id and is disarmed. */
  predicate Stale(readings: map<Drone, Reading>, id: MissionId, d: Drone) {
    d in readings && readings[d].mission == Some(id) && readings[d].complete && readings[d].armed == Some(false)
  }

  lemma {:induction false} NothingNoted(r: Record, s: Reports, m: Mission, queue: seq<Drone>)
    requires ValidMission(m, s.fleet) && Reallocation.Queued(m, queue)
    requires forall d :: d in queue ==> !Leaving(s, m, d)
    ensures NotedAll(r, s, m, queue) == r
    decreases |queue|
  {
    if queue != [] {
      NothingNoted(r, s, m, queue[1..]);
    }
  }

  /** A plan that has just begun is on charged drones, so the next periodic decision changes nothing. */
  lemma NothingToDecide(s: State, records: Records, plan: Plan)
    requires Valid(s) && s.mission == Some(Mission(plan, map[], {}, {}))
    requires forall d :: d in plan.Drones() ==> !Low(s.reports, d)
    ensures Reallocation.Reallocate(s) == (s, [])
    ensures NotedDecision(records, s) == records
  {
    Reallocation.MissionDronesQueued(s);
    Reallocation.NothingToSettle(s.reports, s.mission.value, MissionDrones(s));
    if plan.id in records {
      NothingNoted(records[plan.id], s.reports, s.mission.value, MissionDrones(s));
      assert records[plan.id := records[plan.id]] == records;
    }
  }

  lemma Announces(g: GroundSide, plan: Plan)
    ensures var after := Flushed(Submitted(g, Began(g.supervisor, plan)));
      && after.active == Some(plan.id) && after.activeDrones == MissionDrones(Began(g.supervisor, plan).0)
      && after.readings == g.readings
  {
    var s := g.supervisor;
    var recalled := Recall(Pick(s.reports.fleet, Members(MissionDrones(s)) - plan.Drones()), Rtl);
    AnnouncedAfter(g, recalled + Orders(s.reports.fleet, plan), ActiveMission(Some(plan.id), MissionDrones(Began(s, plan).0)));
  }

  lemma Decides(sys: System, plan: Plan, now: real)
    requires Valid(sys.ground.supervisor) && sys.ground.supervisor.mission == Some(Mission(plan, map[], {}, {}))
    requires forall d :: d in plan.Drones() ==> !Low(sys.ground.supervisor.reports, d)
    ensures var after := GroundStepped(sys, now, []);
      && after.ground.active == Flushed(sys.ground).active && after.ground.activeDrones == Flushed(sys.ground).activeDrones
      && after.ground.readings == sys.ground.readings && after.records == sys.records && after.book == sys.book
  {
    NothingToDecide(sys.ground.supervisor, sys.records, plan);
    assert sys.ground.pending + [] == sys.ground.pending;
  }

  lemma AfterBegun(sys: System, message: MissionMessage, planned: Planned, plan: Plan, now: real)
    requires Configured(sys) && MissionBegun(sys.ground.supervisor, message, planned)
    requires plan == PlanFor(sys.ground.supervisor.reports, message, planned).value
    ensures var after := RequestedAndStepped(sys, message, planned, now);
      && after.ground.active == Some(plan.id)
      && after.ground.activeDrones == MissionDrones(Began(sys.ground.supervisor, plan).0)
      && after.ground.readings == sys.ground.readings
      && after.records == sys.records[plan.id := FirstRecord(plan)] && after.book == sys.book
  {
    PlanIsValid(sys.ground.supervisor.reports, message, planned);
    SupervisorRuns.BeganIsValid(sys.ground.supervisor, message, planned);
    Decides(Requested(sys, message, planned), plan, now);
    Announces(sys.ground, plan);
  }

  /** Every drone with a path has been, while flying for a mission of this id, wherever its path goes. */
  ghost predicate AllVisited(book: Logbook, plan: Plan) {
    forall o, k :: o in plan.paths && 0 <= k < |plan.paths[o]| ==> Visited(book, o, plan.id, plan.paths[o][k])
  }

  lemma CompleteExactly(g: GroundSide, plan: Plan)
    requires g.active == Some(plan.id) && forall d :: d in g.activeDrones <==> d in plan.Drones()
    ensures ReportsComplete(g) <==> plan.Drones() != {} && forall d :: d in plan.Drones() ==> Stale(g.readings, plan.id, d)
  {
    if g.activeDrones != [] {
      assert g.activeDrones[0] in plan.Drones();
    } else {
      assert plan.Drones() == {};
    }
  }

  lemma FirstRecordTrue(sys: System, plan: Plan)
    requires sys.ground.active == Some(plan.id) && plan.id in sys.records && sys.records[plan.id] == FirstRecord(plan)
    ensures ReportIsTrue(sys) <==> (ReportsComplete(sys.ground) ==> AllVisited(sys.book, plan))
  {
    forall o, k | o in plan.paths && 0 <= k < |plan.paths[o]|
      ensures Reached(sys.book, [o], plan.id, plan.paths[o][k]) <==> Visited(sys.book, o, plan.id, plan.paths[o][k])
    {
    }
  }

  lemma BegunMembers(s: State, message: MissionMessage, planned: Planned, plan: Plan)
    requires Valid(s) && MissionBegun(s, message, planned) && plan == PlanFor(s.reports, message, planned).value
    ensures forall d :: d in MissionDrones(Began(s, plan).0) <==> d in plan.Drones()
  {
    PlanIsValid(s.reports, message, planned);
    Reallocation.MissionDronesQueued(Began(s, plan).0);
  }

  /** Requested again under an id that was used before, a mission is reported complete, before anybody has heard of
      it, exactly when all its drones were last heard finishing a mission of that id; and that is true exactly when
      they have been everywhere they are now asked to go. */
  lemma ReusedIdLies(trace: seq<System>, events: seq<Event>, end: System, message: MissionMessage, planned: Planned,
                     plan: Plan, now: real, after: System)
    requires IsRun(trace, events) && Initial(trace[0]) && end == trace[|events|] && Configured(end)
    requires MissionBegun(end.ground.supervisor, message, planned) && plan.id in end.records
    requires plan == PlanFor(end.ground.supervisor.reports, message, planned).value
    requires after == RequestedAndStepped(end, message, planned, now)
    ensures ReportsComplete(after.ground) <==>
      plan.Drones() != {} && forall d :: d in plan.Drones() ==> Stale(end.ground.readings, plan.id, d)
    ensures ReportIsTrue(after) <==> (ReportsComplete(after.ground) ==> AllVisited(end.book, plan))
  {
    AfterBegun(end, message, planned, plan, now);
    BegunMembers(end.ground.supervisor, message, planned, plan);
    CompleteExactly(after.ground, plan);
    FirstRecordTrue(after, plan);
  }

  // ----- a run after which it happens -----

  /** One drone that flies one waypoint. */
  function Alone(id: MissionId, p: Vec): Plan {
    Plan(id, map[1 := [p]], map[])
  }

  function Asked(id: MissionId, p: Vec): MissionMessage {
    MissionMessage(id, Missions.WaypointFollow, Missions.Line, [p], 1, 1.0)
  }

  ghost predicate Ready(s: State) {
    Valid(s) && s.reports.fleet == [1] && !Low(s.reports, 1)
  }

  lemma AloneBegins(s: State, id: MissionId, p: Vec)
    requires Ready(s)
    ensures MissionBegun(s, Asked(id, p), Returned(Alone(id, p)))
    ensures PlanFor(s.reports, Asked(id, p), Returned(Alone(id, p))) == Some(Alone(id, p))
  {
    var plan := Alone(id, p);
    assert Eligible(s.reports, s.reports.fleet) == [1];
    assert plan.Drones() == {1} && plan.paths[1] == [p];
    assert Unusable(plan, Asked(id, p), [1]).None?;
  }

  lemma PickOne(chosen: set<Drone>)
    ensures Pick([1], chosen) == if 1 in chosen then [1] else []
  {
    assert [1 as Drone][1..] == [];
  }

  lemma AloneOrdered(s: State, id: MissionId, p: Vec)
    requires Ready(s) && s.mission.None?
    ensures Began(s, Alone(id, p)) ==
      (s.(mission := Some(Mission(Alone(id, p), map[], {}, {}))), [Assign(1, id, [p]), ActiveMission(Some(id), [1])])
  {
    var plan := Alone(id, p);
    assert plan.Drones() == {1} && plan.paths.Keys == {1} && plan.followers.Keys == {};
    PickOne(plan.Drones());
    PickOne(plan.paths.Keys);
    PickOne(plan.followers.Keys);
    PickOne(Members([]) - plan.Drones());
    assert [1 as Drone][1..] == [];
    assert Orders([1], plan) == [Assign(1, id, [p])];
    var begun := s.(mission := Some(Mission(plan, map[], {}, {})));
    assert MissionDrones(begun) == [1] && MissionDrones(s) == [];
    assert Recall([], Rtl) + [Assign(1, id, [p])] + [ActiveMission(Some(id), [1])] ==
           [Assign(1, id, [p]), ActiveMission(Some(id), [1])];
  }

  // What each step of the run leaves, as far as the next one needs it.

  lemma Requests(sys: System, id: MissionId, p: Vec)
    requires Configured(sys) && Ready(sys.ground.supervisor) && sys.ground.supervisor.mission.None? && id !in sys.records
    ensures Allowed(sys, Request(Asked(id, p), Returned(Alone(id, p))))
    ensures Next(sys, Request(Asked(id, p), Returned(Alone(id, p)))) ==
      sys.(ground := Submitted(sys.ground, Began(sys.ground.supervisor, Alone(id, p))),
           records := sys.records[id := FirstRecord(Alone(id, p))])
  {
    AloneBegins(sys.ground.supervisor, id, p);
  }

  lemma AnnouncesAlone(active: Option<MissionId>, drones: seq<Drone>, order: Action, last: Action)
    requires order.Assign? && last.ActiveMission?
    ensures Announced(active, drones, [order, last]) == (last.active, last.drones)
    ensures MessageFor(order).value in MessagesFor([order, last])
  {
    assert [order, last] == [order] + [last] && [order, last][1..] == [last];
    LastAnnouncement(active, drones, [order], last);
  }

  lemma SendsPath(sys: System, id: MissionId, p: Vec, now: real)
    requires Valid(sys.ground.supervisor) && Ready(sys.ground.supervisor)
    requires sys.ground.supervisor.mission == Some(Mission(Alone(id, p), map[], {}, {}))
    requires sys.ground.pending == [Assign(1, id, [p]), ActiveMission(Some(id), [1])]
    ensures var after := GroundStepped(sys, now, []);
      && AssignmentMessage(1, id, [p]) in after.sent && after.drones == sys.drones && after.book == sys.book
      && after.records == sys.records && after.ground.supervisor == sys.ground.supervisor && after.ground.pending == []
      && after.ground.active == Some(id) && after.ground.activeDrones == [1] && after.ground.readings == sys.ground.readings
  {
    var g := sys.ground;
    assert Alone(id, p).Drones() == {1};
    NothingToDecide(g.supervisor, sys.records, Alone(id, p));
    assert g.pending + [] == g.pending;
    AnnouncesAlone(g.active, g.activeDrones, g.pending[0], g.pending[1]);
  }

  /** The drone is at its only waypoint when it hears of it. */
  lemma FliesPath(sys: System, id: MissionId, p: Vec, now: real, seen: Observation)
    requires 1 in sys.drones && sys.drones[1].id == 1 && sys.drones[1].controller.settings.maxStep > 0.0
    requires sys.drones[1].controller.settings.tolerance == sys.book.tolerance && sys.drones[1].lastProgress.None?
    requires Dist(sys.book.norm, p, p) <= sys.book.tolerance && seen.position == Some(p) && !seen.armed
    ensures var after := DroneStepped(sys, 1, now, seen, [AssignmentMessage(1, id, [p])]);
      && ProgressMessage(1, ProgressReport(Some(id), Some(1), Some(1), true)) in after.sent
      && TelemetryMessage(1, Some(p), false, seen.battery) in after.sent
      && after.ground == sys.ground && after.records == sys.records && after.drones.Keys == sys.drones.Keys
      && after.book == sys.book.(log := sys.book.log + {Sighting(1, id, p)})
  {
    var message := AssignmentMessage(1, id, [p]);
    var received := Receive(sys.drones[1], now, message);
    assert [message][1..] == [] && ReceiveAll(sys.drones[1], now, [message]) == received;
    var ticked := Ticked(sys.book.norm, received, now, seen);
    assert ProgressOf(ticked.controller) == ProgressReport(Some(id), Some(1), Some(1), true);
    var report := ProgressMessage(1, ProgressOf(ticked.controller));
    assert Outbox(ticked, now, seen)[1] == report;
    assert Outbox(ticked, now, seen)[2] == TelemetryMessage(1, Some(p), false, seen.battery);
  }

  lemma HearsReports(sys: System, id: MissionId, p: Vec, now: real, progress: Message, telemetry: Message)
    requires Ready(sys.ground.supervisor) && 1 in sys.ground.readings
    requires progress == ProgressMessage(1, ProgressReport(Some(id), Some(1), Some(1), true))
    requires telemetry == TelemetryMessage(1, Some(p), false, None)
    ensures var after := GroundStepped(sys, now, [progress, telemetry]);
      && Ready(after.ground.supervisor) && Stale(after.ground.readings, id, 1)
      && after.book == sys.book && (id in sys.records ==> id in after.records)
  {
    var g, inbox := sys.ground, [progress, telemetry];
    var heard := Hear(Hear(g, progress), telemetry);
    assert inbox[1..] == [telemetry] && [telemetry][1..] == [];
    assert HearAll(g, inbox) == HearAll(Hear(g, progress), [telemetry]) == heard;
    HearingKeepsValid(g, inbox);
    assert heard.supervisor.reports.fleet == [1] && !Low(heard.supervisor.reports, 1);
    Reallocation.ReallocateKeepsValid(heard.supervisor);
  }

  /** What the run needs to start from: one drone, at `p`, of a swarm that has just come up. */
  ghost predicate AloneAt(sys: System, p: Vec, far: Vec) {
    && Initial(sys) && Ready(sys.ground.supervisor) && sys.book.log == {}
    && 1 in sys.drones && sys.drones[1].lastProgress.None? && 1 in sys.ground.readings
    && Dist(sys.book.norm, p, p) <= sys.book.tolerance < Dist(sys.book.norm, p, far)
  }

  lemma OneMore(trace: seq<System>, events: seq<Event>, e: Event) returns (longer: seq<System>, more: seq<Event>)
    requires IsRun(trace, events) && Configured(trace[|events|]) && Allowed(trace[|events|], e)
    ensures IsRun(longer, more) && more == events + [e]
    ensures longer == trace + [Next(trace[|events|], e)] && Configured(longer[|more|])
  {
    RunGoesOn(trace, events, e);
    longer, more := trace + [Next(trace[|events|], e)], events + [e];
  }

  /** The drone has been sent where it stands. */
  ghost predicate Ordered(start: System, sys: System, id: MissionId, p: Vec) {
    && Ready(sys.ground.supervisor) && sys.drones == start.drones && sys.book == start.book && id in sys.records
    && sys.ground.readings == start.ground.readings && AssignmentMessage(1, id, [p]) in sys.sent
  }

  lemma RunToOrders(sys: System, id: MissionId, p: Vec, far: Vec, now: real) returns (trace: seq<System>, events: seq<Event>)
    requires AloneAt(sys, p, far)
    ensures IsRun(trace, events) && trace[0] == sys && Configured(trace[|events|])
    ensures Ordered(sys, trace[|events|], id, p)
  {
    var e0 := Request(Asked(id, p), Returned(Alone(id, p)));
    Requests(sys, id, p);
    AloneOrdered(sys.ground.supervisor, id, p);
    trace, events := OneMore([sys], [], e0);
    assert sys.ground.pending + [Assign(1, id, [p]), ActiveMission(Some(id), [1])] ==
           [Assign(1, id, [p]), ActiveMission(Some(id), [1])];
    SendsPath(trace[1], id, p, now);
    trace, events := OneMore(trace, events, GroundStep(now, []));
  }

  lemma RunToReports(start: System, before: seq<System>, past: seq<Event>, id: MissionId, p: Vec, far: Vec, now: real,
                     seen: Observation)
    returns (trace: seq<System>, events: seq<Event>)
    requires AloneAt(start, p, far) && IsRun(before, past) && before[0] == start && Configured(before[|past|])
    requires Ordered(start, before[|past|], id, p) && seen.position == Some(p) && !seen.armed && seen.battery.None?
    ensures IsRun(trace, events) && trace[0] == start && Configured(trace[|events|])
    ensures Ready(trace[|events|].ground.supervisor) && id in trace[|events|].records
    ensures Stale(trace[|events|].ground.readings, id, 1)
    ensures trace[|events|].book == start.book.(log := {Sighting(1, id, p)})
  {
    var order := AssignmentMessage(1, id, [p]);
    var progress := ProgressMessage(1, ProgressReport(Some(id), Some(1), Some(1), true));
    var telemetry := TelemetryMessage(1, Some(p), false, None);
    FliesPath(before[|past|], id, p, now, seen);
    trace, events := OneMore(before, past, DroneStep(1, now, seen, [order]));
    HearsReports(trace[|events|], id, p, now, progress, telemetry);
    trace, events := OneMore(trace, events, GroundStep(now, [progress, telemetry]));
  }

  /** It happens: the drone finishes a mission where it stands, and a mission to `far`, requested under the same id,
      is at once reported complete. */
  lemma ReusedIdWitness(sys: System, id: MissionId, p: Vec, far: Vec, now: real, seen: Observation)
    returns (trace: seq<System>, events: seq<Event>, after: System)
    requires AloneAt(sys, p, far) && seen.position == Some(p) && !seen.armed && seen.battery.None?
    ensures IsRun(trace, events) && trace[0] == sys && Configured(trace[|events|])
    ensures after == RequestedAndStepped(trace[|events|], Asked(id, far), Returned(Alone(id, far)), now)
    ensures ReportsComplete(after.ground) && !ReportIsTrue(after)
  {
    trace, events := RunToOrders(sys, id, p, far, now);
    trace, events := RunToReports(sys, trace, events, id, p, far, now, seen);
    Lies(trace, events, trace[|events|], id, far, now);
    after := RequestedAndStepped(trace[|events|], Asked(id, far), Returned(Alone(id, far)), now);
  }

  lemma Lies(trace: seq<System>, events: seq<Event>, end: System, id: MissionId, far: Vec, now: real)
    requires IsRun(trace, events) && Initial(trace[0]) && end == trace[|events|] && Configured(end)
    requires Ready(end.ground.supervisor) && id in end.records && Stale(end.ground.readings, id, 1)
    requires forall s :: s in end.book.log ==> Dist(end.book.norm, s.position, far) > end.book.tolerance
    ensures var after := RequestedAndStepped(end, Asked(id, far), Returned(Alone(id, far)), now);
      ReportsComplete(after.ground) && !ReportIsTrue(after)
  {
    var plan := Alone(id, far);
    AloneBegins(end.ground.supervisor, id, far);
    assert plan.Drones() == {1} && plan.paths[1] == [far] && 1 in plan.Drones();
    ReusedIdLies(trace, events, end, Asked(id, far), Returned(plan), plan, now,
                 RequestedAndStepped(end, Asked(id, far), Returned(plan), now));
    assert !Visited(end.book, 1, id, plan.paths[1][0]);
  }
}
