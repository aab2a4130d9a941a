/** The whole swarm: one ground, its drones, and a network between them that may drop, delay, repeat and
    reorder messages, but not forge them. The main result is that "complete" never lies (`CompleteIsHonest`):
    when the ground reports a mission complete, every waypoint of every lane of its plan has been reached by a
    drone that was flying that lane then, through any number of hand-overs. */
module HonestCompletion {

  import opened Wrappers
  import opened Geometry
  import opened Fleet
  import opened Lists
  import opened Planning
  import opened Supervision
  import opened DroneControl
  import opened Swarm
  import opened LaneRecords
  import Reallocation
  import SupervisorRuns

  type Records = map<MissionId, Record>

  /** The software of the swarm, every message ever sent, and what an observer has written down. */
  datatype System = System(
    ground: GroundSide, drones: map<Drone, DroneSide>, sent: set<Message>, book: Logbook, records: Records)

  datatype Event =
    | Request(message: MissionMessage, planned: Planned)
    | Order(command: Command)
    | GroundStep(now: real, inbox: seq<Message>)
    | DroneStep(drone: Drone, now: real, seen: Observation, inbox: seq<Message>)

  /** Mission ids are new, and what arrives was sent, to whom it arrives at. */
  ghost predicate Allowed(sys: System, e: Event) {
    match e
    case Request(message, planned) => message.id !in sys.records
    case Order(command) => true
    case GroundStep(now, inbox) => forall m :: m in inbox ==> m in sys.sent
    case DroneStep(d, now, seen, inbox) => d in sys.drones && forall m :: m in inbox ==> m in sys.sent && ForDrone(m, d)
  }

  ghost predicate Configured(sys: System) {
    && Valid(sys.ground.supervisor)
    && forall d :: d in sys.drones ==> sys.drones[d].controller.settings.maxStep > 0.0
  }

  // ----- one step -----

  ghost function MissionBegun(s: State, message: MissionMessage, planned: Planned): bool
    requires Valid(s)
  {
    |Eligible(s.reports, s.reports.fleet)| >= message.droneCount && PlanFor(s.reports, message, planned).Some?
  }

  ghost function Requested(sys: System, message: MissionMessage, planned: Planned): System
    requires Valid(sys.ground.supervisor)
  {
    var s := sys.ground.supervisor;
    sys.(ground := Submitted(sys.ground, Start(s, message, planned)),
         records := if MissionBegun(s, message, planned)
                    then sys.records[message.id := FirstRecord(PlanFor(s.reports, message, planned).value)]
                    else sys.records)
  }

  /** The record of the mission, once a periodic decision is noted. */
  ghost function NotedDecision(records: Records, s: State): Records
    requires Valid(s)
  {
    if s.mission.None? || s.mission.value.plan.id !in records then records
    else
      Reallocation.MissionDronesQueued(s);
      var id := s.mission.value.plan.id;
      records[id := NotedAll(records[id], s.reports, s.mission.value, MissionDrones(s))]
  }

  ghost function GroundStepped(sys: System, now: real, inbox: seq<Message>): System
    requires Valid(sys.ground.supervisor)
  {
    HearingKeepsValid(sys.ground, inbox);
    var heard := HearAll(sys.ground, inbox);
    var decided := Reallocated(heard, now);
    sys.(ground := Flushed(decided),
         sent := sys.sent + MessageSet(MessagesFor(decided.pending)),
         records := if ReallocationDue(heard, now) then NotedDecision(sys.records, heard.supervisor) else sys.records)
  }

  function MessageSet(messages: seq<Message>): set<Message> {
    set m | m in messages
  }

  /** Where a drone is seen, while it is flying the lane it holds in a mission: not once it was handed over. */
  function Seen(book: Logbook, d: Drone, c: Controller, o: Observation): Logbook {
    if o.position.Some? && c.mission.Some? && c.task.Path? && c.handover.None?
    then book.(log := book.log + {Sighting(d, c.mission.value, o.position.value)}) else book
  }

  ghost function DroneStepped(sys: System, d: Drone, now: real, o: Observation, inbox: seq<Message>): System
    requires d in sys.drones && sys.drones[d].controller.settings.maxStep > 0.0
  {
    var received := ReceiveAll(sys.drones[d], now, inbox);
    var ticked := Ticked(sys.book.norm, received, now, o);
    sys.(drones := sys.drones[d := Reported(ticked, now)],
         sent := sys.sent + MessageSet(Outbox(ticked, now, o)),
         book := Seen(sys.book, d, received.controller, o))
  }

  ghost function Next(sys: System, e: Event): System
    requires Configured(sys) && Allowed(sys, e)
  {
    match e
    case Request(message, planned) => Requested(sys, message, planned)
    case Order(command) => sys.(ground := Submitted(sys.ground, CommandAll(sys.ground.supervisor, command)))
    case GroundStep(now, inbox) => GroundStepped(sys, now, inbox)
    case DroneStep(d, now, o, inbox) => DroneStepped(sys, d, now, o, inbox)
  }

  lemma HearOneKeepsValid(g: GroundSide, m: Message)
    requires Valid(g.supervisor)
    ensures Valid(Hear(g, m).supervisor)
  {
    if m.TelemetryMessage? {
      SupervisorRuns.BatteryKeepsValid(g.supervisor, m.sender, m.battery);
    }
  }

  lemma {:induction false} HearingKeepsValid(g: GroundSide, inbox: seq<Message>)
    requires Valid(g.supervisor)
    ensures Valid(HearAll(g, inbox).supervisor)
    decreases |inbox|
  {
    if inbox != [] {
      HearOneKeepsValid(g, inbox[0]);
      HearingKeepsValid(Hear(g, inbox[0]), inbox[1..]);
    }
  }

  // ----- what every step keeps -----

  ghost predicate TrueReport(book: Logbook, records: Records, d: Drone, id: Option<MissionId>, index: Option<nat>,
                             complete: bool) {
    id.Some? ==> id.value in records && Honest(book, records[id.value], id.value, d, index, complete)
  }

  ghost predicate TrueMessage(book: Logbook, records: Records, m: Message) {
    match m
    case AssignmentMessage(to, id, path) => Recorded(records, Assign(to, id, path))
    case SlotMessage(to, id, slot) => Recorded(records, TakeSlot(to, id, slot))
    case ProgressMessage(sender, report) => TrueReport(book, records, sender, report.mission, report.index, report.complete)
    case _ => true
  }

  ghost predicate TrueMessages(book: Logbook, records: Records, messages: set<Message>) {
    forall m :: m in messages ==> TrueMessage(book, records, m)
  }

  ghost predicate TrueReadings(book: Logbook, records: Records, readings: map<Drone, Reading>) {
    forall d :: d in readings ==>
      TrueReport(book, records, d, readings[d].mission, readings[d].index, readings[d].complete)
  }

  /** A drone works on what it was told to, and has been where its queue says. */
  ghost predicate Faithful(book: Logbook, records: Records, d: Drone, c: Controller) {
    match c.task
    case NoTask => c.mission.None?
    case Path(queue) =>
      && c.mission.Some? && Recorded(records, Assign(d, c.mission.value, queue.waypoints))
      && Passed(book, d, c.mission.value, queue.waypoints, queue.index)
      && (c.complete ==> queue.Complete())
    case Follow(leader, offset, leaderDone) =>
      c.mission.Some? && Recorded(records, TakeSlot(d, c.mission.value, Slot(leader, offset)))
  }

  ghost predicate DroneKept(book: Logbook, records: Records, d: Drone, side: DroneSide) {
    && side.id == d && side.controller.settings.maxStep > 0.0
    && side.controller.settings.tolerance == book.tolerance
    && Faithful(book, records, d, side.controller)
  }

  ghost predicate RecordsKept(book: Logbook, records: Records) {
    forall id :: id in records ==> RecordKept(book, id, records[id])
  }

  ghost predicate SupervisorKept(book: Logbook, records: Records, s: State) {
    && Valid(s)
    && (s.mission.Some? ==>
         s.mission.value.plan.id in records && MissionKept(book, records[s.mission.value.plan.id], s.mission.value))
  }

  /** What is announced, once what is pending is carried out, is the supervisor's mission and its drones. */
  ghost predicate AnnouncementFits(s: State, announced: (Option<MissionId>, seq<Drone>)) {
    if s.mission.Some? then announced == (Some(s.mission.value.plan.id), MissionDrones(s)) else announced.0.None?
  }

  /** The mission announced needs, among others, whoever holds its lanes. */
  ghost predicate HoldersNeeded(records: Records, active: Option<MissionId>, drones: seq<Drone>) {
    active.Some? ==>
      && active.value in records
      && forall o :: o in records[active.value].lanes ==> exists d :: d in drones && records[active.value].lanes[o].HeldBy(d)
  }

  ghost predicate GroundKept(book: Logbook, records: Records, g: GroundSide) {
    && SupervisorKept(book, records, g.supervisor)
    && TrueReadings(book, records, g.readings)
    && AllRecorded(records, g.pending)
    && AnnouncementFits(g.supervisor, Announced(g.active, g.activeDrones, g.pending))
  }

  ghost predicate Kept(sys: System) {
    && RecordsKept(sys.book, sys.records)
    && GroundKept(sys.book, sys.records, sys.ground)
    && HoldersNeeded(sys.records, sys.ground.active, sys.ground.activeDrones)
    && TrueMessages(sys.book, sys.records, sys.sent)
    && forall d :: d in sys.drones ==> DroneKept(sys.book, sys.records, d, sys.drones[d])
  }

  // ----- what was true stays true -----

  lemma ReportStaysTrue(b: Logbook, c: Logbook, q: Records, r: Records, d: Drone, id: Option<MissionId>,
                        index: Option<nat>, complete: bool)
    requires BookGrows(b, c) && RecordsGrow(q, r) && TrueReport(b, q, d, id, index, complete)
    ensures TrueReport(c, r, d, id, index, complete)
  {
    if id.Some? {
      HonestGrows(b, c, q[id.value], r[id.value], id.value, d, index, complete);
    }
  }

  lemma RecordedStays(q: Records, r: Records, a: Action)
    requires RecordsGrow(q, r) && Recorded(q, a)
    ensures Recorded(r, a)
  {
    if a.Assign? || a.TakeSlot? {
      assert Extends(q[a.mission], r[a.mission]);
    }
  }

  lemma MessagesStayTrue(b: Logbook, c: Logbook, q: Records, r: Records, messages: set<Message>)
    requires BookGrows(b, c) && RecordsGrow(q, r) && TrueMessages(b, q, messages)
    ensures TrueMessages(c, r, messages)
  {
    forall m | m in messages ensures TrueMessage(c, r, m) {
      assert TrueMessage(b, q, m);
      match m
      case AssignmentMessage(to, id, path) => RecordedStays(q, r, Assign(to, id, path));
      case SlotMessage(to, id, slot) => RecordedStays(q, r, TakeSlot(to, id, slot));
      case ProgressMessage(d, report) => ReportStaysTrue(b, c, q, r, d, report.mission, report.index, report.complete);
      case _ =>
    }
  }

  lemma ReadingsStayTrue(b: Logbook, c: Logbook, q: Records, r: Records, readings: map<Drone, Reading>)
    requires BookGrows(b, c) && RecordsGrow(q, r) && TrueReadings(b, q, readings)
    ensures TrueReadings(c, r, readings)
  {
    forall d | d in readings ensures TrueReport(c, r, d, readings[d].mission, readings[d].index, readings[d].complete) {
      ReportStaysTrue(b, c, q, r, d, readings[d].mission, readings[d].index, readings[d].complete);
    }
  }

  lemma StaysFaithful(b: Logbook, c: Logbook, q: Records, r: Records, d: Drone, drone: Controller)
    requires BookGrows(b, c) && RecordsGrow(q, r) && Faithful(b, q, d, drone)
    ensures Faithful(c, r, d, drone)
  {
    match drone.task
    case NoTask =>
    case Path(queue) =>
      RecordedStays(q, r, Assign(d, drone.mission.value, queue.waypoints));
      PassedGrows(b, c, d, drone.mission.value, queue.waypoints, queue.index);
    case Follow(leader, offset, leaderDone) =>
      RecordedStays(q, r, TakeSlot(d, drone.mission.value, Slot(leader, offset)));
  }

  lemma DronesStayKept(b: Logbook, c: Logbook, q: Records, r: Records, drones: map<Drone, DroneSide>)
    requires BookGrows(b, c) && RecordsGrow(q, r)
    requires forall d :: d in drones ==> DroneKept(b, q, d, drones[d])
    ensures forall d :: d in drones ==> DroneKept(c, r, d, drones[d])
  {
    forall d | d in drones ensures DroneKept(c, r, d, drones[d]) {
      StaysFaithful(b, c, q, r, d, drones[d].controller);
    }
  }

  lemma ActionsStayRecorded(q: Records, r: Records, actions: seq<Action>)
    requires RecordsGrow(q, r) && AllRecorded(q, actions)
    ensures AllRecorded(r, actions)
  {
    forall a | a in actions ensures Recorded(r, a) {
      RecordedStays(q, r, a);
    }
  }

  lemma GroundStaysKept(b: Logbook, c: Logbook, records: Records, g: GroundSide)
    requires BookGrows(b, c) && GroundKept(b, records, g)
    ensures GroundKept(c, records, g)
  {
    SameRecords(records);
    ReadingsStayTrue(b, c, records, records, g.readings);
    if g.supervisor.mission.Some? {
      var r := records[g.supervisor.mission.value.plan.id];
      ProgressGrows(b, c, r, r, g.supervisor.mission.value);
    }
  }

  lemma SameRecords(records: Records)
    ensures RecordsGrow(records, records)
  {
  }

  lemma RecordsStayKept(b: Logbook, c: Logbook, records: Records)
    requires BookGrows(b, c) && RecordsKept(b, records)
    ensures RecordsKept(c, records)
  {
    forall id | id in records ensures RecordKept(c, id, records[id]) {
      RecordGrows(b, c, id, records[id]);
    }
  }

  // ----- a drone's step -----

  lemma ReceivedKept(book: Logbook, records: Records, d: Drone, side: DroneSide, now: real, m: Message)
    requires DroneKept(book, records, d, side) && TrueMessage(book, records, m) && ForDrone(m, d)
    ensures DroneKept(book, records, d, Receive(side, now, m))
  {
  }

  lemma {:induction false} InboxKept(book: Logbook, records: Records, d: Drone, side: DroneSide, now: real,
                                     inbox: seq<Message>)
    requires DroneKept(book, records, d, side)
    requires forall m :: m in inbox ==> TrueMessage(book, records, m) && ForDrone(m, d)
    ensures DroneKept(book, records, d, ReceiveAll(side, now, inbox))
    decreases |inbox|
  {
    if inbox != [] {
      ReceivedKept(book, records, d, side, now, inbox[0]);
      InboxKept(book, records, d, Receive(side, now, inbox[0]), now, inbox[1..]);
    }
  }

  lemma SeenGrows(book: Logbook, d: Drone, c: Controller, o: Observation)
    ensures BookGrows(book, Seen(book, d, c, o))
  {
  }

  lemma QueueFaithful(book: Logbook, d: Drone, c: Controller, o: Observation)
    requires c.task.Path? && c.handover.None? && c.mission.Some? && o.position.Some?
    requires c.settings.tolerance == book.tolerance
    requires Passed(book, d, c.mission.value, c.task.queue.waypoints, c.task.queue.index)
    ensures var after := Advanced(book.norm, c.settings.tolerance, c.task.queue, o.position.value);
      Passed(Seen(book, d, c, o), d, c.mission.value, after.waypoints, after.index)
  {
    var id, queue, later := c.mission.value, c.task.queue, Seen(book, d, c, o);
    PassedGrows(book, later, d, id, queue.waypoints, queue.index);
    if Arrived(book.norm, c.settings.tolerance, queue, o.position.value) {
      assert Sighting(d, id, o.position.value) in later.log;
      assert Visited(later, d, id, queue.waypoints[queue.index]);
    }
  }

  /** A tick changes nothing about the task but the queue's index, and says complete only when it is. */
  lemma TickKeepsTask(norm: Norm, c: Controller, sensed: Sensed)
    requires c.settings.maxStep > 0.0
    ensures var after := Tick(norm, c, sensed).0;
      && after.settings == c.settings && after.mission == c.mission
      && (!c.task.Path? ==> after.task == c.task)
      && (c.task.Path? ==>
           && after.task.Path?
           && (after.task == c.task ||
                (sensed.position.Some? && c.handover.None? &&
                 after.task.queue == Advanced(norm, c.settings.tolerance, c.task.queue, sensed.position.value)))
           && (after.complete ==> c.complete || after.task.queue.Complete()))
  {
  }

  lemma TickFaithful(book: Logbook, records: Records, d: Drone, side: DroneSide, now: real, o: Observation)
    requires DroneKept(book, records, d, side)
    ensures DroneKept(Seen(book, d, side.controller, o), records, d, Ticked(book.norm, side, now, o))
  {
    var c, later := side.controller, Seen(book, d, side.controller, o);
    TickKeepsTask(book.norm, c, SensedBy(side, now, o));
    SeenGrows(book, d, c, o);
    SameRecords(records);
    StaysFaithful(book, later, records, records, d, c);
    if c.task.Path? && c.handover.None? && o.position.Some? {
      QueueFaithful(book, d, c, o);
    }
  }

  lemma OutboxTrue(book: Logbook, records: Records, d: Drone, side: DroneSide, now: real, o: Observation)
    requires DroneKept(book, records, d, side)
    ensures TrueMessages(book, records, MessageSet(Outbox(side, now, o)))
  {
    var report := ProgressOf(side.controller);
    assert TrueReport(book, records, d, report.mission, report.index, report.complete);
  }

  lemma DroneStepKept(sys: System, d: Drone, now: real, o: Observation, inbox: seq<Message>)
    requires Kept(sys) && Allowed(sys, DroneStep(d, now, o, inbox))
    ensures Kept(DroneStepped(sys, d, now, o, inbox))
  {
    var after := DroneStepped(sys, d, now, o, inbox);
    var received := ReceiveAll(sys.drones[d], now, inbox);
    var ticked := Ticked(sys.book.norm, received, now, o);
    InboxKept(sys.book, sys.records, d, sys.drones[d], now, inbox);
    TickFaithful(sys.book, sys.records, d, received, now, o);
    OutboxTrue(after.book, sys.records, d, ticked, now, o);
    SeenGrows(sys.book, d, received.controller, o);
    SameRecords(sys.records);
    RecordsStayKept(sys.book, after.book, sys.records);
    GroundStaysKept(sys.book, after.book, sys.records, sys.ground);
    MessagesStayTrue(sys.book, after.book, sys.records, sys.records, sys.sent);
    DronesStayKept(sys.book, after.book, sys.records, sys.records, sys.drones);
  }

  // ----- the ground's step -----

  lemma TelemetryKept(book: Logbook, records: Records, g: GroundSide, m: Message)
    requires GroundKept(book, records, g) && m.TelemetryMessage?
    ensures GroundKept(book, records, Hear(g, m))
  {
    HearOneKeepsValid(g, m);
  }

  lemma ProgressKept(book: Logbook, records: Records, s: State, d: Drone, report: ProgressReport)
    requires SupervisorKept(book, records, s)
    requires TrueReport(book, records, d, report.mission, report.index, report.complete)
    ensures var after := ObserveProgress(s, d, report.mission, report.index, report.complete);
      SupervisorKept(book, records, after) && after.reports == s.reports
      && (after.mission.Some? <==> s.mission.Some?)
      && (s.mission.Some? ==> after.mission.value.plan == s.mission.value.plan)
  {
  }

  lemma HeardKept(book: Logbook, records: Records, g: GroundSide, m: Message)
    requires GroundKept(book, records, g) && TrueMessage(book, records, m)
    ensures GroundKept(book, records, Hear(g, m))
  {
    if m.TelemetryMessage? {
      TelemetryKept(book, records, g, m);
    } else if m.ProgressMessage? {
      ProgressKept(book, records, g.supervisor, m.sender, m.report);
    }
  }

  lemma {:induction false} AllHeardKept(book: Logbook, records: Records, g: GroundSide, inbox: seq<Message>)
    requires GroundKept(book, records, g)
    requires forall m :: m in inbox ==> TrueMessage(book, records, m)
    ensures GroundKept(book, records, HearAll(g, inbox))
    ensures HearAll(g, inbox).active == g.active && HearAll(g, inbox).activeDrones == g.activeDrones
    decreases |inbox|
  {
    if inbox != [] {
      HeardKept(book, records, g, inbox[0]);
      AllHeardKept(book, records, Hear(g, inbox[0]), inbox[1..]);
    }
  }

  lemma {:induction false} AnnouncedBoth(active: Option<MissionId>, drones: seq<Drone>, a: seq<Action>, b: seq<Action>)
    ensures Announced(active, drones, a + b) == Announced(Announced(active, drones, a).0, Announced(active, drones, a).1, b)
    decreases |a|
  {
    if a == [] {
      assert a + b == b;
    } else {
      assert (a + b)[0] == a[0] && (a + b)[1..] == a[1..] + b;
      if a[0].ActiveMission? {
        AnnouncedBoth(a[0].active, a[0].drones, a[1..], b);
      } else {
        AnnouncedBoth(active, drones, a[1..], b);
      }
    }
  }

  /** Whatever was announced before it, the last announcement is the one that counts. */
  lemma LastAnnouncement(active: Option<MissionId>, drones: seq<Drone>, actions: seq<Action>, last: Action)
    requires last.ActiveMission?
    ensures Announced(active, drones, actions + [last]) == (last.active, last.drones)
  {
    AnnouncedBoth(active, drones, actions, [last]);
    assert [last][1..] == [];
  }

  lemma AnnouncedAfter(g: GroundSide, more: seq<Action>, last: Action)
    requires last.ActiveMission?
    ensures Announced(g.active, g.activeDrones, g.pending + (more + [last])) == (last.active, last.drones)
  {
    assert g.pending + (more + [last]) == (g.pending + more) + [last];
    LastAnnouncement(g.active, g.activeDrones, g.pending + more, last);
  }

  lemma NotedGrows(book: Logbook, records: Records, s: State)
    requires SupervisorKept(book, records, s) && RecordsKept(book, records)
    ensures RecordsGrow(records, NotedDecision(records, s)) && RecordsKept(book, NotedDecision(records, s))
    ensures SupervisorKept(book, NotedDecision(records, s), Reallocation.Reallocate(s).0)
  {
    if s.mission.Some? {
      var m := s.mission.value;
      Reallocation.MissionDronesQueued(s);
      Reallocation.ReallocateKeepsValid(s);
      SettlingKept(book, records[m.plan.id], s.reports, m, MissionDrones(s));
    }
  }

  lemma NotedRecorded(book: Logbook, records: Records, s: State)
    requires SupervisorKept(book, records, s) && RecordsKept(book, records)
    ensures AllRecorded(NotedDecision(records, s), Reallocation.Reallocate(s).1)
  {
    if s.mission.Some? {
      var m := s.mission.value;
      Reallocation.MissionDronesQueued(s);
      SettlingRecorded(book, NotedDecision(records, s), records[m.plan.id], s.reports, m, MissionDrones(s));
    }
  }

  lemma DecisionAnnounced(g: GroundSide)
    requires Valid(g.supervisor) && AnnouncementFits(g.supervisor, Announced(g.active, g.activeDrones, g.pending))
    ensures AnnouncementFits(Reallocation.Reallocate(g.supervisor).0,
                             Announced(g.active, g.activeDrones, g.pending + Reallocation.Reallocate(g.supervisor).1))
  {
    var s := g.supervisor;
    var (after, actions) := Reallocation.Reallocate(s);
    assert g.pending + [] == g.pending;
    if s.mission.Some? {
      Reallocation.MissionDronesQueued(s);
      var settled := Reallocation.Settle(s.reports, s.mission.value, MissionDrones(s));
      if settled.actions != [] {
        AnnouncedAfter(g, settled.actions, ActiveMission(Some(settled.mission.plan.id), MissionDrones(after)));
      }
    }
  }

  lemma ReallocatedKept(book: Logbook, records: Records, g: GroundSide, now: real)
    requires GroundKept(book, records, g) && RecordsKept(book, records) && ReallocationDue(g, now)
    ensures GroundKept(book, NotedDecision(records, g.supervisor), Reallocated(g, now))
  {
    var later := NotedDecision(records, g.supervisor);
    NotedGrows(book, records, g.supervisor);
    NotedRecorded(book, records, g.supervisor);
    DecisionAnnounced(g);
    ReadingsStayTrue(book, book, records, later, g.readings);
    ActionsStayRecorded(records, later, g.pending);
  }

  lemma MessagesTrue(book: Logbook, records: Records, actions: seq<Action>)
    requires AllRecorded(records, actions)
    ensures TrueMessages(book, records, MessageSet(MessagesFor(actions)))
  {
    forall m | m in MessagesFor(actions) ensures TrueMessage(book, records, m) {
      var a := Sender(actions, m);
      assert Recorded(records, a);
    }
  }

  lemma {:induction false} Sender(actions: seq<Action>, m: Message) returns (a: Action)
    requires m in MessagesFor(actions)
    ensures a in actions && MessageFor(a) == Some(m)
  {
    if MessageFor(actions[0]) == Some(m) {
      a := actions[0];
    } else {
      a := Sender(actions[1..], m);
    }
  }

  lemma FlushedKept(book: Logbook, records: Records, g: GroundSide)
    requires GroundKept(book, records, g)
    ensures GroundKept(book, records, Flushed(g))
    ensures HoldersNeeded(records, Flushed(g).active, Flushed(g).activeDrones)
  {
    var s := g.supervisor;
    if s.mission.Some? {
      var m := s.mission.value;
      Reallocation.MissionDronesQueued(s);
      var r := records[m.plan.id];
      forall o | o in r.lanes ensures exists d :: d in MissionDrones(s) && r.lanes[o].HeldBy(d) {
        var d :| d in m.plan.paths && r.lanes[o].HeldBy(d);
        assert d in m.plan.Drones();
      }
    }
  }

  lemma GroundStepKept(sys: System, now: real, inbox: seq<Message>)
    requires Kept(sys) && Allowed(sys, GroundStep(now, inbox))
    ensures Kept(GroundStepped(sys, now, inbox))
  {
    var heard := HearAll(sys.ground, inbox);
    HearingKeepsValid(sys.ground, inbox);
    assert forall m :: m in inbox ==> TrueMessage(sys.book, sys.records, m);
    AllHeardKept(sys.book, sys.records, sys.ground, inbox);
    var decided := Reallocated(heard, now);
    SameRecords(sys.records);
    if ReallocationDue(heard, now) {
      NotedGrows(sys.book, sys.records, heard.supervisor);
      ReallocatedKept(sys.book, sys.records, heard, now);
    }
    SentOut(sys, decided, GroundStepped(sys, now, inbox).records);
  }

  lemma SentOut(sys: System, decided: GroundSide, records: Records)
    requires Kept(sys) && RecordsGrow(sys.records, records) && RecordsKept(sys.book, records)
    requires GroundKept(sys.book, records, decided)
    ensures Kept(sys.(ground := Flushed(decided), sent := sys.sent + MessageSet(MessagesFor(decided.pending)), records := records))
  {
    FlushedKept(sys.book, records, decided);
    MessagesTrue(sys.book, records, decided.pending);
    MessagesStayTrue(sys.book, sys.book, sys.records, records, sys.sent);
    DronesStayKept(sys.book, sys.book, sys.records, records, sys.drones);
  }

  // ----- requests and commands -----

  lemma BegunRecorded(records: Records, s: State, plan: Plan)
    requires Flyable(plan) && plan.id in records && records[plan.id] == FirstRecord(plan)
    ensures AllRecorded(records, Began(s, plan).1)
  {
    OrdersRecorded(records, s.reports.fleet, plan);
  }

  lemma BegunAnnounced(g: GroundSide, plan: Plan)
    ensures var (after, actions) := Began(g.supervisor, plan);
      AnnouncementFits(after, Announced(g.active, g.activeDrones, g.pending + actions))
  {
    var s := g.supervisor;
    var recalled := Recall(Pick(s.reports.fleet, Members(MissionDrones(s)) - plan.Drones()), Rtl);
    AnnouncedAfter(g, recalled + Orders(s.reports.fleet, plan), ActiveMission(Some(plan.id), MissionDrones(Began(s, plan).0)));
  }

  lemma NewRecord(book: Logbook, records: Records, plan: Plan)
    requires RecordsKept(book, records) && plan.id !in records && Flyable(plan)
    ensures var later := records[plan.id := FirstRecord(plan)];
      RecordsKept(book, later) && RecordsGrow(records, later)
  {
    BeginsKept(book, plan);
    SameRecords(records);
  }

  lemma BegunKept(book: Logbook, records: Records, later: Records, g: GroundSide, plan: Plan)
    requires GroundKept(book, records, g) && RecordsGrow(records, later)
    requires plan.id in later && later[plan.id] == FirstRecord(plan)
    requires ValidMission(Mission(plan, map[], {}, {}), g.supervisor.reports.fleet)
    ensures GroundKept(book, later, Submitted(g, Began(g.supervisor, plan)))
  {
    BeginsKept(book, plan);
    BegunRecorded(later, g.supervisor, plan);
    BegunAnnounced(g, plan);
    ReadingsStayTrue(book, book, records, later, g.readings);
    ActionsStayRecorded(records, later, g.pending);
  }

  lemma AcceptedKept(sys: System, plan: Plan)
    requires Kept(sys) && plan.id !in sys.records
    requires ValidMission(Mission(plan, map[], {}, {}), sys.ground.supervisor.reports.fleet)
    ensures Kept(sys.(ground := Submitted(sys.ground, Began(sys.ground.supervisor, plan)),
                      records := sys.records[plan.id := FirstRecord(plan)]))
  {
    var later := sys.records[plan.id := FirstRecord(plan)];
    NewRecord(sys.book, sys.records, plan);
    BegunKept(sys.book, sys.records, later, sys.ground, plan);
    MessagesStayTrue(sys.book, sys.book, sys.records, later, sys.sent);
    DronesStayKept(sys.book, sys.book, sys.records, later, sys.drones);
  }

  lemma RequestKept(sys: System, message: MissionMessage, planned: Planned)
    requires Kept(sys) && message.id !in sys.records
    ensures Kept(Requested(sys, message, planned))
  {
    var s := sys.ground.supervisor;
    assert sys.ground.pending + [] == sys.ground.pending;
    if MissionBegun(s, message, planned) {
      PlanIsValid(s.reports, message, planned);
      var plan := PlanFor(s.reports, message, planned).value;
      AcceptedKept(sys, plan);
    } else {
      RejectionKept(sys, [Rejected(message.id)]);
    }
  }

  lemma RejectionKept(sys: System, rejection: seq<Action>)
    requires Kept(sys) && |rejection| == 1 && rejection[0].Rejected?
    ensures Kept(sys.(ground := Submitted(sys.ground, (sys.ground.supervisor, rejection))))
  {
    AnnouncedBoth(sys.ground.active, sys.ground.activeDrones, sys.ground.pending, rejection);
  }

  lemma OrderKept(sys: System, command: Command)
    requires Kept(sys)
    ensures Kept(sys.(ground := Submitted(sys.ground, CommandAll(sys.ground.supervisor, command))))
  {
    var fleet := sys.ground.supervisor.reports.fleet;
    AnnouncedAfter(sys.ground, Recall(fleet, command), ActiveMission(None, []));
  }

  lemma NextKept(sys: System, e: Event)
    requires Kept(sys) && Allowed(sys, e)
    ensures Kept(Next(sys, e))
  {
    match e
    case Request(message, planned) => RequestKept(sys, message, planned);
    case Order(command) => OrderKept(sys, command);
    case GroundStep(now, inbox) => GroundStepKept(sys, now, inbox);
    case DroneStep(d, now, o, inbox) => DroneStepKept(sys, d, now, o, inbox);
  }

  // ----- whole runs -----

  ghost predicate Initial(sys: System) {
    && Valid(sys.ground.supervisor) && sys.ground.supervisor.mission.None?
    && sys.ground.pending == [] && sys.ground.active.None?
    && (forall d :: d in sys.ground.readings ==> sys.ground.readings[d] == UNREAD)
    && sys.sent == {} && sys.records == map[]
    && forall d :: d in sys.drones ==>
      && sys.drones[d].id == d
      && sys.drones[d].controller.settings.maxStep > 0.0
      && sys.drones[d].controller.settings.tolerance == sys.book.tolerance
      && sys.drones[d].controller.task.NoTask? && sys.drones[d].controller.mission.None?
  }

  lemma NextConfigured(sys: System, e: Event)
    requires Configured(sys) && Allowed(sys, e)
    ensures Configured(Next(sys, e))
  {
    match e
    case Request(message, planned) => SupervisorRuns.BeganIsValid(sys.ground.supervisor, message, planned);
    case Order(command) =>
    case GroundStep(now, inbox) =>
      HearingKeepsValid(sys.ground, inbox);
      Reallocation.ReallocateKeepsValid(HearAll(sys.ground, inbox).supervisor);
    case DroneStep(d, now, o, inbox) =>
  }

  ghost predicate IsStep(before: System, e: Event, after: System) {
    Configured(before) && Allowed(before, e) && after == Next(before, e)
  }

  /** The states a system goes through as events happen to it. */
  ghost predicate IsRun(trace: seq<System>, events: seq<Event>) {
    && |trace| == |events| + 1
    && forall k {:trigger events[k]} :: 0 <= k < |events| ==> IsStep(trace[k], events[k], trace[k + 1])
  }

  /** A run is never stuck: whatever is allowed can happen next. */
  lemma RunGoesOn(trace: seq<System>, events: seq<Event>, e: Event)
    requires IsRun(trace, events) && Configured(trace[|events|]) && Allowed(trace[|events|], e)
    ensures IsRun(trace + [Next(trace[|events|], e)], events + [e])
    ensures Configured(Next(trace[|events|], e))
  {
    NextConfigured(trace[|events|], e);
  }

  lemma {:induction false} RunKept(trace: seq<System>, events: seq<Event>, k: nat)
    requires IsRun(trace, events) && Kept(trace[0]) && k <= |events|
    ensures Kept(trace[k])
  {
    if k > 0 {
      RunKept(trace, events, k - 1);
      assert IsStep(trace[k - 1], events[k - 1], trace[k]);
      NextKept(trace[k - 1], events[k - 1]);
    }
  }

  /** Once the last holder of a lane has flown what it was given, the whole route was reached: what it was not
      given, by an earlier holder. */
  lemma LaneFlown(book: Logbook, id: MissionId, tasks: map<Drone, Role>, lane: Lane, holder: Drone)
    requires LaneKept(book, id, tasks, lane) && lane.HeldBy(holder)
    requires Passed(book, holder, id, lane.route[lane.start..], |lane.route| - lane.start)
    ensures forall k :: 0 <= k < |lane.route| ==> Reached(book, lane.holders, id, lane.route[k])
  {
    forall k | lane.start <= k < |lane.route| ensures Reached(book, lane.holders, id, lane.route[k]) {
      assert lane.route[lane.start..][k - lane.start] == lane.route[k];
      assert Visited(book, holder, id, lane.route[k]);
    }
  }

  /** If the ground reports its active mission complete, then every waypoint of every path of the plan that was
      accepted for it was visited, within tolerance and while flying its lane of that mission, by one of the drones
      that have held that path: the one it was first given to, and those it was handed on to. */
  ghost predicate ReportIsTrue(sys: System) {
    ReportsComplete(sys.ground) ==>
      && sys.ground.active.value in sys.records
      && var id, r := sys.ground.active.value, sys.records[sys.ground.active.value];
         forall o, k :: o in r.plan.paths && 0 <= k < |r.plan.paths[o]| ==>
           && o in r.lanes && r.lanes[o].holders != [] && r.lanes[o].holders[0] == o
           && Reached(sys.book, r.lanes[o].holders, id, r.plan.paths[o][k])
  }

  lemma KeptIsTrue(sys: System)
    requires Kept(sys)
    ensures ReportIsTrue(sys)
  {
    if ReportsComplete(sys.ground) {
      var id := sys.ground.active.value;
      var r := sys.records[id];
      assert RecordKept(sys.book, id, r);
      forall o | o in r.plan.paths
        ensures o in r.lanes && r.lanes[o].holders != [] && r.lanes[o].holders[0] == o
        ensures forall k :: 0 <= k < |r.plan.paths[o]| ==> Reached(sys.book, r.lanes[o].holders, id, r.plan.paths[o][k])
      {
        var holder :| holder in sys.ground.activeDrones && r.lanes[o].HeldBy(holder);
        var reading := sys.ground.readings[holder];
        assert TrueReport(sys.book, sys.records, holder, reading.mission, reading.index, reading.complete);
        assert LaneKept(sys.book, id, r.tasks, r.lanes[o]);
        LaneFlown(sys.book, id, r.tasks, r.lanes[o], holder);
      }
    }
  }

  /** "Complete" never lies: at any moment of any run, whatever the network does with the messages, and whatever
      is requested, commanded, planned and observed. */
  lemma CompleteIsHonest(trace: seq<System>, events: seq<Event>)
    requires IsRun(trace, events) && Initial(trace[0])
    ensures forall k :: 0 <= k < |trace| ==> ReportIsTrue(trace[k])
  {
    InitiallyKept(trace[0]);
    forall k | 0 <= k < |trace| ensures ReportIsTrue(trace[k]) {
      RunKept(trace, events, k);
      KeptIsTrue(trace[k]);
    }
  }

  lemma InitiallyKept(sys: System)
    requires Initial(sys)
    ensures Kept(sys)
  {
  }

  /** After any chain of hand-overs, whoever holds a lane flies a non-empty rest of its route, and every
      waypoint before that was reached by an earlier holder: no waypoint is lost. */
  lemma NoWaypointLost(trace: seq<System>, events: seq<Event>, end: System, o: Drone)
    requires IsRun(trace, events) && Initial(trace[0]) && end == trace[|events|]
    requires end.ground.supervisor.mission.Some? && end.ground.supervisor.mission.value.plan.id in end.records
    requires o in end.records[end.ground.supervisor.mission.value.plan.id].plan.paths
    ensures var plan := end.ground.supervisor.mission.value.plan;
      var route, r := end.records[plan.id].plan.paths[o], end.records[plan.id];
      && o in r.lanes && r.lanes[o].route == route && r.lanes[o].start < |route|
      && (exists d :: d in plan.paths && r.lanes[o].HeldBy(d) && plan.paths[d] == route[r.lanes[o].start..])
      && forall k :: 0 <= k < r.lanes[o].start ==> Reached(end.book, r.lanes[o].holders, plan.id, route[k])
  {
    InitiallyKept(trace[0]);
    RunKept(trace, events, |events|);
    var plan := end.ground.supervisor.mission.value.plan;
    var r := end.records[plan.id];
    assert RecordKept(end.book, plan.id, r) && LaneKept(end.book, plan.id, r.tasks, r.lanes[o]);
    var d :| d in plan.paths && r.lanes[o].HeldBy(d);
    assert r.tasks[d] == RoleIn(plan, d);
  }
}
