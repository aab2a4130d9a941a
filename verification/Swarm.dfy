/** What the swarm's software does on both sides of the network (scenarios/sut.py, swarm_state.py): one
    controller per drone, one supervisor on the ground, and the messages between them. The classes in
    ReferenceSwarm.dfy are proved to do exactly this. */
module Swarm {

  import opened Wrappers
  import opened Geometry
  import opened Fleet
  import opened Lists
  import opened Planning
  import opened Supervision
  import opened DroneControl
  import Reallocation
  import Offboard

  datatype Message =
    | AssignmentMessage(to: Drone, mission: MissionId, waypoints: seq<Vec>)
    | SlotMessage(to: Drone, mission: MissionId, slot: Slot)
    | CommandMessage(to: Drone, command: Command)
    | PoseMessage(sender: Drone, position: Vec)
    | ProgressMessage(sender: Drone, report: ProgressReport)
    | TelemetryMessage(sender: Drone, where: Option<Vec>, armed: bool, battery: Option<real>)

  /** May this message be delivered to a drone? */
  predicate ForDrone(m: Message, d: Drone) {
    match m
    case AssignmentMessage(to, _, _) => to == d
    case SlotMessage(to, _, _) => to == d
    case CommandMessage(to, _) => to == d
    case PoseMessage(sender, _) => sender != d
    case ProgressMessage(sender, _) => sender != d
    case TelemetryMessage(_, _, _, _) => false
  }

  // ----- the drone's side -----

  datatype DroneSide = DroneSide(
    id: Drone, controller: Controller, leader: Option<Drone>, leaderPosition: Option<Vec>, leaderHeard: Option<real>,
    lastProgress: Option<ProgressReport>, progressSent: Option<real>)

  datatype Observation = Observation(position: Option<Vec>, armed: bool, mode: Offboard.Mode, battery: Option<real>)

  const PROGRESS_PERIOD := 1.0

  function Following(d: DroneSide, leader: Option<Drone>): DroneSide {
    if leader != d.leader then d.(leader := leader, leaderPosition := None, leaderHeard := None) else d
  }

  function Receive(d: DroneSide, now: real, m: Message): (after: DroneSide)
    ensures after.id == d.id && after.controller.settings == d.controller.settings
  {
    match m
    case AssignmentMessage(_, mission, waypoints) =>
      var begun := PathAssigned(d.controller, mission, waypoints);
      if begun.None? then d else Following(d.(controller := begun.value), None)
    case SlotMessage(_, mission, slot) =>
      Following(d.(controller := SlotAssigned(d.controller, mission, slot)), Some(slot.leader))
    case CommandMessage(_, command) => Following(d.(controller := Commanded(d.controller, command)), None)
    case PoseMessage(sender, position) =>
      if d.leader == Some(sender) then d.(leaderPosition := Some(position), leaderHeard := Some(now)) else d
    case ProgressMessage(sender, report) =>
      if d.leader == Some(sender) && report.complete && report.mission.Some?
      then d.(controller := LeaderDone(d.controller, report.mission.value)) else d
    case TelemetryMessage(_, _, _, _) => d
  }

  function ReceiveAll(d: DroneSide, now: real, inbox: seq<Message>): (after: DroneSide)
    ensures after.id == d.id && after.controller.settings == d.controller.settings
    decreases |inbox|
  {
    if inbox == [] then d else ReceiveAll(Receive(d, now, inbox[0]), now, inbox[1..])
  }

  function SensedBy(d: DroneSide, now: real, o: Observation): Sensed {
    Sensed(now, o.position, Some(o.armed), Some(o.mode), d.leaderPosition, d.leaderHeard)
  }

  predicate ProgressDue(d: DroneSide, now: real, report: ProgressReport) {
    Some(report) != d.lastProgress || d.progressSent.None? || now - d.progressSent.value >= PROGRESS_PERIOD
  }

  function Outbox(d: DroneSide, now: real, o: Observation): seq<Message> {
    (if o.position.Some? then [PoseMessage(d.id, o.position.value)] else []) +
    (if ProgressDue(d, now, ProgressOf(d.controller)) then [ProgressMessage(d.id, ProgressOf(d.controller))] else []) +
    [TelemetryMessage(d.id, o.position, o.armed, o.battery)]
  }

  function Reported(d: DroneSide, now: real): DroneSide {
    if ProgressDue(d, now, ProgressOf(d.controller)) then
      d.(lastProgress := Some(ProgressOf(d.controller)), progressSent := Some(now))
    else d
  }

  function Ticked(norm: Norm, d: DroneSide, now: real, o: Observation): DroneSide
    requires d.controller.settings.maxStep > 0.0
  {
    d.(controller := Tick(norm, d.controller, SensedBy(d, now, o)).0)
  }

  // ----- the ground's side -----

  datatype Reading = Reading(armed: Option<bool>, mission: Option<MissionId>, index: Option<nat>, count: Option<nat>,
                             complete: bool)

  const UNREAD := Reading(None, None, None, None, false)

  datatype GroundSide = GroundSide(
    supervisor: State, readings: map<Drone, Reading>, pending: seq<Action>, active: Option<MissionId>,
    activeDrones: seq<Drone>, reallocated: Option<real>)

  const REALLOCATION_PERIOD := 1.0

  function Hear(g: GroundSide, m: Message): GroundSide {
    match m
    case TelemetryMessage(sender, position, armed, battery) =>
      if sender !in g.readings then g
      else g.(readings := g.readings[sender := g.readings[sender].(armed := Some(armed))],
              supervisor := ObserveBattery(g.supervisor, sender, battery))
    case ProgressMessage(sender, report) =>
      if sender !in g.readings then g
      else g.(readings := g.readings[sender :=
                Reading(g.readings[sender].armed, report.mission, report.index, report.count, report.complete)],
              supervisor := ObserveProgress(g.supervisor, sender, report.mission, report.index, report.complete))
    case _ => g
  }

  function HearAll(g: GroundSide, inbox: seq<Message>): GroundSide
    decreases |inbox|
  {
    if inbox == [] then g else HearAll(Hear(g, inbox[0]), inbox[1..])
  }

  /** What one decision becomes: a message, or a change to what is announced. */
  function MessageFor(action: Action): Option<Message> {
    match action
    case Assign(d, mission, waypoints) => Some(AssignmentMessage(d, mission, waypoints))
    case TakeSlot(d, mission, slot) => Some(SlotMessage(d, mission, slot))
    case Send(d, command) => Some(CommandMessage(d, command))
    case _ => None
  }

  function MessagesFor(actions: seq<Action>): seq<Message> {
    if actions == [] then []
    else (if MessageFor(actions[0]).Some? then [MessageFor(actions[0]).value] else []) + MessagesFor(actions[1..])
  }

  /** The mission announced, and the drones it needs, once these actions are carried out. */
  function Announced(active: Option<MissionId>, drones: seq<Drone>, actions: seq<Action>): (Option<MissionId>,
                     seq<Drone>)
    decreases |actions|
  {
    if actions == [] then (active, drones)
    else if actions[0].ActiveMission? then Announced(actions[0].active, actions[0].drones, actions[1..])
    else Announced(active, drones, actions[1..])
  }

  predicate ReallocationDue(g: GroundSide, now: real) {
    g.reallocated.None? || now - g.reallocated.value >= REALLOCATION_PERIOD
  }

  ghost function Reallocated(g: GroundSide, now: real): GroundSide
    requires Valid(g.supervisor)
  {
    if ReallocationDue(g, now) then
      var (supervisor, actions) := Reallocation.Reallocate(g.supervisor);
      g.(supervisor := supervisor, pending := g.pending + actions, reallocated := Some(now))
    else g
  }

  function Flushed(g: GroundSide): GroundSide {
    var (active, drones) := Announced(g.active, g.activeDrones, g.pending);
    g.(pending := [], active := active, activeDrones := drones)
  }

  function Submitted(g: GroundSide, outcome: (State, seq<Action>)): GroundSide {
    g.(supervisor := outcome.0, pending := g.pending + outcome.1)
  }

  /** Every drone the mission needs has finished its part of it and is back on the ground. */
  predicate MissionComplete(readings: map<Drone, Reading>, mission: MissionId, drones: seq<Drone>) {
    && drones != []
    && forall d :: d in drones ==>
      && d in readings && readings[d].mission == Some(mission) && readings[d].complete && readings[d].armed == Some(false)
  }

  predicate ReportsComplete(g: GroundSide) {
    g.active.Some? && MissionComplete(g.readings, g.active.value, g.activeDrones)
  }
}
