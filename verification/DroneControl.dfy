/** Everything one drone decides (drone_controller.py, waypoints.py, commands.py).

  `Controller` is the state of a `DroneController`; the class, in DroneControllers.dfy, is proved to do what
  the functions on that state say, tick by tick, and the lemmas are about whole runs of ticks and messages.
 */
module DroneControl {

  import opened Wrappers
  import opened Geometry
  import opened Fleet
  import opened Planning
  import opened Supervision
  import Trajectory
  import Offboard

  type Mode = Offboard.Mode

  datatype Settings = Settings(tolerance: real, maxStep: real, retryInterval: real, commsTimeout: real)

  datatype Queue = Queue(waypoints: seq<Vec>, index: nat)
  {
    predicate Complete() {
      index >= |waypoints|
    }
  }

  datatype Task =
    | NoTask
    | Path(queue: Queue)
    | Follow(leader: Drone, offset: Vec, leaderDone: bool)

  datatype Controller = Controller(
    settings: Settings, offboard: Offboard.Sequencer, mission: Option<MissionId>, task: Task,
    handover: Option<Mode>, lastHandover: Option<real>, complete: bool)

  datatype Output = Output(setpoint: Option<Vec>, requestMode: Option<Mode>, requestArm: bool)

  const NOTHING := Output(None, None, false)

  datatype ProgressReport = ProgressReport(mission: Option<MissionId>, index: Option<nat>, count: Option<nat>,
                                           complete: bool)

  /** What a controller reads on a tick. */
  datatype Sensed = Sensed(
    now: real, position: Option<Vec>, armed: Option<bool>, mode: Option<Mode>,
    leaderPosition: Option<Vec>, leaderHeard: Option<real>)

  // ----- the waypoint queue -----

  predicate Arrived(norm: Norm, tolerance: real, queue: Queue, position: Vec) {
    queue.index < |queue.waypoints| && Dist(norm, position, queue.waypoints[queue.index]) <= tolerance
  }

  function Advanced(norm: Norm, tolerance: real, queue: Queue, position: Vec): Queue {
    if Arrived(norm, tolerance, queue, position) then queue.(index := queue.index + 1) else queue
  }

  // ----- inputs -----

  function ModeFor(command: Command): Mode {
    match command
    case Rtl => Offboard.AUTO_RTL
    case Land => Offboard.AUTO_LAND
    case Hold => Offboard.AUTO_LOITER
  }

  function Begun(c: Controller, mission: MissionId, task: Task): Controller {
    c.(mission := Some(mission), task := task, handover := None, complete := false, offboard := Offboard.Started(c.offboard))
  }

  /** None where the source raises: a path needs at least one waypoint. */
  function PathAssigned(c: Controller, mission: MissionId, waypoints: seq<Vec>): Option<Controller> {
    if waypoints == [] then None else Some(Begun(c, mission, Path(Queue(waypoints, 0))))
  }

  function SlotAssigned(c: Controller, mission: MissionId, slot: Slot): Controller {
    Begun(c, mission, Follow(slot.leader, slot.offset, false))
  }

  function LeaderDone(c: Controller, mission: MissionId): Controller {
    if c.mission == Some(mission) && c.task.Follow? then c.(task := c.task.(leaderDone := true)) else c
  }

  function HandedOverTo(c: Controller, mode: Mode): Controller {
    c.(offboard := c.offboard.(phase := Offboard.Released), handover := Some(mode), lastHandover := None)
  }

  function Commanded(c: Controller, command: Command): Controller {
    HandedOverTo(c, ModeFor(command)).(complete := false)
  }

  function ProgressOf(c: Controller): ProgressReport {
    if c.task.Path? then
      var count := |c.task.queue.waypoints|;
      ProgressReport(c.mission, Some(if c.task.queue.index < count then c.task.queue.index else count), Some(count), c.complete)
    else ProgressReport(c.mission, None, None, c.complete)
  }

  // ----- the control loop -----

  /** Keeps asking for the mode until the autopilot reports it, or has disarmed. */
  function KeepHandingOver(c: Controller, sensed: Sensed): (Controller, Output)
    requires c.handover.Some?
  {
    if sensed.mode == c.handover || sensed.armed == Some(false) then (c, NOTHING)
    else if c.lastHandover.None? || sensed.now - c.lastHandover.value >= c.settings.retryInterval then
      (c.(lastHandover := Some(sensed.now)), Output(None, c.handover, false))
    else (c, NOTHING)
  }

  predicate LeaderLost(c: Controller, sensed: Sensed) {
    c.task.Follow? && sensed.leaderHeard.Some? && sensed.now - sensed.leaderHeard.value > c.settings.commsTimeout
  }

  /** The controller with its queue advanced, and where it wants to go, if it knows. */
  function Target(norm: Norm, c: Controller, position: Vec, sensed: Sensed): (Controller, Option<Vec>)
    requires c.settings.maxStep > 0.0
  {
    match c.task
    case NoTask => (c, None)
    case Path(queue) =>
      var advanced := Advanced(norm, c.settings.tolerance, queue, position);
      (c.(task := Path(advanced)),
       Some(if advanced.Complete() then position
            else Trajectory.Towards(norm, position, advanced.waypoints[advanced.index], c.settings.maxStep)))
    case Follow(leader, offset, leaderDone) =>
      (c, if sensed.leaderPosition.Some? then Some(sensed.leaderPosition.value.Add(offset)) else None)
  }

  predicate TaskDone(c: Controller) {
    match c.task
    case NoTask => false
    case Path(queue) => queue.Complete()
    case Follow(leader, offset, leaderDone) => leaderDone
  }

  function Tick(norm: Norm, c: Controller, sensed: Sensed): (Controller, Output)
    requires c.settings.maxStep > 0.0
  {
    if c.handover.Some? then KeepHandingOver(c, sensed)
    else if sensed.position.None? || c.task.NoTask? then (c, NOTHING)
    else if LeaderLost(c, sensed) then KeepHandingOver(HandedOverTo(c, Offboard.AUTO_RTL), sensed)
    else
      var (aimed, target) := Target(norm, c, sensed.position.value, sensed);
      if target.None? then (aimed, NOTHING)
      else if TaskDone(aimed) then KeepHandingOver(HandedOverTo(aimed.(complete := true), Offboard.AUTO_LAND), sensed)
      else
        var (offboard, step) := Offboard.Step(aimed.offboard, sensed.now, sensed.armed, sensed.mode);
        (aimed.(offboard := offboard),
         if offboard.phase.Released? then NOTHING
         else Output(if step.stream then target else None,
                     if step.requestOffboard then Some(Offboard.OFFBOARD) else None,
                     step.requestArm))
  }

  // ----- whole runs -----

  datatype Input =
    | Sense(sensed: Sensed)
    | GetPath(mission: MissionId, waypoints: seq<Vec>)
    | GetSlot(mission: MissionId, slot: Slot)
    | GetCommand(command: Command)
    | HearFinished(mission: MissionId)

  function React(norm: Norm, c: Controller, i: Input): (Controller, Output)
    requires c.settings.maxStep > 0.0
    ensures React(norm, c, i).0.settings == c.settings
  {
    match i
    case Sense(sensed) => Tick(norm, c, sensed)
    case GetPath(mission, waypoints) =>
      (if waypoints == [] then c else PathAssigned(c, mission, waypoints).value, NOTHING)
    case GetSlot(mission, slot) => (SlotAssigned(c, mission, slot), NOTHING)
    case GetCommand(command) => (Commanded(c, command), NOTHING)
    case HearFinished(mission) => (LeaderDone(c, mission), NOTHING)
  }

  function Run(norm: Norm, c: Controller, inputs: seq<Input>): Controller
    requires c.settings.maxStep > 0.0
    decreases |inputs|
  {
    if inputs == [] then c else Run(norm, React(norm, c, inputs[0]).0, inputs[1..])
  }

  function Outputs(norm: Norm, c: Controller, inputs: seq<Input>): (outputs: seq<Output>)
    requires c.settings.maxStep > 0.0
    ensures |outputs| == |inputs|
    decreases |inputs|
  {
    if inputs == [] then [] else [React(norm, c, inputs[0]).1] + Outputs(norm, React(norm, c, inputs[0]).0, inputs[1..])
  }

  /** The autopilot has the vehicle, in a mode that is not OFFBOARD. */
  ghost predicate HandedOff(c: Controller) {
    c.handover.Some? && c.handover != Some(Offboard.OFFBOARD)
  }

  predicate Assignment(i: Input) {
    i.GetPath? || i.GetSlot?
  }

  ghost predicate NoAssignment(inputs: seq<Input>) {
    forall k :: 0 <= k < |inputs| ==> !Assignment(inputs[k])
  }

  ghost predicate Quiet(out: Output) {
    out.setpoint.None? && out.requestMode != Some(Offboard.OFFBOARD) && !out.requestArm
  }

  /** What hands a vehicle over: a command, the leader lost for too long, or the task done. */
  lemma HandoverCauses(norm: Norm, c: Controller, i: Input)
    requires c.settings.maxStep > 0.0 && c.handover.None?
    ensures React(norm, c, i).0.handover.Some? <==>
      || i.GetCommand?
      || (i.Sense? && i.sensed.position.Some? && !c.task.NoTask? &&
           (LeaderLost(c, i.sensed) ||
            (var (aimed, target) := Target(norm, c, i.sensed.position.value, i.sensed); target.Some? && TaskDone(aimed))))
    ensures React(norm, c, i).0.handover.Some? ==> HandedOff(React(norm, c, i).0) && Quiet(React(norm, c, i).1)
  {
  }

  /** Handing over is final: until the next assignment no tick emits a setpoint, asks for OFFBOARD or
      asks to arm, and the vehicle stays handed over, whoever is heard from again. */
  lemma {:induction false} HandoverIsFinal(norm: Norm, c: Controller, inputs: seq<Input>, k: nat)
    requires c.settings.maxStep > 0.0 && HandedOff(c) && NoAssignment(inputs) && k < |inputs|
    ensures Quiet(Outputs(norm, c, inputs)[k])
    ensures HandedOff(Run(norm, c, inputs))
    decreases |inputs|
  {
    assert !Assignment(inputs[0]);
    if |inputs| > 1 {
      HandoverIsFinal(norm, React(norm, c, inputs[0]).0, inputs[1..], if k > 0 then k - 1 else 0);
    }
  }

  /** The times of the ticks, in order from `since`. */
  ghost predicate Timed(since: real, inputs: seq<Input>)
    decreases |inputs|
  {
    inputs != [] ==>
      if inputs[0].Sense? then since <= inputs[0].sensed.now && Timed(inputs[0].sensed.now, inputs[1..])
      else Timed(since, inputs[1..])
  }

  ghost predicate NoCommand(inputs: seq<Input>) {
    forall k :: 0 <= k < |inputs| ==> !Assignment(inputs[k]) && !inputs[k].GetCommand?
  }

  lemma {:induction false} NextModeRequestWaits(norm: Norm, c: Controller, inputs: seq<Input>, last: real, since: real,
                                                k: nat)
    requires c.settings.maxStep > 0.0 && HandedOff(c) && NoCommand(inputs)
    requires c.lastHandover.Some? && c.lastHandover.value >= last
    requires Timed(since, inputs) && last <= since && k < |inputs|
    requires Outputs(norm, c, inputs)[k].requestMode.Some?
    ensures inputs[k].Sense? && inputs[k].sensed.now - last >= c.settings.retryInterval
    decreases k
  {
    assert !Assignment(inputs[0]) && !inputs[0].GetCommand?;
    if k > 0 {
      var later := if inputs[0].Sense? then inputs[0].sensed.now else since;
      NextModeRequestWaits(norm, React(norm, c, inputs[0]).0, inputs[1..], last, later, k - 1);
    }
  }

  /** One handover's mode is asked for no more than once in an interval. */
  lemma {:induction false} ModeRequestsSpaced(norm: Norm, c: Controller, inputs: seq<Input>, since: real, i: nat,
                                              j: nat)
    requires c.settings.maxStep > 0.0 && HandedOff(c) && NoCommand(inputs) && Timed(since, inputs)
    requires i < j < |inputs|
    requires Outputs(norm, c, inputs)[i].requestMode.Some? && Outputs(norm, c, inputs)[j].requestMode.Some?
    ensures inputs[i].Sense? && inputs[j].Sense?
    ensures inputs[j].sensed.now - inputs[i].sensed.now >= c.settings.retryInterval
    decreases i
  {
    assert !Assignment(inputs[0]) && !inputs[0].GetCommand?;
    var next := React(norm, c, inputs[0]).0;
    if i == 0 {
      NextModeRequestWaits(norm, next, inputs[1..], inputs[0].sensed.now, inputs[0].sensed.now, j - 1);
    } else {
      ModeRequestsSpaced(norm, next, inputs[1..], if inputs[0].Sense? then inputs[0].sensed.now else since, i - 1, j - 1);
    }
  }

  /** At every tick the leader was heard within the timeout, or not yet at all. */
  ghost predicate LeaderKept(timeout: real, inputs: seq<Input>) {
    forall k :: 0 <= k < |inputs| && inputs[k].Sense? && inputs[k].sensed.leaderHeard.Some? ==>
      inputs[k].sensed.now - inputs[k].sensed.leaderHeard.value <= timeout
  }

  ghost predicate NoRtl(inputs: seq<Input>) {
    forall k :: 0 <= k < |inputs| ==> inputs[k] != GetCommand(Rtl)
  }

  /** A drone whose leader is heard often enough never goes home by itself. */
  lemma {:induction false} KeptLeaderNoReturn(norm: Norm, c: Controller, inputs: seq<Input>)
    requires c.settings.maxStep > 0.0 && c.handover != Some(Offboard.AUTO_RTL)
    requires LeaderKept(c.settings.commsTimeout, inputs) && NoRtl(inputs)
    ensures Run(norm, c, inputs).handover != Some(Offboard.AUTO_RTL)
    decreases |inputs|
  {
    if inputs != [] {
      assert inputs[0] != GetCommand(Rtl);
      var next := React(norm, c, inputs[0]).0;
      if inputs[0].Sense? {
        assert !LeaderLost(c, inputs[0].sensed);
      }
      KeptLeaderNoReturn(norm, next, inputs[1..]);
    }
  }
}
