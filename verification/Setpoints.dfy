/** Where a drone is told to go (drone_controller.py, sut.py): over whole runs of ticks and messages, every setpoint is a
    step towards the current waypoint of the path last assigned, or the place of the slot last assigned behind where the
    leader was last heard. */
module Setpoints {

  import opened Wrappers
  import opened Geometry
  import opened Fleet
  import opened Planning
  import opened Supervision
  import opened DroneControl
  import opened Swarm
  import Trajectory
  import Offboard

  // ----- the task last assigned -----

  /** What was assigned last: a path that is not empty, or a slot. */
  datatype Given = Nothing | Waypoints(mission: MissionId, path: seq<Vec>) | Place(mission: MissionId, slot: Slot)

  function GivenBy(given: Given, i: Input): Given {
    match i
    case GetPath(mission, waypoints) => if waypoints == [] then given else Waypoints(mission, waypoints)
    case GetSlot(mission, slot) => Place(mission, slot)
    case _ => given
  }

  function LastGiven(given: Given, inputs: seq<Input>): Given
    decreases |inputs|
  {
    if inputs == [] then given else LastGiven(GivenBy(given, inputs[0]), inputs[1..])
  }

  /** The controller works on what it was given. */
  predicate WorksOn(c: Controller, given: Given) {
    match given
    case Nothing => c.task.NoTask?
    case Waypoints(mission, path) => c.mission == Some(mission) && c.task.Path? && c.task.queue.waypoints == path
    case Place(mission, slot) =>
      c.mission == Some(mission) && c.task.Follow? && c.task.leader == slot.leader && c.task.offset == slot.offset
  }

  lemma {:induction false} WorksOnLast(norm: Norm, c: Controller, given: Given, inputs: seq<Input>)
    requires c.settings.maxStep > 0.0 && WorksOn(c, given)
    ensures WorksOn(Run(norm, c, inputs), LastGiven(given, inputs))
    decreases |inputs|
  {
    if inputs != [] {
      WorksOnLast(norm, React(norm, c, inputs[0]).0, GivenBy(given, inputs[0]), inputs[1..]);
    }
  }

  // ----- one tick -----

  /** From `position`, the setpoint is `maxStep` nearer to the target, or on it, and no further off than that. */
  ghost predicate StepsTowards(norm: Norm, position: Vec, setpoint: Vec, target: Vec, maxStep: real) {
    var far := Dist(norm, position, target);
    && Dist(norm, setpoint, target) == (if far < maxStep then 0.0 else far - maxStep)
    && Dist(norm, setpoint, position) <= maxStep
  }

  /** Where the setpoint of a tick is, by the task before the tick and what was read on it: on a path, towards the first
      waypoint not yet behind; in a slot, at its place behind the leader. */
  ghost predicate AimsRight(norm: Norm, c: Controller, sensed: Sensed, setpoint: Vec) {
    && sensed.position.Some?
    && match c.task
       case NoTask => false
       case Path(queue) =>
         var arrived := queue.index < |queue.waypoints| &&
           Dist(norm, sensed.position.value, queue.waypoints[queue.index]) <= c.settings.tolerance;
         var index := if arrived then queue.index + 1 else queue.index;
         && index < |queue.waypoints|
         && StepsTowards(norm, sensed.position.value, setpoint, queue.waypoints[index], c.settings.maxStep)
       case Follow(leader, offset, leaderDone) =>
         && sensed.leaderPosition.Some? && !leaderDone
         && setpoint == Vec(sensed.leaderPosition.value.x + offset.x, sensed.leaderPosition.value.y + offset.y,
                            sensed.leaderPosition.value.z + offset.z)
  }

  lemma TickAims(norm: Norm, c: Controller, sensed: Sensed)
    requires IsNorm(norm) && c.settings.maxStep > 0.0 && Tick(norm, c, sensed).1.setpoint.Some?
    ensures AimsRight(norm, c, sensed, Tick(norm, c, sensed).1.setpoint.value)
  {
    if c.task.Path? {
      var queue := Advanced(norm, c.settings.tolerance, c.task.queue, sensed.position.value);
      Trajectory.StepDistance(norm, sensed.position.value, queue.waypoints[queue.index], c.settings.maxStep);
    }
  }

  // ----- every tick of every run -----

  lemma {:induction false} OutputAt(norm: Norm, c: Controller, inputs: seq<Input>, k: nat)
    requires c.settings.maxStep > 0.0 && k < |inputs|
    ensures Run(norm, c, inputs[..k]).settings == c.settings
    ensures Outputs(norm, c, inputs)[k] == React(norm, Run(norm, c, inputs[..k]), inputs[k]).1
    decreases k
  {
    if k > 0 {
      OutputAt(norm, React(norm, c, inputs[0]).0, inputs[1..], k - 1);
      assert inputs[..k][1..] == inputs[1..][..k - 1];
    }
  }

  /** In every run of a controller that starts without a task, a setpoint is given only on a tick, by the task given last,
      and is where that task says it is. */
  lemma SetpointsAreRight(norm: Norm, c: Controller, inputs: seq<Input>, k: nat)
    requires IsNorm(norm) && c.settings.maxStep > 0.0 && c.task.NoTask?
    requires k < |inputs| && Outputs(norm, c, inputs)[k].setpoint.Some?
    ensures inputs[k].Sense? && WorksOn(Run(norm, c, inputs[..k]), LastGiven(Nothing, inputs[..k]))
    ensures Run(norm, c, inputs[..k]).settings == c.settings
    ensures AimsRight(norm, Run(norm, c, inputs[..k]), inputs[k].sensed, Outputs(norm, c, inputs)[k].setpoint.value)
  {
    OutputAt(norm, c, inputs, k);
    WorksOnLast(norm, c, Nothing, inputs[..k]);
    TickAims(norm, Run(norm, c, inputs[..k]), inputs[k].sensed);
  }

  // ----- where the leader was last heard -----

  predicate GivesTask(m: Message) {
    m.AssignmentMessage? || m.SlotMessage? || m.CommandMessage?
  }

  /** The last position in the inbox that `leader` sent, or what was known before. */
  function LastPose(leader: Drone, known: Option<Vec>, inbox: seq<Message>): Option<Vec>
    decreases |inbox|
  {
    if inbox == [] then known
    else
      var last := inbox[|inbox| - 1];
      if last.PoseMessage? && last.sender == leader then Some(last.position)
      else LastPose(leader, known, inbox[..|inbox| - 1])
  }

  lemma {:induction false} PoseFirst(leader: Drone, known: Option<Vec>, inbox: seq<Message>)
    requires inbox != []
    ensures LastPose(leader, known, inbox) ==
      LastPose(leader, if inbox[0].PoseMessage? && inbox[0].sender == leader then Some(inbox[0].position) else known, inbox[1..])
    decreases |inbox|
  {
    if |inbox| > 1 {
      var rest := inbox[..|inbox| - 1];
      PoseFirst(leader, known, rest);
      assert inbox[1..][..|inbox| - 2] == rest[1..];
    }
  }

  predicate SentPose(leader: Drone, inbox: seq<Message>) {
    exists m :: m in inbox && m.PoseMessage? && m.sender == leader
  }

  /** While its task stays what it is, a follower knows the last position its leader has sent, and when it last heard it. */
  lemma {:induction false} HearsItsLeader(d: DroneSide, now: real, leader: Drone, inbox: seq<Message>)
    requires d.leader == Some(leader) && forall m :: m in inbox ==> !GivesTask(m)
    ensures ReceiveAll(d, now, inbox).leader == Some(leader)
    ensures ReceiveAll(d, now, inbox).leaderPosition == LastPose(leader, d.leaderPosition, inbox)
    ensures ReceiveAll(d, now, inbox).leaderHeard == if SentPose(leader, inbox) then Some(now) else d.leaderHeard
    decreases |inbox|
  {
    if inbox != [] {
      assert inbox[0] in inbox;
      PoseFirst(leader, d.leaderPosition, inbox);
      HearsItsLeader(Receive(d, now, inbox[0]), now, leader, inbox[1..]);
      assert inbox == [inbox[0]] + inbox[1..];
    }
  }

  /** Given a path or a command, a drone follows nobody. */
  lemma FollowsNobody(d: DroneSide, now: real, m: Message)
    requires m.CommandMessage? || (m.AssignmentMessage? && m.waypoints != [])
    ensures Receive(d, now, m).leader.None?
    ensures d.leader.Some? ==> Receive(d, now, m).leaderPosition.None? && Receive(d, now, m).leaderHeard.None?
  {
  }

  /** A new slot is followed from where its leader is heard next. */
  lemma SlotForgets(d: DroneSide, now: real, to: Drone, id: MissionId, slot: Slot)
    ensures var after := Receive(d, now, SlotMessage(to, id, slot));
      after.leader == Some(slot.leader) && (d.leader != Some(slot.leader) ==> after.leaderPosition.None?)
  {
  }

  /** A drone listens to the leader of its slot, and to nobody else, unless it was handed over. */
  ghost predicate Listens(d: DroneSide) {
    && (d.leader.Some? ==> d.controller.task.Follow? && d.controller.task.leader == d.leader.value)
    && (d.controller.task.Follow? && d.controller.handover.None? ==> d.leader == Some(d.controller.task.leader))
  }

  lemma {:induction false} InboxListens(d: DroneSide, now: real, inbox: seq<Message>)
    requires Listens(d)
    ensures Listens(ReceiveAll(d, now, inbox))
    decreases |inbox|
  {
    if inbox != [] {
      InboxListens(Receive(d, now, inbox[0]), now, inbox[1..]);
    }
  }

  lemma TickListens(norm: Norm, d: DroneSide, now: real, o: Observation)
    requires Listens(d) && d.controller.settings.maxStep > 0.0
    ensures Listens(Ticked(norm, d, now, o))
  {
  }

  /** On a step that brings a follower no new task, its setpoint is its place behind the last position its leader has
      sent: the last in this inbox, or else the last before. */
  lemma FollowerAims(norm: Norm, d: DroneSide, now: real, o: Observation, inbox: seq<Message>)
    requires IsNorm(norm) && Listens(d) && d.controller.settings.maxStep > 0.0
    requires d.controller.task.Follow? && forall m :: m in inbox ==> !GivesTask(m)
    requires var received := ReceiveAll(d, now, inbox);
      Tick(norm, received.controller, SensedBy(received, now, o)).1.setpoint.Some?
    ensures var received, slot := ReceiveAll(d, now, inbox), d.controller.task;
      var leader := LastPose(slot.leader, d.leaderPosition, inbox);
      && leader.Some?
      && Tick(norm, received.controller, SensedBy(received, now, o)).1.setpoint ==
         Some(Vec(leader.value.x + slot.offset.x, leader.value.y + slot.offset.y, leader.value.z + slot.offset.z))
  {
    var received := ReceiveAll(d, now, inbox);
    StaysHanded(d, now, inbox);
    TickAims(norm, received.controller, SensedBy(received, now, o));
    HearsItsLeader(d, now, d.controller.task.leader, inbox);
  }

  /** Poses and progress change nothing of a follower's task but whether its leader is done. */
  lemma {:induction false} StaysHanded(d: DroneSide, now: real, inbox: seq<Message>)
    requires d.controller.task.Follow? && forall m :: m in inbox ==> !GivesTask(m)
    ensures var c := ReceiveAll(d, now, inbox).controller;
      && c.handover == d.controller.handover && c.task.Follow?
      && c.task.leader == d.controller.task.leader && c.task.offset == d.controller.task.offset
    decreases |inbox|
  {
    if inbox != [] {
      assert inbox[0] in inbox;
      StaysHanded(Receive(d, now, inbox[0]), now, inbox[1..]);
    }
  }
}
