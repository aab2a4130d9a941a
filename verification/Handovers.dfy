/** When a drone gives its vehicle to the autopilot, in which mode, and what it tells the ground (drone_controller.py,
    commands.py, sut.py), in terms of what was read and heard. */
module Handovers {

  import opened Wrappers
  import opened Geometry
  import opened Fleet
  import opened Planning
  import opened Supervision
  import opened DroneControl
  import opened Swarm
  import opened Setpoints
  import Offboard

  // ----- why, and in which mode -----

  /** On this tick the leader of the slot has not been heard for longer than the timeout. */
  predicate LostLeader(c: Controller, sensed: Sensed) {
    && c.task.Follow? && sensed.leaderHeard.Some?
    && sensed.now - sensed.leaderHeard.value > c.settings.commsTimeout
  }

  /** With this tick the task is done: the last waypoint is within tolerance, or was before; or the leader has finished, and
      its place is known. */
  predicate FinishesNow(norm: Norm, c: Controller, sensed: Sensed)
    requires sensed.position.Some?
  {
    match c.task
    case NoTask => false
    case Path(queue) =>
      || queue.index >= |queue.waypoints|
      || (queue.index == |queue.waypoints| - 1
          && Dist(norm, sensed.position.value, queue.waypoints[queue.index]) <= c.settings.tolerance)
    case Follow(leader, offset, leaderDone) => leaderDone && sensed.leaderPosition.Some?
  }

  /** A vehicle is handed over for exactly three reasons, each in its own mode: a command, in the mode it names; a lost
      leader, to return; the end of the task, to land, and only then is the task complete. */
  lemma HandedOverExactly(norm: Norm, c: Controller, i: Input)
    requires c.settings.maxStep > 0.0 && c.handover.None?
    ensures var after := React(norm, c, i).0;
      match i
      case GetCommand(command) =>
        !after.complete && after.handover == Some(match command
          case Rtl => Offboard.AUTO_RTL
          case Land => Offboard.AUTO_LAND
          case Hold => Offboard.AUTO_LOITER)
      case Sense(sensed) =>
        if sensed.position.None? then after == c
        else if LostLeader(c, sensed) then after.handover == Some(Offboard.AUTO_RTL) && after.complete == c.complete
        else if FinishesNow(norm, c, sensed) then after.handover == Some(Offboard.AUTO_LAND) && after.complete
        else after.handover.None? && after.complete == c.complete
      case _ => after.handover.None?
  {
  }

  /** A new task starts from nothing: not handed over, not complete, at the first waypoint, with OFFBOARD to be asked for
      again; a path without waypoints changes nothing. */
  lemma TaskStartsAfresh(norm: Norm, c: Controller, i: Input)
    requires c.settings.maxStep > 0.0 && Assignment(i)
    ensures var after := React(norm, c, i).0;
      if i.GetPath? && i.waypoints == [] then after == c
      else
        && after.handover.None? && !after.complete && after.offboard.phase.Warmup? && after.offboard.streamed == 0
        && after.mission == Some(i.mission)
        && (if i.GetPath? then after.task == Path(Queue(i.waypoints, 0))
            else after.task == Follow(i.slot.leader, i.slot.offset, false))
  {
  }

  // ----- asking until it happens -----

  ghost predicate OnlyTicks(inputs: seq<Input>) {
    forall k :: 0 <= k < |inputs| ==> inputs[k].Sense?
  }

  ghost predicate NotAskedBefore(norm: Norm, c: Controller, inputs: seq<Input>, k: nat)
    requires c.settings.maxStep > 0.0 && k <= |inputs|
  {
    forall j :: 0 <= j < k ==> Outputs(norm, c, inputs)[j].requestMode.None?
  }

  /** The mode a vehicle was handed over in is asked for by exactly the first tick, an interval after the last time, on which
      the autopilot has neither reported it nor disarmed; on the first such tick at all, if it was not asked for yet. */
  lemma {:induction false} ModeAskedExactly(norm: Norm, c: Controller, inputs: seq<Input>, k: nat)
    requires c.settings.maxStep > 0.0 && c.handover.Some? && OnlyTicks(inputs) && k < |inputs|
    requires NotAskedBefore(norm, c, inputs, k)
    ensures var sensed, out := inputs[k].sensed, Outputs(norm, c, inputs)[k];
      && out == Output(None, out.requestMode, false)
      && out.requestMode ==
         if sensed.mode != c.handover && sensed.armed != Some(false)
            && (c.lastHandover.Some? ==> sensed.now - c.lastHandover.value >= c.settings.retryInterval)
         then c.handover else None
    decreases k
  {
    assert inputs[0].Sense?;
    if k > 0 {
      var next := React(norm, c, inputs[0]).0;
      assert Outputs(norm, c, inputs)[0].requestMode.None?;
      assert next == c;
      forall j | 0 <= j < k - 1 ensures Outputs(norm, next, inputs[1..])[j].requestMode.None? {
        assert Outputs(norm, c, inputs)[j + 1].requestMode.None?;
      }
      assert OnlyTicks(inputs[1..]);
      ModeAskedExactly(norm, next, inputs[1..], k - 1);
    }
  }

  // ----- what is reported -----

  /** After a tick that gives a setpoint on a path, the drone reports the mission, as many waypoints as the path has, and the
      index of the one the setpoint is for; and once complete, all of them. */
  lemma ReportsWhereItIs(norm: Norm, c: Controller, sensed: Sensed)
    requires IsNorm(norm) && c.settings.maxStep > 0.0 && c.task.Path? && Tick(norm, c, sensed).1.setpoint.Some?
    ensures var report, path := ProgressOf(Tick(norm, c, sensed).0), c.task.queue.waypoints;
      && report.mission == c.mission && report.count == Some(|path|) && report.complete == c.complete
      && report.index.Some? && report.index.value < |path|
      && StepsTowards(norm, sensed.position.value, Tick(norm, c, sensed).1.setpoint.value, path[report.index.value],
                      c.settings.maxStep)
  {
    TickAims(norm, c, sensed);
  }

  lemma ReportsCompletion(norm: Norm, c: Controller, sensed: Sensed)
    requires c.settings.maxStep > 0.0 && c.handover.None? && !c.complete && Tick(norm, c, sensed).0.complete
    ensures var report := ProgressOf(Tick(norm, c, sensed).0);
      && report.mission == c.mission && report.complete
      && (c.task.Path? ==> report.index == report.count == Some(|c.task.queue.waypoints|))
      && (c.task.Follow? ==> report.index.None? && report.count.None?)
  {
  }

  // ----- a drone is its controller -----

  /** What a message is to the controller of a drone that listens to `leader`. */
  function InputOf(leader: Option<Drone>, m: Message): seq<Input> {
    match m
    case AssignmentMessage(_, mission, waypoints) => [GetPath(mission, waypoints)]
    case SlotMessage(_, mission, slot) => [GetSlot(mission, slot)]
    case CommandMessage(_, command) => [GetCommand(command)]
    case ProgressMessage(sender, report) =>
      if leader == Some(sender) && report.complete && report.mission.Some? then [HearFinished(report.mission.value)] else []
    case _ => []
  }

  /** Whom it listens to then. */
  function LeaderAfter(leader: Option<Drone>, m: Message): Option<Drone> {
    match m
    case AssignmentMessage(_, mission, waypoints) => if waypoints == [] then leader else None
    case SlotMessage(_, mission, slot) => Some(slot.leader)
    case CommandMessage(_, command) => None
    case _ => leader
  }

  function InputsOf(leader: Option<Drone>, inbox: seq<Message>): seq<Input>
    decreases |inbox|
  {
    if inbox == [] then [] else InputOf(leader, inbox[0]) + InputsOf(LeaderAfter(leader, inbox[0]), inbox[1..])
  }

  lemma {:induction false} RunBoth(norm: Norm, c: Controller, a: seq<Input>, b: seq<Input>)
    requires c.settings.maxStep > 0.0
    ensures Run(norm, c, a).settings == c.settings
    ensures Run(norm, c, a + b) == Run(norm, Run(norm, c, a), b)
    decreases |a|
  {
    if a == [] {
      assert a + b == b;
    } else {
      assert (a + b)[1..] == a[1..] + b;
      RunBoth(norm, React(norm, c, a[0]).0, a[1..], b);
    }
  }

  lemma OneReceived(norm: Norm, d: DroneSide, now: real, m: Message)
    requires d.controller.settings.maxStep > 0.0
    ensures Receive(d, now, m).controller == Run(norm, d.controller, InputOf(d.leader, m))
    ensures Receive(d, now, m).leader == LeaderAfter(d.leader, m)
  {
    if InputOf(d.leader, m) != [] {
      assert InputOf(d.leader, m)[1..] == [];
    }
  }

  lemma {:induction false} InboxIsInputs(norm: Norm, d: DroneSide, now: real, inbox: seq<Message>)
    requires d.controller.settings.maxStep > 0.0
    ensures ReceiveAll(d, now, inbox).controller == Run(norm, d.controller, InputsOf(d.leader, inbox))
    decreases |inbox|
  {
    if inbox != [] {
      var next := Receive(d, now, inbox[0]);
      OneReceived(norm, d, now, inbox[0]);
      InboxIsInputs(norm, next, now, inbox[1..]);
      RunBoth(norm, d.controller, InputOf(d.leader, inbox[0]), InputsOf(next.leader, inbox[1..]));
    }
  }

  /** A step of a drone is a run of its controller: what its inbox says, in order, and then a tick on what is observed now and
      what was last heard of the leader. So whatever holds of every run of a controller holds of every drone. */
  lemma StepIsRun(norm: Norm, d: DroneSide, s: Step)
    requires d.controller.settings.maxStep > 0.0
    ensures var heard := ReceiveAll(d, s.now, s.inbox);
      var tick := Sense(Sensed(s.now, s.seen.position, Some(s.seen.armed), Some(s.seen.mode), heard.leaderPosition, heard.leaderHeard));
      Stepped(norm, d, s).controller == Run(norm, d.controller, InputsOf(d.leader, s.inbox) + [tick])
  {
    var heard := ReceiveAll(d, s.now, s.inbox);
    var tick := Sense(Sensed(s.now, s.seen.position, Some(s.seen.armed), Some(s.seen.mode), heard.leaderPosition, heard.leaderHeard));
    InboxIsInputs(norm, d, s.now, s.inbox);
    RunBoth(norm, d.controller, InputsOf(d.leader, s.inbox), [tick]);
    assert [tick][1..] == [];
  }

  // ----- how often -----

  /** One step of a drone: what was in its inbox, and what it observed. */
  datatype Step = Step(now: real, seen: Observation, inbox: seq<Message>)

  function Stepped(norm: Norm, d: DroneSide, s: Step): DroneSide
    requires d.controller.settings.maxStep > 0.0
  {
    Ticked(norm, ReceiveAll(d, s.now, s.inbox), s.now, s.seen)
  }

  /** The report last sent, and when. */
  datatype Sent = Sent(report: ProgressReport, at: real)

  function LastSent(outbox: seq<Message>, now: real, before: Option<Sent>): Option<Sent> {
    if outbox == [] then before
    else LastSent(outbox[1..], now, if outbox[0].ProgressMessage? then Some(Sent(outbox[0].report, now)) else before)
  }

  /** The drone, and the report it last sent, after some steps. */
  function AfterSteps(norm: Norm, d: DroneSide, last: Option<Sent>, steps: seq<Step>): (DroneSide, Option<Sent>)
    requires d.controller.settings.maxStep > 0.0
    decreases |steps|
  {
    if steps == [] then (d, last)
    else
      var after := Stepped(norm, d, steps[0]);
      AfterSteps(norm, Reported(after, steps[0].now), LastSent(Outbox(after, steps[0].now, steps[0].seen), steps[0].now, last),
                 steps[1..])
  }

  ghost predicate Remembers(d: DroneSide, last: Option<Sent>) {
    if last.Some? then d.lastProgress == Some(last.value.report) && d.progressSent == Some(last.value.at)
    else d.lastProgress.None? && d.progressSent.None?
  }

  lemma LastInOutbox(d: DroneSide, now: real, o: Observation, before: Option<Sent>)
    ensures LastSent(Outbox(d, now, o), now, before) ==
      if ProgressDue(d, now, ProgressOf(d.controller)) then Some(Sent(ProgressOf(d.controller), now)) else before
  {
    var pose := if o.position.Some? then [PoseMessage(d.id, o.position.value)] else [];
    var report := if ProgressDue(d, now, ProgressOf(d.controller)) then [ProgressMessage(d.id, ProgressOf(d.controller))] else [];
    var telemetry := [TelemetryMessage(d.id, o.position, o.armed, o.battery)];
    LastOfBoth(pose + report, telemetry, now, before);
    LastOfBoth(pose, report, now, before);
  }

  lemma {:induction false} LastOfBoth(a: seq<Message>, b: seq<Message>, now: real, before: Option<Sent>)
    ensures LastSent(a + b, now, before) == LastSent(b, now, LastSent(a, now, before))
    decreases |a|
  {
    if a == [] {
      assert a + b == b;
    } else {
      assert (a + b)[1..] == a[1..] + b;
      LastOfBoth(a[1..], b, now, if a[0].ProgressMessage? then Some(Sent(a[0].report, now)) else before);
    }
  }

  lemma OneStepFresh(norm: Norm, d: DroneSide, last: Option<Sent>, s: Step)
    requires d.controller.settings.maxStep > 0.0 && Remembers(d, last)
    ensures var after := Reported(Stepped(norm, d, s), s.now);
      var sent := LastSent(Outbox(Stepped(norm, d, s), s.now, s.seen), s.now, last);
      && Remembers(after, sent) && after.controller == Stepped(norm, d, s).controller
      && after.controller.settings == d.controller.settings
      && sent.Some? && sent.value.report == ProgressOf(after.controller) && s.now - sent.value.at < PROGRESS_PERIOD
  {
    InboxRemembers(d, s.now, s.inbox);
    LastInOutbox(Stepped(norm, d, s), s.now, s.seen, last);
  }

  lemma {:induction false} InboxRemembers(d: DroneSide, now: real, inbox: seq<Message>)
    ensures var after := ReceiveAll(d, now, inbox);
      after.lastProgress == d.lastProgress && after.progressSent == d.progressSent
    decreases |inbox|
  {
    if inbox != [] {
      InboxRemembers(Receive(d, now, inbox[0]), now, inbox[1..]);
    }
  }

  lemma {:induction false} Remembered(norm: Norm, d: DroneSide, last: Option<Sent>, steps: seq<Step>)
    requires d.controller.settings.maxStep > 0.0 && Remembers(d, last)
    ensures var (after, sent) := AfterSteps(norm, d, last, steps);
      Remembers(after, sent) && after.controller.settings == d.controller.settings
    decreases |steps|
  {
    if steps != [] {
      var after := Stepped(norm, d, steps[0]);
      OneStepFresh(norm, d, last, steps[0]);
      Remembered(norm, Reported(after, steps[0].now),
                 LastSent(Outbox(after, steps[0].now, steps[0].seen), steps[0].now, last), steps[1..]);
    }
  }

  /** After every step of every run, the last report a drone has sent is what is true of it now, and was sent within the last
      second. */
  lemma ReportsStayFresh(norm: Norm, d: DroneSide, steps: seq<Step>, s: Step)
    requires d.controller.settings.maxStep > 0.0 && d.lastProgress.None? && d.progressSent.None?
    ensures var (before, earlier) := AfterSteps(norm, d, None, steps);
      && before.controller.settings.maxStep > 0.0
      && var after := Stepped(norm, before, s);
         var sent := LastSent(Outbox(after, s.now, s.seen), s.now, earlier);
         sent.Some? && sent.value.report == ProgressOf(after.controller) && s.now - sent.value.at < 1.0
  {
    Remembered(norm, d, None, steps);
    var (before, earlier) := AfterSteps(norm, d, None, steps);
    OneStepFresh(norm, before, earlier, s);
  }

  /** Whatever else a step does, it tells where the drone is, if that is known, and how the vehicle is. */
  lemma AlwaysTells(d: DroneSide, now: real, o: Observation)
    ensures TelemetryMessage(d.id, o.position, o.armed, o.battery) in Outbox(d, now, o)
    ensures forall p :: PoseMessage(d.id, p) in Outbox(d, now, o) <==> o.position == Some(p)
    ensures forall m :: m in Outbox(d, now, o) ==> !m.AssignmentMessage? && !m.SlotMessage? && !m.CommandMessage? && m.sender == d.id
  {
    assert Outbox(d, now, o)[|Outbox(d, now, o)| - 1] == TelemetryMessage(d.id, o.position, o.armed, o.battery);
    if o.position.Some? {
      assert Outbox(d, now, o)[0] == PoseMessage(d.id, o.position.value);
    }
  }

  // ----- whom a follower believes -----

  /** Among these messages the leader has reported itself complete, for this mission. */
  ghost predicate LeaderReported(inbox: seq<Message>, leader: Drone, mission: MissionId) {
    exists m :: m in inbox && m.ProgressMessage? && m.sender == leader && m.report.complete && m.report.mission == Some(mission)
  }

  /** A follower that keeps its task takes its leader for done exactly if it was before, or hears it from the leader itself
      about the mission of the slot. */
  lemma {:induction false} BelievesItsLeader(d: DroneSide, now: real, inbox: seq<Message>)
    requires Listens(d) && d.controller.task.Follow? && d.controller.handover.None? && d.controller.mission.Some?
    requires forall m :: m in inbox ==> !GivesTask(m)
    ensures var task := ReceiveAll(d, now, inbox).controller.task;
      && task.Follow?
      && (task.leaderDone <==>
            d.controller.task.leaderDone || LeaderReported(inbox, d.controller.task.leader, d.controller.mission.value))
    decreases |inbox|
  {
    if inbox != [] {
      var m := inbox[0];
      assert m in inbox && !GivesTask(m);
      var next := Receive(d, now, m);
      BelievesItsLeader(next, now, inbox[1..]);
      var leader, mission := d.controller.task.leader, d.controller.mission.value;
      assert LeaderReported(inbox, leader, mission) <==> LeaderReported([m], leader, mission) || LeaderReported(inbox[1..], leader, mission) by {
        assert inbox == [m] + inbox[1..];
      }
      assert m in [m];
    }
  }
}
