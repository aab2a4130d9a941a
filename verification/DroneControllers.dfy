/** The controller itself (drone_controller.py, waypoints.py): an object with a queue or a leader and a sequencer,
    changed step by step. Every method is proved to do what DroneControl.dfy says. */
module DroneControllers {

  import opened Wrappers
  import opened Geometry
  import opened Fleet
  import opened Planning
  import opened Supervision
  import opened DroneControl
  import Trajectory
  import Offboard

  class WaypointQueue {
    const waypoints: seq<Vec>
    const tolerance: real
    var index: nat

    constructor (path: seq<Vec>, toleranceM: real)
      ensures waypoints == path && tolerance == toleranceM && index == 0
    {
      waypoints, tolerance, index := path, toleranceM, 0;
    }

    function View(): Queue
      reads this
    {
      Queue(waypoints, index)
    }

    /** Moves on past the current waypoint if `position` is within tolerance of it. */
    method Advance(norm: Norm, position: Vec) returns (advanced: bool)
      modifies this`index
      ensures View() == Advanced(norm, tolerance, old(View()), position)
      ensures advanced <==> View() != old(View())
    {
      if index >= |waypoints| {
        return false;
      }
      if Dist(norm, position, waypoints[index]) <= tolerance {
        index := index + 1;
        return true;
      }
      return false;
    }
  }

  class DroneController {
    const settings: Settings
    const offboard: Offboard.OffboardSequencer
    var mission: Option<MissionId>
    var queue: WaypointQueue?
    var leader: Option<Drone>
    var offset: Vec
    var leaderDone: bool
    var handover: Option<Mode>
    var lastHandover: Option<real>
    var complete: bool

    ghost predicate Valid()
      reads this, queue, offboard
    {
      && settings.maxStep > 0.0
      && (queue != null ==> leader.None? && queue.tolerance == settings.tolerance)
      && (leader.None? ==> !leaderDone)
    }

    ghost function View(): Controller
      reads this, queue, offboard
    {
      Controller(settings, offboard.View(), mission,
                 if queue != null then Path(queue.View())
                 else if leader.Some? then Follow(leader.value, offset, leaderDone) else NoTask,
                 handover, lastHandover, complete)
    }

    constructor (drone: Settings, warmupTicks: nat)
      requires drone.maxStep > 0.0
      ensures Valid() && fresh(offboard) && queue == null
      ensures View() == Controller(drone, Offboard.Sequencer(warmupTicks, drone.retryInterval, Offboard.Idle, 0, None),
                                   None, NoTask, None, None, false)
    {
      settings := drone;
      offboard := new Offboard.OffboardSequencer(warmupTicks, drone.retryInterval);
      mission, queue, leader, offset, leaderDone := None, null, None, ORIGIN, false;
      handover, lastHandover, complete := None, None, false;
    }

    method Progress() returns (report: ProgressReport)
      requires Valid()
      ensures report == ProgressOf(View())
    {
      if queue != null {
        var count := |queue.waypoints|;
        var remaining := if queue.index < count then count - queue.index else 0;
        return ProgressReport(mission, Some(count - remaining), Some(count), complete);
      }
      return ProgressReport(mission, None, None, complete);
    }

    method Begin(missionId: MissionId)
      requires Valid()
      modifies this, offboard
      ensures Valid() && queue == null && leader.None?
      ensures View() == Begun(old(View()), missionId, NoTask)
    {
      mission := Some(missionId);
      queue, leader, leaderDone := null, None, false;
      handover, complete := None, false;
      offboard.Start();
    }

    method AssignPath(missionId: MissionId, waypoints: seq<Vec>) returns (accepted: bool)
      requires Valid()
      modifies this, offboard
      ensures Valid() && (queue == old(queue) || fresh(queue))
      ensures accepted <==> PathAssigned(old(View()), missionId, waypoints).Some?
      ensures accepted ==> View() == PathAssigned(old(View()), missionId, waypoints).value
      ensures !accepted ==> View() == old(View())
    {
      if waypoints == [] {
        return false;
      }
      Begin(missionId);
      queue := new WaypointQueue(waypoints, settings.tolerance);
      return true;
    }

    method AssignSlot(missionId: MissionId, slot: Slot)
      requires Valid()
      modifies this, offboard
      ensures Valid() && queue == null
      ensures View() == SlotAssigned(old(View()), missionId, slot)
    {
      Begin(missionId);
      leader, offset := Some(slot.leader), slot.offset;
    }

    method LeaderFinished(missionId: MissionId)
      requires Valid()
      modifies this`leaderDone
      ensures Valid()
      ensures View() == LeaderDone(old(View()), missionId)
    {
      if mission == Some(missionId) && leader.Some? {
        leaderDone := true;
      }
    }

    method Handover(mode: Mode)
      requires Valid()
      modifies this`handover, this`lastHandover, offboard
      ensures Valid() && View() == HandedOverTo(old(View()), mode)
    {
      offboard.Release();
      handover, lastHandover := Some(mode), None;
    }

    method Command(command: Command)
      requires Valid()
      modifies this`handover, this`lastHandover, this`complete, offboard
      ensures Valid() && View() == Commanded(old(View()), command)
    {
      Handover(ModeFor(command));
      complete := false;
    }

    method KeepAsking(sensed: Sensed) returns (out: Output)
      requires Valid() && handover.Some?
      modifies this`lastHandover
      ensures Valid() && (View(), out) == KeepHandingOver(old(View()), sensed)
    {
      if sensed.mode == handover || sensed.armed == Some(false) {
        return NOTHING;
      }
      if lastHandover.None? || sensed.now - lastHandover.value >= settings.retryInterval {
        lastHandover := Some(sensed.now);
        return Output(None, handover, false);
      }
      return NOTHING;
    }

    method Aim(norm: Norm, position: Vec, sensed: Sensed) returns (target: Option<Vec>)
      requires Valid()
      modifies queue
      ensures Valid() && (View(), target) == Target(norm, old(View()), position, sensed)
    {
      if queue != null {
        var advanced := queue.Advance(norm, position);
        if queue.index >= |queue.waypoints| {
          return Some(position);
        }
        return Some(Trajectory.Towards(norm, position, queue.waypoints[queue.index], settings.maxStep));
      }
      if leader.None? || sensed.leaderPosition.None? {
        return None;
      }
      return Some(sensed.leaderPosition.value.Add(offset));
    }

    /** One control step. */
    method Step(norm: Norm, sensed: Sensed) returns (out: Output)
      requires Valid()
      modifies this, queue, offboard
      ensures Valid() && queue == old(queue)
      ensures (View(), out) == Tick(norm, old(View()), sensed)
    {
      if handover.Some? {
        out := KeepAsking(sensed);
        return;
      }
      if sensed.position.None? || (queue == null && leader.None?) {
        return NOTHING;
      }
      if leader.Some? && sensed.leaderHeard.Some? && sensed.now - sensed.leaderHeard.value > settings.commsTimeout {
        Handover(Offboard.AUTO_RTL);
        out := KeepAsking(sensed);
        return;
      }
      var target := Aim(norm, sensed.position.value, sensed);
      if target.None? {
        return NOTHING;
      }
      if (if queue != null then queue.index >= |queue.waypoints| else leaderDone) {
        complete := true;
        Handover(Offboard.AUTO_LAND);
        out := KeepAsking(sensed);
        return;
      }
      var step := offboard.Advance(sensed.now, sensed.armed, sensed.mode);
      if offboard.phase == Offboard.Released {
        return NOTHING;
      }
      return Output(if step.stream then target else None,
                    if step.requestOffboard then Some(Offboard.OFFBOARD) else None,
                    step.requestArm);
    }
  }
}
