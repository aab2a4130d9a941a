/** The in-memory swarm the API flies when there is no other (SimulatedSwarmBridge.cs, Formation.cs): every
    read or command moves all drones by the time that has passed. */
module SimulatedSwarm {

  import opened Wrappers
  import opened Geometry
  import opened Missions
  import opened Trajectory

  const SPEED := 2.0
  const ARRIVAL_TOLERANCE := 0.3
  const BATTERY_DRAIN := 0.05
  const LANDED_BELOW := 0.05

  datatype Status = Idle | TakingOff | InFlight | Holding | Returning | Landing | Landed

  datatype Command = Land | Hold | ReturnToLaunch

  datatype Drone = Drone(pad: Vec, position: Vec, index: nat, status: Status, battery: real, updated: real)

  datatype Swarm = Swarm(
    drones: seq<Drone>, offsets: seq<Vec>, mission: Option<Mission>, active: Option<nat>, command: Option<Command>,
    lastTick: real)

  // ----- one drone -----

  function Ticked(d: Drone, seconds: real, now: real): Drone {
    if d.status.Idle? || d.status.Landed? then d.(updated := now)
    else d.(updated := now, battery := Positive(d.battery - BATTERY_DRAIN * seconds))
  }

  function Descended(norm: Norm, d: Drone, step: Step): Drone
  {
    var ground := Vec(d.position.x, d.position.y, 0.0);
    var lower := Towards(norm, d.position, ground, step);
    if lower.z <= LANDED_BELOW then d.(position := ground, status := Landed) else d.(position := lower, status := Landing)
  }

  function Headed(norm: Norm, d: Drone, target: Vec, step: Step): Drone
  {
    d.(status := if d.index == 0 && d.position.z < target.z - ARRIVAL_TOLERANCE then TakingOff else InFlight,
       position := Towards(norm, d.position, target, step))
  }

  predicate Arrived(norm: Norm, d: Drone, waypoints: seq<Vec>, offset: Vec) {
    d.index < |waypoints| && Dist(norm, d.position, waypoints[d.index].Add(offset)) <= ARRIVAL_TOLERANCE
  }

  /** Along its lane, or down at the end of it. */
  function Moved(norm: Norm, d: Drone, waypoints: seq<Vec>, offset: Vec, step: Step): Drone
  {
    if d.status.Landed? then d
    else
      var next := if Arrived(norm, d, waypoints, offset) then d.(index := d.index + 1) else d;
      if next.index >= |waypoints| then Descended(norm, next, step)
      else Headed(norm, next, waypoints[next.index].Add(offset), step)
  }

  function Flown(norm: Norm, d: Drone, waypoints: seq<Vec>, offset: Vec, step: Step, seconds: real, now: real): Drone
  {
    Moved(norm, Ticked(d, seconds, now), waypoints, offset, step)
  }

  predicate ComingDown(leader: Drone) {
    leader.status.Landing? || leader.status.Landed?
  }

  function Followed(norm: Norm, d: Drone, leader: Drone, offset: Vec, step: Step, seconds: real, now: real): Drone
  {
    var t := Ticked(d, seconds, now);
    if t.status.Landed? then t
    else if ComingDown(leader) then Descended(norm, t, step)
    else t.(status := InFlight, position := Towards(norm, t.position, leader.position.Add(offset), step))
  }

  function Obeyed(norm: Norm, d: Drone, command: Command, step: Step, seconds: real, now: real): Drone
  {
    var t := Ticked(d, seconds, now);
    if t.status.Landed? || t.status.Idle? then t
    else
      match command
      case Land => Descended(norm, t, step)
      case Hold => t.(status := Holding)
      case ReturnToLaunch =>
        var overPad := Vec(t.pad.x, t.pad.y, t.position.z);
        if Dist(norm, t.position, overPad) > ARRIVAL_TOLERANCE then
          t.(status := Returning, position := Towards(norm, t.position, overPad, step))
        else Descended(norm, t, step)
  }

  class SimulatedDrone {
    const pad: Vec
    var position: Vec
    var index: nat
    var status: Status
    var battery: real
    var updated: real

    function View(): Drone
      reads this
    {
      Drone(pad, position, index, status, battery, updated)
    }

    constructor (home: Vec, now: real)
      ensures View() == Drone(home, home, 0, TakingOff, 100.0, now)
    {
      pad, position, index, status, battery, updated := home, home, 0, TakingOff, 100.0, now;
    }

    method Tick(seconds: real, now: real)
      modifies this`updated, this`battery
      ensures View() == Ticked(old(View()), seconds, now)
    {
      updated := now;
      if status != Idle && status != Landed {
        battery := Positive(battery - BATTERY_DRAIN * seconds);
      }
    }

    method Descend(norm: Norm, step: Step)
      modifies this`position, this`status
      ensures View() == Descended(norm, old(View()), step)
    {
      var ground := Vec(position.x, position.y, 0.0);
      position := Towards(norm, position, ground, step);
      status := if position.z <= LANDED_BELOW then Landed else Landing;
      if status == Landed {
        position := ground;
      }
    }

    method FlyWaypoints(norm: Norm, waypoints: seq<Vec>, offset: Vec, step: Step, seconds: real, now: real)
      modifies this
      ensures View() == Flown(norm, old(View()), waypoints, offset, step, seconds, now)
    {
      Tick(seconds, now);
      if status == Landed {
        return;
      }
      if index >= |waypoints| {
        Descend(norm, step);
        return;
      }
      var target := waypoints[index].Add(offset);
      if Dist(norm, position, target) <= ARRIVAL_TOLERANCE {
        index := index + 1;
        if index >= |waypoints| {
          Descend(norm, step);
          return;
        }
        target := waypoints[index].Add(offset);
      }
      status := if index == 0 && position.z < target.z - ARRIVAL_TOLERANCE then TakingOff else InFlight;
      position := Towards(norm, position, target, step);
    }

    method FollowLeader(norm: Norm, leader: Drone, offset: Vec, step: Step, seconds: real, now: real)
      modifies this
      ensures View() == Followed(norm, old(View()), leader, offset, step, seconds, now)
    {
      Tick(seconds, now);
      if status == Landed {
        return;
      }
      if ComingDown(leader) {
        Descend(norm, step);
        return;
      }
      status := InFlight;
      position := Towards(norm, position, leader.position.Add(offset), step);
    }

    method ExecuteCommand(norm: Norm, command: Command, step: Step, seconds: real, now: real)
      modifies this
      ensures View() == Obeyed(norm, old(View()), command, step, seconds, now)
    {
      Tick(seconds, now);
      if status == Landed || status == Idle {
        return;
      }
      match command {
        case Land => Descend(norm, step);
        case Hold => status := Holding;
        case ReturnToLaunch =>
          var overPad := Vec(pad.x, pad.y, position.z);
          if Dist(norm, position, overPad) > ARRIVAL_TOLERANCE {
            status := Returning;
            position := Towards(norm, position, overPad, step);
          } else {
            Descend(norm, step);
          }
      }
    }
  }

  // ----- the swarm -----

  function LaneOffset(i: nat, spacing: real): Vec {
    Vec(0.0, i as real * spacing, 0.0)
  }

  function Offsets(m: Mission): (offsets: seq<Vec>)
    requires m.droneCount >= 1
    ensures m.kind.LeaderFollowerFormation? ==> |offsets| == m.droneCount - 1
    ensures forall i :: 0 <= i < |offsets| ==> offsets[i] == FollowerOffset(m.formation, i, m.spacing)
  {
    if m.kind.WaypointFollow? then [] else seq(m.droneCount - 1, i requires 0 <= i => FollowerOffset(m.formation, i, m.spacing))
  }

  /** Where the i-th drone starts: its lane, or its place in the formation. */
  function Pad(m: Mission, i: nat): Vec {
    if m.kind.WaypointFollow? then LaneOffset(i, m.spacing)
    else if i == 0 then ORIGIN
    else FollowerOffset(m.formation, i - 1, m.spacing)
  }

  function Grounded(m: Mission, i: nat, now: real): Drone {
    Drone(Pad(m, i), Pad(m, i), 0, TakingOff, 100.0, now)
  }

  function Dispatched(m: Mission, now: real): Swarm
    requires m.droneCount >= 1
  {
    Swarm(seq(m.droneCount, i requires 0 <= i => Grounded(m, i, now)), Offsets(m), Some(m), Some(m.id), None, now)
  }

  /** What became of the i-th drone, given what became of the first. */
  function After(norm: Norm, s: Swarm, first: Drone, i: nat, step: Step, seconds: real, now: real): Drone
    requires Valid(s) && s.mission.Some? && i < |s.drones|
  {
    var d, m := s.drones[i], s.mission.value;
    if s.command.Some? then Obeyed(norm, d, s.command.value, step, seconds, now)
    else if m.kind.WaypointFollow? then Flown(norm, d, m.waypoints, LaneOffset(i, m.spacing), step, seconds, now)
    else if i == 0 then Flown(norm, d, m.waypoints, ORIGIN, step, seconds, now)
    else Followed(norm, d, first, s.offsets[i - 1], step, seconds, now)
  }

  /** Everybody moved; followers chase where the leader has just gone. */
  function AllMoved(norm: Norm, s: Swarm, seconds: real, now: real): (drones: seq<Drone>)
    requires Valid(s) && s.mission.Some? && s.drones != [] && seconds > 0.0
    ensures |drones| == |s.drones|
    ensures drones[0] == After(norm, s, s.drones[0], 0, SPEED * seconds, seconds, now)
    ensures forall i :: 0 <= i < |drones| ==> drones[i] == After(norm, s, drones[0], i, SPEED * seconds, seconds, now)
  {
    var first := After(norm, s, s.drones[0], 0, SPEED * seconds, seconds, now);
    assert first == After(norm, s, first, 0, SPEED * seconds, seconds, now);
    seq(|s.drones|, i requires 0 <= i < |s.drones| => After(norm, s, first, i, SPEED * seconds, seconds, now))
  }

  function Advanced(norm: Norm, s: Swarm, now: real): Swarm
    requires Valid(s)
  {
    var ticked := s.(lastTick := now);
    if now - s.lastTick <= 0.0 || s.mission.None? || s.drones == [] then ticked
    else ticked.(drones := AllMoved(norm, s, now - s.lastTick, now))
  }

  function Ordered(norm: Norm, s: Swarm, command: Command, now: real): Swarm
    requires Valid(s)
  {
    Advanced(norm, s, now).(command := Some(command), active := None)
  }

  predicate ReportsComplete(s: Swarm) {
    s.active.Some? && forall i :: 0 <= i < |s.drones| ==> s.drones[i].status.Landed?
  }

  predicate Valid(s: Swarm) {
    s.mission.Some? && s.mission.value.kind.LeaderFollowerFormation? ==> |s.drones| == |s.offsets| + 1
  }

  lemma MovedOne(norm: Norm, s: Swarm, seconds: real, now: real, i: nat)
    requires Valid(s) && s.mission.Some? && seconds > 0.0 && i < |s.drones|
    ensures var m, d, after := s.mission.value, s.drones[i], AllMoved(norm, s, seconds, now);
      after[i] ==
        if s.command.Some? then Obeyed(norm, d, s.command.value, SPEED * seconds, seconds, now)
        else if m.kind.WaypointFollow? then
          Flown(norm, d, m.waypoints, LaneOffset(i, m.spacing), SPEED * seconds, seconds, now)
        else if i == 0 then Flown(norm, d, m.waypoints, ORIGIN, SPEED * seconds, seconds, now)
        else Followed(norm, d, after[0], s.offsets[i - 1], SPEED * seconds, seconds, now)
  {
  }

  class SimulatedSwarmBridge {
    var drones: seq<SimulatedDrone>
    var offsets: seq<Vec>
    var mission: Option<Mission>
    var active: Option<nat>
    var command: Option<Command>
    var lastTick: real

    ghost predicate Consistent()
      reads this, drones
    {
      && (forall i, j :: 0 <= i < j < |drones| ==> drones[i] != drones[j])
      && Valid(View())
    }

    function Views(): (views: seq<Drone>)
      reads this, drones
      ensures |views| == |drones| && forall i :: 0 <= i < |views| ==> views[i] == drones[i].View()
    {
      seq(|drones|, i requires 0 <= i < |drones| reads this, drones => drones[i].View())
    }

    function View(): Swarm
      reads this, drones
    {
      Swarm(Views(), offsets, mission, active, command, lastTick)
    }

    constructor (now: real)
      ensures Consistent() && View() == Swarm([], [], None, None, None, now)
    {
      drones, offsets, mission, active, command, lastTick := [], [], None, None, None, now;
    }

    method DispatchMission(m: Mission, now: real)
      requires Consistent() && m.droneCount >= 1
      modifies this
      ensures Consistent() && fresh(drones) && View() == Dispatched(m, now)
    {
      mission, active, command := Some(m), Some(m.id), None;
      offsets := Offsets(m);
      drones := [];
      for i := 0 to m.droneCount
        invariant |drones| == i && fresh(drones)
        invariant mission == Some(m) && active == Some(m.id) && command == None && offsets == Offsets(m)
        invariant forall j, k :: 0 <= j < k < i ==> drones[j] != drones[k]
        invariant forall j :: 0 <= j < i ==> drones[j].View() == Grounded(m, j, now)
      {
        var drone := new SimulatedDrone(Pad(m, i), now);
        drones := drones + [drone];
      }
      lastTick := now;
    }

    method SendCommand(norm: Norm, order: Command, now: real)
      requires Consistent()
      modifies this, drones
      ensures Consistent() && drones == old(drones) && View() == Ordered(norm, old(View()), order, now)
    {
      Advance(norm, now);
      command := Some(order);
      active := None;
    }

    /** What a read reports, having first moved everybody to now. */
    method GetState(norm: Norm, now: real) returns (state: seq<Drone>, complete: bool)
      requires Consistent()
      modifies this`lastTick, drones
      ensures Consistent() && drones == old(drones) && View() == Advanced(norm, old(View()), now)
      ensures state == View().drones && complete == ReportsComplete(View())
    {
      Advance(norm, now);
      state := Views();
      complete := active.Some? && forall i :: 0 <= i < |drones| ==> drones[i].status == Landed;
    }

    method Advance(norm: Norm, now: real)
      requires Consistent()
      modifies this`lastTick, drones
      ensures Consistent() && drones == old(drones) && View() == Advanced(norm, old(View()), now)
    {
      var elapsed := now - lastTick;
      lastTick := now;
      if elapsed <= 0.0 || mission.None? || drones == [] {
        return;
      }
      MoveAll(norm, old(View()), elapsed, now);
    }

    /** Everybody moves, as the command or the mission has it. */
    method MoveAll(norm: Norm, ghost was: Swarm, seconds: real, now: real)
      requires Consistent() && was.mission.Some? && was.drones != [] && seconds > 0.0
      requires was.(lastTick := lastTick) == View()
      modifies drones
      ensures Views() == AllMoved(norm, was, seconds, now)
    {
      if command.Some? {
        CommandAll(norm, was, seconds, now);
      } else if mission.value.kind == LeaderFollowerFormation {
        FlyFormation(norm, was, seconds, now);
      } else {
        FlyLanes(norm, was, seconds, now);
      }
    }

    /** A command pre-empts the mission for every drone. */
    method CommandAll(norm: Norm, ghost was: Swarm, seconds: real, now: real)
      requires Consistent() && was.mission.Some? && was.drones != [] && seconds > 0.0
      requires was.(lastTick := lastTick) == View() && command.Some?
      modifies drones
      ensures Views() == AllMoved(norm, was, seconds, now)
    {
      ghost var after := AllMoved(norm, was, seconds, now);
      for i := 0 to |drones|
        invariant forall j :: 0 <= j < i ==> drones[j].View() == after[j]
        invariant forall j :: i <= j < |drones| ==> drones[j].View() == was.drones[j]
      {
        MovedOne(norm, was, seconds, now, i);
        drones[i].ExecuteCommand(norm, command.value, SPEED * seconds, seconds, now);
      }
    }

    /** The leader flies the route, and the followers chase it. */
    method FlyFormation(norm: Norm, ghost was: Swarm, seconds: real, now: real)
      requires Consistent() && was.mission.Some? && was.drones != [] && seconds > 0.0
      requires was.(lastTick := lastTick) == View() && command.None? && mission.value.kind.LeaderFollowerFormation?
      modifies drones
      ensures Views() == AllMoved(norm, was, seconds, now)
    {
      ghost var after := AllMoved(norm, was, seconds, now);
      var leader := drones[0];
      MovedOne(norm, was, seconds, now, 0);
      leader.FlyWaypoints(norm, mission.value.waypoints, ORIGIN, SPEED * seconds, seconds, now);
      for i := 1 to |drones|
        invariant forall j :: 0 <= j < i ==> drones[j].View() == after[j]
        invariant forall j :: i <= j < |drones| ==> drones[j].View() == was.drones[j]
      {
        MovedOne(norm, was, seconds, now, i);
        drones[i].FollowLeader(norm, leader.View(), offsets[i - 1], SPEED * seconds, seconds, now);
      }
    }

    /** Every drone flies its own lane. */
    method FlyLanes(norm: Norm, ghost was: Swarm, seconds: real, now: real)
      requires Consistent() && was.mission.Some? && was.drones != [] && seconds > 0.0
      requires was.(lastTick := lastTick) == View() && command.None? && mission.value.kind.WaypointFollow?
      modifies drones
      ensures Views() == AllMoved(norm, was, seconds, now)
    {
      ghost var after := AllMoved(norm, was, seconds, now);
      var m, step := mission.value, SPEED * seconds;
      for i := 0 to |drones|
        invariant forall j :: 0 <= j < i ==> drones[j].View() == after[j]
        invariant forall j :: i <= j < |drones| ==> drones[j].View() == was.drones[j]
      {
        MovedOne(norm, was, seconds, now, i);
        assert forall j :: 0 <= j < |drones| && j != i ==> drones[j] != drones[i];
        drones[i].FlyWaypoints(norm, m.waypoints, LaneOffset(i, m.spacing), step, seconds, now);
      }
    }
  }
}
