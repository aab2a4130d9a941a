/** Whole runs of the simulated swarm (SimulatedSwarmBridge.cs): what "complete" and "landed" mean, and how
    soon a mission left alone is over. */
module SimulatedRuns {

  import opened Wrappers
  import opened Geometry
  import opened Missions
  import opened Trajectory
  import opened SimulatedSwarm

  datatype Event = Order(command: Command) | Read

  datatype Timed = Timed(at: real, event: Event)

  function Next(norm: Norm, s: Swarm, t: Timed): (after: Swarm)
    requires Valid(s)
    ensures Valid(after) && after.mission == s.mission && |after.drones| == |s.drones|
  {
    match t.event
    case Order(command) => Ordered(norm, s, command, t.at)
    case Read => Advanced(norm, s, t.at)
  }

  /** Commands and reads after a dispatch, in whatever order and at whatever times. */
  function Run(norm: Norm, s: Swarm, events: seq<Timed>): (after: Swarm)
    requires Valid(s)
    ensures Valid(after) && after.mission == s.mission && |after.drones| == |s.drones|
    decreases |events|
  {
    if events == [] then s else Run(norm, Next(norm, s, events[0]), events[1..])
  }

  predicate FliesRoute(m: Mission, i: nat) {
    m.kind.WaypointFollow? || i == 0
  }

  function OffsetOf(m: Mission, i: nat): Vec {
    if m.kind.WaypointFollow? then LaneOffset(i, m.spacing) else ORIGIN
  }

  // ----- one drone, one tick -----

  predicate Moves(s: Swarm, now: real) {
    now - s.lastTick > 0.0 && s.mission.Some? && s.drones != []
  }

  /** What a step does to one drone, when time has passed; otherwise nothing moves. */
  lemma DroneMoves(norm: Norm, s: Swarm, t: Timed, seconds: real, i: nat)
    requires Valid(s) && Moves(s, t.at) && seconds == t.at - s.lastTick && i < |s.drones|
    ensures var after := Next(norm, s, t).drones;
      after[i] == After(norm, s, after[0], i, SPEED * seconds, seconds, t.at)
  {
    var moved := AllMoved(norm, s, seconds, t.at);
    assert Next(norm, s, t).drones == Advanced(norm, s, t.at).drones == moved;
    assert moved[i] == After(norm, s, moved[0], i, SPEED * seconds, seconds, t.at);
  }

  predicate OnTheGround(d: Drone) {
    d.status.Landed? ==> d.position.z == 0.0
  }

  /** A drone that has landed stays as it is. */
  ghost predicate Settles(d: Drone, after: Drone) {
    && (d.status.Landed? ==> after.(updated := d.updated) == d)
    && (OnTheGround(d) ==> OnTheGround(after))
  }

  lemma FlownSettles(norm: Norm, d: Drone, waypoints: seq<Vec>, offset: Vec, step: Step, seconds: real, now: real)
    ensures var after := Flown(norm, d, waypoints, offset, step, seconds, now);
      && Settles(d, after)
      && after.index == if !d.status.Landed? && Arrived(norm, d, waypoints, offset) then d.index + 1 else d.index
  {
    assert Arrived(norm, Ticked(d, seconds, now), waypoints, offset) == Arrived(norm, d, waypoints, offset);
  }

  lemma FollowedSettles(norm: Norm, d: Drone, leader: Drone, offset: Vec, step: Step, seconds: real, now: real)
    ensures var after := Followed(norm, d, leader, offset, step, seconds, now);
      Settles(d, after) && after.index == d.index
  {
  }

  lemma ObeyedSettles(norm: Norm, d: Drone, command: Command, step: Step, seconds: real, now: real)
    ensures var after := Obeyed(norm, d, command, step, seconds, now);
      Settles(d, after) && after.index == d.index
  {
  }

  /** An index goes up only on arrival at a waypoint, by one. */
  ghost predicate OneFurther(norm: Norm, m: Mission, i: nat, d: Drone, after: Drone) {
    || after.index == d.index
    || (after.index == d.index + 1 && FliesRoute(m, i) && Arrived(norm, d, m.waypoints, OffsetOf(m, i)))
  }

  lemma AfterSettles(norm: Norm, s: Swarm, first: Drone, i: nat, step: Step, seconds: real, now: real, after: Drone)
    requires Valid(s) && s.mission.Some? && i < |s.drones|
    requires after == After(norm, s, first, i, step, seconds, now)
    ensures Settles(s.drones[i], after) && OneFurther(norm, s.mission.value, i, s.drones[i], after)
  {
    var d, m := s.drones[i], s.mission.value;
    if s.command.Some? {
      ObeyedSettles(norm, d, s.command.value, step, seconds, now);
    } else if FliesRoute(m, i) {
      FlownSettles(norm, d, m.waypoints, OffsetOf(m, i), step, seconds, now);
    } else {
      FollowedSettles(norm, d, first, s.offsets[i - 1], step, seconds, now);
    }
  }

  lemma NobodyMoves(norm: Norm, s: Swarm, t: Timed)
    requires Valid(s) && !Moves(s, t.at)
    ensures Next(norm, s, t).drones == s.drones
  {
  }

  lemma StaysSettled(norm: Norm, m: Mission, i: nat, d: Drone)
    ensures Settles(d, d) && OneFurther(norm, m, i, d, d)
  {
  }

  lemma NextSettles(norm: Norm, s: Swarm, t: Timed, i: nat)
    requires Valid(s) && s.mission.Some? && i < |s.drones|
    ensures var d, after := s.drones[i], Next(norm, s, t).drones[i];
      Settles(d, after) && OneFurther(norm, s.mission.value, i, d, after)
  {
    var after := Next(norm, s, t).drones;
    if Moves(s, t.at) {
      var seconds := t.at - s.lastTick;
      DroneMoves(norm, s, t, seconds, i);
      AfterSettles(norm, s, after[0], i, SPEED * seconds, seconds, t.at, after[i]);
    } else {
      NobodyMoves(norm, s, t);
      StaysSettled(norm, s.mission.value, i, s.drones[i]);
    }
  }

  lemma {:induction false} LandedIsFinal(norm: Norm, s: Swarm, events: seq<Timed>, i: nat)
    requires Valid(s) && s.mission.Some? && i < |s.drones|
    ensures s.drones[i].status.Landed? ==>
      Run(norm, s, events).drones[i].(updated := s.drones[i].updated) == s.drones[i]
    ensures OnTheGround(s.drones[i]) ==> OnTheGround(Run(norm, s, events).drones[i])
    ensures s.drones[i].index <= Run(norm, s, events).drones[i].index
    decreases |events|
  {
    if events != [] {
      var next := Next(norm, s, events[0]);
      NextSettles(norm, s, events[0], i);
      LandedIsFinal(norm, next, events[1..], i);
    }
  }

  // ----- what complete means -----

  /** A drone comes down only at the end of its route, and a follower with the leader. */
  ghost predicate Flying(m: Mission, drones: seq<Drone>, i: nat)
    requires i < |drones|
  {
    && !drones[i].status.Idle?
    && (ComingDown(drones[i]) ==>
         if FliesRoute(m, i) then drones[i].index >= |m.waypoints| else ComingDown(drones[0]))
  }

  ghost predicate OnTask(s: Swarm) {
    && Valid(s) && s.mission.Some?
    && (s.active.Some? ==>
         && s.command.None? && s.active == Some(s.mission.value.id)
         && forall i :: 0 <= i < |s.drones| ==> Flying(s.mission.value, s.drones, i))
  }

  lemma MovedOnTask(norm: Norm, d: Drone, waypoints: seq<Vec>, offset: Vec, step: Step)
    requires (ComingDown(d) ==> d.index >= |waypoints|) && !d.status.Idle?
    ensures var after := Moved(norm, d, waypoints, offset, step);
      && !after.status.Idle?
      && (ComingDown(after) <==> after.index >= |waypoints|)
  {
  }

  lemma FlyingNext(norm: Norm, s: Swarm, now: real, i: nat)
    requires OnTask(s) && s.active.Some? && i < |s.drones| && Moves(s, now)
    ensures Flying(s.mission.value, Next(norm, s, Timed(now, Read)).drones, i)
  {
    var seconds, m := now - s.lastTick, s.mission.value;
    DroneMoves(norm, s, Timed(now, Read), seconds, i);
    assert Flying(m, s.drones, i);
    if FliesRoute(m, i) {
      MovedOnTask(norm, Ticked(s.drones[i], seconds, now), m.waypoints, OffsetOf(m, i), SPEED * seconds);
    } else {
      assert Flying(m, s.drones, 0);
      DroneMoves(norm, s, Timed(now, Read), seconds, 0);
      MovedOnTask(norm, Ticked(s.drones[0], seconds, now), m.waypoints, ORIGIN, SPEED * seconds);
    }
  }

  lemma OnTaskNext(norm: Norm, s: Swarm, t: Timed)
    requires OnTask(s)
    ensures OnTask(Next(norm, s, t))
  {
    var after := Next(norm, s, t);
    if after.active.Some? && Moves(s, t.at) {
      assert after == Next(norm, s, Timed(t.at, Read));
      forall i | 0 <= i < |after.drones| ensures Flying(s.mission.value, after.drones, i) {
        FlyingNext(norm, s, t.at, i);
      }
    }
  }

  lemma {:induction false} OnTaskKept(norm: Norm, s: Swarm, events: seq<Timed>)
    requires OnTask(s)
    ensures OnTask(Run(norm, s, events))
    decreases |events|
  {
    if events != [] {
      OnTaskNext(norm, s, events[0]);
      OnTaskKept(norm, Next(norm, s, events[0]), events[1..]);
    }
  }

  /** At some point of the run the drone was within tolerance of its k-th waypoint. */
  ghost predicate WasAt(norm: Norm, s: Swarm, events: seq<Timed>, i: nat, p: Vec)
    requires Valid(s) && i < |s.drones|
  {
    exists j :: 0 <= j <= |events| && Dist(norm, Run(norm, s, events[..j]).drones[i].position, p) <= ARRIVAL_TOLERANCE
  }

  lemma WasAtLater(norm: Norm, s: Swarm, events: seq<Timed>, i: nat, p: Vec)
    requires Valid(s) && i < |s.drones| && events != []
    requires WasAt(norm, Next(norm, s, events[0]), events[1..], i, p)
    ensures WasAt(norm, s, events, i, p)
  {
    var next := Next(norm, s, events[0]);
    var j :| 0 <= j <= |events[1..]| && Dist(norm, Run(norm, next, events[1..][..j]).drones[i].position, p) <= ARRIVAL_TOLERANCE;
    assert events[..j + 1][1..] == events[1..][..j];
    assert Run(norm, s, events[..j + 1]) == Run(norm, next, events[1..][..j]);
  }

  /** An index is what it says: each waypoint before it was reached. */
  lemma {:induction false} IndexWasReached(norm: Norm, s: Swarm, events: seq<Timed>, i: nat, k: nat)
    requires Valid(s) && s.mission.Some? && i < |s.drones| && FliesRoute(s.mission.value, i)
    requires s.drones[i].index <= k < Run(norm, s, events).drones[i].index
    ensures k < |s.mission.value.waypoints|
    ensures WasAt(norm, s, events, i, s.mission.value.waypoints[k].Add(OffsetOf(s.mission.value, i)))
    decreases |events|
  {
    assert events != [];
    var next := Next(norm, s, events[0]);
    NextSettles(norm, s, events[0], i);
    if next.drones[i].index > k {
      assert events[..0] == [];
      assert Run(norm, s, events[..0]) == s;
    } else {
      IndexWasReached(norm, next, events[1..], i, k);
      WasAtLater(norm, s, events, i, s.mission.value.waypoints[k].Add(OffsetOf(s.mission.value, i)));
    }
  }

  /** In every run since a dispatch: what is reported complete is that mission, and every lane drone, or the
      formation's leader, has been at every waypoint of its route. */
  lemma CompleteWasFlown(norm: Norm, m: Mission, now: real, events: seq<Timed>)
    requires m.droneCount >= 1
    ensures var start := Dispatched(m, now);
      var end := Run(norm, start, events);
      ReportsComplete(end) ==>
        && end.active == Some(m.id)
        && (forall i :: 0 <= i < |end.drones| ==> end.drones[i].position.z == 0.0)
        && forall i, k :: 0 <= i < |end.drones| && FliesRoute(m, i) && 0 <= k < |m.waypoints| ==>
             WasAt(norm, start, events, i, m.waypoints[k].Add(OffsetOf(m, i)))
  {
    var start := Dispatched(m, now);
    var end := Run(norm, start, events);
    OnTaskKept(norm, start, events);
    if ReportsComplete(end) {
      forall i | 0 <= i < |end.drones| ensures end.drones[i].position.z == 0.0 {
        LandedIsFinal(norm, start, events, i);
      }
      forall i, k | 0 <= i < |end.drones| && FliesRoute(m, i) && 0 <= k < |m.waypoints|
        ensures WasAt(norm, start, events, i, m.waypoints[k].Add(OffsetOf(m, i)))
      {
        assert Flying(m, end.drones, i) && end.drones[i].status.Landed?;
        assert end.drones[i].index >= |m.waypoints|;
        IndexWasReached(norm, start, events, i, k);
      }
    }
  }

  // ----- how soon it is over -----

  function AtLeastOne(n: nat): nat {
    if n == 0 then 1 else n
  }

  /** Ticks to come down from a height. */
  function Down(z: real, step: Step): nat
  {
    AtLeastOne(StepsToCover(z - LANDED_BELOW, step))
  }

  /** Ticks from arriving at the j-th waypoint to landing. */
  function Onward(norm: Norm, waypoints: seq<Vec>, j: nat, step: Step): (n: nat)
    requires j < |waypoints|
    ensures n >= 1
    decreases |waypoints| - j
  {
    if j == |waypoints| - 1 then Down(waypoints[j].z + ARRIVAL_TOLERANCE, step)
    else AtLeastOne(StepsToCover(Dist(norm, waypoints[j], waypoints[j + 1]), step)) + Onward(norm, waypoints, j + 1, step)
  }

  function Approach(norm: Norm, position: Vec, target: Vec, step: Step): nat
  {
    StepsToCover(Dist(norm, position, target) - ARRIVAL_TOLERANCE, step)
  }

  /** Ticks a drone on a route has left, at most. */
  function Left(norm: Norm, d: Drone, waypoints: seq<Vec>, offset: Vec, step: Step): nat
  {
    if d.status.Landed? then 0
    else if d.index >= |waypoints| then Down(d.position.z, step)
    else Approach(norm, d.position, waypoints[d.index].Add(offset), step) + Onward(norm, waypoints, d.index, step)
  }

  lemma VerticalNorm(norm: Norm, h: real)
    requires IsNorm(norm)
    ensures norm(Vec(0.0, 0.0, h)) == Abs(h)
  {
    NormFacts(norm, Vec(0.0, 0.0, h));
    SquareOfAbs(h);
    SquareUnique(norm(Vec(0.0, 0.0, h)), Abs(h));
  }

  lemma DescendedHeight(norm: Norm, d: Drone, step: Step)
    requires IsNorm(norm)
    ensures var ground := Vec(d.position.x, d.position.y, 0.0);
      var lower := Towards(norm, d.position, ground, step);
      lower.z <= LANDED_BELOW || lower.z == d.position.z - step
  {
    var z := d.position.z;
    VerticalNorm(norm, -z);
    assert Vec(d.position.x, d.position.y, 0.0).Sub(d.position) == Vec(0.0, 0.0, -z);
    if Abs(z) > step {
      Ratio(step, Abs(z), step / Abs(z));
      Fraction(z, step / Abs(z), step);
    }
  }

  lemma Fraction(z: real, k: real, step: real)
    requires 0.0 <= k <= 1.0 && k * Abs(z) == step
    ensures z >= 0.0 ==> -z * k == -step
    ensures z < 0.0 ==> z + -z * k <= 0.0
  {
    if z < 0.0 {
      ScaleOrder(-z, k, 1.0);
    }
  }

  lemma DownOneLess(z: real, step: Step)
    ensures z - step > LANDED_BELOW ==> Down(z - step, step) + 1 <= Down(z, step)
  {
    if z - step > LANDED_BELOW {
      OneStepFewer(z - LANDED_BELOW, step);
    }
  }

  lemma DownOrder(low: real, high: real, step: Step)
    requires low <= high
    ensures Down(low, step) <= Down(high, step)
  {
    MoreToCover(low - LANDED_BELOW, high - LANDED_BELOW, step);
  }

  /** A tick of descent: landed, or one tick fewer to go. */
  lemma DescendedNearer(norm: Norm, d: Drone, step: Step)
    requires IsNorm(norm)
    ensures var after := Descended(norm, d, step);
      after.status.Landed? || (after.status.Landing? && Down(after.position.z, step) + 1 <= Down(d.position.z, step))
  {
    DescendedHeight(norm, d, step);
    DownOneLess(d.position.z, step);
  }

  lemma SameDistance(norm: Norm, a: Vec, b: Vec, offset: Vec)
    ensures Dist(norm, a.Add(offset), b.Add(offset)) == Dist(norm, a, b)
  {
    assert a.Add(offset).Sub(b.Add(offset)) == a.Sub(b);
  }

  /** A step towards a target from no further than `far`: one tick fewer than it took from there. */
  lemma StepNearer(norm: Norm, position: Vec, target: Vec, far: real, step: Step)
    requires IsNorm(norm) && Dist(norm, position, target) <= far + ARRIVAL_TOLERANCE
    ensures Approach(norm, Towards(norm, position, target, step), target, step) + 1 <= AtLeastOne(StepsToCover(far, step))
  {
    StepDistance(norm, position, target, step);
    OneStepFewer(far, step);
    MoreToCover(Dist(norm, Towards(norm, position, target, step), target) - ARRIVAL_TOLERANCE, Positive(far - step), step);
  }

  lemma NextLeg(norm: Norm, position: Vec, waypoints: seq<Vec>, j: nat, offset: Vec, step: Step)
    requires IsNorm(norm) && j + 1 < |waypoints|
    requires Dist(norm, position, waypoints[j].Add(offset)) <= ARRIVAL_TOLERANCE
    ensures var target := waypoints[j + 1].Add(offset);
      Approach(norm, Towards(norm, position, target, step), target, step) + Onward(norm, waypoints, j + 1, step) + 1
      <= Onward(norm, waypoints, j, step)
  {
    var here, target := waypoints[j].Add(offset), waypoints[j + 1].Add(offset);
    DistTriangle(norm, position, here, target);
    SameDistance(norm, waypoints[j], waypoints[j + 1], offset);
    StepNearer(norm, position, target, Dist(norm, waypoints[j], waypoints[j + 1]), step);
  }

  lemma LastLeg(norm: Norm, d: Drone, waypoints: seq<Vec>, offset: Vec, step: Step)
    requires IsNorm(norm) && d.index == |waypoints| - 1 && offset.z == 0.0
    requires Dist(norm, d.position, waypoints[d.index].Add(offset)) <= ARRIVAL_TOLERANCE
    ensures Down(d.position.z, step) <= Onward(norm, waypoints, d.index, step)
  {
    HeightWithinDist(norm, d.position, waypoints[d.index].Add(offset));
    DownOrder(d.position.z, waypoints[d.index].z + ARRIVAL_TOLERANCE, step);
  }

  /** Every tick brings a drone on a route at least one tick nearer to having landed. */
  lemma MovedNearer(norm: Norm, d: Drone, waypoints: seq<Vec>, offset: Vec, step: Step)
    requires IsNorm(norm) && offset.z == 0.0 && !d.status.Landed?
    ensures Left(norm, Moved(norm, d, waypoints, offset, step), waypoints, offset, step) + 1 <= Left(norm, d, waypoints, offset, step)
  {
    if d.index >= |waypoints| {
      DescendedNearer(norm, d, step);
    } else if !Arrived(norm, d, waypoints, offset) {
      var target := waypoints[d.index].Add(offset);
      StepNearer(norm, d.position, target, Dist(norm, d.position, target) - ARRIVAL_TOLERANCE, step);
    } else if d.index + 1 < |waypoints| {
      NextLeg(norm, d.position, waypoints, d.index, offset, step);
    } else {
      LastLeg(norm, d, waypoints, offset, step);
      DescendedNearer(norm, d.(index := d.index + 1), step);
    }
  }

  // ----- followers -----

  lemma TowardsHeight(norm: Norm, current: Vec, target: Vec, step: Step, h: real)
    requires IsNorm(norm) && current.z <= h && target.z <= h
    ensures Towards(norm, current, target, step).z <= h
  {
    var distance := norm(target.Sub(current));
    NormFacts(norm, target.Sub(current));
    if distance > step {
      Ratio(step, distance, step / distance);
      Mixed(current.z, target.z, step / distance, h);
    }
  }

  lemma Mixed(a: real, b: real, k: real, h: real)
    requires 0.0 <= k <= 1.0 && a <= h && b <= h
    ensures a + (b - a) * k <= h
  {
    PartOf(b - a, h - a, k);
  }

  lemma PartOf(x: real, y: real, k: real)
    requires 0.0 <= k <= 1.0 && x <= y && 0.0 <= y
    ensures x * k <= y
  {
    ScaleOrder(k, x, y);
    ScaleOrder(y, k, 1.0);
    assert x * k <= y * k;
  }

  /** The highest a mission takes anybody. */
  function Highest(waypoints: seq<Vec>): (h: real)
    ensures h >= 0.0 && forall k :: 0 <= k < |waypoints| ==> waypoints[k].z <= h
  {
    if waypoints == [] then 0.0
    else
      var rest := Highest(waypoints[1..]);
      assert forall k :: 1 <= k < |waypoints| ==> waypoints[k] == waypoints[1..][k - 1];
      if waypoints[0].z > rest then waypoints[0].z else rest
  }

  lemma DescendedBelow(norm: Norm, d: Drone, step: Step, h: real)
    requires IsNorm(norm) && d.position.z <= h && h >= 0.0
    ensures Descended(norm, d, step).position.z <= h
  {
    TowardsHeight(norm, d.position, Vec(d.position.x, d.position.y, 0.0), step, h);
  }

  lemma MovedBelow(norm: Norm, d: Drone, waypoints: seq<Vec>, offset: Vec, step: Step, h: real)
    requires IsNorm(norm) && offset.z == 0.0 && d.position.z <= h && h >= Highest(waypoints)
    ensures Moved(norm, d, waypoints, offset, step).position.z <= h
  {
    var next := if Arrived(norm, d, waypoints, offset) then d.(index := d.index + 1) else d;
    if next.index >= |waypoints| {
      DescendedBelow(norm, next, step, h);
    } else {
      TowardsHeight(norm, next.position, waypoints[next.index].Add(offset), step, h);
    }
  }

  function FollowerLeft(norm: Norm, d: Drone, leader: Drone, waypoints: seq<Vec>, step: Step): nat
  {
    if d.status.Landed? then 0
    else if ComingDown(leader) then Down(d.position.z, step)
    else Left(norm, leader, waypoints, ORIGIN, step) + Down(Highest(waypoints), step)
  }

  lemma FollowedNearer(norm: Norm, d: Drone, leader: Drone, waypoints: seq<Vec>, offset: Vec, step: Step, seconds: real,
                       now: real)
    requires IsNorm(norm) && offset.z == 0.0 && !d.status.Landed? && !leader.status.Idle?
    requires d.position.z <= Highest(waypoints) && leader.position.z <= Highest(waypoints)
    requires ComingDown(leader) ==> leader.index >= |waypoints|
    ensures var led := Moved(norm, leader, waypoints, ORIGIN, step);
      var after := Followed(norm, d, led, offset, step, seconds, now);
      && after.position.z <= Highest(waypoints)
      && FollowerLeft(norm, after, led, waypoints, step) + 1 <= FollowerLeft(norm, d, leader, waypoints, step)
  {
    var led := Moved(norm, leader, waypoints, ORIGIN, step);
    MovedOnTask(norm, leader, waypoints, ORIGIN, step);
    MovedBelow(norm, leader, waypoints, ORIGIN, step, Highest(waypoints));
    if ComingDown(led) {
      DescendedNearer(norm, d, step);
      DescendedBelow(norm, d, step, Highest(waypoints));
      DownOrder(d.position.z, Highest(waypoints), step);
      if !ComingDown(leader) {
        MovedNearer(norm, leader, waypoints, ORIGIN, step);
      }
    } else {
      MovedNearer(norm, leader, waypoints, ORIGIN, step);
      TowardsHeight(norm, d.position, led.position.Add(offset), step, Highest(waypoints));
    }
  }

  // ----- a mission left alone -----

  /** Read `n` times, `dt` apart. */
  function Polled(norm: Norm, s: Swarm, dt: real, n: nat): (after: Swarm)
    requires Valid(s)
    ensures Valid(after) && after.mission == s.mission && |after.drones| == |s.drones|
    decreases n
  {
    if n == 0 then s else Polled(norm, Next(norm, s, Timed(s.lastTick + dt, Read)), dt, n - 1)
  }

  function TicksLeft(norm: Norm, m: Mission, drones: seq<Drone>, i: nat, step: Step): nat
    requires i < |drones|
  {
    if FliesRoute(m, i) then Left(norm, drones[i], m.waypoints, OffsetOf(m, i), step)
    else FollowerLeft(norm, drones[i], drones[0], m.waypoints, step)
  }

  ghost predicate Below(m: Mission, drones: seq<Drone>) {
    forall i :: 0 <= i < |drones| ==> drones[i].position.z <= Highest(m.waypoints)
  }

  ghost predicate Level(offsets: seq<Vec>) {
    forall i :: 0 <= i < |offsets| ==> offsets[i].z == 0.0
  }

  ghost predicate LeftAlone(s: Swarm) {
    OnTask(s) && s.active.Some? && Below(s.mission.value, s.drones) && Level(s.offsets)
  }

  lemma TickedSame(d: Drone, seconds: real, now: real)
    ensures var t := Ticked(d, seconds, now);
      t.position == d.position && t.index == d.index && t.status == d.status
  {
  }

  lemma RouteTick(norm: Norm, m: Mission, d: Drone, i: nat, step: Step, seconds: real, now: real)
    requires IsNorm(norm) && FliesRoute(m, i) && d.position.z <= Highest(m.waypoints)
    ensures var after := Flown(norm, d, m.waypoints, OffsetOf(m, i), step, seconds, now);
      && after.position.z <= Highest(m.waypoints)
      && (d.status.Landed? ==> after.status.Landed?)
      && (!d.status.Landed? ==>
           Left(norm, after, m.waypoints, OffsetOf(m, i), step) + 1 <= Left(norm, d, m.waypoints, OffsetOf(m, i), step))
  {
    var t := Ticked(d, seconds, now);
    TickedSame(d, seconds, now);
    MovedBelow(norm, t, m.waypoints, OffsetOf(m, i), step, Highest(m.waypoints));
    if !d.status.Landed? {
      MovedNearer(norm, t, m.waypoints, OffsetOf(m, i), step);
    }
  }

  lemma FollowerTick(norm: Norm, d: Drone, leader: Drone, waypoints: seq<Vec>, offset: Vec, step: Step, seconds: real,
                     now: real)
    requires IsNorm(norm) && offset.z == 0.0 && !leader.status.Idle?
    requires d.position.z <= Highest(waypoints) && leader.position.z <= Highest(waypoints)
    requires ComingDown(leader) ==> leader.index >= |waypoints|
    ensures var led := Flown(norm, leader, waypoints, ORIGIN, step, seconds, now);
      var after := Followed(norm, d, led, offset, step, seconds, now);
      && after.position.z <= Highest(waypoints)
      && (d.status.Landed? ==> after.status.Landed?)
      && (!d.status.Landed? ==>
           FollowerLeft(norm, after, led, waypoints, step) + 1 <= FollowerLeft(norm, d, leader, waypoints, step))
  {
    TickedSame(leader, seconds, now);
    if !d.status.Landed? {
      FollowedNearer(norm, d, Ticked(leader, seconds, now), waypoints, offset, step, seconds, now);
    }
  }

  ghost predicate Nearer(norm: Norm, m: Mission, drones: seq<Drone>, after: seq<Drone>, i: nat, step: Step)
    requires i < |drones| == |after|
  {
    && after[i].position.z <= Highest(m.waypoints)
    && (drones[i].status.Landed? ==> after[i].status.Landed?)
    && (!drones[i].status.Landed? ==> TicksLeft(norm, m, after, i, step) + 1 <= TicksLeft(norm, m, drones, i, step))
  }

  /** One poll of a swarm on its mission, drone by drone. */
  lemma PollNext(norm: Norm, s: Swarm, now: real, dt: real, i: nat)
    requires LeftAlone(s) && dt == now - s.lastTick > 0.0 && i < |s.drones|
    ensures var m, after := s.mission.value, Next(norm, s, Timed(now, Read)).drones;
      after[i] ==
        if FliesRoute(m, i) then Flown(norm, s.drones[i], m.waypoints, OffsetOf(m, i), SPEED * dt, dt, now)
        else Followed(norm, s.drones[i], after[0], s.offsets[i - 1], SPEED * dt, dt, now)
  {
    var after := Next(norm, s, Timed(now, Read)).drones;
    DroneMoves(norm, s, Timed(now, Read), dt, i);
    OnMission(norm, s, after[0], i, SPEED * dt, dt, now);
  }

  lemma OnMission(norm: Norm, s: Swarm, first: Drone, i: nat, step: Step, seconds: real, now: real)
    requires Valid(s) && s.mission.Some? && s.command.None? && i < |s.drones|
    ensures var m := s.mission.value;
      After(norm, s, first, i, step, seconds, now) ==
        if FliesRoute(m, i) then Flown(norm, s.drones[i], m.waypoints, OffsetOf(m, i), step, seconds, now)
        else Followed(norm, s.drones[i], first, s.offsets[i - 1], step, seconds, now)
  {
  }

  lemma RouteNearer(norm: Norm, m: Mission, drones: seq<Drone>, after: seq<Drone>, i: nat, step: Step, seconds: real,
                    now: real)
    requires IsNorm(norm) && i < |drones| == |after| && FliesRoute(m, i) && Below(m, drones)
    requires after[i] == Flown(norm, drones[i], m.waypoints, OffsetOf(m, i), step, seconds, now)
    ensures Nearer(norm, m, drones, after, i, step)
  {
    RouteTick(norm, m, drones[i], i, step, seconds, now);
  }

  lemma FollowerNearer(norm: Norm, m: Mission, drones: seq<Drone>, after: seq<Drone>, i: nat, offset: Vec, step: Step,
                       seconds: real, now: real)
    requires IsNorm(norm) && 0 < i < |drones| == |after| && !FliesRoute(m, i) && Below(m, drones)
    requires offset.z == 0.0 && Flying(m, drones, 0)
    requires after[0] == Flown(norm, drones[0], m.waypoints, OffsetOf(m, 0), step, seconds, now)
    requires after[i] == Followed(norm, drones[i], after[0], offset, step, seconds, now)
    ensures Nearer(norm, m, drones, after, i, step)
  {
    FollowerTick(norm, drones[i], drones[0], m.waypoints, offset, step, seconds, now);
  }

  lemma PollRoute(norm: Norm, s: Swarm, now: real, dt: real, i: nat)
    requires IsNorm(norm) && LeftAlone(s) && dt == now - s.lastTick > 0.0 && i < |s.drones| && FliesRoute(s.mission.value, i)
    ensures Nearer(norm, s.mission.value, s.drones, Next(norm, s, Timed(now, Read)).drones, i, SPEED * dt)
  {
    var m, after := s.mission.value, Next(norm, s, Timed(now, Read)).drones;
    PollNext(norm, s, now, dt, i);
    RouteNearer(norm, m, s.drones, after, i, SPEED * dt, dt, now);
  }

  lemma PollFollower(norm: Norm, s: Swarm, now: real, dt: real, i: nat)
    requires IsNorm(norm) && LeftAlone(s) && dt == now - s.lastTick > 0.0 && i < |s.drones| && !FliesRoute(s.mission.value, i)
    ensures Nearer(norm, s.mission.value, s.drones, Next(norm, s, Timed(now, Read)).drones, i, SPEED * dt)
  {
    var m, after := s.mission.value, Next(norm, s, Timed(now, Read)).drones;
    PollNext(norm, s, now, dt, 0);
    PollNext(norm, s, now, dt, i);
    assert Flying(m, s.drones, 0);
    FollowerNearer(norm, m, s.drones, after, i, s.offsets[i - 1], SPEED * dt, dt, now);
  }

  /** Every read brings every drone at least one tick nearer to having landed. */
  lemma PollNearer(norm: Norm, s: Swarm, now: real, dt: real, i: nat)
    requires IsNorm(norm) && LeftAlone(s) && dt == now - s.lastTick > 0.0 && i < |s.drones|
    ensures Nearer(norm, s.mission.value, s.drones, Next(norm, s, Timed(now, Read)).drones, i, SPEED * dt)
  {
    if FliesRoute(s.mission.value, i) {
      PollRoute(norm, s, now, dt, i);
    } else {
      PollFollower(norm, s, now, dt, i);
    }
  }

  lemma StillLeftAlone(norm: Norm, s: Swarm, now: real, dt: real)
    requires IsNorm(norm) && LeftAlone(s) && dt == now - s.lastTick > 0.0
    ensures LeftAlone(Next(norm, s, Timed(now, Read)))
  {
    OnTaskNext(norm, s, Timed(now, Read));
    var after := Next(norm, s, Timed(now, Read)).drones;
    forall i | 0 <= i < |after| ensures after[i].position.z <= Highest(s.mission.value.waypoints) {
      PollNearer(norm, s, now, dt, i);
    }
  }

  lemma {:induction false} LandedAfter(norm: Norm, s: Swarm, dt: real, n: nat, i: nat)
    requires IsNorm(norm) && LeftAlone(s) && dt > 0.0 && i < |s.drones|
    requires s.drones[i].status.Landed? || TicksLeft(norm, s.mission.value, s.drones, i, SPEED * dt) <= n
    ensures Polled(norm, s, dt, n).drones[i].status.Landed?
    ensures Polled(norm, s, dt, n).active == s.active
    decreases n
  {
    if n > 0 {
      var next := Next(norm, s, Timed(s.lastTick + dt, Read));
      OnePoll(norm, s, next, dt, i, n);
      LandedAfter(norm, next, dt, n - 1, i);
    } else {
      SomeTicksLeft(norm, s.mission.value, s.drones, i, SPEED * dt);
    }
  }

  lemma SomeTicksLeft(norm: Norm, m: Mission, drones: seq<Drone>, i: nat, step: Step)
    requires i < |drones|
    ensures TicksLeft(norm, m, drones, i, step) == 0 ==> drones[i].status.Landed?
  {
  }

  lemma OnePoll(norm: Norm, s: Swarm, next: Swarm, dt: real, i: nat, n: nat)
    requires IsNorm(norm) && LeftAlone(s) && dt > 0.0 && i < |s.drones| && n > 0
    requires next == Next(norm, s, Timed(s.lastTick + dt, Read))
    requires s.drones[i].status.Landed? || TicksLeft(norm, s.mission.value, s.drones, i, SPEED * dt) <= n
    ensures LeftAlone(next) && next.lastTick == s.lastTick + dt && next.active == s.active
    ensures next.drones[i].status.Landed? || TicksLeft(norm, s.mission.value, next.drones, i, SPEED * dt) <= n - 1
  {
    PollNearer(norm, s, s.lastTick + dt, dt, i);
    StillLeftAlone(norm, s, s.lastTick + dt, dt);
  }

  /** Ticks from dispatch until everybody has landed: to the first waypoint, along each leg and down, each
      rounded up; and for a formation's followers, down again from the greatest height they may have. */
  function MissionTicks(norm: Norm, m: Mission, dt: real): nat
    requires dt > 0.0
  {
    var route :=
      if m.waypoints == [] then 1
      else Approach(norm, ORIGIN, m.waypoints[0], SPEED * dt) + Onward(norm, m.waypoints, 0, SPEED * dt);
    if m.kind.WaypointFollow? then route else route + Down(Highest(m.waypoints), SPEED * dt)
  }

  lemma DispatchedLeftAlone(m: Mission, now: real)
    requires m.droneCount >= 1
    ensures LeftAlone(Dispatched(m, now))
  {
  }

  lemma FromOrigin(v: Vec)
    ensures ORIGIN.Add(v) == v
  {
  }

  lemma RouteTicks(norm: Norm, m: Mission, now: real, dt: real, i: nat)
    requires m.droneCount >= 1 && dt > 0.0 && i < m.droneCount && FliesRoute(m, i)
    ensures Left(norm, Grounded(m, i, now), m.waypoints, OffsetOf(m, i), SPEED * dt) ==
      if m.waypoints == [] then 1
      else Approach(norm, ORIGIN, m.waypoints[0], SPEED * dt) + Onward(norm, m.waypoints, 0, SPEED * dt)
  {
    if m.waypoints != [] {
      SameDistance(norm, ORIGIN, m.waypoints[0], OffsetOf(m, i));
      FromOrigin(OffsetOf(m, i));
    }
  }

  /** A mission polled at equal intervals, with no command, is over within that many ticks: every drone, leader
      and followers included, has landed, and the mission is reported complete. */
  lemma LandsInTime(norm: Norm, m: Mission, now: real, dt: real, n: nat)
    requires IsNorm(norm) && m.droneCount >= 1 && dt > 0.0 && n >= MissionTicks(norm, m, dt)
    ensures forall i :: 0 <= i < m.droneCount ==> Polled(norm, Dispatched(m, now), dt, n).drones[i].status.Landed?
    ensures ReportsComplete(Polled(norm, Dispatched(m, now), dt, n))
  {
    var start := Dispatched(m, now);
    DispatchedLeftAlone(m, now);
    forall i | 0 <= i < m.droneCount
      ensures Polled(norm, start, dt, n).drones[i].status.Landed? && Polled(norm, start, dt, n).active == start.active
    {
      RouteTicks(norm, m, now, dt, if FliesRoute(m, i) then i else 0);
      LandedAfter(norm, start, dt, n, i);
    }
    assert Polled(norm, start, dt, n).drones[0].status.Landed?;
  }
}
