/** What a command to the simulated swarm does, and where a mission sends everybody (SimulatedSwarmBridge.cs): the last
    command holds; it lands every drone where it is, keeps it in place or brings it down on its pad; and without
    one each drone makes for its own lane or for its place behind the leader. */
module SimulatedOrders {

  import opened Wrappers
  import opened Geometry
  import opened Missions
  import opened Trajectory
  import opened SimulatedSwarm
  import opened SimulatedRuns
  import Formations

  // ----- the last command holds -----

  predicate LastOrder(events: seq<Timed>, k: nat) {
    k < |events| && events[k].event.Order? && forall j :: k < j < |events| ==> events[j].event.Read?
  }

  /** In every run the swarm is under its last command, and a commanded mission is never reported complete. */
  lemma {:induction false} LastOrderHolds(norm: Norm, s: Swarm, events: seq<Timed>, k: nat)
    requires Valid(s)
    ensures LastOrder(events, k) ==>
      var end := Run(norm, s, events);
      end.command == Some(events[k].event.command) && !ReportsComplete(end)
    ensures (forall j :: 0 <= j < |events| ==> events[j].event.Read?) ==>
      var end := Run(norm, s, events);
      end.command == s.command && end.active == s.active
    decreases |events|
  {
    if events != [] {
      var next, rest := Next(norm, s, events[0]), events[1..];
      assert forall j :: 1 <= j < |events| ==> events[j] == rest[j - 1];
      assert forall j :: 0 <= j < |rest| ==> rest[j] == events[j + 1];
      LastOrderHolds(norm, next, rest, if k > 0 then k - 1 else 0);
    }
  }

  // ----- one drone under command -----

  ghost predicate Under(s: Swarm, command: Command) {
    Valid(s) && s.mission.Some? && s.command == Some(command)
  }

  predicate Flies(d: Drone) {
    !d.status.Landed? && !d.status.Idle?
  }

  lemma PollObeys(norm: Norm, s: Swarm, command: Command, dt: real, i: nat)
    requires Under(s, command) && dt > 0.0 && i < |s.drones|
    ensures var next := Next(norm, s, Timed(s.lastTick + dt, Read));
      && Under(next, command) && next.lastTick == s.lastTick + dt
      && next.drones[i] == Obeyed(norm, s.drones[i], command, SPEED * dt, dt, s.lastTick + dt)
  {
    DroneMoves(norm, s, Timed(s.lastTick + dt, Read), dt, i);
  }

  /** A drone under a command for `n` ticks. */
  function Commanded(norm: Norm, d: Drone, command: Command, dt: real, now: real, n: nat): Drone
    requires dt > 0.0
    decreases n
  {
    if n == 0 then d else Commanded(norm, Obeyed(norm, d, command, SPEED * dt, dt, now + dt), command, dt, now + dt, n - 1)
  }

  lemma {:induction false} PolledIsCommanded(norm: Norm, s: Swarm, command: Command, dt: real, n: nat, i: nat)
    requires Under(s, command) && dt > 0.0 && i < |s.drones|
    ensures Polled(norm, s, dt, n).drones[i] == Commanded(norm, s.drones[i], command, dt, s.lastTick, n)
    decreases n
  {
    if n > 0 {
      PollObeys(norm, s, command, dt, i);
      PolledIsCommanded(norm, Next(norm, s, Timed(s.lastTick + dt, Read)), command, dt, n - 1, i);
    }
  }

  lemma NoneOf(k: real)
    ensures 0.0 * k == 0.0
  {
  }

  /** A coordinate the target shares is left as it is. */
  lemma SharedCoordinates(norm: Norm, p: Vec, target: Vec, step: Step)
    ensures var next := Towards(norm, p, target, step);
      && (target.x == p.x ==> next.x == p.x)
      && (target.y == p.y ==> next.y == p.y)
      && (target.z == p.z ==> next.z == p.z)
  {
    var distance := norm(target.Sub(p));
    if distance > step && distance != 0.0 {
      NoneOf(step / distance);
    }
  }

  /** Straight down, landed on the last of `Down` ticks. */
  lemma DescendsStraight(norm: Norm, d: Drone, step: Step)
    requires IsNorm(norm) && !d.status.Landed?
    ensures var after := Descended(norm, d, step);
      && after.position.x == d.position.x && after.position.y == d.position.y && after.pad == d.pad
      && if Down(d.position.z, step) == 1 then after.status.Landed? && after.position.z == 0.0
         else
           && after.status.Landing? && after.position.z == d.position.z - step
           && Down(after.position.z, step) == Down(d.position.z, step) - 1
  {
    SharedCoordinates(norm, d.position, Vec(d.position.x, d.position.y, 0.0), step);
    DescendedHeight(norm, d, step);
    LowerStill(norm, d, step);
  }

  lemma LowerStill(norm: Norm, d: Drone, step: Step)
    requires IsNorm(norm)
    ensures var after := Descended(norm, d, step);
      && (Down(d.position.z, step) == 1 <==> after.status.Landed?)
      && (!after.status.Landed? ==> Down(after.position.z, step) == Down(d.position.z, step) - 1)
  {
    var z := d.position.z;
    DescendedHeight(norm, d, step);
    DescendedLow(norm, d, step);
    OneStepFewer(z - LANDED_BELOW, step);
    CoveredBy(z - LANDED_BELOW, step, 1);
  }

  /** A tick that could reach the ground does. */
  lemma DescendedLow(norm: Norm, d: Drone, step: Step)
    requires IsNorm(norm)
    ensures d.position.z - step <= LANDED_BELOW <==> Descended(norm, d, step).status.Landed?
  {
    var z := d.position.z;
    DescendedHeight(norm, d, step);
    VerticalNorm(norm, -z);
    assert Vec(d.position.x, d.position.y, 0.0).Sub(d.position) == Vec(0.0, 0.0, -z);
  }

  /** A drone told to hold stays where it is. */
  lemma HoldKeepsPlace(norm: Norm, s: Swarm, dt: real, n: nat, i: nat)
    requires Under(s, Hold) && dt > 0.0 && i < |s.drones|
    ensures var d, end := s.drones[i], Polled(norm, s, dt, n).drones[i];
      && end.position == d.position && end.index == d.index
      && (Flies(d) ==> Flies(end) && (n > 0 ==> end.status.Holding?))
  {
    PolledIsCommanded(norm, s, Hold, dt, n, i);
    Held(norm, s.drones[i], dt, s.lastTick, n);
  }

  lemma {:induction false} Held(norm: Norm, d: Drone, dt: real, now: real, n: nat)
    requires dt > 0.0
    ensures var end := Commanded(norm, d, Hold, dt, now, n);
      && end.position == d.position && end.index == d.index
      && (Flies(d) ==> Flies(end) && (n > 0 ==> end.status.Holding?))
    decreases n
  {
    if n > 0 {
      Held(norm, Obeyed(norm, d, Hold, SPEED * dt, dt, now + dt), dt, now + dt, n - 1);
    }
  }

  /** A drone told to land comes straight down, and has landed after exactly the ticks that takes. */
  lemma LandsWhereItIs(norm: Norm, s: Swarm, dt: real, n: nat, i: nat)
    requires IsNorm(norm) && Under(s, Command.Land) && dt > 0.0 && i < |s.drones| && Flies(s.drones[i])
    ensures var d, end := s.drones[i], Polled(norm, s, dt, n).drones[i];
      && end.position.x == d.position.x && end.position.y == d.position.y
      && (end.status.Landed? <==> n >= Down(d.position.z, SPEED * dt))
      && end.position.z == if end.status.Landed? then 0.0 else d.position.z - Span(n, SPEED * dt)
  {
    PolledIsCommanded(norm, s, Command.Land, dt, n, i);
    Lowered(norm, s.drones[i], dt, s.lastTick, n);
  }

  lemma {:induction false} Lowered(norm: Norm, d: Drone, dt: real, now: real, n: nat)
    requires IsNorm(norm) && Flies(d) && dt > 0.0
    ensures var end := Commanded(norm, d, Command.Land, dt, now, n);
      && end.position.x == d.position.x && end.position.y == d.position.y
      && (end.status.Landed? <==> n >= Down(d.position.z, SPEED * dt))
      && end.position.z == if end.status.Landed? then 0.0 else d.position.z - Span(n, SPEED * dt)
    decreases n
  {
    StillToGo(d.position.z, SPEED * dt);
    if n > 0 {
      var next := Obeyed(norm, d, Command.Land, SPEED * dt, dt, now + dt);
      DescendsStraight(norm, Ticked(d, dt, now + dt), SPEED * dt);
      if next.status.Landed? {
        StaysLanded(norm, next, Command.Land, dt, now + dt, n - 1);
      } else {
        Lowered(norm, next, dt, now + dt, n - 1);
      }
    }
  }

  lemma StillToGo(z: real, step: Step)
    ensures Down(z, step) >= 1
  {
  }

  lemma {:induction false} StaysLanded(norm: Norm, d: Drone, command: Command, dt: real, now: real, n: nat)
    requires dt > 0.0 && d.status.Landed?
    ensures var end := Commanded(norm, d, command, dt, now, n);
      end.status.Landed? && end.position == d.position && end.pad == d.pad
    decreases n
  {
    if n > 0 {
      StaysLanded(norm, Obeyed(norm, d, command, SPEED * dt, dt, now + dt), command, dt, now + dt, n - 1);
    }
  }

  // ----- back to the pad -----

  function OverPad(d: Drone): Vec {
    Vec(d.pad.x, d.pad.y, d.position.z)
  }

  /** How far a drone is from being above its pad. */
  function Away(norm: Norm, d: Drone): real {
    Dist(norm, d.position, OverPad(d))
  }

  /** Ticks until a drone on its way back is above its pad, as near as it gets. */
  function Back(norm: Norm, d: Drone, step: Step): nat {
    StepsToCover(Away(norm, d) - ARRIVAL_TOLERANCE, step)
  }

  lemma FewerBack(away: real, step: Step)
    requires away > ARRIVAL_TOLERANCE
    ensures StepsToCover(away - ARRIVAL_TOLERANCE, step) ==
            StepsToCover(Positive(away - step) - ARRIVAL_TOLERANCE, step) + 1
  {
    OneStepFewer(away - ARRIVAL_TOLERANCE, step);
  }

  /** A tick of the way back: nearer by a step, at the height it has. */
  lemma BackTick(norm: Norm, d: Drone, step: Step, seconds: real, now: real)
    requires IsNorm(norm) && Flies(d) && Away(norm, d) > ARRIVAL_TOLERANCE
    ensures var after := Obeyed(norm, d, ReturnToLaunch, step, seconds, now);
      && after.pad == d.pad && after.status.Returning? && after.position.z == d.position.z
      && Away(norm, after) == Positive(Away(norm, d) - step)
      && Back(norm, after, step) + 1 == Back(norm, d, step)
  {
    var after := Obeyed(norm, d, ReturnToLaunch, step, seconds, now);
    SharedCoordinates(norm, d.position, OverPad(d), step);
    assert after.position == Towards(norm, d.position, OverPad(d), step);
    assert OverPad(after) == OverPad(d);
    StepDistance(norm, d.position, OverPad(d), step);
    FewerBack(Away(norm, d), step);
  }

  /** A tick above the pad: straight down. */
  lemma OverPadTick(norm: Norm, d: Drone, step: Step, seconds: real, now: real)
    requires IsNorm(norm) && Flies(d) && Away(norm, d) <= ARRIVAL_TOLERANCE
    ensures var after := Obeyed(norm, d, ReturnToLaunch, step, seconds, now);
      && after.pad == d.pad && Away(norm, after) == Away(norm, d) && Back(norm, d, step) == 0
      && if Down(d.position.z, step) == 1 then after.status.Landed? && after.position.z == 0.0
         else
           && after.status.Landing? && after.position.z == d.position.z - step
           && Down(after.position.z, step) == Down(d.position.z, step) - 1
  {
    var after := Obeyed(norm, d, ReturnToLaunch, step, seconds, now);
    DescendsStraight(norm, Ticked(d, seconds, now), step);
    assert after.position.Sub(OverPad(after)) == d.position.Sub(OverPad(d));
    NothingBack(Away(norm, d), step);
  }

  lemma NothingBack(away: real, step: Step)
    requires away <= ARRIVAL_TOLERANCE
    ensures StepsToCover(away - ARRIVAL_TOLERANCE, step) == 0
  {
  }

  /** A drone sent back flies at the height it has until it is above its pad, comes down only there, and has landed on
      it, within tolerance, after exactly the ticks of the two. */
  ghost predicate Returned(norm: Norm, d: Drone, end: Drone, n: nat, step: Step) {
    && end.pad == d.pad
    && (n <= Back(norm, d, step) ==>
         end.position.z == d.position.z && Away(norm, end) == Positive(Away(norm, d) - Span(n, step)))
    && (end.position.z != d.position.z ==> Away(norm, end) <= ARRIVAL_TOLERANCE)
    && (end.status.Landed? <==> n >= Back(norm, d, step) + Down(d.position.z, step))
    && (end.status.Landed? ==> end.position.z == 0.0 && Away(norm, end) <= ARRIVAL_TOLERANCE)
  }

  lemma ReturnsToItsPad(norm: Norm, s: Swarm, dt: real, n: nat, i: nat)
    requires IsNorm(norm) && Under(s, ReturnToLaunch) && dt > 0.0 && i < |s.drones| && Flies(s.drones[i])
    ensures Returned(norm, s.drones[i], Polled(norm, s, dt, n).drones[i], n, SPEED * dt)
  {
    PolledIsCommanded(norm, s, ReturnToLaunch, dt, n, i);
    BroughtBack(norm, s.drones[i], dt, s.lastTick, n);
  }

  lemma {:induction false} BroughtBack(norm: Norm, d: Drone, dt: real, now: real, n: nat)
    requires IsNorm(norm) && Flies(d) && dt > 0.0
    ensures Returned(norm, d, Commanded(norm, d, ReturnToLaunch, dt, now, n), n, SPEED * dt)
    decreases n
  {
    var step: Step := SPEED * dt;
    DistFacts(norm, d.position, OverPad(d));
    if n == 0 {
      StillToGo(d.position.z, step);
    } else if Away(norm, d) > ARRIVAL_TOLERANCE {
      var next := Obeyed(norm, d, ReturnToLaunch, step, dt, now + dt);
      BackTick(norm, d, step, dt, now + dt);
      BroughtBack(norm, next, dt, now + dt, n - 1);
      ReturnedSince(norm, d, next, Commanded(norm, d, ReturnToLaunch, dt, now, n), n, step);
    } else {
      ComesDown(norm, d, dt, now, n);
      NothingBack(Away(norm, d), step);
    }
  }

  lemma ReturnedSince(norm: Norm, d: Drone, next: Drone, end: Drone, n: nat, step: Step)
    requires n > 0 && Returned(norm, next, end, n - 1, step)
    requires next.pad == d.pad && next.position.z == d.position.z
    requires Away(norm, next) == Positive(Away(norm, d) - step) && Back(norm, next, step) + 1 == Back(norm, d, step)
    ensures Returned(norm, d, end, n, step)
  {
    LessAgain(Away(norm, d), n, step);
  }

  lemma LessAgain(away: real, n: nat, step: Step)
    requires n > 0
    ensures Positive(Positive(away - step) - Span(n - 1, step)) == Positive(away - Span(n, step))
  {
    SpanPositive(n - 1, step);
  }

  /** Above its pad already: the rest is a descent. */
  lemma {:induction false} ComesDown(norm: Norm, d: Drone, dt: real, now: real, n: nat)
    requires IsNorm(norm) && Flies(d) && Away(norm, d) <= ARRIVAL_TOLERANCE && dt > 0.0
    ensures var end, step := Commanded(norm, d, ReturnToLaunch, dt, now, n), SPEED * dt;
      && end.pad == d.pad && Away(norm, end) == Away(norm, d)
      && (end.status.Landed? <==> n >= Down(d.position.z, step))
      && (end.status.Landed? ==> end.position.z == 0.0)
      && (n == 0 ==> end == d)
    decreases n
  {
    var step: Step := SPEED * dt;
    StillToGo(d.position.z, step);
    if n > 0 {
      var next := Obeyed(norm, d, ReturnToLaunch, step, dt, now + dt);
      OverPadTick(norm, d, step, dt, now + dt);
      if next.status.Landed? {
        StaysLanded(norm, next, ReturnToLaunch, dt, now + dt, n - 1);
      } else {
        ComesDown(norm, next, dt, now + dt, n - 1);
      }
    }
  }

  // ----- since a dispatch -----

  /** What no step changes, and what the battery has cost. */
  ghost predicate StaysItself(d: Drone, after: Drone, seconds: real) {
    && after.pad == d.pad && (Flies(d) ==> !after.status.Idle?)
    && after.battery == if Flies(d) then Positive(d.battery - BATTERY_DRAIN * seconds) else d.battery
  }

  lemma AfterStaysItself(norm: Norm, s: Swarm, first: Drone, i: nat, step: Step, seconds: real, now: real, after: Drone)
    requires Valid(s) && s.mission.Some? && i < |s.drones|
    requires after == After(norm, s, first, i, step, seconds, now)
    ensures StaysItself(s.drones[i], after, seconds)
  {
  }

  lemma NextStaysItself(norm: Norm, s: Swarm, t: Timed, i: nat)
    requires Valid(s) && s.mission.Some? && i < |s.drones|
    ensures var after := Next(norm, s, t);
      && after.lastTick == t.at && after.offsets == s.offsets
      && if Moves(s, t.at) then StaysItself(s.drones[i], after.drones[i], t.at - s.lastTick)
         else after.drones[i] == s.drones[i]
  {
    if Moves(s, t.at) {
      var after, seconds := Next(norm, s, t).drones, t.at - s.lastTick;
      DroneMoves(norm, s, t, seconds, i);
      AfterStaysItself(norm, s, after[0], i, SPEED * seconds, seconds, t.at, after[i]);
    }
  }

  /** How long a drone has been in the air during a run. */
  function Airtime(norm: Norm, s: Swarm, events: seq<Timed>, i: nat): (time: real)
    requires Valid(s) && i < |s.drones|
    ensures time >= 0.0
    decreases |events|
  {
    if events == [] then 0.0
    else
      (if Flies(s.drones[i]) then Positive(events[0].at - s.lastTick) else 0.0)
      + Airtime(norm, Next(norm, s, events[0]), events[1..], i)
  }

  /** In every run a drone keeps its pad, the swarm its offsets, and the battery has paid for exactly the time flown. */
  lemma {:induction false} BatteryIsAirtime(norm: Norm, s: Swarm, events: seq<Timed>, i: nat)
    requires Valid(s) && s.mission.Some? && i < |s.drones| && s.drones[i].battery >= 0.0
    ensures var d, end := s.drones[i], Run(norm, s, events);
      && end.drones[i].pad == d.pad && end.offsets == s.offsets
      && (!d.status.Idle? ==> !end.drones[i].status.Idle?)
      && end.drones[i].battery == Positive(d.battery - BATTERY_DRAIN * Airtime(norm, s, events, i))
    decreases |events|
  {
    if events != [] {
      var next := Next(norm, s, events[0]);
      NextStaysItself(norm, s, events[0], i);
      NextSettles(norm, s, events[0], i);
      BatteryIsAirtime(norm, next, events[1..], i);
    }
  }

  /** However a mission has gone since its dispatch, a drone told to return that has not landed yet does so within tolerance
      of the place it started from, after exactly the ticks of its way there and down. */
  lemma BackWhereItStarted(norm: Norm, m: Mission, now: real, events: seq<Timed>, at: real, dt: real, n: nat, i: nat)
    requires IsNorm(norm) && m.droneCount >= 1 && dt > 0.0 && i < m.droneCount
    ensures var start := Dispatched(m, now);
      var sent := Next(norm, Run(norm, start, events), Timed(at, Order(ReturnToLaunch)));
      var d, end, step := sent.drones[i], Polled(norm, sent, dt, n).drones[i], SPEED * dt;
      !d.status.Landed? ==>
        && (end.status.Landed? <==> n >= Back(norm, d, step) + Down(d.position.z, step))
        && (end.status.Landed? ==> Dist(norm, end.position, start.drones[i].position) <= ARRIVAL_TOLERANCE)
  {
    var start := Dispatched(m, now);
    var before := Run(norm, start, events);
    var order := Timed(at, Order(ReturnToLaunch));
    BatteryIsAirtime(norm, start, events + [order], i);
    RunOneMore(norm, start, events, order);
    if !Next(norm, before, order).drones[i].status.Landed? {
      ReturnsToItsPad(norm, Next(norm, before, order), dt, n, i);
    }
  }

  lemma {:induction false} RunOneMore(norm: Norm, s: Swarm, events: seq<Timed>, last: Timed)
    requires Valid(s)
    ensures Run(norm, s, events + [last]) == Next(norm, Run(norm, s, events), last)
    decreases |events|
  {
    if events == [] {
      assert events + [last] == [last];
    } else {
      assert (events + [last])[1..] == events[1..] + [last];
      RunOneMore(norm, Next(norm, s, events[0]), events[1..], last);
    }
  }

  // ----- where a mission sends everybody -----

  /** Straight for a point, by a step of the swarm's speed. */
  ghost predicate MadeFor(norm: Norm, d: Drone, after: Drone, target: Vec, seconds: real) {
    && Dist(norm, after.position, target) == Positive(Dist(norm, d.position, target) - SPEED * seconds)
    && Dist(norm, after.position, d.position) <= SPEED * seconds
  }

  function InLane(w: Vec, i: nat, m: Mission): Vec {
    if m.kind.WaypointFollow? then Vec(w.x, w.y + i as real * m.spacing, w.z) else w
  }

  /** One tick of a drone on a route: it counts the waypoint it is at as reached and makes for the next of its lane, or
      comes down after the last. */
  ghost predicate OnRoute(norm: Norm, m: Mission, i: nat, d: Drone, after: Drone, seconds: real) {
    && after.index == (
         if d.index < |m.waypoints| && Dist(norm, d.position, InLane(m.waypoints[d.index], i, m)) <= ARRIVAL_TOLERANCE
         then d.index + 1 else d.index)
    && if after.index < |m.waypoints|
       then
         && MadeFor(norm, d, after, InLane(m.waypoints[after.index], i, m), seconds)
         && (after.status.TakingOff? || after.status.InFlight?)
         && (after.status.TakingOff? <==> after.index == 0 && d.position.z < m.waypoints[0].z - ARRIVAL_TOLERANCE)
       else ComingDown(after) && after.position.x == d.position.x && after.position.y == d.position.y
  }

  /** One tick of a follower: it makes for its slot beside where the leader has just gone, or comes down with it. */
  ghost predicate InSlot(norm: Norm, m: Mission, i: nat, d: Drone, leader: Drone, after: Drone, seconds: real)
    requires i > 0
  {
    if ComingDown(leader) then ComingDown(after) && after.position.x == d.position.x && after.position.y == d.position.y
    else
      && !ComingDown(after)
      && MadeFor(norm, d, after, leader.position.Add(FollowerOffset(m.formation, i - 1, m.spacing)), seconds)
  }

  lemma InLaneIsOffset(w: Vec, i: nat, m: Mission)
    requires FliesRoute(m, i)
    ensures w.Add(OffsetOf(m, i)) == InLane(w, i, m)
  {
  }

  lemma RouteTickRight(norm: Norm, m: Mission, i: nat, d: Drone, after: Drone, seconds: real, now: real)
    requires IsNorm(norm) && FliesRoute(m, i) && !d.status.Landed? && seconds > 0.0
    requires after == Flown(norm, d, m.waypoints, OffsetOf(m, i), SPEED * seconds, seconds, now)
    ensures OnRoute(norm, m, i, d, after, seconds)
  {
    FlownSettles(norm, d, m.waypoints, OffsetOf(m, i), SPEED * seconds, seconds, now);
    if d.index < |m.waypoints| {
      InLaneIsOffset(m.waypoints[d.index], i, m);
    }
    if after.index < |m.waypoints| {
      InLaneIsOffset(m.waypoints[after.index], i, m);
      StepDistance(norm, d.position, InLane(m.waypoints[after.index], i, m), SPEED * seconds);
    } else {
      SharedCoordinates(norm, d.position, Vec(d.position.x, d.position.y, 0.0), SPEED * seconds);
    }
  }

  lemma SlotTickRight(norm: Norm, m: Mission, i: nat, d: Drone, leader: Drone, after: Drone, seconds: real, now: real)
    requires IsNorm(norm) && i > 0 && !d.status.Landed? && seconds > 0.0
    requires after == Followed(norm, d, leader, FollowerOffset(m.formation, i - 1, m.spacing), SPEED * seconds, seconds, now)
    ensures InSlot(norm, m, i, d, leader, after, seconds)
  {
    StepDistance(norm, d.position, leader.position.Add(FollowerOffset(m.formation, i - 1, m.spacing)), SPEED * seconds);
    SharedCoordinates(norm, d.position, Vec(d.position.x, d.position.y, 0.0), SPEED * seconds);
  }

  /** In every run since a dispatch, as long as nothing is commanded: whenever time passes, each drone that has not landed
      makes for the next waypoint of its lane, or for its slot beside the leader. */
  lemma EverybodyHeadsRight(norm: Norm, m: Mission, start: real, events: seq<Timed>, t: Timed, i: nat)
    requires IsNorm(norm) && m.droneCount >= 1 && i < m.droneCount
    requires Run(norm, Dispatched(m, start), events).command.None?
    ensures var s := Run(norm, Dispatched(m, start), events);
      var after, seconds := Next(norm, s, t).drones, t.at - s.lastTick;
      seconds > 0.0 && !s.drones[i].status.Landed? ==>
        if FliesRoute(m, i) then OnRoute(norm, m, i, s.drones[i], after[i], seconds)
        else InSlot(norm, m, i, s.drones[i], after[0], after[i], seconds)
  {
    var s := Run(norm, Dispatched(m, start), events);
    BatteryIsAirtime(norm, Dispatched(m, start), events, i);
    if t.at - s.lastTick > 0.0 && !s.drones[i].status.Landed? {
      var after, seconds := Next(norm, s, t).drones, t.at - s.lastTick;
      DroneMoves(norm, s, t, seconds, i);
      OnMission(norm, s, after[0], i, SPEED * seconds, seconds, t.at);
      if FliesRoute(m, i) {
        RouteTickRight(norm, m, i, s.drones[i], after[i], seconds, t.at);
      } else {
        SlotTickRight(norm, m, i, s.drones[i], after[0], after[i], seconds, t.at);
      }
    }
  }

  // ----- where everybody starts -----

  /** At dispatch the drones stand on the ground, full, the first at the origin, and the others in their lanes or in the slots
      of the formation; no two closer than the spacing. */
  lemma StartsApart(norm: Norm, m: Mission, now: real, i: nat, j: nat)
    requires IsNorm(norm) && i < j < m.droneCount && m.spacing >= 0.0
    ensures var d, e := Dispatched(m, now).drones[i], Dispatched(m, now).drones[j];
      && |Dispatched(m, now).drones| == m.droneCount && d.battery == 100.0 && d.position == d.pad && e.position == e.pad
      && (i == 0 ==> d.position == ORIGIN)
      && e.position == (if m.kind.WaypointFollow? then Vec(0.0, j as real * m.spacing, 0.0)
                        else FollowerOffset(m.formation, j - 1, m.spacing))
      && d.position.z == e.position.z == 0.0
      && Dist(norm, e.position, d.position) >= m.spacing
  {
    if m.kind.WaypointFollow? {
      LanesApart(norm, i, j, m.spacing);
    } else if i > 0 {
      Formations.SlotsApart(norm, m.formation, j - 1, i - 1, m.spacing);
    } else {
      Formations.SlotsApart(norm, m.formation, j - 1, j, m.spacing);
    }
  }

  lemma LanesApart(norm: Norm, i: nat, j: nat, spacing: real)
    requires IsNorm(norm) && i < j && spacing >= 0.0
    ensures Dist(norm, LaneOffset(j, spacing), LaneOffset(i, spacing)) >= spacing
    ensures i == 0 ==> LaneOffset(i, spacing) == ORIGIN
  {
    var v := LaneOffset(j, spacing).Sub(LaneOffset(i, spacing));
    Formations.RanksApart(j, i, spacing);
    Formations.NoNearerThan(norm, v, spacing);
  }
}
