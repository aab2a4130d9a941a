/** A drone and its autopilot from the pad back to it (drone_controller.py, sim.py, harness.py): in calm air and without
    noise, a drone given a path takes off, flies to every waypoint in order, lands and is disarmed. */
module PathFlight {

  import opened Wrappers
  import opened Geometry
  import opened DroneControl
  import opened Flight
  import Approach
  import Autopilot
  import Offboard
  import Trajectory

  /** A moment of calm air, with the position read as it is. */
  function Still(now: real, dt: real, drain: real): Moment {
    Moment(now, ORIGIN, dt, Autopilot.CALM, drain)
  }

  /** A flight in calm air: the states of one step after another, `dt` apart, the first at `now`. */
  ghost predicate IsFlight(norm: Norm, flight: seq<Flying>, now: real, dt: real, drain: real) {
    forall k: nat {:trigger IsStep(norm, flight, now, dt, drain, k)} :: k + 1 < |flight| ==>
      IsStep(norm, flight, now, dt, drain, k)
  }

  ghost predicate IsStep(norm: Norm, flight: seq<Flying>, now: real, dt: real, drain: real, k: nat) {
    k + 1 < |flight| && Configured(flight[k]) && flight[k + 1] == Flown(norm, flight[k], Still(TimeAt(now, dt, k), dt, drain))
  }

  function TimeAt(now: real, dt: real, k: nat): real {
    now + Trajectory.Span(k, dt)
  }

  // ----- one step under power -----

  predicate Asking(phase: Offboard.Phase) {
    phase.RequestMode? || phase.RequestArm? || phase.Active?
  }

  /** Armed in OFFBOARD with a path to fly: off the ground, or still on it since it was armed. */
  ghost predicate Up(f: Flying, since: real) {
    && Configured(f) && f.v.limits.offboardLossTimeout >= 0.0
    && f.c.handover.None? && f.c.task.Path? && !f.c.task.queue.Complete() && Asking(f.c.offboard.phase)
    && f.v.armed && f.v.mode.OFFBOARD? && f.v.position.z >= 0.0 && f.v.groundedSince.None?
    && if f.v.tookOff then f.v.Airborne() else !f.v.Airborne() && f.v.armedAt == Some(since)
  }

  /** The waypoint the drone makes for on this step. */
  function Ahead(norm: Norm, f: Flying): Queue
    requires f.c.task.Path?
  {
    Advanced(norm, f.c.settings.tolerance, f.c.task.queue, f.v.position)
  }

  lemma SamePlace(p: Vec, home: Vec)
    ensures p.Add(ORIGIN) == p && p.Sub(home).Add(home) == p
  {
  }

  lemma UpControlled(norm: Norm, f: Flying, since: real, m: Moment, ahead: Queue)
    requires Up(f, since) && m.noise == ORIGIN && ahead == Ahead(norm, f) && !ahead.Complete()
    ensures var next := Controlled(norm, f, m);
      && next.c.settings == f.c.settings && next.c.task == Path(ahead) && next.c.handover.None? && next.c.offboard.phase.Active?
      && next.v == f.v.(setpoint := Some(Trajectory.Towards(norm, f.v.position, ahead.waypoints[ahead.index], f.c.settings.maxStep)),
                        setpointTime := Some(m.now))
  {
    var target := Trajectory.Towards(norm, f.v.position, ahead.waypoints[ahead.index], f.c.settings.maxStep);
    SamePlace(f.v.position, f.v.home);
    SamePlace(target, f.v.home);
  }

  /** Where a powered step takes the autopilot. */
  function StepsTo(norm: Norm, v: Autopilot.Craft, target: Vec, maxStep: real, dt: real): Vec
    requires Autopilot.Flyable(v.limits) && maxStep > 0.0
  {
    v.position.Add(Approach.Velocity(norm, v.limits, v.position, target, maxStep).Scale(dt))
  }

  ghost predicate Powered(norm: Norm, v: Autopilot.Craft, now: real, target: Vec, maxStep: real) {
    && Autopilot.Flyable(v.limits) && v.limits.offboardLossTimeout >= 0.0 && maxStep > 0.0
    && v.armed && v.mode.OFFBOARD? && v.position.z >= 0.0 && v.groundedSince.None?
    && v.setpoint == Some(Trajectory.Towards(norm, v.position, target, maxStep)) && v.setpointTime == Some(now)
  }

  lemma PositiveSpeed(z: real, vz: real, dt: real)
    requires dt > 0.0 && z + vz * dt > z
    ensures vz > 0.0
  {
    if vz <= 0.0 {
      ScaleOrder(dt, vz, 0.0);
    }
  }

  lemma AirborneSpeed(norm: Norm, v: Autopilot.Craft, now: real, target: Vec, maxStep: real)
    requires Powered(norm, v, now, target, maxStep) && v.Airborne()
    ensures Autopilot.Velocity(norm, v, Autopilot.CALM) == Approach.Velocity(norm, v.limits, v.position, target, maxStep)
  {
    var speed := Approach.Velocity(norm, v.limits, v.position, target, maxStep);
    Autopilot.Nothing(1.0 - v.limits.windRejection);
    assert speed.Add(Autopilot.CALM.Scale(1.0 - v.limits.windRejection)) == speed;
  }

  lemma GroundSpeed(norm: Norm, v: Autopilot.Craft, now: real, target: Vec, maxStep: real)
    requires Powered(norm, v, now, target, maxStep) && !v.Airborne()
    requires Approach.Velocity(norm, v.limits, v.position, target, maxStep).z > 0.0
    ensures Autopilot.Velocity(norm, v, Autopilot.CALM) == Approach.Velocity(norm, v.limits, v.position, target, maxStep)
  {
  }

  lemma PoweredMoves(norm: Norm, v: Autopilot.Craft, now: real, target: Vec, maxStep: real, dt: real, q: Vec)
    requires Powered(norm, v, now, target, maxStep) && dt > 0.0
    requires q == StepsTo(norm, v, target, maxStep, dt) && q.z >= 0.0 && (!v.Airborne() ==> q.z > v.position.z)
    ensures var after := Autopilot.Moved(norm, v, dt, Autopilot.CALM);
      after == v.(position := q, tookOff := v.tookOff || q.z > Autopilot.GROUND_TOLERANCE)
  {
    if v.Airborne() {
      AirborneSpeed(norm, v, now, target, maxStep);
    } else {
      PositiveSpeed(v.position.z, Approach.Velocity(norm, v.limits, v.position, target, maxStep).z, dt);
      GroundSpeed(norm, v, now, target, maxStep);
    }
  }

  /** The battery after a step, in which the air takes `use` of it. */
  lemma PoweredSteps(norm: Norm, v: Autopilot.Craft, now: real, target: Vec, maxStep: real, dt: real, drain: real, use: real, q: Vec)
    requires Powered(norm, v, now, target, maxStep) && dt > 0.0 && use == drain * dt && use >= 0.0 && v.battery > use
    requires q == StepsTo(norm, v, target, maxStep, dt) && q.z >= 0.0 && (!v.Airborne() ==> q.z > v.position.z)
    requires v.tookOff ==> q.z > Autopilot.GROUND_TOLERANCE
    requires !v.tookOff ==> v.armedAt.Some? && now - v.armedAt.value < v.limits.preflightDisarm
    ensures var after := Autopilot.Stepped(norm, v, now, dt, Autopilot.CALM, drain);
      && after.position == q && after.armed && after.mode.OFFBOARD? && after.limits == v.limits && after.home == v.home
      && after.tookOff == (q.z > Autopilot.GROUND_TOLERANCE) && after.armedAt == v.armedAt && after.groundedSince.None?
      && after.battery >= v.battery - use
  {
    var drained := Autopilot.Failsafe(Autopilot.Drained(v, dt, drain), now);
    assert drained == v.(battery := drained.battery) && drained.battery >= v.battery - use;
    PoweredMoves(norm, drained, now, target, maxStep, dt, q);
  }

  function Pace(f: Flying, reach: real, dt: real): real
    requires Configured(f) && Approach.Steers(f.v.limits, dt)
  {
    Approach.Rate(f.v.limits, f.c.settings.maxStep, reach, dt)
  }

  /** How much nearer a step comes, at the least, to a waypoint that is not reached yet. */
  function Nearer(f: Flying, reach: real, dt: real): real
    requires Configured(f) && Approach.Steers(f.v.limits, dt)
  {
    Pace(f, reach, dt) * f.c.settings.tolerance
  }

  /** What a flight keeps: settings, limits, home, and whose path it is. */
  ghost predicate SameFlight(f: Flying, g: Flying) {
    && g.c.settings == f.c.settings && g.v.limits == f.v.limits && g.v.home == f.v.home
    && f.c.task.Path? && g.c.task.Path? && g.c.task.queue.waypoints == f.c.task.queue.waypoints
  }

  /** The waypoint it is making for is above the ground and within reach, and the battery is good for the step. */
  ghost predicate CanStep(norm: Norm, f: Flying, since: real, now: real, dt: real, use: real, reach: real, ahead: Queue) {
    && IsNorm(norm) && Up(f, since) && Approach.Steers(f.v.limits, dt) && use >= 0.0 && f.v.battery > use
    && ahead == Ahead(norm, f) && !ahead.Complete()
    && ahead.waypoints[ahead.index].z > Autopilot.GROUND_TOLERANCE
    && Dist(norm, f.v.position, ahead.waypoints[ahead.index]) <= reach
    && (!f.v.tookOff ==> now - since < f.v.limits.preflightDisarm)
  }

  lemma StepPlace(norm: Norm, f: Flying, since: real, now: real, dt: real, use: real, reach: real, ahead: Queue, target: Vec,
                  q: Vec, rate: real)
    requires CanStep(norm, f, since, now, dt, use, reach, ahead) && target == ahead.waypoints[ahead.index]
    requires q == StepsTo(norm, f.v, target, f.c.settings.maxStep, dt) && rate == Pace(f, reach, dt)
    ensures 0.0 < rate <= 1.0 && Approach.Covers(f.v.position, target, q, rate)
    ensures q.z >= 0.0 && (f.v.Airborne() ==> q.z > Autopilot.GROUND_TOLERANCE)
    ensures !f.v.Airborne() ==> q.z >= f.v.position.z + rate * (target.z - Autopilot.GROUND_TOLERANCE) && q.z > f.v.position.z
  {
    DistFacts(norm, f.v.position, target);
    Approach.RateBounds(f.v.limits, f.c.settings.maxStep, reach, dt);
    Approach.StepCovers(norm, f.v.limits, f.v.position, target, f.c.settings.maxStep, reach, dt);
    Approach.Climbs(f.v.position, target, q, rate, Autopilot.GROUND_TOLERANCE);
    PositiveProduct(rate, target.z - Autopilot.GROUND_TOLERANCE, rate * (target.z - Autopilot.GROUND_TOLERANCE));
  }

  /** What the software and the autopilot make of a step that took the autopilot to `q`. */
  lemma UpAfter(f: Flying, g: Flying, since: real, ahead: Queue, use: real, q: Vec)
    requires Up(f, since) && !ahead.Complete() && ahead.waypoints == f.c.task.queue.waypoints
    requires g.c.settings == f.c.settings && g.c.task == Path(ahead) && g.c.handover.None? && g.c.offboard.phase.Active?
    requires g.v.position == q && g.v.armed && g.v.mode.OFFBOARD? && g.v.limits == f.v.limits && g.v.home == f.v.home
    requires g.v.tookOff == (q.z > Autopilot.GROUND_TOLERANCE) && g.v.armedAt == f.v.armedAt && q.z >= 0.0 && g.v.groundedSince.None?
    requires f.v.tookOff ==> g.v.tookOff
    ensures Up(g, since) && SameFlight(f, g)
  {
  }

  /** One step: the queue moves on if the waypoint is reached, and the drone covers its share of the way to the next. */
  lemma UpStep(norm: Norm, f: Flying, since: real, now: real, dt: real, drain: real, use: real, reach: real, ahead: Queue,
               target: Vec, g: Flying, rate: real)
    requires CanStep(norm, f, since, now, dt, use, reach, ahead) && use == drain * dt && target == ahead.waypoints[ahead.index]
    requires g == Flown(norm, f, Still(now, dt, drain)) && rate == Pace(f, reach, dt)
    ensures Up(g, since) && SameFlight(f, g) && g.c.task == Path(ahead) && g.v.battery >= f.v.battery - use
    ensures Approach.Covers(f.v.position, target, g.v.position, rate)
    ensures f.v.tookOff ==> g.v.tookOff
    ensures !f.v.tookOff ==> g.v.position.z >= f.v.position.z + rate * (target.z - Autopilot.GROUND_TOLERANCE)
  {
    var q := StepsTo(norm, f.v, target, f.c.settings.maxStep, dt);
    StepPlace(norm, f, since, now, dt, use, reach, ahead, target, q, rate);
    UpFlown(norm, f, since, now, dt, drain, use, reach, ahead, target, q, g);
  }

  lemma UpFlown(norm: Norm, f: Flying, since: real, now: real, dt: real, drain: real, use: real, reach: real, ahead: Queue,
                target: Vec, q: Vec, g: Flying)
    requires CanStep(norm, f, since, now, dt, use, reach, ahead) && use == drain * dt && target == ahead.waypoints[ahead.index]
    requires q == StepsTo(norm, f.v, target, f.c.settings.maxStep, dt) && g == Flown(norm, f, Still(now, dt, drain))
    requires q.z >= 0.0 && (f.v.Airborne() ==> q.z > Autopilot.GROUND_TOLERANCE) && (!f.v.Airborne() ==> q.z > f.v.position.z)
    ensures Up(g, since) && SameFlight(f, g) && g.c.task == Path(ahead) && g.v.battery >= f.v.battery - use
    ensures g.v.position == q && (f.v.tookOff ==> g.v.tookOff)
  {
    UpControlled(norm, f, since, Still(now, dt, drain), ahead);
    var next := Controlled(norm, f, Still(now, dt, drain));
    PoweredSteps(norm, next.v, now, target, f.c.settings.maxStep, dt, drain, use, q);
    UpAfter(f, g, since, ahead, use, q);
  }

  // ----- one leg -----

  /** Off the ground, within reach of its waypoint, and with battery for `steps` steps. */
  ghost predicate Aloft(norm: Norm, f: Flying, dt: real, use: real, reach: real, steps: nat) {
    && IsNorm(norm) && Up(f, 0.0) && f.v.tookOff && Approach.Steers(f.v.limits, dt) && use >= 0.0
    && f.v.battery > Trajectory.Span(steps, use) && f.c.settings.tolerance > 0.0
    && Dist(norm, f.v.position, f.c.task.queue.waypoints[f.c.task.queue.index]) <= reach
  }

  /** Every waypoint from `index` on is above the ground, and within reach of the one before it. */
  ghost predicate Reachable(norm: Norm, waypoints: seq<Vec>, index: nat, tolerance: real, reach: real) {
    forall j :: index <= j < |waypoints| ==>
      && waypoints[j].z > Autopilot.GROUND_TOLERANCE
      && (j > index ==> tolerance + Dist(norm, waypoints[j - 1], waypoints[j]) <= reach)
  }

  ghost predicate OnLeg(f: Flying, reach: real, dt: real, pace: real, target: Vec)
    requires Configured(f) && Approach.Steers(f.v.limits, dt)
  {
    && f.c.task.Path? && !f.c.task.queue.Complete() && target == f.c.task.queue.waypoints[f.c.task.queue.index]
    && target.z > Autopilot.GROUND_TOLERANCE && pace == Nearer(f, reach, dt)
  }

  /** What a step that covers its share makes of a leg. */
  lemma LegNearer(norm: Norm, f: Flying, g: Flying, dt: real, use: real, reach: real, pace: real, steps: nat, target: Vec)
    requires Aloft(norm, f, dt, use, reach, steps) && steps > 0
    requires OnLeg(f, reach, dt, pace, target) && Dist(norm, f.v.position, target) > f.c.settings.tolerance
    requires Up(g, 0.0) && SameFlight(f, g) && g.c.task == f.c.task && g.v.battery >= f.v.battery - use && g.v.tookOff
    requires Approach.Covers(f.v.position, target, g.v.position, Pace(f, reach, dt))
    ensures Aloft(norm, g, dt, use, reach, steps - 1) && OnLeg(g, reach, dt, pace, target)
    ensures Dist(norm, g.v.position, target) <= Dist(norm, f.v.position, target) - pace
  {
    Approach.RateBounds(f.v.limits, f.c.settings.maxStep, reach, dt);
    Approach.ComesNearer(norm, f.v.position, target, g.v.position, Pace(f, reach, dt), f.c.settings.tolerance);
  }

  lemma LegStep(norm: Norm, f: Flying, now: real, dt: real, drain: real, use: real, reach: real, pace: real, steps: nat,
                target: Vec, g: Flying)
    requires Aloft(norm, f, dt, use, reach, steps) && use == drain * dt && steps > 0
    requires OnLeg(f, reach, dt, pace, target) && Dist(norm, f.v.position, target) > f.c.settings.tolerance
    requires g == Flown(norm, f, Still(now, dt, drain))
    ensures Aloft(norm, g, dt, use, reach, steps - 1) && SameFlight(f, g) && g.c.task == f.c.task
    ensures OnLeg(g, reach, dt, pace, target)
    ensures Dist(norm, g.v.position, target) <= Dist(norm, f.v.position, target) - pace
  {
    Trajectory.SpanNotNegative(steps - 1, use);
    UpStep(norm, f, 0.0, now, dt, drain, use, reach, f.c.task.queue, target, g, Pace(f, reach, dt));
    LegNearer(norm, f, g, dt, use, reach, pace, steps, target);
  }

  /** The drone is at its waypoint, with the same path before it. */
  ghost predicate LegDone(norm: Norm, f: Flying, g: Flying, dt: real, use: real, reach: real, steps: nat, target: Vec) {
    && Aloft(norm, g, dt, use, reach, steps) && SameFlight(f, g) && g.c.task == f.c.task
    && Dist(norm, g.v.position, target) <= g.c.settings.tolerance
  }

  lemma StillDone(norm: Norm, f: Flying, next: Flying, g: Flying, dt: real, use: real, reach: real, steps: nat, target: Vec)
    requires SameFlight(f, next) && next.c.task == f.c.task && LegDone(norm, next, g, dt, use, reach, steps, target)
    ensures LegDone(norm, f, g, dt, use, reach, steps, target)
  {
  }

  /** Until it is within tolerance of its waypoint, the drone comes `pace` nearer on every step. */
  lemma {:induction false} LegFlown(norm: Norm, flight: seq<Flying>, now: real, dt: real, drain: real, use: real, reach: real,
                                    pace: Trajectory.Step, steps: nat, left: nat, target: Vec, k: nat)
    returns (n: nat)
    requires IsFlight(norm, flight, now, dt, drain) && use == drain * dt && left <= steps && k + left < |flight|
    requires Aloft(norm, flight[k], dt, use, reach, steps) && OnLeg(flight[k], reach, dt, pace, target)
    requires Dist(norm, flight[k].v.position, target) <= flight[k].c.settings.tolerance + Trajectory.Span(left, pace)
    ensures n <= left && LegDone(norm, flight[k], flight[k + n], dt, use, reach, steps - n, target)
    decreases left
  {
    if Dist(norm, flight[k].v.position, target) <= flight[k].c.settings.tolerance {
      n := 0;
    } else {
      assert IsStep(norm, flight, now, dt, drain, k);
      LegStep(norm, flight[k], TimeAt(now, dt, k), dt, drain, use, reach, pace, steps, target, flight[k + 1]);
      var rest := LegFlown(norm, flight, now, dt, drain, use, reach, pace, steps - 1, left - 1, target, k + 1);
      n := rest + 1;
      StillDone(norm, flight[k], flight[k + 1], flight[k + n], dt, use, reach, steps - n, target);
    }
  }

  // ----- the whole path -----

  /** A leg takes no more steps than this, and one more to turn to the next. */
  function LegSteps(reach: real, tolerance: real, pace: Trajectory.Step): nat {
    Trajectory.StepsToCover(reach - tolerance, pace) + 1
  }

  function PathSteps(legs: nat, leg: nat): nat {
    if legs == 0 then 0 else leg + PathSteps(legs - 1, leg)
  }

  /** At its waypoint, and not the last: the next step turns to the next, no further off than `reach`. */
  lemma TurnStep(norm: Norm, f: Flying, now: real, dt: real, drain: real, use: real, reach: real, steps: nat, index: nat,
                 target: Vec, g: Flying)
    requires Aloft(norm, f, dt, use, reach, steps) && use == drain * dt && steps > 0 && g == Flown(norm, f, Still(now, dt, drain))
    requires index == f.c.task.queue.index && index + 1 < |f.c.task.queue.waypoints| && target == f.c.task.queue.waypoints[index + 1]
    requires Reachable(norm, f.c.task.queue.waypoints, index, f.c.settings.tolerance, reach)
    requires Dist(norm, f.v.position, f.c.task.queue.waypoints[index]) <= f.c.settings.tolerance
    ensures Aloft(norm, g, dt, use, reach, steps - 1) && SameFlight(f, g)
    ensures g.c.task == Path(Queue(f.c.task.queue.waypoints, index + 1))
  {
    var here, ahead := f.c.task.queue.waypoints[index], Queue(f.c.task.queue.waypoints, index + 1);
    Trajectory.SpanNotNegative(steps - 1, use);
    DistTriangle(norm, f.v.position, here, target);
    UpStep(norm, f, 0.0, now, dt, drain, use, reach, ahead, target, g, Pace(f, reach, dt));
    Approach.RateBounds(f.v.limits, f.c.settings.maxStep, reach, dt);
    Approach.ComesNearer(norm, f.v.position, target, g.v.position, Pace(f, reach, dt), 0.0);
  }

  /** At step `k` of the flight the drone is within tolerance of the waypoint it is making for, the `i`-th of its path. */
  ghost predicate Reaches(norm: Norm, flight: seq<Flying>, k: nat, waypoints: seq<Vec>, i: nat) {
    && k < |flight| && i < |waypoints| && flight[k].c.task == Path(Queue(waypoints, i)) && flight[k].v.armed
    && Dist(norm, flight[k].v.position, waypoints[i]) <= flight[k].c.settings.tolerance
  }

  /** The steps at which it reaches one waypoint after another, from the `index`-th to the last. */
  ghost predicate Visits(norm: Norm, flight: seq<Flying>, waypoints: seq<Vec>, index: nat, at: seq<nat>) {
    && index + |at| == |waypoints|
    && (forall i :: 0 <= i < |at| ==> Reaches(norm, flight, at[i], waypoints, index + i))
    && (forall i, j :: 0 <= i < j < |at| ==> at[i] < at[j])
  }

  lemma OneMoreVisit(norm: Norm, flight: seq<Flying>, waypoints: seq<Vec>, index: nat, first: nat, rest: seq<nat>)
    requires Reaches(norm, flight, first, waypoints, index) && Visits(norm, flight, waypoints, index + 1, rest)
    requires forall i :: 0 <= i < |rest| ==> first < rest[i]
    ensures Visits(norm, flight, waypoints, index, [first] + rest)
  {
    var at := [first] + rest;
    forall i | 0 <= i < |at| ensures Reaches(norm, flight, at[i], waypoints, index + i) {
      if i > 0 {
        assert at[i] == rest[i - 1] && index + i == index + 1 + (i - 1);
      }
    }
  }

  lemma {:induction false} MoreSpan(less: nat, more: nat, step: real)
    requires step >= 0.0 && less <= more
    ensures Trajectory.Span(less, step) <= Trajectory.Span(more, step)
  {
    if less < more {
      MoreSpan(less, more - 1, step);
    }
  }

  lemma FewerSteps(norm: Norm, f: Flying, dt: real, use: real, reach: real, steps: nat, fewer: nat)
    requires Aloft(norm, f, dt, use, reach, steps) && fewer <= steps
    ensures Aloft(norm, f, dt, use, reach, fewer)
  {
    MoreSpan(fewer, steps, use);
  }

  /** Ready for the path from its `index`-th waypoint on. */
  ghost predicate Ready(norm: Norm, f: Flying, dt: real, use: real, reach: real, pace: real, leg: nat, waypoints: seq<Vec>,
                        index: nat)
  {
    && index < |waypoints| && Configured(f) && f.c.task == Path(Queue(waypoints, index))
    && Aloft(norm, f, dt, use, reach, PathSteps(|waypoints| - index, leg))
    && Reachable(norm, waypoints, index, f.c.settings.tolerance, reach)
    && OnLeg(f, reach, dt, pace, waypoints[index]) && pace > 0.0 && leg == LegSteps(reach, f.c.settings.tolerance, pace)
  }

  lemma SameNearer(f: Flying, g: Flying, reach: real, dt: real)
    requires Configured(f) && Configured(g) && SameFlight(f, g) && Approach.Steers(f.v.limits, dt)
    ensures Nearer(g, reach, dt) == Nearer(f, reach, dt)
  {
  }

  lemma ReadyForNext(norm: Norm, f: Flying, g: Flying, dt: real, use: real, reach: real, pace: real, leg: nat,
                     waypoints: seq<Vec>, index: nat, steps: nat)
    requires Ready(norm, f, dt, use, reach, pace, leg, waypoints, index) && index + 1 < |waypoints| && SameFlight(f, g)
    requires Aloft(norm, g, dt, use, reach, steps) && g.c.task == Path(Queue(waypoints, index + 1))
    requires PathSteps(|waypoints| - index - 1, leg) <= steps
    ensures Ready(norm, g, dt, use, reach, pace, leg, waypoints, index + 1)
  {
    FewerSteps(norm, g, dt, use, reach, steps, PathSteps(|waypoints| - index - 1, leg));
    SameNearer(f, g, reach, dt);
    assert waypoints[index + 1].z > Autopilot.GROUND_TOLERANCE;
    assert Reachable(norm, waypoints, index + 1, g.c.settings.tolerance, reach);
    assert OnLeg(g, reach, dt, pace, waypoints[index + 1]);
  }

  lemma ReadyLeg(norm: Norm, flight: seq<Flying>, now: real, dt: real, drain: real, use: real, reach: real,
                 pace: Trajectory.Step, leg: nat, k: nat, waypoints: seq<Vec>, index: nat)
    returns (here: nat)
    requires IsFlight(norm, flight, now, dt, drain) && use == drain * dt
    requires k < |flight| && k + leg <= |flight| && Ready(norm, flight[k], dt, use, reach, pace, leg, waypoints, index)
    ensures k <= here < k + leg && Reaches(norm, flight, here, waypoints, index) && SameFlight(flight[k], flight[here])
    ensures Aloft(norm, flight[here], dt, use, reach, PathSteps(|waypoints| - index, leg) - (here - k))
  {
    var n := LegFlown(norm, flight, now, dt, drain, use, reach, pace, PathSteps(|waypoints| - index, leg), leg - 1, waypoints[index], k);
    here := k + n;
  }

  /** One leg of the path, and the turn to the next. */
  lemma LegAndTurn(norm: Norm, flight: seq<Flying>, now: real, dt: real, drain: real, use: real, reach: real,
                   pace: Trajectory.Step, leg: nat, k: nat, waypoints: seq<Vec>, index: nat)
    returns (here: nat)
    requires IsFlight(norm, flight, now, dt, drain) && use == drain * dt && index + 1 < |waypoints|
    requires k + leg < |flight| && Ready(norm, flight[k], dt, use, reach, pace, leg, waypoints, index)
    ensures k <= here < k + leg && Reaches(norm, flight, here, waypoints, index)
    ensures SameFlight(flight[k], flight[here + 1]) && Ready(norm, flight[here + 1], dt, use, reach, pace, leg, waypoints, index + 1)
  {
    var steps := PathSteps(|waypoints| - index, leg);
    here := ReadyLeg(norm, flight, now, dt, drain, use, reach, pace, leg, k, waypoints, index);
    assert IsStep(norm, flight, now, dt, drain, here);
    var left := steps - (here - k);
    TurnStep(norm, flight[here], TimeAt(now, dt, here), dt, drain, use, reach, left, index, waypoints[index + 1], flight[here + 1]);
    ReadyForNext(norm, flight[k], flight[here + 1], dt, use, reach, pace, leg, waypoints, index, left - 1);
  }

  /** A flight that is long enough visits every waypoint of the path, in order. */
  lemma {:induction false} PathFlown(norm: Norm, flight: seq<Flying>, now: real, dt: real, drain: real, use: real, reach: real,
                                     pace: Trajectory.Step, leg: nat, k: nat, waypoints: seq<Vec>, index: nat)
    returns (at: seq<nat>, last: nat)
    requires IsFlight(norm, flight, now, dt, drain) && use == drain * dt
    requires k < |flight| && Ready(norm, flight[k], dt, use, reach, pace, leg, waypoints, index)
    requires k + PathSteps(|waypoints| - index, leg) <= |flight|
    ensures Visits(norm, flight, waypoints, index, at) && at != [] && at[|at| - 1] == last < k + PathSteps(|waypoints| - index, leg)
    ensures forall i :: 0 <= i < |at| ==> k <= at[i]
    ensures last < |flight| && Up(flight[last], 0.0) && flight[last].v.tookOff && SameFlight(flight[k], flight[last])
    decreases |waypoints| - index
  {
    if index + 1 == |waypoints| {
      last := ReadyLeg(norm, flight, now, dt, drain, use, reach, pace, leg, k, waypoints, index);
      at := [last];
    } else {
      var here := LegAndTurn(norm, flight, now, dt, drain, use, reach, pace, leg, k, waypoints, index);
      var rest;
      rest, last := PathFlown(norm, flight, now, dt, drain, use, reach, pace, leg, here + 1, waypoints, index + 1);
      OneMoreVisit(norm, flight, waypoints, index, here, rest);
      at := [here] + rest;
    }
  }

  // ----- off the ground -----

  /** Armed on the ground under a waypoint too high to be reached from there, with `left` steps to get off it before the
      autopilot gives up. */
  ghost predicate Lifting(norm: Norm, f: Flying, since: real, time: real, dt: real, use: real, reach: real, steps: nat, left: nat,
                          target: Vec, rise: real)
  {
    && IsNorm(norm) && Up(f, since) && !f.v.tookOff && Approach.Steers(f.v.limits, dt) && use >= 0.0 && rise > 0.0
    && f.v.battery > Trajectory.Span(steps, use) && f.c.settings.tolerance > 0.0
    && target == f.c.task.queue.waypoints[f.c.task.queue.index]
    && target.z > Autopilot.GROUND_TOLERANCE + f.c.settings.tolerance && Dist(norm, f.v.position, target) <= reach
    && f.v.position.z + Trajectory.Span(left, rise) > Autopilot.GROUND_TOLERANCE
    && time + Trajectory.Span(left, dt) - since < f.v.limits.preflightDisarm
  }

  /** How much a step on the ground climbs, at the least. */
  function Rise(f: Flying, reach: real, dt: real, target: Vec): real
    requires Configured(f) && Approach.Steers(f.v.limits, dt)
  {
    Pace(f, reach, dt) * (target.z - Autopilot.GROUND_TOLERANCE)
  }

  lemma TooHigh(norm: Norm, f: Flying, target: Vec)
    requires IsNorm(norm) && f.v.position.z <= Autopilot.GROUND_TOLERANCE
    requires target.z > Autopilot.GROUND_TOLERANCE + f.c.settings.tolerance
    ensures Dist(norm, f.v.position, target) > f.c.settings.tolerance
  {
    HeightWithinDist(norm, f.v.position, target);
  }

  lemma LiftStep(norm: Norm, f: Flying, since: real, time: real, dt: real, drain: real, use: real, reach: real, steps: nat,
                 left: nat, target: Vec, rise: real, g: Flying)
    requires Lifting(norm, f, since, time, dt, use, reach, steps, left, target, rise) && rise == Rise(f, reach, dt, target)
    requires use == drain * dt && steps > 0 && left > 0 && g == Flown(norm, f, Still(time, dt, drain))
    ensures SameFlight(f, g) && g.c.task == f.c.task
    ensures if g.v.tookOff then Aloft(norm, g, dt, use, reach, steps - 1)
            else Lifting(norm, g, since, time + dt, dt, use, reach, steps - 1, left - 1, target, rise)
  {
    TooHigh(norm, f, target);
    Trajectory.SpanNotNegative(steps - 1, use);
    Trajectory.SpanNotNegative(left, dt);
    UpStep(norm, f, since, time, dt, drain, use, reach, f.c.task.queue, target, g, Pace(f, reach, dt));
    Approach.RateBounds(f.v.limits, f.c.settings.maxStep, reach, dt);
    Approach.ComesNearer(norm, f.v.position, target, g.v.position, Pace(f, reach, dt), 0.0);
  }

  lemma {:induction false} LiftsOff(norm: Norm, flight: seq<Flying>, now: real, dt: real, drain: real, use: real, reach: real,
                                    since: real, steps: nat, left: nat, target: Vec, rise: real, k: nat)
    returns (n: nat)
    requires IsFlight(norm, flight, now, dt, drain) && use == drain * dt && left <= steps && k + left < |flight|
    requires Lifting(norm, flight[k], since, TimeAt(now, dt, k), dt, use, reach, steps, left, target, rise)
    requires rise == Rise(flight[k], reach, dt, target)
    ensures n <= left && Aloft(norm, flight[k + n], dt, use, reach, steps - n)
    ensures SameFlight(flight[k], flight[k + n]) && flight[k + n].c.task == flight[k].c.task
    decreases left
  {
    if left == 0 {
      assert false;
    }
    assert IsStep(norm, flight, now, dt, drain, k);
    LiftStep(norm, flight[k], since, TimeAt(now, dt, k), dt, drain, use, reach, steps, left, target, rise, flight[k + 1]);
    if flight[k + 1].v.tookOff {
      n := 1;
    } else {
      SameRise(flight[k], flight[k + 1], reach, dt, target);
      var rest := LiftsOff(norm, flight, now, dt, drain, use, reach, since, steps - 1, left - 1, target, rise, k + 1);
      n := rest + 1;
    }
  }

  lemma SameRise(f: Flying, g: Flying, reach: real, dt: real, target: Vec)
    requires Configured(f) && Configured(g) && SameFlight(f, g) && Approach.Steers(f.v.limits, dt)
    ensures Rise(g, reach, dt, target) == Rise(f, reach, dt, target)
  {
  }

  // ----- armed -----

  /** On the ground, seeing OFFBOARD, about to ask to be armed. */
  ghost predicate Arming(norm: Norm, f: Flying, dt: real, use: real, reach: real, target: Vec) {
    && IsNorm(norm) && Configured(f) && Approach.Steers(f.v.limits, dt) && use >= 0.0 && f.v.battery > use
    && f.v.limits.offboardLossTimeout >= 0.0 && f.v.limits.preflightDisarm > 0.0 && f.c.settings.tolerance > 0.0
    && f.c.task.Path? && !f.c.task.queue.Complete() && f.c.handover.None? && f.c.offboard.phase.RequestMode?
    && target == f.c.task.queue.waypoints[f.c.task.queue.index]
    && target.z > Autopilot.GROUND_TOLERANCE + f.c.settings.tolerance && Dist(norm, f.v.position, target) <= reach
    && !f.v.armed && f.v.mode.OFFBOARD? && 0.0 <= f.v.position.z && !f.v.Airborne()
  }

  lemma ArmingControlled(norm: Norm, f: Flying, dt: real, use: real, reach: real, target: Vec, m: Moment)
    requires Arming(norm, f, dt, use, reach, target) && m.noise == ORIGIN
    ensures var next := Controlled(norm, f, m);
      && next.c.settings == f.c.settings && next.c.task == f.c.task && next.c.handover.None? && next.c.offboard.phase.RequestArm?
      && next.v == f.v.(setpoint := Some(Trajectory.Towards(norm, f.v.position, target, f.c.settings.maxStep)),
                        setpointTime := Some(m.now), armed := true, tookOff := false, armedAt := Some(m.now), groundedSince := None)
  {
    TooHigh(norm, f, target);
    SamePlace(f.v.position, f.v.home);
    SamePlace(Trajectory.Towards(norm, f.v.position, target, f.c.settings.maxStep), f.v.home);
  }

  lemma ArmingPlace(norm: Norm, f: Flying, dt: real, use: real, reach: real, target: Vec, q: Vec, rate: real)
    requires Arming(norm, f, dt, use, reach, target) && rate == Pace(f, reach, dt)
    requires q == StepsTo(norm, f.v, target, f.c.settings.maxStep, dt)
    ensures Dist(norm, q, target) <= reach && q.z > f.v.position.z
  {
    DistFacts(norm, f.v.position, target);
    Approach.RateBounds(f.v.limits, f.c.settings.maxStep, reach, dt);
    Approach.StepCovers(norm, f.v.limits, f.v.position, target, f.c.settings.maxStep, reach, dt);
    Approach.Climbs(f.v.position, target, q, rate, Autopilot.GROUND_TOLERANCE);
    PositiveProduct(rate, target.z - Autopilot.GROUND_TOLERANCE, rate * (target.z - Autopilot.GROUND_TOLERANCE));
    Approach.ComesNearer(norm, f.v.position, target, q, rate, 0.0);
  }

  /** The step on which it is armed is its first under power. */
  lemma ArmedUp(norm: Norm, f: Flying, now: real, dt: real, drain: real, use: real, reach: real, target: Vec, g: Flying)
    requires Arming(norm, f, dt, use, reach, target) && use == drain * dt && g == Flown(norm, f, Still(now, dt, drain))
    ensures Up(g, now) && SameFlight(f, g) && g.c.task == f.c.task && g.v.battery >= f.v.battery - use
    ensures Dist(norm, g.v.position, target) <= reach
  {
    var q := StepsTo(norm, f.v, target, f.c.settings.maxStep, dt);
    ArmingPlace(norm, f, dt, use, reach, target, q, Pace(f, reach, dt));
    ArmingControlled(norm, f, dt, use, reach, target, Still(now, dt, drain));
    var next := Controlled(norm, f, Still(now, dt, drain));
    PoweredSteps(norm, next.v, now, target, f.c.settings.maxStep, dt, drain, use, q);
  }

  // ----- from the pad -----

  /** On the ground, unarmed, not in OFFBOARD, with a path just given to it. */
  ghost predicate OnPad(norm: Norm, f: Flying, dt: real, use: real, reach: real, target: Vec, streamed: nat) {
    && IsNorm(norm) && Waiting(f, Offboard.Warmup, streamed) && Approach.Steers(f.v.limits, dt) && use >= 0.0 && f.v.battery > use
    && f.c.settings.tolerance > 0.0 && target == f.c.task.queue.waypoints[f.c.task.queue.index]
    && target.z > Autopilot.GROUND_TOLERANCE + f.c.settings.tolerance && Dist(norm, f.v.position, target) <= reach
    && !f.v.mode.OFFBOARD? && 0.0 <= f.v.position.z && !f.v.Airborne()
  }

  lemma PadNotThere(norm: Norm, f: Flying, m: Moment, target: Vec)
    requires IsNorm(norm) && f.v.position.z <= Autopilot.GROUND_TOLERANCE && m.noise == ORIGIN
    requires f.c.task.Path? && f.c.task.queue.index < |f.c.task.queue.waypoints|
    requires target == f.c.task.queue.waypoints[f.c.task.queue.index]
    requires target.z > Autopilot.GROUND_TOLERANCE + f.c.settings.tolerance
    ensures NotThere(norm, f, [m])
  {
    TooHigh(norm, f, target);
    SamePlace(f.v.position, f.v.home);
  }

  lemma UnarmedSame(norm: Norm, f: Flying, m: Moment)
    requires Configured(f) && !Flown(norm, f, m).v.armed && !f.v.armed
    requires !Controlled(norm, f, m).v.armed
    ensures Flown(norm, f, m).v.battery == f.v.battery && Flown(norm, f, m).v.home == f.v.home
  {
  }

  /** The warm-up and the request for OFFBOARD leave the drone where it is, about to ask to be armed. */
  lemma {:induction false} WarmedUp(norm: Norm, flight: seq<Flying>, now: real, dt: real, drain: real, use: real, reach: real,
                                    target: Vec, k: nat)
    returns (n: nat)
    requires IsFlight(norm, flight, now, dt, drain) && k < |flight|
    requires OnPad(norm, flight[k], dt, use, reach, target, flight[k].c.offboard.streamed)
    requires flight[k].c.offboard.streamed < flight[k].c.offboard.warmupTicks
    requires k + (flight[k].c.offboard.warmupTicks - flight[k].c.offboard.streamed) + 1 < |flight|
    ensures n == flight[k].c.offboard.warmupTicks - flight[k].c.offboard.streamed + 1
    ensures Arming(norm, flight[k + n], dt, use, reach, target) && SameFlight(flight[k], flight[k + n])
    ensures flight[k + n].c.task == flight[k].c.task && flight[k + n].v.battery == flight[k].v.battery
    decreases flight[k].c.offboard.warmupTicks - flight[k].c.offboard.streamed
  {
    var f, m := flight[k], Still(TimeAt(now, dt, k), dt, drain);
    assert IsStep(norm, flight, now, dt, drain, k);
    PadNotThere(norm, f, m, target);
    WarmsUp(norm, f, m);
    StillOnPad(norm, f, m, target, flight[k + 1]);
    if flight[k + 1].c.offboard.phase.Warmup? {
      var rest := WarmedUp(norm, flight, now, dt, drain, use, reach, target, k + 1);
      n := rest + 1;
    } else {
      assert IsStep(norm, flight, now, dt, drain, k + 1);
      OffboardOnPad(norm, flight[k + 1], Still(TimeAt(now, dt, k + 1), dt, drain), target, flight[k + 2]);
      n := 2;
    }
  }

  lemma StillOnPad(norm: Norm, f: Flying, m: Moment, target: Vec, g: Flying)
    requires Waiting(f, Offboard.Warmup, f.c.offboard.streamed) && NotThere(norm, f, [m]) && g == Flown(norm, f, m)
    ensures g.v == f.v.(setpoint := g.v.setpoint, setpointTime := g.v.setpointTime)
    ensures g.c == f.c.(offboard := g.c.offboard)
  {
    assert m in [m];
  }

  lemma OffboardOnPad(norm: Norm, f: Flying, m: Moment, target: Vec, g: Flying)
    requires IsNorm(norm) && Waiting(f, Offboard.RequestMode, f.c.offboard.streamed) && m.noise == ORIGIN && g == Flown(norm, f, m)
    requires !f.v.mode.OFFBOARD? && f.v.position.z <= Autopilot.GROUND_TOLERANCE
    requires target == f.c.task.queue.waypoints[f.c.task.queue.index]
    requires target.z > Autopilot.GROUND_TOLERANCE + f.c.settings.tolerance
    ensures g.c == f.c.(offboard := g.c.offboard) && g.c.offboard.phase.RequestMode?
    ensures g.v.mode.OFFBOARD? && !g.v.armed && g.v.position == f.v.position && g.v.battery == f.v.battery
    ensures g.v.limits == f.v.limits && g.v.home == f.v.home
  {
    PadNotThere(norm, f, m, target);
    assert m in [m];
  }

  // ----- and back -----

  lemma {:induction false} LandingFlown(norm: Norm, flight: seq<Flying>, now: real, dt: real, drain: real, k: nat, n: nat)
    requires IsFlight(norm, flight, now, dt, drain) && k + n < |flight|
    requires HandedToLand(flight[k]) && Autopilot.Flyable(flight[k].v.limits)
    ensures flight[k + n] ==
      flight[k].(v := Autopilot.LeftAlone(norm, flight[k].v, TimeAt(now, dt, k), dt, drain, n))
    decreases n
  {
    if n > 0 {
      var m := Still(TimeAt(now, dt, k), dt, drain);
      assert IsStep(norm, flight, now, dt, drain, k);
      LandsAlone(norm, flight[k], m);
      StaysInLand(norm, flight[k].v, m.now, dt, Autopilot.CALM, drain);
      LandingFlown(norm, flight, now, dt, drain, k + 1, n - 1);
      assert TimeAt(now, dt, k + 1) == TimeAt(now, dt, k) + dt;
    }
  }

  /** The step on which it reaches its last waypoint already is the first of its landing. */
  lemma LandingStarts(norm: Norm, f: Flying, m: Moment, g: Flying)
    requires LastLeg(f, m.now) && g == Flown(norm, f, m)
    requires Arrived(norm, f.c.settings.tolerance, f.c.task.queue, f.v.position.Add(m.noise))
    ensures HandedToLand(g) && g.c.complete && g.v.limits == f.v.limits
    ensures g.v == Autopilot.Stepped(norm, Autopilot.Entered(f.v, Offboard.AUTO_LAND), m.now, m.dt, m.disturbance, m.drain)
  {
    Finishes(norm, f, m);
    StaysInLand(norm, Controlled(norm, f, m).v, m.now, m.dt, m.disturbance, m.drain);
  }

  lemma LandingIs(norm: Norm, flight: seq<Flying>, now: real, dt: real, drain: real, last: nat, n: nat, landing: Autopilot.Craft)
    requires IsFlight(norm, flight, now, dt, drain) && 0 < n && last + n < |flight|
    requires HandedToLand(flight[last + 1]) && Autopilot.Flyable(flight[last + 1].v.limits) && Autopilot.Flyable(landing.limits)
    requires flight[last + 1].v == Autopilot.Stepped(norm, landing, TimeAt(now, dt, last), dt, Autopilot.CALM, drain)
    ensures flight[last + n].c == flight[last + 1].c
    ensures flight[last + n].v == Autopilot.LeftAlone(norm, landing, TimeAt(now, dt, last), dt, drain, n)
  {
    LandingFlown(norm, flight, now, dt, drain, last + 1, n - 1);
    assert TimeAt(now, dt, last + 1) == TimeAt(now, dt, last) + dt;
  }

  /** From the step on which it reaches its last waypoint, the drone reports complete, and is armed for exactly the steps
      its landing takes. */
  lemma LandsAndDisarms(norm: Norm, flight: seq<Flying>, now: real, dt: real, drain: real, last: nat, n: nat,
                        landing: Autopilot.Craft)
    requires IsFlight(norm, flight, now, dt, drain) && dt > 0.0 && 0 < n && last + n < |flight|
    requires Up(flight[last], 0.0) && flight[last].v.tookOff && landing == Autopilot.Entered(flight[last].v, Offboard.AUTO_LAND)
    requires flight[last].c.task.queue.index == |flight[last].c.task.queue.waypoints| - 1
    requires Arrived(norm, flight[last].c.settings.tolerance, flight[last].c.task.queue, flight[last].v.position)
    ensures Autopilot.Landing(landing, TimeAt(now, dt, last)) && flight[last + n].c.complete
    ensures flight[last + n].v.armed <==> n < Autopilot.StepsToDisarm(landing, TimeAt(now, dt, last), dt)
  {
    var f, time := flight[last], TimeAt(now, dt, last);
    assert IsStep(norm, flight, now, dt, drain, last);
    SamePlace(f.v.position, f.v.home);
    LandingStarts(norm, f, Still(time, dt, drain), flight[last + 1]);
    LandingIs(norm, flight, now, dt, drain, last, n, landing);
    Autopilot.DisarmsExactly(norm, landing, time, dt, drain, n);
  }

  // ----- the whole flight -----

  lemma NearerPositive(f: Flying, reach: real, dt: real)
    requires Configured(f) && Approach.Steers(f.v.limits, dt) && f.c.settings.tolerance > 0.0
    ensures Nearer(f, reach, dt) > 0.0
  {
    Approach.RateBounds(f.v.limits, f.c.settings.maxStep, reach, dt);
    PositiveProduct(Pace(f, reach, dt), f.c.settings.tolerance, Nearer(f, reach, dt));
  }

  lemma RisePositive(f: Flying, reach: real, dt: real, target: Vec)
    requires Configured(f) && Approach.Steers(f.v.limits, dt) && target.z > Autopilot.GROUND_TOLERANCE
    ensures Rise(f, reach, dt, target) > 0.0
  {
    Approach.RateBounds(f.v.limits, f.c.settings.maxStep, reach, dt);
    PositiveProduct(Pace(f, reach, dt), target.z - Autopilot.GROUND_TOLERANCE, Rise(f, reach, dt, target));
  }

  /** No more steps than this are spent on the ground under power. */
  function LiftSteps(f: Flying, reach: real, dt: real, target: Vec): nat
    requires Configured(f) && Approach.Steers(f.v.limits, dt) && target.z > Autopilot.GROUND_TOLERANCE
  {
    RisePositive(f, reach, dt, target);
    Trajectory.StepsToCover(Autopilot.GROUND_TOLERANCE, Rise(f, reach, dt, target)) + 1
  }

  function LegBound(f: Flying, reach: real, dt: real): nat
    requires Configured(f) && Approach.Steers(f.v.limits, dt) && f.c.settings.tolerance > 0.0
  {
    NearerPositive(f, reach, dt);
    LegSteps(reach, f.c.settings.tolerance, Nearer(f, reach, dt))
  }

  /** No more steps than this are flown under power, from the step on which the drone is armed. */
  function PoweredBound(f: Flying, reach: real, dt: real, target: Vec): nat
    requires Configured(f) && Approach.Steers(f.v.limits, dt) && f.c.settings.tolerance > 0.0
    requires f.c.task.Path? && target.z > Autopilot.GROUND_TOLERANCE
  {
    1 + LiftSteps(f, reach, dt, target) + PathSteps(|f.c.task.queue.waypoints|, LegBound(f, reach, dt))
  }

  /** A drone on its pad that has just been given a path it can fly: every waypoint above the ground and within reach of
      the one before, the first too high to be reached from the pad, a battery that lasts, an autopilot that steers, and
      time to get off the ground before it gives up. */
  ghost predicate CanFly(norm: Norm, f: Flying, dt: real, use: real, reach: real, target: Vec) {
    && OnPad(norm, f, dt, use, reach, target, 0) && f.c.task.queue.index == 0 && f.c.offboard.warmupTicks > 0
    && Reachable(norm, f.c.task.queue.waypoints, 0, f.c.settings.tolerance, reach)
    && f.v.battery > Trajectory.Span(PoweredBound(f, reach, dt, target), use)
    && Trajectory.Span(LiftSteps(f, reach, dt, target) + 1, dt) < f.v.limits.preflightDisarm
  }

  lemma SameBounds(f: Flying, g: Flying, reach: real, dt: real, target: Vec)
    requires Configured(f) && Configured(g) && Approach.Steers(f.v.limits, dt) && SameFlight(f, g) && f.c.settings.tolerance > 0.0
    requires target.z > Autopilot.GROUND_TOLERANCE
    ensures Rise(g, reach, dt, target) == Rise(f, reach, dt, target) && Nearer(g, reach, dt) == Nearer(f, reach, dt)
    ensures LegBound(g, reach, dt) == LegBound(f, reach, dt) && LiftSteps(g, reach, dt, target) == LiftSteps(f, reach, dt, target)
  {
    SameNearer(f, g, reach, dt);
    SameRise(f, g, reach, dt, target);
  }

  lemma EnoughLift(z: real, rise: Trajectory.Step, lift: nat)
    requires z >= 0.0 && lift == Trajectory.StepsToCover(Autopilot.GROUND_TOLERANCE, rise) + 1
    ensures z + Trajectory.Span(lift, rise) > Autopilot.GROUND_TOLERANCE
  {
  }

  /** Once it is armed, the drone gets off the ground. */
  lemma TakesOff(norm: Norm, flight: seq<Flying>, now: real, dt: real, drain: real, use: real, reach: real, target: Vec, k: nat,
                 steps: nat)
    returns (n: nat)
    requires IsFlight(norm, flight, now, dt, drain) && use == drain * dt && use >= 0.0 && IsNorm(norm) && k < |flight|
    requires Up(flight[k], TimeAt(now, dt, k) - dt) && Approach.Steers(flight[k].v.limits, dt) && flight[k].c.settings.tolerance > 0.0
    requires target == flight[k].c.task.queue.waypoints[flight[k].c.task.queue.index]
    requires target.z > Autopilot.GROUND_TOLERANCE + flight[k].c.settings.tolerance && Dist(norm, flight[k].v.position, target) <= reach
    requires var lift := LiftSteps(flight[k], reach, dt, target);
      && lift <= steps && k + lift < |flight| && flight[k].v.battery > Trajectory.Span(steps, use)
      && Trajectory.Span(lift + 1, dt) < flight[k].v.limits.preflightDisarm
    ensures n <= LiftSteps(flight[k], reach, dt, target) && Aloft(norm, flight[k + n], dt, use, reach, steps - n)
    ensures SameFlight(flight[k], flight[k + n]) && flight[k + n].c.task == flight[k].c.task
  {
    if flight[k].v.tookOff {
      n := 0;
    } else {
      var f, rise, lift := flight[k], Rise(flight[k], reach, dt, target), LiftSteps(flight[k], reach, dt, target);
      RisePositive(f, reach, dt, target);
      EnoughLift(f.v.position.z, rise, lift);
      n := LiftsOff(norm, flight, now, dt, drain, use, reach, TimeAt(now, dt, k) - dt, steps, lift, target, rise, k);
    }
  }

  /** On the ground, armed a step ago, or in the air already. */
  lemma ArmedOnPad(norm: Norm, flight: seq<Flying>, now: real, dt: real, drain: real, use: real, reach: real, target: Vec)
    returns (k: nat)
    requires IsFlight(norm, flight, now, dt, drain) && use == drain * dt && flight != []
    requires CanFly(norm, flight[0], dt, use, reach, target) && flight[0].c.offboard.warmupTicks + 2 < |flight|
    ensures k == flight[0].c.offboard.warmupTicks + 2 && Up(flight[k], TimeAt(now, dt, k) - dt)
    ensures SameFlight(flight[0], flight[k]) && flight[k].c.task == flight[0].c.task
    ensures flight[k].v.battery >= flight[0].v.battery - use && Dist(norm, flight[k].v.position, target) <= reach
  {
    var n := WarmedUp(norm, flight, now, dt, drain, use, reach, target, 0);
    k := n + 1;
    assert IsStep(norm, flight, now, dt, drain, n);
    ArmedUp(norm, flight[n], TimeAt(now, dt, n), dt, drain, use, reach, target, flight[k]);
    assert TimeAt(now, dt, k) - dt == TimeAt(now, dt, n);
  }

  lemma ReadyOnceAloft(norm: Norm, f: Flying, g: Flying, dt: real, use: real, reach: real, target: Vec, steps: nat)
    requires CanFly(norm, f, dt, use, reach, target) && SameFlight(f, g) && g.c.task == f.c.task
    requires Aloft(norm, g, dt, use, reach, steps) && PathSteps(|f.c.task.queue.waypoints|, LegBound(f, reach, dt)) <= steps
    ensures Ready(norm, g, dt, use, reach, Nearer(f, reach, dt), LegBound(f, reach, dt), f.c.task.queue.waypoints, 0)
  {
    FewerSteps(norm, g, dt, use, reach, steps, PathSteps(|f.c.task.queue.waypoints|, LegBound(f, reach, dt)));
    SameBounds(f, g, reach, dt, target);
    NearerPositive(f, reach, dt);
  }

  /** In every calm flight that is long enough, a drone that has been given a path it can fly visits every waypoint of it,
      in order, within an explicit number of steps. */
  lemma FliesWholePath(norm: Norm, flight: seq<Flying>, now: real, dt: real, drain: real, use: real, reach: real, target: Vec)
    returns (at: seq<nat>, last: nat)
    requires IsFlight(norm, flight, now, dt, drain) && use == drain * dt && flight != []
    requires CanFly(norm, flight[0], dt, use, reach, target)
    requires flight[0].c.offboard.warmupTicks + 2 + PoweredBound(flight[0], reach, dt, target) <= |flight|
    ensures Visits(norm, flight, flight[0].c.task.queue.waypoints, 0, at) && at != [] && at[|at| - 1] == last
    ensures last < flight[0].c.offboard.warmupTicks + 1 + PoweredBound(flight[0], reach, dt, target)
    ensures last < |flight| && Up(flight[last], 0.0) && flight[last].v.tookOff
  {
    var f, leg := flight[0], LegBound(flight[0], reach, dt);
    var path := PathSteps(|f.c.task.queue.waypoints|, leg);
    var steps := LiftSteps(f, reach, dt, target) + path;
    var k := ArmedOnPad(norm, flight, now, dt, drain, use, reach, target);
    SameBounds(f, flight[k], reach, dt, target);
    var n := TakesOff(norm, flight, now, dt, drain, use, reach, target, k, steps);
    ReadyOnceAloft(norm, f, flight[k + n], dt, use, reach, target, steps - n);
    NearerPositive(f, reach, dt);
    at, last := PathFlown(norm, flight, now, dt, drain, use, reach, Nearer(f, reach, dt), leg, k + n, f.c.task.queue.waypoints, 0);
  }

  /** After step `last` the flight is a landing: the drone reports complete, and is armed for exactly the steps it takes. */
  ghost predicate LandsFrom(flight: seq<Flying>, now: real, dt: real, last: nat)
    requires last < |flight| && dt > 0.0
  {
    var landing, time := Autopilot.Entered(flight[last].v, Offboard.AUTO_LAND), TimeAt(now, dt, last);
    && Autopilot.Landing(landing, time)
    && forall k: nat :: last < k < |flight| ==>
         && flight[k].c.complete
         && (flight[k].v.armed <==> k - last < Autopilot.StepsToDisarm(landing, time, dt))
  }

  lemma LandsAfterLast(norm: Norm, flight: seq<Flying>, now: real, dt: real, drain: real, last: nat, waypoints: seq<Vec>)
    requires IsFlight(norm, flight, now, dt, drain) && dt > 0.0 && last < |flight| && waypoints != []
    requires Up(flight[last], 0.0) && flight[last].v.tookOff && Reaches(norm, flight, last, waypoints, |waypoints| - 1)
    ensures LandsFrom(flight, now, dt, last)
  {
    var landing := Autopilot.Entered(flight[last].v, Offboard.AUTO_LAND);
    forall k: nat | last < k < |flight|
      ensures flight[k].c.complete
      ensures Autopilot.Landing(landing, TimeAt(now, dt, last))
      ensures flight[k].v.armed <==> k - last < Autopilot.StepsToDisarm(landing, TimeAt(now, dt, last), dt)
    {
      LandsAndDisarms(norm, flight, now, dt, drain, last, k - last, landing);
    }
  }

  /** From pad to pad: a drone that has been given a path it can fly visits every waypoint of it, in order, within an
      explicit number of steps; from the last on it reports complete; and it is disarmed after exactly the steps its
      landing takes. */
  lemma FliesPadToPad(norm: Norm, flight: seq<Flying>, now: real, dt: real, drain: real, use: real, reach: real, target: Vec)
    returns (at: seq<nat>, last: nat)
    requires IsFlight(norm, flight, now, dt, drain) && use == drain * dt && flight != []
    requires CanFly(norm, flight[0], dt, use, reach, target)
    requires flight[0].c.offboard.warmupTicks + 2 + PoweredBound(flight[0], reach, dt, target) <= |flight|
    ensures Visits(norm, flight, flight[0].c.task.queue.waypoints, 0, at) && at != [] && at[|at| - 1] == last
    ensures last < flight[0].c.offboard.warmupTicks + 1 + PoweredBound(flight[0], reach, dt, target)
    ensures LandsFrom(flight, now, dt, last)
  {
    at, last := FliesWholePath(norm, flight, now, dt, drain, use, reach, target);
    assert Reaches(norm, flight, at[|at| - 1], flight[0].c.task.queue.waypoints, 0 + (|at| - 1));
    LandsAfterLast(norm, flight, now, dt, drain, last, flight[0].c.task.queue.waypoints);
  }
}
