/** What the autopilot does on its own (scenarios/sim.py): in AUTO.RTL it climbs, comes back and lands at home; in
    AUTO.LAND it stays near where it was; without setpoints it stops where it is. */
module ReturnHome {

  import opened Wrappers
  import opened Geometry
  import opened Offboard
  import opened Autopilot
  import Approach
  import Trajectory

  const CLIMBED_WITHIN := 0.2
  const HOME_WITHIN := 0.5

  // ----- level flight towards a point -----

  /** How far to the side of a point. */
  function Level(norm: Norm, p: Vec, home: Vec): real {
    Horizontal(norm, p.Sub(home))
  }

  /** How fast a craft that far to the side closes in. */
  function Closing(limits: Limits, level: real): real {
    Min(limits.gain * level, limits.maxSpeed)
  }

  predicate CanSteer(limits: Limits, dt: real) {
    Approach.Steers(limits, dt) && limits.landSpeed > 0.0
  }

  lemma Scaled(norm: Norm, x: real, y: real, k: real, u: Vec, v: Vec)
    requires IsNorm(norm) && k >= 0.0 && u == Vec(x, y, 0.0) && v == Vec(x * k, y * k, 0.0)
    ensures norm(v) == k * norm(u)
  {
    Homogeneity(norm, u, k);
    Nothing(k);
    assert u.Scale(k) == v;
  }

  lemma Mirrored(norm: Norm, p: Vec, home: Vec)
    requires IsNorm(norm)
    ensures norm(Vec(home.x - p.x, home.y - p.y, 0.0)) == Level(norm, p, home)
  {
    DistFacts(norm, Vec(home.x, home.y, 0.0), Vec(p.x, p.y, 0.0));
    assert Vec(home.x, home.y, 0.0).Sub(Vec(p.x, p.y, 0.0)) == Vec(home.x - p.x, home.y - p.y, 0.0);
    assert Vec(p.x, p.y, 0.0).Sub(Vec(home.x, home.y, 0.0)) == Vec(p.x - home.x, p.y - home.y, 0.0);
  }

  /** The level part of the way from `home` to `p`. */
  function Flat(p: Vec, home: Vec): Vec {
    Vec(p.x - home.x, p.y - home.y, 0.0)
  }

  lemma LevelIs(norm: Norm, p: Vec, home: Vec)
    ensures Level(norm, p, home) == norm(Flat(p, home))
  {
  }

  predicate PartWay(p: Vec, home: Vec, q: Vec, k: real) {
    q.x == p.x + (home.x - p.x) * k && q.y == p.y + (home.y - p.y) * k
  }

  /** A share `k` of the way leaves the rest of it. */
  lemma RestOfWay(norm: Norm, p: Vec, home: Vec, q: Vec, k: real, rest: real)
    requires IsNorm(norm) && 0.0 <= k <= 1.0 && rest == 1.0 - k && PartWay(p, home, q, k)
    ensures Level(norm, q, home) == rest * Level(norm, p, home)
  {
    Approach.Left(p.x, home.x, k);
    Approach.Left(p.y, home.y, k);
    LevelIs(norm, p, home);
    LevelIs(norm, q, home);
    Scaled(norm, p.x - home.x, p.y - home.y, rest, Flat(p, home), Flat(q, home));
  }

  /** The level part of a command for `home`. */
  predicate LevelFor(p: Vec, home: Vec, gain: real, c: Vec) {
    c.x == (home.x - p.x) * gain && c.y == (home.y - p.y) * gain
  }

  /** The level part of a step under that command. */
  predicate Steps(norm: Norm, limits: Limits, p: Vec, c: Vec, dt: real, q: Vec)
    requires Flyable(limits)
  {
    q.x == p.x + Clamped(norm, c, limits).x * dt && q.y == p.y + Clamped(norm, c, limits).y * dt
  }

  lemma LevelCommand(norm: Norm, p: Vec, home: Vec, gain: real, c: Vec)
    requires IsNorm(norm) && gain >= 0.0 && LevelFor(p, home, gain, c)
    ensures Horizontal(norm, c) == gain * Level(norm, p, home)
  {
    Mirrored(norm, p, home);
    Scaled(norm, home.x - p.x, home.y - p.y, gain, Vec(home.x - p.x, home.y - p.y, 0.0), Vec(c.x, c.y, 0.0));
  }

  lemma LevelNotNegative(norm: Norm, p: Vec, home: Vec)
    requires IsNorm(norm)
    ensures Level(norm, p, home) >= 0.0
  {
    NormFacts(norm, Vec(p.x - home.x, p.y - home.y, 0.0));
  }

  /** Where a clamped command takes the craft, and at what share of it. */
  lemma ClampedLevel(norm: Norm, limits: Limits, p: Vec, home: Vec, c: Vec, dt: real, q: Vec, h: real, k: real)
    requires IsNorm(norm) && CanSteer(limits, dt)
    requires LevelFor(p, home, limits.gain, c) && Steps(norm, limits, p, c, dt, q)
    requires h == Approach.Share(limits.maxSpeed, Horizontal(norm, c)) && k == limits.gain * h * dt
    ensures PartWay(p, home, q, k)
  {
    var v := Clamped(norm, c, limits);
    Approach.ClampedIsShare(norm, c, limits);
    Coordinate(p.x, home.x - p.x, limits.gain, h, dt, k, c.x, v.x, q.x);
    Coordinate(p.y, home.y - p.y, limits.gain, h, dt, k, c.y, v.y, q.y);
  }

  lemma ShareOfSpeed(level: real, gain: real, h: real, dt: real, k: real, closing: real)
    requires k == gain * h * dt && closing == h * (gain * level)
    ensures (1.0 - k) * level == level - closing * dt
  {
    assert k * level == closing * dt;
  }

  lemma ShareWithin(gain: real, h: real, dt: real, k: real)
    requires gain > 0.0 && dt > 0.0 && gain * dt <= 1.0 && 0.0 < h <= 1.0 && k == gain * h * dt
    ensures 0.0 <= k <= 1.0
  {
    var g := gain * dt;
    assert k == g * h;
    PositiveProduct(gain, dt, g);
    Approach.Below(g, h, 1.0, 1.0);
    PositiveProduct(g, h, g * h);
  }

  /** What is left of the share of a command, and of the way. */
  lemma ClosedIn(norm: Norm, limits: Limits, level: real, dt: real, h: real, k: real, rest: real)
    requires CanSteer(limits, dt) && level >= 0.0 && k == limits.gain * h * dt && rest == 1.0 - k
    requires h == Approach.Share(limits.maxSpeed, limits.gain * level)
    ensures 0.0 <= k <= 1.0 && rest * level == level - Closing(limits, level) * dt && rest * level <= level
  {
    ScaleOrder(limits.gain, 0.0, level);
    Approach.ShareOf(limits.maxSpeed, limits.gain * level);
    ShareWithin(limits.gain, h, dt, k);
    ShareOfSpeed(level, limits.gain, h, dt, k, Closing(limits, level));
    NoMore(k, level);
  }

  lemma Taken(norm: Norm, limits: Limits, p: Vec, home: Vec, c: Vec, dt: real, q: Vec, level: real)
    returns (k: real, rest: real)
    requires IsNorm(norm) && CanSteer(limits, dt) && level == Level(norm, p, home)
    requires LevelFor(p, home, limits.gain, c) && Steps(norm, limits, p, c, dt, q)
    ensures 0.0 <= k <= 1.0 && rest == 1.0 - k && PartWay(p, home, q, k)
    ensures rest * level == level - Closing(limits, level) * dt && rest * level <= level
  {
    var h := Approach.Share(limits.maxSpeed, Horizontal(norm, c));
    k := limits.gain * h * dt;
    rest := 1.0 - k;
    LevelCommand(norm, p, home, limits.gain, c);
    LevelNotNegative(norm, p, home);
    ClampedLevel(norm, limits, p, home, c, dt, q, h, k);
    ClosedIn(norm, limits, level, dt, h, k, rest);
  }

  /** A command that is level for a point closes in on it at exactly the speed it may. */
  lemma LevelStep(norm: Norm, limits: Limits, p: Vec, home: Vec, c: Vec, dt: real, q: Vec, level: real)
    requires IsNorm(norm) && CanSteer(limits, dt) && level == Level(norm, p, home)
    requires LevelFor(p, home, limits.gain, c) && Steps(norm, limits, p, c, dt, q)
    ensures Level(norm, q, home) == level - Closing(limits, level) * dt
    ensures 0.0 <= Level(norm, q, home) <= level
  {
    var k, rest := Taken(norm, limits, p, home, c, dt, q, level);
    RestOfWay(norm, p, home, q, k, rest);
    LevelNotNegative(norm, q, home);
  }

  lemma Coordinate(from: real, e: real, gain: real, h: real, dt: real, k: real, c: real, v: real, to: real)
    requires c == e * gain && v == c * h && to == from + v * dt && k == gain * h * dt
    ensures to == from + e * k
  {
    assert e * gain * h * dt == e * k;
  }

  lemma NoMore(k: real, level: real)
    requires 0.0 <= k <= 1.0 && level >= 0.0
    ensures (1.0 - k) * level <= level
  {
    ScaleOrder(level, 1.0 - k, 1.0);
  }

  // ----- a craft on its way home -----

  function Altitude(v: Craft): real {
    Max(v.limits.rtlAltitude, v.hold.z)
  }

  /** Flying home, with battery for `steps` more steps at `use` each. */
  ghost predicate Homebound(v: Craft, dt: real, use: real, steps: nat) {
    && CanSteer(v.limits, dt) && v.armed && v.mode.AUTO_RTL? && v.tookOff && v.Airborne()
    && v.groundedSince.None? && use >= 0.0 && v.battery > Trajectory.Span(steps, use)
    && Altitude(v) - CLIMBED_WITHIN > GROUND_TOLERANCE
  }

  lemma EnoughForOne(battery: real, use: real, steps: nat)
    requires steps > 0 && use >= 0.0 && battery > Trajectory.Span(steps, use)
    ensures battery - use > Trajectory.Span(steps - 1, use) >= 0.0
  {
    Trajectory.SpanNotNegative(steps - 1, use);
  }

  /** What is left of a step once the battery has paid for it. */
  lemma PoweredStep(norm: Norm, v: Craft, now: real, dt: real, drain: real, use: real, steps: nat)
    requires Homebound(v, dt, use, steps) && steps > 0 && use == drain * dt
    ensures var w := v.(battery := v.battery - use);
      && Failsafe(Drained(v, dt, drain), now) == w && w.battery > Trajectory.Span(steps - 1, use) && w.battery > 0.0
      && Stepped(norm, v, now, dt, CALM, drain) == AutoDisarmed(Moved(norm, w, dt, CALM), now)
  {
    EnoughForOne(v.battery, use, steps);
  }

  lemma CalmMoves(norm: Norm, w: Craft, dt: real)
    requires Flyable(w.limits) && w.Airborne()
    ensures Velocity(norm, w, CALM) == Clamped(norm, Command(norm, w), w.limits)
  {
    Nothing(1.0 - w.limits.windRejection);
  }

  function Rise(limits: Limits, dt: real): (rise: Trajectory.Step)
    requires CanSteer(limits, dt)
  {
    PositiveProduct(limits.maxClimb, dt, limits.maxClimb * dt);
    limits.maxClimb * dt
  }

  function Higher(v: Craft, use: real, rise: real): Craft {
    v.(battery := v.battery - use, position := Vec(v.position.x, v.position.y, v.position.z + rise), groundedSince := None)
  }

  /** Straight up, by the climb of a step. */
  lemma ClimbStep(norm: Norm, v: Craft, now: real, dt: real, drain: real, use: real, steps: nat, rise: real)
    requires IsNorm(norm) && Homebound(v, dt, use, steps) && steps > 0 && use == drain * dt
    requires rise == Rise(v.limits, dt) && v.rtlPhase.Climb? && v.position.z < Altitude(v) - CLIMBED_WITHIN
    ensures var after := Stepped(norm, v, now, dt, CALM, drain);
      && after == Higher(v, use, rise)
      && Homebound(after, dt, use, steps - 1) && Altitude(after) == Altitude(v)
  {
    var w := v.(battery := v.battery - use);
    PoweredStep(norm, v, now, dt, drain, use, steps);
    CalmMoves(norm, w, dt);
    NormFacts(norm, ORIGIN);
    PositiveProduct(v.limits.maxClimb, dt, rise);
    assert Command(norm, w) == Vec(0.0, 0.0, v.limits.maxClimb);
    assert Clamped(norm, Command(norm, w), w.limits) == Vec(0.0, 0.0, v.limits.maxClimb);
    Nothing(dt);
  }

  predicate Climbed(v: Craft) {
    !v.rtlPhase.Descend? && v.position.z >= Altitude(v) - CLIMBED_WITHIN
  }

  /** Between the height it has and the one it returns at. */
  lemma HeightStep(limits: Limits, z: real, altitude: real, dt: real, up: real, q: real)
    requires CanSteer(limits, dt) && up == Upwards(limits, altitude - z) && q == z + up * dt
    ensures Min(z, altitude) <= q <= Max(z, altitude)
  {
    var e := altitude - z;
    if e >= 0.0 {
      AskedUp(e, limits.gain, e * limits.gain);
      NoFurther(up, e, e * limits.gain, limits.gain, dt);
    } else {
      AskedUp(-e, limits.gain, -e * limits.gain);
      NoFurther(-up, -e, -e * limits.gain, limits.gain, dt);
    }
  }

  lemma AskedUp(e: real, gain: real, asked: real)
    requires e >= 0.0 && gain > 0.0 && asked == e * gain
    ensures asked >= 0.0
  {
  }

  /** A speed no more than the gain asks for does not overshoot in a step. */
  lemma NoFurther(speed: real, e: real, asked: real, gain: real, dt: real)
    requires 0.0 <= speed <= asked && asked == e * gain && e >= 0.0 && dt > 0.0 && gain * dt <= 1.0
    ensures 0.0 <= speed * dt <= e
  {
    ScaleOrder(dt, 0.0, speed);
    ScaleOrder(dt, speed, asked);
    ScaleOrder(e, gain * dt, 1.0);
    assert asked * dt == e * (gain * dt);
  }

  function Back(v: Craft): Vec {
    Vec(v.home.x, v.home.y, Altitude(v)).Sub(v.position).Scale(v.limits.gain)
  }

  /** Where a step of the way back leads. */
  lemma BackPlace(norm: Norm, v: Craft, dt: real, q: Vec, level: real)
    requires IsNorm(norm) && CanSteer(v.limits, dt) && level == Level(norm, v.position, v.home)
    requires q == v.position.Add(Clamped(norm, Back(v), v.limits).Scale(dt))
    ensures Min(v.position.z, Altitude(v)) <= q.z <= Max(v.position.z, Altitude(v))
    ensures Level(norm, q, v.home) == level - Closing(v.limits, level) * dt
  {
    BackLevel(norm, v, dt, q, level);
    BackHeight(norm, v, dt, q);
  }

  lemma BackLevel(norm: Norm, v: Craft, dt: real, q: Vec, level: real)
    requires IsNorm(norm) && CanSteer(v.limits, dt) && level == Level(norm, v.position, v.home)
    requires q == v.position.Add(Clamped(norm, Back(v), v.limits).Scale(dt))
    ensures Level(norm, q, v.home) == level - Closing(v.limits, level) * dt
  {
    LevelStep(norm, v.limits, v.position, v.home, Back(v), dt, q, level);
  }

  /** How fast a craft climbs, or comes down, to make up for a difference in height. */
  function Upwards(limits: Limits, e: real): real {
    Max(-limits.maxDescent, Min(limits.maxClimb, e * limits.gain))
  }

  lemma BackHeight(norm: Norm, v: Craft, dt: real, q: Vec)
    requires CanSteer(v.limits, dt) && q == v.position.Add(Clamped(norm, Back(v), v.limits).Scale(dt))
    ensures Min(v.position.z, Altitude(v)) <= q.z <= Max(v.position.z, Altitude(v))
  {
    var up := Upwards(v.limits, Altitude(v) - v.position.z);
    BackUpwards(norm, v, up);
    StepUp(v.position, Clamped(norm, Back(v), v.limits), dt, q, up);
    HeightStep(v.limits, v.position.z, Altitude(v), dt, up, q.z);
  }

  lemma BackUpwards(norm: Norm, v: Craft, up: real)
    requires Flyable(v.limits) && up == Upwards(v.limits, Altitude(v) - v.position.z)
    ensures Clamped(norm, Back(v), v.limits).z == up
  {
  }

  lemma StepUp(p: Vec, velocity: Vec, dt: real, q: Vec, up: real)
    requires q == p.Add(velocity.Scale(dt)) && velocity.z == up
    ensures q.z == p.z + up * dt
  {
  }

  /** Nearer to home, at the height of the way back. */
  lemma ReturnStep(norm: Norm, v: Craft, now: real, dt: real, drain: real, use: real, steps: nat)
    requires IsNorm(norm) && Homebound(v, dt, use, steps) && steps > 0 && use == drain * dt
    requires Climbed(v) && Level(norm, v.position, v.home) > HOME_WITHIN
    ensures var after := Stepped(norm, v, now, dt, CALM, drain);
      && after == v.(battery := v.battery - use, position := after.position, rtlPhase := Return, groundedSince := None)
      && Homebound(after, dt, use, steps - 1) && Altitude(after) == Altitude(v) && Climbed(after)
      && after.position.z <= Max(v.position.z, Altitude(v))
      && Level(norm, after.position, v.home) ==
         Level(norm, v.position, v.home) - Closing(v.limits, Level(norm, v.position, v.home)) * dt
  {
    var w := v.(battery := v.battery - use);
    var q := v.position.Add(Clamped(norm, Back(v), v.limits).Scale(dt));
    PoweredStep(norm, v, now, dt, drain, use, steps);
    BackPlace(norm, v, dt, q, Level(norm, v.position, v.home));
    BackMoved(norm, w, dt, q);
  }

  lemma BackMoved(norm: Norm, w: Craft, dt: real, q: Vec)
    requires CanSteer(w.limits, dt) && w.mode.AUTO_RTL? && w.Airborne() && q.z > GROUND_TOLERANCE && w.tookOff
    requires Climbed(w) && Level(norm, w.position, w.home) > HOME_WITHIN
    requires q == w.position.Add(Clamped(norm, Back(w), w.limits).Scale(dt))
    ensures Moved(norm, w, dt, CALM) == w.(position := q, rtlPhase := Return)
  {
    CalmMoves(norm, w, dt);
    assert Command(norm, w) == Back(w);
  }

  // ----- landing -----

  /** A landing craft never strays from the place it is held at. */
  lemma LandingHeld(norm: Norm, v: Craft, now: real, dt: real, drain: real, level: real)
    requires IsNorm(norm) && CanSteer(v.limits, dt) && v.mode.AUTO_LAND? && level == Level(norm, v.position, v.hold)
    ensures var after := Stepped(norm, v, now, dt, CALM, drain);
      && after.hold == v.hold && after.mode == v.mode
      && Level(norm, after.position, v.hold) ==
         (if v.armed && v.Airborne() then level - Closing(v.limits, level) * dt else level)
      && 0.0 <= Level(norm, after.position, v.hold) <= level
  {
    var w := Failsafe(Drained(v, dt, drain), now);
    LevelNotNegative(norm, v.position, v.hold);
    if v.armed && v.Airborne() {
      CalmMoves(norm, w, dt);
      LandingAside(norm, v, dt, level);
      SamePlace(norm, Stepped(norm, v, now, dt, CALM, drain).position, LandingPlace(norm, v, dt), v.hold);
    } else if v.armed {
      OnTheGround(norm, w);
      Nothing(dt);
      SamePlace(norm, Stepped(norm, v, now, dt, CALM, drain).position, v.position, v.hold);
    }
  }

  function LandingPlace(norm: Norm, v: Craft, dt: real): Vec
    requires Flyable(v.limits)
  {
    v.position.Add(Clamped(norm, Downwards(v, v.hold), v.limits).Scale(dt))
  }

  lemma LandingAside(norm: Norm, v: Craft, dt: real, level: real)
    requires IsNorm(norm) && CanSteer(v.limits, dt) && level == Level(norm, v.position, v.hold)
    ensures Level(norm, LandingPlace(norm, v, dt), v.hold) == level - Closing(v.limits, level) * dt
    ensures 0.0 <= Level(norm, LandingPlace(norm, v, dt), v.hold) <= level
  {
    LevelStep(norm, v.limits, v.position, v.hold, Downwards(v, v.hold), dt, LandingPlace(norm, v, dt), level);
  }

  lemma SamePlace(norm: Norm, p: Vec, q: Vec, home: Vec)
    ensures p.x == q.x && p.y == q.y ==> Level(norm, p, home) == Level(norm, q, home)
  {
  }

  /** A craft coming down at home is one that lands there. */
  function LandingAtHome(v: Craft): Craft {
    v.(mode := AUTO_LAND, hold := v.home, rtlPhase := Descend)
  }

  /** In the last phase of the way home, with battery for `steps` more steps. */
  ghost predicate ComingDown(norm: Norm, v: Craft, now: real, dt: real, use: real, steps: nat) {
    && CanSteer(v.limits, dt) && v.mode.AUTO_RTL? && RtlPhaseNow(norm, v).Descend?
    && use >= 0.0 && v.battery > Trajectory.Span(steps, use) && Landing(LandingAtHome(v), now)
  }

  /** Step for step, the last phase of the way home is a landing at home. */
  lemma DescendStep(norm: Norm, v: Craft, now: real, dt: real, drain: real, use: real, steps: nat)
    requires ComingDown(norm, v, now, dt, use, steps) && steps > 0 && use == drain * dt
    ensures var after := Stepped(norm, v, now, dt, CALM, drain);
      && LandingAtHome(after) == Stepped(norm, LandingAtHome(v), now, dt, CALM, drain)
      && after.mode.AUTO_RTL? && after.rtlPhase.Descend? && after.home == v.home
      && after.battery > Trajectory.Span(steps - 1, use)
  {
    EnoughForOne(v.battery, use, steps);
  }

  /** On the ground at home, and no further from it than it came down. */
  ghost predicate AtHome(norm: Norm, v: Craft, within: real) {
    !v.armed && !v.Airborne() && Level(norm, v.position, v.home) <= within
  }

  lemma DisarmsGrounded(norm: Norm, v: Craft, now: real, dt: real, drain: real)
    requires Flyable(v.limits) && v.armed && !Stepped(norm, v, now, dt, CALM, drain).armed
    ensures !Stepped(norm, v, now, dt, CALM, drain).Airborne()
  {
  }

  /** A step of the last phase: one fewer to go, or disarmed on the ground; no further from home either way. */
  lemma ComesDownStep(norm: Norm, v: Craft, now: real, dt: real, drain: real, use: real, steps: nat)
    requires IsNorm(norm) && ComingDown(norm, v, now, dt, use, steps) && use == drain * dt && steps > 0
    ensures var after, left := Stepped(norm, v, now, dt, CALM, drain), StepsToDisarm(LandingAtHome(v), now, dt);
      && after.home == v.home && Level(norm, after.position, v.home) <= Level(norm, v.position, v.home)
      && if left > 1 then
           ComingDown(norm, after, now + dt, dt, use, steps - 1)
           && StepsToDisarm(LandingAtHome(after), now + dt, dt) == left - 1
         else !after.armed && !after.Airborne() && Flyable(after.limits)
  {
    DescendStep(norm, v, now, dt, drain, use, steps);
    OneStepNearer(norm, LandingAtHome(v), now, dt, drain);
    LandingHeld(norm, LandingAtHome(v), now, dt, drain, Level(norm, v.position, v.home));
    if StepsToDisarm(LandingAtHome(v), now, dt) <= 1 {
      DisarmsGrounded(norm, v, now, dt, drain);
    }
  }

  /** How many steps that takes. */
  function LandingSteps(v: Craft, now: real, dt: real): nat
    requires dt > 0.0 && Landing(LandingAtHome(v), now)
  {
    StepsToDisarm(LandingAtHome(v), now, dt)
  }

  lemma {:induction false} ComesDownHome(norm: Norm, v: Craft, now: real, dt: real, drain: real, use: real, steps: nat, n: nat,
                                         within: real)
    requires IsNorm(norm) && ComingDown(norm, v, now, dt, use, steps) && use == drain * dt
    requires steps >= LandingSteps(v, now, dt) && Level(norm, v.position, v.home) <= within
    ensures var end := LeftAlone(norm, v, now, dt, drain, n);
      && (end.armed <==> n < LandingSteps(v, now, dt))
      && end.home == v.home && Level(norm, end.position, v.home) <= within && (!end.armed ==> !end.Airborne())
    decreases n
  {
    AtLeastOneStep(v, now, dt);
    if n > 0 {
      var after := Stepped(norm, v, now, dt, CALM, drain);
      ComesDownStep(norm, v, now, dt, drain, use, steps);
      if LandingSteps(v, now, dt) > 1 {
        ComesDownHome(norm, after, now + dt, dt, drain, use, steps - 1, n - 1, within);
      } else {
        StaysDisarmed(norm, after, now + dt, dt, drain, n - 1);
      }
    }
  }

  lemma AtLeastOneStep(v: Craft, now: real, dt: real)
    requires dt > 0.0 && Landing(LandingAtHome(v), now)
    ensures LandingSteps(v, now, dt) >= 1
  {
  }

  // ----- the whole way home -----

  function Pace(limits: Limits, dt: real): (pace: Trajectory.Step)
    requires CanSteer(limits, dt)
  {
    PositiveProduct(limits.gain, HOME_WITHIN, limits.gain * HOME_WITHIN);
    PositiveProduct(Closing(limits, HOME_WITHIN), dt, Closing(limits, HOME_WITHIN) * dt);
    Closing(limits, HOME_WITHIN) * dt
  }

  /** Steps of climbing. */
  function Up(v: Craft, dt: real): nat
    requires CanSteer(v.limits, dt)
  {
    Trajectory.StepsToCover(Altitude(v) - CLIMBED_WITHIN - v.position.z, Rise(v.limits, dt))
  }

  /** Steps of flying back, at most. */
  function Across(norm: Norm, v: Craft, dt: real): nat
    requires CanSteer(v.limits, dt)
  {
    Trajectory.StepsToCover(Level(norm, v.position, v.home) - HOME_WITHIN, Pace(v.limits, dt))
  }

  /** As high as it gets. */
  function Top(v: Craft, dt: real): real
    requires CanSteer(v.limits, dt)
  {
    Max(v.position.z, Altitude(v) + Rise(v.limits, dt))
  }

  /** Steps down from a height, and the disarm timer. */
  function Down(limits: Limits, z: real, dt: real): nat
    requires CanSteer(limits, dt)
  {
    StepsDown(limits, z, dt) + TimerSteps(limits, dt, dt)
  }

  function StepsHome(norm: Norm, v: Craft, dt: real): nat
    requires CanSteer(v.limits, dt)
  {
    Up(v, dt) + Across(norm, v, dt) + Down(v.limits, Top(v, dt), dt)
  }

  lemma LowerIsSooner(limits: Limits, low: real, high: real, dt: real)
    requires CanSteer(limits, dt) && low <= high
    ensures Down(limits, low, dt) <= Down(limits, high, dt)
  {
    DescentPositive(limits, dt);
    Trajectory.MoreToCover(low - GROUND_TOLERANCE, high - GROUND_TOLERANCE, Descent(limits, dt));
  }

  lemma CloserByPace(limits: Limits, level: real, dt: real, next: real)
    requires CanSteer(limits, dt) && level > HOME_WITHIN && next == level - Closing(limits, level) * dt
    ensures Trajectory.StepsToCover(next - HOME_WITHIN, Pace(limits, dt)) + 1
            <= Trajectory.StepsToCover(level - HOME_WITHIN, Pace(limits, dt))
  {
    FasterFurther(limits, level, dt);
    OnePace(level, Pace(limits, dt), next);
  }

  lemma FasterFurther(limits: Limits, level: real, dt: real)
    requires CanSteer(limits, dt) && level > HOME_WITHIN
    ensures Closing(limits, level) * dt >= Pace(limits, dt)
  {
    ScaleOrder(limits.gain, HOME_WITHIN, level);
    ScaleOrder(dt, Closing(limits, HOME_WITHIN), Closing(limits, level));
  }

  lemma OnePace(level: real, pace: Trajectory.Step, next: real)
    requires level > HOME_WITHIN && next <= level - pace
    ensures Trajectory.StepsToCover(next - HOME_WITHIN, pace) + 1 <= Trajectory.StepsToCover(level - HOME_WITHIN, pace)
  {
    Trajectory.OneStepFewer(level - HOME_WITHIN, pace);
    Trajectory.MoreToCover(next - HOME_WITHIN, Trajectory.Positive(level - HOME_WITHIN - pace), pace);
  }

  lemma ClimbNearer(norm: Norm, v: Craft, after: Craft, dt: real, use: real)
    requires CanSteer(v.limits, dt) && v.position.z < Altitude(v) - CLIMBED_WITHIN
    requires after == Higher(v, use, Rise(v.limits, dt))
    ensures StepsHome(norm, after, dt) + 1 <= StepsHome(norm, v, dt)
  {
    var rise := Rise(v.limits, dt);
    var togo := Altitude(v) - CLIMBED_WITHIN - v.position.z;
    Trajectory.OneStepFewer(togo, rise);
    Trajectory.MoreToCover(togo - rise, Trajectory.Positive(togo - rise), rise);
    SamePlace(norm, after.position, v.position, v.home);
    LowerIsSooner(v.limits, Top(after, dt), Top(v, dt), dt);
  }

  lemma ReturnNearer(norm: Norm, v: Craft, after: Craft, dt: real, level: real)
    requires CanSteer(v.limits, dt) && Climbed(v) && Climbed(after) && after.limits == v.limits && after.home == v.home
    requires Altitude(after) == Altitude(v) && after.position.z <= Max(v.position.z, Altitude(v))
    requires level == Level(norm, v.position, v.home) > HOME_WITHIN
    requires Level(norm, after.position, v.home) == level - Closing(v.limits, level) * dt
    ensures StepsHome(norm, after, dt) + 1 <= StepsHome(norm, v, dt)
  {
    CloserByPace(v.limits, level, dt, Level(norm, after.position, v.home));
    Trajectory.CoveredBy(Altitude(v) - CLIMBED_WITHIN - after.position.z, Rise(v.limits, dt), 0);
    LowerIsSooner(v.limits, Top(after, dt), Top(v, dt), dt);
  }

  /** Low only over home, and down there when the time is up. */
  ghost predicate GetsHome(norm: Norm, v: Craft, end: Craft, dt: real, n: nat)
    requires CanSteer(v.limits, dt)
  {
    && end.home == v.home
    && (end.position.z < Min(v.position.z, Altitude(v) - CLIMBED_WITHIN) ==>
         Level(norm, end.position, v.home) <= HOME_WITHIN)
    && (n >= StepsHome(norm, v, dt) ==> AtHome(norm, end, HOME_WITHIN))
  }

  /** On the way, before the last phase. */
  ghost predicate OnTheWay(norm: Norm, v: Craft, dt: real, use: real, steps: nat) {
    Homebound(v, dt, use, steps) && (v.rtlPhase.Climb? || Climbed(v)) && steps >= StepsHome(norm, v, dt)
  }

  predicate OverHome(norm: Norm, v: Craft) {
    Climbed(v) && Level(norm, v.position, v.home) <= HOME_WITHIN
  }

  /** One step fewer to go, and no lower than it may be. */
  ghost predicate NearerHome(norm: Norm, v: Craft, after: Craft, dt: real, use: real, steps: nat)
    requires steps > 0 && CanSteer(v.limits, dt)
  {
    && OnTheWay(norm, after, dt, use, steps - 1) && after.home == v.home && after.limits == v.limits
    && StepsHome(norm, after, dt) + 1 <= StepsHome(norm, v, dt)
    && Min(v.position.z, Altitude(v) - CLIMBED_WITHIN) <= Min(after.position.z, Altitude(after) - CLIMBED_WITHIN)
  }

  lemma StepsToGo(norm: Norm, v: Craft, dt: real)
    requires CanSteer(v.limits, dt)
    ensures StepsHome(norm, v, dt) >= 1
  {
  }

  lemma ClimbsNearer(norm: Norm, v: Craft, now: real, dt: real, drain: real, use: real, steps: nat)
    requires IsNorm(norm) && OnTheWay(norm, v, dt, use, steps) && use == drain * dt && !Climbed(v) && steps > 0
    ensures NearerHome(norm, v, Stepped(norm, v, now, dt, CALM, drain), dt, use, steps)
  {
    var rise := Rise(v.limits, dt);
    ClimbStep(norm, v, now, dt, drain, use, steps, rise);
    HigherNearer(norm, v, Higher(v, use, rise), dt, use, steps);
  }

  lemma HigherNearer(norm: Norm, v: Craft, after: Craft, dt: real, use: real, steps: nat)
    requires OnTheWay(norm, v, dt, use, steps) && !Climbed(v) && steps > 0
    requires after == Higher(v, use, Rise(v.limits, dt)) && Homebound(after, dt, use, steps - 1)
    ensures NearerHome(norm, v, after, dt, use, steps)
  {
    ClimbNearer(norm, v, after, dt, use);
  }

  lemma FliesNearer(norm: Norm, v: Craft, now: real, dt: real, drain: real, use: real, steps: nat)
    requires IsNorm(norm) && OnTheWay(norm, v, dt, use, steps) && use == drain * dt && steps > 0
    requires Climbed(v) && !OverHome(norm, v)
    ensures NearerHome(norm, v, Stepped(norm, v, now, dt, CALM, drain), dt, use, steps)
  {
    ReturnStep(norm, v, now, dt, drain, use, steps);
    ReturnedNearer(norm, v, Stepped(norm, v, now, dt, CALM, drain), dt, use, steps);
  }

  lemma ReturnedNearer(norm: Norm, v: Craft, after: Craft, dt: real, use: real, steps: nat)
    requires OnTheWay(norm, v, dt, use, steps) && steps > 0 && Climbed(v) && Level(norm, v.position, v.home) > HOME_WITHIN
    requires Homebound(after, dt, use, steps - 1) && Climbed(after) && after.limits == v.limits && after.home == v.home
    requires Altitude(after) == Altitude(v) && after.position.z <= Max(v.position.z, Altitude(v))
    requires Level(norm, after.position, v.home) ==
             Level(norm, v.position, v.home) - Closing(v.limits, Level(norm, v.position, v.home)) * dt
    ensures NearerHome(norm, v, after, dt, use, steps)
  {
    ReturnNearer(norm, v, after, dt, Level(norm, v.position, v.home));
  }

  lemma HomeStep(norm: Norm, v: Craft, now: real, dt: real, drain: real, use: real, steps: nat)
    requires IsNorm(norm) && OnTheWay(norm, v, dt, use, steps) && use == drain * dt && !OverHome(norm, v)
    ensures steps > 0 && NearerHome(norm, v, Stepped(norm, v, now, dt, CALM, drain), dt, use, steps)
  {
    StepsToGo(norm, v, dt);
    if Climbed(v) {
      FliesNearer(norm, v, now, dt, drain, use, steps);
    } else {
      ClimbsNearer(norm, v, now, dt, drain, use, steps);
    }
  }

  lemma HomeSince(norm: Norm, v: Craft, after: Craft, end: Craft, dt: real, use: real, steps: nat, n: nat)
    requires steps > 0 && n > 0 && CanSteer(v.limits, dt) && NearerHome(norm, v, after, dt, use, steps)
    requires GetsHome(norm, after, end, dt, n - 1)
    ensures GetsHome(norm, v, end, dt, n)
  {
  }

  lemma OverHomeComesDown(norm: Norm, v: Craft, now: real, dt: real, use: real, steps: nat)
    requires OnTheWay(norm, v, dt, use, steps) && OverHome(norm, v)
    ensures ComingDown(norm, v, now, dt, use, steps) && LandingSteps(v, now, dt) <= StepsHome(norm, v, dt)
  {
    LowerIsSooner(v.limits, v.position.z, Top(v, dt), dt);
  }

  /** In calm air, with the battery to last, a craft in AUTO.RTL climbs, comes back and is disarmed on the ground within half
      a metre of home, to the side, after at most `StepsHome` steps; and it is never below the height it had, or the
      one it returns at, except there. */
  lemma {:induction false} ReturnsHome(norm: Norm, v: Craft, now: real, dt: real, drain: real, use: real, steps: nat, n: nat)
    requires IsNorm(norm) && OnTheWay(norm, v, dt, use, steps) && use == drain * dt
    ensures GetsHome(norm, v, LeftAlone(norm, v, now, dt, drain, n), dt, n)
    decreases n
  {
    if OverHome(norm, v) {
      OverHomeComesDown(norm, v, now, dt, use, steps);
      ComesDownHome(norm, v, now, dt, drain, use, steps, n, HOME_WITHIN);
    } else {
      HomeStep(norm, v, now, dt, drain, use, steps);
      if n > 0 {
        var after, end := Stepped(norm, v, now, dt, CALM, drain), LeftAlone(norm, v, now, dt, drain, n);
        ReturnsHome(norm, after, now + dt, dt, drain, use, steps - 1, n - 1);
        HomeSince(norm, v, after, end, dt, use, steps, n);
      } else {
        StepsToGo(norm, v, dt);
      }
    }
  }

  /** Told to return, in the air: it is on its way, at the height it has or the one it returns at. */
  lemma ToldToReturn(norm: Norm, v: Craft, now: real, dt: real, use: real, steps: nat, a: Actuation)
    requires CanSteer(v.limits, dt) && v.armed && v.tookOff && v.Airborne() && v.groundedSince.None? && !v.mode.AUTO_RTL?
    requires a.requestMode == Some(AUTO_RTL) && !a.requestArm && use >= 0.0 && v.battery > Trajectory.Span(steps, use)
    requires v.limits.rtlAltitude - CLIMBED_WITHIN > GROUND_TOLERANCE
    ensures var sent := Actuated(v, now, a);
      && sent.position == v.position && sent.home == v.home && sent.limits == v.limits
      && Altitude(sent) == Max(v.limits.rtlAltitude, v.position.z)
      && (steps >= StepsHome(norm, sent, dt) ==> OnTheWay(norm, sent, dt, use, steps))
  {
  }

  // ----- without its software -----

  /** A craft that is to stay where it is. */
  ghost predicate Staying(v: Craft, dt: real, use: real, steps: nat) {
    && CanSteer(v.limits, dt) && v.armed && v.Airborne() && v.mode.AUTO_LOITER? && v.hold == v.position
    && use >= 0.0 && v.battery > Trajectory.Span(steps, use)
  }

  lemma StaysPut(norm: Norm, w: Craft, dt: real)
    requires IsNorm(norm) && CanSteer(w.limits, dt) && w.Airborne() && w.mode.AUTO_LOITER? && w.hold == w.position
    ensures Moved(norm, w, dt, CALM).position == w.position
  {
    NormFacts(norm, ORIGIN);
    CalmMoves(norm, w, dt);
    Nothing(w.limits.gain);
    Nothing(dt);
    assert Command(norm, w) == ORIGIN;
    assert Clamped(norm, ORIGIN, w.limits) == ORIGIN;
  }

  lemma StayingStep(norm: Norm, v: Craft, now: real, dt: real, drain: real, use: real, steps: nat)
    requires IsNorm(norm) && Staying(v, dt, use, steps) && steps > 0 && use == drain * dt
    ensures var after := Stepped(norm, v, now, dt, CALM, drain);
      after.position == v.position && Staying(after, dt, use, steps - 1)
  {
    EnoughForOne(v.battery, use, steps);
    StaysPut(norm, v.(battery := v.battery - use), dt);
  }

  lemma {:induction false} StaysThere(norm: Norm, v: Craft, now: real, dt: real, drain: real, use: real, steps: nat, n: nat)
    requires IsNorm(norm) && Staying(v, dt, use, steps) && use == drain * dt && n <= steps
    ensures var end := LeftAlone(norm, v, now, dt, drain, n);
      end.position == v.position && end.mode.AUTO_LOITER? && end.armed
    decreases n
  {
    if n > 0 {
      StayingStep(norm, v, now, dt, drain, use, steps);
      StaysThere(norm, Stepped(norm, v, now, dt, CALM, drain), now + dt, dt, drain, use, steps - 1, n - 1);
    }
  }

  /** A craft whose software has gone quiet stops where it is, in AUTO.LOITER, for as long as the battery lasts. */
  lemma StopsWithoutSetpoints(norm: Norm, v: Craft, now: real, dt: real, drain: real, use: real, n: nat)
    requires IsNorm(norm) && CanSteer(v.limits, dt) && v.armed && v.Airborne() && v.mode.OFFBOARD? && n > 0
    requires v.setpointTime.Some? ==> now - v.setpointTime.value > v.limits.offboardLossTimeout
    requires use == drain * dt >= 0.0 && v.battery > Trajectory.Span(n, use)
    ensures var end := LeftAlone(norm, v, now, dt, drain, n);
      end.position == v.position && end.mode.AUTO_LOITER? && end.armed
  {
    var w := Entered(v, AUTO_LOITER);
    EnoughForOne(v.battery, use, n);
    assert Stepped(norm, v, now, dt, CALM, drain) == Stepped(norm, w, now, dt, CALM, drain);
    StaysThere(norm, w, now, dt, drain, use, n, n);
  }

  lemma {:induction false} LandsInPlace(norm: Norm, v: Craft, now: real, dt: real, drain: real, n: nat, level: real)
    requires IsNorm(norm) && CanSteer(v.limits, dt) && v.mode.AUTO_LAND? && Level(norm, v.position, v.hold) <= level
    ensures var end := LeftAlone(norm, v, now, dt, drain, n);
      end.hold == v.hold && Level(norm, end.position, v.hold) <= level
    decreases n
  {
    if n > 0 {
      LandingHeld(norm, v, now, dt, drain, Level(norm, v.position, v.hold));
      LandsInPlace(norm, Stepped(norm, v, now, dt, CALM, drain), now + dt, dt, drain, n - 1, level);
    }
  }

  lemma LevelWithItself(norm: Norm, p: Vec)
    requires IsNorm(norm)
    ensures Level(norm, p, p) == 0.0
  {
    NormFacts(norm, ORIGIN);
    assert Vec(p.x - p.x, p.y - p.y, 0.0) == ORIGIN;
  }

  /** Running flat is being told to land. */
  function Flattened(v: Craft): Craft {
    Entered(v.(battery := 0.0), AUTO_LAND)
  }

  lemma FlatStep(norm: Norm, v: Craft, now: real, dt: real, drain: real, use: real)
    requires Flyable(v.limits) && v.armed && v.Airborne() && !v.mode.AUTO_LAND? && v.battery <= use && use == drain * dt
    requires use >= 0.0
    ensures Stepped(norm, v, now, dt, CALM, drain) == Stepped(norm, Flattened(v), now, dt, CALM, drain)
  {
    assert Drained(v, dt, drain) == Flattened(v);
    assert Drained(Flattened(v), dt, drain) == Flattened(v);
  }

  /** A craft whose battery runs flat in the air comes straight down where that was, and is disarmed after exactly the steps
      of its landing, whatever it was flying. */
  lemma FlatComesDown(norm: Norm, v: Craft, now: real, dt: real, drain: real, use: real, n: nat)
    requires IsNorm(norm) && CanSteer(v.limits, dt) && v.armed && v.Airborne() && v.tookOff && v.groundedSince.None?
    requires !v.mode.AUTO_LAND? && v.battery <= use && use == drain * dt && use >= 0.0 && n > 0
    ensures var end := LeftAlone(norm, v, now, dt, drain, n);
      && (end.armed <==> n < Down(v.limits, v.position.z, dt))
      && Level(norm, end.position, v.position) == 0.0
  {
    var w := Flattened(v);
    FlatStep(norm, v, now, dt, drain, use);
    assert LeftAlone(norm, v, now, dt, drain, n) == LeftAlone(norm, w, now, dt, drain, n);
    DisarmsExactly(norm, w, now, dt, drain, n);
    LevelWithItself(norm, v.position);
    LandsInPlace(norm, w, now, dt, drain, n, 0.0);
    LevelNotNegative(norm, LeftAlone(norm, w, now, dt, drain, n).position, v.position);
  }

  /** A craft that was armed and has not taken off is disarmed by exactly the first step after its time is up. */
  lemma PreflightDisarm(norm: Norm, v: Craft, now: real, dt: real, disturbance: Vec, drain: real)
    requires Flyable(v.limits) && v.armed && v.armedAt.Some? && !Stepped(norm, v, now, dt, disturbance, drain).tookOff
    ensures Stepped(norm, v, now, dt, disturbance, drain).armed <==> now - v.armedAt.value < v.limits.preflightDisarm
  {
  }

  // ----- being asked -----

  predicate FreshSetpoint(v: Craft, now: real) {
    v.setpointTime.Some? && now - v.setpointTime.value <= v.limits.offboardLossTimeout
  }

  /** A setpoint asked for is taken, relative to home; a mode is entered if it is known and not OFFBOARD without a fresh
      setpoint; and a craft is armed exactly if that is asked for, in OFFBOARD, with a fresh setpoint. */
  lemma AskedExactly(v: Craft, now: real, a: Actuation)
    ensures var after := Actuated(v, now, a);
      && after.position == v.position
      && after.setpoint == (if a.setpoint.Some? then Some(a.setpoint.value.Add(v.home)) else v.setpoint)
      && (after.mode != v.mode ==> Some(after.mode) == a.requestMode && after.hold == v.position)
      && (after.mode.OFFBOARD? && !v.mode.OFFBOARD? ==> FreshSetpoint(after, now))
      && (a.requestMode.Some? && !a.requestMode.value.OtherMode? && (a.requestMode.value.OFFBOARD? ==> FreshSetpoint(after, now)) ==>
            after.mode == a.requestMode.value)
      && (after.armed <==> v.armed || (a.requestArm && after.mode.OFFBOARD? && FreshSetpoint(after, now)))
  {
  }

  /** In the air the wind carries a craft, beside what it flies, by the share of itself that is not made up for. */
  lemma WindCarries(norm: Norm, v: Craft, dt: real, wind: Vec, calm: Vec, share: real)
    requires Flyable(v.limits) && v.Airborne() && share == 1.0 - v.limits.windRejection
    requires calm == v.position.Add(Velocity(norm, v, CALM).Scale(dt))
    ensures Moved(norm, v, dt, wind).position ==
      Vec(calm.x + wind.x * share * dt, calm.y + wind.y * share * dt, Max(0.0, calm.z + wind.z * share * dt))
  {
    CalmMoves(norm, v, dt);
    WindAdds(v.position, Velocity(norm, v, CALM), wind, share, dt);
  }

  lemma WindAdds(p: Vec, velocity: Vec, wind: Vec, share: real, dt: real)
    ensures var calm := p.Add(velocity.Scale(dt));
      p.Add(velocity.Add(wind.Scale(share)).Scale(dt)) ==
      Vec(calm.x + wind.x * share * dt, calm.y + wind.y * share * dt, calm.z + wind.z * share * dt)
  {
    var sum, blown := velocity.Add(wind.Scale(share)), p.Add(velocity.Add(wind.Scale(share)).Scale(dt));
    assert blown == Vec(p.x + sum.x * dt, p.y + sum.y * dt, p.z + sum.z * dt);
    Carried(p.x, velocity.x, wind.x, share, dt, sum.x);
    Carried(p.y, velocity.y, wind.y, share, dt, sum.y);
    Carried(p.z, velocity.z, wind.z, share, dt, sum.z);
  }

  lemma Carried(p: real, v: real, w: real, share: real, dt: real, sum: real)
    requires sum == v + w * share
    ensures p + sum * dt == p + v * dt + w * share * dt
  {
  }
}
