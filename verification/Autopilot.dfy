/** The simulated autopilot a drone's software talks to (scenarios/sim.py): a point mass under PX4's rules
    for modes, arming, the loss of setpoints, and disarming after landing. */
module Autopilot {

  import opened Wrappers
  import opened Geometry
  import opened Offboard
  import Trajectory

  const GROUND_TOLERANCE := 0.05

  datatype Limits = Limits(
    maxSpeed: real, maxClimb: real, maxDescent: real, landSpeed: real, gain: real, rtlAltitude: real,
    offboardLossTimeout: real, preflightDisarm: real, landDisarm: real, windRejection: real)

  /** Speeds are not negative, and a landing drone does descend. */
  predicate Flyable(limits: Limits) {
    limits.maxSpeed >= 0.0 && limits.maxClimb >= 0.0 && limits.maxDescent > 0.0 && limits.landSpeed > 0.0
  }

  datatype RtlPhase = Climb | Return | Descend

  datatype Craft = Craft(
    limits: Limits, home: Vec, position: Vec, battery: real, armed: bool, mode: Mode, tookOff: bool,
    setpoint: Option<Vec>, setpointTime: Option<real>, hold: Vec, armedAt: Option<real>, groundedSince: Option<real>,
    rtlPhase: RtlPhase)
  {
    predicate Airborne() {
      position.z > GROUND_TOLERANCE
    }

    predicate SetpointsFresh(now: real) {
      setpointTime.Some? && now - setpointTime.value <= limits.offboardLossTimeout
    }
  }

  datatype Actuation = Actuation(setpoint: Option<Vec>, requestMode: Option<Mode>, requestArm: bool)

  function Max(a: real, b: real): real {
    if a < b then b else a
  }

  function Min(a: real, b: real): real {
    if b < a then b else a
  }

  // ----- the interface -----

  function Entered(v: Craft, mode: Mode): Craft {
    v.(mode := mode, hold := v.position, rtlPhase := Climb)
  }

  function ModeRequested(v: Craft, now: real, mode: Mode): Craft {
    if mode.OFFBOARD? && !v.SetpointsFresh(now) then v
    else if mode.OtherMode? || mode == v.mode then v
    else Entered(v, mode)
  }

  function SetpointGiven(v: Craft, now: real, setpoint: Option<Vec>): Craft {
    if setpoint.None? then v else v.(setpoint := Some(setpoint.value.Add(v.home)), setpointTime := Some(now))
  }

  function ArmRequested(v: Craft, now: real): Craft {
    if !v.armed && v.mode.OFFBOARD? && v.SetpointsFresh(now) then
      v.(armed := true, tookOff := false, armedAt := Some(now), groundedSince := None)
    else v
  }

  function Actuated(v: Craft, now: real, a: Actuation): Craft {
    var given := SetpointGiven(v, now, a.setpoint);
    var moded := if a.requestMode.Some? then ModeRequested(given, now, a.requestMode.value) else given;
    if a.requestArm then ArmRequested(moded, now) else moded
  }

  // ----- physics -----

  /** `math.hypot(x, y)`. */
  function Horizontal(norm: Norm, v: Vec): real {
    norm(Vec(v.x, v.y, 0.0))
  }

  function Clamped(norm: Norm, v: Vec, limits: Limits): Vec
    requires Flyable(limits)
  {
    var z := Max(-limits.maxDescent, Min(limits.maxClimb, v.z));
    var horizontal := Horizontal(norm, v);
    if horizontal > limits.maxSpeed then
      var scale := limits.maxSpeed / horizontal;
      Vec(v.x * scale, v.y * scale, z)
    else Vec(v.x, v.y, z)
  }

  function Downwards(v: Craft, above: Vec): Vec {
    Vec(above.x, above.y, v.position.z).Sub(v.position).Scale(v.limits.gain).Add(Vec(0.0, 0.0, -v.limits.landSpeed))
  }

  function RtlAltitude(v: Craft): real {
    Max(v.limits.rtlAltitude, v.hold.z)
  }

  /** The phase of the way home, moved on if this one is done. */
  function RtlPhaseNow(norm: Norm, v: Craft): RtlPhase {
    var climbed := if v.rtlPhase.Climb? && v.position.z >= RtlAltitude(v) - 0.2 then Return else v.rtlPhase;
    if climbed.Return? && Horizontal(norm, v.position.Sub(v.home)) <= 0.5 then Descend else climbed
  }

  function RtlCommand(norm: Norm, v: Craft): Vec {
    match RtlPhaseNow(norm, v)
    case Climb => Vec(0.0, 0.0, v.limits.maxClimb)
    case Return => Vec(v.home.x, v.home.y, RtlAltitude(v)).Sub(v.position).Scale(v.limits.gain)
    case Descend => Downwards(v, v.home)
  }

  /** The velocity the mode asks for. */
  function Command(norm: Norm, v: Craft): Vec {
    if v.mode.OFFBOARD? && v.setpoint.Some? then v.setpoint.value.Sub(v.position).Scale(v.limits.gain)
    else if v.mode.AUTO_LAND? then Downwards(v, v.hold)
    else if v.mode.AUTO_RTL? then RtlCommand(norm, v)
    else v.hold.Sub(v.position).Scale(v.limits.gain)
  }

  function Drained(v: Craft, dt: real, drain: real): Craft {
    if !v.Airborne() then v
    else
      var drained := v.(battery := Max(0.0, v.battery - drain * dt));
      if drained.battery == 0.0 && !v.mode.AUTO_LAND? then Entered(drained, AUTO_LAND) else drained
  }

  function Failsafe(v: Craft, now: real): Craft {
    if v.mode.OFFBOARD? && !v.SetpointsFresh(now) then Entered(v, AUTO_LOITER) else v
  }

  function Velocity(norm: Norm, v: Craft, disturbance: Vec): Vec
    requires Flyable(v.limits)
  {
    var velocity := Clamped(norm, Command(norm, v), v.limits);
    if v.Airborne() then velocity.Add(disturbance.Scale(1.0 - v.limits.windRejection))
    else if velocity.z <= 0.0 then ORIGIN
    else velocity
  }

  function Moved(norm: Norm, v: Craft, dt: real, disturbance: Vec): Craft
    requires Flyable(v.limits)
  {
    var to := v.position.Add(Velocity(norm, v, disturbance).Scale(dt));
    var above := Vec(to.x, to.y, Max(0.0, to.z));
    v.(position := above, tookOff := v.tookOff || above.z > GROUND_TOLERANCE,
       rtlPhase := if v.mode.AUTO_RTL? then RtlPhaseNow(norm, v) else v.rtlPhase)
  }

  function Disarmed(v: Craft): Craft {
    v.(armed := false, armedAt := None, groundedSince := None, setpoint := None, setpointTime := None)
  }

  function AutoDisarmed(v: Craft, now: real): Craft {
    if v.Airborne() then v.(groundedSince := None)
    else if !v.tookOff then
      if v.armedAt.Some? && now - v.armedAt.value >= v.limits.preflightDisarm then Disarmed(v) else v
    else if v.groundedSince.None? then v.(groundedSince := Some(now))
    else if now - v.groundedSince.value >= v.limits.landDisarm then Disarmed(v)
    else v
  }

  function Stepped(norm: Norm, v: Craft, now: real, dt: real, disturbance: Vec, drain: real): Craft
    requires Flyable(v.limits)
  {
    if !v.armed then v
    else AutoDisarmed(Moved(norm, Failsafe(Drained(v, dt, drain), now), dt, disturbance), now)
  }

  class Vehicle {
    const limits: Limits
    const home: Vec
    var position: Vec
    var battery: real
    var armed: bool
    var mode: Mode
    var tookOff: bool
    var setpoint: Option<Vec>
    var setpointTime: Option<real>
    var hold: Vec
    var armedAt: Option<real>
    var groundedSince: Option<real>
    var rtlPhase: RtlPhase

    function View(): Craft
      reads this
    {
      Craft(limits, home, position, battery, armed, mode, tookOff, setpoint, setpointTime, hold, armedAt,
            groundedSince, rtlPhase)
    }

    constructor (at: Vec, batteryPct: real, flight: Limits)
      ensures View() == Craft(flight, at, at, batteryPct, false, AUTO_LOITER, false, None, None, at, None, None, Climb)
    {
      limits, home, position, battery := flight, at, at, batteryPct;
      armed, mode, tookOff := false, AUTO_LOITER, false;
      setpoint, setpointTime, hold, armedAt, groundedSince, rtlPhase := None, None, at, None, None, Climb;
    }

    method Actuate(now: real, a: Actuation)
      modifies this
      ensures View() == Actuated(old(View()), now, a)
    {
      if a.setpoint.Some? {
        setpoint, setpointTime := Some(a.setpoint.value.Add(home)), Some(now);
      }
      if a.requestMode.Some? {
        RequestMode(now, a.requestMode.value);
      }
      if a.requestArm && !armed {
        if mode == OFFBOARD && View().SetpointsFresh(now) {
          armed, tookOff, armedAt, groundedSince := true, false, Some(now), None;
        }
      }
    }

    method RequestMode(now: real, request: Mode)
      modifies this
      ensures View() == ModeRequested(old(View()), now, request)
    {
      if request == OFFBOARD && !View().SetpointsFresh(now) {
        return;
      }
      if request.OtherMode? {
        return;
      }
      if request != mode {
        Enter(request);
      }
    }

    method Enter(next: Mode)
      modifies this`mode, this`hold, this`rtlPhase
      ensures View() == Entered(old(View()), next)
    {
      mode, hold, rtlPhase := next, position, Climb;
    }

    method Step(norm: Norm, now: real, dt: real, disturbance: Vec, drain: real)
      requires Flyable(limits)
      modifies this
      ensures View() == Stepped(norm, old(View()), now, dt, disturbance, drain)
    {
      if !armed {
        return;
      }
      if View().Airborne() {
        battery := Max(0.0, battery - drain * dt);
        if battery == 0.0 && mode != AUTO_LAND {
          Enter(AUTO_LAND);
        }
      }
      if mode == OFFBOARD && !View().SetpointsFresh(now) {
        Enter(AUTO_LOITER);
      }
      Move(norm, dt, disturbance);
      AutoDisarm(now);
    }

    method Move(norm: Norm, dt: real, disturbance: Vec)
      requires Flyable(limits)
      modifies this`position, this`tookOff, this`rtlPhase
      ensures View() == Moved(norm, old(View()), dt, disturbance)
    {
      var airborne := View().Airborne();
      var asked := Aim(norm);
      var velocity := Clamped(norm, asked, limits);
      if airborne {
        velocity := velocity.Add(disturbance.Scale(1.0 - limits.windRejection));
      } else if velocity.z <= 0.0 {
        velocity := ORIGIN;
      }
      var moved := position.Add(velocity.Scale(dt));
      if moved.z < 0.0 {
        moved := Vec(moved.x, moved.y, 0.0);
      }
      if moved.z > GROUND_TOLERANCE {
        tookOff := true;
      }
      position := moved;
    }

    method Aim(norm: Norm) returns (velocity: Vec)
      modifies this`rtlPhase
      ensures velocity == Command(norm, old(View()))
      ensures rtlPhase == if mode.AUTO_RTL? then RtlPhaseNow(norm, old(View())) else old(rtlPhase)
    {
      if mode == OFFBOARD && setpoint.Some? {
        return setpoint.value.Sub(position).Scale(limits.gain);
      }
      if mode == AUTO_LAND {
        return Downwards(View(), hold);
      }
      if mode != AUTO_RTL {
        return hold.Sub(position).Scale(limits.gain);
      }
      var altitude := Max(limits.rtlAltitude, hold.z);
      if rtlPhase == Climb {
        if position.z >= altitude - 0.2 {
          rtlPhase := Return;
        } else {
          return Vec(0.0, 0.0, limits.maxClimb);
        }
      }
      if rtlPhase == Return {
        if Horizontal(norm, position.Sub(home)) <= 0.5 {
          rtlPhase := Descend;
        } else {
          return Vec(home.x, home.y, altitude).Sub(position).Scale(limits.gain);
        }
      }
      return Downwards(View(), home);
    }

    method AutoDisarm(now: real)
      modifies this`armed, this`armedAt, this`groundedSince, this`setpoint, this`setpointTime
      ensures View() == AutoDisarmed(old(View()), now)
    {
      if View().Airborne() {
        groundedSince := None;
        return;
      }
      if !tookOff {
        if armedAt.Some? && now - armedAt.value >= limits.preflightDisarm {
          Disarm();
        }
        return;
      }
      if groundedSince.None? {
        groundedSince := Some(now);
      } else if now - groundedSince.value >= limits.landDisarm {
        Disarm();
      }
    }

    method Disarm()
      modifies this`armed, this`armedAt, this`groundedSince, this`setpoint, this`setpointTime
      ensures View() == Disarmed(old(View()))
    {
      armed, armedAt, groundedSince, setpoint, setpointTime := false, None, None, None, None;
    }
  }

  // ----- every run -----

  datatype Event = Ask(now: real, actuation: Actuation) | Physics(now: real, dt: real, disturbance: Vec, drain: real)

  function Next(norm: Norm, v: Craft, e: Event): (after: Craft)
    requires Flyable(v.limits)
    ensures after.limits == v.limits
  {
    match e
    case Ask(now, actuation) => Actuated(v, now, actuation)
    case Physics(now, dt, disturbance, drain) => Stepped(norm, v, now, dt, disturbance, drain)
  }

  function Run(norm: Norm, v: Craft, events: seq<Event>): Craft
    requires Flyable(v.limits)
    decreases |events|
  {
    if events == [] then v else Run(norm, Next(norm, v, events[0]), events[1..])
  }

  predicate Parked(v: Craft) {
    v.position == v.home && v.home.z >= 0.0 && !v.armed && !v.mode.OFFBOARD? && v.groundedSince.None?
  }

  /** Never below the ground; taken off before it can have landed; an armed drone flying OFFBOARD has setpoints. */
  ghost predicate Kept(v: Craft) {
    && v.position.z >= 0.0
    && (v.groundedSince.Some? ==> v.armed && v.tookOff && !v.Airborne())
    && (v.armed && v.mode.OFFBOARD? ==> v.setpoint.Some? && v.setpointTime.Some?)
    && (v.setpoint.Some? <==> v.setpointTime.Some?)
  }

  lemma NextKept(norm: Norm, v: Craft, e: Event)
    requires Flyable(v.limits) && Kept(v)
    ensures Kept(Next(norm, v, e))
    ensures e.Physics? ==>
      var after := Next(norm, v, e); after.armed && after.mode.OFFBOARD? ==> after.SetpointsFresh(e.now)
  {
  }

  lemma {:induction false} RunKept(norm: Norm, v: Craft, events: seq<Event>)
    requires Flyable(v.limits) && Kept(v)
    ensures Kept(Run(norm, v, events))
    ensures events != [] && events[|events| - 1].Physics? ==>
      var end := Run(norm, v, events); end.armed && end.mode.OFFBOARD? ==> end.SetpointsFresh(events[|events| - 1].now)
    decreases |events|
  {
    if events != [] {
      NextKept(norm, v, events[0]);
      RunKept(norm, Next(norm, v, events[0]), events[1..]);
    }
  }

  /** In every run of a vehicle parked at home: it is never below the ground, and after each physics step an
      armed one in OFFBOARD has had a setpoint within the timeout. */
  lemma NeverWithoutSetpoints(norm: Norm, v: Craft, events: seq<Event>, e: Event)
    requires Flyable(v.limits) && Parked(v) && v.setpoint.None? && v.setpointTime.None? && e.Physics?
    ensures var end := Run(norm, v, events + [e]);
      && end.position.z >= 0.0
      && (end.armed && end.mode.OFFBOARD? ==>
           end.setpointTime.Some? && e.now - end.setpointTime.value <= end.limits.offboardLossTimeout)
  {
    RunKept(norm, v, events + [e]);
  }

  // ----- landing -----

  const CALM := ORIGIN

  /** How far a landing vehicle comes down in a step. */
  function Descent(limits: Limits, dt: real): real {
    Min(limits.landSpeed, limits.maxDescent) * dt
  }

  /** Physics in calm air, with nothing asked of the vehicle: `n` steps `dt` apart, the first at `now`. */
  function LeftAlone(norm: Norm, v: Craft, now: real, dt: real, drain: real, n: nat): Craft
    requires Flyable(v.limits)
    decreases n
  {
    if n == 0 then v else LeftAlone(norm, Stepped(norm, v, now, dt, CALM, drain), now + dt, dt, drain, n - 1)
  }

  ghost predicate Landing(v: Craft, now: real) {
    && Flyable(v.limits) && v.armed && v.mode.AUTO_LAND? && v.tookOff
    && (v.groundedSince.Some? ==> !v.Airborne() && v.groundedSince.value <= now)
  }

  lemma DescentPositive(limits: Limits, dt: real)
    requires Flyable(limits) && dt > 0.0
    ensures Descent(limits, dt) > 0.0
  {
    PositiveProduct(Min(limits.landSpeed, limits.maxDescent), dt, Descent(limits, dt));
  }

  lemma Sink(z: real, r: real, dt: real)
    ensures z + (-r + 0.0) * dt == z - r * dt
  {
  }

  lemma LandingVelocity(norm: Norm, v: Craft)
    requires Flyable(v.limits) && v.mode.AUTO_LAND? && v.Airborne()
    ensures Velocity(norm, v, CALM).z == -Min(v.limits.landSpeed, v.limits.maxDescent)
  {
    var above := Vec(v.hold.x, v.hold.y, v.position.z);
    assert above.Sub(v.position).z == 0.0;
    Nothing(v.limits.gain);
    assert Command(norm, v).z == -v.limits.landSpeed;
    Nothing(1.0 - v.limits.windRejection);
  }

  lemma Nothing(k: real)
    ensures 0.0 * k == 0.0
  {
  }

  /** One step of a landing: down by `Descent`, until the ground. */
  lemma LandingStep(norm: Norm, v: Craft, now: real, dt: real, drain: real)
    requires Landing(v, now) && dt > 0.0
    ensures var after := Moved(norm, Failsafe(Drained(v, dt, drain), now), dt, CALM);
      && after.mode.AUTO_LAND? && after.tookOff && after.armed && after.limits == v.limits
      && after.groundedSince == v.groundedSince
      && after.position.z == if v.Airborne() then Max(0.0, v.position.z - Descent(v.limits, dt)) else Max(0.0, v.position.z)
  {
    var w := Failsafe(Drained(v, dt, drain), now);
    assert w.mode.AUTO_LAND? && w.position == v.position && w.limits == v.limits;
    if v.Airborne() {
      LandingVelocity(norm, w);
      Sink(v.position.z, Min(v.limits.landSpeed, v.limits.maxDescent), dt);
    } else {
      OnTheGround(norm, w);
      Nothing(dt);
    }
  }

  lemma OnTheGround(norm: Norm, v: Craft)
    requires Flyable(v.limits) && v.mode.AUTO_LAND? && !v.Airborne()
    ensures Velocity(norm, v, CALM) == ORIGIN
  {
    Nothing(v.limits.gain);
    assert Command(norm, v).z == -v.limits.landSpeed;
  }

  /** Steps until the disarm timer, running for `elapsed`, runs out. */
  function TimerSteps(limits: Limits, elapsed: real, dt: real): nat
    requires dt > 0.0
  {
    1 + Trajectory.StepsToCover(limits.landDisarm - elapsed, dt)
  }

  /** Steps until a landing vehicle is on the ground. */
  function StepsDown(limits: Limits, z: real, dt: real): nat
    requires Flyable(limits) && dt > 0.0
  {
    DescentPositive(limits, dt);
    Trajectory.StepsToCover(z - GROUND_TOLERANCE, Descent(limits, dt))
  }

  /** Steps until a landing vehicle disarms: down to the ground, one on which the timer starts if that is not
      the one it landed on, and the timer. */
  function StepsToDisarm(v: Craft, now: real, dt: real): nat
    requires Landing(v, now) && dt > 0.0
  {
    if v.groundedSince.Some? then TimerSteps(v.limits, now - v.groundedSince.value, dt)
    else if v.Airborne() then StepsDown(v.limits, v.position.z, dt) + TimerSteps(v.limits, dt, dt)
    else 1 + TimerSteps(v.limits, dt, dt)
  }

  lemma LowerStill(limits: Limits, z: real, dt: real)
    requires Flyable(limits) && dt > 0.0 && z > GROUND_TOLERANCE
    ensures var lower := Max(0.0, z - Descent(limits, dt));
      StepsDown(limits, z, dt) == if lower > GROUND_TOLERANCE then StepsDown(limits, lower, dt) + 1 else 1
  {
    var drop := Descent(limits, dt);
    DescentPositive(limits, dt);
    Trajectory.OneStepFewer(z - GROUND_TOLERANCE, drop);
  }

  lemma LaterStill(limits: Limits, elapsed: real, dt: real)
    requires dt > 0.0 && limits.landDisarm > elapsed
    ensures TimerSteps(limits, elapsed, dt) == TimerSteps(limits, elapsed + dt, dt) + 1
  {
    Trajectory.OneStepFewer(limits.landDisarm - elapsed, dt);
    assert Trajectory.Positive(limits.landDisarm - elapsed - dt) > 0.0 || limits.landDisarm - (elapsed + dt) <= 0.0;
  }

  /** Every step brings the count down by exactly one, and the last one disarms. */
  lemma OneStepNearer(norm: Norm, v: Craft, now: real, dt: real, drain: real)
    requires Landing(v, now) && dt > 0.0
    ensures var after := Stepped(norm, v, now, dt, CALM, drain);
      if StepsToDisarm(v, now, dt) > 1 then
        Landing(after, now + dt) && StepsToDisarm(after, now + dt, dt) == StepsToDisarm(v, now, dt) - 1
      else !after.armed && after.limits == v.limits
  {
    LandingStep(norm, v, now, dt, drain);
    if v.groundedSince.Some? {
      var elapsed := now - v.groundedSince.value;
      if v.limits.landDisarm > elapsed {
        LaterStill(v.limits, elapsed, dt);
      }
    } else if v.Airborne() {
      LowerStill(v.limits, v.position.z, dt);
    }
  }

  lemma {:induction false} StaysDisarmed(norm: Norm, v: Craft, now: real, dt: real, drain: real, n: nat)
    requires Flyable(v.limits) && !v.armed
    ensures LeftAlone(norm, v, now, dt, drain, n) == v
    decreases n
  {
    if n > 0 {
      StaysDisarmed(norm, v, now + dt, dt, drain, n - 1);
    }
  }

  /** In calm air a vehicle left in AUTO.LAND is disarmed after exactly `StepsToDisarm` steps, and not before. */
  lemma {:induction false} DisarmsExactly(norm: Norm, v: Craft, now: real, dt: real, drain: real, n: nat)
    requires Landing(v, now) && dt > 0.0
    ensures LeftAlone(norm, v, now, dt, drain, n).armed <==> n < StepsToDisarm(v, now, dt)
    decreases n
  {
    if n > 0 {
      OneStepNearer(norm, v, now, dt, drain);
      var after := Stepped(norm, v, now, dt, CALM, drain);
      if StepsToDisarm(v, now, dt) > 1 {
        DisarmsExactly(norm, after, now + dt, dt, drain, n - 1);
      } else {
        StaysDisarmed(norm, after, now + dt, dt, drain, n - 1);
      }
    }
  }

  /** So it is disarmed within ceil((z - 0.05) / (rate * dt)) + 1 + ceil(land_disarm / dt) steps, at the rate it
      lands at; one more if the disarm timer is set to nothing. */
  lemma DisarmsInTime(norm: Norm, v: Craft, now: real, dt: real, drain: real, n: nat)
    requires Landing(v, now) && dt > 0.0 && v.groundedSince.None? && v.limits.landDisarm > 0.0
    requires n >= StepsDown(v.limits, v.position.z, dt) + 1 + Trajectory.StepsToCover(v.limits.landDisarm, dt)
    ensures !LeftAlone(norm, v, now, dt, drain, n).armed
  {
    DisarmsExactly(norm, v, now, dt, drain, n);
    LaterStill(v.limits, 0.0, dt);
  }
}
