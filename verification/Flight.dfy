/** A drone's software and its autopilot together (scenarios/harness.py, sut.py, sim.py): on each step the software
    reads what the autopilot reports, the autopilot does what the software asks for, and then it flies. */
module Flight {

  import opened Wrappers
  import opened Geometry
  import opened DroneControl
  import Autopilot
  import Offboard

  datatype Flying = Flying(c: Controller, v: Autopilot.Craft)

  /** One step of the harness for one drone: the noise on its position, and what the air and the battery do. */
  datatype Moment = Moment(now: real, noise: Vec, dt: real, disturbance: Vec, drain: real)

  predicate Configured(f: Flying) {
    f.c.settings.maxStep > 0.0 && Autopilot.Flyable(f.v.limits)
  }

  function Observed(f: Flying, m: Moment): Sensed {
    Sensed(m.now, Some(f.v.position.Add(m.noise)), Some(f.v.armed), Some(f.v.mode), None, None)
  }

  /** What the software asks for; the autopilot takes setpoints relative to its home. */
  function Asked(v: Autopilot.Craft, out: Output): Autopilot.Actuation {
    Autopilot.Actuation(if out.setpoint.Some? then Some(out.setpoint.value.Sub(v.home)) else None, out.requestMode, out.requestArm)
  }

  /** Software and autopilot after the software's turn, before any physics. */
  function Controlled(norm: Norm, f: Flying, m: Moment): Flying
    requires Configured(f)
  {
    var (c, out) := Tick(norm, f.c, Observed(f, m));
    Flying(c, Autopilot.Actuated(f.v, m.now, Asked(f.v, out)))
  }

  function Flown(norm: Norm, f: Flying, m: Moment): (after: Flying)
    requires Configured(f)
    ensures Configured(after)
  {
    var next := Controlled(norm, f, m);
    next.(v := Autopilot.Stepped(norm, next.v, m.now, m.dt, m.disturbance, m.drain))
  }

  function Fly(norm: Norm, f: Flying, moments: seq<Moment>): (after: Flying)
    requires Configured(f)
    ensures Configured(after)
    decreases |moments|
  {
    if moments == [] then f else Fly(norm, Flown(norm, f, moments[0]), moments[1..])
  }

  // ----- getting off the ground -----

  /** On the ground with a path to fly, and asking the autopilot for what `phase` asks for. */
  ghost predicate Waiting(f: Flying, phase: Offboard.Phase, streamed: nat) {
    && Configured(f) && f.v.limits.offboardLossTimeout >= 0.0 && f.v.limits.preflightDisarm > 0.0
    && f.c.task.Path? && f.c.task.queue.index < |f.c.task.queue.waypoints| && f.c.handover.None?
    && f.c.offboard.phase == phase && f.c.offboard.streamed == streamed && f.c.offboard.lastRequest.None?
    && !f.v.armed
  }

  /** At no step does the drone see itself at the waypoint it is to fly to. */
  ghost predicate NotThere(norm: Norm, f: Flying, moments: seq<Moment>)
    requires f.c.task.Path? && f.c.task.queue.index < |f.c.task.queue.waypoints|
  {
    forall m :: m in moments ==>
      Dist(norm, f.v.position.Add(m.noise), f.c.task.queue.waypoints[f.c.task.queue.index]) > f.c.settings.tolerance
  }

  lemma WarmsUp(norm: Norm, f: Flying, m: Moment)
    requires Waiting(f, Offboard.Warmup, f.c.offboard.streamed) && NotThere(norm, f, [m])
    ensures var after := Flown(norm, f, m);
      && after.c.offboard == f.c.offboard.(streamed := f.c.offboard.streamed + 1,
           phase := if f.c.offboard.streamed + 1 >= f.c.offboard.warmupTicks then Offboard.RequestMode else Offboard.Warmup)
      && after.c.task == f.c.task && after.c.settings == f.c.settings && after.c.handover.None?
      && !after.v.armed && after.v.mode == f.v.mode && after.v.limits == f.v.limits && after.v.position == f.v.position
  {
    assert m in [m];
  }

  /** The tick after the warm-up asks for OFFBOARD, and has it. */
  lemma EntersOffboard(norm: Norm, f: Flying, m: Moment)
    requires Waiting(f, Offboard.RequestMode, f.c.offboard.streamed) && NotThere(norm, f, [m]) && !f.v.mode.OFFBOARD?
    ensures var after := Flown(norm, f, m);
      && after.c.offboard.phase.RequestMode? && after.c.offboard.warmupTicks == f.c.offboard.warmupTicks
      && after.c.task == f.c.task && after.c.settings == f.c.settings && after.c.handover.None?
      && !after.v.armed && after.v.mode.OFFBOARD? && after.v.limits == f.v.limits && after.v.position == f.v.position
  {
    assert m in [m];
  }

  /** The next one sees OFFBOARD, asks to arm, and is armed. */
  lemma Arms(norm: Norm, f: Flying, m: Moment)
    requires Configured(f) && f.v.limits.offboardLossTimeout >= 0.0 && f.v.limits.preflightDisarm > 0.0
    requires f.c.task.Path? && f.c.task.queue.index < |f.c.task.queue.waypoints| && f.c.handover.None?
    requires f.c.offboard.phase.RequestMode? && !f.v.armed && f.v.mode.OFFBOARD? && NotThere(norm, f, [m])
    ensures Flown(norm, f, m).v.armed
  {
    assert m in [m];
    var next := Controlled(norm, f, m).v;
    assert next.armed && next.armedAt == Some(m.now) && !next.tookOff && next.SetpointsFresh(m.now);
  }

  lemma ArmedAfterTwo(norm: Norm, f: Flying, moments: seq<Moment>)
    requires Waiting(f, Offboard.RequestMode, f.c.offboard.streamed) && NotThere(norm, f, moments) && !f.v.mode.OFFBOARD?
    requires |moments| <= 2
    ensures Fly(norm, f, moments).v.armed <==> |moments| == 2
  {
    if moments != [] {
      var next := Flown(norm, f, moments[0]);
      EntersOffboard(norm, f, moments[0]);
      if |moments| == 2 {
        Arms(norm, next, moments[1]);
        assert moments[1..] == [moments[1]] && moments[1..][1..] == [];
        assert Fly(norm, next, moments[1..]) == Flown(norm, next, moments[1]);
      } else {
        assert Fly(norm, next, moments[1..]) == next;
      }
    }
  }

  /** A drone that is given a path on the ground is armed after exactly `warmupTicks` steps of streaming, one that asks
      for OFFBOARD and one that asks to arm, whatever the times of the steps, the air and the noise. */
  lemma {:induction false} ArmedExactly(norm: Norm, f: Flying, moments: seq<Moment>)
    requires Waiting(f, Offboard.Warmup, f.c.offboard.streamed) && !f.v.mode.OFFBOARD? && NotThere(norm, f, moments)
    requires f.c.offboard.streamed < f.c.offboard.warmupTicks
    requires |moments| <= f.c.offboard.warmupTicks - f.c.offboard.streamed + 2
    ensures Fly(norm, f, moments).v.armed <==> |moments| == f.c.offboard.warmupTicks - f.c.offboard.streamed + 2
    decreases |moments|
  {
    if moments != [] {
      var m, rest := moments[0], moments[1..];
      var next := Flown(norm, f, m);
      WarmsUp(norm, f, m);
      assert forall k :: k in rest ==> k in moments;
      if next.c.offboard.phase.Warmup? {
        ArmedExactly(norm, next, rest);
      } else {
        ArmedAfterTwo(norm, next, rest);
      }
    }
  }

  // ----- getting back onto it -----

  /** Calm air: `n` steps `dt` apart, the first at `now`. */
  function Calm(now: real, dt: real, drain: real, noise: seq<Vec>): (moments: seq<Moment>)
    ensures |moments| == |noise|
    decreases |noise|
  {
    if noise == [] then []
    else [Moment(now, noise[0], dt, Autopilot.CALM, drain)] + Calm(now + dt, dt, drain, noise[1..])
  }

  /** Handed over to land, the autopilot is left alone. */
  ghost predicate HandedToLand(f: Flying) {
    f.c.handover == Some(Offboard.AUTO_LAND) && f.c.settings.maxStep > 0.0 && f.v.mode.AUTO_LAND?
  }

  lemma LandsAlone(norm: Norm, f: Flying, m: Moment)
    requires HandedToLand(f) && Autopilot.Flyable(f.v.limits)
    ensures Controlled(norm, f, m) == f
  {
  }

  lemma StaysInLand(norm: Norm, v: Autopilot.Craft, now: real, dt: real, disturbance: Vec, drain: real)
    requires Autopilot.Flyable(v.limits) && v.mode.AUTO_LAND?
    ensures Autopilot.Stepped(norm, v, now, dt, disturbance, drain).mode.AUTO_LAND?
  {
  }

  lemma {:induction false} LandsLeftAlone(norm: Norm, f: Flying, now: real, dt: real, drain: real, noise: seq<Vec>)
    requires HandedToLand(f) && Autopilot.Flyable(f.v.limits)
    ensures Fly(norm, f, Calm(now, dt, drain, noise)) == f.(v := Autopilot.LeftAlone(norm, f.v, now, dt, drain, |noise|))
    decreases |noise|
  {
    if noise != [] {
      var m := Moment(now, noise[0], dt, Autopilot.CALM, drain);
      LandsAlone(norm, f, m);
      StaysInLand(norm, f.v, now, dt, Autopilot.CALM, drain);
      LandsLeftAlone(norm, Flown(norm, f, m), now + dt, dt, drain, noise[1..]);
    }
  }

  /** In flight, on the last leg of its path. */
  ghost predicate LastLeg(f: Flying, now: real) {
    && Configured(f) && f.c.handover.None?
    && f.c.task.Path? && f.c.task.queue.index == |f.c.task.queue.waypoints| - 1
    && f.v.armed && f.v.tookOff && f.v.mode.OFFBOARD?
    && (f.v.groundedSince.Some? ==> !f.v.Airborne() && f.v.groundedSince.value <= now)
  }

  /** The step on which the drone sees itself at its last waypoint says complete and lands. */
  lemma Finishes(norm: Norm, f: Flying, m: Moment)
    requires LastLeg(f, m.now)
    requires Arrived(norm, f.c.settings.tolerance, f.c.task.queue, f.v.position.Add(m.noise))
    ensures var next := Controlled(norm, f, m);
      HandedToLand(next) && next.c.complete && next.v == Autopilot.Entered(f.v, Offboard.AUTO_LAND)
  {
  }

  /** A drone that reaches the end of its path in calm air reports it complete on that step, and is disarmed after
      exactly the steps its landing takes, and not before: software and autopilot need nobody else to end a flight. */
  lemma FinishedIsDisarmed(norm: Norm, f: Flying, now: real, dt: real, drain: real, noise: seq<Vec>)
    requires LastLeg(f, now) && dt > 0.0 && noise != []
    requires Arrived(norm, f.c.settings.tolerance, f.c.task.queue, f.v.position.Add(noise[0]))
    ensures var after := Fly(norm, f, Calm(now, dt, drain, noise));
      var landing := Autopilot.Entered(f.v, Offboard.AUTO_LAND);
      && Autopilot.Landing(landing, now)
      && after.c.complete && after.c.handover == Some(Offboard.AUTO_LAND)
      && (after.v.armed <==> |noise| < Autopilot.StepsToDisarm(landing, now, dt))
  {
    var m := Moment(now, noise[0], dt, Autopilot.CALM, drain);
    Finishes(norm, f, m);
    var next := Controlled(norm, f, m);
    LandsAlone(norm, next, m);
    LandsLeftAlone(norm, next, now, dt, drain, noise);
    Autopilot.DisarmsExactly(norm, next.v, now, dt, drain, |noise|);
    assert Flown(norm, f, m) == Flown(norm, next, m);
  }
}
