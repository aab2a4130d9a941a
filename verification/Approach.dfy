/** How fast an autopilot in OFFBOARD closes in on what it is aimed at (drone_controller.py, sim.py): each step in calm air
    leaves at most a fixed share of the distance, whatever is clamped on the way. */
module Approach {

  import opened Geometry
  import opened Autopilot
  import Trajectory

  /** What is kept of `most` under a limit: all of it, or the limit's share. */
  function Share(limit: real, most: real): (share: real)
    requires limit > 0.0
    ensures 0.0 < share <= 1.0
  {
    if most <= limit then 1.0
    else
      PartOf(limit, most, limit / most);
      limit / most
  }

  lemma PartOf(part: real, whole: real, share: real)
    requires 0.0 < part < whole && share == part / whole
    ensures 0.0 < share <= 1.0 && share * whole == part
  {
    Trajectory.Ratio(part, whole, share);
    if share <= 0.0 {
      ScaleOrder(whole, share, 0.0);
    }
  }

  lemma Cancel(a: real, b: real, k: real)
    requires k > 0.0 && a * k <= b * k
    ensures a <= b
  {
    if a > b {
      PositiveProduct(a - b, k, (a - b) * k);
    }
  }

  lemma ShareOf(limit: real, most: real)
    requires limit > 0.0 && most >= 0.0
    ensures Share(limit, most) * most == if most <= limit then most else limit
  {
    if most > limit {
      PartOf(limit, most, limit / most);
    }
  }

  lemma LessOfMore(limit: real, less: real, more: real)
    requires limit > 0.0 && less <= more
    ensures Share(limit, more) <= Share(limit, less)
  {
    if less > limit {
      PartOf(limit, less, limit / less);
      PartOf(limit, more, limit / more);
      SmallerPart(limit, less, more, limit / less, limit / more);
    }
  }

  lemma SmallerPart(part: real, less: real, more: real, s: real, t: real)
    requires 0.0 < part && 0.0 < less <= more && s * less == part && t * more == part && t > 0.0
    ensures t <= s
  {
    ScaleOrder(t, less, more);
    Cancel(t, s, less);
  }

  lemma MoreOfLimit(less: real, more: real, most: real)
    requires 0.0 < less <= more
    ensures Share(less, most) <= Share(more, most)
  {
    if most > more {
      PartOf(less, most, less / most);
      PartOf(more, most, more / most);
      LargerPart(less, more, most, less / most, more / most);
    }
  }

  lemma LargerPart(less: real, more: real, whole: real, s: real, t: real)
    requires less <= more && whole > 0.0 && s * whole == less && t * whole == more
    ensures s <= t
  {
    Cancel(s, t, whole);
  }

  // ----- one step -----

  /** The autopilot can move at all, and does not overshoot. */
  predicate Steers(limits: Limits, dt: real) {
    limits.maxSpeed > 0.0 && limits.maxClimb > 0.0 && limits.maxDescent > 0.0 && limits.gain > 0.0 && dt > 0.0
    && limits.gain * dt <= 1.0
  }

  function Slowest(limits: Limits): real {
    Min(limits.maxSpeed, Min(limits.maxClimb, limits.maxDescent))
  }

  /** The fastest a setpoint ever asks the autopilot to go. */
  function Fastest(limits: Limits, maxStep: real): real {
    maxStep * limits.gain
  }

  /** The share of the way that is covered in a step from at most `reach` away, at the least. */
  function Rate(limits: Limits, maxStep: real, reach: real, dt: real): real
    requires Steers(limits, dt) && maxStep > 0.0
  {
    (limits.gain * dt) * (Share(maxStep, reach) * Share(Slowest(limits), Fastest(limits, maxStep)))
  }

  lemma RateBounds(limits: Limits, maxStep: real, reach: real, dt: real)
    requires Steers(limits, dt) && maxStep > 0.0
    ensures 0.0 < Rate(limits, maxStep, reach, dt) <= 1.0
  {
    var k, s, t := limits.gain * dt, Share(maxStep, reach), Share(Slowest(limits), Fastest(limits, maxStep));
    PositiveProduct(limits.gain, dt, k);
    PositiveProduct(s, t, s * t);
    PositiveProduct(k, s * t, k * (s * t));
    Below(s, t, 1.0, 1.0);
    Below(k, s * t, 1.0, 1.0);
  }

  lemma Below(a: real, b: real, c: real, d: real)
    requires 0.0 <= a <= c && 0.0 <= b <= d
    ensures a * b <= c * d
  {
    ScaleOrder(a, b, d);
    ScaleOrder(d, a, c);
  }

  /** The setpoint of a path is a share of the way to the waypoint. */
  lemma TowardsIsShare(norm: Norm, p: Vec, target: Vec, maxStep: real)
    requires IsNorm(norm) && maxStep > 0.0
    ensures Trajectory.Towards(norm, p, target, maxStep).Sub(p) ==
            target.Sub(p).Scale(Share(maxStep, norm(target.Sub(p))))
  {
  }

  /** What is left of a commanded velocity once it is clamped. */
  lemma ClampedIsShare(norm: Norm, v: Vec, limits: Limits)
    requires limits.maxSpeed > 0.0 && limits.maxClimb > 0.0 && limits.maxDescent > 0.0 && limits.landSpeed > 0.0
    ensures var h := Share(limits.maxSpeed, Horizontal(norm, v));
      var w := Share(if v.z < 0.0 then limits.maxDescent else limits.maxClimb, Abs(v.z));
      Clamped(norm, v, limits) == Vec(v.x * h, v.y * h, v.z * w)
  {
    ShareOf(if v.z < 0.0 then limits.maxDescent else limits.maxClimb, Abs(v.z));
  }

  lemma PartsWithin(norm: Norm, v: Vec)
    requires IsNorm(norm)
    ensures Horizontal(norm, v) <= norm(v) && Abs(v.z) <= norm(v)
  {
    NormFacts(norm, v);
    NormFacts(norm, Vec(v.x, v.y, 0.0));
    SquareSign(v.x, v.x * v.x);
    SquareSign(v.y, v.y * v.y);
    SquareSign(v.z, v.z * v.z);
    SquareOrder(Horizontal(norm, v), norm(v));
    SquareOfAbs(v.z);
    SquareOrder(Abs(v.z), norm(v));
  }

  /** A step of the autopilot towards the setpoint for `target` covers between `rate` and all of the way, one share of it
      level and another in height. */
  ghost predicate Covers(p: Vec, target: Vec, q: Vec, rate: real) {
    exists a: real, b: real :: IsPart(p, target, q, rate, a, b)
  }

  predicate IsPart(p: Vec, target: Vec, q: Vec, rate: real, a: real, b: real) {
    && rate <= a <= 1.0 && rate <= b <= 1.0
    && q == Vec(Part(p.x, target.x, a), Part(p.y, target.y, a), Part(p.z, target.z, b))
  }

  function Velocity(norm: Norm, limits: Limits, p: Vec, target: Vec, maxStep: real): Vec
    requires Flyable(limits) && maxStep > 0.0
  {
    Clamped(norm, Trajectory.Towards(norm, p, target, maxStep).Sub(p).Scale(limits.gain), limits)
  }

  /** How little is left of a command that is no more than `most`. */
  lemma LeftOfCommand(norm: Norm, v: Vec, limits: Limits, most: real, h: real, w: real)
    requires IsNorm(norm) && norm(v) <= most && limits.maxSpeed > 0.0 && limits.maxClimb > 0.0 && limits.maxDescent > 0.0
    requires h == Share(limits.maxSpeed, Horizontal(norm, v))
    requires w == Share(if v.z < 0.0 then limits.maxDescent else limits.maxClimb, Abs(v.z))
    ensures 0.0 < Share(Slowest(limits), most) <= h <= 1.0 && Share(Slowest(limits), most) <= w <= 1.0
  {
    PartsWithin(norm, v);
    var vertical := if v.z < 0.0 then limits.maxDescent else limits.maxClimb;
    LessOfMore(limits.maxSpeed, Horizontal(norm, v), most);
    LessOfMore(vertical, Abs(v.z), most);
    MoreOfLimit(Slowest(limits), limits.maxSpeed, most);
    MoreOfLimit(Slowest(limits), vertical, most);
  }

  lemma RateIs(limits: Limits, maxStep: real, reach: real, dt: real, g: real, far: real, least: real)
    requires Steers(limits, dt) && maxStep > 0.0 && g == limits.gain * dt
    requires far == Share(maxStep, reach) && least == Share(Slowest(limits), Fastest(limits, maxStep))
    ensures Rate(limits, maxStep, reach, dt) == g * (far * least)
  {
  }

  lemma VelocityIs(norm: Norm, limits: Limits, p: Vec, target: Vec, maxStep: real, k: real, v: Vec, h: real, w: real)
    requires IsNorm(norm) && Flyable(limits) && maxStep > 0.0 && limits.maxSpeed > 0.0 && limits.maxClimb > 0.0
    requires k == Share(maxStep, norm(target.Sub(p))) && v == target.Sub(p).Scale(k).Scale(limits.gain)
    requires h == Share(limits.maxSpeed, Horizontal(norm, v))
    requires w == Share(if v.z < 0.0 then limits.maxDescent else limits.maxClimb, Abs(v.z))
    ensures Velocity(norm, limits, p, target, maxStep) == Vec(v.x * h, v.y * h, v.z * w)
  {
    TowardsIsShare(norm, p, target, maxStep);
    ClampedIsShare(norm, v, limits);
  }

  /** `k` of the way, and `h` and `w` of the speed that asks for, level and in height. */
  ghost predicate StepShares(norm: Norm, limits: Limits, e: Vec, maxStep: real, v: Vec, k: real, h: real, w: real)
    requires limits.maxSpeed > 0.0 && limits.maxClimb > 0.0 && limits.maxDescent > 0.0 && maxStep > 0.0
  {
    && k == Share(maxStep, norm(e)) && v == e.Scale(k).Scale(limits.gain)
    && h == Share(limits.maxSpeed, Horizontal(norm, v))
    && w == Share(if v.z < 0.0 then limits.maxDescent else limits.maxClimb, Abs(v.z))
  }

  lemma SharesWithin(norm: Norm, limits: Limits, e: Vec, maxStep: real, reach: real, v: Vec, k: real, h: real, w: real)
    requires IsNorm(norm) && limits.maxSpeed > 0.0 && limits.maxClimb > 0.0 && limits.maxDescent > 0.0 && limits.gain > 0.0
    requires maxStep > 0.0 && norm(e) <= reach && StepShares(norm, limits, e, maxStep, v, k, h, w)
    ensures 0.0 < Share(maxStep, reach) <= k <= 1.0
    ensures 0.0 < Share(Slowest(limits), Fastest(limits, maxStep)) <= h <= 1.0
    ensures Share(Slowest(limits), Fastest(limits, maxStep)) <= w <= 1.0
  {
    CommandWithin(norm, e, k, limits.gain, maxStep, Fastest(limits, maxStep));
    LeftOfCommand(norm, v, limits, Fastest(limits, maxStep), h, w);
    LessOfMore(maxStep, norm(e), reach);
  }

  lemma SharesCover(norm: Norm, limits: Limits, p: Vec, target: Vec, maxStep: real, reach: real, dt: real, v: Vec, k: real,
                    h: real, w: real, g: real)
    requires IsNorm(norm) && Steers(limits, dt) && maxStep > 0.0 && norm(target.Sub(p)) <= reach && g == limits.gain * dt > 0.0
    requires StepShares(norm, limits, target.Sub(p), maxStep, v, k, h, w)
    ensures Covers(p, target, StepTo(p, target, k, limits.gain, h, w, dt), Rate(limits, maxStep, reach, dt))
  {
    var far, least := Share(maxStep, reach), Share(Slowest(limits), Fastest(limits, maxStep));
    SharesWithin(norm, limits, target.Sub(p), maxStep, reach, v, k, h, w);
    RateIs(limits, maxStep, reach, dt, g, far, least);
    FactorsCover(p, target, k, limits.gain, dt, h, w, g, far, least, Rate(limits, maxStep, reach, dt));
  }

  lemma StepCovers(norm: Norm, limits: Limits, p: Vec, target: Vec, maxStep: real, reach: real, dt: real)
    requires IsNorm(norm) && Flyable(limits) && Steers(limits, dt) && maxStep > 0.0 && norm(target.Sub(p)) <= reach
    ensures Covers(p, target, p.Add(Velocity(norm, limits, p, target, maxStep).Scale(dt)), Rate(limits, maxStep, reach, dt))
  {
    var k := Share(maxStep, norm(target.Sub(p)));
    var v := target.Sub(p).Scale(k).Scale(limits.gain);
    var h := Share(limits.maxSpeed, Horizontal(norm, v));
    var w := Share(if v.z < 0.0 then limits.maxDescent else limits.maxClimb, Abs(v.z));
    PositiveProduct(limits.gain, dt, limits.gain * dt);
    SharesCover(norm, limits, p, target, maxStep, reach, dt, v, k, h, w, limits.gain * dt);
    VelocityIs(norm, limits, p, target, maxStep, k, v, h, w);
    IsStepTo(p, target, k, limits.gain, h, w, dt, v);
  }

  lemma CommandWithin(norm: Norm, e: Vec, k: real, gain: real, maxStep: real, most: real)
    requires IsNorm(norm) && gain > 0.0 && maxStep > 0.0 && k == Share(maxStep, norm(e)) && most == maxStep * gain
    ensures norm(e.Scale(k).Scale(gain)) <= most
  {
    NormFacts(norm, e);
    Homogeneity(norm, e, k);
    Homogeneity(norm, e.Scale(k), gain);
    ShareOf(maxStep, norm(e));
    ScaleOrder(gain, k * norm(e), maxStep);
  }

  lemma FactorWithin(g: real, k: real, h: real, far: real, least: real, a: real, rate: real)
    requires 0.0 < g <= 1.0 && 0.0 < far <= k <= 1.0 && 0.0 < least <= h <= 1.0
    requires a == Factor(g, k, h) && rate == g * (far * least)
    ensures rate <= a <= 1.0
  {
    Below(far, least, k, h);
    PositiveProduct(k, h, k * h);
    ScaleOrder(g, far * least, k * h);
    Below(k, h, 1.0, 1.0);
    Below(g, k * h, 1.0, 1.0);
  }

  /** One coordinate of a step: the way there, its share `k`, the gain, what is left of it, and the time. */
  function Moved(from: real, to: real, k: real, gain: real, h: real, dt: real): real {
    from + (to - from) * k * gain * h * dt
  }

  function Part(from: real, to: real, a: real): real {
    from + (to - from) * a
  }

  lemma MovedIsPart(from: real, to: real, k: real, gain: real, h: real, dt: real, g: real, a: real)
    requires g == gain * dt && a == g * (k * h)
    ensures Moved(from, to, k, gain, h, dt) == Part(from, to, a)
  {
    Regrouped(to - from, k, gain, h, dt, g, a);
  }

  lemma Regrouped(e: real, k: real, gain: real, h: real, dt: real, g: real, a: real)
    requires g == gain * dt && a == g * (k * h)
    ensures e * k * gain * h * dt == e * a
  {
    assert e * k * gain * h * dt == e * ((gain * dt) * (k * h));
  }

  function StepTo(p: Vec, target: Vec, k: real, gain: real, h: real, w: real, dt: real): Vec {
    Vec(Moved(p.x, target.x, k, gain, h, dt), Moved(p.y, target.y, k, gain, h, dt), Moved(p.z, target.z, k, gain, w, dt))
  }

  lemma IsStepTo(p: Vec, target: Vec, k: real, gain: real, h: real, w: real, dt: real, v: Vec)
    requires v == target.Sub(p).Scale(k).Scale(gain)
    ensures p.Add(Vec(v.x * h, v.y * h, v.z * w).Scale(dt)) == StepTo(p, target, k, gain, h, w, dt)
  {
    var x, y, z := target.x - p.x, target.y - p.y, target.z - p.z;
    assert v.x == x * k * gain;
    assert v.y == y * k * gain;
    assert v.z == z * k * gain;
  }

  lemma PartOfWay(p: Vec, target: Vec, k: real, gain: real, dt: real, h: real, w: real, g: real, a: real, b: real, rate: real)
    requires g == gain * dt && a == Factor(g, k, h) && b == Factor(g, k, w)
    requires rate <= a <= 1.0 && rate <= b <= 1.0
    ensures Covers(p, target, StepTo(p, target, k, gain, h, w, dt), rate)
  {
    var q := StepTo(p, target, k, gain, h, w, dt);
    assert q.x == Part(p.x, target.x, a) by { MovedIsPart(p.x, target.x, k, gain, h, dt, g, a); }
    assert q.y == Part(p.y, target.y, a) by { MovedIsPart(p.y, target.y, k, gain, h, dt, g, a); }
    assert q.z == Part(p.z, target.z, b) by { MovedIsPart(p.z, target.z, k, gain, w, dt, g, b); }
    assert IsPart(p, target, q, rate, a, b);
  }

  lemma FactorsCover(p: Vec, target: Vec, k: real, gain: real, dt: real, h: real, w: real, g: real, far: real, least: real,
                     rate: real)
    requires g == gain * dt && 0.0 < g <= 1.0 && rate == g * (far * least)
    requires 0.0 < far <= k <= 1.0 && 0.0 < least <= h <= 1.0 && least <= w <= 1.0
    ensures Covers(p, target, StepTo(p, target, k, gain, h, w, dt), rate)
  {
    var a, b := Factor(g, k, h), Factor(g, k, w);
    FactorWithin(g, k, h, far, least, a, rate);
    FactorWithin(g, k, w, far, least, b, rate);
    PartOfWay(p, target, k, gain, dt, h, w, g, a, b, rate);
  }

  /** The share of the way that these come to. */
  function Factor(g: real, k: real, h: real): real {
    g * (k * h)
  }

  // ----- the distance left -----

  lemma SquareShrinks(x: real, s: real, c: real, y: real, yy: real, xx: real, cc: real)
    requires 0.0 <= s <= c && y == x * s && yy == y * y && xx == x * x && cc == c * c
    ensures yy <= cc * xx
  {
    SquareSign(x, xx);
    Below(s, s, c, c);
    ScaleOrder(xx, s * s, cc);
    ProductSquare(x, s);
  }

  lemma DotShrinks(d: Vec, e: Vec, s: real, t: real, c: real)
    requires 0.0 <= s <= c && 0.0 <= t <= c && e == Vec(d.x * s, d.y * s, d.z * t)
    ensures e.Dot(e) <= (c * c) * d.Dot(d)
  {
    SquareShrinks(d.x, s, c, e.x, e.x * e.x, d.x * d.x, c * c);
    SquareShrinks(d.y, s, c, e.y, e.y * e.y, d.y * d.y, c * c);
    SquareShrinks(d.z, t, c, e.z, e.z * e.z, d.z * d.z, c * c);
    ThreeTerms(c * c, e.x * e.x, e.y * e.y, e.z * e.z, d.x * d.x, d.y * d.y, d.z * d.z);
  }

  lemma ThreeTerms(k: real, a: real, b: real, c: real, x: real, y: real, z: real)
    requires a <= k * x && b <= k * y && c <= k * z
    ensures a + b + c <= k * (x + y + z)
  {
    Distribute(k, x, y, z);
  }

  lemma Left(from: real, to: real, a: real)
    ensures from + (to - from) * a - to == (from - to) * (1.0 - a)
  {
  }

  lemma LeftOver(p: Vec, target: Vec, q: Vec, rate: real, a: real, b: real, d: Vec, s: real, t: real)
    requires IsPart(p, target, q, rate, a, b) && d == p.Sub(target) && s == 1.0 - a && t == 1.0 - b
    ensures q.Sub(target) == Vec(d.x * s, d.y * s, d.z * t)
  {
    Left(p.x, target.x, a);
    Left(p.y, target.y, a);
    Left(p.z, target.z, b);
  }

  /** So the distance left is at most 1 - rate of what it was. */
  lemma Shrinks(norm: Norm, p: Vec, target: Vec, q: Vec, rate: real)
    requires IsNorm(norm) && 0.0 < rate <= 1.0 && Covers(p, target, q, rate)
    ensures Dist(norm, q, target) <= (1.0 - rate) * Dist(norm, p, target)
  {
    var a: real, b: real :| IsPart(p, target, q, rate, a, b);
    var d, e, c := p.Sub(target), q.Sub(target), 1.0 - rate;
    LeftOver(p, target, q, rate, a, b, d, 1.0 - a, 1.0 - b);
    VecShrinks(norm, d, e, 1.0 - a, 1.0 - b, c);
  }

  lemma VecShrinks(norm: Norm, d: Vec, e: Vec, s: real, t: real, c: real)
    requires IsNorm(norm) && 0.0 <= s <= c && 0.0 <= t <= c && e == Vec(d.x * s, d.y * s, d.z * t)
    ensures norm(e) <= c * norm(d)
  {
    DotShrinks(d, e, s, t, c);
    NormFacts(norm, d);
    NormFacts(norm, e);
    RootShrinks(norm(e), norm(d), c, e.Dot(e), d.Dot(d));
  }

  lemma RootShrinks(m: real, n: real, c: real, mm: real, nn: real)
    requires m * m == mm && n * n == nn && n >= 0.0 && c >= 0.0 && mm <= (c * c) * nn
    ensures m <= c * n
  {
    ScaleOrder(c, 0.0, n);
    ProductSquare(n, c);
    SquareOrder(m, c * n);
  }

  /** While the target is further off than `near`, every step comes `rate * near` nearer. */
  lemma ComesNearer(norm: Norm, p: Vec, target: Vec, q: Vec, rate: real, near: real)
    requires IsNorm(norm) && 0.0 < rate <= 1.0 && Covers(p, target, q, rate)
    ensures Dist(norm, q, target) <= Dist(norm, p, target)
    ensures near <= Dist(norm, p, target) ==> Dist(norm, q, target) <= Dist(norm, p, target) - rate * near
  {
    Shrinks(norm, p, target, q, rate);
    DistFacts(norm, p, target);
    LessOff(rate, near, Dist(norm, p, target));
  }

  lemma LessOff(rate: real, near: real, far: real)
    requires 0.0 < rate <= 1.0 && far >= 0.0
    ensures (1.0 - rate) * far <= far
    ensures near <= far ==> (1.0 - rate) * far <= far - rate * near
  {
    assert (1.0 - rate) * far == far - rate * far;
    if near <= far {
      ScaleOrder(rate, near, far);
    }
    ScaleOrder(rate, 0.0, far);
  }

  /** In height: between where it was and the target's, and at least `rate` of the way. */
  lemma Climbs(p: Vec, target: Vec, q: Vec, rate: real, floor: real)
    requires 0.0 < rate <= 1.0 && Covers(p, target, q, rate)
    ensures p.z > floor && target.z > floor ==> q.z > floor
    ensures p.z <= floor < target.z ==> q.z >= p.z + rate * (target.z - floor)
  {
    var a: real, b: real :| IsPart(p, target, q, rate, a, b);
    Mixes(p.z, target.z, b, floor);
    if p.z <= floor < target.z {
      Below(rate, target.z - floor, b, target.z - p.z);
    }
  }

  lemma Mixes(z: real, t: real, b: real, floor: real)
    requires 0.0 <= b <= 1.0
    ensures z > floor && t > floor ==> z + (t - z) * b > floor
  {
    if t >= z {
      Below(0.0, 0.0, t - z, b);
    } else {
      ScaleOrder(z - t, b, 1.0);
      assert (t - z) * b == -((z - t) * b);
      if z > floor && t > floor && z + (t - z) * b == t {
      }
    }
  }
}
