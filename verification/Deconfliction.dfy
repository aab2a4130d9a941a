/** Plan-time deconfliction (Deconfliction.cs): the closest sampled approach of every pair of drones.

  Sampling is sound up to a known margin: a drone moves at most speed x time, so between two
  samples no pair gets closer than its closest sample less speed x step.
 */
module Deconfliction {

  import opened Wrappers
  import opened Geometry
  import opened Trajectory

  type Polyline = path: seq<Vec> | |path| > 0 witness [ORIGIN]

  // ----- where a drone is after a distance -----

  /** The point `distance` along the polyline; its end once past it. */
  function PointAt(norm: Norm, path: Polyline, distance: real): Vec
    decreases |path|
  {
    if |path| == 1 then path[0]
    else
      var segment := Dist(norm, path[1], path[0]);
      if distance <= segment then
        if segment == 0.0 then path[1] else path[0].Add(path[1].Sub(path[0]).Scale(distance / segment))
      else PointAt(norm, path[1..], distance - segment)
  }

  function LengthOf(norm: Norm, path: Polyline): real
    decreases |path|
  {
    if |path| == 1 then 0.0 else Dist(norm, path[1], path[0]) + LengthOf(norm, path[1..])
  }

  method PositionAt(norm: Norm, path: Polyline, distance: real) returns (position: Vec)
    ensures position == PointAt(norm, path, distance)
  {
    var remaining := distance;
    for i := 1 to |path|
      invariant PointAt(norm, path, distance) == PointAt(norm, path[i - 1..], remaining)
    {
      var segment := Dist(norm, path[i], path[i - 1]);
      assert path[i - 1..][1..] == path[i..];
      if remaining <= segment {
        return if segment == 0.0 then path[i] else path[i - 1].Add(path[i].Sub(path[i - 1]).Scale(remaining / segment));
      }
      remaining := remaining - segment;
    }
    assert path[|path| - 1..] == [path[|path| - 1]];
    return path[|path| - 1];
  }

  method Length(norm: Norm, path: Polyline) returns (length: real)
    ensures length == LengthOf(norm, path)
  {
    length := 0.0;
    for i := 1 to |path|
      invariant LengthOf(norm, path) == length + LengthOf(norm, path[i - 1..])
    {
      assert path[i - 1..][1..] == path[i..];
      length := length + Dist(norm, path[i], path[i - 1]);
    }
    assert path[|path| - 1..] == [path[|path| - 1]];
  }

  lemma {:induction false} LengthNotNegative(norm: Norm, path: Polyline)
    requires IsNorm(norm)
    ensures LengthOf(norm, path) >= 0.0
    decreases |path|
  {
    if |path| > 1 {
      DistFacts(norm, path[1], path[0]);
      LengthNotNegative(norm, path[1..]);
    }
  }

  /** Past its length, a drone stays at the end. */
  lemma {:induction false} PastTheEnd(norm: Norm, path: Polyline, distance: real)
    requires IsNorm(norm) && distance >= LengthOf(norm, path)
    ensures PointAt(norm, path, distance) == path[|path| - 1]
    decreases |path|
  {
    if |path| > 1 {
      var segment := Dist(norm, path[1], path[0]);
      DistFacts(norm, path[1], path[0]);
      LengthNotNegative(norm, path[1..]);
      PastTheEnd(norm, path[1..], distance - segment);
      if distance <= segment {
        PastTheEnd(norm, path[1..], 0.0);
        AtTheStart(norm, path[1..]);
        if segment != 0.0 {
          WholeSegment(path[0], path[1], distance, segment);
        }
      }
    }
  }

  lemma WholeSegment(start: Vec, end: Vec, distance: real, segment: real)
    requires distance == segment > 0.0
    ensures start.Add(end.Sub(start).Scale(distance / segment)) == end
  {
    var k := distance / segment;
    Ratio(distance, segment, k);
    UnitRatio(k, segment);
  }

  lemma UnitRatio(k: real, d: real)
    requires d > 0.0 && k * d == d
    ensures k == 1.0
  {
  }

  lemma {:induction false} AtTheStart(norm: Norm, path: Polyline)
    requires IsNorm(norm)
    ensures PointAt(norm, path, 0.0) == path[0]
  {
    if |path| > 1 {
      var segment := Dist(norm, path[1], path[0]);
      DistFacts(norm, path[1], path[0]);
      if segment != 0.0 {
        NoneOfTheWay(path[0], path[1], segment);
      }
    }
  }

  lemma NoneOfTheWay(start: Vec, end: Vec, segment: real)
    requires segment > 0.0
    ensures start.Add(end.Sub(start).Scale(0.0 / segment)) == start
  {
    Ratio(0.0, segment, 0.0 / segment);
    ZeroRatio(0.0 / segment, segment);
  }

  lemma ZeroRatio(k: real, d: real)
    requires d > 0.0 && k * d == 0.0
    ensures k == 0.0
  {
  }

  /** Two points on one segment are as far apart as their distances along it. */
  lemma AlongSegment(norm: Norm, start: Vec, end: Vec, d: real, e: real, segment: real)
    requires IsNorm(norm) && segment > 0.0 && segment == Dist(norm, end, start)
    ensures Dist(norm, start.Add(end.Sub(start).Scale(d / segment)), start.Add(end.Sub(start).Scale(e / segment)))
         == Abs(d - e)
  {
    var p, q := d / segment, e / segment;
    Homogeneity(norm, end.Sub(start), p - q);
    ScaleDifference(start, end.Sub(start), p, q);
    RatioDifference(d, e, segment, p, q);
  }

  lemma ScaleDifference(start: Vec, delta: Vec, p: real, q: real)
    ensures start.Add(delta.Scale(p)).Sub(start.Add(delta.Scale(q))) == delta.Scale(p - q)
  {
  }

  lemma RatioDifference(d: real, e: real, segment: real, p: real, q: real)
    requires segment > 0.0 && p == d / segment && q == e / segment
    ensures Abs(p - q) * segment == Abs(d - e)
  {
    assert p * segment == d && q * segment == e;
    assert (p - q) * segment == d - e;
    assert (q - p) * segment == e - d;
    if p < q {
      ScaleOrder(segment, p, q);
    } else {
      ScaleOrder(segment, q, p);
    }
  }

  /** PointAt is 1-Lipschitz: moving on by some distance moves at most that far. */
  lemma {:induction false} Lipschitz(norm: Norm, path: Polyline, d: real, e: real)
    requires IsNorm(norm)
    ensures Dist(norm, PointAt(norm, path, d), PointAt(norm, path, e)) <= Abs(d - e)
    decreases |path|, d > e
  {
    if d > e {
      Lipschitz(norm, path, e, d);
      DistFacts(norm, PointAt(norm, path, d), PointAt(norm, path, e));
    } else if |path| == 1 {
      DistFacts(norm, path[0], path[0]);
    } else {
      var segment := Dist(norm, path[1], path[0]);
      DistFacts(norm, path[1], path[0]);
      if d > segment {
        Lipschitz(norm, path[1..], d - segment, e - segment);
      } else if e <= segment {
        WithinSegment(norm, path, d, e);
      } else {
        AcrossCorner(norm, path, d, e);
      }
    }
  }

  lemma WithinSegment(norm: Norm, path: Polyline, d: real, e: real)
    requires IsNorm(norm) && |path| > 1
    requires d <= e <= Dist(norm, path[1], path[0])
    ensures Dist(norm, PointAt(norm, path, d), PointAt(norm, path, e)) <= Abs(d - e)
  {
    var segment := Dist(norm, path[1], path[0]);
    DistFacts(norm, path[1], path[0]);
    if segment == 0.0 {
      DistFacts(norm, path[1], path[1]);
    } else {
      AlongSegment(norm, path[0], path[1], d, e, segment);
    }
  }

  lemma AcrossCorner(norm: Norm, path: Polyline, d: real, e: real)
    requires IsNorm(norm) && |path| > 1
    requires d <= Dist(norm, path[1], path[0]) < e
    ensures Dist(norm, PointAt(norm, path, d), PointAt(norm, path, e)) <= Abs(d - e)
    decreases |path|, false, 0
  {
    var segment := Dist(norm, path[1], path[0]);
    WithinSegment(norm, path, d, segment);
    AtCorner(norm, path);
    AtTheStart(norm, path[1..]);
    Lipschitz(norm, path[1..], 0.0, e - segment);
    DistTriangle(norm, PointAt(norm, path, d), path[1], PointAt(norm, path, e));
  }

  lemma AtCorner(norm: Norm, path: Polyline)
    requires IsNorm(norm) && |path| > 1
    ensures PointAt(norm, path, Dist(norm, path[1], path[0])) == path[1]
  {
    var segment := Dist(norm, path[1], path[0]);
    DistFacts(norm, path[1], path[0]);
    if segment != 0.0 {
      WholeSegment(path[0], path[1], segment, segment);
    }
  }

  /** The path leads through every waypoint, at the distance of the legs before it. */
  lemma {:induction false} PassesEveryWaypoint(norm: Norm, path: Polyline, k: nat)
    requires IsNorm(norm) && k < |path|
    ensures PointAt(norm, path, LengthOf(norm, path[..k + 1])) == path[k]
    decreases |path|
  {
    if k == 0 {
      AtTheStart(norm, path);
    } else {
      var segment, way := Dist(norm, path[1], path[0]), path[..k + 1];
      DistFacts(norm, path[1], path[0]);
      assert way[1..] == path[1..][..k] && way[0] == path[0] && way[1] == path[1];
      LengthNotNegative(norm, way[1..]);
      PassesEveryWaypoint(norm, path[1..], k - 1);
      if LengthOf(norm, way) <= segment {
        AtCorner(norm, path);
        AtTheStart(norm, path[1..]);
      }
    }
  }

  // ----- every pair, over time -----

  /** One drone's part in a plan; a drone is its place among the paths. */
  datatype PlannedPath = PlannedPath(path: Polyline, length: real)

  type Planned = p: PlannedPath | p.length >= 0.0 witness PlannedPath([ORIGIN], 0.0)

  datatype Closest = Closest(distance: real, at: real)

  datatype Conflict = Conflict(a: nat, b: nat, at: real, distance: real)

  datatype Report = Report(minSeparation: Option<real>, conflicts: seq<Conflict>)

  const SAMPLE_SECONDS := 0.1
  const MAX_SAMPLES: nat := 20_000

  function Travelled(speed: real, t: real): real {
    speed * t
  }

  /** How far apart drones i and j are at time t, both flying at `speed` from time 0. */
  function Separation(norm: Norm, paths: seq<Planned>, speed: real, i: nat, j: nat, t: real): real
    requires i < |paths| && j < |paths|
  {
    Dist(norm, PointAt(norm, paths[i].path, Travelled(speed, t)), PointAt(norm, paths[j].path, Travelled(speed, t)))
  }

  /** `c` is the closest of the first `samples` samples, and the first of those. */
  ghost predicate IsClosestSample(norm: Norm, paths: seq<Planned>, speed: real, step: real, samples: nat,
                                  i: nat, j: nat, c: Closest)
    requires i < |paths| && j < |paths|
  {
    && (exists k: nat :: k < samples && c.at == Span(k, step))
    && c.distance == Separation(norm, paths, speed, i, j, c.at)
    && (forall k: nat :: k < samples ==> c.distance <= Separation(norm, paths, speed, i, j, Span(k, step)))
    && (forall k: nat :: k < samples && Span(k, step) < c.at ==>
          c.distance < Separation(norm, paths, speed, i, j, Span(k, step)))
  }

  lemma SpeedTimes(speed: real, s: real, t: real)
    requires speed > 0.0
    ensures Abs(speed * s - speed * t) == speed * Abs(s - t)
  {
    if s < t {
      ScaleOrder(speed, s, t);
    } else {
      ScaleOrder(speed, t, s);
    }
  }

  /** In a time |s - t| a pair's distance changes by at most twice the speed times that. */
  lemma SeparationChange(norm: Norm, paths: seq<Planned>, speed: real, i: nat, j: nat, s: real, t: real, gap: real)
    requires IsNorm(norm) && speed > 0.0 && i < |paths| && j < |paths|
    requires gap == speed * Abs(s - t)
    ensures Separation(norm, paths, speed, i, j, s) <= Separation(norm, paths, speed, i, j, t) + 2.0 * gap
  {
    SpeedTimes(speed, s, t);
    PairChange(norm, paths[i].path, paths[j].path, Travelled(speed, s), Travelled(speed, t));
  }

  lemma PairChange(norm: Norm, p: Polyline, q: Polyline, d: real, e: real)
    requires IsNorm(norm)
    ensures Dist(norm, PointAt(norm, p, d), PointAt(norm, q, d))
         <= Dist(norm, PointAt(norm, p, e), PointAt(norm, q, e)) + 2.0 * Abs(d - e)
  {
    Lipschitz(norm, p, d, e);
    Lipschitz(norm, q, d, e);
    DistFacts(norm, PointAt(norm, q, d), PointAt(norm, q, e));
    DistTriangle(norm, PointAt(norm, p, d), PointAt(norm, p, e), PointAt(norm, q, d));
    DistTriangle(norm, PointAt(norm, p, e), PointAt(norm, q, e), PointAt(norm, q, d));
  }

  ghost predicate Exact(norm: Norm, paths: seq<Planned>) {
    forall p :: p in paths ==> p.length == LengthOf(norm, p.path)
  }

  /** Once every drone is at its end, nothing changes. */
  lemma SettledAfter(norm: Norm, paths: seq<Planned>, speed: real, duration: real, i: nat, j: nat, s: real, t: real)
    requires IsNorm(norm) && speed > 0.0 && i < |paths| && j < |paths| && Exact(norm, paths)
    requires forall p :: p in paths ==> p.length <= speed * duration
    requires duration <= s && duration <= t
    ensures Separation(norm, paths, speed, i, j, s) == Separation(norm, paths, speed, i, j, t)
  {
    ScaleOrder(speed, duration, s);
    ScaleOrder(speed, duration, t);
    SettledPair(norm, paths, i, j, speed * duration, Travelled(speed, s), Travelled(speed, t));
  }

  lemma SettledPair(norm: Norm, paths: seq<Planned>, i: nat, j: nat, reach: real, d: real, e: real)
    requires IsNorm(norm) && i < |paths| && j < |paths| && Exact(norm, paths)
    requires forall p :: p in paths ==> p.length <= reach
    requires reach <= d && reach <= e
    ensures Dist(norm, PointAt(norm, paths[i].path, d), PointAt(norm, paths[j].path, d))
         == Dist(norm, PointAt(norm, paths[i].path, e), PointAt(norm, paths[j].path, e))
  {
    assert paths[i] in paths && paths[j] in paths;
    PastTheEnd(norm, paths[i].path, d);
    PastTheEnd(norm, paths[i].path, e);
    PastTheEnd(norm, paths[j].path, d);
    PastTheEnd(norm, paths[j].path, e);
  }

  /** Some sample is within half a step of any time before the last sample. */
  lemma NearestSample(t: real, step: real, samples: nat) returns (k: nat)
    requires step > 0.0 && t >= 0.0 && t + step < Span(samples, step)
    ensures k < samples && Abs(t - Span(k, step)) <= step / 2.0
  {
    k := StepsToCover(t, step);
    if k == 0 {
      SpanOrder(0, samples, step);
    } else {
      SpanOrder(k, samples, step);
      if t - Span(k - 1, step) < step / 2.0 {
        k := k - 1;
      }
    }
  }

  /** The sampled minimum bounds the true minimum: at no time, ever, is the pair closer than it by
      more than speed x step. */
  lemma SampledBoundsTrue(norm: Norm, paths: seq<Planned>, speed: real, duration: real, step: real, samples: nat,
                          i: nat, j: nat, c: Closest, t: real)
    requires IsNorm(norm) && speed > 0.0 && step > 0.0
    requires i < |paths| && j < |paths| && Exact(norm, paths)
    requires forall p :: p in paths ==> p.length <= speed * duration
    requires samples > 0 && Span(samples, step) > duration + step
    requires IsClosestSample(norm, paths, speed, step, samples, i, j, c)
    requires t >= 0.0
    ensures Separation(norm, paths, speed, i, j, t) >= c.distance - speed * step
  {
    if t <= duration {
      var k := NearestSample(t, step, samples);
      NearASample(norm, paths, speed, step, samples, i, j, c, t, k);
    } else {
      var k := samples - 1;
      SettledAfter(norm, paths, speed, duration, i, j, t, Span(k, step));
      assert c.distance <= Separation(norm, paths, speed, i, j, Span(k, step));
      SpeedStep(speed, step);
    }
  }

  lemma NearASample(norm: Norm, paths: seq<Planned>, speed: real, step: real, samples: nat,
                    i: nat, j: nat, c: Closest, t: real, k: nat)
    requires IsNorm(norm) && speed > 0.0 && step > 0.0
    requires i < |paths| && j < |paths| && k < samples
    requires IsClosestSample(norm, paths, speed, step, samples, i, j, c)
    requires Abs(t - Span(k, step)) <= step / 2.0
    ensures Separation(norm, paths, speed, i, j, t) >= c.distance - speed * step
  {
    var s := Span(k, step);
    assert c.distance <= Separation(norm, paths, speed, i, j, s);
    var gap := speed * Abs(s - t);
    SeparationChange(norm, paths, speed, i, j, s, t, gap);
    HalfStep(speed, Abs(s - t), step, gap);
  }

  lemma HalfStep(speed: real, d: real, step: real, gap: real)
    requires speed > 0.0 && d <= step / 2.0 && gap == speed * d
    ensures 2.0 * gap <= speed * step
  {
    ScaleOrder(speed, d, step / 2.0);
    assert speed * (step / 2.0) == (speed * step) / 2.0;
  }

  lemma SpeedStep(speed: real, step: real)
    requires speed > 0.0 && step > 0.0
    ensures speed * step > 0.0
  {
    PositiveProduct(speed, step, speed * step);
  }

  // ----- the check -----

  function MaxLength(paths: seq<Planned>): (longest: real)
    requires paths != []
    ensures forall p :: p in paths ==> p.length <= longest
    ensures exists p :: p in paths && p.length == longest
  {
    if |paths| == 1 then paths[0].length
    else
      var rest := MaxLength(paths[1..]);
      assert forall p :: p in paths <==> p == paths[0] || p in paths[1..];
      if rest < paths[0].length then paths[0].length else rest
  }

  type ClosestMap = map<(nat, nat), Closest>

  /** What one sample leaves in the dictionary for a pair. */
  function Updated(closest: ClosestMap, i: nat, j: nat, distance: real, t: real): Closest {
    if (i, j) !in closest || distance < closest[(i, j)].distance then Closest(distance, t) else closest[(i, j)]
  }

  ghost predicate Recorded(norm: Norm, positions: seq<Vec>, t: real, before: ClosestMap, after: ClosestMap,
                           i: nat, j: nat)
    requires i < j < |positions|
  {
    (i, j) in after && after[(i, j)] == Updated(before, i, j, Dist(norm, positions[i], positions[j]), t)
  }

  /** One sample, over every pair. */
  method Sample(norm: Norm, positions: seq<Vec>, t: real, before: ClosestMap) returns (closest: ClosestMap)
    ensures forall i: nat, j: nat :: i < j < |positions| ==> Recorded(norm, positions, t, before, closest, i, j)
  {
    closest := before;
    for i := 0 to |positions|
      invariant forall a: nat, b: nat :: a < i && a < b < |positions| ==>
        Recorded(norm, positions, t, before, closest, a, b)
      invariant forall a: nat, b: nat :: i <= a ==> Same(before, closest, a, b)
    {
      for j := i + 1 to |positions|
        invariant forall a: nat, b: nat :: (a < i || (a == i && b < j)) && a < b < |positions| ==>
          Recorded(norm, positions, t, before, closest, a, b)
        invariant forall a: nat, b: nat :: (i < a || (a == i && j <= b)) ==> Same(before, closest, a, b)
      {
        var distance := Dist(norm, positions[i], positions[j]);
        assert Same(before, closest, i, j);
        ghost var was := closest;
        if (i, j) !in closest || distance < closest[(i, j)].distance {
          closest := closest[(i, j) := Closest(distance, t)];
        }
        forall a: nat, b: nat | (a < i || (a == i && b < j)) && a < b < |positions|
          ensures Recorded(norm, positions, t, before, closest, a, b)
        {
          assert Recorded(norm, positions, t, before, was, a, b);
        }
        forall a: nat, b: nat | i < a || (a == i && j < b) ensures Same(before, closest, a, b) {
          assert Same(before, was, a, b);
        }
      }
    }
  }

  ghost predicate Same(before: ClosestMap, after: ClosestMap, a: nat, b: nat) {
    ((a, b) in before <==> (a, b) in after) && ((a, b) in after ==> before[(a, b)] == after[(a, b)])
  }

  ghost predicate SampledPair(norm: Norm, paths: seq<Planned>, speed: real, step: real, samples: nat,
                              closest: ClosestMap, i: nat, j: nat)
    requires i < j < |paths|
  {
    if samples == 0 then (i, j) !in closest
    else (i, j) in closest && IsClosestSample(norm, paths, speed, step, samples, i, j, closest[(i, j)])
  }

  /** The dictionary after some samples. */
  ghost predicate Sampled(norm: Norm, paths: seq<Planned>, speed: real, step: real, samples: nat, closest: ClosestMap) {
    forall i: nat, j: nat :: i < j < |paths| ==> SampledPair(norm, paths, speed, step, samples, closest, i, j)
  }

  lemma OneMoreSample(norm: Norm, paths: seq<Planned>, speed: real, step: real, samples: nat, t: real,
                      before: ClosestMap, i: nat, j: nat, c: Closest)
    requires step > 0.0 && i < j < |paths| && t == Span(samples, step)
    requires SampledPair(norm, paths, speed, step, samples, before, i, j)
    requires c == Updated(before, i, j, Separation(norm, paths, speed, i, j, t), t)
    ensures IsClosestSample(norm, paths, speed, step, samples + 1, i, j, c)
  {
    forall m: nat | m < samples ensures Span(m, step) < t {
      SpanOrder(m, samples, step);
    }
    forall k: nat | k < samples + 1
      ensures c.distance <= Separation(norm, paths, speed, i, j, Span(k, step))
      ensures Span(k, step) < c.at ==> c.distance < Separation(norm, paths, speed, i, j, Span(k, step))
    {
      assert k == samples || k < samples;
    }
    if c.at != t {
      var k: nat :| k < samples && c.at == Span(k, step);
      assert k < samples + 1;
    }
  }

  lemma AllUpdated(norm: Norm, paths: seq<Planned>, speed: real, step: real, samples: nat, t: real,
                   positions: seq<Vec>, before: ClosestMap, after: ClosestMap)
    requires step > 0.0 && |positions| == |paths| && t == Span(samples, step)
    requires forall i :: 0 <= i < |paths| ==> positions[i] == PointAt(norm, paths[i].path, Travelled(speed, t))
    requires Sampled(norm, paths, speed, step, samples, before)
    requires forall i: nat, j: nat :: i < j < |positions| ==>
      Recorded(norm, positions, t, before, after, i, j)
    ensures Sampled(norm, paths, speed, step, samples + 1, after)
  {
    var next := samples + 1;
    forall i: nat, j: nat | i < j < |paths| ensures SampledPair(norm, paths, speed, step, next, after, i, j) {
      assert Recorded(norm, positions, t, before, after, i, j);
      assert SampledPair(norm, paths, speed, step, samples, before, i, j);
      OneMoreSample(norm, paths, speed, step, samples, t, before, i, j, after[(i, j)]);
    }
  }

  /** The samples are no more than MAX_SAMPLES and two. */
  lemma SampleCount(samples: nat, step: real, duration: real, max: nat)
    requires step > 0.0 && duration <= Span(max, step)
    requires Span(samples, step) <= duration + step
    ensures samples <= max + 1
  {
    SpanOrder(max + 1, samples, step);
  }

  lemma StepCovers(max: nat, step: real, duration: real)
    requires max > 0 && duration >= 0.0 && step >= duration / max as real
    ensures duration <= Span(max, step)
  {
    SpanIsProduct(max, step);
    CoversBy(max as real, step, duration, duration / max as real);
  }

  lemma CoversBy(max: real, step: real, duration: real, least: real)
    requires max > 0.0 && least == duration / max && step >= least
    ensures duration <= max * step
  {
    assert least * max == duration;
    ScaleOrder(max, least, step);
  }

  /** Every pair from (i, j) on, in order, with its closest sample. */
  function PairsFrom(closest: ClosestMap, drones: nat, i: nat, j: nat): (pairs: seq<Conflict>)
    requires forall a: nat, b: nat :: a < b < drones ==> (a, b) in closest
    requires i < j
    ensures forall c :: c in pairs <==>
      && (i < c.a || (i == c.a && j <= c.b)) && c.a < c.b < drones
      && c.distance == closest[(c.a, c.b)].distance && c.at == closest[(c.a, c.b)].at
    decreases drones - i, drones - j
  {
    if i >= drones then []
    else if j >= drones then PairsFrom(closest, drones, i + 1, i + 2)
    else
      var c := closest[(i, j)];
      [Conflict(i, j, c.at, c.distance)] + PairsFrom(closest, drones, i, j + 1)
  }

  lemma {:induction false} PairsDistinct(closest: ClosestMap, drones: nat, i: nat, j: nat)
    requires forall a: nat, b: nat :: a < b < drones ==> (a, b) in closest
    requires i < j
    ensures DistinctPairs(PairsFrom(closest, drones, i, j))
    decreases drones - i, drones - j
  {
    if i < drones && j >= drones {
      PairsDistinct(closest, drones, i + 1, i + 2);
    } else if i < drones {
      PairsDistinct(closest, drones, i, j + 1);
      var rest := PairsFrom(closest, drones, i, j + 1);
      forall x | 0 <= x < |rest| ensures (rest[x].a, rest[x].b) != (i, j) {
        assert rest[x] in rest;
      }
    }
  }

  ghost predicate DistinctPairs(s: seq<Conflict>) {
    forall x, y :: 0 <= x < y < |s| ==> (s[x].a, s[x].b) != (s[y].a, s[y].b)
  }

  function Below(s: seq<Conflict>, limit: real): (below: seq<Conflict>)
    ensures forall c :: c in below <==> c in s && c.distance < limit
    ensures DistinctPairs(s) ==> DistinctPairs(below)
  {
    if s == [] then []
    else
      var rest := Below(s[1..], limit);
      assert forall c :: c in s <==> c == s[0] || c in s[1..];
      assert forall x :: 0 <= x < |rest| ==> rest[x] in s[1..];
      assert DistinctPairs(s) ==> DistinctPairs(s[1..]);
      assert DistinctPairs(s) ==> forall c :: c in s[1..] ==> (c.a, c.b) != (s[0].a, s[0].b);
      if s[0].distance < limit then [s[0]] + rest else rest
  }

  ghost predicate Ordered(s: seq<Conflict>) {
    forall x, y :: 0 <= x < y < |s| ==> s[x].at <= s[y].at
  }

  function InsertByTime(s: seq<Conflict>, c: Conflict): (r: seq<Conflict>)
    requires Ordered(s)
    ensures r != [] && (r[0] == c || (s != [] && r[0] == s[0])) && |r| == |s| + 1
    ensures Ordered(r)
    ensures forall x :: x in r <==> x == c || x in s
    ensures DistinctPairs(s) && (forall x :: x in s ==> (x.a, x.b) != (c.a, c.b)) ==> DistinctPairs(r)
  {
    if s == [] then [c]
    else if c.at <= s[0].at then [c] + s
    else
      var rest := InsertByTime(s[1..], c);
      assert forall x :: x in s <==> x == s[0] || x in s[1..];
      assert forall x :: 0 <= x < |rest| ==> rest[x] in rest;
      assert DistinctPairs(s) ==> DistinctPairs(s[1..]);
      assert DistinctPairs(s) ==> forall x :: x in s[1..] ==> (x.a, x.b) != (s[0].a, s[0].b);
      [s[0]] + rest
  }

  /** A stable sort by time. */
  function OrderByTime(s: seq<Conflict>): (r: seq<Conflict>)
    ensures Ordered(r)
    ensures forall x :: x in r <==> x in s
    ensures DistinctPairs(s) ==> DistinctPairs(r)
  {
    if s == [] then []
    else
      assert forall x :: x in s <==> x == s[0] || x in s[1..];
      assert DistinctPairs(s) ==> DistinctPairs(s[1..]);
      assert DistinctPairs(s) ==> forall x :: x in s[1..] ==> (x.a, x.b) != (s[0].a, s[0].b);
      InsertByTime(OrderByTime(s[1..]), s[0])
  }

  function MinDistance(s: seq<Conflict>): (least: real)
    requires s != []
    ensures forall c :: c in s ==> least <= c.distance
    ensures exists c :: c in s && c.distance == least
  {
    if |s| == 1 then s[0].distance
    else
      var rest := MinDistance(s[1..]);
      assert forall c :: c in s <==> c == s[0] || c in s[1..];
      if s[0].distance < rest then s[0].distance else rest
  }

  /** No finer than SAMPLE_SECONDS, and no more than MAX_SAMPLES over the flight. */
  function StrideFor(duration: real): (stride: real)
    ensures stride >= SAMPLE_SECONDS && stride >= duration / MAX_SAMPLES as real
    ensures stride == SAMPLE_SECONDS || stride == duration / MAX_SAMPLES as real
  {
    if SAMPLE_SECONDS < duration / MAX_SAMPLES as real then duration / MAX_SAMPLES as real else SAMPLE_SECONDS
  }

  /** How long the longest path takes. */
  function DurationOf(paths: seq<Planned>, speed: real): real
    requires paths != [] && speed > 0.0
  {
    MaxLength(paths) / speed
  }

  /** How far apart the samples of a plan are in time. */
  function StepOf(paths: seq<Planned>, speed: real): (step: real)
    requires paths != [] && speed > 0.0
    ensures step >= SAMPLE_SECONDS && step >= DurationOf(paths, speed) / MAX_SAMPLES as real
  {
    StrideFor(DurationOf(paths, speed))
  }

  /** Every pair was sampled at this step until the flight was over, and has its closest sample. */
  ghost predicate SampledThrough(norm: Norm, paths: seq<Planned>, speed: real, step: real, duration: real, samples: nat,
                                 closest: ClosestMap)
  {
    && 0 < samples && Span(samples - 1, step) <= duration + step < Span(samples, step)
    && Sampled(norm, paths, speed, step, samples, closest)
  }

  /** The pairs closer than the limit, each once, with where and when; nothing else; in order of time. */
  ghost predicate AreConflicts(drones: nat, limit: real, closest: ClosestMap, conflicts: seq<Conflict>)
    requires forall i: nat, j: nat :: i < j < drones ==> (i, j) in closest
  {
    && Ordered(conflicts) && DistinctPairs(conflicts)
    && (forall c :: c in conflicts <==>
         c.a < c.b < drones && c.distance < limit && closest[(c.a, c.b)] == Closest(c.distance, c.at))
  }

  ghost predicate IsLeast(drones: nat, closest: ClosestMap, least: real)
    requires forall i: nat, j: nat :: i < j < drones ==> (i, j) in closest
  {
    && (forall i: nat, j: nat :: i < j < drones ==> least <= closest[(i, j)].distance)
    && (exists i: nat, j: nat :: i < j < drones && least == closest[(i, j)].distance)
  }

  /** What a report of at least two paths says, of samples at the plan's own step. */
  ghost predicate IsReport(norm: Norm, paths: seq<Planned>, speed: real, limit: real, samples: nat,
                           closest: ClosestMap, report: Report)
    requires paths != [] && speed > 0.0
  {
    && SampledThrough(norm, paths, speed, StepOf(paths, speed), DurationOf(paths, speed), samples, closest)
    && (forall i: nat, j: nat :: i < j < |paths| ==> (i, j) in closest)
    && AreConflicts(|paths|, limit, closest, report.conflicts)
    && report.minSeparation.Some? && IsLeast(|paths|, closest, report.minSeparation.value)
  }

  /** Samples every pair until the flight is over. */
  method SampleAll(norm: Norm, paths: seq<Planned>, speed: real, duration: real, stride: real)
    returns (closest: ClosestMap, ghost samples: nat)
    requires stride > 0.0 && duration >= 0.0
    ensures samples > 0 && Sampled(norm, paths, speed, stride, samples, closest)
    ensures Span(samples - 1, stride) <= duration + stride < Span(samples, stride)
    ensures forall i: nat, j: nat :: i < j < |paths| ==> (i, j) in closest
  {
    closest, samples := map[], 0;
    ghost var budget := StepsToCover(duration + stride, stride) + 1;
    var t := 0.0;
    while t <= duration + stride
      invariant t == Span(samples, stride)
      invariant Sampled(norm, paths, speed, stride, samples, closest)
      invariant samples > 0 ==> Span(samples - 1, stride) <= duration + stride
      decreases budget - samples
    {
      var positions := seq(|paths|, i requires 0 <= i < |paths| => PointAt(norm, paths[i].path, Travelled(speed, t)));
      ghost var before := closest;
      closest := Sample(norm, positions, t, closest);
      AllUpdated(norm, paths, speed, stride, samples, t, positions, before, closest);
      SpanOrder(StepsToCover(duration + stride, stride), samples, stride);
      samples := samples + 1;
      t := t + stride;
    }
    forall i: nat, j: nat | i < j < |paths| ensures (i, j) in closest {
      assert SampledPair(norm, paths, speed, stride, samples, closest, i, j);
    }
  }

  /** The report that a dictionary of closest samples gives. */
  function ReportOf(closest: ClosestMap, drones: nat, limit: real): Report
    requires drones >= 2 && forall a: nat, b: nat :: a < b < drones ==> (a, b) in closest
  {
    var pairs := PairsFrom(closest, drones, 0, 1);
    assert Conflict(0, 1, closest[(0, 1)].at, closest[(0, 1)].distance) in pairs;
    Report(Some(MinDistance(pairs)), OrderByTime(Below(pairs, limit)))
  }

  lemma ReportIsRight(closest: ClosestMap, drones: nat, limit: real, report: Report)
    requires drones >= 2 && forall a: nat, b: nat :: a < b < drones ==> (a, b) in closest
    requires report == ReportOf(closest, drones, limit)
    ensures AreConflicts(drones, limit, closest, report.conflicts)
    ensures report.minSeparation.Some? && IsLeast(drones, closest, report.minSeparation.value)
  {
    var pairs := PairsFrom(closest, drones, 0, 1);
    PairsDistinct(closest, drones, 0, 1);
    LeastOfPairs(closest, drones, pairs, MinDistance(pairs));
  }

  lemma LeastOfPairs(closest: ClosestMap, drones: nat, pairs: seq<Conflict>, least: real)
    requires forall a: nat, b: nat :: a < b < drones ==> (a, b) in closest
    requires forall c :: c in pairs <==>
      c.a < c.b < drones && c.distance == closest[(c.a, c.b)].distance && c.at == closest[(c.a, c.b)].at
    requires forall c :: c in pairs ==> least <= c.distance
    requires exists c :: c in pairs && c.distance == least
    ensures IsLeast(drones, closest, least)
  {
    forall i: nat, j: nat | i < j < drones ensures least <= closest[(i, j)].distance {
      assert Conflict(i, j, closest[(i, j)].at, closest[(i, j)].distance) in pairs;
    }
  }

  /** Flies every path at one speed and reports the pairs that come too close. */
  method Check(norm: Norm, paths: seq<Planned>, speed: real, limit: real)
    returns (result: Result<Report, string>, ghost samples: nat, ghost closest: ClosestMap)
    ensures result.Failure? <==> speed <= 0.0
    ensures result.Success? && |paths| < 2 ==> result.value == Report(None, [])
    ensures result.Success? && |paths| >= 2 ==>
      IsReport(norm, paths, speed, limit, samples, closest, result.value) && samples <= MAX_SAMPLES + 2
  {
    samples, closest := 0, map[];
    if speed <= 0.0 {
      return Failure("speed must be positive."), samples, closest;
    }
    if |paths| < 2 {
      return Success(Report(None, [])), samples, closest;
    }
    var duration := MaxLength(paths) / speed;
    RatioNotNegative(MaxLength(paths), speed, duration);
    var stride := StrideFor(duration);
    var found: ClosestMap;
    found, samples := SampleAll(norm, paths, speed, duration, stride);
    SamplesBounded(MAX_SAMPLES, stride, duration, samples - 1);
    var report := ReportOf(found, |paths|, limit);
    ReportIsRight(found, |paths|, limit, report);
    return Success(report), samples, found;
  }

  lemma RatioNotNegative(a: real, d: real, ratio: real)
    requires a >= 0.0 && d > 0.0 && ratio == a / d
    ensures ratio >= 0.0 && d * ratio == a
  {
  }

  lemma SamplesBounded(max: nat, step: real, duration: real, last: nat)
    requires max > 0 && step > 0.0 && duration >= 0.0 && step >= duration / max as real
    requires Span(last, step) <= duration + step
    ensures last <= max + 1
  {
    StepCovers(max, step, duration);
    SampleCount(last, step, duration, max);
  }

  /** What the check is for: a pair that is not reported keeps the limit, less what both drones fly between two
      samples of this plan, at all times. */
  lemma UnreportedStaysApart(norm: Norm, paths: seq<Planned>, speed: real, limit: real, samples: nat,
                             closest: ClosestMap, report: Report, i: nat, j: nat, t: real)
    requires IsNorm(norm) && speed > 0.0 && i < j < |paths| && Exact(norm, paths)
    requires IsReport(norm, paths, speed, limit, samples, closest, report)
    requires forall c :: c in report.conflicts ==> (c.a, c.b) != (i, j)
    requires t >= 0.0
    ensures Separation(norm, paths, speed, i, j, t) >= limit - speed * StepOf(paths, speed)
  {
    assert SampledPair(norm, paths, speed, StepOf(paths, speed), samples, closest, i, j);
    var c := closest[(i, j)];
    assert Conflict(i, j, c.at, c.distance) !in report.conflicts;
    NearItsSample(norm, paths, speed, StepOf(paths, speed), DurationOf(paths, speed), samples, closest, i, j, t);
  }

  /** And every pair's true separation at any time is no smaller than its sampled one less that much. */
  lemma NearItsSample(norm: Norm, paths: seq<Planned>, speed: real, step: real, duration: real, samples: nat,
                      closest: ClosestMap, i: nat, j: nat, t: real)
    requires IsNorm(norm) && speed > 0.0 && i < j < |paths| && Exact(norm, paths)
    requires step > 0.0 && duration == DurationOf(paths, speed)
    requires SampledThrough(norm, paths, speed, step, duration, samples, closest)
    requires (i, j) in closest && t >= 0.0
    ensures Separation(norm, paths, speed, i, j, t) >= closest[(i, j)].distance - speed * step
  {
    assert SampledPair(norm, paths, speed, step, samples, closest, i, j);
    assert paths[i] in paths && paths[i].length >= 0.0;
    RatioNotNegative(MaxLength(paths), speed, duration);
    SampledBoundsTrue(norm, paths, speed, duration, step, samples, i, j, closest[(i, j)], t);
  }

  /** A pair that is reported does come too close: as close as it says, when it says. */
  lemma ReportedComesClose(norm: Norm, paths: seq<Planned>, speed: real, limit: real, samples: nat,
                           closest: ClosestMap, report: Report, c: Conflict)
    requires speed > 0.0 && paths != [] && c in report.conflicts
    requires IsReport(norm, paths, speed, limit, samples, closest, report)
    ensures c.a < c.b < |paths| && c.at >= 0.0
    ensures Separation(norm, paths, speed, c.a, c.b, c.at) == c.distance < limit
  {
    var step := StepOf(paths, speed);
    assert SampledPair(norm, paths, speed, step, samples, closest, c.a, c.b);
    var k: nat :| k < samples && c.at == Span(k, step);
    SpanPositive(k, step);
  }
}
