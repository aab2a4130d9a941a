/** Moving towards a target at a bounded step (trajectory.py, Trajectory.cs). */
module Trajectory {

  import opened Wrappers
  import opened Geometry

  /** How far one step may go. */
  type Step = s: real | s > 0.0 witness 1.0

  /** One bounded step; the caller has checked that the step is positive. */
  function Towards(norm: Norm, current: Vec, target: Vec, maxStep: Step): Vec
  {
    var delta := target.Sub(current);
    var distance := norm(delta);
    if distance <= maxStep then target else current.Add(delta.Scale(maxStep / distance))
  }

  function StepTowards(norm: Norm, current: Vec, target: Vec, maxStep: real): Result<Vec, string> {
    if maxStep <= 0.0 then Failure("max_step must be positive")
    else Success(Towards(norm, current, target, maxStep))
  }

  function Positive(a: real): real {
    if a < 0.0 then 0.0 else a
  }

  lemma Ratio(a: real, d: real, k: real)
    requires 0.0 <= a <= d && d > 0.0 && k == a / d
    ensures k * d == a
    ensures 0.0 <= k <= 1.0
  {
  }

  /** A step leaves exactly `maxStep` less to go, and moves `maxStep` at most. */
  lemma StepDistance(norm: Norm, current: Vec, target: Vec, maxStep: Step)
    requires IsNorm(norm)
    ensures Dist(norm, Towards(norm, current, target, maxStep), target)
         == Positive(Dist(norm, current, target) - maxStep)
    ensures Dist(norm, Towards(norm, current, target, maxStep), current) <= maxStep
  {
    var d := norm(target.Sub(current));
    DistFacts(norm, target, current);
    if d <= maxStep {
      DistFacts(norm, target, target);
    } else {
      var k := maxStep / d;
      Ratio(maxStep, d, k);
      PartOfTheWay(norm, current, target, k);
      OneLess(k, d, maxStep);
    }
  }

  /** The same of the whole call: it is refused exactly for a step that is not positive. */
  lemma StepTowardsDistance(norm: Norm, current: Vec, target: Vec, maxStep: real)
    requires IsNorm(norm)
    ensures match StepTowards(norm, current, target, maxStep)
      case Failure(_) => maxStep <= 0.0
      case Success(next) =>
        && maxStep > 0.0
        && Dist(norm, next, target) == Positive(Dist(norm, current, target) - maxStep)
        && Dist(norm, next, current) <= maxStep
  {
    if maxStep > 0.0 {
      StepDistance(norm, current, target, maxStep);
    }
  }

  /** A point a fraction `k` of the way: how far it is from either end. */
  lemma PartOfTheWay(norm: Norm, start: Vec, end: Vec, k: real)
    requires IsNorm(norm)
    ensures Dist(norm, start.Add(end.Sub(start).Scale(k)), start) == Abs(k) * Dist(norm, end, start)
    ensures Dist(norm, start.Add(end.Sub(start).Scale(k)), end) == Abs(k - 1.0) * Dist(norm, end, start)
  {
    StepAsScale(start, end, k);
    Homogeneity(norm, end.Sub(start), k);
    Homogeneity(norm, end.Sub(start), k - 1.0);
  }

  lemma OneLess(k: real, d: real, step: real)
    requires k * d == step && 0.0 <= k <= 1.0
    ensures Abs(k) * d == step
    ensures Abs(k - 1.0) * d == d - step
  {
  }

  lemma StepAsScale(current: Vec, target: Vec, k: real)
    ensures current.Add(target.Sub(current).Scale(k)).Sub(current) == target.Sub(current).Scale(k)
    ensures current.Add(target.Sub(current).Scale(k)).Sub(target) == target.Sub(current).Scale(k - 1.0)
  {
  }

  // ----- counting steps -----

  /** The length of `n` steps, that is `n * step` (lemma SpanIsProduct). */
  function Span(n: nat, step: real): real {
    if n == 0 then 0.0 else Span(n - 1, step) + step
  }

  lemma OneMore(m: real, n: real, step: real)
    requires n == m + 1.0
    ensures n * step == m * step + step
  {
  }

  lemma {:induction false} SpanIsProduct(n: nat, step: real)
    ensures Span(n, step) == n as real * step
  {
    if n > 0 {
      SpanIsProduct(n - 1, step);
      OneMore((n - 1) as real, n as real, step);
    }
  }

  lemma {:induction false} SpanOrder(m: nat, n: nat, step: Step)
    ensures m < n ==> Span(m, step) + step <= Span(n, step)
    ensures m <= n ==> Span(m, step) <= Span(n, step)
    ensures Span(m, step) < Span(n, step) ==> m < n
    decreases m + n
  {
    if m < n {
      SpanOrder(m, n - 1, step);
    } else if n < m {
      SpanOrder(m - 1, n, step);
    }
  }

  /** The smallest whole number of steps that covers `distance`: the ceiling of distance / step. */
  function StepsToCover(distance: real, step: Step): (n: nat)
    ensures distance <= Span(n, step)
    ensures n > 0 ==> Span(n - 1, step) < distance
  {
    if distance <= 0.0 then 0
    else
      var whole := (distance / step).Floor;
      FloorBounds(distance, step, whole);
      if Span(whole, step) >= distance then whole else whole + 1
  }

  lemma FloorBounds(distance: real, step: Step, whole: int)
    requires distance > 0.0 && whole == (distance / step).Floor
    ensures whole >= 0
    ensures Span(whole, step) <= distance < Span(whole + 1, step)
    ensures whole > 0 ==> Span(whole - 1, step) < Span(whole, step)
  {
    PositiveRatio(distance, step, distance / step);
    SpanIsProduct(whole, step);
    SpanIsProduct(whole + 1, step);
    Between(whole as real, distance / step, (whole + 1) as real, step, distance);
  }

  lemma PositiveRatio(a: real, d: real, ratio: real)
    requires a > 0.0 && d > 0.0 && ratio == a / d
    ensures ratio >= 0.0 && ratio * d == a
  {
  }

  lemma Between(lower: real, ratio: real, upper: real, step: Step, distance: real)
    requires lower <= ratio < upper && ratio * step == distance
    ensures lower * step <= distance < upper * step
  {
    calc {
      lower * step;
    <= ratio * step;
    }
    calc {
      ratio * step;
    < upper * step;
    }
  }

  lemma CoveredBy(distance: real, step: Step, n: nat)
    ensures StepsToCover(distance, step) <= n <==> distance <= Span(n, step)
  {
    var least := StepsToCover(distance, step);
    SpanOrder(least, n, step);
    if least > n {
      SpanOrder(n, least - 1, step);
    }
  }

  lemma {:induction false} SpanPositive(n: nat, step: Step)
    ensures Span(n, step) >= 0.0
  {
    if n > 0 {
      SpanPositive(n - 1, step);
    }
  }

  lemma {:induction false} SpanNotNegative(n: nat, step: real)
    requires step >= 0.0
    ensures Span(n, step) >= 0.0
  {
    if n > 0 {
      SpanNotNegative(n - 1, step);
    }
  }

  /** Each step brings the count down by one, until there is nothing left to cover. */
  lemma OneStepFewer(distance: real, step: Step)
    ensures StepsToCover(Positive(distance - step), step)
         == if distance <= 0.0 then 0 else StepsToCover(distance, step) - 1
  {
    if distance > 0.0 {
      var n := StepsToCover(distance, step);
      SpanPositive(n - 1, step);
      CoveredBy(Positive(distance - step), step, n - 1);
      if n > 1 {
        SpanPositive(n - 2, step);
        CoveredBy(Positive(distance - step), step, n - 2);
      }
    }
  }

  lemma MoreToCover(less: real, more: real, step: Step)
    requires less <= more
    ensures StepsToCover(less, step) <= StepsToCover(more, step)
  {
    CoveredBy(less, step, StepsToCover(more, step));
  }

  // ----- repeated calls -----

  function Repeat(norm: Norm, current: Vec, target: Vec, maxStep: Step, calls: nat): Vec
    decreases calls
  {
    if calls == 0 then current
    else Repeat(norm, Towards(norm, current, target, maxStep), target, maxStep, calls - 1)
  }

  /** After `n` calls the distance left is the distance less `n` steps. */
  lemma {:induction false} DistanceLeft(norm: Norm, current: Vec, target: Vec, maxStep: Step, calls: nat)
    requires IsNorm(norm)
    ensures Dist(norm, Repeat(norm, current, target, maxStep, calls), target)
         == Positive(Dist(norm, current, target) - Span(calls, maxStep))
    decreases calls
  {
    DistFacts(norm, current, target);
    if calls > 0 {
      StepDistance(norm, current, target, maxStep);
      DistanceLeft(norm, Towards(norm, current, target, maxStep), target, maxStep, calls - 1);
      SpanPositive(calls - 1, maxStep);
    }
  }

  /** The number of calls is exact: that many reach the target, and one fewer does not. */
  lemma ExactNumberOfCalls(norm: Norm, current: Vec, target: Vec, maxStep: Step, calls: nat)
    requires IsNorm(norm)
    ensures Repeat(norm, current, target, maxStep, calls) == target <==>
            StepsToCover(Dist(norm, current, target), maxStep) <= calls
  {
    DistanceLeft(norm, current, target, maxStep, calls);
    CoveredBy(Dist(norm, current, target), maxStep, calls);
    DistFacts(norm, Repeat(norm, current, target, maxStep, calls), target);
  }
}
