/** The closest fit of drones to a formation (scenarios/fit.py).

  `BottleneckAssignment` searches the distinct costs for the smallest threshold that still lets
  every row be matched; `FitFormation` tries every admissible leader. What they return is stated
  against the plain definition: no leader and no one-to-one assignment has a smaller largest error.
 */
module FormationFit {

  import opened Wrappers
  import opened Geometry
  import opened Matching

  type Costs = seq<seq<real>>

  // ----- the plain definition -----

  /** The largest cost an assignment pays over the first `rows` rows; 0 for none. */
  function LargestOver(cost: Costs, a: seq<nat>, rows: nat): (largest: real)
    requires Square(cost) && IsAssignment(|cost|, a) && rows <= |cost|
    ensures forall r :: 0 <= r < rows ==> cost[r][a[r]] <= largest
    ensures rows > 0 ==> exists r :: 0 <= r < rows && cost[r][a[r]] == largest
  {
    if rows == 0 then 0.0
    else if rows == 1 then cost[0][a[0]]
    else
      var rest := LargestOver(cost, a, rows - 1);
      if rest < cost[rows - 1][a[rows - 1]] then cost[rows - 1][a[rows - 1]] else rest
  }

  function Largest(cost: Costs, a: seq<nat>): real
    requires Square(cost) && IsAssignment(|cost|, a)
  {
    LargestOver(cost, a, |cost|)
  }

  /** `a` pays `value` at most, and no one-to-one assignment pays less. */
  ghost predicate IsBottleneck(cost: Costs, value: real, a: seq<nat>)
    requires Square(cost)
  {
    && IsAssignment(|cost|, a)
    && Largest(cost, a) == value
    && AtLeast(cost, value)
  }

  /** No one-to-one assignment pays less than `error`. */
  ghost predicate AtLeast(cost: Costs, error: real)
    requires Square(cost)
  {
    forall b {:trigger Largest(cost, b)} :: IsAssignment(|cost|, b) ==> error <= Largest(cost, b)
  }

  /** Every one-to-one assignment pays more than `error`. */
  ghost predicate MoreThan(cost: Costs, error: real)
    requires Square(cost)
  {
    forall b {:trigger Largest(cost, b)} :: IsAssignment(|cost|, b) ==> error < Largest(cost, b)
  }

  // ----- the distinct costs, in order -----

  ghost predicate Increasing(s: seq<real>) {
    forall i, j :: 0 <= i < j < |s| ==> s[i] < s[j]
  }

  function Insert(s: seq<real>, v: real): (r: seq<real>)
    requires Increasing(s)
    ensures r != [] && (r[0] == v || (s != [] && r[0] == s[0]))
    ensures Increasing(r)
    ensures forall x :: x in r <==> x == v || x in s
  {
    if s == [] then [v]
    else if v < s[0] then [v] + s
    else if v == s[0] then s
    else
      var rest := Insert(s[1..], v);
      assert forall x :: x in s <==> x == s[0] || x in s[1..];
      [s[0]] + rest
  }

  function DistinctOf(values: seq<real>): (r: seq<real>)
    ensures Increasing(r)
    ensures forall x :: x in r <==> x in values
  {
    if values == [] then []
    else
      assert values == [values[0]] + values[1..];
      Insert(DistinctOf(values[1..]), values[0])
  }

  function Entries(cost: seq<seq<real>>): (values: seq<real>)
    ensures forall x :: x in values <==> exists r :: 0 <= r < |cost| && x in cost[r]
  {
    if cost == [] then []
    else
      var rest := Entries(cost[1..]);
      assert forall x, r | 0 <= r < |cost| && x in cost[r] :: r == 0 || x in cost[1..][r - 1];
      cost[0] + rest
  }

  function Within(cost: Costs, limit: real): (allowed: seq<seq<bool>>)
    requires Square(cost)
    ensures Square(allowed) && |allowed| == |cost|
    ensures forall r, c :: 0 <= r < |cost| && 0 <= c < |cost| ==> allowed[r][c] == (cost[r][c] <= limit)
  {
    seq(|cost|, r requires 0 <= r < |cost| => seq(|cost|, c requires 0 <= c < |cost| => cost[r][c] <= limit))
  }

  /** Paying at most `limit` and using only pairs within `limit` are the same thing. */
  lemma WithinLimit(cost: Costs, limit: real, a: seq<nat>)
    requires Square(cost) && |cost| > 0 && IsAssignment(|cost|, a)
    ensures Uses(Within(cost, limit), a) <==> Largest(cost, a) <= limit
  {
    var allowed := Within(cost, limit);
    if Uses(allowed, a) {
      var r :| 0 <= r < |cost| && cost[r][a[r]] == Largest(cost, a);
      assert allowed[r][a[r]];
    }
  }

  lemma LargestIsEntry(cost: Costs, a: seq<nat>)
    requires Square(cost) && |cost| > 0 && IsAssignment(|cost|, a)
    ensures Largest(cost, a) in Entries(cost)
  {
    var r :| 0 <= r < |cost| && cost[r][a[r]] == Largest(cost, a);
    assert cost[r][a[r]] in cost[r];
  }

  function Identity(size: nat): (a: seq<nat>)
    ensures IsAssignment(size, a)
  {
    seq(size, i => i)
  }

  lemma EverythingWithin(cost: Costs, limit: real)
    requires Square(cost) && |cost| > 0
    requires forall x :: x in Entries(cost) ==> x <= limit
    ensures Matches(Within(cost, limit), Identity(|cost|))
  {
    LargestIsEntry(cost, Identity(|cost|));
    WithinLimit(cost, limit, Identity(|cost|));
  }

  /** The smallest feasible threshold is the bottleneck value, and any matching within it attains it. */
  lemma SmallestThreshold(cost: Costs, thresholds: seq<real>, low: nat, a: seq<nat>)
    requires Square(cost) && |cost| > 0
    requires Increasing(thresholds) && forall x :: x in thresholds <==> x in Entries(cost)
    requires low < |thresholds| && Matches(Within(cost, thresholds[low]), a)
    requires forall i, b :: 0 <= i < low ==> !Matches(Within(cost, thresholds[i]), b)
    ensures IsBottleneck(cost, thresholds[low], a)
  {
    forall b | IsAssignment(|cost|, b) ensures thresholds[low] <= Largest(cost, b) {
      LargestIsEntry(cost, b);
      NoneBelowThreshold(cost, thresholds, low, b);
    }
    WithinLimit(cost, thresholds[low], a);
  }

  lemma NoneBelowThreshold(cost: Costs, thresholds: seq<real>, low: nat, b: seq<nat>)
    requires Square(cost) && |cost| > 0 && IsAssignment(|cost|, b)
    requires Increasing(thresholds) && Largest(cost, b) in thresholds
    requires low < |thresholds|
    requires forall i :: 0 <= i < low ==> !Matches(Within(cost, thresholds[i]), b)
    ensures thresholds[low] <= Largest(cost, b)
  {
    var i :| 0 <= i < |thresholds| && thresholds[i] == Largest(cost, b);
    WithinLimit(cost, thresholds[i], b);
    assert Matches(Within(cost, thresholds[i]), b);
  }

  /** Feasibility only grows with the threshold. */
  lemma Monotone(cost: Costs, less: real, more: real, a: seq<nat>)
    requires Square(cost) && less <= more
    requires Matches(Within(cost, less), a)
    ensures Matches(Within(cost, more), a)
  {
    forall r | 0 <= r < |cost| ensures Within(cost, more)[r][a[r]] {
      assert Within(cost, less)[r][a[r]];
    }
  }

  /** The assignment whose largest cost is smallest, with that cost; a failure unless `cost` is square. */
  method BottleneckAssignment(cost: Costs) returns (result: Result<(real, seq<nat>), string>)
    ensures result.Success? <==> Square(cost)
    ensures result.Success? ==> IsBottleneck(cost, result.value.0, result.value.1)
  {
    var size := |cost|;
    if size == 0 {
      assert forall b: seq<nat> :: IsAssignment(0, b) ==> b == [];
      return Success((0.0, []));
    }
    if exists r :: 0 <= r < size && |cost[r]| != size {
      return Failure("the cost matrix must be square");
    }
    var thresholds := DistinctOf(Entries(cost));
    assert cost[0][0] in cost[0];
    assert cost[0][0] in Entries(cost);
    var low, high := 0, |thresholds| - 1;
    EverythingWithin(cost, thresholds[high]);
    ghost var known := Identity(size);
    while low < high
      invariant 0 <= low <= high < |thresholds|
      invariant Matches(Within(cost, thresholds[high]), known)
      invariant forall i, b :: 0 <= i < low ==> !Matches(Within(cost, thresholds[i]), b)
    {
      var middle := (low + high) / 2;
      var attempt := PerfectMatching(Within(cost, thresholds[middle]));
      if attempt.Some? {
        high := middle;
        known := attempt.value;
      } else {
        forall i, b | 0 <= i <= middle ensures !Matches(Within(cost, thresholds[i]), b) {
          if Matches(Within(cost, thresholds[i]), b) {
            Monotone(cost, thresholds[i], thresholds[middle], b);
          }
        }
        low := middle + 1;
      }
    }
    var assignment := PerfectMatching(Within(cost, thresholds[low]));
    assert assignment.Some?;
    SmallestThreshold(cost, thresholds, low, assignment.value);
    return Success((thresholds[low], assignment.value));
  }

  // ----- the formation -----

  // The mapping from drones to positions is a sequence in the mapping's order, and a drone is its
  // place in it. Without the drone at `apex`, row r of a cost table is the r-th drone left.

  datatype Fit = Fit(error: real, leader: nat, slots: map<nat, nat>, errors: map<nat, real>)

  // What a fit is, of drones and slots alone.

  /** Every drone but the one at `apex` has a slot of its own; there are as many slots as such drones. */
  ghost predicate IsPlacement(followers: nat, apex: nat, slots: map<nat, nat>) {
    && (forall d: nat :: d in slots <==> d <= followers && d != apex)
    && (forall d: nat :: d in slots ==> slots[d] < followers)
    && (forall d: nat, e: nat :: d in slots && e in slots && d != e ==> slots[d] != slots[e])
  }

  /** How far a drone is from its slot around the drone at `apex`. */
  function OffSlot(norm: Norm, positions: seq<Vec>, offsets: seq<Vec>, apex: nat, d: nat, slot: nat): real
    requires apex < |positions| && d < |positions| && slot < |offsets|
  {
    Dist(norm, positions[d], positions[apex].Add(offsets[slot]))
  }

  /** Somebody is at least, or more than, `error` off its slot, if anybody follows at all. */
  ghost predicate SomebodyOff(norm: Norm, positions: seq<Vec>, offsets: seq<Vec>, apex: nat, slots: map<nat, nat>,
                              error: real, more: bool)
    requires |positions| == |offsets| + 1 && apex < |positions| && IsPlacement(|offsets|, apex, slots)
  {
    offsets != [] ==>
      exists d: nat :: d in slots &&
        (if more then OffSlot(norm, positions, offsets, apex, d, slots[d]) > error
         else OffSlot(norm, positions, offsets, apex, d, slots[d]) >= error)
  }

  /** The fit says truly how far everybody is from its slot, and how far at most. */
  ghost predicate IsTrue(norm: Norm, positions: seq<Vec>, offsets: seq<Vec>, fit: Fit)
    requires |positions| == |offsets| + 1
  {
    && fit.leader < |positions| && IsPlacement(|offsets|, fit.leader, fit.slots)
    && fit.errors.Keys == fit.slots.Keys
    && (forall d: nat :: d in fit.slots ==>
          fit.errors[d] == OffSlot(norm, positions, offsets, fit.leader, d, fit.slots[d]) && fit.errors[d] <= fit.error)
    && (if offsets == [] then fit.error == 0.0 else exists d: nat :: d in fit.errors && fit.errors[d] == fit.error)
  }

  /** No admissible leader and placement keeps everybody closer, and none before the fit's leader as close. */
  ghost predicate NoneCloser(norm: Norm, positions: seq<Vec>, offsets: seq<Vec>, leader: Option<nat>, fit: Fit)
    requires |positions| == |offsets| + 1
  {
    && Admissible(positions, leader, fit.leader)
    && forall apex: nat, slots :: Admissible(positions, leader, apex) && IsPlacement(|offsets|, apex, slots) ==>
         SomebodyOff(norm, positions, offsets, apex, slots, fit.error, apex < fit.leader)
  }

  function DroneOf(apex: nat, row: nat): nat {
    if row < apex then row else row + 1
  }

  function RowOf(apex: nat, drone: nat): (row: int)
    ensures drone != apex ==> row >= 0 && DroneOf(apex, row) == drone
  {
    if drone < apex then drone else drone - 1
  }

  /** Each follower's distance from each slot around the drone at `apex`. */
  function CostsAround(norm: Norm, positions: seq<Vec>, offsets: seq<Vec>, apex: nat): (cost: Costs)
    requires |positions| == |offsets| + 1 && apex < |positions|
    ensures Square(cost) && |cost| == |offsets|
  {
    seq(|offsets|, r requires 0 <= r < |offsets| =>
      seq(|offsets|, s requires 0 <= s < |offsets| =>
        Dist(norm, positions[DroneOf(apex, r)], positions[apex].Add(offsets[s]))))
  }

  ghost predicate Admissible(positions: seq<Vec>, leader: Option<nat>, apex: nat) {
    apex < |positions| && (leader.Some? ==> apex == leader.value)
  }

  /** `fit` gives the followers of the drone at `apex` the slots that `a` gives them. */
  ghost predicate Describes(cost: Costs, apex: nat, a: seq<nat>, fit: Fit)
    requires Square(cost)
  {
    && fit.leader == apex
    && IsAssignment(|cost|, a)
    && (forall d: nat :: d in fit.slots <==> d != apex && d <= |cost|)
    && fit.errors.Keys == fit.slots.Keys
    && (forall r :: 0 <= r < |cost| ==> fit.slots[DroneOf(apex, r)] == a[r])
    && (forall r :: 0 <= r < |cost| ==> fit.errors[DroneOf(apex, r)] == cost[r][a[r]])
  }

  /** `fit` is the best there is with the drone at `apex` leading. */
  ghost predicate IsFitAround(norm: Norm, positions: seq<Vec>, offsets: seq<Vec>, apex: nat, a: seq<nat>, fit: Fit)
    requires |positions| == |offsets| + 1 && apex < |positions|
  {
    var cost := CostsAround(norm, positions, offsets, apex);
    Describes(cost, apex, a, fit) && IsBottleneck(cost, fit.error, a)
  }

  /** `error` is the smallest over every admissible leader and assignment, and every admissible
      leader before `apex` does strictly worse. */
  ghost predicate IsClosest(norm: Norm, positions: seq<Vec>, offsets: seq<Vec>, leader: Option<nat>,
                            apex: nat, error: real)
    requires |positions| == |offsets| + 1
  {
    && Admissible(positions, leader, apex)
    && (forall other: nat :: Admissible(positions, leader, other) ==>
          AtLeast(CostsAround(norm, positions, offsets, other), error))
    && (forall other: nat :: other < apex && Admissible(positions, leader, other) ==>
          MoreThan(CostsAround(norm, positions, offsets, other), error))
  }

  /** A placement is an assignment of the rows of the cost table. */
  function RowsOf(apex: nat, followers: nat, slots: map<nat, nat>): (a: seq<nat>)
    requires apex <= followers && IsPlacement(followers, apex, slots)
    ensures IsAssignment(followers, a)
    ensures forall r :: 0 <= r < followers ==> a[r] == slots[DroneOf(apex, r)]
  {
    seq(followers, r requires 0 <= r < followers => slots[DroneOf(apex, r)])
  }

  lemma PlacementOff(norm: Norm, positions: seq<Vec>, offsets: seq<Vec>, apex: nat, slots: map<nat, nat>, error: real)
    requires |positions| == |offsets| + 1 && apex < |positions| && IsPlacement(|offsets|, apex, slots)
    ensures AtLeast(CostsAround(norm, positions, offsets, apex), error) ==>
      SomebodyOff(norm, positions, offsets, apex, slots, error, false)
    ensures MoreThan(CostsAround(norm, positions, offsets, apex), error) ==>
      SomebodyOff(norm, positions, offsets, apex, slots, error, true)
  {
    var cost, a := CostsAround(norm, positions, offsets, apex), RowsOf(apex, |offsets|, slots);
    if offsets != [] {
      var worst := Largest(cost, a);
      var r: nat :| r < |cost| && cost[r][a[r]] == worst;
      var d := DroneOf(apex, r);
      assert d in slots && OffSlot(norm, positions, offsets, apex, d, slots[d]) == worst;
    }
  }

  lemma DescribedPlacement(cost: Costs, apex: nat, a: seq<nat>, fit: Fit)
    requires Square(cost) && apex <= |cost| && Describes(cost, apex, a, fit)
    ensures IsPlacement(|cost|, apex, fit.slots)
    ensures forall d: nat :: d in fit.slots ==>
      && 0 <= RowOf(apex, d) < |cost| && fit.slots[d] == a[RowOf(apex, d)]
      && fit.errors[d] == cost[RowOf(apex, d)][a[RowOf(apex, d)]]
  {
    forall d: nat | d in fit.slots
      ensures 0 <= RowOf(apex, d) < |cost| && fit.slots[d] == a[RowOf(apex, d)]
      ensures fit.errors[d] == cost[RowOf(apex, d)][a[RowOf(apex, d)]]
    {
      assert DroneOf(apex, RowOf(apex, d)) == d;
    }
  }

  lemma DescribedErrors(cost: Costs, apex: nat, a: seq<nat>, fit: Fit)
    requires Square(cost) && apex <= |cost| && Describes(cost, apex, a, fit) && Largest(cost, a) == fit.error
    ensures forall d: nat :: d in fit.slots ==> fit.errors[d] <= fit.error
    ensures if cost == [] then fit.error == 0.0 else exists d: nat :: d in fit.errors && fit.errors[d] == fit.error
  {
    DescribedPlacement(cost, apex, a, fit);
    if cost != [] {
      var r: nat :| r < |cost| && cost[r][a[r]] == fit.error;
      assert DroneOf(apex, r) in fit.errors && fit.errors[DroneOf(apex, r)] == fit.error;
    }
  }

  lemma CostIsOffSlot(norm: Norm, positions: seq<Vec>, offsets: seq<Vec>, apex: nat, d: nat, slot: nat)
    requires |positions| == |offsets| + 1 && apex < |positions| && d < |positions| && d != apex && slot < |offsets|
    ensures 0 <= RowOf(apex, d) < |offsets|
    ensures CostsAround(norm, positions, offsets, apex)[RowOf(apex, d)][slot] == OffSlot(norm, positions, offsets, apex, d, slot)
  {
  }

  lemma DescribedTruly(norm: Norm, positions: seq<Vec>, offsets: seq<Vec>, a: seq<nat>, fit: Fit)
    requires |positions| == |offsets| + 1 && fit.leader < |positions|
    requires IsFitAround(norm, positions, offsets, fit.leader, a, fit)
    ensures IsTrue(norm, positions, offsets, fit)
  {
    var cost := CostsAround(norm, positions, offsets, fit.leader);
    DescribedPlacement(cost, fit.leader, a, fit);
    DescribedErrors(cost, fit.leader, a, fit);
    forall d: nat | d in fit.slots
      ensures fit.errors[d] == OffSlot(norm, positions, offsets, fit.leader, d, fit.slots[d])
    {
      CostIsOffSlot(norm, positions, offsets, fit.leader, d, fit.slots[d]);
    }
  }

  lemma ClosestIsClosest(norm: Norm, positions: seq<Vec>, offsets: seq<Vec>, leader: Option<nat>, fit: Fit)
    requires |positions| == |offsets| + 1
    requires IsClosest(norm, positions, offsets, leader, fit.leader, fit.error)
    ensures NoneCloser(norm, positions, offsets, leader, fit)
  {
    forall apex: nat, slots | Admissible(positions, leader, apex) && IsPlacement(|offsets|, apex, slots)
      ensures SomebodyOff(norm, positions, offsets, apex, slots, fit.error, apex < fit.leader)
    {
      PlacementOff(norm, positions, offsets, apex, slots, fit.error);
    }
  }

  /** The closest fit led by one given drone. */
  method FitAround(norm: Norm, positions: seq<Vec>, offsets: seq<Vec>, apex: nat)
    returns (fit: Fit, ghost assignment: seq<nat>)
    requires |positions| == |offsets| + 1 && apex < |positions|
    ensures IsFitAround(norm, positions, offsets, apex, assignment, fit)
    ensures fit.leader == apex && AtLeast(CostsAround(norm, positions, offsets, apex), fit.error)
    ensures IsTrue(norm, positions, offsets, fit)
    ensures forall slots :: IsPlacement(|offsets|, apex, slots) ==>
      SomebodyOff(norm, positions, offsets, apex, slots, fit.error, false)
  {
    var cost := CostsAround(norm, positions, offsets, apex);
    var solved := BottleneckAssignment(cost);
    var a := solved.value.1;
    var slots := map d: nat | d <= |offsets| && d != apex :: a[RowOf(apex, d)];
    var errors := map d: nat | d <= |offsets| && d != apex :: cost[RowOf(apex, d)][a[RowOf(apex, d)]];
    forall r | 0 <= r < |offsets|
      ensures slots[DroneOf(apex, r)] == a[r] && errors[DroneOf(apex, r)] == cost[r][a[r]]
    {
      assert RowOf(apex, DroneOf(apex, r)) == r;
    }
    fit := Fit(solved.value.0, apex, slots, errors);
    assignment := a;
    DescribedTruly(norm, positions, offsets, a, fit);
    forall other | IsPlacement(|offsets|, apex, other)
      ensures SomebodyOff(norm, positions, offsets, apex, other, fit.error, false)
    {
      PlacementOff(norm, positions, offsets, apex, other, fit.error);
    }
  }

  /** What is known of one leader once it has been tried: no assignment around it beats `error`. */
  datatype Bound = Bound(cost: Costs, error: real)

  type LeaderBound = b: Bound | Square(b.cost) && AtLeast(b.cost, b.error) ghost witness Bound([], 0.0)

  /** The leaders tried are the admissible ones before `upto`, each with a bound on its own cost table. */
  ghost predicate Tried(positions: seq<Vec>, leader: Option<nat>, tables: seq<Costs>, upto: nat,
                        tried: map<nat, LeaderBound>)
    requires |tables| == |positions|
  {
    && (forall i: nat :: i in tried <==> i < upto && Admissible(positions, leader, i))
    && (forall i: nat :: i in tried ==> tried[i].cost == tables[i])
  }

  /** `error` is the smallest of the errors tried, and `at` the first to have it. */
  ghost predicate Smallest(tried: map<nat, LeaderBound>, at: nat, error: real) {
    && at in tried
    && forall i: nat :: i in tried ==> error <= tried[i].error && (i < at ==> error < tried[i].error)
  }

  lemma TriedNext(positions: seq<Vec>, leader: Option<nat>, tables: seq<Costs>, upto: nat,
                  tried: map<nat, LeaderBound>, bound: LeaderBound)
    requires |tables| == |positions| && upto < |positions|
    requires Tried(positions, leader, tables, upto, tried)
    requires Admissible(positions, leader, upto) && bound.cost == tables[upto]
    ensures Tried(positions, leader, tables, upto + 1, tried[upto := bound])
  {
  }

  lemma SmallestNext(tried: map<nat, LeaderBound>, upto: nat, at: nat, error: real, bound: LeaderBound)
    requires Smallest(tried, at, error) && forall i: nat :: i in tried ==> i < upto
    ensures bound.error < error ==> Smallest(tried[upto := bound], upto, bound.error)
    ensures error <= bound.error ==> Smallest(tried[upto := bound], at, error)
  {
  }

  /** The smallest of the leaders' errors is the closest fit over every leader and assignment. */
  lemma SmallestIsClosest(norm: Norm, positions: seq<Vec>, offsets: seq<Vec>, leader: Option<nat>,
                          tables: seq<Costs>, tried: map<nat, LeaderBound>, apex: nat, error: real)
    requires |positions| == |offsets| + 1 == |tables|
    requires forall i :: 0 <= i < |tables| ==> tables[i] == CostsAround(norm, positions, offsets, i)
    requires Tried(positions, leader, tables, |positions|, tried)
    requires Smallest(tried, apex, error)
    ensures IsClosest(norm, positions, offsets, leader, apex, error)
  {
    forall other: nat | Admissible(positions, leader, other)
      ensures AtLeast(CostsAround(norm, positions, offsets, other), error)
      ensures other < apex ==> MoreThan(CostsAround(norm, positions, offsets, other), error)
    {
      LowerStill(tables[other], tried[other].error, error);
    }
  }

  lemma LowerStill(cost: Costs, least: real, error: real)
    requires Square(cost) && AtLeast(cost, least)
    ensures error <= least ==> AtLeast(cost, error)
    ensures error < least ==> MoreThan(cost, error)
  {
  }

  /** One leader's turn: its fit replaces the best so far if it is strictly closer. */
  method TryLeader(norm: Norm, positions: seq<Vec>, offsets: seq<Vec>, apex: nat, best: Option<Fit>,
                   ghost at: nat, ghost a: seq<nat>)
    returns (better: Option<Fit>, ghost at': nat, ghost a': seq<nat>, ghost bound: LeaderBound)
    requires |positions| == |offsets| + 1 && apex < |positions|
    requires best.Some? ==> at < |positions| && IsFitAround(norm, positions, offsets, at, a, best.value)
    ensures better.Some? && at' < |positions| && IsFitAround(norm, positions, offsets, at', a', better.value)
    ensures bound.cost == CostsAround(norm, positions, offsets, apex)
    ensures if best.Some? && best.value.error <= bound.error then better == best && at' == at
            else better.value.error == bound.error && at' == apex
  {
    var fit, assignment := FitAround(norm, positions, offsets, apex);
    bound := Bound(CostsAround(norm, positions, offsets, apex), fit.error);
    if best.None? || fit.error < best.value.error {
      return Some(fit), apex, assignment, bound;
    }
    return best, at, a, bound;
  }

  /** The closest fit of the drones to the formation, or why there is none to look for. */
  method FitFormation(norm: Norm, positions: seq<Vec>, offsets: seq<Vec>, leader: Option<nat>)
    returns (result: Result<Fit, string>)
    ensures result.Success? <==> |positions| == |offsets| + 1 && (leader.Some? ==> leader.value < |positions|)
    ensures result.Success? ==>
      && IsTrue(norm, positions, offsets, result.value)
      && NoneCloser(norm, positions, offsets, leader, result.value)
  {
    if |positions| != |offsets| + 1 {
      return Failure("one drone more than slots is needed");
    }
    if leader.Some? && leader.value >= |positions| {
      return Failure("the leader is not among the drones");
    }
    ghost var tables := seq(|positions|, i requires 0 <= i < |positions| => CostsAround(norm, positions, offsets, i));
    ghost var tried: map<nat, LeaderBound> := map[];
    ghost var at: nat, a: seq<nat> := 0, [];
    var best: Option<Fit> := None;
    var next := 0;
    while next < |positions|
      invariant 0 <= next <= |positions|
      invariant Tried(positions, leader, tables, next, tried)
      invariant best.None? ==> tried == map[]
      invariant best.Some? ==> Smallest(tried, at, best.value.error)
      invariant best.Some? ==> IsFitAround(norm, positions, offsets, at, a, best.value)
    {
      if leader.None? || next == leader.value {
        ghost var before, was := best, at;
        ghost var bound;
        best, at, a, bound := TryLeader(norm, positions, offsets, next, best, at, a);
        TriedNext(positions, leader, tables, next, tried, bound);
        if before.Some? {
          SmallestNext(tried, next, was, before.value.error, bound);
        }
        tried := tried[next := bound];
      }
      next := next + 1;
    }
    assert Admissible(positions, leader, if leader.Some? then leader.value else 0);
    SmallestIsClosest(norm, positions, offsets, leader, tables, tried, at, best.value.error);
    DescribedTruly(norm, positions, offsets, a, best.value);
    ClosestIsClosest(norm, positions, offsets, leader, best.value);
    return Success(best.value);
  }
}
