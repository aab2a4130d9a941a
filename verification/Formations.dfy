/** The shape of the default plan (mission_planning.py, formation.py; Formation.cs, which mirrors it): lanes side by side
    and slots behind the leader, never two of them closer than the spacing. */
module Formations {

  import opened Wrappers
  import opened Geometry
  import opened Fleet
  import opened Lists
  import opened Missions
  import opened Planning

  lemma AlongY(norm: Norm, h: real)
    requires IsNorm(norm)
    ensures norm(Vec(0.0, h, 0.0)) == Abs(h)
  {
    NormFacts(norm, Vec(0.0, h, 0.0));
    SquareOfAbs(h);
    SquareUnique(norm(Vec(0.0, h, 0.0)), Abs(h));
  }

  lemma NoNearerThan(norm: Norm, v: Vec, least: real)
    requires IsNorm(norm) && (Abs(v.x) >= least || Abs(v.y) >= least)
    ensures norm(v) >= least
  {
    NormFacts(norm, v);
    SquareSign(v.x, v.x * v.x);
    SquareSign(v.y, v.y * v.y);
    SquareSign(v.z, v.z * v.z);
    SquareOfAbs(v.x);
    SquareOfAbs(v.y);
    SquareOrder(Abs(v.x), norm(v));
    SquareOrder(Abs(v.y), norm(v));
  }

  // ----- lanes -----

  lemma ShiftOf(i: nat, j: nat, spacing: real)
    requires i <= j
    ensures j as real * spacing - i as real * spacing == (j - i) as real * spacing
  {
    assert j as real == i as real + (j - i) as real;
  }

  /** Of the default plan of lanes: the first drone flies the route itself, and the j-th the same route, (j - i) spacings
      to the side of the i-th's, waypoint by waypoint. */
  lemma LanesSideBySide(norm: Norm, mission: MissionMessage, names: seq<Drone>, i: nat, j: nat, k: nat)
    requires IsNorm(norm) && Distinct(names) && |names| == mission.droneCount && mission.kind.WaypointFollow?
    requires i <= j < |names| && k < |mission.waypoints|
    ensures PlanMission(mission, names).Some?
    ensures var plan := PlanMission(mission, names).value;
      && plan.followers == map[] && plan.paths.Keys == Members(names)
      && names[i] in plan.paths && names[j] in plan.paths && names[0] in plan.paths
      && plan.paths[names[0]] == mission.waypoints
      && |plan.paths[names[i]]| == |plan.paths[names[j]]| == |mission.waypoints|
      && var p, q := plan.paths[names[i]][k], plan.paths[names[j]][k];
         && q == Vec(p.x, p.y + (j - i) as real * mission.spacing, p.z)
         && Dist(norm, q, p) == Abs((j - i) as real * mission.spacing)
  {
    IndexOfAt(names, 0);
    IndexOfAt(names, i);
    IndexOfAt(names, j);
    FirstLane(mission);
    LanePoints(norm, mission, i, j, k, (j - i) as real * mission.spacing);
  }

  lemma LanePoints(norm: Norm, mission: MissionMessage, i: nat, j: nat, k: nat, shift: real)
    requires IsNorm(norm) && i <= j && k < |mission.waypoints| && shift == (j - i) as real * mission.spacing
    ensures var p, q := LaneOf(mission, i)[k], LaneOf(mission, j)[k];
      q == Vec(p.x, p.y + shift, p.z) && Dist(norm, q, p) == Abs(shift)
  {
    ShiftOf(i, j, mission.spacing);
    var p, q := LaneOf(mission, i)[k], LaneOf(mission, j)[k];
    assert q.Sub(p) == Vec(0.0, shift, 0.0);
    AlongY(norm, shift);
  }

  lemma FirstLane(mission: MissionMessage)
    ensures LaneOf(mission, 0) == mission.waypoints
  {
    var lane := LaneOf(mission, 0);
    assert 0.0 * mission.spacing == 0.0;
    assert forall k :: 0 <= k < |lane| ==> lane[k] == mission.waypoints[k];
  }

  // ----- slots -----

  /** How many spacings a follower is behind its leader. */
  function Rank(shape: Shape, i: nat): nat {
    match shape
    case Line => i + 1
    case V => i / 2 + 1
  }

  /** `far` behind the leader and level with it: in line, or alternately to its left and right as far as behind. */
  predicate IsSlot(shape: Shape, i: nat, slot: Vec, far: real) {
    && slot.x == -far && slot.z == 0.0
    && match shape
       case Line => slot.y == 0.0
       case V => slot.y == if i % 2 == 0 then far else -far
  }

  /** Every slot is as many spacings behind as its rank. */
  lemma SlotsBehind(shape: Shape, i: nat, spacing: real)
    ensures IsSlot(shape, i, FollowerOffset(shape, i, spacing), Rank(shape, i) as real * spacing)
  {
    Negate(spacing, Rank(shape, i) as real);
  }

  lemma Negate(a: real, k: real)
    ensures -a * k == -(k * a)
  {
  }

  lemma RanksApart(m: nat, n: nat, spacing: real)
    requires m != n && spacing >= 0.0
    ensures Abs(m as real * spacing - n as real * spacing) >= spacing
  {
    if m < n {
      ShiftOf(m, n, spacing);
      ScaleOrder(spacing, 1.0, (n - m) as real);
    } else {
      ShiftOf(n, m, spacing);
      ScaleOrder(spacing, 1.0, (m - n) as real);
    }
  }

  lemma RankReal(m: nat, spacing: real, far: real)
    requires far == m as real * spacing && m >= 1 && spacing >= 0.0
    ensures far >= spacing
  {
    ScaleOrder(spacing, 1.0, m as real);
  }

  /** No two slots are closer than the spacing, nor any to the leader. */
  lemma SlotsApart(norm: Norm, shape: Shape, i: nat, j: nat, spacing: real)
    requires IsNorm(norm) && i != j && spacing >= 0.0
    ensures Dist(norm, FollowerOffset(shape, i, spacing), FollowerOffset(shape, j, spacing)) >= spacing
    ensures Dist(norm, FollowerOffset(shape, i, spacing), ORIGIN) >= spacing
  {
    SlotsBehind(shape, i, spacing);
    SlotsBehind(shape, j, spacing);
    var far, away := Rank(shape, i) as real * spacing, Rank(shape, j) as real * spacing;
    RanksFar(shape, i, j, spacing, far, away);
    ApartGiven(norm, shape, i, j, FollowerOffset(shape, i, spacing), FollowerOffset(shape, j, spacing), far, away, spacing);
  }

  lemma RanksFar(shape: Shape, i: nat, j: nat, spacing: real, far: real, away: real)
    requires spacing >= 0.0 && far == Rank(shape, i) as real * spacing && away == Rank(shape, j) as real * spacing
    ensures far >= spacing && (Rank(shape, i) != Rank(shape, j) ==> Abs(far - away) >= spacing)
    ensures Rank(shape, i) == Rank(shape, j) ==> far == away
  {
    RankReal(Rank(shape, i), spacing, far);
    if Rank(shape, i) != Rank(shape, j) {
      RanksApart(Rank(shape, i), Rank(shape, j), spacing);
    }
  }

  lemma ApartGiven(norm: Norm, shape: Shape, i: nat, j: nat, a: Vec, b: Vec, far: real, away: real, spacing: real)
    requires IsNorm(norm) && i != j && far >= spacing >= 0.0 && IsSlot(shape, i, a, far) && IsSlot(shape, j, b, away)
    requires Rank(shape, i) != Rank(shape, j) ==> Abs(far - away) >= spacing
    requires Rank(shape, i) == Rank(shape, j) ==> far == away
    ensures Dist(norm, a, b) >= spacing && Dist(norm, a, ORIGIN) >= spacing
  {
    FarApart(norm, a, b, far, away, spacing);
  }

  lemma FarApart(norm: Norm, a: Vec, b: Vec, far: real, away: real, spacing: real)
    requires IsNorm(norm) && a.x == -far && b.x == -away && far >= spacing >= 0.0
    requires Abs(far - away) >= spacing || (a.y == far && b.y == -far) || (a.y == -far && b.y == far)
    ensures Dist(norm, a, b) >= spacing && Dist(norm, a, ORIGIN) >= spacing
  {
    NoNearerThan(norm, a.Sub(b), spacing);
    NoNearerThan(norm, a.Sub(ORIGIN), spacing);
  }

  /** Of the default plan of a formation: the first drone flies the route, and the i-th drone after it has the i-th slot
      behind it. */
  lemma SlotsInOrder(mission: MissionMessage, names: seq<Drone>, i: nat)
    requires Distinct(names) && |names| == mission.droneCount && mission.kind.LeaderFollowerFormation?
    requires i + 1 < |names| && mission.waypoints != []
    ensures PlanMission(mission, names).Some?
    ensures var plan := PlanMission(mission, names).value;
      && plan.paths == map[names[0] := mission.waypoints] && plan.followers.Keys == Members(names) - {names[0]}
      && names[i + 1] in plan.followers
      && plan.followers[names[i + 1]] == Slot(names[0], FollowerOffset(mission.formation, i, mission.spacing))
  {
    IndexOfAt(names, 0);
    IndexOfAt(names, i + 1);
    assert names[i + 1] in names[1..];
  }
}
