/** Missions and plans: who flies a path and who holds a slot (mission_planning.py, formation.py,
    and the supervisor's check of a planner's plan). */
module Planning {

  import opened Wrappers
  import opened Geometry
  import opened Fleet
  import opened Lists
  import opened Missions

  type MissionId = nat

  datatype MissionMessage = MissionMessage(
    id: MissionId, kind: Kind, formation: Shape, waypoints: seq<Vec>, droneCount: int, spacing: real)

  datatype Slot = Slot(leader: Drone, offset: Vec)

  datatype Plan = Plan(id: MissionId, paths: map<Drone, seq<Vec>>, followers: map<Drone, Slot>)
  {
    function Drones(): set<Drone> {
      paths.Keys + followers.Keys
    }
  }

  /** A plan that can be flown as it stands. */
  ghost predicate Flyable(plan: Plan) {
    && plan.paths.Keys !! plan.followers.Keys
    && (forall d :: d in plan.paths ==> plan.paths[d] != [])
    && (forall d :: d in plan.followers ==> plan.followers[d].leader in plan.paths)
  }

  // ----- a planner's plan -----

  datatype Problem = OtherMission | PathAndSlot | WrongCount | NotOffered | EmptyPath | LeaderWithoutPath

  /** Why `plan` cannot be flown as a plan for `mission` on `offered`, or None. */
  function Unusable(plan: Plan, mission: MissionMessage, offered: seq<Drone>): (problem: Option<Problem>)
    ensures problem.None? <==>
      && plan.id == mission.id && Flyable(plan)
      && |plan.Drones()| == mission.droneCount
      && forall d :: d in plan.Drones() ==> d in offered
  {
    if plan.id != mission.id then Some(OtherMission)
    else if exists d :: d in plan.paths && d in plan.followers then Some(PathAndSlot)
    else if |plan.paths| + |plan.followers| != mission.droneCount then
      DisjointSize(plan);
      Some(WrongCount)
    else
      DisjointSize(plan);
      if exists d :: d in plan.paths.Keys + plan.followers.Keys && d !in offered then Some(NotOffered)
      else if exists d :: d in plan.paths && plan.paths[d] == [] then Some(EmptyPath)
      else if exists d :: d in plan.followers && plan.followers[d].leader !in plan.paths then Some(LeaderWithoutPath)
      else None
  }

  lemma DisjointSize(plan: Plan)
    requires plan.paths.Keys !! plan.followers.Keys
    ensures |plan.Drones()| == |plan.paths| + |plan.followers|
  {
    assert |plan.paths.Keys + plan.followers.Keys| == |plan.paths.Keys| + |plan.followers.Keys|;
  }

  // ----- the default plan -----

  function Lane(waypoints: seq<Vec>, offset: Vec): (lane: seq<Vec>)
    ensures |lane| == |waypoints|
    ensures forall k :: 0 <= k < |lane| ==> lane[k] == waypoints[k].Add(offset)
  {
    seq(|waypoints|, k requires 0 <= k < |waypoints| => waypoints[k].Add(offset))
  }

  function IndexOf(names: seq<Drone>, d: Drone): (i: nat)
    requires d in names
    ensures i < |names| && names[i] == d
  {
    if names[0] == d then 0 else 1 + IndexOf(names[1..], d)
  }

  /** The i-th drone's lane: the route, shifted by i spacings. */
  function LaneOf(mission: MissionMessage, i: nat): (lane: seq<Vec>)
    ensures |lane| == |mission.waypoints|
  {
    Lane(mission.waypoints, Vec(0.0, i as real * mission.spacing, 0.0))
  }

  function LanesPlan(mission: MissionMessage, names: seq<Drone>): Plan {
    Plan(mission.id,
      map d | d in names :: LaneOf(mission, IndexOf(names, d)),
      map[])
  }

  function FormationPlan(mission: MissionMessage, names: seq<Drone>): Plan
    requires names != []
  {
    Plan(mission.id,
      map[names[0] := mission.waypoints],
      map d | d in names && d != names[0] ::
        Slot(names[0], FollowerOffset(mission.formation, FollowerIndex(names, d), mission.spacing)))
  }

  function FollowerIndex(names: seq<Drone>, d: Drone): nat
    requires d in names && d != names[0]
  {
    IndexOf(names, d) - 1
  }

  /** The default plan: every drone its own lane, or the first drone the route and the rest a slot
      behind it. None where the source raises: no drone to fly, or nowhere to go. */
  function PlanMission(mission: MissionMessage, names: seq<Drone>): (plan: Option<Plan>)
    requires Distinct(names) && (mission.droneCount >= 0 ==> |names| == mission.droneCount)
  {
    if mission.droneCount < 1 || mission.waypoints == [] then None
    else if mission.kind.WaypointFollow? then Some(LanesPlan(mission, names))
    else Some(FormationPlan(mission, names))
  }

  lemma {:induction false} IndexOfAt(names: seq<Drone>, i: nat)
    requires Distinct(names) && i < |names|
    ensures IndexOf(names, names[i]) == i
  {
    if i > 0 {
      assert names[i] in names[1..];
      IndexOfAt(names[1..], i - 1);
    }
  }

  /** The followers' slots, filled in one by one. */
  method FillSlots(mission: MissionMessage, names: seq<Drone>) returns (followers: map<Drone, Slot>)
    requires Distinct(names) && names != []
    ensures followers == FormationPlan(mission, names).followers
  {
    followers := map[];
    for i := 1 to |names|
      invariant forall d :: d in followers <==> d in names[..i] && d != names[0]
      invariant forall d :: d in followers ==> followers[d] == FormationPlan(mission, names).followers[d]
    {
      IndexOfAt(names, i);
      assert names[i] in names[1..];
      assert names[..i + 1] == names[..i] + [names[i]];
      followers := followers[names[i] := Slot(names[0], FollowerOffset(mission.formation, i - 1, mission.spacing))];
    }
    assert names[..|names|] == names;
  }

  method MakePlan(mission: MissionMessage, names: seq<Drone>) returns (plan: Option<Plan>)
    requires Distinct(names) && (mission.droneCount >= 0 ==> |names| == mission.droneCount)
    ensures plan == PlanMission(mission, names)
  {
    if mission.droneCount < 1 || mission.waypoints == [] {
      return None;
    }
    if mission.kind == WaypointFollow {
      return Some(LanesPlan(mission, names));
    }
    var followers := FillSlots(mission, names);
    return Some(Plan(mission.id, map[names[0] := mission.waypoints], followers));
  }

  /** The default plan passes the check that a planner's plan must pass, on exactly the drones it is given. */
  lemma DefaultPlanIsUsable(mission: MissionMessage, names: seq<Drone>)
    requires Distinct(names) && |names| == mission.droneCount && mission.droneCount >= 1
    requires mission.waypoints != []
    ensures PlanMission(mission, names).Some?
    ensures Unusable(PlanMission(mission, names).value, mission, names).None?
    ensures PlanMission(mission, names).value.Drones() == Members(names)
  {
    DistinctSize(names);
    if mission.kind.WaypointFollow? {
      LanesPlanFlyable(mission, names);
    } else {
      FormationPlanFlyable(mission, names);
    }
  }

  lemma LanesPlanFlyable(mission: MissionMessage, names: seq<Drone>)
    requires mission.waypoints != []
    ensures Flyable(LanesPlan(mission, names)) && LanesPlan(mission, names).Drones() == Members(names)
  {
    forall d | d in names ensures LaneOf(mission, IndexOf(names, d)) != [] {
      assert |LaneOf(mission, IndexOf(names, d))| == |mission.waypoints|;
    }
    assert LanesPlan(mission, names).Drones() == Members(names);
  }

  lemma FormationPlanFlyable(mission: MissionMessage, names: seq<Drone>)
    requires mission.waypoints != [] && names != []
    ensures Flyable(FormationPlan(mission, names)) && FormationPlan(mission, names).Drones() == Members(names)
  {
    assert FormationPlan(mission, names).Drones() == Members(names);
  }

  // ----- drones in id order -----

  ghost predicate InIdOrder(drones: seq<Drone>) {
    drones != [] ==> (forall d :: d in drones[1..] ==> drones[0] < d) && InIdOrder(drones[1..])
  }

  /** The members of `chosen` in the order of `fleet`. */
  function Pick(fleet: seq<Drone>, chosen: set<Drone>): (picked: seq<Drone>)
    ensures forall d {:trigger d in picked} :: d in picked <==> d in fleet && d in chosen
  {
    if fleet == [] then []
    else
      assert fleet == [fleet[0]] + fleet[1..];
      if fleet[0] in chosen then [fleet[0]] + Pick(fleet[1..], chosen) else Pick(fleet[1..], chosen)
  }

  lemma {:induction false} PickInOrder(fleet: seq<Drone>, chosen: set<Drone>)
    requires InIdOrder(fleet)
    ensures InIdOrder(Pick(fleet, chosen))
  {
    if fleet != [] {
      PickInOrder(fleet[1..], chosen);
    }
  }

  lemma {:induction false} OrderedDistinct(drones: seq<Drone>)
    requires InIdOrder(drones)
    ensures Distinct(drones)
  {
    if drones != [] {
      OrderedDistinct(drones[1..]);
    }
  }
}
