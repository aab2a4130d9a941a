/** What the supervisor decides (supervisor.py), as functions on its state.

  The class in Supervisor.dfy changes its fields step by step and is proved to do exactly
  this; the lemmas about single decisions are here, those about whole runs in SupervisorRuns.dfy.
 */
module Supervision {

  import opened Wrappers
  import opened Geometry
  import opened Fleet
  import opened Lists
  import opened Planning

  datatype Command = Rtl | Land | Hold

  datatype Action =
    | Assign(drone: Drone, mission: MissionId, waypoints: seq<Vec>)
    | TakeSlot(drone: Drone, mission: MissionId, slot: Slot)
    | Send(drone: Drone, command: Command)
    | ActiveMission(active: Option<MissionId>, drones: seq<Drone>)
    | Rejected(mission: MissionId)
    | TaskDropped(drone: Drone, mission: MissionId)

  datatype Progress = Progress(index: Option<nat>, complete: bool)

  /** The mission in progress. `retired`: sent home, somebody else flies their task. `dropped`: sent
      home with nobody to take over, so still part of the mission. */
  datatype Mission = Mission(plan: Plan, progress: map<Drone, Progress>, retired: set<Drone>, dropped: set<Drone>)

  /** The fleet and what its batteries were last reported to hold. */
  datatype Reports = Reports(fleet: seq<Drone>, threshold: real, battery: map<Drone, Option<real>>)

  datatype State = State(reports: Reports, mission: Option<Mission>)

  /** What asking the planner comes to: no planner, an exception, something else, or a plan. */
  datatype Planned = NoPlanner | PlannerFailed | NotAPlan | Returned(plan: Plan)

  // ----- reading the state -----

  predicate Low(s: Reports, d: Drone) {
    d in s.battery && s.battery[d].Some? && s.battery[d].value < s.threshold
  }

  predicate Charged(s: Reports, d: Drone) {
    d in s.battery && s.battery[d].Some? && s.battery[d].value >= s.threshold
  }

  predicate Finished(m: Mission, d: Drone) {
    d in m.progress && m.progress[d].complete
  }

  function MissionDrones(s: State): seq<Drone> {
    if s.mission.None? then [] else Pick(s.reports.fleet, s.mission.value.plan.Drones())
  }

  function Busy(m: Mission): set<Drone> {
    m.plan.Drones() + m.retired + m.dropped
  }

  /** The first drone of the fleet that is free to take over and known to be charged. */
  function Replacement(s: Reports, m: Mission, fleet: seq<Drone>): (r: Option<Drone>)
    ensures r.Some? ==> r.value in fleet && r.value !in Busy(m) && Charged(s, r.value)
    ensures r.Some? ==>
      exists i :: 0 <= i < |fleet| && fleet[i] == r.value && forall d :: d in fleet[..i] ==> d in Busy(m) || !Charged(s, d)
    ensures r.None? ==> forall d :: d in fleet ==> d in Busy(m) || !Charged(s, d)
  {
    if fleet == [] then None
    else if fleet[0] !in Busy(m) && Charged(s, fleet[0]) then
      assert fleet[..0] == [];
      Some(fleet[0])
    else
      var later := Replacement(s, m, fleet[1..]);
      assert forall i :: 0 <= i < |fleet| - 1 ==> fleet[..i + 1] == [fleet[0]] + fleet[1..][..i];
      later
  }

  /** The state as every method leaves it. */
  ghost predicate Valid(s: State) {
    && InIdOrder(s.reports.fleet)
    && s.reports.battery.Keys == Members(s.reports.fleet)
    && (s.mission.Some? ==> ValidMission(s.mission.value, s.reports.fleet))
  }

  ghost predicate ValidMission(m: Mission, fleet: seq<Drone>) {
    && Flyable(m.plan)
    && m.plan.Drones() <= Members(fleet)
    && m.retired <= Members(fleet) && m.retired !! m.plan.Drones()
    && m.dropped <= m.plan.Drones()
  }

  // ----- starting and commanding -----

  function Eligible(s: Reports, fleet: seq<Drone>): (eligible: seq<Drone>)
    ensures forall d {:trigger d in eligible} :: d in eligible <==> d in fleet && !Low(s, d)
  {
    if fleet == [] then []
    else
      assert fleet == [fleet[0]] + fleet[1..];
      if Low(s, fleet[0]) then Eligible(s, fleet[1..]) else [fleet[0]] + Eligible(s, fleet[1..])
  }

  lemma {:induction false} EligibleDistinct(s: Reports, fleet: seq<Drone>)
    requires InIdOrder(fleet)
    ensures Distinct(Eligible(s, fleet))
  {
    if fleet != [] {
      EligibleDistinct(s, fleet[1..]);
      assert fleet[0] !in Eligible(s, fleet[1..]);
    }
  }

  lemma NamesDistinct(s: Reports, n: nat)
    requires InIdOrder(s.fleet) && n <= |Eligible(s, s.fleet)|
    ensures Distinct(Eligible(s, s.fleet)[..n])
  {
    EligibleDistinct(s, s.fleet);
    PrefixDistinct(Eligible(s, s.fleet), n);
  }

  /** The plan to fly, if there is one. */
  function PlanFor(s: Reports, mission: MissionMessage, planned: Planned): (plan: Option<Plan>)
    requires InIdOrder(s.fleet) && |Eligible(s, s.fleet)| >= mission.droneCount
  {
    var eligible := Eligible(s, s.fleet);
    match planned
    case NoPlanner =>
      if mission.droneCount < 0 then None
      else
        NamesDistinct(s, mission.droneCount);
        PlanMission(mission, eligible[..mission.droneCount])
    case PlannerFailed => None
    case NotAPlan => None
    case Returned(plan) => if Unusable(plan, mission, eligible).None? then Some(plan) else None
  }

  /** Whatever the planner answers, the plan that is begun leaves the state valid. */
  lemma PlanIsValid(s: Reports, message: MissionMessage, planned: Planned)
    requires InIdOrder(s.fleet) && |Eligible(s, s.fleet)| >= message.droneCount
    ensures PlanFor(s, message, planned).Some? ==>
      var plan := PlanFor(s, message, planned).value;
      && plan.id == message.id && ValidMission(Mission(plan, map[], {}, {}), s.fleet)
      && |plan.Drones()| == message.droneCount
      && forall d :: d in plan.Drones() ==> d in s.fleet && !Low(s, d)
  {
    var eligible := Eligible(s, s.fleet);
    if planned.NoPlanner? && message.droneCount >= 0 && PlanFor(s, message, planned).Some? {
      var names := eligible[..message.droneCount];
      NamesDistinct(s, message.droneCount);
      DefaultPlanIsUsable(message, names);
      assert forall d :: d in names ==> d in eligible;
    }
  }

  function Recall(drones: seq<Drone>, command: Command): (actions: seq<Action>)
    ensures |actions| == |drones| && forall k {:trigger actions[k]} :: 0 <= k < |drones| ==> actions[k] == Send(drones[k], command)
  {
    if drones == [] then [] else [Send(drones[0], command)] + Recall(drones[1..], command)
  }

  function PathOrders(plan: Plan, drones: seq<Drone>): (actions: seq<Action>)
    requires forall d :: d in drones ==> d in plan.paths
    ensures |actions| == |drones|
    ensures forall k {:trigger actions[k]} :: 0 <= k < |drones| ==> actions[k] == Assign(drones[k], plan.id, plan.paths[drones[k]])
  {
    if drones == [] then []
    else [Assign(drones[0], plan.id, plan.paths[drones[0]])] + PathOrders(plan, drones[1..])
  }

  function SlotOrders(id: MissionId, followers: map<Drone, Slot>, drones: seq<Drone>): (actions: seq<Action>)
    requires forall d :: d in drones ==> d in followers
    ensures |actions| == |drones|
    ensures forall k {:trigger actions[k]} :: 0 <= k < |drones| ==>
      actions[k] == TakeSlot(drones[k], id, followers[drones[k]])
  {
    if drones == [] then []
    else [TakeSlot(drones[0], id, followers[drones[0]])] + SlotOrders(id, followers, drones[1..])
  }

  /** Everything a plan says, as orders. */
  function Orders(fleet: seq<Drone>, plan: Plan): seq<Action> {
    PathOrders(plan, Pick(fleet, plan.paths.Keys)) + SlotOrders(plan.id, plan.followers, Pick(fleet, plan.followers.Keys))
  }

  function Began(s: State, plan: Plan): (State, seq<Action>) {
    var begun := s.(mission := Some(Mission(plan, map[], {}, {})));
    var superseded := Pick(s.reports.fleet, Members(MissionDrones(s)) - plan.Drones());
    (begun, Recall(superseded, Rtl) + Orders(s.reports.fleet, plan) + [ActiveMission(Some(plan.id), MissionDrones(begun))])
  }

  /** Plans a mission and begins it, or leaves everything as it is. Where the source raises, there is
      no action either. */
  function Start(s: State, mission: MissionMessage, planned: Planned): (State, seq<Action>)
    requires InIdOrder(s.reports.fleet)
  {
    if |Eligible(s.reports, s.reports.fleet)| < mission.droneCount then (s, [Rejected(mission.id)])
    else
      var plan := PlanFor(s.reports, mission, planned);
      if plan.Some? then Began(s, plan.value)
      else (s, if planned.NoPlanner? then [] else [Rejected(mission.id)])
  }

  function CommandAll(s: State, command: Command): (State, seq<Action>) {
    (s.(mission := None), Recall(s.reports.fleet, command) + [ActiveMission(None, [])])
  }

  // ----- reports -----

  function ObserveBattery(s: State, d: Drone, battery: Option<real>): State {
    if d in s.reports.battery then s.(reports := s.reports.(battery := s.reports.battery[d := battery])) else s
  }

  function ObserveProgress(s: State, d: Drone, mission: Option<MissionId>, index: Option<nat>, complete: bool): State {
    if s.mission.None? || mission != Some(s.mission.value.plan.id) then s
    else
      var m := s.mission.value;
      s.(mission := Some(m.(progress := m.progress[d := Progress(index, complete)])))
  }

  // ----- handing over -----

  /** The index a drone last reported; 0 if none. */
  function LastReached(m: Mission, d: Drone): nat {
    if d in m.progress && m.progress[d].index.Some? then m.progress[d].index.value else 0
  }

  /** How much of its path a drone has behind it, leaving at least the last waypoint. */
  function Behind(m: Mission, d: Drone, path: seq<Vec>): (start: nat)
    requires path != []
    ensures start < |path| && start <= LastReached(m, d)
    ensures start == LastReached(m, d) || start == |path| - 1
  {
    if LastReached(m, d) < |path| - 1 then LastReached(m, d) else |path| - 1
  }

  /** `rest` is the path without the `reached` waypoints that are behind; with the last one always. */
  ghost predicate IsRest(path: seq<Vec>, reached: nat, rest: seq<Vec>) {
    path != [] && rest == path[(if reached < |path| then reached else |path| - 1)..]
  }

  /** Who follows `low` follows `heir` instead, in the same place. */
  function Redirected(followers: map<Drone, Slot>, low: Drone, heir: Drone): (after: map<Drone, Slot>)
    ensures after.Keys == followers.Keys
  {
    map f | f in followers :: if followers[f].leader == low then Slot(heir, followers[f].offset) else followers[f]
  }

  function HandedOver(m: Mission, low: Drone, heir: Drone): Plan
    requires Flyable(m.plan) && low in m.plan.Drones()
  {
    var plan := m.plan;
    if low in plan.paths then
      plan.(paths := (plan.paths - {low})[heir := plan.paths[low][Behind(m, low, plan.paths[low])..]],
            followers := Redirected(plan.followers, low, heir))
    else plan.(followers := (plan.followers - {low})[heir := plan.followers[low]])
  }

  function FollowersOf(followers: map<Drone, Slot>, leader: Drone): set<Drone> {
    set f | f in followers && followers[f].leader == leader
  }

  /** The orders a hand-over sends: the replacement's task, and the new leader to those who follow it. */
  function HandOverOrders(fleet: seq<Drone>, m: Mission, low: Drone, heir: Drone): seq<Action>
    requires Flyable(m.plan) && low in m.plan.Drones()
  {
    var plan := HandedOver(m, low, heir);
    if low in m.plan.paths then
      [Assign(heir, plan.id, plan.paths[heir])] +
      SlotOrders(plan.id, plan.followers, Pick(fleet, FollowersOf(m.plan.followers, low)))
    else [TakeSlot(heir, plan.id, plan.followers[heir])]
  }

  function Rename(low: Drone, heir: Drone, d: Drone): Drone {
    if d == low then heir else d
  }

  /** A hand-over is exactly the renaming of one drone to another across the plan: only the path of the
      drone going home is cut, of the waypoints it last reported behind it, and never of the last one. */
  lemma HandOverIsRenaming(m: Mission, low: Drone, heir: Drone)
    requires Flyable(m.plan) && low in m.plan.Drones() && heir !in m.plan.Drones()
    ensures var after := HandedOver(m, low, heir);
      && Flyable(after) && after.id == m.plan.id
      && after.Drones() == m.plan.Drones() - {low} + {heir}
      && (forall d :: d in after.paths <==> d != low && (d in m.plan.paths || (d == heir && low in m.plan.paths)))
      && (low in m.plan.paths ==>
            IsRest(m.plan.paths[low], (if low in m.progress && m.progress[low].index.Some? then m.progress[low].index.value else 0),
                   after.paths[heir]))
      && (forall d :: d in m.plan.paths && d != low ==> after.paths[d] == m.plan.paths[d])
      && (forall f :: f in m.plan.followers ==>
            && Rename(low, heir, f) in after.followers
            && after.followers[Rename(low, heir, f)] ==
               Slot(Rename(low, heir, m.plan.followers[f].leader), m.plan.followers[f].offset))
  {
    HandedOverDrones(m, low, heir);
    HandedOverFlyable(m, low, heir);
  }

  lemma HandedOverFlyable(m: Mission, low: Drone, heir: Drone)
    requires Flyable(m.plan) && low in m.plan.Drones() && heir !in m.plan.Drones()
    ensures Flyable(HandedOver(m, low, heir))
  {
    assert m.plan.paths.Keys <= m.plan.Drones() && m.plan.followers.Keys <= m.plan.Drones();
  }

  lemma HandedOverDrones(m: Mission, low: Drone, heir: Drone)
    requires Flyable(m.plan) && low in m.plan.Drones() && heir !in m.plan.Drones()
    ensures HandedOver(m, low, heir).Drones() == m.plan.Drones() - {low} + {heir}
  {
    var plan, after := m.plan, HandedOver(m, low, heir);
    if low in plan.paths {
      assert after.paths.Keys == plan.paths.Keys - {low} + {heir};
      assert after.followers.Keys == plan.followers.Keys;
    } else {
      assert after.followers.Keys == plan.followers.Keys - {low} + {heir};
    }
  }

  // ----- the periodic decision -----

  datatype Decision = HandOver(low: Drone, heir: Drone) | Drop(low: Drone)

  predicate Leaving(s: Reports, m: Mission, d: Drone) {
    d !in m.dropped && Low(s, d) && !Finished(m, d)
  }

  function Decide(s: Reports, m: Mission, d: Drone): Decision {
    var replacement := Replacement(s, m, s.fleet);
    if replacement.Some? then HandOver(d, replacement.value) else Drop(d)
  }

  function Apply(m: Mission, decision: Decision): Mission
    requires Flyable(m.plan) && decision.low in m.plan.Drones()
  {
    match decision
    case HandOver(low, heir) => m.(plan := HandedOver(m, low, heir), retired := m.retired + {low})
    case Drop(low) => m.(dropped := m.dropped + {low})
  }

  function DecisionActions(fleet: seq<Drone>, m: Mission, decision: Decision): seq<Action>
    requires Flyable(m.plan) && decision.low in m.plan.Drones()
  {
    match decision
    case HandOver(low, heir) => [Send(low, Rtl)] + HandOverOrders(fleet, m, low, heir)
    case Drop(low) => [Send(low, Rtl), TaskDropped(low, m.plan.id)]
  }

  /** A decision that can be taken: about a drone with a task, to a drone that is free. */
  ghost predicate Sound(m: Mission, fleet: seq<Drone>, decision: Decision) {
    && decision.low in m.plan.Drones() && decision.low !in m.dropped
    && (decision.HandOver? ==> decision.heir in fleet && decision.heir !in Busy(m))
  }

  /** Each decision keeps the mission valid, and the number of drones in it. */
  lemma ApplyKeepsValid(m: Mission, fleet: seq<Drone>, decision: Decision)
    requires ValidMission(m, fleet) && Sound(m, fleet, decision)
    ensures ValidMission(Apply(m, decision), fleet)
    ensures |Apply(m, decision).plan.Drones()| == |m.plan.Drones()|
  {
    if decision.HandOver? {
      HandedOverFlyable(m, decision.low, decision.heir);
      HandedOverDrones(m, decision.low, decision.heir);
      NewPlanKeepsValid(m, fleet, HandedOver(m, decision.low, decision.heir), decision.low, decision.heir);
    }
  }

  lemma NewPlanKeepsValid(m: Mission, fleet: seq<Drone>, plan: Plan, low: Drone, heir: Drone)
    requires ValidMission(m, fleet) && Sound(m, fleet, HandOver(low, heir))
    requires Flyable(plan) && plan.Drones() == m.plan.Drones() - {low} + {heir}
    ensures ValidMission(m.(plan := plan, retired := m.retired + {low}), fleet)
    ensures |plan.Drones()| == |m.plan.Drones()|
  {
    Exchanged(m.plan.Drones(), m.retired, m.dropped, Members(fleet), low, heir);
  }

  lemma Exchanged(drones: set<Drone>, retired: set<Drone>, dropped: set<Drone>, all: set<Drone>, low: Drone,
                  heir: Drone)
    requires drones <= all && retired <= all && retired !! drones && dropped <= drones
    requires low in drones && low !in dropped && heir in all && heir !in drones + retired
    ensures var after := drones - {low} + {heir};
      after <= all && retired + {low} <= all && retired + {low} !! after && dropped <= after && |after| == |drones|
  {
    assert |drones - {low}| == |drones| - 1;
  }
}
