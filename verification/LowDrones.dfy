/** Which drones the supervisor orders to work although their battery is low (supervisor.py): none with a new mission,
    and on a periodic decision exactly those who follow a leader that is replaced before they are looked at. */
module LowDrones {

  import opened Wrappers
  import opened Geometry
  import opened Fleet
  import opened Lists
  import Missions
  import opened Planning
  import opened Supervision
  import opened Reallocation
  import Runs = SupervisorRuns

  predicate IsWork(a: Action) {
    a.Assign? || a.TakeSlot?
  }

  /** One of the orders gives a low drone a task. */
  ghost predicate OrdersLow(s: Reports, actions: seq<Action>) {
    exists a :: a in actions && IsWork(a) && Low(s, a.drone)
  }

  lemma OrdersLowBoth(s: Reports, a: seq<Action>, b: seq<Action>)
    ensures OrdersLow(s, a + b) <==> OrdersLow(s, a) || OrdersLow(s, b)
  {
    if x :| x in a && IsWork(x) && Low(s, x.drone) {
      assert x in a + b;
    } else if x :| x in b && IsWork(x) && Low(s, x.drone) {
      assert x in a + b;
    }
  }

  // ----- one hand-over -----

  ghost predicate LowFollows(s: Reports, followers: map<Drone, Slot>, leader: Drone) {
    exists f :: f in followers && followers[f].leader == leader && Low(s, f)
  }

  lemma SlotsLow(s: Reports, id: MissionId, followers: map<Drone, Slot>, drones: seq<Drone>)
    requires forall d :: d in drones ==> d in followers
    ensures OrdersLow(s, SlotOrders(id, followers, drones)) <==> exists d :: d in drones && Low(s, d)
  {
    var orders := SlotOrders(id, followers, drones);
    if d :| d in drones && Low(s, d) {
      var k :| 0 <= k < |drones| && drones[k] == d;
      assert orders[k] in orders && orders[k] == TakeSlot(d, id, followers[d]);
    }
    if a :| a in orders && IsWork(a) && Low(s, a.drone) {
      var k :| 0 <= k < |orders| && orders[k] == a;
      assert drones[k] in drones;
    }
  }

  lemma FollowersPicked(fleet: seq<Drone>, m: Mission, low: Drone, f: Drone)
    requires ValidMission(m, fleet)
    ensures f in Pick(fleet, FollowersOf(m.plan.followers, low)) <==> f in m.plan.followers && m.plan.followers[f].leader == low
  {
    assert f in m.plan.followers ==> f in m.plan.Drones() && f in Members(fleet);
  }

  /** A hand-over orders a low drone exactly when a low drone follows the one that goes home. */
  lemma HandOverOrdersLow(s: Reports, m: Mission, low: Drone, heir: Drone)
    requires ValidMission(m, s.fleet) && low in m.plan.Drones() && heir !in m.plan.Drones() && Charged(s, heir)
    ensures OrdersLow(s, [Send(low, Rtl)] + HandOverOrders(s.fleet, m, low, heir)) <==> LowFollows(s, m.plan.followers, low)
  {
    var plan := HandedOver(m, low, heir);
    OrdersLowBoth(s, [Send(low, Rtl)], HandOverOrders(s.fleet, m, low, heir));
    if low in m.plan.paths {
      var followers := Pick(s.fleet, FollowersOf(m.plan.followers, low));
      OrdersLowBoth(s, [Assign(heir, plan.id, plan.paths[heir])], SlotOrders(plan.id, plan.followers, followers));
      SlotsLow(s, plan.id, plan.followers, followers);
      forall f ensures f in followers <==> f in m.plan.followers && m.plan.followers[f].leader == low {
        FollowersPicked(s.fleet, m, low, f);
      }
    }
  }

  // ----- a whole decision -----

  /** `f` is low, and follows the i-th drone to leave, which somebody takes over from before `f` is looked at. */
  ghost predicate LedHome(s: Reports, followers: map<Drone, Slot>, leaving: seq<Drone>, idle: nat, i: nat, f: Drone) {
    && i < |leaving| && i < idle && f in followers && followers[f].leader == leaving[i]
    && f !in leaving[..i] && Low(s, f)
  }

  ghost predicate AnyLedHome(s: Reports, followers: map<Drone, Slot>, leaving: seq<Drone>, idle: nat) {
    exists i: nat, f :: LedHome(s, followers, leaving, idle, i, f)
  }

  /** After the first to leave has handed over, the same drones are led home as before, but for its own followers. */
  lemma LedHomeShifts(s: Reports, m: Mission, low: Drone, heir: Drone, rest: seq<Drone>, idle: nat, i: nat, f: Drone)
    requires Flyable(m.plan) && low in m.plan.Drones() && heir !in m.plan.Drones() && Charged(s, heir)
    requires low !in rest && (forall d :: d in rest ==> Low(s, d)) && idle > 0
    ensures LedHome(s, HandedOver(m, low, heir).followers, rest, idle - 1, i, f) <==>
            LedHome(s, m.plan.followers, [low] + rest, idle, i + 1, f)
  {
    var leaving := [low] + rest;
    if i < |rest| {
      assert leaving[i + 1] == rest[i] && rest[i] in rest;
      assert leaving[..i + 1] == [low] + rest[..i];
    }
  }

  lemma FirstLedHome(s: Reports, followers: map<Drone, Slot>, low: Drone, rest: seq<Drone>, idle: nat)
    requires idle > 0
    ensures (exists f :: LedHome(s, followers, [low] + rest, idle, 0, f)) <==> LowFollows(s, followers, low)
  {
    if f :| f in followers && followers[f].leader == low && Low(s, f) {
      assert LedHome(s, followers, [low] + rest, idle, 0, f);
    }
  }

  lemma LedHomeAfter(s: Reports, m: Mission, low: Drone, heir: Drone, rest: seq<Drone>, idle: nat)
    requires Flyable(m.plan) && low in m.plan.Drones() && heir !in m.plan.Drones() && Charged(s, heir)
    requires low !in rest && (forall d :: d in rest ==> Low(s, d)) && idle > 0
    ensures AnyLedHome(s, m.plan.followers, [low] + rest, idle) <==>
      LowFollows(s, m.plan.followers, low) || AnyLedHome(s, HandedOver(m, low, heir).followers, rest, idle - 1)
  {
    FirstLedHome(s, m.plan.followers, low, rest, idle);
    var after := HandedOver(m, low, heir).followers;
    if i: nat, f :| LedHome(s, m.plan.followers, [low] + rest, idle, i, f) {
      if i > 0 {
        LedHomeShifts(s, m, low, heir, rest, idle, i - 1, f);
      }
    }
    var fewer := idle - 1;
    if i: nat, f :| LedHome(s, after, rest, fewer, i, f) {
      LedHomeShifts(s, m, low, heir, rest, idle, i, f);
    }
  }

  lemma {:induction false} LeavingAreLow(s: Reports, m: Mission, queue: seq<Drone>)
    ensures forall d :: d in LeavingOf(s, m, queue) ==> d in queue && Low(s, d)
  {
    if queue != [] {
      LeavingAreLow(s, m, queue[1..]);
    }
  }

  lemma LowFirst(s: Reports, m: Mission, queue: seq<Drone>)
    requires InIdOrder(s.fleet) && ValidMission(m, s.fleet) && Queued(m, queue) && queue != [] && Leaving(s, m, queue[0])
    requires Sound(m, s.fleet, Decide(s, m, queue[0])) && IdleOf(s, Busy(m), s.fleet) != []
    ensures var decision := Decide(s, m, queue[0]);
      var after := Apply(m, decision);
      decision.HandOver? &&
      (AnyLedHome(s, m.plan.followers, LeavingOf(s, m, queue), |IdleOf(s, Busy(m), s.fleet)|) <==>
        OrdersLow(s, DecisionActions(s.fleet, m, decision)) ||
        AnyLedHome(s, after.plan.followers, LeavingOf(s, after, queue[1..]), |IdleOf(s, Busy(after), s.fleet)|))
  {
    var d, idle := queue[0], IdleOf(s, Busy(m), s.fleet);
    var decision := Decide(s, m, d);
    var after := Apply(m, decision);
    IdleAfter(s, m, d);
    assert idle[0] in idle;
    HandOverOrdersLow(s, m, d, decision.heir);
    LeavingUnchanged(s, m, after, queue[1..]);
    LeavingAreLow(s, m, queue[1..]);
    LedHomeAfter(s, m, d, decision.heir, LeavingOf(s, m, queue[1..]), |idle|);
  }

  lemma LowDropped(s: Reports, m: Mission, queue: seq<Drone>)
    requires InIdOrder(s.fleet) && ValidMission(m, s.fleet) && Queued(m, queue) && queue != []
    requires Sound(m, s.fleet, Decide(s, m, queue[0])) && IdleOf(s, Busy(m), s.fleet) == []
    ensures var decision := Decide(s, m, queue[0]);
      && !OrdersLow(s, DecisionActions(s.fleet, m, decision))
      && IdleOf(s, Busy(Apply(m, decision)), s.fleet) == []
  {
    IdleAfter(s, m, queue[0]);
  }

  lemma FirstSettled(s: Reports, m: Mission, queue: seq<Drone>)
    requires InIdOrder(s.fleet) && ValidMission(m, s.fleet) && Queued(m, queue) && queue != [] && Leaving(s, m, queue[0])
    requires Sound(m, s.fleet, Decide(s, m, queue[0]))
    ensures var after := Apply(m, Decide(s, m, queue[0]));
      AnyLedHome(s, m.plan.followers, LeavingOf(s, m, queue), |IdleOf(s, Busy(m), s.fleet)|) <==>
        OrdersLow(s, DecisionActions(s.fleet, m, Decide(s, m, queue[0]))) ||
        AnyLedHome(s, after.plan.followers, LeavingOf(s, after, queue[1..]), |IdleOf(s, Busy(after), s.fleet)|)
  {
    if IdleOf(s, Busy(m), s.fleet) != [] {
      LowFirst(s, m, queue);
    } else {
      LowDropped(s, m, queue);
    }
  }

  lemma {:induction false} SettlingOrdersLow(s: Reports, m: Mission, queue: seq<Drone>)
    requires InIdOrder(s.fleet) && ValidMission(m, s.fleet) && Queued(m, queue)
    ensures OrdersLow(s, Settle(s, m, queue).actions) <==>
            AnyLedHome(s, m.plan.followers, LeavingOf(s, m, queue), |IdleOf(s, Busy(m), s.fleet)|)
    decreases |queue|
  {
    if queue != [] {
      if Leaving(s, m, queue[0]) {
        NextQueued(s, m, queue);
        FirstSettled(s, m, queue);
        var after := Apply(m, Decide(s, m, queue[0]));
        SettlingOrdersLow(s, after, queue[1..]);
        OrdersLowBoth(s, DecisionActions(s.fleet, m, Decide(s, m, queue[0])), Settle(s, after, queue[1..]).actions);
      } else {
        SettlingOrdersLow(s, m, queue[1..]);
        assert LeavingOf(s, m, queue) == LeavingOf(s, m, queue[1..]);
      }
    }
  }

  // ----- every step -----

  lemma OrdersForPlan(s: Reports, fleet: seq<Drone>, plan: Plan)
    requires forall d :: d in plan.Drones() ==> !Low(s, d)
    ensures !OrdersLow(s, Orders(fleet, plan))
  {
    var paths, slots := Pick(fleet, plan.paths.Keys), Pick(fleet, plan.followers.Keys);
    SlotsLow(s, plan.id, plan.followers, slots);
    OrdersLowBoth(s, PathOrders(plan, paths), SlotOrders(plan.id, plan.followers, slots));
    assert forall d :: d in paths || d in slots ==> d in plan.Drones();
  }

  /** A new mission gives no low drone a task. */
  lemma RequestOrdersNoLow(s: State, message: MissionMessage, planned: Planned)
    requires Valid(s)
    ensures !OrdersLow(s.reports, Start(s, message, planned).1)
  {
    if |Eligible(s.reports, s.reports.fleet)| >= message.droneCount && PlanFor(s.reports, message, planned).Some? {
      PlanIsValid(s.reports, message, planned);
      var plan := PlanFor(s.reports, message, planned).value;
      var superseded := Pick(s.reports.fleet, Members(MissionDrones(s)) - plan.Drones());
      var recall, orders := Recall(superseded, Rtl), Orders(s.reports.fleet, plan);
      var last := [ActiveMission(Some(plan.id), MissionDrones(Began(s, plan).0))];
      OrdersForPlan(s.reports, s.reports.fleet, plan);
      OrdersLowBoth(s.reports, recall, orders);
      OrdersLowBoth(s.reports, recall + orders, last);
    }
  }

  lemma TickOrdersLow(s: State)
    requires Valid(s) && s.mission.Some?
    ensures OrdersLow(s.reports, Reallocate(s).1) <==>
      AnyLedHome(s.reports, s.mission.value.plan.followers, LeavingOf(s.reports, s.mission.value, MissionDrones(s)),
                 |IdleOf(s.reports, Busy(s.mission.value), s.reports.fleet)|)
  {
    var m := s.mission.value;
    MissionDronesQueued(s);
    SettlingOrdersLow(s.reports, m, MissionDrones(s));
    var r := Settle(s.reports, m, MissionDrones(s));
    if r.actions != [] {
      OrdersLowBoth(s.reports, r.actions, [ActiveMission(Some(r.mission.plan.id), MissionDrones(Reallocate(s).0))]);
    }
  }

  /** When exactly a low drone is given a task: on a periodic decision, when it follows the i-th drone to leave, there
      is an i-th drone to take over from that one, and it is not among those who left before. */
  lemma LowDroneOrdered(s: State, e: Runs.Event)
    requires Valid(s)
    ensures OrdersLow(s.reports, Runs.Step(s, e).1) <==>
      && e.Tick? && s.mission.Some?
      && AnyLedHome(s.reports, s.mission.value.plan.followers,
                    LeavingOf(s.reports, s.mission.value, MissionDrones(s)),
                    |IdleOf(s.reports, Busy(s.mission.value), s.reports.fleet)|)
  {
    match e
    case BatteryReport(d, pct) =>
    case ProgressReport(d, mission, index, complete) =>
    case MissionRequest(message, planned) => RequestOrdersNoLow(s, message, planned);
    case CommandRequest(command) => OrdersLowBoth(s.reports, Recall(s.reports.fleet, command), [ActiveMission(None, [])]);
    case Tick =>
      if s.mission.Some? {
        TickOrdersLow(s);
      }
  }

  // ----- and it happens -----

  lemma {:induction false} NobodyLow(s: Reports, fleet: seq<Drone>)
    requires forall d :: d in fleet ==> !Low(s, d)
    ensures Eligible(s, fleet) == fleet
  {
    if fleet != [] {
      NobodyLow(s, fleet[1..]);
    }
  }

  lemma Requested(s: State, message: MissionMessage, plan: Plan)
    requires Valid(s) && s.reports.fleet == [1, 2, 3] && forall d :: d in s.reports.fleet ==> !Low(s.reports, d)
    requires message.droneCount == 2 && plan.id == message.id
    requires plan.paths == map[1 := [ORIGIN]] && plan.followers == map[2 := Slot(1, ORIGIN)]
    ensures Start(s, message, Returned(plan)).0 == s.(mission := Some(Mission(plan, map[], {}, {})))
  {
    NobodyLow(s.reports, s.reports.fleet);
    TwoOfThree(message, plan);
    Taken(s, message, plan, s.reports.fleet);
  }

  lemma Taken(s: State, message: MissionMessage, plan: Plan, offered: seq<Drone>)
    requires InIdOrder(s.reports.fleet) && offered == Eligible(s.reports, s.reports.fleet)
    requires |offered| >= message.droneCount && Unusable(plan, message, offered).None?
    ensures Start(s, message, Returned(plan)).0 == s.(mission := Some(Mission(plan, map[], {}, {})))
  {
  }

  lemma TwoOfThree(message: MissionMessage, plan: Plan)
    requires message.droneCount == 2 && plan.id == message.id
    requires plan.paths == map[1 := [ORIGIN]] && plan.followers == map[2 := Slot(1, ORIGIN)]
    ensures Unusable(plan, message, [1, 2, 3]).None?
  {
    assert plan.paths.Keys == {1} && plan.followers.Keys == {2} && plan.Drones() == {1, 2};
    assert plan.paths[1] == [ORIGIN] && plan.followers[2].leader == 1;
  }

  lemma ReportedIn(h: Runs.History, d: Drone, pct: real)
    requires Valid(h.state) && d in h.state.reports.fleet
    ensures d in h.state.reports.battery && Valid(Runs.Next(h, Runs.BatteryReport(d, Some(pct))).state)
    ensures Runs.Next(h, Runs.BatteryReport(d, Some(pct))).state ==
            h.state.(reports := h.state.reports.(battery := h.state.reports.battery[d := Some(pct)]))
  {
    assert d in Members(h.state.reports.fleet);
    Runs.StepKeepsValid(h.state, Runs.BatteryReport(d, Some(pct)));
  }

  lemma OneStep(h: Runs.History, e: Runs.Event, rest: seq<Runs.Event>)
    requires Valid(h.state) && Valid(Runs.Next(h, e).state)
    ensures Runs.Run(h, [e] + rest) == Runs.Run(Runs.Next(h, e), rest)
  {
    assert ([e] + rest)[1..] == rest;
  }

  /** The leader and its follower are low, a third drone is idle and charged: the leader goes first. */
  lemma LeaderThenFollower(s: State)
    requires Valid(s) && s.reports.fleet == [1, 2, 3] && s.mission.Some?
    requires Low(s.reports, 1) && Low(s.reports, 2) && Charged(s.reports, 3)
    requires s.mission.value.plan.paths == map[1 := [ORIGIN]] && s.mission.value.plan.followers == map[2 := Slot(1, ORIGIN)]
    requires s.mission.value.progress == map[] && s.mission.value.retired == {} == s.mission.value.dropped
    ensures OrdersLow(s.reports, Runs.Step(s, Runs.Tick).1)
  {
    var m := s.mission.value;
    var drones, idle := MissionDrones(s), IdleOf(s.reports, Busy(m), s.reports.fleet);
    MissionDronesQueued(s);
    assert m.plan.Drones() == {1, 2};
    assert drones[0] == 1 && Leaving(s.reports, m, 1);
    assert 3 in idle;
    var leaving := LeavingOf(s.reports, m, drones);
    assert leaving[0] == 1;
    assert LedHome(s.reports, m.plan.followers, leaving, |idle|, 0, 2);
    LowDroneOrdered(s, Runs.Tick);
  }

  /** A run from a fresh supervisor after which the periodic decision gives a low drone a task. */
  lemma LowDroneIsOrdered(h: Runs.History, id: MissionId) returns (events: seq<Runs.Event>)
    requires Runs.Fresh(h) && h.state.reports.fleet == [1, 2, 3]
    requires forall d :: d in h.state.reports.fleet ==> !Low(h.state.reports, d)
    ensures Valid(Runs.Run(h, events).state)
    ensures OrdersLow(Runs.Run(h, events).state.reports, Runs.Step(Runs.Run(h, events).state, Runs.Tick).1)
  {
    var plan := Plan(id, map[1 := [ORIGIN]], map[2 := Slot(1, ORIGIN)]);
    var message := MissionMessage(id, Missions.LeaderFollowerFormation, Missions.Line, [ORIGIN], 2, 1.0);
    var t := h.state.reports.threshold;
    var request, first := Runs.MissionRequest(message, Returned(plan)), Runs.BatteryReport(1, Some(t - 1.0));
    var second, third := Runs.BatteryReport(2, Some(t - 1.0)), Runs.BatteryReport(3, Some(t));
    Requested(h.state, message, plan);
    Runs.StepKeepsValid(h.state, request);
    var begun := Runs.Next(h, request);
    ReportedIn(begun, 1, t - 1.0);
    ReportedIn(Runs.Next(begun, first), 2, t - 1.0);
    ReportedIn(Runs.Next(Runs.Next(begun, first), second), 3, t);
    events := [request] + ([first] + ([second] + ([third] + [])));
    OneStep(h, request, [first] + ([second] + ([third] + [])));
    OneStep(begun, first, [second] + ([third] + []));
    OneStep(Runs.Next(begun, first), second, [third] + []);
    OneStep(Runs.Next(Runs.Next(begun, first), second), third, []);
    LeaderThenFollower(Runs.Next(Runs.Next(Runs.Next(begun, first), second), third).state);
  }
}
