/** Whole runs of the supervisor: what every sequence of reports, requests and decisions keeps. */
module SupervisorRuns {

  import opened Wrappers
  import Geometry
  import opened Fleet
  import opened Lists
  import opened Planning
  import opened Supervision
  import opened Reallocation

  datatype Event =
    | BatteryReport(drone: Drone, pct: Option<real>)
    | ProgressReport(drone: Drone, mission: Option<MissionId>, index: Option<nat>, complete: bool)
    | MissionRequest(message: MissionMessage, planned: Planned)
    | CommandRequest(command: Command)
    | Tick

  ghost function Step(s: State, e: Event): (State, seq<Action>)
    requires Valid(s)
  {
    match e
    case BatteryReport(d, pct) => (ObserveBattery(s, d, pct), [])
    case ProgressReport(d, mission, index, complete) => (ObserveProgress(s, d, mission, index, complete), [])
    case MissionRequest(message, planned) => Start(s, message, planned)
    case CommandRequest(command) => CommandAll(s, command)
    case Tick => Reallocate(s)
  }

  lemma BeganIsValid(s: State, message: MissionMessage, planned: Planned)
    requires Valid(s)
    ensures Valid(Start(s, message, planned).0)
  {
    if |Eligible(s.reports, s.reports.fleet)| >= message.droneCount {
      PlanIsValid(s.reports, message, planned);
    }
  }

  lemma BatteryKeepsValid(s: State, d: Drone, pct: Option<real>)
    requires Valid(s)
    ensures Valid(ObserveBattery(s, d, pct))
  {
    if d in s.reports.battery {
      assert s.reports.battery[d := pct].Keys == s.reports.battery.Keys;
    }
  }

  lemma StepKeepsValid(s: State, e: Event)
    requires Valid(s)
    ensures Valid(Step(s, e).0)
    ensures Step(s, e).0.reports.fleet == s.reports.fleet
  {
    match e
    case BatteryReport(d, pct) => BatteryKeepsValid(s, d, pct);
    case ProgressReport(d, mission, index, complete) =>
    case MissionRequest(message, planned) => BeganIsValid(s, message, planned);
    case CommandRequest(command) =>
    case Tick => ReallocateKeepsValid(s);
  }

  // ----- the last order each drone was given -----

  datatype Order = FlyPath(mission: MissionId, waypoints: seq<Geometry.Vec>) | HoldSlot(mission: MissionId, slot: Slot)
                 | Obey(command: Command)

  function TellOne(told: map<Drone, Order>, action: Action): map<Drone, Order> {
    match action
    case Assign(d, mission, waypoints) => told[d := FlyPath(mission, waypoints)]
    case TakeSlot(d, mission, slot) => told[d := HoldSlot(mission, slot)]
    case Send(d, command) => told[d := Obey(command)]
    case _ => told
  }

  function Tell(told: map<Drone, Order>, actions: seq<Action>): map<Drone, Order>
    decreases |actions|
  {
    if actions == [] then told else Tell(TellOne(told, actions[0]), actions[1..])
  }

  /** A drone's part in a plan, as the order that gives it. */
  function Part(plan: Plan, d: Drone): Order
    requires d in plan.Drones()
  {
    if d in plan.paths then FlyPath(plan.id, plan.paths[d]) else HoldSlot(plan.id, plan.followers[d])
  }

  /** The orders agree with the plan: nobody was last told to do anything that is not its part in the
      current plan, and everybody with a part, unless dropped, was last told exactly that. */
  ghost predicate Agree(m: Mission, told: map<Drone, Order>) {
    && (forall d :: d in told && !told[d].Obey? ==> d in m.plan.Drones() && told[d] == Part(m.plan, d))
    && (forall d :: d in m.plan.Drones() && d !in m.dropped ==> d in told && told[d] == Part(m.plan, d))
  }

  ghost predicate OrdersAgree(s: State, told: map<Drone, Order>) {
    if s.mission.Some? then Agree(s.mission.value, told) else forall d :: d in told ==> told[d].Obey?
  }

  lemma {:induction false} TellBoth(told: map<Drone, Order>, a: seq<Action>, b: seq<Action>)
    ensures Tell(told, a + b) == Tell(Tell(told, a), b)
    decreases |a|
  {
    if a == [] {
      assert a + b == b;
    } else {
      assert (a + b)[1..] == a[1..] + b;
      TellBoth(TellOne(told, a[0]), a[1..], b);
    }
  }

  ghost predicate Told(before: map<Drone, Order>, after: map<Drone, Order>, drones: set<Drone>) {
    && after.Keys == before.Keys + drones
    && forall d :: d in before && d !in drones ==> after[d] == before[d]
  }

  lemma {:induction false} TellRecall(told: map<Drone, Order>, drones: seq<Drone>, command: Command)
    ensures Told(told, Tell(told, Recall(drones, command)), Members(drones))
    ensures forall d :: d in drones ==> Tell(told, Recall(drones, command))[d] == Obey(command)
    decreases |drones|
  {
    if drones != [] {
      TellRecall(TellOne(told, Send(drones[0], command)), drones[1..], command);
    }
  }

  lemma {:induction false} TellPaths(told: map<Drone, Order>, plan: Plan, drones: seq<Drone>)
    requires forall d :: d in drones ==> d in plan.paths
    ensures Told(told, Tell(told, PathOrders(plan, drones)), Members(drones))
    ensures forall d :: d in drones ==> Tell(told, PathOrders(plan, drones))[d] == FlyPath(plan.id, plan.paths[d])
    decreases |drones|
  {
    if drones != [] {
      TellPaths(TellOne(told, Assign(drones[0], plan.id, plan.paths[drones[0]])), plan, drones[1..]);
    }
  }

  lemma {:induction false} TellSlots(told: map<Drone, Order>, id: MissionId, followers: map<Drone, Slot>,
                                     drones: seq<Drone>)
    requires forall d :: d in drones ==> d in followers
    ensures Told(told, Tell(told, SlotOrders(id, followers, drones)), Members(drones))
    ensures forall d :: d in drones ==> Tell(told, SlotOrders(id, followers, drones))[d] == HoldSlot(id, followers[d])
    decreases |drones|
  {
    if drones != [] {
      TellSlots(TellOne(told, TakeSlot(drones[0], id, followers[drones[0]])), id, followers, drones[1..]);
    }
  }

  // ----- each decision keeps the orders agreeing with the plan -----

  lemma TellHandOver(told: map<Drone, Order>, fleet: seq<Drone>, m: Mission, low: Drone, heir: Drone)
    requires ValidMission(m, fleet) && low in m.plan.paths && heir !in m.plan.Drones()
    ensures var after, now := HandedOver(m, low, heir), Tell(told, HandOverOrders(fleet, m, low, heir));
      && Told(told, now, {heir} + FollowersOf(m.plan.followers, low))
      && now[heir] == FlyPath(after.id, after.paths[heir])
      && forall f :: f in FollowersOf(m.plan.followers, low) ==> now[f] == HoldSlot(after.id, after.followers[f])
  {
    var after := HandedOver(m, low, heir);
    var followers := Pick(fleet, FollowersOf(m.plan.followers, low));
    var first := Assign(heir, after.id, after.paths[heir]);
    TellBoth(told, [first], SlotOrders(after.id, after.followers, followers));
    assert Tell(told, [first]) == TellOne(told, first);
    TellSlots(TellOne(told, first), after.id, after.followers, followers);
    forall f | f in FollowersOf(m.plan.followers, low) ensures f in followers && f in Members(followers) {
      assert f in Members(fleet);
    }
    assert Members(followers) == FollowersOf(m.plan.followers, low);
  }

  lemma AgreeAfterPath(told: map<Drone, Order>, now: map<Drone, Order>, m: Mission, after: Plan, low: Drone,
                       heir: Drone)
    requires Flyable(m.plan) && low in m.plan.paths && heir !in m.plan.Drones()
    requires Agree(m, told) && after == HandedOver(m, low, heir)
    requires Told(told[low := Obey(Rtl)], now, {heir} + FollowersOf(m.plan.followers, low))
    requires now[heir] == FlyPath(after.id, after.paths[heir])
    requires forall f :: f in FollowersOf(m.plan.followers, low) ==> now[f] == HoldSlot(after.id, after.followers[f])
    ensures Agree(m.(plan := after, retired := m.retired + {low}), now)
  {
    HandedOverDrones(m, low, heir);
    var n := m.(plan := after, retired := m.retired + {low});
    forall d | d in now && !now[d].Obey? ensures d in after.Drones() && now[d] == Part(after, d) {
      if d != heir && d !in FollowersOf(m.plan.followers, low) {
        assert d in told && d != low && now[d] == told[d];
      }
    }
    forall d | d in after.Drones() && d !in m.dropped ensures d in now && now[d] == Part(after, d) {
      if d != heir && d !in FollowersOf(m.plan.followers, low) {
        assert d in m.plan.Drones() && d != low;
      }
    }
  }

  lemma AgreeAfterSlot(told: map<Drone, Order>, m: Mission, after: Plan, low: Drone, heir: Drone)
    requires Flyable(m.plan) && low in m.plan.followers && heir !in m.plan.Drones()
    requires Agree(m, told) && after == HandedOver(m, low, heir)
    ensures Agree(m.(plan := after, retired := m.retired + {low}),
                  told[low := Obey(Rtl)][heir := HoldSlot(after.id, after.followers[heir])])
  {
    HandedOverDrones(m, low, heir);
    var now := told[low := Obey(Rtl)][heir := HoldSlot(after.id, after.followers[heir])];
    forall d | d in now && !now[d].Obey? ensures d in after.Drones() && now[d] == Part(after, d) {
      if d != heir {
        assert d in told && d != low && told[d] == Part(m.plan, d);
      }
    }
    forall d | d in after.Drones() && d !in m.dropped ensures d in now && now[d] == Part(after, d) {
      if d != heir {
        assert d in m.plan.Drones() && d != low;
      }
    }
  }

  lemma AgreeAfterDecision(told: map<Drone, Order>, fleet: seq<Drone>, m: Mission, decision: Decision)
    requires ValidMission(m, fleet) && Sound(m, fleet, decision) && Agree(m, told)
    ensures Agree(Apply(m, decision), Tell(told, DecisionActions(fleet, m, decision)))
  {
    var low := decision.low;
    var home := Send(low, Rtl);
    assert Tell(told, [home]) == told[low := Obey(Rtl)];
    if decision.HandOver? {
      var heir := decision.heir;
      var orders := HandOverOrders(fleet, m, low, heir);
      TellBoth(told, [home], orders);
      if low in m.plan.paths {
        TellHandOver(told[low := Obey(Rtl)], fleet, m, low, heir);
        AgreeAfterPath(told, Tell(told[low := Obey(Rtl)], orders), m, HandedOver(m, low, heir), low, heir);
      } else {
        AgreeAfterSlot(told, m, HandedOver(m, low, heir), low, heir);
      }
    } else {
      TellBoth(told, [home], [TaskDropped(low, m.plan.id)]);
    }
  }

  lemma {:induction false} AgreeAfterSettling(told: map<Drone, Order>, s: Reports, m: Mission, queue: seq<Drone>)
    requires ValidMission(m, s.fleet) && Queued(m, queue) && Agree(m, told)
    ensures Agree(Settle(s, m, queue).mission, Tell(told, Settle(s, m, queue).actions))
    decreases |queue|
  {
    if queue != [] {
      if Leaving(s, m, queue[0]) {
        NextQueued(s, m, queue);
        var decision := Decide(s, m, queue[0]);
        var actions := DecisionActions(s.fleet, m, decision);
        AgreeAfterDecision(told, s.fleet, m, decision);
        AgreeAfterSettling(Tell(told, actions), s, Apply(m, decision), queue[1..]);
        TellBoth(told, actions, Settle(s, Apply(m, decision), queue[1..]).actions);
      } else {
        AgreeAfterSettling(told, s, m, queue[1..]);
      }
    }
  }

  lemma AgreeAfterReallocate(told: map<Drone, Order>, s: State)
    requires Valid(s) && OrdersAgree(s, told)
    ensures OrdersAgree(Reallocate(s).0, Tell(told, Reallocate(s).1))
  {
    if s.mission.Some? {
      MissionDronesQueued(s);
      AgreeAfterSettling(told, s.reports, s.mission.value, MissionDrones(s));
      var actions := Settle(s.reports, s.mission.value, MissionDrones(s)).actions;
      if actions != [] {
        TellAnnounced(told, actions, Reallocate(s).1);
      }
    }
  }

  lemma TellAnnounced(told: map<Drone, Order>, actions: seq<Action>, announced: seq<Action>)
    requires |announced| == |actions| + 1 && announced[..|actions|] == actions && announced[|actions|].ActiveMission?
    ensures Tell(told, announced) == Tell(told, actions)
  {
    var last := announced[|actions|];
    assert announced == actions + [last];
    TellBoth(told, actions, [last]);
    assert Tell(Tell(told, actions), [last]) == Tell(told, actions);
  }

  /** Giving everybody their part in a plan. */
  lemma TellOrders(told: map<Drone, Order>, fleet: seq<Drone>, plan: Plan)
    requires Flyable(plan) && plan.Drones() <= Members(fleet)
    ensures Told(told, Tell(told, Orders(fleet, plan)), plan.Drones())
    ensures forall d :: d in plan.Drones() ==> Tell(told, Orders(fleet, plan))[d] == Part(plan, d)
  {
    var paths, slots := Pick(fleet, plan.paths.Keys), Pick(fleet, plan.followers.Keys);
    var flying := Tell(told, PathOrders(plan, paths));
    TellPaths(told, plan, paths);
    TellSlots(flying, plan.id, plan.followers, slots);
    PickedAll(fleet, plan.paths.Keys);
    PickedAll(fleet, plan.followers.Keys);
    forall d ensures (d in plan.paths <==> d in paths) && (d in plan.followers <==> d in slots) {
      assert d in Members(paths) <==> d in plan.paths;
      assert d in Members(slots) <==> d in plan.followers;
    }
    TellBoth(told, PathOrders(plan, paths), SlotOrders(plan.id, plan.followers, slots));
    BothParts(told, flying, Tell(told, Orders(fleet, plan)), plan);
  }

  lemma BothParts(told: map<Drone, Order>, flying: map<Drone, Order>, now: map<Drone, Order>, plan: Plan)
    requires Flyable(plan)
    requires Told(told, flying, plan.paths.Keys)
    requires forall d :: d in plan.paths ==> flying[d] == FlyPath(plan.id, plan.paths[d])
    requires Told(flying, now, plan.followers.Keys)
    requires forall d :: d in plan.followers ==> now[d] == HoldSlot(plan.id, plan.followers[d])
    ensures Told(told, now, plan.Drones())
    ensures forall d :: d in plan.Drones() ==> now[d] == Part(plan, d)
  {
  }

  /** What a drone was last told once a new plan has begun. */
  lemma TellBegan(told: map<Drone, Order>, fleet: seq<Drone>, plan: Plan, superseded: seq<Drone>, last: Action)
    requires Flyable(plan) && plan.Drones() <= Members(fleet) && last.ActiveMission?
    requires forall d :: d in superseded ==> d !in plan.Drones()
    ensures var now := Tell(told, Recall(superseded, Rtl) + Orders(fleet, plan) + [last]);
      && now.Keys == told.Keys + Members(superseded) + plan.Drones()
      && (forall d :: d in superseded ==> now[d] == Obey(Rtl))
      && (forall d :: d in plan.Drones() ==> now[d] == Part(plan, d))
      && (forall d :: d in told && d !in superseded && d !in plan.Drones() ==> now[d] == told[d])
  {
    var home := Tell(told, Recall(superseded, Rtl));
    TellRecall(told, superseded, Rtl);
    TellOrders(home, fleet, plan);
    TellBoth(told, Recall(superseded, Rtl), Orders(fleet, plan));
    TellBoth(told, Recall(superseded, Rtl) + Orders(fleet, plan), [last]);
  }

  lemma PickedAll(fleet: seq<Drone>, some: set<Drone>)
    requires some <= Members(fleet)
    ensures Members(Pick(fleet, some)) == some
  {
    forall d | d in some ensures d in Pick(fleet, some) {
      assert d in Members(fleet);
    }
  }

  lemma AgreeAfterBegan(told: map<Drone, Order>, s: State, plan: Plan)
    requires Valid(s) && OrdersAgree(s, told)
    requires ValidMission(Mission(plan, map[], {}, {}), s.reports.fleet)
    ensures OrdersAgree(Began(s, plan).0, Tell(told, Began(s, plan).1))
  {
    var superseded := Pick(s.reports.fleet, Members(MissionDrones(s)) - plan.Drones());
    var last := ActiveMission(Some(plan.id), MissionDrones(Began(s, plan).0));
    TellBegan(told, s.reports.fleet, plan, superseded, last);
    var now := Tell(told, Began(s, plan).1);
    forall d | d in now && d !in plan.Drones() ensures now[d].Obey? {
      if d in told && !told[d].Obey? {
        MissionDronesQueued(s);
        assert d in MissionDrones(s) && d in superseded;
      }
    }
  }

  lemma AgreeAfterCommand(told: map<Drone, Order>, s: State, command: Command)
    requires Valid(s) && OrdersAgree(s, told)
    ensures OrdersAgree(CommandAll(s, command).0, Tell(told, CommandAll(s, command).1))
  {
    TellRecall(told, s.reports.fleet, command);
    TellBoth(told, Recall(s.reports.fleet, command), [ActiveMission(None, [])]);
    var now := Tell(told, Recall(s.reports.fleet, command));
    forall d | d in now ensures now[d].Obey? {
      if d !in s.reports.fleet && s.mission.Some? {
        assert d !in s.mission.value.plan.Drones();
      }
    }
  }

  lemma AgreeAfterStep(told: map<Drone, Order>, s: State, e: Event)
    requires Valid(s) && OrdersAgree(s, told)
    ensures OrdersAgree(Step(s, e).0, Tell(told, Step(s, e).1))
  {
    match e
    case BatteryReport(d, pct) =>
    case ProgressReport(d, mission, index, complete) =>
    case MissionRequest(message, planned) =>
      if |Eligible(s.reports, s.reports.fleet)| >= message.droneCount {
        PlanIsValid(s.reports, message, planned);
        var plan := PlanFor(s.reports, message, planned);
        if plan.Some? {
          AgreeAfterBegan(told, s, plan.value);
        }
      }
    case CommandRequest(command) => AgreeAfterCommand(told, s, command);
    case Tick => AgreeAfterReallocate(told, s);
  }

  // ----- runs -----

  /** Since the active mission began: how many drones it asked for, how many tasks were handed over
      and how many dropped. */
  datatype Counts = Counts(needed: int, handOvers: nat, drops: nat)

  /** A run so far: the state, what everybody was last told, and the counts. */
  datatype History = History(state: State, told: map<Drone, Order>, counts: Counts)

  ghost predicate Accepted(s: State, e: Event)
    requires Valid(s)
  {
    && e.MissionRequest?
    && |Eligible(s.reports, s.reports.fleet)| >= e.message.droneCount
    && PlanFor(s.reports, e.message, e.planned).Some?
  }

  ghost function DecisionsOf(s: State, e: Event): seq<Decision>
    requires Valid(s)
  {
    if e.Tick? && s.mission.Some? then
      MissionDronesQueued(s);
      Settle(s.reports, s.mission.value, MissionDrones(s)).decisions
    else []
  }

  function HandOversIn(decisions: seq<Decision>): nat {
    if decisions == [] then 0 else (if decisions[0].HandOver? then 1 else 0) + HandOversIn(decisions[1..])
  }

  function DropsIn(decisions: seq<Decision>): nat {
    if decisions == [] then 0 else (if decisions[0].Drop? then 1 else 0) + DropsIn(decisions[1..])
  }

  ghost function NextCounts(s: State, counts: Counts, e: Event): Counts
    requires Valid(s)
  {
    if Accepted(s, e) then Counts(e.message.droneCount, 0, 0)
    else
      Counts(counts.needed, counts.handOvers + HandOversIn(DecisionsOf(s, e)), counts.drops + DropsIn(DecisionsOf(s, e)))
  }

  ghost function Next(h: History, e: Event): History
    requires Valid(h.state)
  {
    History(Step(h.state, e).0, Tell(h.told, Step(h.state, e).1), NextCounts(h.state, h.counts, e))
  }

  ghost function Run(h: History, events: seq<Event>): History
    requires Valid(h.state)
    decreases |events|
  {
    if events == [] then h
    else
      StepKeepsValid(h.state, events[0]);
      Run(Next(h, events[0]), events[1..])
  }

  ghost predicate Fresh(h: History) {
    Valid(h.state) && h.state.mission.None? && h.told == map[]
  }

  /** What every run keeps. */
  ghost predicate Kept(h: History) {
    && Valid(h.state)
    && OrdersAgree(h.state, h.told)
    && Counted(h.state.mission, h.counts)
  }

  ghost predicate Counted(mission: Option<Mission>, counts: Counts) {
    mission.Some? ==>
      && |mission.value.plan.Drones()| == counts.needed
      && |mission.value.retired| == counts.handOvers
      && |mission.value.dropped| == counts.drops
  }

  lemma CountDecision(m: Mission, fleet: seq<Drone>, decision: Decision)
    requires ValidMission(m, fleet) && Sound(m, fleet, decision)
    ensures |Apply(m, decision).retired| == |m.retired| + (if decision.HandOver? then 1 else 0)
    ensures |Apply(m, decision).dropped| == |m.dropped| + (if decision.Drop? then 1 else 0)
  {
    assert decision.low !in m.retired;
  }

  lemma {:induction false} CountSettling(s: Reports, m: Mission, queue: seq<Drone>)
    requires ValidMission(m, s.fleet) && Queued(m, queue)
    ensures |Settle(s, m, queue).mission.retired| == |m.retired| + HandOversIn(Settle(s, m, queue).decisions)
    ensures |Settle(s, m, queue).mission.dropped| == |m.dropped| + DropsIn(Settle(s, m, queue).decisions)
    decreases |queue|
  {
    if queue != [] {
      if Leaving(s, m, queue[0]) {
        NextQueued(s, m, queue);
        CountDecision(m, s.fleet, Decide(s, m, queue[0]));
        CountSettling(s, Apply(m, Decide(s, m, queue[0])), queue[1..]);
      } else {
        CountSettling(s, m, queue[1..]);
      }
    }
  }

  lemma CountTick(s: State, counts: Counts)
    requires Valid(s) && Counted(s.mission, counts)
    ensures Counted(Reallocate(s).0.mission, NextCounts(s, counts, Tick))
  {
    if s.mission.Some? {
      MissionDronesQueued(s);
      CountSettling(s.reports, s.mission.value, MissionDrones(s));
    }
  }

  lemma NoDecisions(s: State, counts: Counts, e: Event)
    requires Valid(s) && !Accepted(s, e) && !e.Tick?
    ensures NextCounts(s, counts, e) == counts
  {
  }

  lemma CountAccepted(s: State, e: Event)
    requires Valid(s) && Accepted(s, e)
    ensures var n := Step(s, e).0.mission;
      n.Some? && |n.value.plan.Drones()| == e.message.droneCount && n.value.retired == {} == n.value.dropped
  {
    PlanIsValid(s.reports, e.message, e.planned);
  }

  lemma CountsKept(s: State, counts: Counts, e: Event)
    requires Valid(s) && Counted(s.mission, counts)
    ensures Counted(Step(s, e).0.mission, NextCounts(s, counts, e))
  {
    if Accepted(s, e) {
      CountAccepted(s, e);
    } else if e.Tick? {
      CountTick(s, counts);
    } else {
      NoDecisions(s, counts, e);
    }
  }

  lemma NextKept(h: History, e: Event)
    requires Kept(h)
    ensures Kept(Next(h, e))
  {
    StepKeepsValid(h.state, e);
    AgreeAfterStep(h.told, h.state, e);
    CountsKept(h.state, h.counts, e);
  }

  /** Over every run, whatever the planner answers: the plan stays well-formed and flyable, on exactly
      the number of drones the mission asked for; retired drones stay outside it and dropped ones inside;
      and the last order of every drone agrees with it. */
  lemma {:induction false} EveryRunKeeps(h: History, events: seq<Event>)
    requires Kept(h)
    ensures Kept(Run(h, events))
    decreases |events|
  {
    if events != [] {
      StepKeepsValid(h.state, events[0]);
      NextKept(h, events[0]);
      EveryRunKeeps(Next(h, events[0]), events[1..]);
    }
  }

  lemma RunFromStart(h: History, events: seq<Event>)
    requires Fresh(h)
    ensures Kept(Run(h, events))
  {
    EveryRunKeeps(h, events);
  }

  lemma {:induction false} MembersSize(drones: seq<Drone>)
    requires InIdOrder(drones)
    ensures |Members(drones)| == |drones|
  {
    OrderedDistinct(drones);
    DistinctSize(drones);
  }

  /** Over one mission, hand-overs are at most the spare drones, and drops at most the drones it needs. */
  lemma DecisionsAreBounded(h: History, events: seq<Event>)
    requires Fresh(h)
    ensures var end := Run(h, events); end.state.mission.Some? ==>
      && end.counts.handOvers + end.counts.needed <= |end.state.reports.fleet|
      && end.counts.drops <= end.counts.needed
  {
    RunFromStart(h, events);
    var end := Run(h, events);
    if end.state.mission.Some? {
      var m, fleet := end.state.mission.value, end.state.reports.fleet;
      MembersSize(fleet);
      assert |m.retired + m.plan.Drones()| == |m.retired| + |m.plan.Drones()|;
      FewerMembers(m.retired + m.plan.Drones(), Members(fleet));
      FewerMembers(m.dropped, m.plan.Drones());
    }
  }

  lemma FewerMembers(some: set<Drone>, all: set<Drone>)
    requires some <= all
    ensures |some| <= |all|
  {
    assert all == some + (all - some);
  }

  // ----- who comes in -----

  lemma NewcomerCharged(s: Reports, m: Mission, low: Drone, d: Drone)
    requires ValidMission(m, s.fleet) && Sound(m, s.fleet, Decide(s, m, low))
    requires d in Apply(m, Decide(s, m, low)).plan.Drones()
    ensures d in m.plan.Drones() || Charged(s, d)
  {
    DronesAfter(m, s.fleet, Decide(s, m, low));
  }

  lemma {:induction false} NewcomersCharged(s: Reports, m: Mission, queue: seq<Drone>, d: Drone)
    requires ValidMission(m, s.fleet) && Queued(m, queue)
    ensures d in Settle(s, m, queue).mission.plan.Drones() ==> d in m.plan.Drones() || Charged(s, d)
    decreases |queue|
  {
    if queue != [] {
      if Leaving(s, m, queue[0]) {
        NextQueued(s, m, queue);
        NewcomersCharged(s, Apply(m, Decide(s, m, queue[0])), queue[1..], d);
        if d in Apply(m, Decide(s, m, queue[0])).plan.Drones() {
          NewcomerCharged(s, m, queue[0], d);
        }
      } else {
        NewcomersCharged(s, m, queue[1..], d);
      }
    }
  }

  lemma EntrantNotLow(s: State, e: Event, d: Drone)
    requires Valid(s)
    requires Step(s, e).0.mission.Some? && d in Step(s, e).0.mission.value.plan.Drones()
    requires Accepted(s, e) || s.mission.None? || d !in s.mission.value.plan.Drones()
    ensures !Low(s.reports, d)
    ensures !Accepted(s, e) ==> Charged(s.reports, d)
  {
    if Accepted(s, e) {
      PlanIsValid(s.reports, e.message, e.planned);
    } else {
      assert e.Tick?;
      MissionDronesQueued(s);
      NewcomersCharged(s.reports, s.mission.value, MissionDrones(s), d);
    }
  }

  /** Every drone that enters the plan, with a mission or in place of another, is one of the fleet and fit at that moment:
      its battery is not known to be below the threshold, and known not to be if it takes over from another. */
  lemma EntrantsAreFit(s: State, e: Event, d: Drone)
    requires Valid(s)
    requires Step(s, e).0.mission.Some? && d in Step(s, e).0.mission.value.plan.Drones()
    requires Accepted(s, e) || s.mission.None? || d !in s.mission.value.plan.Drones()
    ensures d in s.reports.battery
    ensures s.reports.battery[d].Some? ==> s.reports.battery[d].value >= s.reports.threshold
    ensures !Accepted(s, e) ==> s.reports.battery[d].Some?
  {
    EntrantNotLow(s, e, d);
    StepKeepsValid(s, e);
    InTheFleet(s.reports, Step(s, e).0.mission.value, d);
  }

  lemma InTheFleet(s: Reports, m: Mission, d: Drone)
    requires ValidMission(m, s.fleet) && s.battery.Keys == Members(s.fleet) && d in m.plan.Drones()
    ensures d in s.battery
  {
  }
}
