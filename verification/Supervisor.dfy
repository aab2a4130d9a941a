/** The supervisor itself (supervisor.py): an object that keeps reports and a plan, and edits the plan
    in place. Every method is proved to do what Supervision.dfy and Reallocation.dfy say. */
module Supervisor {

  import opened Wrappers
  import opened Geometry
  import opened Fleet
  import opened Lists
  import opened Planning
  import opened Supervision
  import opened Reallocation

  /** `sorted(drones, key=_id_order)`. */
  function InsertId(sorted: seq<Drone>, d: Drone): (r: seq<Drone>)
    ensures Members(r) == Members(sorted) + {d}
  {
    if sorted == [] || d < sorted[0] then [d] + sorted else [sorted[0]] + InsertId(sorted[1..], d)
  }

  lemma {:induction false} InsertIdInOrder(sorted: seq<Drone>, d: Drone)
    requires InIdOrder(sorted) && d !in sorted
    ensures InIdOrder(InsertId(sorted, d))
    ensures InsertId(sorted, d)[0] == d || (sorted != [] && InsertId(sorted, d)[0] == sorted[0])
  {
    if sorted == [] || d < sorted[0] {
      SmallestFirst(d, sorted);
    } else {
      assert d != sorted[0] && d !in sorted[1..];
      InsertIdInOrder(sorted[1..], d);
      SmallestFirst(sorted[0], InsertId(sorted[1..], d));
    }
  }

  lemma SmallestFirst(d: Drone, sorted: seq<Drone>)
    requires InIdOrder(sorted) && (sorted != [] ==> d < sorted[0])
    ensures InIdOrder([d] + sorted)
  {
    assert ([d] + sorted)[1..] == sorted;
    if sorted != [] {
      assert sorted == [sorted[0]] + sorted[1..];
    }
  }

  function IdOrder(drones: seq<Drone>): (r: seq<Drone>)
    ensures Members(r) == Members(drones)
  {
    if drones == [] then [] else InsertId(IdOrder(drones[1..]), drones[0])
  }

  lemma {:induction false} IdOrderInOrder(drones: seq<Drone>)
    requires Distinct(drones)
    ensures InIdOrder(IdOrder(drones))
  {
    if drones != [] {
      IdOrderInOrder(drones[1..]);
      assert drones[0] !in Members(drones[1..]);
      assert drones[0] !in Members(IdOrder(drones[1..]));
      InsertIdInOrder(IdOrder(drones[1..]), drones[0]);
    }
  }

  function Unreported(drones: seq<Drone>): (battery: map<Drone, Option<real>>)
    ensures battery.Keys == Members(drones)
    ensures forall d :: d in battery ==> battery[d] == None
  {
    map d | d in drones :: None
  }

  lemma {:induction false} PickOfPick(fleet: seq<Drone>, some: set<Drone>, fewer: set<Drone>)
    requires fewer <= some
    ensures Pick(Pick(fleet, some), fewer) == Pick(fleet, fewer)
  {
    if fleet != [] {
      PickOfPick(fleet[1..], some, fewer);
    }
  }

  /** Part of the way through the mission's drones: what is left to look at settles to the same end. */
  ghost predicate Remaining(s: Reports, end: Settled, m: Mission, rest: seq<Drone>, actions: seq<Action>) {
    && ValidMission(m, s.fleet) && Queued(m, rest)
    && Settle(s, m, rest).mission == end.mission
    && actions + Settle(s, m, rest).actions == end.actions
  }

  lemma SkippedRemains(s: Reports, end: Settled, m: Mission, rest: seq<Drone>, actions: seq<Action>)
    requires Remaining(s, end, m, rest, actions) && rest != [] && !Leaving(s, m, rest[0])
    ensures Remaining(s, end, m, rest[1..], actions)
  {
  }

  lemma SentHomeRemains(s: Reports, end: Settled, m: Mission, rest: seq<Drone>, actions: seq<Action>)
    requires Remaining(s, end, m, rest, actions) && rest != [] && Leaving(s, m, rest[0])
    ensures Sound(m, s.fleet, Decide(s, m, rest[0]))
    ensures Remaining(s, end, Apply(m, Decide(s, m, rest[0])), rest[1..],
                      actions + DecisionActions(s.fleet, m, Decide(s, m, rest[0])))
  {
    NextQueued(s, m, rest);
    var decision := Decide(s, m, rest[0]);
    Joined(actions, DecisionActions(s.fleet, m, decision), Settle(s, Apply(m, decision), rest[1..]).actions);
  }

  lemma Joined(a: seq<Action>, b: seq<Action>, c: seq<Action>)
    ensures (a + b) + c == a + (b + c)
  {
  }

  lemma NothingRemains(s: State, queue: seq<Drone>, m: Mission, actions: seq<Action>)
    requires Valid(s) && s.mission.Some? && queue == MissionDrones(s) && Queued(s.mission.value, queue)
    requires Remaining(s.reports, Settle(s.reports, s.mission.value, queue), m, [], actions)
    ensures Reallocation.Reallocate(s) ==
      (s.(mission := Some(m)),
       if actions == [] then []
       else actions + [ActiveMission(Some(m.plan.id), Pick(s.reports.fleet, m.plan.Drones()))])
  {
    assert actions + [] == actions;
  }

  ghost predicate OrdersRemaining(id: MissionId, followers: map<Drone, Slot>, some: set<Drone>, order: seq<Drone>,
                                  rest: seq<Drone>, actions: seq<Action>)
    requires some <= followers.Keys
  {
    actions + SlotOrders(id, followers, Pick(rest, some)) == SlotOrders(id, followers, Pick(order, some))
  }

  lemma NextOrderRemains(id: MissionId, followers: map<Drone, Slot>, some: set<Drone>, order: seq<Drone>,
                         rest: seq<Drone>, actions: seq<Action>)
    requires some <= followers.Keys && rest != []
    requires OrdersRemaining(id, followers, some, order, rest, actions)
    ensures rest[0] in some ==>
      OrdersRemaining(id, followers, some, order, rest[1..], actions + [TakeSlot(rest[0], id, followers[rest[0]])])
    ensures rest[0] !in some ==> OrdersRemaining(id, followers, some, order, rest[1..], actions)
  {
    if rest[0] in some {
      Joined(actions, [TakeSlot(rest[0], id, followers[rest[0]])], SlotOrders(id, followers, Pick(rest[1..], some)));
    }
  }

  class MissionSupervisor {
    const drones: seq<Drone>
    const threshold: real
    var battery: map<Drone, Option<real>>
    var positions: map<Drone, Vec>
    var mission: Option<Mission>

    ghost function View(): State
      reads this
    {
      State(Known(), mission)
    }

    ghost function Known(): Reports
      reads this`battery
    {
      Reports(drones, threshold, battery)
    }

    ghost predicate Consistent()
      reads this
    {
      Valid(View())
    }

    constructor (fleet: seq<Drone>, thresholdPct: real)
      requires Distinct(fleet)
      ensures Consistent() && mission == None && positions == map[]
      ensures Members(drones) == Members(fleet) && threshold == thresholdPct
      ensures forall d :: d in battery ==> battery[d] == None
    {
      var order := IdOrder(fleet);
      IdOrderInOrder(fleet);
      drones := order;
      threshold := thresholdPct;
      battery := Unreported(order);
      positions := map[];
      mission := None;
    }

    method ObserveBattery(d: Drone, pct: Option<real>)
      requires Consistent()
      modifies this`battery
      ensures Consistent()
      ensures View() == Supervision.ObserveBattery(old(View()), d, pct)
    {
      if d in battery {
        battery := battery[d := pct];
      }
    }

    method ObservePosition(d: Drone, position: Option<Vec>)
      modifies this`positions
      ensures positions == if position.Some? && d in battery then old(positions)[d := position.value] else old(positions)
    {
      if position.Some? && d in battery {
        positions := positions[d := position.value];
      }
    }

    method ObserveProgress(d: Drone, missionId: Option<MissionId>, index: Option<nat>, complete: bool)
      requires Consistent()
      modifies this`mission
      ensures Consistent()
      ensures View() == Supervision.ObserveProgress(old(View()), d, missionId, index, complete)
    {
      if mission.None? || missionId != Some(mission.value.plan.id) {
        return;
      }
      mission := Some(mission.value.(progress := mission.value.progress[d := Progress(index, complete)]));
    }

    /** Where the drones fit to fly that have reported a position are: what a planner is shown. */
    method Offered() returns (eligible: seq<Drone>, known: map<Drone, Vec>)
      ensures eligible == Eligible(Known(), drones)
      ensures forall d :: d in known <==> d in eligible && d in positions
      ensures forall d :: d in known ==> known[d] == positions[d]
    {
      eligible := [];
      var i := |drones|;
      while i > 0
        invariant 0 <= i <= |drones|
        invariant eligible == Eligible(Known(), drones[i..])
      {
        i := i - 1;
        if !(drones[i] in battery && battery[drones[i]].Some? && battery[drones[i]].value < threshold) {
          eligible := [drones[i]] + eligible;
        }
      }
      known := map d | d in eligible && d in positions :: positions[d];
    }

    /** `planned` is what the planner answered for the drones offered. */
    method Start(message: MissionMessage, planned: Planned) returns (actions: seq<Action>)
      requires Consistent()
      modifies this`mission
      ensures Consistent()
      ensures (View(), actions) == Supervision.Start(old(View()), message, planned)
    {
      var eligible, known := Offered();
      if |eligible| < message.droneCount {
        return [Rejected(message.id)];
      }
      var plan: Option<Plan> := None;
      match planned {
        case NoPlanner =>
          if message.droneCount >= 0 {
            NamesDistinct(Known(), message.droneCount);
            plan := MakePlan(message, eligible[..message.droneCount]);
          }
        case PlannerFailed =>
        case NotAPlan =>
        case Returned(answer) =>
          var problem := Unusable(answer, message, eligible);
          if problem.None? {
            plan := Some(answer);
          }
      }
      if plan.None? {
        return if planned.NoPlanner? then [] else [Rejected(message.id)];
      }
      PlanIsValid(Known(), message, planned);
      actions := Begin(plan.value);
    }

    /** Takes on a plan, and recalls the drones of the mission it supersedes that it does not use. */
    method Begin(plan: Plan) returns (actions: seq<Action>)
      modifies this`mission
      ensures (View(), actions) == Began(old(View()), plan)
    {
      var superseded := if mission.None? then [] else Pick(drones, mission.value.plan.Drones());
      mission := Some(Mission(plan, map[], {}, {}));
      actions := Recall(Pick(drones, Members(superseded) - plan.Drones()), Rtl);
      actions := actions + Orders(drones, plan);
      actions := actions + [ActiveMission(Some(plan.id), Pick(drones, plan.Drones()))];
    }

    method Command(command: Supervision.Command) returns (actions: seq<Action>)
      requires Consistent()
      modifies this`mission
      ensures Consistent()
      ensures (View(), actions) == CommandAll(old(View()), command)
    {
      mission := None;
      actions := Recall(drones, command) + [ActiveMission(None, [])];
    }

    /** Hands each low drone's unfinished task to an idle drone, and sends the low drone home. */
    method Reallocate() returns (actions: seq<Action>)
      requires Consistent()
      modifies this`mission
      ensures Consistent()
      ensures (View(), actions) == Reallocation.Reallocate(old(View()))
    {
      actions := [];
      if mission.None? {
        return;
      }
      ghost var was, s := View(), Known();
      MissionDronesQueued(was);
      var queue := Pick(drones, mission.value.plan.Drones());
      ghost var end := Settle(s, mission.value, queue);
      var i := 0;
      while i < |queue|
        invariant 0 <= i <= |queue| && mission.Some?
        invariant Remaining(s, end, mission.value, queue[i..], actions)
      {
        ghost var rest := queue[i..];
        assert rest[0] == queue[i] && rest[1..] == queue[i + 1..];
        actions := Consider(queue[i], actions, s, end, rest);
        i := i + 1;
      }
      assert queue[i..] == [];
      NothingRemains(was, queue, mission.value, actions);
      if actions != [] {
        actions := actions + [ActiveMission(Some(mission.value.plan.id), Pick(drones, mission.value.plan.Drones()))];
      }
    }

    /** One drone's turn: it stays, or it is sent home. */
    method Consider(d: Drone, before: seq<Action>, ghost s: Reports, ghost end: Settled, ghost rest: seq<Drone>)
      returns (actions: seq<Action>)
      requires mission.Some? && s == Known()
      requires Remaining(s, end, mission.value, rest, before) && rest != [] && rest[0] == d
      modifies this`mission
      ensures mission.Some? && Remaining(s, end, mission.value, rest[1..], actions)
    {
      if IsLeaving(d) {
        SentHomeRemains(s, end, mission.value, rest, before);
        var more := SendHome(d);
        return before + more;
      }
      SkippedRemains(s, end, mission.value, rest, before);
      return before;
    }

    /** Sends one low drone home, its task to the first idle drone if there is one. */
    method SendHome(d: Drone) returns (actions: seq<Action>)
      requires mission.Some? && ValidMission(mission.value, drones) && d in mission.value.plan.Drones()
      modifies this`mission
      ensures mission == Some(Apply(old(mission).value, Decide(old(Known()), old(mission).value, d)))
      ensures actions == DecisionActions(drones, old(mission).value, Decide(old(Known()), old(mission).value, d))
    {
      var replacement := FindReplacement();
      actions := [Send(d, Rtl)];
      if replacement.None? {
        mission := Some(mission.value.(dropped := mission.value.dropped + {d}));
        actions := actions + [TaskDropped(d, mission.value.plan.id)];
      } else {
        mission := Some(mission.value.(retired := mission.value.retired + {d}));
        var orders := HandOver(d, replacement.value);
        actions := actions + orders;
      }
    }

    predicate IsLeaving(d: Drone)
      requires mission.Some?
      reads this
      ensures IsLeaving(d) <==> Leaving(Known(), mission.value, d)
    {
      && d !in mission.value.dropped
      && d in battery && battery[d].Some? && battery[d].value < threshold
      && !(d in mission.value.progress && mission.value.progress[d].complete)
    }

    method FindReplacement() returns (replacement: Option<Drone>)
      requires mission.Some?
      ensures replacement == Replacement(Known(), mission.value, drones)
    {
      var busy := Busy(mission.value);
      for i := 0 to |drones|
        invariant Replacement(Known(), mission.value, drones) == Replacement(Known(), mission.value, drones[i..])
      {
        var d := drones[i];
        if d !in busy && d in battery && battery[d].Some? && battery[d].value >= threshold {
          return Some(d);
        }
      }
      return None;
    }

    method HandOver(low: Drone, heir: Drone) returns (actions: seq<Action>)
      requires mission.Some? && Flyable(mission.value.plan) && low in mission.value.plan.Drones()
      requires heir !in mission.value.plan.Drones() && mission.value.plan.Drones() <= Members(drones)
      modifies this`mission
      ensures mission == Some(old(mission).value.(plan := HandedOver(old(mission).value, low, heir)))
      ensures actions == HandOverOrders(drones, old(mission).value, low, heir)
    {
      var m := mission.value;
      if low in m.plan.paths {
        var path := m.plan.paths[low];
        var start := if low in m.progress && m.progress[low].index.Some? then m.progress[low].index.value else 0;
        var remaining := path[if start < |path| - 1 then start else |path| - 1..];
        var paths := (m.plan.paths - {low})[heir := remaining];
        var followers, orders := Redirect(m.plan.id, m.plan.followers, low, heir);
        mission := Some(m.(plan := m.plan.(paths := paths, followers := followers)));
        actions := [Assign(heir, m.plan.id, remaining)] + orders;
      } else {
        var slot := m.plan.followers[low];
        mission := Some(m.(plan := m.plan.(followers := (m.plan.followers - {low})[heir := slot])));
        actions := [TakeSlot(heir, m.plan.id, slot)];
      }
    }

    /** The followers of the drone going home follow its replacement instead. */
    method Redirect(id: MissionId, was: map<Drone, Slot>, low: Drone, heir: Drone)
      returns (followers: map<Drone, Slot>, actions: seq<Action>)
      requires was.Keys <= Members(drones)
      ensures followers == Redirected(was, low, heir)
      ensures actions == SlotOrders(id, Redirected(was, low, heir), Pick(drones, FollowersOf(was, low)))
    {
      ghost var after := Redirected(was, low, heir);
      ghost var some := FollowersOf(was, low);
      var order := Pick(drones, was.Keys);
      PickOfPick(drones, was.Keys, some);
      followers, actions := was, [];
      var i := 0;
      while i < |order|
        invariant 0 <= i <= |order|
        invariant followers.Keys == was.Keys
        invariant forall f :: f in followers ==> followers[f] == was[f] || followers[f] == after[f]
        invariant forall k :: 0 <= k < i ==> order[k] in was && followers[order[k]] == after[order[k]]
        invariant OrdersRemaining(id, after, some, order, order[i..], actions)
      {
        var f := order[i];
        assert f in order && f in was;
        assert order[i..][0] == f && order[i..][1..] == order[i + 1..];
        NextOrderRemains(id, after, some, order, order[i..], actions);
        if was[f].leader == low {
          followers := followers[f := Slot(heir, was[f].offset)];
          actions := actions + [TakeSlot(f, id, followers[f])];
        }
        i := i + 1;
      }
      assert order[i..] == [];
      forall f | f in was ensures followers[f] == after[f] {
        assert f in order;
      }
      assert followers == after;
    }
  }
}
