/** Where the lanes of a mission stand over whole runs of the supervisor (supervisor.py): each hand-over moves a lane on
    by what its holder last reported, so nothing the ground was told is behind is flown again, but a last waypoint. */
module LaneRuns {

  import opened Wrappers
  import opened Geometry
  import opened Fleet
  import opened Lists
  import opened Planning
  import opened Supervision
  import opened Reallocation
  import opened LaneRecords
  import Runs = SupervisorRuns

  /** The supervisor, and since its mission was accepted: the lanes, and the index each drone last reported for it. */
  datatype Course = Course(state: State, record: Record, told: map<Drone, nat>)

  /** A drone reports about the mission in progress. */
  predicate Tells(s: State, e: Runs.Event) {
    e.ProgressReport? && s.mission.Some? && e.mission == Some(s.mission.value.plan.id)
  }

  ghost function NextRecord(c: Course, e: Runs.Event): Record
    requires Valid(c.state)
  {
    if Runs.Accepted(c.state, e) then FirstRecord(PlanFor(c.state.reports, e.message, e.planned).value)
    else if e.Tick? && c.state.mission.Some? then
      MissionDronesQueued(c.state);
      NotedAll(c.record, c.state.reports, c.state.mission.value, MissionDrones(c.state))
    else c.record
  }

  ghost function Next(c: Course, e: Runs.Event): Course
    requires Valid(c.state)
  {
    Course(Runs.Step(c.state, e).0, NextRecord(c, e),
           if Runs.Accepted(c.state, e) then map[]
           else if Tells(c.state, e) then c.told[e.drone := if e.index.Some? then e.index.value else 0]
           else c.told)
  }

  ghost function Run(c: Course, events: seq<Runs.Event>): Course
    requires Valid(c.state)
    decreases |events|
  {
    if events == [] then c
    else
      Runs.StepKeepsValid(c.state, events[0]);
      Run(Next(c, events[0]), events[1..])
  }

  function Told(c: Course, d: Drone): nat {
    if d in c.told then c.told[d] else 0
  }

  function Holder(lane: Lane): Drone
    requires lane.holders != []
  {
    lane.holders[|lane.holders| - 1]
  }

  /** The last holder of the lane has what is left of its route to fly. */
  ghost predicate Flown(lane: Lane, plan: Plan) {
    && lane.holders != [] && lane.start < |lane.route|
    && Holder(lane) in plan.paths && plan.paths[Holder(lane)] == lane.route[lane.start..]
  }

  /** The lane goes to `heir`, without the `reached` waypoints its holder has behind it; with the last one always. */
  ghost predicate MovedOn(before: Lane, after: Lane, heir: Drone, reached: nat) {
    && after.route == before.route && after.holders == before.holders + [heir]
    && after.start == if before.start + reached < |before.route| then before.start + reached else |before.route| - 1
  }

  // ----- one decision -----

  lemma RestOfRest(route: seq<Vec>, start: nat, behind: nat)
    requires start < |route| && behind < |route| - start
    ensures route[start..][behind..] == route[start + behind..]
  {
  }

  lemma LaneHandedOn(lanes: map<Drone, Lane>, o: Drone, low: Drone, heir: Drone, path: seq<Vec>, reached: nat, behind: nat)
    requires o in lanes && lanes[o].holders != [] && lanes[o].start < |lanes[o].route|
    requires Holder(lanes[o]) == low && path == lanes[o].route[lanes[o].start..]
    requires behind < |path| && behind <= reached && (behind == reached || behind == |path| - 1)
    ensures var after := PassedOn(lanes, low, heir, behind)[o];
      && MovedOn(lanes[o], after, heir, reached) && after.start < |after.route| && Holder(after) == heir
      && path[behind..] == after.route[after.start..]
  {
    RestOfRest(lanes[o].route, lanes[o].start, behind);
  }

  lemma HandedOn(r: Record, m: Mission, low: Drone, heir: Drone, o: Drone)
    requires Flyable(m.plan) && low in m.plan.Drones() && heir !in m.plan.Drones()
    requires o in r.lanes && Flown(r.lanes[o], m.plan)
    ensures var before, after := r.lanes[o], Noted(r, m, HandOver(low, heir)).lanes[o];
      && Flown(after, HandedOver(m, low, heir))
      && if Holder(before) == low then MovedOn(before, after, heir, LastReached(m, low)) else after == before
  {
    if Holder(r.lanes[o]) == low {
      var path := m.plan.paths[low];
      LaneHandedOn(r.lanes, o, low, heir, path, LastReached(m, low), Behind(m, low, path));
    } else {
      assert Holder(r.lanes[o]) in m.plan.Drones() && Holder(r.lanes[o]) != heir;
    }
  }

  lemma {:induction false} DecidedOnQueued(s: Reports, m: Mission, queue: seq<Drone>, d: Drone)
    requires ValidMission(m, s.fleet) && Queued(m, queue) && d !in queue
    ensures forall heir :: HandOver(d, heir) !in Settle(s, m, queue).decisions
    decreases |queue|
  {
    if queue != [] {
      if Leaving(s, m, queue[0]) {
        NextQueued(s, m, queue);
        DecidedOnQueued(s, Apply(m, Decide(s, m, queue[0])), queue[1..], d);
      } else {
        DecidedOnQueued(s, m, queue[1..], d);
      }
    }
  }

  /** What a whole decision does to one lane. */
  ghost predicate SettledAs(id: MissionId, decisions: seq<Decision>, actions: seq<Action>, plan: Plan, before: Lane,
                            after: Lane, reached: nat)
    requires before.holders != []
  {
    && Flown(after, plan)
    && (forall heir :: HandOver(Holder(before), heir) in decisions ==>
          MovedOn(before, after, heir, reached) && Assign(heir, id, after.route[after.start..]) in actions)
    && ((forall heir :: HandOver(Holder(before), heir) !in decisions) ==> after == before)
  }

  ghost predicate Settles(s: Reports, m: Mission, queue: seq<Drone>, before: Lane, after: Lane, reached: nat)
    requires ValidMission(m, s.fleet) && Queued(m, queue) && before.holders != []
  {
    var settled := Settle(s, m, queue);
    SettledAs(m.plan.id, settled.decisions, settled.actions, settled.mission.plan, before, after, reached)
  }

  ghost predicate NobodyTakesOver(decisions: seq<Decision>, d: Drone) {
    forall heir :: HandOver(d, heir) !in decisions
  }

  lemma HolderFirst(id: MissionId, low: Drone, heir: Drone, first: seq<Action>, decisions: seq<Decision>,
                    actions: seq<Action>, plan: Plan, before: Lane, mid: Lane, after: Lane, reached: nat, later: nat)
    requires before.holders != [] && Holder(before) == low && MovedOn(before, mid, heir, reached)
    requires NobodyTakesOver(decisions, heir) && NobodyTakesOver(decisions, low)
    requires SettledAs(id, decisions, actions, plan, mid, after, later)
    requires mid.start < |mid.route| ==> Assign(heir, id, mid.route[mid.start..]) in first
    ensures SettledAs(id, [HandOver(low, heir)] + decisions, first + actions, plan, before, after, reached)
  {
    assert Holder(mid) == heir && after == mid;
    assert ([HandOver(low, heir)] + decisions)[0] == HandOver(low, heir);
  }

  lemma OtherFirst(id: MissionId, decision: Decision, first: seq<Action>, decisions: seq<Decision>,
                   actions: seq<Action>, plan: Plan, before: Lane, after: Lane, reached: nat)
    requires before.holders != [] && SettledAs(id, decisions, actions, plan, before, after, reached)
    requires !(decision.HandOver? && Holder(before) == decision.low)
    ensures SettledAs(id, [decision] + decisions, first + actions, plan, before, after, reached)
  {
    forall heir
      ensures HandOver(Holder(before), heir) in [decision] + decisions <==> HandOver(Holder(before), heir) in decisions
    {
    }
  }

  lemma HeirAssigned(fleet: seq<Drone>, m: Mission, low: Drone, heir: Drone, lane: Lane)
    requires Flyable(m.plan) && low in m.plan.paths && heir !in m.plan.Drones()
    requires Flown(lane, HandedOver(m, low, heir)) && Holder(lane) == heir
    ensures Assign(heir, m.plan.id, lane.route[lane.start..]) in DecisionActions(fleet, m, HandOver(low, heir))
  {
    var orders := HandOverOrders(fleet, m, low, heir);
    assert orders[0] == Assign(heir, m.plan.id, lane.route[lane.start..]);
    assert ([Send(low, Rtl)] + orders)[1] == orders[0];
  }

  lemma Onward(r: Record, m: Mission, fleet: seq<Drone>, decision: Decision, o: Drone)
    requires ValidMission(m, fleet) && Sound(m, fleet, decision) && o in r.lanes && Flown(r.lanes[o], m.plan)
    ensures o in Noted(r, m, decision).lanes && Flown(Noted(r, m, decision).lanes[o], Apply(m, decision).plan)
    ensures !(decision.HandOver? && Holder(r.lanes[o]) == decision.low) ==> Noted(r, m, decision).lanes[o] == r.lanes[o]
    ensures forall d :: LastReached(Apply(m, decision), d) == LastReached(m, d)
  {
    if decision.HandOver? {
      HandedOn(r, m, decision.low, decision.heir, o);
    }
  }

  lemma {:induction false} LaneSettles(s: Reports, m: Mission, queue: seq<Drone>, r: Record, o: Drone)
    requires ValidMission(m, s.fleet) && Queued(m, queue)
    requires o in r.lanes && Flown(r.lanes[o], m.plan)
    ensures o in NotedAll(r, s, m, queue).lanes
    ensures Settles(s, m, queue, r.lanes[o], NotedAll(r, s, m, queue).lanes[o], LastReached(m, Holder(r.lanes[o])))
    decreases |queue|
  {
    if queue != [] {
      if !Leaving(s, m, queue[0]) {
        LaneSettles(s, m, queue[1..], r, o);
      } else {
        NextQueued(s, m, queue);
        var decision := Decide(s, m, queue[0]);
        var n := Apply(m, decision);
        Onward(r, m, s.fleet, decision, o);
        LaneSettles(s, n, queue[1..], Noted(r, m, decision), o);
        FirstSettles(s, m, queue, r, o, n, Settle(s, n, queue[1..]), NotedAll(r, s, m, queue).lanes[o]);
      }
    }
  }

  lemma FirstSettles(s: Reports, m: Mission, queue: seq<Drone>, r: Record, o: Drone, n: Mission, rest: Settled, after: Lane)
    requires ValidMission(m, s.fleet) && Queued(m, queue) && queue != [] && Leaving(s, m, queue[0])
    requires Sound(m, s.fleet, Decide(s, m, queue[0])) && n == Apply(m, Decide(s, m, queue[0]))
    requires ValidMission(n, s.fleet) && Queued(n, queue[1..]) && o in r.lanes && Flown(r.lanes[o], m.plan)
    requires rest == Settle(s, n, queue[1..])
    requires var mid := Noted(r, m, Decide(s, m, queue[0])).lanes[o];
      mid.holders != [] && SettledAs(n.plan.id, rest.decisions, rest.actions, rest.mission.plan, mid, after, LastReached(n, Holder(mid)))
    ensures var decision := Decide(s, m, queue[0]);
      SettledAs(m.plan.id, [decision] + rest.decisions, DecisionActions(s.fleet, m, decision) + rest.actions,
                rest.mission.plan, r.lanes[o], after, LastReached(m, Holder(r.lanes[o])))
  {
    var decision, lane := Decide(s, m, queue[0]), r.lanes[o];
    var mid, actions := Noted(r, m, decision).lanes[o], DecisionActions(s.fleet, m, decision);
    Onward(r, m, s.fleet, decision, o);
    if decision.HandOver? && Holder(lane) == queue[0] {
      HeirSettles(s, m, queue, r, o, decision.heir, n, rest, mid, after);
    } else {
      OtherFirst(m.plan.id, decision, actions, rest.decisions, rest.actions, rest.mission.plan, lane, after,
                 LastReached(m, Holder(lane)));
    }
  }

  lemma HeirSettles(s: Reports, m: Mission, queue: seq<Drone>, r: Record, o: Drone, heir: Drone, n: Mission, rest: Settled,
                    mid: Lane, after: Lane)
    requires ValidMission(m, s.fleet) && Queued(m, queue) && queue != [] && Sound(m, s.fleet, HandOver(queue[0], heir))
    requires n == Apply(m, HandOver(queue[0], heir)) && ValidMission(n, s.fleet) && Queued(n, queue[1..])
    requires o in r.lanes && Flown(r.lanes[o], m.plan) && Holder(r.lanes[o]) == queue[0]
    requires rest == Settle(s, n, queue[1..]) && mid == Noted(r, m, HandOver(queue[0], heir)).lanes[o]
    requires mid.holders != []
    requires SettledAs(n.plan.id, rest.decisions, rest.actions, rest.mission.plan, mid, after, LastReached(n, Holder(mid)))
    ensures SettledAs(m.plan.id, [HandOver(queue[0], heir)] + rest.decisions,
                      DecisionActions(s.fleet, m, HandOver(queue[0], heir)) + rest.actions,
                      rest.mission.plan, r.lanes[o], after, LastReached(m, queue[0]))
  {
    HandedOn(r, m, queue[0], heir, o);
    assert heir !in queue[1..];
    DecidedOnQueued(s, n, queue[1..], heir);
    DecidedOnQueued(s, n, queue[1..], queue[0]);
    HeirAssigned(s.fleet, m, queue[0], heir, mid);
    HolderFirst(m.plan.id, queue[0], heir, DecisionActions(s.fleet, m, HandOver(queue[0], heir)), rest.decisions, rest.actions,
                rest.mission.plan, r.lanes[o], mid, after, LastReached(m, queue[0]), LastReached(n, Holder(mid)));
  }

  // ----- every run -----

  /** What a run keeps: the plan is what is left of every lane, and the supervisor knows what it was told. */
  ghost predicate Kept(c: Course) {
    && Valid(c.state)
    && (c.state.mission.Some? ==>
          && (forall o :: o in c.record.lanes ==> Flown(c.record.lanes[o], c.state.mission.value.plan))
          && (forall d :: LastReached(c.state.mission.value, d) == Told(c, d)))
  }

  lemma BeginsKept(c: Course, plan: Plan, after: Course)
    requires Flyable(plan) && Valid(after.state) && after.state.mission == Some(Mission(plan, map[], {}, {}))
    requires after.record == FirstRecord(plan) && after.told == map[]
    ensures Kept(after)
  {
    forall o | o in after.record.lanes ensures Flown(after.record.lanes[o], plan) {
      assert plan.paths[o][0..] == plan.paths[o];
    }
  }

  lemma TickKept(c: Course)
    requires Kept(c) && c.state.mission.Some?
    ensures Kept(Next(c, Runs.Tick))
  {
    var m, next := c.state.mission.value, Next(c, Runs.Tick);
    Runs.StepKeepsValid(c.state, Runs.Tick);
    MissionDronesQueued(c.state);
    forall o | o in next.record.lanes ensures Flown(next.record.lanes[o], next.state.mission.value.plan) {
      SameLanes(c.record, c.state.reports, m, MissionDrones(c.state));
      LaneSettles(c.state.reports, m, MissionDrones(c.state), c.record, o);
    }
    forall d ensures LastReached(next.state.mission.value, d) == Told(next, d) {
      assert LastReached(m, d) == Told(c, d);
    }
  }

  lemma {:induction false} SameLanes(r: Record, s: Reports, m: Mission, queue: seq<Drone>)
    requires ValidMission(m, s.fleet) && Queued(m, queue)
    ensures NotedAll(r, s, m, queue).lanes.Keys == r.lanes.Keys
    decreases |queue|
  {
    if queue != [] {
      if Leaving(s, m, queue[0]) {
        NextQueued(s, m, queue);
        SameLanes(Noted(r, m, Decide(s, m, queue[0])), s, Apply(m, Decide(s, m, queue[0])), queue[1..]);
      } else {
        SameLanes(r, s, m, queue[1..]);
      }
    }
  }

  lemma ReportKept(c: Course, e: Runs.Event)
    requires Kept(c) && e.ProgressReport?
    ensures Kept(Next(c, e))
  {
    Runs.StepKeepsValid(c.state, e);
    var next := Next(c, e);
    if c.state.mission.Some? {
      forall d ensures LastReached(next.state.mission.value, d) == Told(next, d) {
        assert LastReached(c.state.mission.value, d) == Told(c, d);
      }
    }
  }

  lemma NextKept(c: Course, e: Runs.Event)
    requires Kept(c)
    ensures Kept(Next(c, e))
  {
    match e
    case ProgressReport(d, mission, index, complete) => ReportKept(c, e);
    case MissionRequest(message, planned) => RequestKept(c, e);
    case Tick => if c.state.mission.Some? { TickKept(c); } else { NothingToDo(c); }
    case _ => OtherKept(c, e);
  }

  lemma RequestKept(c: Course, e: Runs.Event)
    requires Kept(c) && e.MissionRequest?
    ensures Kept(Next(c, e))
  {
    Runs.StepKeepsValid(c.state, e);
    if Runs.Accepted(c.state, e) {
      PlanIsValid(c.state.reports, e.message, e.planned);
      BeginsKept(c, PlanFor(c.state.reports, e.message, e.planned).value, Next(c, e));
    }
  }

  lemma NothingToDo(c: Course)
    requires Kept(c) && c.state.mission.None?
    ensures Kept(Next(c, Runs.Tick))
  {
  }

  lemma OtherKept(c: Course, e: Runs.Event)
    requires Kept(c) && (e.BatteryReport? || e.CommandRequest?)
    ensures Kept(Next(c, e))
  {
    Runs.StepKeepsValid(c.state, e);
  }

  lemma {:induction false} RunKept(c: Course, events: seq<Runs.Event>)
    requires Kept(c)
    ensures Kept(Run(c, events))
    decreases |events|
  {
    if events != [] {
      Runs.StepKeepsValid(c.state, events[0]);
      NextKept(c, events[0]);
      RunKept(Next(c, events[0]), events[1..]);
    }
  }

  /** What a periodic decision makes of a lane whose holder last reported `reached`. */
  ghost predicate MovesOn(s: State, before: Lane, after: Lane, reached: nat)
    requires Valid(s) && s.mission.Some? && before.holders != []
  {
    && Reallocate(s).0.mission.Some?
    && SettledAs(s.mission.value.plan.id, Runs.DecisionsOf(s, Runs.Tick), Reallocate(s).1, Reallocate(s).0.mission.value.plan,
                 before, after, reached)
  }

  lemma TickMovesOn(s: State, before: Lane, after: Lane, reached: nat)
    requires Valid(s) && s.mission.Some? && before.holders != [] && Queued(s.mission.value, MissionDrones(s))
    requires Settles(s.reports, s.mission.value, MissionDrones(s), before, after, reached)
    ensures MovesOn(s, before, after, reached)
  {
  }

  lemma NoMissionKept(start: Course)
    requires Valid(start.state) && start.state.mission.None?
    ensures Kept(start)
  {
  }

  lemma LaneMovesOn(s: State, r: Record, o: Drone, reached: nat)
    requires Valid(s) && s.mission.Some? && Queued(s.mission.value, MissionDrones(s))
    requires o in r.lanes && Flown(r.lanes[o], s.mission.value.plan)
    requires reached == LastReached(s.mission.value, Holder(r.lanes[o]))
    ensures var after := NotedAll(r, s.reports, s.mission.value, MissionDrones(s)).lanes;
      o in after && MovesOn(s, r.lanes[o], after[o], reached)
  {
    LaneSettles(s.reports, s.mission.value, MissionDrones(s), r, o);
    TickMovesOn(s, r.lanes[o], NotedAll(r, s.reports, s.mission.value, MissionDrones(s)).lanes[o], reached);
  }

  /** Over every run of a supervisor that starts without a mission: a periodic decision moves a lane on exactly if its
      holder goes home and somebody takes over, by the index the holder last reported for this mission, but never past
      the last waypoint; the heir is ordered exactly that rest of the route; and every other lane stays as it is. */
  lemma LanesMoveOn(start: Course, events: seq<Runs.Event>, c: Course, o: Drone)
    requires Valid(start.state) && start.state.mission.None? && c == Run(start, events)
    requires c.state.mission.Some? && o in c.record.lanes
    ensures Kept(c) && c.record.lanes[o].holders != [] && o in NextRecord(c, Runs.Tick).lanes
    ensures MovesOn(c.state, c.record.lanes[o], NextRecord(c, Runs.Tick).lanes[o], Told(c, Holder(c.record.lanes[o])))
  {
    NoMissionKept(start);
    RunKept(start, events);
    MissionDronesQueued(c.state);
    LaneMovesOn(c.state, c.record, o, Told(c, Holder(c.record.lanes[o])));
  }
}
