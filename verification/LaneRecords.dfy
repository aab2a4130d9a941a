/** What has happened in each mission, as an observer would write it down: where the drones were, what each
    was asked to do, and which drones have held each lane. The lemmas say that a hand-over loses nothing:
    what the heir is not given was reached by an earlier holder. */
module LaneRecords {

  import opened Wrappers
  import opened Geometry
  import opened Fleet
  import opened Lists
  import opened Planning
  import opened Supervision
  import opened Reallocation

  // ----- what has happened -----

  /** Where a drone was on a control step on which it was flying its lane of a mission. */
  datatype Sighting = Sighting(drone: Drone, mission: MissionId, position: Vec)

  datatype Logbook = Logbook(norm: Norm, tolerance: real, log: set<Sighting>)

  ghost predicate Visited(book: Logbook, d: Drone, id: MissionId, p: Vec) {
    exists s :: s in book.log && s.drone == d && s.mission == id && Dist(book.norm, s.position, p) <= book.tolerance
  }

  /** The first `n` waypoints of a path were visited by a drone on a mission. */
  ghost predicate Passed(book: Logbook, d: Drone, id: MissionId, path: seq<Vec>, n: nat) {
    n <= |path| && forall k :: 0 <= k < n ==> Visited(book, d, id, path[k])
  }

  ghost predicate Reached(book: Logbook, holders: seq<Drone>, id: MissionId, p: Vec) {
    exists d :: d in holders && Visited(book, d, id, p)
  }

  /** What a drone was asked to do in a mission. */
  datatype Role = Flies(path: seq<Vec>) | Holds

  /** One lane of a mission: its route, the drones that have held it, in turn, and how much of the route
      was behind the last of them when it took over. */
  datatype Lane = Lane(route: seq<Vec>, start: nat, holders: seq<Drone>)
  {
    predicate HeldBy(d: Drone) {
      holders != [] && holders[|holders| - 1] == d
    }
  }

  /** A mission since it was accepted: the plan, every drone's role, and the lanes. */
  datatype Record = Record(plan: Plan, tasks: map<Drone, Role>, lanes: map<Drone, Lane>)

  function RoleIn(plan: Plan, d: Drone): Role {
    if d in plan.paths then Flies(plan.paths[d]) else Holds
  }

  function FirstRecord(plan: Plan): Record {
    Record(plan, map d | d in plan.Drones() :: RoleIn(plan, d), map d | d in plan.paths :: Lane(plan.paths[d], 0, [d]))
  }

  function PassedOn(lanes: map<Drone, Lane>, low: Drone, heir: Drone, behind: nat): map<Drone, Lane> {
    map o | o in lanes ::
      if lanes[o].HeldBy(low) then Lane(lanes[o].route, lanes[o].start + behind, lanes[o].holders + [heir]) else lanes[o]
  }

  function Noted(r: Record, m: Mission, decision: Decision): Record
    requires Flyable(m.plan) && decision.low in m.plan.Drones()
  {
    match decision
    case Drop(_) => r
    case HandOver(low, heir) =>
      if low in m.plan.paths then
        var path := m.plan.paths[low];
        var behind := Behind(m, low, path);
        r.(tasks := r.tasks[heir := Flies(path[behind..])], lanes := PassedOn(r.lanes, low, heir, behind))
      else r.(tasks := r.tasks[heir := Holds])
  }

  ghost function NotedAll(r: Record, s: Reports, m: Mission, queue: seq<Drone>): Record
    requires ValidMission(m, s.fleet) && Queued(m, queue)
    decreases |queue|
  {
    if queue == [] then r
    else if !Leaving(s, m, queue[0]) then NotedAll(r, s, m, queue[1..])
    else
      NextQueued(s, m, queue);
      NotedAll(Noted(r, m, Decide(s, m, queue[0])), s, Apply(m, Decide(s, m, queue[0])), queue[1..])
  }

  // ----- what is true of one mission -----

  /** A drone's report about a mission is true: it has a role, and if it flies a path, the waypoints it
      claims were visited. */
  ghost predicate Honest(book: Logbook, r: Record, id: MissionId, d: Drone, index: Option<nat>, complete: bool) {
    && d in r.tasks
    && (r.tasks[d].Flies? ==>
         && (index.Some? ==> Passed(book, d, id, r.tasks[d].path, index.value))
         && (complete ==> Passed(book, d, id, r.tasks[d].path, |r.tasks[d].path|)))
  }

  /** The last holder of a lane was given what is left of the route, and what is not was reached. */
  ghost predicate LaneKept(book: Logbook, id: MissionId, tasks: map<Drone, Role>, lane: Lane) {
    && lane.holders != []
    && lane.start < |lane.route|
    && lane.holders[|lane.holders| - 1] in tasks
    && tasks[lane.holders[|lane.holders| - 1]] == Flies(lane.route[lane.start..])
    && forall k :: 0 <= k < lane.start ==> Reached(book, lane.holders, id, lane.route[k])
  }

  ghost predicate RecordKept(book: Logbook, id: MissionId, r: Record) {
    && r.lanes.Keys == r.plan.paths.Keys
    && (forall o :: o in r.lanes ==> r.lanes[o].route == r.plan.paths[o] && r.lanes[o].holders != [] && r.lanes[o].holders[0] == o)
    && (forall o :: o in r.lanes ==> LaneKept(book, id, r.tasks, r.lanes[o]))
  }

  /** The supervisor's plan for the mission, now, agrees with its record. */
  ghost predicate Matches(r: Record, m: Mission) {
    && (forall d :: d in r.tasks ==> d in m.plan.Drones() || d in m.retired)
    && (forall d :: d in m.plan.Drones() ==> d in r.tasks && r.tasks[d] == RoleIn(m.plan, d))
    && (forall o :: o in r.lanes ==> exists d :: d in m.plan.paths && r.lanes[o].HeldBy(d))
  }

  ghost predicate ProgressHonest(book: Logbook, r: Record, m: Mission) {
    forall d :: d in m.progress ==> Honest(book, r, m.plan.id, d, m.progress[d].index, m.progress[d].complete)
  }

  ghost predicate MissionKept(book: Logbook, r: Record, m: Mission) {
    Matches(r, m) && ProgressHonest(book, r, m)
  }

  /** The order was for a role the drone has in the mission. */
  ghost predicate Recorded(records: map<MissionId, Record>, a: Action) {
    match a
    case Assign(d, id, path) => id in records && d in records[id].tasks && records[id].tasks[d] == Flies(path)
    case TakeSlot(d, id, slot) => id in records && d in records[id].tasks && records[id].tasks[d] == Holds
    case _ => true
  }

  ghost predicate AllRecorded(records: map<MissionId, Record>, actions: seq<Action>) {
    forall a :: a in actions ==> Recorded(records, a)
  }

  // ----- nothing is forgotten -----

  ghost predicate BookGrows(before: Logbook, after: Logbook) {
    after.norm == before.norm && after.tolerance == before.tolerance && before.log <= after.log
  }

  /** Lanes keep their routes, holders are only added, and roles are never changed. */
  ghost predicate Extends(before: Record, after: Record) {
    && after.plan == before.plan
    && (forall d :: d in before.tasks ==> d in after.tasks && after.tasks[d] == before.tasks[d])
    && after.lanes.Keys == before.lanes.Keys
    && (forall o :: o in before.lanes ==>
         after.lanes[o].route == before.lanes[o].route && before.lanes[o].holders <= after.lanes[o].holders)
  }

  ghost predicate RecordsGrow(before: map<MissionId, Record>, after: map<MissionId, Record>) {
    forall id :: id in before ==> id in after && Extends(before[id], after[id])
  }

  lemma VisitedGrows(b: Logbook, c: Logbook, d: Drone, id: MissionId, p: Vec)
    requires BookGrows(b, c) && Visited(b, d, id, p)
    ensures Visited(c, d, id, p)
  {
    var s :| s in b.log && s.drone == d && s.mission == id && Dist(b.norm, s.position, p) <= b.tolerance;
    assert s in c.log;
  }

  lemma PassedGrows(b: Logbook, c: Logbook, d: Drone, id: MissionId, path: seq<Vec>, n: nat)
    requires BookGrows(b, c) && Passed(b, d, id, path, n)
    ensures Passed(c, d, id, path, n)
  {
    forall k | 0 <= k < n ensures Visited(c, d, id, path[k]) {
      VisitedGrows(b, c, d, id, path[k]);
    }
  }

  lemma HonestGrows(b: Logbook, c: Logbook, r: Record, t: Record, id: MissionId, d: Drone, index: Option<nat>,
                    complete: bool)
    requires BookGrows(b, c) && Extends(r, t) && Honest(b, r, id, d, index, complete)
    ensures Honest(c, t, id, d, index, complete)
  {
    if r.tasks[d].Flies? {
      if index.Some? {
        PassedGrows(b, c, d, id, r.tasks[d].path, index.value);
      }
      if complete {
        PassedGrows(b, c, d, id, r.tasks[d].path, |r.tasks[d].path|);
      }
    }
  }

  lemma ReachedGrows(b: Logbook, c: Logbook, holders: seq<Drone>, more: seq<Drone>, id: MissionId, p: Vec)
    requires BookGrows(b, c) && holders <= more && Reached(b, holders, id, p)
    ensures Reached(c, more, id, p)
  {
    var d :| d in holders && Visited(b, d, id, p);
    VisitedGrows(b, c, d, id, p);
    assert d in more;
  }

  lemma LaneGrows(b: Logbook, c: Logbook, id: MissionId, tasks: map<Drone, Role>, more: map<Drone, Role>, lane: Lane)
    requires BookGrows(b, c) && LaneKept(b, id, tasks, lane)
    requires forall d :: d in tasks ==> d in more && more[d] == tasks[d]
    ensures LaneKept(c, id, more, lane)
  {
    forall k | 0 <= k < lane.start ensures Reached(c, lane.holders, id, lane.route[k]) {
      ReachedGrows(b, c, lane.holders, lane.holders, id, lane.route[k]);
    }
  }

  lemma RecordGrows(b: Logbook, c: Logbook, id: MissionId, r: Record)
    requires BookGrows(b, c) && RecordKept(b, id, r)
    ensures RecordKept(c, id, r)
  {
    forall o | o in r.lanes ensures LaneKept(c, id, r.tasks, r.lanes[o]) {
      LaneGrows(b, c, id, r.tasks, r.tasks, r.lanes[o]);
    }
  }

  lemma ProgressGrows(b: Logbook, c: Logbook, r: Record, t: Record, m: Mission)
    requires BookGrows(b, c) && Extends(r, t) && ProgressHonest(b, r, m)
    ensures ProgressHonest(c, t, m)
  {
    forall d | d in m.progress ensures Honest(c, t, m.plan.id, d, m.progress[d].index, m.progress[d].complete) {
      HonestGrows(b, c, r, t, m.plan.id, d, m.progress[d].index, m.progress[d].complete);
    }
  }

  lemma ExtendsOnward(a: Record, b: Record, c: Record)
    requires Extends(a, b) && Extends(b, c)
    ensures Extends(a, c)
  {
    forall o | o in a.lanes ensures c.lanes[o].route == a.lanes[o].route && a.lanes[o].holders <= c.lanes[o].holders {
      assert o in b.lanes && b.lanes[o].holders <= c.lanes[o].holders;
    }
  }

  // ----- a mission begins -----

  lemma BeginsKept(book: Logbook, plan: Plan)
    requires Flyable(plan)
    ensures RecordKept(book, plan.id, FirstRecord(plan))
    ensures MissionKept(book, FirstRecord(plan), Mission(plan, map[], {}, {}))
  {
    var r := FirstRecord(plan);
    forall o | o in r.lanes
      ensures LaneKept(book, plan.id, r.tasks, r.lanes[o]) && o in plan.paths && r.lanes[o].HeldBy(o)
    {
      assert plan.paths[o][0..] == plan.paths[o];
    }
  }

  lemma OrdersRecorded(records: map<MissionId, Record>, fleet: seq<Drone>, plan: Plan)
    requires Flyable(plan) && plan.id in records && records[plan.id].tasks == FirstRecord(plan).tasks
    ensures AllRecorded(records, Orders(fleet, plan))
  {
    var paths, slots := Pick(fleet, plan.paths.Keys), Pick(fleet, plan.followers.Keys);
    forall a | a in PathOrders(plan, paths) ensures Recorded(records, a) {
      var k :| 0 <= k < |paths| && PathOrders(plan, paths)[k] == a;
      assert paths[k] in paths;
    }
    forall a | a in SlotOrders(plan.id, plan.followers, slots) ensures Recorded(records, a) {
      var k :| 0 <= k < |slots| && SlotOrders(plan.id, plan.followers, slots)[k] == a;
      assert slots[k] in slots;
    }
  }

  // ----- a task changes hands -----

  /** The heir of a lane takes it on where the low drone left it: nothing before that was lost. */
  lemma LaneHandedOn(book: Logbook, r: Record, m: Mission, low: Drone, heir: Drone, lane: Lane)
    requires Flyable(m.plan) && low in m.plan.paths && MissionKept(book, r, m)
    requires LaneKept(book, m.plan.id, r.tasks, lane) && lane.HeldBy(low)
    ensures var path := m.plan.paths[low];
      var behind := Behind(m, low, path);
      LaneKept(book, m.plan.id, r.tasks[heir := Flies(path[behind..])],
               Lane(lane.route, lane.start + behind, lane.holders + [heir]))
  {
    var id, path := m.plan.id, m.plan.paths[low];
    var behind := Behind(m, low, path);
    var holders := lane.holders + [heir];
    assert r.tasks[low] == RoleIn(m.plan, low);
    assert path == lane.route[lane.start..];
    assert path[behind..] == lane.route[lane.start + behind..];
    forall k | 0 <= k < lane.start + behind ensures Reached(book, holders, id, lane.route[k]) {
      if k < lane.start {
        ReachedGrows(book, book, lane.holders, holders, id, lane.route[k]);
      } else {
        assert Passed(book, low, id, path, m.progress[low].index.value);
        assert lane.route[k] == path[k - lane.start];
        assert low in holders;
      }
    }
  }

  lemma PassedOnExtends(lanes: map<Drone, Lane>, low: Drone, heir: Drone, behind: nat)
    ensures var after := PassedOn(lanes, low, heir, behind);
      && after.Keys == lanes.Keys
      && forall o :: o in lanes ==>
        && after[o].route == lanes[o].route && lanes[o].holders <= after[o].holders
        && (lanes[o].holders != [] ==> after[o].holders[0] == lanes[o].holders[0])
  {
  }

  lemma NotedLanes(book: Logbook, r: Record, m: Mission, low: Drone, heir: Drone)
    requires Flyable(m.plan) && low in m.plan.paths && heir !in r.tasks
    requires MissionKept(book, r, m) && RecordKept(book, m.plan.id, r)
    ensures RecordKept(book, m.plan.id, Noted(r, m, HandOver(low, heir)))
    ensures Extends(r, Noted(r, m, HandOver(low, heir)))
  {
    var t := Noted(r, m, HandOver(low, heir));
    var behind := Behind(m, low, m.plan.paths[low]);
    PassedOnExtends(r.lanes, low, heir, behind);
    forall o | o in t.lanes ensures LaneKept(book, m.plan.id, t.tasks, t.lanes[o]) {
      OneLane(book, r, m, low, heir, o);
    }
  }

  lemma OneLane(book: Logbook, r: Record, m: Mission, low: Drone, heir: Drone, o: Drone)
    requires Flyable(m.plan) && low in m.plan.paths && heir !in r.tasks && o in r.lanes
    requires MissionKept(book, r, m) && LaneKept(book, m.plan.id, r.tasks, r.lanes[o])
    ensures var path := m.plan.paths[low];
      var behind := Behind(m, low, path);
      LaneKept(book, m.plan.id, r.tasks[heir := Flies(path[behind..])], PassedOn(r.lanes, low, heir, behind)[o])
  {
    var path := m.plan.paths[low];
    if r.lanes[o].HeldBy(low) {
      LaneHandedOn(book, r, m, low, heir, r.lanes[o]);
    } else {
      LaneGrows(book, book, m.plan.id, r.tasks, r.tasks[heir := Flies(path[Behind(m, low, path)..])], r.lanes[o]);
    }
  }

  lemma NotedSlot(book: Logbook, r: Record, m: Mission, low: Drone, heir: Drone)
    requires Flyable(m.plan) && low in m.plan.followers && heir !in r.tasks
    requires RecordKept(book, m.plan.id, r)
    ensures RecordKept(book, m.plan.id, Noted(r, m, HandOver(low, heir)))
    ensures Extends(r, Noted(r, m, HandOver(low, heir)))
  {
    var t := Noted(r, m, HandOver(low, heir));
    forall o | o in t.lanes ensures LaneKept(book, m.plan.id, t.tasks, t.lanes[o]) {
      LaneGrows(book, book, m.plan.id, r.tasks, t.tasks, r.lanes[o]);
    }
  }

  lemma RolesMatch(r: Record, m: Mission, fleet: seq<Drone>, low: Drone, heir: Drone)
    requires ValidMission(m, fleet) && Sound(m, fleet, HandOver(low, heir)) && Matches(r, m)
    ensures var t, n := Noted(r, m, HandOver(low, heir)), Apply(m, HandOver(low, heir));
      && (forall d :: d in t.tasks ==> d in n.plan.Drones() || d in n.retired)
      && (forall d :: d in n.plan.Drones() ==> d in t.tasks && t.tasks[d] == RoleIn(n.plan, d))
  {
    var t, n := Noted(r, m, HandOver(low, heir)), Apply(m, HandOver(low, heir));
    HandedOverDrones(m, low, heir);
    forall d | d in n.plan.Drones() ensures d in t.tasks && t.tasks[d] == RoleIn(n.plan, d) {
      if d != heir {
        assert d in m.plan.Drones() && t.tasks[d] == r.tasks[d];
      }
    }
  }

  lemma LanesMatch(lanes: map<Drone, Lane>, paths: map<Drone, seq<Vec>>, low: Drone, heir: Drone, behind: nat,
                   after: map<Drone, seq<Vec>>)
    requires forall o :: o in lanes ==> exists d :: d in paths && lanes[o].HeldBy(d)
    requires low in paths && after.Keys == paths.Keys - {low} + {heir}
    ensures forall o :: o in lanes ==> exists d :: d in after && PassedOn(lanes, low, heir, behind)[o].HeldBy(d)
  {
    forall o | o in lanes ensures exists d :: d in after && PassedOn(lanes, low, heir, behind)[o].HeldBy(d) {
      var d :| d in paths && lanes[o].HeldBy(d);
      assert PassedOn(lanes, low, heir, behind)[o].HeldBy(if d == low then heir else d);
    }
  }

  lemma NotedMatches(r: Record, m: Mission, fleet: seq<Drone>, low: Drone, heir: Drone)
    requires ValidMission(m, fleet) && Sound(m, fleet, HandOver(low, heir)) && Matches(r, m)
    ensures Matches(Noted(r, m, HandOver(low, heir)), Apply(m, HandOver(low, heir)))
  {
    RolesMatch(r, m, fleet, low, heir);
    if low in m.plan.paths {
      LanesMatch(r.lanes, m.plan.paths, low, heir, Behind(m, low, m.plan.paths[low]), HandedOver(m, low, heir).paths);
    }
  }

  lemma HandOverRecorded(records: map<MissionId, Record>, r: Record, m: Mission, fleet: seq<Drone>, low: Drone,
                         heir: Drone)
    requires ValidMission(m, fleet) && Sound(m, fleet, HandOver(low, heir)) && Matches(r, m)
    requires m.plan.id in records && Extends(Noted(r, m, HandOver(low, heir)), records[m.plan.id])
    ensures AllRecorded(records, HandOverOrders(fleet, m, low, heir))
  {
    var plan := HandedOver(m, low, heir);
    if low in m.plan.paths {
      var slots := Pick(fleet, FollowersOf(m.plan.followers, low));
      forall a | a in SlotOrders(plan.id, plan.followers, slots) ensures Recorded(records, a) {
        var k :| 0 <= k < |slots| && SlotOrders(plan.id, plan.followers, slots)[k] == a;
        var f := slots[k];
        assert f in slots && f in m.plan.followers && f != heir;
        assert r.tasks[f] == RoleIn(m.plan, f);
        assert Noted(r, m, HandOver(low, heir)).tasks[f] == Holds;
      }
    }
  }

  lemma DecisionRecorded(records: map<MissionId, Record>, r: Record, m: Mission, fleet: seq<Drone>, decision: Decision)
    requires ValidMission(m, fleet) && Sound(m, fleet, decision) && Matches(r, m)
    requires m.plan.id in records && Extends(Noted(r, m, decision), records[m.plan.id])
    ensures AllRecorded(records, DecisionActions(fleet, m, decision))
  {
    if decision.HandOver? {
      HandOverRecorded(records, r, m, fleet, decision.low, decision.heir);
    }
  }

  lemma DecisionKept(book: Logbook, r: Record, m: Mission, fleet: seq<Drone>, decision: Decision)
    requires ValidMission(m, fleet) && Sound(m, fleet, decision)
    requires MissionKept(book, r, m) && RecordKept(book, m.plan.id, r)
    ensures MissionKept(book, Noted(r, m, decision), Apply(m, decision))
    ensures RecordKept(book, m.plan.id, Noted(r, m, decision)) && Extends(r, Noted(r, m, decision))
  {
    if decision.HandOver? {
      var low, heir := decision.low, decision.heir;
      assert heir !in r.tasks;
      if low in m.plan.paths {
        NotedLanes(book, r, m, low, heir);
      } else {
        NotedSlot(book, r, m, low, heir);
      }
      NotedMatches(r, m, fleet, low, heir);
      ProgressGrows(book, book, r, Noted(r, m, decision), m);
    }
  }

  lemma {:induction false} SettlingKept(book: Logbook, r: Record, s: Reports, m: Mission, queue: seq<Drone>)
    requires ValidMission(m, s.fleet) && Queued(m, queue)
    requires MissionKept(book, r, m) && RecordKept(book, m.plan.id, r)
    ensures MissionKept(book, NotedAll(r, s, m, queue), Settle(s, m, queue).mission)
    ensures RecordKept(book, m.plan.id, NotedAll(r, s, m, queue)) && Extends(r, NotedAll(r, s, m, queue))
    decreases |queue|
  {
    if queue != [] {
      if Leaving(s, m, queue[0]) {
        NextQueued(s, m, queue);
        var decision := Decide(s, m, queue[0]);
        DecisionKept(book, r, m, s.fleet, decision);
        SettlingKept(book, Noted(r, m, decision), s, Apply(m, decision), queue[1..]);
        ExtendsOnward(r, Noted(r, m, decision), NotedAll(r, s, m, queue));
      } else {
        SettlingKept(book, r, s, m, queue[1..]);
      }
    }
  }

  lemma EveryAction(records: map<MissionId, Record>, some: seq<Action>, more: seq<Action>)
    requires AllRecorded(records, some)
    requires AllRecorded(records, more)
    ensures AllRecorded(records, some + more)
  {
  }

  lemma {:induction false} SettlingRecorded(book: Logbook, records: map<MissionId, Record>, r: Record, s: Reports,
                                            m: Mission,
                                            queue: seq<Drone>)
    requires ValidMission(m, s.fleet) && Queued(m, queue)
    requires MissionKept(book, r, m) && RecordKept(book, m.plan.id, r)
    requires m.plan.id in records && records[m.plan.id] == NotedAll(r, s, m, queue)
    ensures AllRecorded(records, Settle(s, m, queue).actions)
    decreases |queue|
  {
    if queue != [] {
      if Leaving(s, m, queue[0]) {
        NextQueued(s, m, queue);
        var decision := Decide(s, m, queue[0]);
        DecisionKept(book, r, m, s.fleet, decision);
        SettlingKept(book, Noted(r, m, decision), s, Apply(m, decision), queue[1..]);
        DecisionRecorded(records, r, m, s.fleet, decision);
        SettlingRecorded(book, records, Noted(r, m, decision), s, Apply(m, decision), queue[1..]);
        EveryAction(records, DecisionActions(s.fleet, m, decision), Settle(s, Apply(m, decision), queue[1..]).actions);
      } else {
        SettlingRecorded(book, records, r, s, m, queue[1..]);
      }
    }
  }
}
