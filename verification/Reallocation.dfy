/** The supervisor's periodic decision as a whole (supervisor.py, `reallocate`). */
module Reallocation {

  import opened Wrappers
  import opened Fleet
  import opened Lists
  import opened Planning
  import opened Supervision

  datatype Settled = Settled(mission: Mission, decisions: seq<Decision>, actions: seq<Action>)

  /** The drones still to be looked at all have a task, and none is listed twice. */
  ghost predicate Queued(m: Mission, queue: seq<Drone>) {
    Distinct(queue) && forall d :: d in queue ==> d in m.plan.Drones()
  }

  /** Looks at the drones of the mission one by one, in the order given. */
  ghost function Settle(s: Reports, m: Mission, queue: seq<Drone>): (r: Settled)
    requires ValidMission(m, s.fleet) && Queued(m, queue)
    ensures ValidMission(r.mission, s.fleet)
    ensures |r.mission.plan.Drones()| == |m.plan.Drones()|
    ensures r.mission.plan.id == m.plan.id && r.mission.progress == m.progress
    ensures r.actions == [] <==> r.decisions == []
    ensures r.decisions == [] ==> r.mission == m
    decreases |queue|
  {
    if queue == [] then Settled(m, [], [])
    else if !Leaving(s, m, queue[0]) then Settle(s, m, queue[1..])
    else
      var decision := Decide(s, m, queue[0]);
      NextQueued(s, m, queue);
      var rest := Settle(s, Apply(m, decision), queue[1..]);
      Settled(rest.mission, [decision] + rest.decisions, DecisionActions(s.fleet, m, decision) + rest.actions)
  }

  /** Who the decision brings in. */
  ghost function Newcomer(decision: Decision): set<Drone> {
    if decision.HandOver? then {decision.heir} else {}
  }

  ghost function Outgoing(decision: Decision): set<Drone> {
    if decision.HandOver? then {decision.low} else {}
  }

  lemma DronesAfter(m: Mission, fleet: seq<Drone>, decision: Decision)
    requires ValidMission(m, fleet) && Sound(m, fleet, decision)
    ensures Apply(m, decision).plan.Drones() == m.plan.Drones() - Outgoing(decision) + Newcomer(decision)
    ensures Apply(m, decision).retired == m.retired + Outgoing(decision)
    ensures Apply(m, decision).dropped == m.dropped + (if decision.Drop? then {decision.low} else {})
  {
    if decision.HandOver? {
      HandedOverDrones(m, decision.low, decision.heir);
    }
  }

  lemma BusyAfter(m: Mission, fleet: seq<Drone>, decision: Decision)
    requires ValidMission(m, fleet) && Sound(m, fleet, decision)
    ensures Busy(Apply(m, decision)) == if decision.HandOver? then Busy(m) + {decision.heir} else Busy(m)
  {
    DronesAfter(m, fleet, decision);
    BusySets(m.plan.Drones(), m.retired, m.dropped, decision);
    assert Busy(m) + {} == Busy(m);
  }

  lemma BusySets(drones: set<Drone>, retired: set<Drone>, dropped: set<Drone>, decision: Decision)
    requires decision.low in drones
    ensures (drones - Outgoing(decision) + Newcomer(decision)) + (retired + Outgoing(decision)) +
            (dropped + (if decision.Drop? then {decision.low} else {}))
         == drones + retired + dropped + Newcomer(decision)
  {
  }

  lemma NextQueued(s: Reports, m: Mission, queue: seq<Drone>)
    requires ValidMission(m, s.fleet) && Queued(m, queue) && queue != []
    requires Leaving(s, m, queue[0])
    ensures var decision := Decide(s, m, queue[0]);
      && Sound(m, s.fleet, decision)
      && ValidMission(Apply(m, decision), s.fleet)
      && |Apply(m, decision).plan.Drones()| == |m.plan.Drones()|
      && Queued(Apply(m, decision), queue[1..])
  {
    var decision := Decide(s, m, queue[0]);
    ApplyKeepsValid(m, s.fleet, decision);
    DronesAfter(m, s.fleet, decision);
    forall d | d in queue[1..] ensures d in Apply(m, decision).plan.Drones() {
      assert d != queue[0] && d in queue;
    }
  }

  ghost function Reallocate(s: State): (State, seq<Action>)
    requires Valid(s)
  {
    if s.mission.None? then (s, [])
    else
      MissionDronesQueued(s);
      var r := Settle(s.reports, s.mission.value, MissionDrones(s));
      var after := s.(mission := Some(r.mission));
      (after, if r.actions == [] then [] else r.actions + [ActiveMission(Some(r.mission.plan.id), MissionDrones(after))])
  }

  lemma MissionDronesQueued(s: State)
    requires Valid(s) && s.mission.Some?
    ensures Queued(s.mission.value, MissionDrones(s))
    ensures forall d :: d in MissionDrones(s) <==> d in s.mission.value.plan.Drones()
  {
    var drones := s.mission.value.plan.Drones();
    PickInOrder(s.reports.fleet, drones);
    OrderedDistinct(Pick(s.reports.fleet, drones));
    assert forall d :: d in drones ==> d in Members(s.reports.fleet);
  }

  // ----- who takes over from whom -----

  /** The drones of the queue to be sent home, in order. */
  ghost function LeavingOf(s: Reports, m: Mission, queue: seq<Drone>): seq<Drone> {
    if queue == [] then []
    else (if Leaving(s, m, queue[0]) then [queue[0]] else []) + LeavingOf(s, m, queue[1..])
  }

  /** The drones free to take over, in fleet order. */
  ghost function IdleOf(s: Reports, busy: set<Drone>, fleet: seq<Drone>): (idle: seq<Drone>)
    ensures forall d {:trigger d in idle} :: d in idle <==> d in fleet && d !in busy && Charged(s, d)
  {
    if fleet == [] then []
    else
      assert fleet == [fleet[0]] + fleet[1..];
      (if fleet[0] !in busy && Charged(s, fleet[0]) then [fleet[0]] else []) + IdleOf(s, busy, fleet[1..])
  }

  /** The i-th drone to leave goes with the i-th idle one; those left over are dropped. */
  ghost function PairUp(leaving: seq<Drone>, idle: seq<Drone>): (decisions: seq<Decision>)
    ensures |decisions| == |leaving|
    ensures forall i :: 0 <= i < |leaving| ==>
      decisions[i] == if i < |idle| then HandOver(leaving[i], idle[i]) else Drop(leaving[i])
  {
    if leaving == [] then []
    else if idle == [] then [Drop(leaving[0])] + PairUp(leaving[1..], [])
    else [HandOver(leaving[0], idle[0])] + PairUp(leaving[1..], idle[1..])
  }

  lemma PairUpFirst(d: Drone, leaving: seq<Drone>, idle: seq<Drone>)
    ensures PairUp([d] + leaving, idle) ==
      [if idle == [] then Drop(d) else HandOver(d, idle[0])] + PairUp(leaving, if idle == [] then [] else idle[1..])
  {
    assert ([d] + leaving)[1..] == leaving;
  }

  lemma {:induction false} ReplacementIsFirstIdle(s: Reports, m: Mission, fleet: seq<Drone>)
    ensures var idle := IdleOf(s, Busy(m), fleet);
      Replacement(s, m, fleet) == if idle == [] then None else Some(idle[0])
  {
    if fleet != [] {
      ReplacementIsFirstIdle(s, m, fleet[1..]);
    }
  }

  lemma {:induction false} FirstIdleTaken(s: Reports, busy: set<Drone>, fleet: seq<Drone>)
    requires InIdOrder(fleet) && IdleOf(s, busy, fleet) != []
    ensures IdleOf(s, busy + {IdleOf(s, busy, fleet)[0]}, fleet) == IdleOf(s, busy, fleet)[1..]
  {
    var first := IdleOf(s, busy, fleet)[0];
    assert first in IdleOf(s, busy, fleet);
    if fleet[0] == first {
      NotAmong(s, busy, fleet[1..], first);
    } else {
      FirstIdleTaken(s, busy, fleet[1..]);
    }
  }

  lemma {:induction false} NotAmong(s: Reports, busy: set<Drone>, fleet: seq<Drone>, d: Drone)
    requires d !in fleet
    ensures IdleOf(s, busy + {d}, fleet) == IdleOf(s, busy, fleet)
  {
    if fleet != [] {
      NotAmong(s, busy, fleet[1..], d);
    }
  }

  lemma {:induction false} LeavingUnchanged(s: Reports, m: Mission, n: Mission, queue: seq<Drone>)
    requires m.progress == n.progress
    requires forall d :: d in queue ==> (d in m.dropped <==> d in n.dropped)
    ensures LeavingOf(s, m, queue) == LeavingOf(s, n, queue)
  {
    if queue != [] {
      LeavingUnchanged(s, m, n, queue[1..]);
    }
  }

  lemma IdleAfter(s: Reports, m: Mission, d: Drone)
    requires InIdOrder(s.fleet) && ValidMission(m, s.fleet) && Sound(m, s.fleet, Decide(s, m, d))
    ensures var idle := IdleOf(s, Busy(m), s.fleet);
      && Decide(s, m, d) == (if idle == [] then Drop(d) else HandOver(d, idle[0]))
      && IdleOf(s, Busy(Apply(m, Decide(s, m, d))), s.fleet) == (if idle == [] then [] else idle[1..])
  {
    ReplacementIsFirstIdle(s, m, s.fleet);
    BusyAfter(m, s.fleet, Decide(s, m, d));
    if IdleOf(s, Busy(m), s.fleet) != [] {
      FirstIdleTaken(s, Busy(m), s.fleet);
    }
  }

  lemma FirstLeaves(s: Reports, m: Mission, queue: seq<Drone>)
    requires InIdOrder(s.fleet) && ValidMission(m, s.fleet) && Queued(m, queue) && queue != []
    requires Leaving(s, m, queue[0]) && Sound(m, s.fleet, Decide(s, m, queue[0]))
    ensures var after := Apply(m, Decide(s, m, queue[0]));
      PairUp(LeavingOf(s, m, queue), IdleOf(s, Busy(m), s.fleet)) ==
      [Decide(s, m, queue[0])] + PairUp(LeavingOf(s, after, queue[1..]), IdleOf(s, Busy(after), s.fleet))
  {
    var after := Apply(m, Decide(s, m, queue[0]));
    DronesAfter(m, s.fleet, Decide(s, m, queue[0]));
    assert queue[0] !in queue[1..];
    LeavingUnchanged(s, m, after, queue[1..]);
    IdleAfter(s, m, queue[0]);
    PairUpFirst(queue[0], LeavingOf(s, m, queue[1..]), IdleOf(s, Busy(m), s.fleet));
  }

  /** `reallocate` pairs the i-th low drone with the i-th idle one in id order, and drops exactly the rest. */
  lemma {:induction false} PairsInOrder(s: Reports, m: Mission, queue: seq<Drone>)
    requires InIdOrder(s.fleet) && ValidMission(m, s.fleet) && Queued(m, queue)
    ensures Settle(s, m, queue).decisions == PairUp(LeavingOf(s, m, queue), IdleOf(s, Busy(m), s.fleet))
    decreases |queue|
  {
    if queue != [] {
      if Leaving(s, m, queue[0]) {
        NextQueued(s, m, queue);
        FirstLeaves(s, m, queue);
        PairsInOrder(s, Apply(m, Decide(s, m, queue[0])), queue[1..]);
      } else {
        PairsInOrder(s, m, queue[1..]);
        assert LeavingOf(s, m, queue) == LeavingOf(s, m, queue[1..]);
      }
    }
  }

  // ----- nothing is decided twice -----

  ghost predicate AllStay(s: Reports, m: Mission, except: seq<Drone>) {
    forall d :: d in m.plan.Drones() && d !in except ==> !Leaving(s, m, d)
  }

  lemma DecisionSettlesOne(s: Reports, m: Mission, queue: seq<Drone>)
    requires ValidMission(m, s.fleet) && Queued(m, queue) && queue != [] && AllStay(s, m, queue)
    requires Sound(m, s.fleet, Decide(s, m, queue[0]))
    ensures AllStay(s, Apply(m, Decide(s, m, queue[0])), queue[1..])
  {
    var decision := Decide(s, m, queue[0]);
    var after := Apply(m, decision);
    DronesAfter(m, s.fleet, decision);
    forall d | d in after.plan.Drones() && d !in queue[1..] ensures !Leaving(s, after, d) {
      if d in m.plan.Drones() && d != queue[0] {
        assert d !in queue;
      }
    }
  }

  /** Afterwards no drone of the mission is one to send home. */
  lemma {:induction false} NobodyLeftBehind(s: Reports, m: Mission, queue: seq<Drone>)
    requires ValidMission(m, s.fleet) && Queued(m, queue) && AllStay(s, m, queue)
    ensures AllStay(s, Settle(s, m, queue).mission, [])
    decreases |queue|
  {
    if queue != [] {
      if Leaving(s, m, queue[0]) {
        NextQueued(s, m, queue);
        DecisionSettlesOne(s, m, queue);
        NobodyLeftBehind(s, Apply(m, Decide(s, m, queue[0])), queue[1..]);
      } else {
        assert forall d :: d in queue ==> d == queue[0] || d in queue[1..];
        NobodyLeftBehind(s, m, queue[1..]);
      }
    }
  }

  lemma {:induction false} NothingToSettle(s: Reports, m: Mission, queue: seq<Drone>)
    requires ValidMission(m, s.fleet) && Queued(m, queue)
    requires forall d :: d in queue ==> !Leaving(s, m, d)
    ensures Settle(s, m, queue).decisions == []
    decreases |queue|
  {
    if queue != [] {
      NothingToSettle(s, m, queue[1..]);
    }
  }

  lemma ReallocateKeepsValid(s: State)
    requires Valid(s)
    ensures Valid(Reallocate(s).0)
    ensures Reallocate(s).0.mission.Some? <==> s.mission.Some?
  {
  }

  /** With no new report, deciding again decides nothing. */
  lemma ReallocateTwice(s: State)
    requires Valid(s)
    ensures Valid(Reallocate(s).0)
    ensures Reallocate(Reallocate(s).0) == (Reallocate(s).0, [])
  {
    if s.mission.Some? {
      var m, after := s.mission.value, Reallocate(s).0;
      MissionDronesQueued(s);
      NobodyLeftBehind(s.reports, m, MissionDrones(s));
      MissionDronesQueued(after);
      NothingToSettle(after.reports, after.mission.value, MissionDrones(after));
    }
  }

  /** `reallocate` as a whole: the i-th low, unfinished, undropped drone of the mission goes with the
      i-th idle charged drone of the fleet, both in id order. */
  lemma ReallocationPairsInOrder(s: State)
    requires Valid(s) && s.mission.Some?
    ensures Queued(s.mission.value, MissionDrones(s))
    ensures Settle(s.reports, s.mission.value, MissionDrones(s)).decisions ==
            PairUp(LeavingOf(s.reports, s.mission.value, MissionDrones(s)), IdleOf(s.reports, Busy(s.mission.value), s.reports.fleet))
  {
    MissionDronesQueued(s);
    PairsInOrder(s.reports, s.mission.value, MissionDrones(s));
  }
}
