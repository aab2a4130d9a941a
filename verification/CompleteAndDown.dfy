/** What else a report of completion says (sut.py, swarm_state.py): every drone the mission needs, lane or slot, has been done
    with it, and has been seen disarmed; in every run of the whole system, whatever the network does. */
module CompleteAndDown {

  import opened Wrappers
  import opened Fleet
  import opened Planning
  import opened Supervision
  import opened DroneControl
  import opened Swarm
  import opened HonestCompletion
  import Reallocation
  import SupervisorRuns

  // ----- what the ground knows was sent -----

  ghost predicate WasTold(sent: set<Message>, d: Drone, armed: bool) {
    exists m :: m in sent && m.TelemetryMessage? && m.sender == d && m.armed == armed
  }

  ghost predicate WasReported(sent: set<Message>, d: Drone, id: MissionId) {
    exists m :: m in sent && m.ProgressMessage? && m.sender == d && m.report.complete && m.report.mission == Some(id)
  }

  ghost predicate Backed(sent: set<Message>, readings: map<Drone, Reading>) {
    forall d :: d in readings ==>
      && (readings[d].armed.Some? ==> WasTold(sent, d, readings[d].armed.value))
      && (readings[d].complete && readings[d].mission.Some? ==> WasReported(sent, d, readings[d].mission.value))
  }

  lemma HearBacked(sent: set<Message>, g: GroundSide, m: Message)
    requires Backed(sent, g.readings) && m in sent
    ensures Backed(sent, Hear(g, m).readings)
  {
  }

  lemma {:induction false} HearAllBacked(sent: set<Message>, g: GroundSide, inbox: seq<Message>)
    requires Backed(sent, g.readings) && forall m :: m in inbox ==> m in sent
    ensures Backed(sent, HearAll(g, inbox).readings)
    decreases |inbox|
  {
    if inbox != [] {
      assert inbox[0] in inbox;
      HearBacked(sent, g, inbox[0]);
      HearAllBacked(sent, Hear(g, inbox[0]), inbox[1..]);
    }
  }

  lemma StillBacked(fewer: set<Message>, more: set<Message>, readings: map<Drone, Reading>)
    requires Backed(fewer, readings) && fewer <= more
    ensures Backed(more, readings)
  {
    forall d | d in readings
      ensures readings[d].armed.Some? ==> WasTold(more, d, readings[d].armed.value)
      ensures readings[d].complete && readings[d].mission.Some? ==> WasReported(more, d, readings[d].mission.value)
    {
      assert readings[d].armed.Some? ==> WasTold(fewer, d, readings[d].armed.value);
      assert readings[d].complete && readings[d].mission.Some? ==> WasReported(fewer, d, readings[d].mission.value);
    }
  }

  lemma StepBacked(sys: System, e: Event)
    requires Configured(sys) && Allowed(sys, e) && Backed(sys.sent, sys.ground.readings)
    ensures Backed(Next(sys, e).sent, Next(sys, e).ground.readings)
  {
    var after := Next(sys, e);
    if e.GroundStep? {
      HearingKeepsValid(sys.ground, e.inbox);
      HearAllBacked(sys.sent, sys.ground, e.inbox);
      StillBacked(sys.sent, after.sent, after.ground.readings);
    } else {
      StillBacked(sys.sent, after.sent, after.ground.readings);
    }
  }

  // ----- what was sent had happened -----

  /** At some step before the k-th the drone observed its vehicle so. */
  ghost predicate SawVehicle(events: seq<Event>, k: nat, d: Drone, armed: bool) {
    exists j {:trigger events[j]} :: 0 <= j < k && j < |events| && events[j].DroneStep? && events[j].drone == d && events[j].seen.armed == armed
  }

  /** After some step up to the k-th the drone's controller had completed its task in the mission. */
  ghost predicate WasDone(trace: seq<System>, k: nat, d: Drone, id: MissionId) {
    exists j :: 0 <= j <= k && j < |trace| && IsDone(trace[j], d, id)
  }

  predicate IsDone(sys: System, d: Drone, id: MissionId) {
    d in sys.drones && sys.drones[d].controller.complete && sys.drones[d].controller.mission == Some(id)
  }

  ghost predicate Happened(trace: seq<System>, events: seq<Event>, k: nat, m: Message) {
    && (m.TelemetryMessage? ==> SawVehicle(events, k, m.sender, m.armed))
    && (m.ProgressMessage? && m.report.complete && m.report.mission.Some? ==> WasDone(trace, k, m.sender, m.report.mission.value))
  }

  ghost predicate Named(sys: System) {
    forall d :: d in sys.drones ==> sys.drones[d].id == d
  }

  lemma StaysNamed(sys: System, e: Event)
    requires Configured(sys) && Allowed(sys, e) && Named(sys)
    ensures Named(Next(sys, e))
  {
  }

  /** Who is named in what a step of the ground sends. */
  lemma GroundSendsOrders(actions: seq<Action>)
    ensures forall m :: m in MessagesFor(actions) ==> !m.TelemetryMessage? && !m.ProgressMessage?
  {
  }

  lemma OutboxHappened(trace: seq<System>, events: seq<Event>, k: nat, m: Message)
    requires IsRun(trace, events) && k < |events| && Named(trace[k]) && events[k].DroneStep?
    requires IsStep(trace[k], events[k], trace[k + 1])
    requires var e := events[k];
      m in Outbox(Ticked(trace[k].book.norm, ReceiveAll(trace[k].drones[e.drone], e.now, e.inbox), e.now, e.seen), e.now, e.seen)
    ensures Happened(trace, events, k + 1, m)
  {
    var e := events[k];
    var after := Ticked(trace[k].book.norm, ReceiveAll(trace[k].drones[e.drone], e.now, e.inbox), e.now, e.seen);
    assert after.id == e.drone;
    if m.ProgressMessage? && m.report.complete && m.report.mission.Some? {
      assert m.report == ProgressOf(after.controller);
      assert trace[k + 1].drones[e.drone] == Reported(after, e.now);
      assert IsDone(trace[k + 1], e.drone, m.report.mission.value);
    }
  }

  lemma StillHappened(trace: seq<System>, events: seq<Event>, k: nat, m: Message)
    requires Happened(trace, events, k, m)
    ensures Happened(trace, events, k + 1, m)
  {
  }

  lemma NewlySent(sys: System, e: Event, m: Message)
    requires Configured(sys) && Allowed(sys, e) && m in Next(sys, e).sent && m !in sys.sent
    requires m.TelemetryMessage? || m.ProgressMessage?
    ensures e.DroneStep?
    ensures m in Outbox(Ticked(sys.book.norm, ReceiveAll(sys.drones[e.drone], e.now, e.inbox), e.now, e.seen), e.now, e.seen)
  {
    if e.GroundStep? {
      HearingKeepsValid(sys.ground, e.inbox);
      GroundSendsOrders(Reallocated(HearAll(sys.ground, e.inbox), e.now).pending);
    }
  }

  /** What is backed by what was sent, and what was sent by what happened, up to the k-th state. */
  ghost predicate Known(trace: seq<System>, events: seq<Event>, k: nat)
    requires k < |trace|
  {
    && Named(trace[k]) && Backed(trace[k].sent, trace[k].ground.readings)
    && forall m :: m in trace[k].sent ==> Happened(trace, events, k, m)
  }

  lemma {:induction false} RunKnown(trace: seq<System>, events: seq<Event>, k: nat)
    requires IsRun(trace, events) && Initial(trace[0]) && k <= |events|
    ensures Known(trace, events, k)
  {
    if k > 0 {
      RunKnown(trace, events, k - 1);
      assert IsStep(trace[k - 1], events[k - 1], trace[k]);
      StaysNamed(trace[k - 1], events[k - 1]);
      StepBacked(trace[k - 1], events[k - 1]);
      forall m | m in trace[k].sent ensures Happened(trace, events, k, m) {
        if m in trace[k - 1].sent {
          StillHappened(trace, events, k - 1, m);
        } else if m.TelemetryMessage? || m.ProgressMessage? {
          NewlySent(trace[k - 1], events[k - 1], m);
          OutboxHappened(trace, events, k - 1, m);
        }
      }
    }
  }

  /** When the mission announced is reported complete, each of its drones, of which there is one at least, has completed its
      task in that mission, and on some step saw its vehicle disarmed. */
  lemma CompleteMeansDownAndDone(trace: seq<System>, events: seq<Event>, k: nat)
    requires IsRun(trace, events) && Initial(trace[0]) && k < |trace|
    ensures ReportsComplete(trace[k].ground) ==>
      && trace[k].ground.active.Some? && trace[k].ground.activeDrones != []
      && forall d :: d in trace[k].ground.activeDrones ==>
           WasDone(trace, k, d, trace[k].ground.active.value) && SawVehicle(events, k, d, false)
  {
    RunKnown(trace, events, k);
    if ReportsComplete(trace[k].ground) {
      var readings, id := trace[k].ground.readings, trace[k].ground.active.value;
      forall d | d in trace[k].ground.activeDrones ensures WasDone(trace, k, d, id) && SawVehicle(events, k, d, false) {
        assert readings[d].complete && readings[d].mission == Some(id) && readings[d].armed == Some(false);
        assert WasTold(trace[k].sent, d, false) && WasReported(trace[k].sent, d, id);
        var told :| told in trace[k].sent && told.TelemetryMessage? && told.sender == d && told.armed == false;
        var done :| done in trace[k].sent && done.ProgressMessage? && done.sender == d && done.report.complete
                    && done.report.mission == Some(id);
        assert Happened(trace, events, k, told) && Happened(trace, events, k, done);
      }
    }
  }

  // ----- what the ground announces, and when it decides -----

  /** After a step of the ground, what is announced is the supervisor's mission and the drones it needs now. */
  lemma AnnouncesItsMission(trace: seq<System>, events: seq<Event>, k: nat)
    requires IsRun(trace, events) && Initial(trace[0]) && k < |events| && events[k].GroundStep?
    ensures var g := trace[k + 1].ground;
      && g.pending == []
      && (g.supervisor.mission.None? ==> g.active.None?)
      && (g.supervisor.mission.Some? ==>
            && g.active == Some(g.supervisor.mission.value.plan.id)
            && forall d :: d in g.activeDrones <==> d in g.supervisor.mission.value.plan.Drones())
  {
    InitiallyKept(trace[0]);
    RunKept(trace, events, k + 1);
    assert IsStep(trace[k], events[k], trace[k + 1]);
    var g := trace[k + 1].ground;
    assert GroundKept(trace[k + 1].book, trace[k + 1].records, g);
    if g.supervisor.mission.Some? {
      Reallocation.MissionDronesQueued(g.supervisor);
    }
  }

  /** After a step of the ground the last decision is less than a second old, and it was taken on what had been heard. */
  lemma DecidesEverySecond(trace: seq<System>, events: seq<Event>, k: nat)
    requires IsRun(trace, events) && k < |events| && events[k].GroundStep?
    ensures var g, now := trace[k + 1].ground, events[k].now;
      var heard := HearAll(trace[k].ground, events[k].inbox);
      && g.reallocated.Some? && Valid(heard.supervisor)
      && if heard.reallocated.Some? && now - heard.reallocated.value < 1.0
         then g.reallocated == heard.reallocated && g.supervisor == heard.supervisor
         else g.reallocated == Some(now) && g.supervisor == Reallocation.Reallocate(heard.supervisor).0
  {
    assert IsStep(trace[k], events[k], trace[k + 1]);
    HearingKeepsValid(trace[k].ground, events[k].inbox);
  }

  // ----- what the ground sends, and what it learns -----

  /** A drone given these messages, one after another, was last told this. */
  function ToldBy(told: map<Drone, SupervisorRuns.Order>, messages: seq<Message>): map<Drone, SupervisorRuns.Order>
    decreases |messages|
  {
    if messages == [] then told
    else
      ToldBy(match messages[0]
             case AssignmentMessage(to, mission, waypoints) => told[to := SupervisorRuns.FlyPath(mission, waypoints)]
             case SlotMessage(to, mission, slot) => told[to := SupervisorRuns.HoldSlot(mission, slot)]
             case CommandMessage(to, command) => told[to := SupervisorRuns.Obey(command)]
             case _ => told,
             messages[1..])
  }

  /** The messages sent say exactly what the supervisor's actions do: everybody is last told the same. */
  lemma {:induction false} OrdersAreSent(told: map<Drone, SupervisorRuns.Order>, actions: seq<Action>)
    ensures ToldBy(told, MessagesFor(actions)) == SupervisorRuns.Tell(told, actions)
    decreases |actions|
  {
    if actions != [] {
      var after := SupervisorRuns.TellOne(told, actions[0]);
      OrdersAreSent(after, actions[1..]);
      if actions[0].Assign? || actions[0].TakeSlot? || actions[0].Send? {
        assert MessagesFor(actions) == [MessagesFor(actions)[0]] + MessagesFor(actions[1..]);
        assert MessagesFor(actions)[1..] == MessagesFor(actions[1..]);
      } else {
        assert MessagesFor(actions) == MessagesFor(actions[1..]);
      }
    }
  }

  /** The battery last heard from a drone, and what it last reported, in order of arrival. */
  function LastBattery(d: Drone, known: Option<real>, inbox: seq<Message>): Option<real>
    decreases |inbox|
  {
    if inbox == [] then known
    else LastBattery(d, if inbox[0].TelemetryMessage? && inbox[0].sender == d then inbox[0].battery else known, inbox[1..])
  }

  function LastReport(d: Drone, known: Option<ProgressReport>, inbox: seq<Message>): Option<ProgressReport>
    decreases |inbox|
  {
    if inbox == [] then known
    else LastReport(d, if inbox[0].ProgressMessage? && inbox[0].sender == d then Some(inbox[0].report) else known, inbox[1..])
  }

  /** What the supervisor and the readings know of a drone after an inbox: its last battery and its last report in it, and
      what they knew before if there is none. */
  lemma {:induction false} LearnsWhatIsHeard(g: GroundSide, inbox: seq<Message>, d: Drone)
    requires d in g.readings && d in g.supervisor.reports.battery
    ensures var heard := HearAll(g, inbox);
      && d in heard.readings && d in heard.supervisor.reports.battery
      && heard.supervisor.reports.battery[d] == LastBattery(d, g.supervisor.reports.battery[d], inbox)
      && match LastReport(d, None, inbox)
         case None =>
           heard.readings[d].(armed := None) == g.readings[d].(armed := None)
         case Some(report) =>
           heard.readings[d].(armed := None) == Reading(None, report.mission, report.index, report.count, report.complete)
    decreases |inbox|
  {
    if inbox != [] {
      var next := Hear(g, inbox[0]);
      LearnsWhatIsHeard(next, inbox[1..], d);
      ReportSince(d, inbox);
    }
  }

  lemma {:induction false} LaterReport(d: Drone, first: ProgressReport, inbox: seq<Message>)
    ensures LastReport(d, Some(first), inbox) ==
      if LastReport(d, None, inbox).Some? then LastReport(d, None, inbox) else Some(first)
    decreases |inbox|
  {
    if inbox != [] {
      if inbox[0].ProgressMessage? && inbox[0].sender == d {
        LaterReport(d, inbox[0].report, inbox[1..]);
      } else {
        LaterReport(d, first, inbox[1..]);
      }
    }
  }

  lemma ReportSince(d: Drone, inbox: seq<Message>)
    requires inbox != []
    ensures LastReport(d, None, inbox) ==
      if LastReport(d, None, inbox[1..]).Some? then LastReport(d, None, inbox[1..])
      else if inbox[0].ProgressMessage? && inbox[0].sender == d then Some(inbox[0].report) else None
  {
    if inbox[0].ProgressMessage? && inbox[0].sender == d {
      LaterReport(d, inbox[0].report, inbox[1..]);
    }
  }
}
