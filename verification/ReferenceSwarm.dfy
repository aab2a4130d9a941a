/** The swarm's software itself (scenarios/sut.py): objects that hold a controller or a supervisor and pass
    messages to it. Every method is proved to do what Swarm.dfy says. */
module ReferenceSwarm {

  import opened Wrappers
  import opened Geometry
  import opened Fleet
  import opened Lists
  import opened Planning
  import opened Supervision
  import opened DroneControl
  import opened DroneControllers
  import opened Swarm
  import Supervisor

  class ReferenceDrone {
    const id: Drone
    const controller: DroneController
    var leader: Option<Drone>
    var leaderPosition: Option<Vec>
    var leaderHeard: Option<real>
    var lastProgress: Option<ProgressReport>
    var progressSent: Option<real>

    ghost predicate Valid()
      reads this, controller, controller.queue, controller.offboard
    {
      controller.Valid()
    }

    ghost function View(): DroneSide
      reads this, controller, controller.queue, controller.offboard
    {
      DroneSide(id, controller.View(), leader, leaderPosition, leaderHeard, lastProgress, progressSent)
    }

    constructor (drone: Drone, settings: Settings, warmupTicks: nat)
      requires settings.maxStep > 0.0
      ensures Valid() && fresh(controller) && fresh(controller.offboard) && controller.queue == null
      ensures View().leader == None && View().controller.task == NoTask && View().controller.mission == None
    {
      id := drone;
      controller := new DroneController(settings, warmupTicks);
      leader, leaderPosition, leaderHeard, lastProgress, progressSent := None, None, None, None, None;
    }

    method Follow(newLeader: Option<Drone>)
      modifies this
      ensures View() == Following(old(View()), newLeader)
    {
      if newLeader != leader {
        leader, leaderPosition, leaderHeard := newLeader, None, None;
      }
    }

    method ReceiveOne(now: real, m: Message)
      requires Valid()
      modifies this, controller, controller.offboard
      ensures Valid() && View() == Receive(old(View()), now, m)
      ensures controller.queue == old(controller.queue) || fresh(controller.queue) || controller.queue == null
    {
      match m {
        case AssignmentMessage(_, mission, waypoints) =>
          var accepted := controller.AssignPath(mission, waypoints);
          if accepted {
            Follow(None);
          }
        case SlotMessage(_, mission, slot) =>
          controller.AssignSlot(mission, slot);
          Follow(Some(slot.leader));
        case CommandMessage(_, command) =>
          controller.Command(command);
          Follow(None);
        case PoseMessage(sender, position) =>
          if leader == Some(sender) {
            leaderPosition, leaderHeard := Some(position), Some(now);
          }
        case ProgressMessage(sender, report) =>
          if leader == Some(sender) && report.complete && report.mission.Some? {
            controller.LeaderFinished(report.mission.value);
          }
        case TelemetryMessage(_, _, _, _) =>
      }
    }

    method ReceiveInbox(now: real, inbox: seq<Message>)
      requires Valid()
      modifies this, controller, controller.offboard
      ensures Valid() && View() == ReceiveAll(old(View()), now, inbox)
      ensures controller.queue == old(controller.queue) || fresh(controller.queue) || controller.queue == null
    {
      ghost var all := ReceiveAll(View(), now, inbox);
      var i := 0;
      while i < |inbox|
        invariant 0 <= i <= |inbox| && Valid()
        invariant controller.queue == old(controller.queue) || fresh(controller.queue) || controller.queue == null
        invariant ReceiveAll(View(), now, inbox[i..]) == all
      {
        assert inbox[i..][0] == inbox[i] && inbox[i..][1..] == inbox[i + 1..];
        ReceiveOne(now, inbox[i]);
        i := i + 1;
      }
    }

    /** One control step: the messages that arrived, then the controller, then what is sent. */
    method Step(norm: Norm, now: real, o: Observation, inbox: seq<Message>) returns (out: Output, outbox: seq<Message>)
      requires Valid()
      modifies this, controller, controller.queue, controller.offboard
      ensures Valid()
      ensures View() == Reported(Ticked(norm, ReceiveAll(old(View()), now, inbox), now, o), now)
      ensures out == Tick(norm, ReceiveAll(old(View()), now, inbox).controller,
                          SensedBy(ReceiveAll(old(View()), now, inbox), now, o)).1
      ensures outbox == Outbox(Ticked(norm, ReceiveAll(old(View()), now, inbox), now, o), now, o)
    {
      ReceiveInbox(now, inbox);
      out := controller.Step(norm, Sensed(now, o.position, Some(o.armed), Some(o.mode), leaderPosition, leaderHeard));
      outbox := Tell(now, o);
    }

    /** What a drone sends on a step: where it is, its progress when that is due, and its telemetry. */
    method Tell(now: real, o: Observation) returns (outbox: seq<Message>)
      requires Valid()
      modifies this`lastProgress, this`progressSent
      ensures Valid() && View() == Reported(old(View()), now) && outbox == Outbox(old(View()), now, o)
    {
      outbox := [];
      if o.position.Some? {
        outbox := [PoseMessage(id, o.position.value)];
      }
      var progress := controller.Progress();
      if Some(progress) != lastProgress || progressSent.None? || now - progressSent.value >= PROGRESS_PERIOD {
        outbox := outbox + [ProgressMessage(id, progress)];
        lastProgress, progressSent := Some(progress), Some(now);
      }
      outbox := outbox + [TelemetryMessage(id, o.position, o.armed, o.battery)];
    }
  }

  /** Part of the way through what is pending: the rest leads to the same messages and announcement. */
  ghost predicate LeftToDo(all: seq<Message>, end: (Option<MissionId>, seq<Drone>), rest: seq<Action>,
                           outbox: seq<Message>, active: Option<MissionId>, drones: seq<Drone>) {
    outbox + MessagesFor(rest) == all && Announced(active, drones, rest) == end
  }

  lemma OneLessToDo(all: seq<Message>, end: (Option<MissionId>, seq<Drone>), rest: seq<Action>, outbox: seq<Message>,
                    active: Option<MissionId>, drones: seq<Drone>)
    requires rest != [] && LeftToDo(all, end, rest, outbox, active, drones)
    ensures var m := MessageFor(rest[0]);
      LeftToDo(all, end, rest[1..], if m.Some? then outbox + [m.value] else outbox,
               if rest[0].ActiveMission? then rest[0].active else active,
               if rest[0].ActiveMission? then rest[0].drones else drones)
  {
    var m := MessageFor(rest[0]);
    if m.Some? {
      assert (outbox + [m.value]) + MessagesFor(rest[1..]) == outbox + ([m.value] + MessagesFor(rest[1..]));
    } else {
      assert [] + MessagesFor(rest[1..]) == MessagesFor(rest[1..]);
    }
  }

  class ReferenceGround {
    const supervisor: Supervisor.MissionSupervisor
    var readings: map<Drone, Reading>
    var pending: seq<Action>
    var active: Option<MissionId>
    var activeDrones: seq<Drone>
    var reallocated: Option<real>

    ghost predicate Consistent()
      reads this, supervisor
    {
      supervisor.Consistent()
    }

    ghost function View(): GroundSide
      reads this, supervisor
    {
      GroundSide(supervisor.View(), readings, pending, active, activeDrones, reallocated)
    }

    constructor (fleet: seq<Drone>, thresholdPct: real)
      requires Distinct(fleet)
      ensures Consistent() && fresh(supervisor) && supervisor.mission == None
      ensures pending == [] && active == None && activeDrones == []
      ensures forall d :: d in readings ==> readings[d] == UNREAD
    {
      supervisor := new Supervisor.MissionSupervisor(fleet, thresholdPct);
      readings := map d | d in fleet :: UNREAD;
      pending, active, activeDrones, reallocated := [], None, [], None;
    }

    method SubmitMission(message: MissionMessage, planned: Planned)
      requires Consistent()
      modifies this`pending, supervisor
      ensures Consistent()
      ensures View() == Submitted(old(View()), Start(old(View()).supervisor, message, planned))
    {
      var actions := supervisor.Start(message, planned);
      pending := pending + actions;
    }

    method SubmitCommand(command: Command)
      requires Consistent()
      modifies this`pending, supervisor
      ensures Consistent()
      ensures View() == Submitted(old(View()), CommandAll(old(View()).supervisor, command))
    {
      var actions := supervisor.Command(command);
      pending := pending + actions;
    }

    method HearOne(m: Message)
      requires Consistent()
      modifies this`readings, supervisor
      ensures Consistent() && View() == Hear(old(View()), m)
    {
      match m {
        case TelemetryMessage(sender, position, armed, battery) =>
          if sender in readings {
            readings := readings[sender := readings[sender].(armed := Some(armed))];
            supervisor.ObserveBattery(sender, battery);
            supervisor.ObservePosition(sender, position);
          }
        case ProgressMessage(sender, report) =>
          if sender in readings {
            readings := readings[sender :=
              Reading(readings[sender].armed, report.mission, report.index, report.count, report.complete)];
            supervisor.ObserveProgress(sender, report.mission, report.index, report.complete);
          }
        case _ =>
      }
    }

    /** One step: what was heard, the periodic decision if it is due, and the orders it sends. */
    method Step(now: real, inbox: seq<Message>) returns (outbox: seq<Message>)
      requires Consistent()
      modifies this, supervisor
      ensures Consistent()
      ensures Valid(HearAll(old(View()), inbox).supervisor)
      ensures View() == Flushed(Reallocated(HearAll(old(View()), inbox), now))
      ensures outbox == MessagesFor(Reallocated(HearAll(old(View()), inbox), now).pending)
    {
      ghost var all := HearAll(View(), inbox);
      var i := 0;
      while i < |inbox|
        invariant 0 <= i <= |inbox| && Consistent()
        invariant HearAll(View(), inbox[i..]) == all
      {
        assert inbox[i..][0] == inbox[i] && inbox[i..][1..] == inbox[i + 1..];
        HearOne(inbox[i]);
        i := i + 1;
      }
      assert View() == all;
      if reallocated.None? || now - reallocated.value >= REALLOCATION_PERIOD {
        reallocated := Some(now);
        var actions := supervisor.Reallocate();
        pending := pending + actions;
      }
      outbox := CarryOut();
    }

    /** What the swarm state says of the mission announced: is it complete? */
    method Report() returns (mission: Option<MissionId>, complete: bool)
      ensures mission == active && complete == ReportsComplete(View())
    {
      mission, complete := active, false;
      if active.None? || activeDrones == [] {
        return;
      }
      for i := 0 to |activeDrones|
        invariant !complete
        invariant forall j :: 0 <= j < i ==>
          && activeDrones[j] in readings && readings[activeDrones[j]].mission == active
          && readings[activeDrones[j]].complete && readings[activeDrones[j]].armed == Some(false)
      {
        var d := activeDrones[i];
        if d !in readings || readings[d].mission != active || !readings[d].complete || readings[d].armed != Some(false) {
          return;
        }
      }
      complete := true;
    }

    /** Turns what is pending into messages, and announces what it says. */
    method CarryOut() returns (outbox: seq<Message>)
      requires Consistent()
      modifies this`pending, this`active, this`activeDrones
      ensures Consistent()
      ensures View() == Flushed(old(View())) && outbox == MessagesFor(old(pending))
    {
      ghost var all, end := MessagesFor(pending), Announced(active, activeDrones, pending);
      var actions := pending;
      assert actions[0..] == actions && [] + all == all;
      pending := [];
      outbox := [];
      var i := 0;
      while i < |actions|
        invariant 0 <= i <= |actions|
        invariant pending == []
        invariant LeftToDo(all, end, actions[i..], outbox, active, activeDrones)
      {
        assert actions[i..][0] == actions[i] && actions[i..][1..] == actions[i + 1..];
        OneLessToDo(all, end, actions[i..], outbox, active, activeDrones);
        match actions[i] {
          case Assign(d, mission, waypoints) => outbox := outbox + [AssignmentMessage(d, mission, waypoints)];
          case TakeSlot(d, mission, slot) => outbox := outbox + [SlotMessage(d, mission, slot)];
          case Send(d, command) => outbox := outbox + [CommandMessage(d, command)];
          case ActiveMission(mission, drones) => active, activeDrones := mission, drones;
          case _ =>
        }
        i := i + 1;
      }
      assert actions[i..] == [] && outbox + [] == outbox;
      assert actions[i..] == [];
    }
  }
}
