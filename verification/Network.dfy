/** The network the scenarios run on (scenarios/harness.py): what is sent on a step arrives on the next one,
    unless its sender or its recipient is cut off. It is one of the networks of HonestCompletion.dfy, so what is
    proved there holds of every scenario. */
module Network {

  import opened Wrappers
  import opened Geometry
  import opened Fleet
  import opened Lists
  import opened Planning
  import opened Swarm
  import opened HonestCompletion

  datatype Node = Ground | At(drone: Drone)

  type Inboxes = map<Node, seq<Message>>

  function SenderOf(m: Message): Node {
    match m
    case PoseMessage(sender, _) => At(sender)
    case ProgressMessage(sender, _) => At(sender)
    case TelemetryMessage(sender, _, _, _) => At(sender)
    case _ => Ground
  }

  function AllBut(fleet: seq<Drone>, d: Drone): (others: seq<Node>)
    ensures forall n {:trigger n in others} :: n in others <==> n.At? && n.drone in fleet && n.drone != d
  {
    if fleet == [] then []
    else
      assert fleet == [fleet[0]] + fleet[1..];
      (if fleet[0] == d then [] else [At(fleet[0])]) + AllBut(fleet[1..], d)
  }

  function Recipients(fleet: seq<Drone>, m: Message): seq<Node> {
    match m
    case AssignmentMessage(to, _, _) => [At(to)]
    case SlotMessage(to, _, _) => [At(to)]
    case CommandMessage(to, _) => [At(to)]
    case PoseMessage(sender, _) => AllBut(fleet, sender) + [Ground]
    case ProgressMessage(sender, _) => AllBut(fleet, sender) + [Ground]
    case TelemetryMessage(_, _, _, _) => [Ground]
  }

  predicate Cut(cut: set<Drone>, n: Node) {
    n.At? && n.drone in cut
  }

  predicate Delivered(fleet: seq<Drone>, cut: set<Drone>, m: Message, n: Node) {
    !Cut(cut, SenderOf(m)) && n in Recipients(fleet, m) && !Cut(cut, n)
  }

  /** What a node receives of what was sent, in the order it was sent. */
  function Arriving(fleet: seq<Drone>, cut: set<Drone>, outgoing: seq<Message>, n: Node): seq<Message> {
    if outgoing == [] then []
    else (if Delivered(fleet, cut, outgoing[0], n) then [outgoing[0]] else []) + Arriving(fleet, cut, outgoing[1..], n)
  }

  function With(inbox: seq<Message>, m: Message, arrived: bool): seq<Message> {
    if arrived then inbox + [m] else inbox
  }

  function InboxOf(inboxes: Inboxes, n: Node): seq<Message> {
    if n in inboxes then inboxes[n] else []
  }

  lemma {:induction false} OthersDiffer(fleet: seq<Drone>, d: Drone)
    requires Distinct(fleet)
    ensures Distinct(AllBut(fleet, d) + [Ground])
  {
    if fleet != [] {
      OthersDiffer(fleet[1..], d);
      var rest := AllBut(fleet[1..], d) + [Ground];
      if fleet[0] == d {
        assert AllBut(fleet, d) + [Ground] == rest;
      } else {
        assert AllBut(fleet, d) + [Ground] == [At(fleet[0])] + rest;
        assert ([At(fleet[0])] + rest)[1..] == rest;
      }
    }
  }

  lemma RecipientsDiffer(fleet: seq<Drone>, m: Message)
    requires Distinct(fleet)
    ensures Distinct(Recipients(fleet, m))
  {
    if m.PoseMessage? || m.ProgressMessage? {
      OthersDiffer(fleet, m.sender);
    }
  }

  class Mail {
    const fleet: seq<Drone>
    var inboxes: Inboxes

    constructor (drones: seq<Drone>)
      ensures fleet == drones && inboxes == map[]
    {
      fleet, inboxes := drones, map[];
    }

    /** Hands over what arrived for one node. */
    method Take(n: Node) returns (messages: seq<Message>)
      modifies this
      ensures messages == InboxOf(old(inboxes), n) && inboxes == old(inboxes) - {n}
    {
      messages := if n in inboxes then inboxes[n] else [];
      inboxes := inboxes - {n};
    }

    /** Puts what was sent on this step where it arrives on the next: each message once at each of its recipients,
        in order, and nowhere if either end is cut off. */
    method Post(outgoing: seq<Message>, cut: set<Drone>)
      requires Distinct(fleet)
      modifies this
      ensures forall n :: InboxOf(inboxes, n) == InboxOf(old(inboxes), n) + Arriving(fleet, cut, outgoing, n)
    {
      var i := 0;
      while i < |outgoing|
        invariant 0 <= i <= |outgoing|
        invariant forall n ::
          InboxOf(inboxes, n) + Arriving(fleet, cut, outgoing[i..], n)
          == InboxOf(old(inboxes), n) + Arriving(fleet, cut, outgoing, n)
      {
        ghost var was, rest := inboxes, outgoing[i..];
        var m := outgoing[i];
        assert rest[0] == m && rest[1..] == outgoing[i + 1..];
        PostOne(m, cut);
        forall n
          ensures InboxOf(inboxes, n) + Arriving(fleet, cut, outgoing[i + 1..], n)
               == InboxOf(old(inboxes), n) + Arriving(fleet, cut, outgoing, n)
        {
          assert InboxOf(was, n) + Arriving(fleet, cut, rest, n) == InboxOf(old(inboxes), n) + Arriving(fleet, cut, outgoing, n);
          NextArrives(fleet, cut, rest, n, InboxOf(was, n));
        }
        i := i + 1;
      }
      assert outgoing[i..] == [];
      forall n ensures InboxOf(inboxes, n) == InboxOf(old(inboxes), n) + Arriving(fleet, cut, outgoing, n) {
        assert InboxOf(inboxes, n) + [] == InboxOf(inboxes, n);
        assert InboxOf(inboxes, n) + Arriving(fleet, cut, outgoing[i..], n)
            == InboxOf(old(inboxes), n) + Arriving(fleet, cut, outgoing, n);
      }
    }

    method Put(to: Node, m: Message)
      modifies this
      ensures forall n :: InboxOf(inboxes, n) == With(InboxOf(old(inboxes), n), m, n == to)
    {
      inboxes := inboxes[to := InboxOf(inboxes, to) + [m]];
    }

    method PostOne(m: Message, cut: set<Drone>)
      requires Distinct(fleet)
      modifies this
      ensures forall n :: InboxOf(inboxes, n) == With(InboxOf(old(inboxes), n), m, Delivered(fleet, cut, m, n))
    {
      if Cut(cut, SenderOf(m)) {
        return;
      }
      RecipientsDiffer(fleet, m);
      var rest := Recipients(fleet, m);
      while rest != []
        invariant Distinct(rest)
        invariant forall n :: n in rest ==> n in Recipients(fleet, m)
        invariant forall n ::
          InboxOf(inboxes, n) == With(InboxOf(old(inboxes), n), m, n !in rest && Delivered(fleet, cut, m, n))
        decreases |rest|
      {
        var to := rest[0];
        if !Cut(cut, to) {
          Put(to, m);
        }
        assert rest == [to] + rest[1..];
        rest := rest[1..];
      }
    }
  }

  lemma NextArrives(fleet: seq<Drone>, cut: set<Drone>, rest: seq<Message>, n: Node, before: seq<Message>)
    requires rest != []
    ensures With(before, rest[0], Delivered(fleet, cut, rest[0], n)) + Arriving(fleet, cut, rest[1..], n)
         == before + Arriving(fleet, cut, rest, n)
  {
    var more := Arriving(fleet, cut, rest[1..], n);
    if Delivered(fleet, cut, rest[0], n) {
      Regrouped(before, rest[0], more);
    } else {
      assert [] + more == more;
    }
  }

  lemma Regrouped(before: seq<Message>, m: Message, more: seq<Message>)
    ensures (before + [m]) + more == before + ([m] + more)
  {
  }

  /** Nothing arrives that was not sent, or at somebody it was not for. */
  lemma {:induction false} ArrivedWasSent(fleet: seq<Drone>, cut: set<Drone>, outgoing: seq<Message>, n: Node,
                                          m: Message)
    requires m in Arriving(fleet, cut, outgoing, n)
    ensures m in outgoing && Delivered(fleet, cut, m, n) && (n.At? ==> ForDrone(m, n.drone))
  {
    if !(m == outgoing[0] && Delivered(fleet, cut, m, n)) {
      ArrivedWasSent(fleet, cut, outgoing[1..], n, m);
    }
  }

  /** Who a message goes to, from its sender: an order to the drone it names; a position and a report to the ground and to
      every other drone of the fleet; telemetry to the ground alone. */
  predicate GoesTo(fleet: seq<Drone>, m: Message, n: Node) {
    match m
    case AssignmentMessage(to, _, _) => n == At(to)
    case SlotMessage(to, _, _) => n == At(to)
    case CommandMessage(to, _) => n == At(to)
    case PoseMessage(sender, _) => n.Ground? || (n.drone in fleet && n.drone != sender)
    case ProgressMessage(sender, _) => n.Ground? || (n.drone in fleet && n.drone != sender)
    case TelemetryMessage(_, _, _, _) => n.Ground?
  }

  /** Drones that are cut off neither send nor receive; the ground is never cut off. */
  predicate Connected(cut: set<Drone>, m: Message, n: Node) {
    && (n.At? ==> n.drone !in cut)
    && (m.PoseMessage? || m.ProgressMessage? || m.TelemetryMessage? ==> m.sender !in cut)
  }

  /** What is sent arrives as often as it was sent, at exactly those it goes to, unless either end is cut off. */
  lemma {:induction false} ArrivesExactly(fleet: seq<Drone>, cut: set<Drone>, outgoing: seq<Message>, n: Node, m: Message)
    ensures multiset(Arriving(fleet, cut, outgoing, n))[m] ==
      if GoesTo(fleet, m, n) && Connected(cut, m, n) then multiset(outgoing)[m] else 0
  {
    if outgoing != [] {
      var first, rest := outgoing[0], Arriving(fleet, cut, outgoing[1..], n);
      ArrivesExactly(fleet, cut, outgoing[1..], n, m);
      DeliveredExactly(fleet, cut, first, n);
      OneFirst(first, outgoing[1..], m);
      OneFirst(first, rest, m);
      assert outgoing == [first] + outgoing[1..];
      assert [] + rest == rest;
    }
  }

  lemma OneFirst(first: Message, rest: seq<Message>, m: Message)
    ensures multiset([first] + rest)[m] == multiset(rest)[m] + if first == m then 1 else 0
  {
  }

  lemma DeliveredExactly(fleet: seq<Drone>, cut: set<Drone>, m: Message, n: Node)
    ensures Delivered(fleet, cut, m, n) <==> GoesTo(fleet, m, n) && Connected(cut, m, n)
  {
  }

  // ----- a scenario, step by step -----

  /** The swarm and what waits in the inboxes. */
  datatype Scenario = Scenario(sys: System, inboxes: Inboxes)

  /** One step of the harness: the requests due, who is cut off, and what each drone observes. */
  datatype Round = Round(now: real, requests: seq<Event>, seen: map<Drone, Observation>, cut: set<Drone>)

  function DroneSteps(fleet: seq<Drone>, r: Round, inboxes: Inboxes): (events: seq<Event>)
    requires forall d :: d in fleet ==> d in r.seen
  {
    if fleet == [] then []
    else [DroneStep(fleet[0], r.now, r.seen[fleet[0]], InboxOf(inboxes, At(fleet[0])))] + DroneSteps(fleet[1..], r, inboxes)
  }

  function RoundEvents(fleet: seq<Drone>, r: Round, inboxes: Inboxes): seq<Event>
    requires forall d :: d in fleet ==> d in r.seen
  {
    r.requests + ([GroundStep(r.now, InboxOf(inboxes, Ground))] + DroneSteps(fleet, r, inboxes))
  }

  /** What waits in the inboxes was sent, and to whom it waits for. */
  ghost predicate MailSent(sent: set<Message>, inboxes: Inboxes) {
    forall n, m :: n in inboxes && m in inboxes[n] ==> m in sent && (n.At? ==> ForDrone(m, n.drone))
  }

  /** What a step sends. */
  ghost function SentBy(sys: System, e: Event): seq<Message>
    requires Configured(sys) && Allowed(sys, e)
  {
    match e
    case GroundStep(now, inbox) =>
      HearingKeepsValid(sys.ground, inbox);
      MessagesFor(Reallocated(HearAll(sys.ground, inbox), now).pending)
    case DroneStep(d, now, o, inbox) => Outbox(Ticked(sys.book.norm, ReceiveAll(sys.drones[d], now, inbox), now, o), now, o)
    case _ => []
  }

  ghost function SentIn(trace: seq<System>, events: seq<Event>): seq<Message>
    requires IsRun(trace, events)
    decreases |events|
  {
    if events == [] then []
    else
      assert IsStep(trace[0], events[0], trace[1]);
      RunOnward(trace, events);
      SentBy(trace[0], events[0]) + SentIn(trace[1..], events[1..])
  }

  lemma RunOnward(trace: seq<System>, events: seq<Event>)
    requires IsRun(trace, events) && events != []
    ensures IsStep(trace[0], events[0], trace[1]) && IsRun(trace[1..], events[1..])
  {
    forall k | 0 <= k < |events[1..]| ensures IsStep(trace[1..][k], events[1..][k], trace[1..][k + 1]) {
      assert IsStep(trace[k + 1], events[k + 1], trace[k + 2]);
    }
    assert IsStep(trace[0], events[0], trace[1]);
  }

  lemma NextSends(sys: System, e: Event)
    requires Configured(sys) && Allowed(sys, e)
    ensures Next(sys, e).sent == sys.sent + MessageSet(SentBy(sys, e))
    ensures Next(sys, e).drones.Keys == sys.drones.Keys
  {
    assert sys.sent + MessageSet([]) == sys.sent;
  }

  lemma {:induction false} RunSends(trace: seq<System>, events: seq<Event>)
    requires IsRun(trace, events)
    ensures trace[0].sent <= trace[|events|].sent
    ensures forall m :: m in SentIn(trace, events) ==> m in trace[|events|].sent
    decreases |events|
  {
    if events != [] {
      RunOnward(trace, events);
      NextSends(trace[0], events[0]);
      RunSends(trace[1..], events[1..]);
    }
  }

  lemma InboxAllowed(sys: System, inboxes: Inboxes, n: Node)
    requires MailSent(sys.sent, inboxes)
    ensures forall m :: m in InboxOf(inboxes, n) ==> m in sys.sent && (n.At? ==> ForDrone(m, n.drone))
  {
    if n in inboxes {
      assert forall m :: m in inboxes[n] ==> m in sys.sent && (n.At? ==> ForDrone(m, n.drone));
    }
  }

  lemma DroneGoesOn(trace: seq<System>, events: seq<Event>, d: Drone, now: real, o: Observation, inboxes: Inboxes)
    returns (more: seq<System>)
    requires IsRun(trace, events) && Configured(trace[|events|]) && MailSent(trace[|events|].sent, inboxes)
    requires d in trace[|events|].drones
    ensures IsRun(more, events + [DroneStep(d, now, o, InboxOf(inboxes, At(d)))]) && more[0] == trace[0]
    ensures Configured(more[|events| + 1]) && MailSent(more[|events| + 1].sent, inboxes)
    ensures more[|events| + 1].drones.Keys == trace[|events|].drones.Keys
  {
    var sys, e := trace[|events|], DroneStep(d, now, o, InboxOf(inboxes, At(d)));
    InboxAllowed(sys, inboxes, At(d));
    RunGoesOn(trace, events, e);
    NextSends(sys, e);
    more := trace + [Next(sys, e)];
  }

  /** A run goes on with one step of every drone of the fleet. */
  lemma {:induction false} DronesGoOn(trace: seq<System>, events: seq<Event>, fleet: seq<Drone>, r: Round, inboxes: Inboxes)
    returns (more: seq<System>)
    requires IsRun(trace, events) && Configured(trace[|events|]) && MailSent(trace[|events|].sent, inboxes)
    requires forall d :: d in fleet ==> d in r.seen && d in trace[|events|].drones
    ensures IsRun(more, events + DroneSteps(fleet, r, inboxes)) && more[0] == trace[0]
    decreases |fleet|
  {
    if fleet == [] {
      assert events + [] == events;
      more := trace;
    } else {
      var e := DroneStep(fleet[0], r.now, r.seen[fleet[0]], InboxOf(inboxes, At(fleet[0])));
      more := DroneGoesOn(trace, events, fleet[0], r.now, r.seen[fleet[0]], inboxes);
      more := DronesGoOn(more, events + [e], fleet[1..], r, inboxes);
      assert (events + [e]) + DroneSteps(fleet[1..], r, inboxes) == events + DroneSteps(fleet, r, inboxes);
    }
  }

  /** A step of the harness is a sequence of steps the network of HonestCompletion.dfy allows. */
  lemma RoundAllowed(fleet: seq<Drone>, inboxes: Inboxes, r: Round, asked: seq<System>) returns (trace: seq<System>)
    requires IsRun(asked, r.requests) && Configured(asked[|r.requests|])
    requires MailSent(asked[|r.requests|].sent, inboxes)
    requires forall d :: d in fleet ==> d in r.seen && d in asked[|r.requests|].drones
    ensures IsRun(trace, RoundEvents(fleet, r, inboxes)) && trace[0] == asked[0]
  {
    var sys, ground := asked[|r.requests|], GroundStep(r.now, InboxOf(inboxes, Ground));
    InboxAllowed(sys, inboxes, Ground);
    RunGoesOn(asked, r.requests, ground);
    NextSends(sys, ground);
    trace := DronesGoOn(asked + [Next(sys, ground)], r.requests + [ground], fleet, r, inboxes);
    var rest := DroneSteps(fleet, r, inboxes);
    assert (r.requests + [ground]) + rest == r.requests + ([ground] + rest);
  }

  /** Everybody took what waited for them, and what was sent on the round waits for the next. */
  ghost predicate FollowsBy(fleet: seq<Drone>, sc: Scenario, r: Round, trace: seq<System>, next: Scenario)
    requires forall d :: d in fleet ==> d in r.seen
  {
    && (forall e :: e in r.requests ==> e.Request? || e.Order?)
    && IsRun(trace, RoundEvents(fleet, r, sc.inboxes))
    && trace[0] == sc.sys && trace[|trace| - 1] == next.sys
    && forall n ::
      InboxOf(next.inboxes, n) ==
      (if n.Ground? || n.drone in fleet then [] else InboxOf(sc.inboxes, n)) +
      Arriving(fleet, r.cut, SentIn(trace, RoundEvents(fleet, r, sc.inboxes)), n)
  }

  ghost predicate Follows(fleet: seq<Drone>, sc: Scenario, r: Round, next: Scenario) {
    && (forall d :: d in fleet ==> d in r.seen)
    && exists trace :: FollowsBy(fleet, sc, r, trace, next)
  }

  ghost predicate ScenarioKept(sc: Scenario) {
    Kept(sc.sys) && MailSent(sc.sys.sent, sc.inboxes)
  }

  lemma NextMailSent(fleet: seq<Drone>, cut: set<Drone>, before: Inboxes, after: Inboxes, outgoing: seq<Message>,
                     was: set<Message>, now: set<Message>)
    requires MailSent(was, before) && was <= now && forall m :: m in outgoing ==> m in now
    requires forall n ::
      InboxOf(after, n) ==
      (if n.Ground? || n.drone in fleet then [] else InboxOf(before, n)) + Arriving(fleet, cut, outgoing, n)
    ensures MailSent(now, after)
  {
    forall n, m | n in after && m in after[n] ensures m in now && (n.At? ==> ForDrone(m, n.drone)) {
      assert m in InboxOf(after, n);
      if m in Arriving(fleet, cut, outgoing, n) {
        ArrivedWasSent(fleet, cut, outgoing, n, m);
      }
    }
  }

  lemma FollowsKept(fleet: seq<Drone>, sc: Scenario, r: Round, trace: seq<System>, next: Scenario)
    requires forall d :: d in fleet ==> d in r.seen
    requires ScenarioKept(sc) && FollowsBy(fleet, sc, r, trace, next)
    ensures ScenarioKept(next)
  {
    var events := RoundEvents(fleet, r, sc.inboxes);
    RunKept(trace, events, |events|);
    RunSends(trace, events);
    NextMailSent(fleet, r.cut, sc.inboxes, next.inboxes, SentIn(trace, events), sc.sys.sent, next.sys.sent);
  }

  /** A scenario from its start: every round follows from the one before. */
  ghost predicate IsScenario(fleet: seq<Drone>, course: seq<Scenario>, rounds: seq<Round>) {
    && |course| == |rounds| + 1
    && forall k {:trigger rounds[k]} :: 0 <= k < |rounds| ==> Follows(fleet, course[k], rounds[k], course[k + 1])
  }

  lemma {:induction false} EveryRoundKept(fleet: seq<Drone>, course: seq<Scenario>, rounds: seq<Round>, k: nat)
    requires IsScenario(fleet, course, rounds) && ScenarioKept(course[0]) && k < |course|
    ensures ScenarioKept(course[k])
  {
    if k > 0 {
      EveryRoundKept(fleet, course, rounds, k - 1);
      assert Follows(fleet, course[k - 1], rounds[k - 1], course[k]);
      var trace :| FollowsBy(fleet, course[k - 1], rounds[k - 1], trace, course[k]);
      FollowsKept(fleet, course[k - 1], rounds[k - 1], trace, course[k]);
    }
  }

  /** In every scenario, whoever is cut off and for how long: at every step, a mission reported complete is. */
  lemma EveryScenarioIsHonest(fleet: seq<Drone>, course: seq<Scenario>, rounds: seq<Round>)
    requires IsScenario(fleet, course, rounds)
    requires Initial(course[0].sys) && course[0].inboxes == map[]
    ensures forall k :: 0 <= k < |course| ==> ReportIsTrue(course[k].sys)
  {
    InitiallyKept(course[0].sys);
    forall k | 0 <= k < |course| ensures ReportIsTrue(course[k].sys) {
      EveryRoundKept(fleet, course, rounds, k);
      KeptIsTrue(course[k].sys);
    }
  }
}
