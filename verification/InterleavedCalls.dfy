/** Calls to the mission service under way at the same time (MissionService.cs): every lock of the log is one step,
    and a dispatch awaits the swarm before the first. In what order the steps of different calls come is left open. */
module InterleavedCalls {

  import opened Wrappers
  import opened Lists
  import opened MissionLogs

  type CallId = nat

  /** How far a call has come: the swarm has taken it, or it has read the active missions and ends them one by one.
      `mission` is what a dispatch will add; landing everybody adds nothing. `overtaken` is bookkeeping: what other
      calls have added since, and nobody has ended. */
  datatype Progress =
    | Sent(mission: Option<Id>)
    | Ending(mission: Option<Id>, todo: set<Id>, overtaken: set<Id>)

  datatype World = World(log: Memory<Logged>, calls: map<CallId, Progress>)

  datatype Event =
    | Send(call: CallId, mission: Option<Id>)
    | Snapshot(call: CallId)
    | TryEnd(call: CallId, id: Id, now: real)
    | Add(call: CallId, id: Id)
    | Landed(call: CallId)
    | Completes(id: Id, now: real)
    | Aborts(id: Id, now: real)

  ghost predicate Allowed(w: World, e: Event) {
    match e
    case Send(c, mission) =>
      c !in w.calls && (mission.Some? ==>
        mission.value !in w.log.entries && forall d :: d in w.calls ==> w.calls[d].mission != mission)
    case Snapshot(c) => c in w.calls && w.calls[c].Sent?
    case TryEnd(c, id, now) => c in w.calls && w.calls[c].Ending? && id in w.calls[c].todo
    case Add(c, id) =>
      c in w.calls && w.calls[c].Ending? && w.calls[c].todo == {} && w.calls[c].mission == Some(id)
    case Landed(c) => c in w.calls && w.calls[c].Ending? && w.calls[c].todo == {} && w.calls[c].mission.None?
    case Completes(id, now) => true
    case Aborts(id, now) => true
  }

  function Overtaken(p: Progress, id: Id): Progress {
    if p.Ending? then p.(overtaken := p.overtaken + {id}) else p
  }

  function Relieved(p: Progress, id: Id): Progress {
    if p.Ending? then p.(overtaken := p.overtaken - {id}) else p
  }

  function EndedBy(w: World, id: Id, outcome: Status, now: real): World {
    World(w.log.(entries := Ended(w.log.entries, id, outcome, now)),
          map c | c in w.calls :: Relieved(w.calls[c], id))
  }

  ghost function Stepped(capacity: nat, w: World, e: Event): World
    requires Sound(w) && Allowed(w, e)
  {
    match e
    case Send(c, mission) => w.(calls := w.calls[c := Sent(mission)])
    case Snapshot(c) => w.(calls := w.calls[c := Ending(w.calls[c].mission, ActiveIds(w.log.entries), {})])
    case TryEnd(c, id, now) =>
      var ended := EndedBy(w, id, Aborted, now);
      ended.(calls := ended.calls[c := ended.calls[c].(todo := ended.calls[c].todo - {id})])
    case Add(c, id) =>
      World(AddedNew(capacity, w.log, id, Logged(Active, None)),
            map d | d in w.calls && d != c :: Overtaken(w.calls[d], id))
    case Landed(c) => w.(calls := w.calls - {c})
    case Completes(id, now) => EndedBy(w, id, Completed, now)
    case Aborts(id, now) => EndedBy(w, id, Aborted, now)
  }

  // ----- what every step keeps -----

  /** A call that is ending missions has every active one still to end, unless it was overtaken by it. */
  ghost predicate Accounted(active: set<Id>, p: Progress) {
    p.Ending? ==> active <= p.todo + p.overtaken && p.overtaken <= active
  }

  ghost predicate Sound(w: World) {
    && Listed(w.log)
    && (forall c :: c in w.calls ==> Accounted(ActiveIds(w.log.entries), w.calls[c]))
    && (forall c :: c in w.calls && w.calls[c].mission.Some? ==> w.calls[c].mission.value !in w.log.entries)
    && (forall c, d :: c in w.calls && d in w.calls && c != d && w.calls[c].mission.Some? ==>
          w.calls[c].mission != w.calls[d].mission)
  }

  lemma EndedSound(w: World, id: Id, outcome: Status, now: real)
    requires Sound(w) && !outcome.Active?
    ensures Sound(EndedBy(w, id, outcome, now))
    ensures ActiveIds(EndedBy(w, id, outcome, now).log.entries) == ActiveIds(w.log.entries) - {id}
  {
    var entries := Ended(w.log.entries, id, outcome, now);
    assert entries.Keys == w.log.entries.Keys;
    ReplacedListed(w.log, entries);
    assert ActiveIds(entries) == ActiveIds(w.log.entries) - {id};
  }

  lemma AddedActive(capacity: nat, m: Memory<Logged>, id: Id)
    requires Listed(m) && id !in m.entries
    ensures ActiveIds(AddedNew(capacity, m, id, Logged(Active, None)).entries) == ActiveIds(m.entries) + {id}
  {
  }

  lemma AddSound(capacity: nat, w: World, c: CallId, id: Id)
    requires Sound(w) && Allowed(w, Add(c, id))
    ensures Sound(Stepped(capacity, w, Add(c, id)))
  {
    AddedActive(capacity, w.log, id);
    WithoutCall(w, c, id, AddedNew(capacity, w.log, id, Logged(Active, None)));
  }

  lemma WithoutCall(w: World, c: CallId, id: Id, log: Memory<Logged>)
    requires Sound(w) && c in w.calls && w.calls[c].mission == Some(id) && Listed(log)
    requires forall k :: k in log.entries ==> k in w.log.entries || k == id
    requires ActiveIds(log.entries) == ActiveIds(w.log.entries) + {id} && id !in ActiveIds(w.log.entries)
    ensures Sound(World(log, map d | d in w.calls && d != c :: Overtaken(w.calls[d], id)))
  {
  }

  lemma TryEndSound(capacity: nat, w: World, c: CallId, id: Id, now: real)
    requires Sound(w) && Allowed(w, TryEnd(c, id, now))
    ensures Sound(Stepped(capacity, w, TryEnd(c, id, now)))
  {
    EndedSound(w, id, Aborted, now);
  }

  lemma SnapshotSound(capacity: nat, w: World, c: CallId)
    requires Sound(w) && Allowed(w, Snapshot(c))
    ensures Sound(Stepped(capacity, w, Snapshot(c)))
  {
  }

  lemma StepSound(capacity: nat, w: World, e: Event)
    requires Sound(w) && Allowed(w, e)
    ensures Sound(Stepped(capacity, w, e))
  {
    match e
    case Send(c, mission) =>
    case Snapshot(c) => SnapshotSound(capacity, w, c);
    case TryEnd(c, id, now) => TryEndSound(capacity, w, c, id, now);
    case Add(c, id) => AddSound(capacity, w, c, id);
    case Landed(c) =>
    case Completes(id, now) => EndedSound(w, id, Completed, now);
    case Aborts(id, now) => EndedSound(w, id, Aborted, now);
  }

  /** One mission is active after an Add exactly when none was before. */
  lemma AddKeepsOne(capacity: nat, m: Memory<Logged>, id: Id)
    requires Listed(m) && id !in m.entries
    ensures AtMostOneActive(AddedNew(capacity, m, id, Logged(Active, None)).entries) <==> ActiveIds(m.entries) == {}
  {
    AddedActive(capacity, m, id);
    var after := AddedNew(capacity, m, id, Logged(Active, None)).entries;
    if k :| k in ActiveIds(m.entries) {
      assert k in ActiveIds(after) && id in ActiveIds(after) && k != id;
    } else {
      forall k | k in after && after[k].status.Active? ensures k == id {
        assert k in ActiveIds(after);
      }
    }
  }

  // ----- runs -----

  ghost predicate IsRun(capacity: nat, w: World, events: seq<Event>)
    requires Sound(w)
    decreases |events|
  {
    events != [] ==>
      && Allowed(w, events[0])
      && (StepSound(capacity, w, events[0]); IsRun(capacity, Stepped(capacity, w, events[0]), events[1..]))
  }

  ghost function Run(capacity: nat, w: World, events: seq<Event>): (after: World)
    requires Sound(w) && IsRun(capacity, w, events)
    ensures Sound(after)
    decreases |events|
  {
    if events == [] then w
    else
      StepSound(capacity, w, events[0]);
      Run(capacity, Stepped(capacity, w, events[0]), events[1..])
  }

  /** At no point of the run are two missions active. */
  ghost predicate NeverTwo(capacity: nat, w: World, events: seq<Event>)
    requires Sound(w) && IsRun(capacity, w, events)
    decreases |events|
  {
    && AtMostOneActive(w.log.entries)
    && (events != [] ==>
          (StepSound(capacity, w, events[0]); NeverTwo(capacity, Stepped(capacity, w, events[0]), events[1..])))
  }

  // ----- the same, told by the order of the steps alone -----

  predicate Ends(e: Event, id: Id) {
    (e.TryEnd? || e.Completes? || e.Aborts?) && e.id == id
  }

  predicate Finishes(e: Event, c: CallId) {
    (e.Add? || e.Landed?) && e.call == c
  }

  /** The call read the active missions at step `s` and is not done. */
  ghost predicate OpenSince(past: seq<Event>, s: nat, c: CallId) {
    s < |past| && past[s] == Snapshot(c) && forall m :: s < m < |past| ==> !Finishes(past[m], c)
  }

  ghost predicate Open(past: seq<Event>, c: CallId) {
    exists s: nat :: OpenSince(past, s, c)
  }

  /** `id` was added at step `b`, and nobody has ended it. */
  ghost predicate LeftFlying(past: seq<Event>, b: nat, id: Id) {
    b < |past| && past[b].Add? && past[b].id == id && forall m :: b < m < |past| ==> !Ends(past[m], id)
  }

  /** After `c` read the active missions, another call added `id`, and nobody has ended it. */
  ghost predicate Overtook(past: seq<Event>, c: CallId, id: Id) {
    exists s: nat, b: nat :: s < b && OpenSince(past, s, c) && LeftFlying(past, b, id)
  }

  /** No dispatch adds its mission while one that overtook it is flying. */
  ghost predicate NoneOvertaken(past: seq<Event>, events: seq<Event>)
    decreases |events|
  {
    events != [] ==>
      && (events[0].Add? ==> forall id :: !Overtook(past, events[0].call, id))
      && NoneOvertaken(past + [events[0]], events[1..])
  }

  /** The bookkeeping is what the steps so far say. */
  ghost predicate Recalls(past: seq<Event>, w: World) {
    && (forall c :: (c in w.calls && w.calls[c].Ending?) <==> Open(past, c))
    && (forall c, id :: c in w.calls && w.calls[c].Ending? ==> (id in w.calls[c].overtaken <==> Overtook(past, c, id)))
  }

  lemma OpenAfter(past: seq<Event>, e: Event, c: CallId)
    ensures Open(past + [e], c) <==> e == Snapshot(c) || (Open(past, c) && !Finishes(e, c))
  {
    var now := past + [e];
    if Open(past, c) && !Finishes(e, c) {
      var s: nat :| OpenSince(past, s, c);
      assert OpenSince(now, s, c);
    }
    if e == Snapshot(c) {
      assert OpenSince(now, |past|, c);
    }
    if Open(now, c) && e != Snapshot(c) {
      var s: nat :| OpenSince(now, s, c);
      assert now[|past|] == e;
      assert forall m :: 0 <= m < |past| ==> now[m] == past[m];
      assert OpenSince(past, s, c);
    }
  }

  lemma OvertookAfter(past: seq<Event>, e: Event, c: CallId, id: Id)
    requires Open(past, c) && e != Snapshot(c) && !Finishes(e, c)
    ensures Overtook(past + [e], c, id) <==> (e.Add? && e.id == id) || (Overtook(past, c, id) && !Ends(e, id))
  {
    var now := past + [e];
    assert now[|past|] == e && forall m :: 0 <= m < |past| ==> now[m] == past[m];
    var s: nat :| OpenSince(past, s, c);
    assert OpenSince(now, s, c);
    if e.Add? && e.id == id {
      assert LeftFlying(now, |past|, id);
    } else if Overtook(past, c, id) && !Ends(e, id) {
      var r: nat, b: nat :| r < b && OpenSince(past, r, c) && LeftFlying(past, b, id);
      assert OpenSince(now, r, c) && LeftFlying(now, b, id);
    }
    if Overtook(now, c, id) && !(e.Add? && e.id == id) {
      var r: nat, b: nat :| r < b && OpenSince(now, r, c) && LeftFlying(now, b, id);
      assert OpenSince(past, r, c) && LeftFlying(past, b, id);
    }
  }

  /** A call that has just read the active missions is not overtaken yet. */
  lemma FreshlyOpen(past: seq<Event>, c: CallId, id: Id)
    requires !Open(past, c)
    ensures !Overtook(past + [Snapshot(c)], c, id)
  {
    var now := past + [Snapshot(c)];
    assert forall m :: 0 <= m < |past| ==> now[m] == past[m];
    assert forall s: nat :: s < |past| && OpenSince(now, s, c) ==> OpenSince(past, s, c);
  }

  lemma StepRecalled(capacity: nat, past: seq<Event>, w: World, e: Event)
    requires Sound(w) && Allowed(w, e) && Recalls(past, w)
    ensures Recalls(past + [e], Stepped(capacity, w, e))
  {
    var next := Stepped(capacity, w, e);
    forall c
      ensures (c in next.calls && next.calls[c].Ending?) <==> Open(past + [e], c)
    {
      OpenAfter(past, e, c);
    }
    forall c, id | c in next.calls && next.calls[c].Ending?
      ensures id in next.calls[c].overtaken <==> Overtook(past + [e], c, id)
    {
      if e == Snapshot(c) {
        FreshlyOpen(past, c, id);
      } else {
        OvertookAfter(past, e, c, id);
      }
    }
  }

  /** Two missions are active at some point of a run exactly when some dispatch adds its mission while one that was
      added after it read the active missions is still flying. */
  lemma {:induction false} OneActiveExactly(capacity: nat, past: seq<Event>, w: World, events: seq<Event>)
    requires Sound(w) && Recalls(past, w) && IsRun(capacity, w, events) && AtMostOneActive(w.log.entries)
    ensures NeverTwo(capacity, w, events) <==> NoneOvertaken(past, events)
    decreases |events|
  {
    if events != [] {
      var e := events[0];
      var next := Stepped(capacity, w, e);
      StepSound(capacity, w, e);
      StepRecalled(capacity, past, w, e);
      OneAfterStep(capacity, past, w, e);
      if AtMostOneActive(next.log.entries) {
        OneActiveExactly(capacity, past + [e], next, events[1..]);
      }
    }
  }

  lemma OneAfterStep(capacity: nat, past: seq<Event>, w: World, e: Event)
    requires Sound(w) && Recalls(past, w) && Allowed(w, e) && AtMostOneActive(w.log.entries)
    ensures AtMostOneActive(Stepped(capacity, w, e).log.entries) <==>
      (e.Add? ==> forall id :: !Overtook(past, e.call, id))
  {
    if e.Add? {
      AddKeepsOne(capacity, w.log, e.id);
      AllDone(past, w, e.call);
      assert ActiveIds(w.log.entries) == {} <==> forall id :: id !in ActiveIds(w.log.entries);
    }
  }

  /** A call with nothing left to end: what is active is what overtook it. */
  lemma AllDone(past: seq<Event>, w: World, c: CallId)
    requires Sound(w) && Recalls(past, w) && c in w.calls && w.calls[c].Ending? && w.calls[c].todo == {}
    ensures forall id {:trigger id in ActiveIds(w.log.entries)} :: id in ActiveIds(w.log.entries) <==> Overtook(past, c, id)
  {
    assert Accounted(ActiveIds(w.log.entries), w.calls[c]);
    assert ActiveIds(w.log.entries) == w.calls[c].overtaken;
  }

  /** From a service nobody is calling. */
  lemma OneActiveFromQuiet(capacity: nat, m: Memory<Logged>, events: seq<Event>)
    requires Listed(m) && AtMostOneActive(m.entries) && IsRun(capacity, World(m, map[]), events)
    ensures NeverTwo(capacity, World(m, map[]), events) <==> NoneOvertaken([], events)
  {
    OneActiveExactly(capacity, [], World(m, map[]), events);
  }

  /** Between a dispatch reading the active missions and adding its own, no other adds one. */
  ghost predicate AddsApart(events: seq<Event>) {
    forall s: nat, b: nat, a: nat :: s < b < a < |events| && events[a].Add? && OpenSince(events[..a], s, events[a].call) ==>
      !events[b].Add?
  }

  /** So dispatches whose steps do not overlap never leave two missions active. */
  lemma ApartIsEnough(capacity: nat, m: Memory<Logged>, events: seq<Event>)
    requires Listed(m) && AtMostOneActive(m.entries) && IsRun(capacity, World(m, map[]), events)
    requires AddsApart(events)
    ensures NeverTwo(capacity, World(m, map[]), events)
  {
    ApartNoneOvertaken([], events);
    assert [] + events == events;
    OneActiveFromQuiet(capacity, m, events);
  }

  lemma {:induction false} ApartNoneOvertaken(past: seq<Event>, events: seq<Event>)
    requires AddsApart(past + events)
    ensures NoneOvertaken(past, events)
    decreases |events|
  {
    if events != [] {
      var all := past + events;
      assert (past + [events[0]]) + events[1..] == all;
      assert all[|past|] == events[0] && all[..|past|] == past;
      ApartNoneOvertaken(past + [events[0]], events[1..]);
      if events[0].Add? {
        forall id, s: nat, b: nat | s < b && OpenSince(past, s, events[0].call) && b < |past|
          ensures !LeftFlying(past, b, id)
        {
          assert all[b] == past[b] && !all[b].Add?;
        }
      }
    }
  }

  /** Landing everybody: whatever is active when it is done was added by others since it read what was. */
  lemma LandedEndsWhatItSaw(capacity: nat, past: seq<Event>, w: World, c: CallId, id: Id)
    requires Sound(w) && Recalls(past, w) && Allowed(w, Landed(c))
    ensures id in ActiveIds(w.log.entries) <==> Overtook(past, c, id)
  {
    AllDone(past, w, c);
  }

  lemma OneStep(capacity: nat, w: World, e: Event, rest: seq<Event>)
    requires Sound(w) && Allowed(w, e) && Sound(Stepped(capacity, w, e))
    requires IsRun(capacity, Stepped(capacity, w, e), rest)
    ensures IsRun(capacity, w, [e] + rest)
    ensures Run(capacity, w, [e] + rest) == Run(capacity, Stepped(capacity, w, e), rest)
  {
    assert ([e] + rest)[1..] == rest;
  }

  lemma LastAdd(capacity: nat, w: World, c: CallId, id: Id)
    requires Sound(w) && Allowed(w, Add(c, id))
    ensures IsRun(capacity, w, [Add(c, id)])
    ensures ActiveIds(Run(capacity, w, [Add(c, id)]).log.entries) == ActiveIds(w.log.entries) + {id}
  {
    StepSound(capacity, w, Add(c, id));
    AddedActive(capacity, w.log, id);
    OneStep(capacity, w, Add(c, id), []);
    assert [Add(c, id)] + [] == [Add(c, id)];
  }

  lemma BothAdd(capacity: nat, w: World, c: CallId, a: Id, d: CallId, b: Id)
    requires Sound(w) && c != d && a != b && c in w.calls && d in w.calls
    requires w.calls[c] == Ending(Some(a), {}, {}) && w.calls[d] == Ending(Some(b), {}, {})
    ensures IsRun(capacity, w, [Add(c, a)] + [Add(d, b)])
    ensures ActiveIds(Run(capacity, w, [Add(c, a)] + [Add(d, b)]).log.entries) == {a, b}
  {
    assert Accounted(ActiveIds(w.log.entries), w.calls[c]);
    var one := Stepped(capacity, w, Add(c, a));
    StepSound(capacity, w, Add(c, a));
    AddedActive(capacity, w.log, a);
    LastAdd(capacity, one, d, b);
    OneStep(capacity, w, Add(c, a), [Add(d, b)]);
  }

  lemma BothRead(capacity: nat, w: World, c: CallId, a: Id, d: CallId, b: Id) returns (events: seq<Event>)
    requires Sound(w) && c != d && a != b && c in w.calls && d in w.calls && ActiveIds(w.log.entries) == {}
    requires w.calls[c] == Sent(Some(a)) && w.calls[d] == Sent(Some(b))
    ensures IsRun(capacity, w, events) && ActiveIds(Run(capacity, w, events).log.entries) == {a, b}
  {
    var one := Stepped(capacity, w, Snapshot(c));
    StepSound(capacity, w, Snapshot(c));
    StepSound(capacity, one, Snapshot(d));
    BothAdd(capacity, Stepped(capacity, one, Snapshot(d)), c, a, d, b);
    OneStep(capacity, one, Snapshot(d), [Add(c, a)] + [Add(d, b)]);
    OneStep(capacity, w, Snapshot(c), [Snapshot(d)] + ([Add(c, a)] + [Add(d, b)]));
    events := [Snapshot(c)] + ([Snapshot(d)] + ([Add(c, a)] + [Add(d, b)]));
  }

  /** It does happen: two dispatches to a new service that both read what is active before either adds. */
  lemma TwoActive(capacity: nat, a: Id, b: Id) returns (events: seq<Event>)
    requires a != b
    ensures Sound(World(Memory(map[], []), map[])) && IsRun(capacity, World(Memory(map[], []), map[]), events)
    ensures ActiveIds(Run(capacity, World(Memory(map[], []), map[]), events).log.entries) == {a, b}
  {
    var w := World(Memory(map[], []), map[]);
    StepSound(capacity, w, Send(0, Some(a)));
    var one := Stepped(capacity, w, Send(0, Some(a)));
    StepSound(capacity, one, Send(1, Some(b)));
    var rest := BothRead(capacity, Stepped(capacity, one, Send(1, Some(b))), 0, a, 1, b);
    OneStep(capacity, one, Send(1, Some(b)), rest);
    OneStep(capacity, w, Send(0, Some(a)), [Send(1, Some(b))] + rest);
    events := [Send(0, Some(a))] + ([Send(1, Some(b))] + rest);
  }

  /** A dispatch or a landing whose steps nobody interrupts ends exactly what `EndAll` ends, in whatever order. */
  lemma {:induction false} UninterruptedEndsAll(capacity: nat, w: World, events: seq<Event>, c: CallId, now: real)
    requires Sound(w) && IsRun(capacity, w, events) && c in w.calls && w.calls[c].Ending?
    requires w.calls[c].todo == ActiveIds(w.log.entries)
    requires forall e :: e in events ==> e.TryEnd? && e.call == c && e.now == now
    ensures c in Run(capacity, w, events).calls && Run(capacity, w, events).calls[c].Ending?
    ensures Run(capacity, w, events).calls[c].todo == {} ==>
      Run(capacity, w, events).log == w.log.(entries := AllEnded(w.log.entries, Aborted, now))
    decreases |events|
  {
    if events == [] {
      if w.calls[c].todo == {} {
        NoneToEnd(w.log.entries, Aborted, now);
      }
    } else {
      var e := events[0];
      assert e in events && e == TryEnd(c, e.id, now);
      OneEnded(w.log.entries, e.id, Aborted, now);
      StepSound(capacity, w, e);
      UninterruptedEndsAll(capacity, Stepped(capacity, w, e), events[1..], c, now);
    }
  }
}
