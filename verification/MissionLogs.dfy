/** The bounded memories of missions and plans (MissionLog.cs, MissionPlanStore.cs), and the service that
    keeps each mission's status (MissionService.cs). Ids are new when they are added. */
module MissionLogs {

  import opened Wrappers
  import opened Lists

  type Id = nat

  /** Entries by id, and their ids in the order they were added. */
  datatype Memory<V> = Memory(entries: map<Id, V>, order: seq<Id>)

  // ----- forgetting -----

  /** Walks from the oldest, forgetting what nobody is waiting on, until there is room. */
  ghost function Trimmed<V>(waiting: V -> bool, capacity: nat, entries: map<Id, V>, order: seq<Id>): Memory<V>
    requires forall id :: id in order ==> id in entries
    requires Distinct(order)
    decreases |order|
  {
    if |entries| <= capacity || order == [] then Memory(entries, order)
    else if waiting(entries[order[0]]) then
      var rest := Trimmed(waiting, capacity, entries, order[1..]);
      Memory(rest.entries, [order[0]] + rest.order)
    else Trimmed(waiting, capacity, entries - {order[0]}, order[1..])
  }

  /** The order names every entry, once. */
  ghost predicate Listed<V>(m: Memory<V>) {
    Distinct(m.order) && Members(m.order) == m.entries.Keys
  }

  ghost function Added<V>(waiting: V -> bool, capacity: nat, m: Memory<V>, id: Id, value: V): Memory<V>
    requires Distinct(m.order + [id]) && forall k :: k in m.order + [id] ==> k in m.entries[id := value]
  {
    Trimmed(waiting, capacity, m.entries[id := value], m.order + [id])
  }

  /** The entries nobody is waiting on, oldest first. */
  function Finished<V>(waiting: V -> bool, entries: map<Id, V>, order: seq<Id>): (finished: seq<Id>)
    requires forall id :: id in order ==> id in entries
    ensures forall id {:trigger id in finished} :: id in finished <==> id in order && !waiting(entries[id])
  {
    if order == [] then []
    else
      assert order == [order[0]] + order[1..];
      (if waiting(entries[order[0]]) then [] else [order[0]]) + Finished(waiting, entries, order[1..])
  }

  function Excess(count: nat, capacity: nat, finished: nat): nat {
    var over := if count > capacity then count - capacity else 0;
    if over < finished then over else finished
  }

  lemma FinishedSame<V>(waiting: V -> bool, entries: map<Id, V>, gone: Id, order: seq<Id>)
    requires gone !in order && forall id :: id in order ==> id in entries
    ensures Finished(waiting, entries - {gone}, order) == Finished(waiting, entries, order)
  {
    if order != [] {
      FinishedSame(waiting, entries, gone, order[1..]);
    }
  }

  /** What becomes of one entry: it goes exactly if it is among the oldest finished ones, as many as there are
      too many; if it stays, it stays as it is. */
  ghost predicate ForgottenRightly<V>(waiting: V -> bool, capacity: nat, entries: map<Id, V>, order: seq<Id>, id: Id)
    requires Distinct(order) && (forall k :: k in order ==> k in entries) && id in entries
  {
    var finished := Finished(waiting, entries, order);
    var after := Trimmed(waiting, capacity, entries, order);
    && (id in after.entries <==> id !in finished[..Excess(|entries|, capacity, |finished|)])
    && (id in after.entries ==> after.entries[id] == entries[id])
    && (id in after.order <==> id in order && id in after.entries)
  }

  lemma FirstWaited<V>(waiting: V -> bool, capacity: nat, entries: map<Id, V>, order: seq<Id>, id: Id)
    requires Distinct(order) && (forall k :: k in order ==> k in entries) && id in entries
    requires |entries| > capacity && order != [] && waiting(entries[order[0]])
    requires ForgottenRightly(waiting, capacity, entries, order[1..], id)
    ensures ForgottenRightly(waiting, capacity, entries, order, id)
  {
    assert Finished(waiting, entries, order) == Finished(waiting, entries, order[1..]);
    if id == order[0] {
      var finished := Finished(waiting, entries, order);
      assert id !in finished;
    }
  }

  lemma FirstForgotten<V>(waiting: V -> bool, capacity: nat, entries: map<Id, V>, order: seq<Id>, id: Id)
    requires Distinct(order) && (forall k :: k in order ==> k in entries) && id in entries
    requires |entries| > capacity && order != [] && !waiting(entries[order[0]]) && id != order[0]
    requires ForgottenRightly(waiting, capacity, entries - {order[0]}, order[1..], id)
    ensures ForgottenRightly(waiting, capacity, entries, order, id)
  {
    var first, fewer := order[0], entries - {order[0]};
    FinishedSame(waiting, entries, first, order[1..]);
    var rest := Finished(waiting, fewer, order[1..]);
    var n := Excess(|fewer|, capacity, |rest|);
    OneFewer(entries, first);
    assert ([first] + rest)[..n + 1] == [first] + rest[..n];
  }

  lemma OneFewer<V>(entries: map<Id, V>, id: Id)
    requires id in entries
    ensures |entries - {id}| == |entries| - 1
  {
    assert (entries - {id}).Keys == entries.Keys - {id};
  }

  lemma FirstIsForgotten<V>(waiting: V -> bool, capacity: nat, entries: map<Id, V>, order: seq<Id>)
    requires Distinct(order) && forall k :: k in order ==> k in entries
    requires |entries| > capacity && order != [] && !waiting(entries[order[0]])
    ensures ForgottenRightly(waiting, capacity, entries, order, order[0])
  {
    var finished := Finished(waiting, entries, order);
    GoneStays(waiting, capacity, entries - {order[0]}, order[1..], order[0]);
    assert finished[0] == order[0];
  }

  /** Forgetting takes exactly the oldest finished entries, as many as there are too many, and no others: nothing
      that is still waited on goes, and nothing goes while there is room. */
  lemma {:induction false} OldestForgotten<V>(waiting: V -> bool, capacity: nat, entries: map<Id, V>, order: seq<Id>,
                                              id: Id)
    requires Distinct(order) && (forall k :: k in order ==> k in entries) && id in entries
    ensures ForgottenRightly(waiting, capacity, entries, order, id)
    decreases |order|
  {
    if |entries| > capacity && order != [] {
      if waiting(entries[order[0]]) {
        OldestForgotten(waiting, capacity, entries, order[1..], id);
        FirstWaited(waiting, capacity, entries, order, id);
      } else if id == order[0] {
        FirstIsForgotten(waiting, capacity, entries, order);
      } else {
        OldestForgotten(waiting, capacity, entries - {order[0]}, order[1..], id);
        FirstForgotten(waiting, capacity, entries, order, id);
      }
    }
  }

  lemma {:induction false} GoneStays<V>(waiting: V -> bool, capacity: nat, entries: map<Id, V>, order: seq<Id>, id: Id)
    requires Distinct(order) && forall k :: k in order ==> k in entries
    requires id !in entries && id !in order
    ensures id !in Trimmed(waiting, capacity, entries, order).entries && id !in Trimmed(waiting, capacity, entries, order).order
    decreases |order|
  {
    if |entries| > capacity && order != [] {
      if waiting(entries[order[0]]) {
        GoneStays(waiting, capacity, entries, order[1..], id);
      } else {
        GoneStays(waiting, capacity, entries - {order[0]}, order[1..], id);
      }
    }
  }

  lemma {:induction false} StaysListed<V>(waiting: V -> bool, capacity: nat, entries: map<Id, V>, order: seq<Id>)
    requires Distinct(order) && forall k :: k in order ==> k in entries
    ensures Distinct(Trimmed(waiting, capacity, entries, order).order)
    decreases |order|
  {
    if |entries| > capacity && order != [] {
      if waiting(entries[order[0]]) {
        StaysListed(waiting, capacity, entries, order[1..]);
        if order[0] in Trimmed(waiting, capacity, entries, order[1..]).order {
          OldestForgotten(waiting, capacity, entries, order[1..], order[0]);
        }
      } else {
        StaysListed(waiting, capacity, entries - {order[0]}, order[1..]);
      }
    }
  }

  lemma AddReady<V>(m: Memory<V>, id: Id, value: V)
    requires Listed(m) && id !in m.entries
    ensures Distinct(m.order + [id]) && forall k :: k in m.order + [id] ==> k in m.entries[id := value]
  {
    assert id !in Members(m.order);
    OneMore(m.order, id);
    forall k | k in m.order + [id] ensures k in m.entries[id := value] {
      assert k in Members(m.order + [id]);
    }
  }

  lemma AddedOne<V>(waiting: V -> bool, capacity: nat, entries: map<Id, V>, order: seq<Id>, k: Id)
    requires Distinct(order) && Members(order) == entries.Keys && forall id :: id in order ==> id in entries
    ensures var after := Trimmed(waiting, capacity, entries, order);
      && (k in after.entries ==> k in entries && after.entries[k] == entries[k])
      && (k in after.order <==> k in after.entries)
      && (k in entries && (waiting(entries[k]) || |entries| <= capacity) ==> k in after.entries)
  {
    var finished := Finished(waiting, entries, order);
    assert k in Members(order) <==> k in order;
    if k in entries {
      OldestForgotten(waiting, capacity, entries, order, k);
      InPrefix(finished, Excess(|entries|, capacity, |finished|), k);
    } else {
      GoneStays(waiting, capacity, entries, order, k);
    }
  }

  lemma InPrefix(ids: seq<Id>, n: nat, k: Id)
    requires n <= |ids|
    ensures k in ids[..n] ==> k in ids && n > 0
  {
  }

  /** With ids that are new, adding keeps the order naming every entry once; it never forgets what is waited on,
      and nothing at all while there is room. */
  lemma AddKeeps<V>(waiting: V -> bool, capacity: nat, m: Memory<V>, id: Id, value: V)
    requires Listed(m) && id !in m.entries && Distinct(m.order + [id])
    requires forall k :: k in m.order + [id] ==> k in m.entries[id := value]
    ensures var now, after := m.entries[id := value], Added(waiting, capacity, m, id, value);
      && Listed(after)
      && (forall k :: k in after.entries ==> k in now && after.entries[k] == now[k])
      && (forall k :: k in now && (waiting(now[k]) || |now| <= capacity) ==> k in after.entries)
  {
    OneMore(m.order, id);
    TrimKeeps(waiting, capacity, m.entries[id := value], m.order + [id]);
  }

  lemma TrimKeeps<V>(waiting: V -> bool, capacity: nat, entries: map<Id, V>, order: seq<Id>)
    requires Distinct(order) && Members(order) == entries.Keys && forall k :: k in order ==> k in entries
    ensures var after := Trimmed(waiting, capacity, entries, order);
      && Listed(after)
      && (forall k :: k in after.entries ==> k in entries && after.entries[k] == entries[k])
      && (forall k :: k in entries && (waiting(entries[k]) || |entries| <= capacity) ==> k in after.entries)
  {
    var after := Trimmed(waiting, capacity, entries, order);
    StaysListed(waiting, capacity, entries, order);
    forall k
      ensures k in after.entries ==> k in entries && after.entries[k] == entries[k]
      ensures k in Members(after.order) <==> k in after.entries
      ensures k in entries && (waiting(entries[k]) || |entries| <= capacity) ==> k in after.entries
    {
      AddedOne(waiting, capacity, entries, order, k);
    }
    assert Members(after.order) == after.entries.Keys;
  }

  /** After trimming there is room, or everything left is waited on. */
  lemma {:induction false} TrimmedSize<V>(waiting: V -> bool, capacity: nat, entries: map<Id, V>, order: seq<Id>)
    requires Distinct(order) && forall k :: k in order ==> k in entries
    ensures var after := Trimmed(waiting, capacity, entries, order);
      |after.entries| <= capacity || forall k :: k in after.order ==> k in entries && waiting(entries[k])
    decreases |order|
  {
    if |entries| > capacity && order != [] {
      TrimmedSize(waiting, capacity, if waiting(entries[order[0]]) then entries else entries - {order[0]}, order[1..]);
    }
  }

  class BoundedMemory<V> {
    const waiting: V -> bool
    const capacity: nat
    var entries: map<Id, V>
    var order: seq<Id>

    function View(): Memory<V>
      reads this
    {
      Memory(entries, order)
    }

    ghost predicate Consistent()
      reads this
    {
      Listed(View())
    }

    constructor (stillWaiting: V -> bool, size: nat)
      ensures Consistent() && View() == Memory(map[], []) && waiting == stillWaiting && capacity == size
    {
      waiting, capacity, entries, order := stillWaiting, size, map[], [];
    }

    /** The ids added last, newest first. */
    function Recent(limit: nat): (recent: seq<Id>)
      reads this
      ensures |recent| == if limit < |order| then limit else |order|
      ensures forall i :: 0 <= i < |recent| ==> recent[i] == order[|order| - 1 - i]
    {
      seq(if limit < |order| then limit else |order|, i requires 0 <= i < |order| reads this => order[|order| - 1 - i])
    }

    method Add(id: Id, value: V)
      requires Consistent() && id !in entries
      modifies this
      ensures Distinct(old(order) + [id]) && forall k :: k in old(order) + [id] ==> k in old(entries)[id := value]
      ensures Consistent() && View() == Added(waiting, capacity, old(View()), id, value)
    {
      AddReady(View(), id, value);
      AddKeeps(waiting, capacity, View(), id, value);
      entries := entries[id := value];
      order := order + [id];
      Trim();
    }

    method Trim()
      requires Distinct(order) && forall k :: k in order ==> k in entries
      modifies this
      ensures View() == Trimmed(waiting, capacity, old(entries), old(order))
    {
      ghost var end := Trimmed(waiting, capacity, entries, order);
      var kept, rest := [], order;
      while |entries| > capacity && rest != []
        invariant Distinct(rest) && forall k :: k in rest ==> k in entries
        invariant var after := Trimmed(waiting, capacity, entries, rest);
          after.entries == end.entries && kept + after.order == end.order
        decreases |rest|
      {
        ghost var after := Trimmed(waiting, capacity, entries, rest[1..]).order;
        if waiting(entries[rest[0]]) {
          assert (kept + [rest[0]]) + after == kept + ([rest[0]] + after);
          kept := kept + [rest[0]];
        } else {
          entries := entries - {rest[0]};
        }
        rest := rest[1..];
      }
      order := kept + rest;
    }

    /** Replaces what is kept under an id, in place. */
    method Update(id: Id, value: V)
      requires Consistent() && id in entries
      modifies this`entries
      ensures Consistent() && entries == old(entries)[id := value]
    {
      entries := entries[id := value];
    }
  }

  // ----- the missions' statuses -----

  datatype Status = Active | Completed | Aborted

  datatype Logged = Logged(status: Status, endedAt: Option<real>)

  predicate IsActive(m: Logged) {
    m.status.Active?
  }

  function Ended(entries: map<Id, Logged>, id: Id, outcome: Status, now: real): map<Id, Logged> {
    if id in entries && entries[id].status.Active? then entries[id := Logged(outcome, Some(now))] else entries
  }

  function AllEnded(entries: map<Id, Logged>, outcome: Status, now: real): map<Id, Logged> {
    map id | id in entries :: if entries[id].status.Active? then Logged(outcome, Some(now)) else entries[id]
  }

  function ActiveIds(entries: map<Id, Logged>): set<Id> {
    set id | id in entries && entries[id].status.Active?
  }

  lemma ReplacedListed<V>(m: Memory<V>, entries: map<Id, V>)
    requires Listed(m) && entries.Keys == m.entries.Keys
    ensures Listed(Memory(entries, m.order))
  {
  }

  ghost predicate AtMostOneActive(entries: map<Id, Logged>) {
    forall i, j :: i in entries && j in entries && entries[i].status.Active? && entries[j].status.Active? ==> i == j
  }

  /** Adding a mission under an id that is new. */
  ghost function AddedNew(capacity: nat, m: Memory<Logged>, id: Id, value: Logged): (after: Memory<Logged>)
    requires Listed(m) && id !in m.entries
    ensures Listed(after)
    ensures forall k :: k in after.entries ==> k in m.entries[id := value] && after.entries[k] == m.entries[id := value][k]
    ensures forall k :: k in m.entries && m.entries[k].status.Active? ==> k in after.entries
    ensures value.status.Active? ==> id in after.entries
  {
    AddReady(m, id, value);
    AddKeeps(IsActive, capacity, m, id, value);
    Added(IsActive, capacity, m, id, value)
  }

  /** A call to the service, with what the swarm answers. */
  datatype Call =
    | Dispatch(id: Id, delivered: bool)
    | ReadState(active: Option<Id>, complete: bool)
    | Abort(target: Id, sent: bool)
    | LandAll(landed: bool)

  /** One call after another. A new mission ends whatever was flying. */
  ghost function Served(capacity: nat, m: Memory<Logged>, call: Call, now: real): Memory<Logged>
    requires Listed(m) && (call.Dispatch? ==> call.id !in m.entries)
  {
    match call
    case Dispatch(id, delivered) =>
      if !delivered then m
      else
        var ended := Memory(AllEnded(m.entries, Aborted, now), m.order);
        ReplacedListed(m, ended.entries);
        AddedNew(capacity, ended, id, Logged(Active, None))
    case ReadState(active, complete) =>
      if active.Some? && complete then m.(entries := Ended(m.entries, active.value, Completed, now)) else m
    case Abort(target, sent) => if sent then m.(entries := Ended(m.entries, target, Aborted, now)) else m
    case LandAll(landed) => if landed then m.(entries := AllEnded(m.entries, Aborted, now)) else m
  }

  ghost predicate Kept(capacity: nat, m: Memory<Logged>) {
    && Listed(m) && AtMostOneActive(m.entries)
    && |m.entries| <= (if capacity == 0 then 1 else capacity)
  }

  lemma OneActiveSize(entries: map<Id, Logged>)
    requires AtMostOneActive(entries) && forall k :: k in entries ==> entries[k].status.Active?
    ensures |entries| <= 1
  {
    if entries != map[] {
      var k :| k in entries;
      assert entries.Keys == {k};
    }
  }

  lemma IdleThenAdded(capacity: nat, m: Memory<Logged>, id: Id)
    requires Listed(m) && id !in m.entries && forall k :: k in m.entries ==> !m.entries[k].status.Active?
    ensures Kept(capacity, AddedNew(capacity, m, id, Logged(Active, None)))
  {
    var value := Logged(Active, None);
    AddReady(m, id, value);
    TrimmedSize(IsActive, capacity, m.entries[id := value], m.order + [id]);
    var after := AddedNew(capacity, m, id, value);
    if |after.entries| > capacity {
      forall k | k in after.entries ensures after.entries[k].status.Active? {
        assert k in Members(after.order);
      }
      OneActiveSize(after.entries);
    }
  }

  lemma AllEndedIdle(entries: map<Id, Logged>, outcome: Status, now: real)
    requires !outcome.Active?
    ensures forall k :: k in entries ==> !AllEnded(entries, outcome, now)[k].status.Active?
    ensures AllEnded(entries, outcome, now).Keys == entries.Keys
  {
  }

  lemma AllEndedKept(capacity: nat, m: Memory<Logged>, outcome: Status, now: real)
    requires Kept(capacity, m) && !outcome.Active?
    ensures Kept(capacity, m.(entries := AllEnded(m.entries, outcome, now)))
  {
    AllEndedIdle(m.entries, outcome, now);
    ReplacedListed(m, AllEnded(m.entries, outcome, now));
    SameSize(m.entries, AllEnded(m.entries, outcome, now));
  }

  lemma EndedKept(capacity: nat, m: Memory<Logged>, id: Id, outcome: Status, now: real)
    requires Kept(capacity, m) && !outcome.Active?
    ensures Kept(capacity, m.(entries := Ended(m.entries, id, outcome, now)))
  {
    assert Ended(m.entries, id, outcome, now).Keys == m.entries.Keys;
    ReplacedListed(m, Ended(m.entries, id, outcome, now));
    SameSize(m.entries, Ended(m.entries, id, outcome, now));
  }

  lemma ServedKept(capacity: nat, m: Memory<Logged>, call: Call, now: real)
    requires Kept(capacity, m) && (call.Dispatch? ==> call.id !in m.entries)
    ensures Kept(capacity, Served(capacity, m, call, now))
  {
    match call
    case Dispatch(id, delivered) =>
      if delivered {
        AllEndedKept(capacity, m, Aborted, now);
        AllEndedIdle(m.entries, Aborted, now);
        IdleThenAdded(capacity, Memory(AllEnded(m.entries, Aborted, now), m.order), id);
      }
    case ReadState(active, complete) =>
      if active.Some? && complete {
        EndedKept(capacity, m, active.value, Completed, now);
      }
    case Abort(target, sent) => EndedKept(capacity, m, target, Aborted, now);
    case LandAll(landed) => AllEndedKept(capacity, m, Aborted, now);
  }

  lemma SameSize(a: map<Id, Logged>, b: map<Id, Logged>)
    requires a.Keys == b.Keys
    ensures |a| == |b|
  {
    assert |a.Keys| == |b.Keys|;
  }

  datatype Timed = Timed(at: real, call: Call)

  ghost predicate NewIds(capacity: nat, m: Memory<Logged>, calls: seq<Timed>)
    requires Kept(capacity, m)
    decreases |calls|
  {
    calls != [] ==>
      && (calls[0].call.Dispatch? ==> calls[0].call.id !in m.entries)
      && (ServedKept(capacity, m, calls[0].call, calls[0].at);
          NewIds(capacity, Served(capacity, m, calls[0].call, calls[0].at), calls[1..]))
  }

  ghost function Run(capacity: nat, m: Memory<Logged>, calls: seq<Timed>): Memory<Logged>
    requires Kept(capacity, m) && NewIds(capacity, m, calls)
    decreases |calls|
  {
    if calls == [] then m
    else
      ServedKept(capacity, m, calls[0].call, calls[0].at);
      Run(capacity, Served(capacity, m, calls[0].call, calls[0].at), calls[1..])
  }

  /** With one call after another and ids that are new: never two active missions, the log never outgrows its
      capacity, and its order names every mission once. */
  lemma {:induction false} OneMissionAtATime(capacity: nat, m: Memory<Logged>, calls: seq<Timed>)
    requires Kept(capacity, m) && NewIds(capacity, m, calls)
    ensures Kept(capacity, Run(capacity, m, calls))
    decreases |calls|
  {
    if calls != [] {
      ServedKept(capacity, m, calls[0].call, calls[0].at);
      OneMissionAtATime(capacity, Served(capacity, m, calls[0].call, calls[0].at), calls[1..]);
    }
  }

  predicate Delivers(call: Call) {
    call.Dispatch? && call.delivered
  }

  lemma DispatchedOne(capacity: nat, m: Memory<Logged>, call: Call, now: real, id: Id)
    requires Kept(capacity, m) && Delivers(call) && call.id !in m.entries && call.id != id
    ensures var after := Served(capacity, m, call, now).entries;
      id in after ==> id in m.entries && (!m.entries[id].status.Active? ==> after[id] == m.entries[id])
  {
    var ended := Memory(AllEnded(m.entries, Aborted, now), m.order);
    ReplacedListed(m, ended.entries);
    var after := AddedNew(capacity, ended, call.id, Logged(Active, None));
    if id in after.entries {
      assert id in ended.entries[call.id := Logged(Active, None)];
    }
  }

  lemma ServedOne(capacity: nat, m: Memory<Logged>, call: Call, now: real, id: Id)
    requires Kept(capacity, m) && (call.Dispatch? ==> call.id !in m.entries && call.id != id)
    ensures var after := Served(capacity, m, call, now).entries;
      && (id in after ==> id in m.entries && (!m.entries[id].status.Active? ==> after[id] == m.entries[id]))
      && (id in m.entries && !Delivers(call) ==> id in after)
  {
    if Delivers(call) {
      DispatchedOne(capacity, m, call, now, id);
    }
  }

  /** Ending is final: over every run, a mission that has ended keeps its outcome and its time while it is remembered,
      and only a new mission makes room by forgetting one. */
  lemma {:induction false} EndIsFinal(capacity: nat, m: Memory<Logged>, calls: seq<Timed>, id: Id)
    requires Kept(capacity, m) && NewIds(capacity, m, calls) && id in m.entries
    requires forall c :: c in calls && c.call.Dispatch? ==> c.call.id != id
    ensures var after := Run(capacity, m, calls).entries;
      && (id in after && !m.entries[id].status.Active? ==> after[id] == m.entries[id])
      && (id !in after ==> exists c :: c in calls && Delivers(c.call))
    decreases |calls|
  {
    if calls != [] {
      var call, now := calls[0].call, calls[0].at;
      assert calls[0] in calls;
      ServedKept(capacity, m, call, now);
      ServedOne(capacity, m, call, now, id);
      var next := Served(capacity, m, call, now);
      if id in next.entries {
        EndIsFinal(capacity, next, calls[1..], id);
      } else {
        NeverBack(capacity, next, calls[1..], id);
      }
    }
  }

  /** What is forgotten stays forgotten. */
  lemma {:induction false} NeverBack(capacity: nat, m: Memory<Logged>, calls: seq<Timed>, id: Id)
    requires Kept(capacity, m) && NewIds(capacity, m, calls) && id !in m.entries
    requires forall c :: c in calls && c.call.Dispatch? ==> c.call.id != id
    ensures id !in Run(capacity, m, calls).entries
    decreases |calls|
  {
    if calls != [] {
      assert calls[0] in calls;
      ServedKept(capacity, m, calls[0].call, calls[0].at);
      ServedOne(capacity, m, calls[0].call, calls[0].at, id);
      NeverBack(capacity, Served(capacity, m, calls[0].call, calls[0].at), calls[1..], id);
    }
  }

  /** What a call makes of a mission that is active: reported complete by the swarm, or ended by an abort of it, a landing,
      or another mission; or nothing. */
  function EndedAs(call: Call, id: Id): Option<Status> {
    match call
    case Dispatch(_, delivered) => if delivered then Some(Aborted) else None
    case ReadState(active, complete) => if active == Some(id) && complete then Some(Completed) else None
    case Abort(target, sent) => if target == id && sent then Some(Aborted) else None
    case LandAll(landed) => if landed then Some(Aborted) else None
  }

  /** What the first call that ends it makes of it. */
  function Outcome(calls: seq<Timed>, id: Id): Logged {
    if calls == [] then Logged(Active, None)
    else if EndedAs(calls[0].call, id).Some? then Logged(EndedAs(calls[0].call, id).value, Some(calls[0].at))
    else Outcome(calls[1..], id)
  }

  /** Logged so, or forgotten, which an active mission never is. */
  predicate IsLoggedAs(entries: map<Id, Logged>, id: Id, logged: Logged) {
    && (id in entries ==> entries[id] == logged)
    && (logged.status.Active? ==> id in entries)
  }

  lemma ServedActive(capacity: nat, m: Memory<Logged>, call: Call, now: real, id: Id)
    requires Kept(capacity, m) && (call.Dispatch? ==> call.id !in m.entries && call.id != id)
    requires id in m.entries && m.entries[id].status.Active?
    ensures var after := Served(capacity, m, call, now).entries;
      match EndedAs(call, id)
      case Some(outcome) => id in after ==> after[id] == Logged(outcome, Some(now))
      case None => id in after && after[id] == m.entries[id]
  {
    if Delivers(call) {
      var ended := Memory(AllEnded(m.entries, Aborted, now), m.order);
      ReplacedListed(m, ended.entries);
      var after := AddedNew(capacity, ended, call.id, Logged(Active, None));
      if id in after.entries {
        assert id in ended.entries[call.id := Logged(Active, None)];
      }
    }
  }

  /** No dispatch uses the id. */
  ghost predicate NeverReused(calls: seq<Timed>, id: Id) {
    forall c :: c in calls && c.call.Dispatch? ==> c.call.id != id
  }

  /** Over every run a mission that was added active is, while it is remembered, what the first call that ends it made of it,
      and as long as there is none it is active and remembered. */
  lemma {:induction false} OutcomeIsFirstEnd(capacity: nat, m: Memory<Logged>, calls: seq<Timed>, id: Id)
    requires Kept(capacity, m) && NewIds(capacity, m, calls)
    requires id in m.entries && m.entries[id] == Logged(Active, None)
    requires NeverReused(calls, id)
    ensures IsLoggedAs(Run(capacity, m, calls).entries, id, Outcome(calls, id))
    decreases |calls|, 1
  {
    if calls != [] {
      var next := ServedNext(capacity, m, calls, id);
      OutcomeOnward(capacity, next, calls, id);
    }
  }

  lemma {:induction false} OutcomeOnward(capacity: nat, next: Memory<Logged>, calls: seq<Timed>, id: Id)
    requires calls != [] && Kept(capacity, next) && NewIds(capacity, next, calls[1..]) && NeverReused(calls[1..], id)
    requires match EndedAs(calls[0].call, id)
      case Some(outcome) => id in next.entries ==> next.entries[id] == Logged(outcome, Some(calls[0].at))
      case None => id in next.entries && next.entries[id] == Logged(Active, None)
    ensures IsLoggedAs(Run(capacity, next, calls[1..]).entries, id, Outcome(calls, id))
    decreases |calls|, 0
  {
    if EndedAs(calls[0].call, id).None? {
      OutcomeIsFirstEnd(capacity, next, calls[1..], id);
    } else {
      StaysEnded(capacity, next, calls[1..], id, Outcome(calls, id));
    }
  }

  lemma ServedNext(capacity: nat, m: Memory<Logged>, calls: seq<Timed>, id: Id) returns (next: Memory<Logged>)
    requires Kept(capacity, m) && NewIds(capacity, m, calls) && calls != []
    requires id in m.entries && m.entries[id] == Logged(Active, None)
    requires NeverReused(calls, id)
    ensures Kept(capacity, next) && NewIds(capacity, next, calls[1..]) && Run(capacity, m, calls) == Run(capacity, next, calls[1..])
    ensures match EndedAs(calls[0].call, id)
      case Some(outcome) => id in next.entries ==> next.entries[id] == Logged(outcome, Some(calls[0].at))
      case None => id in next.entries && next.entries[id] == m.entries[id]
    ensures NeverReused(calls[1..], id)
  {
    assert calls[0] in calls;
    ServedKept(capacity, m, calls[0].call, calls[0].at);
    ServedActive(capacity, m, calls[0].call, calls[0].at, id);
    next := Served(capacity, m, calls[0].call, calls[0].at);
  }

  /** What has ended stays as it ended, or is forgotten. */
  lemma StaysEnded(capacity: nat, m: Memory<Logged>, calls: seq<Timed>, id: Id, ended: Logged)
    requires Kept(capacity, m) && NewIds(capacity, m, calls) && !ended.status.Active?
    requires id in m.entries ==> m.entries[id] == ended
    requires NeverReused(calls, id)
    ensures IsLoggedAs(Run(capacity, m, calls).entries, id, ended)
  {
    if id in m.entries {
      EndIsFinal(capacity, m, calls, id);
    } else {
      NeverBack(capacity, m, calls, id);
    }
  }

  lemma OneEnded(entries: map<Id, Logged>, id: Id, outcome: Status, now: real)
    requires id in ActiveIds(entries) && !outcome.Active?
    ensures AllEnded(Ended(entries, id, outcome, now), outcome, now) == AllEnded(entries, outcome, now)
    ensures ActiveIds(Ended(entries, id, outcome, now)) == ActiveIds(entries) - {id}
  {
  }

  lemma NoneToEnd(entries: map<Id, Logged>, outcome: Status, now: real)
    requires ActiveIds(entries) == {}
    ensures AllEnded(entries, outcome, now) == entries
  {
    forall id | id in entries ensures !entries[id].status.Active? {
      assert id !in ActiveIds(entries);
    }
  }

  class MissionService {
    const log: BoundedMemory<Logged>

    ghost predicate Consistent()
      reads this, log
    {
      log.waiting == IsActive && log.Consistent()
    }

    constructor (capacity: nat)
      ensures Consistent() && fresh(log) && log.View() == Memory(map[], []) && log.capacity == capacity
    {
      log := new BoundedMemory<Logged>(IsActive, capacity);
    }

    method End(id: Id, outcome: Status, now: real) returns (ended: bool)
      requires Consistent()
      modifies log`entries
      ensures Consistent() && log.entries == Ended(old(log.entries), id, outcome, now)
      ensures ended == (id in old(log.entries) && old(log.entries)[id].status.Active?)
    {
      if id !in log.entries || log.entries[id].status != Active {
        return false;
      }
      log.Update(id, Logged(outcome, Some(now)));
      return true;
    }

    method EndAll(outcome: Status, now: real)
      requires Consistent() && !outcome.Active?
      modifies log`entries
      ensures Consistent() && log.entries == AllEnded(old(log.entries), outcome, now)
    {
      var todo := ActiveIds(log.entries);
      while todo != {}
        invariant Consistent() && todo == ActiveIds(log.entries)
        invariant AllEnded(log.entries, outcome, now) == AllEnded(old(log.entries), outcome, now)
        decreases |todo|
      {
        var id: nat :| id in todo;
        OneEnded(log.entries, id, outcome, now);
        var ended := End(id, outcome, now);
        todo := todo - {id};
      }
      NoneToEnd(log.entries, outcome, now);
    }

    method DispatchMission(id: Id, delivered: bool, now: real)
      requires Consistent() && id !in log.entries
      modifies log
      ensures Consistent() && log.View() == Served(log.capacity, old(log.View()), Dispatch(id, delivered), now)
    {
      if !delivered {
        return;
      }
      EndAll(Aborted, now);
      log.Add(id, Logged(Active, None));
    }

    method GetSwarmState(active: Option<Id>, complete: bool, now: real)
      requires Consistent()
      modifies log`entries
      ensures Consistent() && log.View() == Served(log.capacity, old(log.View()), ReadState(active, complete), now)
    {
      if active.Some? && complete {
        var ended := End(active.value, Completed, now);
      }
    }

    /** Stops a mission, having first read whether it is over already. False where the source says it is unknown
        or no longer active, or the swarm could not be told. */
    method AbortMission(target: Id, sent: bool, active: Option<Id>, complete: bool, now: real) returns (stopped: bool)
      requires Consistent()
      modifies log`entries
      ensures Consistent()
      ensures
        var was := old(log.View());
        var read := if target in was.entries && was.entries[target].status.Active?
                    then Served(log.capacity, was, ReadState(active, complete), now) else was;
        && Listed(read) && log.View() == Served(log.capacity, read, Abort(target, sent), now)
        && stopped == (sent && target in read.entries && read.entries[target].status.Active?)
    {
      if target in log.entries && log.entries[target].status == Active {
        GetSwarmState(active, complete, now);
      }
      if target !in log.entries || log.entries[target].status != Active || !sent {
        return false;
      }
      stopped := End(target, Aborted, now);
    }

    method Land(landed: bool, now: real)
      requires Consistent()
      modifies log`entries
      ensures Consistent() && log.View() == Served(log.capacity, old(log.View()), LandAll(landed), now)
    {
      if landed {
        EndAll(Aborted, now);
      }
    }
  }
}
