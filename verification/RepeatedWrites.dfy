/** Where repeating a write goes wrong (IdempotencyStore.cs, swarm_client.py): past either bound of the store the same
    request runs twice at once, and a client that gave up on a refused connection may have been served before. */
module RepeatedWrites {

  import opened Wrappers
  import opened Lists
  import opened Idempotency

  /** Every request that is running has a number below `q`. */
  ghost predicate Below(running: map<nat, Scope>, q: nat) {
    forall r :: r in running ==> r < q
  }

  lemma Fresh(running: map<nat, Scope>) returns (q: nat)
    ensures Below(running, q)
    decreases |running|
  {
    if running == map[] {
      q := 0;
    } else {
      var r := Member(running.Keys);
      q := Fresh(running - {r});
      q := if q <= r then r + 1 else q;
      assert forall k :: k in running ==> k == r || k in running - {r};
    }
  }

  lemma Member<T>(some: set<T>) returns (x: T)
    requires some != {}
    ensures x in some
  {
    x :| x in some;
  }

  // ----- how often a request was received, and run -----

  function Arrived(key: Scope, t: Timed): nat {
    if t.event.Arrive? && t.event.scope == key then 1 else 0
  }

  function Began(key: Scope, g: Server, t: Timed): nat {
    if t.event.Arrive? && t.event.scope == key && BeginOutcome(g.store, key, t.event.fingerprint, t.at).Started? then 1 else 0
  }

  /** How often a request under the key reached the service. */
  function Arrivals(key: Scope, events: seq<Timed>): nat {
    if events == [] then 0 else Arrived(key, events[0]) + Arrivals(key, events[1..])
  }

  /** How often one was run. */
  function Begins(key: Scope, g: Server, events: seq<Timed>): nat
    requires AllPossible(key, g, events)
    decreases |events|
  {
    if events == [] then 0 else Began(key, g, events[0]) + Begins(key, Next(key, g, events[0]), events[1..])
  }

  lemma OneEvent(key: Scope, g: Server, t: Timed, rest: seq<Timed>)
    requires Possible(g, t) && AllPossible(key, Next(key, g, t), rest)
    ensures AllPossible(key, g, [t] + rest) && Run(key, g, [t] + rest) == Run(key, Next(key, g, t), rest)
    ensures Arrivals(key, [t] + rest) == Arrived(key, t) + Arrivals(key, rest)
    ensures Begins(key, g, [t] + rest) == Began(key, g, t) + Begins(key, Next(key, g, t), rest)
  {
    assert ([t] + rest)[1..] == rest;
  }

  lemma {:induction false} Then(key: Scope, g: Server, events: seq<Timed>, t: Timed)
    requires AllPossible(key, g, events) && Possible(Run(key, g, events), t)
    ensures AllPossible(key, g, events + [t])
    ensures Run(key, g, events + [t]) == Next(key, Run(key, g, events), t)
    decreases |events|
  {
    if events == [] {
      assert events + [t] == [t];
    } else {
      assert (events + [t])[1..] == events[1..] + [t];
      Then(key, Next(key, g, events[0]), events[1..], t);
    }
  }

  // ----- two requests under one key, running at once -----

  /** Too long after: the entry has aged out while its request is still running. */
  lemma TwiceAfterRetention(key: Scope, g: Server, fingerprint: Fingerprint, late: real) returns (events: seq<Timed>)
    requires Unused(key, g) && g.store.capacity > 0 && late > RETENTION
    ensures AllPossible(key, g, events) && |events| == 2
    ensures forall t :: t in events ==> g.now <= t.at <= g.now + late && t.event.Arrive? && t.event.scope == key
    ensures !OneRun(key, Run(key, g, events))
  {
    var q := Fresh(g.running);
    var first := Timed(g.now, Arrive(q, key, fingerprint));
    var second := Timed(g.now + late, Arrive(q + 1, key, fingerprint));
    BegunRemembered(g.store, key, fingerprint, g.now);
    var one := Next(key, g, first);
    OneEvent(key, one, second, []);
    OneEvent(key, g, first, [second] + []);
    events := [first] + ([second] + []);
    var end := Next(key, one, second);
    assert q in end.running && q + 1 in end.running && end.running[q] == key == end.running[q + 1];
  }

  /** A request that finds its key unknown runs. */
  lemma Starts(key: Scope, g: Server, q: nat, scope: Scope, fingerprint: Fingerprint, at: real)
    requires Below(g.running, q) && at >= g.now && scope !in g.store.entries
    ensures var t := Timed(at, Arrive(q, scope, fingerprint));
      && Possible(g, t)
      && Next(key, g, t).now == at && Next(key, g, t).store == Begun(g.store, scope, fingerprint, at)
      && Next(key, g, t).running == g.running[q := scope] && Below(Next(key, g, t).running, q + 1)
  {
  }

  /** Other requests, one after another, at one time. */
  function Others(at: real, q: nat, scopes: seq<Scope>): (events: seq<Timed>)
    ensures |events| == |scopes|
    ensures forall t :: t in events ==> t.at == at && t.event.Arrive? && t.event.scope in scopes
    decreases |scopes|
  {
    if scopes == [] then [] else [Timed(at, Arrive(q, scopes[0], ""))] + Others(at, q + 1, scopes[1..])
  }

  ghost predicate Unknown(s: Store, scopes: seq<Scope>) {
    Distinct(scopes) && forall o :: o in scopes ==> o !in s.entries
  }

  lemma OtherBegun(s: Store, scope: Scope, at: real, key: Scope)
    requires Valid(s) && scope !in s.entries && scope != key
    ensures var after := Begun(s, scope, "", at);
      && Valid(after) && after.capacity == s.capacity
      && (forall k :: k in after.entries ==> k in s.entries || k == scope)
      && (key in after.order ==> key in s.order && Newer(after.order, key) == Newer(s.order, key) + 1)
  {
    var e := Entered(s, scope, "", at);
    BegunValid(s, scope, "", at);
    EnteredListed(s, scope, "", at);
    assert scope !in Members(s.order);
    forall k | k in Begun(s, scope, "", at).entries ensures k in s.entries || k == scope {
      EvictionKeepsNewest(e, k);
    }
    if key in Begun(s, scope, "", at).order {
      assert key in Members(Begun(s, scope, "", at).order);
      EvictionKeepsNewest(e, key);
      assert key in Members(s.order);
      OneMoreNewer(s.order, scope, key);
    }
  }

  lemma NotInOrder(s: Store, key: Scope)
    requires Valid(s) && (key in s.order ==> Newer(s.order, key) >= s.capacity)
    ensures key !in s.entries
  {
    if key in s.order {
      NewerBound(s.order, key);
    }
    assert key !in Members(s.order);
  }

  /** What is left of a server once other keys have pushed this one out. */
  ghost predicate LeftOver(key: Scope, running: map<nat, Scope>, q: nat, at: real, end: Server) {
    && Valid(end.store) && key !in end.store.entries && Below(end.running, q) && end.now <= at
    && forall r {:trigger r in running} :: r in running ==> r in end.running && end.running[r] == running[r]
  }

  /** These events can happen, and leave the key pushed out. */
  ghost predicate Outs(key: Scope, g: Server, events: seq<Timed>, n: nat, at: real) {
    AllPossible(key, g, events) && LeftOver(key, g.running, n, at, Run(key, g, events))
  }

  /** As many other keys as there is room for push a key out, while its requests go on. */
  lemma {:induction false} PushedOut(key: Scope, g: Server, at: real, q: nat, scopes: seq<Scope>)
    requires Valid(g.store) && g.now <= at && key !in scopes && Unknown(g.store, scopes) && Below(g.running, q)
    requires key in g.store.order ==> Newer(g.store.order, key) + |scopes| >= g.store.capacity
    ensures Outs(key, g, Others(at, q, scopes), q + |scopes|, at)
    decreases |scopes|
  {
    if scopes == [] {
      NotInOrder(g.store, key);
    } else {
      var next := PushedFirst(key, g, at, q, scopes);
      PushedOut(key, next, at, q + 1, scopes[1..]);
      PushedMore(key, g, q, scopes[0], q + |scopes|, at, Timed(at, Arrive(q, scopes[0], "")), Others(at, q + 1, scopes[1..]), next);
    }
  }

  /** One key fewer to begin, and one more that is newer. */
  lemma PushedFirst(key: Scope, g: Server, at: real, q: nat, scopes: seq<Scope>) returns (next: Server)
    requires Valid(g.store) && g.now <= at && key !in scopes && scopes != [] && Unknown(g.store, scopes) && Below(g.running, q)
    requires key in g.store.order ==> Newer(g.store.order, key) + |scopes| >= g.store.capacity
    ensures Possible(g, Timed(at, Arrive(q, scopes[0], ""))) && next == Next(key, g, Timed(at, Arrive(q, scopes[0], "")))
    ensures Valid(next.store) && next.now <= at && key !in scopes[1..] && Unknown(next.store, scopes[1..])
    ensures Below(next.running, q + 1) && next.running == g.running[q := scopes[0]]
    ensures key in next.store.order ==> Newer(next.store.order, key) + |scopes[1..]| >= next.store.capacity
  {
    PushedOne(key, g, at, q, scopes);
    next := Next(key, g, Timed(at, Arrive(q, scopes[0], "")));
  }

  lemma PushedMore(key: Scope, g: Server, q: nat, scope: Scope, n: nat, at: real, t: Timed, rest: seq<Timed>, next: Server)
    requires Possible(g, t) && next == Next(key, g, t)
    requires Below(g.running, q) && next.running == g.running[q := scope]
    requires Outs(key, next, rest, n, at)
    ensures Outs(key, g, [t] + rest, n, at)
  {
    OneEvent(key, g, t, rest);
    StillLeft(key, g.running, q, scope, n, at, Run(key, next, rest));
  }

  lemma PushedOne(key: Scope, g: Server, at: real, q: nat, scopes: seq<Scope>)
    requires Valid(g.store) && g.now <= at && key !in scopes && scopes != [] && Unknown(g.store, scopes)
    requires Below(g.running, q)
    ensures var t := Timed(at, Arrive(q, scopes[0], ""));
      Possible(g, t) &&
      var next := Next(key, g, t);
      && Valid(next.store) && next.now == at && next.store.capacity == g.store.capacity
      && Unknown(next.store, scopes[1..]) && Below(next.running, q + 1) && next.running == g.running[q := scopes[0]]
      && (key in next.store.order ==> key in g.store.order && Newer(next.store.order, key) == Newer(g.store.order, key) + 1)
  {
    Starts(key, g, q, scopes[0], "", at);
    OtherBegun(g.store, scopes[0], at, key);
    assert forall o :: o in scopes[1..] ==> o in scopes && o != scopes[0];
  }

  lemma StillLeft(key: Scope, running: map<nat, Scope>, q: nat, scope: Scope, n: nat, at: real, end: Server)
    requires Below(running, q) && LeftOver(key, running[q := scope], n, at, end)
    ensures LeftOver(key, running, n, at, end)
  {
    forall r | r in running ensures r in end.running && end.running[r] == running[r] {
      assert r in running[q := scope];
    }
  }

  /** Too many others: `capacity` other keys begun at once push out the entry of a request still running. */
  lemma TwiceAfterOthers(key: Scope, g: Server, fingerprint: Fingerprint, scopes: seq<Scope>) returns (events: seq<Timed>)
    requires Unused(key, g) && g.store.capacity > 0
    requires |scopes| == g.store.capacity && key !in scopes && Unknown(g.store, scopes)
    ensures AllPossible(key, g, events) && |events| == g.store.capacity + 2
    ensures forall t :: t in events ==> t.at == g.now
    ensures !OneRun(key, Run(key, g, events))
  {
    var q := Fresh(g.running);
    var first := Timed(g.now, Arrive(q, key, fingerprint));
    var one := Next(key, g, first);
    Starts(key, g, q, key, fingerprint, g.now);
    FirstBegun(g.store, key, fingerprint, g.now, scopes);
    assert q in one.running && one.running[q] == key;
    var rest := RunsAgain(key, one, fingerprint, scopes, q);
    OneEvent(key, g, first, rest);
    events := [first] + rest;
  }

  lemma RunsAgain(key: Scope, g: Server, fingerprint: Fingerprint, scopes: seq<Scope>, q: nat) returns (events: seq<Timed>)
    requires Valid(g.store) && key in g.store.order && Newer(g.store.order, key) == 0
    requires Below(g.running, q + 1) && q in g.running && g.running[q] == key
    requires |scopes| == g.store.capacity && key !in scopes && Unknown(g.store, scopes)
    ensures AllPossible(key, g, events) && |events| == |scopes| + 1
    ensures forall t :: t in events ==> t.at == g.now
    ensures !OneRun(key, Run(key, g, events))
  {
    var others := Others(g.now, q + 1, scopes);
    PushedOut(key, g, g.now, q + 1, scopes);
    var full, last := Run(key, g, others), q + 1 + |scopes|;
    NowAtLeast(key, g, others);
    var again := Timed(g.now, Arrive(last, key, fingerprint));
    Starts(key, full, last, key, fingerprint, g.now);
    Then(key, g, others, again);
    events := others + [again];
    var end := Next(key, full, again);
    assert q in g.running;
    assert end.running[q] == key == end.running[last];
  }

  lemma {:induction false} NowAtLeast(key: Scope, g: Server, events: seq<Timed>)
    requires AllPossible(key, g, events)
    ensures Run(key, g, events).now >= g.now
    decreases |events|
  {
    if events != [] {
      NowAtLeast(key, Next(key, g, events[0]), events[1..]);
    }
  }

  lemma FirstBegun(s: Store, key: Scope, fingerprint: Fingerprint, now: real, scopes: seq<Scope>)
    requires Valid(s) && s.capacity > 0 && key !in s.entries && key !in scopes && Unknown(s, scopes)
    ensures var after := Begun(s, key, fingerprint, now);
      Valid(after) && after.capacity == s.capacity && Unknown(after, scopes) && key in after.order && Newer(after.order, key) == 0
  {
    BegunValid(s, key, fingerprint, now);
    BegunRemembered(s, key, fingerprint, now);
    var e := Entered(s, key, fingerprint, now);
    EnteredListed(s, key, fingerprint, now);
    forall o | o in scopes ensures o !in Begun(s, key, fingerprint, now).entries {
      EvictionKeepsNewest(e, o);
    }
  }

  // ----- "nothing was received, so nothing was done" -----

  lemma {:induction false} NoArrivalNoRun(key: Scope, g: Server, events: seq<Timed>)
    requires AllPossible(key, g, events) && Arrivals(key, events) == 0
    ensures Begins(key, g, events) == 0
    decreases |events|
  {
    if events != [] {
      NoArrivalNoRun(key, Next(key, g, events[0]), events[1..]);
    }
  }

  /** A run that can lie behind a write whose attempt `i` was refused after `i` others went without an answer: each of
      those reached the service at most once, the refused one not at all. */
  ghost predicate Behind(key: Scope, g: Server, events: seq<Timed>, i: nat) {
    AllPossible(key, g, events) && Arrivals(key, events) <= i
  }

  /** One request reached the service, was run, and its answer was lost. */
  lemma ServedOnce(key: Scope, g: Server, response: Response) returns (events: seq<Timed>)
    requires Unused(key, g) && response.status < 500
    ensures AllPossible(key, g, events) && Arrivals(key, events) == 1 && Begins(key, g, events) == 1
    ensures Run(key, g, events).answers == [response]
  {
    var q := Fresh(g.running);
    var arrival, end := Timed(g.now, Arrive(q, key, "")), Timed(g.now, End(q, Answered(response)));
    var one := Next(key, g, arrival);
    OneEvent(key, one, end, []);
    OneEvent(key, g, arrival, [end] + []);
    events := [arrival] + ([end] + []);
  }

  /** What the client says when a connection is refused holds exactly of a first attempt: after one that got no
      answer, the write may have been run, and its answer stored. */
  lemma UnreachableExactly(key: Scope, g: Server, attempts: seq<Attempt>, i: nat)
    requires Unused(key, g) && i < |attempts| && attempts[i] == ConnectionRefused
    requires forall j :: 0 <= j < i ==> Repeats(attempts[j])
    ensures Final(attempts[i]) == Unreachable
    ensures (forall events :: Behind(key, g, events, i) ==> Begins(key, g, events) == 0) <==> i == 0
    ensures i > 0 ==> exists events :: Behind(key, g, events, i) && Run(key, g, events).answers != []
  {
    forall events | Behind(key, g, events, 0) ensures Begins(key, g, events) == 0 {
      NoArrivalNoRun(key, g, events);
    }
    if i > 0 {
      var events := ServedOnce(key, g, Response(200, None));
      assert Behind(key, g, events, i);
    }
  }
}
