/** Writes that are safe to repeat (IdempotencyStore.cs, IdempotencyFilter.cs, swarm_client.py).

  The store remembers what each key answered, for a while and up to a number of keys; the filter runs a
  request between `Begin` and `Complete` or `Abandon`; the client repeats a write under one key until it
  has an answer.
 */
module Idempotency {

  import opened Wrappers
  import opened Lists

  type Scope = string

  type Fingerprint = string

  datatype Response = Response(status: int, body: Option<string>)

  datatype Entry = Entry(fingerprint: Fingerprint, created: real, response: Option<Response>)

  datatype Outcome = Started | Replay(response: Response) | InFlight | Mismatch

  /** 24 hours, in seconds. */
  const RETENTION := 86400.0

  // ----- the store -----

  datatype Store = Store(capacity: nat, entries: map<Scope, Entry>, order: seq<Scope>)

  function Without(order: seq<Scope>, scope: Scope): (rest: seq<Scope>)
    ensures scope !in order ==> rest == order
    ensures scope in order ==> |rest| == |order| - 1
  {
    if order == [] then [] else if order[0] == scope then order[1..] else [order[0]] + Without(order[1..], scope)
  }

  /** Forgets the oldest keys until there are no more than `capacity`. */
  function Evicted(s: Store): (after: Store)
    decreases |s.order|
  {
    if |s.entries| > s.capacity && s.order != [] then
      Evicted(s.(entries := s.entries - {s.order[0]}, order := s.order[1..]))
    else s
  }

  predicate Remembered(s: Store, scope: Scope, now: real) {
    scope in s.entries && now - s.entries[scope].created <= RETENTION
  }

  function BeginOutcome(s: Store, scope: Scope, fingerprint: Fingerprint, now: real): Outcome {
    if !Remembered(s, scope, now) then Started
    else if s.entries[scope].fingerprint != fingerprint then Mismatch
    else if s.entries[scope].response.None? then InFlight
    else Replay(s.entries[scope].response.value)
  }

  function Forgotten(s: Store, scope: Scope): Store {
    s.(entries := s.entries - {scope}, order := Without(s.order, scope))
  }

  /** A new entry, before any old ones are evicted. */
  function Entered(s: Store, scope: Scope, fingerprint: Fingerprint, now: real): Store {
    var rest := Forgotten(s, scope);
    rest.(entries := rest.entries[scope := Entry(fingerprint, now, None)], order := rest.order + [scope])
  }

  function Begun(s: Store, scope: Scope, fingerprint: Fingerprint, now: real): Store {
    if BeginOutcome(s, scope, fingerprint, now).Started? then Evicted(Entered(s, scope, fingerprint, now)) else s
  }

  function Completed(s: Store, scope: Scope, response: Response): Store {
    if scope in s.entries then s.(entries := s.entries[scope := s.entries[scope].(response := Some(response))]) else s
  }

  /** The order list names each key once, and no more keys than there is room for. */
  ghost predicate Listed(s: Store) {
    Distinct(s.order) && Members(s.order) == s.entries.Keys
  }

  ghost predicate Valid(s: Store) {
    Listed(s) && |s.order| <= s.capacity
  }

  /** How many keys are newer than this one. */
  ghost function Newer(order: seq<Scope>, scope: Scope): nat
    requires scope in order
  {
    if order[0] == scope then |order| - 1 else Newer(order[1..], scope)
  }

  lemma FirstForgotten(s: Store)
    requires Listed(s) && s.order != []
    ensures Listed(s.(entries := s.entries - {s.order[0]}, order := s.order[1..]))
    ensures |s.entries| == |s.order|
  {
    DistinctSize(s.order);
    assert s.order[0] !in Members(s.order[1..]);
    assert (s.entries - {s.order[0]}).Keys == Members(s.order[1..]);
  }

  lemma {:induction false} EvictedValid(s: Store)
    requires Listed(s)
    ensures Valid(Evicted(s)) && Evicted(s).capacity == s.capacity
    decreases |s.order|
  {
    DistinctSize(s.order);
    if |s.entries| > s.capacity && s.order != [] {
      FirstForgotten(s);
      EvictedValid(s.(entries := s.entries - {s.order[0]}, order := s.order[1..]));
    }
  }

  /** Eviction keeps exactly the newest keys: those with fewer than `capacity` newer ones. */
  lemma {:induction false} EvictionKeepsNewest(s: Store, k: Scope)
    requires Listed(s)
    ensures k in Evicted(s).entries <==> k in s.order && Newer(s.order, k) < s.capacity
    ensures k in Evicted(s).entries ==>
      && k in s.entries && Evicted(s).entries[k] == s.entries[k]
      && k in Evicted(s).order && Newer(Evicted(s).order, k) == Newer(s.order, k)
    decreases |s.order|
  {
    DistinctSize(s.order);
    assert k in s.order <==> k in s.entries;
    if |s.entries| > s.capacity && s.order != [] {
      FirstForgotten(s);
      EvictionKeepsNewest(s.(entries := s.entries - {s.order[0]}, order := s.order[1..]), k);
    } else if k in s.order {
      NewerBound(s.order, k);
    }
  }

  lemma {:induction false} NewerBound(order: seq<Scope>, k: Scope)
    requires k in order
    ensures Newer(order, k) < |order|
  {
    if order[0] != k {
      NewerBound(order[1..], k);
    }
  }

  lemma {:induction false} WithoutOne(order: seq<Scope>, scope: Scope)
    requires Distinct(order)
    ensures Distinct(Without(order, scope)) && Members(Without(order, scope)) == Members(order) - {scope}
  {
    if order != [] {
      if order[0] == scope {
        assert scope !in Members(order[1..]);
      } else {
        WithoutOne(order[1..], scope);
        assert order[0] !in Members(Without(order[1..], scope));
      }
    }
  }

  lemma {:induction false} WithoutNewer(order: seq<Scope>, scope: Scope, k: Scope)
    requires k in order && k != scope
    ensures k in Without(order, scope) && Newer(Without(order, scope), k) <= Newer(order, k)
  {
    if order[0] == scope {
    } else if order[0] != k {
      WithoutNewer(order[1..], scope, k);
    }
  }

  lemma {:induction false} NewestKey(order: seq<Scope>, scope: Scope)
    requires scope !in order
    ensures Newer(order + [scope], scope) == 0
  {
    if order != [] {
      assert (order + [scope])[1..] == order[1..] + [scope];
      NewestKey(order[1..], scope);
    }
  }

  lemma {:induction false} OneMoreNewer(order: seq<Scope>, scope: Scope, k: Scope)
    requires k in order
    ensures Newer(order + [scope], k) == Newer(order, k) + 1
  {
    if order[0] != k {
      assert (order + [scope])[1..] == order[1..] + [scope];
      OneMoreNewer(order[1..], scope, k);
    }
  }

  lemma ForgottenListed(s: Store, scope: Scope)
    requires Valid(s)
    ensures Valid(Forgotten(s, scope))
  {
    WithoutOne(s.order, scope);
  }

  lemma EnteredListed(s: Store, scope: Scope, fingerprint: Fingerprint, now: real)
    requires Valid(s)
    ensures Listed(Entered(s, scope, fingerprint, now))
    ensures Newer(Entered(s, scope, fingerprint, now).order, scope) == 0
  {
    WithoutOne(s.order, scope);
    assert scope !in Members(Without(s.order, scope));
    OneMore(Without(s.order, scope), scope);
    NewestKey(Without(s.order, scope), scope);
  }

  class IdempotencyStore {
    const capacity: nat
    var entries: map<Scope, Entry>
    var order: seq<Scope>

    function View(): Store
      reads this
    {
      Store(capacity, entries, order)
    }

    ghost predicate Consistent()
      reads this
    {
      Valid(View())
    }

    constructor (size: nat)
      ensures Consistent() && View() == Store(size, map[], [])
    {
      capacity, entries, order := size, map[], [];
    }

    method Begin(scope: Scope, fingerprint: Fingerprint, now: real) returns (outcome: Outcome)
      requires Consistent()
      modifies this
      ensures Consistent()
      ensures View() == Begun(old(View()), scope, fingerprint, now)
      ensures outcome == BeginOutcome(old(View()), scope, fingerprint, now)
    {
      if scope in entries && now - entries[scope].created <= RETENTION {
        if entries[scope].fingerprint != fingerprint {
          return Mismatch;
        }
        return match entries[scope].response case None => InFlight case Some(response) => Replay(response);
      }
      ghost var entered := Entered(View(), scope, fingerprint, now);
      EnteredListed(View(), scope, fingerprint, now);
      if scope in entries {
        entries := entries - {scope};
        order := Without(order, scope);
      } else {
        assert entries - {scope} == entries;
        assert scope !in Members(order);
      }
      entries := entries[scope := Entry(fingerprint, now, None)];
      order := order + [scope];
      assert View() == entered;
      EvictedValid(entered);
      while |entries| > capacity && order != []
        invariant Evicted(View()) == Evicted(entered)
        decreases |order|
      {
        entries := entries - {order[0]};
        order := order[1..];
      }
      return Started;
    }

    method Complete(scope: Scope, response: Response)
      requires Consistent()
      modifies this`entries
      ensures Consistent() && View() == Completed(old(View()), scope, response)
    {
      if scope in entries {
        entries := entries[scope := entries[scope].(response := Some(response))];
      }
    }

    method Abandon(scope: Scope)
      requires Consistent()
      modifies this
      ensures Consistent() && View() == Forgotten(old(View()), scope)
    {
      ForgottenListed(View(), scope);
      if scope in entries {
        entries := entries - {scope};
        order := Without(order, scope);
      } else {
        assert entries - {scope} == entries;
        assert scope !in Members(order);
      }
    }
  }

  // ----- the filter -----

  /** How a request that was run ends: with an answer, or with an exception that becomes one. */
  datatype Ending = Answered(response: Response) | Threw(status: int)

  datatype Reply = Answer(response: Response) | Problem(status: int) | InProgress | KeyReused

  function FirstReply(outcome: Outcome): Option<Reply> {
    match outcome
    case Started => None
    case Replay(response) => Some(Answer(response))
    case InFlight => Some(InProgress)
    case Mismatch => Some(KeyReused)
  }

  predicate Stored(ending: Ending) {
    ending.Answered? && ending.response.status < 500
  }

  function Ended(s: Store, scope: Scope, ending: Ending): Store {
    if Stored(ending) then Completed(s, scope, ending.response) else Forgotten(s, scope)
  }

  function LastReply(ending: Ending): Reply {
    match ending
    case Answered(response) => Answer(response)
    case Threw(status) => Problem(status)
  }

  method FinishRequest(store: IdempotencyStore, scope: Scope, ending: Ending) returns (reply: Reply)
    requires store.Consistent()
    modifies store
    ensures store.Consistent() && store.View() == Ended(old(store.View()), scope, ending)
    ensures reply == LastReply(ending)
  {
    match ending {
      case Threw(status) =>
        store.Abandon(scope);
        return Problem(status);
      case Answered(response) =>
        if response.status >= 500 {
          store.Abandon(scope);
        } else {
          store.Complete(scope, response);
        }
        return Answer(response);
    }
  }

  // ----- every interleaving of requests -----

  datatype Event =
    | Arrive(request: nat, scope: Scope, fingerprint: Fingerprint)
    | End(request: nat, ending: Ending)

  datatype Timed = Timed(at: real, event: Event)

  /** The store, the requests being run, and what happened to one key: the answers stored for it, and
      every reply to a request under it. `newer` counts the other keys begun meanwhile. */
  datatype Server = Server(
    now: real, store: Store, running: map<nat, Scope>, answers: seq<Response>, replies: set<Reply>, newer: nat)

  predicate Possible(g: Server, t: Timed) {
    && t.at >= g.now
    && match t.event
       case Arrive(request, scope, fingerprint) => request !in g.running
       case End(request, ending) => request in g.running
  }

  function Next(key: Scope, g: Server, t: Timed): Server
    requires Possible(g, t)
  {
    match t.event
    case Arrive(request, scope, fingerprint) =>
      var outcome := BeginOutcome(g.store, scope, fingerprint, t.at);
      Server(t.at, Begun(g.store, scope, fingerprint, t.at),
             if outcome.Started? then g.running[request := scope] else g.running,
             g.answers,
             if scope == key && FirstReply(outcome).Some? then g.replies + {FirstReply(outcome).value} else g.replies,
             if outcome.Started? && scope != key then g.newer + 1 else g.newer)
    case End(request, ending) =>
      var scope := g.running[request];
      Server(t.at, Ended(g.store, scope, ending),
             g.running - {request},
             if scope == key && Stored(ending) then g.answers + [ending.response] else g.answers,
             if scope == key then g.replies + {LastReply(ending)} else g.replies,
             g.newer)
  }

  predicate AllPossible(key: Scope, g: Server, events: seq<Timed>)
    decreases |events|
  {
    events != [] ==> Possible(g, events[0]) && AllPossible(key, Next(key, g, events[0]), events[1..])
  }

  function Run(key: Scope, g: Server, events: seq<Timed>): Server
    requires AllPossible(key, g, events)
    decreases |events|
  {
    if events == [] then g else Run(key, Next(key, g, events[0]), events[1..])
  }

  /** Before a key is used: nobody knows it. */
  ghost predicate Unused(key: Scope, g: Server) {
    && Valid(g.store) && key !in g.store.entries && (forall r :: r in g.running ==> g.running[r] != key)
    && g.answers == [] && g.replies == {} && g.newer == 0
  }

  ghost predicate OneRun(key: Scope, g: Server) {
    forall q, r :: q in g.running && r in g.running && g.running[q] == key && g.running[r] == key ==> q == r
  }

  ghost predicate Kept(key: Scope, first: real, g: Server) {
    && Valid(g.store) && first <= g.now
    && OneRun(key, g)
    && (forall r :: r in g.running && g.running[r] == key ==> key in g.store.entries && g.store.entries[key].response.None?)
    && |g.answers| <= 1
    && (key in g.store.entries ==>
         && g.store.entries[key].created >= first
         && key in g.store.order && Newer(g.store.order, key) <= g.newer
         && g.store.entries[key].response == if g.answers == [] then None else Some(g.answers[0]))
    && (g.answers != [] ==> key in g.store.entries)
    && (forall reply :: reply in g.replies && reply.Answer? && reply.response.status < 500 ==> g.answers == [reply.response])
  }

  /** As long as it is within the bounds. */
  predicate Bounded(first: real, g: Server) {
    g.now - first <= RETENTION && g.newer < g.store.capacity
  }

  lemma BegunValid(s: Store, scope: Scope, fingerprint: Fingerprint, now: real)
    requires Valid(s)
    ensures Valid(Begun(s, scope, fingerprint, now)) && Begun(s, scope, fingerprint, now).capacity == s.capacity
  {
    if BeginOutcome(s, scope, fingerprint, now).Started? {
      EnteredListed(s, scope, fingerprint, now);
      EvictedValid(Entered(s, scope, fingerprint, now));
    }
  }

  /** A key just begun is remembered, if there is room for any. */
  lemma BegunRemembered(s: Store, key: Scope, fingerprint: Fingerprint, now: real)
    requires Valid(s) && s.capacity > 0 && BeginOutcome(s, key, fingerprint, now).Started?
    ensures var after := Begun(s, key, fingerprint, now);
      && key in after.entries && after.entries[key] == Entry(fingerprint, now, None)
      && key in after.order && Newer(after.order, key) == 0
  {
    EnteredListed(s, key, fingerprint, now);
    EvictionKeepsNewest(Entered(s, key, fingerprint, now), key);
  }

  /** Beginning one key makes another at most one older; it is remembered while there is room for it. */
  lemma OtherRemembered(s: Store, scope: Scope, fingerprint: Fingerprint, now: real, key: Scope)
    requires Valid(s) && scope != key && BeginOutcome(s, scope, fingerprint, now).Started?
    ensures var after := Begun(s, scope, fingerprint, now);
      if key in s.entries && key in s.order && Newer(s.order, key) + 1 < s.capacity then
        && key in after.entries && after.entries[key] == s.entries[key]
        && key in after.order && Newer(after.order, key) <= Newer(s.order, key) + 1
      else key !in s.entries ==> key !in after.entries
  {
    var e := Entered(s, scope, fingerprint, now);
    EnteredListed(s, scope, fingerprint, now);
    EvictionKeepsNewest(e, key);
    if key in s.order {
      WithoutNewer(s.order, scope, key);
      OneMoreNewer(Without(s.order, scope), scope, key);
    }
  }

  lemma EndedKeeps(key: Scope, s: Store, scope: Scope, ending: Ending)
    requires Valid(s) && scope != key
    ensures var after := Ended(s, scope, ending);
      && Valid(after) && after.capacity == s.capacity
      && (key in after.entries <==> key in s.entries)
      && (key in s.entries && key in s.order ==>
            after.entries[key] == s.entries[key] && key in after.order && Newer(after.order, key) <= Newer(s.order, key))
  {
    if Stored(ending) {
    } else {
      ForgottenListed(s, scope);
      if key in s.order {
        WithoutNewer(s.order, scope, key);
      }
    }
  }

  lemma OwnEndingKeeps(s: Store, key: Scope, ending: Ending)
    requires Valid(s)
    ensures Valid(Ended(s, key, ending)) && Ended(s, key, ending).capacity == s.capacity
    ensures !Stored(ending) ==> key !in Ended(s, key, ending).entries
  {
    ForgottenListed(s, key);
  }

  lemma NewRunKept(key: Scope, first: real, g: Server, t: Timed)
    requires Kept(key, first, g) && Possible(g, t) && t.event.Arrive? && t.at - first <= RETENTION
    requires t.event.scope == key && g.store.capacity > 0
    requires BeginOutcome(g.store, key, t.event.fingerprint, t.at).Started?
    ensures Kept(key, first, Next(key, g, t))
  {
    assert key !in g.store.entries;
    BegunValid(g.store, key, t.event.fingerprint, t.at);
    BegunRemembered(g.store, key, t.event.fingerprint, t.at);
  }

  lemma ReplyKept(key: Scope, first: real, g: Server, t: Timed)
    requires Kept(key, first, g) && Possible(g, t) && t.event.Arrive?
    requires !BeginOutcome(g.store, t.event.scope, t.event.fingerprint, t.at).Started?
    ensures Kept(key, first, Next(key, g, t))
  {
    assert g.answers != [] ==> g.answers == [g.answers[0]];
  }

  lemma OtherArrivalKept(key: Scope, first: real, g: Server, t: Timed)
    requires Kept(key, first, g) && Possible(g, t) && t.event.Arrive? && t.event.scope != key
    requires BeginOutcome(g.store, t.event.scope, t.event.fingerprint, t.at).Started? && g.newer + 1 < g.store.capacity
    ensures Kept(key, first, Next(key, g, t))
  {
    BegunValid(g.store, t.event.scope, t.event.fingerprint, t.at);
    OtherRemembered(g.store, t.event.scope, t.event.fingerprint, t.at, key);
  }

  lemma ArrivalKept(key: Scope, first: real, g: Server, t: Timed)
    requires Kept(key, first, g) && Possible(g, t) && t.event.Arrive?
    requires t.at - first <= RETENTION && g.store.capacity > 0
    requires t.event.scope != key && BeginOutcome(g.store, t.event.scope, t.event.fingerprint, t.at).Started? ==>
      g.newer + 1 < g.store.capacity
    ensures Kept(key, first, Next(key, g, t))
  {
    BegunValid(g.store, t.event.scope, t.event.fingerprint, t.at);
    if !BeginOutcome(g.store, t.event.scope, t.event.fingerprint, t.at).Started? {
      ReplyKept(key, first, g, t);
    } else if t.event.scope == key {
      NewRunKept(key, first, g, t);
    } else {
      OtherArrivalKept(key, first, g, t);
    }
  }

  lemma EndingKept(key: Scope, first: real, g: Server, t: Timed)
    requires Kept(key, first, g) && Possible(g, t) && t.event.End?
    ensures Kept(key, first, Next(key, g, t))
  {
    var scope := g.running[t.event.request];
    if scope == key {
      OwnEndingKeeps(g.store, key, t.event.ending);
    } else {
      EndedKeeps(key, g.store, scope, t.event.ending);
    }
  }

  lemma {:induction false} BoundsAlready(key: Scope, first: real, g: Server, events: seq<Timed>)
    requires Valid(g.store) && AllPossible(key, g, events) && Bounded(first, Run(key, g, events))
    ensures Bounded(first, g)
    decreases |events|
  {
    if events != [] {
      match events[0].event {
        case Arrive(request, scope, fingerprint) => BegunValid(g.store, scope, fingerprint, events[0].at);
        case End(request, ending) => OwnEndingKeeps(g.store, g.running[request], ending);
      }
      BoundsAlready(key, first, Next(key, g, events[0]), events[1..]);
    }
  }

  lemma {:induction false} RunKept(key: Scope, first: real, g: Server, events: seq<Timed>)
    requires Kept(key, first, g) && AllPossible(key, g, events) && Bounded(first, Run(key, g, events))
    ensures Kept(key, first, Run(key, g, events))
    decreases |events|
  {
    if events != [] {
      var after := Next(key, g, events[0]);
      if events[0].event.Arrive? {
        BegunValid(g.store, events[0].event.scope, events[0].event.fingerprint, events[0].at);
        BoundsAlready(key, first, after, events[1..]);
        ArrivalKept(key, first, g, events[0]);
      } else {
        EndingKept(key, first, g, events[0]);
      }
      RunKept(key, first, after, events[1..]);
    }
  }

  /** Within the retention time, and with fewer than `capacity` other keys begun meanwhile, whatever is
      interleaved with what: a key never has two requests running, at most one of them ends with a stored
      answer, and every answer given under the key, replayed or not, that is not a server error is that one. */
  lemma AtMostOneAnswer(key: Scope, g: Server, events: seq<Timed>)
    requires Unused(key, g) && AllPossible(key, g, events) && Bounded(g.now, Run(key, g, events))
    ensures var end := Run(key, g, events);
      && OneRun(key, end)
      && |end.answers| <= 1
      && (forall reply :: reply in end.replies && reply.Answer? && reply.response.status < 500 ==>
           end.answers == [reply.response])
      && (forall r :: r in end.running && end.running[r] == key ==> end.answers == [])
  {
    RunKept(key, g.now, g, events);
  }

  /** Both bounds are exact: a request that is still running is run again, after another key was begun, exactly when
      that key left `capacity` keys newer than it, or its entry has aged out. */
  lemma RunsTwiceExactly(s: Store, key: Scope, other: Scope, fingerprint: Fingerprint, at: real, again: real)
    requires Valid(s) && key in s.entries && key in s.order && s.entries[key].response.None?
    requires other !in s.entries && other != key
    ensures BeginOutcome(Begun(s, other, fingerprint, at), key, s.entries[key].fingerprint, again).Started?
       <==> Newer(s.order, key) + 1 >= s.capacity || again - s.entries[key].created > RETENTION
  {
    var e := Entered(s, other, fingerprint, at);
    assert other !in Members(s.order);
    OneMoreNewer(s.order, other, key);
    EnteredListed(s, other, fingerprint, at);
    EvictionKeepsNewest(e, key);
  }

  // ----- the client -----

  const WRITE_ATTEMPTS := 3

  /** What one attempt comes to, as the client sees it. */
  datatype Attempt = ConnectionRefused | NoAnswer | Received(reply: Reply)

  datatype WriteResult = Succeeded(response: Response) | Failed(reply: Reply) | Unreachable | OutcomeUnknown

  predicate Repeats(attempt: Attempt) {
    attempt == NoAnswer || attempt == Received(InProgress)
  }

  function Final(attempt: Attempt): WriteResult {
    match attempt
    case ConnectionRefused => Unreachable
    case NoAnswer => OutcomeUnknown
    case Received(reply) =>
      if reply.Answer? && 200 <= reply.response.status < 300 then Succeeded(reply.response) else Failed(reply)
  }

  /** An attempt that is not repeated, and what the client makes of it: nothing was listening; an answer in the 200s; or
      anything else it was told. */
  predicate IsAnswered(attempt: Attempt, result: WriteResult) {
    match attempt
    case ConnectionRefused => result == Unreachable
    case NoAnswer => false
    case Received(Answer(response)) =>
      if response.status >= 200 && response.status <= 299 then result == Succeeded(response) else result == Failed(attempt.reply)
    case Received(InProgress) => false
    case Received(reply) => result == Failed(reply)
  }

  /** The functions the lemmas use say the same. */
  lemma AnsweredIsFinal(attempt: Attempt, result: WriteResult)
    ensures IsAnswered(attempt, result) <==> !Repeats(attempt) && result == Final(attempt)
    ensures Repeats(attempt) <==> attempt == NoAnswer || attempt == Received(InProgress)
  {
  }

  /** One write: the same request under one key until it has an answer, or the attempts run out. */
  method Write(attempts: seq<Attempt>) returns (result: WriteResult)
    requires |attempts| == WRITE_ATTEMPTS
    ensures result == OutcomeUnknown <==>
      forall i :: 0 <= i < |attempts| ==> attempts[i] == NoAnswer || attempts[i] == Received(InProgress)
    ensures result != OutcomeUnknown ==>
      exists i :: 0 <= i < |attempts| && IsAnswered(attempts[i], result) &&
        forall j :: 0 <= j < i ==> attempts[j] == NoAnswer || attempts[j] == Received(InProgress)
  {
    for i := 0 to WRITE_ATTEMPTS
      invariant forall j :: 0 <= j < i ==> attempts[j] == NoAnswer || attempts[j] == Received(InProgress)
    {
      match attempts[i] {
        case ConnectionRefused => return Unreachable;
        case NoAnswer =>
        case Received(reply) =>
          match reply {
            case Answer(response) => return if 200 <= response.status < 300 then Succeeded(response) else Failed(reply);
            case InProgress =>
            case _ => return Failed(reply);
          }
      }
    }
    return OutcomeUnknown;
  }

  /** Whatever replies are lost, a write the client says succeeded is the one that was run: its result is the
      one answer stored under the key. */
  lemma SuccessIsTheAnswer(key: Scope, g: Server, events: seq<Timed>, attempts: seq<Attempt>, i: nat)
    requires Unused(key, g) && AllPossible(key, g, events) && Bounded(g.now, Run(key, g, events))
    requires forall a :: a in attempts && a.Received? ==> a.reply in Run(key, g, events).replies
    requires i < |attempts| && Final(attempts[i]).Succeeded?
    ensures Run(key, g, events).answers == [Final(attempts[i]).response]
  {
    AtMostOneAnswer(key, g, events);
    assert attempts[i] in attempts;
  }
}
