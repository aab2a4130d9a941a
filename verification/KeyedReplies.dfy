/** Whose answer a request is given (IdempotencyStore.cs, IdempotencyFilter.cs): a key belongs to one request at a time,
    known by its fingerprint, and what is replayed under it is that request's own answer. */
module KeyedReplies {

  import opened Wrappers
  import opened Lists
  import opened Idempotency
  import opened RepeatedWrites

  /** What happened under one key, request by request: those being run; the fingerprints of all that were ever run; the
      answers that runs ended with, each with its fingerprint; every reply given, with the fingerprint of the request
      it was given to; and whose the key is: the last one begun, unless that ended without an answer to keep. */
  datatype Ledger = Ledger(running: map<nat, Fingerprint>, begun: set<Fingerprint>, answered: set<(Fingerprint, Response)>,
                           given: set<(Fingerprint, Reply)>, holder: Option<Fingerprint>)

  const BLANK := Ledger(map[], {}, {}, {}, None)

  /** What a request is told at once, if it is not run. */
  function ReplyAt(g: Server, t: Timed): Option<Reply>
    requires t.event.Arrive?
  {
    FirstReply(BeginOutcome(g.store, t.event.scope, t.event.fingerprint, t.at))
  }

  function Noted(key: Scope, g: Server, l: Ledger, t: Timed): Ledger
    requires Possible(g, t)
  {
    match t.event
    case Arrive(q, scope, fingerprint) =>
      if scope != key then l
      else if ReplyAt(g, t).Some? then l.(given := l.given + {(fingerprint, ReplyAt(g, t).value)})
      else l.(running := l.running[q := fingerprint], begun := l.begun + {fingerprint}, holder := Some(fingerprint))
    case End(q, ending) =>
      if g.running[q] != key || q !in l.running then l
      else
        var mine := l.running[q];
        l.(running := l.running - {q}, given := l.given + {(mine, LastReply(ending))},
           answered := if ending.Answered? then l.answered + {(mine, ending.response)} else l.answered,
           holder := if ending.Answered? && ending.response.status < 500 then l.holder else None)
  }

  function Account(key: Scope, g: Server, l: Ledger, events: seq<Timed>): Ledger
    requires AllPossible(key, g, events)
    decreases |events|
  {
    if events == [] then l else Account(key, Next(key, g, events[0]), Noted(key, g, l, events[0]), events[1..])
  }

  // ----- every run -----

  ghost predicate Tracks(key: Scope, g: Server, l: Ledger) {
    && Valid(g.store)
    && (forall q :: q in l.running <==> q in g.running && g.running[q] == key)
    && (key in g.store.entries ==> g.store.entries[key].fingerprint in l.begun)
    && (forall f :: (f, KeyReused) in l.given ==> exists other :: other in l.begun && other != f)
  }

  lemma OtherEntry(s: Store, scope: Scope, fingerprint: Fingerprint, now: real, key: Scope)
    requires Valid(s) && scope != key
    ensures var after := Begun(s, scope, fingerprint, now);
      && Valid(after)
      && (key in after.entries ==> key in s.entries && after.entries[key] == s.entries[key])
  {
    BegunValid(s, scope, fingerprint, now);
    if BeginOutcome(s, scope, fingerprint, now).Started? {
      EnteredListed(s, scope, fingerprint, now);
      EvictionKeepsNewest(Entered(s, scope, fingerprint, now), key);
    }
  }

  lemma OwnEntry(s: Store, key: Scope, fingerprint: Fingerprint, now: real)
    requires Valid(s) && BeginOutcome(s, key, fingerprint, now).Started?
    ensures var after := Begun(s, key, fingerprint, now);
      Valid(after) && (key in after.entries ==> after.entries[key] == Entry(fingerprint, now, None))
  {
    BegunValid(s, key, fingerprint, now);
    EnteredListed(s, key, fingerprint, now);
    EvictionKeepsNewest(Entered(s, key, fingerprint, now), key);
  }

  lemma OtherEnds(s: Store, scope: Scope, ending: Ending, key: Scope)
    requires Valid(s) && scope != key
    ensures Valid(Ended(s, scope, ending))
    ensures key in Ended(s, scope, ending).entries ==>
      key in s.entries && Ended(s, scope, ending).entries[key] == s.entries[key]
  {
    ForgottenListed(s, scope);
  }

  lemma ReplyTracked(key: Scope, g: Server, l: Ledger, t: Timed)
    requires Tracks(key, g, l) && Possible(g, t) && t.event.Arrive? && t.event.scope == key && ReplyAt(g, t).Some?
    ensures Tracks(key, Next(key, g, t), Noted(key, g, l, t))
  {
    if ReplyAt(g, t) == Some(KeyReused) {
      assert g.store.entries[key].fingerprint != t.event.fingerprint;
    }
  }

  lemma StartTracked(key: Scope, g: Server, l: Ledger, t: Timed)
    requires Tracks(key, g, l) && Possible(g, t) && t.event.Arrive? && t.event.scope == key && ReplyAt(g, t).None?
    ensures Tracks(key, Next(key, g, t), Noted(key, g, l, t))
  {
    OwnEntry(g.store, key, t.event.fingerprint, t.at);
  }

  lemma OtherTracked(key: Scope, g: Server, l: Ledger, t: Timed)
    requires Tracks(key, g, l) && Possible(g, t) && t.event.Arrive? && t.event.scope != key
    ensures Tracks(key, Next(key, g, t), Noted(key, g, l, t))
  {
    OtherEntry(g.store, t.event.scope, t.event.fingerprint, t.at, key);
  }

  lemma ArrivalTracked(key: Scope, g: Server, l: Ledger, t: Timed)
    requires Tracks(key, g, l) && Possible(g, t) && t.event.Arrive?
    ensures Tracks(key, Next(key, g, t), Noted(key, g, l, t))
  {
    if t.event.scope != key {
      OtherTracked(key, g, l, t);
    } else if ReplyAt(g, t).None? {
      StartTracked(key, g, l, t);
    } else {
      ReplyTracked(key, g, l, t);
    }
  }

  lemma EndTracked(key: Scope, g: Server, l: Ledger, t: Timed)
    requires Tracks(key, g, l) && Possible(g, t) && t.event.End?
    ensures Tracks(key, Next(key, g, t), Noted(key, g, l, t))
  {
    var scope := g.running[t.event.request];
    if scope != key {
      OtherEnds(g.store, scope, t.event.ending, key);
    } else {
      OwnEndingKeeps(g.store, key, t.event.ending);
    }
  }

  lemma {:induction false} RunTracked(key: Scope, g: Server, l: Ledger, events: seq<Timed>)
    requires Tracks(key, g, l) && AllPossible(key, g, events)
    ensures Tracks(key, Run(key, g, events), Account(key, g, l, events))
    decreases |events|
  {
    if events != [] {
      if events[0].event.Arrive? {
        ArrivalTracked(key, g, l, events[0]);
      } else {
        EndTracked(key, g, l, events[0]);
      }
      RunTracked(key, Next(key, g, events[0]), Noted(key, g, l, events[0]), events[1..]);
    }
  }

  /** A request is told that its key was used for another only if another was run under it: repeating one request never
      gets that answer, in any run. */
  lemma ReusedMeansAnother(key: Scope, g: Server, events: seq<Timed>, fingerprint: Fingerprint)
    requires Unused(key, g) && AllPossible(key, g, events)
    requires (fingerprint, KeyReused) in Account(key, g, BLANK, events).given
    ensures exists other :: other in Account(key, g, BLANK, events).begun && other != fingerprint
  {
    RunTracked(key, g, BLANK, events);
  }

  // ----- whose answer is stored -----

  /** The answer stored under the key is one that a request of the entry's own fingerprint was run for, and so is every
      answer given so far. */
  ghost predicate Own(key: Scope, g: Server, l: Ledger) {
    && (key in g.store.entries && g.store.entries[key].response.Some? ==>
          (g.store.entries[key].fingerprint, g.store.entries[key].response.value) in l.answered)
    && (forall f, r :: (f, Answer(r)) in l.given ==> (f, r) in l.answered)
  }

  /** A run ends, with an answer to keep, under an entry that is by then another request's. */
  predicate StoresForAnother(key: Scope, g: Server, l: Ledger, t: Timed) {
    && t.event.End? && t.event.request in g.running && g.running[t.event.request] == key
    && t.event.ending.Answered? && t.event.ending.response.status < 500
    && t.event.request in l.running && key in g.store.entries
    && g.store.entries[key].fingerprint != l.running[t.event.request]
    && (g.store.entries[key].fingerprint, t.event.ending.response) !in l.answered
  }

  /** The one step after which an answer can be given to a request it is not the answer of. */
  lemma OwnUnless(key: Scope, g: Server, l: Ledger, t: Timed)
    requires Tracks(key, g, l) && Own(key, g, l) && Possible(g, t)
    ensures Own(key, Next(key, g, t), Noted(key, g, l, t)) <==> !StoresForAnother(key, g, l, t)
  {
    match t.event
    case Arrive(q, scope, fingerprint) =>
      if scope != key {
        OtherEntry(g.store, scope, fingerprint, t.at, key);
      } else if ReplyAt(g, t).None? {
        OwnEntry(g.store, key, fingerprint, t.at);
      }
    case End(q, ending) =>
      if g.running[q] != key {
        OtherEnds(g.store, g.running[q], ending, key);
      } else {
        OwnEndingKeeps(g.store, key, ending);
      }
  }

  /** The entry is that of the request being run. */
  ghost predicate RunsItsEntry(key: Scope, g: Server, l: Ledger) {
    forall q :: q in l.running && key in g.store.entries ==> g.store.entries[key].fingerprint == l.running[q]
  }

  /** At no point of the run are two requests run at once under the key. */
  ghost predicate AlwaysOne(key: Scope, g: Server, events: seq<Timed>)
    requires AllPossible(key, g, events)
    decreases |events|
  {
    OneRun(key, g) && (events != [] ==> AlwaysOne(key, Next(key, g, events[0]), events[1..]))
  }

  lemma NoneRunning(key: Scope, g: Server, l: Ledger, t: Timed)
    requires Tracks(key, g, l) && Possible(g, t) && t.event.Arrive? && t.event.scope == key && ReplyAt(g, t).None?
    requires OneRun(key, Next(key, g, t))
    ensures l.running == map[]
  {
    var next, q := Next(key, g, t).running, t.event.request;
    assert q in next && next[q] == key;
    assert forall r :: r in g.running ==> r != q && r in next && next[r] == g.running[r];
  }

  lemma StartRunsItsEntry(key: Scope, g: Server, l: Ledger, t: Timed)
    requires Tracks(key, g, l) && Possible(g, t) && t.event.Arrive? && t.event.scope == key && ReplyAt(g, t).None?
    requires l.running == map[]
    ensures RunsItsEntry(key, Next(key, g, t), Noted(key, g, l, t))
  {
    var q, mine := t.event.request, t.event.fingerprint;
    OwnEntry(g.store, key, mine, t.at);
    assert Next(key, g, t).store == Begun(g.store, key, mine, t.at);
    assert Noted(key, g, l, t).running == map[q := mine];
  }

  lemma StepRunsItsEntry(key: Scope, g: Server, l: Ledger, t: Timed)
    requires Tracks(key, g, l) && RunsItsEntry(key, g, l) && Possible(g, t) && OneRun(key, Next(key, g, t))
    ensures RunsItsEntry(key, Next(key, g, t), Noted(key, g, l, t))
  {
    match t.event
    case Arrive(q, scope, fingerprint) =>
      if scope != key {
        OtherEntry(g.store, scope, fingerprint, t.at, key);
      } else if ReplyAt(g, t).None? {
        NoneRunning(key, g, l, t);
        StartRunsItsEntry(key, g, l, t);
      }
    case End(q, ending) =>
      if g.running[q] != key {
        OtherEnds(g.store, g.running[q], ending, key);
      }
  }

  /** While requests under a key are run one at a time, every answer given to a request is one that a run of a request
      with its own fingerprint ended with. */
  lemma {:induction false} AnswersAreOwn(key: Scope, g: Server, l: Ledger, events: seq<Timed>)
    requires Tracks(key, g, l) && Own(key, g, l) && RunsItsEntry(key, g, l)
    requires AllPossible(key, g, events) && AlwaysOne(key, g, events)
    ensures Own(key, Run(key, g, events), Account(key, g, l, events))
    decreases |events|
  {
    if events != [] {
      var t := events[0];
      OwnUnless(key, g, l, t);
      StepRunsItsEntry(key, g, l, t);
      if t.event.Arrive? {
        ArrivalTracked(key, g, l, t);
      } else {
        EndTracked(key, g, l, t);
      }
      AnswersAreOwn(key, Next(key, g, t), Noted(key, g, l, t), events[1..]);
    }
  }

  // ----- within the bounds -----

  /** The entry is the holder's, and says what became of it. */
  ghost predicate Held(key: Scope, g: Server, l: Ledger) {
    && (l.holder.Some? <==> key in g.store.entries)
    && (l.holder.Some? ==> g.store.entries[key].fingerprint == l.holder.value)
    && (l.holder.Some? ==> (g.store.entries[key].response.None? <==> l.running != map[]))
  }

  lemma ArrivalHeld(key: Scope, first: real, g: Server, l: Ledger, t: Timed)
    requires Kept(key, first, g) && Tracks(key, g, l) && Held(key, g, l) && Possible(g, t) && t.event.Arrive?
    requires t.at - first <= RETENTION && g.store.capacity > 0
    requires t.event.scope != key && BeginOutcome(g.store, t.event.scope, t.event.fingerprint, t.at).Started? ==>
      g.newer + 1 < g.store.capacity
    ensures Held(key, Next(key, g, t), Noted(key, g, l, t))
  {
    var scope, fingerprint := t.event.scope, t.event.fingerprint;
    if scope != key {
      if BeginOutcome(g.store, scope, fingerprint, t.at).Started? {
        OtherRemembered(g.store, scope, fingerprint, t.at, key);
      }
    } else if ReplyAt(g, t).None? {
      BegunRemembered(g.store, key, fingerprint, t.at);
    }
  }

  lemma EndHeld(key: Scope, first: real, g: Server, l: Ledger, t: Timed)
    requires Kept(key, first, g) && Tracks(key, g, l) && Held(key, g, l) && Possible(g, t) && t.event.End?
    ensures Held(key, Next(key, g, t), Noted(key, g, l, t))
  {
    var q, scope := t.event.request, g.running[t.event.request];
    if scope != key {
      EndedKeeps(key, g.store, scope, t.event.ending);
    } else {
      OwnEndingKeeps(g.store, key, t.event.ending);
      assert forall r :: r in l.running ==> r == q;
      assert l.running - {q} == map[];
    }
  }

  lemma {:induction false} RunHeld(key: Scope, first: real, g: Server, l: Ledger, events: seq<Timed>)
    requires Kept(key, first, g) && Tracks(key, g, l) && Held(key, g, l)
    requires AllPossible(key, g, events) && Bounded(first, Run(key, g, events))
    ensures Held(key, Run(key, g, events), Account(key, g, l, events)) && AlwaysOne(key, g, events)
    decreases |events|
  {
    if events != [] {
      var t := events[0];
      var next := Next(key, g, t);
      if t.event.Arrive? {
        BegunValid(g.store, t.event.scope, t.event.fingerprint, t.at);
        BoundsAlready(key, first, next, events[1..]);
        ArrivalHeld(key, first, g, l, t);
        ArrivalKept(key, first, g, t);
        ArrivalTracked(key, g, l, t);
      } else {
        EndHeld(key, first, g, l, t);
        EndingKept(key, first, g, t);
        EndTracked(key, g, l, t);
      }
      RunHeld(key, first, next, Noted(key, g, l, t), events[1..]);
    }
  }

  /** What a request under a key is told, and what comes of it, by whose the key is alone. */
  ghost predicate ToldRightly(key: Scope, g: Server, l: Ledger, t: Timed)
    requires Possible(g, t) && t.event.Arrive?
  {
    var mine, next := t.event.fingerprint, Next(key, g, t);
    if l.holder.None? then ReplyAt(g, t).None? && t.event.request in next.running
    else
      && next.running == g.running && next.store == g.store
      && if l.holder.value != mine then ReplyAt(g, t) == Some(KeyReused)
         else if l.running != map[] then ReplyAt(g, t) == Some(InProgress)
         else |g.answers| == 1 && ReplyAt(g, t) == Some(Answer(g.answers[0])) && (mine, g.answers[0]) in l.answered
  }

  lemma HeldTellsRightly(key: Scope, first: real, g: Server, l: Ledger, t: Timed)
    requires Kept(key, first, g) && Held(key, g, l) && Own(key, g, l)
    requires Possible(g, t) && t.event.Arrive? && t.event.scope == key && t.at - first <= RETENTION
    ensures ToldRightly(key, g, l, t)
  {
  }

  /** Every request under a key, within the bounds: if the key is nobody's, it is run; if another's, it is told so and
      nothing is run; if its own, it waits while that is being run, and otherwise is given exactly the one answer that
      was stored, which a run with its own fingerprint ended with. */
  lemma RepliesExactly(key: Scope, g: Server, events: seq<Timed>, t: Timed)
    requires Unused(key, g) && AllPossible(key, g, events) && Possible(Run(key, g, events), t)
    requires t.event.Arrive? && t.event.scope == key
    requires Bounded(g.now, Run(key, g, events)) && t.at - g.now <= RETENTION
    ensures ToldRightly(key, Run(key, g, events), Account(key, g, BLANK, events), t)
  {
    RunKept(key, g.now, g, events);
    RunHeld(key, g.now, g, BLANK, events);
    AnswersAreOwn(key, g, BLANK, events);
    HeldTellsRightly(key, g.now, Run(key, g, events), Account(key, g, BLANK, events), t);
  }

  /** So a write the client calls succeeded, all its replies having been given to its own request, was run: its answer is
      one that a run of that very request ended with. */
  lemma SuccessIsOwn(key: Scope, g: Server, events: seq<Timed>, mine: Fingerprint, attempts: seq<Attempt>, i: nat)
    requires Unused(key, g) && AllPossible(key, g, events) && Bounded(g.now, Run(key, g, events))
    requires forall a :: a in attempts && a.Received? ==> (mine, a.reply) in Account(key, g, BLANK, events).given
    requires i < |attempts| && Final(attempts[i]).Succeeded?
    ensures (mine, Final(attempts[i]).response) in Account(key, g, BLANK, events).answered
  {
    RunHeld(key, g.now, g, BLANK, events);
    AnswersAreOwn(key, g, BLANK, events);
    assert attempts[i] in attempts;
  }

  // ----- past them -----

  lemma Starts(key: Scope, g: Server, l: Ledger, q: nat, mine: Fingerprint, at: real)
    requires Valid(g.store) && g.store.capacity > 0 && at >= g.now && Below(g.running, q)
    requires key in g.store.entries ==> at - g.store.entries[key].created > RETENTION
    ensures var t := Timed(at, Arrive(q, key, mine));
      && Possible(g, t) && var next, note := Next(key, g, t), Noted(key, g, l, t);
      && next.now == at && Valid(next.store) && next.store.capacity == g.store.capacity
      && key in next.store.entries && next.store.entries[key] == Entry(mine, at, None)
      && next.running == g.running[q := key] && Below(next.running, q + 1)
      && note.running == l.running[q := mine] && note.answered == l.answered
  {
    BegunValid(g.store, key, mine, at);
    BegunRemembered(g.store, key, mine, at);
  }

  /** The first request's answer is stored and replayed as the second one's. */
  lemma Replays(key: Scope, g: Server, l: Ledger, q: nat, mine: Fingerprint, other: Fingerprint, response: Response)
    returns (events: seq<Timed>)
    requires q in g.running && g.running[q] == key && q in l.running && l.running[q] == mine && Below(g.running, q + 2)
    requires key in g.store.entries && g.store.entries[key] == Entry(other, g.now, None)
    requires mine != other && response.status < 500 && l.answered == {}
    ensures AllPossible(key, g, events)
    ensures (other, Answer(response)) in Account(key, g, l, events).given
    ensures (other, response) !in Account(key, g, l, events).answered
  {
    var end, repeat := Timed(g.now, End(q, Answered(response))), Timed(g.now, Arrive(q + 2, key, other));
    var g1, l1 := Next(key, g, end), Noted(key, g, l, end);
    assert g1.store.entries[key] == Entry(other, g.now, Some(response));
    assert l1.answered == {(mine, response)};
    OneNoted(key, g1, l1, repeat, []);
    OneNoted(key, g, l, end, [repeat] + []);
    events := [end] + ([repeat] + []);
  }

  /** Another request takes the key while the first is still being run. */
  lemma TakesOver(key: Scope, g: Server, l: Ledger, q: nat, mine: Fingerprint, other: Fingerprint, response: Response, at: real)
    returns (events: seq<Timed>)
    requires Valid(g.store) && g.store.capacity > 0 && at >= g.now && Below(g.running, q + 1)
    requires q in g.running && g.running[q] == key && q in l.running && l.running[q] == mine
    requires key in g.store.entries && at - g.store.entries[key].created > RETENTION
    requires mine != other && response.status < 500 && l.answered == {}
    ensures AllPossible(key, g, events)
    ensures (other, Answer(response)) in Account(key, g, l, events).given
    ensures (other, response) !in Account(key, g, l, events).answered
  {
    var second := Timed(at, Arrive(q + 1, key, other));
    Starts(key, g, l, q + 1, other, at);
    var rest := Replays(key, Next(key, g, second), Noted(key, g, l, second), q, mine, other, response);
    OneNoted(key, g, l, second, rest);
    events := [second] + rest;
  }

  /** One way an answer goes astray: a request is run for longer than keys are remembered, another takes its key, and the
      first one's answer is stored, and replayed, as the second one's. */
  lemma AnswerAstray(key: Scope, g: Server, mine: Fingerprint, other: Fingerprint, response: Response, late: real)
    returns (events: seq<Timed>)
    requires Unused(key, g) && g.store.capacity > 0 && late > RETENTION && mine != other && response.status < 500
    ensures AllPossible(key, g, events)
    ensures (other, Answer(response)) in Account(key, g, BLANK, events).given
    ensures (other, response) !in Account(key, g, BLANK, events).answered
  {
    var q := Fresh(g.running);
    var first := Timed(g.now, Arrive(q, key, mine));
    Starts(key, g, BLANK, q, mine, g.now);
    var next, note := Next(key, g, first), Noted(key, g, BLANK, first);
    var rest := TakesOver(key, next, note, q, mine, other, response, g.now + late);
    OneNoted(key, g, BLANK, first, rest);
    events := [first] + rest;
  }

  lemma OneNoted(key: Scope, g: Server, l: Ledger, t: Timed, rest: seq<Timed>)
    requires Possible(g, t) && AllPossible(key, Next(key, g, t), rest)
    ensures AllPossible(key, g, [t] + rest)
    ensures Account(key, g, l, [t] + rest) == Account(key, Next(key, g, t), Noted(key, g, l, t), rest)
  {
    assert ([t] + rest)[1..] == rest;
  }
}
