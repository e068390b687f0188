// The incremental WebSocket transport: sending a suffix of the input after a response the
// provider remembers must mean the same as sending all of it.
module Transport {
  import opened Wrappers

  /** A JSON value as far as the transport looks into it: the members of an object by
      name, each as text. */
  datatype Item = Object(members: map<string, string>) | Plain(text: string)

  type SessionKey = string

  const MAX_SESSIONS: nat := 64

  /** What is saved of the last completed response on a session. properties stands for
      the request body without its input and what only steers the next response. */
  datatype Saved = Saved(properties: string, input: seq<Item>, responseId: string, items: seq<Item>, lastUsed: nat)

  const FRESH := Saved("", [], "", [], 0)

  // What is kept of an item the provider said, without what it calls the item and how far
  // it got with it. The input of the next request repeats it in this form.
  function Sanitize(item: Item): Item {
    if item.Object? then Object(item.members - {"id", "status"}) else item
  }

  // ---- what to send ----

  function Continuation(state: Saved, properties: string, input: seq<Item>): Option<seq<Item>> {
    if state.responseId == "" then None else
    if state.properties != properties then None else
    var baseline := state.input + state.items;
    if |input| <= |baseline| then None else
    if baseline != input[..|baseline|] then None else
    Some(input[|baseline|..])
  }

  // A suffix is sent exactly when the saved transcript is a proper prefix of the input
  // of a request with the same properties; together they are the input.
  lemma ContinuationIs(state: Saved, properties: string, input: seq<Item>)
    ensures Continuation(state, properties, input).Some? <==>
              state.responseId != "" && state.properties == properties && state.input + state.items < input
    ensures Continuation(state, properties, input).Some? ==>
              state.input + state.items + Continuation(state, properties, input).value == input
  {
  }

  // ---- saving a session ----

  function Expire(sessions: map<SessionKey, Saved>, expired: set<SessionKey>): map<SessionKey, Saved> {
    map k | k in sessions && k !in expired :: sessions[k]
  }

  // The table after saving, when evicted is the session that has to make room.
  function Stored(sessions: map<SessionKey, Saved>, expired: set<SessionKey>, evicted: Option<SessionKey>,
                  key: SessionKey, state: Saved): map<SessionKey, Saved> {
    var kept := Expire(sessions, expired);
    (if |kept| >= MAX_SESSIONS && evicted.Some? then kept - {evicted.value} else kept)[key := state]
  }

  // The session that was used least recently.
  method LeastRecentlyUsed(sessions: map<SessionKey, Saved>) returns (oldest: SessionKey)
    requires sessions != map[]
    ensures oldest in sessions && forall k :: k in sessions ==> sessions[oldest].lastUsed <= sessions[k].lastUsed
  {
    assert sessions.Keys != {};
    oldest :| oldest in sessions;
    var rest := sessions.Keys - {oldest};
    while rest != {}
      invariant rest <= sessions.Keys && oldest in sessions
      invariant forall k :: k in sessions && k !in rest ==> sessions[oldest].lastUsed <= sessions[k].lastUsed
      decreases |rest|
    {
      var k :| k in rest;
      if sessions[k].lastUsed < sessions[oldest].lastUsed {
        oldest := k;
      }
      rest := rest - {k};
    }
  }

  // Makes room for one session, if there is none.
  method MakeRoom(kept: map<SessionKey, Saved>) returns (room: map<SessionKey, Saved>, ghost evicted: Option<SessionKey>)
    ensures room == if |kept| >= MAX_SESSIONS && evicted.Some? then kept - {evicted.value} else kept
    ensures |kept| >= MAX_SESSIONS ==> evicted.Some? && evicted.value in kept && |room| == |kept| - 1
    ensures forall k, j :: k in kept && k !in room && j in room ==> kept[k].lastUsed <= kept[j].lastUsed
  {
    room, evicted := kept, None;
    if |kept| >= MAX_SESSIONS {
      var oldest := LeastRecentlyUsed(kept);
      Without(kept, oldest);
      room, evicted := kept - {oldest}, Some(oldest);
    }
  }

  /** Drops what has expired, makes room by dropping the least recently used session,
      and saves; the others stay as they are. */
  method StoreWebsocketState(sessions: map<SessionKey, Saved>, expired: set<SessionKey>, key: SessionKey, state: Saved)
    returns (after: map<SessionKey, Saved>, ghost evicted: Option<SessionKey>)
    ensures after == Stored(sessions, expired, evicted, key, state)
    ensures key in after && after[key] == state
    ensures forall k :: k in after && k != key ==> k in sessions && k !in expired && after[k] == sessions[k]
    ensures |sessions| <= 64 ==> |after| <= 64
    ensures forall k, j :: k in Expire(sessions, expired) && k !in after && j in after && j != key ==>
              sessions[k].lastUsed <= sessions[j].lastUsed
  {
    Kept(sessions, expired);
    hide Expire;
    var room;
    room, evicted := MakeRoom(Expire(sessions, expired));
    after := room[key := state];
    With(room, key, state);
  }

  lemma With(sessions: map<SessionKey, Saved>, key: SessionKey, state: Saved)
    ensures |sessions[key := state]| <= |sessions| + 1
  {
    assert sessions[key := state].Keys == sessions.Keys + {key};
  }

  lemma Kept(sessions: map<SessionKey, Saved>, expired: set<SessionKey>)
    ensures |Expire(sessions, expired)| <= |sessions|
    ensures forall k :: k in Expire(sessions, expired) <==> k in sessions && k !in expired
    ensures forall k :: k in Expire(sessions, expired) ==> Expire(sessions, expired)[k] == sessions[k]
  {
    CardinalityOfSubset(Expire(sessions, expired).Keys, sessions.Keys);
  }

  lemma Without(sessions: map<SessionKey, Saved>, k: SessionKey)
    requires k in sessions
    ensures |sessions - {k}| == |sessions| - 1
  {
    assert (sessions - {k}).Keys == sessions.Keys - {k};
  }

  lemma {:induction false} CardinalityOfSubset<T>(a: set<T>, b: set<T>)
    requires a <= b
    ensures |a| <= |b|
  {
    if a != {} {
      var x :| x in a;
      CardinalityOfSubset(a - {x}, b - {x});
    }
  }

  lemma StoredIn(sessions: map<SessionKey, Saved>, expired: set<SessionKey>, evicted: Option<SessionKey>, key: SessionKey)
    ensures forall state, k :: k in Stored(sessions, expired, evicted, key, state) && k != key ==>
              k in sessions && Stored(sessions, expired, evicted, key, state)[k] == sessions[k]
    ensures forall state :: key in Stored(sessions, expired, evicted, key, state) &&
              Stored(sessions, expired, evicted, key, state)[key] == state
  {
  }

  // ---- clients and the provider ----

  /** A request under way: what was asked for, what was sent for it, and the response
      read so far. said is the provider's side of it: the items as it sent them. */
  datatype Flight = Flight(key: SessionKey, properties: string, input: seq<Item>, previous: Option<string>,
                           sent: seq<Item>, responseId: string, items: seq<Item>, said: seq<Item>)

  /** transcripts is the provider's memory: what each completed response continued,
      followed by what it said, in its own words. */
  datatype World = World(sessions: map<SessionKey, Saved>, flights: map<nat, Flight>, transcripts: map<string, seq<Item>>)

  const START := World(map[], map[], map[])

  function Denoted(transcripts: map<string, seq<Item>>, previous: Option<string>, sent: seq<Item>): seq<Item> {
    if previous.Some? && previous.value in transcripts then transcripts[previous.value] + sent else sent
  }

  datatype Step =
    | Send(flight: nat, key: SessionKey, properties: string, input: seq<Item>)
    | ResponseId(flight: nat, id: string)         // an event that names the response
    | OutputItem(flight: nat, item: Item)         // a finished output item
    | Completed(flight: nat, expired: set<SessionKey>, evicted: Option<SessionKey>, now: nat)
    | Fail(flight: nat)                           // any error, close, timeout, or a caller gone

  // A session is taken out of the table while a request uses it.
  function SendRequest(w: World, step: Step): World
    requires step.Send?
  {
    var state := if step.key in w.sessions then w.sessions[step.key] else FRESH;
    var increment := Continuation(state, step.properties, step.input);
    var flight := Flight(step.key, step.properties, step.input,
                         if increment.Some? then Some(state.responseId) else None,
                         if increment.Some? then increment.value else step.input, "", [], []);
    w.(sessions := w.sessions - {step.key}, flights := w.flights[step.flight := flight])
  }

  function Heard(flight: Flight, item: Item): Flight {
    flight.(items := flight.items + [Sanitize(item)], said := flight.said + [item])
  }

  // The provider never uses an id twice; a completion without one is an error.
  function Next(w: World, step: Step): World {
    match step
    case Send(f, key, _, _) => if f in w.flights then w else SendRequest(w, step)
    case ResponseId(f, id) => if f in w.flights then w.(flights := w.flights[f := w.flights[f].(responseId := id)]) else w
    case OutputItem(f, item) =>
      if f in w.flights then w.(flights := w.flights[f := Heard(w.flights[f], item)]) else w
    case Completed(f, expired, evicted, now) =>
      if f !in w.flights || w.flights[f].responseId in w.transcripts then w else
      var flight := w.flights[f];
      var flights := w.flights - {f};
      if flight.responseId == "" then w.(flights := flights) else
      var state := Saved(flight.properties, flight.input, flight.responseId, flight.items, now);
      World(Stored(w.sessions, expired, evicted, flight.key, state), flights,
            w.transcripts[flight.responseId := Denoted(w.transcripts, flight.previous, flight.sent) + flight.said])
    case Fail(f) => w.(flights := w.flights - {f})
  }

  function Run(steps: seq<Step>): World {
    if steps == [] then START else Next(Run(steps[..|steps| - 1]), steps[|steps| - 1])
  }

  // ---- refinement ----

  // An object with the same members, save its id and its status.
  ghost predicate WithoutOwnNames(said: Item, kept: Item) {
    && said.Object? && kept.Object?
    && forall name :: if name == "id" || name == "status" then name !in kept.members else
         && (name in kept.members <==> name in said.members)
         && (name in said.members ==> kept.members[name] == said.members[name])
  }

  // The same items in the same order, save that some may have been sanitized.
  ghost predicate Repeats(said: seq<Item>, kept: seq<Item>) {
    |said| == |kept| && forall i :: 0 <= i < |said| ==> kept[i] == said[i] || WithoutOwnNames(said[i], kept[i])
  }

  // What is saved repeats the provider's transcript of the response it names.
  ghost predicate SavedOk(w: World, s: Saved) {
    s.responseId != "" && s.responseId in w.transcripts && Repeats(w.transcripts[s.responseId], s.input + s.items)
  }

  // What was sent for a request means its whole input.
  ghost predicate FlightOk(w: World, f: Flight) {
    && (f.previous.Some? ==> f.previous.value in w.transcripts)
    && Repeats(Denoted(w.transcripts, f.previous, f.sent), f.input)
    && Repeats(f.said, f.items)
  }

  ghost predicate WorldOk(w: World) {
    && (forall k :: k in w.sessions ==> SavedOk(w, w.sessions[k]))
    && (forall f :: f in w.flights ==> FlightOk(w, w.flights[f]))
  }

  lemma SendKeeps(w: World, step: Step)
    requires WorldOk(w) && step.Send?
    ensures WorldOk(SendRequest(w, step))
  {
    if step.key in w.sessions {
      assert SavedOk(w, w.sessions[step.key]);
      ContinuationIs(w.sessions[step.key], step.properties, step.input);
    }
  }

  lemma RepeatsBoth(said: seq<Item>, kept: seq<Item>, more: seq<Item>, also: seq<Item>)
    requires Repeats(said, kept) && Repeats(more, also)
    ensures Repeats(said + more, kept + also)
  {
    hide Sanitize;
  }

  lemma CompletedKeeps(w: World, step: Step)
    requires WorldOk(w) && step.Completed?
    ensures WorldOk(Next(w, step))
  {
    hide Repeats, Stored;
    if step.flight in w.flights && w.flights[step.flight].responseId !in w.transcripts {
      var flight := w.flights[step.flight];
      assert FlightOk(w, flight);
      RepeatsBoth(Denoted(w.transcripts, flight.previous, flight.sent), flight.input, flight.said, flight.items);
      StoredIn(w.sessions, step.expired, step.evicted, flight.key);
      var w' := Next(w, step);
      forall k | k in w'.sessions ensures SavedOk(w', w'.sessions[k]) {
        if k != w.flights[step.flight].key {
          assert SavedOk(w, w.sessions[k]);
        }
      }
      forall f | f in w'.flights ensures FlightOk(w', w'.flights[f]) {
        assert FlightOk(w, w.flights[f]);
      }
    }
  }

  lemma ReadingKeeps(w: World, step: Step)
    requires WorldOk(w) && !step.Send? && !step.Completed?
    ensures WorldOk(Next(w, step))
  {
    var w' := Next(w, step);
    forall k | k in w'.sessions ensures SavedOk(w', w'.sessions[k]) {
      assert SavedOk(w, w.sessions[k]);
    }
    forall f | f in w'.flights ensures FlightOk(w', w'.flights[f]) {
      assert FlightOk(w, w.flights[f]);
    }
  }

  lemma {:induction false} RunKeeps(steps: seq<Step>)
    ensures WorldOk(Run(steps))
  {
    if steps != [] {
      var w, step := Run(steps[..|steps| - 1]), steps[|steps| - 1];
      RunKeeps(steps[..|steps| - 1]);
      match step
      case Send(_, _, _, _) => SendKeeps(w, step);
      case Completed(_, _, _, _) => CompletedKeeps(w, step);
      case _ => ReadingKeeps(w, step);
    }
  }

  /** Along every run, with requests on any sessions interleaved, failing and completing:
      the transcript named by previous_response_id, followed by what was sent, is the
      full input of the request, item by item, save that the input repeats what the
      provider said without its ids and statuses. */
  lemma IncrementMeansFullInput(steps: seq<Step>, f: nat)
    requires f in Run(steps).flights
    ensures var w := Run(steps); var flight := w.flights[f];
            && (flight.previous.Some? ==> flight.previous.value in w.transcripts)
            && Repeats(Denoted(w.transcripts, flight.previous, flight.sent), flight.input)
  {
    RunKeeps(steps);
  }

  // ---- what is saved ----

  // A response with an id completes, and its request is what is saved.
  ghost predicate Completes(w: World, step: Step, k: SessionKey, saved: Saved) {
    && step.Completed? && step.flight in w.flights
    && w.flights[step.flight].key == k && w.flights[step.flight].responseId != ""
    && saved == Saved(w.flights[step.flight].properties, w.flights[step.flight].input, w.flights[step.flight].responseId,
                      w.flights[step.flight].items, step.now)
  }

  // The i-th step of a run completed the response that is saved for a session, and no
  // request has used the session since.
  ghost predicate SavedAt(steps: seq<Step>, i: nat, k: SessionKey, saved: Saved) {
    && i < |steps| && Completes(Run(steps[..i]), steps[i], k, saved)
    && forall j :: i < j < |steps| && steps[j].Send? && steps[j].key == k ==> steps[j].flight in Run(steps[..j]).flights
  }

  lemma SavedLater(steps: seq<Step>, i: nat, k: SessionKey, saved: Saved)
    requires steps != [] && SavedAt(steps[..|steps| - 1], i, k, saved)
    requires var n := |steps| - 1; steps[n].Send? && steps[n].key == k ==> steps[n].flight in Run(steps[..n]).flights
    ensures SavedAt(steps, i, k, saved)
  {
    var n := |steps| - 1;
    hide Run;
    assert steps[..n][..i] == steps[..i];
    forall j | i < j < |steps| && steps[j].Send? && steps[j].key == k ensures steps[j].flight in Run(steps[..j]).flights {
      if j < n {
        assert steps[..n][..j] == steps[..j] && steps[..n][j] == steps[j];
      }
    }
  }

  // A step leaves a saved session alone, or a completed response replaces it.
  lemma SavesOrKeeps(w: World, step: Step, k: SessionKey)
    requires k in Next(w, step).sessions
    ensures || (k in w.sessions && Next(w, step).sessions[k] == w.sessions[k]
                && (step.Send? && step.key == k ==> step.flight in w.flights))
            || Completes(w, step, k, Next(w, step).sessions[k])
  {
  }

  /** Whatever is saved for a session was saved by a completed response with an id, to a
      request on that session, and no later request has used it up. */
  lemma {:induction false} OnlyCompletionSaves(steps: seq<Step>, k: SessionKey) returns (i: nat)
    requires k in Run(steps).sessions
    ensures SavedAt(steps, i, k, Run(steps).sessions[k])
  {
    var n := |steps| - 1;
    var w := Run(steps[..n]);
    SavesOrKeeps(w, steps[n], k);
    if k in w.sessions && Run(steps).sessions[k] == w.sessions[k] && (steps[n].Send? && steps[n].key == k ==> steps[n].flight in w.flights) {
      i := OnlyCompletionSaves(steps[..n], k);
      hide Next;
      SavedLater(steps, i, k, w.sessions[k]);
    } else {
      i := n;
    }
  }

  /** A request that fails saves nothing, and whatever is still read for it afterwards counts
      for nothing. */
  lemma FailedSavesNothing(w: World, f: nat, step: Step)
    requires !step.Send? && step.flight == f
    ensures var w' := Next(w, Fail(f));
            && w'.sessions == w.sessions && w'.transcripts == w.transcripts
            && (forall g :: g in w'.flights <==> g in w.flights && g != f) && (forall g :: g in w'.flights ==> w'.flights[g] == w.flights[g])
            && Next(w', step) == w'
  {
  }
}
