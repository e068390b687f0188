// The Project store as a state machine: durable rollout logs, the projection tables,
// the volatile sequence cache, and every way a process can stop and start again.
// A log stands for the records a scan of the rollout file returns (module
// FileRefinement connects it to the bytes).
module StoreMachine {
  import opened Wrappers
  import opened Protocol
  import opened Rollout
  import opened Tables
  import opened Charges

  /** journal and external are histories: the records projected so far, in order, and
      the usage reported outside any rollout. No operation reads them. */
  datatype World = World(logs: map<AgentId, seq<Record>>, db: Tables, cache: map<AgentId, nat>, live: bool,
                         journal: seq<Entry>, external: map<SessionId, Usage>)

  const START := World(map[], EMPTY, map[], true, [], map[])

  function LogOf(w: World, a: AgentId): seq<Record> {
    if a in w.logs then w.logs[a] else []
  }

  function Projected(db: Tables, a: AgentId): nat {
    if a in db.projected then db.projected[a] else 0
  }

  function SetProjected(db: Tables, a: AgentId, sequence: nat): Tables {
    db.(projected := db.projected[a := sequence])
  }

  // What is left of an operation that may fail.
  function Or(r: Result<World>, w: World): World {
    if r.Success? then r.value else w
  }

  // ---- projection and replay ----

  function ProjectOne(w: World, r: Record): Result<World> {
    var db :- Project(w.db, r);
    var sessionId :- Load(w.db.agents, r.agentId);
    Success(w.(db := db, journal := w.journal + [Entry(sessionId, r)]))
  }

  function ProjectAll(w: World, records: seq<Record>): Result<World>
    decreases |records|
  {
    if records == [] then Success(w) else
      var w' :- ProjectOne(w, records[0]);
      ProjectAll(w', records[1..])
  }

  function Replay(w: World, a: AgentId): Result<World> {
    var projected := Projected(w.db, a);
    if a in w.cache && w.cache[a] == projected then Success(w) else
    var last := |LogOf(w, a)|;
    if projected > last then Failure("projection sequence is ahead of rollout") else
    var w' :- ProjectAll(w, LogOf(w, a)[projected..]);
    Success(w'.(db := if projected < last then SetProjected(w'.db, a, last) else w'.db,
                cache := w'.cache[a := last]))
  }

  // ---- committing one record ----

  function NextRecord(w: World, a: AgentId, item: RolloutItem): Record {
    Record(ROLLOUT_VERSION, a, (if a in w.cache then w.cache[a] else 0) + 1, item)
  }

  function Appended(w: World, r: Record): World {
    w.(logs := w.logs[r.agentId := LogOf(w, r.agentId) + [r]], cache := w.cache[r.agentId := r.sequence])
  }

  // Everything that can refuse a record before it is durable.
  function Admit(w: World, a: AgentId, item: RolloutItem): Result<World> {
    var w' :- Replay(w, a);
    var _ :- Require(AcknowledgementsValid(w'.db.inputs, item), "input is not claimed by the Turn");
    var _ :- Require(NextRecord(w', a, item).sequence <= U64_MAX, "Agent rollout sequence overflow");
    Success(w')
  }

  // Append, then project; a failed projection is rebuilt from the log at once.
  function Commit(w: World, a: AgentId, item: RolloutItem): Result<World> {
    var ready :- Admit(w, a, item);
    var r := NextRecord(ready, a, item);
    var durable := Appended(ready, r);
    match ProjectOne(durable, r)
    case Success(w') => Success(w'.(db := SetProjected(w'.db, a, r.sequence)))
    case Failure(_) => Replay(durable, a)
  }

  // ---- Turn operations ----

  datatype TurnChange = StartTurn | PauseTurn | ResumeTurn | FailTurn(error: string)
                      | InterruptTurn(reason: string) | CancelTurn
  {
    function Target(): TurnStatus {
      match this
      case StartTurn | ResumeTurn => TurnStatus.Running
      case PauseTurn => TurnStatus.Paused
      case FailTurn(_) => TurnStatus.Failed
      case InterruptTurn(_) => TurnStatus.Interrupted
      case CancelTurn => TurnStatus.Cancelled
    }

    predicate AllowedFrom(status: TurnStatus) {
      match this
      case StartTurn | FailTurn(_) | CancelTurn => status.Queued? || status.Running? || status.Paused?
      case PauseTurn | ResumeTurn | InterruptTurn(_) => status.Running? || status.Paused?
    }

    function Error(): Option<string> {
      match this
      case FailTurn(error) => Some(error)
      case InterruptTurn(reason) => Some(reason)
      case CancelTurn => Some("cancelled by user")
      case _ => None
    }
  }

  datatype TurnOp =
    | CreateTurn(attemptId: AttemptId, agentId: AgentId, turnId: TurnId, input: string)
    | Checkpoint(turnId: TurnId, mutation: Mutation, usage: Usage, steps: nat, message: Option<string>, ids: seq<InputId>)
    | ChangeTurn(turnId: TurnId, change: TurnChange, ids: seq<InputId>)
    | CompleteTurn(turnId: TurnId, output: string, usage: Usage)

  function AgentOf(db: Tables, op: TurnOp): Result<AgentId> {
    if op.CreateTurn? then Success(op.agentId) else
      var turn :- Load(db.turns, op.turnId);
      Success(turn.agentId)
  }

  predicate HasLiveTurn(turns: map<TurnId, Turn>, agentId: AgentId) {
    exists t :: t in turns && turns[t].agentId == agentId && !turns[t].status.Terminal()
  }

  // The input a new Turn must carry: the Action's own, or the answer it was asked for.
  function ExpectedInput(db: Tables, invocation: Invocation, agentId: AgentId, input: string): Result<bool> {
    match invocation.source
    case FromHumanRequest(requestId) =>
      var request :- Load(db.requests, requestId);
      Success(request.sessionId == invocation.sessionId && request.agentId == agentId
              && request.status == Answered && request.answer == Some(input))
    case _ => Success(invocation.input == input)
  }

  // The record an operation commits, if any, decided on replayed tables.
  function Plan(db: Tables, log: seq<Record>, op: TurnOp): Result<Option<RolloutItem>> {
    match op
    case CreateTurn(attemptId, agentId, turnId, input) =>
      var sessionId :- Load(db.agents, agentId);
      var session :- Load(db.sessions, sessionId);
      var _ :- Require(!session.archived && !session.status.Terminal(), "Session is archived or terminal");
      var attempt :- Load(db.attempts, attemptId);
      var invocation :- Load(db.invocations, attempt.invocationId);
      var valid :- ExpectedInput(db, invocation, agentId, input);
      var _ :- Require(valid && !attempt.status.Terminal() && attempt.turnId.None?
                       && invocation.sessionId == sessionId && invocation.agentId == agentId,
                       "ActionAttempt cannot attach this Turn");
      var _ :- Require(!HasLiveTurn(db.turns, agentId), "Agent already has an active Turn");
      var _ :- Require(turnId !in db.turns, "the id generator repeated an id");
      Success(Some(TurnCreated(
        Turn(turnId, agentId, TurnStatus.Queued, input, None, NO_USAGE, 0, None, None),
        attempt.(turnId := Some(turnId)))))
    case Checkpoint(turnId, mutation, usage, steps, message, ids) =>
      var turn :- Load(db.turns, turnId);
      var _ :- Require(!turn.status.Terminal(), "cannot checkpoint terminal Turn");
      Success(Some(ContextCheckpoint(turnId, mutation, usage, steps, message, ids)))
    case ChangeTurn(turnId, change, ids) =>
      var turn :- Load(db.turns, turnId);
      if turn.status == change.Target() then Success(None) else
      var _ :- Require(change.AllowedFrom(turn.status), "cannot change Turn");
      Success(Some(TurnUpdated(turn.(status := change.Target(), error := change.Error()), ids)))
    case CompleteTurn(turnId, output, usage) =>
      var st :- Reconstruct(log);
      var _ :- Require(st.active.Some? && st.active.value.turnId == turnId
                       && st.active.value.checkpointMessage == Some(output),
                       "no matching terminal rollout checkpoint");
      var turn :- Load(db.turns, turnId);
      var _ :- Require(turn.status.Running?, "cannot complete Turn");
      Success(Some(TurnUpdated(turn.(status := TurnStatus.Completed, output := Some(output), error := None,
                                     usage := usage.(hostedSearches := turn.usage.hostedSearches)), [])))
  }

  // The replay every Turn operation starts with.
  function Replayed(w: World, op: TurnOp): Result<World> {
    var a :- AgentOf(w.db, op);
    Replay(w, a)
  }

  // The record an operation is about to commit, with the world it will commit it to.
  datatype Planned = Planned(world: World, agentId: AgentId, item: RolloutItem)

  function Prepare(w: World, op: TurnOp): Result<Planned> {
    var a :- AgentOf(w.db, op);
    var w' :- Replay(w, a);
    var item :- Plan(w'.db, LogOf(w', a), op);
    if item.None? then Failure("nothing to commit") else Success(Planned(w', a, item.value))
  }

  function RunTurnOp(w: World, op: TurnOp): World {
    var p := Prepare(w, op);
    if p.Failure? then Or(Replayed(w, op), w) else
    Or(Commit(p.value.world, p.value.agentId, p.value.item), p.value.world)
  }

  // Whether an operation goes through: there is nothing to commit, or it is admitted.
  predicate Accepts(w: World, op: TurnOp) {
    var a := AgentOf(w.db, op);
    a.Success? && Replay(w, a.value).Success? && AcceptsReplayed(Replay(w, a.value).value, a.value, op)
  }

  predicate AcceptsReplayed(w: World, a: AgentId, op: TurnOp) {
    var item := Plan(w.db, LogOf(w, a), op);
    item.Success? && (item.value.None? || Admit(w, a, item.value.value).Success?)
  }

  // ---- the other transactions ----

  datatype Transaction =
    | NewSession(sessionId: SessionId)
    | NewAgent(agentId: AgentId, sessionId: SessionId)
    | ChangeSession(sessionId: SessionId, change: SessionChange)
    | Closing(sessionId: SessionId, final: SessionStatus, output: Option<string>, error: Option<string>)
    | Closed(sessionId: SessionId)
    | Complete(sessionId: SessionId, result: string)
    | AddUsage(sessionId: SessionId, delta: Usage)
    | Archive(sessionId: SessionId)
    | OpenRequest(requestId: RequestId, sessionId: SessionId, agentId: AgentId)
    | AnswerRequest(requestId: RequestId, answer: string)
    | SendInput(inputId: InputId, input: AgentInput)
    | Claim(sessionId: SessionId, agentId: AgentId, invocationFilter: Option<InvocationId>, turnId: TurnId)
    | Schedule(invocationId: InvocationId, sessionId: SessionId, agentId: AgentId, task: string, source: Source)
    | StartAction(invocationId: InvocationId, attemptId: AttemptId)
    | EndAction(invocationId: InvocationId, attemptId: AttemptId, status: ActionStatus, output: Option<string>, error: Option<string>)
    | CancelAction(invocationId: InvocationId, reason: string)

  function RunTransaction(db: Tables, tx: Transaction): Result<Tables> {
    match tx
    case NewSession(s) => CreateSession(db, s)
    case NewAgent(a, s) => CreateAgent(db, a, s)
    case ChangeSession(s, change) => TransitionSession(db, s, change)
    case Closing(s, final, output, error) => BeginClosing(db, s, final, output, error)
    case Closed(s) => FinishClosing(db, s)
    case Complete(s, result) => CompleteSession(db, s, result)
    case AddUsage(s, delta) => AddSessionUsage(db, s, delta)
    case Archive(s) => ArchiveSession(db, s)
    case OpenRequest(r, s, a) => CreateHumanRequest(db, r, s, a)
    case AnswerRequest(r, answer) => AnswerHumanRequest(db, r, answer)
    case SendInput(i, input) => InsertInput(db, i, input)
    case Claim(s, a, v, t) => ClaimInputs(db, s, a, v, t)
    case Schedule(v, s, a, task, source) => InsertInvocation(db, v, s, a, task, source)
    case StartAction(v, x) => StartAttempt(db, v, x)
    case EndAction(v, x, status, output, error) => FinishAction(db, v, x, status, output, error)
    case CancelAction(v, reason) => CancelPending(db, v, reason)
  }

  function Total(external: map<SessionId, Usage>, s: SessionId, m: Metric): nat {
    if s in external then Get(external[s], m) else 0
  }

  // Sums are kept exactly; only the stored counters saturate.
  function AddExternal(external: map<SessionId, Usage>, s: SessionId, d: Usage): map<SessionId, Usage> {
    var u := if s in external then external[s] else NO_USAGE;
    external[s := Usage(u.inputTokens + d.inputTokens, u.outputTokens + d.outputTokens,
                        u.cachedInputTokens + d.cachedInputTokens,
                        u.cacheWriteInputTokens + d.cacheWriteInputTokens,
                        u.hostedSearches + d.hostedSearches)]
  }

  // ---- steps ----

  datatype Step =
    | Do(op: TurnOp)                              // a Turn operation that returns
    | Transact(tx: Transaction)                   // any other operation
    | Crash                                       // the process stops between operations
    | CrashInside(op: TurnOp, durable: bool)      // or inside one, before or after its append
    | Reconcile                                   // opening: terminal Sessions are swept
    | ReplayOne(agentId: AgentId)                 // opening: one log is replayed
    | Opened                                      // opening: all logs have been replayed

  // The rollout file exists, whether or not it did before.
  function Touched(w: World, a: AgentId): World {
    w.(logs := w.logs[a := LogOf(w, a)])
  }

  function Stopped(w: World): World {
    w.(cache := map[], live := false)
  }

  // The sweep of terminal Sessions that opening a store starts with.
  function Swept(db: Tables): Tables {
    db.(inputs := map i | i in db.inputs ::
          if db.inputs[i].sessionId in db.sessions && db.sessions[db.inputs[i].sessionId].status.Terminal()
             && db.inputs[i].status != Applied
          then db.inputs[i].(status := Applied) else db.inputs[i],
        requests := map r | r in db.requests ::
          if db.requests[r].sessionId in db.sessions && db.sessions[db.requests[r].sessionId].status.Terminal()
             && db.requests[r].status == Open
          then db.requests[r].(status := RequestStatus.Cancelled) else db.requests[r])
  }

  // A step that is not possible, or that returns an error, changes nothing.
  function Next(w: World, step: Step): World {
    match step
    case Do(op) => if w.live then RunTurnOp(w, op) else w
    case Transact(tx) =>
      var r := RunTransaction(w.db, tx);
      if !w.live || r.Failure? then w else
      w.(db := r.value,
         external := if tx.AddUsage? then AddExternal(w.external, tx.sessionId, tx.delta) else w.external)
    case Crash => Stopped(w)
    case CrashInside(op, durable) =>
      var p := Prepare(w, op);
      if !w.live || p.Failure? then Stopped(w) else
      var ready := Admit(p.value.world, p.value.agentId, p.value.item);
      if ready.Failure? then Stopped(w) else
      if !durable then Stopped(Touched(w, p.value.agentId)) else
      Stopped(Appended(ready.value, NextRecord(ready.value, p.value.agentId, p.value.item)))
    case Reconcile => if w.live then w else w.(db := Swept(w.db))
    case ReplayOne(a) => if w.live || a !in w.logs then w else Or(Replay(w, a), w)
    case Opened => if forall a :: a in w.logs ==> a in w.cache then w.(live := true) else w
  }

  function Run(w: World, steps: seq<Step>): World {
    if steps == [] then w else Next(Run(w, steps[..|steps| - 1]), steps[|steps| - 1])
  }
}
