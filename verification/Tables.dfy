// The Project database as keyed tables, and every transaction the model covers as a
// function from tables to tables. A Failure stands for a rolled-back transaction.
module Tables {
  import opened Wrappers
  import opened Protocol

  datatype Tables = Tables(agents: map<AgentId, SessionId>,
                           sessions: map<SessionId, Session>,
                           turns: map<TurnId, Turn>,
                           inputs: map<InputId, AgentInput>,
                           invocations: map<InvocationId, Invocation>,
                           attempts: map<AttemptId, Attempt>,
                           requests: map<RequestId, HumanRequest>,
                           projected: map<AgentId, nat>)

  const EMPTY := Tables(map[], map[], map[], map[], map[], map[], map[], map[])

  function Load<K, V>(table: map<K, V>, key: K): Result<V> {
    if key in table then Success(table[key]) else Failure("not found")
  }

  function Require(condition: bool, reason: string): Result<bool> {
    if condition then Success(true) else Failure(reason)
  }

  // ---- projection of rollout records ----

  predicate Distinct(ids: seq<InputId>) {
    forall i, j :: 0 <= i < j < |ids| ==> ids[i] != ids[j]
  }

  predicate ClaimedBy(inputs: map<InputId, AgentInput>, turnId: TurnId, id: InputId) {
    id in inputs && inputs[id].status == Claimed && inputs[id].claimedTurn == Some(turnId)
  }

  function Acknowledged(item: RolloutItem): seq<InputId> {
    match item
    case TurnCreated(_, _) => []
    case ContextCheckpoint(_, _, _, _, _, ids) => ids
    case TurnUpdated(_, ids) => ids
  }

  function ItemTurn(item: RolloutItem): TurnId {
    match item
    case TurnCreated(turn, _) => turn.id
    case ContextCheckpoint(turnId, _, _, _, _, _) => turnId
    case TurnUpdated(turn, _) => turn.id
  }

  // What the store checks about acknowledgements before a record is appended.
  predicate AcknowledgementsValid(inputs: map<InputId, AgentInput>, item: RolloutItem) {
    && Distinct(Acknowledged(item))
    && forall id :: id in Acknowledged(item) ==> ClaimedBy(inputs, ItemTurn(item), id)
  }

  // An already applied input is skipped, so that a record may be projected again.
  function Acknowledge(inputs: map<InputId, AgentInput>, turnId: TurnId, ids: seq<InputId>): Result<map<InputId, AgentInput>> {
    if ids == [] then Success(inputs) else
      var input :- Load(inputs, ids[0]);
      if input.status == Applied then Acknowledge(inputs, turnId, ids[1..]) else
      if !ClaimedBy(inputs, turnId, ids[0]) then Failure("input is not claimed by the Turn") else
      Acknowledge(inputs[ids[0] := input.(status := Applied)], turnId, ids[1..])
  }

  // Inputs a finished Turn had claimed and not acknowledged go back to the queue.
  function Release(inputs: map<InputId, AgentInput>, turnId: TurnId): map<InputId, AgentInput> {
    map id | id in inputs ::
      if ClaimedBy(inputs, turnId, id) then inputs[id].(status := Pending, claimedTurn := None) else inputs[id]
  }

  function Checkpointed(turn: Turn, item: RolloutItem): Turn
    requires item.ContextCheckpoint?
  {
    turn.(usage := item.usage, completedModelSteps := item.completedModelSteps,
          checkpointMessage := item.checkpointMessage)
  }

  function Project(db: Tables, record: Record): Result<Tables> {
    match record.item
    case TurnCreated(turn, attempt) =>
      var _ :- Require(turn.id !in db.turns, "Turn id already used");
      var _ :- Load(db.attempts, attempt.id);
      var _ :- Load(db.agents, turn.agentId);
      Success(db.(turns := db.turns[turn.id := turn], attempts := db.attempts[attempt.id := attempt]))
    case ContextCheckpoint(turnId, _, usage, _, _, ids) =>
      var turn :- Load(db.turns, turnId);
      var sessionId :- Load(db.agents, turn.agentId);
      var session :- Load(db.sessions, sessionId);
      var inputs :- Acknowledge(db.inputs, turnId, ids);
      Success(db.(turns := db.turns[turnId := Checkpointed(turn, record.item)],
                  sessions := db.sessions[sessionId := session.(usage :=
                    SaturatingAdd(session.usage, SaturatingSub(usage, turn.usage)))],
                  inputs := inputs))
    case TurnUpdated(turn, ids) =>
      var _ :- Load(db.turns, turn.id);
      var _ :- Load(db.agents, turn.agentId);
      var inputs :- Acknowledge(db.inputs, turn.id, ids);
      Success(db.(turns := db.turns[turn.id := turn],
                  inputs := if turn.status.Terminal() then Release(inputs, turn.id) else inputs))
  }

  // ---- sessions ----

  // A terminal Session applies its waiting inputs and cancels its open requests.
  function AppliedInputs(inputs: map<InputId, AgentInput>, id: SessionId): map<InputId, AgentInput> {
    map i | i in inputs ::
      if inputs[i].sessionId == id && inputs[i].status != Applied then inputs[i].(status := Applied) else inputs[i]
  }

  function CancelledRequests(requests: map<RequestId, HumanRequest>, id: SessionId): map<RequestId, HumanRequest> {
    map r | r in requests ::
      if requests[r].sessionId == id && requests[r].status == Open
      then requests[r].(status := RequestStatus.Cancelled) else requests[r]
  }

  function Terminalize(db: Tables, id: SessionId): Tables {
    db.(inputs := AppliedInputs(db.inputs, id), requests := CancelledRequests(db.requests, id))
  }

  function SetSession(db: Tables, id: SessionId, session: Session): Tables {
    db.(sessions := db.sessions[id := session])
  }

  function CreateSession(db: Tables, id: SessionId): Result<Tables> {
    var _ :- Require(id !in db.sessions, "Session id already used");
    Success(SetSession(db, id, Session(SessionStatus.Created, None, None, None, false, NO_USAGE, false)))
  }

  datatype SessionChange =
    | Start | Pause | Resume | WaitForInput | WaitForDeadline
    | Fail(error: string) | Cancel(reason: string)
  {
    function Target(): SessionStatus {
      match this
      case Start | Resume => SessionStatus.Running
      case Pause => SessionStatus.Paused
      case WaitForInput => SessionStatus.WaitingForInput
      case WaitForDeadline => SessionStatus.WaitingForDeadline
      case Fail(_) => SessionStatus.Failed
      case Cancel(_) => SessionStatus.Cancelled
    }

    predicate AllowedFrom(status: SessionStatus) {
      match this
      case Start => status.Created? || status.Running?
      case Pause => status.Running? || status.WaitingForInput? || status.WaitingForDeadline? || status.Paused?
      case Resume => status.Paused? || status.WaitingForInput? || status.WaitingForDeadline? || status.Running?
      case WaitForInput => status.Running? || status.WaitingForInput?
      case WaitForDeadline => status.Running? || status.WaitingForDeadline?
      case Fail(_) | Cancel(_) =>
        status.Created? || status.Running? || status.WaitingForInput? || status.WaitingForDeadline? || status.Paused?
    }
  }

  function TransitionSession(db: Tables, id: SessionId, change: SessionChange): Result<Tables> {
    var session :- Load(db.sessions, id);
    var status := change.Target();
    if session.status == status then Success(db) else
    var _ :- Require(change.AllowedFrom(session.status), "cannot change Session");
    var next := session.(status := status, closing := None,
                         error := if change.Fail? then Some(change.error) else None,
                         attention := session.attention && !status.Terminal());
    Success(SetSession(if status.Terminal() then Terminalize(db, id) else db, id, next))
  }

  function BeginClosing(db: Tables, id: SessionId, final: SessionStatus, output: Option<string>,
                        error: Option<string>): Result<Tables> {
    var _ :- Require(final.Terminal(), "Closing requires a terminal final status");
    var _ :- Require(final.Completed? == output.Some?, "only a completed Closing carries output");
    var session :- Load(db.sessions, id);
    if session.status.Closing? then
      var _ :- Require(session.closing == Some(final) && session.output == output && session.error == error,
                       "already Closing with a different outcome");
      Success(db)
    else if session.status.Terminal() then
      var _ :- Require(session.status == final && session.output == output && session.error == error,
                       "terminal Session cannot enter Closing");
      Success(db)
    else
      Success(SetSession(db, id, session.(status := SessionStatus.Closing, closing := Some(final), output := output,
                                          error := error, attention := false)))
  }

  function FinishClosing(db: Tables, id: SessionId): Result<Tables> {
    var session :- Load(db.sessions, id);
    if session.status.Terminal() then Success(db) else
    var _ :- Require(session.status.Closing?, "cannot finish Session");
    var _ :- Require(session.closing.Some? && session.closing.value.Terminal(), "Closing Session has no final status");
    Success(SetSession(Terminalize(db, id), id, session.(status := session.closing.value, closing := None)))
  }

  function CompleteSession(db: Tables, id: SessionId, output: string): Result<Tables> {
    var session :- Load(db.sessions, id);
    var _ :- Require(session.status.Running?, "cannot complete Session");
    Success(SetSession(Terminalize(db, id), id,
                       session.(status := SessionStatus.Completed, closing := None, output := Some(output),
                                error := None, attention := false)))
  }

  function AddSessionUsage(db: Tables, id: SessionId, delta: Usage): Result<Tables> {
    var session :- Load(db.sessions, id);
    Success(SetSession(db, id, session.(usage := SaturatingAdd(session.usage, delta))))
  }

  function ArchiveSession(db: Tables, id: SessionId): Result<Tables> {
    var session :- Load(db.sessions, id);
    if session.archived then Success(db) else
    var _ :- Require(session.status.Terminal(), "cannot archive active Session");
    Success(SetSession(db, id, session.(archived := true)))
  }

  function CreateAgent(db: Tables, id: AgentId, sessionId: SessionId): Result<Tables> {
    var session :- Load(db.sessions, sessionId);
    var _ :- Require(session.status.Running?, "cannot add an Agent unless its Session is running");
    var _ :- Require(id !in db.agents, "Agent id already used");
    Success(db.(agents := db.agents[id := sessionId]))
  }

  // ---- human requests ----

  predicate HasOpen(requests: map<RequestId, HumanRequest>, id: SessionId) {
    exists r :: r in requests && requests[r].sessionId == id && requests[r].status == Open
  }

  function CreateHumanRequest(db: Tables, id: RequestId, sessionId: SessionId, agentId: AgentId): Result<Tables> {
    var session :- Load(db.sessions, sessionId);
    var owner :- Load(db.agents, agentId);
    var _ :- Require(owner == sessionId, "HumanRequest Agent belongs to another Session");
    var _ :- Require(session.status.Running? || session.status.Paused?, "Session is not running or paused");
    var _ :- Require(id !in db.requests, "HumanRequest id already used");
    var status := if session.status.Paused? then SessionStatus.Paused else SessionStatus.WaitingForInput;
    Success(SetSession(db.(requests := db.requests[id := HumanRequest(sessionId, agentId, Open, None)]),
                       sessionId, session.(status := status, attention := true)))
  }

  function AnswerHumanRequest(db: Tables, id: RequestId, answer: string): Result<Tables> {
    var request :- Load(db.requests, id);
    var _ :- Require(request.status == Open, "human request is already resolved");
    var session :- Load(db.sessions, request.sessionId);
    var requests := db.requests[id := request.(status := Answered, answer := Some(answer))];
    var remaining := HasOpen(requests, request.sessionId);
    var status := if !remaining && session.status.WaitingForInput? then SessionStatus.Running else session.status;
    Success(SetSession(db.(requests := requests), request.sessionId,
                       session.(status := status, attention := remaining)))
  }

  // ---- agent inputs ----

  function SenderIsLive(db: Tables, senderId: AgentId): Result<bool> {
    var sessionId :- Load(db.agents, senderId);
    var session :- Load(db.sessions, sessionId);
    Require(!session.status.Terminal() && !session.archived, "sender is not in a live Session")
  }

  function InsertInput(db: Tables, id: InputId, input: AgentInput): Result<Tables> {
    if id in db.inputs then
      var _ :- Require(db.inputs[id].(status := input.status, claimedTurn := input.claimedTurn) == input,
                       "Agent input id was reused with different content");
      Success(db)
    else
      var session :- Load(db.sessions, input.sessionId);
      var _ :- Require(!session.status.Terminal() && !session.archived, "Session is terminal or archived");
      var owner :- Load(db.agents, input.agentId);
      var _ :- Require(owner == input.sessionId, "input Agent does not belong to the Session");
      var _ :- if input.sender.None? then Success(true) else SenderIsLive(db, input.sender.value);
      var _ :- if input.invocationId.None? then Success(true) else
                 var invocation :- Load(db.invocations, input.invocationId.value);
                 Require(invocation.sessionId == input.sessionId && invocation.agentId == input.agentId,
                         "input Action does not belong to the target Agent");
      Success(db.(inputs := db.inputs[id := input.(status := Pending, claimedTurn := None)]))
  }

  // The rows a claim selects: pending ones, and those this Turn already holds.
  predicate Claimable(input: AgentInput, sessionId: SessionId, agentId: AgentId,
                      invocationId: Option<InvocationId>, turnId: TurnId) {
    && input.sessionId == sessionId && input.agentId == agentId
    && (input.status == Pending || (input.status == Claimed && input.claimedTurn == Some(turnId)))
    && (input.invocationId.None? || input.invocationId == invocationId)
  }

  function ClaimInputs(db: Tables, sessionId: SessionId, agentId: AgentId, invocationId: Option<InvocationId>,
                       turnId: TurnId): Result<Tables> {
    var session :- Load(db.sessions, sessionId);
    var _ :- Require(!session.status.Terminal(), "Session is terminal");
    var turn :- Load(db.turns, turnId);
    var _ :- Require(turn.agentId == agentId && !turn.status.Terminal(), "Turn cannot claim these inputs");
    Success(db.(inputs := map i | i in db.inputs ::
      if db.inputs[i].status == Pending && Claimable(db.inputs[i], sessionId, agentId, invocationId, turnId)
      then db.inputs[i].(status := Claimed, claimedTurn := Some(turnId)) else db.inputs[i]))
  }

  // ---- actions ----

  function ApplyActionInputs(inputs: map<InputId, AgentInput>, id: InvocationId): map<InputId, AgentInput> {
    map i | i in inputs ::
      if inputs[i].invocationId == Some(id) && inputs[i].status != Applied then inputs[i].(status := Applied) else inputs[i]
  }

  function InsertInvocation(db: Tables, id: InvocationId, sessionId: SessionId, agentId: AgentId, input: string,
                            source: Source): Result<Tables> {
    if id in db.invocations then
      var existing := db.invocations[id];
      var _ :- Require(existing.sessionId == sessionId && existing.agentId == agentId
                       && existing.input == input && existing.source == source,
                       "Action id was reused with a different request");
      Success(db)
    else
      var owner :- Load(db.agents, agentId);
      var _ :- Require(owner == sessionId, "Action Agent belongs to another Session");
      var session :- Load(db.sessions, sessionId);
      var _ :- Require(session.status.AcceptsActions() && !session.archived, "Session is not live and running");
      var _ :- match source {
                 case FromHumanRequest(requestId) =>
                   var request :- Load(db.requests, requestId);
                   Require(request.sessionId == sessionId && request.agentId == agentId,
                           "HumanRequest Action source does not match its target")
                 case FromAgent(senderId) => SenderIsLive(db, senderId)
                 case FromWorkflow => Success(true)
               };
      Success(db.(invocations := db.invocations[id :=
        Invocation(sessionId, agentId, input, source, ActionStatus.Scheduled, None, None)]))
  }

  function Numbers(attempts: map<AttemptId, Attempt>, id: InvocationId): set<nat> {
    set x | x in attempts && attempts[x].invocationId == id :: attempts[x].number
  }

  lemma GreatestExists(s: set<nat>)
    requires s != {}
    ensures exists x :: x in s && forall y :: y in s ==> y <= x
  {
    var x :| x in s;
    if s != {x} {
      GreatestExists(s - {x});
      var z :| z in s - {x} && forall y :: y in s - {x} ==> y <= z;
      var g := if x <= z then z else x;
      forall y | y in s ensures y <= g {
        assert y == x || y in s - {x};
      }
    }
  }

  function Greatest(s: set<nat>): (g: nat)
    ensures s == {} ==> g == 0
    ensures s != {} ==> g in s && forall y :: y in s ==> y <= g
  {
    if s == {} then 0 else
      GreatestExists(s);
      var x :| x in s && forall y :: y in s ==> y <= x;
      x
  }

  predicate HasRunning(attempts: map<AttemptId, Attempt>, id: InvocationId) {
    exists x :: x in attempts && attempts[x].invocationId == id && attempts[x].status == ActionStatus.Running
  }

  function StartAttempt(db: Tables, id: InvocationId, attemptId: AttemptId): Result<Tables> {
    var invocation :- Load(db.invocations, id);
    var _ :- Require(invocation.status.Scheduled? || invocation.status.Interrupted?, "cannot start Action");
    var session :- Load(db.sessions, invocation.sessionId);
    var _ :- Require(session.status.AcceptsActions(), "Session is not accepting Actions");
    var _ :- Require(!HasRunning(db.attempts, id), "Action already has a running attempt");
    var _ :- Require(attemptId !in db.attempts, "attempt id already used");
    var number := Greatest(Numbers(db.attempts, id)) + 1;
    Success(db.(invocations := db.invocations[id := invocation.(status := ActionStatus.Running, error := None)],
                attempts := db.attempts[attemptId :=
                  Attempt(attemptId, id, number, None, ActionStatus.Running, None)]))
  }

  function FinishAction(db: Tables, id: InvocationId, attemptId: AttemptId, status: ActionStatus,
                        output: Option<string>, error: Option<string>): Result<Tables> {
    var _ :- Require(status.Terminal(), "finish requires a terminal status");
    var invocation :- Load(db.invocations, id);
    var attempt :- Load(db.attempts, attemptId);
    var _ :- Require(attempt.invocationId == id, "attempt does not belong to invocation");
    if invocation.status == status && attempt.status == status then
      var _ :- Require(invocation.output == output && invocation.error == error && attempt.error == error,
                       "terminal Action cannot accept a different result");
      Success(db)
    else
      var _ :- Require(invocation.status.Running? && attempt.status.Running?, "cannot finish Action");
      Success(db.(invocations := db.invocations[id := invocation.(status := status, output := output, error := error)],
                  attempts := db.attempts[attemptId := attempt.(status := status, error := error)],
                  inputs := ApplyActionInputs(db.inputs, id)))
  }

  function CancelPending(db: Tables, id: InvocationId, reason: string): Result<Tables> {
    var invocation :- Load(db.invocations, id);
    if invocation.status.Cancelled? then Success(db) else
    var _ :- Require(invocation.status.Scheduled? || invocation.status.Interrupted?, "cannot cancel pending Action");
    Success(db.(invocations := db.invocations[id :=
                  invocation.(status := ActionStatus.Cancelled, output := None, error := Some(reason))],
                inputs := ApplyActionInputs(db.inputs, id)))
  }
}
