// What every transaction keeps: the cross-table invariant of the Project store, and
// the facts no later transaction may change.
module Lifecycle {
  import opened Wrappers
  import opened Protocol
  import opened Tables

  // ---- the invariant ----

  ghost predicate SessionOk(s: Session) {
    && (s.closing.Some? <==> s.status.Closing?)
    && (s.closing.Some? ==> s.closing.value.Terminal())
    && (s.output.Some? <==> s.status.Completed? || s.closing == Some(SessionStatus.Completed))
    && (s.archived ==> s.status.Terminal())
  }

  ghost predicate SessionsOk(sessions: map<SessionId, Session>) {
    forall s :: s in sessions ==> SessionOk(sessions[s])
  }

  ghost predicate AgentsOk(agents: map<AgentId, SessionId>, sessions: map<SessionId, Session>) {
    forall a :: a in agents ==> agents[a] in sessions
  }

  ghost predicate Terminal(sessions: map<SessionId, Session>, id: SessionId) {
    id in sessions && sessions[id].status.Terminal()
  }

  // A terminal Session has no waiting input and no open request.
  ghost predicate InputsQuiet(sessions: map<SessionId, Session>, inputs: map<InputId, AgentInput>) {
    forall i :: i in inputs ==>
      inputs[i].sessionId in sessions && (Terminal(sessions, inputs[i].sessionId) ==> inputs[i].status == Applied)
  }

  ghost predicate RequestsQuiet(sessions: map<SessionId, Session>, requests: map<RequestId, HumanRequest>) {
    forall r :: r in requests ==>
      requests[r].sessionId in sessions && (Terminal(sessions, requests[r].sessionId) ==> requests[r].status != Open)
  }

  ghost predicate AttentionOk(sessions: map<SessionId, Session>, requests: map<RequestId, HumanRequest>) {
    forall s :: s in sessions && sessions[s].attention && !sessions[s].status.Terminal() ==> HasOpen(requests, s)
  }

  ghost predicate TurnsOk(turns: map<TurnId, Turn>, agents: map<AgentId, SessionId>) {
    forall t :: t in turns ==> turns[t].id == t && turns[t].agentId in agents
  }

  ghost predicate Live(turns: map<TurnId, Turn>, t: TurnId, agentId: AgentId) {
    t in turns && turns[t].agentId == agentId && !turns[t].status.Terminal()
  }

  // A claimed input names a live Turn of its own Agent.
  ghost predicate InputOk(turns: map<TurnId, Turn>, agents: map<AgentId, SessionId>, input: AgentInput) {
    && input.agentId in agents && agents[input.agentId] == input.sessionId
    && (input.status == Pending ==> input.claimedTurn == None)
    && (input.status == Claimed ==> input.claimedTurn.Some? && Live(turns, input.claimedTurn.value, input.agentId))
  }

  ghost predicate InputsOk(turns: map<TurnId, Turn>, agents: map<AgentId, SessionId>, inputs: map<InputId, AgentInput>) {
    forall i :: i in inputs ==> InputOk(turns, agents, inputs[i])
  }

  ghost predicate SameAction(attempts: map<AttemptId, Attempt>, x: AttemptId, y: AttemptId) {
    x in attempts && y in attempts && attempts[x].invocationId == attempts[y].invocationId
  }

  ghost predicate Numbered(attempts: map<AttemptId, Attempt>, v: InvocationId, k: nat) {
    exists x :: x in attempts && attempts[x].invocationId == v && attempts[x].number == k
  }

  // Attempt numbers of an Action are exactly 1, 2, ..., n, each used once.
  ghost predicate NumbersOk(attempts: map<AttemptId, Attempt>) {
    && (forall x, y :: SameAction(attempts, x, y) && attempts[x].number == attempts[y].number ==> x == y)
    && (forall x :: x in attempts ==> attempts[x].number >= 1)
    && (forall x, k {:trigger Numbered(attempts, attempts[x].invocationId, k)} ::
          x in attempts && 1 <= k <= attempts[x].number ==> Numbered(attempts, attempts[x].invocationId, k))
  }

  // An Action runs exactly when one of its attempts does, and only the newest can.
  ghost predicate RunningOk(invocations: map<InvocationId, Invocation>, attempts: map<AttemptId, Attempt>) {
    && (forall x :: x in attempts ==>
          && attempts[x].invocationId in invocations && attempts[x].id == x
          && !attempts[x].status.Scheduled?
          && (attempts[x].status.Running? ==> invocations[attempts[x].invocationId].status.Running?))
    && (forall v :: v in invocations && invocations[v].status.Running? ==> HasRunning(attempts, v))
    && (forall x, y :: SameAction(attempts, x, y) && attempts[x].status.Running? ==> attempts[y].number <= attempts[x].number)
  }

  ghost predicate Ok(db: Tables) {
    && AgentsOk(db.agents, db.sessions)
    && SessionsOk(db.sessions)
    && InputsQuiet(db.sessions, db.inputs)
    && RequestsQuiet(db.sessions, db.requests)
    && AttentionOk(db.sessions, db.requests)
    && TurnsOk(db.turns, db.agents)
    && InputsOk(db.turns, db.agents, db.inputs)
    && NumbersOk(db.attempts)
    && RunningOk(db.invocations, db.attempts)
  }

  // ---- what never changes again ----

  // A terminal Session keeps its status and outcome; a Closing one can only wait or
  // reach the status it was closing to, with the same outcome.
  ghost predicate SessionAdvances(s: Session, s': Session) {
    && (s.status.Terminal() ==> s'.status == s.status && s'.output == s.output && s'.error == s.error)
    && (s.status.Closing? && s.closing.Some? ==>
          && s'.output == s.output && s'.error == s.error
          && ((s'.status.Closing? && s'.closing == s.closing) || s'.status == s.closing.value))
  }

  ghost predicate SessionsAdvance(m: map<SessionId, Session>, m': map<SessionId, Session>) {
    forall k :: k in m ==> k in m' && SessionAdvances(m[k], m'[k])
  }

  ghost predicate AgentsAdvance(m: map<AgentId, SessionId>, m': map<AgentId, SessionId>) {
    forall k :: k in m ==> k in m' && m'[k] == m[k]
  }

  ghost predicate TurnsAdvance(m: map<TurnId, Turn>, m': map<TurnId, Turn>) {
    forall k :: k in m ==> k in m' && m'[k].agentId == m[k].agentId && (m[k].status.Terminal() ==> m'[k] == m[k])
  }

  ghost predicate InputsAdvance(m: map<InputId, AgentInput>, m': map<InputId, AgentInput>) {
    forall k :: k in m ==> k in m' && (m[k].status == Applied ==> m'[k] == m[k])
  }

  ghost predicate InvocationsAdvance(m: map<InvocationId, Invocation>, m': map<InvocationId, Invocation>) {
    forall k :: k in m ==> k in m' && (m[k].status.Final() ==> m'[k] == m[k])
  }

  ghost predicate RequestsAdvance(m: map<RequestId, HumanRequest>, m': map<RequestId, HumanRequest>) {
    forall k :: k in m ==> k in m' && (m[k].status != Open ==> m'[k] == m[k])
  }

  ghost predicate Advances(db: Tables, db': Tables) {
    && SessionsAdvance(db.sessions, db'.sessions)
    && AgentsAdvance(db.agents, db'.agents)
    && TurnsAdvance(db.turns, db'.turns)
    && InputsAdvance(db.inputs, db'.inputs)
    && InvocationsAdvance(db.invocations, db'.invocations)
    && RequestsAdvance(db.requests, db'.requests)
  }

  ghost predicate Keeps(db: Tables, r: Result<Tables>) {
    r.Success? ==> Ok(r.value) && Advances(db, r.value)
  }

  lemma AdvancesTransitive(a: Tables, b: Tables, c: Tables)
    requires Advances(a, b) && Advances(b, c)
    requires SessionsOk(a.sessions) && SessionsOk(b.sessions)
    ensures Advances(a, c)
  {
  }

  lemma AdvancesReflexive(db: Tables)
    requires SessionsOk(db.sessions)
    ensures Advances(db, db)
  {
  }

  // ---- sessions and requests ----

  lemma OpenUnchanged(requests: map<RequestId, HumanRequest>, requests': map<RequestId, HumanRequest>, s: SessionId)
    requires forall r :: r in requests && requests[r].sessionId == s ==> r in requests' && requests'[r] == requests[r]
    requires HasOpen(requests, s)
    ensures HasOpen(requests', s)
  {
    var r :| r in requests && requests[r].sessionId == s && requests[r].status == Open;
    assert r in requests';
  }

  // One Session row written back over resources that already suit it.
  lemma WriteSession(db: Tables, id: SessionId, s: Session, inputs: map<InputId, AgentInput>, requests: map<RequestId, HumanRequest>)
    requires SessionsOk(db.sessions) && AgentsOk(db.agents, db.sessions)
    requires InputsQuiet(db.sessions, inputs) && RequestsQuiet(db.sessions, requests)
    requires id in db.sessions && SessionOk(s) && SessionAdvances(db.sessions[id], s)
    requires s.status.Terminal() ==> forall i :: i in inputs && inputs[i].sessionId == id ==> inputs[i].status == Applied
    requires s.status.Terminal() ==> forall r :: r in requests && requests[r].sessionId == id ==> requests[r].status != Open
    ensures SessionsOk(db.sessions[id := s]) && AgentsOk(db.agents, db.sessions[id := s])
    ensures InputsQuiet(db.sessions[id := s], inputs) && RequestsQuiet(db.sessions[id := s], requests)
    ensures SessionsAdvance(db.sessions, db.sessions[id := s])
  {
  }

  lemma WriteAttention(sessions: map<SessionId, Session>, requests: map<RequestId, HumanRequest>,
                       requests': map<RequestId, HumanRequest>, id: SessionId, s: Session)
    requires AttentionOk(sessions, requests)
    requires forall r :: r in requests && requests[r].sessionId != id ==> r in requests' && requests'[r] == requests[r]
    requires s.attention && !s.status.Terminal() ==> HasOpen(requests', id)
    ensures AttentionOk(sessions[id := s], requests')
  {
    forall k | k in sessions[id := s] && sessions[id := s][k].attention && !sessions[id := s][k].status.Terminal()
      ensures HasOpen(requests', k)
    {
      if k != id {
        OpenUnchanged(requests, requests', k);
      }
    }
  }

  lemma SetSessionKeeps(db: Tables, id: SessionId, s: Session)
    requires Ok(db) && id in db.sessions
    requires SessionOk(s) && SessionAdvances(db.sessions[id], s)
    requires s.attention && !s.status.Terminal() ==> HasOpen(db.requests, id)
    requires s.status.Terminal() ==> db.sessions[id].status.Terminal()
    ensures Keeps(db, Success(SetSession(db, id, s)))
  {
    hide SessionsOk, AgentsOk, TurnsOk, InputsOk, AttentionOk, NumbersOk, RunningOk, SessionsAdvance, AgentsAdvance,
         TurnsAdvance, InputsAdvance, InvocationsAdvance, RequestsAdvance;
    AdvancesReflexive(db);
    WriteSession(db, id, s, db.inputs, db.requests);
    WriteAttention(db.sessions, db.requests, db.requests, id, s);
  }

  lemma AppliedInputsOk(db: Tables, id: SessionId)
    requires InputsOk(db.turns, db.agents, db.inputs) && InputsQuiet(db.sessions, db.inputs)
    ensures InputsOk(db.turns, db.agents, AppliedInputs(db.inputs, id))
    ensures InputsQuiet(db.sessions, AppliedInputs(db.inputs, id))
    ensures InputsAdvance(db.inputs, AppliedInputs(db.inputs, id))
  {
  }

  lemma CancelledRequestsOk(db: Tables, id: SessionId)
    requires RequestsQuiet(db.sessions, db.requests)
    ensures RequestsQuiet(db.sessions, CancelledRequests(db.requests, id))
    ensures RequestsAdvance(db.requests, CancelledRequests(db.requests, id))
  {
  }

  lemma TerminalizeKeeps(db: Tables, id: SessionId, s: Session)
    requires Ok(db) && id in db.sessions
    requires SessionOk(s) && SessionAdvances(db.sessions[id], s) && s.status.Terminal()
    ensures Keeps(db, Success(SetSession(Terminalize(db, id), id, s)))
  {
    hide SessionsOk, AgentsOk, TurnsOk, InputsOk, InputsQuiet, RequestsQuiet, AttentionOk, NumbersOk, RunningOk,
         SessionsAdvance;
    AdvancesReflexive(db);
    AppliedInputsOk(db, id);
    CancelledRequestsOk(db, id);
    WriteSession(db, id, s, AppliedInputs(db.inputs, id), CancelledRequests(db.requests, id));
    WriteAttention(db.sessions, db.requests, CancelledRequests(db.requests, id), id, s);
  }

  lemma TransitionSessionKeeps(db: Tables, id: SessionId, change: SessionChange)
    requires Ok(db)
    ensures Keeps(db, TransitionSession(db, id, change))
  {
    hide InputsOk, NumbersOk, RunningOk;
    AdvancesReflexive(db);
    var r := TransitionSession(db, id, change);
    if r.Success? && db.sessions[id].status != change.Target() {
      if change.Target().Terminal() {
        TerminalizeKeeps(db, id, r.value.sessions[id]);
      } else {
        SetSessionKeeps(db, id, r.value.sessions[id]);
      }
    }
  }

  lemma BeginClosingKeeps(db: Tables, id: SessionId, final: SessionStatus, output: Option<string>, error: Option<string>)
    requires Ok(db)
    ensures Keeps(db, BeginClosing(db, id, final, output, error))
  {
    hide Advances, HasOpen, AgentsOk, InputsQuiet, RequestsQuiet, TurnsOk, InputsOk, NumbersOk, RunningOk;
    AdvancesReflexive(db);
    var r := BeginClosing(db, id, final, output, error);
    if r.Success? && r.value != db {
      SetSessionKeeps(db, id, r.value.sessions[id]);
    }
  }

  lemma FinishClosingKeeps(db: Tables, id: SessionId)
    requires Ok(db)
    ensures Keeps(db, FinishClosing(db, id))
  {
    AdvancesReflexive(db);
    var r := FinishClosing(db, id);
    if r.Success? && !db.sessions[id].status.Terminal() {
      TerminalizeKeeps(db, id, r.value.sessions[id]);
    }
  }

  lemma CompleteSessionKeeps(db: Tables, id: SessionId, output: string)
    requires Ok(db)
    ensures Keeps(db, CompleteSession(db, id, output))
  {
    var r := CompleteSession(db, id, output);
    if r.Success? {
      TerminalizeKeeps(db, id, r.value.sessions[id]);
    }
  }

  lemma AddSessionUsageKeeps(db: Tables, id: SessionId, delta: Usage)
    requires Ok(db)
    ensures Keeps(db, AddSessionUsage(db, id, delta))
  {
    if id in db.sessions {
      SetSessionKeeps(db, id, db.sessions[id].(usage := SaturatingAdd(db.sessions[id].usage, delta)));
    }
  }

  lemma ArchiveSessionKeeps(db: Tables, id: SessionId)
    requires Ok(db)
    ensures Keeps(db, ArchiveSession(db, id))
  {
    AdvancesReflexive(db);
    var r := ArchiveSession(db, id);
    if r.Success? && !db.sessions[id].archived {
      SetSessionKeeps(db, id, db.sessions[id].(archived := true));
    }
  }

  // A Session that does not exist yet cannot be referred to.
  lemma AddSessionOk(db: Tables, id: SessionId, s: Session)
    requires SessionsOk(db.sessions) && AgentsOk(db.agents, db.sessions) && AttentionOk(db.sessions, db.requests)
    requires InputsQuiet(db.sessions, db.inputs) && RequestsQuiet(db.sessions, db.requests)
    requires id !in db.sessions && SessionOk(s) && !s.attention
    ensures SessionsOk(db.sessions[id := s]) && AgentsOk(db.agents, db.sessions[id := s])
    ensures InputsQuiet(db.sessions[id := s], db.inputs) && RequestsQuiet(db.sessions[id := s], db.requests)
    ensures AttentionOk(db.sessions[id := s], db.requests)
    ensures SessionsAdvance(db.sessions, db.sessions[id := s])
  {
  }

  lemma CreateSessionKeeps(db: Tables, id: SessionId)
    requires Ok(db)
    ensures Keeps(db, CreateSession(db, id))
  {
    AdvancesReflexive(db);
    var r := CreateSession(db, id);
    if r.Success? {
      AddSessionOk(db, id, r.value.sessions[id]);
    }
  }

  lemma AddAgentOk(db: Tables, id: AgentId, sessionId: SessionId)
    requires AgentsOk(db.agents, db.sessions) && TurnsOk(db.turns, db.agents) && InputsOk(db.turns, db.agents, db.inputs)
    requires id !in db.agents && sessionId in db.sessions
    ensures AgentsOk(db.agents[id := sessionId], db.sessions) && TurnsOk(db.turns, db.agents[id := sessionId])
    ensures InputsOk(db.turns, db.agents[id := sessionId], db.inputs)
    ensures AgentsAdvance(db.agents, db.agents[id := sessionId])
  {
  }

  lemma CreateAgentKeeps(db: Tables, id: AgentId, sessionId: SessionId)
    requires Ok(db)
    ensures Keeps(db, CreateAgent(db, id, sessionId))
  {
    AdvancesReflexive(db);
    if CreateAgent(db, id, sessionId).Success? {
      AddAgentOk(db, id, sessionId);
    }
  }

  lemma WriteRequest(sessions: map<SessionId, Session>, requests: map<RequestId, HumanRequest>, id: RequestId, r: HumanRequest)
    requires RequestsQuiet(sessions, requests) && r.sessionId in sessions
    requires sessions[r.sessionId].status.Terminal() ==> r.status != Open
    requires id in requests ==> requests[id].status == Open
    ensures RequestsQuiet(sessions, requests[id := r]) && RequestsAdvance(requests, requests[id := r])
  {
  }

  lemma CreateHumanRequestKeeps(db: Tables, id: RequestId, sessionId: SessionId, agentId: AgentId)
    requires Ok(db)
    ensures Keeps(db, CreateHumanRequest(db, id, sessionId, agentId))
  {
    hide RequestsQuiet, Terminal, InputsQuiet, HasOpen, TurnsOk, InputsOk, NumbersOk, RunningOk, AgentsAdvance,
         TurnsAdvance, InputsAdvance, InvocationsAdvance;
    AdvancesReflexive(db);
    var r := CreateHumanRequest(db, id, sessionId, agentId);
    if r.Success? {
      var db' := r.value;
      WriteRequest(db.sessions, db.requests, id, db'.requests[id]);
      WriteSession(db, sessionId, db'.sessions[sessionId], db.inputs, db'.requests);
      assert db'.requests[id].status == Open;
      WriteAttention(db.sessions, db.requests, db'.requests, sessionId, db'.sessions[sessionId]);
    }
  }

  lemma AnswerHumanRequestKeeps(db: Tables, id: RequestId, answer: string)
    requires Ok(db)
    ensures Keeps(db, AnswerHumanRequest(db, id, answer))
  {
    hide AgentsOk, InputsQuiet, AttentionOk, TurnsOk, InputsOk, NumbersOk, RunningOk, AgentsAdvance, TurnsAdvance,
         InputsAdvance, InvocationsAdvance;
    AdvancesReflexive(db);
    var r := AnswerHumanRequest(db, id, answer);
    if r.Success? {
      var db' := r.value;
      var sessionId := db.requests[id].sessionId;
      WriteRequest(db.sessions, db.requests, id, db'.requests[id]);
      WriteSession(db, sessionId, db'.sessions[sessionId], db.inputs, db'.requests);
      WriteAttention(db.sessions, db.requests, db'.requests, sessionId, db'.sessions[sessionId]);
    }
  }

  // ---- inputs ----

  lemma AddInputOk(db: Tables, id: InputId, input: AgentInput)
    requires InputsOk(db.turns, db.agents, db.inputs) && InputsQuiet(db.sessions, db.inputs)
    requires id !in db.inputs && InputOk(db.turns, db.agents, input)
    requires input.sessionId in db.sessions && !db.sessions[input.sessionId].status.Terminal()
    ensures InputsOk(db.turns, db.agents, db.inputs[id := input]) && InputsQuiet(db.sessions, db.inputs[id := input])
    ensures InputsAdvance(db.inputs, db.inputs[id := input])
  {
  }

  lemma InsertInputKeeps(db: Tables, id: InputId, input: AgentInput)
    requires Ok(db)
    ensures Keeps(db, InsertInput(db, id, input))
  {
    hide InputsOk, InputsQuiet, RequestsQuiet, AttentionOk, NumbersOk, RunningOk, SessionsAdvance, AgentsAdvance,
         TurnsAdvance, InputsAdvance, InvocationsAdvance, RequestsAdvance;
    AdvancesReflexive(db);
    var r := InsertInput(db, id, input);
    if r.Success? && id !in db.inputs {
      AddInputOk(db, id, r.value.inputs[id]);
    }
  }

  lemma ClaimedInputsOk(db: Tables, sessionId: SessionId, agentId: AgentId, invocationId: Option<InvocationId>, turnId: TurnId)
    requires InputsOk(db.turns, db.agents, db.inputs) && InputsQuiet(db.sessions, db.inputs)
    requires ClaimInputs(db, sessionId, agentId, invocationId, turnId).Success?
    ensures var inputs := ClaimInputs(db, sessionId, agentId, invocationId, turnId).value.inputs;
            InputsOk(db.turns, db.agents, inputs) && InputsQuiet(db.sessions, inputs) && InputsAdvance(db.inputs, inputs)
  {
  }

  lemma ClaimInputsKeeps(db: Tables, sessionId: SessionId, agentId: AgentId, invocationId: Option<InvocationId>, turnId: TurnId)
    requires Ok(db)
    ensures Keeps(db, ClaimInputs(db, sessionId, agentId, invocationId, turnId))
  {
    AdvancesReflexive(db);
    if ClaimInputs(db, sessionId, agentId, invocationId, turnId).Success? {
      ClaimedInputsOk(db, sessionId, agentId, invocationId, turnId);
    }
  }

  // ---- actions ----

  // Writing an Action row whose running state its attempts agree with.
  lemma WriteInvocation(invocations: map<InvocationId, Invocation>, attempts: map<AttemptId, Attempt>, id: InvocationId, v: Invocation)
    requires RunningOk(invocations, attempts) && !v.status.Running?
    requires id in invocations ==> !invocations[id].status.Running? && !invocations[id].status.Final()
    ensures RunningOk(invocations[id := v], attempts) && InvocationsAdvance(invocations, invocations[id := v])
  {
  }

  lemma InsertInvocationKeeps(db: Tables, id: InvocationId, sessionId: SessionId, agentId: AgentId, input: string, source: Source)
    requires Ok(db)
    ensures Keeps(db, InsertInvocation(db, id, sessionId, agentId, input, source))
  {
    hide SessionsOk, AgentsOk, TurnsOk, InputsOk, InputsQuiet, RequestsQuiet, AttentionOk, NumbersOk, RunningOk,
         SessionsAdvance, AgentsAdvance, TurnsAdvance, InputsAdvance, InvocationsAdvance, RequestsAdvance;
    AdvancesReflexive(db);
    var r := InsertInvocation(db, id, sessionId, agentId, input, source);
    if r.Success? && id !in db.invocations {
      WriteInvocation(db.invocations, db.attempts, id, r.value.invocations[id]);
    }
  }

  lemma RunningUnchanged(attempts: map<AttemptId, Attempt>, attempts': map<AttemptId, Attempt>, v: InvocationId)
    requires HasRunning(attempts, v)
    requires forall x :: x in attempts && attempts[x].invocationId == v ==>
               x in attempts' && attempts'[x].invocationId == v && attempts'[x].status == attempts[x].status
    ensures HasRunning(attempts', v)
  {
    var x :| x in attempts && attempts[x].invocationId == v && attempts[x].status == ActionStatus.Running;
    assert x in attempts';
  }

  // A new attempt takes the next number of its Action.
  lemma AddAttemptNumbers(attempts: map<AttemptId, Attempt>, id: AttemptId, attempt: Attempt)
    requires NumbersOk(attempts) && id !in attempts
    requires attempt.number == Greatest(Numbers(attempts, attempt.invocationId)) + 1
    ensures NumbersOk(attempts[id := attempt])
    ensures forall x :: x in attempts && attempts[x].invocationId == attempt.invocationId ==> attempts[x].number < attempt.number
  {
    var after := attempts[id := attempt];
    var numbers := Numbers(attempts, attempt.invocationId);
    forall x | x in attempts && attempts[x].invocationId == attempt.invocationId
      ensures attempts[x].number < attempt.number
    {
      assert attempts[x].number in numbers;
    }
    forall x, k | x in after && 1 <= k <= after[x].number ensures Numbered(after, after[x].invocationId, k) {
      if x == id && k == attempt.number {
        assert after[x].number == k;
      } else {
        var w := x;
        if x == id {
          w :| w in attempts && attempts[w].invocationId == attempt.invocationId && attempts[w].number == Greatest(numbers);
        }
        assert Numbered(attempts, attempts[w].invocationId, k);
        var y :| y in attempts && attempts[y].invocationId == attempts[w].invocationId && attempts[y].number == k;
        assert after[y] == attempts[y];
      }
    }
  }

  lemma AddAttemptRunning(invocations: map<InvocationId, Invocation>, attempts: map<AttemptId, Attempt>,
                          id: AttemptId, attempt: Attempt, v: Invocation)
    requires RunningOk(invocations, attempts) && id !in attempts && attempt.id == id
    requires attempt.invocationId in invocations && attempt.status.Running? && v.status.Running?
    requires !HasRunning(attempts, attempt.invocationId)
    requires forall x :: x in attempts && attempts[x].invocationId == attempt.invocationId ==> attempts[x].number < attempt.number
    ensures RunningOk(invocations[attempt.invocationId := v], attempts[id := attempt])
  {
    var after := attempts[id := attempt];
    forall k | k in invocations[attempt.invocationId := v] && invocations[attempt.invocationId := v][k].status.Running?
      ensures HasRunning(after, k)
    {
      if k == attempt.invocationId {
        assert after[id].status == ActionStatus.Running;
      } else {
        RunningUnchanged(attempts, after, k);
      }
    }
    forall x, y | SameAction(after, x, y) && after[x].status.Running? ensures after[y].number <= after[x].number {
      if x != id && y != id {
        assert SameAction(attempts, x, y);
      }
    }
  }

  lemma StartAttemptKeeps(db: Tables, id: InvocationId, attemptId: AttemptId)
    requires Ok(db)
    ensures Keeps(db, StartAttempt(db, id, attemptId))
  {
    hide SessionsOk, NumbersOk, Greatest, Numbers, RunningOk, HasRunning, SessionsAdvance, AgentsAdvance,
         TurnsAdvance, InputsAdvance, RequestsAdvance;
    AdvancesReflexive(db);
    var r := StartAttempt(db, id, attemptId);
    if r.Success? {
      AddAttemptNumbers(db.attempts, attemptId, r.value.attempts[attemptId]);
      AddAttemptRunning(db.invocations, db.attempts, attemptId, r.value.attempts[attemptId], r.value.invocations[id]);
    }
  }

  // Any rewrite of one attempt that keeps its Action and number keeps the numbering.
  lemma RenumberKeeps(attempts: map<AttemptId, Attempt>, id: AttemptId, attempt: Attempt)
    requires NumbersOk(attempts) && id in attempts
    requires attempt.invocationId == attempts[id].invocationId && attempt.number == attempts[id].number
    ensures NumbersOk(attempts[id := attempt])
  {
    var after := attempts[id := attempt];
    forall x, k | x in after && 1 <= k <= after[x].number ensures Numbered(after, after[x].invocationId, k) {
      assert Numbered(attempts, attempts[x].invocationId, k);
      var y :| y in attempts && attempts[y].invocationId == attempts[x].invocationId && attempts[y].number == k;
      assert y in after && after[y].number == k;
    }
    forall x, y | SameAction(after, x, y) && after[x].number == after[y].number ensures x == y {
      assert SameAction(attempts, x, y);
    }
  }

  lemma StopAttempt(invocations: map<InvocationId, Invocation>, attempts: map<AttemptId, Attempt>,
                    id: AttemptId, attempt: Attempt, v: Invocation)
    requires RunningOk(invocations, attempts) && NumbersOk(attempts)
    requires id in attempts && attempts[id].status.Running? && attempt.status.Terminal() && v.status.Terminal()
    requires attempt == attempts[id].(status := attempt.status, error := attempt.error)
    ensures RunningOk(invocations[attempt.invocationId := v], attempts[id := attempt])
  {
    var after := attempts[id := attempt];
    forall k | k in invocations && invocations[k].status.Running? && k != attempt.invocationId
      ensures HasRunning(after, k)
    {
      RunningUnchanged(attempts, after, k);
    }
    forall x | x in attempts && attempts[x].invocationId == attempt.invocationId && attempts[x].status.Running?
      ensures x == id
    {
      assert SameAction(attempts, x, id) && SameAction(attempts, id, x);
    }
    forall x, y | SameAction(after, x, y) && after[x].status.Running? ensures after[y].number <= after[x].number {
      assert SameAction(attempts, x, y);
    }
  }

  lemma ApplyActionInputsOk(db: Tables, id: InvocationId)
    requires InputsOk(db.turns, db.agents, db.inputs) && InputsQuiet(db.sessions, db.inputs)
    ensures InputsOk(db.turns, db.agents, ApplyActionInputs(db.inputs, id))
    ensures InputsQuiet(db.sessions, ApplyActionInputs(db.inputs, id))
    ensures InputsAdvance(db.inputs, ApplyActionInputs(db.inputs, id))
  {
  }

  lemma EndRunning(invocations: map<InvocationId, Invocation>, id: InvocationId, v: Invocation)
    requires id in invocations && invocations[id].status.Running?
    ensures InvocationsAdvance(invocations, invocations[id := v])
  {
  }

  lemma FinishActionKeeps(db: Tables, id: InvocationId, attemptId: AttemptId, status: ActionStatus,
                          output: Option<string>, error: Option<string>)
    requires Ok(db)
    ensures Keeps(db, FinishAction(db, id, attemptId, status, output, error))
  {
    hide InputsOk, InputsQuiet, RequestsQuiet, AttentionOk, NumbersOk, RunningOk, SessionsAdvance, AgentsAdvance,
         TurnsAdvance, InputsAdvance, InvocationsAdvance, RequestsAdvance;
    AdvancesReflexive(db);
    var r := FinishAction(db, id, attemptId, status, output, error);
    if r.Success? && r.value != db {
      var attempt := r.value.attempts[attemptId];
      ApplyActionInputsOk(db, id);
      RenumberKeeps(db.attempts, attemptId, attempt);
      StopAttempt(db.invocations, db.attempts, attemptId, attempt, r.value.invocations[id]);
      EndRunning(db.invocations, id, r.value.invocations[id]);
    }
  }

  lemma CancelPendingKeeps(db: Tables, id: InvocationId, reason: string)
    requires Ok(db)
    ensures Keeps(db, CancelPending(db, id, reason))
  {
    AdvancesReflexive(db);
    var r := CancelPending(db, id, reason);
    if r.Success? && !db.invocations[id].status.Cancelled? {
      ApplyActionInputsOk(db, id);
      WriteInvocation(db.invocations, db.attempts, id, r.value.invocations[id]);
    }
  }
}
