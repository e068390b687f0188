// Who belongs to whom, in every run: rows name Agents of their own Session, and a Turn works on
// what its Action asks for.
module Integrity {
  import opened Wrappers
  import opened Protocol
  import opened Tables
  import opened Projection
  import opened StoreMachine
  import opened StoreInvariant
  import opened StoreRuns
  import opened Attachments
  import opened Outcomes
  import opened Admission
  import opened TurnOutcomes
  import opened Runtime
  import opened Rollout
  import Database

  // ---- rows ----

  ghost predicate InputBelongs(db: Tables, x: AgentInput) {
    && x.agentId in db.agents && db.agents[x.agentId] == x.sessionId
    && (x.sender.Some? ==> x.sender.value in db.agents)
    && (x.invocationId.Some? ==>
          x.invocationId.value in db.invocations && db.invocations[x.invocationId.value].agentId == x.agentId)
  }

  ghost predicate ActionBelongs(db: Tables, v: Invocation) {
    && v.agentId in db.agents && db.agents[v.agentId] == v.sessionId
    && match v.source
       case FromWorkflow => true
       case FromAgent(sender) => sender in db.agents
       case FromHumanRequest(q) => q in db.requests && db.requests[q].agentId == v.agentId && db.requests[q].sessionId == v.sessionId
  }

  ghost predicate RequestBelongs(db: Tables, q: HumanRequest) {
    q.agentId in db.agents && db.agents[q.agentId] == q.sessionId
  }

  ghost predicate Belongs(db: Tables) {
    && (forall i :: i in db.inputs ==> InputBelongs(db, db.inputs[i]))
    && (forall v :: v in db.invocations ==> ActionBelongs(db, db.invocations[v]))
    && (forall q :: q in db.requests ==> RequestBelongs(db, db.requests[q]))
  }

  // What rows that are there keep.
  ghost predicate Identities(db: Tables, db': Tables) {
    && (forall a :: a in db.agents ==> a in db'.agents && db'.agents[a] == db.agents[a])
    && (forall v :: v in db.invocations ==> v in db'.invocations && SameTask(db.invocations[v], db'.invocations[v]))
    && (forall q :: q in db.requests ==> q in db'.requests && SameAsk(db.requests[q], db'.requests[q]))
  }

  ghost predicate SameTask(v: Invocation, v': Invocation) {
    v'.agentId == v.agentId && v'.sessionId == v.sessionId && v'.input == v.input && v'.source == v.source
  }

  // An answer is never changed.
  ghost predicate SameAsk(q: HumanRequest, q': HumanRequest) {
    && q'.agentId == q.agentId && q'.sessionId == q.sessionId
    && (q.status.Answered? ==> q'.status.Answered? && q'.answer == q.answer)
  }

  // The rows that are new, and inputs that are there are the same inputs.
  ghost predicate NewBelong(db: Tables, db': Tables) {
    && (forall i :: i in db'.inputs ==> if i in db.inputs then SameInput(db.inputs[i], db'.inputs[i]) else InputBelongs(db', db'.inputs[i]))
    && (forall v :: v in db'.invocations && v !in db.invocations ==> ActionBelongs(db', db'.invocations[v]))
    && (forall q :: q in db'.requests && q !in db.requests ==> RequestBelongs(db', db'.requests[q]))
  }

  lemma BelongsStill(db: Tables, db': Tables)
    requires Belongs(db) && Identities(db, db') && NewBelong(db, db')
    ensures Belongs(db')
  {
    forall i | i in db'.inputs ensures InputBelongs(db', db'.inputs[i]) {
      if i in db.inputs {
        assert InputBelongs(db, db.inputs[i]);
      }
    }
    forall v | v in db'.invocations ensures ActionBelongs(db', db'.invocations[v]) {
      if v in db.invocations {
        assert ActionBelongs(db, db.invocations[v]);
      }
    }
    forall q | q in db'.requests ensures RequestBelongs(db', db'.requests[q]) {
      if q in db.requests {
        assert RequestBelongs(db, db.requests[q]);
      }
    }
  }

  // ---- one transaction ----

  ghost predicate Keeps(db: Tables, db': Tables) {
    Identities(db, db') && NewBelong(db, db')
  }

  // Nothing but Session rows and the states of inputs and requests.
  ghost predicate OnlyStates(db: Tables, db': Tables) {
    && db'.agents == db.agents && db'.invocations == db.invocations
    && db'.inputs.Keys == db.inputs.Keys && (forall i :: i in db.inputs ==> SameInput(db.inputs[i], db'.inputs[i]))
    && db'.requests.Keys == db.requests.Keys && (forall q :: q in db.requests ==> SameAsk(db.requests[q], db'.requests[q]))
  }

  lemma StatesKeep(db: Tables, db': Tables)
    requires OnlyStates(db, db')
    ensures Keeps(db, db')
  {
    hide SameAsk, SameInput;
  }

  lemma NewSessionStates(db: Tables, s: SessionId)
    requires RunTransaction(db, NewSession(s)).Success?
    ensures OnlyStates(db, RunTransaction(db, NewSession(s)).value)
  {
    hide RunTransaction;
    NewSessionIs(db, s);
  }

  lemma UsageStates(db: Tables, s: SessionId, delta: Usage)
    requires RunTransaction(db, AddUsage(s, delta)).Success?
    ensures OnlyStates(db, RunTransaction(db, AddUsage(s, delta)).value)
  {
    hide RunTransaction;
    UsageIs(db, s, delta);
  }

  lemma ArchiveStates(db: Tables, s: SessionId)
    requires RunTransaction(db, Archive(s)).Success?
    ensures OnlyStates(db, RunTransaction(db, Archive(s)).value)
  {
    hide RunTransaction;
    ArchiveIs(db, s);
  }

  lemma ClosingStates(db: Tables, tx: Transaction)
    requires tx.Closing? && RunTransaction(db, tx).Success?
    ensures OnlyStates(db, RunTransaction(db, tx).value)
  {
    hide RunTransaction;
    ClosingIs(db, tx.sessionId, tx.final, tx.output, tx.error);
  }

  lemma TerminalizeStates(db: Tables, s: SessionId, t: SessionId, session: Session)
    ensures OnlyStates(db, SetSession(Terminalize(db, s), t, session))
  {
  }

  lemma ChangeStates(db: Tables, s: SessionId, change: SessionChange)
    requires RunTransaction(db, ChangeSession(s, change)).Success?
    ensures OnlyStates(db, RunTransaction(db, ChangeSession(s, change)).value)
  {
    Database.RunsChangeSession(db, s, change);
    hide RunTransaction, Terminalize, SessionStatus.Terminal, SessionChange.Target, SessionChange.AllowedFrom;
    var db' := TransitionSession(db, s, change).value;
    if s in db'.sessions {
      hide OnlyStates;
      TerminalizeStates(db, s, s, db'.sessions[s]);
      SetStates(db, s, db'.sessions[s]);
      SetStates(db, s, db.sessions[s]);
      SameSession(db, s);
    }
  }

  lemma SetStates(db: Tables, s: SessionId, session: Session)
    ensures OnlyStates(db, SetSession(db, s, session))
  {
  }

  lemma SameSession(db: Tables, s: SessionId)
    requires s in db.sessions
    ensures SetSession(db, s, db.sessions[s]) == db
  {
    assert db.sessions[s := db.sessions[s]] == db.sessions;
  }

  lemma ClosedStates(db: Tables, s: SessionId)
    requires RunTransaction(db, Closed(s)).Success?
    ensures OnlyStates(db, RunTransaction(db, Closed(s)).value)
  {
    Database.RunsClosed(db, s);
    hide RunTransaction, Terminalize, OnlyStates, SessionStatus.Terminal;
    var session := db.sessions[s];
    SetStates(db, s, session);
    SameSession(db, s);
    if session.closing.Some? {
      TerminalizeStates(db, s, s, session.(status := session.closing.value, closing := None));
    }
  }

  lemma CompleteStates(db: Tables, s: SessionId, result: string)
    requires RunTransaction(db, Complete(s, result)).Success?
    ensures OnlyStates(db, RunTransaction(db, Complete(s, result)).value)
  {
    hide Terminalize, OnlyStates, CreateSession, CreateAgent, TransitionSession, BeginClosing, FinishClosing, AddSessionUsage,
         ArchiveSession, CreateHumanRequest, AnswerHumanRequest, InsertInput, ClaimInputs, InsertInvocation, StartAttempt,
         FinishAction, CancelPending;
    TerminalizeStates(db, s, s, RunTransaction(db, Complete(s, result)).value.sessions[s]);
  }

  lemma ClaimStates(db: Tables, tx: Transaction)
    requires tx.Claim? && RunTransaction(db, tx).Success?
    ensures OnlyStates(db, RunTransaction(db, tx).value)
  {
    hide Claimable, CreateSession, CreateAgent, TransitionSession, BeginClosing, FinishClosing, CompleteSession, AddSessionUsage,
         ArchiveSession, CreateHumanRequest, AnswerHumanRequest, InsertInput, InsertInvocation, StartAttempt, FinishAction,
         CancelPending;
  }

  // Only Action rows, those that are there with the same task, and the states of inputs.
  ghost predicate OnlyActions(db: Tables, db': Tables) {
    && db'.agents == db.agents && db'.requests == db.requests
    && db'.invocations.Keys == db.invocations.Keys && (forall v :: v in db.invocations ==> SameTask(db.invocations[v], db'.invocations[v]))
    && db'.inputs.Keys == db.inputs.Keys && (forall i :: i in db.inputs ==> SameInput(db.inputs[i], db'.inputs[i]))
  }

  lemma ActionsKeep(db: Tables, db': Tables)
    requires OnlyActions(db, db')
    ensures Keeps(db, db')
  {
    hide SameTask, SameInput;
  }

  lemma StartActions(db: Tables, v: InvocationId, x: AttemptId)
    requires RunTransaction(db, StartAction(v, x)).Success?
    ensures OnlyActions(db, RunTransaction(db, StartAction(v, x)).value)
  {
    Database.RunsStartAction(db, v, x);
    hide RunTransaction, Numbers, Greatest, HasRunning;
  }

  lemma SettledInputs(inputs: map<InputId, AgentInput>, v: InvocationId)
    ensures var inputs' := ApplyActionInputs(inputs, v);
            inputs'.Keys == inputs.Keys && forall i :: i in inputs ==> SameInput(inputs[i], inputs'[i])
  {
  }

  lemma OneAction(db: Tables, db': Tables, v: InvocationId)
    requires db'.agents == db.agents && db'.requests == db.requests && v in db.invocations && v in db'.invocations
    requires db'.invocations == db.invocations[v := db'.invocations[v]] && SameTask(db.invocations[v], db'.invocations[v])
    requires db'.inputs == ApplyActionInputs(db.inputs, v) || db' == db
    ensures OnlyActions(db, db')
  {
    hide ApplyActionInputs, SameInput;
    SettledInputs(db.inputs, v);
    assert forall i :: i in db.inputs ==> SameInput(db.inputs[i], db.inputs[i]) by {
      SameInputs(db.inputs);
    }
  }

  lemma SameInputs(inputs: map<InputId, AgentInput>)
    ensures forall i :: i in inputs ==> SameInput(inputs[i], inputs[i])
  {
  }

  lemma EndActions(db: Tables, tx: Transaction)
    requires tx.EndAction? && RunTransaction(db, tx).Success?
    ensures OnlyActions(db, RunTransaction(db, tx).value)
  {
    hide RunTransaction, OnlyActions, Database.Reportable, ApplyActionInputs;
    var v, db' := tx.invocationId, RunTransaction(db, tx).value;
    Database.RunsEndAction(db, v, tx.attemptId, tx.status, tx.output, tx.error);
    hide RunTransaction, Database.Reportable, ApplyActionInputs, OnlyActions;
    Database.ReportableRows(db, v, tx.attemptId, tx.status);
    if db' == db {
      assert db.invocations[v := db.invocations[v]] == db.invocations;
    }
    OneAction(db, db', v);
  }

  lemma CancelActions(db: Tables, tx: Transaction)
    requires tx.CancelAction? && RunTransaction(db, tx).Success?
    ensures OnlyActions(db, RunTransaction(db, tx).value)
  {
    hide ApplyActionInputs, OnlyActions, CreateSession, CreateAgent, TransitionSession, BeginClosing, FinishClosing, CompleteSession,
         AddSessionUsage, ArchiveSession, CreateHumanRequest, AnswerHumanRequest, InsertInput, ClaimInputs, InsertInvocation,
         StartAttempt, FinishAction;
    var v, db' := tx.invocationId, RunTransaction(db, tx).value;
    if db' == db {
      assert db.invocations[v := db.invocations[v]] == db.invocations;
    }
    OneAction(db, db', v);
  }

  lemma AgentKeeps(db: Tables, a: AgentId, s: SessionId)
    requires RunTransaction(db, NewAgent(a, s)).Success?
    ensures Keeps(db, RunTransaction(db, NewAgent(a, s)).value)
  {
    hide RunTransaction;
    NewAgentIs(db, a, s);
  }

  lemma OpenKeeps(db: Tables, q: RequestId, s: SessionId, a: AgentId)
    requires RunTransaction(db, OpenRequest(q, s, a)).Success?
    ensures Keeps(db, RunTransaction(db, OpenRequest(q, s, a)).value)
  {
    Database.RunsOpenRequest(db, q, s, a);
    hide RunTransaction;
  }

  lemma AnswerStates(db: Tables, q: RequestId, answer: string)
    requires RunTransaction(db, AnswerRequest(q, answer)).Success?
    ensures OnlyStates(db, RunTransaction(db, AnswerRequest(q, answer)).value)
  {
    Database.RunsAnswerRequest(db, q, answer);
    hide RunTransaction, HasOpen;
  }

  lemma SendKeeps(db: Tables, i: InputId, input: AgentInput)
    requires RunTransaction(db, SendInput(i, input)).Success?
    ensures Keeps(db, RunTransaction(db, SendInput(i, input)).value)
  {
    hide RunTransaction;
    SendIs(db, i, input);
  }

  lemma ScheduleKeeps(db: Tables, v: InvocationId, s: SessionId, a: AgentId, task: string, source: Source)
    requires RunTransaction(db, Schedule(v, s, a, task, source)).Success?
    ensures Keeps(db, RunTransaction(db, Schedule(v, s, a, task, source)).value)
  {
    hide RunTransaction;
    ScheduleIs(db, v, s, a, task, source);
  }

  lemma TransactionKeepsRows(db: Tables, tx: Transaction)
    requires RunTransaction(db, tx).Success?
    ensures Keeps(db, RunTransaction(db, tx).value)
  {
    hide RunTransaction, Keeps, OnlyStates, OnlyActions;
    var db' := RunTransaction(db, tx).value;
    match tx
    case NewSession(s) => NewSessionStates(db, s); StatesKeep(db, db');
    case NewAgent(a, s) => AgentKeeps(db, a, s);
    case ChangeSession(s, change) => ChangeStates(db, s, change); StatesKeep(db, db');
    case Closing(_, _, _, _) => ClosingStates(db, tx); StatesKeep(db, db');
    case Closed(s) => ClosedStates(db, s); StatesKeep(db, db');
    case Complete(s, result) => CompleteStates(db, s, result); StatesKeep(db, db');
    case AddUsage(s, delta) => UsageStates(db, s, delta); StatesKeep(db, db');
    case Archive(s) => ArchiveStates(db, s); StatesKeep(db, db');
    case OpenRequest(q, s, a) => OpenKeeps(db, q, s, a);
    case AnswerRequest(q, answer) => AnswerStates(db, q, answer); StatesKeep(db, db');
    case SendInput(i, input) => SendKeeps(db, i, input);
    case Claim(_, _, _, _) => ClaimStates(db, tx); StatesKeep(db, db');
    case Schedule(v, s, a, task, source) => ScheduleKeeps(db, v, s, a, task, source);
    case StartAction(v, x) => StartActions(db, v, x); ActionsKeep(db, db');
    case EndAction(_, _, _, _, _) => EndActions(db, tx); ActionsKeep(db, db');
    case CancelAction(_, _) => CancelActions(db, tx); ActionsKeep(db, db');
  }

  // ---- every run ----

  lemma ProjectedIdentities(db: Tables, r: Record)
    requires Project(db, r).Success?
    ensures var db' := Project(db, r).value;
            db'.agents == db.agents && db'.invocations == db.invocations && db'.requests == db.requests
  {
    hide Acknowledge, Release, SaturatingAdd, SaturatingSub, Checkpointed, AcknowledgementsValid, Require;
    match r.item
    case TurnCreated(_, _) =>
    case ContextCheckpoint(_, _, _, _, _, _) =>
    case TurnUpdated(_, _) =>
  }

  lemma {:induction false} AcknowledgedSame(inputs: map<InputId, AgentInput>, t: TurnId, ids: seq<InputId>)
    requires Acknowledge(inputs, t, ids).Success?
    ensures SameMessages(inputs, Acknowledge(inputs, t, ids).value)
    decreases |ids|
  {
    if ids != [] {
      if inputs[ids[0]].status == Applied {
        AcknowledgedSame(inputs, t, ids[1..]);
      } else {
        AcknowledgedSame(inputs[ids[0] := inputs[ids[0]].(status := Applied)], t, ids[1..]);
      }
    }
  }

  // The same inputs, in whatever state.
  ghost predicate SameMessages(inputs: map<InputId, AgentInput>, inputs': map<InputId, AgentInput>) {
    inputs'.Keys == inputs.Keys && forall i :: i in inputs ==> SameInput(inputs[i], inputs'[i])
  }

  lemma ReleasedSame(inputs: map<InputId, AgentInput>, inputs': map<InputId, AgentInput>, t: TurnId)
    requires SameMessages(inputs, inputs')
    ensures SameMessages(inputs, Release(inputs', t))
  {
  }

  lemma SameAlready(inputs: map<InputId, AgentInput>)
    ensures SameMessages(inputs, inputs)
  {
  }

  lemma ProjectedSame(db: Tables, r: Record)
    requires Project(db, r).Success?
    ensures SameMessages(db.inputs, Project(db, r).value.inputs)
  {
    hide Acknowledge, Release, SaturatingAdd, SaturatingSub, Checkpointed, SameMessages;
    match r.item
    case TurnCreated(_, _) => SameAlready(db.inputs);
    case ContextCheckpoint(t, _, _, _, _, ids) => AcknowledgedSame(db.inputs, t, ids);
    case TurnUpdated(turn, ids) =>
      AcknowledgedSame(db.inputs, turn.id, ids);
      ReleasedSame(db.inputs, Acknowledge(db.inputs, turn.id, ids).value, turn.id);
  }

  lemma ProjectKeepsRows(db: Tables, r: Record, db': Tables)
    requires Project(db, r).Success? && SameTables(Project(db, r).value, db')
    ensures Keeps(db, db')
  {
    hide Project, Keeps, SameInput;
    ProjectedIdentities(db, r);
    ProjectedSame(db, r);
    assert OnlyStates(db, db');
    StatesKeep(db, db');
  }

  lemma QuietKeepsRows(db: Tables, db': Tables)
    requires SameTables(db, db')
    ensures Keeps(db, db')
  {
  }

  lemma StepKeepsRows(w: World, step: StoreMachine.Step)
    requires Inv(w)
    ensures Keeps(w.db, StoreMachine.Next(w, step).db)
  {
    hide Inv, Keeps, Ready, Project, RunTransaction, RunTurnOp, Prepare, Admit, Replay, Swept;
    if step.Transact? {
      if w.live && RunTransaction(w.db, step.tx).Success? {
        TransactionKeepsRows(w.db, step.tx);
      } else {
        QuietKeepsRows(w.db, w.db);
      }
    } else {
      hide StoreMachine.Next;
      var r := StepProjects(w, step);
      if r.Some? {
        ProjectKeepsRows(w.db, r.value, StoreMachine.Next(w, step).db);
      } else {
        QuietKeepsRows(w.db, StoreMachine.Next(w, step).db);
      }
    }
  }

  /** In every run every input and every request belongs to an Agent of its own Session, and so
      does every Action; the Action an input is addressed to is its Agent's own, and the
      request an Action comes from was the same Agent's. */
  lemma {:induction false} RowsBelong(steps: seq<StoreMachine.Step>)
    ensures Belongs(StoreMachine.Run(START, steps).db)
  {
    hide Inv, StoreMachine.Next, Keeps;
    if steps == [] {
    } else {
      var w := StoreMachine.Run(START, steps[..|steps| - 1]);
      RowsBelong(steps[..|steps| - 1]);
      Reachable(steps[..|steps| - 1]);
      StepKeepsRows(w, steps[|steps| - 1]);
      KeptBelongs(w.db, StoreMachine.Run(START, steps).db);
    }
  }

  lemma KeptBelongs(db: Tables, db': Tables)
    requires Belongs(db) && Keeps(db, db')
    ensures Belongs(db')
  {
    hide Belongs, Identities, NewBelong;
    BelongsStill(db, db');
  }

  // ---- what a Turn works on ----

  // A Turn was created for an Action of its Agent, with the Action's own text or the answer
  // to the request it comes from.
  ghost predicate OnTask(db: Tables, item: RolloutItem) {
    item.TurnCreated? ==>
      var v := item.attempt.invocationId;
      && v in db.invocations && db.invocations[v].agentId == item.turn.agentId
      && WorksOn(db, db.invocations[v], item.turn.agentId, item.turn.input)
  }

  lemma OnTaskStill(db: Tables, db': Tables, item: RolloutItem)
    requires OnTask(db, item) && Identities(db, db')
    ensures OnTask(db', item)
  {
  }

  lemma PlannedOnTask(db: Tables, log: seq<Record>, op: TurnOp, item: RolloutItem)
    requires Plan(db, log, op) == Success(Some(item))
    ensures OnTask(db, item)
  {
    hide Plan;
    if op.CreateTurn? {
      CreatePlan(db, log, op);
    } else {
      NotCreated(db, log, op);
    }
  }

  lemma NotCreated(db: Tables, log: seq<Record>, op: TurnOp)
    requires !op.CreateTurn? && Plan(db, log, op).Success? && Plan(db, log, op).value.Some?
    ensures !Plan(db, log, op).value.value.TurnCreated?
  {
    hide Reconstruct;
  }

  ghost predicate AllOnTask(w: World) {
    forall a, i :: 0 <= i < |LogOf(w, a)| ==> OnTask(w.db, LogOf(w, a)[i].item)
  }

  // The record a step of the store adds, if any.
  lemma StepAdds(w: World, step: StoreMachine.Step) returns (written: Option<Planned>)
    requires Inv(w)
    ensures Adds(w, StoreMachine.Next(w, step), written)
    ensures written.Some? ==> OnTask(w.db, written.value.item)
  {
    hide Inv, Written, RunTurnOp, Adds, OnTask, StoreMachine.Next, Prepare, LogOf, Plan, AgentOf;
    match step
    case Do(op) =>
      if w.live {
        written := Written(w, op);
        DoWrites(w, op);
        DoIs(w, op);
        if written.Some? {
          PlannedIs(w, op);
          PlannedOnTask(w.db, LogOf(w, written.value.agentId), op, written.value.item);
        }
      } else {
        written := None;
        IdleIs(w, step);
      }
    case CrashInside(op, durable) =>
      written := if w.live && durable then Written(w, op) else None;
      CrashWrites(w, op, durable);
      if written.Some? {
        PlannedIs(w, op);
        PlannedOnTask(w.db, LogOf(w, written.value.agentId), op, written.value.item);
      }
    case _ =>
      written := None;
      QuietSteps(w, step);
  }

  lemma DoIs(w: World, op: TurnOp)
    requires w.live
    ensures StoreMachine.Next(w, Do(op)) == RunTurnOp(w, op)
  {
    hide RunTurnOp;
  }

  lemma IdleIs(w: World, step: StoreMachine.Step)
    requires step.Do? && !w.live
    ensures Adds(w, StoreMachine.Next(w, step), None)
  {
    hide RunTurnOp, LogOf;
    SameLogs(w, StoreMachine.Next(w, step));
  }

  lemma StepOnTask(w: World, step: StoreMachine.Step)
    requires Inv(w) && AllOnTask(w)
    ensures AllOnTask(StoreMachine.Next(w, step))
  {
    hide Inv, StoreMachine.Next, OnTask, NewBelong, LogOf;
    var w' := StoreMachine.Next(w, step);
    var written := StepAdds(w, step);
    StepKeepsRows(w, step);
    forall a, i | 0 <= i < |LogOf(w', a)| ensures OnTask(w'.db, LogOf(w', a)[i].item) {
      hide Identities;
      if i < |LogOf(w, a)| {
        assert OnTask(w.db, LogOf(w, a)[i].item);
        assert LogOf(w', a)[i] == LogOf(w, a)[i];
      } else {
        assert LogOf(w', a)[i].item == written.value.item;
      }
      OnTaskStill(w.db, w'.db, LogOf(w', a)[i].item);
    }
  }

  lemma {:induction false} AlwaysOnTask(steps: seq<StoreMachine.Step>)
    ensures AllOnTask(StoreMachine.Run(START, steps))
  {
    hide Inv, StoreMachine.Next, OnTask;
    if steps != [] {
      AlwaysOnTask(steps[..|steps| - 1]);
      Reachable(steps[..|steps| - 1]);
      StepOnTask(StoreMachine.Run(START, steps[..|steps| - 1]), steps[|steps| - 1]);
    }
  }

  /** Every Turn that was ever created, also one whose creation is still to be projected, was
      created for an Action of its own Agent, and its input is what that Action asks for: its
      text, or the answer of the same Agent's request it comes from, for ever. */
  lemma TurnsWorkOnTasks(steps: seq<StoreMachine.Step>, a: AgentId, i: nat)
    requires i < |LogOf(StoreMachine.Run(START, steps), a)| && LogOf(StoreMachine.Run(START, steps), a)[i].item.TurnCreated?
    ensures var db, item := StoreMachine.Run(START, steps).db, LogOf(StoreMachine.Run(START, steps), a)[i].item;
            var v := item.attempt.invocationId;
            && v in db.invocations && db.invocations[v].agentId == item.turn.agentId
            && (if db.invocations[v].source.FromHumanRequest? then
                  var q := db.invocations[v].source.requestId;
                  && q in db.requests && db.requests[q].agentId == item.turn.agentId
                  && db.requests[q].status.Answered? && db.requests[q].answer == Some(item.turn.input)
                else db.invocations[v].input == item.turn.input)
  {
    hide StoreMachine.Run, LogOf;
    AlwaysOnTask(steps);
    assert OnTask(StoreMachine.Run(START, steps).db, LogOf(StoreMachine.Run(START, steps), a)[i].item);
  }
}
