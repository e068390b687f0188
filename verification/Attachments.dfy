// Which Turn belongs to which attempt, and which inputs it may acknowledge. Everything is
// said of logs and tables, along any run of the store.
module Attachments {
  import opened Wrappers
  import opened Protocol
  import opened Rollout
  import opened Tables
  import Lifecycle
  import opened Projection
  import opened TurnLog
  import opened Charges
  import opened StoreMachine
  import opened StoreInvariant
  import opened StoreSteps
  import opened StoreRuns
  import opened StoreTheorems

  // ---- steps that project a record ----

  ghost predicate SameTables(db: Tables, db': Tables) {
    db' == db.(projected := db'.projected)
  }

  /** A ready record has been projected, and nothing else happened to the tables. */
  ghost predicate Projects(w: World, w': World, r: Record) {
    && Ready(w.db, r) && Project(w.db, r).Success? && SameTables(Project(w.db, r).value, w'.db)
    && |w'.journal| == |w.journal| + 1 && w'.journal[..|w.journal|] == w.journal && w'.journal[|w.journal|].record == r
  }

  ghost predicate Quiet(w: World, w': World) {
    SameTables(w.db, w'.db) && w'.journal == w.journal
  }

  // A step projects at most one record.
  ghost predicate ProjectsOr(w: World, w': World, r: Option<Record>) {
    if r.Some? then Projects(w, w', r.value) else Quiet(w, w')
  }

  lemma NextProjects(w: World, a: AgentId)
    requires Inv(w) && Waiting(w, a) && ProjectNext(w, a).Success?
    ensures Projects(w, ProjectNext(w, a).value, LogOf(w, a)[Projected(w.db, a)])
  {
    hide Core, Ready, Project, LogOf, Projected;
    assert WaitingOk(w, a);
  }

  // Neither cache nor mode matter to what has been projected.
  lemma ProjectsAnyway(w: World, w1: World, w': World, w2: World, r: Record)
    requires Projects(w1, w2, r) && w1.db == w.db && w1.journal == w.journal && w'.db == w2.db && w'.journal == w2.journal
    ensures Projects(w, w', r)
  {
    hide Ready, Project;
  }

  lemma ReplayProjects(w: World, a: AgentId) returns (r: Option<Record>)
    requires Inv(w)
    ensures ProjectsOr(w, Or(Replay(w, a), w), r)
  {
    hide Inv, Replay, Projects, ProjectNext, Lifecycle.Advances, Waiting;
    if Waiting(w, a) {
      ResumeKeeps(w, a);
      WaitingProjected(w, a);
      ReplayWaiting(w, a);
      r := Some(LogOf(w, a)[Projected(w.db, a)]);
      NextProjects(w, a);
      ProjectsAnyway(w, w, Or(Replay(w, a), w), ProjectNext(w, a).value, r.value);
    } else {
      ReplayKeeps(w, a);
      r := None;
    }
  }

  lemma WaitingProjected(w: World, a: AgentId)
    requires Waiting(w, a)
    ensures Projected(w.db, a) < |LogOf(w, a)|
  {
  }

  lemma CommitProjects(w: World, op: TurnOp, a: AgentId, item: RolloutItem)
    requires Inv(w) && w.live && CaughtUp(w, a) && AgentOf(w.db, op) == Success(a)
    requires Plan(w.db, LogOf(w, a), op) == Success(Some(item)) && Admit(w, a, item).Success?
    ensures Commit(w, a, item).Success? && Projects(w, Commit(w, a, item).value, NextRecord(w, a, item))
  {
    hide Inv, Projects, ProjectNext, Lifecycle.Advances, Plan, AgentOf, Commit, Admit, Waiting, CaughtUp;
    DurableKeeps(w, op, a, item);
    var r := NextRecord(w, a, item);
    var w1 := Stopped(Appended(w, r));
    ResumeKeeps(w1, a);
    WaitingProjected(w1, a);
    CommitIs(w, a, item);
    NextProjects(w1, a);
    assert LogOf(w1, a)[Projected(w1.db, a)] == r by {
      assert LogOf(w1, a) == LogOf(w, a) + [r];
      assert Projected(w1.db, a) == |LogOf(w, a)|;
    }
    ProjectsAnyway(w, w1, Commit(w, a, item).value, ProjectNext(w1, a).value, r);
  }

  lemma DoProjects(w: World, op: TurnOp) returns (r: Option<Record>)
    requires Inv(w) && w.live
    ensures ProjectsOr(w, RunTurnOp(w, op), r)
  {
    hide Inv, Prepare, Commit, Replay, Admit, Lifecycle.Advances, CaughtUp, Plan, NextRecord, Projects;
    if Prepare(w, op).Success? {
      PrepareKeeps(w, op);
      var p := Prepare(w, op).value;
      if Admit(p.world, p.agentId, p.item).Success? {
        CommitProjects(p.world, op, p.agentId, p.item);
        r := Some(NextRecord(p.world, p.agentId, p.item));
        ProjectsAnyway(w, p.world, RunTurnOp(w, op), Commit(p.world, p.agentId, p.item).value, r.value);
      } else {
        CommitRefused(p.world, p.agentId, p.item);
        r := None;
      }
    } else if AgentOf(w.db, op).Success? {
      r := ReplayProjects(w, AgentOf(w.db, op).value);
    } else {
      r := None;
    }
  }

  /** Whatever a step is, besides the other transactions: it projects one ready record, or it
      leaves tables and journal as they are. */
  lemma StepProjects(w: World, step: Step) returns (r: Option<Record>)
    requires Inv(w) && !step.Transact?
    ensures ProjectsOr(w, Next(w, step), r)
  {
    hide Inv, Replay, RunTurnOp, Projects, RunTransaction, Prepare, Admit, Swept;
    r := None;
    match step
    case Do(op) =>
      if w.live {
        r := DoProjects(w, op);
      }
    case ReplayOne(a) =>
      if !w.live && a in w.logs {
        r := ReplayProjects(w, a);
      }
    case CrashInside(op, durable) => CrashIsQuiet(w, op, durable);
    case Reconcile => QuietIn(w); SweepFindsNothing(w.db);
    case _ =>
  }

  lemma CrashIsQuiet(w: World, op: TurnOp, durable: bool)
    requires Inv(w)
    ensures Quiet(w, Next(w, CrashInside(op, durable)))
  {
    hide Inv, Replay, RunTurnOp, RunTransaction, Prepare, Admit, Swept, AgentOf, Plan, Lifecycle.Advances, CaughtUp;
    if w.live && Prepare(w, op).Success? {
      PrepareKeeps(w, op);
      var p := Prepare(w, op).value;
      if Admit(p.world, p.agentId, p.item).Success? {
        AdmitIsIdle(p.world, p.agentId, p.item);
      }
    }
  }

  // ---- attempts and their Turns ----

  ghost predicate Attaches(r: Record, x: AttemptId, t: TurnId) {
    r.item.TurnCreated? && r.item.attempt.id == x && r.item.turn.id == t
  }

  // What a record attached its attempt's row shows.
  ghost predicate Shown(attempts: map<AttemptId, Attempt>, r: Record) {
    r.item.TurnCreated? ==>
      var x := r.item.attempt.id;
      && x in attempts && attempts[x].turnId == Some(r.item.turn.id)
      && attempts[x].invocationId == r.item.attempt.invocationId
  }

  // What a row shows a record has attached.
  ghost predicate Explained(attempts: map<AttemptId, Attempt>, journal: seq<Entry>, x: AttemptId) {
    x in attempts && attempts[x].turnId.Some? ==>
      exists i :: 0 <= i < |journal| && Attaches(journal[i].record, x, attempts[x].turnId.value)
  }

  ghost predicate SameAttempt(r: Record, r': Record) {
    r.item.TurnCreated? && r'.item.TurnCreated? && r.item.attempt.id == r'.item.attempt.id
  }

  ghost predicate Attached(attempts: map<AttemptId, Attempt>, journal: seq<Entry>) {
    && (forall i :: 0 <= i < |journal| ==> Shown(attempts, journal[i].record))
    && (forall x :: Explained(attempts, journal, x))
    && (forall i, j :: 0 <= i < j < |journal| ==> !SameAttempt(journal[i].record, journal[j].record))
  }

  // Attempts are added without a Turn, and keep their Turn and their Action.
  ghost predicate AttemptsMove(attempts: map<AttemptId, Attempt>, attempts': map<AttemptId, Attempt>) {
    && (forall x :: x in attempts ==>
          x in attempts' && attempts'[x].turnId == attempts[x].turnId && attempts'[x].invocationId == attempts[x].invocationId)
    && (forall x :: x in attempts' && x !in attempts ==> attempts'[x].turnId.None?)
  }

  lemma StartAttemptMoves(db: Tables, v: InvocationId, x: AttemptId)
    requires StartAttempt(db, v, x).Success?
    ensures AttemptsMove(db.attempts, StartAttempt(db, v, x).value.attempts)
  {
    hide Numbers, Greatest, HasRunning;
  }

  lemma FinishActionMoves(db: Tables, v: InvocationId, x: AttemptId, status: ActionStatus, output: Option<string>, error: Option<string>)
    requires FinishAction(db, v, x, status, output, error).Success?
    ensures AttemptsMove(db.attempts, FinishAction(db, v, x, status, output, error).value.attempts)
  {
    hide ApplyActionInputs, AttemptsMove;
    NothingMoves(db.attempts);
    RewrittenMoves(db.attempts, x, db.attempts[x].(status := status, error := error));
  }

  lemma RewrittenMoves(attempts: map<AttemptId, Attempt>, x: AttemptId, attempt: Attempt)
    requires x in attempts && attempt.turnId == attempts[x].turnId && attempt.invocationId == attempts[x].invocationId
    ensures AttemptsMove(attempts, attempts[x := attempt])
  {
  }

  ghost predicate LeavesActions(db: Tables, db': Tables) {
    db'.attempts == db.attempts && db'.invocations == db.invocations
  }

  lemma CreateSessionLeaves(db: Tables, s: SessionId)
    requires CreateSession(db, s).Success?
    ensures LeavesActions(db, CreateSession(db, s).value)
  {
  }

  lemma CreateAgentLeaves(db: Tables, a: AgentId, s: SessionId)
    requires CreateAgent(db, a, s).Success?
    ensures LeavesActions(db, CreateAgent(db, a, s).value)
  {
  }

  lemma TransitionSessionLeaves(db: Tables, s: SessionId, change: SessionChange)
    requires TransitionSession(db, s, change).Success?
    ensures LeavesActions(db, TransitionSession(db, s, change).value)
  {
    hide AppliedInputs, CancelledRequests;
  }

  lemma BeginClosingLeaves(db: Tables, s: SessionId, final: SessionStatus, output: Option<string>, error: Option<string>)
    requires BeginClosing(db, s, final, output, error).Success?
    ensures LeavesActions(db, BeginClosing(db, s, final, output, error).value)
  {
    if db.sessions[s].status.Closing? || db.sessions[s].status.Terminal() {
      assert BeginClosing(db, s, final, output, error).value == db;
    }
  }

  lemma FinishClosingLeaves(db: Tables, s: SessionId)
    requires FinishClosing(db, s).Success?
    ensures LeavesActions(db, FinishClosing(db, s).value)
  {
    if db.sessions[s].status.Terminal() {
      assert FinishClosing(db, s).value == db;
    }
    hide AppliedInputs, CancelledRequests;
  }

  lemma CompleteSessionLeaves(db: Tables, s: SessionId, output: string)
    requires CompleteSession(db, s, output).Success?
    ensures LeavesActions(db, CompleteSession(db, s, output).value)
  {
    hide AppliedInputs, CancelledRequests;
  }

  lemma AddSessionUsageLeaves(db: Tables, s: SessionId, delta: Usage)
    requires AddSessionUsage(db, s, delta).Success?
    ensures LeavesActions(db, AddSessionUsage(db, s, delta).value)
  {
    hide SaturatingAdd;
  }

  lemma ArchiveSessionLeaves(db: Tables, s: SessionId)
    requires ArchiveSession(db, s).Success?
    ensures LeavesActions(db, ArchiveSession(db, s).value)
  {
  }

  lemma CreateHumanRequestLeaves(db: Tables, r: RequestId, s: SessionId, a: AgentId)
    requires CreateHumanRequest(db, r, s, a).Success?
    ensures LeavesActions(db, CreateHumanRequest(db, r, s, a).value)
  {
  }

  lemma AnswerHumanRequestLeaves(db: Tables, r: RequestId, answer: string)
    requires AnswerHumanRequest(db, r, answer).Success?
    ensures LeavesActions(db, AnswerHumanRequest(db, r, answer).value)
  {
    hide HasOpen;
  }

  lemma InsertInputLeaves(db: Tables, i: InputId, input: AgentInput)
    requires InsertInput(db, i, input).Success?
    ensures LeavesActions(db, InsertInput(db, i, input).value)
  {
    hide SenderIsLive;
  }

  lemma ClaimInputsLeaves(db: Tables, s: SessionId, a: AgentId, v: Option<InvocationId>, t: TurnId)
    requires ClaimInputs(db, s, a, v, t).Success?
    ensures LeavesActions(db, ClaimInputs(db, s, a, v, t).value)
  {
    hide Claimable;
  }

  lemma InsertInvocationLeaves(db: Tables, v: InvocationId, s: SessionId, a: AgentId, task: string, source: Source)
    requires InsertInvocation(db, v, s, a, task, source).Success?
    ensures InsertInvocation(db, v, s, a, task, source).value.attempts == db.attempts
  {
    hide SenderIsLive, SessionStatus.AcceptsActions;
  }

  lemma CancelPendingLeaves(db: Tables, v: InvocationId, reason: string)
    requires CancelPending(db, v, reason).Success?
    ensures var db' := CancelPending(db, v, reason).value;
            db'.attempts == db.attempts && db'.requests == db.requests && db'.sessions == db.sessions
  {
    hide ApplyActionInputs;
    if !db.invocations[v].status.Cancelled? {
      assert CancelPending(db, v, reason).value ==
             db.(invocations := CancelPending(db, v, reason).value.invocations, inputs := CancelPending(db, v, reason).value.inputs);
    }
  }

  lemma OthersLeaveAttempts(db: Tables, tx: Transaction)
    requires !tx.StartAction? && !tx.EndAction? && RunTransaction(db, tx).Success?
    ensures RunTransaction(db, tx).value.attempts == db.attempts
    ensures !tx.Schedule? && !tx.CancelAction? ==> LeavesActions(db, RunTransaction(db, tx).value)
  {
    hide CreateSession, CreateAgent, TransitionSession, BeginClosing, FinishClosing, CompleteSession, AddSessionUsage, ArchiveSession,
         CreateHumanRequest, AnswerHumanRequest, InsertInput, ClaimInputs, InsertInvocation, CancelPending;
    match tx
    case NewSession(s) => CreateSessionLeaves(db, s);
    case NewAgent(a, s) => CreateAgentLeaves(db, a, s);
    case ChangeSession(s, change) => TransitionSessionLeaves(db, s, change);
    case Closing(s, final, output, error) => BeginClosingLeaves(db, s, final, output, error);
    case Closed(s) => FinishClosingLeaves(db, s);
    case Complete(s, result) => CompleteSessionLeaves(db, s, result);
    case AddUsage(s, delta) => AddSessionUsageLeaves(db, s, delta);
    case Archive(s) => ArchiveSessionLeaves(db, s);
    case OpenRequest(r, s, a) => CreateHumanRequestLeaves(db, r, s, a);
    case AnswerRequest(r, answer) => AnswerHumanRequestLeaves(db, r, answer);
    case SendInput(i, input) => InsertInputLeaves(db, i, input);
    case Claim(s, a, v, t) => ClaimInputsLeaves(db, s, a, v, t);
    case Schedule(v, s, a, task, source) => InsertInvocationLeaves(db, v, s, a, task, source);
    case CancelAction(v, reason) => CancelPendingLeaves(db, v, reason);
  }

  lemma TransactionMoves(db: Tables, tx: Transaction)
    requires RunTransaction(db, tx).Success?
    ensures AttemptsMove(db.attempts, RunTransaction(db, tx).value.attempts)
  {
    hide StartAttempt, FinishAction, AttemptsMove;
    match tx
    case StartAction(v, x) => StartAttemptMoves(db, v, x);
    case EndAction(v, x, status, output, error) => FinishActionMoves(db, v, x, status, output, error);
    case _ => OthersLeaveAttempts(db, tx); NothingMoves(db.attempts);
  }

  lemma NothingMoves(attempts: map<AttemptId, Attempt>)
    ensures AttemptsMove(attempts, attempts)
  {
  }

  lemma MovedAttached(attempts: map<AttemptId, Attempt>, attempts': map<AttemptId, Attempt>, journal: seq<Entry>)
    requires Attached(attempts, journal) && AttemptsMove(attempts, attempts')
    ensures Attached(attempts', journal)
  {
    forall i | 0 <= i < |journal| ensures Shown(attempts', journal[i].record) {
      assert Shown(attempts, journal[i].record);
    }
    forall x ensures Explained(attempts', journal, x) {
      assert Explained(attempts, journal, x);
    }
  }

  // A new Turn is written into the row of its attempt, which had none.
  ghost predicate AttachesTo(attempts: map<AttemptId, Attempt>, r: Record, attempts': map<AttemptId, Attempt>) {
    if r.item.TurnCreated? then
      var x := r.item.attempt.id;
      && x in attempts && attempts[x].turnId.None? && r.item.attempt.invocationId == attempts[x].invocationId
      && attempts' == attempts[x := attempts[x].(turnId := Some(r.item.turn.id))]
    else attempts' == attempts
  }

  lemma ProjectedAttempts(db: Tables, r: Record)
    requires Ready(db, r) && Project(db, r).Success?
    ensures AttachesTo(db.attempts, r, Project(db, r).value.attempts)
  {
    hide Acknowledge, Release, AcknowledgementsValid, NewTurn, NoLiveTurn, NextTurn, Checkpointed, SaturatingAdd, SaturatingSub;
    match r.item
    case TurnCreated(_, _) =>
    case ContextCheckpoint(_, _, _, _, _, _) =>
    case TurnUpdated(_, _) =>
  }

  lemma ProjectedAttached(attempts: map<AttemptId, Attempt>, journal: seq<Entry>, r: Record, attempts': map<AttemptId, Attempt>,
                          journal': seq<Entry>)
    requires Attached(attempts, journal) && |journal'| == |journal| + 1 && journal'[..|journal|] == journal && journal'[|journal|].record == r
    requires AttachesTo(attempts, r, attempts')
    ensures Attached(attempts', journal')
  {
    var n := |journal|;
    forall i | 0 <= i < |journal'| ensures Shown(attempts', journal'[i].record) {
      if i < n {
        assert journal'[i] == journal[i] && Shown(attempts, journal[i].record);
      }
    }
    forall x ensures Explained(attempts', journal', x) {
      assert Explained(attempts, journal, x);
      if r.item.TurnCreated? && x == r.item.attempt.id {
        assert Attaches(journal'[n].record, x, r.item.turn.id);
      } else if x in attempts && attempts[x].turnId.Some? {
        var i :| 0 <= i < n && Attaches(journal[i].record, x, attempts[x].turnId.value);
        assert journal'[i] == journal[i];
      }
    }
    forall i, j | 0 <= i < j < |journal'| ensures !SameAttempt(journal'[i].record, journal'[j].record) {
      assert journal'[i] == journal[i] && Shown(attempts, journal[i].record);
      if j < n {
        assert journal'[j] == journal[j];
      }
    }
  }

  lemma StepAttached(w: World, step: Step)
    requires Inv(w) && Attached(w.db.attempts, w.journal)
    ensures Attached(Next(w, step).db.attempts, Next(w, step).journal)
  {
    hide Inv, Attached, AttemptsMove, AttachesTo, Ready, Project, RunTransaction, RunTurnOp, Prepare, Admit, Replay, Swept;
    if step.Transact? {
      if w.live && RunTransaction(w.db, step.tx).Success? {
        TransactionMoves(w.db, step.tx);
        MovedAttached(w.db.attempts, Next(w, step).db.attempts, w.journal);
      }
    } else {
      hide Next;
      var r := StepProjects(w, step);
      if r.Some? {
        ProjectedAttempts(w.db, r.value);
        ProjectedAttached(w.db.attempts, w.journal, r.value, Next(w, step).db.attempts, Next(w, step).journal);
      }
    }
  }

  lemma {:induction false} AttachedAlways(steps: seq<Step>)
    ensures Attached(Run(START, steps).db.attempts, Run(START, steps).journal)
  {
    hide Inv, Next;
    if steps != [] {
      AttachedAlways(steps[..|steps| - 1]);
      Reachable(steps[..|steps| - 1]);
      StepAttached(Run(START, steps[..|steps| - 1]), steps[|steps| - 1]);
    }
  }

  // ---- Turns are created once ----

  ghost predicate SameTurn(r: Record, r': Record) {
    r.item.TurnCreated? && r'.item.TurnCreated? && r.item.turn.id == r'.item.turn.id
  }

  ghost predicate Rowed(turns: map<TurnId, Turn>, r: Record) {
    r.item.TurnCreated? ==> r.item.turn.id in turns
  }

  ghost predicate CreatedOnce(turns: map<TurnId, Turn>, journal: seq<Entry>) {
    && (forall i :: 0 <= i < |journal| ==> Rowed(turns, journal[i].record))
    && (forall i, j :: 0 <= i < j < |journal| ==> !SameTurn(journal[i].record, journal[j].record))
  }

  lemma ProjectedTurns(db: Tables, r: Record)
    requires Ready(db, r) && Project(db, r).Success?
    ensures db.turns.Keys + {ItemTurn(r.item)} == Project(db, r).value.turns.Keys
    ensures r.item.TurnCreated? ==> r.item.turn.id !in db.turns
  {
    hide AcknowledgementsValid, NewTurn, NextTurn, NoLiveTurn;
    ProjectEffect(db, r);
  }

  lemma CreatedMore(turns: map<TurnId, Turn>, turns': map<TurnId, Turn>, journal: seq<Entry>, journal': seq<Entry>, r: Record)
    requires CreatedOnce(turns, journal) && turns'.Keys == turns.Keys + {ItemTurn(r.item)}
    requires r.item.TurnCreated? ==> r.item.turn.id !in turns
    requires |journal'| == |journal| + 1 && journal'[..|journal|] == journal && journal'[|journal|].record == r
    ensures CreatedOnce(turns', journal')
  {
    var n := |journal|;
    forall i | 0 <= i < |journal'| ensures Rowed(turns', journal'[i].record) {
      if i < n {
        assert journal'[i] == journal[i] && Rowed(turns, journal[i].record);
      } else {
        assert ItemTurn(r.item) in turns'.Keys;
      }
    }
    forall i, j | 0 <= i < j < |journal'| ensures !SameTurn(journal'[i].record, journal'[j].record) {
      assert journal'[i] == journal[i] && Rowed(turns, journal[i].record);
      if j < n {
        assert journal'[j] == journal[j];
      }
    }
  }

  lemma StepCreated(w: World, step: Step)
    requires Inv(w) && CreatedOnce(w.db.turns, w.journal)
    ensures CreatedOnce(Next(w, step).db.turns, Next(w, step).journal)
  {
    hide Inv, CreatedOnce, Ready, Project, RunTransaction, RunTurnOp, Prepare, Admit, Replay, Swept;
    if step.Transact? {
      if w.live && RunTransaction(w.db, step.tx).Success? {
        TransactionFrame(w.db, step.tx);
      }
    } else {
      hide Next;
      var r := StepProjects(w, step);
      if r.Some? {
        ProjectedTurns(w.db, r.value);
        CreatedMore(w.db.turns, Next(w, step).db.turns, w.journal, Next(w, step).journal, r.value);
      }
    }
  }

  lemma {:induction false} CreatedAlways(steps: seq<Step>)
    ensures CreatedOnce(Run(START, steps).db.turns, Run(START, steps).journal)
  {
    hide Inv, Next;
    if steps != [] {
      CreatedAlways(steps[..|steps| - 1]);
      Reachable(steps[..|steps| - 1]);
      StepCreated(Run(START, steps[..|steps| - 1]), steps[|steps| - 1]);
    }
  }

  // ---- logs ----

  lemma {:induction false} InJournal(journal: seq<Entry>, a: AgentId, i: nat) returns (k: nat)
    requires i < |EntriesOf(journal, a)|
    ensures k < |journal| && journal[k].record == EntriesOf(journal, a)[i]
  {
    var n := |journal| - 1;
    if i < |EntriesOf(journal[..n], a)| {
      k := InJournal(journal[..n], a, i);
    } else {
      k := n;
    }
  }

  lemma {:induction false} InEntries(journal: seq<Entry>, k: nat) returns (i: nat)
    requires k < |journal|
    ensures var a := journal[k].record.agentId; i < |EntriesOf(journal, a)| && EntriesOf(journal, a)[i] == journal[k].record
  {
    var n := |journal| - 1;
    if k < n {
      i := InEntries(journal[..n], k);
    } else {
      i := |EntriesOf(journal[..n], journal[k].record.agentId)|;
    }
  }

  lemma SeenIs(w: World, a: AgentId)
    requires Inv(w)
    ensures Projected(w.db, a) <= |LogOf(w, a)| && EntriesOf(w.journal, a) == LogOf(w, a)[..Projected(w.db, a)]
    ensures w.live ==> Projected(w.db, a) == |LogOf(w, a)|
    ensures Projected(w.db, a) < |LogOf(w, a)| ==>
              |LogOf(w, a)| == Projected(w.db, a) + 1 && Ready(w.db, LogOf(w, a)[Projected(w.db, a)])
  {
    hide Lifecycle.Ok, AccountsOk, DeliveryOk, Ready, LogsOk, RowsMatch, EntriesOf, LogOf, Projected;
    assert WaitingOk(w, a);
    assert Projected(w.db, a) <= |LogOf(w, a)|;
    assert EntriesOf(w.journal, a) == Seen(w, a);
  }

  lemma SeenRecord(w: World, a: AgentId, i: nat) returns (k: nat)
    requires Inv(w) && i < |LogOf(w, a)| && (w.live || i < Projected(w.db, a))
    ensures k < |w.journal| && w.journal[k].record == LogOf(w, a)[i]
  {
    hide Inv, LogOf, Projected, Ready;
    SeenIs(w, a);
    k := InJournal(w.journal, a, i);
  }

  /** In an open store the attempt that a Turn was created for shows that Turn, and belongs to
      the Action it belonged to then. */
  lemma AttemptShowsTurn(steps: seq<Step>, a: AgentId, i: nat)
    requires Run(START, steps).live && i < |LogOf(Run(START, steps), a)|
    requires LogOf(Run(START, steps), a)[i].item.TurnCreated?
    ensures var attempts := Run(START, steps).db.attempts; var item := LogOf(Run(START, steps), a)[i].item;
            && item.attempt.id in attempts && attempts[item.attempt.id].turnId == Some(item.turn.id)
            && attempts[item.attempt.id].invocationId == item.attempt.invocationId
  {
    hide Inv, Run, LogOf;
    var w := Run(START, steps);
    Reachable(steps);
    AttachedAlways(steps);
    var k := SeenRecord(w, a, i);
    assert Shown(w.db.attempts, w.journal[k].record);
  }

  /** And an attempt that shows a Turn has a record that created this Turn for it. */
  lemma AttemptHasRecord(steps: seq<Step>, x: AttemptId) returns (a: AgentId, i: nat)
    requires Run(START, steps).live && x in Run(START, steps).db.attempts && Run(START, steps).db.attempts[x].turnId.Some?
    ensures i < |LogOf(Run(START, steps), a)|
    ensures Attaches(LogOf(Run(START, steps), a)[i], x, Run(START, steps).db.attempts[x].turnId.value)
  {
    hide Inv, Run, LogOf, Ready;
    var w := Run(START, steps);
    Reachable(steps);
    AttachedAlways(steps);
    assert Explained(w.db.attempts, w.journal, x);
    var k :| 0 <= k < |w.journal| && Attaches(w.journal[k].record, x, w.db.attempts[x].turnId.value);
    a := w.journal[k].record.agentId;
    SeenIs(w, a);
    i := InEntries(w.journal, k);
  }

  // Two records of a log are never the same record.
  lemma RecordsDiffer(w: World, a: AgentId, i: nat, b: AgentId, j: nat)
    requires Inv(w) && i < |LogOf(w, a)| && j < |LogOf(w, b)| && (a, i) != (b, j)
    ensures LogOf(w, a)[i] != LogOf(w, b)[j]
  {
    hide Lifecycle.Ok, AccountsOk, DeliveryOk, Ready, RowsMatch, JournalMatches, Fitted, Reconstruct, Agree, Rows, BoundsOk, CacheOk;
    assert LogOk(a, w.logs[a]) && LogOk(b, w.logs[b]);
  }

  // An attempt that a waiting record names has no Turn yet, those of earlier records do.
  lemma WaitingDiffers(w: World, a: AgentId, i: nat, b: AgentId, j: nat)
    requires Inv(w) && Attached(w.db.attempts, w.journal)
    requires i < |LogOf(w, a)| && j < |LogOf(w, b)| && i < Projected(w.db, a) && j >= Projected(w.db, b)
    ensures !SameAttempt(LogOf(w, a)[i], LogOf(w, b)[j])
  {
    hide Inv, LogOf, Projected, AcknowledgementsValid;
    SeenIs(w, a);
    SeenIs(w, b);
    var k := SeenRecord(w, a, i);
    assert Shown(w.db.attempts, w.journal[k].record);
  }

  lemma OneWaits(w: World, a: AgentId, i: nat, b: AgentId, j: nat)
    requires Inv(w) && Projected(w.db, a) <= i < |LogOf(w, a)| && Projected(w.db, b) <= j < |LogOf(w, b)|
    ensures (a, i) == (b, j)
  {
    hide Core, Ready, LogOf, Projected;
    assert Waiting(w, a) && Waiting(w, b);
    assert WaitingOk(w, a);
  }

  /** No two records, of whatever logs, create a Turn for the same attempt, in any reachable
      world, open or crashed. */
  lemma AttachedAtMostOnce(steps: seq<Step>, a: AgentId, i: nat, b: AgentId, j: nat)
    requires var w := Run(START, steps); i < |LogOf(w, a)| && j < |LogOf(w, b)| && (a, i) != (b, j)
    ensures var w := Run(START, steps); !SameAttempt(LogOf(w, a)[i], LogOf(w, b)[j])
  {
    hide Inv, Run, LogOf, Projected;
    var w := Run(START, steps);
    Reachable(steps);
    AttachedAlways(steps);
    if i >= Projected(w.db, a) && j >= Projected(w.db, b) {
      OneWaits(w, a, i, b, j);
    } else if i >= Projected(w.db, a) {
      WaitingDiffers(w, b, j, a, i);
    } else if j >= Projected(w.db, b) {
      WaitingDiffers(w, a, i, b, j);
    } else {
      RecordsDiffer(w, a, i, b, j);
      var k := SeenRecord(w, a, i);
      var l := SeenRecord(w, b, j);
      assert k != l;
      assert if k < l then !SameAttempt(w.journal[k].record, w.journal[l].record) else !SameAttempt(w.journal[l].record, w.journal[k].record);
    }
  }
}
