// Whole runs of the store: every step keeps the invariant, so every reachable world
// satisfies it, however often and wherever the process was stopped.
module StoreRuns {
  import opened Wrappers
  import opened Protocol
  import opened Tables
  import opened Lifecycle
  import opened Projection
  import opened TurnLog
  import opened Charges
  import opened StoreMachine
  import opened StoreInvariant
  import opened StoreSteps

  // ---- the other transactions ----

  lemma SessionTransactionKeeps(db: Tables, tx: Transaction)
    requires Ok(db)
    requires tx.NewSession? || tx.NewAgent? || tx.ChangeSession? || tx.Closing? || tx.Closed? || tx.Complete?
             || tx.AddUsage? || tx.Archive?
    ensures Keeps(db, RunTransaction(db, tx))
  {
    hide Ok, Keeps, Advances;
    match tx
    case NewSession(s) => CreateSessionKeeps(db, s);
    case NewAgent(a, s) => CreateAgentKeeps(db, a, s);
    case ChangeSession(s, change) => TransitionSessionKeeps(db, s, change);
    case Closing(s, final, output, error) => BeginClosingKeeps(db, s, final, output, error);
    case Closed(s) => FinishClosingKeeps(db, s);
    case Complete(s, result) => CompleteSessionKeeps(db, s, result);
    case AddUsage(s, delta) => AddSessionUsageKeeps(db, s, delta);
    case Archive(s) => ArchiveSessionKeeps(db, s);
  }

  // Every transaction keeps the tables' invariant and undoes nothing that is final.
  lemma TransactionKeeps(db: Tables, tx: Transaction)
    requires Ok(db)
    ensures Keeps(db, RunTransaction(db, tx))
  {
    hide Ok, Keeps, Advances, CreateHumanRequest, AnswerHumanRequest, InsertInput;
    match tx
    case OpenRequest(r, s, a) => CreateHumanRequestKeeps(db, r, s, a);
    case AnswerRequest(r, answer) => AnswerHumanRequestKeeps(db, r, answer);
    case SendInput(i, input) => InsertInputKeeps(db, i, input);
    case Claim(s, a, v, t) => ClaimInputsKeeps(db, s, a, v, t);
    case Schedule(v, s, a, task, source) => InsertInvocationKeeps(db, v, s, a, task, source);
    case StartAction(v, x) => StartAttemptKeeps(db, v, x);
    case EndAction(v, x, status, output, error) => FinishActionKeeps(db, v, x, status, output, error);
    case CancelAction(v, reason) => CancelPendingKeeps(db, v, reason);
    case _ => SessionTransactionKeeps(db, tx);
  }

  // Sessions keep their usage, and new ones start without any.
  ghost predicate UsageKept(sessions: map<SessionId, Session>, sessions': map<SessionId, Session>) {
    && (forall s :: s in sessions ==> s in sessions' && sessions'[s].usage == sessions[s].usage)
    && (forall s :: s in sessions' && s !in sessions ==> sessions'[s].usage == NO_USAGE)
  }

  ghost predicate OthersKept(db: Tables, db': Tables) {
    db'.turns == db.turns && db'.projected == db.projected
  }

  ghost predicate OneSession(sessions: map<SessionId, Session>, sessions': map<SessionId, Session>, s: SessionId) {
    && (sessions' == sessions || (s in sessions' && sessions' == sessions[s := sessions'[s]]))
    && (s in sessions ==> s in sessions' && sessions'[s].usage == sessions[s].usage)
    && (s in sessions' && s !in sessions ==> sessions'[s].usage == NO_USAGE)
  }

  lemma TransitionFrame(db: Tables, s: SessionId, change: SessionChange)
    requires TransitionSession(db, s, change).Success?
    ensures OthersKept(db, TransitionSession(db, s, change).value)
    ensures OneSession(db.sessions, TransitionSession(db, s, change).value.sessions, s)
  {
    hide AppliedInputs, CancelledRequests;
    if db.sessions[s].status == change.Target() {
      assert TransitionSession(db, s, change).value == db;
    }
  }

  lemma BeginClosingFrame(db: Tables, s: SessionId, final: SessionStatus, output: Option<string>, error: Option<string>)
    requires BeginClosing(db, s, final, output, error).Success?
    ensures OthersKept(db, BeginClosing(db, s, final, output, error).value)
    ensures OneSession(db.sessions, BeginClosing(db, s, final, output, error).value.sessions, s)
  {
    var session := db.sessions[s];
    if session.status.Closing? || session.status.Terminal() {
      assert BeginClosing(db, s, final, output, error).value == db;
    }
  }

  lemma FinishClosingFrame(db: Tables, s: SessionId)
    requires FinishClosing(db, s).Success?
    ensures OthersKept(db, FinishClosing(db, s).value)
    ensures OneSession(db.sessions, FinishClosing(db, s).value.sessions, s)
  {
    hide AppliedInputs, CancelledRequests;
    if db.sessions[s].status.Terminal() {
      assert FinishClosing(db, s).value == db;
    }
  }

  lemma CompleteSessionFrame(db: Tables, s: SessionId, output: string)
    requires CompleteSession(db, s, output).Success?
    ensures OthersKept(db, CompleteSession(db, s, output).value)
    ensures OneSession(db.sessions, CompleteSession(db, s, output).value.sessions, s)
  {
  }

  lemma ArchiveFrame(db: Tables, s: SessionId)
    requires ArchiveSession(db, s).Success?
    ensures OthersKept(db, ArchiveSession(db, s).value)
    ensures OneSession(db.sessions, ArchiveSession(db, s).value.sessions, s)
  {
    if db.sessions[s].archived {
      assert ArchiveSession(db, s).value == db;
    }
  }

  lemma CreateSessionFrame(db: Tables, s: SessionId)
    requires CreateSession(db, s).Success?
    ensures OthersKept(db, CreateSession(db, s).value)
    ensures OneSession(db.sessions, CreateSession(db, s).value.sessions, s)
  {
  }

  lemma SessionFrame(db: Tables, tx: Transaction)
    requires tx.NewSession? || tx.ChangeSession? || tx.Closing? || tx.Closed? || tx.Complete? || tx.Archive?
    requires RunTransaction(db, tx).Success?
    ensures OthersKept(db, RunTransaction(db, tx).value)
    ensures UsageKept(db.sessions, RunTransaction(db, tx).value.sessions)
  {
    hide UsageKept, OneSession, OthersKept, TransitionSession, BeginClosing;
    hide CreateSession, FinishClosing, CompleteSession, ArchiveSession;
    match tx {
      case ChangeSession(s, change) => TransitionFrame(db, s, change);
      case Closing(s, final, output, error) => BeginClosingFrame(db, s, final, output, error);
      case Closed(s) => FinishClosingFrame(db, s);
      case Complete(s, output) => CompleteSessionFrame(db, s, output);
      case Archive(s) => ArchiveFrame(db, s);
      case NewSession(s) => CreateSessionFrame(db, s);
    }
    UsageKeptAt(db.sessions, RunTransaction(db, tx).value.sessions, tx.sessionId);
  }

  // Only one Session row moved, and its counters did not.
  lemma UsageKeptAt(sessions: map<SessionId, Session>, sessions': map<SessionId, Session>, s: SessionId)
    requires OneSession(sessions, sessions', s)
    ensures UsageKept(sessions, sessions')
  {
  }

  lemma OpenRequestFrame(db: Tables, r: RequestId, s: SessionId, a: AgentId)
    requires CreateHumanRequest(db, r, s, a).Success?
    ensures OthersKept(db, CreateHumanRequest(db, r, s, a).value)
    ensures OneSession(db.sessions, CreateHumanRequest(db, r, s, a).value.sessions, s)
  {
  }

  lemma AnswerRequestFrame(db: Tables, r: RequestId, answer: string)
    requires AnswerHumanRequest(db, r, answer).Success?
    ensures r in db.requests && OthersKept(db, AnswerHumanRequest(db, r, answer).value)
    ensures OneSession(db.sessions, AnswerHumanRequest(db, r, answer).value.sessions, db.requests[r].sessionId)
  {
    hide HasOpen;
  }

  lemma AddUsageFrame(db: Tables, s: SessionId, delta: Usage)
    requires AddSessionUsage(db, s, delta).Success?
    ensures OthersKept(db, AddSessionUsage(db, s, delta).value)
  {
    hide SaturatingAdd;
  }

  lemma CreateAgentFrame(db: Tables, a: AgentId, s: SessionId)
    requires CreateAgent(db, a, s).Success?
    ensures OthersKept(db, CreateAgent(db, a, s).value)
    ensures UsageKept(db.sessions, CreateAgent(db, a, s).value.sessions)
  {
  }

  lemma RequestFrame(db: Tables, tx: Transaction)
    requires tx.OpenRequest? || tx.AnswerRequest? || tx.AddUsage? || tx.NewAgent?
    requires RunTransaction(db, tx).Success?
    ensures OthersKept(db, RunTransaction(db, tx).value)
    ensures !tx.AddUsage? ==> UsageKept(db.sessions, RunTransaction(db, tx).value.sessions)
  {
    hide OthersKept, UsageKept, OneSession, CreateHumanRequest, AnswerHumanRequest, AddSessionUsage, CreateAgent;
    match tx
    case OpenRequest(r, s, a) =>
      OpenRequestFrame(db, r, s, a);
      UsageKeptAt(db.sessions, RunTransaction(db, tx).value.sessions, s);
    case AnswerRequest(r, answer) =>
      AnswerRequestFrame(db, r, answer);
      UsageKeptAt(db.sessions, RunTransaction(db, tx).value.sessions, db.requests[r].sessionId);
    case AddUsage(s, delta) => AddUsageFrame(db, s, delta);
    case NewAgent(a, s) => CreateAgentFrame(db, a, s);
  }

  lemma InsertInputFrame(db: Tables, i: InputId, input: AgentInput)
    requires InsertInput(db, i, input).Success?
    ensures OthersKept(db, InsertInput(db, i, input).value) && InsertInput(db, i, input).value.sessions == db.sessions
  {
    hide SenderIsLive;
  }

  lemma ClaimFrame(db: Tables, s: SessionId, a: AgentId, v: Option<InvocationId>, t: TurnId)
    requires ClaimInputs(db, s, a, v, t).Success?
    ensures OthersKept(db, ClaimInputs(db, s, a, v, t).value) && ClaimInputs(db, s, a, v, t).value.sessions == db.sessions
  {
    hide Claimable;
  }

  lemma ScheduleFrame(db: Tables, v: InvocationId, s: SessionId, a: AgentId, task: string, source: Source)
    requires InsertInvocation(db, v, s, a, task, source).Success?
    ensures var db' := InsertInvocation(db, v, s, a, task, source).value; OthersKept(db, db') && db'.sessions == db.sessions
  {
    hide SenderIsLive;
  }

  lemma InputFrame(db: Tables, tx: Transaction)
    requires tx.SendInput? || tx.Claim? || tx.Schedule?
    requires RunTransaction(db, tx).Success?
    ensures OthersKept(db, RunTransaction(db, tx).value) && RunTransaction(db, tx).value.sessions == db.sessions
  {
    hide OthersKept, InsertInput, ClaimInputs, InsertInvocation;
    match tx
    case SendInput(i, input) => InsertInputFrame(db, i, input);
    case Claim(s, a, v, t) => ClaimFrame(db, s, a, v, t);
    case Schedule(v, s, a, task, source) => ScheduleFrame(db, v, s, a, task, source);
  }

  lemma StartAttemptFrame(db: Tables, v: InvocationId, x: AttemptId)
    requires StartAttempt(db, v, x).Success?
    ensures OthersKept(db, StartAttempt(db, v, x).value) && StartAttempt(db, v, x).value.sessions == db.sessions
  {
    hide HasRunning, Numbers, Greatest;
  }

  lemma FinishActionFrame(db: Tables, v: InvocationId, x: AttemptId, status: ActionStatus, output: Option<string>, error: Option<string>)
    requires FinishAction(db, v, x, status, output, error).Success?
    ensures var db' := FinishAction(db, v, x, status, output, error).value;
            OthersKept(db, db') && db'.sessions == db.sessions
  {
    hide ApplyActionInputs;
    if db.invocations[v].status == status && db.attempts[x].status == status {
      assert FinishAction(db, v, x, status, output, error).value == db;
    }
  }

  lemma CancelPendingFrame(db: Tables, v: InvocationId, reason: string)
    requires CancelPending(db, v, reason).Success?
    ensures OthersKept(db, CancelPending(db, v, reason).value) && CancelPending(db, v, reason).value.sessions == db.sessions
  {
    hide ApplyActionInputs;
  }

  lemma ActionFrame(db: Tables, tx: Transaction)
    requires tx.StartAction? || tx.EndAction? || tx.CancelAction?
    requires RunTransaction(db, tx).Success?
    ensures OthersKept(db, RunTransaction(db, tx).value) && RunTransaction(db, tx).value.sessions == db.sessions
  {
    hide StartAttempt, FinishAction, CancelPending;
    match tx
    case StartAction(v, x) => StartAttemptFrame(db, v, x);
    case EndAction(v, x, status, output, error) => FinishActionFrame(db, v, x, status, output, error);
    case CancelAction(v, reason) => CancelPendingFrame(db, v, reason);
  }

  lemma TransactionFrame(db: Tables, tx: Transaction)
    requires RunTransaction(db, tx).Success?
    ensures OthersKept(db, RunTransaction(db, tx).value)
    ensures !tx.AddUsage? ==> UsageKept(db.sessions, RunTransaction(db, tx).value.sessions)
  {
    hide RunTransaction, OthersKept;
    match tx
    case NewSession(_) | ChangeSession(_, _) | Closing(_, _, _, _) | Closed(_) | Complete(_, _) | Archive(_) => SessionFrame(db, tx);
    case OpenRequest(_, _, _) | AnswerRequest(_, _) | AddUsage(_, _) | NewAgent(_, _) => RequestFrame(db, tx);
    case SendInput(_, _) | Claim(_, _, _, _) | Schedule(_, _, _, _, _) => InputFrame(db, tx);
    case _ => ActionFrame(db, tx);
  }

  lemma {:induction false} ChargedNothing(journal: seq<Entry>, s: SessionId, m: Metric)
    requires forall i :: 0 <= i < |journal| ==> journal[i].sessionId != s
    ensures Charged(journal, s, m) == 0
  {
    if journal != [] {
      ChargedNothing(journal[..|journal| - 1], s, m);
    }
  }

  lemma UsageKeptExact(sessions: map<SessionId, Session>, sessions': map<SessionId, Session>,
                       external: map<SessionId, Usage>, journal: seq<Entry>)
    requires UsageOk(sessions, external, journal) && UsageKept(sessions, sessions')
    requires forall i :: 0 <= i < |journal| ==> journal[i].sessionId in sessions
    ensures UsageOk(sessions', external, journal)
  {
    forall s, m ensures UsageExact(sessions', external, journal, s, m) {
      assert UsageExact(sessions, external, journal, s, m);
      if s in sessions' && s !in sessions {
        ChargedNothing(journal, s, m);
      }
    }
  }

  lemma UsageAddedExact(sessions: map<SessionId, Session>, external: map<SessionId, Usage>, journal: seq<Entry>,
                        id: SessionId, delta: Usage)
    requires UsageOk(sessions, external, journal) && id in sessions
    ensures var session := sessions[id].(usage := SaturatingAdd(sessions[id].usage, delta));
            UsageOk(sessions[id := session], AddExternal(external, id, delta), journal)
  {
    var session := sessions[id].(usage := SaturatingAdd(sessions[id].usage, delta));
    var sessions', external' := sessions[id := session], AddExternal(external, id, delta);
    forall s, m ensures UsageExact(sessions', external', journal, s, m) {
      assert UsageExact(sessions, external, journal, s, m);
      if s == id {
        GetAdd(sessions[id].usage, delta, m);
        hide SaturatingAdd, Charged;
        TotalAdded(external, id, delta, m);
        hide Total, AddExternal;
        AddSaturates(Get(sessions[id].usage, m), Total(external, id, m) + Charged(journal, id, m), Get(delta, m), m);
      }
    }
  }

  lemma TotalAdded(external: map<SessionId, Usage>, s: SessionId, delta: Usage, m: Metric)
    ensures Total(AddExternal(external, s, delta), s, m) == Total(external, s, m) + Get(delta, m)
  {
  }

  lemma TransactionUsage(w: World, tx: Transaction)
    requires RunTransaction(w.db, tx).Success?
    requires UsageOk(w.db.sessions, w.external, w.journal) && EntriesKnown(w.db, w.journal)
    ensures var db' := RunTransaction(w.db, tx).value;
            UsageOk(db'.sessions, if tx.AddUsage? then AddExternal(w.external, tx.sessionId, tx.delta) else w.external, w.journal)
  {
    TransactionFrame(w.db, tx);
    hide RunTransaction, UsageOk;
    var db' := RunTransaction(w.db, tx).value;
    if tx.AddUsage? {
      AddUsageIs(w.db, tx);
      UsageAddedExact(w.db.sessions, w.external, w.journal, tx.sessionId, tx.delta);
    } else {
      UsageKeptExact(w.db.sessions, db'.sessions, w.external, w.journal);
    }
  }

  lemma AddUsageIs(db: Tables, tx: Transaction)
    requires tx.AddUsage? && RunTransaction(db, tx).Success?
    ensures tx.sessionId in db.sessions
    ensures RunTransaction(db, tx).value.sessions ==
            db.sessions[tx.sessionId := db.sessions[tx.sessionId].(usage := SaturatingAdd(db.sessions[tx.sessionId].usage, tx.delta))]
  {
  }

  // Tables changed by another transaction still agree with logs and journal.
  lemma OtherTables(w: World, w': World)
    requires Core(w) && Advances(w.db, w'.db) && w' == w.(db := w'.db, external := w'.external)
    requires w'.db.turns == w.db.turns && w'.db.projected == w.db.projected
    requires UsageOk(w'.db.sessions, w'.external, w'.journal) && Ok(w'.db)
    ensures Core(w')
  {
    hide Ok, UsageOk, Ready, LogOk, RowsOf, Rows, AcknowledgedOnce, SessionAdvances;
    forall a ensures LogOf(w', a) == LogOf(w, a) && Projected(w'.db, a) == Projected(w.db, a) {
    }
    assert BoundsOk(w');
    forall a ensures RowsOf(w'.db.turns, a) == Rows(Seen(w', a)) && EntriesOf(w'.journal, a) == Seen(w', a) {
      assert RowsOf(w.db.turns, a) == Rows(Seen(w, a)) && EntriesOf(w.journal, a) == Seen(w, a);
    }
    forall t | t in w'.db.turns && !w'.db.turns[t].status.Terminal() ensures Counted(w'.db, w'.journal, t) {
      assert Counted(w.db, w.journal, t);
    }
    forall i | 0 <= i < |w.journal| ensures AllApplied(w'.db.inputs, Acknowledged(w.journal[i].record.item)) {
      assert AllApplied(w.db.inputs, Acknowledged(w.journal[i].record.item));
    }
  }

  lemma TransactKeeps(w: World, tx: Transaction)
    requires Inv(w)
    ensures Follows(w, Next(w, Transact(tx)))
  {
    hide Ok, ProjectionOk, DeliveryOk, RunTransaction, UsageOk, Ready, Advances, LogOk, UsageKept, EntriesKnown,
         AddExternal, RunTurnOp, Stopped, Prepare, Admit, Touched, Appended, NextRecord, Swept, Or, Replay,
         JournalOk, LiveTurnsCounted;
    ReflexiveAt(w);
    if w.live && RunTransaction(w.db, tx).Success? {
      var w' := Next(w, Transact(tx));
      TransactionKeeps(w.db, tx);
      TransactionFrame(w.db, tx);
      TransactionUsage(w, tx);
      OtherTables(w, w');
      forall a ensures !Waiting(w', a) {
        assert WaitingOk(w, a);
      }
    }
  }

  // ---- opening the store ----

  // Sweeping finds nothing to do: terminal Sessions never had waiting work left.
  lemma SweepFindsNothing(db: Tables)
    requires InputsQuiet(db.sessions, db.inputs) && RequestsQuiet(db.sessions, db.requests)
    ensures Swept(db) == db
  {
    assert Swept(db).inputs == db.inputs;
    assert Swept(db).requests == db.requests;
  }

  lemma QuietIn(w: World)
    requires Inv(w)
    ensures InputsQuiet(w.db.sessions, w.db.inputs) && RequestsQuiet(w.db.sessions, w.db.requests)
  {
  }

  // A store opens only after its one unfinished record, if any, has been projected.
  lemma OpenedKeeps(w: World)
    requires Inv(w)
    ensures Follows(w, Next(w, Opened))
  {
    hide Ok, AccountsOk, DeliveryOk, Ready, Advances, Projected, RunTurnOp, RunTransaction, AddExternal, Stopped,
         Prepare, Admit, Swept, Or, Replay, LogsOk, RowsMatch, JournalMatches;
    ReflexiveAt(w);
    CacheIn(w);
    hide Ok, ProjectionOk, AccountsOk, DeliveryOk, Ready, Advances;
    if forall a :: a in w.logs ==> a in w.cache {
      forall a ensures !Waiting(w, a) {
        assert WaitingOk(w, a);
      }
      SettledInv(w, w.cache, true);
    }
  }

  lemma ReplayOneKeeps(w: World, a: AgentId)
    requires Inv(w)
    ensures Follows(w, Next(w, ReplayOne(a)))
  {
    hide Inv, Replay, Advances, Replays, Waiting, RunTurnOp, RunTransaction, AddExternal, Stopped, Prepare;
    ReflexiveAt(w);
    ReplayKeeps(w, a);
  }

  // ---- every step, every run ----

  /** Whatever the step, the invariant holds afterwards, nothing final has changed, and
      no log has lost a record. */
  lemma NextKeeps(w: World, step: Step)
    requires Inv(w)
    ensures Follows(w, Next(w, step))
  {
    hide Inv, Advances, RunTurnOp, RunTransaction, Prepare, Admit, Replay;
    ReflexiveAt(w);
    match step
    case Do(op) => if w.live { TurnOpKeeps(w, op); }
    case Transact(tx) => TransactKeeps(w, tx);
    case Crash => StopKeeps(w);
    case CrashInside(op, durable) => CrashInsideKeeps(w, op, durable);
    case Reconcile => QuietIn(w); SweepFindsNothing(w.db);
    case ReplayOne(a) => ReplayOneKeeps(w, a);
    case Opened => OpenedKeeps(w);
  }

  lemma StartInv()
    ensures Inv(START)
  {
    hide Ready, SessionOk, Terminal, HasOpen, InputOk, HasRunning, LogOk, EntryOk, EntryKnown, Counted, AllApplied,
         Acknowledged, Get, Min, Limit;
    assert forall a :: Seen(START, a) == [];
  }

  lemma FollowsTransitive(w: World, w': World, w'': World)
    requires Inv(w) && Follows(w, w') && Follows(w', w'')
    ensures Follows(w, w'')
  {
    hide Inv, Advances, SessionsOk;
    SessionsIn(w);
    SessionsIn(w');
    AdvancesTransitive(w.db, w'.db, w''.db);
    forall a ensures LogOf(w, a) <= LogOf(w'', a) {
      assert LogOf(w, a) <= LogOf(w', a) <= LogOf(w'', a);
    }
  }

  lemma SessionsIn(w: World)
    requires Inv(w)
    ensures SessionsOk(w.db.sessions)
  {
  }

  lemma {:induction false} RunKeeps(w: World, steps: seq<Step>)
    requires Inv(w)
    ensures Follows(w, Run(w, steps))
  {
    hide Inv, Advances, Next;
    if steps == [] {
      ReflexiveAt(w);
    } else {
      var n := |steps| - 1;
      RunKeeps(w, steps[..n]);
      NextKeeps(Run(w, steps[..n]), steps[n]);
      FollowsTransitive(w, Run(w, steps[..n]), Run(w, steps));
    }
  }

  // Every world a run from an empty store can reach satisfies the invariant.
  lemma Reachable(steps: seq<Step>)
    ensures Inv(Run(START, steps))
  {
    hide Inv, Run, Advances, LogsExtend;
    StartInv();
    RunKeeps(START, steps);
  }
}
