// When a Session may ask for attention. The flag should mean that a human request is
// open; one run of the store breaks that, and this module says exactly which step.
module Attention {
  import opened Wrappers
  import opened Protocol
  import opened Tables
  import opened Lifecycle
  import opened StoreMachine
  import opened StoreInvariant
  import opened StoreRuns

  ghost predicate AttentionHolds(db: Tables, s: SessionId) {
    s in db.sessions && db.sessions[s].attention ==> HasOpen(db.requests, s)
  }

  // The step that can break it: a Closing Session that asks for attention is finished,
  // which cancels its requests and leaves the flag.
  ghost predicate Breaks(db: Tables, tx: Transaction, s: SessionId) {
    && tx == Closed(s) && s in db.sessions
    && db.sessions[s].status.Closing? && db.sessions[s].attention
  }

  // ---- Turn operations and replays leave Sessions alone, except for their usage ----

  ghost predicate OnlyUsage(db: Tables, db': Tables) {
    && db'.requests == db.requests && db'.sessions.Keys == db.sessions.Keys
    && forall s :: s in db.sessions ==> db'.sessions[s] == db.sessions[s].(usage := db'.sessions[s].usage)
  }

  lemma ProjectOnlyUsage(db: Tables, r: Record)
    requires Project(db, r).Success?
    ensures OnlyUsage(db, Project(db, r).value)
  {
    hide Acknowledge, Release, SaturatingAdd, SaturatingSub, Checkpointed, OnlyUsage, Terminal;
    var next := Project(db, r).value;
    match r.item
    case TurnCreated(_, _) => SameSessions(db, next);
    case TurnUpdated(_, _) => SameSessions(db, next);
    case ContextCheckpoint(turnId, _, _, _, _, _) =>
      var s := db.agents[db.turns[turnId].agentId];
      OneUsage(db, next, s);
  }

  lemma SameSessions(db: Tables, next: Tables)
    requires next.sessions == db.sessions && next.requests == db.requests
    ensures OnlyUsage(db, next)
  {
  }

  lemma OneUsage(db: Tables, next: Tables, s: SessionId)
    requires s in db.sessions && s in next.sessions && next.requests == db.requests
    requires next.sessions == db.sessions[s := db.sessions[s].(usage := next.sessions[s].usage)]
    ensures OnlyUsage(db, next)
  {
  }

  lemma {:induction false} ProjectAllOnlyUsage(w: World, records: seq<Record>)
    requires ProjectAll(w, records).Success?
    ensures OnlyUsage(w.db, ProjectAll(w, records).value.db)
    decreases |records|
  {
    hide Project;
    if records != [] {
      ProjectOnlyUsage(w.db, records[0]);
      ProjectAllOnlyUsage(ProjectOne(w, records[0]).value, records[1..]);
    }
  }

  lemma ReplayOnlyUsage(w: World, a: AgentId)
    ensures OnlyUsage(w.db, Or(Replay(w, a), w).db)
  {
    hide ProjectAll;
    if Projected(w.db, a) <= |LogOf(w, a)| && ProjectAll(w, LogOf(w, a)[Projected(w.db, a)..]).Success? {
      ProjectAllOnlyUsage(w, LogOf(w, a)[Projected(w.db, a)..]);
    }
  }

  lemma OnlyUsageTransitive(a: Tables, b: Tables, c: Tables)
    requires OnlyUsage(a, b) && OnlyUsage(b, c)
    ensures OnlyUsage(a, c)
  {
  }

  lemma CommitOnlyUsage(w: World, a: AgentId, item: RolloutItem)
    ensures OnlyUsage(w.db, Or(Commit(w, a, item), w).db)
  {
    hide Replay, Project, AcknowledgementsValid, OnlyUsage;
    ReplayOnlyUsage(w, a);
    SameTables(w.db);
    if Admit(w, a, item).Success? {
      var ready := Admit(w, a, item).value;
      var r := NextRecord(ready, a, item);
      var durable := Appended(ready, r);
      if ProjectOne(durable, r).Success? {
        ProjectOnlyUsage(ready.db, r);
        OnlyUsageTransitive(w.db, ready.db, Project(ready.db, r).value);
        SequenceOnly(w.db, Project(ready.db, r).value, a, r.sequence);
      } else {
        ReplayOnlyUsage(durable, a);
        OnlyUsageTransitive(w.db, ready.db, Or(Replay(durable, a), durable).db);
      }
    }
  }

  lemma SameTables(db: Tables)
    ensures OnlyUsage(db, db)
  {
  }

  lemma SequenceOnly(db: Tables, db': Tables, a: AgentId, n: nat)
    requires OnlyUsage(db, db')
    ensures OnlyUsage(db, SetProjected(db', a, n))
  {
  }

  lemma TurnOpOnlyUsage(w: World, op: TurnOp)
    ensures OnlyUsage(w.db, RunTurnOp(w, op).db)
  {
    hide Replay, Plan, Commit, OnlyUsage;
    SameTables(w.db);
    if AgentOf(w.db, op).Success? {
      ReplayOnlyUsage(w, AgentOf(w.db, op).value);
      if Prepare(w, op).Success? {
        var p := Prepare(w, op).value;
        CommitOnlyUsage(p.world, p.agentId, p.item);
        OnlyUsageTransitive(w.db, p.world.db, RunTurnOp(w, op).db);
      }
    }
  }

  lemma CrashOnlyUsage(w: World, op: TurnOp, durable: bool)
    ensures OnlyUsage(w.db, Next(w, CrashInside(op, durable)).db)
  {
    hide Replay, Plan, AcknowledgementsValid, OnlyUsage, RunTurnOp, RunTransaction, AddExternal, Swept, LogOf;
    SameTables(w.db);
    if AgentOf(w.db, op).Success? {
      ReplayOnlyUsage(w, AgentOf(w.db, op).value);
      if Prepare(w, op).Success? {
        var p := Prepare(w, op).value;
        ReplayOnlyUsage(p.world, p.agentId);
        if Replay(p.world, p.agentId).Success? {
          OnlyUsageTransitive(w.db, p.world.db, Replay(p.world, p.agentId).value.db);
        }
      }
    }
  }

  lemma OtherStepsOnlyUsage(w: World, step: Step)
    requires Inv(w) && !step.Transact?
    ensures OnlyUsage(w.db, Next(w, step).db)
  {
    hide Inv, RunTurnOp, Replay, OnlyUsage, Prepare, Admit;
    SameTables(w.db);
    match step
    case Do(op) => TurnOpOnlyUsage(w, op);
    case CrashInside(op, durable) => CrashOnlyUsage(w, op, durable);
    case ReplayOne(a) => ReplayOnlyUsage(w, a);
    case Reconcile => QuietIn(w); SweepFindsNothing(w.db);
    case Crash =>
    case Opened =>
  }

  lemma OnlyUsageHolds(db: Tables, db': Tables, s: SessionId)
    requires OnlyUsage(db, db') && AttentionHolds(db, s)
    ensures AttentionHolds(db', s)
  {
  }

  // ---- the other transactions ----

  // The flag of a Session that is terminal after a transaction was set before it.
  ghost predicate FlagKept(db: Tables, tx: Transaction, db': Tables, s: SessionId) {
    s in db'.sessions && db'.sessions[s].status.Terminal() ==>
      && s in db.sessions
      && db'.sessions[s].attention == (db.sessions[s].attention && (db.sessions[s].status.Terminal() || Breaks(db, tx, s)))
  }

  lemma ClosingFlag(db: Tables, tx: Transaction, s: SessionId)
    requires tx.Closing? && RunTransaction(db, tx).Success?
    ensures FlagKept(db, tx, RunTransaction(db, tx).value, s)
  {
    var session := db.sessions[tx.sessionId];
    if session.status.Closing? || session.status.Terminal() {
      assert RunTransaction(db, tx).value == db;
    }
  }

  lemma EndingFlag(db: Tables, tx: Transaction, s: SessionId)
    requires tx.Closed? && RunTransaction(db, tx).Success?
    ensures FlagKept(db, tx, RunTransaction(db, tx).value, s)
  {
    hide AppliedInputs, CancelledRequests;
    if db.sessions[tx.sessionId].status.Terminal() {
      assert RunTransaction(db, tx).value == db;
    }
  }

  lemma CompletingFlag(db: Tables, tx: Transaction, s: SessionId)
    requires tx.Complete? && RunTransaction(db, tx).Success?
    ensures FlagKept(db, tx, RunTransaction(db, tx).value, s)
  {
    hide AppliedInputs, CancelledRequests;
  }

  lemma ChangeFlag(db: Tables, tx: Transaction, s: SessionId)
    requires tx.ChangeSession? && RunTransaction(db, tx).Success?
    ensures FlagKept(db, tx, RunTransaction(db, tx).value, s)
  {
    hide AppliedInputs, CancelledRequests, CreateSession, CreateAgent, BeginClosing, FinishClosing, CompleteSession,
         AddSessionUsage, ArchiveSession, CreateHumanRequest, AnswerHumanRequest, InsertInput, ClaimInputs,
         InsertInvocation, StartAttempt;
  }

  lemma SessionFlag(db: Tables, tx: Transaction, s: SessionId)
    requires tx.NewSession? || tx.Archive?
    requires RunTransaction(db, tx).Success?
    ensures FlagKept(db, tx, RunTransaction(db, tx).value, s)
  {
    if tx.Archive? && db.sessions[tx.sessionId].archived {
      assert RunTransaction(db, tx).value == db;
    }
  }

  lemma OtherFlag(db: Tables, tx: Transaction, s: SessionId)
    requires tx.AddUsage? || tx.NewAgent?
    requires RunTransaction(db, tx).Success?
    ensures FlagKept(db, tx, RunTransaction(db, tx).value, s)
  {
    hide SaturatingAdd;
  }

  // A terminal Session has no open request to answer and takes no new one.
  lemma RequestFlag(db: Tables, tx: Transaction, s: SessionId)
    requires tx.OpenRequest? || tx.AnswerRequest?
    requires RequestsQuiet(db.sessions, db.requests) && RunTransaction(db, tx).Success?
    ensures FlagKept(db, tx, RunTransaction(db, tx).value, s)
  {
    hide HasOpen;
  }

  lemma TransactionFlag(db: Tables, tx: Transaction, s: SessionId)
    requires RequestsQuiet(db.sessions, db.requests) && RunTransaction(db, tx).Success?
    ensures FlagKept(db, tx, RunTransaction(db, tx).value, s)
  {
    hide RunTransaction, RequestsQuiet;
    match tx
    case Closing(_, _, _, _) => ClosingFlag(db, tx, s);
    case Closed(_) => EndingFlag(db, tx, s);
    case Complete(_, _) => CompletingFlag(db, tx, s);
    case ChangeSession(_, _) => ChangeFlag(db, tx, s);
    case NewSession(_) | Archive(_) => SessionFlag(db, tx, s);
    case AddUsage(_, _) | NewAgent(_, _) => OtherFlag(db, tx, s);
    case OpenRequest(_, _, _) | AnswerRequest(_, _) => RequestFlag(db, tx, s);
    case SendInput(_, _) | Claim(_, _, _, _) | Schedule(_, _, _, _, _) => InputFrame(db, tx);
    case _ => ActionFrame(db, tx);
  }

  lemma OkFlags(db: Tables, s: SessionId)
    requires Ok(db)
    ensures RequestsQuiet(db.sessions, db.requests)
    ensures s in db.sessions && !db.sessions[s].status.Terminal() ==> AttentionHolds(db, s)
    ensures s in db.sessions && db.sessions[s].status.Terminal() ==> !HasOpen(db.requests, s)
  {
  }

  lemma BreakingSucceeds(db: Tables, tx: Transaction, s: SessionId)
    requires Ok(db) && Breaks(db, tx, s)
    ensures RunTransaction(db, tx).Success?
    ensures s in RunTransaction(db, tx).value.sessions && RunTransaction(db, tx).value.sessions[s].status.Terminal()
  {
    hide Terminalize;
    assert SessionOk(db.sessions[s]);
  }

  lemma TransactionAttention(db: Tables, tx: Transaction, s: SessionId)
    requires Ok(db) && AttentionHolds(db, s) && RunTransaction(db, tx).Success?
    ensures AttentionHolds(RunTransaction(db, tx).value, s) <==> !Breaks(db, tx, s)
  {
    hide Ok, RunTransaction, Advances, HasOpen, RequestsQuiet;
    OkFlags(db, s);
    TransactionKeeps(db, tx);
    OkFlags(RunTransaction(db, tx).value, s);
    TransactionFlag(db, tx, s);
    if Breaks(db, tx, s) {
      BreakingSucceeds(db, tx, s);
    }
  }

  lemma OkIn(w: World)
    requires Inv(w)
    ensures Ok(w.db)
  {
  }

  /** Any step, from any reachable world: a Session whose flag was justified keeps it
      justified exactly when the step is not the finishing of a Closing Session whose
      flag is set. */
  lemma StepAttention(w: World, step: Step, s: SessionId)
    requires Inv(w) && AttentionHolds(w.db, s)
    ensures AttentionHolds(Next(w, step).db, s) <==> !(w.live && step.Transact? && Breaks(w.db, step.tx, s))
  {
    hide Inv, Ok, AttentionHolds, RunTransaction, OnlyUsage;
    OkIn(w);
    if step.Transact? {
      if w.live && RunTransaction(w.db, step.tx).Success? {
        TransactionAttention(w.db, step.tx, s);
      } else if Breaks(w.db, step.tx, s) {
        BreakingSucceeds(w.db, step.tx, s);
      }
    } else {
      hide Next;
      OtherStepsOnlyUsage(w, step);
      OnlyUsageHolds(w.db, Next(w, step).db, s);
    }
  }

  // ---- a run that breaks it ----

  // Two requests are asked of a paused Session; one is answered after it starts to
  // close, which sets the flag again; closing then cancels the other one.
  const BREAKING: seq<Transaction> :=
    [NewSession(0), ChangeSession(0, Start), NewAgent(1, 0), ChangeSession(0, Pause), OpenRequest(2, 0, 1), OpenRequest(3, 0, 1),
     Transaction.Closing(0, SessionStatus.Cancelled, None, None), AnswerRequest(2, "yes"), Closed(0)]

  function Steps(txs: seq<Transaction>): seq<Step> {
    seq(|txs|, i requires 0 <= i < |txs| => Transact(txs[i]))
  }

  function RunAll(db: Tables, txs: seq<Transaction>): Tables {
    if txs == [] then db else
      var earlier := RunAll(db, txs[..|txs| - 1]);
      var r := RunTransaction(earlier, txs[|txs| - 1]);
      if r.Success? then r.value else earlier
  }

  lemma {:induction false} RunOfTransactions(txs: seq<Transaction>)
    ensures Run(START, Steps(txs)).live && Run(START, Steps(txs)).db == RunAll(EMPTY, txs)
  {
    hide RunTransaction;
    if txs != [] {
      var n := |txs| - 1;
      assert Steps(txs)[..n] == Steps(txs[..n]);
      RunOfTransactions(txs[..n]);
    }
  }

  lemma Extend(txs: seq<Transaction>, db: Tables, tx: Transaction, db': Tables)
    requires RunAll(EMPTY, txs) == db && RunTransaction(db, tx) == Success(db')
    ensures RunAll(EMPTY, txs + [tx]) == db'
  {
    hide RunTransaction;
    assert (txs + [tx])[..|txs|] == txs;
  }

  // The tables of one Session with one Agent.
  function Showing(session: Session, requests: map<RequestId, HumanRequest>): Tables {
    EMPTY.(agents := map[1 := 0], sessions := map[0 := session], requests := requests)
  }

  const ROW := Session(SessionStatus.Running, None, None, None, false, NO_USAGE, false)
  const PAUSED := ROW.(status := SessionStatus.Paused)
  const CLOSING := ROW.(status := SessionStatus.Closing, closing := Some(SessionStatus.Cancelled))
  const ASKED := HumanRequest(0, 1, Open, None)
  const ANSWERED := HumanRequest(0, 1, Answered, Some("yes"))

  lemma Rewritten<V>(x: V, y: V)
    ensures map[0 := x][0 := y] == map[0 := y]
  {
  }

  lemma Preparing()
    ensures RunAll(EMPTY, BREAKING[..4]) == Showing(PAUSED, map[])
  {
    hide RunAll;
    var created := EMPTY.(sessions := map[0 := ROW.(status := SessionStatus.Created)]);
    var started := EMPTY.(sessions := map[0 := ROW]);
    NoTransactions();
    Extend([], EMPTY, NewSession(0), created);
    Rewritten(created.sessions[0], ROW);
    Extend([] + [NewSession(0)], created, ChangeSession(0, Start), started);
    Extend([] + [NewSession(0)] + [ChangeSession(0, Start)], started, NewAgent(1, 0), Showing(ROW, map[]));
    assert BREAKING[..3] == [] + [NewSession(0)] + [ChangeSession(0, Start)] + [NewAgent(1, 0)];
    Rewritten(ROW, PAUSED);
    Extend(BREAKING[..3], Showing(ROW, map[]), ChangeSession(0, Pause), Showing(PAUSED, map[]));
    assert BREAKING[..3] + [ChangeSession(0, Pause)] == BREAKING[..4];
  }

  lemma NoTransactions()
    ensures RunAll(EMPTY, []) == EMPTY
  {
  }

  lemma Asks(session: Session, requests: map<RequestId, HumanRequest>, r: RequestId)
    requires session.status.Paused? && r !in requests
    ensures RunTransaction(Showing(session, requests), OpenRequest(r, 0, 1)) ==
            Success(Showing(session.(attention := true), requests[r := ASKED]))
  {
    Rewritten(session, session.(attention := true));
    assert session.(status := SessionStatus.Paused) == session;
  }

  lemma Asking()
    ensures RunAll(EMPTY, BREAKING[..6]) == Showing(PAUSED.(attention := true), map[2 := ASKED, 3 := ASKED])
  {
    hide RunAll, RunTransaction;
    Preparing();
    Asks(PAUSED, map[], 2);
    assert map[][2 := ASKED] == map[2 := ASKED];
    Asks(PAUSED.(attention := true), map[2 := ASKED], 3);
    Extend(BREAKING[..4], Showing(PAUSED, map[]), OpenRequest(2, 0, 1), Showing(PAUSED.(attention := true), map[2 := ASKED]));
    assert BREAKING[..4] + [OpenRequest(2, 0, 1)] == BREAKING[..5];
    assert map[2 := ASKED][3 := ASKED] == map[2 := ASKED, 3 := ASKED];
    Extend(BREAKING[..5], Showing(PAUSED.(attention := true), map[2 := ASKED]), OpenRequest(3, 0, 1),
           Showing(PAUSED.(attention := true), map[2 := ASKED, 3 := ASKED]));
    assert BREAKING[..5] + [OpenRequest(3, 0, 1)] == BREAKING[..6];
  }

  lemma StartingToClose()
    ensures RunAll(EMPTY, BREAKING[..7]) == Showing(CLOSING, map[2 := ASKED, 3 := ASKED])
  {
    hide RunAll, CreateSession, CreateAgent, TransitionSession, FinishClosing, CompleteSession, AddSessionUsage,
         ArchiveSession, CreateHumanRequest, AnswerHumanRequest, InsertInput, ClaimInputs, InsertInvocation,
         StartAttempt, FinishAction;
    Asking();
    hide RunAll;
    var requests := map[2 := ASKED, 3 := ASKED];
    Rewritten(PAUSED.(attention := true), CLOSING);
    Extend(BREAKING[..6], Showing(PAUSED.(attention := true), requests), BREAKING[6], Showing(CLOSING, requests));
    assert BREAKING[..6] + [BREAKING[6]] == BREAKING[..7];
  }

  lemma Answering()
    ensures RunAll(EMPTY, BREAKING[..8]) == Showing(CLOSING.(attention := true), map[2 := ANSWERED, 3 := ASKED])
  {
    hide RunAll, CreateSession, CreateAgent, TransitionSession, BeginClosing, FinishClosing, CompleteSession,
         AddSessionUsage, ArchiveSession, CreateHumanRequest, InsertInput, ClaimInputs, InsertInvocation,
         StartAttempt, FinishAction;
    StartingToClose();
    hide RunAll;
    var requests := map[2 := ASKED, 3 := ASKED];
    var answered := map[2 := ANSWERED, 3 := ASKED];
    assert requests[2 := ANSWERED] == answered;
    assert 3 in answered && answered[3].sessionId == 0 && answered[3].status == Open;
    Rewritten(CLOSING, CLOSING.(attention := true));
    Extend(BREAKING[..7], Showing(CLOSING, requests), AnswerRequest(2, "yes"), Showing(CLOSING.(attention := true), answered));
    assert BREAKING[..7] + [AnswerRequest(2, "yes")] == BREAKING[..8];
  }

  lemma Finishing()
    ensures var sessions := RunAll(EMPTY, BREAKING).sessions;
            0 in sessions && sessions[0].status.Terminal() && sessions[0].attention
  {
    hide RunTransaction;
    Answering();
    assert BREAKING[..|BREAKING| - 1] == BREAKING[..8];
    Ends(CLOSING.(attention := true), map[2 := ANSWERED, 3 := ASKED]);
  }

  lemma Ends(session: Session, requests: map<RequestId, HumanRequest>)
    requires session.status.Closing? && session.closing.Some? && session.closing.value.Terminal()
    ensures var r := RunTransaction(Showing(session, requests), Closed(0));
            && r.Success? && 0 in r.value.sessions
            && r.value.sessions[0] == session.(status := session.closing.value, closing := None)
  {
    hide AppliedInputs, CancelledRequests;
  }

  // A terminal Session that asks for attention although no request is open.
  lemma AttentionOutlivesRequests()
    ensures var db := Run(START, Steps(BREAKING)).db;
            0 in db.sessions && db.sessions[0].status.Terminal() && db.sessions[0].attention && !HasOpen(db.requests, 0)
  {
    RunOfTransactions(BREAKING);
    Finishing();
    hide Inv, Ok, RequestsQuiet, RunAll, Run, HasOpen;
    Reachable(Steps(BREAKING));
    OkIn(Run(START, Steps(BREAKING)));
    OkFlags(Run(START, Steps(BREAKING)).db, 0);
  }
}
