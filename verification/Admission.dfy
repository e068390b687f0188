// Which rows may be added to the tables, and what an addition leaves.
module Admission {
  import opened Wrappers
  import opened Protocol
  import opened Tables
  import opened StoreMachine
  import opened Attachments
  import opened Outcomes
  import Database

  ghost predicate Over(status: SessionStatus) {
    status.Completed? || status.Failed? || status.Cancelled?
  }

  lemma OverIsTerminal(status: SessionStatus)
    ensures Over(status) <==> status.Terminal()
  {
  }

  // ---- Sessions and Agents ----

  /** A Session begins with nothing: not started, no outcome, no usage. */
  lemma NewSessionIs(db: Tables, s: SessionId)
    ensures var r := RunTransaction(db, NewSession(s));
            && (r.Success? <==> s !in db.sessions)
            && (r.Success? ==>
                  r.value == db.(sessions := db.sessions[s :=
                    Session(SessionStatus.Created, None, None, None, false, Usage(0, 0, 0, 0, 0), false)]))
  {
    hide CreateAgent, TransitionSession, BeginClosing, FinishClosing, CompleteSession, AddSessionUsage, ArchiveSession,
         CreateHumanRequest, AnswerHumanRequest, InsertInput, ClaimInputs, InsertInvocation, StartAttempt, FinishAction, CancelPending;
  }

  /** An Agent joins a running Session, and stays with it. */
  lemma NewAgentIs(db: Tables, a: AgentId, s: SessionId)
    ensures var r := RunTransaction(db, NewAgent(a, s));
            && (r.Success? <==> a !in db.agents && s in db.sessions && db.sessions[s].status.Running?)
            && (r.Success? ==> r.value == db.(agents := db.agents[a := s]))
  {
    Database.RunsNewAgent(db, a, s);
    hide RunTransaction;
  }

  /** Only a Session that is over can be archived; nothing else about it changes. */
  lemma ArchiveIs(db: Tables, s: SessionId)
    ensures var r := RunTransaction(db, Archive(s));
            && (r.Success? <==> s in db.sessions && (db.sessions[s].archived || Over(db.sessions[s].status)))
            && (r.Success? ==>
                  && OnlySession(db, r.value, s) && r.value == db.(sessions := r.value.sessions)
                  && r.value.sessions[s] == db.sessions[s].(archived := true))
  {
    hide CreateSession, CreateAgent, TransitionSession, BeginClosing, FinishClosing, CompleteSession, AddSessionUsage,
         CreateHumanRequest, AnswerHumanRequest, InsertInput, ClaimInputs, InsertInvocation, StartAttempt, FinishAction, CancelPending,
         Over, SessionStatus.Terminal;
    if s in db.sessions {
      OverIsTerminal(db.sessions[s].status);
      if db.sessions[s].archived {
        assert db.sessions[s].(archived := true) == db.sessions[s];
      }
    }
  }

  /** Reported usage is added to the Session's counters, and nothing else changes. */
  lemma UsageIs(db: Tables, s: SessionId, delta: Usage)
    ensures var r := RunTransaction(db, AddUsage(s, delta));
            && (r.Success? <==> s in db.sessions)
            && (r.Success? ==>
                  r.value == db.(sessions := db.sessions[s := db.sessions[s].(usage := SaturatingAdd(db.sessions[s].usage, delta))]))
  {
    hide SaturatingAdd, CreateSession, CreateAgent, TransitionSession, BeginClosing, FinishClosing, CompleteSession, ArchiveSession,
         CreateHumanRequest, AnswerHumanRequest, InsertInput, ClaimInputs, InsertInvocation, StartAttempt, FinishAction, CancelPending;
  }

  lemma LiveOrOver(status: SessionStatus)
    ensures Live(status) <==> !status.Closing? && !Over(status)
    ensures status.Closing? ==> !Over(status)
  {
  }

  lemma ClosingMissing(db: Tables, s: SessionId, final: SessionStatus, output: Option<string>, error: Option<string>)
    requires s !in db.sessions
    ensures BeginClosing(db, s, final, output, error).Failure?
  {
  }

  lemma ClosingLive(db: Tables, s: SessionId, final: SessionStatus, output: Option<string>, error: Option<string>)
    requires s in db.sessions && Live(db.sessions[s].status)
    ensures var r := BeginClosing(db, s, final, output, error);
            && (r.Success? <==> Over(final) && (final.Completed? <==> output.Some?))
            && (r.Success? ==>
                  && OnlySession(db, r.value, s) && r.value == db.(sessions := r.value.sessions)
                  && r.value.sessions[s] == db.sessions[s].(status := SessionStatus.Closing, closing := Some(final), output := output,
                                                            error := error, attention := false))
  {
    hide Over, SessionStatus.Terminal, Live;
    OverIsTerminal(final);
    OverIsTerminal(db.sessions[s].status);
    LiveOrOver(db.sessions[s].status);
  }

  lemma ClosingAgain(db: Tables, s: SessionId, final: SessionStatus, output: Option<string>, error: Option<string>)
    requires s in db.sessions && db.sessions[s].status.Closing?
    ensures var r, x := BeginClosing(db, s, final, output, error), db.sessions[s];
            r == (if final.Terminal() && final.Completed? == output.Some? && x.closing == Some(final) && x.output == output && x.error == error
                  then Success(db) else Failure(if r.Failure? then r.reason else ""))
  {
    hide SessionStatus.Terminal, SetSession;
  }

  lemma ClosingEnded(db: Tables, s: SessionId, final: SessionStatus, output: Option<string>, error: Option<string>)
    requires s in db.sessions && !db.sessions[s].status.Closing? && db.sessions[s].status.Terminal()
    ensures var r, x := BeginClosing(db, s, final, output, error), db.sessions[s];
            r == (if final.Terminal() && final.Completed? == output.Some? && x.status == final && x.output == output && x.error == error
                  then Success(db) else Failure(if r.Failure? then r.reason else ""))
  {
    hide SessionStatus.Terminal, SetSession;
  }

  lemma ClosingLate(db: Tables, s: SessionId, final: SessionStatus, output: Option<string>, error: Option<string>)
    requires s in db.sessions && !Live(db.sessions[s].status)
    ensures var r := BeginClosing(db, s, final, output, error);
            && (r.Success? <==> Over(final) && (final.Completed? <==> output.Some?) && Promised(db.sessions[s], final, output, error))
            && (r.Success? ==> r.value == db)
  {
    hide BeginClosing;
    if db.sessions[s].status.Closing? {
      ClosingAgain(db, s, final, output, error);
    } else {
      ClosingEnded(db, s, final, output, error);
    }
  }

  /** A Session can be told to close as long as it is not over, once, with a final status that
      carries an output exactly if it is a completion; to say the same again changes nothing. */
  lemma ClosingIs(db: Tables, s: SessionId, final: SessionStatus, output: Option<string>, error: Option<string>)
    ensures var r := RunTransaction(db, Transaction.Closing(s, final, output, error));
            && (r.Success? <==>
                  && Over(final) && (final.Completed? <==> output.Some?) && s in db.sessions
                  && (Live(db.sessions[s].status) || Promised(db.sessions[s], final, output, error)))
            && (r.Success? && Live(db.sessions[s].status) ==>
                  && OnlySession(db, r.value, s) && r.value == db.(sessions := r.value.sessions)
                  && r.value.sessions[s] == db.sessions[s].(status := SessionStatus.Closing, closing := Some(final), output := output,
                                                            error := error, attention := false))
            && (r.Success? && !Live(db.sessions[s].status) ==> r.value == db)
  {
    Database.RunsClosing(db, s, final, output, error);
    hide RunTransaction, BeginClosing, Over, Live, OnlySession, Promised;
    if s !in db.sessions {
      ClosingMissing(db, s, final, output, error);
    } else if Live(db.sessions[s].status) {
      ClosingLive(db, s, final, output, error);
    } else {
      ClosingLate(db, s, final, output, error);
    }
  }

  /** A Closing Session ends as it was told to; one that is over stays as it is. */
  lemma ClosedIs(db: Tables, s: SessionId)
    ensures var r := RunTransaction(db, Closed(s));
            && (r.Success? <==>
                  && s in db.sessions
                  && (Over(db.sessions[s].status)
                      || (db.sessions[s].status.Closing? && db.sessions[s].closing.Some? && Over(db.sessions[s].closing.value))))
            && (r.Success? && Over(db.sessions[s].status) ==> r.value == db)
            && (r.Success? && !Over(db.sessions[s].status) ==>
                  && OnlySession(db, r.value, s)
                  && r.value.sessions[s] == db.sessions[s].(status := db.sessions[s].closing.value, closing := None))
  {
    Database.RunsClosed(db, s);
    hide RunTransaction, AppliedInputs, CancelledRequests;
  }

  // ---- inputs ----

  ghost predicate SameInput(x: AgentInput, y: AgentInput) {
    && x.sessionId == y.sessionId && x.agentId == y.agentId && x.invocationId == y.invocationId
    && x.sender == y.sender && x.kind == y.kind && x.content == y.content
  }

  ghost predicate GoesOn(db: Tables, s: SessionId) {
    s in db.sessions && !Over(db.sessions[s].status) && !db.sessions[s].archived
  }

  ghost predicate LiveAgent(db: Tables, a: AgentId) {
    a in db.agents && GoesOn(db, db.agents[a])
  }

  // An input goes to an Agent of a Session that goes on; an Agent that sends it belongs to one
  // too, and an Action it is addressed to is the Agent's own.
  ghost predicate MaySend(db: Tables, input: AgentInput) {
    && GoesOn(db, input.sessionId) && input.agentId in db.agents && db.agents[input.agentId] == input.sessionId
    && (input.sender.Some? ==> LiveAgent(db, input.sender.value))
    && (input.invocationId.Some? ==>
          var v := input.invocationId.value;
          v in db.invocations && db.invocations[v].sessionId == input.sessionId && db.invocations[v].agentId == input.agentId)
  }

  /** An input is queued once; sending it again changes nothing, and with other content it is
      refused. */
  lemma SendIs(db: Tables, i: InputId, input: AgentInput)
    ensures var r := RunTransaction(db, SendInput(i, input));
            && (r.Success? <==> if i in db.inputs then SameInput(db.inputs[i], input) else MaySend(db, input))
            && (r.Success? ==>
                  r.value == if i in db.inputs then db
                             else db.(inputs := db.inputs[i := input.(status := Pending, claimedTurn := None)]))
  {
    Database.RunsSendInput(db, i, input);
    hide RunTransaction;
    if i !in db.inputs && input.sessionId in db.sessions {
      OverIsTerminal(db.sessions[input.sessionId].status);
    }
  }

  // ---- Actions ----

  // An Action is for an Agent of a Session that takes Actions; the request or the Agent it
  // comes from fits.
  ghost predicate MaySchedule(db: Tables, s: SessionId, a: AgentId, source: Source) {
    && s in db.sessions && TakesActions(db.sessions[s].status) && !db.sessions[s].archived && a in db.agents && db.agents[a] == s
    && match source
       case FromWorkflow => true
       case FromHumanRequest(q) => q in db.requests && db.requests[q].sessionId == s && db.requests[q].agentId == a
       case FromAgent(sender) => LiveAgent(db, sender)
  }

  /** An Action is scheduled once, with nothing done yet. */
  lemma ScheduleIs(db: Tables, v: InvocationId, s: SessionId, a: AgentId, task: string, source: Source)
    ensures var r := RunTransaction(db, Schedule(v, s, a, task, source));
            && (r.Success? <==>
                  if v in db.invocations then
                    var action := db.invocations[v];
                    action.sessionId == s && action.agentId == a && action.input == task && action.source == source
                  else MaySchedule(db, s, a, source))
            && (r.Success? ==>
                  r.value == if v in db.invocations then db
                             else db.(invocations := db.invocations[v := Invocation(s, a, task, source, ActionStatus.Scheduled, None, None)]))
  {
    Database.RunsSchedule(db, v, s, a, task, source);
    hide RunTransaction;
  }

  // ---- requests at the end of a Session ----

  ghost predicate RequestMoves(db: Tables, tx: Transaction, db': Tables, q: RequestId) {
    && (q in db.requests ==>
          && q in db'.requests
          && db'.requests[q] == AfterRequest(db, tx, db', q))
    && (q in db'.requests && q !in db.requests ==> tx.OpenRequest? && tx.requestId == q)
  }

  // What becomes of a request: it is answered, or cancelled because its Session ends.
  ghost function AfterRequest(db: Tables, tx: Transaction, db': Tables, q: RequestId): HumanRequest
    requires q in db.requests
  {
    var request := db.requests[q];
    if tx.AnswerRequest? && tx.requestId == q then request.(status := Answered, answer := Some(tx.answer))
    else if request.status == Open && Ended(db, db', request.sessionId) then request.(status := RequestStatus.Cancelled)
    else request
  }

  ghost predicate Ended(db: Tables, db': Tables, s: SessionId) {
    s in db.sessions && s in db'.sessions && !Over(db.sessions[s].status) && Over(db'.sessions[s].status)
  }

  ghost predicate RequestsMove(db: Tables, tx: Transaction, db': Tables) {
    forall q :: RequestMoves(db, tx, db', q)
  }

  lemma RequestsStay(db: Tables, tx: Transaction, db': Tables)
    requires db'.requests == db.requests && !tx.AnswerRequest? && forall s :: !Ended(db, db', s)
    ensures RequestsMove(db, tx, db')
  {
    hide Ended;
  }

  lemma NothingEnded(db: Tables, db': Tables, s: SessionId)
    requires db'.sessions == db.sessions || (s in db'.sessions && db'.sessions == db.sessions[s := db'.sessions[s]])
    requires !Ended(db, db', s)
    ensures forall x :: !Ended(db, db', x)
  {
  }

  lemma EndedRequests(db: Tables, tx: Transaction, s: SessionId, session: Session)
    requires s in db.sessions && !Over(db.sessions[s].status) && Over(session.status) && !tx.AnswerRequest?
    ensures RequestsMove(db, tx, SetSession(Terminalize(db, s), s, session))
  {
    hide AppliedInputs;
    var db' := SetSession(Terminalize(db, s), s, session);
    assert forall x :: Ended(db, db', x) <==> x == s;
  }

  lemma ChangedRequests(db: Tables, tx: Transaction)
    requires tx.ChangeSession? && RunTransaction(db, tx).Success?
    ensures RequestsMove(db, tx, RunTransaction(db, tx).value)
  {
    var db' := RunTransaction(db, tx).value;
    Database.RunsChangeSession(db, tx.sessionId, tx.change);
    hide RunTransaction, Terminalize, RequestsMove, Ended, Over, SessionStatus.Terminal, SessionChange.Target, SessionChange.AllowedFrom;
    ChangeIs(db, tx.sessionId, tx.change);
    OverIsTerminal(db.sessions[tx.sessionId].status);
    OverIsTerminal(tx.change.Target());
    if db.sessions[tx.sessionId].status == tx.change.Target() {
      EndedOnly(db, db', tx.sessionId);
      NothingEnded(db, db', tx.sessionId);
      RequestsStay(db, tx, db');
    } else if tx.change.Target().Terminal() {
      TargetEnds(tx.change, db.sessions[tx.sessionId].status);
      EndedRequests(db, tx, tx.sessionId, db'.sessions[tx.sessionId]);
    } else {
      EndedOnly(db, db', tx.sessionId);
      NothingEnded(db, db', tx.sessionId);
      RequestsStay(db, tx, db');
    }
  }

  lemma TargetEnds(change: SessionChange, status: SessionStatus)
    requires change.Target().Terminal() && status != change.Target() && change.AllowedFrom(status)
    ensures !Over(status)
  {
  }

  lemma EndedOnly(db: Tables, db': Tables, s: SessionId)
    requires s in db'.sessions ==> s in db.sessions && (db'.sessions[s].status == db.sessions[s].status || !Over(db'.sessions[s].status))
    ensures !Ended(db, db', s)
  {
  }

  lemma ClosingRequests(db: Tables, tx: Transaction)
    requires tx.Closing? && RunTransaction(db, tx).Success?
    ensures RequestsMove(db, tx, RunTransaction(db, tx).value)
  {
    hide RunTransaction, RequestsMove, Ended;
    var db' := RunTransaction(db, tx).value;
    ClosingIs(db, tx.sessionId, tx.final, tx.output, tx.error);
    EndedOnly(db, db', tx.sessionId);
    NothingEnded(db, db', tx.sessionId);
    RequestsStay(db, tx, db');
  }

  lemma ClosedRequests(db: Tables, tx: Transaction)
    requires tx.Closed? && RunTransaction(db, tx).Success?
    ensures RequestsMove(db, tx, RunTransaction(db, tx).value)
  {
    Database.RunsClosed(db, tx.sessionId);
    hide RunTransaction, RequestsMove, Ended, Terminalize;
    var db' := RunTransaction(db, tx).value;
    ClosedIs(db, tx.sessionId);
    if db.sessions[tx.sessionId].status.Terminal() {
      EndedOnly(db, db', tx.sessionId);
      NothingEnded(db, db', tx.sessionId);
      RequestsStay(db, tx, db');
    } else {
      EndedRequests(db, tx, tx.sessionId, db'.sessions[tx.sessionId]);
    }
  }

  lemma CompletedRequests(db: Tables, tx: Transaction)
    requires tx.Complete? && RunTransaction(db, tx).Success?
    ensures RequestsMove(db, tx, RunTransaction(db, tx).value)
  {
    hide Terminalize, RequestsMove, Ended, CreateSession, CreateAgent, TransitionSession, BeginClosing, FinishClosing, AddSessionUsage,
         ArchiveSession, CreateHumanRequest, AnswerHumanRequest, InsertInput, ClaimInputs, InsertInvocation, StartAttempt,
         FinishAction, CancelPending;
    EndedRequests(db, tx, tx.sessionId, RunTransaction(db, tx).value.sessions[tx.sessionId]);
  }

  lemma AskedRequests(db: Tables, tx: Transaction)
    requires tx.OpenRequest? || tx.AnswerRequest?
    requires RunTransaction(db, tx).Success?
    ensures RequestsMove(db, tx, RunTransaction(db, tx).value)
  {
    hide RunTransaction, StillOpen;
    var db' := RunTransaction(db, tx).value;
    if tx.OpenRequest? {
      OpenIs(db, tx.requestId, tx.sessionId, tx.agentId);
    } else {
      AnswerIs(db, tx.requestId, tx.answer);
    }
    assert forall s :: !Ended(db, db', s);
  }

  ghost predicate SameStatuses(db: Tables, db': Tables) {
    && db'.requests == db.requests
    && forall s :: s in db.sessions ==> s in db'.sessions && db'.sessions[s].status == db.sessions[s].status
  }

  lemma ClaimQuiet(db: Tables, tx: Transaction)
    requires tx.Claim? && RunTransaction(db, tx).Success?
    ensures SameStatuses(db, RunTransaction(db, tx).value)
  {
    hide Claimable, CreateSession, CreateAgent, TransitionSession, BeginClosing, FinishClosing, CompleteSession, AddSessionUsage,
         ArchiveSession, CreateHumanRequest, AnswerHumanRequest, InsertInput, InsertInvocation, StartAttempt, FinishAction,
         CancelPending;
  }

  lemma StartQuiet(db: Tables, tx: Transaction)
    requires tx.StartAction? && RunTransaction(db, tx).Success?
    ensures SameStatuses(db, RunTransaction(db, tx).value)
  {
    Database.RunsStartAction(db, tx.invocationId, tx.attemptId);
    hide RunTransaction, Numbers, Greatest, HasRunning;
  }

  lemma EndQuiet(db: Tables, tx: Transaction)
    requires tx.EndAction? && RunTransaction(db, tx).Success?
    ensures SameStatuses(db, RunTransaction(db, tx).value)
  {
    hide RunTransaction, ApplyActionInputs, Database.Reportable;
    Database.RunsEndAction(db, tx.invocationId, tx.attemptId, tx.status, tx.output, tx.error);
    hide RunTransaction, ApplyActionInputs;
  }

  lemma CancelQuiet(db: Tables, v: InvocationId, reason: string)
    requires CancelPending(db, v, reason).Success?
    ensures SameStatuses(db, CancelPending(db, v, reason).value)
  {
    hide CancelPending, SameStatuses;
    CancelPendingLeaves(db, v, reason);
    SameRows(db, CancelPending(db, v, reason).value);
  }

  lemma SameRows(db: Tables, db': Tables)
    requires db'.requests == db.requests && db'.sessions == db.sessions
    ensures SameStatuses(db, db')
  {
  }

  lemma QuietRequests(db: Tables, tx: Transaction)
    requires tx.NewSession? || tx.NewAgent? || tx.AddUsage? || tx.Archive? || tx.SendInput? || tx.Claim?
             || tx.Schedule? || tx.StartAction? || tx.EndAction? || tx.CancelAction?
    requires RunTransaction(db, tx).Success?
    ensures SameStatuses(db, RunTransaction(db, tx).value)
  {
    hide RunTransaction, MaySend, SameInput, MaySchedule, SaturatingAdd;
    match tx
    case NewSession(s) => NewSessionIs(db, s);
    case NewAgent(a, s) => NewAgentIs(db, a, s);
    case AddUsage(s, delta) => UsageIs(db, s, delta);
    case Archive(s) => ArchiveIs(db, s);
    case SendInput(i, input) => SendIs(db, i, input);
    case Claim(_, _, _, _) => ClaimQuiet(db, tx);
    case Schedule(v, s, a, task, source) => ScheduleIs(db, v, s, a, task, source);
    case StartAction(_, _) => StartQuiet(db, tx);
    case EndAction(_, _, _, _, _) => EndQuiet(db, tx);
    case CancelAction(v, reason) => RunsCancel(db, v, reason); CancelQuiet(db, v, reason);
  }

  /** What every transaction does to every request: an answer is written into the one that is
      answered, the end of a Session cancels its open ones, and everything else leaves them
      alone. */
  lemma TransactionRequests(db: Tables, tx: Transaction)
    requires RunTransaction(db, tx).Success?
    ensures RequestsMove(db, tx, RunTransaction(db, tx).value)
  {
    hide RunTransaction, RequestsMove;
    match tx
    case ChangeSession(_, _) => ChangedRequests(db, tx);
    case Closing(_, _, _, _) => ClosingRequests(db, tx);
    case Closed(_) => ClosedRequests(db, tx);
    case Complete(_, _) => CompletedRequests(db, tx);
    case OpenRequest(_, _, _) | AnswerRequest(_, _) => AskedRequests(db, tx);
    case _ => QuietRequests(db, tx); RequestsStay(db, tx, RunTransaction(db, tx).value);
  }
}
