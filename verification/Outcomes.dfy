// What the operations on Sessions, requests and Actions leave in the rows, when they go
// through, and how an Action and its newest attempt agree in every run.
module Outcomes {
  import opened Wrappers
  import opened Protocol
  import opened Tables
  import Lifecycle
  import opened Projection
  import opened StoreMachine
  import opened StoreInvariant
  import opened StoreRuns
  import opened Attachments
  import Database

  // ---- Sessions ----

  ghost predicate Live(status: SessionStatus) {
    status.Created? || status.Running? || status.WaitingForInput? || status.WaitingForDeadline? || status.Paused?
  }

  // The Sessions a change is for; a Session that is there already is one of them.
  ghost predicate MayChange(change: SessionChange, status: SessionStatus) {
    match change
    case Start => status.Created? || status.Running?
    case Pause => Live(status) && !status.Created?
    case Resume => Live(status) && !status.Created?
    case WaitForInput => status.Running? || status.WaitingForInput?
    case WaitForDeadline => status.Running? || status.WaitingForDeadline?
    case Fail(_) => Live(status) || status.Failed?
    case Cancel(_) => Live(status) || status.Cancelled?
  }

  ghost predicate Reaches(change: SessionChange, status: SessionStatus) {
    match change
    case Start => status.Running?
    case Pause => status.Paused?
    case Resume => status.Running?
    case WaitForInput => status.WaitingForInput?
    case WaitForDeadline => status.WaitingForDeadline?
    case Fail(_) => status.Failed?
    case Cancel(_) => status.Cancelled?
  }

  ghost predicate OnlySession(db: Tables, db': Tables, s: SessionId) {
    && db'.sessions.Keys == db.sessions.Keys + {s}
    && forall t :: t in db.sessions && t != s ==> db'.sessions[t] == db.sessions[t]
  }

  ghost predicate Changed(change: SessionChange, x: Session, x': Session) {
    && Reaches(change, x'.status)
    && x' == if Reaches(change, x.status) then x else
             x.(status := x'.status, closing := None, error := (if change.Fail? then Some(change.error) else None),
                attention := x.attention && !change.Fail? && !change.Cancel?)
  }

  lemma TargetReaches(change: SessionChange, status: SessionStatus)
    ensures Reaches(change, status) <==> status == change.Target()
    ensures MayChange(change, status) <==> status == change.Target() || change.AllowedFrom(status)
    ensures change.Target().Terminal() <==> change.Fail? || change.Cancel?
  {
  }

  /** A change of a Session goes through exactly for the statuses it is for, and leaves the
      status it means: an error only if it failed, and no attention if it ended. */
  lemma ChangeIs(db: Tables, s: SessionId, change: SessionChange)
    ensures var r := RunTransaction(db, ChangeSession(s, change));
            && (r.Success? <==> s in db.sessions && MayChange(change, db.sessions[s].status))
            && (r.Success? ==> OnlySession(db, r.value, s) && Changed(change, db.sessions[s], r.value.sessions[s]))
  {
    hide AppliedInputs, CancelledRequests, MayChange, Reaches, SessionStatus.Terminal, SessionChange.Target, SessionChange.AllowedFrom,
         CreateSession, CreateAgent, BeginClosing, FinishClosing, CompleteSession, AddSessionUsage, ArchiveSession,
         CreateHumanRequest, AnswerHumanRequest, InsertInput, ClaimInputs, InsertInvocation, StartAttempt, FinishAction, CancelPending;
    if s in db.sessions {
      TargetReaches(change, db.sessions[s].status);
    }
    TargetReaches(change, change.Target());
  }

  // ---- requests ----

  // Another request of the Session that is still open.
  ghost predicate StillOpen(db: Tables, s: SessionId, r: RequestId) {
    exists q :: q in db.requests && q != r && db.requests[q].sessionId == s && db.requests[q].status == Open
  }

  lemma OpenAfter(db: Tables, r: RequestId, request: HumanRequest, s: SessionId)
    requires request.status != Open
    ensures HasOpen(db.requests[r := request], s) <==> StillOpen(db, s, r)
  {
    if StillOpen(db, s, r) {
      var q :| q in db.requests && q != r && db.requests[q].sessionId == s && db.requests[q].status == Open;
      assert q in db.requests[r := request];
    }
  }

  /** An answer goes to an open request and is what its row says then. A waiting Session runs
      again exactly when it was the last open request; the Session asks for attention exactly
      as long as there is another one. */
  lemma AnswerIs(db: Tables, r: RequestId, answer: string)
    ensures var result := RunTransaction(db, AnswerRequest(r, answer));
            && (result.Success? <==> r in db.requests && db.requests[r].status == Open && db.requests[r].sessionId in db.sessions)
            && (result.Success? ==>
                  var db', s := result.value, db.requests[r].sessionId;
                  && OnlySession(db, db', s)
                  && db'.requests == db.requests[r := db.requests[r].(status := Answered, answer := Some(answer))]
                  && var x, x' := db.sessions[s], db'.sessions[s];
                     && x' == x.(status := x'.status, attention := StillOpen(db, s, r))
                     && (if x.status.WaitingForInput? && !StillOpen(db, s, r) then x'.status.Running? else x'.status == x.status))
  {
    hide HasOpen, CreateSession, CreateAgent, TransitionSession, BeginClosing, FinishClosing, CompleteSession, AddSessionUsage,
         ArchiveSession, CreateHumanRequest, InsertInput, ClaimInputs, InsertInvocation, StartAttempt, FinishAction, CancelPending,
         StillOpen;
    if r in db.requests && db.requests[r].status == Open && db.requests[r].sessionId in db.sessions {
      OpenAfter(db, r, db.requests[r].(status := Answered, answer := Some(answer)), db.requests[r].sessionId);
    }
  }

  /** A request is opened for an Agent of the Session, which waits for the answer, unless it is
      paused, and asks for attention. */
  lemma OpenIs(db: Tables, r: RequestId, s: SessionId, a: AgentId)
    ensures var result := RunTransaction(db, OpenRequest(r, s, a));
            && (result.Success? <==>
                  && s in db.sessions && (db.sessions[s].status.Running? || db.sessions[s].status.Paused?)
                  && a in db.agents && db.agents[a] == s && r !in db.requests)
            && (result.Success? ==>
                  var db' := result.value;
                  && OnlySession(db, db', s)
                  && db'.requests == db.requests[r := HumanRequest(s, a, Open, None)]
                  && var x, x' := db.sessions[s], db'.sessions[s];
                     && x' == x.(status := x'.status, attention := true)
                     && (if x.status.Paused? then x'.status.Paused? else x'.status.WaitingForInput?))
  {
    Database.RunsOpenRequest(db, r, s, a);
    hide RunTransaction;
  }

  // ---- the end of a Session ----

  // What a Session that begins to close has been promised.
  ghost predicate Promised(x: Session, final: SessionStatus, output: Option<string>, error: Option<string>) {
    && (x.status == final || (x.status.Closing? && x.closing == Some(final))) && final.Terminal()
    && x.output == output && x.error == error
  }

  lemma BeginningPromises(db: Tables, s: SessionId, final: SessionStatus, output: Option<string>, error: Option<string>)
    requires BeginClosing(db, s, final, output, error).Success?
    ensures var db' := BeginClosing(db, s, final, output, error).value;
            OnlySession(db, db', s) && s in db'.sessions && Promised(db'.sessions[s], final, output, error)
  {
    if db.sessions[s].status.Closing? || db.sessions[s].status.Terminal() {
      assert BeginClosing(db, s, final, output, error).value == db;
    }
  }

  lemma FinishingKeeps(db: Tables, s: SessionId, final: SessionStatus, output: Option<string>, error: Option<string>)
    requires s in db.sessions && Promised(db.sessions[s], final, output, error)
    ensures var r := FinishClosing(db, s);
            && r.Success? && OnlySession(db, r.value, s) && s in r.value.sessions
            && r.value.sessions[s].status == final && r.value.sessions[s].output == output && r.value.sessions[s].error == error
  {
    hide AppliedInputs, CancelledRequests, OnlySession;
    if db.sessions[s].status.Terminal() {
      assert FinishClosing(db, s).value == db;
      OneSession(db, db, s);
    } else {
      OneSession(db, FinishClosing(db, s).value, s);
    }
  }

  lemma OneSession(db: Tables, db': Tables, s: SessionId)
    requires s in db.sessions
    requires db' == db || (s in db'.sessions && db'.sessions == db.sessions[s := db'.sessions[s]])
    ensures OnlySession(db, db', s)
  {
  }

  /** A Session that begins to close ends with the status, the output and the error it was
      given then. */
  lemma ClosingLeads(db: Tables, s: SessionId, final: SessionStatus, output: Option<string>, error: Option<string>)
    requires RunTransaction(db, Transaction.Closing(s, final, output, error)).Success?
    ensures var db1 := RunTransaction(db, Transaction.Closing(s, final, output, error)).value;
            && OnlySession(db, db1, s) && s in db1.sessions
            && (db1.sessions[s].status.Closing? || db1.sessions[s].status == final)
            && var r := RunTransaction(db1, Closed(s));
               && r.Success? && OnlySession(db1, r.value, s) && s in r.value.sessions
               && r.value.sessions[s].status == final && r.value.sessions[s].output == output && r.value.sessions[s].error == error
  {
    hide BeginClosing, FinishClosing, OnlySession;
    BeginningPromises(db, s, final, output, error);
    FinishingKeeps(BeginClosing(db, s, final, output, error).value, s, final, output, error);
  }

  /** Only a running Session completes, with the result it is given. */
  lemma CompleteIs(db: Tables, s: SessionId, result: string)
    ensures var r := RunTransaction(db, Complete(s, result));
            && (r.Success? <==> s in db.sessions && db.sessions[s].status.Running?)
            && (r.Success? ==>
                  && OnlySession(db, r.value, s)
                  && r.value.sessions[s] == db.sessions[s].(status := SessionStatus.Completed, closing := None, output := Some(result),
                                                            error := None, attention := false))
  {
    hide AppliedInputs, CancelledRequests, CreateSession, CreateAgent, TransitionSession, BeginClosing, FinishClosing,
         AddSessionUsage, ArchiveSession, CreateHumanRequest, AnswerHumanRequest, InsertInput, ClaimInputs, InsertInvocation,
         StartAttempt, FinishAction, CancelPending;
  }

  // ---- Actions ----

  ghost predicate OnlyAction(db: Tables, db': Tables, v: InvocationId) {
    && db'.invocations.Keys == db.invocations.Keys + {v}
    && forall u :: u in db.invocations && u != v ==> db'.invocations[u] == db.invocations[u]
  }

  ghost predicate OnlyAttempt(db: Tables, db': Tables, x: AttemptId) {
    && db'.attempts.Keys == db.attempts.Keys + {x}
    && forall y :: y in db.attempts && y != x ==> db'.attempts[y] == db.attempts[y]
  }

  ghost predicate SameResult(action: Invocation, attempt: Attempt, status: ActionStatus, output: Option<string>, error: Option<string>) {
    && action.status == status && attempt.status == status
    && action.output == output && action.error == error && attempt.error == error
  }

  /** A running attempt ends together with its Action, which takes its output and its error;
      ending it again with the same result changes nothing, with another one is refused. */
  lemma EndActionIs(db: Tables, v: InvocationId, x: AttemptId, status: ActionStatus, output: Option<string>, error: Option<string>)
    ensures var r := RunTransaction(db, EndAction(v, x, status, output, error));
            && (r.Success? <==> MayEnd(db, v, x, status, output, error))
            && (r.Success? ==>
                  var db' := r.value;
                  && OnlyAction(db, db', v) && OnlyAttempt(db, db', x)
                  && db'.invocations[v] == db.invocations[v].(status := status, output := output, error := error)
                  && db'.attempts[x] == db.attempts[x].(status := status, error := error))
  {
    hide RunTransaction, ApplyActionInputs;
    Database.RunsEndAction(db, v, x, status, output, error);
  }

  // A result is reported for an attempt of the Action: the running one, or one that ended so.
  ghost predicate MayEnd(db: Tables, v: InvocationId, x: AttemptId, status: ActionStatus, output: Option<string>, error: Option<string>) {
    && (status.Completed? || status.Failed? || status.Interrupted? || status.Cancelled?)
    && v in db.invocations && x in db.attempts && db.attempts[x].invocationId == v
    && (|| (db.invocations[v].status.Running? && db.attempts[x].status.Running?)
        || SameResult(db.invocations[v], db.attempts[x], status, output, error))
  }

  ghost predicate TakesActions(status: SessionStatus) {
    status.Running? || status.WaitingForInput? || status.WaitingForDeadline?
  }

  /** An Action starts when it is scheduled or was interrupted, its Session takes Actions and
      no attempt of it runs; the new attempt runs, has no Turn yet, and counts one on. */
  lemma StartActionIs(db: Tables, v: InvocationId, x: AttemptId)
    ensures var r := RunTransaction(db, StartAction(v, x));
            && (r.Success? <==>
                  && v in db.invocations && (db.invocations[v].status.Scheduled? || db.invocations[v].status.Interrupted?)
                  && db.invocations[v].sessionId in db.sessions
                  && TakesActions(db.sessions[db.invocations[v].sessionId].status)
                  && x !in db.attempts
                  && forall y :: y in db.attempts && db.attempts[y].invocationId == v ==> !db.attempts[y].status.Running?)
            && (r.Success? ==>
                  var db' := r.value;
                  && OnlyAction(db, db', v) && OnlyAttempt(db, db', x)
                  && db'.invocations[v] == db.invocations[v].(status := ActionStatus.Running, error := None)
                  && var attempt := db'.attempts[x];
                     && attempt == Attempt(x, v, attempt.number, None, ActionStatus.Running, None)
                     && (forall y :: y in db.attempts && db.attempts[y].invocationId == v ==> db.attempts[y].number < attempt.number)
                     && (attempt.number == 1 || exists y :: y in db.attempts && db.attempts[y].invocationId == v && db.attempts[y].number + 1 == attempt.number))
  {
    Database.RunsStartAction(db, v, x);
    hide RunTransaction, Greatest, Numbers;
    NextNumber(db.attempts, v);
  }

  lemma NextNumber(attempts: map<AttemptId, Attempt>, v: InvocationId)
    ensures var n := Greatest(Numbers(attempts, v));
            && (forall y :: y in attempts && attempts[y].invocationId == v ==> attempts[y].number <= n)
            && (n == 0 || exists y :: y in attempts && attempts[y].invocationId == v && attempts[y].number == n)
  {
    forall y | y in attempts && attempts[y].invocationId == v ensures attempts[y].number in Numbers(attempts, v) {
    }
  }

  /** Only an Action that does not run can be cancelled from outside. */
  lemma CancelActionIs(db: Tables, v: InvocationId, reason: string)
    ensures var r := RunTransaction(db, CancelAction(v, reason));
            && (r.Success? <==>
                  && v in db.invocations
                  && (db.invocations[v].status.Scheduled? || db.invocations[v].status.Interrupted? || db.invocations[v].status.Cancelled?))
            && (r.Success? ==>
                  && OnlyAction(db, r.value, v) && r.value.attempts == db.attempts
                  && r.value.invocations[v] == if db.invocations[v].status.Cancelled? then db.invocations[v]
                       else db.invocations[v].(status := ActionStatus.Cancelled, output := None, error := Some(reason)))
  {
    hide ApplyActionInputs, CreateSession, CreateAgent, TransitionSession, BeginClosing, FinishClosing, CompleteSession,
         AddSessionUsage, ArchiveSession, CreateHumanRequest, AnswerHumanRequest, InsertInput, ClaimInputs, InsertInvocation,
         StartAttempt, FinishAction;
  }

  // ---- an Action and its newest attempt ----

  ghost predicate Newest(attempts: map<AttemptId, Attempt>, v: InvocationId, x: AttemptId) {
    && x in attempts && attempts[x].invocationId == v
    && forall y :: y in attempts && attempts[y].invocationId == v ==> attempts[y].number <= attempts[x].number
  }

  // An Action that ended with an attempt shows what its newest attempt shows.
  ghost predicate Agrees(db: Tables, v: InvocationId) {
    v in db.invocations && (var status := db.invocations[v].status; status.Completed? || status.Failed? || status.Interrupted?) ==>
      exists x :: Newest(db.attempts, v, x) && db.attempts[x].status == db.invocations[v].status
                  && db.attempts[x].error == db.invocations[v].error
  }

  lemma AgreesStill(db: Tables, db': Tables, v: InvocationId)
    requires Agrees(db, v) && v in db.invocations && v in db'.invocations && db'.invocations[v] == db.invocations[v]
    requires forall x :: x in db'.attempts && db'.attempts[x].invocationId == v ==> x in db.attempts && db.attempts[x].invocationId == v
    requires forall x :: x in db.attempts && db.attempts[x].invocationId == v ==>
               x in db'.attempts && db'.attempts[x] == db.attempts[x].(turnId := db'.attempts[x].turnId)
    ensures Agrees(db', v)
  {
    var status := db.invocations[v].status;
    if status.Completed? || status.Failed? || status.Interrupted? {
      var x :| Newest(db.attempts, v, x) && db.attempts[x].status == status && db.attempts[x].error == db.invocations[v].error;
      assert Newest(db'.attempts, v, x);
    }
  }

  lemma EndAgrees(db: Tables, v: InvocationId, x: AttemptId, status: ActionStatus, output: Option<string>, error: Option<string>, u: InvocationId)
    requires Lifecycle.RunningOk(db.invocations, db.attempts) && Agrees(db, u) && FinishAction(db, v, x, status, output, error).Success?
    ensures Agrees(FinishAction(db, v, x, status, output, error).value, u)
  {
    Database.EndActionIs(db, v, x, status, output, error);
    EndActionIs(db, v, x, status, output, error);
    hide FinishAction, RunTransaction;
    var db' := FinishAction(db, v, x, status, output, error).value;
    if u == v && db.attempts[x].status.Running? {
      forall y | y in db.attempts && db.attempts[y].invocationId == v ensures db.attempts[y].number <= db.attempts[x].number {
        assert Lifecycle.SameAction(db.attempts, x, y);
      }
      assert Newest(db'.attempts, v, x);
    } else if u in db.invocations {
      AgreesStill(db, db', u);
    }
  }

  lemma StartAgrees(db: Tables, v: InvocationId, x: AttemptId, u: InvocationId)
    requires Agrees(db, u) && StartAttempt(db, v, x).Success?
    ensures Agrees(StartAttempt(db, v, x).value, u)
  {
    hide Numbers, Greatest, HasRunning;
    if u != v && u in db.invocations {
      AgreesStill(db, StartAttempt(db, v, x).value, u);
    }
  }

  lemma RunsCancel(db: Tables, v: InvocationId, reason: string)
    ensures RunTransaction(db, CancelAction(v, reason)) == CancelPending(db, v, reason)
  {
    hide CancelPending;
  }

  lemma CancelAgrees(db: Tables, v: InvocationId, reason: string, u: InvocationId)
    requires Agrees(db, u) && CancelPending(db, v, reason).Success?
    ensures Agrees(CancelPending(db, v, reason).value, u)
  {
    RunsCancel(db, v, reason);
    CancelActionIs(db, v, reason);
    hide CancelPending, RunTransaction;
    if u != v && u in db.invocations {
      AgreesStill(db, CancelPending(db, v, reason).value, u);
    }
  }

  lemma ScheduleAgrees(db: Tables, v: InvocationId, s: SessionId, a: AgentId, task: string, source: Source, u: InvocationId)
    requires Agrees(db, u) && InsertInvocation(db, v, s, a, task, source).Success?
    ensures Agrees(InsertInvocation(db, v, s, a, task, source).value, u)
  {
    hide SenderIsLive;
    if u in db.invocations {
      AgreesStill(db, InsertInvocation(db, v, s, a, task, source).value, u);
    }
  }

  lemma TransactionAgrees(db: Tables, tx: Transaction, u: InvocationId)
    requires Lifecycle.RunningOk(db.invocations, db.attempts) && Agrees(db, u) && RunTransaction(db, tx).Success?
    ensures Agrees(RunTransaction(db, tx).value, u)
  {
    hide Agrees, CreateSession, CreateAgent, TransitionSession, BeginClosing, FinishClosing, CompleteSession, AddSessionUsage,
         ArchiveSession, CreateHumanRequest, AnswerHumanRequest, InsertInput, ClaimInputs, InsertInvocation, StartAttempt, FinishAction,
         CancelPending, Lifecycle.RunningOk;
    match tx
    case StartAction(v, x) => StartAgrees(db, v, x, u);
    case EndAction(v, x, status, output, error) => EndAgrees(db, v, x, status, output, error, u);
    case CancelAction(v, reason) => CancelAgrees(db, v, reason, u);
    case Schedule(v, s, a, task, source) => ScheduleAgrees(db, v, s, a, task, source, u);
    case _ => OthersLeaveAttempts(db, tx); LeftAgrees(db, RunTransaction(db, tx).value, u);
  }

  lemma LeftAgrees(db: Tables, db': Tables, u: InvocationId)
    requires Agrees(db, u) && LeavesActions(db, db')
    ensures Agrees(db', u)
  {
    if u in db.invocations {
      AgreesStill(db, db', u);
    }
  }

  lemma RecordAgrees(db: Tables, r: Record, db': Tables, u: InvocationId)
    requires Agrees(db, u) && AttachesTo(db.attempts, r, db'.attempts) && db'.invocations == db.invocations
    ensures Agrees(db', u)
  {
    if u in db.invocations {
      AgreesStill(db, db', u);
    }
  }

  lemma ProjectLeavesActions(db: Tables, r: Record)
    requires Project(db, r).Success?
    ensures Project(db, r).value.invocations == db.invocations
  {
    hide Acknowledge, Release, SaturatingAdd, SaturatingSub, Checkpointed;
  }

  lemma RunningIn(w: World)
    requires Inv(w)
    ensures Lifecycle.RunningOk(w.db.invocations, w.db.attempts)
  {
    hide ProjectionOk, AccountsOk, DeliveryOk, Ready;
  }

  lemma StepAgrees(w: World, step: Step, u: InvocationId)
    requires Inv(w) && Agrees(w.db, u)
    ensures Agrees(Next(w, step).db, u)
  {
    hide Inv, Agrees, AttachesTo, Ready, Project, RunTransaction, RunTurnOp, Prepare, Admit, Replay, Swept, Lifecycle.RunningOk;
    if step.Transact? {
      if w.live && RunTransaction(w.db, step.tx).Success? {
        RunningIn(w);
        TransactionAgrees(w.db, step.tx, u);
      }
    } else {
      hide Next;
      var r := StepProjects(w, step);
      if r.Some? {
        ProjectedAttempts(w.db, r.value);
        ProjectLeavesActions(w.db, r.value);
        RecordAgrees(w.db, r.value, Next(w, step).db, u);
      } else {
        LeftAgrees(w.db, Next(w, step).db, u);
      }
    }
  }

  /** In every run an Action that completed, failed or was interrupted shows the status and the
      error of its newest attempt. */
  lemma {:induction false} ActionShowsAttempt(steps: seq<Step>, u: InvocationId)
    ensures Agrees(Run(START, steps).db, u)
  {
    hide Inv, Next;
    if steps != [] {
      ActionShowsAttempt(steps[..|steps| - 1], u);
      Reachable(steps[..|steps| - 1]);
      StepAgrees(Run(START, steps[..|steps| - 1]), steps[|steps| - 1], u);
    }
  }
}
