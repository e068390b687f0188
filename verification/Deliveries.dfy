// The life of an input, step by step: who may claim it, what applies it, what gives it back.
// And a Turn never acknowledges what was addressed to another Action than its own.
module Deliveries {
  import opened Wrappers
  import opened Protocol
  import opened Rollout
  import opened Tables
  import opened Projection
  import opened Charges
  import opened StoreMachine
  import opened StoreInvariant
  import opened StoreRuns
  import opened Attachments

  // ---- one transaction ----

  // The claim a transaction makes on a row: a pending input of the Session and Agent, addressed
  // to no Action or to the one named.
  ghost predicate Claims(tx: Transaction, x: AgentInput) {
    && tx.Claim? && x.status == Pending && x.sessionId == tx.sessionId && x.agentId == tx.agentId
    && (x.invocationId.None? || x.invocationId == tx.invocationFilter)
  }

  ghost predicate SessionEnds(db: Tables, db': Tables, s: SessionId) {
    && s in db.sessions && !db.sessions[s].status.Terminal()
    && s in db'.sessions && db'.sessions[s].status.Terminal()
  }

  ghost predicate ActionEnds(db: Tables, db': Tables, v: InvocationId) {
    && v in db.invocations && v in db'.invocations
    && db'.invocations[v].status != db.invocations[v].status && db'.invocations[v].status.Terminal()
  }

  // The Session of an input or the Action it was addressed to ends.
  ghost predicate Settles(db: Tables, db': Tables, x: AgentInput) {
    SessionEnds(db, db', x.sessionId) || (x.invocationId.Some? && ActionEnds(db, db', x.invocationId.value))
  }

  // What becomes of a row.
  function Moved(claimed: Option<TurnId>, settled: bool, x: AgentInput): AgentInput {
    if claimed.Some? then x.(status := Claimed, claimedTurn := claimed)
    else if settled && x.status != Applied then x.(status := Applied) else x
  }

  ghost predicate InputMoves(db: Tables, tx: Transaction, db': Tables, i: InputId) {
    && (i in db.inputs ==>
          && i in db'.inputs
          && db'.inputs[i] == Moved(if Claims(tx, db.inputs[i]) then Some(tx.turnId) else None, Settles(db, db', db.inputs[i]), db.inputs[i]))
    && (i in db'.inputs && i !in db.inputs ==>
          && tx.SendInput? && tx.inputId == i && db'.inputs[i] == tx.input.(status := Pending, claimedTurn := None))
  }

  ghost predicate InputsMove(db: Tables, tx: Transaction, db': Tables) {
    forall i :: InputMoves(db, tx, db', i)
  }

  ghost predicate NothingEnds(db: Tables, db': Tables) {
    (forall s :: !SessionEnds(db, db', s)) && (forall v :: !ActionEnds(db, db', v))
  }

  // Rows that no end has touched.
  lemma Unmoved(db: Tables, tx: Transaction, db': Tables)
    requires db'.inputs == db.inputs && !tx.Claim? && NothingEnds(db, db')
    ensures InputsMove(db, tx, db')
  {
    hide SessionEnds, ActionEnds;
  }

  lemma SessionGoesOn(db: Tables, db': Tables, s: SessionId)
    requires db'.invocations == db.invocations
    requires db'.sessions == db.sessions || (s in db'.sessions && db'.sessions == db.sessions[s := db'.sessions[s]])
    requires !SessionEnds(db, db', s)
    ensures NothingEnds(db, db')
  {
  }

  lemma ActionGoesOn(db: Tables, db': Tables, v: InvocationId)
    requires db'.sessions == db.sessions
    requires db'.invocations == db.invocations || (v in db'.invocations && db'.invocations == db.invocations[v := db'.invocations[v]])
    requires !ActionEnds(db, db', v)
    ensures NothingEnds(db, db')
  {
  }

  lemma NewRowsInputs(db: Tables, tx: Transaction)
    requires tx.NewSession? || tx.NewAgent?
    requires RunTransaction(db, tx).Success?
    ensures InputsMove(db, tx, RunTransaction(db, tx).value)
  {
    hide InputsMove, NothingEnds, TransitionSession, BeginClosing, FinishClosing, CompleteSession, CreateHumanRequest,
         AnswerHumanRequest, InsertInput, ClaimInputs, InsertInvocation, StartAttempt, FinishAction, CancelPending,
         AddSessionUsage, ArchiveSession;
    SessionGoesOn(db, RunTransaction(db, tx).value, tx.sessionId);
    Unmoved(db, tx, RunTransaction(db, tx).value);
  }

  // A row rewritten with the status it had.
  ghost predicate Marked(db: Tables, db': Tables, s: SessionId) {
    && db'.inputs == db.inputs && db'.invocations == db.invocations && s in db.sessions && s in db'.sessions
    && db'.sessions == db.sessions[s := db'.sessions[s]] && db'.sessions[s].status == db.sessions[s].status
  }

  lemma ArchiveMarks(db: Tables, s: SessionId)
    requires ArchiveSession(db, s).Success?
    ensures Marked(db, ArchiveSession(db, s).value, s)
  {
    if db.sessions[s].archived {
      assert db.sessions[s := db.sessions[s]] == db.sessions;
    }
  }

  lemma UsageMarks(db: Tables, s: SessionId, delta: Usage)
    requires AddSessionUsage(db, s, delta).Success?
    ensures Marked(db, AddSessionUsage(db, s, delta).value, s)
  {
    hide SaturatingAdd;
  }

  lemma MarkedInputs(db: Tables, tx: Transaction)
    requires tx.AddUsage? || tx.Archive?
    requires RunTransaction(db, tx).Success?
    ensures InputsMove(db, tx, RunTransaction(db, tx).value)
  {
    hide InputsMove, NothingEnds, AddSessionUsage, ArchiveSession;
    var db' := RunTransaction(db, tx).value;
    if tx.AddUsage? {
      UsageMarks(db, tx.sessionId, tx.delta);
    } else {
      ArchiveMarks(db, tx.sessionId);
    }
    SessionGoesOn(db, db', tx.sessionId);
    Unmoved(db, tx, db');
  }

  lemma EndingInputs(db: Tables, tx: Transaction, s: SessionId, session: Session)
    requires s in db.sessions && !db.sessions[s].status.Terminal() && session.status.Terminal() && !tx.Claim?
    ensures InputsMove(db, tx, SetSession(Terminalize(db, s), s, session))
  {
    hide CancelledRequests;
    var db' := SetSession(Terminalize(db, s), s, session);
    assert forall v :: !ActionEnds(db, db', v);
    assert forall x :: SessionEnds(db, db', x) <==> x == s;
  }

  lemma ChangeInputs(db: Tables, tx: Transaction)
    requires tx.ChangeSession? && RunTransaction(db, tx).Success?
    ensures InputsMove(db, tx, RunTransaction(db, tx).value)
  {
    hide Terminalize, InputsMove, NothingEnds, CreateSession, CreateAgent, BeginClosing, FinishClosing, CompleteSession, AddSessionUsage,
         ArchiveSession, CreateHumanRequest, AnswerHumanRequest, InsertInput, ClaimInputs, InsertInvocation, StartAttempt,
         FinishAction, CancelPending;
    var db' := RunTransaction(db, tx).value;
    if db.sessions[tx.sessionId].status != tx.change.Target() && tx.change.Target().Terminal() {
      EndingInputs(db, tx, tx.sessionId, db'.sessions[tx.sessionId]);
    } else {
      SessionGoesOn(db, db', tx.sessionId);
      Unmoved(db, tx, db');
    }
  }

  lemma ClosingIs(db: Tables, s: SessionId, final: SessionStatus, output: Option<string>, error: Option<string>)
    requires BeginClosing(db, s, final, output, error).Success?
    ensures var db' := BeginClosing(db, s, final, output, error).value;
            && db'.inputs == db.inputs && db'.invocations == db.invocations
            && (db' == db || (s in db'.sessions && db'.sessions == db.sessions[s := db'.sessions[s]] && db'.sessions[s].status.Closing?))
  {
    if db.sessions[s].status.Closing? || db.sessions[s].status.Terminal() {
      assert BeginClosing(db, s, final, output, error).value == db;
    }
  }

  lemma ClosingInputs(db: Tables, tx: Transaction)
    requires tx.Closing? && RunTransaction(db, tx).Success?
    ensures InputsMove(db, tx, RunTransaction(db, tx).value)
  {
    hide InputsMove, NothingEnds, BeginClosing;
    ClosingIs(db, tx.sessionId, tx.final, tx.output, tx.error);
    SessionGoesOn(db, RunTransaction(db, tx).value, tx.sessionId);
    Unmoved(db, tx, RunTransaction(db, tx).value);
  }

  lemma EndInputs(db: Tables, tx: Transaction)
    requires tx.Closed? || tx.Complete?
    requires RunTransaction(db, tx).Success?
    ensures InputsMove(db, tx, RunTransaction(db, tx).value)
  {
    hide Terminalize, InputsMove, NothingEnds, CreateSession, CreateAgent, TransitionSession, BeginClosing, AddSessionUsage,
         ArchiveSession, CreateHumanRequest, AnswerHumanRequest, InsertInput, ClaimInputs, InsertInvocation, StartAttempt,
         FinishAction, CancelPending;
    var db' := RunTransaction(db, tx).value;
    if db.sessions[tx.sessionId].status.Terminal() {
      SessionGoesOn(db, db', tx.sessionId);
      Unmoved(db, tx, db');
    } else {
      EndingInputs(db, tx, tx.sessionId, db'.sessions[tx.sessionId]);
    }
  }

  lemma RequestInputs(db: Tables, tx: Transaction)
    requires tx.OpenRequest? || tx.AnswerRequest?
    requires RunTransaction(db, tx).Success?
    ensures InputsMove(db, tx, RunTransaction(db, tx).value)
  {
    hide HasOpen, InputsMove, CreateSession, CreateAgent, TransitionSession, BeginClosing, FinishClosing, CompleteSession,
         AddSessionUsage, ArchiveSession, InsertInput, ClaimInputs, InsertInvocation, StartAttempt, FinishAction, CancelPending,
         NothingEnds;
    SessionGoesOn(db, RunTransaction(db, tx).value, if tx.OpenRequest? then tx.sessionId else db.requests[tx.requestId].sessionId);
    Unmoved(db, tx, RunTransaction(db, tx).value);
  }

  lemma SentInputs(db: Tables, tx: Transaction)
    requires tx.SendInput? && RunTransaction(db, tx).Success?
    ensures InputsMove(db, tx, RunTransaction(db, tx).value)
  {
    hide SenderIsLive, CreateSession, CreateAgent, TransitionSession, BeginClosing, FinishClosing, CompleteSession, AddSessionUsage,
         ArchiveSession, CreateHumanRequest, AnswerHumanRequest, ClaimInputs, InsertInvocation, StartAttempt, FinishAction,
         CancelPending, InputsMove, NothingEnds;
    var db' := RunTransaction(db, tx).value;
    SessionGoesOn(db, db', 0);
    if db'.inputs == db.inputs {
      Unmoved(db, tx, db');
    } else {
      NewInput(db, tx, db');
    }
  }

  lemma NewInput(db: Tables, tx: Transaction, db': Tables)
    requires tx.SendInput? && NothingEnds(db, db') && tx.inputId !in db.inputs
    requires db'.inputs == db.inputs[tx.inputId := tx.input.(status := Pending, claimedTurn := None)]
    ensures InputsMove(db, tx, db')
  {
    hide SessionEnds, ActionEnds;
  }

  lemma ClaimedInputs(db: Tables, tx: Transaction)
    requires tx.Claim? && RunTransaction(db, tx).Success?
    ensures InputsMove(db, tx, RunTransaction(db, tx).value)
  {
    hide CreateSession, CreateAgent, TransitionSession, BeginClosing, FinishClosing, CompleteSession, AddSessionUsage,
         ArchiveSession, CreateHumanRequest, AnswerHumanRequest, InsertInput, InsertInvocation, StartAttempt, FinishAction,
         CancelPending;
    var db' := RunTransaction(db, tx).value;
    assert forall s :: !SessionEnds(db, db', s);
    assert forall v :: !ActionEnds(db, db', v);
  }

  lemma ScheduleInputs(db: Tables, tx: Transaction)
    requires tx.Schedule? || tx.StartAction?
    requires RunTransaction(db, tx).Success?
    ensures InputsMove(db, tx, RunTransaction(db, tx).value)
  {
    hide SenderIsLive, Numbers, Greatest, HasRunning, InputsMove, CreateSession, CreateAgent, TransitionSession, BeginClosing,
         FinishClosing, CompleteSession, AddSessionUsage, ArchiveSession, CreateHumanRequest, AnswerHumanRequest, InsertInput,
         ClaimInputs, FinishAction, CancelPending, NothingEnds;
    ActionGoesOn(db, RunTransaction(db, tx).value, tx.invocationId);
    Unmoved(db, tx, RunTransaction(db, tx).value);
  }

  lemma EndedActionInputs(db: Tables, tx: Transaction, db': Tables, v: InvocationId)
    requires v in db.invocations && v in db'.invocations && db'.invocations == db.invocations[v := db'.invocations[v]]
    requires db'.invocations[v].status != db.invocations[v].status && db'.invocations[v].status.Terminal()
    requires db'.inputs == ApplyActionInputs(db.inputs, v) && db'.sessions == db.sessions && !tx.Claim?
    ensures InputsMove(db, tx, db')
  {
    assert forall s :: !SessionEnds(db, db', s);
    assert forall u :: ActionEnds(db, db', u) <==> u == v;
  }

  lemma FinishInputs(db: Tables, tx: Transaction)
    requires tx.EndAction? || tx.CancelAction?
    requires RunTransaction(db, tx).Success?
    ensures InputsMove(db, tx, RunTransaction(db, tx).value)
  {
    hide ApplyActionInputs, InputsMove, CreateSession, CreateAgent, TransitionSession, BeginClosing, FinishClosing, CompleteSession,
         AddSessionUsage, ArchiveSession, CreateHumanRequest, AnswerHumanRequest, InsertInput, ClaimInputs, InsertInvocation,
         StartAttempt;
    var db' := RunTransaction(db, tx).value;
    if db' == db {
      SessionGoesOn(db, db', 0);
      Unmoved(db, tx, db');
    } else {
      EndedActionInputs(db, tx, db', tx.invocationId);
    }
  }

  /** What every transaction does to every input: a claim takes the pending ones of its Agent
      that are addressed to no Action or to the one it names; the end of a Session or of an
      Action applies what was waiting there; everything else leaves the row alone, and new
      rows are pending. */
  lemma TransactionInputs(db: Tables, tx: Transaction)
    requires RunTransaction(db, tx).Success?
    ensures InputsMove(db, tx, RunTransaction(db, tx).value)
  {
    hide RunTransaction, InputsMove;
    match tx
    case NewSession(_) | NewAgent(_, _) => NewRowsInputs(db, tx);
    case AddUsage(_, _) | Archive(_) => MarkedInputs(db, tx);
    case ChangeSession(_, _) => ChangeInputs(db, tx);
    case Closing(_, _, _, _) => ClosingInputs(db, tx);
    case Closed(_) | Complete(_, _) => EndInputs(db, tx);
    case OpenRequest(_, _, _) | AnswerRequest(_, _) => RequestInputs(db, tx);
    case SendInput(_, _) => SentInputs(db, tx);
    case Claim(_, _, _, _) => ClaimedInputs(db, tx);
    case Schedule(_, _, _, _, _) | StartAction(_, _) => ScheduleInputs(db, tx);
    case EndAction(_, _, _, _, _) | CancelAction(_, _) => FinishInputs(db, tx);
  }

  // ---- one record ----

  ghost predicate Ends(r: Record, t: TurnId) {
    r.item.TurnUpdated? && r.item.turn.id == t && r.item.turn.status.Terminal()
  }

  // What a record does to a row: it applies what it acknowledges, and the end of a Turn gives
  // back what the Turn still holds.
  function Recorded(r: Record, i: InputId, x: AgentInput): AgentInput {
    if i in Acknowledged(r.item) then x.(status := Applied)
    else if x.status == Claimed && x.claimedTurn.Some? && r.item.TurnUpdated? && r.item.turn.status.Terminal()
            && r.item.turn.id == x.claimedTurn.value
    then x.(status := Pending, claimedTurn := None) else x
  }

  ghost predicate RecordMoves(inputs: map<InputId, AgentInput>, r: Record, inputs': map<InputId, AgentInput>) {
    && inputs'.Keys == inputs.Keys
    && forall i :: i in inputs ==>
         && inputs'[i] == Recorded(r, i, inputs[i])
         && (i in Acknowledged(r.item) ==> inputs[i].status == Claimed && inputs[i].claimedTurn == Some(ItemTurn(r.item)))
  }

  lemma RecordIs(db: Tables, r: Record)
    requires Project(db, r).Success? && Acknowledge(db.inputs, ItemTurn(r.item), Acknowledged(r.item)) == Success(AppliedAll(db.inputs, Acknowledged(r.item)))
    ensures var applied := AppliedAll(db.inputs, Acknowledged(r.item));
            Project(db, r).value.inputs ==
              if r.item.TurnUpdated? && r.item.turn.status.Terminal() then Release(applied, r.item.turn.id) else applied
  {
    hide Release, SaturatingAdd, SaturatingSub, Checkpointed, Acknowledge;
    if r.item.TurnCreated? {
      NoneApplied(db.inputs);
    }
  }

  lemma NoneApplied(inputs: map<InputId, AgentInput>)
    ensures AppliedAll(inputs, []) == inputs
  {
  }

  lemma HeldByTurn(db: Tables, r: Record)
    requires Ready(db, r)
    ensures Distinct(Acknowledged(r.item)) && forall id :: id in Acknowledged(r.item) ==> ClaimedBy(db.inputs, ItemTurn(r.item), id)
  {
  }

  /** A record applies exactly what it acknowledges, all of which its own Turn had claimed; if
      it ends the Turn, whatever else the Turn had claimed is pending again. */
  lemma RecordInputs(db: Tables, r: Record)
    requires Ready(db, r) && Project(db, r).Success?
    ensures RecordMoves(db.inputs, r, Project(db, r).value.inputs)
  {
    hide Ready, Project, Acknowledge, Distinct;
    HeldByTurn(db, r);
    AcknowledgeApplies(db.inputs, ItemTurn(r.item), Acknowledged(r.item));
    RecordIs(db, r);
    forall id | id in Acknowledged(r.item)
      ensures id in db.inputs && db.inputs[id].status == Claimed && db.inputs[id].claimedTurn == Some(ItemTurn(r.item))
    {
      assert ClaimedBy(db.inputs, ItemTurn(r.item), id);
    }
  }

  // ---- addressed inputs ----

  // A Turn that an attempt of this Action shows.
  ghost predicate Owns(attempts: map<AttemptId, Attempt>, t: TurnId, v: InvocationId) {
    exists x :: x in attempts && attempts[x].turnId == Some(t) && attempts[x].invocationId == v
  }

  // A claimed input that is addressed to an Action is held by a Turn of that Action.
  ghost predicate WellHeld(attempts: map<AttemptId, Attempt>, x: AgentInput) {
    x.status == Claimed && x.invocationId.Some? ==> x.claimedTurn.Some? && Owns(attempts, x.claimedTurn.value, x.invocationId.value)
  }

  ghost predicate AllWellHeld(db: Tables) {
    forall i :: i in db.inputs ==> WellHeld(db.attempts, db.inputs[i])
  }

  // A record's Turn belongs to every Action that an input it acknowledges is addressed to.
  ghost predicate WellDelivered(attempts: map<AttemptId, Attempt>, inputs: map<InputId, AgentInput>, r: Record) {
    forall i :: i in Acknowledged(r.item) && i in inputs && inputs[i].invocationId.Some? ==>
      Owns(attempts, ItemTurn(r.item), inputs[i].invocationId.value)
  }

  ghost predicate AllWellDelivered(db: Tables, journal: seq<Entry>) {
    forall k :: 0 <= k < |journal| ==> AllKnown(db.inputs, journal[k].record) && WellDelivered(db.attempts, db.inputs, journal[k].record)
  }

  ghost predicate AllKnown(inputs: map<InputId, AgentInput>, r: Record) {
    forall i :: i in Acknowledged(r.item) ==> i in inputs
  }

  // Claims that name an Action are made by a Turn of that Action.
  ghost predicate OwnClaim(db: Tables, step: Step) {
    step.Transact? && step.tx.Claim? && step.tx.invocationFilter.Some? ==> Owns(db.attempts, step.tx.turnId, step.tx.invocationFilter.value)
  }

  lemma OwnsStill(attempts: map<AttemptId, Attempt>, attempts': map<AttemptId, Attempt>, t: TurnId, v: InvocationId)
    requires Owns(attempts, t, v)
    requires forall x :: x in attempts && attempts[x].turnId.Some? ==>
               x in attempts' && attempts'[x].turnId == attempts[x].turnId && attempts'[x].invocationId == attempts[x].invocationId
    ensures Owns(attempts', t, v)
  {
    var x :| x in attempts && attempts[x].turnId == Some(t) && attempts[x].invocationId == v;
    assert x in attempts';
  }

  ghost predicate TurnsKept(attempts: map<AttemptId, Attempt>, attempts': map<AttemptId, Attempt>) {
    forall x :: x in attempts && attempts[x].turnId.Some? ==>
      x in attempts' && attempts'[x].turnId == attempts[x].turnId && attempts'[x].invocationId == attempts[x].invocationId
  }

  lemma DeliveredStill(db: Tables, db': Tables, journal: seq<Entry>)
    requires AllWellDelivered(db, journal) && TurnsKept(db.attempts, db'.attempts)
    requires forall i :: i in db.inputs ==> i in db'.inputs && db'.inputs[i].invocationId == db.inputs[i].invocationId
    ensures AllWellDelivered(db', journal)
  {
    hide Owns;
    forall k | 0 <= k < |journal| ensures AllKnown(db'.inputs, journal[k].record) && WellDelivered(db'.attempts, db'.inputs, journal[k].record) {
      var r := journal[k].record;
      assert AllKnown(db.inputs, r) && WellDelivered(db.attempts, db.inputs, r);
      forall i | i in Acknowledged(r.item) && i in db'.inputs && db'.inputs[i].invocationId.Some?
        ensures Owns(db'.attempts, ItemTurn(r.item), db'.inputs[i].invocationId.value)
      {
        OwnsStill(db.attempts, db'.attempts, ItemTurn(r.item), db.inputs[i].invocationId.value);
      }
    }
  }

  lemma TransactionHeld(db: Tables, tx: Transaction)
    requires AllWellHeld(db) && RunTransaction(db, tx).Success? && OwnClaim(db, Transact(tx))
    ensures var db' := RunTransaction(db, tx).value;
            && AllWellHeld(db') && TurnsKept(db.attempts, db'.attempts)
            && forall i :: i in db.inputs ==> i in db'.inputs && db'.inputs[i].invocationId == db.inputs[i].invocationId
  {
    hide RunTransaction, Owns, Settles;
    var db' := RunTransaction(db, tx).value;
    TransactionInputs(db, tx);
    TransactionMoves(db, tx);
    forall i | i in db'.inputs ensures WellHeld(db'.attempts, db'.inputs[i]) {
      assert InputMoves(db, tx, db', i);
      var x := db'.inputs[i];
      if x.status == Claimed && x.invocationId.Some? {
        if Claims(tx, db.inputs[i]) {
          OwnsStill(db.attempts, db'.attempts, tx.turnId, x.invocationId.value);
        } else {
          assert WellHeld(db.attempts, db.inputs[i]);
          OwnsStill(db.attempts, db'.attempts, x.claimedTurn.value, x.invocationId.value);
        }
      }
    }
    forall i | i in db.inputs ensures i in db'.inputs && db'.inputs[i].invocationId == db.inputs[i].invocationId {
      assert InputMoves(db, tx, db', i);
    }
  }

  lemma RecordHeld(db: Tables, r: Record, db': Tables)
    requires AllWellHeld(db) && RecordMoves(db.inputs, r, db'.inputs) && AttachesTo(db.attempts, r, db'.attempts)
    ensures AllWellHeld(db') && TurnsKept(db.attempts, db'.attempts)
    ensures forall i :: i in db.inputs ==> i in db'.inputs && db'.inputs[i].invocationId == db.inputs[i].invocationId
    ensures WellDelivered(db'.attempts, db'.inputs, r)
  {
    hide Owns;
    forall i | i in db'.inputs ensures WellHeld(db'.attempts, db'.inputs[i]) {
      assert WellHeld(db.attempts, db.inputs[i]);
      var x := db'.inputs[i];
      if x.status == Claimed && x.invocationId.Some? {
        OwnsStill(db.attempts, db'.attempts, x.claimedTurn.value, x.invocationId.value);
      }
    }
    forall i | i in Acknowledged(r.item) && i in db'.inputs && db'.inputs[i].invocationId.Some?
      ensures Owns(db'.attempts, ItemTurn(r.item), db'.inputs[i].invocationId.value)
    {
      assert WellHeld(db.attempts, db.inputs[i]);
      OwnsStill(db.attempts, db'.attempts, ItemTurn(r.item), db'.inputs[i].invocationId.value);
    }
  }

  lemma AcknowledgedKnown(db: Tables, r: Record)
    requires Ready(db, r)
    ensures AllKnown(db.inputs, r)
  {
  }

  ghost predicate Delivering(w: World) {
    AllWellHeld(w.db) && AllWellDelivered(w.db, w.journal)
  }

  lemma StepDelivers(w: World, step: Step)
    requires Inv(w) && Delivering(w) && OwnClaim(w.db, step)
    ensures Delivering(Next(w, step))
  {
    hide Inv, AllWellHeld, AllWellDelivered, TurnsKept, AttachesTo, RecordMoves, Ready, Project, RunTransaction, RunTurnOp, Prepare,
         Admit, Replay, Swept;
    if step.Transact? {
      if w.live && RunTransaction(w.db, step.tx).Success? {
        TransactionHeld(w.db, step.tx);
        DeliveredStill(w.db, Next(w, step).db, w.journal);
      }
    } else {
      hide Next, OwnClaim;
      var w' := Next(w, step);
      var r := StepProjects(w, step);
      if r.Some? {
        ProjectedAttempts(w.db, r.value);
        RecordInputs(w.db, r.value);
        RecordHeld(w.db, r.value, w'.db);
        AcknowledgedKnown(w.db, r.value);
        DeliveredStill(w.db, w'.db, w.journal);
        DeliveredMore(w'.db, w.journal, w'.journal, r.value);
      } else {
        SameHeld(w.db, w'.db, w.journal);
      }
    }
  }

  lemma SameHeld(db: Tables, db': Tables, journal: seq<Entry>)
    requires SameTables(db, db') && AllWellHeld(db) && AllWellDelivered(db, journal)
    ensures AllWellHeld(db') && AllWellDelivered(db', journal)
  {
  }

  lemma DeliveredMore(db: Tables, journal: seq<Entry>, journal': seq<Entry>, r: Record)
    requires AllWellDelivered(db, journal) && WellDelivered(db.attempts, db.inputs, r) && AllKnown(db.inputs, r)
    requires |journal'| == |journal| + 1 && journal'[..|journal|] == journal && journal'[|journal|].record == r
    ensures AllWellDelivered(db, journal')
  {
    hide WellDelivered, AllKnown;
    forall k | 0 <= k < |journal'| ensures AllKnown(db.inputs, journal'[k].record) && WellDelivered(db.attempts, db.inputs, journal'[k].record) {
      if k < |journal| {
        assert journal'[k] == journal[k];
      }
    }
  }

  ghost predicate OwnClaims(steps: seq<Step>) {
    forall n :: 0 <= n < |steps| ==> OwnClaim(Run(START, steps[..n]).db, steps[n])
  }

  lemma {:induction false} DeliveringAlways(steps: seq<Step>)
    requires OwnClaims(steps)
    ensures Delivering(Run(START, steps))
  {
    hide Inv, Next, OwnClaim;
    if steps != [] {
      var n := |steps| - 1;
      forall k | 0 <= k < n ensures OwnClaim(Run(START, steps[..n][..k]).db, steps[..n][k]) {
        assert steps[..n][..k] == steps[..k];
      }
      DeliveringAlways(steps[..n]);
      Reachable(steps[..n]);
      hide Delivering;
      StepDelivers(Run(START, steps[..n]), steps[n]);
    }
  }

  /** When every claim that names an Action is made by a Turn of that Action, no record of a
      Turn ever acknowledges an input that is addressed to another Action than the one the
      Turn was created for. */
  lemma OwnDeliveries(steps: seq<Step>, a: AgentId, i: nat, b: AgentId, j: nat, id: InputId)
    requires OwnClaims(steps) && Run(START, steps).live
    requires i < |LogOf(Run(START, steps), a)| && j < |LogOf(Run(START, steps), b)|
    requires id in Acknowledged(LogOf(Run(START, steps), a)[i].item)
    requires var created := LogOf(Run(START, steps), b)[j].item;
             created.TurnCreated? && created.turn.id == ItemTurn(LogOf(Run(START, steps), a)[i].item)
    ensures id in Run(START, steps).db.inputs
    ensures var input := Run(START, steps).db.inputs[id];
            input.invocationId.None? || input.invocationId == Some(LogOf(Run(START, steps), b)[j].item.attempt.invocationId)
  {
    hide Inv, Run, LogOf, OwnClaims, Attached;
    var w := Run(START, steps);
    Reachable(steps);
    DeliveringAlways(steps);
    AttachedAlways(steps);
    CreatedAlways(steps);
    var k := SeenRecord(w, a, i);
    var l := SeenRecord(w, b, j);
    assert AllKnown(w.db.inputs, w.journal[k].record) && WellDelivered(w.db.attempts, w.db.inputs, w.journal[k].record);
    if w.db.inputs[id].invocationId.Some? {
      OwnerIs(w.db, w.journal, l, ItemTurn(w.journal[k].record.item), w.db.inputs[id].invocationId.value);
    }
  }

  // The only attempt that shows a Turn is the one it was created for.
  lemma OwnerIs(db: Tables, journal: seq<Entry>, l: nat, t: TurnId, v: InvocationId)
    requires Attached(db.attempts, journal) && CreatedOnce(db.turns, journal) && Owns(db.attempts, t, v)
    requires l < |journal| && journal[l].record.item.TurnCreated? && journal[l].record.item.turn.id == t
    ensures journal[l].record.item.attempt.invocationId == v
  {
    hide CreatedOnce;
    var x :| x in db.attempts && db.attempts[x].turnId == Some(t) && db.attempts[x].invocationId == v;
    assert Explained(db.attempts, journal, x);
    var m :| 0 <= m < |journal| && Attaches(journal[m].record, x, t);
    assert Shown(db.attempts, journal[m].record);
    if m < l {
      TurnsDiffer(db.turns, journal, m, l);
    } else if l < m {
      TurnsDiffer(db.turns, journal, l, m);
    }
  }

  lemma TurnsDiffer(turns: map<TurnId, Turn>, journal: seq<Entry>, i: nat, j: nat)
    requires CreatedOnce(turns, journal) && i < j < |journal|
    ensures !SameTurn(journal[i].record, journal[j].record)
  {
  }
}
