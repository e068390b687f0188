// What the operations on Turns ask for and what they leave in the row and in the log, in
// any open store.
module TurnOutcomes {
  import opened Wrappers
  import opened Protocol
  import opened Tables
  import Lifecycle
  import opened Projection
  import opened Rollout
  import opened TurnLog
  import opened StoreMachine
  import opened StoreInvariant
  import opened StoreSteps
  import opened StoreRuns
  import opened Attachments

  ghost predicate Unfinished(status: TurnStatus) {
    status.Queued? || status.Running? || status.Paused?
  }

  // The inputs a record of a Turn acknowledges: each once, and all held by that Turn.
  ghost predicate Holds(inputs: map<InputId, AgentInput>, t: TurnId, ids: seq<InputId>) {
    && (forall i, j :: 0 <= i < j < |ids| ==> ids[i] != ids[j])
    && (forall id :: id in ids ==> id in inputs && inputs[id].status == Claimed && inputs[id].claimedTurn == Some(t))
  }

  ghost predicate HasRoom(w: World, a: AgentId) {
    |LogOf(w, a)| < 0xFFFF_FFFF_FFFF_FFFF
  }

  // One record more in the log of an Agent, and the row of its Turn as given.
  ghost predicate Wrote(w: World, w': World, a: AgentId, item: RolloutItem, turn: Turn) {
    && w'.logs == w.logs[a := LogOf(w, a) + [Record(1, a, |LogOf(w, a)| + 1, item)]]
    && w'.db.turns == w.db.turns[turn.id := turn]
  }

  ghost predicate WroteNothing(w: World, w': World) {
    w'.logs == w.logs && w'.db == w.db
  }

  // ---- what is planned is what is written ----

  lemma ReplayIdle(w: World, a: AgentId)
    requires Inv(w) && w.live
    ensures Replay(w, a).Success? && CaughtUp(Replay(w, a).value, a) && Inv(Replay(w, a).value)
    ensures Replay(w, a).value == w.(cache := Replay(w, a).value.cache)
  {
    hide Inv, Replay, Lifecycle.Advances, CaughtUp, Waiting;
    LiveMeansSettled(w);
    ReplayKeeps(w, a);
  }

  lemma AdmitIs(w: World, a: AgentId, item: RolloutItem)
    requires CaughtUp(w, a)
    ensures Admit(w, a, item).Success? <==> AcknowledgementsValid(w.db.inputs, item) && HasRoom(w, a)
    ensures NextRecord(w, a, item) == Record(1, a, |LogOf(w, a)| + 1, item)
  {
    hide AcknowledgementsValid;
    ReplayNothing(w, a);
  }

  lemma PlannedWrites(w: World, op: TurnOp, a: AgentId, item: RolloutItem)
    requires Inv(w) && w.live && AgentOf(w.db, op) == Success(a) && Plan(w.db, LogOf(w, a), op) == Success(Some(item))
    ensures Accepts(w, op) <==> AcknowledgementsValid(w.db.inputs, item) && HasRoom(w, a)
    ensures var r, w' := Record(1, a, |LogOf(w, a)| + 1, item), RunTurnOp(w, op);
            if Accepts(w, op) then
              && w'.logs == w.logs[a := LogOf(w, a) + [r]]
              && Project(w.db, r).Success? && SameTables(Project(w.db, r).value, w'.db)
            else WroteNothing(w, w')
  {
    hide Inv, Replay, Admit, Commit, Plan, AgentOf, CaughtUp, Lifecycle.Advances, AcknowledgementsValid, Project, Ready,
         NextRecord, SameTables;
    ReplayIdle(w, a);
    var w1 := Replay(w, a).value;
    AdmitIs(w1, a, item);
    if Admit(w1, a, item).Success? {
      CommitKeeps(w1, op, a, item);
      CommitProjects(w1, op, a, item);
    } else {
      CommitRefused(w1, a, item);
    }
  }

  lemma UnplannedWrites(w: World, op: TurnOp)
    requires Inv(w) && w.live
    requires AgentOf(w.db, op).Success? ==>
               var plan := Plan(w.db, LogOf(w, AgentOf(w.db, op).value), op); plan.Success? ==> plan.value.None?
    ensures Accepts(w, op) <==> AgentOf(w.db, op).Success? && Plan(w.db, LogOf(w, AgentOf(w.db, op).value), op).Success?
    ensures WroteNothing(w, RunTurnOp(w, op))
  {
    hide Inv, Replay, Admit, Commit, Plan, AgentOf, CaughtUp, Lifecycle.Advances;
    if AgentOf(w.db, op).Success? {
      ReplayIdle(w, AgentOf(w.db, op).value);
    }
  }

  lemma RowIs(w: World, t: TurnId)
    requires Inv(w) && t in w.db.turns
    ensures w.db.turns[t].id == t
  {
    hide ProjectionOk, AccountsOk, DeliveryOk, Ready;
  }

  // ---- checkpoints ----

  /** A Turn that has not ended takes a checkpoint, if it holds what it acknowledges: usage,
      steps and message are in its row then, and the mutation is in the log. */
  lemma CheckpointIs(steps: seq<Step>, op: TurnOp)
    requires Run(START, steps).live && op.Checkpoint?
    ensures var w, w', t := Run(START, steps), Run(START, steps + [Do(op)]), op.turnId;
            && (Accepts(w, op) <==>
                  && t in w.db.turns && Unfinished(w.db.turns[t].status) && Holds(w.db.inputs, t, op.ids)
                  && HasRoom(w, w.db.turns[t].agentId))
            && (if Accepts(w, op) then
                  Wrote(w, w', w.db.turns[t].agentId, ContextCheckpoint(t, op.mutation, op.usage, op.steps, op.message, op.ids),
                        w.db.turns[t].(usage := op.usage, completedModelSteps := op.steps, checkpointMessage := op.message))
                else WroteNothing(w, w'))
  {
    hide Inv, Run, Accepts, RunTurnOp, Project, HasRoom, Lifecycle.Terminal, LogOf, RunTransaction, AddExternal,
         Stopped, Prepare, Admit, Touched, Appended, NextRecord, Swept, Or, Replay, ExpectedInput, HasLiveTurn,
         Reconstruct, ChargedSession;
    var w := Run(START, steps);
    Reachable(steps);
    RunsOne(steps, Do(op));
    if op.turnId in w.db.turns && !w.db.turns[op.turnId].status.Terminal() {
      var a := w.db.turns[op.turnId].agentId;
      var item := ContextCheckpoint(op.turnId, op.mutation, op.usage, op.steps, op.message, op.ids);
      PlannedWrites(w, op, a, item);
      RowIs(w, op.turnId);
      if Accepts(w, op) {
        ProjectEffect(w.db, Record(1, a, |LogOf(w, a)| + 1, item));
      }
    } else {
      UnplannedWrites(w, op);
    }
  }

  lemma RunsOne(steps: seq<Step>, step: Step)
    ensures Run(START, steps + [step]) == Next(Run(START, steps), step)
  {
    hide Next;
    assert (steps + [step])[..|steps|] == steps;
  }

  // ---- status changes ----

  ghost predicate MeansStatus(change: TurnChange, status: TurnStatus) {
    match change
    case StartTurn => status.Running?
    case PauseTurn => status.Paused?
    case ResumeTurn => status.Running?
    case FailTurn(_) => status.Failed?
    case InterruptTurn(_) => status.Interrupted?
    case CancelTurn => status.Cancelled?
  }

  // A Turn that was never started cannot be paused, resumed or interrupted.
  ghost predicate MayFollow(change: TurnChange, status: TurnStatus) {
    Unfinished(status) && (change.StartTurn? || change.FailTurn? || change.CancelTurn? || !status.Queued?)
  }

  ghost predicate MeansError(change: TurnChange, error: Option<string>) {
    match change
    case FailTurn(text) => error == Some(text)
    case InterruptTurn(text) => error == Some(text)
    case CancelTurn => error == Some("cancelled by user")
    case _ => error == None
  }

  lemma ChangeMeans(change: TurnChange, status: TurnStatus)
    ensures MeansStatus(change, status) <==> status == change.Target()
    ensures MayFollow(change, status) <==> change.AllowedFrom(status)
    ensures MeansError(change, change.Error())
  {
  }

  // The row of a Turn with the status and the error a change means.
  ghost predicate ChangedTo(change: TurnChange, turn: Turn, turn': Turn) {
    MeansStatus(change, turn'.status) && MeansError(change, turn'.error) && turn' == turn.(status := turn'.status, error := turn'.error)
  }

  /** A change of status goes through from the statuses it may follow, and leaves the status
      and the error it means; where the status is that already, nothing is written. */
  lemma ChangeTurnIs(steps: seq<Step>, op: TurnOp) returns (turn: Turn)
    requires Run(START, steps).live && op.ChangeTurn?
    ensures var w, w', t := Run(START, steps), Run(START, steps + [Do(op)]), op.turnId;
            var there := t in w.db.turns && MeansStatus(op.change, w.db.turns[t].status);
            var moved := && t in w.db.turns && !there && MayFollow(op.change, w.db.turns[t].status) && Holds(w.db.inputs, t, op.ids)
                         && HasRoom(w, w.db.turns[t].agentId);
            && (Accepts(w, op) <==> there || moved)
            && (if moved then ChangedTo(op.change, w.db.turns[t], turn) && Wrote(w, w', w.db.turns[t].agentId, TurnUpdated(turn, op.ids), turn)
                else WroteNothing(w, w'))
  {
    hide Inv, Run, Accepts, RunTurnOp, Project, MeansStatus, MayFollow, MeansError, TurnChange.Target, TurnChange.AllowedFrom,
         TurnChange.Error;
    var w := Run(START, steps);
    Reachable(steps);
    RunsOne(steps, Do(op));
    turn := Turn(0, 0, TurnStatus.Queued, "", None, NO_USAGE, 0, None, None);
    if op.turnId in w.db.turns {
      turn := w.db.turns[op.turnId];
      ChangeMeans(op.change, turn.status);
      ChangeMeans(op.change, op.change.Target());
      RowIs(w, op.turnId);
      if turn.status != op.change.Target() && op.change.AllowedFrom(turn.status) {
        var a := turn.agentId;
        turn := turn.(status := op.change.Target(), error := op.change.Error());
        PlannedWrites(w, op, a, TurnUpdated(turn, op.ids));
        if Accepts(w, op) {
          ProjectEffect(w.db, Record(1, a, |LogOf(w, a)| + 1, TurnUpdated(turn, op.ids)));
        }
      } else {
        UnplannedWrites(w, op);
      }
    } else {
      UnplannedWrites(w, op);
    }
  }

  // ---- completion ----

  lemma MessageIs(w: World, t: TurnId)
    requires Inv(w) && w.live && t in w.db.turns && !w.db.turns[t].status.Terminal()
    ensures var st := Reconstruct(LogOf(w, w.db.turns[t].agentId));
            && st.Success? && st.value.active.Some? && st.value.active.value.turnId == t
            && st.value.active.value.checkpointMessage == w.db.turns[t].checkpointMessage
  {
    hide AccountsOk, DeliveryOk, Ready, Reconstruct, Numbered, Fitted, Lifecycle.Ok, CacheOk;
    var a := w.db.turns[t].agentId;
    LiveMeansSettled(w);
    RowsAreLog(w, a);
    assert t in RowsOf(w.db.turns, a);
    EmptyReconstruct();
  }

  /** A running Turn completes with the text of its last checkpoint as its output, the tokens
      it is given, and no error. */
  lemma CompleteTurnIs(steps: seq<Step>, op: TurnOp)
    requires Run(START, steps).live && op.CompleteTurn?
    ensures var w, w', t := Run(START, steps), Run(START, steps + [Do(op)]), op.turnId;
            && (Accepts(w, op) <==>
                  && t in w.db.turns && w.db.turns[t].status.Running? && w.db.turns[t].checkpointMessage == Some(op.output)
                  && HasRoom(w, w.db.turns[t].agentId))
            && (if Accepts(w, op) then
                  var turn := w.db.turns[t].(status := TurnStatus.Completed, output := Some(op.output), error := None,
                                             usage := op.usage.(hostedSearches := w.db.turns[t].usage.hostedSearches));
                  Wrote(w, w', w.db.turns[t].agentId, TurnUpdated(turn, []), turn)
                else WroteNothing(w, w'))
  {
    hide Inv, Run, Accepts, RunTurnOp, Project, Reconstruct, HasRoom, WroteNothing, Lifecycle.Terminal, LogOf,
         RunTransaction, AddExternal, Stopped, Prepare, Admit, Touched, Appended, NextRecord, Swept, Or, Replay,
         ExpectedInput, HasLiveTurn, ClaimedBy, ItemTurn, Checkpointed, ChargedSession;
    var w := Run(START, steps);
    Reachable(steps);
    RunsOne(steps, Do(op));
    var t := op.turnId;
    if t in w.db.turns && !w.db.turns[t].status.Terminal() {
      MessageIs(w, t);
    }
    if t in w.db.turns && w.db.turns[t].status.Running? && w.db.turns[t].checkpointMessage == Some(op.output) {
      var a := w.db.turns[t].agentId;
      var turn := w.db.turns[t].(status := TurnStatus.Completed, output := Some(op.output), error := None,
                                 usage := op.usage.(hostedSearches := w.db.turns[t].usage.hostedSearches));
      PlannedWrites(w, op, a, TurnUpdated(turn, []));
      RowIs(w, t);
      if Accepts(w, op) {
        ProjectEffect(w.db, Record(1, a, |LogOf(w, a)| + 1, TurnUpdated(turn, [])));
      }
    } else {
      UnplannedWrites(w, op);
    }
  }

  // ---- creation ----

  // The text a Turn of an Action works on: the Action's own, or the answer it waited for.
  ghost predicate WorksOn(db: Tables, action: Invocation, a: AgentId, text: string) {
    if action.source.FromHumanRequest? then
      var q := action.source.requestId;
      && q in db.requests && db.requests[q].sessionId == action.sessionId && db.requests[q].agentId == a
      && db.requests[q].status.Answered? && db.requests[q].answer == Some(text)
    else action.input == text
  }

  /** Whether an Agent may work on an attempt now: it is the Agent of the Action, in a Session
      that goes on, the attempt has neither ended nor had a Turn, and the Agent no other Turn. */
  ghost predicate MayCreate(db: Tables, x: AttemptId, a: AgentId, text: string) {
    && a in db.agents && x in db.attempts && db.attempts[x].invocationId in db.invocations
    && db.agents[a] in db.sessions
    && var session, attempt, action := db.sessions[db.agents[a]], db.attempts[x], db.invocations[db.attempts[x].invocationId];
       && !session.archived && !session.status.Completed? && !session.status.Failed? && !session.status.Cancelled?
       && action.agentId == a && action.sessionId == db.agents[a] && WorksOn(db, action, a, text)
       && (attempt.status.Running? || attempt.status.Scheduled?) && attempt.turnId.None?
       && forall t :: t in db.turns && db.turns[t].agentId == a ==> !Unfinished(db.turns[t].status)
  }

  lemma ExpectedIs(db: Tables, action: Invocation, a: AgentId, text: string)
    ensures ExpectedInput(db, action, a, text) == Success(true) <==> WorksOn(db, action, a, text)
  {
  }

  lemma NoLiveIs(turns: map<TurnId, Turn>, a: AgentId)
    ensures HasLiveTurn(turns, a) <==> !forall t :: t in turns && turns[t].agentId == a ==> !Unfinished(turns[t].status)
  {
  }

  lemma CreatePlan(db: Tables, log: seq<Record>, op: TurnOp)
    requires op.CreateTurn?
    ensures var x, a, t := op.attemptId, op.agentId, op.turnId;
            if MayCreate(db, x, a, op.input) && t !in db.turns then
              Plan(db, log, op) == Success(Some(TurnCreated(Turn(t, a, TurnStatus.Queued, op.input, None, NO_USAGE, 0, None, None),
                                                            db.attempts[x].(turnId := Some(t)))))
            else Plan(db, log, op).Failure?
  {
    hide Reconstruct, ExpectedInput, WorksOn, HasLiveTurn, Unfinished, TurnChange.Target, TurnChange.AllowedFrom, TurnChange.Error;
    NoLiveIs(db.turns, op.agentId);
    if op.attemptId in db.attempts && db.attempts[op.attemptId].invocationId in db.invocations {
      ExpectedIs(db, db.invocations[db.attempts[op.attemptId].invocationId], op.agentId, op.input);
    }
  }

  /** A Turn is created for an attempt exactly when its Agent may work on it: queued, with the
      text it works on and nothing else, and the attempt shows it. */
  lemma CreateTurnIs(steps: seq<Step>, op: TurnOp)
    requires Run(START, steps).live && op.CreateTurn?
    ensures var w, w' := Run(START, steps), Run(START, steps + [Do(op)]); var x, a, t := op.attemptId, op.agentId, op.turnId;
            && (Accepts(w, op) <==> MayCreate(w.db, x, a, op.input) && t !in w.db.turns && HasRoom(w, a))
            && (if Accepts(w, op) then
                  var turn := Turn(t, a, TurnStatus.Queued, op.input, None, Usage(0, 0, 0, 0, 0), 0, None, None);
                  && Wrote(w, w', a, TurnCreated(turn, w.db.attempts[x].(turnId := Some(t))), turn)
                  && w'.db.attempts == w.db.attempts[x := w.db.attempts[x].(turnId := Some(t))]
                else WroteNothing(w, w'))
  {
    hide Inv, Run, Accepts, RunTurnOp, Plan, MayCreate;
    var w := Run(START, steps);
    Reachable(steps);
    RunsOne(steps, Do(op));
    var x, a, t := op.attemptId, op.agentId, op.turnId;
    CreatePlan(w.db, LogOf(w, a), op);
    if MayCreate(w.db, x, a, op.input) && t !in w.db.turns {
      var item := Plan(w.db, LogOf(w, a), op).value.value;
      PlannedWrites(w, op, a, item);
      AttemptId(w, op);
      if Accepts(w, op) {
        ProjectEffect(w.db, Record(1, a, |LogOf(w, a)| + 1, item));
      }
    } else {
      UnplannedWrites(w, op);
    }
  }

  lemma AttemptId(w: World, op: TurnOp)
    requires Inv(w) && op.CreateTurn? && MayCreate(w.db, op.attemptId, op.agentId, op.input)
    ensures w.db.attempts[op.attemptId].id == op.attemptId
  {
    hide ProjectionOk, AccountsOk, DeliveryOk, Ready;
  }
}
