// Projecting a rollout record into the tables: when a record is ready, projection
// succeeds and keeps the store's invariant.
module Projection {
  import opened Wrappers
  import opened Protocol
  import opened Tables
  import opened Lifecycle

  // ---- acknowledgements ----

  // All of the acknowledged inputs applied at once.
  function AppliedAll(inputs: map<InputId, AgentInput>, ids: seq<InputId>): map<InputId, AgentInput> {
    map i | i in inputs :: if i in ids then inputs[i].(status := Applied) else inputs[i]
  }

  lemma {:induction false} AcknowledgeApplies(inputs: map<InputId, AgentInput>, turnId: TurnId, ids: seq<InputId>)
    requires Distinct(ids) && forall id :: id in ids ==> ClaimedBy(inputs, turnId, id)
    ensures Acknowledge(inputs, turnId, ids) == Success(AppliedAll(inputs, ids))
  {
    if ids == [] {
      assert AppliedAll(inputs, ids) == inputs;
    } else {
      assert ClaimedBy(inputs, turnId, ids[0]);
      var inputs' := inputs[ids[0] := inputs[ids[0]].(status := Applied)];
      forall id | id in ids[1..] ensures ClaimedBy(inputs', turnId, id) {
        var j :| 1 <= j < |ids| && ids[j] == id;
        assert ids[0] != ids[j];
        assert ClaimedBy(inputs, turnId, id);
      }
      AcknowledgeApplies(inputs', turnId, ids[1..]);
      assert AppliedAll(inputs', ids[1..]) == AppliedAll(inputs, ids);
    }
  }

  lemma AppliedAllOk(db: Tables, ids: seq<InputId>)
    requires InputsOk(db.turns, db.agents, db.inputs) && InputsQuiet(db.sessions, db.inputs)
    ensures InputsOk(db.turns, db.agents, AppliedAll(db.inputs, ids))
    ensures InputsQuiet(db.sessions, AppliedAll(db.inputs, ids))
    ensures InputsAdvance(db.inputs, AppliedAll(db.inputs, ids))
  {
  }

  // ---- turns ----

  ghost predicate NewTurn(turn: Turn) {
    turn.status.Queued? && turn.usage == NO_USAGE && turn.checkpointMessage.None? && turn.output.None?
  }

  // The next row of a Turn that a status update may write.
  ghost predicate NextTurn(row: Turn, turn: Turn) {
    && turn == row.(status := turn.status, output := turn.output, usage := turn.usage, error := turn.error)
    && (!turn.status.Terminal() ==> turn.usage == row.usage && turn.output == row.output)
    && (turn.status.Completed? ==> turn.output.Some? && turn.output == turn.checkpointMessage)
  }

  ghost predicate NoLiveTurn(turns: map<TurnId, Turn>, agentId: AgentId) {
    forall t :: t in turns && turns[t].agentId == agentId ==> turns[t].status.Terminal()
  }

  // What the store has established about a record when it appends it.
  ghost predicate Ready(db: Tables, r: Record) {
    && r.agentId in db.agents
    && AcknowledgementsValid(db.inputs, r.item)
    && match r.item
       case TurnCreated(turn, attempt) =>
         && turn.agentId == r.agentId && turn.id !in db.turns && NewTurn(turn) && NoLiveTurn(db.turns, r.agentId)
         && attempt.id in db.attempts && db.attempts[attempt.id].turnId.None?
         && attempt == db.attempts[attempt.id].(turnId := Some(turn.id))
       case ContextCheckpoint(turnId, _, _, _, _, _) => Live(db.turns, turnId, r.agentId)
       case TurnUpdated(turn, _) => Live(db.turns, turn.id, r.agentId) && NextTurn(db.turns[turn.id], turn)
  }

  // A Turn row added, or a live one rewritten and left live.
  lemma WriteLiveTurn(db: Tables, turn: Turn)
    requires TurnsOk(db.turns, db.agents) && InputsOk(db.turns, db.agents, db.inputs)
    requires turn.agentId in db.agents && !turn.status.Terminal()
    requires turn.id in db.turns ==> Live(db.turns, turn.id, turn.agentId)
    ensures TurnsOk(db.turns[turn.id := turn], db.agents)
    ensures InputsOk(db.turns[turn.id := turn], db.agents, db.inputs)
    ensures TurnsAdvance(db.turns, db.turns[turn.id := turn])
  {
  }

  // A Turn ended: its claims are released in the same transaction.
  lemma WriteEndedTurn(db: Tables, turn: Turn)
    requires TurnsOk(db.turns, db.agents) && InputsOk(db.turns, db.agents, db.inputs)
    requires InputsQuiet(db.sessions, db.inputs)
    requires Live(db.turns, turn.id, turn.agentId)
    ensures TurnsOk(db.turns[turn.id := turn], db.agents)
    ensures InputsOk(db.turns[turn.id := turn], db.agents, Release(db.inputs, turn.id))
    ensures InputsQuiet(db.sessions, Release(db.inputs, turn.id))
    ensures TurnsAdvance(db.turns, db.turns[turn.id := turn])
    ensures InputsAdvance(db.inputs, Release(db.inputs, turn.id))
  {
  }

  // Attaching a Turn to an attempt changes neither its number nor its status.
  lemma AttachTurn(db: Tables, attempt: Attempt)
    requires NumbersOk(db.attempts) && RunningOk(db.invocations, db.attempts)
    requires attempt.id in db.attempts && attempt == db.attempts[attempt.id].(turnId := attempt.turnId)
    ensures NumbersOk(db.attempts[attempt.id := attempt])
    ensures RunningOk(db.invocations, db.attempts[attempt.id := attempt])
  {
    var after := db.attempts[attempt.id := attempt];
    RenumberKeeps(db.attempts, attempt.id, attempt);
    forall v | v in db.invocations && db.invocations[v].status.Running? ensures HasRunning(after, v) {
      RunningUnchanged(db.attempts, after, v);
    }
    forall x, y | SameAction(after, x, y) && after[x].status.Running? ensures after[y].number <= after[x].number {
      assert SameAction(db.attempts, x, y);
    }
  }

  lemma CreatedKeeps(db: Tables, r: Record)
    requires Ok(db) && Ready(db, r) && r.item.TurnCreated?
    ensures Project(db, r).Success? && Keeps(db, Project(db, r))
  {
    AdvancesReflexive(db);
    WriteLiveTurn(db, r.item.turn);
    AttachTurn(db, r.item.attempt);
  }

  // A Session row changed in nothing but its counters.
  lemma WriteUsage(db: Tables, s: SessionId, usage: Usage, inputs: map<InputId, AgentInput>)
    requires SessionsOk(db.sessions) && AgentsOk(db.agents, db.sessions) && AttentionOk(db.sessions, db.requests)
    requires InputsQuiet(db.sessions, inputs) && RequestsQuiet(db.sessions, db.requests) && s in db.sessions
    ensures var sessions := db.sessions[s := db.sessions[s].(usage := usage)];
            && SessionsOk(sessions) && AgentsOk(db.agents, sessions) && SessionsAdvance(db.sessions, sessions)
            && InputsQuiet(sessions, inputs) && RequestsQuiet(sessions, db.requests) && AttentionOk(sessions, db.requests)
  {
    var session := db.sessions[s].(usage := usage);
    WriteSession(db, s, session, inputs, db.requests);
    WriteAttention(db.sessions, db.requests, db.requests, s, session);
  }

  lemma CheckpointKeeps(db: Tables, r: Record)
    requires Ok(db) && Ready(db, r) && r.item.ContextCheckpoint?
    ensures Project(db, r).Success? && Keeps(db, Project(db, r))
  {
    hide SessionsOk, InputsOk, InputsQuiet, RequestsQuiet, AttentionOk, NumbersOk, RunningOk;
    AdvancesReflexive(db);
    var turn := db.turns[r.item.turnId];
    var s := db.agents[turn.agentId];
    AcknowledgeApplies(db.inputs, r.item.turnId, r.item.acknowledged);
    AppliedAllOk(db, r.item.acknowledged);
    var inputs := AppliedAll(db.inputs, r.item.acknowledged);
    WriteLiveTurn(db.(inputs := inputs), Checkpointed(turn, r.item));
    WriteUsage(db, s, SaturatingAdd(db.sessions[s].usage, SaturatingSub(r.item.usage, turn.usage)), inputs);
  }

  lemma UpdatedKeeps(db: Tables, r: Record)
    requires Ok(db) && Ready(db, r) && r.item.TurnUpdated?
    ensures Project(db, r).Success? && Keeps(db, Project(db, r))
  {
    hide SessionsOk, AgentsOk, InputsOk, InputsQuiet, RequestsQuiet, AttentionOk, NumbersOk, RunningOk,
         SessionsAdvance, AgentsAdvance, TurnsAdvance, InvocationsAdvance, RequestsAdvance, Acknowledge, Release,
         AppliedAll;
    AdvancesReflexive(db);
    var turn := r.item.turn;
    AcknowledgeApplies(db.inputs, turn.id, r.item.acknowledged);
    AppliedAllOk(db, r.item.acknowledged);
    var inputs := AppliedAll(db.inputs, r.item.acknowledged);
    if turn.status.Terminal() {
      WriteEndedTurn(db.(inputs := inputs), turn);
    } else {
      WriteLiveTurn(db.(inputs := inputs), turn);
    }
  }

  // A ready record always projects, and the projection keeps the invariant.
  lemma ProjectKeeps(db: Tables, r: Record)
    requires Ok(db) && Ready(db, r)
    ensures Project(db, r).Success? && Keeps(db, Project(db, r))
  {
    match r.item
    case TurnCreated(_, _) => CreatedKeeps(db, r);
    case ContextCheckpoint(_, _, _, _, _, _) => CheckpointKeeps(db, r);
    case TurnUpdated(_, _) => UpdatedKeeps(db, r);
  }

  // ---- input delivery ----

  lemma ReleaseKeepsApplied(inputs: map<InputId, AgentInput>, turnId: TurnId)
    ensures forall id :: id in inputs && inputs[id].status == Applied ==>
              id in Release(inputs, turnId) && Release(inputs, turnId)[id] == inputs[id]
  {
  }

  // Every acknowledged input is applied once its record is projected.
  lemma AcknowledgedAreApplied(db: Tables, r: Record)
    requires AcknowledgementsValid(db.inputs, r.item) && Project(db, r).Success?
    ensures forall id :: id in Acknowledged(r.item) ==>
              && id in db.inputs && db.inputs[id].status == Claimed
              && id in Project(db, r).value.inputs && Project(db, r).value.inputs[id].status == Applied
  {
    hide Distinct, Acknowledge, Release, Checkpointed, SaturatingAdd, SaturatingSub;
    if !r.item.TurnCreated? {
      AcknowledgeApplies(db.inputs, ItemTurn(r.item), Acknowledged(r.item));
      ReleaseKeepsApplied(AppliedAll(db.inputs, Acknowledged(r.item)), ItemTurn(r.item));
      forall id | id in Acknowledged(r.item) ensures id in db.inputs && db.inputs[id].status == Claimed {
        assert ClaimedBy(db.inputs, ItemTurn(r.item), id);
      }
    }
  }

  // When a Turn ends, each of its inputs is applied if the record acknowledges it and
  // is pending again otherwise; other inputs do not move.
  lemma EndedTurnReleases(db: Tables, r: Record, i: InputId)
    requires AcknowledgementsValid(db.inputs, r.item) && Project(db, r).Success?
    requires r.item.TurnUpdated? && r.item.turn.status.Terminal() && i in db.inputs
    ensures i in Project(db, r).value.inputs
    ensures Project(db, r).value.inputs[i] ==
            if i in r.item.acknowledged then db.inputs[i].(status := Applied)
            else if ClaimedBy(db.inputs, r.item.turn.id, i) then db.inputs[i].(status := Pending, claimedTurn := None)
            else db.inputs[i]
  {
    AcknowledgeApplies(db.inputs, r.item.turn.id, r.item.acknowledged);
  }
}
