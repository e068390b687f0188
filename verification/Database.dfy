// The Project store as the object it is in the program: tables and the sequence cache are
// fields, and every operation assigns them. Each method is proved to do what the store
// machine's step says, and so to keep the store's invariant.
module Database {
  import opened Wrappers
  import opened Protocol
  import opened Rollout
  import opened Tables
  import opened StoreMachine
  import opened StoreInvariant
  import opened StoreSteps
  import opened StoreRuns

  // ---- the loops inside a transaction ----

  // Refuses a repeated or an unclaimed input before the record becomes durable.
  method ValidateRolloutItem(inputs: map<InputId, AgentInput>, item: RolloutItem) returns (valid: bool)
    ensures valid == AcknowledgementsValid(inputs, item)
  {
    var ids, turnId := Acknowledged(item), ItemTurn(item);
    var seen: set<InputId> := {};
    for i := 0 to |ids|
      invariant seen == set j | 0 <= j < i :: ids[j]
      invariant forall j, k :: 0 <= j < k < i ==> ids[j] != ids[k]
      invariant forall j :: 0 <= j < i ==> ClaimedBy(inputs, turnId, ids[j])
    {
      if ids[i] in seen {
        return false;
      }
      seen := seen + {ids[i]};
      if ids[i] !in inputs || inputs[ids[i]].status != Claimed || inputs[ids[i]].claimedTurn != Some(turnId) {
        assert !ClaimedBy(inputs, turnId, ids[i]);
        return false;
      }
    }
    return true;
  }

  method ApplyAcknowledgements(inputs: map<InputId, AgentInput>, turnId: TurnId, ids: seq<InputId>)
    returns (r: Result<map<InputId, AgentInput>>)
    ensures r == Acknowledge(inputs, turnId, ids)
  {
    var rows := inputs;
    for i := 0 to |ids|
      invariant Acknowledge(inputs, turnId, ids) == Acknowledge(rows, turnId, ids[i..])
    {
      if ids[i] !in rows {
        return Failure("not found");
      }
      var message := rows[ids[i]];
      if message.status != Applied {
        if message.status != Claimed || message.claimedTurn != Some(turnId) {
          return Failure("input is not claimed by the Turn");
        }
        rows := rows[ids[i] := message.(status := Applied)];
      }
    }
    return Success(rows);
  }

  method ApplyTurnCreated(transaction: Tables, record: Record) returns (r: Result<Tables>)
    requires record.item.TurnCreated?
    ensures r == Project(transaction, record)
  {
    var db, turn, attempt := transaction, record.item.turn, record.item.attempt;
    if turn.id in db.turns {
      return Failure("Turn id already used");
    }
    db := db.(turns := db.turns[turn.id := turn]);
    if attempt.id !in db.attempts || turn.agentId !in db.agents {
      return Failure("not found");
    }
    db := db.(attempts := db.attempts[attempt.id := attempt]);
    return Success(db);
  }

  method ApplyContextCheckpoint(transaction: Tables, record: Record) returns (r: Result<Tables>)
    requires record.item.ContextCheckpoint?
    ensures r == Project(transaction, record)
  {
    hide Acknowledge, SaturatingAdd, SaturatingSub;
    var db, turnId, usage := transaction, record.item.turnId, record.item.usage;
    if turnId !in db.turns || db.turns[turnId].agentId !in db.agents || db.agents[db.turns[turnId].agentId] !in db.sessions {
      return Failure("not found");
    }
    var turn := db.turns[turnId];
    var delta := SaturatingSub(usage, turn.usage);
    turn := turn.(usage := usage, completedModelSteps := record.item.completedModelSteps);
    turn := turn.(checkpointMessage := record.item.checkpointMessage);
    db := db.(turns := db.turns[turnId := turn]);
    var sessionId := db.agents[turn.agentId];
    var session := db.sessions[sessionId];
    db := db.(sessions := db.sessions[sessionId := session.(usage := SaturatingAdd(session.usage, delta))]);
    var inputs :- ApplyAcknowledgements(db.inputs, turnId, record.item.acknowledged);
    db := db.(inputs := inputs);
    return Success(db);
  }

  method ApplyTurnUpdated(transaction: Tables, record: Record) returns (r: Result<Tables>)
    requires record.item.TurnUpdated?
    ensures r == Project(transaction, record)
  {
    hide Acknowledge, Release;
    var db, turn := transaction, record.item.turn;
    if turn.id !in db.turns || turn.agentId !in db.agents {
      return Failure("not found");
    }
    db := db.(turns := db.turns[turn.id := turn]);
    var inputs :- ApplyAcknowledgements(db.inputs, turn.id, record.item.acknowledged);
    db := db.(inputs := inputs);
    if turn.status.Terminal() {
      db := db.(inputs := Release(db.inputs, turn.id));
    }
    return Success(db);
  }

  method ApplyRolloutRecord(transaction: Tables, record: Record) returns (r: Result<Tables>)
    ensures r == Project(transaction, record)
  {
    hide Project;
    match record.item
    case TurnCreated(_, _) => r := ApplyTurnCreated(transaction, record);
    case ContextCheckpoint(_, _, _, _, _, _) => r := ApplyContextCheckpoint(transaction, record);
    case TurnUpdated(_, _) => r := ApplyTurnUpdated(transaction, record);
  }

  // All records of a replay, in one transaction.
  method ProjectRecords(transaction: Tables, records: seq<Record>, ghost w: World)
    returns (r: Result<Tables>, ghost entries: seq<Charges.Entry>)
    requires w.db == transaction
    ensures r.Success? == ProjectAll(w, records).Success?
    ensures r.Success? ==> ProjectAll(w, records).value == w.(db := r.value, journal := entries)
    ensures records == [] && r.Success? ==> r.value == transaction
  {
    hide Project, ProjectAll;
    ProjectNone(w);
    var db := transaction;
    entries := w.journal;
    assert records[0..] == records;
    for i := 0 to |records|
      invariant ProjectAll(w, records) == ProjectAll(w.(db := db, journal := entries), records[i..])
      invariant i == 0 ==> db == transaction
    {
      var projection := ApplyRolloutRecord(db, records[i]);
      ProjectHead(w.(db := db, journal := entries), records[i..]);
      assert records[i..][0] == records[i] && records[i..][1..] == records[i + 1..];
      if projection.Failure? || records[i].agentId !in db.agents {
        return Failure("projection failed"), entries;
      }
      entries := entries + [Charges.Entry(db.agents[records[i].agentId], records[i])];
      db := projection.value;
    }
    ProjectNone(w.(db := db, journal := entries));
    return Success(db), entries;
  }

  lemma ProjectNone(w: World)
    ensures ProjectAll(w, []) == Success(w)
  {
  }

  lemma ProjectHead(w: World, records: seq<Record>)
    requires records != []
    ensures ProjectOne(w, records[0]).Success? ==>
              ProjectAll(w, records) == ProjectAll(ProjectOne(w, records[0]).value, records[1..])
    ensures ProjectOne(w, records[0]).Failure? ==> ProjectAll(w, records).Failure?
  {
  }

  // The applied inputs of an ended Action, row by row.
  method ApplyTerminalActionInputs(inputs: map<InputId, AgentInput>, invocationId: InvocationId)
    returns (rows: map<InputId, AgentInput>)
    ensures rows == ApplyActionInputs(inputs, invocationId)
  {
    rows := inputs;
    var documents := set i | i in inputs && inputs[i].invocationId == Some(invocationId) && inputs[i].status != Applied;
    while documents != {}
      invariant rows.Keys == inputs.Keys && documents <= inputs.Keys
      invariant forall i :: i in documents ==>
                  rows[i] == inputs[i] && inputs[i].invocationId == Some(invocationId) && inputs[i].status != Applied
      invariant forall i :: i in inputs && i !in documents ==> rows[i] == ApplyActionInputs(inputs, invocationId)[i]
      decreases |documents|
    {
      var id :| id in documents;
      rows := rows[id := rows[id].(status := Applied)];
      documents := documents - {id};
    }
  }

  // What a Turn may be given: pending inputs of its Agent, and those it holds already.
  predicate ForTurn(input: AgentInput, sessionId: SessionId, agentId: AgentId, turnId: TurnId) {
    && input.sessionId == sessionId && input.agentId == agentId
    && match input.status
       case Pending => true
       case Claimed => input.claimedTurn == Some(turnId)
       case Applied => false
  }

  // The rows a Turn takes, and the table after it has taken them.
  method ClaimRows(inputs: map<InputId, AgentInput>, sessionId: SessionId, agentId: AgentId,
                   invocationId: Option<InvocationId>, turnId: TurnId)
    returns (messages: set<InputId>, rows: map<InputId, AgentInput>)
    ensures messages == set i | i in inputs && Claimable(inputs[i], sessionId, agentId, invocationId, turnId)
    ensures forall i :: i in messages <==> i in inputs && ForTurn(inputs[i], sessionId, agentId, turnId)
                                           && (inputs[i].invocationId.None? || inputs[i].invocationId == invocationId)
    ensures rows.Keys == inputs.Keys
    ensures forall i :: i in inputs ==>
              rows[i] == (if inputs[i].status == Pending && i in messages
                          then inputs[i].(status := Claimed, claimedTurn := Some(turnId)) else inputs[i])
  {
    messages := set i | i in inputs && Claimable(inputs[i], sessionId, agentId, invocationId, turnId);
    rows := inputs;
    var rest := messages;
    while rest != {}
      invariant rows.Keys == inputs.Keys && rest <= messages
      invariant forall i :: i in inputs ==>
                  rows[i] == (if inputs[i].status == Pending && i in messages && i !in rest
                              then inputs[i].(status := Claimed, claimedTurn := Some(turnId)) else inputs[i])
      decreases |rest|
    {
      var id :| id in rest;
      if rows[id].status == Pending {
        rows := rows[id := rows[id].(status := Claimed, claimedTurn := Some(turnId))];
      }
      rest := rest - {id};
    }
  }

  /** The store. A transaction works on a copy of the tables and is committed by
      assigning them back; a failure leaves them as they were. */
  class Store {
    var rollouts: map<AgentId, seq<Record>>
    var tables: Tables
    var rolloutSequences: map<AgentId, nat>
    var live: bool
    ghost var journal: seq<Charges.Entry>
    ghost var external: map<SessionId, Usage>

    ghost function State(): World
      reads this
    {
      World(rollouts, tables, rolloutSequences, live, journal, external)
    }

    ghost predicate Valid()
      reads this
    {
      Inv(State()) && live
    }

    constructor ()
      ensures State() == START && Valid()
    {
      rollouts, tables := map[], EMPTY;
      rolloutSequences, live, journal, external := map[], true, [], map[];
      new;
      StartInv();
    }

    // ---- rollouts ----

    // Projects whatever the rollout holds beyond the projected sequence, in one
    // transaction, and remembers how long the rollout is.
    method ReplayAgentRollout(agentId: AgentId) returns (r: Result<bool>)
      modifies this
      ensures r.Success? == Replay(old(State()), agentId).Success?
      ensures State() == Or(Replay(old(State()), agentId), old(State()))
      ensures r.Success? ==> rolloutSequences.Keys == old(rolloutSequences).Keys + {agentId}
    {
      hide ProjectAll;
      var sequence := if agentId in tables.projected then tables.projected[agentId] else 0;
      if agentId in rolloutSequences && rolloutSequences[agentId] == sequence {
        return Success(true);
      }
      var records := if agentId in rollouts then rollouts[agentId] else [];
      var last := |records|;
      if sequence > last {
        return Failure("projection sequence is ahead of rollout");
      }
      var projection, entries := ProjectRecords(tables, records[sequence..], State());
      if projection.Failure? {
        return Failure(projection.reason);
      }
      if sequence < last {
        tables := SetProjected(projection.value, agentId, last);
      }
      journal := entries;
      rolloutSequences := rolloutSequences[agentId := last];
      return Success(true);
    }

    method AdmitRolloutItem(agentId: AgentId, item: RolloutItem) returns (r: Result<Record>)
      modifies this
      ensures r.Success? == Admit(old(State()), agentId, item).Success?
      ensures r.Success? ==> State() == Admit(old(State()), agentId, item).value && r.value == NextRecord(State(), agentId, item)
      ensures r.Failure? ==> State() == Or(Replay(old(State()), agentId), old(State()))
    {
      hide Replay, AcknowledgementsValid;
      var _ :- ReplayAgentRollout(agentId);
      var valid := ValidateRolloutItem(tables.inputs, item);
      if !valid {
        return Failure("input is not claimed by the Turn");
      }
      var last := if agentId in rolloutSequences then rolloutSequences[agentId] else 0;
      if last + 1 > U64_MAX {
        return Failure("Agent rollout sequence overflow");
      }
      return Success(Record(ROLLOUT_VERSION, agentId, last + 1, item));
    }

    method AppendRecord(record: Record)
      modifies this
      ensures State() == Appended(old(State()), record)
    {
      var earlier := if record.agentId in rollouts then rollouts[record.agentId] else [];
      rollouts := rollouts[record.agentId := earlier + [record]];
      rolloutSequences := rolloutSequences[record.agentId := record.sequence];
    }

    method ProjectRecord(record: Record) returns (r: Result<bool>)
      modifies this
      ensures r.Success? == ProjectOne(old(State()), record).Success?
      ensures r.Failure? ==> State() == old(State())
      ensures r.Success? ==> var w := ProjectOne(old(State()), record).value;
                             State() == w.(db := SetProjected(w.db, record.agentId, record.sequence))
    {
      hide Project;
      var transaction :- ApplyRolloutRecord(tables, record);
      if record.agentId !in tables.agents {
        return Failure("not found");
      }
      journal := journal + [Charges.Entry(tables.agents[record.agentId], record)];
      tables := SetProjected(transaction, record.agentId, record.sequence);
      return Success(true);
    }

    // The record becomes durable before the tables see it; a projection that fails is
    // rebuilt from the rollout at once, and if that fails too the record is still durable.
    method CommitAgentRolloutItem(agentId: AgentId, item: RolloutItem) returns (r: Result<Record>)
      modifies this
      ensures r.Success? == Commit(old(State()), agentId, item).Success?
      ensures r.Success? ==> State() == Commit(old(State()), agentId, item).value
      ensures Admit(old(State()), agentId, item).Success? ==>
                var w := Admit(old(State()), agentId, item).value;
                && (r.Success? ==> r.value == NextRecord(w, agentId, item))
                && (r.Failure? ==> State() == Appended(w, NextRecord(w, agentId, item)))
      ensures Admit(old(State()), agentId, item).Failure? ==>
                r.Failure? && State() == Or(Replay(old(State()), agentId), old(State()))
    {
      hide Replay, Admit, ProjectOne;
      var record :- AdmitRolloutItem(agentId, item);
      AppendRecord(record);
      var projection := ProjectRecord(record);
      if projection.Failure? {
        var _ :- ReplayAgentRollout(agentId);
      }
      return Success(record);
    }

    // ---- Turns ----

    method PersistTurn(agentId: AgentId, item: RolloutItem, ghost w: World, ghost op: TurnOp) returns (r: Result<bool>)
      requires Inv(w) && w.live && Prepare(w, op) == Success(Planned(State(), agentId, item))
      modifies this
      ensures Valid() && State() == RunTurnOp(w, op)
      ensures r.Success? == Admit(old(State()), agentId, item).Success?
    {
      hide Inv, Prepare, Commit, Admit, Replay;
      PrepareKeeps(w, op);
      TurnOpKeeps(w, op);
      ghost var ready := State();
      if Admit(ready, agentId, item).Success? {
        CommitKeeps(ready, op, agentId, item);
      } else {
        CommitRefused(ready, agentId, item);
        ReplayNothing(ready, agentId);
      }
      var _ :- CommitAgentRolloutItem(agentId, item);
      return Success(true);
    }

    // Loads a Turn's Agent and replays its rollout, as every Turn operation does first.
    method Refresh(id: TurnId, ghost op: TurnOp) returns (r: Result<AgentId>)
      requires Valid() && !op.CreateTurn? && op.turnId == id
      modifies this
      ensures r.Success? == Replayed(old(State()), op).Success?
      ensures State() == Or(Replayed(old(State()), op), old(State()))
      ensures r.Success? ==> AgentOf(old(tables), op) == r
      ensures Valid()
    {
      hide Inv, Replay;
      if id !in tables.turns {
        return Failure("not found");
      }
      var agentId := tables.turns[id].agentId;
      ghost var w := State();
      var _ :- ReplayAgentRollout(agentId);
      ReplayKeeps(w, agentId);
      return Success(agentId);
    }

    method TransitionTurn(id: TurnId, change: TurnChange, ids: seq<InputId>) returns (r: Result<bool>)
      requires Valid()
      modifies this
      ensures Valid() && State() == RunTurnOp(old(State()), ChangeTurn(id, change, ids))
      ensures r.Success? <==> Accepts(old(State()), ChangeTurn(id, change, ids))
    {
      hide Inv, Replay, Commit, Admit;
      ghost var w := State();
      var agentId :- Refresh(id, ChangeTurn(id, change, ids));
      if id !in tables.turns {
        return Failure("not found");
      }
      var turn := tables.turns[id];
      if turn.status == change.Target() {
        return Success(true);
      }
      if !change.AllowedFrom(turn.status) {
        return Failure("cannot change Turn");
      }
      turn := turn.(status := change.Target(), error := change.Error());
      r := PersistTurn(agentId, TurnUpdated(turn, ids), w, ChangeTurn(id, change, ids));
    }

    method CheckpointTurnContext(id: TurnId, mutation: Mutation, usage: Usage, steps: nat, message: Option<string>,
                                 ids: seq<InputId>)
      returns (r: Result<bool>)
      requires Valid()
      modifies this
      ensures Valid() && State() == RunTurnOp(old(State()), Checkpoint(id, mutation, usage, steps, message, ids))
      ensures r.Success? <==> Accepts(old(State()), Checkpoint(id, mutation, usage, steps, message, ids))
    {
      hide Inv, Replay, Commit, Admit;
      ghost var w := State();
      ghost var op := Checkpoint(id, mutation, usage, steps, message, ids);
      var agentId :- Refresh(id, op);
      if id !in tables.turns {
        return Failure("not found");
      }
      if tables.turns[id].status.Terminal() {
        return Failure("cannot checkpoint terminal Turn");
      }
      r := PersistTurn(agentId, ContextCheckpoint(id, mutation, usage, steps, message, ids), w, op);
    }

    method CompleteTurn(id: TurnId, output: string, usage: Usage) returns (r: Result<bool>)
      requires Valid()
      modifies this
      ensures Valid() && State() == RunTurnOp(old(State()), TurnOp.CompleteTurn(id, output, usage))
      ensures r.Success? <==> Accepts(old(State()), TurnOp.CompleteTurn(id, output, usage))
    {
      hide Inv, Replay, Commit, Admit;
      ghost var w := State();
      ghost var op := TurnOp.CompleteTurn(id, output, usage);
      var agentId :- Refresh(id, op);
      var rollout :- Reconstruct(if agentId in rollouts then rollouts[agentId] else []);
      if rollout.active.None? || rollout.active.value.turnId != id || rollout.active.value.checkpointMessage != Some(output) {
        return Failure("no matching terminal rollout checkpoint");
      }
      if id !in tables.turns {
        return Failure("not found");
      }
      var turn := tables.turns[id];
      if !turn.status.Running? {
        return Failure("cannot complete Turn");
      }
      turn := turn.(output := Some(output), usage := usage.(hostedSearches := turn.usage.hostedSearches));
      turn := turn.(status := TurnStatus.Completed, error := None);
      r := PersistTurn(agentId, TurnUpdated(turn, []), w, op);
    }

    // What the store asks of a Turn before it creates it, on replayed tables.
    method MaterializeTurn(attemptId: AttemptId, agentId: AgentId, turnId: TurnId, input: string) returns (r: Result<RolloutItem>)
      ensures var plan := Plan(tables, LogOf(State(), agentId), TurnOp.CreateTurn(attemptId, agentId, turnId, input));
              r.Success? == plan.Success? && (r.Success? ==> plan == Success(Some(r.value)))
    {
      PlansCreate(tables, LogOf(State(), agentId), attemptId, agentId, turnId, input);
      hide HasLiveTurn, ExpectedInput, Plan;
      if agentId !in tables.agents || tables.agents[agentId] !in tables.sessions {
        return Failure("not found");
      }
      var sessionId := tables.agents[agentId];
      if tables.sessions[sessionId].archived || tables.sessions[sessionId].status.Terminal() {
        return Failure("Session is archived or terminal");
      }
      if attemptId !in tables.attempts || tables.attempts[attemptId].invocationId !in tables.invocations {
        return Failure("not found");
      }
      var attempt := tables.attempts[attemptId];
      var invocation := tables.invocations[attempt.invocationId];
      var valid :- ExpectedInput(tables, invocation, agentId, input);
      if !valid || attempt.status.Terminal() || attempt.turnId.Some?
         || invocation.sessionId != sessionId || invocation.agentId != agentId {
        return Failure("ActionAttempt cannot attach this Turn");
      }
      var active := ActiveTurnExists(agentId);
      if active {
        return Failure("Agent already has an active Turn");
      }
      if turnId in tables.turns {
        return Failure("the id generator repeated an id");
      }
      var turn := Turn(turnId, agentId, TurnStatus.Queued, input, None, NO_USAGE, 0, None, None);
      attempt := attempt.(turnId := Some(turnId));
      return Success(TurnCreated(turn, attempt));
    }

    method CreateTurn(attemptId: AttemptId, agentId: AgentId, turnId: TurnId, input: string) returns (r: Result<bool>)
      requires Valid()
      modifies this
      ensures Valid() && State() == RunTurnOp(old(State()), TurnOp.CreateTurn(attemptId, agentId, turnId, input))
      ensures r.Success? <==> Accepts(old(State()), TurnOp.CreateTurn(attemptId, agentId, turnId, input))
    {
      hide Inv, Replay, Commit, Admit, Plan;
      ghost var w := State();
      ghost var op := TurnOp.CreateTurn(attemptId, agentId, turnId, input);
      var _ :- ReplayAgentRollout(agentId);
      ReplayKeeps(w, agentId);
      var item :- MaterializeTurn(attemptId, agentId, turnId, input);
      r := PersistTurn(agentId, item, w, op);
    }

    method ActiveTurnExists(agentId: AgentId) returns (active: bool)
      ensures active == HasLiveTurn(tables.turns, agentId)
    {
      active := exists t :: t in tables.turns && tables.turns[t].agentId == agentId && !tables.turns[t].status.Terminal();
    }

    // ---- the other operations ----

    // A transaction that went through is a step of the store machine.
    method CommitTransaction(db: Tables, ghost tx: Transaction)
      requires Valid() && RunTransaction(tables, tx) == Success(db)
      modifies this
      ensures Valid() && State() == Next(old(State()), Transact(tx))
    {
      hide Inv, RunTransaction;
      TransactKeeps(State(), tx);
      external := if tx.AddUsage? then AddExternal(external, tx.sessionId, tx.delta) else external;
      tables := db;
    }

    method CreateSession(id: SessionId) returns (r: Result<bool>)
      requires Valid()
      modifies this
      ensures Valid() && State() == Next(old(State()), Transact(NewSession(id)))
      ensures r.Success? == RunTransaction(old(tables), NewSession(id)).Success?
    {
      hide Inv;
      if id in tables.sessions {
        return Failure("Session id already used");
      }
      var session := Session(SessionStatus.Created, None, None, None, false, NO_USAGE, false);
      CommitTransaction(SetSession(tables, id, session), NewSession(id));
      return Success(true);
    }

    method CreateAgent(id: AgentId, sessionId: SessionId) returns (r: Result<bool>)
      requires Valid()
      modifies this
      ensures Valid() && State() == Next(old(State()), Transact(NewAgent(id, sessionId)))
      ensures r.Success? == RunTransaction(old(tables), NewAgent(id, sessionId)).Success?
    {
      hide Inv, Next, RunTransaction;
      Outcome(State(), NewAgent(id, sessionId));
      RunsNewAgent(tables, id, sessionId);
      if sessionId !in tables.sessions {
        return Failure("not found");
      }
      if !tables.sessions[sessionId].status.Running? {
        return Failure("cannot add an Agent unless its Session is running");
      }
      if id in tables.agents {
        return Failure("Agent id already used");
      }
      CommitTransaction(tables.(agents := tables.agents[id := sessionId]), NewAgent(id, sessionId));
      return Success(true);
    }

    method CompleteSession(id: SessionId, output: string) returns (r: Result<bool>)
      requires Valid()
      modifies this
      ensures Valid() && State() == Next(old(State()), Transact(Complete(id, output)))
      ensures r.Success? == RunTransaction(old(tables), Complete(id, output)).Success?
    {
      hide Inv;
      if id !in tables.sessions {
        return Failure("not found");
      }
      var session := tables.sessions[id];
      if !session.status.Running? {
        return Failure("cannot complete Session");
      }
      session := session.(status := SessionStatus.Completed, closing := None, output := Some(output));
      session := session.(error := None, attention := false);
      CommitTransaction(SetSession(Terminalize(tables, id), id, session), Complete(id, output));
      return Success(true);
    }

    method AddSessionUsage(id: SessionId, delta: Usage) returns (r: Result<bool>)
      requires Valid()
      modifies this
      ensures Valid() && State() == Next(old(State()), Transact(AddUsage(id, delta)))
      ensures r.Success? == RunTransaction(old(tables), AddUsage(id, delta)).Success?
    {
      hide Inv;
      if id !in tables.sessions {
        return Failure("not found");
      }
      var session := tables.sessions[id];
      session := session.(usage := SaturatingAdd(session.usage, delta));
      CommitTransaction(SetSession(tables, id, session), AddUsage(id, delta));
      return Success(true);
    }

    method ArchiveSession(id: SessionId) returns (r: Result<bool>)
      requires Valid()
      modifies this
      ensures Valid() && State() == Next(old(State()), Transact(Archive(id)))
      ensures r.Success? == RunTransaction(old(tables), Archive(id)).Success?
    {
      hide Inv, Next;
      Outcome(State(), Archive(id));
      if id !in tables.sessions {
        return Failure("not found");
      }
      var session := tables.sessions[id];
      if session.archived {
        return Success(true);
      }
      if !session.status.Terminal() {
        return Failure("cannot archive active Session");
      }
      session := session.(archived := true);
      CommitTransaction(SetSession(tables, id, session), Archive(id));
      return Success(true);
    }

    method CreateHumanRequest(id: RequestId, sessionId: SessionId, agentId: AgentId) returns (r: Result<bool>)
      requires Valid()
      modifies this
      ensures Valid() && State() == Next(old(State()), Transact(OpenRequest(id, sessionId, agentId)))
      ensures r.Success? == RunTransaction(old(tables), OpenRequest(id, sessionId, agentId)).Success?
    {
      hide Inv, Next, RunTransaction;
      Outcome(State(), OpenRequest(id, sessionId, agentId));
      RunsOpenRequest(tables, id, sessionId, agentId);
      if sessionId !in tables.sessions || agentId !in tables.agents {
        return Failure("not found");
      }
      var session := tables.sessions[sessionId];
      if tables.agents[agentId] != sessionId {
        return Failure("HumanRequest Agent belongs to another Session");
      }
      if !session.status.Running? && !session.status.Paused? {
        return Failure("Session is not running or paused");
      }
      if id in tables.requests {
        return Failure("HumanRequest id already used");
      }
      session := session.(attention := true);
      if !session.status.Paused? {
        session := session.(status := SessionStatus.WaitingForInput);
      }
      var transaction := tables.(requests := tables.requests[id := HumanRequest(sessionId, agentId, Open, None)]);
      CommitTransaction(SetSession(transaction, sessionId, session), OpenRequest(id, sessionId, agentId));
      return Success(true);
    }

    method CreateAgentInput(id: InputId, input: AgentInput) returns (r: Result<bool>)
      requires Valid()
      modifies this
      ensures Valid() && State() == Next(old(State()), Transact(SendInput(id, input)))
      ensures r.Success? == RunTransaction(old(tables), SendInput(id, input)).Success?
    {
      hide Inv, Next, RunTransaction;
      Outcome(State(), SendInput(id, input));
      RunsSendInput(tables, id, input);
      if id in tables.inputs {
        var existing := tables.inputs[id];
        if existing.(status := input.status, claimedTurn := input.claimedTurn) == input {
          return Success(true);
        }
        return Failure("Agent input id was reused with different content");
      }
      if input.sessionId !in tables.sessions {
        return Failure("not found");
      }
      if tables.sessions[input.sessionId].status.Terminal() || tables.sessions[input.sessionId].archived {
        return Failure("Session is terminal or archived");
      }
      if input.agentId !in tables.agents {
        return Failure("not found");
      }
      if tables.agents[input.agentId] != input.sessionId {
        return Failure("input Agent does not belong to the Session");
      }
      if input.sender.Some? {
        var _ :- SenderIsLive(tables, input.sender.value);
      }
      if input.invocationId.Some? {
        if input.invocationId.value !in tables.invocations {
          return Failure("not found");
        }
        var invocation := tables.invocations[input.invocationId.value];
        if invocation.sessionId != input.sessionId || invocation.agentId != input.agentId {
          return Failure("input Action does not belong to the target Agent");
        }
      }
      var message := input.(status := Pending, claimedTurn := None);
      CommitTransaction(tables.(inputs := tables.inputs[id := message]), SendInput(id, input));
      return Success(true);
    }

    method CreateActionInvocation(id: InvocationId, sessionId: SessionId, agentId: AgentId, input: string, source: Source)
      returns (r: Result<bool>)
      requires Valid()
      modifies this
      ensures Valid() && State() == Next(old(State()), Transact(Schedule(id, sessionId, agentId, input, source)))
      ensures r.Success? == RunTransaction(old(tables), Schedule(id, sessionId, agentId, input, source)).Success?
    {
      hide Inv, Next, RunTransaction;
      Outcome(State(), Schedule(id, sessionId, agentId, input, source));
      RunsSchedule(tables, id, sessionId, agentId, input, source);
      if id in tables.invocations {
        var existing := tables.invocations[id];
        if existing.sessionId == sessionId && existing.agentId == agentId
           && existing.input == input && existing.source == source {
          return Success(true);
        }
        return Failure("Action id was reused with a different request");
      }
      if agentId !in tables.agents {
        return Failure("not found");
      }
      if tables.agents[agentId] != sessionId {
        return Failure("Action Agent belongs to another Session");
      }
      if sessionId !in tables.sessions {
        return Failure("not found");
      }
      if !tables.sessions[sessionId].status.AcceptsActions() || tables.sessions[sessionId].archived {
        return Failure("Session is not live and running");
      }
      match source {
        case FromHumanRequest(requestId) =>
          if requestId !in tables.requests {
            return Failure("not found");
          }
          if tables.requests[requestId].sessionId != sessionId || tables.requests[requestId].agentId != agentId {
            return Failure("HumanRequest Action source does not match its target");
          }
        case FromAgent(senderId) =>
          var _ :- SenderIsLive(tables, senderId);
        case FromWorkflow =>
      }
      var invocation := Invocation(sessionId, agentId, input, source, ActionStatus.Scheduled, None, None);
      CommitTransaction(tables.(invocations := tables.invocations[id := invocation]), Schedule(id, sessionId, agentId, input, source));
      return Success(true);
    }

    method TransitionSession(id: SessionId, change: SessionChange) returns (r: Result<bool>)
      requires Valid()
      modifies this
      ensures Valid() && State() == Next(old(State()), Transact(ChangeSession(id, change)))
      ensures r.Success? == RunTransaction(old(tables), ChangeSession(id, change)).Success?
    {
      hide Inv, Next, RunTransaction;
      Outcome(State(), ChangeSession(id, change));
      RunsChangeSession(tables, id, change);
      if id !in tables.sessions {
        return Failure("not found");
      }
      var session, status := tables.sessions[id], change.Target();
      if session.status == status {
        CommitTransaction(tables, ChangeSession(id, change));
        return Success(true);
      }
      if !change.AllowedFrom(session.status) {
        return Failure("cannot change Session");
      }
      session := session.(status := status, closing := None);
      session := session.(error := if change.Fail? then Some(change.error) else None);
      var transaction := tables;
      if status.Terminal() {
        session := session.(attention := false);
        transaction := Terminalize(transaction, id);
      }
      CommitTransaction(SetSession(transaction, id, session), ChangeSession(id, change));
      return Success(true);
    }

    method BeginSessionClosing(id: SessionId, final: SessionStatus, output: Option<string>, error: Option<string>)
      returns (r: Result<bool>)
      requires Valid()
      modifies this
      ensures Valid() && State() == Next(old(State()), Transact(Transaction.Closing(id, final, output, error)))
      ensures r.Success? == RunTransaction(old(tables), Transaction.Closing(id, final, output, error)).Success?
    {
      hide Inv, Next, RunTransaction;
      Outcome(State(), Transaction.Closing(id, final, output, error));
      RunsClosing(tables, id, final, output, error);
      if !final.Terminal() || final.Completed? != output.Some? {
        return Failure("invalid outcome");
      }
      if id !in tables.sessions {
        return Failure("not found");
      }
      var session := tables.sessions[id];
      if session.status.Closing? {
        if session.closing == Some(final) && session.output == output && session.error == error {
          return Success(true);
        }
        return Failure("already Closing with a different outcome");
      }
      if session.status.Terminal() {
        if session.status == final && session.output == output && session.error == error {
          return Success(true);
        }
        return Failure("terminal Session cannot enter Closing");
      }
      session := session.(status := SessionStatus.Closing, closing := Some(final));
      session := session.(output := output, error := error, attention := false);
      assert BeginClosing(tables, id, final, output, error) == Success(SetSession(tables, id, session));
      CommitTransaction(SetSession(tables, id, session), Transaction.Closing(id, final, output, error));
      return Success(true);
    }

    method FinishSessionClosing(id: SessionId) returns (r: Result<bool>)
      requires Valid()
      modifies this
      ensures Valid() && State() == Next(old(State()), Transact(Closed(id)))
      ensures r.Success? == RunTransaction(old(tables), Closed(id)).Success?
    {
      hide Inv, Next, RunTransaction;
      Outcome(State(), Closed(id));
      RunsClosed(tables, id);
      if id !in tables.sessions {
        return Failure("not found");
      }
      var session := tables.sessions[id];
      if session.status.Terminal() {
        return Success(true);
      }
      if !session.status.Closing? {
        return Failure("cannot finish Session");
      }
      if session.closing.None? || !session.closing.value.Terminal() {
        return Failure("Closing Session has no final status");
      }
      session := session.(status := session.closing.value, closing := None);
      CommitTransaction(SetSession(Terminalize(tables, id), id, session), Closed(id));
      return Success(true);
    }

    method AnswerHumanRequest(id: RequestId, answer: string) returns (r: Result<bool>)
      requires Valid()
      modifies this
      ensures Valid() && State() == Next(old(State()), Transact(AnswerRequest(id, answer)))
      ensures r.Success? == RunTransaction(old(tables), AnswerRequest(id, answer)).Success?
    {
      hide Inv, Next, RunTransaction;
      Outcome(State(), AnswerRequest(id, answer));
      RunsAnswerRequest(tables, id, answer);
      if id !in tables.requests {
        return Failure("not found");
      }
      var request := tables.requests[id];
      if request.status != Open {
        return Failure("human request is already resolved");
      }
      request := request.(status := Answered, answer := Some(answer));
      if request.sessionId !in tables.sessions {
        return Failure("not found");
      }
      var session := tables.sessions[request.sessionId];
      var transaction := tables.(requests := tables.requests[id := request]);
      var remaining := exists k :: k in transaction.requests && transaction.requests[k].sessionId == request.sessionId
                                   && transaction.requests[k].status == Open;
      session := session.(attention := remaining);
      if !remaining && session.status.WaitingForInput? {
        session := session.(status := SessionStatus.Running);
      }
      CommitTransaction(SetSession(transaction, request.sessionId, session), AnswerRequest(id, answer));
      return Success(true);
    }

    // The inputs this Turn now holds, and those it held before.
    method ClaimAgentInputs(sessionId: SessionId, agentId: AgentId, invocationId: Option<InvocationId>, turnId: TurnId)
      returns (r: Result<set<InputId>>)
      requires Valid()
      modifies this
      ensures Valid() && State() == Next(old(State()), Transact(Claim(sessionId, agentId, invocationId, turnId)))
      ensures r.Success? == RunTransaction(old(tables), Claim(sessionId, agentId, invocationId, turnId)).Success?
      ensures r.Success? ==> forall i :: i in r.value <==>
                && i in old(tables.inputs) && ForTurn(old(tables.inputs)[i], sessionId, agentId, turnId)
                && (old(tables.inputs)[i].invocationId.None? || old(tables.inputs)[i].invocationId == invocationId)
      ensures r.Success? ==> forall i :: i in old(tables.inputs) && i !in r.value ==>
                i in tables.inputs && tables.inputs[i] == old(tables.inputs)[i]
      ensures r.Success? ==> forall i :: i in r.value ==> ClaimedBy(tables.inputs, turnId, i)
    {
      hide Inv, Next;
      Outcome(State(), Claim(sessionId, agentId, invocationId, turnId));
      if sessionId !in tables.sessions {
        return Failure("not found");
      }
      if tables.sessions[sessionId].status.Terminal() {
        return Failure("Session is terminal");
      }
      if turnId !in tables.turns {
        return Failure("not found");
      }
      if tables.turns[turnId].agentId != agentId || tables.turns[turnId].status.Terminal() {
        return Failure("Turn cannot claim these inputs");
      }
      var messages, rows := ClaimRows(tables.inputs, sessionId, agentId, invocationId, turnId);
      ClaimedRows(tables, sessionId, agentId, invocationId, turnId, messages, rows);
      hide ClaimInputs;
      CommitTransaction(tables.(inputs := rows), Claim(sessionId, agentId, invocationId, turnId));
      return Success(messages);
    }

    method StartActionAttempt(id: InvocationId, attemptId: AttemptId) returns (r: Result<Attempt>)
      requires Valid()
      modifies this
      ensures Valid() && State() == Next(old(State()), Transact(StartAction(id, attemptId)))
      ensures r.Success? == RunTransaction(old(tables), StartAction(id, attemptId)).Success?
      ensures r.Success? ==> attemptId in tables.attempts && r.value == tables.attempts[attemptId]
    {
      hide Inv, Next, Greatest, Numbers, RunTransaction;
      Outcome(State(), StartAction(id, attemptId));
      RunsStartAction(tables, id, attemptId);
      if id !in tables.invocations {
        return Failure("not found");
      }
      var invocation := tables.invocations[id];
      if !invocation.status.Scheduled? && !invocation.status.Interrupted? {
        return Failure("cannot start Action");
      }
      if invocation.sessionId !in tables.sessions {
        return Failure("not found");
      }
      if !tables.sessions[invocation.sessionId].status.AcceptsActions() {
        return Failure("Session is not accepting Actions");
      }
      var hasActive := exists x :: x in tables.attempts && tables.attempts[x].invocationId == id && tables.attempts[x].status == ActionStatus.Running;
      if hasActive {
        return Failure("Action already has a running attempt");
      }
      if attemptId in tables.attempts {
        return Failure("attempt id already used");
      }
      var number := Greatest(Numbers(tables.attempts, id)) + 1;
      var attempt := Attempt(attemptId, id, number, None, ActionStatus.Running, None);
      invocation := invocation.(status := ActionStatus.Running, error := None);
      var transaction := tables.(invocations := tables.invocations[id := invocation]);
      transaction := transaction.(attempts := transaction.attempts[attemptId := attempt]);
      CommitTransaction(transaction, StartAction(id, attemptId));
      return Success(attempt);
    }

    method FinishAction(id: InvocationId, attemptId: AttemptId, status: ActionStatus, output: Option<string>,
                        error: Option<string>)
      returns (r: Result<bool>)
      requires Valid()
      modifies this
      ensures Valid() && State() == Next(old(State()), Transact(EndAction(id, attemptId, status, output, error)))
      ensures r.Success? == RunTransaction(old(tables), EndAction(id, attemptId, status, output, error)).Success?
    {
      hide Inv, Next, ApplyActionInputs, Lifecycle.Advances, Follows, RunTransaction;
      Outcome(State(), EndAction(id, attemptId, status, output, error));
      RunsEndAction(tables, id, attemptId, status, output, error);
      if !status.Terminal() {
        return Failure("finish requires a terminal status");
      }
      if id !in tables.invocations || attemptId !in tables.attempts {
        return Failure("not found");
      }
      var invocation, attempt := tables.invocations[id], tables.attempts[attemptId];
      if attempt.invocationId != id {
        return Failure("attempt does not belong to invocation");
      }
      if invocation.status == status && attempt.status == status {
        if invocation.output == output && invocation.error == error && attempt.error == error {
          return Success(true);
        }
        return Failure("terminal Action cannot accept a different result");
      }
      if !invocation.status.Running? || !attempt.status.Running? {
        return Failure("cannot finish Action");
      }
      invocation := invocation.(status := status, output := output, error := error);
      attempt := attempt.(status := status, error := error);
      var rows := ApplyTerminalActionInputs(tables.inputs, id);
      var transaction := tables.(invocations := tables.invocations[id := invocation],
                                 attempts := tables.attempts[attemptId := attempt], inputs := rows);
      CommitTransaction(transaction, EndAction(id, attemptId, status, output, error));
      return Success(true);
    }

    method CancelPendingAction(id: InvocationId, reason: string) returns (r: Result<bool>)
      requires Valid()
      modifies this
      ensures Valid() && State() == Next(old(State()), Transact(CancelAction(id, reason)))
      ensures r.Success? == RunTransaction(old(tables), CancelAction(id, reason)).Success?
    {
      hide Inv, Next, ApplyActionInputs;
      Outcome(State(), CancelAction(id, reason));
      if id !in tables.invocations {
        return Failure("not found");
      }
      var invocation := tables.invocations[id];
      if invocation.status.Cancelled? {
        return Success(true);
      }
      if !invocation.status.Scheduled? && !invocation.status.Interrupted? {
        return Failure("cannot cancel pending Action");
      }
      invocation := invocation.(status := ActionStatus.Cancelled, output := None, error := Some(reason));
      var rows := ApplyTerminalActionInputs(tables.inputs, id);
      CommitTransaction(tables.(invocations := tables.invocations[id := invocation], inputs := rows), CancelAction(id, reason));
      return Success(true);
    }

    // ---- opening ----

    // One rollout is replayed; that never fails.
    method ReopenOne(agentId: AgentId, ghost w: World)
      requires Inv(State()) && !live && Inv(w) && Follows(w, State())
      modifies this
      ensures Inv(State()) && !live && rollouts == old(rollouts) && Follows(w, State())
      ensures old(rolloutSequences.Keys) + {agentId} <= rolloutSequences.Keys
    {
      hide Inv, Replay, Lifecycle.Advances, Follows;
      ghost var now := State();
      ReplayKeeps(now, agentId);
      CacheGrows(now, agentId);
      var replayed := ReplayAgentRollout(agentId);
      if replayed.Failure? {
        assert false;
      }
      SameLogsFollow(now, State());
      FollowsTransitive(w, now, State());
    }

    // A process that starts has the rollouts and the tables, but no cache.
    method Reopen()
      requires Inv(State())
      modifies this
      ensures Valid() && Follows(old(State()), State())
      ensures rollouts == old(rollouts) && rolloutSequences.Keys >= rollouts.Keys
    {
      hide Inv, Follows, Swept, Next;
      ghost var w := State();
      StoppedFollows(w);
      rolloutSequences, live := map[], false;
      tables := Swept(tables);
      var rest := rollouts.Keys;
      while rest != {}
        invariant Inv(State()) && !live && rollouts == old(rollouts) && Follows(w, State())
        invariant rest <= rollouts.Keys && rollouts.Keys - rest <= rolloutSequences.Keys
        decreases |rest|
      {
        var agentId :| agentId in rest;
        ReopenOne(agentId, w);
        rest := rest - {agentId};
      }
      ghost var now := State();
      OpensAfterReplays(now);
      live := true;
      FollowsTransitive(w, now, State());
      FollowsInv(w, State());
    }
  }

  lemma ClaimedRows(db: Tables, sessionId: SessionId, agentId: AgentId, invocationId: Option<InvocationId>, turnId: TurnId,
                    messages: set<InputId>, rows: map<InputId, AgentInput>)
    requires ClaimInputs(db, sessionId, agentId, invocationId, turnId).Success?
    requires messages == set i | i in db.inputs && Claimable(db.inputs[i], sessionId, agentId, invocationId, turnId)
    requires rows.Keys == db.inputs.Keys
    requires forall i :: i in db.inputs ==>
               rows[i] == (if db.inputs[i].status == Pending && i in messages
                           then db.inputs[i].(status := Claimed, claimedTurn := Some(turnId)) else db.inputs[i])
    ensures ClaimInputs(db, sessionId, agentId, invocationId, turnId) == Success(db.(inputs := rows))
    ensures forall i :: i in messages ==> ClaimedBy(rows, turnId, i)
  {
    hide Claimable;
    assert rows == ClaimInputs(db, sessionId, agentId, invocationId, turnId).value.inputs;
    assert forall i :: i in messages ==> i in rows && Claimable(db.inputs[i], sessionId, agentId, invocationId, turnId);
    ClaimableRows(db.inputs, sessionId, agentId, invocationId, turnId);
  }

  lemma ClaimableRows(inputs: map<InputId, AgentInput>, sessionId: SessionId, agentId: AgentId,
                      invocationId: Option<InvocationId>, turnId: TurnId)
    ensures forall i :: i in inputs && Claimable(inputs[i], sessionId, agentId, invocationId, turnId) ==>
              inputs[i].status == Pending || ClaimedBy(inputs, turnId, i)
  {
  }

  lemma Outcome(w: World, tx: Transaction)
    requires w.live && !tx.AddUsage?
    ensures Next(w, Transact(tx)) == (if RunTransaction(w.db, tx).Success? then w.(db := RunTransaction(w.db, tx).value) else w)
  {
    hide RunTransaction;
  }

  // When a Turn may be created, and the record that does it.
  lemma PlansCreate(db: Tables, log: seq<Record>, attemptId: AttemptId, agentId: AgentId, turnId: TurnId, input: string)
    ensures var plan := Plan(db, log, TurnOp.CreateTurn(attemptId, agentId, turnId, input));
            && (plan.Success? <==>
                  && agentId in db.agents && db.agents[agentId] in db.sessions
                  && !db.sessions[db.agents[agentId]].archived && !db.sessions[db.agents[agentId]].status.Terminal()
                  && attemptId in db.attempts && db.attempts[attemptId].invocationId in db.invocations
                  && MayAttach(db, db.attempts[attemptId], agentId, input)
                  && !HasLiveTurn(db.turns, agentId) && turnId !in db.turns)
            && (plan.Success? ==>
                  plan.value == Some(TurnCreated(Turn(turnId, agentId, TurnStatus.Queued, input, None, NO_USAGE, 0, None, None),
                                                 db.attempts[attemptId].(turnId := Some(turnId)))))
  {
    hide HasLiveTurn, ExpectedInput, Reconstruct;
  }

  predicate MayAttach(db: Tables, attempt: Attempt, agentId: AgentId, input: string)
    requires attempt.invocationId in db.invocations && agentId in db.agents
  {
    var invocation := db.invocations[attempt.invocationId];
    && ExpectedInput(db, invocation, agentId, input) == Success(true)
    && !attempt.status.Terminal() && attempt.turnId.None?
    && invocation.sessionId == db.agents[agentId] && invocation.agentId == agentId
  }

  // ---- the transaction each method runs ----

  lemma RunsNewAgent(db: Tables, id: AgentId, sessionId: SessionId)
    ensures RunTransaction(db, NewAgent(id, sessionId)) == CreateAgent(db, id, sessionId)
  {
  }

  lemma RunsOpenRequest(db: Tables, id: RequestId, sessionId: SessionId, agentId: AgentId)
    ensures RunTransaction(db, OpenRequest(id, sessionId, agentId)) == CreateHumanRequest(db, id, sessionId, agentId)
  {
  }

  lemma RunsAnswerRequest(db: Tables, id: RequestId, answer: string)
    ensures RunTransaction(db, AnswerRequest(id, answer)) == AnswerHumanRequest(db, id, answer)
  {
  }

  lemma RunsSendInput(db: Tables, id: InputId, input: AgentInput)
    ensures RunTransaction(db, SendInput(id, input)) == InsertInput(db, id, input)
  {
  }

  lemma RunsChangeSession(db: Tables, id: SessionId, change: SessionChange)
    ensures RunTransaction(db, ChangeSession(id, change)) == TransitionSession(db, id, change)
  {
  }

  lemma RunsClosing(db: Tables, id: SessionId, final: SessionStatus, output: Option<string>, error: Option<string>)
    ensures RunTransaction(db, Transaction.Closing(id, final, output, error)) == BeginClosing(db, id, final, output, error)
  {
  }

  lemma RunsClosed(db: Tables, id: SessionId)
    ensures RunTransaction(db, Closed(id)) == FinishClosing(db, id)
  {
  }

  predicate SameRequest(v: Invocation, sessionId: SessionId, agentId: AgentId, input: string, source: Source) {
    v.sessionId == sessionId && v.agentId == agentId && v.input == input && v.source == source
  }

  // Where an Action may come from.
  predicate SourceFits(db: Tables, sessionId: SessionId, agentId: AgentId, source: Source) {
    match source
    case FromWorkflow => true
    case FromAgent(senderId) => SenderIsLive(db, senderId).Success?
    case FromHumanRequest(requestId) =>
      requestId in db.requests && db.requests[requestId].sessionId == sessionId && db.requests[requestId].agentId == agentId
  }

  lemma ScheduledBefore(db: Tables, id: InvocationId, sessionId: SessionId, agentId: AgentId, input: string, source: Source)
    requires id in db.invocations
    ensures var r := InsertInvocation(db, id, sessionId, agentId, input, source);
            if SameRequest(db.invocations[id], sessionId, agentId, input, source) then r == Success(db) else r.Failure?
  {
    hide SenderIsLive;
  }

  // The Session and the Agent an Action may be scheduled for.
  predicate TargetFits(db: Tables, sessionId: SessionId, agentId: AgentId) {
    && agentId in db.agents && db.agents[agentId] == sessionId && sessionId in db.sessions
    && db.sessions[sessionId].status.AcceptsActions() && !db.sessions[sessionId].archived
  }

  lemma NotScheduled(db: Tables, id: InvocationId, sessionId: SessionId, agentId: AgentId, input: string, source: Source)
    requires id !in db.invocations && !TargetFits(db, sessionId, agentId)
    ensures InsertInvocation(db, id, sessionId, agentId, input, source).Failure?
  {
    hide SenderIsLive;
  }

  lemma ScheduledNow(db: Tables, id: InvocationId, sessionId: SessionId, agentId: AgentId, input: string, source: Source)
    requires id !in db.invocations && TargetFits(db, sessionId, agentId)
    ensures var r := InsertInvocation(db, id, sessionId, agentId, input, source);
            if SourceFits(db, sessionId, agentId, source)
            then r == Success(db.(invocations := db.invocations[id :=
                   Invocation(sessionId, agentId, input, source, ActionStatus.Scheduled, None, None)]))
            else r.Failure?
  {
    hide SenderIsLive;
    match source
    case FromWorkflow =>
    case FromAgent(_) =>
    case FromHumanRequest(_) =>
  }

  lemma ScheduleIs(db: Tables, id: InvocationId, sessionId: SessionId, agentId: AgentId, input: string, source: Source)
    ensures RunTransaction(db, Schedule(id, sessionId, agentId, input, source)) ==
            InsertInvocation(db, id, sessionId, agentId, input, source)
  {
    hide InsertInvocation;
  }

  lemma RunsSchedule(db: Tables, id: InvocationId, sessionId: SessionId, agentId: AgentId, input: string, source: Source)
    ensures var r := RunTransaction(db, Schedule(id, sessionId, agentId, input, source));
            if id in db.invocations then
              (if SameRequest(db.invocations[id], sessionId, agentId, input, source) then r == Success(db) else r.Failure?)
            else if TargetFits(db, sessionId, agentId) && SourceFits(db, sessionId, agentId, source) then
              r == Success(db.(invocations := db.invocations[id :=
                     Invocation(sessionId, agentId, input, source, ActionStatus.Scheduled, None, None)]))
            else r.Failure?
  {
    ScheduleIs(db, id, sessionId, agentId, input, source);
    hide RunTransaction, InsertInvocation, SourceFits, SameRequest, TargetFits;
    if id in db.invocations {
      ScheduledBefore(db, id, sessionId, agentId, input, source);
    } else if TargetFits(db, sessionId, agentId) {
      ScheduledNow(db, id, sessionId, agentId, input, source);
    } else {
      NotScheduled(db, id, sessionId, agentId, input, source);
    }
  }

  lemma RunsStartAction(db: Tables, id: InvocationId, attemptId: AttemptId)
    ensures RunTransaction(db, StartAction(id, attemptId)) == StartAttempt(db, id, attemptId)
  {
  }

  // The two rows an outcome is reported for.
  predicate Reportable(db: Tables, id: InvocationId, attemptId: AttemptId, status: ActionStatus) {
    && status.Terminal() && id in db.invocations && attemptId in db.attempts
    && db.attempts[attemptId].invocationId == id
  }

  lemma NotReportable(db: Tables, id: InvocationId, attemptId: AttemptId, status: ActionStatus, output: Option<string>,
                      error: Option<string>)
    requires !Reportable(db, id, attemptId, status)
    ensures FinishAction(db, id, attemptId, status, output, error).Failure?
  {
    hide ApplyActionInputs;
  }

  lemma ReportedBefore(db: Tables, id: InvocationId, attemptId: AttemptId, status: ActionStatus, output: Option<string>,
                       error: Option<string>)
    requires Reportable(db, id, attemptId, status)
    requires db.invocations[id].status == status && db.attempts[attemptId].status == status
    ensures var v, x := db.invocations[id], db.attempts[attemptId];
            var r := FinishAction(db, id, attemptId, status, output, error);
            if v.output == output && v.error == error && x.error == error then r == Success(db) else r.Failure?
  {
    hide ApplyActionInputs;
  }

  lemma ReportedNow(db: Tables, id: InvocationId, attemptId: AttemptId, status: ActionStatus, output: Option<string>,
                    error: Option<string>)
    requires Reportable(db, id, attemptId, status)
    requires !(db.invocations[id].status == status && db.attempts[attemptId].status == status)
    ensures var v, x := db.invocations[id], db.attempts[attemptId];
            var r := FinishAction(db, id, attemptId, status, output, error);
            if v.status.Running? && x.status.Running? then
              r == Success(db.(invocations := db.invocations[id := v.(status := status, output := output, error := error)],
                               attempts := db.attempts[attemptId := x.(status := status, error := error)],
                               inputs := ApplyActionInputs(db.inputs, id)))
            else r.Failure?
  {
    hide ApplyActionInputs;
  }

  lemma EndActionIs(db: Tables, id: InvocationId, attemptId: AttemptId, status: ActionStatus, output: Option<string>,
                    error: Option<string>)
    ensures RunTransaction(db, EndAction(id, attemptId, status, output, error)) ==
            FinishAction(db, id, attemptId, status, output, error)
  {
    hide FinishAction;
  }

  lemma RunsEndAction(db: Tables, id: InvocationId, attemptId: AttemptId, status: ActionStatus, output: Option<string>,
                      error: Option<string>)
    ensures var r := RunTransaction(db, EndAction(id, attemptId, status, output, error));
            if !Reportable(db, id, attemptId, status) then r.Failure?
            else
              var v, x := db.invocations[id], db.attempts[attemptId];
              if v.status == status && x.status == status then
                (if v.output == output && v.error == error && x.error == error then r == Success(db) else r.Failure?)
              else if v.status.Running? && x.status.Running? then
                r == Success(db.(invocations := db.invocations[id := v.(status := status, output := output, error := error)],
                                 attempts := db.attempts[attemptId := x.(status := status, error := error)],
                                 inputs := ApplyActionInputs(db.inputs, id)))
              else r.Failure?
  {
    EndActionIs(db, id, attemptId, status, output, error);
    hide RunTransaction, FinishAction, ApplyActionInputs, Reportable;
    if !Reportable(db, id, attemptId, status) {
      NotReportable(db, id, attemptId, status, output, error);
    } else {
      ReportableRows(db, id, attemptId, status);
      if db.invocations[id].status == status && db.attempts[attemptId].status == status {
        ReportedBefore(db, id, attemptId, status, output, error);
      } else {
        ReportedNow(db, id, attemptId, status, output, error);
      }
    }
  }

  lemma ReportableRows(db: Tables, id: InvocationId, attemptId: AttemptId, status: ActionStatus)
    requires Reportable(db, id, attemptId, status)
    ensures id in db.invocations && attemptId in db.attempts
  {
  }

  lemma FollowsInv(w: World, w': World)
    requires Follows(w, w')
    ensures Inv(w')
  {
  }

  lemma CacheGrows(w: World, a: AgentId)
    requires Replay(w, a).Success? && Replays(w, a, Replay(w, a).value)
    ensures w.cache.Keys + {a} <= Replay(w, a).value.cache.Keys
  {
    hide Inv, Lifecycle.Advances;
    ProjectAllCache(w, LogOf(w, a)[Projected(w.db, a)..]);
  }

  lemma {:induction false} ProjectAllCache(w: World, records: seq<Record>)
    requires ProjectAll(w, records).Success?
    ensures ProjectAll(w, records).value.cache == w.cache
    decreases |records|
  {
    hide Project;
    if records != [] {
      ProjectAllCache(ProjectOne(w, records[0]).value, records[1..]);
    }
  }

  lemma StoppedFollows(w: World)
    requires Inv(w)
    ensures Inv(Stopped(w)) && Follows(w, Stopped(w)) && Swept(w.db) == w.db
  {
    hide Inv, Lifecycle.Advances, Follows, Swept;
    StopKeeps(w);
    QuietIn(w);
    SweepFindsNothing(w.db);
    ReflexiveAt(w);
    SameLogsFollow(w, Stopped(w));
  }

  lemma OpensAfterReplays(w: World)
    requires Inv(w) && w.logs.Keys <= w.cache.Keys
    ensures Follows(w, w.(live := true))
  {
    hide Inv, Follows, RunTurnOp, Replay;
    OpenedKeeps(w);
    assert Next(w, Opened) == w.(live := true);
  }

  lemma SameLogsFollow(w: World, w': World)
    requires Inv(w') && Lifecycle.Advances(w.db, w'.db) && w'.logs == w.logs
    ensures Follows(w, w')
  {
  }
}
