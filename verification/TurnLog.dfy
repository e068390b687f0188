// One Agent's rollout log: the Turn rows its records add up to, and how those rows
// agree with the state a reconstruction finds.
module TurnLog {
  import opened Wrappers
  import opened Protocol
  import opened Rollout
  import opened Tables
  import opened Projection
  import opened Lifecycle

  // The Turn rows of an Agent are the fold of its records.
  function NextRows(rows: map<TurnId, Turn>, item: RolloutItem): map<TurnId, Turn> {
    match item
    case TurnCreated(turn, _) => rows[turn.id := turn]
    case ContextCheckpoint(turnId, _, _, _, _, _) =>
      if turnId in rows then rows[turnId := Checkpointed(rows[turnId], item)] else rows
    case TurnUpdated(turn, _) => rows[turn.id := turn]
  }

  function Rows(log: seq<Record>): map<TurnId, Turn> {
    if log == [] then map[] else NextRows(Rows(log[..|log| - 1]), log[|log| - 1].item)
  }

  ghost predicate Numbered(agentId: AgentId, log: seq<Record>) {
    forall i :: 0 <= i < |log| ==> log[i].version == ROLLOUT_VERSION && log[i].agentId == agentId && log[i].sequence == i + 1
  }

  // The rows and the reconstructed state describe the same Turns: the only live row,
  // if any, is the active Turn, with the same counters and checkpoint message; a
  // completed Turn's output is its last checkpoint message.
  ghost predicate Agree(agentId: AgentId, rows: map<TurnId, Turn>, st: State) {
    && (forall t :: t in rows ==> rows[t].id == t && rows[t].agentId == agentId)
    && (forall t :: t in rows ==> (!rows[t].status.Terminal() <==> st.active.Some? && st.active.value.turnId == t))
    && (st.active.Some? ==>
          var active := st.active.value;
          active.turnId in rows
          && rows[active.turnId].usage == active.usage
          && rows[active.turnId].completedModelSteps == active.completedModelSteps
          && rows[active.turnId].checkpointMessage == active.checkpointMessage)
    && (forall t :: t in rows && rows[t].status.Completed? ==>
          rows[t].output.Some? && rows[t].output == rows[t].checkpointMessage)
  }

  // Each record fitted the rows of the records before it.
  ghost predicate Fitted(agentId: AgentId, log: seq<Record>) {
    forall i :: 0 <= i < |log| ==> Fits(agentId, Rows(log[..i]), log[i].item)
  }

  ghost predicate LogOk(agentId: AgentId, log: seq<Record>) {
    && Numbered(agentId, log) && Fitted(agentId, log)
    && Reconstruct(log).Success?
    && Agree(agentId, Rows(log), Reconstruct(log).value)
  }

  // What a record must satisfy, against the rows so far, to extend the log.
  ghost predicate Fits(agentId: AgentId, rows: map<TurnId, Turn>, item: RolloutItem) {
    match item
    case TurnCreated(turn, _) =>
      turn.agentId == agentId && turn.id !in rows && NewTurn(turn) && turn.completedModelSteps == 0
      && NoLiveTurn(rows, agentId)
    case ContextCheckpoint(turnId, _, _, _, _, _) => Live(rows, turnId, agentId)
    case TurnUpdated(turn, _) => Live(rows, turn.id, agentId) && NextTurn(rows[turn.id], turn)
  }

  lemma RowsAppend(log: seq<Record>, r: Record)
    ensures Rows(log + [r]) == NextRows(Rows(log), r.item)
  {
    assert (log + [r])[..|log|] == log;
  }

  lemma AgreeStep(agentId: AgentId, rows: map<TurnId, Turn>, st: State, item: RolloutItem)
    requires Agree(agentId, rows, st) && Fits(agentId, rows, item)
    ensures ApplyRecord(st, item).Success?
    ensures Agree(agentId, NextRows(rows, item), ApplyRecord(st, item).value)
  {
    if item.TurnCreated? && st.active.Some? {
      assert false;
    }
  }

  // A fitting record keeps the log reconstructible and in agreement with its rows.
  lemma LogExtends(agentId: AgentId, log: seq<Record>, r: Record)
    requires LogOk(agentId, log) && Fits(agentId, Rows(log), r.item)
    requires r.version == ROLLOUT_VERSION && r.agentId == agentId && r.sequence == |log| + 1
    ensures LogOk(agentId, log + [r])
  {
    hide Fits, Agree, Reconstruct, Rows, Fitted;
    ReconstructAppend(log, r);
    RowsAppend(log, r);
    AgreeStep(agentId, Rows(log), Reconstruct(log).value, r.item);
    FittedAppend(agentId, log, r);
  }

  lemma FittedAppend(agentId: AgentId, log: seq<Record>, r: Record)
    requires Fitted(agentId, log) && Fits(agentId, Rows(log), r.item)
    ensures Fitted(agentId, log + [r])
  {
    hide Fits, Rows;
    forall i | 0 <= i < |log + [r]| ensures Fits(agentId, Rows((log + [r])[..i]), (log + [r])[i].item) {
      assert (log + [r])[..i] == log[..i];
      assert log[..|log|] == log;
    }
  }

  // ---- the input of the active Turn ----

  function Objective(log: seq<Record>): string {
    if log == [] then "" else
      var item := log[|log| - 1].item;
      if item.TurnCreated? then item.turn.input else Objective(log[..|log| - 1])
  }

  // What the active Turn's row has as its input is what the Turn was created with.
  lemma {:induction false} ActiveInput(agentId: AgentId, log: seq<Record>)
    requires Fitted(agentId, log) && Reconstruct(log).Success? && Reconstruct(log).value.active.Some?
    ensures var t := Reconstruct(log).value.active.value.turnId; t in Rows(log) && Rows(log)[t].input == Objective(log)
  {
    var n := |log| - 1;
    assert Fits(agentId, Rows(log[..n]), log[n].item);
    if !log[n].item.TurnCreated? {
      FittedPrefix(agentId, log, n);
      ActiveInput(agentId, log[..n]);
    }
  }

  lemma FittedPrefix(agentId: AgentId, log: seq<Record>, n: nat)
    requires Fitted(agentId, log) && n <= |log|
    ensures Fitted(agentId, log[..n])
  {
    hide Fits, Rows;
    forall i | 0 <= i < n ensures Fits(agentId, Rows(log[..n][..i]), log[..n][i].item) {
      assert log[..n][..i] == log[..i];
    }
  }

  // What the rows say of a log that always fitted: every prefix of it agrees with its rows.
  lemma {:induction false} FittedAgrees(agentId: AgentId, log: seq<Record>)
    requires Fitted(agentId, log)
    ensures Reconstruct(log).Success? && Agree(agentId, Rows(log), Reconstruct(log).value)
  {
    hide Fits, Agree;
    if log == [] {
      NothingAgrees(agentId);
    } else {
      var n := |log| - 1;
      FittedPrefix(agentId, log, n);
      FittedAgrees(agentId, log[..n]);
      assert Fits(agentId, Rows(log[..n]), log[n].item);
      AgreeStep(agentId, Rows(log[..n]), Reconstruct(log[..n]).value, log[n].item);
    }
  }

  lemma NothingAgrees(agentId: AgentId)
    ensures Agree(agentId, map[], INITIAL)
  {
  }

  // ---- the committed context, read off the log ----

  ghost predicate Ends(r: Record) {
    r.item.TurnUpdated? && r.item.turn.status.Terminal()
  }

  ghost predicate Commits(r: Record) {
    r.item.TurnUpdated? && (r.item.turn.status.Completed? || r.item.turn.status.Interrupted?)
  }

  // The mutations one Turn checkpointed, replayed over a starting context.
  function TurnContext(context: seq<Item>, records: seq<Record>, turnId: TurnId): seq<Item> {
    if records == [] then context else
      var earlier := TurnContext(context, records[..|records| - 1], turnId);
      var item := records[|records| - 1].item;
      if item.ContextCheckpoint? && item.turnId == turnId then Mutate(earlier, item.mutation) else earlier
  }

  ghost predicate Created(r: Record, turnId: TurnId) {
    r.item.TurnCreated? && r.item.turn.id == turnId
  }

  // While a Turn is active, the log splits at its creation, and its context is its own
  // checkpoints replayed over what had been committed before.
  ghost predicate OpenedAt(log: seq<Record>, k: nat, turnId: TurnId) {
    && k < |log| && Created(log[k], turnId)
    && Reconstruct(log[..k]).Success?
    && forall i :: k < i < |log| ==> !Ends(log[i]) && !log[i].item.TurnCreated?
  }

  lemma {:induction false} ActiveTurnOpened(log: seq<Record>) returns (k: nat)
    requires Reconstruct(log).Success? && Reconstruct(log).value.active.Some?
    ensures OpenedAt(log, k, Reconstruct(log).value.active.value.turnId)
    ensures Reconstruct(log).value.committed == Reconstruct(log[..k]).value.committed
    ensures Reconstruct(log).value.active.value.context ==
            TurnContext(Reconstruct(log[..k]).value.committed, log[k..], Reconstruct(log).value.active.value.turnId)
  {
    var n := |log| - 1;
    var last := log[n];
    if last.item.TurnCreated? {
      k := n;
      assert log[k..] == [last];
      assert TurnContext(Reconstruct(log[..k]).value.committed, [], last.item.turn.id) == Reconstruct(log[..k]).value.committed;
    } else {
      k := ActiveTurnOpened(log[..n]);
      assert log[..n][..k] == log[..k];
      assert log[k..][..|log[k..]| - 1] == log[..n][k..];
    }
  }

  // The Turn that ends at e opened at k and left its own context as the committed one.
  ghost predicate CommittedBy(log: seq<Record>, k: nat, e: nat)
    requires e < |log| && Commits(log[e]) && Reconstruct(log).Success?
  {
    var turnId := log[e].item.turn.id;
    && k < e && OpenedAt(log[..e], k, turnId) && Reconstruct(log[..k]).Success?
    && Reconstruct(log).value.committed == TurnContext(Reconstruct(log[..k]).value.committed, log[k..e], turnId)
  }

  // The committed context is that of the last Turn that completed or was interrupted:
  // its checkpoints replayed over the context committed when it was created.
  lemma {:induction false} CommittedContext(log: seq<Record>, e: nat) returns (k: nat)
    requires Reconstruct(log).Success?
    requires e < |log| && Commits(log[e]) && forall i :: e < i < |log| ==> !Commits(log[i])
    ensures CommittedBy(log, k, e)
  {
    var n := |log| - 1;
    if e == n {
      k := ActiveTurnOpened(log[..n]);
      assert log[..n][..k] == log[..k] && log[..n][k..] == log[k..e];
    } else {
      k := CommittedContext(log[..n], e);
      assert log[..n][..e] == log[..e];
      assert log[..n][..k] == log[..k] && log[..n][k..e] == log[k..e];
    }
  }

  // Before any Turn has completed or been interrupted nothing is committed.
  lemma {:induction false} NothingCommitted(log: seq<Record>)
    requires Reconstruct(log).Success? && forall i :: 0 <= i < |log| ==> !Commits(log[i])
    ensures Reconstruct(log).value.committed == []
  {
    if log != [] {
      NothingCommitted(log[..|log| - 1]);
    }
  }
}
