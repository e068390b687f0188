// What holds of every world that some run of the store reaches.
module StoreTheorems {
  import opened Wrappers
  import opened Protocol
  import opened Rollout
  import opened Tables
  import opened Lifecycle
  import opened Projection
  import opened TurnLog
  import opened Charges
  import opened StoreMachine
  import opened StoreInvariant
  import opened StoreSteps
  import opened StoreRuns

  // ---- crash refinement ----

  lemma SettledMatches(w: World, a: AgentId)
    requires Core(w) && !Waiting(w, a)
    ensures RowsOf(w.db.turns, a) == Rows(LogOf(w, a)) && EntriesOf(w.journal, a) == LogOf(w, a)
    ensures Projected(w.db, a) == |LogOf(w, a)| && (a in w.cache ==> w.cache[a] == |LogOf(w, a)|)
  {
    hide RowsOf, Rows, LogOf, EntriesOf, Projected, Ok, AccountsOk, DeliveryOk, LogsOk;
    assert Projected(w.db, a) <= |LogOf(w, a)|;
    assert RowsOf(w.db.turns, a) == Rows(Seen(w, a)) && EntriesOf(w.journal, a) == Seen(w, a);
    assert Seen(w, a) == LogOf(w, a);
  }

  lemma SettledIn(w: World, a: AgentId)
    requires Inv(w) && w.live
    ensures Core(w) && !Waiting(w, a)
  {
    assert WaitingOk(w, a);
  }

  /** However a run was interrupted, once the store is open again the Turn rows of
      every Agent are the fold of its log, every record has been projected exactly once
      and in order, and both sequence counters equal the number of records. */
  lemma ProjectionRefinesLog(steps: seq<Step>, a: AgentId)
    requires Run(START, steps).live
    ensures var w := Run(START, steps);
            && RowsOf(w.db.turns, a) == Rows(LogOf(w, a)) && EntriesOf(w.journal, a) == LogOf(w, a)
            && Projected(w.db, a) == |LogOf(w, a)| && (a in w.cache ==> w.cache[a] == |LogOf(w, a)|)
  {
    hide Inv, Core, Run;
    Reachable(steps);
    SettledIn(Run(START, steps), a);
    SettledMatches(Run(START, steps), a);
  }

  // Between a crash and the reopening at most one record, of one Agent, is behind.
  lemma AtMostOneBehind(steps: seq<Step>, a: AgentId, b: AgentId)
    ensures var w := Run(START, steps);
            && Projected(w.db, a) <= |LogOf(w, a)| <= Projected(w.db, a) + 1
            && (Projected(w.db, a) < |LogOf(w, a)| && Projected(w.db, b) < |LogOf(w, b)| ==> a == b)
  {
    hide Run, Inv;
    Reachable(steps);
    BehindIn(Run(START, steps), a, b);
  }

  lemma BehindIn(w: World, a: AgentId, b: AgentId)
    requires Inv(w)
    ensures Projected(w.db, a) <= |LogOf(w, a)| <= Projected(w.db, a) + 1
    ensures Waiting(w, a) && Waiting(w, b) ==> a == b
  {
    hide Ok, AccountsOk, DeliveryOk, Ready, LogOk;
    assert WaitingOk(w, a);
    assert Projected(w.db, a) <= |LogOf(w, a)|;
  }

  // ---- every Turn operation is all or nothing ----

  ghost predicate SameState(w: World, w': World) {
    (forall a :: LogOf(w', a) == LogOf(w, a)) && w'.db == w.db && w'.journal == w.journal
  }

  lemma IdleReplay(w: World, a: AgentId)
    requires Inv(w) && !Waiting(w, a)
    ensures Replay(w, a).Success? && SameState(w, Replay(w, a).value)
  {
    hide Replay, Projected, WaitingOk, Ok, AccountsOk, DeliveryOk, LogsOk, CacheOk, RowsMatch, JournalMatches;
    assert Projected(w.db, a) <= |LogOf(w, a)|;
    hide Core;
    ReplayNothing(w, a);
  }

  lemma IdleAfterStop(w: World, a: AgentId)
    requires Inv(w) && w.live
    ensures Inv(Stopped(w)) && !Waiting(Stopped(w), a)
  {
    StopKeeps(w);
    SettledIn(w, a);
  }

  lemma ReplayOfDurable(w: World, op: TurnOp, a: AgentId, item: RolloutItem)
    requires Inv(w) && w.live && CaughtUp(w, a) && AgentOf(w.db, op) == Success(a)
    requires Plan(w.db, LogOf(w, a), op) == Success(Some(item)) && Admit(w, a, item).Success?
    ensures var w1 := Stopped(Appended(w, NextRecord(w, a, item)));
            && Commit(w, a, item).Success? && Replay(w1, a).Success?
            && SameState(Commit(w, a, item).value, Replay(w1, a).value)
  {
    hide Inv, Plan, Admit, Commit, Replay, CaughtUp, AgentOf, Stopped, Appended, NextRecord, Waiting, Projected,
         ProjectNext, Advances;
    DurableKeeps(w, op, a, item);
    var w1 := Stopped(Appended(w, NextRecord(w, a, item)));
    ResumeKeeps(w1, a);
    ReplayWaiting(w1, a);
    CommitIs(w, a, item);
  }

  /** A crash before the append leaves an operation undone; a crash after it leaves it
      done: replaying the log on reopening gives the very tables the operation would
      have produced. */
  lemma CrashIsAtomic(w: World, op: TurnOp, durable: bool)
    requires Inv(w) && w.live && Prepare(w, op).Success?
    requires var p := Prepare(w, op).value; Admit(p.world, p.agentId, p.item).Success?
    ensures var a := AgentOf(w.db, op).value; var w1 := Next(w, CrashInside(op, durable));
            && Replay(w1, a).Success?
            && SameState(if durable then RunTurnOp(w, op) else w, Replay(w1, a).value)
  {
    hide Inv, Plan, Admit, Commit, Replay, Prepare, AgentOf, CaughtUp, AcknowledgementsValid, Appended, NextRecord,
         RunTransaction;
    PrepareKeeps(w, op);
    var p := Prepare(w, op).value;
    var a := p.agentId;
    if durable {
      AdmitIsIdle(p.world, a, p.item);
      ReplayOfDurable(p.world, op, a, p.item);
    } else {
      PlannedAgent(w, op);
      TouchKeeps(w, a);
      IdleAfterStop(Touched(w, a), a);
      IdleReplay(Stopped(Touched(w, a)), a);
    }
  }

  // A record whose operation returned is in the log of every later world.
  lemma CommittedIsNeverLost(w: World, op: TurnOp, later: seq<Step>)
    requires Inv(w) && w.live && Prepare(w, op).Success?
    requires var p := Prepare(w, op).value; Admit(p.world, p.agentId, p.item).Success?
    ensures var p := Prepare(w, op).value;
            LogOf(w, p.agentId) + [NextRecord(p.world, p.agentId, p.item)] <= LogOf(Run(RunTurnOp(w, op), later), p.agentId)
  {
    hide Inv, Plan, Admit, Commit, Replay, Prepare, Run, RunTurnOp, Advances;
    var p := Prepare(w, op).value;
    PrepareKeeps(w, op);
    CommitKeeps(p.world, op, p.agentId, p.item);
    RunTurnOpIs(w, op);
    TurnOpKeeps(w, op);
    RunKeeps(RunTurnOp(w, op), later);
    assert LogOf(RunTurnOp(w, op), p.agentId) <= LogOf(Run(RunTurnOp(w, op), later), p.agentId);
  }

  lemma RunTurnOpIs(w: World, op: TurnOp)
    requires Prepare(w, op).Success?
    requires var p := Prepare(w, op).value; Commit(p.world, p.agentId, p.item).Success?
    ensures var p := Prepare(w, op).value; RunTurnOp(w, op) == Commit(p.world, p.agentId, p.item).value
  {
    hide Prepare, Commit;
  }

  // ---- Turns and logs ----

  lemma AgreeIn(w: World, a: AgentId)
    requires Inv(w) && w.live
    ensures Reconstruct(LogOf(w, a)).Success?
    ensures Agree(a, RowsOf(w.db.turns, a), Reconstruct(LogOf(w, a)).value)
  {
    SettledIn(w, a);
    SettledMatches(w, a);
    hide Ok, AccountsOk, DeliveryOk, Agree, Ready;
    if a in w.logs {
      assert LogOk(a, w.logs[a]);
    } else {
      EmptyLogOk(a);
      assert LogOf(w, a) == [];
    }
  }

  /** Reconstruction never fails on a log the store wrote, and what it finds is what the
      tables say: an Agent's only unfinished Turn row is the log's active Turn, with the
      same counters, and a completed Turn's output is its last checkpoint message. */
  lemma TurnsAgreeWithLog(steps: seq<Step>, a: AgentId, t: TurnId)
    requires Run(START, steps).live
    requires var db := Run(START, steps).db; t in db.turns && db.turns[t].agentId == a
    ensures var w := Run(START, steps); var turn := w.db.turns[t];
            && Reconstruct(LogOf(w, a)).Success?
            && var active := Reconstruct(LogOf(w, a)).value.active;
               && (!turn.status.Terminal() <==> active.Some? && active.value.turnId == t)
               && (!turn.status.Terminal() ==>
                   && active.value.usage == turn.usage
                   && active.value.completedModelSteps == turn.completedModelSteps
                   && active.value.checkpointMessage == turn.checkpointMessage)
               && (turn.status.Completed? ==> turn.output.Some? && turn.output == turn.checkpointMessage)
  {
    hide Inv, Run;
    Reachable(steps);
    var w := Run(START, steps);
    AgreeIn(w, a);
    assert t in RowsOf(w.db.turns, a);
  }

  // What has been projected of a log is a log, and it agrees with its rows.
  lemma SeenAgrees(w: World, a: AgentId)
    requires Inv(w)
    ensures Projected(w.db, a) <= |LogOf(w, a)| && RowsOf(w.db.turns, a) == Rows(Seen(w, a))
    ensures EntriesOf(w.journal, a) == Seen(w, a)
    ensures Reconstruct(Seen(w, a)).Success? && Agree(a, RowsOf(w.db.turns, a), Reconstruct(Seen(w, a)).value)
  {
    hide Ok, AccountsOk, DeliveryOk, Agree, Ready, Reconstruct, Fits;
    assert Projected(w.db, a) <= |LogOf(w, a)|;
    if a in w.logs {
      assert LogOk(a, w.logs[a]);
    } else {
      EmptyLogOk(a);
      assert LogOf(w, a) == [];
    }
    FittedPrefix(a, LogOf(w, a), Projected(w.db, a));
    FittedAgrees(a, Seen(w, a));
  }

  // An Agent never has two unfinished Turns, not even between a crash and the reopening.
  lemma OneLiveTurn(steps: seq<Step>, t: TurnId, u: TurnId)
    requires var db := Run(START, steps).db;
             && t in db.turns && u in db.turns && db.turns[t].agentId == db.turns[u].agentId
             && !db.turns[t].status.Terminal() && !db.turns[u].status.Terminal()
    ensures t == u
  {
    hide Inv, Run, Reconstruct;
    Reachable(steps);
    var w := Run(START, steps);
    var a := w.db.turns[t].agentId;
    SeenAgrees(w, a);
    assert t in RowsOf(w.db.turns, a) && u in RowsOf(w.db.turns, a);
  }

  // ---- what is final stays ----

  /** From any reachable world to any later one: terminal Sessions, Turns and final
      Actions keep their outcome, a Closing Session can only reach the status it was
      closing to, an applied input stays applied, an answer stays given. */
  lemma FinalStays(earlier: seq<Step>, later: seq<Step>)
    ensures Advances(Run(START, earlier).db, Run(Run(START, earlier), later).db)
    ensures LogsExtend(Run(START, earlier), Run(Run(START, earlier), later))
  {
    hide Inv, Run, Advances;
    Reachable(earlier);
    RunKeeps(Run(START, earlier), later);
  }

  // ---- Sessions ----

  lemma SessionIn(w: World, s: SessionId)
    requires Inv(w) && s in w.db.sessions
    ensures SessionOk(w.db.sessions[s])
    ensures w.db.sessions[s].status.Terminal() ==>
              && !HasOpen(w.db.requests, s)
              && forall i :: i in w.db.inputs && w.db.inputs[i].sessionId == s ==> w.db.inputs[i].status == Applied
    ensures w.db.sessions[s].attention && !w.db.sessions[s].status.Terminal() ==> HasOpen(w.db.requests, s)
  {
    hide ProjectionOk, AccountsOk, DeliveryOk, Ready;
  }

  /** A Session knows its closing status exactly while Closing, has an output exactly
      when completed or closing to completed, and leaves no open request and no
      waiting input behind when it ends. */
  lemma SessionLifecycle(steps: seq<Step>, s: SessionId)
    requires s in Run(START, steps).db.sessions
    ensures var db := Run(START, steps).db; var session := db.sessions[s];
            && (session.closing.Some? <==> session.status.Closing?)
            && (session.output.Some? <==> session.status.Completed? || session.closing == Some(SessionStatus.Completed))
            && (session.archived ==> session.status.Terminal())
            && (session.status.Terminal() ==>
                  && !HasOpen(db.requests, s)
                  && forall i :: i in db.inputs && db.inputs[i].sessionId == s ==> db.inputs[i].status == Applied)
  {
    hide Inv, Run, HasOpen;
    Reachable(steps);
    SessionIn(Run(START, steps), s);
  }

  // ---- input delivery ----

  // Where the i-th projected record of an Agent stands in the journal.
  function Place(journal: seq<Entry>, a: AgentId, i: nat): (k: nat)
    requires i < |EntriesOf(journal, a)|
    ensures k < |journal| && journal[k].record == EntriesOf(journal, a)[i] && journal[k].record.agentId == a
  {
    var n := |journal| - 1;
    if i < |EntriesOf(journal[..n], a)| then Place(journal[..n], a, i) else n
  }

  lemma {:induction false} PlacesDiffer(journal: seq<Entry>, a: AgentId, i: nat, j: nat)
    requires i < j < |EntriesOf(journal, a)|
    ensures Place(journal, a, i) < Place(journal, a, j)
  {
    var n := |journal| - 1;
    if j < |EntriesOf(journal[..n], a)| {
      PlacesDiffer(journal[..n], a, i, j);
    }
  }

  lemma AcknowledgedApart(journal: seq<Entry>, k: nat, l: nat, id: InputId)
    requires AcknowledgedOnce(journal) && k < l < |journal|
    requires id in Acknowledged(journal[k].record.item)
    ensures id !in Acknowledged(journal[l].record.item)
  {
    assert Disjoint(Acknowledged(journal[k].record.item), Acknowledged(journal[l].record.item));
  }

  lemma DeliveryIn(w: World)
    requires Inv(w)
    ensures DeliveryOk(w)
  {
  }

  ghost predicate Acknowledges(w: World, a: AgentId, i: nat, id: InputId) {
    i < |LogOf(w, a)| && id in Acknowledged(LogOf(w, a)[i].item)
  }

  // What a projected record acknowledged is applied, and no other projected record did.
  lemma SeenAcknowledgedOnce(w: World, a: AgentId, i: nat, b: AgentId, j: nat, id: InputId)
    requires Inv(w) && Acknowledges(w, a, i, id) && Acknowledges(w, b, j, id)
    requires i < Projected(w.db, a) && j < Projected(w.db, b)
    ensures a == b && i == j
    ensures id in w.db.inputs && w.db.inputs[id].status == Applied
  {
    hide Inv, Acknowledged, EntriesOf, AcknowledgedOnce, Reconstruct, Agree, Rows;
    DeliveryIn(w);
    SeenAgrees(w, a);
    SeenAgrees(w, b);
    var k, l := Place(w.journal, a, i), Place(w.journal, b, j);
    assert AllApplied(w.db.inputs, Acknowledged(w.journal[k].record.item));
    if k < l {
      AcknowledgedApart(w.journal, k, l, id);
    } else if l < k {
      AcknowledgedApart(w.journal, l, k, id);
    } else if i < j {
      PlacesDiffer(w.journal, a, i, j);
    } else if j < i {
      PlacesDiffer(w.journal, a, j, i);
    }
  }

  // What a record that is still waiting acknowledges is only claimed yet.
  lemma WaitingClaims(w: World, a: AgentId, i: nat, id: InputId)
    requires Inv(w) && Acknowledges(w, a, i, id) && Projected(w.db, a) <= i
    ensures Waiting(w, a) && !w.live && i == Projected(w.db, a)
    ensures id in w.db.inputs && w.db.inputs[id].status == Claimed
  {
    hide Core;
    assert WaitingOk(w, a);
    assert ClaimedBy(w.db.inputs, ItemTurn(LogOf(w, a)[i].item), id);
  }

  /** No input is acknowledged by two records, of whatever Agents and Turns, in any
      reachable world; in an open store every acknowledged input is applied. */
  lemma AcknowledgedAtMostOnce(steps: seq<Step>, a: AgentId, i: nat, b: AgentId, j: nat, id: InputId)
    requires var w := Run(START, steps); Acknowledges(w, a, i, id) && Acknowledges(w, b, j, id)
    ensures a == b && i == j
    ensures var w := Run(START, steps); w.live ==> id in w.db.inputs && w.db.inputs[id].status == Applied
  {
    hide Inv, Run, Acknowledges;
    Reachable(steps);
    var w := Run(START, steps);
    if i < Projected(w.db, a) && j < Projected(w.db, b) {
      SeenAcknowledgedOnce(w, a, i, b, j, id);
    } else if i < Projected(w.db, a) {
      SeenAcknowledgedOnce(w, a, i, a, i, id);
      WaitingClaims(w, b, j, id);
    } else if j < Projected(w.db, b) {
      SeenAcknowledgedOnce(w, b, j, b, j, id);
      WaitingClaims(w, a, i, id);
    } else {
      WaitingClaims(w, a, i, id);
      WaitingClaims(w, b, j, id);
      BehindIn(w, a, b);
    }
  }

  lemma InputIn(w: World, i: InputId)
    requires Inv(w) && i in w.db.inputs
    ensures InputOk(w.db.turns, w.db.agents, w.db.inputs[i])
  {
    hide ProjectionOk, AccountsOk, DeliveryOk, Ready;
  }

  // A claimed input names an unfinished Turn of the Agent it was sent to.
  lemma ClaimsAreLive(steps: seq<Step>, i: InputId)
    requires var db := Run(START, steps).db; i in db.inputs && db.inputs[i].status == Claimed
    ensures var db := Run(START, steps).db; var input := db.inputs[i];
            && input.claimedTurn.Some? && input.claimedTurn.value in db.turns
            && db.turns[input.claimedTurn.value].agentId == input.agentId
            && !db.turns[input.claimedTurn.value].status.Terminal()
  {
    hide Inv, Run;
    Reachable(steps);
    InputIn(Run(START, steps), i);
  }

  // ---- usage ----

  lemma UsageIn(w: World, s: SessionId, m: Metric)
    requires Inv(w) && s in w.db.sessions
    ensures JournalOk(w.journal) && UsageExact(w.db.sessions, w.external, w.journal, s, m)
  {
    hide Ok, ProjectionOk, DeliveryOk, Ready;
  }

  /** A Session's counter is, up to its width, the usage reported outside rollouts plus
      what each of its Turns last checkpointed plus whatever a checkpoint took back;
      nothing is charged twice, whatever crashed and was replayed. */
  lemma UsageConserved(steps: seq<Step>, s: SessionId, m: Metric)
    requires s in Run(START, steps).db.sessions
    ensures var w := Run(START, steps);
            && Get(w.db.sessions[s].usage, m) ==
                 Min(Limit(m), Total(w.external, s, m) + SumValues(Balances(w.journal, s, m)) + Dropped(w.journal, s, m))
            && (Dropped(w.journal, s, m) == 0 <==> NonDecreasing(w.journal, s, m))
  {
    hide Inv, Run, NonDecreasing, Dropped, Balances, JournalOk, Charged;
    Reachable(steps);
    var w := Run(START, steps);
    UsageIn(w, s, m);
    ChargesBalance(w.journal, s, m);
    DroppedNothing(w.journal, s, m);
  }

  lemma CountedIn(w: World, t: TurnId)
    requires Inv(w) && t in w.db.turns && !w.db.turns[t].status.Terminal()
    ensures JournalOk(w.journal) && Counted(w.db, w.journal, t)
  {
    hide Ok, ProjectionOk, DeliveryOk, Ready;
  }

  // The balance of an unfinished Turn is the usage its row shows.
  lemma LiveBalance(steps: seq<Step>, t: TurnId, m: Metric)
    requires var db := Run(START, steps).db; t in db.turns && !db.turns[t].status.Terminal()
    ensures var w := Run(START, steps); var turn := w.db.turns[t];
            && turn.agentId in w.db.agents
            && var balances := Balances(w.journal, w.db.agents[turn.agentId], m);
               t in balances && balances[t] == Get(turn.usage, m)
  {
    hide Inv, Run, Balances, JournalOk;
    Reachable(steps);
    var w := Run(START, steps);
    CountedIn(w, t);
    var s := w.db.agents[w.db.turns[t].agentId];
    var i :| 0 <= i < |w.journal| && Opens(w.journal[i], t, s);
    BalanceIsLastUsage(w.journal, s, m, i);
  }

  // ---- actions ----

  lemma ActionsIn(w: World)
    requires Inv(w)
    ensures NumbersOk(w.db.attempts) && RunningOk(w.db.invocations, w.db.attempts)
  {
  }

  lemma AttemptNumbers(steps: seq<Step>, v: InvocationId)
    ensures var attempts := Run(START, steps).db.attempts;
            && (forall k :: k in Numbers(attempts, v) <==> 1 <= k <= Greatest(Numbers(attempts, v)))
            && (forall x, y :: SameAction(attempts, x, y) && attempts[x].number == attempts[y].number ==> x == y)
  {
    hide Inv, Run;
    Reachable(steps);
    var attempts := Run(START, steps).db.attempts;
    ActionsIn(Run(START, steps));
    var numbers := Numbers(attempts, v);
    if numbers != {} {
      var x :| x in attempts && attempts[x].invocationId == v && attempts[x].number == Greatest(numbers);
      forall k | 1 <= k <= Greatest(numbers) ensures k in numbers {
        assert Lifecycle.Numbered(attempts, attempts[x].invocationId, k);
      }
    }
  }

  /** An Action is running exactly when one of its attempts is; that attempt is the only
      running one and carries the Action's greatest number. */
  lemma RunningAttempt(steps: seq<Step>, v: InvocationId, x: AttemptId)
    requires var db := Run(START, steps).db; v in db.invocations && x in db.attempts
    requires var db := Run(START, steps).db; db.attempts[x].invocationId == v && db.attempts[x].status.Running?
    ensures var db := Run(START, steps).db;
            && db.invocations[v].status.Running?
            && db.attempts[x].number == Greatest(Numbers(db.attempts, v))
            && forall y :: y in db.attempts && db.attempts[y].invocationId == v && db.attempts[y].status.Running? ==> y == x
  {
    hide Inv, Run;
    Reachable(steps);
    var attempts := Run(START, steps).db.attempts;
    ActionsIn(Run(START, steps));
    assert attempts[x].number in Numbers(attempts, v);
    var y :| y in attempts && attempts[y].invocationId == v && attempts[y].number == Greatest(Numbers(attempts, v));
    assert SameAction(attempts, x, y);
    forall z | z in attempts && attempts[z].invocationId == v && attempts[z].status.Running? ensures z == x {
      assert SameAction(attempts, x, z) && SameAction(attempts, z, x);
    }
  }

  lemma RunningAction(steps: seq<Step>, v: InvocationId)
    requires v in Run(START, steps).db.invocations
    ensures var db := Run(START, steps).db; db.invocations[v].status.Running? <==> HasRunning(db.attempts, v)
  {
    hide Inv, Run;
    Reachable(steps);
    ActionsIn(Run(START, steps));
  }
}
