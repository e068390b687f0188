// Every step of the store machine keeps its invariant, whatever is interrupted where.
module StoreSteps {
  import opened Wrappers
  import opened Protocol
  import opened Rollout
  import opened Tables
  import opened Lifecycle
  import opened Projection
  import opened TurnLog
  import opened StoreMachine
  import opened StoreInvariant

  // ---- the cache is only a cache ----

  lemma RecacheKeeps(w: World, cache: map<AgentId, nat>, live: bool)
    requires Core(w) && CacheOk(w.(cache := cache))
    ensures Core(w.(cache := cache, live := live))
  {
    var w' := w.(cache := cache, live := live);
    forall a ensures LogOf(w', a) == LogOf(w, a) && Projected(w'.db, a) == Projected(w.db, a) {
    }
    assert BoundsOk(w');
    forall a ensures RowsOf(w'.db.turns, a) == Rows(Seen(w', a)) && EntriesOf(w'.journal, a) == Seen(w', a) {
      assert RowsOf(w.db.turns, a) == Rows(Seen(w, a)) && EntriesOf(w.journal, a) == Seen(w, a);
    }
  }

  lemma SettledInv(w: World, cache: map<AgentId, nat>, live: bool)
    requires Core(w) && CacheOk(w.(cache := cache)) && forall a :: !Waiting(w, a)
    ensures Inv(w.(cache := cache, live := live))
  {
    RecacheKeeps(w, cache, live);
    forall a ensures !Waiting(w.(cache := cache, live := live), a) {
      assert !Waiting(w, a);
    }
  }

  lemma StopKeeps(w: World)
    requires Inv(w)
    ensures Inv(Stopped(w))
  {
    RecacheKeeps(w, map[], false);
    forall a ensures WaitingOk(Stopped(w), a) && (Waiting(Stopped(w), a) <==> Waiting(w, a)) {
      assert WaitingOk(w, a);
    }
  }

  // ---- replay ----

  ghost predicate CaughtUp(w: World, a: AgentId) {
    a in w.cache && w.cache[a] == |LogOf(w, a)| && Projected(w.db, a) == |LogOf(w, a)|
  }

  lemma ReplayNothing(w: World, a: AgentId)
    requires Projected(w.db, a) == |LogOf(w, a)|
    ensures Replay(w, a) == Success(if a in w.cache && w.cache[a] == |LogOf(w, a)| then w
                                    else w.(cache := w.cache[a := |LogOf(w, a)|]))
  {
    assert LogOf(w, a)[|LogOf(w, a)|..] == [];
  }

  lemma ReplayWaiting(w: World, a: AgentId)
    requires |LogOf(w, a)| == Projected(w.db, a) + 1 && a !in w.cache
    requires ProjectNext(w, a).Success?
    ensures Replay(w, a) == Success(ProjectNext(w, a).value.(cache := w.cache[a := |LogOf(w, a)|]))
  {
    var p := Projected(w.db, a);
    var r := LogOf(w, a)[p];
    assert LogOf(w, a)[p..] == [r];
    assert ProjectAll(ProjectOne(w, r).value, [r][1..]) == ProjectOne(w, r);
  }

  lemma ProjectNextFrame(w: World, a: AgentId)
    requires Projected(w.db, a) < |LogOf(w, a)| && ProjectNext(w, a).Success?
    ensures var w' := ProjectNext(w, a).value;
            && w'.logs == w.logs && w'.cache == w.cache && w'.live == w.live
            && w'.db.projected[a] == Projected(w.db, a) + 1
            && forall b :: b != a ==> Projected(w'.db, b) == Projected(w.db, b)
  {
    hide Project;
    ProjectedStays(w.db, LogOf(w, a)[Projected(w.db, a)]);
  }

  lemma ProjectedStays(db: Tables, r: Record)
    requires Project(db, r).Success?
    ensures Project(db, r).value.projected == db.projected
  {
    hide Acknowledge, Release, SaturatingAdd, SaturatingSub, Checkpointed;
    match r.item
    case TurnCreated(_, _) =>
    case ContextCheckpoint(_, _, _, _, _, _) =>
    case TurnUpdated(_, _) =>
  }

  // The one waiting record is the last that was missing.
  lemma ResumeKeeps(w: World, a: AgentId)
    requires Inv(w) && Waiting(w, a)
    ensures a !in w.cache && |LogOf(w, a)| == Projected(w.db, a) + 1
    ensures ProjectNext(w, a).Success?
    ensures var w' := ProjectNext(w, a).value;
            Inv(w'.(cache := w.cache[a := |LogOf(w, a)|])) && Advances(w.db, w'.db)
  {
    hide Ok, AccountsOk, DeliveryOk, Ready, ProjectOne, Advances, RowsMatch, JournalMatches, Fitted, Reconstruct,
         Agree, Rows;
    assert WaitingOk(w, a);
    assert TurnLog.Numbered(a, w.logs[a]);
    ProjectNextKeeps(w, a);
    ProjectNextFrame(w, a);
    var w' := ProjectNext(w, a).value;
    forall b ensures !Waiting(w', b) {
      assert Waiting(w, b) ==> a == b;
    }
    SettledInv(w', w.cache[a := |LogOf(w, a)|], w.live);
  }

  lemma RecacheInv(w: World, a: AgentId)
    requires Inv(w) && !Waiting(w, a)
    ensures Projected(w.db, a) == |LogOf(w, a)|
    ensures Inv(w.(cache := w.cache[a := |LogOf(w, a)|]))
  {
    hide Ok, ProjectionOk, AccountsOk, DeliveryOk, Ready;
    CacheIn(w);
    var w' := w.(cache := w.cache[a := |LogOf(w, a)|]);
    RecacheKeeps(w, w'.cache, w.live);
    forall b ensures WaitingOk(w', b) && (Waiting(w', b) <==> Waiting(w, b)) {
      assert WaitingOk(w, b);
    }
  }

  ghost predicate Replays(w: World, a: AgentId, w': World) {
    && Inv(w') && Advances(w.db, w'.db) && CaughtUp(w', a) && w'.logs == w.logs && w'.live == w.live
  }

  // A replay always succeeds, and leaves nothing of that log unprojected.
  lemma ReplayKeeps(w: World, a: AgentId)
    requires Inv(w)
    ensures Replay(w, a).Success? && Replays(w, a, Replay(w, a).value)
    ensures !Waiting(w, a) ==> Replay(w, a).value == w.(cache := Replay(w, a).value.cache)
  {
    if Waiting(w, a) {
      ResumeKeeps(w, a);
      ProjectNextFrame(w, a);
      ReplayWaiting(w, a);
    } else {
      AdvancesReflexive(w.db);
      RecacheInv(w, a);
      ReplayNothing(w, a);
    }
  }

  // ---- committing ----

  ghost predicate AllCaughtUp(w: World) {
    forall a :: !Waiting(w, a)
  }

  lemma RowsAreLog(w: World, a: AgentId)
    requires Core(w) && !Waiting(w, a)
    ensures RowsOf(w.db.turns, a) == Rows(LogOf(w, a))
    ensures a in w.logs ==> LogOk(a, LogOf(w, a))
  {
    assert Projected(w.db, a) <= |LogOf(w, a)|;
    assert RowsOf(w.db.turns, a) == Rows(Seen(w, a));
    assert Seen(w, a) == LogOf(w, a);
  }

  lemma CreateIsReady(db: Tables, log: seq<Record>, op: TurnOp, r: Record)
    requires op.CreateTurn? && Plan(db, log, op) == Success(Some(r.item)) && r.agentId == op.agentId
    requires RunningOk(db.invocations, db.attempts) && RowsOf(db.turns, op.agentId) == Rows(log)
    ensures Ready(db, r) && Fits(op.agentId, Rows(log), r.item)
  {
    forall t | t in Rows(log) ensures t in db.turns && Rows(log)[t] == db.turns[t] {
      assert t in RowsOf(db.turns, op.agentId);
    }
  }

  lemma UpdateIsReady(db: Tables, log: seq<Record>, op: TurnOp, r: Record)
    requires !op.CreateTurn? && Plan(db, log, op) == Success(Some(r.item)) && AgentOf(db, op) == Success(r.agentId)
    requires TurnsOk(db.turns, db.agents) && RowsOf(db.turns, r.agentId) == Rows(log)
    requires op.CompleteTurn? ==> LogOk(r.agentId, log)
    requires AcknowledgementsValid(db.inputs, r.item)
    ensures Ready(db, r) && Fits(r.agentId, Rows(log), r.item)
  {
    hide Reconstruct, Terminal, ExpectedInput, HasLiveTurn, NewTurn, NoLiveTurn;
    assert op.turnId in RowsOf(db.turns, r.agentId);
    assert Rows(log)[op.turnId] == db.turns[op.turnId];
    if op.CompleteTurn? {
      assert Agree(r.agentId, Rows(log), Reconstruct(log).value);
    }
  }

  lemma EmptyReconstruct()
    ensures Reconstruct([]).value.active.None?
  {
  }

  // What an operation plans is ready to be projected and fits the log.
  lemma PlanIsReady(w: World, op: TurnOp, a: AgentId, item: RolloutItem)
    requires Core(w) && CaughtUp(w, a) && AgentOf(w.db, op) == Success(a)
    requires Plan(w.db, LogOf(w, a), op) == Success(Some(item))
    requires AcknowledgementsValid(w.db.inputs, item)
    ensures a in w.db.agents
    ensures Ready(w.db, NextRecord(w, a, item)) && Fits(a, Rows(LogOf(w, a)), item)
  {
    hide RowsOf, LogOk, RunningOk, AccountsOk, DeliveryOk, Terminal, ExpectedInput, HasLiveTurn, Projected,
         ApplyRecord, AgentsOk, SessionsOk, InputsOk, NumbersOk, BoundsOk, CacheOk, RowsMatch, JournalMatches;
    RowsAreLog(w, a);
    if op.CreateTurn? {
      CreateIsReady(w.db, LogOf(w, a), op, NextRecord(w, a, item));
    } else {
      EmptyReconstruct();
      UpdateIsReady(w.db, LogOf(w, a), op, NextRecord(w, a, item));
    }
  }

  lemma EmptyLogOk(a: AgentId)
    ensures LogOk(a, [])
  {
  }

  lemma AppendMatches(w: World, r: Record)
    requires BoundsOk(w) && RowsMatch(w) && JournalMatches(w) && CaughtUp(w, r.agentId)
    ensures var w' := Stopped(Appended(w, r));
            BoundsOk(w') && RowsMatch(w') && JournalMatches(w')
  {
    var w' := Stopped(Appended(w, r));
    forall b ensures Projected(w'.db, b) == Projected(w.db, b) && Projected(w'.db, b) <= |LogOf(w', b)| {
      assert Projected(w.db, b) <= |LogOf(w, b)|;
    }
    forall b ensures RowsOf(w'.db.turns, b) == Rows(Seen(w', b)) && EntriesOf(w'.journal, b) == Seen(w', b) {
      assert Seen(w', b) == Seen(w, b);
      assert RowsOf(w.db.turns, b) == Rows(Seen(w, b)) && EntriesOf(w.journal, b) == Seen(w, b);
    }
  }

  lemma AppendLogs(w: World, r: Record)
    requires LogsOk(w) && r.agentId in w.db.agents
    requires Fits(r.agentId, Rows(LogOf(w, r.agentId)), r.item)
    requires r.version == ROLLOUT_VERSION && r.sequence == |LogOf(w, r.agentId)| + 1
    ensures LogsOk(Stopped(Appended(w, r)))
  {
    EmptyLogOk(r.agentId);
    LogExtends(r.agentId, LogOf(w, r.agentId), r);
  }

  lemma ReadyAgent(db: Tables, r: Record)
    requires Ready(db, r)
    ensures r.agentId in db.agents
  {
  }

  // A record that is durable but not projected: what a crash after the append leaves.
  lemma AppendKeeps(w: World, r: Record)
    requires Core(w) && AllCaughtUp(w) && CaughtUp(w, r.agentId)
    requires Ready(w.db, r) && Fits(r.agentId, Rows(LogOf(w, r.agentId)), r.item)
    requires r == NextRecord(w, r.agentId, r.item)
    ensures Inv(Stopped(Appended(w, r)))
    ensures Waiting(Stopped(Appended(w, r)), r.agentId)
  {
    hide Ok, Ready, Fits, LogsOk, RowsMatch, JournalMatches, AccountsOk, DeliveryOk;
    var w' := Stopped(Appended(w, r));
    ReadyAgent(w.db, r);
    AppendMatches(w, r);
    AppendLogs(w, r);
    SameAccounts(w, w');
    forall b ensures WaitingOk(w', b) && (Waiting(w', b) ==> b == r.agentId) {
      assert !Waiting(w, b);
    }
  }

  // Commit is the append followed by the projection a replay would do.
  lemma CommitIs(w: World, a: AgentId, item: RolloutItem)
    requires CaughtUp(w, a) && Admit(w, a, item).Success?
    requires var w1 := Stopped(Appended(w, NextRecord(w, a, item)));
             Projected(w1.db, a) < |LogOf(w1, a)| && ProjectNext(w1, a).Success?
    ensures var r := NextRecord(w, a, item); var w1 := Stopped(Appended(w, r));
            Commit(w, a, item) == Success(ProjectNext(w1, a).value.(cache := w.cache[a := r.sequence], live := w.live))
  {
    ReplayNothing(w, a);
    var r := NextRecord(w, a, item);
    var durable, w1 := Appended(w, r), Stopped(Appended(w, r));
    assert LogOf(w1, a)[Projected(w1.db, a)] == r;
    assert ProjectOne(durable, r).Success? <==> ProjectOne(w1, r).Success?;
  }

  lemma AdmitIsIdle(w: World, a: AgentId, item: RolloutItem)
    requires CaughtUp(w, a) && Admit(w, a, item).Success?
    ensures Admit(w, a, item) == Success(w) && AcknowledgementsValid(w.db.inputs, item)
  {
    ReplayNothing(w, a);
  }

  lemma LiveMeansSettled(w: World)
    requires Inv(w) && w.live
    ensures AllCaughtUp(w)
  {
    forall b ensures !Waiting(w, b) {
      assert WaitingOk(w, b);
    }
  }

  // A planned record that is admitted is safely durable ...
  lemma DurableKeeps(w: World, op: TurnOp, a: AgentId, item: RolloutItem)
    requires Inv(w) && w.live && CaughtUp(w, a) && AgentOf(w.db, op) == Success(a)
    requires Plan(w.db, LogOf(w, a), op) == Success(Some(item)) && Admit(w, a, item).Success?
    ensures var w1 := Stopped(Appended(w, NextRecord(w, a, item)));
            Inv(w1) && Waiting(w1, a) && w1.db == w.db
  {
    hide CaughtUp, AgentOf, Plan, LogOf, Admit, AcknowledgementsValid, AllCaughtUp, Core, Ready, Fits, Rows;
    AdmitIsIdle(w, a, item);
    LiveMeansSettled(w);
    PlanIsReady(w, op, a, item);
    AppendKeeps(w, NextRecord(w, a, item));
  }

  // ... and commits: nothing an operation appended is ever left unprojected.
  lemma CommitKeeps(w: World, op: TurnOp, a: AgentId, item: RolloutItem)
    requires Inv(w) && w.live && CaughtUp(w, a) && AgentOf(w.db, op) == Success(a)
    requires Plan(w.db, LogOf(w, a), op) == Success(Some(item)) && Admit(w, a, item).Success?
    ensures Commit(w, a, item).Success?
    ensures var w' := Commit(w, a, item).value;
            && Inv(w') && Advances(w.db, w'.db) && w'.live
            && w'.logs == w.logs[a := LogOf(w, a) + [NextRecord(w, a, item)]]
  {
    hide Waiting, WaitingOk, Ok, ProjectionOk, Project, Load, EntriesKnown, LiveTurnsCounted, UsageOk,
         AcknowledgedApplied, AcknowledgedOnce;
    DurableKeeps(w, op, a, item);
    var r := NextRecord(w, a, item);
    var w1 := Stopped(Appended(w, r));
    ResumeKeeps(w1, a);
    ProjectNextFrame(w1, a);
    CommitIs(w, a, item);
    var w2 := ProjectNext(w1, a).value;
    CommitSettles(w, a, w2.(cache := w1.cache[a := |LogOf(w1, a)|]), r);
  }

  lemma CacheIn(w: World)
    requires Core(w)
    ensures CacheOk(w) && forall a :: Projected(w.db, a) <= |LogOf(w, a)|
  {
  }

  lemma CommitSettles(w: World, a: AgentId, w': World, r: Record)
    requires Inv(w) && w.live && CaughtUp(w, a) && r.sequence == |LogOf(w, a)| + 1
    requires Inv(w') && w'.logs == w.logs[a := LogOf(w, a) + [r]] && Projected(w'.db, a) == r.sequence
    requires forall b :: b != a ==> Projected(w'.db, b) == Projected(w.db, b)
    ensures Inv(w'.(cache := w.cache[a := r.sequence], live := true))
  {
    hide Ok, ProjectionOk, AccountsOk, DeliveryOk;
    LiveMeansSettled(w);
    forall b ensures !Waiting(w', b) {
      assert !Waiting(w, b);
    }
    assert CacheOk(w') && CacheOk(w) by {
      CacheIn(w);
      CacheIn(w');
    }
    SettledInv(w', w.cache[a := r.sequence], true);
  }

  lemma PrepareKeeps(w: World, op: TurnOp)
    requires Inv(w) && w.live && Prepare(w, op).Success?
    ensures var p := Prepare(w, op).value;
            && Inv(p.world) && CaughtUp(p.world, p.agentId)
            && p.world == w.(cache := p.world.cache)
            && AgentOf(p.world.db, op) == Success(p.agentId)
            && Plan(p.world.db, LogOf(p.world, p.agentId), op) == Success(Some(p.item))
  {
    hide Inv, Replay, LogOf, Waiting, Plan, AgentOf, CaughtUp, Advances;
    LiveMeansSettled(w);
    ReplayKeeps(w, AgentOf(w.db, op).value);
  }

  // Logs only grow, and other operations never touch them.
  ghost predicate LogsExtend(w: World, w': World) {
    w.logs.Keys <= w'.logs.Keys && forall a :: LogOf(w, a) <= LogOf(w', a)
  }

  ghost predicate Follows(w: World, w': World) {
    Inv(w') && Advances(w.db, w'.db) && LogsExtend(w, w')
  }

  lemma CommitRefused(w: World, a: AgentId, item: RolloutItem)
    requires Admit(w, a, item).Failure?
    ensures Commit(w, a, item).Failure?
  {
    hide Admit;
  }

  lemma ReflexiveAt(w: World)
    requires Inv(w)
    ensures Advances(w.db, w.db)
  {
    AdvancesReflexive(w.db);
  }

  lemma TurnOpKeeps(w: World, op: TurnOp)
    requires Inv(w) && w.live
    ensures Follows(w, RunTurnOp(w, op)) && RunTurnOp(w, op).live
  {
    hide Inv, Advances, Prepare, Commit, Replay, Admit, CaughtUp, Plan, NextRecord, Waiting, Load;
    ReflexiveAt(w);
    if Prepare(w, op).Success? {
      PrepareKeeps(w, op);
      var p := Prepare(w, op).value;
      if Admit(p.world, p.agentId, p.item).Success? {
        CommitKeeps(p.world, op, p.agentId, p.item);
      } else {
        CommitRefused(p.world, p.agentId, p.item);
      }
    } else if AgentOf(w.db, op).Success? {
      ReplayKeeps(w, AgentOf(w.db, op).value);
    }
  }

  lemma SameAccounts(w: World, w': World)
    requires AccountsOk(w) && DeliveryOk(w)
    requires w'.db == w.db && w'.journal == w.journal && w'.external == w.external
    ensures AccountsOk(w') && DeliveryOk(w')
  {
  }

  lemma TouchProjection(w: World, a: AgentId)
    requires ProjectionOk(w) && a in w.db.agents
    ensures ProjectionOk(Touched(w, a))
  {
    hide LogOk;
    var w' := Touched(w, a);
    forall b ensures LogOf(w', b) == LogOf(w, b) {
    }
    EmptyLogOk(a);
    assert BoundsOk(w');
    forall b ensures RowsOf(w'.db.turns, b) == Rows(Seen(w', b)) && EntriesOf(w'.journal, b) == Seen(w', b) {
      assert RowsOf(w.db.turns, b) == Rows(Seen(w, b)) && EntriesOf(w.journal, b) == Seen(w, b);
    }
  }

  lemma TouchKeeps(w: World, a: AgentId)
    requires Inv(w) && a in w.db.agents
    ensures Inv(Touched(w, a)) && LogsExtend(w, Touched(w, a))
  {
    hide Ok, ProjectionOk, AccountsOk, DeliveryOk, Ready;
    var w' := Touched(w, a);
    SameAccounts(w, w');
    TouchProjection(w, a);
    forall b ensures LogOf(w', b) == LogOf(w, b) {
    }
    forall b ensures WaitingOk(w', b) && (Waiting(w', b) <==> Waiting(w, b)) {
      assert WaitingOk(w, b);
    }
  }

  lemma PlannedAgent(w: World, op: TurnOp)
    requires Inv(w) && w.live && Prepare(w, op).Success?
    requires var p := Prepare(w, op).value; Admit(p.world, p.agentId, p.item).Success?
    ensures Prepare(w, op).value.agentId in w.db.agents
  {
    hide Prepare, Plan, Admit, Replay, Ready, Fits;
    PrepareKeeps(w, op);
    var p := Prepare(w, op).value;
    AdmitIsIdle(p.world, p.agentId, p.item);
    PlanIsReady(p.world, op, p.agentId, p.item);
  }

  lemma CrashInsideKeeps(w: World, op: TurnOp, durable: bool)
    requires Inv(w)
    ensures Follows(w, Next(w, CrashInside(op, durable)))
  {
    hide Inv, Advances, Prepare, Replay, Admit, Plan, AgentOf, RunTurnOp, RunTransaction, Swept, LogOf, LogsExtend,
         CaughtUp, Waiting, Appended;
    ReflexiveAt(w);
    Extends(w, Stopped(w));
    StopKeeps(w);
    if w.live && Prepare(w, op).Success? {
      PrepareKeeps(w, op);
      var p := Prepare(w, op).value;
      if Admit(p.world, p.agentId, p.item).Success? {
        if durable {
          AdmitIsIdle(p.world, p.agentId, p.item);
          DurableKeeps(p.world, op, p.agentId, p.item);
          AppendExtends(w, p.world, NextRecord(p.world, p.agentId, p.item));
        } else {
          PlannedAgent(w, op);
          TouchKeeps(w, p.agentId);
          StopKeeps(Touched(w, p.agentId));
          TouchExtends(w, p.agentId);
        }
      }
    }
  }

  lemma Extends(w: World, w': World)
    requires w'.logs == w.logs
    ensures LogsExtend(w, w')
  {
  }

  lemma AppendExtends(w: World, w0: World, r: Record)
    requires w0.logs == w.logs && w0.db == w.db
    ensures LogsExtend(w, Stopped(Appended(w0, r))) && Stopped(Appended(w0, r)).db == w.db
  {
  }

  lemma TouchExtends(w: World, a: AgentId)
    ensures LogsExtend(w, Stopped(Touched(w, a))) && Stopped(Touched(w, a)).db == w.db
  {
  }
}
