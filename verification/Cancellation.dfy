// A Turn can be cancelled while its process runs: whoever cancels looks for a process
// first, but one may start before the store is asked. Here is exactly when this happens,
// what the process has to do with the store from then on, and a run in which it happens.
module Cancellation {
  import opened Wrappers
  import opened Protocol
  import opened Rollout
  import opened Tables
  import Lifecycle
  import opened TurnLog
  import opened StoreMachine
  import opened StoreInvariant
  import opened StoreSteps
  import opened StoreRuns
  import opened StoreTheorems
  import opened Runtime
  import opened RuntimeSafety
  import Attention
  import Loop = AgentLoop
  import Safety = AgentSafety

  // ---- operations that acknowledge nothing ----

  ghost predicate Plans(w: World, a: AgentId, op: TurnOp, item: RolloutItem) {
    AgentOf(w.db, op) == Success(a) && Plan(w.db, LogOf(w, a), op) == Success(Some(item)) && Acknowledged(item) == []
  }

  ghost predicate IsPlanned(written: Option<Planned>, a: AgentId, item: RolloutItem) {
    written.Some? ==> written.value.agentId == a && written.value.item == item
  }

  lemma AdmitsUnlessFull(w: World, a: AgentId, item: RolloutItem)
    requires CaughtUp(w, a) && Acknowledged(item) == []
    ensures Admit(w, a, item).Success? <==> |LogOf(w, a)| < U64_MAX
  {
    hide Replay, LogOf, ClaimedBy;
    ReplayNothing(w, a);
  }

  // Only a full log refuses them once they are planned.
  lemma WrittenUnlessFull(w: World, a: AgentId, op: TurnOp, item: RolloutItem)
    requires Inv(w) && w.live && Plans(w, a, op, item)
    ensures Written(w, op).Some? <==> |LogOf(w, a)| < U64_MAX
    ensures IsPlanned(Written(w, op), a, item)
  {
    hide Inv, Plan, AgentOf, Replay, Admit, CaughtUp, Acknowledged, Lifecycle.Advances, Waiting;
    LiveMeansSettled(w);
    ReplayKeeps(w, a);
    AdmitsUnlessFull(Replay(w, a).value, a, item);
  }

  // Then the record is the last of its log, and rows and state have moved on by it.
  lemma Leaves(w: World, a: AgentId, op: TurnOp, item: RolloutItem)
    requires Inv(w) && w.live && Plans(w, a, op, item) && |LogOf(w, a)| < U64_MAX
    ensures var w' := StoreMachine.Next(w, Do(op));
            && Inv(w') && w'.live && |LogOf(w', a)| == |LogOf(w, a)| + 1
            && RowsOf(w'.db.turns, a) == NextRows(RowsOf(w.db.turns, a), item)
            && ApplyRecord(StateOf(w, a), item) == Success(StateOf(w', a))
  {
    hide Inv, Plans, Written, LogOf, StateOf, Rows, NextRows, RowsOf, ApplyRecord, StoreSteps.Follows, RunTurnOp;
    var w' := StoreMachine.Next(w, Do(op));
    WrittenUnlessFull(w, a, op, item);
    DoWrites(w, op);
    NextKeeps(w, Do(op));
    FollowsIn(w, w');
    LiveStays(w, Do(op));
    var r := NextRecord(Written(w, op).value.world, a, item);
    LogGrew(w, w', a, r);
    RowsAppend(LogOf(w, a), r);
    SettledIn(w, a);
    SettledMatches(w, a);
    SettledIn(w', a);
    SettledMatches(w', a);
  }

  // ---- cancelling ----

  // The cancellation of a Turn for whose record there is room.
  ghost predicate Cancels(w: World, stored: StoreMachine.Step, t: TurnId) {
    stored == Do(ChangeTurn(t, CancelTurn, [])) && t in w.db.turns && |LogOf(w, w.db.turns[t].agentId)| < U64_MAX
  }

  function Cancelled(turn: Turn): RolloutItem {
    TurnUpdated(turn.(status := TurnStatus.Cancelled, error := Some("cancelled by user")), [])
  }

  lemma CancelPlans(w: World, t: TurnId, a: AgentId)
    requires Unfinished(w, t, a)
    ensures Plans(w, a, ChangeTurn(t, CancelTurn, []), Cancelled(w.db.turns[t]))
  {
  }

  ghost predicate IsCancelled(w: World, t: TurnId) {
    t in w.db.turns && w.db.turns[t].status.Cancelled?
  }

  // A cancelled Turn's row says so, and the Turn is not active any more.
  lemma CancelEnds(w: World, t: TurnId, a: AgentId)
    requires Inv(w) && w.live && Unfinished(w, t, a) && |LogOf(w, a)| < U64_MAX
    ensures IsCancelled(StoreMachine.Next(w, Do(ChangeTurn(t, CancelTurn, []))), t)
  {
    hide Inv, LogOf, Plans, StoreMachine.Next, StateOf;
    var op := ChangeTurn(t, CancelTurn, []);
    CancelPlans(w, t, a);
    Leaves(w, a, op, Cancelled(w.db.turns[t]));
    RowIds(w, t);
    assert t in RowsOf(StoreMachine.Next(w, Do(op)).db.turns, a);
  }

  // ---- what ends a Turn under its process ----

  ghost predicate CancelsUnder(h: Host, step: Runtime.Step, t: TurnId) {
    t in h.processes && step.Other? && Cancels(h.world, step.stored, t)
  }

  lemma UnfinishedIsActive(w: World, w': World, t: TurnId, a: AgentId)
    requires Inv(w) && StoreSteps.Follows(w, w') && w'.live && Unfinished(w, t, a)
    ensures Unfinished(w', t, a) <==> IsActive(StateOf(w', a), t)
  {
    hide Inv, StateOf;
    RowDecides(w', t);
  }

  lemma StillActive(w: World, w': World, t: TurnId, a: AgentId)
    requires Inv(w) && w.live && StoreSteps.Follows(w, w') && w'.live && Unfinished(w, t, a) && LogOf(w', a) == LogOf(w, a)
    ensures Unfinished(w', t, a)
  {
    hide Inv, LogOf, Reconstruct, Lifecycle.Advances;
    UnfinishedIsActive(w, w', t, a);
    RowDecides(w, t);
  }

  // What others do to an unfinished Turn ends it only by cancelling it.
  lemma OtherEnds(w: World, stored: StoreMachine.Step, t: TurnId, a: AgentId)
    requires Inv(w) && w.live && OthersMay(stored) && Unfinished(w, t, a) && StoreMachine.Next(w, stored).live
    ensures Unfinished(StoreMachine.Next(w, stored), t, a) <==> !Cancels(w, stored, t)
    ensures Cancels(w, stored, t) ==> IsCancelled(StoreMachine.Next(w, stored), t)
  {
    hide Inv, LogOf, StoreMachine.Next, Written, StateOf;
    var w' := StoreMachine.Next(w, stored);
    NextKeeps(w, stored);
    if Cancels(w, stored, t) {
      CancelEnds(w, t, a);
    } else {
      StepWrites(w, stored);
      if StoredFor(w, stored, a) {
        OtherRecord(w, stored, t, a);
        UnfinishedIsActive(w, w', t, a);
      } else {
        StillActive(w, w', t, a);
      }
    }
  }

  ghost predicate StoredFor(w: World, stored: StoreMachine.Step, a: AgentId) {
    StoredOp(w, stored).Some? && StoredOp(w, stored).value.agentId == a
  }

  // A record of others on the Agent of an active Turn leaves it active, unless it cancels it.
  lemma OtherRecord(w: World, stored: StoreMachine.Step, t: TurnId, a: AgentId)
    requires Inv(w) && w.live && OthersMay(stored) && Unfinished(w, t, a) && StoreMachine.Next(w, stored).live
    requires StoredFor(w, stored, a) && !Cancels(w, stored, t)
    ensures IsActive(StateOf(StoreMachine.Next(w, stored), a), t)
  {
    hide Inv, LogOf, StateOf, Written, Plan, RunTurnOp, Prepare, Admit;
    var w' := StoreMachine.Next(w, stored);
    var op := stored.op;
    var p := Written(w, op).value;
    PlannedIs(w, op);
    StepWrites(w, stored);
    NextKeeps(w, stored);
    LogGrew(w, w', a, NextRecord(p.world, a, p.item));
    RowDecides(w, t);
    PlannedItem(w.db, LogOf(w, a), op, p.item);
    if op.ChangeTurn? {
      RowIds(w, op.turnId);
      if op.change.CancelTurn? && op.turnId == t {
        CancelPlans(w, t, a);
        WrittenUnlessFull(w, a, op, Cancelled(w.db.turns[t]));
      }
    }
  }

  // Nor does its own process leave an ended Turn behind: it goes when it ends its Turn.
  lemma ActEnds(h: Host, u: TurnId, moved: Loop.Step, fate: Fate, t: TurnId, a: AgentId)
    requires HostOk(h) && MayAct(h, u, moved) && Unfinished(h.world, t, a)
    requires t in Runtime.Next(h, Act(u, moved, fate)).processes
    ensures Unfinished(Runtime.Next(h, Act(u, moved, fate)).world, t, a)
  {
    hide Inv, LogOf, StoreMachine.Next, Written, StateOf, Wants, Operation, Accepts, Safety.AgentOk, View, Loop.AfterRefusal,
         SameEffect;
    var h' := Runtime.Next(h, Act(u, moved, fate));
    var move := Wants(h, u, moved);
    if move.Ask? {
      var op := Operation(move.item);
      AskedWhere(h, u, moved);
      NextKeeps(h.world, Do(op));
      LiveStays(h.world, Do(op));
      StepWrites(h.world, Do(op));
      if Written(h.world, op).Some? && Written(h.world, op).value.agentId == a {
        RowDecides(h.world, t);
        RowDecides(h.world, u);
        var p := Written(h.world, op).value;
        AskedStays(h, h'.world, t, moved, a, NextRecord(p.world, a, p.item));
        UnfinishedIsActive(h.world, h'.world, t, a);
      } else {
        StillActive(h.world, h'.world, t, a);
      }
    }
  }

  // A record a process has written leaves its Turn active, or the process ends with it.
  lemma AskedStays(h: Host, w': World, t: TurnId, moved: Loop.Step, a: AgentId, r: Record)
    requires HostOk(h) && MayAct(h, t, moved) && Unfinished(h.world, t, a) && Inv(w')
    requires LogOf(w', a) == LogOf(h.world, a) + [r] && Stores(h.world, Wants(h, t, moved), r)
    ensures IsActive(StateOf(w', a), t) || Quits(h.world, Wants(h, t, moved))
  {
    hide Inv, LogOf, StateOf, Wants, Operation, Accepts, Safety.AgentOk, View, Loop.Decide, AsksFor;
    WantsIsDecide(h, t, a, moved);
    ViewLog(h, a);
    AskedForTurn(View(h, a), moved);
    AskedWrites(h, a, Wants(h, t, moved).item);
    LogGrew(h.world, w', a, r);
    assert ApplyRecord(StateOf(h.world, a), r.item) == ApplyRecord(StateOf(h.world, a), Wants(h, t, moved).item);
    MoveKeepsTurn(View(h, a), moved);
  }

  ghost predicate Quits(w: World, move: Loop.Move) {
    move.Ask? && Accepts(w, Operation(move.item)) && move.process.None?
  }

  ghost predicate Stores(w: World, move: Loop.Move, r: Record) {
    move.Ask? && Written(w, Operation(move.item)).Some? && Written(w, Operation(move.item)).value.item == r.item
  }

  // ---- every step ----

  // A process that is there after a step was there before, or starts on an unfinished Turn.
  lemma WasThere(h: Host, step: Runtime.Step, t: TurnId)
    requires HostOk(h) && t in Runtime.Next(h, step).processes
    ensures h.world.live && Runtime.Next(h, step).world.live && t in h.world.db.turns
    ensures t !in h.processes ==> !Finished(h.world, t) && step.Act?
  {
    hide Inv, StoreMachine.Next, Wants, Operation, Accepts, Safety.AgentOk, View, OthersMay, Loop.AfterRefusal;
    LiveMatters(h, step);
    assert TurnKept(h.processes, t, h.world.db.turns);
  }

  // While a process stays, nothing but a cancellation ends its Turn.
  lemma StepEnds(h: Host, step: Runtime.Step, t: TurnId)
    requires HostOk(h) && t in Runtime.Next(h, step).processes && !Finished(h.world, t)
    ensures Finished(Runtime.Next(h, step).world, t) <==> CancelsUnder(h, step, t)
    ensures CancelsUnder(h, step, t) ==> IsCancelled(Runtime.Next(h, step).world, t)
  {
    hide Inv, StoreMachine.Next, Wants, Operation, Accepts, Safety.AgentOk, View, OthersMay, Cancels, Asked, MayAct;
    WasThere(h, step, t);
    var a := h.world.db.turns[t].agentId;
    match step
    case Other(stored) =>
      CancelsMay(h.world, stored, t);
      if OthersMay(stored) {
        OtherEnds(h.world, stored, t, a);
        TurnStays(h, step, t);
      }
    case Act(u, moved, fate) =>
      if MayAct(h, u, moved) {
        ActEnds(h, u, moved, fate, t, a);
      }
  }

  lemma CancelsMay(w: World, stored: StoreMachine.Step, t: TurnId)
    ensures Cancels(w, stored, t) ==> OthersMay(stored) && stored.Do?
  {
  }

  // Rows are never lost, and final ones never change.
  lemma TurnStays(h: Host, step: Runtime.Step, t: TurnId)
    requires HostOk(h) && t in h.world.db.turns
    ensures RowStays(h.world, Runtime.Next(h, step).world, t)
  {
    hide Inv, Runtime.Next, StoreMachine.Run, StepsOf, Safety.AgentOk, View;
    WorldFollows(h, step);
    RunKeeps(h.world, StepsOf(h, step));
  }

  ghost predicate RowStays(w: World, w': World, t: TurnId) {
    t in w.db.turns ==> t in w'.db.turns && w'.db.turns[t].agentId == w.db.turns[t].agentId
                        && (w.db.turns[t].status.Terminal() ==> w'.db.turns[t] == w.db.turns[t])
  }

  /** Any step, in any reachable state: what a process believes to be stored stays stored if
      and only if the step is not the cancellation of its Turn by others. */
  lemma StepBelief(h: Host, step: Runtime.Step, t: TurnId)
    requires HostOk(h) && MemoryIsStored(h, t)
    ensures MemoryIsStored(Runtime.Next(h, step), t) <==> !CancelsUnder(h, step, t)
  {
    hide HostOk, Runtime.Next, MemoryIsStored, Finished, Cancels;
    var h' := Runtime.Next(h, step);
    HostKeeps(h, step);
    if t in h'.processes {
      NotFinishedYet(h, step, t);
      StepEnds(h, step, t);
      StoredUnlessFinished(h', t);
    } else {
      NoProcess(h', t);
      if CancelsUnder(h, step, t) {
        CancelsMay(h.world, step.stored, t);
        ProcessesStay(h, step.stored);
      }
    }
  }

  lemma NoProcess(h: Host, t: TurnId)
    requires t !in h.processes
    ensures MemoryIsStored(h, t)
  {
  }

  lemma ProcessesStay(h: Host, stored: StoreMachine.Step)
    requires stored.Do?
    ensures Runtime.Next(h, Other(stored)).processes == h.processes
  {
    hide StoreMachine.Next, OthersMay;
  }

  lemma NotFinishedYet(h: Host, step: Runtime.Step, t: TurnId)
    requires HostOk(h) && MemoryIsStored(h, t) && t in Runtime.Next(h, step).processes
    ensures !Finished(h.world, t)
  {
    hide HostOk, MemoryIsStored, Runtime.Next;
    if t in h.processes {
      StoredUnlessFinished(h, t);
    } else {
      WasThere(h, step, t);
    }
  }

  /** A process whose Turn has ended without it was cancelled by others. */
  lemma {:induction false} StaleIsCancelled(steps: seq<Runtime.Step>, t: TurnId)
    ensures var h := Runtime.Run(FRESH, steps); t in h.processes && Finished(h.world, t) ==> IsCancelled(h.world, t)
  {
    hide HostOk, Runtime.Next;
    if steps != [] {
      var n := |steps| - 1;
      var h := Runtime.Run(FRESH, steps[..n]);
      StaleIsCancelled(steps[..n], t);
      RuntimeKeeps(steps[..n]);
      if t in Runtime.Next(h, steps[n]).processes {
        WasThere(h, steps[n], t);
        TurnStays(h, steps[n], t);
        if !Finished(h.world, t) {
          StepEnds(h, steps[n], t);
        }
      }
    }
  }

  // An Agent may have several processes, but only one that is not stale.
  lemma OneCurrent(steps: seq<Runtime.Step>, t: TurnId, u: TurnId, a: AgentId)
    requires var h := Runtime.Run(FRESH, steps); t in h.processes && u in h.processes
    requires var w := Runtime.Run(FRESH, steps).world; Unfinished(w, t, a) && Unfinished(w, u, a)
    ensures t == u
  {
    hide Inv, Runtime.Run, StateOf, Safety.AgentOk, View;
    var h := Runtime.Run(FRESH, steps);
    RuntimeKeeps(steps);
    HostProcess(h, t);
    RowDecides(h.world, t);
    RowDecides(h.world, u);
  }

  // ---- what a stale process can do ----

  ghost predicate SameStore(w: World, w': World) {
    w'.logs == w.logs && w'.db == w.db && w'.journal == w.journal && w'.external == w.external
  }

  // An operation that plans nothing leaves the store as it is, wherever it stops.
  lemma NothingPlanned(w: World, t: TurnId, item: RolloutItem, fate: Fate)
    requires Inv(w) && w.live && t in w.db.turns && AsksFor(item, t) && Finished(w, t)
    ensures SameStore(w, StoreMachine.Next(w, StoreStep(Operation(item), fate)))
    ensures item.ContextCheckpoint? ==> !Accepts(w, Operation(item))
  {
    hide Inv, Plan, Operation, Replay, Lifecycle.Advances, AgentOf, Admit, Commit, LogOf, Waiting, AsksFor, Replays, CaughtUp,
         RunTransaction, AddExternal, Swept;
    OperationOn(w, t, item);
    var a := AgentOf(w.db, Operation(item)).value;
    LiveMeansSettled(w);
    ReplayKeeps(w, a);
    ReplayedLog(w, a);
    CheckpointPlans(w.db, LogOf(w, a), item);
  }

  lemma ReplayedLog(w: World, a: AgentId)
    requires Replays(w, a, Or(Replay(w, a), w))
    ensures LogOf(Or(Replay(w, a), w), a) == LogOf(w, a)
  {
    hide Inv, Replay, Lifecycle.Advances;
  }

  lemma CheckpointPlans(db: Tables, log: seq<Record>, item: RolloutItem)
    ensures item.ContextCheckpoint? && Plan(db, log, Operation(item)).Success? ==> Plan(db, log, Operation(item)).value.Some?
  {
    hide Reconstruct, ExpectedInput, HasLiveTurn;
  }

  // It has no process any more, or one that will not sample again.
  ghost predicate GivenUp(h: Host, t: TurnId) {
    t in h.processes ==> h.processes[t].phase.Failing?
  }

  /** A process whose Turn has ended writes nothing, into no log and no table, whatever it
      does; it claims no inputs; and when it asks the store for anything it gives up. */
  lemma StaleWritesNothing(h: Host, t: TurnId, moved: Loop.Step, fate: Fate)
    requires HostOk(h) && t in h.processes && Finished(h.world, t)
    ensures SameStore(h.world, Runtime.Next(h, Act(t, moved, fate)).world)
    ensures forall s, a, v :: RunTransaction(h.world.db, Claim(s, a, v, t)).Failure?
    ensures MayAct(h, t, moved) && Wants(h, t, moved).Ask? ==> GivenUp(Runtime.Next(h, Act(t, moved, fate)), t)
  {
    hide Inv, StoreMachine.Next, Wants, Operation, Safety.AgentOk, View, Loop.Proceed, Accepts;
    HostProcess(h, t);
    if MayAct(h, t, moved) && Wants(h, t, moved).Ask? {
      WantsForTurn(h, t, moved);
      NothingPlanned(h.world, t, Wants(h, t, moved).item, fate);
      EndsItself(h, t, moved);
    }
  }

  // What a process asks for besides checkpoints ends it.
  lemma EndsItself(h: Host, t: TurnId, moved: Loop.Step)
    requires t in h.processes && MayAct(h, t, moved) && Wants(h, t, moved).Ask?
    ensures Wants(h, t, moved).item.ContextCheckpoint? || Wants(h, t, moved).process.None?
    ensures var p := Loop.AfterRefusal(ProcessOf(h, t), moved); p.Some? ==> p.value.phase.Failing?
  {
    hide Loop.Encode, Loop.Prepared, Loop.Parsed, Loop.SampleItems, StateOf;
  }

  // ---- ended Turns ----

  ghost predicate Silent(records: seq<Record>, t: TurnId) {
    forall i :: 0 <= i < |records| ==> ItemTurn(records[i].item) != t
  }

  // What one log has got since is not about the Turn.
  ghost predicate SilentSince(w: World, w': World, a: AgentId, t: TurnId) {
    LogOf(w, a) <= LogOf(w', a) && Silent(LogOf(w', a)[|LogOf(w, a)|..], t)
  }

  ghost predicate NotAbout(written: Option<Planned>, t: TurnId) {
    written.Some? ==> ItemTurn(written.value.item) != t
  }

  lemma PlansForUnfinished(db: Tables, log: seq<Record>, op: TurnOp, t: TurnId)
    requires t in db.turns && db.turns[t].id == t && db.turns[t].status.Terminal()
    requires op.turnId in db.turns ==> db.turns[op.turnId].id == op.turnId
    ensures var plan := Plan(db, log, op); plan.Success? && plan.value.Some? ==> ItemTurn(plan.value.value) != t
  {
    hide Reconstruct, ExpectedInput, HasLiveTurn;
  }

  lemma StoreIsSilent(w: World, stored: StoreMachine.Step, t: TurnId)
    requires Inv(w) && Finished(w, t)
    ensures NotAbout(StoredOp(w, stored), t)
  {
    hide Inv, Written, Plan;
    if StoredOp(w, stored).Some? {
      PlannedIs(w, stored.op);
      RowIds(w, t);
      if stored.op.turnId in w.db.turns {
        RowIds(w, stored.op.turnId);
      }
      PlansForUnfinished(w.db, LogOf(w, StoredOp(w, stored).value.agentId), stored.op, t);
    }
  }

  lemma StepIsSilent(h: Host, step: Runtime.Step, t: TurnId, a: AgentId)
    requires HostOk(h) && Finished(h.world, t)
    ensures SilentSince(h.world, Runtime.Next(h, step).world, a, t)
  {
    hide Inv, StoreMachine.Next, LogOf, Written, Runtime.Next, StepsOf, Safety.AgentOk, View, NextRecord;
    WorldFollows(h, step);
    AtMostOneStep(h, step);
    var moves := StepsOf(h, step);
    if moves != [] {
      assert moves[..0] == [];
      StepWrites(h.world, moves[0]);
      StoreIsSilent(h.world, moves[0], t);
      var written := StoredOp(h.world, moves[0]);
      if written.Some? {
        NextItem(written.value, a);
      }
    }
  }

  lemma NextItem(p: Planned, a: AgentId)
    ensures NextRecord(p.world, a, p.item).item == p.item
  {
  }

  lemma SilentTransitive(w: World, w': World, w'': World, a: AgentId, t: TurnId)
    requires SilentSince(w, w', a, t) && SilentSince(w', w'', a, t)
    ensures SilentSince(w, w'', a, t)
  {
    hide LogOf;
    var x, y, z := LogOf(w, a), LogOf(w', a), LogOf(w'', a);
    assert z[|x|..] == y[|x|..] + z[|y|..];
  }

  lemma {:induction false} RunKeepsHost(h: Host, steps: seq<Runtime.Step>)
    requires HostOk(h)
    ensures HostOk(Runtime.Run(h, steps))
  {
    hide HostOk, Runtime.Next;
    if steps != [] {
      RunKeepsHost(h, steps[..|steps| - 1]);
      HostKeeps(Runtime.Run(h, steps[..|steps| - 1]), steps[|steps| - 1]);
    }
  }

  /** Once a Turn has ended, whatever happens later: no log gets a record about it, its row
      stays as it is, and no process is started for it. */
  lemma {:induction false} EndedIsSilent(h: Host, later: seq<Runtime.Step>, t: TurnId, a: AgentId)
    requires HostOk(h) && Finished(h.world, t)
    ensures var h' := Runtime.Run(h, later);
            && SilentSince(h.world, h'.world, a, t) && RowStays(h.world, h'.world, t)
            && (t in h'.processes ==> t in h.processes)
  {
    hide HostOk, Runtime.Next, SilentSince;
    if later == [] {
      SilentNow(h.world, a, t);
    } else {
      var n := |later| - 1;
      var h' := Runtime.Run(h, later[..n]);
      EndedIsSilent(h, later[..n], t, a);
      RunKeepsHost(h, later[..n]);
      StepIsSilent(h', later[n], t, a);
      SilentTransitive(h.world, h'.world, Runtime.Next(h', later[n]).world, a, t);
      TurnStays(h', later[n], t);
      if t in Runtime.Next(h', later[n]).processes {
        WasThere(h', later[n], t);
      }
    }
  }

  lemma SilentNow(w: World, a: AgentId, t: TurnId)
    ensures SilentSince(w, w, a, t)
  {
    hide LogOf;
  }

  // ---- a run in which it happens ----

  // A Session with an Agent and a started Action.
  const SETTING: seq<Transaction> :=
    [NewSession(0), ChangeSession(0, Start), NewAgent(AGENT, 0), Schedule(0, 0, 1, "task", FromWorkflow), StartAction(0, 3)]

  const ACTION := Invocation(0, 1, "task", FromWorkflow, ActionStatus.Scheduled, None, None)
  const PEOPLED := EMPTY.(sessions := map[0 := Attention.ROW], agents := map[1 := 0])
  const SCHEDULED := PEOPLED.(invocations := map[0 := ACTION])
  const TABLES := PEOPLED.(invocations := map[0 := ACTION.(status := ActionStatus.Running)],
                           attempts := map[3 := Attempt(3, 0, 1, None, ActionStatus.Running, None)])

  const AGENT: AgentId := 1
  const TURN: TurnId := 4

  // Its Turn is created and started ...
  const CREATION := CreateTurn(3, AGENT, TURN, "task")
  const STARTING := ChangeTurn(TURN, StartTurn, [])

  const PREPARING := Attention.Steps(SETTING) + [Do(CREATION), Do(STARTING)]

  // ... and cancelled, after a process has started on it.
  const STARTED: seq<Runtime.Step> := Others(PREPARING) + [Act(TURN, Loop.Start, Returns)]
  const CANCELLING := Other(Do(ChangeTurn(TURN, CancelTurn, [])))

  function Others(stored: seq<StoreMachine.Step>): seq<Runtime.Step> {
    seq(|stored|, i requires 0 <= i < |stored| => Other(stored[i]))
  }

  predicate AllMay(stored: seq<StoreMachine.Step>) {
    forall i :: 0 <= i < |stored| ==> OthersMay(stored[i])
  }

  lemma {:induction false} OthersRun(stored: seq<StoreMachine.Step>)
    requires AllMay(stored)
    ensures Runtime.Run(FRESH, Others(stored)) == Host(StoreMachine.Run(START, stored), map[])
  {
    hide StoreMachine.Next, OthersMay;
    if stored != [] {
      var n := |stored| - 1;
      assert Others(stored)[..n] == Others(stored[..n]);
      OthersRun(stored[..n]);
      assert Others(stored)[n] == Other(stored[n]);
    }
  }

  lemma Setting()
    ensures StoreMachine.Run(START, Attention.Steps(SETTING)).live
    ensures StoreMachine.Run(START, Attention.Steps(SETTING)).db == TABLES
  {
    Attention.RunOfTransactions(SETTING);
    Setup();
  }

  lemma Peopled()
    ensures Attention.RunAll(EMPTY, SETTING[..3]) == PEOPLED
  {
    hide Attention.RunAll;
    var created := EMPTY.(sessions := map[0 := Attention.ROW.(status := SessionStatus.Created)]);
    var started := EMPTY.(sessions := map[0 := Attention.ROW]);
    Attention.NoTransactions();
    Attention.Extend([], EMPTY, NewSession(0), created);
    Attention.Rewritten(created.sessions[0], Attention.ROW);
    Attention.Extend([] + [NewSession(0)], created, ChangeSession(0, Start), started);
    Attention.Extend([] + [NewSession(0)] + [ChangeSession(0, Start)], started, NewAgent(AGENT, 0), PEOPLED);
    assert SETTING[..3] == [] + [NewSession(0)] + [ChangeSession(0, Start)] + [NewAgent(AGENT, 0)];
  }

  lemma Schedules()
    ensures InsertInvocation(PEOPLED, 0, 0, 1, "task", FromWorkflow) == Success(SCHEDULED)
  {
  }

  lemma Attempts()
    ensures StartAttempt(SCHEDULED, 0, 3) == Success(TABLES)
  {
    assert Numbers(SCHEDULED.attempts, 0) == {};
    Attention.Rewritten(ACTION, ACTION.(status := ActionStatus.Running));
  }

  lemma Setup()
    ensures Attention.RunAll(EMPTY, SETTING) == TABLES
  {
    hide Attention.RunAll, InsertInvocation, StartAttempt;
    Peopled();
    Schedules();
    Attempts();
    Attention.Extend(SETTING[..3], PEOPLED, Schedule(0, 0, 1, "task", FromWorkflow), SCHEDULED);
    assert SETTING[..3] + [SETTING[3]] == SETTING[..4];
    Attention.Extend(SETTING[..4], SCHEDULED, StartAction(0, 3), TABLES);
    assert SETTING[..4] + [StartAction(0, 3)] == SETTING;
  }

  const CREATED := Turn(TURN, AGENT, TurnStatus.Queued, "task", None, NO_USAGE, 0, None, None)
  const RUNNING := CREATED.(status := TurnStatus.Running)
  const OPENED := State([], Some(ActiveTurn(TURN, [], false, NO_USAGE, 0, None)))

  /** A good, open store whose Agent 1 has n records, these rows and this state. */
  ghost predicate Showing(w: World, n: nat, rows: map<TurnId, Turn>, st: State) {
    Inv(w) && w.live && |LogOf(w, AGENT)| == n && RowsOf(w.db.turns, AGENT) == rows && StateOf(w, AGENT) == st
  }

  ghost predicate HasQueuedTurn(w: World) {
    Showing(w, 1, map[TURN := CREATED], OPENED)
  }

  ghost predicate HasRunningTurn(w: World) {
    Showing(w, 2, map[TURN := RUNNING], OPENED)
  }

  lemma NoRecords(w: World)
    requires Inv(w) && w.live && w.db == TABLES
    ensures Showing(w, 0, map[], INITIAL)
  {
    hide Inv;
    SettledIn(w, AGENT);
    SettledMatches(w, AGENT);
  }

  lemma Creates(w: World)
    requires Inv(w) && w.live && w.db == TABLES
    ensures HasQueuedTurn(StoreMachine.Next(w, Do(CREATION)))
  {
    hide Inv, LogOf, StateOf, StoreMachine.Next;
    NoRecords(w);
    var item := TurnCreated(CREATED, TABLES.attempts[3].(turnId := Some(TURN)));
    assert Plans(w, AGENT, CREATION, item);
    Leaves(w, AGENT, CREATION, item);
  }

  lemma StartPlans(w: World)
    requires RowsOf(w.db.turns, AGENT) == map[TURN := CREATED]
    ensures Plans(w, AGENT, STARTING, TurnUpdated(RUNNING, []))
  {
    hide LogOf;
    assert TURN in RowsOf(w.db.turns, AGENT);
  }

  lemma Starts(w: World)
    requires HasQueuedTurn(w)
    ensures HasRunningTurn(StoreMachine.Next(w, Do(STARTING)))
  {
    hide Inv, LogOf, StateOf, StoreMachine.Next, Plans, RowsOf;
    StartPlans(w);
    Leaves(w, AGENT, STARTING, TurnUpdated(RUNNING, []));
    assert map[TURN := CREATED][TURN := RUNNING] == map[TURN := RUNNING];
  }

  // A process starts on it.
  function Manned(w: World): Host {
    hide Runtime.Next;
    Runtime.Next(Host(w, map[]), Act(TURN, Loop.Start, Returns))
  }

  // A process, and its Turn as it believes it to be.
  ghost predicate Current(h: Host, t: TurnId) {
    t in h.processes && MemoryIsStored(h, t)
  }

  // A process, and its Turn cancelled and not active any more.
  ghost predicate Deserted(h: Host, t: TurnId) {
    t in h.processes && IsCancelled(h.world, t) && !MemoryIsStored(h, t)
  }

  lemma Mans(w: World)
    requires HasRunningTurn(w)
    ensures Manned(w).world == w && TURN in Manned(w).processes
  {
    hide Inv, LogOf, Reconstruct, Objective, StateOf, Loop.Settle, Loop.Decide, Asked, Operation, OthersMay,
         RunTurnOp, RunTransaction, AddExternal, Stopped, Prepare, Admit, Touched, Appended, NextRecord, Swept, Or,
         Replay, Loop.Proceed, Loop.Launched;
    assert TURN in RowsOf(w.db.turns, AGENT);
  }

  lemma Preparing() returns (w: World)
    ensures HasRunningTurn(w) && Runtime.Run(FRESH, STARTED) == Manned(w)
  {
    hide StoreMachine.Next, Inv, Runtime.Next, HasQueuedTurn, HasRunningTurn;
    var txs := Attention.Steps(SETTING);
    var w0 := StoreMachine.Run(START, txs);
    Setting();
    Reachable(txs);
    Creates(w0);
    Starts(StoreMachine.Next(w0, Do(CREATION)));
    var stored := PREPARING;
    assert stored[..|stored| - 1] == txs + [Do(CREATION)];
    assert (txs + [Do(CREATION)])[..|txs|] == txs;
    OthersRun(stored);
    assert STARTED[..|STARTED| - 1] == Others(stored);
    w := StoreMachine.Run(START, stored);
  }

  lemma Deserts(w: World, h: Host)
    requires HasRunningTurn(w) && HostOk(h) && h.world == w && TURN in h.processes
    ensures Current(h, TURN) && Deserted(Runtime.Next(h, CANCELLING), TURN)
  {
    hide Inv, StateOf, LogOf, Runtime.Next, MemoryIsStored, View, Safety.AgentOk;
    assert TURN in RowsOf(w.db.turns, AGENT);
    UnfinishedIsStored(h, TURN);
    assert CancelsUnder(h, CANCELLING, TURN);
    StepBelief(h, CANCELLING, TURN);
    ProcessesStay(h, CANCELLING.stored);
    StepEnds(h, CANCELLING, TURN);
  }

  /** A run of the program's own steps after which a process believes in a Turn that is
      cancelled and that the log does not have as active any more. */
  lemma CancelledUnderProcess()
    ensures Current(Runtime.Run(FRESH, STARTED), TURN) && Deserted(Runtime.Run(FRESH, STARTED + [CANCELLING]), TURN)
  {
    hide HostOk, Runtime.Next, Current, Deserted, HasRunningTurn;
    var w := Preparing();
    Mans(w);
    RuntimeKeeps(STARTED);
    Deserts(w, Runtime.Run(FRESH, STARTED));
    assert (STARTED + [CANCELLING])[..|STARTED|] == STARTED;
  }
}
