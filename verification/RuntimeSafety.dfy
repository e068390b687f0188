// What every run of the runtime keeps. Each step of it is, for every Agent, a step of that
// Agent's loop; so what the loop keeps in memory is what the store has on disk, and what
// Sessions are charged is exactly what their Turns report.
module RuntimeSafety {
  import opened Wrappers
  import opened Protocol
  import opened Rollout
  import opened Tables
  import Lifecycle
  import Projection
  import History
  import ToolTrace
  import opened TurnLog
  import opened Charges
  import opened StoreMachine
  import opened StoreInvariant
  import opened StoreSteps
  import opened StoreRuns
  import opened StoreTheorems
  import opened ExactUsage
  import opened TurnCharges
  import opened Runtime
  import Loop = AgentLoop
  import Safety = AgentSafety

  ghost predicate TurnKept(processes: map<TurnId, Loop.Process>, t: TurnId, turns: map<TurnId, Turn>) {
    t in processes ==> t in turns && processes[t].turnId == t
  }

  ghost predicate HostOk(h: Host) {
    && Inv(h.world) && (!h.world.live ==> h.processes == map[])
    && (forall a :: Safety.AgentOk(View(h, a)))
    && (forall t :: TurnKept(h.processes, t, h.world.db.turns))
  }

  // ---- logs and views ----

  lemma LogIn(w: World, a: AgentId)
    requires Inv(w)
    ensures Reconstruct(LogOf(w, a)).Success? && Fitted(a, LogOf(w, a))
  {
    hide Lifecycle.Ok, AccountsOk, DeliveryOk, Projection.Ready, Agree, Reconstruct, Fits;
    if a in w.logs {
      assert LogOk(a, w.logs[a]);
    } else {
      EmptyLogOk(a);
      assert LogOf(w, a) == [];
    }
  }

  lemma LogGrew(w: World, w': World, a: AgentId, r: Record)
    requires Inv(w) && Inv(w') && LogOf(w', a) == LogOf(w, a) + [r]
    ensures ApplyRecord(StateOf(w, a), r.item) == Success(StateOf(w', a))
    ensures Objective(LogOf(w', a)) == if r.item.TurnCreated? then r.item.turn.input else Objective(LogOf(w, a))
  {
    hide Inv, LogOf;
    LogIn(w, a);
    LogIn(w', a);
    ReconstructAppend(LogOf(w, a), r);
    assert (LogOf(w, a) + [r])[..|LogOf(w, a)|] == LogOf(w, a);
  }

  // ---- runs of the loop ----

  lemma {:induction false} RunConcat(a: Loop.Agent, xs: seq<Loop.Step>, ys: seq<Loop.Step>)
    ensures Loop.Run(a, xs + ys) == Loop.Run(Loop.Run(a, xs), ys)
  {
    hide Loop.Next;
    if ys == [] {
      assert xs + ys == xs;
    } else {
      RunConcat(a, xs, ys[..|ys| - 1]);
      assert (xs + ys)[..|xs + ys| - 1] == xs + ys[..|ys| - 1];
    }
  }

  lemma RunOne(a: Loop.Agent, step: Loop.Step)
    ensures Loop.Run(a, [step]) == Loop.Next(a, step)
  {
    hide Loop.Next;
    assert Loop.Run(a, [step][..0]) == a;
  }

  lemma {:induction false} LoopKeeps(a: Loop.Agent, moves: seq<Loop.Step>)
    requires Safety.AgentOk(a)
    ensures Safety.AgentOk(Loop.Run(a, moves))
  {
    hide Loop.Next, Safety.AgentOk;
    if moves != [] {
      LoopKeeps(a, moves[..|moves| - 1]);
      Safety.NextKeeps(Loop.Run(a, moves[..|moves| - 1]), moves[|moves| - 1]);
    }
  }

  // ---- what the store records is what was asked for ----

  lemma PlannedItem(db: Tables, log: seq<Record>, op: TurnOp, item: RolloutItem)
    requires Plan(db, log, op) == Success(Some(item))
    ensures match op
            case CreateTurn(_, _, turnId, input) => item.TurnCreated? && item.turn.id == turnId && item.turn.input == input
            case Checkpoint(turnId, mutation, usage, steps, message, ids) =>
              item == ContextCheckpoint(turnId, mutation, usage, steps, message, ids)
            case ChangeTurn(turnId, change, _) => item.TurnUpdated? && turnId in db.turns && item.turn.id == db.turns[turnId].id && item.turn.status == change.Target()
            case CompleteTurn(turnId, _, _) => item.TurnUpdated? && turnId in db.turns && item.turn.id == db.turns[turnId].id && item.turn.status.Completed?
  {
    hide Reconstruct, Lifecycle.Terminal, ExpectedInput, HasLiveTurn;
  }

  lemma PreparedTurn(p: Loop.Process, control: Loop.Control, summary: Option<(string, Usage)>, budget: nat)
    requires Loop.Prepared(p, control, summary, budget).Some?
    ensures Loop.Prepared(p, control, summary, budget).value.turnId == p.turnId
  {
    hide History.Trim, History.Compacted, SaturatingAdd, Loop.MustCompact;
  }

  ghost predicate AsksFor(item: RolloutItem, turnId: TurnId) {
    !item.TurnCreated? && ItemTurn(item) == turnId && (item.TurnUpdated? ==> item.turn.status.Terminal())
  }

  ghost predicate MoveAsksFor(move: Loop.Move, turnId: TurnId) {
    move.Ask? ==> AsksFor(move.item, turnId)
  }

  lemma ProceedAsks(p: Loop.Process, step: Loop.Step)
    requires Loop.Proceed(p, step).Ask?
    ensures AsksFor(Loop.Proceed(p, step).item, p.turnId)
  {
    hide Loop.Encode, Loop.Prepared, Loop.Parsed, Loop.SampleItems;
    match step
    case Loop(control, summary, budget) =>
      if Loop.Prepared(p, control, summary, budget).Some? {
        PreparedTurn(p, control, summary, budget);
      }
    case _ =>
  }

  // A process only ever asks for its own, active Turn.
  lemma AskedForTurn(v: Loop.Agent, step: Loop.Step)
    requires Safety.AgentOk(v) && OfProcess(step) && Loop.Decide(v, step).Ask?
    ensures v.log.active.Some? && AsksFor(Loop.Decide(v, step).item, v.log.active.value.turnId)
  {
    hide ToolTrace.Repaired, Loop.Proceed, Safety.AgentOk;
    if v.process.Some? {
      Safety.ProcessIn(v);
      if !step.Start? {
        ProceedAsks(v.process.value, step);
      }
    }
  }

  // The Turn of a running process has an unfinished row of its Agent.
  lemma ActiveRow(w: World, a: AgentId)
    requires Inv(w) && w.live && StateOf(w, a).active.Some?
    ensures var t := StateOf(w, a).active.value.turnId;
            && t in w.db.turns && w.db.turns[t].agentId == a && w.db.turns[t].id == t && !w.db.turns[t].status.Terminal()
            && w.db.turns[t].input == Objective(LogOf(w, a))
  {
    hide Inv, Reconstruct, Fits;
    AgreeIn(w, a);
    LogIn(w, a);
    SettledIn(w, a);
    SettledMatches(w, a);
    ActiveInput(a, LogOf(w, a));
    assert StateOf(w, a).active.value.turnId in RowsOf(w.db.turns, a);
  }

  ghost predicate SameEffect(stored: RolloutItem, item: RolloutItem) {
    !stored.TurnCreated? && !item.TurnCreated? && forall st :: ApplyRecord(st, stored) == ApplyRecord(st, item)
  }

  lemma OperationAgent(w: World, a: AgentId, item: RolloutItem)
    requires Inv(w) && w.live && StateOf(w, a).active.Some? && AsksFor(item, StateOf(w, a).active.value.turnId)
    ensures AgentOf(w.db, Operation(item)) == Success(a)
    ensures var plan := Plan(w.db, LogOf(w, a), Operation(item)); plan.Success? ==> plan.value.Some?
    ensures forall stored :: Plan(w.db, LogOf(w, a), Operation(item)) == Success(Some(stored)) ==> SameEffect(stored, item)
  {
    hide Inv, Reconstruct, StateOf, LogOf, Lifecycle.Terminal, Objective, ExpectedInput, HasLiveTurn, Mutate;
    ActiveRow(w, a);
    forall stored | Plan(w.db, LogOf(w, a), Operation(item)) == Success(Some(stored))
      ensures SameEffect(stored, item)
    {
      PlannedItem(w.db, LogOf(w, a), Operation(item), stored);
    }
  }

  // ---- whose process it is ----

  // A process runs the active Turn of its Agent exactly as long as the Turn's row is
  // unfinished.
  lemma RowDecides(w: World, t: TurnId)
    requires Inv(w) && w.live && t in w.db.turns
    ensures var active := StateOf(w, w.db.turns[t].agentId).active;
            !w.db.turns[t].status.Terminal() <==> active.Some? && active.value.turnId == t
  {
    hide Inv, Reconstruct;
    var a := w.db.turns[t].agentId;
    AgreeIn(w, a);
    assert t in RowsOf(w.db.turns, a);
  }

  // The Turn a process was started for is active nowhere else, and nowhere once it ended.
  lemma ActiveElsewhere(w: World, t: TurnId, a: AgentId)
    requires Inv(w) && w.live && !Unfinished(w, t, a)
    ensures var active := StateOf(w, a).active; active.Some? ==> active.value.turnId != t
  {
    hide Inv, StateOf;
    if StateOf(w, a).active.Some? {
      ActiveRow(w, a);
    }
  }

  // Turn t of Agent a, whose row is unfinished, or final.
  ghost predicate Unfinished(w: World, t: TurnId, a: AgentId) {
    t in w.db.turns && w.db.turns[t].agentId == a && !w.db.turns[t].status.Terminal()
  }

  ghost predicate Finished(w: World, t: TurnId) {
    t in w.db.turns && w.db.turns[t].status.Terminal()
  }

  ghost predicate TurnOf(w: World, t: TurnId, a: AgentId) {
    t in w.db.turns && w.db.turns[t].agentId == a
  }

  lemma HostProcess(h: Host, t: TurnId)
    requires HostOk(h) && t in h.processes
    ensures h.world.live && t in h.world.db.turns && h.processes[t].turnId == t
  {
    hide Inv, View, Safety.AgentOk;
    assert h.processes != map[] && TurnKept(h.processes, t, h.world.db.turns);
  }

  // ---- one step of the runtime is one step of the loop ----

  // What an Agent's loop sees once a record of it is in the log.
  lemma ViewGrew(h: Host, h': Host, a: AgentId, r: Record)
    requires Inv(h.world) && Inv(h'.world) && LogOf(h'.world, a) == LogOf(h.world, a) + [r]
    ensures var v := View(h, a); var v' := View(h', a);
            && ApplyRecord(v.log, r.item) == Success(v'.log)
            && v'.objective == if r.item.TurnCreated? then r.item.turn.input else v.objective
  {
    hide Inv, LogOf, StateOf;
    LogGrew(h.world, h'.world, a, r);
  }

  lemma ViewSame(h: Host, h': Host, a: AgentId)
    requires LogOf(h'.world, a) == LogOf(h.world, a)
    ensures View(h', a) == View(h, a).(process := View(h', a).process)
  {
    hide LogOf, Reconstruct;
  }

  // The process of the active Turn, if there is one.
  function ProcessIn(processes: map<TurnId, Loop.Process>, log: State): Option<Loop.Process> {
    if log.active.Some? && log.active.value.turnId in processes then Some(processes[log.active.value.turnId]) else None
  }

  lemma ViewProcess(h: Host, a: AgentId)
    ensures View(h, a).process == ProcessIn(h.processes, View(h, a).log)
  {
    hide StateOf, Objective;
  }

  // The loop's way to follow a process that is lost or stays as it was.
  function Losing(v: Loop.Agent, process: Option<Loop.Process>): seq<Loop.Step> {
    if process == v.process then [] else [Loop.Step.Crash]
  }

  lemma LosingIs(v: Loop.Agent, process: Option<Loop.Process>)
    requires process == v.process || process.None?
    ensures Loop.Run(v, Losing(v, process)) == v.(process := process)
  {
    RunOne(v, Loop.Step.Crash);
  }

  /** Following a step of the runtime in one Agent's loop. */
  ghost predicate Follows(h: Host, h': Host, a: AgentId, moves: seq<Loop.Step>) {
    View(h', a) == Loop.Run(View(h, a), moves) && Safety.UsageGrows(View(h, a).log, View(h', a).log)
  }

  lemma LosesOnly(h: Host, h': Host, a: AgentId) returns (moves: seq<Loop.Step>)
    requires LogOf(h'.world, a) == LogOf(h.world, a)
    requires View(h', a).process == View(h, a).process || View(h', a).process.None?
    ensures Follows(h, h', a, moves)
  {
    hide View, LogOf, Loop.Run, Safety.UsageGrows;
    ViewSame(h, h', a);
    moves := Losing(View(h, a), View(h', a).process);
    LosingIs(View(h, a), View(h', a).process);
    Safety.SameUsage(View(h, a).log);
  }

  // An Agent whose log and whose active Turn's process are left alone.
  lemma Untouched(h: Host, h': Host, a: AgentId) returns (moves: seq<Loop.Step>)
    requires LogOf(h'.world, a) == LogOf(h.world, a)
    requires h'.processes == map[] || ProcessIn(h'.processes, View(h, a).log) == ProcessIn(h.processes, View(h, a).log)
    ensures Follows(h, h', a, moves)
  {
    hide View, LogOf, Loop.Run, Safety.UsageGrows;
    ViewSame(h, h', a);
    ViewProcess(h, a);
    ViewProcess(h', a);
    moves := LosesOnly(h, h', a);
  }

  // One step of the loop, and the process may be lost right after it.
  lemma Takes(h: Host, h': Host, a: AgentId, step: Loop.Step) returns (moves: seq<Loop.Step>)
    requires Safety.AgentOk(View(h, a))
    requires View(h', a) == Loop.Next(View(h, a), step).(process := View(h', a).process)
    requires View(h', a).process == Loop.Next(View(h, a), step).process || View(h', a).process.None?
    ensures Follows(h, h', a, moves)
  {
    hide View, Loop.Run, Loop.Next, Safety.UsageGrows, Safety.AgentOk;
    var v := View(h, a);
    RunOne(v, step);
    var v' := Loop.Next(v, step);
    moves := [step] + Losing(v', View(h', a).process);
    LosingIs(v', View(h', a).process);
    RunConcat(v, [step], Losing(v', View(h', a).process));
    Safety.StepGrows(v, step);
  }

  // ---- steps of others ----

  // What others write about Turns is a new Turn, a cancelled one, or changes nothing.
  lemma OthersTake(h: Host, h': Host, a: AgentId, op: TurnOp, r: Record) returns (moves: seq<Loop.Step>)
    requires Inv(h.world) && Inv(h'.world) && Safety.AgentOk(View(h, a)) && OthersDo(op)
    requires Plan(h.world.db, LogOf(h.world, a), op) == Success(Some(r.item))
    requires LogOf(h'.world, a) == LogOf(h.world, a) + [r]
    requires h'.processes == map[] || h'.processes == h.processes
    requires op.CreateTurn? ==> op.turnId !in h'.processes
    ensures Follows(h, h', a, moves)
  {
    hide Inv, LogOf, View, Plan, Loop.Run, Safety.UsageGrows, Safety.AgentOk;
    PlannedItem(h.world.db, LogOf(h.world, a), op, r.item);
    ViewGrew(h, h', a, r);
    ViewProcess(h, a);
    ViewProcess(h', a);
    var v, v' := View(h, a), View(h', a);
    if op.CreateTurn? {
      NoProcessYet(v, r.item);
      moves := Takes(h, h', a, Loop.NewTurn(op.turnId, op.input));
    } else if op.change.CancelTurn? {
      moves := Takes(h, h', a, Loop.Cancel);
    } else {
      moves := Losing(v, v'.process);
      LosingIs(v, v'.process);
      Safety.SameUsage(v.log);
    }
  }

  lemma NoProcessYet(v: Loop.Agent, item: RolloutItem)
    requires Safety.AgentOk(v) && item.TurnCreated? && ApplyRecord(v.log, item).Success?
    ensures v.process.None? && v.log.active.None?
  {
  }

  lemma NewTurnIsNew(db: Tables, log: seq<Record>, op: TurnOp)
    requires op.CreateTurn? && Plan(db, log, op).Success?
    ensures op.turnId !in db.turns
  {
    hide ExpectedInput, HasLiveTurn;
  }

  lemma OtherFollows(h: Host, stored: StoreMachine.Step, a: AgentId) returns (moves: seq<Loop.Step>)
    requires HostOk(h)
    ensures Follows(h, Runtime.Next(h, Other(stored)), a, moves)
  {
    hide Inv, LogOf, StoreMachine.Next, View, Written, Safety.AgentOk, AgentOf, Plan, OthersDo;
    var h' := Runtime.Next(h, Other(stored));
    if !OthersMay(stored) {
      moves := Untouched(h, h', a);
    } else {
      NextKeeps(h.world, stored);
      var written := StoredOp(h.world, stored);
      StepWrites(h.world, stored);
      if written.Some? && written.value.agentId == a {
        var op := stored.op;
        PlannedIs(h.world, op);
        if op.CreateTurn? {
          NewTurnIsNew(h.world.db, LogOf(h.world, a), op);
          assert TurnKept(h.processes, op.turnId, h.world.db.turns);
        }
        moves := OthersTake(h, h', a, op, NextRecord(written.value.world, a, written.value.item));
      } else {
        moves := Untouched(h, h', a);
      }
    }
  }

  // The record a step of the store adds, if any.
  function StoredOp(w: World, stored: StoreMachine.Step): Option<Planned> {
    match stored
    case Do(op) => if w.live then Written(w, op) else None
    case CrashInside(op, durable) => if w.live && durable then Written(w, op) else None
    case _ => None
  }

  lemma StepWrites(w: World, stored: StoreMachine.Step)
    requires Inv(w)
    ensures Adds(w, StoreMachine.Next(w, stored), StoredOp(w, stored))
  {
    hide Inv, Written, RunTurnOp;
    match stored
    case Do(op) =>
      if w.live {
        DoWrites(w, op);
      }
    case CrashInside(op, durable) => CrashWrites(w, op, durable);
    case _ => QuietSteps(w, stored);
  }

  // ---- steps of a process ----

  ghost predicate IsActive(log: State, t: TurnId) {
    log.active.Some? && log.active.value.turnId == t
  }

  // What a process wants is what its Agent's loop decides, while it runs the active Turn.
  lemma WantsIsDecide(h: Host, t: TurnId, a: AgentId, step: Loop.Step)
    requires HostOk(h) && MayAct(h, t, step) && Unfinished(h.world, t, a)
    ensures Wants(h, t, step) == Loop.Decide(View(h, a), step) && View(h, a).process == ProcessOf(h, t)
    ensures IsActive(View(h, a).log, t)
  {
    hide Inv, StateOf, Loop.Proceed, Loop.Launching, Safety.AgentOk;
    RowDecides(h.world, t);
  }

  // The world a process's operation leaves, and the record it left in it.
  lemma AskedWrites(h: Host, a: AgentId, item: RolloutItem)
    requires Inv(h.world) && h.world.live
    requires StateOf(h.world, a).active.Some? && AsksFor(item, StateOf(h.world, a).active.value.turnId)
    ensures var written := Written(h.world, Operation(item));
            && (Accepts(h.world, Operation(item)) <==> written.Some?)
            && (written.Some? ==> written.value.agentId == a && SameEffect(written.value.item, item))
  {
    hide Inv, StateOf, Plan, Written, Accepts, SameEffect, AsksFor;
    OperationAgent(h.world, a, item);
    AcceptedIsWritten(h.world, Operation(item));
    if Written(h.world, Operation(item)).Some? {
      PlannedIs(h.world, Operation(item));
    }
  }

  // The process a move leaves runs the Turn that is active afterwards.
  lemma MoveKeepsTurn(v: Loop.Agent, step: Loop.Step)
    requires Safety.AgentOk(v) && OfProcess(step) && Loop.Decide(v, step).Ask? && v.log.active.Some?
    requires ApplyRecord(v.log, Loop.Decide(v, step).item).Success?
    ensures var move := Loop.Decide(v, step); var log := ApplyRecord(v.log, move.item).value;
            if move.item.TurnUpdated? then log.active.None? && move.process.None?
            else log.active.Some? && log.active.value.turnId == v.log.active.value.turnId
  {
    hide Safety.AgentOk, Loop.Encode, Loop.Prepared, Loop.Parsed, ToolTrace.Repaired;
    if v.process.Some? {
      Safety.ProcessIn(v);
    }
  }

  // The record is in the log, and the process goes on or is lost.
  lemma AskedTakes(h: Host, h': Host, a: AgentId, t: TurnId, step: Loop.Step, move: Loop.Move, r: Record) returns (moves: seq<Loop.Step>)
    requires Inv(h.world) && Inv(h'.world) && Safety.AgentOk(View(h, a)) && OfProcess(step)
    requires move == Loop.Decide(View(h, a), step) && move.Ask? && IsActive(View(h, a).log, t)
    requires LogOf(h'.world, a) == LogOf(h.world, a) + [r] && SameEffect(r.item, move.item)
    requires h'.processes == map[] || h'.processes == With(h.processes, t, move.process)
    ensures Follows(h, h', a, moves)
  {
    hide Inv, LogOf, View, Loop.Decide, Safety.AgentOk;
    ViewGrew(h, h', a, r);
    var v := View(h, a);
    assert ApplyRecord(v.log, r.item) == ApplyRecord(v.log, move.item);
    MoveKeepsTurn(v, step);
    ViewProcess(h', a);
    hide ApplyRecord;
    moves := Takes(h, h', a, step);
  }

  lemma StayTakes(h: Host, h': Host, a: AgentId, t: TurnId, step: Loop.Step) returns (moves: seq<Loop.Step>)
    requires Safety.AgentOk(View(h, a)) && Loop.Decide(View(h, a), step).Stay?
    requires IsActive(View(h, a).log, t)
    requires h' == h.(processes := With(h.processes, t, Loop.Decide(View(h, a), step).process))
    ensures Follows(h, h', a, moves)
  {
    hide View, LogOf, Loop.Decide, Safety.AgentOk;
    ViewSame(h, h', a);
    ViewProcess(h', a);
    moves := Takes(h, h', a, step);
  }

  lemma RefusedTakes(h: Host, h': Host, a: AgentId, t: TurnId, step: Loop.Step) returns (moves: seq<Loop.Step>)
    requires Safety.AgentOk(View(h, a)) && Loop.Decide(View(h, a), step).Ask? && OfProcess(step)
    requires IsActive(View(h, a).log, t)
    requires LogOf(h'.world, a) == LogOf(h.world, a)
    requires h'.processes == With(h.processes, t, Loop.AfterRefusal(View(h, a).process, step))
    ensures Follows(h, h', a, moves)
  {
    hide View, LogOf, Loop.AfterRefusal, Safety.AgentOk;
    ViewSame(h, h', a);
    ViewProcess(h', a);
    RefusedIs(View(h, a), step);
    moves := Takes(h, h', a, Loop.Refused(step));
  }

  lemma RefusedIs(v: Loop.Agent, step: Loop.Step)
    requires Loop.Decide(v, step).Ask?
    ensures Loop.Next(v, Loop.Refused(step)) == v.(process := Loop.AfterRefusal(v.process, step))
  {
    hide Loop.AfterRefusal, Loop.Proceed, Loop.Launching;
  }

  // The store step a process's operation amounts to.
  function StoreStep(op: TurnOp, fate: Fate): StoreMachine.Step {
    if fate.Returns? then Do(op) else CrashInside(op, fate.StopsAfter?)
  }

  lemma AskFollows(h: Host, x: AgentId, t: TurnId, step: Loop.Step, fate: Fate) returns (moves: seq<Loop.Step>)
    requires HostOk(h) && MayAct(h, t, step) && Wants(h, t, step).Ask? && Unfinished(h.world, t, x)
    ensures Follows(h, Runtime.Next(h, Act(t, step, fate)), x, moves)
  {
    hide Inv, LogOf, Loop.Decide, View, Wants, Safety.AgentOk, Operation, Accepts, Written, StoreMachine.Next, SameEffect,
         Loop.AfterRefusal, AsksFor, ProcessOf;
    WantsIsDecide(h, t, x, step);
    var h' := Runtime.Next(h, Act(t, step, fate));
    var item := Wants(h, t, step).item;
    AskedForTurn(View(h, x), step);
    ViewLog(h, x);
    AskedWrites(h, x, item);
    var stored := StoreStep(Operation(item), fate);
    StepWrites(h.world, stored);
    NextKeeps(h.world, stored);
    var written := StoredOp(h.world, stored);
    if written.Some? {
      moves := AskedTakes(h, h', x, t, step, Wants(h, t, step), NextRecord(written.value.world, x, written.value.item));
    } else if fate.Returns? {
      moves := RefusedTakes(h, h', x, t, step);
    } else {
      moves := Untouched(h, h', x);
    }
  }

  // What a process asks for is written, if at all, into its own Agent's log, and only while
  // its Turn's row is unfinished.
  lemma AskedWhere(h: Host, t: TurnId, step: Loop.Step)
    requires HostOk(h) && MayAct(h, t, step)
    ensures WritesFor(h.world, Wants(h, t, step), t)
  {
    hide Inv, View, Written, Wants, Plan, Operation, AgentOf, Safety.AgentOk, AsksFor;
    MayActIn(h, t, step);
    WantsForTurn(h, t, step);
    if Wants(h, t, step).Ask? {
      var item := Wants(h, t, step).item;
      OperationOn(h.world, t, item);
      if Written(h.world, Operation(item)).Some? {
        PlannedIs(h.world, Operation(item));
      }
    }
  }

  // What a move would write, it writes for an unfinished Turn into its Agent's log.
  ghost predicate WritesFor(w: World, move: Loop.Move, t: TurnId) {
    move.Ask? && Written(w, Operation(move.item)).Some? ==> Unfinished(w, t, Written(w, Operation(move.item)).value.agentId)
  }

  lemma WantsForTurn(h: Host, t: TurnId, step: Loop.Step)
    requires HostOk(h) && MayAct(h, t, step)
    ensures MoveAsksFor(Wants(h, t, step), t)
  {
    hide Inv, StateOf, Safety.AgentOk, Loop.Proceed, ToolTrace.Repaired, Objective;
    if !step.Start? && !step.Crash? && Wants(h, t, step).Ask? {
      assert TurnKept(h.processes, t, h.world.db.turns);
      ProceedAsks(h.processes[t], step);
    }
  }

  // An operation about a Turn: on its row's Agent, and refused or without effect once the
  // row is final.
  lemma OperationOn(w: World, t: TurnId, item: RolloutItem)
    requires Inv(w) && t in w.db.turns && AsksFor(item, t)
    ensures AgentOf(w.db, Operation(item)).Success? && TurnOf(w, t, AgentOf(w.db, Operation(item)).value)
    ensures forall log :: Finished(w, t) ==>
              var plan := Plan(w.db, log, Operation(item)); plan.Failure? || plan.value.None?
  {
    hide Inv, Reconstruct;
  }

  // Every other Agent's log and process stay as they are, and so do those of the Agent
  // itself once the process is stale.
  lemma ActLeavesAlone(h: Host, t: TurnId, step: Loop.Step, fate: Fate, a: AgentId) returns (moves: seq<Loop.Step>)
    requires HostOk(h) && MayAct(h, t, step) && !Unfinished(h.world, t, a)
    ensures Follows(h, Runtime.Next(h, Act(t, step, fate)), a, moves)
  {
    hide Inv, LogOf, View, StateOf, Wants, Safety.AgentOk, Operation, Accepts, Written, StoreMachine.Next, Loop.AfterRefusal;
    var h' := Runtime.Next(h, Act(t, step, fate));
    ActiveElsewhere(h.world, t, a);
    ViewLog(h, a);
    if Wants(h, t, step).Ask? {
      AskedWhere(h, t, step);
      StepWrites(h.world, StoreStep(Operation(Wants(h, t, step).item), fate));
    }
    moves := Untouched(h, h', a);
  }

  lemma ViewLog(h: Host, a: AgentId)
    ensures View(h, a).log == StateOf(h.world, a)
  {
    hide StateOf;
  }

  /** Whatever happens in the runtime, in each Agent's loop it is a step of the loop, a
      refusal, a loss of the process, or nothing; and the Agent's usage never drops. */
  lemma StepFollows(h: Host, step: Runtime.Step, a: AgentId) returns (moves: seq<Loop.Step>)
    requires HostOk(h)
    ensures Follows(h, Runtime.Next(h, step), a, moves)
  {
    hide HostOk, LogOf, Follows, Wants, Asked, MayAct;
    match step
    case Other(stored) => moves := OtherFollows(h, stored, a);
    case Act(t, moved, fate) =>
      if !MayAct(h, t, moved) {
        moves := Untouched(h, h, a);
      } else {
        if !Unfinished(h.world, t, a) {
          moves := ActLeavesAlone(h, t, moved, fate, a);
        } else if Wants(h, t, moved).Stay? {
          moves := StayFollows(h, a, t, moved, fate);
        } else {
          moves := AskFollows(h, a, t, moved, fate);
        }
      }
  }

  lemma MayActIn(h: Host, t: TurnId, step: Loop.Step)
    requires HostOk(h) && MayAct(h, t, step)
    ensures h.world.live && t in h.world.db.turns
  {
    hide Inv, View, Safety.AgentOk;
    assert TurnKept(h.processes, t, h.world.db.turns);
  }

  lemma StayFollows(h: Host, x: AgentId, t: TurnId, step: Loop.Step, fate: Fate) returns (moves: seq<Loop.Step>)
    requires HostOk(h) && MayAct(h, t, step) && Wants(h, t, step).Stay? && Unfinished(h.world, t, x)
    ensures Follows(h, Runtime.Next(h, Act(t, step, fate)), x, moves)
  {
    hide Inv, LogOf, Loop.Decide, View, Wants, Safety.AgentOk;
    WantsIsDecide(h, t, x, step);
    moves := StayTakes(h, Runtime.Next(h, Act(t, step, fate)), x, t, step);
  }

  // ---- every step, every run ----

  // The step of the store that a step of the runtime is, if it is one.
  function StepsOf(h: Host, step: Runtime.Step): seq<StoreMachine.Step> {
    match step
    case Other(stored) => if OthersMay(stored) then [stored] else []
    case Act(t, moved, fate) =>
      if !MayAct(h, t, moved) then [] else (
      match Wants(h, t, moved)
      case Stay(_) => []
      case Ask(item, _) => [StoreStep(Operation(item), fate)])
  }

  lemma WorldFollows(h: Host, step: Runtime.Step)
    ensures Runtime.Next(h, step).world == StoreMachine.Run(h.world, StepsOf(h, step))
  {
    hide StoreMachine.Next, MayAct, OthersMay, Wants, Operation, Accepts;
    var moves := StepsOf(h, step);
    if moves != [] {
      assert moves[..0] == [];
      assert StoreMachine.Run(h.world, moves[..0]) == h.world;
    }
  }

  lemma LiveMatters(h: Host, step: Runtime.Step)
    requires Inv(h.world) && (!h.world.live ==> h.processes == map[])
    ensures !Runtime.Next(h, step).world.live ==> Runtime.Next(h, step).processes == map[]
  {
    hide Inv, StoreMachine.Next, Wants, Operation, Accepts, OthersMay;
    match step
    case Other(stored) =>
      if h.world.live && !stored.Crash? && !stored.CrashInside? {
        LiveStays(h.world, stored);
      }
    case Act(t, moved, fate) =>
      if MayAct(h, t, moved) && Wants(h, t, moved).Ask? && fate.Returns? {
        LiveStays(h.world, Do(Operation(Wants(h, t, moved).item)));
      }
  }

  lemma TurnsStay(w: World, w': World)
    requires Inv(w) && StoreSteps.Follows(w, w')
    ensures w.db.turns.Keys <= w'.db.turns.Keys
  {
    hide Inv;
  }

  lemma ProceedTurn(p: Loop.Process, step: Loop.Step)
    ensures Loop.Proceed(p, step).process.Some? ==> Loop.Proceed(p, step).process.value.turnId == p.turnId
  {
    hide Loop.Encode, Loop.Prepared, Loop.Parsed, Loop.SampleItems;
    match step
    case Loop(control, summary, budget) =>
      if Loop.Prepared(p, control, summary, budget).Some? {
        PreparedTurn(p, control, summary, budget);
      }
    case _ =>
  }

  // A process keeps the Turn it was started for.
  lemma ProcessTurn(h: Host, step: Runtime.Step, t: TurnId)
    requires forall u :: TurnKept(h.processes, u, h.world.db.turns)
    ensures TurnKept(Runtime.Next(h, step).processes, t, h.world.db.turns)
  {
    hide StoreMachine.Next, Loop.Proceed, StateOf, Objective, Operation, Accepts, ToolTrace.Repaired;
    assert TurnKept(h.processes, t, h.world.db.turns);
    if step.Act? && step.turnId in h.processes {
      assert TurnKept(h.processes, step.turnId, h.world.db.turns);
      ProceedTurn(h.processes[step.turnId], step.moved);
    }
  }

  lemma HostKeeps(h: Host, step: Runtime.Step)
    requires HostOk(h)
    ensures HostOk(Runtime.Next(h, step))
  {
    hide Inv, View, Runtime.Next, Safety.AgentOk, StoreMachine.Run, StepsOf, Safety.UsageGrows, Loop.Run, StoreSteps.Follows;
    var h' := Runtime.Next(h, step);
    WorldFollows(h, step);
    RunKeeps(h.world, StepsOf(h, step));
    FollowsIn(h.world, h'.world);
    TurnsStay(h.world, h'.world);
    LiveMatters(h, step);
    forall a ensures Safety.AgentOk(View(h', a)) {
      var moves := StepFollows(h, step, a);
      LoopKeeps(View(h, a), moves);
    }
    forall t ensures TurnKept(h'.processes, t, h'.world.db.turns) {
      ProcessTurn(h, step, t);
    }
  }

  lemma FollowsIn(w: World, w': World)
    requires StoreSteps.Follows(w, w')
    ensures Inv(w')
  {
  }

  lemma FreshOk()
    ensures HostOk(FRESH) && forall a :: View(FRESH, a) == Loop.IDLE
  {
    hide Inv, Safety.AgentOk;
    StartInv();
    Safety.IdleOk();
  }

  lemma {:induction false} RuntimeKeeps(steps: seq<Runtime.Step>)
    ensures HostOk(Runtime.Run(FRESH, steps))
  {
    hide HostOk, Runtime.Next;
    if steps == [] {
      FreshOk();
    } else {
      RuntimeKeeps(steps[..|steps| - 1]);
      HostKeeps(Runtime.Run(FRESH, steps[..|steps| - 1]), steps[|steps| - 1]);
    }
  }

  /** The store in the runtime is the store machine: everything proved of its runs holds
      here, whatever the processes do. */
  lemma {:induction false} WorldIsRun(steps: seq<Runtime.Step>) returns (stored: seq<StoreMachine.Step>)
    ensures StoreMachine.Run(START, stored) == Runtime.Run(FRESH, steps).world
  {
    hide StoreMachine.Next, Runtime.Next, StepsOf;
    if steps == [] {
      stored := [];
    } else {
      var n := |steps| - 1;
      var before := Runtime.Run(FRESH, steps[..n]);
      stored := WorldIsRun(steps[..n]);
      WorldFollows(before, steps[n]);
      StoreConcat(START, stored, StepsOf(before, steps[n]));
      stored := stored + StepsOf(before, steps[n]);
    }
  }

  lemma {:induction false} StoreConcat(w: World, xs: seq<StoreMachine.Step>, ys: seq<StoreMachine.Step>)
    ensures StoreMachine.Run(w, xs + ys) == StoreMachine.Run(StoreMachine.Run(w, xs), ys)
  {
    hide StoreMachine.Next;
    if ys == [] {
      assert xs + ys == xs;
    } else {
      StoreConcat(w, xs, ys[..|ys| - 1]);
      assert (xs + ys)[..|xs + ys| - 1] == xs + ys[..|ys| - 1];
    }
  }

  /** And each Agent in the runtime is its loop: what its log says and what its process
      has is what some run of the loop alone leads to, whatever the store refused, the
      other Agents did, and crashes cut off. */
  lemma {:induction false} ViewIsRun(steps: seq<Runtime.Step>, a: AgentId) returns (moves: seq<Loop.Step>)
    ensures Loop.Run(Loop.IDLE, moves) == View(Runtime.Run(FRESH, steps), a)
  {
    hide HostOk, Loop.Next, View, Runtime.Next, Safety.UsageGrows, Loop.Run;
    if steps == [] {
      FreshOk();
      moves := [];
      LosingIs(Loop.IDLE, None);
    } else {
      var n := |steps| - 1;
      var before := Runtime.Run(FRESH, steps[..n]);
      moves := ViewIsRun(steps[..n], a);
      RuntimeKeeps(steps[..n]);
      var more := StepFollows(before, steps[n], a);
      RunConcat(Loop.IDLE, moves, more);
      moves := moves + more;
    }
  }

  // The active Turn is the process's, in the context the process has checkpointed.
  ghost predicate Believes(p: Loop.Process, active: ActiveTurn) {
    && active.turnId == p.turnId && active.context == p.sink.context
    && (p.phase.Sampling? || p.phase.Tools? || p.phase.Final? ==> p.history == active.context)
    && !p.phase.SinkRefused?
  }

  /** What the store would reconstruct for the Agent of a Turn is what the Turn's process, if
      it has one, believes to be stored: the same Turn, the context of its sink, and, except
      while it prepares the next sample, its history. */
  ghost predicate MemoryIsStored(h: Host, t: TurnId) {
    t in h.processes && t in h.world.db.turns ==>
      var st := Reconstruct(LogOf(h.world, h.world.db.turns[t].agentId));
      st.Success? && st.value.active.Some? && Believes(h.processes[t], st.value.active.value)
  }

  // While the row is unfinished, what is stored is what the loop knows ...
  lemma UnfinishedIsStored(h: Host, t: TurnId)
    requires HostOk(h) && t in h.processes && !Finished(h.world, t)
    ensures MemoryIsStored(h, t)
  {
    hide Inv, LogOf, Safety.AgentOk, Objective;
    HostProcess(h, t);
    var a := h.world.db.turns[t].agentId;
    RowDecides(h.world, t);
    LogIn(h.world, a);
    Safety.ProcessIn(View(h, a));
  }

  // ... and once it is final, the Turn is not active any more.
  lemma FinishedIsNotStored(h: Host, t: TurnId)
    requires HostOk(h) && t in h.processes && Finished(h.world, t)
    ensures !MemoryIsStored(h, t)
  {
    hide Inv, Reconstruct, View, LogOf, Safety.AgentOk;
    HostProcess(h, t);
    RowDecides(h.world, t);
  }

  lemma StoredUnlessFinished(h: Host, t: TurnId)
    requires HostOk(h) && t in h.processes
    ensures MemoryIsStored(h, t) <==> !Finished(h.world, t)
  {
    hide HostOk, MemoryIsStored, Finished;
    if Finished(h.world, t) {
      FinishedIsNotStored(h, t);
    } else {
      UnfinishedIsStored(h, t);
    }
  }

  /** In every run what a process believes to be stored is stored if and only if its Turn's
      row is unfinished. */
  lemma StoredIsMemory(steps: seq<Runtime.Step>, t: TurnId)
    ensures var h := Runtime.Run(FRESH, steps); t in h.processes ==> (MemoryIsStored(h, t) <==> !Finished(h.world, t))
  {
    hide HostOk, Runtime.Run, MemoryIsStored, Finished;
    RuntimeKeeps(steps);
    if t in Runtime.Run(FRESH, steps).processes {
      StoredUnlessFinished(Runtime.Run(FRESH, steps), t);
    }
  }

  // ---- usage ----

  lemma GrowsStep(h: Host, step: Runtime.Step, a: AgentId, m: Metric)
    requires HostOk(h) && Growing(LogOf(h.world, a), m)
    ensures Growing(LogOf(Runtime.Next(h, step).world, a), m)
  {
    hide Inv, Runtime.Next, Loop.Run, Safety.AgentOk, LogOf, Growing;
    var h' := Runtime.Next(h, step);
    HostKeeps(h, step);
    var moves := StepFollows(h, step, a);
    var added := AddsOne(h, step, a);
    var log := LogOf(h.world, a);
    if added != [] {
      assert added == [added[0]];
      LogGrew(h.world, h'.world, a, added[0]);
      LogIn(h.world, a);
      GrowingAppend(log, added[0], m, StateOf(h.world, a), StateOf(h'.world, a));
    } else {
      assert log + added == log;
    }
  }

  lemma GrowingAppend(log: seq<Record>, r: Record, m: Metric, st: State, st': State)
    requires Growing(log, m) && Reconstruct(log) == Success(st) && ApplyRecord(st, r.item) == Success(st')
    requires Safety.UsageGrows(st, st')
    ensures Growing(log + [r], m)
  {
    var log' := log + [r];
    forall i | 0 <= i < |log'| && log'[i].item.ContextCheckpoint? ensures GrowsAt(log', i, m) {
      assert log'[..i] == log[..i];
      if i < |log| {
        assert GrowsAt(log, i, m);
      } else {
        assert log[..i] == log;
      }
    }
  }

  // A step adds at most one record to a log.
  lemma AddsOne(h: Host, step: Runtime.Step, a: AgentId) returns (added: seq<Record>)
    requires Inv(h.world)
    ensures |added| <= 1 && LogOf(Runtime.Next(h, step).world, a) == LogOf(h.world, a) + added
  {
    WorldFollows(h, step);
    added := [];
    hide Inv, StoreMachine.Next, LogOf, Written, Runtime.Next;
    var moves := StepsOf(h, step);
    if moves != [] {
      assert moves[..0] == [];
      StepWrites(h.world, moves[0]);
      var written := StoredOp(h.world, moves[0]);
      if written.Some? && written.value.agentId == a {
        added := [NextRecord(written.value.world, a, written.value.item)];
      }
    }
  }

  lemma NothingGrows(m: Metric)
    ensures Growing([], m)
  {
  }

  lemma {:induction false} LogsGrowing(steps: seq<Runtime.Step>, a: AgentId, m: Metric)
    ensures Growing(LogOf(Runtime.Run(FRESH, steps).world, a), m)
  {
    hide HostOk, Runtime.Next, Growing;
    if steps == [] {
      NothingGrows(m);
    } else {
      LogsGrowing(steps[..|steps| - 1], a, m);
      RuntimeKeeps(steps[..|steps| - 1]);
      GrowsStep(Runtime.Run(FRESH, steps[..|steps| - 1]), steps[|steps| - 1], a, m);
    }
  }

  // ---- what ended Turns show ----

  // A Turn is completed with the usage its last checkpoint reported.
  lemma CompletesWithUsage(v: Loop.Agent, step: Loop.Step)
    requires Safety.AgentOk(v) && OfProcess(step) && Loop.Decide(v, step).Ask? && v.log.active.Some?
    ensures Operation(Loop.Decide(v, step).item).CompleteTurn? ==>
              Operation(Loop.Decide(v, step).item).usage == v.log.active.value.usage
  {
    hide Safety.AgentOk, Safety.PhaseOk, ToolTrace.Repaired, Loop.Offer, Loop.Prepared, Loop.Parsed;
    if v.process.Some? {
      Safety.ProcessIn(v);
      OffersCheckpoints();
    }
  }

  lemma OffersCheckpoints()
    ensures forall p, message, ids :: Loop.Offer(p, message, ids).Ask? ==> Loop.Offer(p, message, ids).item.ContextCheckpoint?
  {
    hide Loop.Encode;
  }

  ghost predicate CompletesFaithfully(w: World, op: TurnOp) {
    op.CompleteTurn? && op.turnId in w.db.turns ==> w.db.turns[op.turnId].usage == op.usage
  }

  lemma PlannedUsage(db: Tables, log: seq<Record>, op: TurnOp, item: RolloutItem)
    requires Plan(db, log, op) == Success(Some(item)) && item.TurnUpdated?
    requires op.CompleteTurn? && op.turnId in db.turns ==> db.turns[op.turnId].usage == op.usage
    ensures op.turnId in db.turns && item.turn.id == db.turns[op.turnId].id && item.turn.usage == db.turns[op.turnId].usage
  {
    hide Reconstruct;
  }

  lemma ActiveUsage(w: World, a: AgentId)
    requires Inv(w) && w.live && StateOf(w, a).active.Some?
    ensures var active := StateOf(w, a).active.value;
            active.turnId in w.db.turns && w.db.turns[active.turnId].usage == active.usage
  {
    hide Inv, Reconstruct;
    AgreeIn(w, a);
    assert StateOf(w, a).active.value.turnId in RowsOf(w.db.turns, a);
  }

  lemma RowIds(w: World, t: TurnId)
    requires Inv(w) && t in w.db.turns
    ensures w.db.turns[t].id == t
  {
    hide ProjectionOk, AccountsOk, DeliveryOk, Projection.Ready;
  }

  // Whatever an operation writes about a Turn repeats the usage its row shows.
  lemma WrittenFaithfully(w: World, op: TurnOp)
    requires Inv(w) && w.live && Written(w, op).Some? && CompletesFaithfully(w, op)
    requires var p := Written(w, op).value; ApplyRecord(StateOf(w, p.agentId), p.item).Success?
    ensures var p := Written(w, op).value; FaithfulAt(Reconstruct(LogOf(w, p.agentId)), p.item)
  {
    hide Inv, Reconstruct, Plan, Written, Projection.NextTurn;
    var p := Written(w, op).value;
    PlannedIs(w, op);
    LogIn(w, p.agentId);
    if p.item.TurnUpdated? {
      PlannedUsage(w.db, LogOf(w, p.agentId), op, p.item);
      ActiveUsage(w, p.agentId);
      RowIds(w, op.turnId);
    }
  }

  ghost predicate StepsFaithfully(w: World, stored: StoreMachine.Step) {
    StoredOp(w, stored).Some? ==> CompletesFaithfully(w, stored.op)
  }

  // Every operation of the runtime completes Turns with the usage of their rows.
  lemma OperationsFaithful(h: Host, step: Runtime.Step)
    requires HostOk(h)
    ensures forall stored :: stored in StepsOf(h, step) ==> StepsFaithfully(h.world, stored)
  {
    hide Inv, Wants, Safety.AgentOk, Operation, View, Written, CompletesFaithfully;
    if step.Act? && MayAct(h, step.turnId, step.moved) && Wants(h, step.turnId, step.moved).Ask? {
      ActFaithful(h, step.turnId, step.moved);
    } else if step.Other? && OthersMay(step.stored) {
      OthersFaithful(h.world, step.stored);
    }
  }

  lemma OthersFaithful(w: World, stored: StoreMachine.Step)
    requires OthersMay(stored)
    ensures StepsFaithfully(w, stored)
  {
    hide Written;
  }

  ghost predicate MovesFaithfully(w: World, move: Loop.Move) {
    move.Ask? && Written(w, Operation(move.item)).Some? ==> CompletesFaithfully(w, Operation(move.item))
  }

  lemma ActFaithful(h: Host, t: TurnId, step: Loop.Step)
    requires HostOk(h) && MayAct(h, t, step)
    ensures MovesFaithfully(h.world, Wants(h, t, step))
  {
    hide Inv, Wants, Safety.AgentOk, View, Written, Operation, CompletesFaithfully;
    var move := Wants(h, t, step);
    if move.Ask? && Written(h.world, Operation(move.item)).Some? {
      var a := Written(h.world, Operation(move.item)).value.agentId;
      AskedWhere(h, t, step);
      WantsIsDecide(h, t, a, step);
      MayActIn(h, t, step);
      ViewLog(h, a);
      ActedFaithfully(h.world, View(h, a), a, step, move);
    }
  }

  lemma ActedFaithfully(w: World, v: Loop.Agent, a: AgentId, step: Loop.Step, move: Loop.Move)
    requires Inv(w) && w.live && Safety.AgentOk(v) && v.log == StateOf(w, a) && v.log.active.Some?
    requires OfProcess(step) && move == Loop.Decide(v, step) && move.Ask?
    ensures CompletesFaithfully(w, Operation(move.item))
  {
    hide Inv, Loop.Decide, Safety.AgentOk, StateOf;
    AskedForTurn(v, step);
    CompletesWithUsage(v, step);
    ActiveUsage(w, a);
  }

  lemma FaithfulStep(h: Host, step: Runtime.Step, a: AgentId)
    requires HostOk(h) && Faithful(LogOf(h.world, a))
    ensures Faithful(LogOf(Runtime.Next(h, step).world, a))
  {
    hide Inv, StoreMachine.Next, Runtime.Next, LogOf, Written, Faithful, Safety.AgentOk, View, StateOf, StepsOf;
    WorldFollows(h, step);
    HostKeeps(h, step);
    var moves := StepsOf(h, step);
    AtMostOneStep(h, step);
    if moves != [] {
      assert moves[..0] == [] && moves[0] in moves;
      StepWrites(h.world, moves[0]);
      var written := StoredOp(h.world, moves[0]);
      if written.Some? && written.value.agentId == a {
        OperationsFaithful(h, step);
        assert StepsFaithfully(h.world, moves[0]);
        var r := NextRecord(written.value.world, a, written.value.item);
        LogGrew(h.world, Runtime.Next(h, step).world, a, r);
        WrittenFaithfully(h.world, moves[0].op);
        FaithfulAppend(LogOf(h.world, a), r);
      } else {
        assert LogOf(h.world, a) + [] == LogOf(h.world, a);
      }
    }
  }

  lemma AtMostOneStep(h: Host, step: Runtime.Step)
    ensures |StepsOf(h, step)| <= 1
  {
  }

  lemma {:induction false} LogsFaithful(steps: seq<Runtime.Step>, a: AgentId)
    ensures Faithful(LogOf(Runtime.Run(FRESH, steps).world, a))
  {
    hide HostOk, Runtime.Next, Faithful;
    if steps == [] {
      NothingFaithful();
    } else {
      LogsFaithful(steps[..|steps| - 1], a);
      RuntimeKeeps(steps[..|steps| - 1]);
      FaithfulStep(Runtime.Run(FRESH, steps[..|steps| - 1]), steps[|steps| - 1], a);
    }
  }

  lemma NothingFaithful()
    ensures Faithful([])
  {
  }

  /** A Session's counter is, up to its width, the usage reported outside rollouts plus the
      sum of what the rows of its Turns show. */
  ghost predicate PaysForTurns(w: World, s: SessionId, m: Metric) {
    s in w.db.sessions ==>
      Get(w.db.sessions[s].usage, m) == Min(Limit(m), StoreMachine.Total(w.external, s, m) + SumValues(TurnUsages(w.db, s, m)))
  }

  /** Whatever the store refused and wherever processes were stopped, a Session is charged
      exactly for what was reported outside rollouts and for what its Turns show. */
  lemma UsageIsExact(steps: seq<Runtime.Step>, s: SessionId, m: Metric)
    ensures PaysForTurns(Runtime.Run(FRESH, steps).world, s, m)
  {
    hide StoreMachine.Run, Runtime.Run, Growing, Faithful, Balances, TurnUsages, Inv;
    var w := Runtime.Run(FRESH, steps).world;
    var stored := WorldIsRun(steps);
    forall a ensures Growing(LogOf(w, a), m) && Faithful(LogOf(w, a)) {
      LogsGrowing(steps, a, m);
      LogsFaithful(steps, a);
    }
    RuntimeKeeps(steps);
    BalancesAreRows(w, s, m);
    if s in w.db.sessions {
      GrowingIsExact(stored, s, m);
    }
  }
}
