// The runtime: every Agent's loop and the Project store as one machine. A checkpoint is
// an operation of the store, which may refuse it, and the process may stop before, inside
// or after it. Others may cancel a Turn while its process runs; the process only learns of
// it from the store. Projected on the store a run is a run of the store machine, and
// projected on an Agent it is a run of that Agent's loop.
module Runtime {
  import opened Wrappers
  import opened Protocol
  import opened Rollout
  import opened TurnLog
  import opened StoreMachine
  import opened StoreInvariant
  import opened StoreSteps
  import Loop = AgentLoop

  /** The store, and the processes, each by the Turn it was started for. */
  datatype Host = Host(world: World, processes: map<TurnId, Loop.Process>)

  const FRESH := Host(START, map[])

  function StateOf(w: World, a: AgentId): State {
    var st := Reconstruct(LogOf(w, a));
    if st.Success? then st.value else INITIAL
  }

  function ProcessOf(h: Host, t: TurnId): Option<Loop.Process> {
    if t in h.processes then Some(h.processes[t]) else None
  }

  // What the loop of one Agent has to do with: its log, and the process of its active Turn.
  function View(h: Host, a: AgentId): Loop.Agent {
    var st := StateOf(h.world, a);
    Loop.Agent(st, Objective(LogOf(h.world, a)), if st.active.Some? then ProcessOf(h, st.active.value.turnId) else None)
  }

  // ---- steps ----

  datatype Fate = Returns | StopsBefore | StopsAfter

  /** A step of the process of a Turn, with what becomes of the store operation it asks for,
      or anything else that happens to the store. */
  datatype Step =
    | Act(turnId: TurnId, moved: Loop.Step, fate: Fate)
    | Other(stored: StoreMachine.Step)

  predicate OfProcess(step: Loop.Step) {
    !step.NewTurn? && !step.Cancel? && !step.Refused?
  }

  // A process is only started on an active Turn that was put into the running state, and
  // only once.
  predicate Startable(h: Host, t: TurnId) {
    && t !in h.processes && t in h.world.db.turns && h.world.db.turns[t].status.Running?
    && var active := StateOf(h.world, h.world.db.turns[t].agentId).active;
       active.Some? && active.value.turnId == t
  }

  predicate MayAct(h: Host, t: TurnId, step: Loop.Step) {
    h.world.live && OfProcess(step) && if step.Start? then Startable(h, t) else t in h.processes
  }

  // What a process does. Only its start looks at the log; from then on it has its memory.
  function Wants(h: Host, t: TurnId, step: Loop.Step): Loop.Move {
    if !MayAct(h, t, step) then Loop.Stay(ProcessOf(h, t)) else
    if step.Start? then Loop.Launching(View(h, h.world.db.turns[t].agentId)) else
    if step.Crash? then Loop.Stay(None) else
    Loop.Proceed(h.processes[t], step)
  }

  // Checkpoints and the other ends of a Turn are its process's business; others create
  // Turns, start, pause and resume them, and cancel them, at any time.
  predicate OthersDo(op: TurnOp) {
    match op
    case CreateTurn(_, _, _, _) => true
    case ChangeTurn(turnId, change, ids) =>
      ids == [] && (change.StartTurn? || change.PauseTurn? || change.ResumeTurn? || change.CancelTurn?)
    case _ => false
  }

  predicate OthersMay(step: StoreMachine.Step) {
    match step
    case Do(op) => OthersDo(op)
    case CrashInside(op, _) => OthersDo(op)
    case _ => true
  }

  // The operation that writes what the loop asks for.
  function Operation(item: RolloutItem): TurnOp {
    match item
    case TurnCreated(turn, attempt) => CreateTurn(attempt.id, turn.agentId, turn.id, turn.input)
    case ContextCheckpoint(turnId, mutation, usage, steps, message, ids) => Checkpoint(turnId, mutation, usage, steps, message, ids)
    case TurnUpdated(turn, ids) =>
      match turn.status
      case Completed => CompleteTurn(turn.id, if turn.output.Some? then turn.output.value else "", turn.usage)
      case Interrupted => ChangeTurn(turn.id, InterruptTurn(if turn.error.Some? then turn.error.value else ""), ids)
      case Failed => ChangeTurn(turn.id, FailTurn(if turn.error.Some? then turn.error.value else ""), ids)
      case _ => ChangeTurn(turn.id, CancelTurn, ids)
  }

  function With(processes: map<TurnId, Loop.Process>, t: TurnId, process: Option<Loop.Process>): map<TurnId, Loop.Process> {
    if process.Some? then processes[t := process.value] else processes - {t}
  }

  // A process that asks the store for something, and how that goes.
  function Asked(h: Host, t: TurnId, step: Loop.Step, fate: Fate, op: TurnOp, process: Option<Loop.Process>): Host {
    match fate
    case Returns =>
      Host(StoreMachine.Next(h.world, Do(op)),
           With(h.processes, t, if Accepts(h.world, op) then process else Loop.AfterRefusal(ProcessOf(h, t), step)))
    case StopsBefore => Host(StoreMachine.Next(h.world, CrashInside(op, false)), map[])
    case StopsAfter => Host(StoreMachine.Next(h.world, CrashInside(op, true)), map[])
  }

  function Next(h: Host, step: Step): Host {
    match step
    case Act(t, moved, fate) =>
      if !MayAct(h, t, moved) then h else (
      match Wants(h, t, moved)
      case Stay(process) => h.(processes := With(h.processes, t, process))
      case Ask(item, process) => Asked(h, t, moved, fate, Operation(item), process))
    case Other(stored) =>
      if !OthersMay(stored) then h else
      Host(StoreMachine.Next(h.world, stored), if stored.Crash? || stored.CrashInside? then map[] else h.processes)
  }

  function Run(h: Host, steps: seq<Step>): Host {
    hide Next;
    if steps == [] then h else Next(Run(h, steps[..|steps| - 1]), steps[|steps| - 1])
  }

  // ---- what a store operation writes ----

  function Written(w: World, op: TurnOp): Option<Planned> {
    var p := Prepare(w, op);
    if p.Success? && Admit(p.value.world, p.value.agentId, p.value.item).Success? then Some(p.value) else None
  }

  ghost predicate Adds(w: World, w': World, written: Option<Planned>) {
    forall b :: LogOf(w', b) == LogOf(w, b) +
      (if written.Some? && written.value.agentId == b then [NextRecord(written.value.world, b, written.value.item)] else [])
  }

  lemma SameLogs(w: World, w': World)
    requires forall b :: LogOf(w', b) == LogOf(w, b)
    ensures Adds(w, w', None)
  {
  }

  lemma ReplayLogs(w: World, a: AgentId)
    requires Inv(w)
    ensures Adds(w, Or(Replay(w, a), w), None)
  {
    hide Inv, Replay, Lifecycle.Advances;
    ReplayKeeps(w, a);
    SameLogs(w, Replay(w, a).value);
  }

  lemma DoWrites(w: World, op: TurnOp)
    requires Inv(w) && w.live
    ensures Adds(w, RunTurnOp(w, op), Written(w, op))
  {
    hide Inv, Prepare, Commit, Replay, Admit, Lifecycle.Advances, CaughtUp, Plan, NextRecord;
    if Prepare(w, op).Success? {
      PrepareKeeps(w, op);
      var p := Prepare(w, op).value;
      if Admit(p.world, p.agentId, p.item).Success? {
        CommitKeeps(p.world, op, p.agentId, p.item);
      } else {
        CommitRefused(p.world, p.agentId, p.item);
      }
    } else if AgentOf(w.db, op).Success? {
      ReplayLogs(w, AgentOf(w.db, op).value);
    }
  }

  lemma CrashWrites(w: World, op: TurnOp, durable: bool)
    requires Inv(w)
    ensures Adds(w, StoreMachine.Next(w, CrashInside(op, durable)), if w.live && durable then Written(w, op) else None)
  {
    hide Inv, Prepare, Replay, Admit, Lifecycle.Advances, CaughtUp, AgentOf, Plan, MayAct, Loop.Settle, RunTurnOp,
         RunTransaction;
    if w.live && Prepare(w, op).Success? {
      PrepareKeeps(w, op);
      var p := Prepare(w, op).value;
      if Admit(p.world, p.agentId, p.item).Success? {
        AdmitIsIdle(p.world, p.agentId, p.item);
      }
    }
  }

  lemma PlannedIs(w: World, op: TurnOp)
    requires Inv(w) && w.live && Written(w, op).Some?
    ensures var p := Written(w, op).value;
            AgentOf(w.db, op) == Success(p.agentId) && Plan(w.db, LogOf(w, p.agentId), op) == Success(Some(p.item))
  {
    hide Inv, Prepare, Replay, Admit, Plan;
    PrepareKeeps(w, op);
  }

  // What an operation plans is written exactly if the operation goes through.
  lemma AcceptedIsWritten(w: World, op: TurnOp)
    requires Inv(w) && w.live && AgentOf(w.db, op).Success?
    requires var a := AgentOf(w.db, op).value; Plan(w.db, LogOf(w, a), op).Success? ==> Plan(w.db, LogOf(w, a), op).value.Some?
    ensures Accepts(w, op) <==> Written(w, op).Some?
  {
    hide Inv, Replay, Admit, Plan, Lifecycle.Advances;
    var a := AgentOf(w.db, op).value;
    LiveMeansSettled(w);
    ReplayKeeps(w, a);
  }

  // ---- steps of the store that are not operations on Turns ----

  lemma QuietSteps(w: World, step: StoreMachine.Step)
    requires Inv(w) && !step.Do? && !step.CrashInside?
    ensures Adds(w, StoreMachine.Next(w, step), None)
  {
    hide Inv, RunTransaction, Replay;
    match step
    case ReplayOne(a) => ReplayLogs(w, a);
    case _ =>
  }

  lemma LiveStays(w: World, step: StoreMachine.Step)
    requires Inv(w) && w.live && !step.Crash? && !step.CrashInside?
    ensures StoreMachine.Next(w, step).live
  {
    hide Inv, RunTransaction, Replay, RunTurnOp, Lifecycle.Advances;
    match step
    case Do(op) => TurnOpKeeps(w, op);
    case _ =>
  }
}
