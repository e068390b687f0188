// The agent loop over its rollout: the in-memory history, the sink that turns it into
// deltas, and what a new process makes of the log after a crash.
module AgentLoop {
  import opened Wrappers
  import opened Protocol
  import opened Rollout
  import opened History
  import opened ToolTrace

  // ---- the sink ----

  /** The context as last checkpointed, and why it may be replaced since. */
  datatype Sink = Sink(context: seq<Item>, reason: Option<ReplacementReason>)

  function Encode(sink: Sink, history: seq<Item>): Result<Mutation> {
    if history == sink.context then Success(Unchanged)
    else if sink.context <= history then Success(Append(history[|sink.context|..]))
    else if sink.reason.None? then Failure("context replaced without a compaction or trim event")
    else Success(Replace(history, sink.reason.value))
  }

  // A delta read back over the old context is the new history; encoding one fails
  // exactly when nothing announced a replacement.
  lemma DeltaRoundTrip(sink: Sink, history: seq<Item>)
    ensures Encode(sink, history).Success? <==> sink.context <= history || sink.reason.Some?
    ensures Encode(sink, history).Success? ==> Mutate(sink.context, Encode(sink, history).value) == history
  {
  }

  // ---- state ----

  datatype Phase =
    | Head                                 // top of the loop
    | Sampling                             // checkpointed; the model is being sampled
    | Tools(open: seq<string>)             // calls checkpointed; these outcomes are outstanding
    | Final(message: string)               // the terminal message is checkpointed
    | Interrupting(reason: string, ids: seq<InputId>)
    | Failing
    | SinkRefused                          // the sink could not encode a replacement

  /** What lives in the process, and is lost with it. */
  datatype Process = Process(phase: Phase, turnId: TurnId, history: seq<Item>, used: set<string>, usage: Usage,
                             completedSteps: nat, finishing: bool, sink: Sink)

  /** What the log says, the input of the active Turn, and the process that runs that Turn,
      if there is one. A process whose Turn is cancelled under it runs no active Turn any
      more; module Cancellation shows that it can write nothing either. */
  datatype Agent = Agent(log: State, objective: string, process: Option<Process>)

  const IDLE := Agent(INITIAL, "", None)

  function UserItem(content: string): Item {
    Item.Message(User, content)
  }

  // ---- what a step wants ----

  /** Either a step only changes the process, or it asks the store for a record, and the
      process goes on as given once the store has it. */
  datatype Move =
    | Stay(process: Option<Process>)
    | Ask(item: RolloutItem, process: Option<Process>)

  // The log takes the record, and the loop goes on.
  function Settle(a: Agent, move: Move): Agent {
    match move
    case Stay(process) => a.(process := process)
    case Ask(item, process) =>
      match ApplyRecord(a.log, item)
      case Failure(_) => a
      case Success(log) => Agent(log, if item.TurnCreated? then item.turn.input else a.objective, process)
  }

  // A checkpoint: the sink encodes the history, and remembers it once it is stored.
  function Offer(p: Process, message: Option<string>, ids: seq<InputId>): Move {
    match Encode(p.sink, p.history)
    case Failure(_) => Stay(Some(p.(phase := SinkRefused)))
    case Success(mutation) =>
      Ask(ContextCheckpoint(p.turnId, mutation, p.usage, p.completedSteps, message, ids),
          Some(p.(sink := Sink(p.history, None))))
  }

  // ---- starting and resuming ----

  // A process that finds a checkpointed Turn first answers the calls the last one left open.
  function Repair(active: ActiveTurn): Option<RolloutItem> {
    var repaired := Repaired(active.context);
    if !active.hasCheckpoint || |repaired| == |active.context| then None else
    Some(ContextCheckpoint(active.turnId, Append(repaired[|active.context|..]), active.usage,
                           active.completedModelSteps, active.checkpointMessage, []))
  }

  function Launched(active: ActiveTurn, objective: string): Process {
    var context := if active.hasCheckpoint then Repaired(active.context) else active.context;
    var history := context + (if active.hasCheckpoint then [] else [UserItem(objective)]);
    var phase := if active.checkpointMessage.Some? then Final(active.checkpointMessage.value) else Head;
    Process(phase, active.turnId, history, Ids(history), active.usage, active.completedModelSteps, false, Sink(context, None))
  }

  function Launching(a: Agent): Move {
    if a.process.Some? || a.log.active.None? then Stay(a.process) else
    var active := a.log.active.value;
    var p := Launched(active, a.objective);
    match Repair(active)
    case None => Stay(Some(p))
    case Some(item) => Ask(item, Some(p))
  }

  // ---- the top of the loop ----

  datatype Control = Control(messages: seq<string>, interrupt: Option<string>, finish: Option<string>, ids: seq<InputId>)

  const FINISH_NOW := "The action control plane requested that this action finish now:\n"
  const FINISH_PROMPT := "Do not call tools. Synthesize the best self-contained answer supported by the evidence already gathered, follow the control-plane instruction above, and state any remaining limitations."

  function UserItems(messages: seq<string>): seq<Item> {
    seq(|messages|, i requires 0 <= i < |messages| => UserItem(messages[i]))
  }

  function Instructed(p: Process, control: Control): Process {
    p.(history := p.history
         + (if control.finish.Some? then [UserItem(FINISH_NOW + control.finish.value)] else [])
         + UserItems(control.messages),
       finishing := p.finishing || control.finish.Some?)
  }

  predicate MustCompact(history: seq<Item>, budget: nat) {
    Total(history) >= budget * 90 / 100 && |history| > 2
  }

  function CompactedTo(p: Process, summary: string, usage: Usage, budget: nat): Process {
    p.(history := Compacted(p.history, summary, Min(20000, budget / 3)),
       usage := SaturatingAdd(p.usage, usage), sink := p.sink.(reason := Some(Compaction)))
  }

  function Prompted(p: Process): Process {
    if p.finishing && (p.history == [] || p.history[|p.history| - 1] != UserItem(FINISH_PROMPT))
    then p.(history := p.history + [UserItem(FINISH_PROMPT)]) else p
  }

  function TrimmedTo(p: Process, budget: nat): Process {
    var (kept, removed) := Trim(p.history, budget);
    p.(history := kept,
       sink := if removed > 0 && p.sink.reason.None? then p.sink.(reason := Some(Trimming)) else p.sink)
  }

  // The history a sample will see; None when the compaction failed.
  function Prepared(p: Process, control: Control, summary: Option<(string, Usage)>, budget: nat): Option<Process> {
    var p1 := Instructed(p, control);
    if MustCompact(p1.history, budget) && summary.None? then None else
    var p2 := if MustCompact(p1.history, budget) then CompactedTo(p1, summary.value.0, summary.value.1, budget) else p1;
    Some(TrimmedTo(Prompted(p2), budget))
  }

  function AtHead(p: Process, control: Control, summary: Option<(string, Usage)>, budget: nat): Move {
    if control.interrupt.Some? then Stay(Some(p.(phase := Interrupting(control.interrupt.value, control.ids)))) else
    var prepared := Prepared(p, control, summary, budget);
    if prepared.None? then Stay(Some(p.(phase := Failing))) else
    if Total(prepared.value.history) > budget then Stay(Some(prepared.value.(phase := Failing))) else
    Offer(prepared.value.(phase := Sampling), None, control.ids)
  }

  // ---- one sample ----

  datatype ProviderItem = ProviderItem(kind: string, callId: Option<string>, name: Option<string>,
                                       arguments: Option<string>, rendering: string)

  /** A completed, non-failing sample; failed attempts only leave their usage. */
  datatype Sample = Sample(message: string, items: seq<ProviderItem>, direct: seq<Call>, usage: Usage, retryUsage: Usage)

  function ToItem(x: ProviderItem): Item {
    ResponseItem(x.kind, x.callId, x.name, x.arguments, x.rendering)
  }

  function ToItems(xs: seq<ProviderItem>): seq<Item> {
    seq(|xs|, i requires 0 <= i < |xs| => ToItem(xs[i]))
  }

  // The calls among the provider's items; a call without all its fields is an error.
  function Parsed(xs: seq<ProviderItem>): Result<seq<Call>> {
    if xs == [] then Success([]) else
      var earlier :- Parsed(xs[..|xs| - 1]);
      var x := xs[|xs| - 1];
      if x.kind != FUNCTION_CALL then Success(earlier) else
      if x.callId.None? || x.name.None? || x.arguments.None? then Failure("function call misses a field") else
      Success(earlier + [Call(x.callId.value, x.name.value, x.arguments.value)])
  }

  function Replayed(xs: seq<ProviderItem>): set<string> {
    set i | 0 <= i < |xs| && xs[i].kind == FUNCTION_CALL && xs[i].callId.Some? :: xs[i].callId.value
  }

  function Searches(xs: seq<ProviderItem>): nat {
    if xs == [] then 0 else
      Searches(xs[..|xs| - 1]) + (if xs[|xs| - 1].kind == "web_search_call" then 1 else 0)
  }

  predicate HasMessageItem(xs: seq<ProviderItem>) {
    exists i :: 0 <= i < |xs| && xs[i].kind == "message"
  }

  function CallItems(calls: seq<Call>, replayed: set<string>): seq<Item> {
    if calls == [] then [] else
      var c := calls[|calls| - 1];
      CallItems(calls[..|calls| - 1], replayed)
      + (if c.id in replayed then [] else [FunctionCall(c.id, c.name, c.arguments)])
  }

  // What a sample adds to the history. Calls that came as provider items are not repeated.
  function SampleItems(sample: Sample, calls: seq<Call>): seq<Item> {
    ToItems(sample.items)
    + (if sample.message != "" && !HasMessageItem(sample.items) then [Item.Message(Assistant, sample.message)] else [])
    + CallItems(calls, Replayed(sample.items))
  }

  function StepUsage(sample: Sample): Usage {
    SaturatingAdd(SaturatingAdd(sample.usage, sample.retryUsage),
                  NO_USAGE.(hostedSearches := Min(U32_MAX, Searches(sample.items))))
  }

  function Names(calls: seq<Call>): seq<string> {
    seq(|calls|, i requires 0 <= i < |calls| => calls[i].id)
  }

  function Sampled(p: Process, sample: Sample): Move {
    var parsed := Parsed(sample.items);
    if parsed.Failure? then Stay(Some(p.(phase := Failing))) else
    var calls := parsed.value + sample.direct;
    if (sample.message == "" && calls == []) || !Reservable(calls, p.used) then Stay(Some(p.(phase := Failing))) else
    Offer(WithAnswer(p, sample, calls), if calls == [] then Some(sample.message) else None, [])
  }

  function WithAnswer(p: Process, sample: Sample, calls: seq<Call>): Process {
    p.(phase := if calls == [] then Final(sample.message) else Tools(Names(calls)),
       history := p.history + SampleItems(sample, calls), used := p.used + CallIds(calls),
       usage := SaturatingAdd(p.usage, StepUsage(sample)), completedSteps := p.completedSteps + 1)
  }

  // ---- tool outcomes, in any order ----

  function WithOutput(p: Process, k: nat, output: string): Process
    requires p.phase.Tools? && k < |p.phase.open|
  {
    var open := p.phase.open[..k] + p.phase.open[k + 1..];
    p.(phase := if open == [] then Head else Tools(open),
       history := p.history + [FunctionCallOutput(p.phase.open[k], output)])
  }

  // ---- ending a Turn ----

  function Ending(turnId: TurnId, status: TurnStatus, output: Option<string>, usage: Usage, error: Option<string>,
                  ids: seq<InputId>): Move {
    Ask(TurnUpdated(Turn(turnId, 0, status, "", output, usage, 0, None, error), ids), None)
  }

  // ---- steps ----

  datatype Step =
    | NewTurn(turnId: TurnId, objective: string)
    | Start                                            // a process starts or resumes the Turn
    | Loop(control: Control, summary: Option<(string, Usage)>, budget: nat)
    | Answer(sample: Sample)
    | ToolDone(k: nat, output: string)
    | Complete
    | Interrupt
    | Abandon(error: Option<string>)                   // the Turn fails, or is cancelled
    | Cancel                                           // cancelled by others, whoever runs it
    | Refused(step: Step)                              // the store refuses what step asks for
    | Crash

  // A refused checkpoint is an error of the loop; any other refusal ends the process.
  function AfterRefusal(process: Option<Process>, step: Step): Option<Process> {
    match step
    case Loop(_, _, _) | Answer(_) | ToolDone(_, _) => if process.Some? then Some(process.value.(phase := Failing)) else None
    case Start | Complete | Interrupt | Abandon(_) => None
    case _ => process
  }

  function Decide(a: Agent, step: Step): Move {
    match step
    case NewTurn(turnId, objective) =>
      if a.process.Some? then Stay(a.process) else
      Ask(TurnCreated(Turn(turnId, 0, TurnStatus.Queued, objective, None, NO_USAGE, 0, None, None),
                      Attempt(0, 0, 1, Some(turnId), ActionStatus.Running, None)), None)
    case Start => Launching(a)
    case Cancel =>
      if a.log.active.None? then Stay(a.process) else
      Ending(a.log.active.value.turnId, TurnStatus.Cancelled, None, NO_USAGE, Some("cancelled by user"), [])
    case Crash => Stay(None)
    case Refused(asked) => if Decide(a, asked).Ask? then Stay(AfterRefusal(a.process, asked)) else Stay(a.process)
    case _ => if a.process.None? then Stay(None) else Proceed(a.process.value, step)
  }

  // What a running process does.
  function Proceed(p: Process, step: Step): Move {
    match step
    case Loop(control, summary, budget) => if p.phase.Head? then AtHead(p, control, summary, budget) else Stay(Some(p))
    case Answer(sample) => if p.phase.Sampling? then Sampled(p, sample) else Stay(Some(p))
    case ToolDone(k, output) =>
      if p.phase.Tools? && k < |p.phase.open| then Offer(WithOutput(p, k, output), None, []) else Stay(Some(p))
    case Complete =>
      if p.phase.Final? then Ending(p.turnId, TurnStatus.Completed, Some(p.phase.message), p.usage, None, []) else Stay(Some(p))
    case Interrupt =>
      if p.phase.Interrupting?
      then Ending(p.turnId, TurnStatus.Interrupted, None, NO_USAGE, Some(p.phase.reason), p.phase.ids) else Stay(Some(p))
    case Abandon(error) =>
      Ending(p.turnId, if error.Some? then TurnStatus.Failed else TurnStatus.Cancelled, None, NO_USAGE, error, [])
    case _ => Stay(Some(p))
  }

  function Next(a: Agent, step: Step): Agent {
    Settle(a, Decide(a, step))
  }

  function Run(a: Agent, steps: seq<Step>): Agent {
    if steps == [] then a else Next(Run(a, steps[..|steps| - 1]), steps[|steps| - 1])
  }
}
