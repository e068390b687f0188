// The protocol's data: model history items, rollout records, and the rows of the
// Project store. Timestamps, hashes and provenance snapshots are not modelled;
// identifiers are opaque numbers.
module Protocol {
  import opened Wrappers

  type AgentId = nat
  type TurnId = nat
  type InputId = nat
  type SessionId = nat
  type InvocationId = nat
  type AttemptId = nat
  type RequestId = nat

  const ROLLOUT_VERSION: nat := 1
  const U64_MAX: nat := 0xFFFF_FFFF_FFFF_FFFF
  const U32_MAX: nat := 0xFFFF_FFFF

  // ---- model history ----

  datatype Role = User | Assistant | Developer

  /** One item of a model history. A ResponseItem is a provider JSON object; the
      members the program looks at are its type, the three string fields of a
      function call, and its rendering. */
  datatype Item =
    | Message(role: Role, content: string)
    | FunctionCall(callId: string, name: string, arguments: string)
    | FunctionCallOutput(outputId: string, output: string)
    | ResponseItem(kind: string, itemCallId: Option<string>, itemName: Option<string>,
                   itemArguments: Option<string>, rendering: string)

  datatype ReplacementReason = Compaction | Trimming

  datatype Mutation =
    | Unchanged
    | Append(items: seq<Item>)
    | Replace(items: seq<Item>, reason: ReplacementReason)

  // ---- usage counters ----

  /** Token usage together with the hosted-search counter that travels with it. */
  datatype Usage = Usage(inputTokens: nat, outputTokens: nat, cachedInputTokens: nat,
                         cacheWriteInputTokens: nat, hostedSearches: nat)

  const NO_USAGE := Usage(0, 0, 0, 0, 0)

  datatype Metric = InputTokens | OutputTokens | CachedInputTokens | CacheWriteInputTokens | HostedSearches

  function Get(u: Usage, m: Metric): nat {
    match m
    case InputTokens => u.inputTokens
    case OutputTokens => u.outputTokens
    case CachedInputTokens => u.cachedInputTokens
    case CacheWriteInputTokens => u.cacheWriteInputTokens
    case HostedSearches => u.hostedSearches
  }

  // Token counters are 64 bits wide, the search counter 32.
  function Limit(m: Metric): nat {
    if m == HostedSearches then U32_MAX else U64_MAX
  }

  function SaturatingAdd(u: Usage, v: Usage): Usage {
    Usage(Min(U64_MAX, u.inputTokens + v.inputTokens),
          Min(U64_MAX, u.outputTokens + v.outputTokens),
          Min(U64_MAX, u.cachedInputTokens + v.cachedInputTokens),
          Min(U64_MAX, u.cacheWriteInputTokens + v.cacheWriteInputTokens),
          Min(U32_MAX, u.hostedSearches + v.hostedSearches))
  }

  function SaturatingSub(u: Usage, v: Usage): Usage {
    Usage(Minus(u.inputTokens, v.inputTokens),
          Minus(u.outputTokens, v.outputTokens),
          Minus(u.cachedInputTokens, v.cachedInputTokens),
          Minus(u.cacheWriteInputTokens, v.cacheWriteInputTokens),
          Minus(u.hostedSearches, v.hostedSearches))
  }

  // ---- turns ----

  datatype TurnStatus = Queued | Running | Paused | Completed | Failed | Interrupted | Cancelled {
    predicate Terminal() {
      Completed? || Failed? || Interrupted? || Cancelled?
    }
  }

  datatype Turn = Turn(id: TurnId, agentId: AgentId, status: TurnStatus, input: string,
                       output: Option<string>, usage: Usage, completedModelSteps: nat,
                       checkpointMessage: Option<string>, error: Option<string>)

  // ---- actions ----

  datatype ActionStatus = Scheduled | Running | Completed | Failed | Interrupted | Cancelled {
    predicate Terminal() {
      Completed? || Failed? || Interrupted? || Cancelled?
    }
    // An interrupted Action is terminal but may be started again.
    predicate Final() {
      Completed? || Failed? || Cancelled?
    }
  }

  datatype Source = FromWorkflow | FromHumanRequest(requestId: RequestId) | FromAgent(senderId: AgentId)

  datatype Invocation = Invocation(sessionId: SessionId, agentId: AgentId, input: string, source: Source,
                                   status: ActionStatus, output: Option<string>, error: Option<string>)

  datatype Attempt = Attempt(id: AttemptId, invocationId: InvocationId, number: nat,
                             turnId: Option<TurnId>, status: ActionStatus, error: Option<string>)

  // ---- inputs and human requests ----

  datatype InputKind = Message | Guide | Interrupt | Finish
  datatype InputStatus = Pending | Claimed | Applied

  datatype AgentInput = AgentInput(sessionId: SessionId, agentId: AgentId,
                                   invocationId: Option<InvocationId>, sender: Option<AgentId>,
                                   kind: InputKind, content: string,
                                   status: InputStatus, claimedTurn: Option<TurnId>)

  datatype RequestStatus = Open | Answered | Cancelled

  datatype HumanRequest = HumanRequest(sessionId: SessionId, agentId: AgentId,
                                       status: RequestStatus, answer: Option<string>)

  // ---- sessions ----

  datatype SessionStatus =
    Created | Running | WaitingForInput | WaitingForDeadline | Paused | Closing | Completed | Failed | Cancelled
  {
    predicate Terminal() {
      Completed? || Failed? || Cancelled?
    }
    predicate AcceptsActions() {
      Running? || WaitingForInput? || WaitingForDeadline?
    }
  }

  datatype Session = Session(status: SessionStatus, closing: Option<SessionStatus>, output: Option<string>,
                             error: Option<string>, attention: bool, usage: Usage, archived: bool)

  // ---- rollout records ----

  datatype RolloutItem =
    | TurnCreated(turn: Turn, attempt: Attempt)
    | ContextCheckpoint(turnId: TurnId, mutation: Mutation, usage: Usage, completedModelSteps: nat,
                        checkpointMessage: Option<string>, acknowledged: seq<InputId>)
    | TurnUpdated(turn: Turn, acknowledged: seq<InputId>)

  datatype Record = Record(version: nat, agentId: AgentId, sequence: nat, item: RolloutItem)
}
