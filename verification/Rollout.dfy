// Reconstruction of an Agent's rollout state from its records.
module Rollout {
  import opened Wrappers
  import opened Protocol

  datatype ActiveTurn = ActiveTurn(turnId: TurnId, context: seq<Item>, hasCheckpoint: bool, usage: Usage,
                                   completedModelSteps: nat, checkpointMessage: Option<string>)

  datatype State = State(committed: seq<Item>, active: Option<ActiveTurn>)

  const INITIAL := State([], None)

  function Mutate(context: seq<Item>, mutation: Mutation): seq<Item> {
    match mutation
    case Unchanged => context
    case Append(items) => context + items
    case Replace(items, _) => items
  }

  function ApplyRecord(st: State, item: RolloutItem): Result<State> {
    match item
    case TurnCreated(turn, _) =>
      if st.active.Some? then Failure("created a Turn while another Turn was active") else
      Success(st.(active := Some(ActiveTurn(turn.id, st.committed, false, NO_USAGE, 0, None))))
    case ContextCheckpoint(turnId, mutation, usage, steps, message, _) =>
      if st.active.None? then Failure("checkpoint for an inactive Turn") else
      if st.active.value.turnId != turnId then Failure("checkpoint belongs to another Turn") else
      Success(st.(active := Some(ActiveTurn(turnId, Mutate(st.active.value.context, mutation), true,
                                            usage, steps, message))))
    case TurnUpdated(turn, _) =>
      if st.active.None? then Failure("updated an inactive Turn") else
      if st.active.value.turnId != turn.id then Failure("updated another Turn") else
      match turn.status
      case Completed | Interrupted => Success(State(st.active.value.context, None))
      case Failed | Cancelled => Success(State(st.committed, None))
      case Queued | Running | Paused => Success(st)
  }

  function Reconstruct(log: seq<Record>): Result<State> {
    if log == [] then Success(INITIAL) else
      var st :- Reconstruct(log[..|log| - 1]);
      ApplyRecord(st, log[|log| - 1].item)
  }

  lemma ReconstructAppend(log: seq<Record>, r: Record)
    requires Reconstruct(log).Success?
    ensures Reconstruct(log + [r]) == ApplyRecord(Reconstruct(log).value, r.item)
  {
    assert (log + [r])[..|log|] == log;
  }
}
