// The event sink of a running Turn, as the object that remembers what was checkpointed.
module EventSink {
  import opened Wrappers
  import opened Protocol
  import opened Rollout
  import opened History
  import opened AgentLoop

  // ---- announcing replacements ----

  datatype Announcement = Trimmed | Compacted

  // A trim announces itself unless something already did; a compaction always does.
  function Announce(sink: Sink, event: Announcement): Sink {
    match event
    case Trimmed => if sink.reason.None? then sink.(reason := Some(Trimming)) else sink
    case Compacted => sink.(reason := Some(Compaction))
  }

  function AnnounceAll(sink: Sink, events: seq<Announcement>): Sink {
    if events == [] then sink else Announce(AnnounceAll(sink, events[..|events| - 1]), events[|events| - 1])
  }

  /** After any announcements whatever the history has become can be checkpointed, and a
      replacement is put down to a compaction exactly if there was one since the last
      checkpoint. */
  lemma AnnouncedReplacement(context: seq<Item>, events: seq<Announcement>, history: seq<Item>)
    requires events != []
    ensures Encode(AnnounceAll(Sink(context, None), events), history).Success?
    ensures !(context <= history) ==>
              Encode(AnnounceAll(Sink(context, None), events), history).value ==
                Replace(history, if Compacted in events then Compaction else Trimming)
  {
    AnnouncedContext(Sink(context, None), events);
    AnnouncedReason(context, events);
  }

  lemma {:induction false} AnnouncedContext(sink: Sink, events: seq<Announcement>)
    ensures AnnounceAll(sink, events).context == sink.context
  {
    if events != [] {
      AnnouncedContext(sink, events[..|events| - 1]);
    }
  }

  lemma {:induction false} AnnouncedReason(context: seq<Item>, events: seq<Announcement>)
    ensures AnnounceAll(Sink(context, None), events).reason ==
            if events == [] then None else Some(if Compacted in events then Compaction else Trimming)
  {
    if events != [] {
      assert events == events[..|events| - 1] + [events[|events| - 1]];
      AnnouncedReason(context, events[..|events| - 1]);
    }
  }

  // The loop announces exactly what it did to its history: a compaction, and a trim that
  // removed something.
  lemma LoopAnnounces(p: Process, summary: string, usage: Usage, budget: nat)
    ensures CompactedTo(p, summary, usage, budget).sink == Announce(p.sink, Compacted)
    ensures TrimmedTo(p, budget).sink ==
            if TrimmedTo(p, budget).history != p.history then Announce(p.sink, Trimmed) else p.sink
  {
    TrimReports(p.history, budget);
  }

  // ---- the sink ----

  class TurnEventSink {
    var context: seq<Item>
    var replacementReason: Option<ReplacementReason>
    var completedModelSteps: nat

    ghost function State(): Sink
      reads this
    {
      Sink(context, replacementReason)
    }

    constructor (context: seq<Item>, completedModelSteps: nat)
      ensures State() == Sink(context, None) && this.completedModelSteps == completedModelSteps
    {
      this.context, replacementReason, this.completedModelSteps := context, None, completedModelSteps;
    }

    // A compaction earlier in the same step stays the reason.
    method ContextTrimmed()
      modifies this`replacementReason
      ensures State() == Announce(old(State()), Trimmed)
    {
      if replacementReason.None? {
        replacementReason := Some(Trimming);
      }
    }

    method ContextCompacted()
      modifies this`replacementReason
      ensures State() == Announce(old(State()), Compacted)
    {
      replacementReason := Some(Compaction);
    }

    /** The delta to store; stored says whether the store then accepted it. Whatever the
        delta, replaying it over the old context gives the history. */
    method HistoryCheckpoint(history: seq<Item>, steps: nat, stored: bool) returns (r: Result<Mutation>)
      modifies this
      ensures Encode(old(State()), history).Failure? || !stored ==>
                r.Failure? && State() == old(State()) && completedModelSteps == old(completedModelSteps)
      ensures Encode(old(State()), history).Success? && stored ==>
                && r == Encode(old(State()), history) && Mutate(old(context), r.value) == history
                && State() == Sink(history, None) && completedModelSteps == steps
    {
      DeltaRoundTrip(State(), history);
      var mutation: Mutation;
      if history == context {
        mutation := Unchanged;
      } else if context <= history {
        mutation := Append(history[|context|..]);
      } else if replacementReason.None? {
        return Failure("context replaced without a compaction or trim event");
      } else {
        mutation := Replace(history, replacementReason.value);
      }
      if !stored {
        return Failure("the store refused the checkpoint");
      }
      context, replacementReason, completedModelSteps := history, None, steps;
      return Success(mutation);
    }
  }
}
