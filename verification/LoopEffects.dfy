// What the agent loop says: which texts a checkpoint adds to the stored context, and what the
// ends of a Turn report.
module LoopEffects {
  import opened Wrappers
  import opened Protocol
  import opened Rollout
  import opened History
  import opened ToolTrace
  import opened AgentLoop
  import Text

  // ---- checkpoints ----

  /** A checkpoint of this Turn, and the context the store has once it is written. */
  ghost predicate Stores(p: Process, move: Move, context: seq<Item>, usage: Usage, steps: nat, message: Option<string>,
                         ids: seq<InputId>) {
    && move.Ask? && move.item.ContextCheckpoint? && move.item.turnId == p.turnId
    && Mutate(p.sink.context, move.item.mutation) == context
    && move.item.usage == usage && move.item.completedModelSteps == steps && move.item.checkpointMessage == message
    && Acknowledges(move.item, ids)
    && move.process.Some? && move.process.value.history == context && move.process.value.sink.context == context
  }

  ghost predicate Acknowledges(item: RolloutItem, ids: seq<InputId>) {
    match item
    case TurnCreated(_, _) => ids == []
    case ContextCheckpoint(_, _, _, _, _, acknowledged) => acknowledged == ids
    case TurnUpdated(_, acknowledged) => acknowledged == ids
  }

  lemma OfferStores(p: Process, message: Option<string>, ids: seq<InputId>)
    requires Offer(p, message, ids).Ask?
    ensures Stores(p, Offer(p, message, ids), p.history, p.usage, p.completedSteps, message, ids)
    ensures Offer(p, message, ids).process.Some? && Offer(p, message, ids).process.value.phase == p.phase
  {
    DeltaRoundTrip(p.sink, p.history);
  }

  // A history, and behind it the user's messages with these texts.
  ghost predicate Adds(history: seq<Item>, said: seq<Item>, texts: seq<string>) {
    && |said| == |history| + |texts| && said[..|history|] == history
    && forall i :: 0 <= i < |texts| ==> said[|history| + i] == Item.Message(User, texts[i])
  }

  // ---- the top of the loop ----

  function Guidance(control: Control): seq<string> {
    (if control.finish.Some? then [FINISH_NOW + control.finish.value] else []) + control.messages
  }

  predicate EndsWithPrompt(history: seq<Item>) {
    history != [] && history[|history| - 1] == Item.Message(User, FINISH_PROMPT)
  }

  // A history that must be compacted before it is sampled again.
  predicate Long(history: seq<Item>, budget: nat) {
    Total(history) >= budget * 90 / 100 && |history| > 2
  }

  // The history a sample is to see, before it is trimmed: compacted if it is too long, and
  // with the prompt to finish, once, if the loop has been told to.
  ghost predicate Continues(finishing: bool, said: seq<Item>, summary: Option<(string, Usage)>, budget: nat, full: seq<Item>) {
    && (Long(said, budget) ==> summary.Some?)
    && var kept := if Long(said, budget) then Compacted(said, summary.value.0, Min(20000, budget / 3)) else said;
       Adds(kept, full, if finishing && !EndsWithPrompt(kept) then [FINISH_PROMPT] else [])
  }

  function UsageSoFar(p: Process, said: seq<Item>, summary: Option<(string, Usage)>, budget: nat): Usage {
    if Long(said, budget) && summary.Some? then SaturatingAdd(p.usage, summary.value.1) else p.usage
  }

  lemma InstructedSays(p: Process, control: Control)
    ensures Adds(p.history, Instructed(p, control).history, Guidance(control))
    ensures Instructed(p, control).finishing == (p.finishing || control.finish.Some?)
  {
  }

  lemma PromptedSays(p: Process)
    ensures Adds(p.history, Prompted(p).history, if p.finishing && !EndsWithPrompt(p.history) then [FINISH_PROMPT] else [])
  {
  }

  lemma PreparedSays(p: Process, control: Control, summary: Option<(string, Usage)>, budget: nat) returns (said: seq<Item>, full: seq<Item>)
    requires Prepared(p, control, summary, budget).Some?
    ensures Adds(p.history, said, Guidance(control))
    ensures Continues(p.finishing || control.finish.Some?, said, summary, budget, full)
    ensures var prepared := Prepared(p, control, summary, budget).value;
            && prepared.history == Trim(full, budget).0 && prepared.usage == UsageSoFar(p, said, summary, budget)
            && prepared.turnId == p.turnId && prepared.completedSteps == p.completedSteps && prepared.sink.context == p.sink.context
  {
    hide Adds, Guidance, EndsWithPrompt, Trim, Compacted, Total, SaturatingAdd, Instructed, Prompted;
    var p1 := Instructed(p, control);
    InstructedSays(p, control);
    InstructedKeeps(p, control);
    var p2 := if MustCompact(p1.history, budget) then CompactedTo(p1, summary.value.0, summary.value.1, budget) else p1;
    PromptedSays(p2);
    PromptedKeeps(p2);
    said, full := p1.history, Prompted(p2).history;
  }

  lemma InstructedKeeps(p: Process, control: Control)
    ensures Instructed(p, control) == p.(history := Instructed(p, control).history, finishing := Instructed(p, control).finishing)
  {
  }

  lemma PromptedKeeps(p: Process)
    ensures Prompted(p) == p.(history := Prompted(p).history)
  {
  }

  /** When the loop goes on to sample, what it stores is the history so far, then the
      instruction to finish, if there is one, then every message of its control plane as the
      user's, in order, then at most the prompt to finish; or, if that was too long, a
      compaction or a trim of exactly that. The record acknowledges exactly what the control
      plane handed over. */
  lemma HeadStores(p: Process, control: Control, summary: Option<(string, Usage)>, budget: nat) returns (said: seq<Item>, full: seq<Item>)
    requires AtHead(p, control, summary, budget).Ask?
    ensures control.interrupt.None? && Adds(p.history, said, Guidance(control))
    ensures Continues(p.finishing || control.finish.Some?, said, summary, budget, full)
    ensures Stores(p, AtHead(p, control, summary, budget), Trim(full, budget).0, UsageSoFar(p, said, summary, budget),
                   p.completedSteps, None, control.ids)
    ensures Total(full) <= budget || |full| <= 2 ==> Trim(full, budget).0 == full
    ensures Total(Trim(full, budget).0) <= budget
  {
    hide Prepared, Offer, Guidance, Continues, Adds, UsageSoFar, Compacted;
    said, full := PreparedSays(p, control, summary, budget);
    OfferStores(Prepared(p, control, summary, budget).value.(phase := Sampling), None, control.ids);
  }

  /** An interruption at the top of the loop ends the Turn with its reason, and acknowledges
      what came with it. */
  lemma InterruptionEnds(p: Process, control: Control, summary: Option<(string, Usage)>, budget: nat)
    requires control.interrupt.Some?
    ensures var move := AtHead(p, control, summary, budget);
            && move.Stay? && move.process.Some?
            && var end := Proceed(move.process.value, Step.Interrupt);
               && end.Ask? && end.process.None? && end.item.TurnUpdated? && end.item.turn.id == p.turnId
               && end.item.turn.status.Interrupted? && end.item.turn.error == control.interrupt && Acknowledges(end.item, control.ids)
  {
  }

  // ---- a sample ----

  // The items as the provider sent them.
  ghost predicate AreItems(xs: seq<ProviderItem>, items: seq<Item>) {
    && |items| == |xs|
    && forall i :: 0 <= i < |xs| ==>
         items[i] == ResponseItem(xs[i].kind, xs[i].callId, xs[i].name, xs[i].arguments, xs[i].rendering)
  }

  // Calls that came as events of their own.
  ghost predicate AreCalls(calls: seq<Call>, items: seq<Item>) {
    |items| == |calls| && forall i :: 0 <= i < |calls| ==> items[i] == FunctionCall(calls[i].id, calls[i].name, calls[i].arguments)
  }

  // The message, unless one of the items is it.
  function Spoken(sample: Sample): seq<Item> {
    if sample.message != "" && forall i :: 0 <= i < |sample.items| ==> sample.items[i].kind != "message"
    then [Item.Message(Assistant, sample.message)] else []
  }

  lemma {:induction false} NoneReplayed(calls: seq<Call>, replayed: set<string>)
    requires forall i :: 0 <= i < |calls| ==> calls[i].id !in replayed
    ensures AreCalls(calls, CallItems(calls, replayed))
  {
    if calls != [] {
      NoneReplayed(calls[..|calls| - 1], replayed);
    }
  }

  lemma {:induction false} AllReplayed(calls: seq<Call>, more: seq<Call>, replayed: set<string>)
    requires forall i :: 0 <= i < |calls| ==> calls[i].id in replayed
    ensures CallItems(calls + more, replayed) == CallItems(more, replayed)
  {
    if more != [] {
      AllReplayed(calls, more[..|more| - 1], replayed);
      assert (calls + more)[..|calls + more| - 1] == calls + more[..|more| - 1];
    } else {
      assert calls + more == calls;
      NothingLeft(calls, replayed);
    }
  }

  lemma {:induction false} NothingLeft(calls: seq<Call>, replayed: set<string>)
    requires forall i :: 0 <= i < |calls| ==> calls[i].id in replayed
    ensures CallItems(calls, replayed) == []
  {
    if calls != [] {
      NothingLeft(calls[..|calls| - 1], replayed);
    }
  }

  // The calls among the items are exactly the replayed ones.
  lemma {:induction false} ParsedIsReplayed(xs: seq<ProviderItem>)
    requires Parsed(xs).Success?
    ensures forall id :: id in Replayed(xs) <==> exists i :: 0 <= i < |Parsed(xs).value| && Parsed(xs).value[i].id == id
  {
    if xs != [] {
      var n := |xs| - 1;
      ParsedIsReplayed(xs[..n]);
      var calls, earlier := Parsed(xs).value, Parsed(xs[..n]).value;
      forall id ensures id in Replayed(xs) <==> exists i :: 0 <= i < |calls| && calls[i].id == id {
        if i :| 0 <= i < n && xs[i].kind == FUNCTION_CALL && xs[i].callId == Some(id) {
          assert xs[..n][i] == xs[i] && id in Replayed(xs[..n]);
          var j :| 0 <= j < |earlier| && earlier[j].id == id;
          assert calls[j].id == id;
        }
        if i :| 0 <= i < |calls| && calls[i].id == id {
          if i < |earlier| {
            assert earlier[i].id == id && id in Replayed(xs[..n]);
          } else {
            assert xs[n].callId == Some(id);
          }
        }
        if id in Replayed(xs) && id !in Replayed(xs[..n]) {
          assert xs[n].kind == FUNCTION_CALL && xs[n].callId == Some(id);
          assert calls[|earlier|].id == id;
        }
      }
    }
  }

  // Only the calls that are no items are added behind them.
  lemma CallsAdded(sample: Sample, used: set<string>)
    requires Parsed(sample.items).Success? && Reservable(Parsed(sample.items).value + sample.direct, used)
    ensures AreCalls(sample.direct, CallItems(Parsed(sample.items).value + sample.direct, Replayed(sample.items)))
  {
    hide Parsed, Replayed, CallItems, AreCalls, ValidId;
    var parsed, all := Parsed(sample.items).value, Parsed(sample.items).value + sample.direct;
    ParsedIsReplayed(sample.items);
    forall i | 0 <= i < |sample.direct| ensures sample.direct[i].id !in Replayed(sample.items) {
      assert all[|parsed| + i] == sample.direct[i];
      forall j | 0 <= j < |parsed| ensures parsed[j].id != sample.direct[i].id {
        assert all[j] == parsed[j];
      }
    }
    AllReplayed(parsed, sample.direct, Replayed(sample.items));
    NoneReplayed(sample.direct, Replayed(sample.items));
  }

  lemma ItemsAre(xs: seq<ProviderItem>)
    ensures AreItems(xs, ToItems(xs))
  {
  }

  /** What a sample adds: its items, its message unless an item is it, and the calls that are
      no items, each once and in order; the step is counted, and the usage of the sample and of
      the attempts before it is added. A sample without calls is the Turn's answer. */
  lemma SampleStores(p: Process, sample: Sample) returns (items: seq<Item>, calls: seq<Item>)
    requires Sampled(p, sample).Ask?
    ensures AreItems(sample.items, items) && AreCalls(sample.direct, calls)
    ensures Stores(p, Sampled(p, sample), p.history + items + Spoken(sample) + calls, SaturatingAdd(p.usage, StepUsage(sample)),
                   p.completedSteps + 1, if HasCalls(sample) then None else Some(sample.message), [])
    ensures var phase := Sampled(p, sample).process.value.phase;
            if HasCalls(sample) then phase.Tools? else phase == Final(sample.message)
  {
    hide Offer, CallItems, Parsed, Reservable, StepUsage, SaturatingAdd, AreCalls, AreItems, CallIds, Names, ToItems;
    var parsed := Parsed(sample.items).value;
    CallsAdded(sample, p.used);
    ItemsAre(sample.items);
    ItemCallsAre(sample.items);
    OfferStores(WithAnswer(p, sample, parsed + sample.direct), if parsed + sample.direct == [] then Some(sample.message) else None, []);
    items, calls := ToItems(sample.items), CallItems(parsed + sample.direct, Replayed(sample.items));
    assert p.history + (items + Spoken(sample) + calls) == p.history + items + Spoken(sample) + calls;
  }

  predicate HasCalls(sample: Sample) {
    sample.direct != [] || exists i :: 0 <= i < |sample.items| && sample.items[i].kind == FUNCTION_CALL
  }

  lemma {:induction false} ItemCallsAre(xs: seq<ProviderItem>)
    requires Parsed(xs).Success?
    ensures Parsed(xs).value == [] <==> forall i :: 0 <= i < |xs| ==> xs[i].kind != FUNCTION_CALL
  {
    if xs != [] {
      var n := |xs| - 1;
      ItemCallsAre(xs[..n]);
      assert forall i :: 0 <= i < n ==> xs[..n][i] == xs[i];
    }
  }

  // The searches among the items.
  function SearchItems(xs: seq<ProviderItem>): set<nat> {
    set i | 0 <= i < |xs| && xs[i].kind == "web_search_call"
  }

  lemma {:induction false} SearchesAre(xs: seq<ProviderItem>)
    ensures Searches(xs) == |SearchItems(xs)|
  {
    if xs != [] {
      var n := |xs| - 1;
      SearchesAre(xs[..n]);
      assert SearchItems(xs) == SearchItems(xs[..n]) + (if xs[n].kind == "web_search_call" then {n} else {});
    }
  }

  /** The usage of a step, counter by counter: its sample, the attempts before it, and the
      searches the provider made, cut off at the counter's width. */
  lemma StepUsageIs(sample: Sample, m: Metric)
    ensures Get(StepUsage(sample), m) ==
            Min(Limit(m), Min(Limit(m), Get(sample.usage, m) + Get(sample.retryUsage, m))
                          + (if m == HostedSearches then Min(U32_MAX, |SearchItems(sample.items)|) else 0))
  {
    SearchesAre(sample.items);
    hide Searches, SearchItems;
  }

  // ---- tools ----

  /** The outcome of a tool is stored with the id of its call and the text the tool gave, and
      nothing else changes but what is still outstanding. */
  lemma ToolStores(p: Process, k: nat, output: string)
    requires p.phase.Tools? && k < |p.phase.open| && Proceed(p, ToolDone(k, output)).Ask?
    ensures var move := Proceed(p, ToolDone(k, output));
            && Stores(p, move, p.history + [FunctionCallOutput(p.phase.open[k], output)], p.usage, p.completedSteps, None, [])
            && var left := p.phase.open[..k] + p.phase.open[k + 1..];
               move.process.value.phase == if left == [] then Head else Tools(left)
  {
    hide Offer;
    OfferStores(WithOutput(p, k, output), None, []);
  }

  // ---- the ends of a Turn ----

  /** A Turn completes with the answer of its last sample. */
  lemma AnswerCompletes(p: Process, sample: Sample)
    requires Sampled(p, sample).Ask? && !HasCalls(sample)
    ensures var done := Sampled(p, sample).process;
            && done.Some?
            && var end := Proceed(done.value, Complete);
               && end.Ask? && end.process.None? && end.item.TurnUpdated? && end.item.turn.id == p.turnId
               && end.item.turn.status.Completed? && end.item.turn.output == Some(sample.message)
               && end.item.turn.usage == Sampled(p, sample).item.usage && Acknowledges(end.item, [])
  {
    hide Sampled, Stores, StepUsage;
    var items, calls := SampleStores(p, sample);
    SampledTurn(p, sample);
  }

  lemma SampledTurn(p: Process, sample: Sample)
    requires Sampled(p, sample).Ask?
    ensures var move := Sampled(p, sample);
            move.process.Some? && move.item.ContextCheckpoint? && move.process.value.turnId == p.turnId && move.process.value.usage == move.item.usage
  {
    hide Encode, Parsed, SampleItems, StepUsage, Reservable;
  }

  /** A Turn that is given up fails with its error, or is cancelled if there is none. */
  lemma AbandonEnds(p: Process, error: Option<string>)
    ensures var end := Proceed(p, Abandon(error));
            && end.Ask? && end.process.None? && end.item.TurnUpdated? && end.item.turn.id == p.turnId
            && (if error.Some? then end.item.turn.status.Failed? && end.item.turn.error == error else end.item.turn.status.Cancelled?)
  {
  }

  // ---- starting ----

  /** A process that starts a Turn goes on behind the committed context with the Turn's input
      as the user's message; one that resumes it goes on with what was checkpointed. Both
      carry on the counters of the log, and a Turn whose answer is checkpointed only has to
      be completed. */
  lemma LaunchReads(a: Agent)
    requires a.process.None? && a.log.active.Some?
    ensures var active := a.log.active.value; var move := Launching(a);
            && move.process.Some?
            && var p := move.process.value;
               && p.turnId == active.turnId && p.usage == active.usage && p.completedSteps == active.completedModelSteps
               && !p.finishing
               && p.phase == (if active.checkpointMessage.Some? then Final(active.checkpointMessage.value) else Head)
               && (!active.hasCheckpoint ==> move.Stay? && Adds(active.context, p.history, [a.objective]) && p.sink.context == active.context)
               && (active.hasCheckpoint ==> p.history == Repaired(active.context) && p.sink.context == p.history)
               && (move.Ask? ==>
                     && active.hasCheckpoint && move.item.ContextCheckpoint? && move.item.turnId == active.turnId
                     && Mutate(active.context, move.item.mutation) == Repaired(active.context)
                     && move.item.usage == active.usage && move.item.completedModelSteps == active.completedModelSteps
                     && move.item.checkpointMessage == active.checkpointMessage && Acknowledges(move.item, []))
               && (move.Ask? <==> active.hasCheckpoint && Repaired(active.context) != active.context)
  {
    hide Repaired;
    RepairedIs(a.log.active.value.context);
  }

  lemma RepairedIs(history: seq<Item>)
    ensures history <= Repaired(history)
  {
    hide Aborts;
  }

  // ---- when a step asks for anything ----

  // Every call among the items has its fields.
  ghost predicate ItemsComplete(xs: seq<ProviderItem>) {
    forall i :: 0 <= i < |xs| && xs[i].kind == "function_call" ==> xs[i].callId.Some? && xs[i].name.Some? && xs[i].arguments.Some?
  }

  ghost predicate IsCallOf(x: ProviderItem, call: Call) {
    x.callId == Some(call.id) && x.name == Some(call.name) && x.arguments == Some(call.arguments)
  }

  // The calls of the items, in order.
  ghost predicate CallsOfItems(xs: seq<ProviderItem>, picked: seq<nat>, calls: seq<Call>) {
    && |picked| == |calls|
    && (forall i, j :: 0 <= i < j < |picked| ==> picked[i] < picked[j])
    && (forall k :: k in picked <==> 0 <= k < |xs| && xs[k].kind == "function_call")
    && (forall i :: 0 <= i < |picked| ==> picked[i] < |xs| && IsCallOf(xs[picked[i]], calls[i]))
  }

  lemma {:induction false} ParsedAre(xs: seq<ProviderItem>) returns (picked: seq<nat>)
    ensures Parsed(xs).Success? <==> ItemsComplete(xs)
    ensures Parsed(xs).Success? ==> CallsOfItems(xs, picked, Parsed(xs).value)
  {
    picked := [];
    if xs != [] {
      var n := |xs| - 1;
      var earlier := ParsedAre(xs[..n]);
      assert forall k :: 0 <= k < n ==> xs[..n][k] == xs[k];
      if Parsed(xs).Success? {
        picked := earlier + (if xs[n].kind == "function_call" then [n] else []);
        forall k: nat ensures k in picked <==> k in earlier || (k == n && xs[n].kind == "function_call") {
        }
      }
    }
  }

  // Ids a provider takes back: not blank, not too long, new, and each its own.
  ghost predicate Usable(ids: seq<string>, used: set<string>) {
    && (forall i :: 0 <= i < |ids| ==> Text.Trim(ids[i]) != "" && Text.ByteLength(ids[i]) <= 512 && ids[i] !in used)
    && (forall i, j :: 0 <= i < j < |ids| ==> ids[i] != ids[j])
  }

  /** An answer is taken while the model is being sampled, exactly if its calls are complete,
      it says or calls something, and all its calls have usable ids; the loop then waits for
      the outcomes of exactly these calls. Any other answer makes the loop fail. */
  lemma AnswerTaken(p: Process, sample: Sample) returns (picked: seq<nat>, calls: seq<Call>)
    requires p.phase.Sampling? && p.sink.context == p.history
    ensures ItemsComplete(sample.items) ==> CallsOfItems(sample.items, picked, calls)
    ensures var move := Proceed(p, Answer(sample));
            && (move.Ask? <==>
                  && ItemsComplete(sample.items) && (sample.message != "" || calls + sample.direct != [])
                  && Usable(Names(calls + sample.direct), p.used))
            && (move.Ask? && calls + sample.direct != [] ==> move.process.value.phase == Tools(Names(calls + sample.direct)))
            && (move.Stay? ==> move.process == Some(p.(phase := Failing)))
  {
    hide Parsed, SampleItems, StepUsage, SaturatingAdd, CallIds, ItemsComplete, CallsOfItems, Text.Trim, Text.ByteLength;
    picked := ParsedAre(sample.items);
    calls := [];
    if Parsed(sample.items).Success? {
      calls := Parsed(sample.items).value;
      SameUsable(calls + sample.direct, p.used);
    }
  }

  lemma SameUsable(calls: seq<Call>, used: set<string>)
    ensures Usable(Names(calls), used) <==> Reservable(calls, used)
  {
    hide Text.Trim, Text.ByteLength;
    assert forall i :: 0 <= i < |calls| ==> Names(calls)[i] == calls[i].id;
  }

  ghost predicate MayGoOn(control: Control, said: seq<Item>, full: seq<Item>, summary: Option<(string, Usage)>, budget: nat) {
    control.interrupt.None? && (Long(said, budget) ==> summary.Some?) && Total(Trim(full, budget).0) <= budget
  }

  /** At the top of the loop a process goes on to sample exactly if it is not interrupted, has
      a summary if it must compact, and what is left after trimming is within the budget;
      otherwise it is about to end the Turn as interrupted or as failed. */
  lemma HeadGoesOn(p: Process, control: Control, summary: Option<(string, Usage)>, budget: nat) returns (said: seq<Item>, full: seq<Item>)
    requires p.phase.Head? && p.sink.context <= p.history
    ensures Adds(p.history, said, Guidance(control))
    ensures (Long(said, budget) ==> summary.Some?) ==> Continues(p.finishing || control.finish.Some?, said, summary, budget, full)
    ensures var move := Proceed(p, Loop(control, summary, budget));
            if MayGoOn(control, said, full, summary, budget) then
              move.Ask? && move == AtHead(p, control, summary, budget) && move.process.Some? && move.process.value.phase.Sampling?
            else
              move.Stay? && move.process.Some? && IsEnding(move.process.value.phase, control)
  {
    hide Guidance, Adds, Compacted, Total, SaturatingAdd, Instructed, Continues, Trim, EndsWithPrompt, Prompted, Prepared, Offer, Long;
    InstructedSays(p, control);
    said := Instructed(p, control).history;
    full := said;
    PreparedWhen(p, control, summary, budget);
    if Prepared(p, control, summary, budget).Some? {
      said, full := PreparedSays(p, control, summary, budget);
      PreparedEncodes(p, control, summary, budget);
      OfferEncodes(Prepared(p, control, summary, budget).value.(phase := Sampling), control.ids);
      assert Long(said, budget) ==> summary.Some? by {
        LongContinues(p.finishing || control.finish.Some?, said, summary, budget, full);
      }
    }
  }

  ghost predicate IsEnding(phase: Phase, control: Control) {
    if control.interrupt.Some? then phase == Interrupting(control.interrupt.value, control.ids) else phase.Failing?
  }

  lemma LongContinues(finishing: bool, said: seq<Item>, summary: Option<(string, Usage)>, budget: nat, full: seq<Item>)
    requires Continues(finishing, said, summary, budget, full)
    ensures Long(said, budget) ==> summary.Some?
  {
    hide Long, Adds, Compacted;
  }

  lemma PreparedWhen(p: Process, control: Control, summary: Option<(string, Usage)>, budget: nat)
    ensures Prepared(p, control, summary, budget).Some? <==> (Long(Instructed(p, control).history, budget) ==> summary.Some?)
  {
    hide Compacted, Total, SaturatingAdd, Trim, Instructed, Prompted;
  }

  lemma OfferEncodes(p: Process, ids: seq<InputId>)
    requires p.sink.reason.Some? || p.sink.context <= p.history
    ensures Offer(p, None, ids).Ask? && Offer(p, None, ids).process.Some? && Offer(p, None, ids).process.value.phase == p.phase
  {
    DeltaRoundTrip(p.sink, p.history);
  }

  // Whatever replaces the context has been announced.
  lemma PreparedEncodes(p: Process, control: Control, summary: Option<(string, Usage)>, budget: nat)
    requires p.sink.context <= p.history && Prepared(p, control, summary, budget).Some?
    ensures var p' := Prepared(p, control, summary, budget).value; p'.sink.reason.Some? || p'.sink.context <= p'.history
  {
    hide Compacted, Total, SaturatingAdd, Trim;
    forall h ensures Trim(h, budget).1 > 0 <==> Trim(h, budget).0 != h {
      TrimReports(h, budget);
    }
  }

  // What a process may still ask for when it has been refused: to be given up.
  ghost predicate GivesUp(move: Move) {
    move.Ask? ==> move.item.TurnUpdated? && move.process.None? && (move.item.turn.status.Failed? || move.item.turn.status.Cancelled?)
  }

  /** A process the store has refused something is gone, or can only give its Turn up. */
  lemma RefusedGivesUp(a: Agent, asked: Step, step: Step)
    requires Decide(a, asked).Ask? && !asked.NewTurn? && !asked.Cancel?
    ensures var left := Decide(a, Refused(asked));
            left.Stay? && (left.process.Some? ==> a.process.Some? && GivesUp(Proceed(left.process.value, step)))
  {
    hide Launching, AtHead, Sampled, Offer;
  }

  /** Outside its own phase no step does anything; a tool's outcome, the completion and the
      interruption are asked for exactly in theirs. */
  lemma OwnPhase(p: Process, step: Step)
    requires !step.Abandon? && !step.Refused?
    ensures Proceed(p, step) != Stay(Some(p)) ==>
              || (step.Loop? && p.phase.Head?) || (step.Answer? && p.phase.Sampling?)
              || (step.ToolDone? && p.phase.Tools? && step.k < |p.phase.open|)
              || (step.Complete? && p.phase.Final?) || (step.Interrupt? && p.phase.Interrupting?)
    ensures step.ToolDone? && p.phase.Tools? && p.sink.context == p.history ==> (Proceed(p, step).Ask? <==> step.k < |p.phase.open|)
    ensures step.Complete? ==> (Proceed(p, step).Ask? <==> p.phase.Final?)
    ensures step.Interrupt? ==> (Proceed(p, step).Ask? <==> p.phase.Interrupting?)
  {
    hide AtHead, Sampled;
  }
}
