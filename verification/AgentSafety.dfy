// What every run of the agent loop keeps: the log and the memory agree at every
// checkpoint, tool calls stay balanced, and reported usage never goes down.
module AgentSafety {
  import opened Wrappers
  import opened Protocol
  import opened Rollout
  import opened History
  import opened ToolTrace
  import opened AgentLoop

  // ---- the invariant ----

  ghost predicate AtMost(u: Usage, v: Usage) {
    forall m :: Get(u, m) <= Get(v, m)
  }

  ghost predicate Bounded(u: Usage) {
    forall m :: Get(u, m) <= Limit(m)
  }

  ghost predicate CommittedOk(h: seq<Item>) {
    Balanced(h) && (h != [] ==> StartsWithUser(h))
  }

  ghost predicate ActiveOk(log: State)
    requires log.active.Some?
  {
    var active := log.active.value;
    && Traced(active.context) && Bounded(active.usage)
    && (active.hasCheckpoint ==> StartsWithUser(active.context))
    && (!active.hasCheckpoint ==> active.context == log.committed && active.checkpointMessage.None?)
    && (active.checkpointMessage.Some? ==> Balanced(active.context))
  }

  ghost predicate SameIds(open: seq<string>, h: seq<Item>) {
    && NoRepeats(open)
    && (forall k :: 0 <= k < |open| ==> Unanswered(h, open[k]) && open[k] in Ids(h))
    && (forall i :: 0 <= i < |h| && CallId(h[i]).Some? ==> CallId(h[i]).value in open || HasOutput(h, i))
  }

  ghost predicate PhaseOk(p: Process) {
    match p.phase
    case Head => Balanced(p.history) && StartsWithUser(p.history) && Balanced(p.sink.context)
    case Sampling => Balanced(p.history) && StartsWithUser(p.history) && p.history == p.sink.context
    case Tools(open) => open != [] && Traced(p.history) && StartsWithUser(p.history) && p.history == p.sink.context
                        && SameIds(open, p.history)
    case Final(_) => Balanced(p.history) && p.history == p.sink.context
    case Interrupting(_, _) => Balanced(p.sink.context)
    case Failing => true
    case SinkRefused => false
  }

  ghost predicate ProcessOk(log: State, p: Process)
    requires log.active.Some?
  {
    var active := log.active.value;
    && p.turnId == active.turnId && p.sink.context == active.context
    && AtMost(active.usage, p.usage) && Bounded(p.usage)
    && PhaseOk(p)
    && (p.phase.Final? ==> active.checkpointMessage == Some(p.phase.message) && active.usage == p.usage)
    && (!p.phase.Failing? ==> Ids(p.history) <= p.used)
    && (p.phase.Head? ==> p.sink.reason.None? && p.sink.context <= p.history)
    && (p.phase.Sampling? || p.phase.Tools? || p.phase.Final? ==> p.sink.reason.None?)
  }

  ghost predicate AgentOk(a: Agent) {
    && CommittedOk(a.log.committed)
    && (a.log.active.Some? ==> ActiveOk(a.log))
    && (a.process.Some? ==> a.log.active.Some? && ProcessOk(a.log, a.process.value))
  }

  // ---- usage only grows ----

  lemma AddGrows(u: Usage, v: Usage)
    requires Bounded(u)
    ensures AtMost(u, SaturatingAdd(u, v)) && Bounded(SaturatingAdd(u, v))
  {
    forall m ensures Get(u, m) <= Get(SaturatingAdd(u, v), m) <= Limit(m) {
      assert Get(u, m) <= Limit(m);
    }
  }

  lemma AtMostTransitive(u: Usage, v: Usage, w: Usage)
    requires AtMost(u, v) && AtMost(v, w)
    ensures AtMost(u, w)
  {
    forall m ensures Get(u, m) <= Get(w, m) {
      assert Get(u, m) <= Get(v, m) <= Get(w, m);
    }
  }

  // ---- a checkpoint ----

  // What a process must have established before it checkpoints.
  ghost predicate ReadyToEmit(a: Agent, p: Process, message: Option<string>) {
    && AgentOk(a) && a.log.active.Some?
    && p.turnId == a.log.active.value.turnId && p.sink.context == a.log.active.value.context
    && (p.sink.reason.None? ==> p.sink.context <= p.history)
    && Traced(p.history) && StartsWithUser(p.history) && Ids(p.history) <= p.used
    && AtMost(a.log.active.value.usage, p.usage) && Bounded(p.usage)
    && (message.Some? ==> Balanced(p.history) && p.phase == Final(message.value))
    && (message.None? ==> !p.phase.Final?)
    && match p.phase
       case Head | Sampling | Final(_) => Balanced(p.history)
       case Tools(open) => open != [] && SameIds(open, p.history)
       case _ => false
  }

  /** A checkpoint can always be encoded, and once it is stored the context rebuilt from
      the log is the history in memory. */
  lemma EmitKeeps(a: Agent, p: Process, message: Option<string>, ids: seq<InputId>)
    requires ReadyToEmit(a, p, message)
    ensures Offer(p, message, ids).Ask? && ApplyRecord(a.log, Offer(p, message, ids).item).Success?
    ensures var a' := Settle(a, Offer(p, message, ids));
            && AgentOk(a') && a'.process == Some(p.(sink := Sink(p.history, None)))
            && a'.log.active.Some? && a'.log.active.value.context == p.history
            && a'.log.active.value.usage == p.usage && a'.log.committed == a.log.committed
  {
    OfferIs(p, message, ids);
    hide Offer, Mutate, Traced, Balanced, StartsWithUser, AtMost, Bounded, SameIds, Ids, HasOutput;
    SelfAtMost(p.usage);
  }

  lemma OfferIs(p: Process, message: Option<string>, ids: seq<InputId>)
    requires p.sink.reason.None? ==> p.sink.context <= p.history
    ensures var move := Offer(p, message, ids);
            && move.Ask? && move.item.ContextCheckpoint? && Mutate(p.sink.context, move.item.mutation) == p.history
            && move == Ask(ContextCheckpoint(p.turnId, move.item.mutation, p.usage, p.completedSteps, message, ids),
                           Some(p.(sink := Sink(p.history, None))))
  {
    DeltaRoundTrip(p.sink, p.history);
    hide Encode, Mutate;
  }

  lemma SelfAtMost(u: Usage)
    ensures AtMost(u, u)
  {
  }

  // ---- starting ----

  lemma LaunchKeeps(a: Agent)
    requires AgentOk(a)
    ensures AgentOk(Settle(a, Launching(a)))
  {
    if a.process.None? && a.log.active.Some? {
      var active := a.log.active.value;
      hide Traced, Bounded, Ids, SameIds;
      SelfAtMost(active.usage);
      if active.hasCheckpoint {
        RepairBalances(active.context);
        RepairIs(a.log);
        assert Repaired(active.context) + [] == Repaired(active.context);
      } else {
        LaunchFresh(a);
      }
    }
  }

  // The repair is a checkpoint that leaves the repaired context and changes nothing else.
  lemma RepairIs(log: State)
    requires log.active.Some? && log.active.value.hasCheckpoint && log.active.value.context <= Repaired(log.active.value.context)
    ensures var active := log.active.value; var repaired := active.(context := Repaired(active.context));
            match Repair(active)
            case None => repaired == active
            case Some(item) => ApplyRecord(log, item) == Success(log.(active := Some(repaired)))
  {
    var context, repaired := log.active.value.context, Repaired(log.active.value.context);
    hide Repaired;
    assert repaired == context + repaired[|context|..];
    if |repaired| == |context| {
      assert repaired == context;
    }
  }

  lemma LaunchFresh(a: Agent)
    requires AgentOk(a) && a.process.None? && a.log.active.Some? && !a.log.active.value.hasCheckpoint
    ensures AgentOk(Settle(a, Launching(a)))
  {
    var active := a.log.active.value;
    var objective := [UserItem(a.objective)];
    BalancedPlain(active.context, objective);
    SelfAtMost(active.usage);
    hide Traced, Bounded, Ids, SameIds, HasOutput, Balanced;
  }

  // ---- the top of the loop ----

  // A process between two checkpoints, while its history is being prepared.
  ghost predicate Preparing(a: Agent, p: Process) {
    && AgentOk(a) && a.log.active.Some?
    && p.turnId == a.log.active.value.turnId && p.sink.context == a.log.active.value.context
    && (p.sink.reason.None? ==> p.sink.context <= p.history)
    && Balanced(p.history) && StartsWithUser(p.history) && Ids(p.history) <= p.used
    && AtMost(a.log.active.value.usage, p.usage) && Bounded(p.usage)
  }

  lemma PlainUsers(messages: seq<string>)
    ensures Plain(UserItems(messages))
  {
  }

  lemma AddUsers(a: Agent, p: Process, items: seq<Item>)
    requires Preparing(a, p) && Plain(items)
    ensures Preparing(a, p.(history := p.history + items))
  {
    BalancedPlain(p.history, items);
  }

  lemma InstructedKeeps(a: Agent, p: Process, control: Control)
    requires Preparing(a, p)
    ensures Preparing(a, Instructed(p, control))
  {
    hide Preparing;
    var finish := if control.finish.Some? then [UserItem(FINISH_NOW + control.finish.value)] else [];
    PlainUsers(control.messages);
    AddUsers(a, p, finish);
    AddUsers(a, p.(history := p.history + finish), UserItems(control.messages));
    FinishingIsFree(a, p.(history := p.history + finish + UserItems(control.messages)), Instructed(p, control).finishing);
  }

  lemma FinishingIsFree(a: Agent, p: Process, finishing: bool)
    requires Preparing(a, p)
    ensures Preparing(a, p.(finishing := finishing))
  {
  }

  lemma CompactedKeeps(a: Agent, p: Process, summary: string, usage: Usage, budget: nat)
    requires Preparing(a, p)
    ensures Preparing(a, CompactedTo(p, summary, usage, budget))
  {
    CompactedBalanced(p.history, summary, Min(20000, budget / 3));
    AddGrows(p.usage, usage);
    hide Balanced, SaturatingAdd, Bounded;
    AtMostTransitive(a.log.active.value.usage, p.usage, SaturatingAdd(p.usage, usage));
  }

  lemma PromptedKeeps(a: Agent, p: Process)
    requires Preparing(a, p)
    ensures Preparing(a, Prompted(p))
  {
    hide Preparing;
    AddUsers(a, p, [UserItem(FINISH_PROMPT)]);
  }

  // A trim that changes the history leaves the sink a reason for it.
  lemma TrimmedKeeps(a: Agent, p: Process, budget: nat)
    requires Preparing(a, p)
    ensures Preparing(a, TrimmedTo(p, budget))
  {
    TrimBalanced(p.history, budget);
    TrimReports(p.history, budget);
  }

  lemma PreparedKeeps(a: Agent, p: Process, control: Control, summary: Option<(string, Usage)>, budget: nat)
    requires Preparing(a, p) && Prepared(p, control, summary, budget).Some?
    ensures Preparing(a, Prepared(p, control, summary, budget).value)
  {
    hide Preparing, Instructed, CompactedTo, Prompted, TrimmedTo, MustCompact;
    InstructedKeeps(a, p, control);
    var p1 := Instructed(p, control);
    var p2 := if MustCompact(p1.history, budget) then CompactedTo(p1, summary.value.0, summary.value.1, budget) else p1;
    if MustCompact(p1.history, budget) {
      CompactedKeeps(a, p1, summary.value.0, summary.value.1, budget);
    }
    PromptedKeeps(a, p2);
    TrimmedKeeps(a, Prompted(p2), budget);
  }

  lemma HeadPrepares(a: Agent, p: Process)
    requires AgentOk(a) && a.process == Some(p) && p.phase.Head?
    ensures Preparing(a, p)
    ensures AgentOk(a.(process := Some(p.(phase := Failing))))
    ensures forall reason, ids :: AgentOk(a.(process := Some(p.(phase := Interrupting(reason, ids)))))
  {
  }

  lemma FailingIsOk(a: Agent, p: Process)
    requires Preparing(a, p)
    ensures AgentOk(a.(process := Some(p.(phase := Failing))))
  {
  }

  lemma SamplingIsReady(a: Agent, p: Process)
    requires Preparing(a, p)
    ensures ReadyToEmit(a, p.(phase := Sampling), None)
  {
  }

  lemma HeadKeeps(a: Agent, p: Process, control: Control, summary: Option<(string, Usage)>, budget: nat)
    requires AgentOk(a) && a.process == Some(p) && p.phase.Head?
    ensures AgentOk(Settle(a, AtHead(p, control, summary, budget)))
  {
    hide AgentOk, Preparing, Prepared, ReadyToEmit, Offer;
    HeadPrepares(a, p);
    if control.interrupt.None? && Prepared(p, control, summary, budget).Some? {
      PreparedKeeps(a, p, control, summary, budget);
      var p' := Prepared(p, control, summary, budget).value;
      FailingIsOk(a, p');
      SamplingIsReady(a, p');
      EmitKeeps(a, p'.(phase := Sampling), None, control.ids);
    }
  }

  // ---- one sample ----

  lemma {:induction false} CallSeqConcat(a: seq<Item>, b: seq<Item>)
    ensures CallSeq(a + b) == CallSeq(a) + CallSeq(b)
  {
    if b == [] {
      assert a + b == a;
    } else {
      CallSeqConcat(a, b[..|b| - 1]);
      assert (a + b)[..|a + b| - 1] == a + b[..|b| - 1];
    }
  }

  // The calls among the provider's items, in order.
  lemma {:induction false} ItemCalls(xs: seq<ProviderItem>)
    requires Parsed(xs).Success?
    ensures CallSeq(ToItems(xs)) == Names(Parsed(xs).value) && AllWellFormed(ToItems(xs))
    ensures Replayed(xs) == set c | c in Names(Parsed(xs).value)
  {
    if xs != [] {
      var n := |xs| - 1;
      ItemCalls(xs[..n]);
      assert ToItems(xs)[..n] == ToItems(xs[..n]);
      ReplayedGrows(xs);
      assert forall i :: 0 <= i < n ==> ToItems(xs)[i] == ToItems(xs[..n])[i];
      if xs[n].kind == FUNCTION_CALL {
        var last := Call(xs[n].callId.value, xs[n].name.value, xs[n].arguments.value);
        assert Names(Parsed(xs).value) == Names(Parsed(xs[..n]).value) + [last.id];
      }
    }
  }

  lemma ReplayedGrows(xs: seq<ProviderItem>)
    requires xs != []
    ensures var n := |xs| - 1;
            Replayed(xs) == Replayed(xs[..n]) + (if xs[n].kind == FUNCTION_CALL && xs[n].callId.Some? then {xs[n].callId.value} else {})
  {
    var n := |xs| - 1;
    assert forall i :: 0 <= i < n ==> xs[..n][i] == xs[i];
    var more := if xs[n].kind == FUNCTION_CALL && xs[n].callId.Some? then {xs[n].callId.value} else {};
    forall x | x in Replayed(xs) ensures x in Replayed(xs[..n]) + more {
      var i :| 0 <= i < |xs| && xs[i].kind == FUNCTION_CALL && xs[i].callId.Some? && xs[i].callId.value == x;
      if i < n {
        assert xs[..n][i] == xs[i];
      }
    }
  }

  lemma DirectCall(calls: seq<Call>, c: Call, replayed: set<string>)
    requires c.id !in replayed
    ensures var item := FunctionCall(c.id, c.name, c.arguments);
            && CallItems(calls + [c], replayed) == CallItems(calls, replayed) + [item]
            && CallSeq(CallItems(calls + [c], replayed)) == CallSeq(CallItems(calls, replayed)) + [c.id]
  {
    var item := FunctionCall(c.id, c.name, c.arguments);
    assert (calls + [c])[..|calls|] == calls;
    CallSeqConcat(CallItems(calls, replayed), [item]);
    assert CallSeq([item]) == [c.id];
  }

  // Exactly the calls that did not come as items are added as calls of their own.
  lemma {:induction false} DirectCalls(parsed: seq<Call>, direct: seq<Call>, replayed: set<string>)
    requires forall i :: 0 <= i < |parsed| ==> parsed[i].id in replayed
    requires forall i :: 0 <= i < |direct| ==> direct[i].id !in replayed
    ensures CallSeq(CallItems(parsed + direct, replayed)) == Names(direct)
    ensures forall i :: 0 <= i < |CallItems(parsed + direct, replayed)| ==> CallItems(parsed + direct, replayed)[i].FunctionCall?
    decreases |parsed| + |direct|
  {
    if direct != [] {
      var n := |direct| - 1;
      DirectCalls(parsed, direct[..n], replayed);
      DirectCall(parsed + direct[..n], direct[n], replayed);
      assert parsed + direct == parsed + direct[..n] + [direct[n]];
      assert Names(direct) == Names(direct[..n]) + [direct[n].id];
    } else if parsed != [] {
      var n := |parsed| - 1;
      DirectCalls(parsed[..n], [], replayed);
      assert parsed + [] == parsed && (parsed[..n] + []) == parsed[..n];
    } else {
      assert parsed + direct == [];
    }
  }

  lemma DirectAreNotReplayed(parsed: seq<Call>, direct: seq<Call>, used: set<string>)
    requires Reservable(parsed + direct, used)
    ensures forall i :: 0 <= i < |direct| ==> direct[i].id !in set c | c in Names(parsed)
    ensures forall i :: 0 <= i < |parsed| ==> parsed[i].id in set c | c in Names(parsed)
  {
    forall i | 0 <= i < |parsed| ensures parsed[i].id in set c | c in Names(parsed) {
      assert Names(parsed)[i] == parsed[i].id;
    }
    forall i | 0 <= i < |direct| ensures direct[i].id !in set c | c in Names(parsed) {
      forall k | 0 <= k < |parsed| ensures Names(parsed)[k] != direct[i].id {
        assert (parsed + direct)[k].id != (parsed + direct)[|parsed| + i].id;
      }
    }
  }

  ghost predicate OnlyCalls(h: seq<Item>) {
    forall i :: 0 <= i < |h| ==> WellFormed(h[i]) && OutputId(h[i]).None?
  }

  lemma OnlyCallsConcat(a: seq<Item>, b: seq<Item>)
    requires OnlyCalls(a) && OnlyCalls(b)
    ensures OnlyCalls(a + b) && CallSeq(a + b) == CallSeq(a) + CallSeq(b)
  {
    CallSeqConcat(a, b);
  }

  lemma SampleParts(items: seq<Item>, message: seq<Item>, direct: seq<Item>)
    requires OnlyCalls(items) && OnlyCalls(message) && OnlyCalls(direct) && CallSeq(message) == []
    ensures OnlyCalls(items + message + direct) && CallSeq(items + message + direct) == CallSeq(items) + CallSeq(direct)
  {
    hide CallSeq, OnlyCalls;
    OnlyCallsConcat(items, message);
    OnlyCallsConcat(items + message, direct);
  }

  lemma ItemsAreCalls(xs: seq<ProviderItem>)
    requires AllWellFormed(ToItems(xs))
    ensures OnlyCalls(ToItems(xs))
  {
  }

  lemma FunctionCallsOnly(h: seq<Item>)
    requires forall i :: 0 <= i < |h| ==> h[i].FunctionCall?
    ensures OnlyCalls(h)
  {
  }

  lemma AssistantItem(sample: Sample)
    ensures var message := [Item.Message(Assistant, sample.message)]; OnlyCalls(message) && CallSeq(message) == []
    ensures OnlyCalls([]) && CallSeq([]) == []
  {
  }

  lemma SampleCalls(sample: Sample, used: set<string>)
    requires Parsed(sample.items).Success?
    requires Reservable(Parsed(sample.items).value + sample.direct, used)
    ensures var calls := Parsed(sample.items).value + sample.direct; var added := SampleItems(sample, calls);
            CallSeq(added) == Names(calls) && OnlyCalls(added)
  {
    hide CallSeq, CallItems, ToItems, OnlyCalls, Reservable, Parsed, Replayed, HasMessageItem, AllWellFormed;
    var parsed := Parsed(sample.items).value;
    var calls, replayed := parsed + sample.direct, Replayed(sample.items);
    ItemCalls(sample.items);
    ItemsAreCalls(sample.items);
    DirectAreNotReplayed(parsed, sample.direct, used);
    DirectCalls(parsed, sample.direct, replayed);
    FunctionCallsOnly(CallItems(calls, replayed));
    AssistantItem(sample);
    SampleParts(ToItems(sample.items),
                if sample.message != "" && !HasMessageItem(sample.items) then [Item.Message(Assistant, sample.message)] else [],
                CallItems(calls, replayed));
    assert Names(calls) == Names(parsed) + Names(sample.direct);
  }

  lemma UniqueFromCallSeq(h: seq<Item>)
    requires AllWellFormed(h) && NoRepeats(CallSeq(h))
    ensures CallsUnique(h)
  {
    forall i, j | 0 <= i < j < |h| && CallId(h[i]).Some? ensures CallId(h[i]) != CallId(h[j]) {
      if CallId(h[j]).Some? {
        CallSeqAt(h, i);
        CallSeqAt(h, j);
        CallSeqAt(h[..j], i);
        assert h[..j][..i] == h[..i];
      }
    }
  }

  lemma {:induction false} IdsAreCalls(h: seq<Item>)
    requires AllWellFormed(h) && forall i :: 0 <= i < |h| ==> OutputId(h[i]).None?
    ensures Ids(h) == set c | c in CallSeq(h)
  {
    if h != [] {
      IdsAreCalls(h[..|h| - 1]);
    }
  }

  lemma CallIdsAreNames(calls: seq<Call>)
    ensures CallIds(calls) == set c | c in Names(calls)
  {
    forall x | x in CallIds(calls) ensures x in Names(calls) {
      var c :| c in calls && c.id == x;
      var i :| 0 <= i < |calls| && calls[i] == c;
      assert Names(calls)[i] == x;
    }
    forall x | x in Names(calls) ensures x in CallIds(calls) {
      var i :| 0 <= i < |calls| && Names(calls)[i] == x;
      assert calls[i] in calls;
    }
  }

  lemma NewCallsDisjoint(calls: seq<Call>, used: set<string>)
    requires Reservable(calls, used)
    ensures CallIds(calls) !! used && NoRepeats(Names(calls))
  {
  }

  // The history a sample leaves: the old one, still balanced, and its own open calls.
  lemma SampleTraced(h: seq<Item>, sample: Sample, used: set<string>)
    requires Balanced(h) && Ids(h) <= used && Parsed(sample.items).Success?
    requires Reservable(Parsed(sample.items).value + sample.direct, used)
    ensures var calls := Parsed(sample.items).value + sample.direct; var h' := h + SampleItems(sample, calls);
            && Traced(h') && Ids(h') == Ids(h) + CallIds(calls)
            && SameIds(Names(calls), h')
            && (calls == [] ==> Balanced(h'))
  {
    var calls := Parsed(sample.items).value + sample.direct;
    var added := SampleItems(sample, calls);
    SampleCalls(sample, used);
    NewCallsDisjoint(calls, used);
    hide SampleItems, Parsed, Reservable;
    UniqueFromCallSeq(added);
    IdsAreCalls(added);
    CallIdsAreNames(calls);
    TracedConcat(h, added);
    IdsConcat(h, added);
    NewCallsOpen(h, added, Names(calls));
    if calls == [] {
      NoNewCalls(h, added);
    }
  }

  lemma NewCallsOpen(h: seq<Item>, added: seq<Item>, names: seq<string>)
    requires Balanced(h) && NoRepeats(names) && Ids(added) == set c | c in names
    requires Ids(h) !! Ids(added) && Ids(h + added) == Ids(h) + Ids(added)
    requires forall i :: 0 <= i < |added| ==> OutputId(added[i]).None?
    ensures SameIds(names, h + added)
  {
    hide Traced;
    forall k | 0 <= k < |names| ensures Unanswered(h + added, names[k]) && names[k] in Ids(h + added) {
      assert names[k] in Ids(added);
      forall j | 0 <= j < |h + added| ensures OutputId((h + added)[j]) != Some(names[k]) {
        if j < |h| {
          IdsCover(h, j);
        }
      }
    }
    forall i | 0 <= i < |h + added| && CallId((h + added)[i]).Some?
      ensures CallId((h + added)[i]).value in names || HasOutput(h + added, i)
    {
      if i < |h| {
        HasOutputLonger(h, added, i);
      } else {
        IdsCover(added, i - |h|);
      }
    }
  }

  lemma NoNewCalls(h: seq<Item>, added: seq<Item>)
    requires Balanced(h) && Traced(h + added) && SameIds([], h + added)
    ensures Balanced(h + added)
  {
  }

  lemma SampledKeeps(a: Agent, p: Process, sample: Sample)
    requires AgentOk(a) && a.process == Some(p) && p.phase.Sampling?
    ensures AgentOk(Settle(a, Sampled(p, sample)))
  {
    hide Traced, Balanced, SampleItems, Parsed, Reservable, SaturatingAdd, StepUsage, Bounded, AtMost, Ids, HasOutput, Offer;
    FailedSample(a, p);
    var parsed := Parsed(sample.items);
    if parsed.Success? {
      var calls := parsed.value + sample.direct;
      if !(sample.message == "" && calls == []) && Reservable(calls, p.used) {
        SampleTraced(p.history, sample, p.used);
        AddGrows(p.usage, StepUsage(sample));
        AtMostTransitive(a.log.active.value.usage, p.usage, SaturatingAdd(p.usage, StepUsage(sample)));
        var p' := WithAnswer(p, sample, calls);
        EmitKeeps(a, p', if calls == [] then Some(sample.message) else None, []);
      }
    }
  }

  lemma FailedSample(a: Agent, p: Process)
    requires AgentOk(a) && a.process == Some(p) && p.phase.Sampling?
    ensures AgentOk(a.(process := Some(p.(phase := Failing))))
  {
  }

  // ---- tool outcomes ----

  lemma OutputAnswers(h: seq<Item>, open: seq<string>, k: nat, output: string)
    requires Traced(h) && SameIds(open, h) && k < |open|
    ensures var h' := h + [FunctionCallOutput(open[k], output)]; var rest := open[..k] + open[k + 1..];
            && Traced(h') && Ids(h') == Ids(h) && SameIds(rest, h')
  {
    var item := FunctionCallOutput(open[k], output);
    var h', rest := h + [item], open[..k] + open[k + 1..];
    OutputTraced(h, open[k], output);
    IdsConcat(h, [item]);
    assert [item][..0] == [];
    assert Ids([item]) == {open[k]};
    forall l | 0 <= l < |rest| ensures Unanswered(h', rest[l]) && rest[l] in Ids(h') {
      assert rest[l] == open[if l < k then l else l + 1];
    }
    forall i | 0 <= i < |h'| && CallId(h'[i]).Some? ensures CallId(h'[i]).value in rest || HasOutput(h', i) {
      if CallId(h[i]).value == open[k] {
        assert OutputId(h'[|h|]) == CallId(h'[i]);
      } else if CallId(h[i]).value in open {
        var l :| 0 <= l < |open| && open[l] == CallId(h[i]).value;
        assert rest[if l < k then l else l - 1] == open[l];
      } else {
        HasOutputLonger(h, [item], i);
      }
    }
  }

  lemma FinishedKeeps(a: Agent, p: Process, k: nat, output: string)
    requires AgentOk(a) && a.process == Some(p) && p.phase.Tools? && k < |p.phase.open|
    ensures AgentOk(Settle(a, Offer(WithOutput(p, k, output), None, [])))
  {
    hide Traced, Balanced, Bounded, AtMost, Ids, HasOutput, Offer, SameIds;
    var open := p.phase.open[..k] + p.phase.open[k + 1..];
    var h' := p.history + [FunctionCallOutput(p.phase.open[k], output)];
    OutputAnswers(p.history, p.phase.open, k, output);
    if open == [] {
      AllAnswered(h');
    }
    EmitKeeps(a, WithOutput(p, k, output), None, []);
  }

  lemma AllAnswered(h: seq<Item>)
    requires Traced(h) && SameIds([], h)
    ensures Balanced(h)
  {
  }

  // ---- every step, every run ----

  lemma EndedKeeps(a: Agent, move: Move)
    requires AgentOk(a) && a.log.active.Some?
    requires move.Ask? && move.process.None? && move.item.TurnUpdated? && move.item.turn.id == a.log.active.value.turnId
    requires var status := move.item.turn.status;
             status.Terminal() && (status.Completed? || status.Interrupted? ==> Balanced(a.log.active.value.context))
    ensures var a' := Settle(a, move); var status := move.item.turn.status;
            && AgentOk(a') && a'.process.None? && a'.log.active.None?
            && a'.log.committed == (if status.Completed? || status.Interrupted? then a.log.active.value.context else a.log.committed)
  {
    hide Balanced;
  }

  lemma NewTurnKeeps(a: Agent, turnId: TurnId, objective: string)
    requires AgentOk(a)
    ensures AgentOk(Next(a, NewTurn(turnId, objective)))
  {
    NoUsageBounded();
  }

  lemma NoUsageBounded()
    ensures Bounded(NO_USAGE)
  {
  }

  // Only a Turn whose context is balanced can commit it.
  lemma CommittingIsBalanced(a: Agent)
    requires AgentOk(a) && a.process.Some?
    requires a.process.value.phase.Final? || a.process.value.phase.Interrupting?
    ensures Balanced(a.log.active.value.context)
  {
  }

  lemma RefusedKeeps(a: Agent, step: Step)
    requires AgentOk(a)
    ensures AgentOk(a.(process := AfterRefusal(a.process, step)))
  {
  }

  lemma ProceedKeeps(a: Agent, step: Step)
    requires AgentOk(a) && a.process.Some?
    ensures AgentOk(Settle(a, Proceed(a.process.value, step)))
  {
    hide AgentOk, AtHead, Sampled, Offer, WithOutput, Balanced, ApplyRecord, AtMost, Bounded, PhaseOk, Ids,
         AfterRefusal;
    var p := a.process.value;
    ProcessIn(a);
    hide AgentOk, AtHead, Sampled, Offer;
    match step
    case Loop(control, summary, budget) => if p.phase.Head? { HeadKeeps(a, p, control, summary, budget); }
    case Answer(sample) => if p.phase.Sampling? { SampledKeeps(a, p, sample); }
    case ToolDone(k, output) => if p.phase.Tools? && k < |p.phase.open| { FinishedKeeps(a, p, k, output); }
    case Complete | Interrupt =>
      if Proceed(p, step).Ask? {
        CommittingIsBalanced(a);
        EndedKeeps(a, Proceed(p, step));
      }
    case Abandon(_) => EndedKeeps(a, Proceed(p, step));
    case _ =>
  }

  /** Every step of the agent, also a refusal by the store and a crash with the
      resumption after it, keeps the invariant. */
  lemma NextKeeps(a: Agent, step: Step)
    requires AgentOk(a)
    ensures AgentOk(Next(a, step))
  {
    hide AgentOk, Proceed, Launching;
    match step
    case NewTurn(turnId, objective) => NewTurnKeeps(a, turnId, objective);
    case Start => LaunchKeeps(a);
    case Cancel => if a.log.active.Some? { EndedKeeps(a, Decide(a, step)); }
    case Refused(asked) => RefusedKeeps(a, asked);
    case Crash => CrashKeeps(a);
    case _ => if a.process.Some? { ProceedKeeps(a, step); }
  }

  lemma CrashKeeps(a: Agent)
    requires AgentOk(a)
    ensures AgentOk(a.(process := None))
  {
  }

  lemma IdleOk()
    ensures AgentOk(IDLE)
  {
  }

  lemma {:induction false} RunKeeps(steps: seq<Step>)
    ensures AgentOk(Run(IDLE, steps))
  {
    hide AgentOk, Next;
    if steps == [] {
      IdleOk();
    } else {
      RunKeeps(steps[..|steps| - 1]);
      NextKeeps(Run(IDLE, steps[..|steps| - 1]), steps[|steps| - 1]);
    }
  }

  // ---- what a run can rely on ----

  lemma ProcessIn(a: Agent)
    requires AgentOk(a) && a.process.Some?
    ensures a.log.active.Some? && ProcessOk(a.log, a.process.value)
  {
  }

  /** At every checkpoint of every run, however often processes died in between, the
      context the log rebuilds is the sink's, and while the loop waits for a sample, for
      tools or for the end it is the history in memory. The sink never meets a
      replacement it cannot explain. */
  lemma LogIsMemory(steps: seq<Step>)
    requires Run(IDLE, steps).process.Some?
    ensures var a := Run(IDLE, steps); var p := a.process.value;
            && a.log.active.Some? && a.log.active.value.turnId == p.turnId
            && p.sink.context == a.log.active.value.context
            && (p.phase.Sampling? || p.phase.Tools? || p.phase.Final? ==> p.history == a.log.active.value.context)
            && !p.phase.SinkRefused?
  {
    hide AgentOk, Run, Balanced, Traced, SameIds, AtMost, Bounded;
    RunKeeps(steps);
    ProcessIn(Run(IDLE, steps));
  }

  /** The histories a model sees start with the user and are balanced, and while tools
      run exactly the outstanding calls have no output yet. */
  lemma CallsStayBalanced(steps: seq<Step>)
    requires Run(IDLE, steps).process.Some?
    ensures var p := Run(IDLE, steps).process.value;
            && (p.phase.Head? || p.phase.Sampling? ==> Balanced(p.history) && StartsWithUser(p.history))
            && (p.phase.Final? ==> Balanced(p.history))
            && (p.phase.Tools? ==> p.phase.open != [] && Traced(p.history) && SameIds(p.phase.open, p.history))
  {
    hide AgentOk, Run, Balanced, Traced, SameIds, AtMost, Bounded;
    RunKeeps(steps);
    ProcessIn(Run(IDLE, steps));
  }

  lemma CommittedIn(a: Agent)
    requires AgentOk(a)
    ensures Balanced(a.log.committed) && (a.log.committed != [] ==> StartsWithUser(a.log.committed))
  {
  }

  // So is every context a later Turn starts from.
  lemma CommittedIsBalanced(steps: seq<Step>)
    ensures var committed := Run(IDLE, steps).log.committed;
            Balanced(committed) && (committed != [] ==> StartsWithUser(committed))
  {
    hide AgentOk, Run, Balanced;
    RunKeeps(steps);
    CommittedIn(Run(IDLE, steps));
  }

  // ---- the window ----

  /** Whenever the loop goes on to sample, the instructions, the tools, the whole input
      with any recovery messages of its retries, and the reserve for the answer fit the
      model's window. */
  lemma SamplesFitWindow(p: Process, control: Control, summary: Option<(string, Usage)>, window: nat,
                         instructions: string, tools: seq<Tool>, outputLimit: bool, emptyResponse: bool)
    requires HistoryBudget(window, instructions, tools).Success?
    requires AtHead(p, control, summary, HistoryBudget(window, instructions, tools).value).Ask?
    ensures var move := AtHead(p, control, summary, HistoryBudget(window, instructions, tools).value);
            && move.process.Some? && move.process.value.phase.Sampling?
            && FitsWindow(window, instructions, tools, move.process.value.history + Recoveries(outputLimit, emptyResponse))
  {
    hide Encode, Prepared, StaticTokens, Recoveries, OutputReserve, SafetyReserve, FitsWindow;
    var prepared := Prepared(p, control, summary, HistoryBudget(window, instructions, tools).value);
    SampleFits(window, instructions, tools, prepared.value.history, outputLimit, emptyResponse);
  }

  // ---- usage along the log ----

  ghost predicate UsageGrows(log: State, log': State) {
    log.active.Some? && log'.active.Some? && log'.active.value.turnId == log.active.value.turnId ==>
      AtMost(log.active.value.usage, log'.active.value.usage)
  }

  lemma SameUsage(log: State)
    ensures UsageGrows(log, log)
  {
  }

  lemma EmitGrows(a: Agent, p: Process, message: Option<string>, ids: seq<InputId>)
    requires a.log.active.Some? && AtMost(a.log.active.value.usage, p.usage)
    ensures UsageGrows(a.log, Settle(a, Offer(p, message, ids)).log)
  {
    SameUsage(a.log);
    hide AtMost, Encode;
  }

  lemma PreparedGrows(p: Process, control: Control, summary: Option<(string, Usage)>, budget: nat)
    requires Bounded(p.usage) && Prepared(p, control, summary, budget).Some?
    ensures AtMost(p.usage, Prepared(p, control, summary, budget).value.usage)
  {
    hide Compacted, Trim, AtMost, Bounded, SaturatingAdd, MustCompact;
    SelfAtMost(p.usage);
    if summary.Some? {
      AddGrows(p.usage, summary.value.1);
    }
  }

  lemma ProceedGrows(a: Agent, step: Step)
    requires AgentOk(a) && a.process.Some?
    ensures UsageGrows(a.log, Settle(a, Proceed(a.process.value, step)).log)
  {
    hide AgentOk, PhaseOk, AtMost, Bounded, Prepared, Parsed, StepUsage, Offer, Names;
    ProcessIn(a);
    SameUsage(a.log);
    var p := a.process.value;
    hide AgentOk, PhaseOk, AtMost, Bounded, Prepared, Parsed, Reservable, SampleItems, SaturatingAdd, StepUsage, Offer;
    match step
    case Loop(control, summary, budget) =>
      if p.phase.Head? && Prepared(p, control, summary, budget).Some? {
        var prepared := Prepared(p, control, summary, budget).value;
        PreparedGrows(p, control, summary, budget);
        AtMostTransitive(a.log.active.value.usage, p.usage, prepared.usage);
        EmitGrows(a, prepared.(phase := Sampling), None, control.ids);
      }
    case Answer(sample) =>
      if p.phase.Sampling? && Parsed(sample.items).Success? {
        var calls := Parsed(sample.items).value + sample.direct;
        AddGrows(p.usage, StepUsage(sample));
        AtMostTransitive(a.log.active.value.usage, p.usage, WithAnswer(p, sample, calls).usage);
        EmitGrows(a, WithAnswer(p, sample, calls), if calls == [] then Some(sample.message) else None, []);
      }
    case ToolDone(k, output) =>
      if p.phase.Tools? && k < |p.phase.open| { EmitGrows(a, WithOutput(p, k, output), None, []); }
    case _ =>
  }

  lemma LaunchGrows(a: Agent)
    ensures UsageGrows(a.log, Settle(a, Launching(a)).log)
  {
    SameUsage(a.log);
    hide Repaired, AtMost, Ids;
  }

  lemma StepGrows(a: Agent, step: Step)
    requires AgentOk(a)
    ensures UsageGrows(a.log, Next(a, step).log)
  {
    hide AgentOk, Proceed, AtMost, Launched, Repair, AfterRefusal, Mutate;
    SameUsage(a.log);
    LaunchGrows(a);
    if a.process.Some? {
      ProceedGrows(a, step);
    }
    hide AgentOk, Proceed, Launching, AtMost;
  }

  /** No checkpoint of a Turn ever reports less usage than the one before it, also
      across crashes: module RuntimeSafety concludes that a Session's charges are exact. */
  lemma UsageNeverDrops(steps: seq<Step>, step: Step)
    ensures UsageGrows(Run(IDLE, steps).log, Run(IDLE, steps + [step]).log)
  {
    hide AgentOk, Next, UsageGrows;
    assert (steps + [step])[..|steps|] == steps;
    RunKeeps(steps);
    StepGrows(Run(IDLE, steps), step);
  }
}
