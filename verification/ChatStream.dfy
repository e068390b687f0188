// Assembling a streamed chat completion, chunk by chunk.
module ChatStream {
  import opened Wrappers
  import Text

  datatype Usage = Usage(input: nat, output: nat, cached: nat)
  const NO_USAGE := Usage(0, 0, 0)

  // ---- chunks ----

  datatype CallDelta = CallDelta(index: Option<nat>, id: Option<string>, name: Option<string>, arguments: Option<string>)

  datatype Choice = Choice(content: Option<string>, reasoning: Option<string>, calls: seq<CallDelta>, finish: Option<string>)

  datatype Chunk = ProviderError | Chunk(usage: Option<Usage>, choices: seq<Choice>)

  datatype Item =
    | Reasoning(text: string)
    | Message(text: string)
    | FunctionCall(id: string, name: string, arguments: string)

  datatype Partial = Partial(id: string, name: string, arguments: string)
  const NEW_CALL := Partial("", "", "")

  datatype State = State(text: string, reasoning: string, calls: map<nat, Partial>, usage: Usage, terminal: bool)
  const EMPTY := State("", "", map[], NO_USAGE, false)

  function OrEmpty(s: Option<string>): string {
    if s.Some? then s.value else ""
  }

  // ---- one chunk ----

  // A call without an index is meant by its position in the chunk.
  function IndexOf(calls: seq<CallDelta>, i: nat): nat
    requires i < |calls|
  {
    if calls[i].index.Some? then calls[i].index.value else i
  }

  function Merge(p: Partial, d: CallDelta): Partial {
    Partial(if OrEmpty(d.id) != "" then d.id.value else p.id, p.name + OrEmpty(d.name), p.arguments + OrEmpty(d.arguments))
  }

  function PartialAt(calls: map<nat, Partial>, k: nat): Partial {
    if k in calls then calls[k] else NEW_CALL
  }

  function MergeAll(calls: map<nat, Partial>, deltas: seq<CallDelta>, n: nat): map<nat, Partial>
    requires n <= |deltas|
  {
    if n == 0 then calls else
      var earlier := MergeAll(calls, deltas, n - 1);
      var k := IndexOf(deltas, n - 1);
      earlier[k := Merge(PartialAt(earlier, k), deltas[n - 1])]
  }

  predicate GoodFinish(reason: Option<string>) {
    reason.None? || reason.value == "stop" || reason.value == "tool_calls"
  }

  // The state after a chunk, and the text it streams on; errors end the stream.
  function AfterChunk(s: State, chunk: Chunk): Result<(State, Option<string>)> {
    if chunk.ProviderError? then Failure("provider error") else
    var s1 := if chunk.usage.Some? then s.(usage := chunk.usage.value) else s;
    if |chunk.choices| > 1 then Failure("more than one choice") else
    if chunk.choices == [] then Success((s1, None)) else
    var choice := chunk.choices[0];
    if !GoodFinish(choice.finish) then Failure("provider stopped early") else
    var content := OrEmpty(choice.content);
    Success((s1.(text := s1.text + content, reasoning := s1.reasoning + OrEmpty(choice.reasoning),
                 calls := MergeAll(s1.calls, choice.calls, |choice.calls|),
                 terminal := s1.terminal || choice.finish.Some?),
             if content == "" then None else Some(content)))
  }

  // ---- the end of the stream ----

  predicate Complete(p: Partial) {
    Text.Trim(p.id) != "" && Text.Trim(p.name) != ""
  }

  predicate Sorted(keys: seq<nat>) {
    forall i, j :: 0 <= i < j < |keys| ==> keys[i] < keys[j]
  }

  function CallItems(calls: map<nat, Partial>, keys: seq<nat>): seq<Item>
    requires forall i :: 0 <= i < |keys| ==> keys[i] in calls
  {
    if keys == [] then [] else
      var p := calls[keys[|keys| - 1]];
      CallItems(calls, keys[..|keys| - 1]) + [FunctionCall(p.id, p.name, p.arguments)]
  }

  // What finishing yields: reasoning, message, then the calls by ascending index.
  ghost predicate Finished(s: State, items: seq<Item>) {
    exists keys ::
      && Sorted(keys) && (forall k :: k in keys <==> k in s.calls)
      && items == (if s.reasoning != "" then [Reasoning(s.reasoning)] else [])
                  + (if s.text != "" then [Message(s.text)] else []) + CallItems(s.calls, keys)
  }

  predicate Finishable(s: State) {
    s.terminal && forall k :: k in s.calls ==> Complete(s.calls[k])
  }

  class ChatStreamState {
    var text: string
    var reasoning: string
    var toolCalls: map<nat, Partial>
    var usage: Usage
    var terminalFinish: bool

    ghost function Value(): State
      reads this
    {
      State.State(text, reasoning, toolCalls, usage, terminalFinish)
    }

    constructor ()
      ensures Value() == EMPTY
    {
      text, reasoning, toolCalls, usage, terminalFinish := "", "", map[], NO_USAGE, false;
    }

    method MergeFragment(partial: Partial, call: CallDelta) returns (merged: Partial)
      ensures merged == Merge(partial, call)
    {
      AddNothing(partial.name);
      AddNothing(partial.arguments);
      merged := partial;
      if call.id.Some? && call.id.value != "" {
        merged := merged.(id := call.id.value);
      }
      if call.name.Some? {
        merged := merged.(name := merged.name + call.name.value);
      }
      if call.arguments.Some? {
        merged := merged.(arguments := merged.arguments + call.arguments.value);
      }
    }

    method ConsumeCalls(calls: seq<CallDelta>)
      modifies this`toolCalls
      ensures toolCalls == MergeAll(old(toolCalls), calls, |calls|)
    {
      hide Merge;
      for i := 0 to |calls|
        invariant toolCalls == MergeAll(old(toolCalls), calls, i)
      {
        var call := calls[i];
        var index := if call.index.Some? then call.index.value else i;
        var partial := if index in toolCalls then toolCalls[index] else NEW_CALL;
        partial := MergeFragment(partial, call);
        toolCalls := toolCalls[index := partial];
      }
    }

    method Consume(chunk: Chunk) returns (r: Result<Option<string>>)
      modifies this
      ensures r.Success? == AfterChunk(old(Value()), chunk).Success?
      ensures r.Success? ==> (Value(), r.value) == AfterChunk(old(Value()), chunk).value
    {
      if chunk.ProviderError? {
        return Failure("provider error");
      }
      if chunk.usage.Some? {
        usage := chunk.usage.value;
      }
      if |chunk.choices| > 1 {
        return Failure("more than one choice");
      }
      var delta: Option<string> := None;
      AddNothing(text);
      AddNothing(reasoning);
      if |chunk.choices| == 1 {
        var choice := chunk.choices[0];
        if choice.content.Some? && choice.content.value != "" {
          text := text + choice.content.value;
          delta := Some(choice.content.value);
        }
        if choice.reasoning.Some? {
          reasoning := reasoning + choice.reasoning.value;
        }
        ConsumeCalls(choice.calls);
        if choice.finish.Some? {
          if choice.finish.value != "stop" && choice.finish.value != "tool_calls" {
            return Failure("provider stopped early");
          }
          terminalFinish := true;
        }
      }
      return Success(delta);
    }

    method Finish() returns (r: Result<seq<Item>>)
      ensures r.Success? <==> Finishable(Value())
      ensures r.Success? ==> Finished(Value(), r.value)
    {
      if !terminalFinish {
        return Failure("stream ended without a terminal finish_reason");
      }
      var items: seq<Item> := [];
      if reasoning != "" {
        items := [Reasoning(reasoning)];
      }
      if text != "" {
        items := items + [Message(text)];
      }
      var keys := SortedKeys(toolCalls.Keys);
      var calls :- FinishCalls(toolCalls, keys);
      FinishedBy(Value(), items + calls, keys);
      return Success(items + calls);
    }
  }

  method FinishCalls(calls: map<nat, Partial>, keys: seq<nat>) returns (r: Result<seq<Item>>)
    requires forall k :: k in keys <==> k in calls
    ensures r.Success? <==> forall k :: k in calls ==> Complete(calls[k])
    ensures r.Success? ==> r.value == CallItems(calls, keys)
  {
    hide Complete, CallItems;
    NoCalls(calls);
    var items: seq<Item> := [];
    for i := 0 to |keys|
      invariant items == CallItems(calls, keys[..i])
      invariant forall j :: 0 <= j < i ==> Complete(calls[keys[j]])
    {
      var call := calls[keys[i]];
      if !Complete(call) {
        return Failure("streamed function call omitted its id or name");
      }
      OneMoreCall(calls, keys, i);
      items := items + [FunctionCall(call.id, call.name, call.arguments)];
    }
    assert keys[..|keys|] == keys;
    return Success(items);
  }

  lemma NoCalls(calls: map<nat, Partial>)
    ensures CallItems(calls, []) == []
  {
  }

  lemma OneMoreCall(calls: map<nat, Partial>, keys: seq<nat>, i: nat)
    requires i < |keys| && forall k :: k in keys ==> k in calls
    ensures var p := calls[keys[i]];
            CallItems(calls, keys[..i + 1]) == CallItems(calls, keys[..i]) + [FunctionCall(p.id, p.name, p.arguments)]
  {
    assert keys[..i + 1][..i] == keys[..i];
  }

  lemma FinishedBy(s: State, items: seq<Item>, keys: seq<nat>)
    requires Sorted(keys) && forall k :: k in keys <==> k in s.calls
    requires items == (if s.reasoning != "" then [Reasoning(s.reasoning)] else [])
                      + (if s.text != "" then [Message(s.text)] else []) + CallItems(s.calls, keys)
    ensures Finished(s, items)
  {
  }

  // An ordered map is read by ascending key.
  method SortedKeys(s: set<nat>) returns (keys: seq<nat>)
    ensures Sorted(keys) && forall k :: k in keys <==> k in s
  {
    keys := [];
    var rest := s;
    while rest != {}
      invariant rest <= s && Sorted(keys)
      invariant forall k :: k in keys <==> k in s && k !in rest
      invariant forall i, k :: 0 <= i < |keys| && k in rest ==> keys[i] < k
      decreases |rest|
    {
      var _ := LeastKey(rest);
      var k :| k in rest && forall j :: j in rest ==> k <= j;
      keys := keys + [k];
      rest := rest - {k};
    }
  }

  lemma AddNothing(s: string)
    ensures s + "" == s
  {
  }

  lemma {:induction false} LeastKey(s: set<nat>) returns (least: nat)
    requires s != {}
    ensures least in s && forall j :: j in s ==> least <= j
  {
    var first :| first in s;
    var smaller := set j | j in s && j < first;
    assert first !in smaller;
    least := first;
    if smaller != {} {
      assert smaller <= s - {first};
      least := LeastKey(smaller);
    }
    forall j | j in s ensures least <= j {
      assert j < first ==> j in smaller;
    }
  }

  // There is only one way to finish.
  lemma FinishIsUnique(s: State, items: seq<Item>, items': seq<Item>)
    requires Finished(s, items) && Finished(s, items')
    ensures items == items'
  {
    var head := (if s.reasoning != "" then [Reasoning(s.reasoning)] else []) + (if s.text != "" then [Message(s.text)] else []);
    var keys :| Sorted(keys) && (forall k :: k in keys <==> k in s.calls) && items == head + CallItems(s.calls, keys);
    var keys' :| Sorted(keys') && (forall k :: k in keys' <==> k in s.calls) && items' == head + CallItems(s.calls, keys');
    SortedIsUnique(keys, keys');
  }

  lemma {:induction false} SortedIsUnique(a: seq<nat>, b: seq<nat>)
    requires Sorted(a) && Sorted(b) && forall k :: k in a <==> k in b
    ensures a == b
  {
    SameEmptiness(a, b);
    if a != [] {
      var x, y := a[|a| - 1], b[|b| - 1];
      LastIsGreatest(a, b);
      LastIsGreatest(b, a);
      hide Sorted;
      var a', b' := a[..|a| - 1], b[..|b| - 1];
      SortedInit(a);
      SortedInit(b);
      forall k ensures k in a' <==> k in b' {
        InInit(a, k);
        InInit(b, k);
      }
      SortedIsUnique(a', b');
      assert a == a' + [x] && b == b' + [y];
    }
  }

  lemma LastIsGreatest(a: seq<nat>, b: seq<nat>)
    requires Sorted(a) && a != [] && b != [] && forall k :: k in a <==> k in b
    ensures b[|b| - 1] <= a[|a| - 1]
  {
    var y := b[|b| - 1];
    assert y in b;
    var j :| 0 <= j < |a| && a[j] == y;
  }

  lemma SortedInit(a: seq<nat>)
    requires Sorted(a) && a != []
    ensures Sorted(a[..|a| - 1])
  {
  }

  lemma SameEmptiness(a: seq<nat>, b: seq<nat>)
    requires forall k :: k in a <==> k in b
    ensures a == [] <==> b == []
  {
    if a != [] {
      assert a[0] in b;
    }
    if b != [] {
      assert b[0] in a;
    }
  }

  lemma InInit(a: seq<nat>, k: nat)
    requires Sorted(a) && a != []
    ensures k in a[..|a| - 1] <==> k in a && k != a[|a| - 1]
  {
    if k in a && k != a[|a| - 1] {
      var i :| 0 <= i < |a| && a[i] == k;
      assert a[..|a| - 1][i] == k;
    }
  }

  // ---- whole streams ----

  function ConsumeAll(chunks: seq<Chunk>): Result<State> {
    if chunks == [] then Success(EMPTY) else
      var s :- ConsumeAll(chunks[..|chunks| - 1]);
      var step :- AfterChunk(s, chunks[|chunks| - 1]);
      Success(step.0)
  }

  function ChoiceOf(chunk: Chunk): Choice {
    if chunk.ProviderError? || chunk.choices == [] then Choice(None, None, [], None) else chunk.choices[0]
  }

  function AllText(chunks: seq<Chunk>): string {
    if chunks == [] then "" else AllText(chunks[..|chunks| - 1]) + OrEmpty(ChoiceOf(chunks[|chunks| - 1]).content)
  }

  function AllReasoning(chunks: seq<Chunk>): string {
    if chunks == [] then "" else AllReasoning(chunks[..|chunks| - 1]) + OrEmpty(ChoiceOf(chunks[|chunks| - 1]).reasoning)
  }

  // The text streamed on while consuming.
  function Streamed(chunks: seq<Chunk>): string {
    if chunks == [] then "" else
      var s := ConsumeAll(chunks[..|chunks| - 1]);
      Streamed(chunks[..|chunks| - 1])
      + (if s.Success? && AfterChunk(s.value, chunks[|chunks| - 1]).Success?
         then OrEmpty(AfterChunk(s.value, chunks[|chunks| - 1]).value.1) else "")
  }

  // All fragments of one call, in the order they arrived: those with its index, and those
  // without one that stand in its place.
  function Fragments(deltas: seq<CallDelta>, n: nat, k: nat): seq<CallDelta>
    requires n <= |deltas|
  {
    if n == 0 then [] else
      var d := deltas[n - 1];
      Fragments(deltas, n - 1, k) + (if d.index == Some(k) || (d.index.None? && n - 1 == k) then [d] else [])
  }

  function AllFragments(chunks: seq<Chunk>, k: nat): seq<CallDelta> {
    if chunks == [] then [] else
      var calls := ChoiceOf(chunks[|chunks| - 1]).calls;
      AllFragments(chunks[..|chunks| - 1], k) + Fragments(calls, |calls|, k)
  }

  function Names(fragments: seq<CallDelta>): string {
    if fragments == [] then "" else Names(fragments[..|fragments| - 1]) + OrEmpty(fragments[|fragments| - 1].name)
  }

  function Arguments(fragments: seq<CallDelta>): string {
    if fragments == [] then "" else Arguments(fragments[..|fragments| - 1]) + OrEmpty(fragments[|fragments| - 1].arguments)
  }

  // The last id given that is not empty.
  function LastId(fragments: seq<CallDelta>): string {
    if fragments == [] then "" else
      var last := fragments[|fragments| - 1];
      if OrEmpty(last.id) != "" then last.id.value else LastId(fragments[..|fragments| - 1])
  }

  function Assembled(fragments: seq<CallDelta>): Partial {
    Partial(LastId(fragments), Names(fragments), Arguments(fragments))
  }

  lemma AssembledAppend(fragments: seq<CallDelta>, d: CallDelta)
    ensures Assembled(fragments + [d]) == Merge(Assembled(fragments), d)
  {
    assert (fragments + [d])[..|fragments|] == fragments;
  }

  lemma FragmentStep(deltas: seq<CallDelta>, n: nat, k: nat)
    requires 0 < n <= |deltas|
    ensures Fragments(deltas, n, k) == Fragments(deltas, n - 1, k) + (if IndexOf(deltas, n - 1) == k then [deltas[n - 1]] else [])
  {
  }

  lemma MergeStep(calls: map<nat, Partial>, deltas: seq<CallDelta>, n: nat, k: nat)
    requires 0 < n <= |deltas|
    ensures var before, after := MergeAll(calls, deltas, n - 1), MergeAll(calls, deltas, n);
            if IndexOf(deltas, n - 1) == k then k in after && PartialAt(after, k) == Merge(PartialAt(before, k), deltas[n - 1])
            else (k in after <==> k in before) && PartialAt(after, k) == PartialAt(before, k)
  {
    hide Merge, IndexOf;
  }

  lemma {:induction false} MergeIsAssembled(calls: map<nat, Partial>, deltas: seq<CallDelta>, n: nat, k: nat, earlier: seq<CallDelta>)
    requires n <= |deltas| && PartialAt(calls, k) == Assembled(earlier) && (k in calls <==> earlier != [])
    ensures var merged := MergeAll(calls, deltas, n); var all := earlier + Fragments(deltas, n, k);
            PartialAt(merged, k) == Assembled(all) && (k in merged <==> all != [])
  {
    hide Assembled, Merge, IndexOf, PartialAt;
    if n == 0 {
      assert earlier + [] == earlier;
    } else {
      hide MergeAll, Fragments;
      MergeIsAssembled(calls, deltas, n - 1, k, earlier);
      FragmentStep(deltas, n, k);
      MergeStep(calls, deltas, n, k);
      var before := earlier + Fragments(deltas, n - 1, k);
      if IndexOf(deltas, n - 1) == k {
        assert earlier + Fragments(deltas, n, k) == before + [deltas[n - 1]];
        AssembledAppend(before, deltas[n - 1]);
      } else {
        assert earlier + Fragments(deltas, n, k) == before;
      }
    }
  }

  /** What has been consumed is, piece by piece, the concatenation of all fragments: the
      text, the reasoning, and each call's name and arguments. */
  lemma {:induction false} StateIsConcatenation(chunks: seq<Chunk>, k: nat)
    requires ConsumeAll(chunks).Success?
    ensures var s := ConsumeAll(chunks).value;
            && s.text == AllText(chunks) && s.reasoning == AllReasoning(chunks) && Streamed(chunks) == s.text
            && (k in s.calls <==> AllFragments(chunks, k) != [])
            && PartialAt(s.calls, k) == Assembled(AllFragments(chunks, k))
  {
    hide IndexOf, Merge, GoodFinish;
    if chunks != [] {
      var n := |chunks| - 1;
      StateIsConcatenation(chunks[..n], k);
      var before := ConsumeAll(chunks[..n]).value;
      var calls := ChoiceOf(chunks[n]).calls;
      MergeIsAssembled(before.calls, calls, |calls|, k, AllFragments(chunks[..n], k));
    }
  }

  // ---- how streams end ----

  // One answer at most, and no reason to end it but that it is complete or calls tools.
  predicate Good(chunk: Chunk) {
    && chunk.Chunk? && |chunk.choices| <= 1
    && (chunk.choices != [] ==>
          var reason := chunk.choices[0].finish;
          reason == None || reason == Some("stop") || reason == Some("tool_calls"))
  }

  ghost predicate AllGood(chunks: seq<Chunk>) {
    forall i :: 0 <= i < |chunks| ==> Good(chunks[i])
  }

  // Some chunk says why the answer ends.
  ghost predicate Ends(chunks: seq<Chunk>) {
    exists i :: 0 <= i < |chunks| && ChoiceOf(chunks[i]).finish.Some?
  }

  // A stream is consumed if every chunk is good, and is over once one says so.
  lemma {:induction false} EndsWhenSaid(chunks: seq<Chunk>)
    ensures ConsumeAll(chunks).Success? <==> AllGood(chunks)
    ensures ConsumeAll(chunks).Success? ==> (ConsumeAll(chunks).value.terminal <==> Ends(chunks))
  {
    hide MergeAll, OrEmpty;
    if chunks != [] {
      var n := |chunks| - 1;
      EndsWhenSaid(chunks[..n]);
      assert forall i :: 0 <= i < n ==> chunks[..n][i] == chunks[i];
      assert Good(chunks[n]) || !AllGood(chunks);
      if AllGood(chunks[..n]) && Good(chunks[n]) {
        assert ChoiceOf(chunks[n]).finish.Some? ==> Ends(chunks);
      }
    }
  }

  // ---- usage ----

  function UsageIn(chunk: Chunk): Option<Usage> {
    if chunk.ProviderError? then None else chunk.usage
  }

  /** The usage of a stream is what its last chunk with a usage says; without one there is
      none. */
  lemma {:induction false} UsageIsLast(chunks: seq<Chunk>)
    requires ConsumeAll(chunks).Success?
    ensures (forall i :: 0 <= i < |chunks| ==> UsageIn(chunks[i]).None?) ==> ConsumeAll(chunks).value.usage == NO_USAGE
    ensures forall i :: 0 <= i < |chunks| && UsageIn(chunks[i]).Some? && (forall j :: i < j < |chunks| ==> UsageIn(chunks[j]).None?) ==>
              ConsumeAll(chunks).value.usage == UsageIn(chunks[i]).value
  {
    hide MergeAll, GoodFinish;
    if chunks != [] {
      var n := |chunks| - 1;
      UsageIsLast(chunks[..n]);
      assert forall i :: 0 <= i < n ==> chunks[..n][i] == chunks[i];
      forall i | 0 <= i < |chunks| && UsageIn(chunks[i]).Some? && (forall j :: i < j < |chunks| ==> UsageIn(chunks[j]).None?)
        ensures ConsumeAll(chunks).value.usage == UsageIn(chunks[i]).value
      {
        if i < n {
          assert UsageIn(chunks[n]).None?;
          assert UsageIn(chunks[..n][i]).Some? && forall j :: i < j < n ==> UsageIn(chunks[..n][j]).None?;
        }
      }
    }
  }

  // Two streams that say the same and end the same way, however they are cut into chunks.
  ghost predicate SameContent(a: seq<Chunk>, b: seq<Chunk>) {
    && AllText(a) == AllText(b) && AllReasoning(a) == AllReasoning(b)
    && (forall k :: Assembled(AllFragments(a, k)) == Assembled(AllFragments(b, k))
                    && (AllFragments(a, k) == [] <==> AllFragments(b, k) == []))
    && (AllGood(a) <==> AllGood(b)) && (Ends(a) <==> Ends(b))
  }

  // Reading the stream to its end and finishing it gives these items.
  ghost predicate Yields(chunks: seq<Chunk>, items: seq<Item>) {
    ConsumeAll(chunks).Success? && Finishable(ConsumeAll(chunks).value) && Finished(ConsumeAll(chunks).value, items)
  }

  // Neither finishing nor what it gives depends on usage.
  lemma FinishedElsewhere(s: State, t: State, items: seq<Item>)
    requires s == t.(usage := s.usage)
    ensures Finished(s, items) <==> Finished(t, items)
    ensures Finishable(s) <==> Finishable(t)
  {
  }

  lemma SameState(a: seq<Chunk>, b: seq<Chunk>)
    requires ConsumeAll(a).Success? && ConsumeAll(b).Success? && SameContent(a, b)
    ensures ConsumeAll(a).value == ConsumeAll(b).value.(usage := ConsumeAll(a).value.usage)
  {
    hide ConsumeAll, Assembled, AllText, AllReasoning, AllFragments, Streamed, AllGood, Ends;
    var s, t := ConsumeAll(a).value, ConsumeAll(b).value;
    forall k ensures (k in s.calls <==> k in t.calls) && PartialAt(s.calls, k) == PartialAt(t.calls, k) {
      StateIsConcatenation(a, k);
      StateIsConcatenation(b, k);
    }
    forall k | k in s.calls ensures s.calls[k] == t.calls[k] {
      assert PartialAt(s.calls, k) == PartialAt(t.calls, k);
    }
    assert s.calls == t.calls;
    StateIsConcatenation(a, 0);
    StateIsConcatenation(b, 0);
    EndsWhenSaid(a);
    EndsWhenSaid(b);
  }

  /** Of two streams with the same content one finishes if and only if the other does, and
      with the same items, wherever their fragments were cut. */
  lemma CuttingIsInvisible(a: seq<Chunk>, b: seq<Chunk>, items: seq<Item>, items': seq<Item>)
    requires SameContent(a, b)
    ensures Yields(a, items) <==> Yields(b, items)
    ensures Yields(a, items) && Yields(b, items') ==> items == items'
  {
    hide Finished, Finishable, ConsumeAll, Assembled, AllText, AllReasoning, AllFragments;
    EndsWhenSaid(a);
    EndsWhenSaid(b);
    if ConsumeAll(a).Success? {
      SameState(a, b);
      FinishedElsewhere(ConsumeAll(a).value, ConsumeAll(b).value, items);
      FinishedElsewhere(ConsumeAll(a).value, ConsumeAll(b).value, items');
      if Yields(a, items) && Yields(b, items') {
        FinishIsUnique(ConsumeAll(a).value, items, items');
      }
    }
  }

  // ---- the whole stream ----

  /** A chunk streams its text on, unless there is none. */
  lemma StreamsItsText(s: State, chunk: Chunk)
    requires AfterChunk(s, chunk).Success?
    ensures var content := ChoiceOf(chunk).content;
            AfterChunk(s, chunk).value.1 == if content.Some? && |content.value| > 0 then content else None
  {
    hide MergeAll;
  }

  /** A stream can be read and finished exactly if all its chunks are good, one of them says
      that the answer is over, and every call in it has got an id and a name that are not
      blank. */
  lemma FinishesWhen(chunks: seq<Chunk>)
    ensures ConsumeAll(chunks).Success? && Finishable(ConsumeAll(chunks).value) <==> AllGood(chunks) && Ends(chunks) && AllCallable(chunks)
  {
    hide ConsumeAll, AllGood, Ends;
    EndsWhenSaid(chunks);
    if ConsumeAll(chunks).Success? {
      CompleteMeans(chunks);
    }
  }

  lemma CompleteMeans(chunks: seq<Chunk>)
    requires ConsumeAll(chunks).Success?
    ensures var calls := ConsumeAll(chunks).value.calls; (forall k :: k in calls ==> Complete(calls[k])) <==> AllCallable(chunks)
  {
    hide ConsumeAll, Text.Trim, LastId, Names, Arguments, AllFragments, AllText, AllReasoning, Streamed;
    var calls := ConsumeAll(chunks).value.calls;
    forall k: nat
      ensures k in calls <==> AllFragments(chunks, k) != []
      ensures k in calls ==> (Complete(calls[k]) <==> Callable(AllFragments(chunks, k)))
    {
      StateIsConcatenation(chunks, k);
    }
    if AllCallable(chunks) {
      forall k | k in calls ensures Complete(calls[k]) {
        assert AllFragments(chunks, k) != [];
      }
    }
  }

  ghost predicate Callable(fragments: seq<CallDelta>) {
    Text.Trim(LastId(fragments)) != "" && Text.Trim(Names(fragments)) != ""
  }

  ghost predicate AllCallable(chunks: seq<Chunk>) {
    forall k: nat :: AllFragments(chunks, k) != [] ==> Callable(AllFragments(chunks, k))
  }

  // What stands before the calls.
  function Lead(chunks: seq<Chunk>): seq<Item> {
    (if AllReasoning(chunks) != "" then [Reasoning(AllReasoning(chunks))] else [])
    + (if AllText(chunks) != "" then [Message(AllText(chunks))] else [])
  }

  ghost predicate IsCallOf(item: Item, fragments: seq<CallDelta>) {
    item.FunctionCall? && item.id == LastId(fragments) && item.name == Names(fragments) && item.arguments == Arguments(fragments)
  }

  lemma {:induction false} CallItemsAre(calls: map<nat, Partial>, keys: seq<nat>)
    requires forall i :: 0 <= i < |keys| ==> keys[i] in calls
    ensures |CallItems(calls, keys)| == |keys|
    ensures forall i :: 0 <= i < |keys| ==>
              var p := calls[keys[i]]; CallItems(calls, keys)[i] == FunctionCall(p.id, p.name, p.arguments)
  {
    if keys != [] {
      CallItemsAre(calls, keys[..|keys| - 1]);
    }
  }

  // The calls there is a fragment of, by ascending index, each with all its pieces.
  ghost predicate CallsByIndex(chunks: seq<Chunk>, keys: seq<nat>, calls: seq<Item>) {
    && Sorted(keys) && (forall k: nat :: k in keys <==> AllFragments(chunks, k) != [])
    && |calls| == |keys| && forall i :: 0 <= i < |keys| ==> IsCallOf(calls[i], AllFragments(chunks, keys[i]))
  }

  lemma CallsAreByIndex(chunks: seq<Chunk>, keys: seq<nat>)
    requires ConsumeAll(chunks).Success? && Sorted(keys) && forall k :: k in keys <==> k in ConsumeAll(chunks).value.calls
    ensures CallsByIndex(chunks, keys, CallItems(ConsumeAll(chunks).value.calls, keys))
  {
    hide ConsumeAll, LastId, Names, Arguments, AllFragments, AllText, AllReasoning, Streamed, CallItems, Sorted;
    var calls := ConsumeAll(chunks).value.calls;
    CallItemsAre(calls, keys);
    forall k: nat ensures k in keys <==> AllFragments(chunks, k) != [] {
      StateIsConcatenation(chunks, k);
    }
    forall i | 0 <= i < |keys| ensures IsCallOf(CallItems(calls, keys)[i], AllFragments(chunks, keys[i])) {
      StateIsConcatenation(chunks, keys[i]);
      assert PartialAt(calls, keys[i]) == calls[keys[i]];
    }
  }

  /** What a finished stream gives: its reasoning, its text, and by ascending index every call
      there is a fragment of, with the last id and all pieces of its name and arguments. */
  lemma FinishGives(chunks: seq<Chunk>, items: seq<Item>) returns (keys: seq<nat>, calls: seq<Item>)
    requires Yields(chunks, items)
    ensures items == Lead(chunks) + calls && CallsByIndex(chunks, keys, calls)
  {
    hide ConsumeAll, Finishable, AllFragments, AllText, AllReasoning, Streamed, CallItems, Sorted, Assembled, CallsByIndex;
    var s := ConsumeAll(chunks).value;
    keys :| Sorted(keys) && (forall k :: k in keys <==> k in s.calls)
            && items == (if s.reasoning != "" then [Reasoning(s.reasoning)] else [])
                        + (if s.text != "" then [Message(s.text)] else []) + CallItems(s.calls, keys);
    StateIsConcatenation(chunks, 0);
    CallsAreByIndex(chunks, keys);
    calls := CallItems(s.calls, keys);
  }
}
