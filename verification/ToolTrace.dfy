// Function calls and their outputs in a model history: what a provider will accept, and
// how appending, trimming, compacting and repairing keep it.
module ToolTrace {
  import opened Wrappers
  import opened Protocol
  import opened History
  import Text

  // ---- calls and outputs of a history ----

  const FUNCTION_CALL := "function_call"

  predicate IsCallItem(item: Item) {
    item.ResponseItem? && item.kind == FUNCTION_CALL
  }

  function CallId(item: Item): Option<string> {
    match item
    case FunctionCall(callId, _, _) => Some(callId)
    case ResponseItem(kind, callId, _, _, _) => if kind == FUNCTION_CALL then callId else None
    case _ => None
  }

  function OutputId(item: Item): Option<string> {
    match item
    case FunctionCallOutput(outputId, _) => Some(outputId)
    case _ => None
  }

  // A provider item that is a call carries all fields of one.
  predicate WellFormed(item: Item) {
    IsCallItem(item) ==> item.itemCallId.Some? && item.itemName.Some? && item.itemArguments.Some?
  }

  ghost predicate CallsUnique(h: seq<Item>) {
    forall i, j :: 0 <= i < j < |h| && CallId(h[i]).Some? ==> CallId(h[i]) != CallId(h[j])
  }

  ghost predicate OutputsUnique(h: seq<Item>) {
    forall i, j :: 0 <= i < j < |h| && OutputId(h[i]).Some? ==> OutputId(h[i]) != OutputId(h[j])
  }

  // No output stands before its call.
  ghost predicate Ordered(h: seq<Item>) {
    forall i, j :: 0 <= i < j < |h| && OutputId(h[i]).Some? ==> OutputId(h[i]) != CallId(h[j])
  }

  ghost predicate AllWellFormed(h: seq<Item>) {
    forall i :: 0 <= i < |h| ==> WellFormed(h[i])
  }

  ghost predicate Traced(h: seq<Item>) {
    AllWellFormed(h) && CallsUnique(h) && OutputsUnique(h) && Ordered(h)
  }

  ghost predicate HasOutput(h: seq<Item>, i: int)
    requires 0 <= i < |h|
  {
    exists j :: i < j < |h| && OutputId(h[j]) == CallId(h[i])
  }

  /** Call ids are unique, and every call has exactly one output, which comes later.
      Outputs without a call may remain: trimming can take away their calls. */
  ghost predicate Balanced(h: seq<Item>) {
    Traced(h) && forall i :: 0 <= i < |h| && CallId(h[i]).Some? ==> HasOutput(h, i)
  }

  ghost predicate StartsWithUser(h: seq<Item>) {
    h != [] && IsUser(h[0])
  }

  function Ids(h: seq<Item>): set<string> {
    if h == [] then {} else
      Ids(h[..|h| - 1])
      + (if CallId(h[|h| - 1]).Some? then {CallId(h[|h| - 1]).value} else {})
      + (if OutputId(h[|h| - 1]).Some? then {OutputId(h[|h| - 1]).value} else {})
  }

  lemma {:induction false} IdsCover(h: seq<Item>, i: nat)
    requires i < |h|
    ensures CallId(h[i]).Some? ==> CallId(h[i]).value in Ids(h)
    ensures OutputId(h[i]).Some? ==> OutputId(h[i]).value in Ids(h)
  {
    if i < |h| - 1 {
      IdsCover(h[..|h| - 1], i);
    }
  }

  lemma {:induction false} IdsConcat(a: seq<Item>, b: seq<Item>)
    ensures Ids(a + b) == Ids(a) + Ids(b)
  {
    if b == [] {
      assert a + b == a;
    } else {
      IdsConcat(a, b[..|b| - 1]);
      assert (a + b)[..|a + b| - 1] == a + b[..|b| - 1];
    }
  }

  // ---- appending ----

  lemma TracedConcat(a: seq<Item>, b: seq<Item>)
    requires Traced(a) && Traced(b) && Ids(a) !! Ids(b)
    ensures Traced(a + b)
  {
    forall i | 0 <= i < |a| ensures CallId(a[i]).Some? ==> CallId(a[i]).value in Ids(a) {
      IdsCover(a, i);
    }
    forall i | 0 <= i < |a| ensures OutputId(a[i]).Some? ==> OutputId(a[i]).value in Ids(a) {
      IdsCover(a, i);
    }
    forall i | 0 <= i < |b| ensures CallId(b[i]).Some? ==> CallId(b[i]).value in Ids(b) {
      IdsCover(b, i);
    }
    forall i | 0 <= i < |b| ensures OutputId(b[i]).Some? ==> OutputId(b[i]).value in Ids(b) {
      IdsCover(b, i);
    }
  }

  lemma HasOutputLonger(a: seq<Item>, b: seq<Item>, i: nat)
    requires i < |a| && HasOutput(a, i)
    ensures HasOutput(a + b, i)
  {
    var j :| i < j < |a| && OutputId(a[j]) == CallId(a[i]);
    assert (a + b)[j] == a[j] && (a + b)[i] == a[i];
  }

  // Items that are neither calls nor outputs.
  ghost predicate Plain(h: seq<Item>) {
    forall i :: 0 <= i < |h| ==> CallId(h[i]).None? && OutputId(h[i]).None? && WellFormed(h[i])
  }

  lemma {:induction false} PlainHasNoIds(h: seq<Item>)
    requires Plain(h)
    ensures Ids(h) == {} && Balanced(h)
  {
    if h != [] {
      PlainHasNoIds(h[..|h| - 1]);
    }
  }

  lemma BalancedPlain(a: seq<Item>, b: seq<Item>)
    requires Balanced(a) && Plain(b)
    ensures Balanced(a + b) && Ids(a + b) == Ids(a)
  {
    PlainHasNoIds(b);
    TracedConcat(a, b);
    IdsConcat(a, b);
    forall i | |a| <= i < |a + b| ensures CallId((a + b)[i]).None? {
      assert (a + b)[i] == b[i - |a|];
    }
    forall i | 0 <= i < |a| && CallId((a + b)[i]).Some? ensures HasOutput(a + b, i) {
      HasOutputLonger(a, b, i);
    }
  }

  // ---- trimming and compacting ----

  lemma {:induction false} IdsOfTail(h: seq<Item>, t: nat)
    requires t <= |h|
    ensures Ids(h[t..]) <= Ids(h)
  {
    assert h == h[..t] + h[t..];
    IdsConcat(h[..t], h[t..]);
  }

  /** Cutting items between the first and a tail keeps the balance: a call that stays
      keeps its output, which stands behind it. */
  lemma TailBalanced(h: seq<Item>, t: nat)
    requires Balanced(h) && StartsWithUser(h) && 1 <= t <= |h|
    ensures Balanced([h[0]] + h[t..]) && StartsWithUser([h[0]] + h[t..])
    ensures Ids([h[0]] + h[t..]) <= Ids(h)
  {
    hide Ids, HasOutput, Traced;
    var kept := [h[0]] + h[t..];
    TailTraced(h, t);
    forall i | 0 <= i < |kept| && CallId(kept[i]).Some? ensures HasOutput(kept, i) {
      assert kept[i] == h[t + i - 1];
      TailAnswers(h, t, i);
    }
    IdsOfTail(h, t);
    IdsConcat([h[0]], h[t..]);
    PlainHasNoIds([h[0]]);
  }

  lemma TailTraced(h: seq<Item>, t: nat)
    requires Traced(h) && StartsWithUser(h) && 1 <= t <= |h|
    ensures Traced([h[0]] + h[t..])
  {
    var kept := [h[0]] + h[t..];
    forall i | 1 <= i < |kept| ensures kept[i] == h[t + i - 1] {
    }
  }

  lemma TailAnswers(h: seq<Item>, t: nat, i: nat)
    requires 1 <= t && 1 <= i && t + i - 1 < |h| && HasOutput(h, t + i - 1)
    ensures HasOutput([h[0]] + h[t..], i)
  {
    var kept := [h[0]] + h[t..];
    assert kept[i] == h[t + i - 1];
    var j :| t + i - 1 < j < |h| && OutputId(h[j]) == CallId(h[t + i - 1]);
    assert kept[j - t + 1] == h[j];
  }

  lemma TrimBalanced(h: seq<Item>, limit: nat)
    requires Balanced(h) && StartsWithUser(h)
    ensures var kept := Trim(h, limit).0;
            Balanced(kept) && StartsWithUser(kept) && Ids(kept) <= Ids(h)
  {
    if Total(h) > limit && |h| > 2 {
      var s, t := TrimKeepsLongestTail(h, limit);
      TailBalanced(h, t);
    }
  }

  lemma CompactedBalanced(h: seq<Item>, summary: string, budget: nat)
    ensures var kept := Compacted(h, summary, budget);
            Balanced(kept) && StartsWithUser(kept) && Ids(kept) == {}
  {
    hide UserMessages, Total, ItemTokens, Kept;
    var kept := Compacted(h, summary, budget);
    var b, e := CompactionKeeps(h, summary, budget);
    AllUsers(h);
    forall i | 0 <= i < |kept| ensures IsUser(kept[i]) {
      if i < e - b {
        assert kept[i] == UserMessages(h)[b + i];
      }
    }
    PlainHasNoIds(kept);
  }

  // ---- one more output ----

  ghost predicate Unanswered(h: seq<Item>, id: string) {
    forall j :: 0 <= j < |h| ==> OutputId(h[j]) != Some(id)
  }

  lemma OutputTraced(h: seq<Item>, id: string, output: string)
    requires Traced(h) && Unanswered(h, id)
    ensures Traced(h + [FunctionCallOutput(id, output)])
  {
  }

  // ---- repairing after a crash ----

  const ABORTED := "\"aborted\""

  // The calls a history shows, in order.
  function CallSeq(h: seq<Item>): seq<string> {
    if h == [] then [] else
      var last := h[|h| - 1];
      CallSeq(h[..|h| - 1])
      + (if CallId(last).Some? && (last.FunctionCall? || last.itemName.Some?) then [CallId(last).value] else [])
  }

  function OutputSet(h: seq<Item>): set<string> {
    set i | 0 <= i < |h| && OutputId(h[i]).Some? :: OutputId(h[i]).value
  }

  function Aborts(calls: seq<string>, outputs: set<string>): seq<Item> {
    if calls == [] then [] else
      Aborts(calls[..|calls| - 1], outputs)
      + (if calls[|calls| - 1] in outputs then [] else [FunctionCallOutput(calls[|calls| - 1], ABORTED)])
  }

  function Repaired(h: seq<Item>): seq<Item> {
    h + Aborts(CallSeq(h), OutputSet(h))
  }

  method RepairInterruptedToolCalls(history: seq<Item>) returns (repaired: seq<Item>)
    ensures repaired == Repaired(history)
  {
    var calls: seq<string>, outputs: set<string> := [], {};
    for i := 0 to |history|
      invariant calls == CallSeq(history[..i]) && outputs == OutputSet(history[..i])
    {
      var item := history[i];
      assert history[..i + 1][..i] == history[..i];
      match item {
        case FunctionCall(callId, _, _) => calls := calls + [callId];
        case FunctionCallOutput(outputId, _) => outputs := outputs + {outputId};
        case ResponseItem(kind, callId, name, _, _) =>
          if kind == FUNCTION_CALL && callId.Some? && name.Some? {
            calls := calls + [callId.value];
          }
        case Message(_, _) =>
      }
      OutputSetGrows(history, i);
    }
    assert history[..|history|] == history;
    repaired := history;
    for i := 0 to |calls|
      invariant repaired == history + Aborts(calls[..i], outputs)
    {
      assert calls[..i + 1][..i] == calls[..i];
      if calls[i] !in outputs {
        repaired := repaired + [FunctionCallOutput(calls[i], ABORTED)];
      }
    }
    assert calls[..|calls|] == calls;
  }

  lemma OutputSetGrows(h: seq<Item>, i: nat)
    requires i < |h|
    ensures OutputSet(h[..i + 1]) == OutputSet(h[..i]) + (if OutputId(h[i]).Some? then {OutputId(h[i]).value} else {})
  {
    var more := if OutputId(h[i]).Some? then {OutputId(h[i]).value} else {};
    forall x | x in OutputSet(h[..i + 1]) ensures x in OutputSet(h[..i]) + more {
      var j :| 0 <= j < i + 1 && OutputId(h[..i + 1][j]).Some? && OutputId(h[..i + 1][j]).value == x;
      if j < i {
        assert h[..i][j] == h[j];
      }
    }
    forall x | x in OutputSet(h[..i]) + more ensures x in OutputSet(h[..i + 1]) {
      if x in OutputSet(h[..i]) {
        var j :| 0 <= j < i && OutputId(h[..i][j]).Some? && OutputId(h[..i][j]).value == x;
        assert h[..i + 1][j] == h[j];
      } else {
        assert h[..i + 1][i] == h[i];
      }
    }
  }

  ghost predicate NoRepeats(s: seq<string>) {
    forall i, j :: 0 <= i < j < |s| ==> s[i] != s[j]
  }

  lemma OutputInSet(h: seq<Item>, k: nat)
    requires k < |h|
    ensures OutputId(h[k]).Some? ==> OutputId(h[k]).value in OutputSet(h)
  {
  }

  lemma OutputSetAppend(h: seq<Item>, item: Item)
    ensures OutputSet(h + [item]) == OutputSet(h) + (if OutputId(item).Some? then {OutputId(item).value} else {})
  {
    OutputSetGrows(h + [item], |h|);
    assert (h + [item])[..|h| + 1] == h + [item] && (h + [item])[..|h|] == h;
  }

  lemma AbortsStep(calls: seq<string>, outputs: set<string>)
    requires calls != []
    ensures var n := |calls| - 1;
            Aborts(calls, outputs) ==
              Aborts(calls[..n], outputs) + (if calls[n] in outputs then [] else [FunctionCallOutput(calls[n], ABORTED)])
  {
  }

  // After some of the calls have been answered.
  ghost predicate Aborted(h: seq<Item>, calls: seq<string>, all: seq<Item>) {
    && Traced(all)
    && (forall x :: x in OutputSet(all) <==> x in OutputSet(h) || x in calls)
  }

  lemma AbortOne(h: seq<Item>, calls: seq<string>, all: seq<Item>, id: string)
    requires Aborted(h, calls, all) && id !in OutputSet(h) && id !in calls
    ensures Aborted(h, calls + [id], all + [FunctionCallOutput(id, ABORTED)])
  {
    forall k | 0 <= k < |all| ensures OutputId(all[k]) != Some(id) {
      OutputInSet(all, k);
    }
    hide OutputSet;
    OutputTraced(all, id, ABORTED);
    OutputSetAppend(all, FunctionCallOutput(id, ABORTED));
  }

  lemma AbortNone(h: seq<Item>, calls: seq<string>, all: seq<Item>, id: string)
    requires Aborted(h, calls, all) && id in OutputSet(h)
    ensures Aborted(h, calls + [id], all)
  {
    hide OutputSet, Traced;
  }

  // Each missing output is added once.
  lemma {:induction false} AbortsTraced(h: seq<Item>, calls: seq<string>)
    requires Traced(h) && NoRepeats(calls)
    ensures Aborted(h, calls, h + Aborts(calls, OutputSet(h)))
  {
    hide Traced, OutputSet;
    var outputs := OutputSet(h);
    if calls == [] {
      assert h + Aborts(calls, outputs) == h;
    } else {
      var n := |calls| - 1;
      AbortsTraced(h, calls[..n]);
      AbortsStep(calls, outputs);
      hide Aborts, Aborted;
      var earlier := h + Aborts(calls[..n], outputs);
      assert calls == calls[..n] + [calls[n]];
      if calls[n] in outputs {
        AbortNone(h, calls[..n], earlier, calls[n]);
        assert h + Aborts(calls, outputs) == earlier;
      } else {
        AbortOne(h, calls[..n], earlier, calls[n]);
        assert h + Aborts(calls, outputs) == earlier + [FunctionCallOutput(calls[n], ABORTED)];
      }
    }
  }

  lemma {:induction false} AbortsAreOutputs(calls: seq<string>, outputs: set<string>)
    ensures forall i :: 0 <= i < |Aborts(calls, outputs)| ==> Aborts(calls, outputs)[i].FunctionCallOutput?
  {
    if calls != [] {
      AbortsAreOutputs(calls[..|calls| - 1], outputs);
    }
  }

  // A call's place in the list of calls is the number of calls before it.
  lemma {:induction false} CallSeqAt(h: seq<Item>, i: nat)
    requires AllWellFormed(h) && i < |h| && CallId(h[i]).Some?
    ensures |CallSeq(h[..i])| < |CallSeq(h)| && CallSeq(h)[|CallSeq(h[..i])|] == CallId(h[i]).value
  {
    var n := |h| - 1;
    if i < n {
      CallSeqAt(h[..n], i);
      assert h[..n][..i] == h[..i];
    } else {
      assert h[..i] == h[..n];
    }
  }

  lemma {:induction false} CallSeqFrom(h: seq<Item>, k: nat) returns (i: nat)
    requires AllWellFormed(h) && k < |CallSeq(h)|
    ensures i < |h| && CallId(h[i]) == Some(CallSeq(h)[k]) && |CallSeq(h[..i])| == k
  {
    var n := |h| - 1;
    if k < |CallSeq(h[..n])| {
      i := CallSeqFrom(h[..n], k);
      assert h[..n][..i] == h[..i];
    } else {
      i := n;
    }
  }

  lemma {:induction false} CallSeqGrows(h: seq<Item>, i: nat, j: nat)
    requires i <= |h| && j <= |h|
    ensures i <= j ==> |CallSeq(h[..i])| <= |CallSeq(h[..j])|
    ensures j <= i ==> |CallSeq(h[..j])| <= |CallSeq(h[..i])|
    decreases i + j
  {
    if i < j {
      CallSeqGrows(h, i, j - 1);
      assert h[..j][..j - 1] == h[..j - 1];
    } else if j < i {
      CallSeqGrows(h, i - 1, j);
      assert h[..i][..i - 1] == h[..i - 1];
    }
  }

  lemma CallSeqDistinct(h: seq<Item>)
    requires AllWellFormed(h) && CallsUnique(h)
    ensures NoRepeats(CallSeq(h))
  {
    forall k, l | 0 <= k < l < |CallSeq(h)| ensures CallSeq(h)[k] != CallSeq(h)[l] {
      var i := CallSeqFrom(h, k);
      var j := CallSeqFrom(h, l);
      CallSeqGrows(h, i, j);
    }
  }

  // What Ordered and uniqueness leave open is only whether an output exists.
  lemma BalancedFromOutputs(h: seq<Item>)
    requires Traced(h)
    requires forall i :: 0 <= i < |h| && CallId(h[i]).Some? ==> CallId(h[i]).value in OutputSet(h)
    ensures Balanced(h)
  {
    forall i | 0 <= i < |h| && CallId(h[i]).Some? ensures HasOutput(h, i) {
      var j :| 0 <= j < |h| && OutputId(h[j]).Some? && OutputId(h[j]).value == CallId(h[i]).value;
    }
  }

  /** Repairing gives every open call an output, and keeps the history as a prefix. */
  lemma RepairBalances(h: seq<Item>)
    requires Traced(h)
    ensures h <= Repaired(h) && Balanced(Repaired(h))
    ensures StartsWithUser(h) ==> StartsWithUser(Repaired(h))
  {
    CallSeqDistinct(h);
    AbortsTraced(h, CallSeq(h));
    AbortsAreOutputs(CallSeq(h), OutputSet(h));
    var all := Repaired(h);
    forall i | |h| <= i < |all| ensures CallId(all[i]).None? {
      assert all[i] == Aborts(CallSeq(h), OutputSet(h))[i - |h|];
    }
    forall i | 0 <= i < |h| && CallId(all[i]).Some? ensures CallId(all[i]).value in OutputSet(all) {
      CallSeqAt(h, i);
      assert CallId(h[i]).value in CallSeq(h);
    }
    BalancedFromOutputs(all);
  }

  // The calls without an output, by their places in the history, in order.
  ghost predicate Opens(h: seq<Item>, open: seq<nat>) {
    && (forall i, j :: 0 <= i < j < |open| ==> open[i] < open[j])
    && (forall k :: k in open <==> 0 <= k < |h| && CallId(h[k]).Some? && Unanswered(h, CallId(h[k]).value))
  }

  // The calls up to n, and the outputs they get.
  ghost predicate AbortsSome(h: seq<Item>, n: nat, open: seq<nat>, outputs: seq<Item>)
    requires n <= |h|
  {
    && |outputs| == |open|
    && (forall i, j :: 0 <= i < j < |open| ==> open[i] < open[j])
    && (forall k :: k in open <==> 0 <= k < n && CallId(h[k]).Some? && Unanswered(h, CallId(h[k]).value))
    && (forall i :: 0 <= i < |open| ==> open[i] < n && CallId(h[open[i]]).Some? && outputs[i] == FunctionCallOutput(CallId(h[open[i]]).value, "\"aborted\""))
  }

  lemma OutputSetIs(h: seq<Item>, id: string)
    ensures id in OutputSet(h) <==> !Unanswered(h, id)
  {
    if !Unanswered(h, id) {
      var j :| 0 <= j < |h| && OutputId(h[j]) == Some(id);
      assert OutputId(h[j]).Some? && OutputId(h[j]).value == id;
    }
  }

  lemma CallsUpTo(h: seq<Item>, n: nat)
    requires 0 < n <= |h| && WellFormed(h[n - 1])
    ensures CallSeq(h[..n]) == CallSeq(h[..n - 1]) + (if CallId(h[n - 1]).Some? then [CallId(h[n - 1]).value] else [])
  {
    assert h[..n][..n - 1] == h[..n - 1];
  }

  lemma AbortsOf(calls: seq<string>, id: string, outputs: set<string>)
    ensures Aborts(calls + [id], outputs) == Aborts(calls, outputs) + (if id in outputs then [] else [FunctionCallOutput(id, ABORTED)])
  {
    assert (calls + [id])[..|calls|] == calls;
  }

  lemma {:induction false} AbortsAre(h: seq<Item>, n: nat) returns (open: seq<nat>)
    requires n <= |h| && AllWellFormed(h)
    ensures AbortsSome(h, n, open, Aborts(CallSeq(h[..n]), OutputSet(h)))
  {
    hide Unanswered, OutputSet, WellFormed, CallId;
    open := [];
    if n == 0 {
      assert CallSeq(h[..n]) == [];
    } else {
      hide AbortsSome, CallSeq, Aborts;
      open := AbortsAre(h, n - 1);
      var calls := CallSeq(h[..n - 1]);
      CallsUpTo(h, n);
      if CallId(h[n - 1]).Some? && Unanswered(h, CallId(h[n - 1]).value) {
        OutputSetIs(h, CallId(h[n - 1]).value);
        AbortsOf(calls, CallId(h[n - 1]).value, OutputSet(h));
        AbortsOneMore(h, n, open, Aborts(calls, OutputSet(h)));
        open := open + [n - 1];
      } else {
        AbortsNoMore(h, n, open, Aborts(calls, OutputSet(h)));
        if CallId(h[n - 1]).Some? {
          OutputSetIs(h, CallId(h[n - 1]).value);
          AbortsOf(calls, CallId(h[n - 1]).value, OutputSet(h));
        } else {
          assert calls + [] == calls;
        }
      }
    }
  }

  lemma AbortsNoMore(h: seq<Item>, n: nat, open: seq<nat>, outputs: seq<Item>)
    requires 0 < n <= |h| && AbortsSome(h, n - 1, open, outputs)
    requires CallId(h[n - 1]).None? || !Unanswered(h, CallId(h[n - 1]).value)
    ensures AbortsSome(h, n, open, outputs)
  {
    hide Unanswered, CallId;
  }

  lemma AbortsOneMore(h: seq<Item>, n: nat, open: seq<nat>, outputs: seq<Item>)
    requires 0 < n <= |h| && AbortsSome(h, n - 1, open, outputs)
    requires CallId(h[n - 1]).Some? && Unanswered(h, CallId(h[n - 1]).value)
    ensures AbortsSome(h, n, open + [n - 1], outputs + [FunctionCallOutput(CallId(h[n - 1]).value, ABORTED)])
  {
    hide Unanswered, CallId;
    var all: seq<nat> := open + [n - 1];
    forall k: nat ensures k in all <==> k in open || k == n - 1 {
    }
  }

  /** What repairing adds are outputs, one for each call that has none, in the order of the
      calls, and each says that the call was aborted. */
  lemma RepairAddsAborts(h: seq<Item>) returns (open: seq<nat>)
    requires Traced(h)
    ensures Opens(h, open) && |Repaired(h)| == |h| + |open| && Repaired(h)[..|h|] == h
    ensures forall i :: 0 <= i < |open| ==>
              open[i] < |h| && CallId(h[open[i]]).Some? && Repaired(h)[|h| + i] == FunctionCallOutput(CallId(h[open[i]]).value, "\"aborted\"")
  {
    hide Unanswered, CallsUnique, OutputsUnique, Ordered, Aborts, CallSeq, OutputSet;
    open := AbortsAre(h, |h|);
    assert h[..|h|] == h;
  }

  // A balanced history needs no repair.
  lemma {:induction false} NothingToAbort(calls: seq<string>, outputs: set<string>)
    requires forall c :: c in calls ==> c in outputs
    ensures Aborts(calls, outputs) == []
  {
    if calls != [] {
      NothingToAbort(calls[..|calls| - 1], outputs);
    }
  }

  lemma BalancedIsRepaired(h: seq<Item>)
    requires Balanced(h)
    ensures Repaired(h) == h
  {
    forall c | c in CallSeq(h) ensures c in OutputSet(h) {
      var k :| 0 <= k < |CallSeq(h)| && CallSeq(h)[k] == c;
      var i := CallSeqFrom(h, k);
      assert HasOutput(h, i);
      var j :| i < j < |h| && OutputId(h[j]) == CallId(h[i]);
      assert OutputId(h[j]).value in OutputSet(h);
    }
    NothingToAbort(CallSeq(h), OutputSet(h));
  }

  // ---- reserving the ids of new calls ----

  datatype Call = Call(id: string, name: string, arguments: string)

  const MAX_CALL_ID_BYTES: nat := 512

  predicate ValidId(id: string) {
    Text.Trim(id) != "" && Text.ByteLength(id) <= MAX_CALL_ID_BYTES
  }

  predicate Reservable(calls: seq<Call>, used: set<string>) {
    && (forall i :: 0 <= i < |calls| ==> ValidId(calls[i].id) && calls[i].id !in used)
    && (forall i, j :: 0 <= i < j < |calls| ==> calls[i].id != calls[j].id)
  }

  function CallIds(calls: seq<Call>): set<string> {
    set c | c in calls :: c.id
  }

  method ReserveToolCallIds(calls: seq<Call>, used: set<string>) returns (r: Result<set<string>>)
    ensures r.Success? <==> Reservable(calls, used)
    ensures r.Success? ==> r.value == used + CallIds(calls)
  {
    hide Text.Trim, Text.ByteLength;
    var current: set<string> := {};
    for i := 0 to |calls|
      invariant current == set j | 0 <= j < i :: calls[j].id
      invariant Reservable(calls[..i], used)
    {
      if Text.Trim(calls[i].id) == "" || Text.ByteLength(calls[i].id) > MAX_CALL_ID_BYTES {
        return Failure("invalid call ID");
      }
      if calls[i].id in used || calls[i].id in current {
        return Failure("duplicate call ID");
      }
      current := current + {calls[i].id};
    }
    assert calls[..|calls|] == calls;
    assert current == CallIds(calls) by {
      forall x | x in CallIds(calls) ensures x in current {
        var c :| c in calls && c.id == x;
        var j :| 0 <= j < |calls| && calls[j] == c;
      }
    }
    return Success(used + current);
  }
}
