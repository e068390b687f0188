// Token estimates of a model history, and what trimming and compacting keep of it.
module History {
  import opened Wrappers
  import opened Protocol

  // ---- estimates ----

  predicate IsAscii(c: char) {
    c as int < 128
  }

  function AsciiCount(text: string): nat {
    if text == "" then 0 else (if IsAscii(text[0]) then 1 else 0) + AsciiCount(text[1..])
  }

  function DivCeil(n: nat, d: nat): nat
    requires d > 0
  {
    (n + d - 1) / d
  }

  // Four ASCII bytes to a token, and one token for every other character.
  function TextTokens(text: string): nat {
    var ascii := AsciiCount(text);
    AsciiBound(text);
    DivCeil(ascii, 4) + (|text| - ascii)
  }

  lemma {:induction false} AsciiBound(text: string)
    ensures AsciiCount(text) <= |text|
  {
    if text != "" {
      AsciiBound(text[1..]);
    }
  }

  lemma {:induction false} AsciiAppend(text: string, c: char)
    ensures AsciiCount(text + [c]) == AsciiCount(text) + (if IsAscii(c) then 1 else 0)
  {
    if text == "" {
      assert "" + [c] == [c];
    } else {
      AsciiAppend(text[1..], c);
      assert (text + [c])[1..] == text[1..] + [c];
    }
  }

  method EstimateTextTokens(text: string) returns (tokens: nat)
    ensures tokens == TextTokens(text)
  {
    var asciiBytes, otherChars := 0, 0;
    for i := 0 to |text|
      invariant asciiBytes == AsciiCount(text[..i]) && asciiBytes + otherChars == i
    {
      AsciiAppend(text[..i], text[i]);
      assert text[..i] + [text[i]] == text[..i + 1];
      if IsAscii(text[i]) {
        asciiBytes := asciiBytes + 1;
      } else {
        otherChars := otherChars + 1;
      }
    }
    assert text[..|text|] == text;
    tokens := (asciiBytes + 3) / 4 + otherChars;
  }

  function ItemTokens(item: Item): nat {
    8 + match item
        case Message(_, content) => TextTokens(content)
        case FunctionCall(_, name, arguments) => TextTokens(name) + TextTokens(arguments)
        case FunctionCallOutput(_, output) => TextTokens(output)
        case ResponseItem(_, _, _, _, rendering) => TextTokens(rendering)
  }

  function Total(history: seq<Item>): nat {
    if history == [] then 0 else ItemTokens(history[0]) + Total(history[1..])
  }

  lemma {:induction false} TotalConcat(a: seq<Item>, b: seq<Item>)
    ensures Total(a + b) == Total(a) + Total(b)
  {
    if a == [] {
      assert a + b == b;
    } else {
      TotalConcat(a[1..], b);
      assert (a + b)[1..] == a[1..] + b;
    }
  }

  // ---- trimming ----

  // The first item and everything from s on stay within the limit.
  predicate Fits(history: seq<Item>, limit: nat, s: nat)
    requires 1 <= s <= |history|
  {
    ItemTokens(history[0]) + Total(history[s..]) <= limit
  }

  // Going back from s as long as the tail fits.
  function Start(history: seq<Item>, limit: nat, s: nat): (start: nat)
    requires 1 <= s <= |history|
    ensures 1 <= start <= s
  {
    if s > 1 && Fits(history, limit, s - 1) then Start(history, limit, s - 1) else s
  }

  function SkipOutputs(history: seq<Item>, s: nat): (t: nat)
    requires s <= |history|
    ensures s <= t <= |history|
    decreases |history| - s
  {
    if s < |history| && history[s].FunctionCallOutput? then SkipOutputs(history, s + 1) else s
  }

  function Trim(history: seq<Item>, limit: nat): (seq<Item>, nat) {
    if Total(history) <= limit || |history| <= 2 then (history, 0) else
    var t := SkipOutputs(history, Start(history, limit, |history| - 1));
    ([history[0]] + history[t..], t - 1)
  }

  method DropLeadingOutputs(history: seq<Item>, s: nat) returns (tail: seq<Item>)
    requires s <= |history|
    ensures tail == history[SkipOutputs(history, s)..]
  {
    tail := history[s..];
    ghost var t: nat := s;
    while tail != [] && tail[0].FunctionCallOutput?
      invariant t <= |history| && tail == history[t..]
      invariant SkipOutputs(history, t) == SkipOutputs(history, s)
      decreases |tail|
    {
      tail := tail[1..];
      t := t + 1;
    }
  }

  /** The loop takes items from the end while they fit, and at least one. */
  method TrimHistory(history: seq<Item>, limit: nat) returns (trimmed: seq<Item>, removed: nat)
    ensures (trimmed, removed) == Trim(history, limit)
  {
    hide ItemTokens, SkipOutputs;
    if Total(history) <= limit || |history| <= 2 {
      return history, 0;
    }
    var first, n := history[0], |history|;
    var tail: seq<Item>, tailTokens := [], ItemTokens(first);
    var i: nat := n;
    while i > 1
      invariant 1 <= i <= n && tail == history[i..] && tailTokens == ItemTokens(first) + Total(tail)
      invariant i < n ==> Start(history, limit, n - 1) == Start(history, limit, i)
    {
      var size := ItemTokens(history[i - 1]);
      assert history[i - 1..] == [history[i - 1]] + tail;
      if tailTokens + size > limit && tail != [] {
        break;
      }
      tailTokens := tailTokens + size;
      tail := [history[i - 1]] + tail;
      i := i - 1;
    }
    tail := DropLeadingOutputs(history, i);
    removed := n - (1 + |tail|);
    trimmed := [first] + tail;
  }

  lemma {:induction false} StartIsLeast(history: seq<Item>, limit: nat, s: nat, k: nat)
    requires 1 <= s <= |history| && 1 <= k < Start(history, limit, s)
    ensures !Fits(history, limit, k)
  {
    if s > 1 && Fits(history, limit, s - 1) {
      StartIsLeast(history, limit, s - 1, k);
    } else if Fits(history, limit, k) {
      FitsLater(history, limit, k, s - 1);
    }
  }

  lemma FitsLater(history: seq<Item>, limit: nat, k: nat, s: nat)
    requires 1 <= k <= s <= |history| && Fits(history, limit, k)
    ensures Fits(history, limit, s)
  {
    assert history[k..] == history[k..s] + history[s..];
    TotalConcat(history[k..s], history[s..]);
  }

  lemma {:induction false} StartFits(history: seq<Item>, limit: nat, s: nat)
    requires 1 <= s <= |history| && Start(history, limit, s) < s
    ensures Fits(history, limit, Start(history, limit, s))
  {
    if Start(history, limit, s - 1) < s - 1 {
      StartFits(history, limit, s - 1);
    }
  }

  lemma {:induction false} SkippedAreOutputs(history: seq<Item>, s: nat, k: nat)
    requires s <= |history| && s <= k < SkipOutputs(history, s)
    ensures history[k].FunctionCallOutput?
    decreases |history| - s
  {
    if s < k {
      SkippedAreOutputs(history, s + 1, k);
    }
  }

  lemma {:induction false} SkipStops(history: seq<Item>, s: nat)
    requires s <= |history|
    ensures var t := SkipOutputs(history, s); t < |history| ==> !history[t].FunctionCallOutput?
    decreases |history| - s
  {
    if s < |history| && history[s].FunctionCallOutput? {
      SkipStops(history, s + 1);
    }
  }

  // A history over the limit cannot keep everything behind its first item.
  lemma StartMoves(history: seq<Item>, limit: nat)
    requires Total(history) > limit && |history| > 2
    ensures Start(history, limit, |history| - 1) > 1
  {
    if Start(history, limit, |history| - 1) == 1 {
      StartFits(history, limit, |history| - 1);
    }
  }

  /** Trimming changes the history exactly when it reports removed items, and reports
      exactly how many. */
  lemma TrimReports(history: seq<Item>, limit: nat)
    ensures var (trimmed, removed) := Trim(history, limit);
            && |trimmed| + removed == |history|
            && (removed > 0 <==> trimmed != history)
            && (removed > 0 <==> Total(history) > limit && |history| > 2)
  {
    if Total(history) > limit && |history| > 2 {
      StartMoves(history, limit);
    }
  }

  /** What is left is the first item and the longest tail that fits, at least one item,
      without the outputs it would start with. */
  lemma TrimKeepsLongestTail(history: seq<Item>, limit: nat) returns (s: nat, t: nat)
    requires Total(history) > limit && |history| > 2
    ensures 1 < s <= t <= |history| && s < |history|
    ensures Trim(history, limit).0 == [history[0]] + history[t..]
    ensures s == |history| - 1 || Fits(history, limit, s)
    ensures forall k :: 1 <= k < s ==> !Fits(history, limit, k)
    ensures forall k :: s <= k < t ==> history[k].FunctionCallOutput?
    ensures t < |history| ==> !history[t].FunctionCallOutput?
  {
    s := Start(history, limit, |history| - 1);
    t := SkipOutputs(history, s);
    StartMoves(history, limit);
    if s < |history| - 1 {
      StartFits(history, limit, |history| - 1);
    }
    forall k | 1 <= k < s ensures !Fits(history, limit, k) {
      StartIsLeast(history, limit, |history| - 1, k);
    }
    forall k | s <= k < t ensures history[k].FunctionCallOutput? {
      SkippedAreOutputs(history, s, k);
    }
    SkipStops(history, s);
  }

  // More than two items left means that they fit.
  lemma TrimmedWithinLimit(history: seq<Item>, limit: nat)
    requires |Trim(history, limit).0| > 2
    ensures Total(Trim(history, limit).0) <= limit
  {
    if Total(history) > limit {
      var s, t := TrimKeepsLongestTail(history, limit);
      FitsLater(history, limit, s, t);
      TotalConcat([history[0]], history[t..]);
      assert [history[0]][1..] == [];
    }
  }

  // ---- compacting ----

  const SUMMARY_PREFIX := "Another model worked on this research session and produced the following checkpoint. Use it to continue without repeating completed work:"

  predicate IsUser(item: Item) {
    item.Message? && item.role == User
  }

  function SummaryItem(summary: string): Item {
    Item.Message(User, SUMMARY_PREFIX + "\n\n" + summary)
  }

  function UserMessages(history: seq<Item>): seq<Item> {
    if history == [] then [] else
      UserMessages(history[..|history| - 1]) + (if IsUser(history[|history| - 1]) then [history[|history| - 1]] else [])
  }

  // Where the kept user messages end: behind the newest one that fits by itself.
  function KeptEnd(messages: seq<Item>, budget: nat): (e: nat)
    ensures e <= |messages|
  {
    if messages == [] then 0 else
    if ItemTokens(messages[|messages| - 1]) <= budget then |messages| else KeptEnd(messages[..|messages| - 1], budget)
  }

  // Where they begin: as far back as the budget reaches.
  function KeptFrom(messages: seq<Item>, budget: nat, s: nat, e: nat): (b: nat)
    requires s <= e <= |messages|
    ensures b <= s
    decreases s
  {
    if s > 0 && Total(messages[s - 1..e]) <= budget then KeptFrom(messages, budget, s - 1, e) else s
  }

  function Kept(messages: seq<Item>, budget: nat): seq<Item> {
    var e := KeptEnd(messages, budget);
    messages[KeptFrom(messages, budget, e, e)..e]
  }

  function Compacted(history: seq<Item>, summary: string, budget: nat): seq<Item> {
    Kept(UserMessages(history), budget) + [SummaryItem(summary)]
  }

  lemma {:induction false} KeptEndIs(messages: seq<Item>, budget: nat)
    ensures var e := KeptEnd(messages, budget);
            && (e > 0 ==> ItemTokens(messages[e - 1]) <= budget)
            && forall k :: e <= k < |messages| ==> ItemTokens(messages[k]) > budget
  {
    if messages != [] && ItemTokens(messages[|messages| - 1]) > budget {
      KeptEndIs(messages[..|messages| - 1], budget);
    }
  }

  lemma {:induction false} KeptFromIs(messages: seq<Item>, budget: nat, s: nat, e: nat)
    requires s <= e <= |messages| && Total(messages[s..e]) <= budget
    ensures var b := KeptFrom(messages, budget, s, e);
            Total(messages[b..e]) <= budget && (b > 0 ==> Total(messages[b - 1..e]) > budget)
    decreases s
  {
    hide Total;
    if s > 0 && Total(messages[s - 1..e]) <= budget {
      KeptFromIs(messages, budget, s - 1, e);
    }
  }

  // The user's messages are those of the history, in order.
  ghost predicate PicksUsers(history: seq<Item>, picked: seq<nat>) {
    && (forall i, j :: 0 <= i < j < |picked| ==> picked[i] < picked[j])
    && (forall k :: k in picked <==> 0 <= k < |history| && history[k].Message? && history[k].role == User)
  }

  lemma {:induction false} UserMessagesAre(history: seq<Item>) returns (picked: seq<nat>)
    ensures PicksUsers(history, picked) && |UserMessages(history)| == |picked|
    ensures forall i :: 0 <= i < |picked| ==> picked[i] < |history| && UserMessages(history)[i] == history[picked[i]]
  {
    picked := [];
    if history != [] {
      var n := |history| - 1;
      var earlier := UserMessagesAre(history[..n]);
      picked := earlier + (if history[n].Message? && history[n].role == User then [n] else []);
      forall k: nat ensures k in picked <==> k in earlier || (k == n && history[n].Message? && history[n].role == User) {
      }
    }
  }

  // The summary is the end of the last item, behind the words that introduce it.
  ghost predicate EndsIn(content: string, text: string) {
    |text| <= |content| && content[|content| - |text|..] == text
  }

  /** A compacted history is a run of the user's messages, in order, then a message of the
      user that ends in the summary. The run ends at the newest message that fits the
      budget by itself, stays within the budget, and could not begin any earlier. */
  lemma CompactionKeeps(history: seq<Item>, summary: string, budget: nat) returns (b: nat, e: nat)
    ensures var messages := UserMessages(history);
            && b <= e <= |messages|
            && Compacted(history, summary, budget) == messages[b..e] + [SummaryItem(summary)]
            && Total(messages[b..e]) <= budget
            && (b > 0 ==> Total(messages[b - 1..e]) > budget)
            && (b == e ==> e == 0)
            && forall k :: e <= k < |messages| ==> ItemTokens(messages[k]) > budget
    ensures var last := Compacted(history, summary, budget)[e - b]; last.Message? && last.role == User && SUMMARY_PREFIX <= last.content && EndsIn(last.content, summary)
  {
    var messages := UserMessages(history);
    e := KeptEnd(messages, budget);
    b := KeptFrom(messages, budget, e, e);
    KeptEndIs(messages, budget);
    KeptFromIs(messages, budget, e, e);
    if e > 0 {
      assert messages[e - 1..e] == [messages[e - 1]];
      assert Total(messages[e - 1..e]) == ItemTokens(messages[e - 1]) + Total([]);
    }
  }

  lemma {:induction false} UserMessagesPrefix(history: seq<Item>, i: nat)
    requires i <= |history|
    ensures UserMessages(history[..i]) <= UserMessages(history)
  {
    if i < |history| {
      var n := |history| - 1;
      UserMessagesPrefix(history[..n], i);
      assert history[..n][..i] == history[..i];
    } else {
      assert history[..i] == history;
    }
  }

  lemma {:induction false} AllUsers(history: seq<Item>)
    ensures forall m :: m in UserMessages(history) ==> IsUser(m)
  {
    if history != [] {
      AllUsers(history[..|history| - 1]);
    }
  }

  // Skipping a message that does not fit by itself.
  lemma {:induction false} KeptEndSkips(messages: seq<Item>, budget: nat, m: nat)
    requires m <= |messages| && forall k :: m <= k < |messages| ==> ItemTokens(messages[k]) > budget
    ensures KeptEnd(messages, budget) == KeptEnd(messages[..m], budget)
  {
    if m < |messages| {
      var n := |messages| - 1;
      KeptEndSkips(messages[..n], budget, m);
      assert messages[..n][..m] == messages[..m];
    } else {
      assert messages[..m] == messages;
    }
  }

  // One round of the loop: the next older message is taken, skipped, or ends the run.
  ghost predicate Selecting(messages: seq<Item>, budget: nat, m: nat, selected: seq<Item>) {
    && m <= |messages|
    && (selected == [] ==> forall k :: m <= k < |messages| ==> ItemTokens(messages[k]) > budget)
    && (selected != [] ==>
          var e := KeptEnd(messages, budget);
          && m < e && selected == messages[m..e] && Total(selected) <= budget
          && KeptFrom(messages, budget, e, e) == KeptFrom(messages, budget, m, e))
  }

  lemma SelectFirst(messages: seq<Item>, budget: nat, m: nat)
    requires 0 < m <= |messages| && Selecting(messages, budget, m, []) && ItemTokens(messages[m - 1]) <= budget
    ensures Selecting(messages, budget, m - 1, [messages[m - 1]] + [])
    ensures Total([messages[m - 1]] + []) == ItemTokens(messages[m - 1])
  {
    KeptEndSkips(messages, budget, m);
    assert messages[..m][m - 1] == messages[m - 1];
    assert messages[m - 1..m] == [messages[m - 1]];
    assert Total([messages[m - 1]]) == ItemTokens(messages[m - 1]) + Total([]);
    assert [messages[m - 1]] + [] == [messages[m - 1]];
  }

  lemma SelectSkip(messages: seq<Item>, budget: nat, m: nat)
    requires 0 < m <= |messages| && Selecting(messages, budget, m, []) && ItemTokens(messages[m - 1]) > budget
    ensures Selecting(messages, budget, m - 1, [])
  {
  }

  lemma SelectNone(messages: seq<Item>, budget: nat)
    ensures Selecting(messages, budget, |messages|, []) && Total([]) == 0
  {
  }

  lemma SelectNext(messages: seq<Item>, budget: nat, m: nat, selected: seq<Item>)
    requires 0 < m <= |messages| && selected != [] && Selecting(messages, budget, m, selected)
    ensures var e := KeptEnd(messages, budget);
            m <= e <= |messages| && Total(messages[m - 1..e]) == ItemTokens(messages[m - 1]) + Total(selected)
    ensures Total([messages[m - 1]] + selected) == ItemTokens(messages[m - 1]) + Total(selected)
    ensures Total(selected) + ItemTokens(messages[m - 1]) <= budget ==>
              Selecting(messages, budget, m - 1, [messages[m - 1]] + selected)
    ensures Total(selected) + ItemTokens(messages[m - 1]) > budget ==> selected == Kept(messages, budget)
  {
    var e := KeptEnd(messages, budget);
    assert messages[m - 1..e] == [messages[m - 1]] + selected;
  }

  lemma SelectDone(messages: seq<Item>, budget: nat, selected: seq<Item>)
    requires Selecting(messages, budget, 0, selected)
    ensures selected == Kept(messages, budget)
  {
    KeptEndIs(messages, budget);
  }

  lemma UserMessagesStep(history: seq<Item>, i: nat)
    requires i < |history|
    ensures UserMessages(history[..i + 1]) == UserMessages(history[..i]) + (if IsUser(history[i]) then [history[i]] else [])
  {
    assert history[..i + 1][..i] == history[..i];
  }

  lemma NoUserMessages()
    ensures UserMessages([]) == []
  {
  }

  lemma LastOfPrefix(messages: seq<Item>, m: nat, earlier: seq<Item>, item: Item)
    requires m < |messages| && messages[..m + 1] == earlier + [item]
    ensures messages[..m] == earlier && messages[m] == item
  {
    assert |messages[..m + 1]| == m + 1;
    assert messages[..m] == messages[..m + 1][..m];
    assert messages[m] == messages[..m + 1][m];
  }

  method BuildCompactedHistory(history: seq<Item>, summary: string, budget: nat) returns (compacted: seq<Item>)
    ensures compacted == Compacted(history, summary, budget)
  {
    hide ItemTokens, Kept, Selecting, Total, UserMessages, SummaryItem;
    ghost var messages := UserMessages(history);
    ghost var m: nat := |messages|;
    var selected: seq<Item>, usedTokens, i := [], 0, |history|;
    assert history[..i] == history;
    SelectNone(messages, budget);
    while i > 0
      invariant 0 <= i <= |history|
      invariant m <= |messages| && messages[..m] == UserMessages(history[..i])
      invariant usedTokens == Total(selected) && Selecting(messages, budget, m, selected)
    {
      i := i - 1;
      var item := history[i];
      UserMessagesStep(history, i);
      if IsUser(item) {
        m := m - 1;
        LastOfPrefix(messages, m, UserMessages(history[..i]), item);
        var tokens := ItemTokens(item);
        if selected != [] {
          SelectNext(messages, budget, m + 1, selected);
        } else if tokens <= budget {
          SelectFirst(messages, budget, m + 1);
        } else {
          SelectSkip(messages, budget, m + 1);
        }
        if usedTokens + tokens > budget && selected != [] {
          return selected + [SummaryItem(summary)];
        }
        if tokens <= Minus(budget, usedTokens) {
          selected := [item] + selected;
          usedTokens := usedTokens + tokens;
        }
      }
    }
    assert history[..0] == [];
    NoUserMessages();
    SelectDone(messages, budget, selected);
    compacted := selected + [SummaryItem(summary)];
  }

  // ---- the token budget of one sample ----

  const DEFAULT_OUTPUT_RESERVE: nat := 16384

  function Clamp(n: nat, lo: nat, hi: nat): nat {
    if n < lo then lo else if n > hi then hi else n
  }

  function OutputReserve(window: nat): nat {
    Clamp(window / 8, 1024, DEFAULT_OUTPUT_RESERVE)
  }

  function SafetyReserve(window: nat): nat {
    Clamp(window / 20, 256, 4096)
  }

  datatype Tool = Tool(name: string, description: string, schema: string)

  function StaticTokens(instructions: string, tools: seq<Tool>): nat {
    if tools == [] then TextTokens(instructions) else
      var t := tools[|tools| - 1];
      StaticTokens(instructions, tools[..|tools| - 1])
      + TextTokens(t.name) + TextTokens(t.description) + TextTokens(t.schema) + 16
  }

  // What the window leaves for the history.
  function HistoryBudget(window: nat, instructions: string, tools: seq<Tool>): Result<nat> {
    var reserved := StaticTokens(instructions, tools) + OutputReserve(window) + SafetyReserve(window);
    if reserved > window then Failure("context window too small") else Success(window - reserved)
  }

  // ---- the two messages a retry may add ----

  ghost predicate AllAscii(text: string) {
    forall i :: 0 <= i < |text| ==> IsAscii(text[i])
  }

  lemma {:induction false} AsciiTokens(text: string)
    requires AllAscii(text)
    ensures AsciiCount(text) == |text|
  {
    if text != "" {
      AsciiTokens(text[1..]);
    }
  }

  const LIMIT_1 := "The previous provider resp"
  const LIMIT_2 := "onse exhausted its output "
  const LIMIT_3 := "budget before completing. "
  const LIMIT_4 := "Restart from the original "
  const LIMIT_5 := "request, omit narrated ana"
  const LIMIT_6 := "lysis, and return a concis"
  const LIMIT_7 := "e but complete result now."
  const OUTPUT_LIMIT_RECOVERY := LIMIT_1 + LIMIT_2 + LIMIT_3 + LIMIT_4 + LIMIT_5 + LIMIT_6 + LIMIT_7

  const EMPTY_1 := "The previous provider resp"
  const EMPTY_2 := "onse completed without emi"
  const EMPTY_3 := "tting an answer. Return th"
  const EMPTY_4 := "e requested final answer n"
  const EMPTY_5 := "ow. Be concise, do not nar"
  const EMPTY_6 := "rate hidden reasoning, and"
  const EMPTY_7 := " satisfy the original outp"
  const EMPTY_8 := "ut format exactly."
  const EMPTY_HEAD := EMPTY_1 + EMPTY_2 + EMPTY_3 + EMPTY_4
  const EMPTY_TAIL := EMPTY_5 + EMPTY_6 + EMPTY_7 + EMPTY_8
  const EMPTY_RESPONSE_RECOVERY := EMPTY_HEAD + EMPTY_TAIL

  lemma AsciiConcat(a: string, b: string)
    requires AllAscii(a) && AllAscii(b)
    ensures AllAscii(a + b)
  {
  }

  lemma LimitHead()
    ensures AllAscii(LIMIT_1) && AllAscii(LIMIT_2) && |LIMIT_1| == |LIMIT_2| == 26
  {
  }

  lemma LimitMiddle()
    ensures AllAscii(LIMIT_3) && AllAscii(LIMIT_4) && |LIMIT_3| == |LIMIT_4| == 26
  {
  }

  lemma LimitTail()
    ensures AllAscii(LIMIT_5) && AllAscii(LIMIT_6) && AllAscii(LIMIT_7)
    ensures |LIMIT_5| == |LIMIT_6| == |LIMIT_7| == 26
  {
  }

  lemma OutputLimitText()
    ensures AllAscii(OUTPUT_LIMIT_RECOVERY) && |OUTPUT_LIMIT_RECOVERY| == 182
  {
    hide AllAscii, LIMIT_1, LIMIT_2, LIMIT_3, LIMIT_4, LIMIT_5, LIMIT_6, LIMIT_7;
    LimitHead();
    LimitMiddle();
    LimitTail();
    AsciiConcat(LIMIT_1, LIMIT_2);
    AsciiConcat(LIMIT_1 + LIMIT_2, LIMIT_3);
    AsciiConcat(LIMIT_1 + LIMIT_2 + LIMIT_3, LIMIT_4);
    AsciiConcat(LIMIT_1 + LIMIT_2 + LIMIT_3 + LIMIT_4, LIMIT_5);
    AsciiConcat(LIMIT_1 + LIMIT_2 + LIMIT_3 + LIMIT_4 + LIMIT_5, LIMIT_6);
    AsciiConcat(LIMIT_1 + LIMIT_2 + LIMIT_3 + LIMIT_4 + LIMIT_5 + LIMIT_6, LIMIT_7);
  }

  lemma EmptyParts()
    ensures AllAscii(EMPTY_1) && AllAscii(EMPTY_2) && |EMPTY_1| == |EMPTY_2| == 26
  {
  }

  lemma EmptyMiddle()
    ensures AllAscii(EMPTY_3) && AllAscii(EMPTY_4) && |EMPTY_3| == |EMPTY_4| == 26
  {
  }

  lemma EmptyHeadText()
    ensures AllAscii(EMPTY_HEAD) && |EMPTY_HEAD| == 104
  {
    hide AllAscii, EMPTY_1, EMPTY_2, EMPTY_3, EMPTY_4;
    EmptyParts();
    EmptyMiddle();
    AsciiConcat(EMPTY_1, EMPTY_2);
    AsciiConcat(EMPTY_1 + EMPTY_2, EMPTY_3);
    AsciiConcat(EMPTY_1 + EMPTY_2 + EMPTY_3, EMPTY_4);
  }

  lemma EmptyRest()
    ensures AllAscii(EMPTY_5) && AllAscii(EMPTY_6) && |EMPTY_5| == |EMPTY_6| == 26
  {
  }

  lemma EmptyEnd()
    ensures AllAscii(EMPTY_7) && AllAscii(EMPTY_8) && |EMPTY_7| == 26 && |EMPTY_8| == 18
  {
  }

  lemma EmptyTailText()
    ensures AllAscii(EMPTY_TAIL) && |EMPTY_TAIL| == 96
  {
    hide AllAscii, EMPTY_5, EMPTY_6, EMPTY_7, EMPTY_8;
    EmptyRest();
    EmptyEnd();
    AsciiConcat(EMPTY_5, EMPTY_6);
    AsciiConcat(EMPTY_5 + EMPTY_6, EMPTY_7);
    AsciiConcat(EMPTY_5 + EMPTY_6 + EMPTY_7, EMPTY_8);
  }

  lemma EmptyResponseText()
    ensures AllAscii(EMPTY_RESPONSE_RECOVERY) && |EMPTY_RESPONSE_RECOVERY| == 200
  {
    hide AllAscii;
    EmptyHeadText();
    EmptyTailText();
    AsciiConcat(EMPTY_HEAD, EMPTY_TAIL);
  }

  function Recoveries(outputLimit: bool, emptyResponse: bool): seq<Item> {
    (if outputLimit then [Item.Message(User, OUTPUT_LIMIT_RECOVERY)] else [])
    + (if emptyResponse then [Item.Message(User, EMPTY_RESPONSE_RECOVERY)] else [])
  }

  lemma RecoveryTokens(outputLimit: bool, emptyResponse: bool)
    ensures Total(Recoveries(outputLimit, emptyResponse)) <= 256
  {
    RecoverySizes();
    var a, b := Item.Message(User, OUTPUT_LIMIT_RECOVERY), Item.Message(User, EMPTY_RESPONSE_RECOVERY);
    hide ItemTokens;
    TotalOne(a);
    TotalOne(b);
    TotalConcat([a], [b]);
    assert [] + [b] == [b] && [a] + [] == [a];
  }

  lemma RecoverySizes()
    ensures ItemTokens(Item.Message(User, OUTPUT_LIMIT_RECOVERY)) == 54
    ensures ItemTokens(Item.Message(User, EMPTY_RESPONSE_RECOVERY)) == 58
  {
    OutputLimitText();
    EmptyResponseText();
    hide AllAscii, AsciiCount;
    AsciiTokens(OUTPUT_LIMIT_RECOVERY);
    AsciiTokens(EMPTY_RESPONSE_RECOVERY);
  }

  lemma TotalOne(item: Item)
    ensures Total([item]) == ItemTokens(item)
  {
    assert [item][1..] == [];
  }


  // ---- the same in characters ----

  // A character of ASCII weighs a quarter of a token, any other a whole one.
  function Weight(text: string): nat {
    if text == "" then 0 else (if text[0] as int < 128 then 1 else 4) + Weight(text[1..])
  }

  // The texts of an item that a model is shown.
  function ItemTexts(item: Item): seq<string> {
    match item
    case Message(_, content) => [content]
    case FunctionCall(_, name, arguments) => [name, arguments]
    case FunctionCallOutput(_, output) => [output]
    case ResponseItem(_, _, _, _, rendering) => [rendering]
  }

  function ToolTexts(tool: Tool): seq<string> {
    [tool.name, tool.description, tool.schema]
  }

  function TotalWeight(texts: seq<string>): nat {
    if texts == [] then 0 else Weight(texts[0]) + TotalWeight(texts[1..])
  }

  function ShownTools(tools: seq<Tool>): seq<string> {
    if tools == [] then [] else ShownTools(tools[..|tools| - 1]) + ToolTexts(tools[|tools| - 1])
  }

  function ShownItems(input: seq<Item>): seq<string> {
    if input == [] then [] else ItemTexts(input[0]) + ShownItems(input[1..])
  }

  lemma {:induction false} WeightIs(text: string)
    ensures AsciiCount(text) <= |text| && Weight(text) == AsciiCount(text) + 4 * (|text| - AsciiCount(text))
  {
    if text != "" {
      WeightIs(text[1..]);
    }
  }

  lemma TextWeighs(text: string)
    ensures Weight(text) <= 4 * TextTokens(text) < Weight(text) + 4
  {
    WeightIs(text);
  }

  lemma {:induction false} WeightConcat(a: seq<string>, b: seq<string>)
    ensures TotalWeight(a + b) == TotalWeight(a) + TotalWeight(b)
  {
    if a == [] {
      assert a + b == b;
    } else {
      WeightConcat(a[1..], b);
      assert (a + b)[1..] == a[1..] + b;
    }
  }

  // An estimate is never too low, and at most three quarters of a token too high per text.
  lemma ItemWeighs(item: Item)
    ensures TotalWeight(ItemTexts(item)) + 32 <= 4 * ItemTokens(item) <= TotalWeight(ItemTexts(item)) + 32 + 3 * |ItemTexts(item)|
  {
    hide TextTokens, Weight;
    forall text ensures Weight(text) <= 4 * TextTokens(text) < Weight(text) + 4 {
      TextWeighs(text);
    }
    match item
    case FunctionCall(_, name, arguments) =>
      assert ItemTexts(item)[1..] == [arguments];
      assert TotalWeight([arguments]) == Weight(arguments) + TotalWeight([]);
    case _ =>
      assert ItemTexts(item)[1..] == [];
  }

  lemma {:induction false} InputWeighs(input: seq<Item>)
    ensures TotalWeight(ShownItems(input)) + 32 * |input| <= 4 * Total(input)
  {
    hide ItemTexts, ItemTokens;
    if input != [] {
      InputWeighs(input[1..]);
      ItemWeighs(input[0]);
      WeightConcat(ItemTexts(input[0]), ShownItems(input[1..]));
    }
  }

  lemma ToolWeighs(tool: Tool)
    ensures TotalWeight(ToolTexts(tool)) <= 4 * (TextTokens(tool.name) + TextTokens(tool.description) + TextTokens(tool.schema))
  {
    hide TextTokens, Weight;
    TextWeighs(tool.name);
    TextWeighs(tool.description);
    TextWeighs(tool.schema);
    assert ToolTexts(tool)[1..] == [tool.description, tool.schema] && [tool.description, tool.schema][1..] == [tool.schema];
    assert TotalWeight([tool.schema]) == Weight(tool.schema) + TotalWeight([]);
  }

  lemma {:induction false} StaticWeighs(instructions: string, tools: seq<Tool>)
    ensures Weight(instructions) + TotalWeight(ShownTools(tools)) + 64 * |tools| <= 4 * StaticTokens(instructions, tools)
  {
    hide TextTokens, Weight, ToolTexts;
    if tools == [] {
      TextWeighs(instructions);
    } else {
      var n := |tools| - 1;
      StaticWeighs(instructions, tools[..n]);
      ToolWeighs(tools[n]);
      WeightConcat(ShownTools(tools[..n]), ToolTexts(tools[n]));
    }
  }

  lemma ToolWeighsMost(tool: Tool)
    ensures 4 * (TextTokens(tool.name) + TextTokens(tool.description) + TextTokens(tool.schema)) <= TotalWeight(ToolTexts(tool)) + 9
  {
    hide TextTokens, Weight;
    TextWeighs(tool.name);
    TextWeighs(tool.description);
    TextWeighs(tool.schema);
    assert ToolTexts(tool)[1..] == [tool.description, tool.schema] && [tool.description, tool.schema][1..] == [tool.schema];
    assert TotalWeight([tool.schema]) == Weight(tool.schema) + TotalWeight([]);
  }

  lemma {:induction false} StaticWeighsMost(instructions: string, tools: seq<Tool>)
    ensures 4 * StaticTokens(instructions, tools) <= Weight(instructions) + TotalWeight(ShownTools(tools)) + 73 * |tools| + 3
  {
    hide TextTokens, Weight, ToolTexts;
    if tools == [] {
      TextWeighs(instructions);
    } else {
      var n := |tools| - 1;
      StaticWeighsMost(instructions, tools[..n]);
      ToolWeighsMost(tools[n]);
      WeightConcat(ShownTools(tools[..n]), ToolTexts(tools[n]));
    }
  }

  // An eighth of the window is kept for the answer, at least 1024 tokens and at most 16384.
  function AnswerReserve(window: nat): nat {
    if window < 8192 then 1024 else if window > 131072 then 16384 else window / 8
  }

  // A twentieth of it for what the estimates miss, at least 256 tokens and at most 4096.
  function Margin(window: nat): nat {
    if window < 5120 then 256 else if window > 81920 then 4096 else window / 20
  }

  /** Nothing of the window is wasted: the budget of a history is what the reserve, the margin,
      the instructions and the tools leave of it, up to three quarters of a token for each of
      their texts; and there is no budget only if they leave nothing. */
  lemma BudgetIs(window: nat, instructions: string, tools: seq<Tool>)
    ensures var budget := HistoryBudget(window, instructions, tools);
            var shown := Weight(instructions) + TotalWeight(ShownTools(tools)) + 64 * |tools|;
            var rest := 4 * (window - AnswerReserve(window) - Margin(window)) - shown;
            if budget.Success? then rest - 9 * |tools| - 3 <= 4 * budget.value <= rest else rest < 9 * |tools| + 3
  {
    hide StaticTokens, Weight, TotalWeight, ShownTools;
    StaticWeighs(instructions, tools);
    StaticWeighsMost(instructions, tools);
  }

  /** What a sample shows the model, in characters: the instructions, the tools, and every
      text of every item, with eight tokens more for each item and sixteen for each tool,
      leave the window the reserve for the answer. */
  lemma WindowHolds(window: nat, instructions: string, tools: seq<Tool>, input: seq<Item>)
    requires StaticTokens(instructions, tools) + Total(input) + OutputReserve(window) <= window
    ensures FitsWindow(window, instructions, tools, input)
  {
    hide *;
    StaticWeighs(instructions, tools);
    InputWeighs(input);
    ReserveIs(window);
    ShownWeighs(instructions, tools, input);
    FitsBy(window, instructions, tools, input);
  }

  /** Four characters of ASCII to a token, or one other character. */
  ghost predicate FitsWindow(window: nat, instructions: string, tools: seq<Tool>, input: seq<Item>) {
    var texts := Shown(instructions, tools, input);
    && TotalWeight(texts) + 64 * |tools| + 32 * |input| <= 4 * (window - AnswerReserve(window))
    && (AllTextsAscii(texts) ==> Characters(texts) + 64 * |tools| + 32 * |input| <= 4 * (window - AnswerReserve(window)))
  }

  ghost predicate AllTextsAscii(texts: seq<string>) {
    forall i :: 0 <= i < |texts| ==> AllAscii(texts[i])
  }

  lemma FitsBy(window: nat, instructions: string, tools: seq<Tool>, input: seq<Item>)
    requires TotalWeight(Shown(instructions, tools, input)) + 64 * |tools| + 32 * |input| <= 4 * (window - AnswerReserve(window))
    ensures FitsWindow(window, instructions, tools, input)
  {
    hide TotalWeight, Shown, AnswerReserve, Characters, AllAscii;
    if AllTextsAscii(Shown(instructions, tools, input)) {
      AsciiWeight(Shown(instructions, tools, input));
    }
  }

  lemma ReserveIs(window: nat)
    ensures AnswerReserve(window) == OutputReserve(window)
  {
  }

  // Everything a sample shows the model.
  function Shown(instructions: string, tools: seq<Tool>, input: seq<Item>): seq<string> {
    [instructions] + ShownTools(tools) + ShownItems(input)
  }

  lemma ShownWeighs(instructions: string, tools: seq<Tool>, input: seq<Item>)
    ensures TotalWeight(Shown(instructions, tools, input)) ==
            Weight(instructions) + TotalWeight(ShownTools(tools)) + TotalWeight(ShownItems(input))
  {
    hide Weight, ShownTools, ShownItems;
    WeightConcat([instructions] + ShownTools(tools), ShownItems(input));
    WeightConcat([instructions], ShownTools(tools));
    assert [instructions][1..] == [];
    assert TotalWeight([instructions]) == Weight(instructions) + TotalWeight([]);
  }

  // Texts of ASCII weigh their length.
  function Characters(texts: seq<string>): nat {
    if texts == [] then 0 else |texts[0]| + Characters(texts[1..])
  }

  lemma {:induction false} AsciiWeighs(text: string)
    requires AllAscii(text)
    ensures Weight(text) == |text|
  {
    if text != "" {
      AsciiWeighs(text[1..]);
    }
  }

  lemma {:induction false} AsciiWeight(texts: seq<string>)
    requires AllTextsAscii(texts)
    ensures TotalWeight(texts) == Characters(texts)
  {
    if texts != [] {
      AsciiWeighs(texts[0]);
      AsciiWeight(texts[1..]);
    }
  }

  /** Every sample of a step fits the model's window, whichever recovery messages its
      retries have added: they are covered by the safety reserve. */
  lemma SampleFits(window: nat, instructions: string, tools: seq<Tool>, input: seq<Item>, outputLimit: bool, emptyResponse: bool)
    requires HistoryBudget(window, instructions, tools).Success?
    requires Total(input) <= HistoryBudget(window, instructions, tools).value
    ensures FitsWindow(window, instructions, tools, input + Recoveries(outputLimit, emptyResponse))
  {
    hide FitsWindow;
    RecoveryTokens(outputLimit, emptyResponse);
    TotalConcat(input, Recoveries(outputLimit, emptyResponse));
    hide StaticTokens, Total, Recoveries;
    WindowHolds(window, instructions, tools, input + Recoveries(outputLimit, emptyResponse));
  }
}
