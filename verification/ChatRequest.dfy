// Rendering a model history as chat messages.
module ChatRequest {
  import opened Wrappers
  import Text

  datatype Role = User | Assistant | Developer

  /** A history item as the chat renderer reads it: provider items have a type, and
      perhaps a text or the fields of a call. */
  datatype Input =
    | Message(role: Role, content: string)
    | FunctionCall(id: string, name: string, arguments: string)
    | FunctionCallOutput(id: string, output: string)
    | ReasoningItem(text: Option<string>)
    | MessageItem(text: Option<string>)
    | CallItem(callId: Option<string>, callName: Option<string>, callArguments: Option<string>)
    | OtherItem

  datatype ToolCall = ToolCall(id: string, name: string, arguments: string)

  datatype Chat =
    | System(content: string)
    | UserMessage(content: string)
    | AssistantMessage(text: Option<string>, reasoning: Option<string>, calls: seq<ToolCall>)
    | ToolMessage(id: string, content: string)

  /** What a conversation says, apart from reasoning. */
  datatype Said =
    | SystemSays(content: string)
    | UserSays(content: string)
    | AssistantSays(content: string)
    | Calls(id: string, name: string, arguments: string)
    | Returns(id: string, content: string)

  // Arguments that are not a JSON object are replayed as an empty one.
  const NO_ARGUMENTS := "{}"

  function Replayable(isObject: string -> bool, arguments: string): string {
    if isObject(arguments) then arguments else NO_ARGUMENTS
  }

  // ---- what is said before and after rendering ----

  function SaidBy(isObject: string -> bool, item: Input): seq<Said> {
    match item
    case Message(role, content) =>
      [match role case User => UserSays(content) case Assistant => AssistantSays(content) case Developer => SystemSays(content)]
    case FunctionCall(id, name, arguments) => [Calls(id, name, if isObject(arguments) then arguments else "{}")]
    case FunctionCallOutput(id, output) => [Returns(id, output)]
    case ReasoningItem(_) => []
    case MessageItem(text) => if text.Some? then [AssistantSays(text.value)] else []
    case CallItem(id, name, arguments) =>
      if id.Some? && name.Some? && arguments.Some?
      then [Calls(id.value, name.value, if isObject(arguments.value) then arguments.value else "{}")] else []
    case OtherItem => []
  }

  function Transcript(isObject: string -> bool, input: seq<Input>): seq<Said> {
    if input == [] then [] else
      Transcript(isObject, input[..|input| - 1]) + SaidBy(isObject, input[|input| - 1])
  }

  function CallsOf(calls: seq<ToolCall>): seq<Said> {
    seq(|calls|, i requires 0 <= i < |calls| => Calls(calls[i].id, calls[i].name, calls[i].arguments))
  }

  function SaidIn(m: Chat): seq<Said> {
    match m
    case System(content) => [SystemSays(content)]
    case UserMessage(content) => [UserSays(content)]
    case AssistantMessage(text, _, calls) => (if text.Some? then [AssistantSays(text.value)] else []) + CallsOf(calls)
    case ToolMessage(id, content) => [Returns(id, content)]
  }

  function Conversation(messages: seq<Chat>): seq<Said> {
    if messages == [] then [] else
      Conversation(messages[..|messages| - 1]) + SaidIn(messages[|messages| - 1])
  }

  lemma ConversationAppend(messages: seq<Chat>, m: Chat)
    ensures Conversation(messages + [m]) == Conversation(messages) + SaidIn(m)
  {
    assert (messages + [m])[..|messages|] == messages;
  }

  // Only the last message changes.
  lemma ConversationRewrite(messages: seq<Chat>, m: Chat, more: seq<Said>)
    requires messages != [] && SaidIn(m) == SaidIn(messages[|messages| - 1]) + more
    ensures Conversation(messages[|messages| - 1 := m]) == Conversation(messages) + more
  {
    hide SaidIn;
    var n := |messages| - 1;
    assert messages[n := m] == messages[..n] + [m];
    ConversationAppend(messages[..n], m);
    assert Conversation(messages[..n]) + (SaidIn(messages[n]) + more) == Conversation(messages[..n]) + SaidIn(messages[n]) + more;
  }

  function WithCall(m: Chat, call: ToolCall): Chat
    requires m.AssistantMessage?
  {
    m.(calls := m.calls + [call])
  }

  lemma CallJoins(messages: seq<Chat>, call: ToolCall)
    requires messages != [] && messages[|messages| - 1].AssistantMessage?
    ensures var n := |messages| - 1;
            Conversation(messages[n := WithCall(messages[n], call)]) ==
              Conversation(messages) + [Calls(call.id, call.name, call.arguments)]
  {
    hide Conversation;
    var last := messages[|messages| - 1];
    var said := [Calls(call.id, call.name, call.arguments)];
    assert CallsOf(last.calls + [call]) == CallsOf(last.calls) + said;
    var text := if last.text.Some? then [AssistantSays(last.text.value)] else [];
    assert text + (CallsOf(last.calls) + said) == text + CallsOf(last.calls) + said;
    ConversationRewrite(messages, WithCall(last, call), said);
  }

  // Reasoning is not part of what is said.
  lemma ReasoningJoins(messages: seq<Chat>, reasoning: Option<string>)
    requires messages != [] && messages[|messages| - 1].AssistantMessage?
    ensures var n := |messages| - 1;
            Conversation(messages[n := messages[n].(reasoning := reasoning)]) == Conversation(messages)
  {
    hide Conversation;
    var last := messages[|messages| - 1];
    assert SaidIn(last.(reasoning := reasoning)) == SaidIn(last) + [];
    ConversationRewrite(messages, last.(reasoning := reasoning), []);
    assert Conversation(messages) + [] == Conversation(messages);
  }

  lemma EmptyAssistant(reasoning: Option<string>)
    ensures SaidIn(AssistantMessage(None, reasoning, [])) == []
  {
    assert CallsOf([]) == [];
  }

  lemma TranscriptStep(isObject: string -> bool, input: seq<Input>, i: nat, head: seq<Said>)
    requires i < |input|
    ensures head + Transcript(isObject, input[..i]) + SaidBy(isObject, input[i]) == head + Transcript(isObject, input[..i + 1])
    ensures Renderable(input[..i + 1]) <==> Renderable(input[..i]) && Renderable([input[i]])
  {
    assert input[..i + 1][..i] == input[..i];
    assert [input[i]][0] == input[i] && input[..i + 1][i] == input[i];
    forall j | 0 <= j < i ensures input[..i][j] == input[..i + 1][j] {
    }
  }

  lemma RenderablePrefix(input: seq<Input>, i: nat)
    requires i <= |input| && !Renderable(input[..i])
    ensures !Renderable(input)
  {
  }

  // Every item is a call that can be rendered, or not a call at all.
  ghost predicate Renderable(input: seq<Input>) {
    forall i :: 0 <= i < |input| && input[i].CallItem? ==>
      input[i].callId.Some? && input[i].callName.Some? && input[i].callArguments.Some?
  }

  // ---- reasoning ----

  function Listed(reasoning: Option<string>): seq<string> {
    if reasoning.Some? then [reasoning.value] else []
  }

  function ThoughtIn(m: Chat): seq<string> {
    if m.AssistantMessage? then Listed(m.reasoning) else []
  }

  // The reasoning of all messages, in order.
  function Thoughts(messages: seq<Chat>): seq<string> {
    if messages == [] then [] else
      Thoughts(messages[..|messages| - 1]) + ThoughtIn(messages[|messages| - 1])
  }

  lemma ThoughtsAppend(messages: seq<Chat>, m: Chat)
    ensures Thoughts(messages + [m]) == Thoughts(messages) + ThoughtIn(m)
  {
    assert (messages + [m])[..|messages|] == messages;
  }

  lemma ThoughtsRewrite(messages: seq<Chat>, m: Chat)
    requires messages != [] && (ThoughtIn(messages[|messages| - 1]) == [] || ThoughtIn(m) == ThoughtIn(messages[|messages| - 1]))
    ensures Thoughts(messages[|messages| - 1 := m]) ==
            Thoughts(messages) + if ThoughtIn(messages[|messages| - 1]) == [] then ThoughtIn(m) else []
  {
    var n := |messages| - 1;
    assert messages[n := m] == messages[..n] + [m];
    ThoughtsAppend(messages[..n], m);
  }

  /** The reasoning a history has put into messages, what still waits for one, and whether
      the last message is the assistant's and has some. */
  datatype Mind = Mind(kept: seq<string>, pending: Option<string>, speaking: bool, reasoned: bool)

  const BLANK := Mind([], None, false, false)

  predicate IsCall(item: Input) {
    item.FunctionCall? || (item.CallItem? && item.callId.Some? && item.callName.Some? && item.callArguments.Some?)
  }

  predicate IsAnswer(item: Input) {
    (item.Message? && item.role.Assistant?) || (item.MessageItem? && item.text.Some?)
  }

  // An answer takes what waits; so does the first call behind it that finds it without
  // reasoning. What others say closes the message.
  function Hears(m: Mind, item: Input): Mind {
    if item.ReasoningItem? && item.text.Some? then
      m.(pending := Some((if m.pending.Some? then m.pending.value else "") + item.text.value))
    else if IsCall(item) && m.speaking && m.reasoned then m.(pending := None)
    else if IsCall(item) || IsAnswer(item) then Mind(m.kept + Listed(m.pending), None, true, m.pending.Some?)
    else if item.Message? || item.FunctionCallOutput? then Mind(m.kept + Listed(m.pending), None, false, false)
    else m
  }

  function MindAfter(input: seq<Input>): Mind {
    if input == [] then BLANK else Hears(MindAfter(input[..|input| - 1]), input[|input| - 1])
  }

  function Joined(texts: seq<string>): string {
    if texts == [] then "" else Joined(texts[..|texts| - 1]) + texts[|texts| - 1]
  }

  function AllReasoning(input: seq<Input>): string {
    if input == [] then "" else
      var item := input[|input| - 1];
      AllReasoning(input[..|input| - 1]) + if item.ReasoningItem? && item.text.Some? then item.text.value else ""
  }

  // A call follows reasoning although its message has reasoning already.
  predicate DropsAt(input: seq<Input>, i: nat) {
    && i < |input| && IsCall(input[i])
    && var m := MindAfter(input[..i]); m.speaking && m.reasoned && m.pending.Some? && m.pending.value != ""
  }

  function WaitingOr(m: Mind): string {
    Joined(m.kept) + (if m.pending.Some? then m.pending.value else "")
  }

  lemma JoinedMore(texts: seq<string>, more: Option<string>)
    ensures Joined(texts + Listed(more)) == Joined(texts) + (if more.Some? then more.value else "")
  {
    if more.Some? {
      assert (texts + [more.value])[..|texts|] == texts;
    } else {
      assert texts + [] == texts;
    }
  }

  lemma HearsOne(m: Mind, item: Input)
    ensures item.ReasoningItem? && item.text.Some? ==> WaitingOr(Hears(m, item)) == WaitingOr(m) + item.text.value
    ensures !(item.ReasoningItem? && item.text.Some?) ==>
              WaitingOr(Hears(m, item)) == if IsCall(item) && m.speaking && m.reasoned then Joined(m.kept) else WaitingOr(m)
  {
    hide Joined;
    JoinedMore(m.kept, m.pending);
  }

  // What is lost is exactly what such calls drop.
  lemma {:induction false} LostIfDropped(input: seq<Input>)
    ensures |WaitingOr(MindAfter(input))| <= |AllReasoning(input)|
    ensures WaitingOr(MindAfter(input)) == AllReasoning(input) <==> forall i: nat :: !DropsAt(input, i)
  {
    hide Hears, WaitingOr;
    if input == [] {
      Blank();
    } else {
      var n := |input| - 1;
      LostIfDropped(input[..n]);
      forall i: nat | i < n ensures DropsAt(input[..n], i) <==> DropsAt(input, i) {
        assert input[..n][..i] == input[..i];
      }
      OneMore(input);
    }
  }

  lemma Blank()
    ensures WaitingOr(MindAfter([])) == AllReasoning([]) == ""
  {
  }

  lemma OneMore(input: seq<Input>)
    requires input != [] && |WaitingOr(MindAfter(input[..|input| - 1]))| <= |AllReasoning(input[..|input| - 1])|
    ensures var n := |input| - 1; var before, after := WaitingOr(MindAfter(input[..n])), WaitingOr(MindAfter(input));
            && |after| <= |AllReasoning(input)|
            && (after == AllReasoning(input) <==> before == AllReasoning(input[..n]) && !DropsAt(input, n))
  {
    hide Hears, Joined;
    var n := |input| - 1;
    HearsOne(MindAfter(input[..n]), input[n]);
  }

  // ---- rendering ----

  class Renderer {
    var messages: seq<Chat>
    var pendingReasoning: Option<string>

    ghost function Thinking(): Mind
      reads this
    {
      var last := if messages == [] then UserMessage("") else messages[|messages| - 1];
      Mind(Thoughts(messages), pendingReasoning, last.AssistantMessage?, last.AssistantMessage? && last.reasoning.Some?)
    }

    constructor ()
      ensures messages == [] && pendingReasoning == None
    {
      messages, pendingReasoning := [], None;
    }

    method Push(m: Chat)
      modifies this`messages
      ensures Conversation(messages) == Conversation(old(messages)) + SaidIn(m)
      ensures messages == old(messages) + [m] && Thoughts(messages) == Thoughts(old(messages)) + ThoughtIn(m)
    {
      ConversationAppend(messages, m);
      ThoughtsAppend(messages, m);
      messages := messages + [m];
    }

    // Reasoning without a message of its own gets an empty assistant message.
    method FlushPendingReasoning()
      modifies this
      ensures pendingReasoning == None && Conversation(messages) == Conversation(old(messages))
      ensures Thoughts(messages) == Thoughts(old(messages)) + Listed(old(pendingReasoning))
    {
      if pendingReasoning.Some? {
        Push(AssistantMessage(None, pendingReasoning, []));
        assert CallsOf([]) == [];
        pendingReasoning := None;
      }
    }

    // A call joins the last message if that is the assistant's. Pending reasoning goes
    // with it, unless that message already has some; then it is dropped.
    method AppendToolCall(id: string, name: string, arguments: string)
      modifies this
      ensures pendingReasoning == None
      ensures Conversation(messages) == Conversation(old(messages)) + [Calls(id, name, arguments)]
      ensures messages != [] && messages[|messages| - 1].AssistantMessage?
      ensures Thinking() == Hears(old(Thinking()), FunctionCall(id, name, arguments))
    {
      hide Conversation, SaidIn, Thoughts;
      assert Thoughts(messages) + [] == Thoughts(messages);
      if messages == [] || !messages[|messages| - 1].AssistantMessage? {
        EmptyAssistant(pendingReasoning);
        assert Conversation(messages) + [] == Conversation(messages);
        Push(AssistantMessage(None, pendingReasoning, []));
      } else if pendingReasoning.Some? && messages[|messages| - 1].reasoning.None? {
        ReasoningJoins(messages, pendingReasoning);
        ThoughtsRewrite(messages, messages[|messages| - 1].(reasoning := pendingReasoning));
        messages := messages[|messages| - 1 := messages[|messages| - 1].(reasoning := pendingReasoning)];
      }
      pendingReasoning := None;
      CallJoins(messages, ToolCall(id, name, arguments));
      ThoughtsRewrite(messages, WithCall(messages[|messages| - 1], ToolCall(id, name, arguments)));
      messages := messages[|messages| - 1 := WithCall(messages[|messages| - 1], ToolCall(id, name, arguments))];
    }

    method AssistantSpeaks(content: string)
      modifies this
      ensures pendingReasoning == None && Conversation(messages) == Conversation(old(messages)) + [AssistantSays(content)]
      ensures Thinking() == Hears(old(Thinking()), Message(Assistant, content))
    {
      Push(AssistantMessage(Some(content), pendingReasoning, []));
      assert CallsOf([]) == [];
      pendingReasoning := None;
    }

    method Think(text: string)
      modifies this`pendingReasoning
      ensures Thinking() == Hears(old(Thinking()), ReasoningItem(Some(text)))
    {
      hide Thoughts;
      pendingReasoning := Some((if pendingReasoning.Some? then pendingReasoning.value else "") + text);
    }

    method OthersSpeak(m: Chat)
      requires !m.AssistantMessage?
      modifies this
      ensures Conversation(messages) == Conversation(old(messages)) + SaidIn(m)
      ensures Thinking() == Mind(old(Thinking()).kept + Listed(old(Thinking()).pending), None, false, false)
    {
      hide Conversation, Thoughts;
      FlushPendingReasoning();
      Push(m);
    }

    method RenderItem(isObject: string -> bool, item: Input) returns (ok: bool)
      modifies this
      ensures ok <==> Renderable([item])
      ensures ok ==> Conversation(messages) == Conversation(old(messages)) + SaidBy(isObject, item)
      ensures ok ==> Thinking() == Hears(old(Thinking()), item)
    {
      hide Conversation, Thoughts, Thinking, CallsOf;
      ok := true;
      match item {
        case Message(role, content) =>
          if role.Assistant? {
            AssistantSpeaks(content);
          } else {
            OthersSpeak(if role.User? then UserMessage(content) else System(content));
          }
        case FunctionCall(id, name, arguments) => AppendToolCall(id, name, Replayable(isObject, arguments));
        case FunctionCallOutput(id, output) =>
          OthersSpeak(ToolMessage(id, output));
        case ReasoningItem(text) =>
          if text.Some? {
            Think(text.value);
          }
        case MessageItem(text) =>
          if text.Some? {
            AssistantSpeaks(text.value);
          }
        case CallItem(id, name, arguments) =>
          if id.None? || name.None? || arguments.None? {
            assert [item][0].CallItem?;
            return false;
          }
          AppendToolCall(id.value, name.value, Replayable(isObject, arguments.value));
        case OtherItem =>
      }
    }
  }

  /** The messages say exactly what the history says, in the same order: every text,
      every call and every output once. Reasoning is kept too, in order and as a whole, if and
      only if no call follows some although the message it joins has reasoning already. */
  method ChatMessages(isObject: string -> bool, instructions: string, input: seq<Input>) returns (r: Result<seq<Chat>>)
    ensures r.Success? <==> Renderable(input)
    ensures r.Success? ==>
              Conversation(r.value) ==
                (if Text.Trim(instructions) == "" then [] else [SystemSays(instructions)]) + Transcript(isObject, input)
    ensures r.Success? ==> Thoughts(r.value) == MindAfter(input).kept + Listed(MindAfter(input).pending)
    ensures r.Success? ==> (Joined(Thoughts(r.value)) == AllReasoning(input) <==> forall i: nat :: !DropsAt(input, i))
  {
    hide Conversation, Transcript, Renderable, SaidBy, Hears, Thoughts, Joined, DropsAt, AllReasoning;
    NoThoughts();
    var renderer := new Renderer();
    NothingSaid(isObject);
    if Text.Trim(instructions) != "" {
      renderer.Push(System(instructions));
    }
    ghost var head := if Text.Trim(instructions) == "" then [] else [SystemSays(instructions)];
    assert [] + [SystemSays(instructions)] == [SystemSays(instructions)];
    assert input[..0] == [] && head + [] == head;
    for i := 0 to |input|
      invariant fresh(renderer) && Renderable(input[..i])
      invariant Conversation(renderer.messages) == head + Transcript(isObject, input[..i])
      invariant renderer.Thinking() == MindAfter(input[..i])
    {
      assert input[..i + 1][..i] == input[..i];
      TranscriptStep(isObject, input, i, head);
      var ok := renderer.RenderItem(isObject, input[i]);
      if !ok {
        RenderablePrefix(input, i + 1);
        return Failure("response item misses a field");
      }
    }
    assert input[..|input|] == input;
    LostIfDropped(input);
    JoinedMore(MindAfter(input).kept, MindAfter(input).pending);
    renderer.FlushPendingReasoning();
    return Success(renderer.messages);
  }

  lemma NoThoughts()
    ensures Thoughts([]) == [] && MindAfter([]) == BLANK
  {
  }

  lemma NothingSaid(isObject: string -> bool)
    ensures Conversation([]) == [] && Transcript(isObject, []) == [] && Renderable([])
  {
  }
}
