// What the control plane makes of the inputs a Turn has claimed, and which of their texts the
// loop ever says.
module ControlPlane {
  import opened Wrappers
  import opened Protocol
  import opened Rollout
  import opened History
  import opened AgentLoop
  import opened LoopEffects

  /** A claimed input, with its id. */
  datatype Delivery = Delivery(id: InputId, input: AgentInput)

  // The text an input is turned into; named says how an Agent is called.
  function TextOf(input: AgentInput, named: map<AgentId, string>): Result<string> {
    if input.kind.Guide? then Success("Human guidance for this running action:\n" + input.content) else
    if input.sender.None? then Success("Message from the user:\n" + input.content) else
    if input.sender.value !in named then Failure("agent not found") else
    Success("Message from " + named[input.sender.value] + ":\n" + input.content)
  }

  predicate IsText(input: AgentInput) {
    input.kind.Message? || input.kind.Guide?
  }

  // ---- what is handed over ----

  // The texts of messages and guidance, in order.
  function Texts(deliveries: seq<Delivery>, named: map<AgentId, string>): Result<seq<string>> {
    if deliveries == [] then Success([]) else
      var earlier :- Texts(deliveries[..|deliveries| - 1], named);
      var input := deliveries[|deliveries| - 1].input;
      if !IsText(input) then Success(earlier) else
        var text :- TextOf(input, named);
        Success(earlier + [text])
  }

  // What the newest input of a kind says.
  function Last(deliveries: seq<Delivery>, kind: InputKind): Option<string> {
    if deliveries == [] then None else
      var n := |deliveries| - 1;
      if deliveries[n].input.kind == kind then Some(deliveries[n].input.content) else Last(deliveries[..n], kind)
  }

  function InputIds(deliveries: seq<Delivery>): seq<InputId> {
    seq(|deliveries|, i requires 0 <= i < |deliveries| => deliveries[i].id)
  }

  function ControlOf(deliveries: seq<Delivery>, named: map<AgentId, string>): Result<Control> {
    var messages :- Texts(deliveries, named);
    Success(Control(messages, Last(deliveries, InputKind.Interrupt), Last(deliveries, InputKind.Finish), InputIds(deliveries)))
  }

  // A Session that is over interrupts its Turns, and hands nothing over.
  function SessionOver(status: SessionStatus): Option<string> {
    match status
    case Closing => Some("Session entered Closing")
    case Completed => Some("Session entered Completed")
    case Failed => Some("Session entered Failed")
    case Cancelled => Some("Session entered Cancelled")
    case _ => None
  }

  /** One consultation of the control plane, when the Session is not paused. */
  method Checkpoint(status: SessionStatus, deliveries: seq<Delivery>, named: map<AgentId, string>) returns (r: Result<Control>)
    ensures SessionOver(status).Some? ==> r == Success(Control([], SessionOver(status), None, []))
    ensures SessionOver(status).None? ==> r.Success? == ControlOf(deliveries, named).Success?
    ensures SessionOver(status).None? && r.Success? ==> r == ControlOf(deliveries, named)
  {
    if SessionOver(status).Some? {
      return Success(Control([], SessionOver(status), None, []));
    }
    var checkpoint := Control([], None, None, []);
    for i := 0 to |deliveries|
      invariant checkpoint.ids == InputIds(deliveries[..i])
      invariant Texts(deliveries[..i], named) == Success(checkpoint.messages)
      invariant checkpoint.interrupt == Last(deliveries[..i], InputKind.Interrupt)
      invariant checkpoint.finish == Last(deliveries[..i], InputKind.Finish)
    {
      assert deliveries[..i + 1][..i] == deliveries[..i];
      var input := deliveries[i].input;
      checkpoint := checkpoint.(ids := checkpoint.ids + [deliveries[i].id]);
      match input.kind
      case Message =>
        var text := TextOf(input, named);
        if text.Failure? {
          NoTexts(deliveries, named, i + 1);
          return Failure(text.reason);
        }
        checkpoint := checkpoint.(messages := checkpoint.messages + [text.value]);
      case Guide => checkpoint := checkpoint.(messages := checkpoint.messages + [TextOf(input, named).value]);
      case Interrupt => checkpoint := checkpoint.(interrupt := Some(input.content));
      case Finish => checkpoint := checkpoint.(finish := Some(input.content));
    }
    assert deliveries[..|deliveries|] == deliveries;
    return Success(checkpoint);
  }

  lemma {:induction false} NoTexts(deliveries: seq<Delivery>, named: map<AgentId, string>, i: nat)
    requires i <= |deliveries| && Texts(deliveries[..i], named).Failure?
    ensures Texts(deliveries, named).Failure?
  {
    if i < |deliveries| {
      var n := |deliveries| - 1;
      assert deliveries[..n][..i] == deliveries[..i];
      NoTexts(deliveries[..n], named, i);
    } else {
      assert deliveries[..i] == deliveries;
    }
  }

  // ---- what it says ----

  // Messages and guidance are handed over one by one, each as a text that ends in its content.
  ghost predicate Relays(deliveries: seq<Delivery>, picked: seq<nat>, texts: seq<string>) {
    && |picked| == |texts|
    && (forall i, j :: 0 <= i < j < |picked| ==> picked[i] < picked[j])
    && (forall k :: k in picked <==> 0 <= k < |deliveries| && (deliveries[k].input.kind.Message? || deliveries[k].input.kind.Guide?))
    && (forall i :: 0 <= i < |picked| ==> picked[i] < |deliveries| && EndsIn(texts[i], deliveries[picked[i]].input.content))
  }

  ghost predicate NewestAt(deliveries: seq<Delivery>, kind: InputKind, i: nat) {
    && i < |deliveries| && deliveries[i].input.kind == kind
    && forall j :: i < j < |deliveries| ==> deliveries[j].input.kind != kind
  }

  // The newest of a kind, if there is one.
  ghost predicate Newest(deliveries: seq<Delivery>, kind: InputKind, said: Option<string>) {
    match said
    case None => forall i :: 0 <= i < |deliveries| ==> deliveries[i].input.kind != kind
    case Some(text) => exists i: nat :: NewestAt(deliveries, kind, i) && deliveries[i].input.content == text
  }

  lemma {:induction false} TextsRelay(deliveries: seq<Delivery>, named: map<AgentId, string>) returns (picked: seq<nat>)
    requires Texts(deliveries, named).Success?
    ensures Relays(deliveries, picked, Texts(deliveries, named).value)
  {
    hide Relays, EndsIn;
    picked := [];
    if deliveries == [] {
      NothingRelayed(deliveries);
    } else {
      var n: nat := |deliveries| - 1;
      picked := TextsRelay(deliveries[..n], named);
      var texts := Texts(deliveries[..n], named).value;
      if IsText(deliveries[n].input) {
        TextEnds(deliveries[n].input, named);
        RelaysOneMore(deliveries, picked, texts, TextOf(deliveries[n].input, named).value);
        picked := picked + [n];
      } else {
        RelaysNoMore(deliveries, picked, texts);
      }
    }
  }

  lemma NothingRelayed(deliveries: seq<Delivery>)
    requires deliveries == []
    ensures Relays(deliveries, [], [])
  {
  }

  lemma RelaysNoMore(deliveries: seq<Delivery>, picked: seq<nat>, texts: seq<string>)
    requires deliveries != [] && Relays(deliveries[..|deliveries| - 1], picked, texts) && !IsText(deliveries[|deliveries| - 1].input)
    ensures Relays(deliveries, picked, texts)
  {
    hide EndsIn;
    var n := |deliveries| - 1;
    assert forall k :: 0 <= k < n ==> deliveries[..n][k] == deliveries[k];
  }

  lemma RelaysOneMore(deliveries: seq<Delivery>, picked: seq<nat>, texts: seq<string>, text: string)
    requires deliveries != [] && Relays(deliveries[..|deliveries| - 1], picked, texts) && IsText(deliveries[|deliveries| - 1].input)
    requires EndsIn(text, deliveries[|deliveries| - 1].input.content)
    ensures Relays(deliveries, picked + [|deliveries| - 1], texts + [text])
  {
    hide EndsIn;
    var n: nat := |deliveries| - 1;
    var all := picked + [n];
    assert forall k :: 0 <= k < n ==> deliveries[..n][k] == deliveries[k];
    forall i | 0 <= i < |picked| ensures all[i] == picked[i] && picked[i] < n {
    }
    forall k: nat ensures k in all <==> k in picked || k == n {
    }
    forall i | 0 <= i < |all| ensures all[i] < |deliveries| && EndsIn((texts + [text])[i], deliveries[all[i]].input.content) {
    }
  }

  lemma TextEnds(input: AgentInput, named: map<AgentId, string>)
    ensures TextOf(input, named).Success? ==> EndsIn(TextOf(input, named).value, input.content)
  {
    if TextOf(input, named).Success? {
      var text := TextOf(input, named).value;
      var head := text[..|text| - |input.content|];
      assert text == head + input.content;
    }
  }

  lemma {:induction false} LastIsNewest(deliveries: seq<Delivery>, kind: InputKind)
    ensures Newest(deliveries, kind, Last(deliveries, kind))
  {
    if deliveries != [] {
      var n: nat := |deliveries| - 1;
      if deliveries[n].input.kind == kind {
        assert NewestAt(deliveries, kind, n);
      } else {
        LastIsNewest(deliveries[..n], kind);
        NewestStill(deliveries, kind, Last(deliveries, kind));
      }
    }
  }

  // An input of another kind does not change which is the newest.
  lemma NewestStill(deliveries: seq<Delivery>, kind: InputKind, said: Option<string>)
    requires deliveries != [] && deliveries[|deliveries| - 1].input.kind != kind
    requires Newest(deliveries[..|deliveries| - 1], kind, said)
    ensures Newest(deliveries, kind, said)
  {
    var n := |deliveries| - 1;
    assert forall k :: 0 <= k < n ==> deliveries[..n][k] == deliveries[k];
    if said.Some? {
      var i: nat :| NewestAt(deliveries[..n], kind, i) && deliveries[..n][i].input.content == said.value;
      assert NewestAt(deliveries, kind, i);
    }
  }

  /** The control plane acknowledges every claimed input, in order; messages and guidance are
      relayed, and of interruptions and instructions to finish the newest counts. */
  lemma ControlIs(deliveries: seq<Delivery>, named: map<AgentId, string>) returns (picked: seq<nat>)
    requires ControlOf(deliveries, named).Success?
    ensures var control := ControlOf(deliveries, named).value;
            && |control.ids| == |deliveries| && (forall i :: 0 <= i < |deliveries| ==> control.ids[i] == deliveries[i].id)
            && Relays(deliveries, picked, control.messages)
            && Newest(deliveries, InputKind.Interrupt, control.interrupt) && Newest(deliveries, InputKind.Finish, control.finish)
  {
    picked := TextsRelay(deliveries, named);
    LastIsNewest(deliveries, InputKind.Interrupt);
    LastIsNewest(deliveries, InputKind.Finish);
  }

  // ---- what is said of it ----

  function Kinds(deliveries: seq<Delivery>, kind: InputKind): set<nat> {
    set i | 0 <= i < |deliveries| && deliveries[i].input.kind == kind
  }

  // The texts the loop says when it is handed a control: the reason of the interruption, or
  // the guidance.
  function Voiced(control: Control): seq<string> {
    if control.interrupt.Some? then [control.interrupt.value] else Guidance(control)
  }

  /** Whatever the control plane hands over, the loop either ends the Turn, which says the
      interruption and nothing else, or stores all the guidance; in both cases the record
      acknowledges every claimed input. */
  lemma HeadVoices(p: Process, control: Control, summary: Option<(string, Usage)>, budget: nat) returns (said: seq<Item>, full: seq<Item>)
    requires control.interrupt.Some? || AtHead(p, control, summary, budget).Ask?
    ensures control.interrupt.Some? ==>
              var end := Proceed(AtHead(p, control, summary, budget).process.value, Step.Interrupt);
              && end.Ask? && end.item.TurnUpdated? && end.item.turn.error == Some(Voiced(control)[0]) && Acknowledges(end.item, control.ids)
    ensures control.interrupt.None? ==>
              && Adds(p.history, said, Voiced(control))
              && Continues(p.finishing || control.finish.Some?, said, summary, budget, full)
              && Stores(p, AtHead(p, control, summary, budget), Trim(full, budget).0, UsageSoFar(p, said, summary, budget),
                        p.completedSteps, None, control.ids)
  {
    hide AtHead, Stores, Continues, Adds, Guidance;
    said, full := [], [];
    if control.interrupt.Some? {
      InterruptionEnds(p, control, summary, budget);
    } else {
      said, full := HeadStores(p, control, summary, budget);
    }
  }

  lemma {:induction false} TextsCounted(deliveries: seq<Delivery>, named: map<AgentId, string>)
    requires Texts(deliveries, named).Success?
    ensures |Texts(deliveries, named).value| + |Kinds(deliveries, InputKind.Interrupt)| + |Kinds(deliveries, InputKind.Finish)| == |deliveries|
  {
    if deliveries != [] {
      var n := |deliveries| - 1;
      TextsCounted(deliveries[..n], named);
      KindsStep(deliveries, InputKind.Interrupt);
      KindsStep(deliveries, InputKind.Finish);
    }
  }

  lemma KindsStep(deliveries: seq<Delivery>, kind: InputKind)
    requires deliveries != []
    ensures var n := |deliveries| - 1;
            |Kinds(deliveries, kind)| == |Kinds(deliveries[..n], kind)| + (if deliveries[n].input.kind == kind then 1 else 0)
  {
    var n := |deliveries| - 1;
    assert Kinds(deliveries, kind) == Kinds(deliveries[..n], kind) + (if deliveries[n].input.kind == kind then {n} else {});
  }

  lemma KindsEmpty(deliveries: seq<Delivery>, kind: InputKind)
    ensures |Kinds(deliveries, kind)| == 0 <==> Last(deliveries, kind).None?
  {
    LastIsNewest(deliveries, kind);
    if Last(deliveries, kind).Some? {
      var i: nat :| NewestAt(deliveries, kind, i);
      assert i in Kinds(deliveries, kind);
    } else {
      assert Kinds(deliveries, kind) == {};
    }
  }

  /** Every acknowledged input is said once, one by one, exactly if there is no interruption
      and at most one instruction to finish among them, or a single input; otherwise some
      input is applied that no model and no row ever shows. */
  lemma VoicedAll(deliveries: seq<Delivery>, named: map<AgentId, string>)
    requires ControlOf(deliveries, named).Success?
    ensures var control := ControlOf(deliveries, named).value;
            |Voiced(control)| == |control.ids| <==>
              || |deliveries| == 1
              || (|Kinds(deliveries, InputKind.Interrupt)| == 0 && |Kinds(deliveries, InputKind.Finish)| <= 1)
    ensures |Voiced(ControlOf(deliveries, named).value)| <= |deliveries|
  {
    hide Kinds, Texts, Last;
    TextsCounted(deliveries, named);
    KindsEmpty(deliveries, InputKind.Interrupt);
    KindsEmpty(deliveries, InputKind.Finish);
  }

  function Sent(kind: InputKind, content: string): AgentInput {
    AgentInput(1, 2, None, None, kind, content, InputStatus.Claimed, Some(5))
  }

  /** Guidance that comes with an interruption is applied and never said. */
  lemma GuidanceLost(p: Process, summary: Option<(string, Usage)>, budget: nat)
    ensures var deliveries := [Delivery(7, Sent(Guide, "Check the evidence")), Delivery(8, Sent(InputKind.Interrupt, "Stop"))];
            var control := ControlOf(deliveries, map[]);
            && control.Success?
            && var end := Proceed(AtHead(p, control.value, summary, budget).process.value, Step.Interrupt);
               && end.Ask? && Acknowledges(end.item, [7, 8]) && end.item.TurnUpdated? && end.item.turn.error == Some("Stop")
               && end.item.turn.output == None
  {
    var deliveries := [Delivery(7, Sent(Guide, "Check the evidence")), Delivery(8, Sent(InputKind.Interrupt, "Stop"))];
    assert deliveries[..1] == [deliveries[0]] && deliveries[..1][..0] == [];
    assert Texts([], map[]) == Success([]);
    var control := ControlOf(deliveries, map[]).value;
    assert control.ids == [7, 8];
    InterruptionEnds(p, control, summary, budget);
  }
}
