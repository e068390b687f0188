// A codec that obeys the laws of RolloutFile.Lawful, so that what is proved under them is
// not empty. It spells out the structure of a record, with numbers written in ones.
module SampleCodec {
  import opened Wrappers
  import opened Protocol
  import opened RolloutFile

  datatype Tree = Leaf(n: nat) | Node(children: seq<Tree>)

  // ---- trees as bytes ----

  const ONE: Byte := 1
  const END: Byte := 2
  const OPEN: Byte := 3
  const CLOSE: Byte := 4

  function Ones(n: nat): (bytes: seq<Byte>)
    ensures NEWLINE !in bytes
  {
    if n == 0 then [] else [ONE] + Ones(n - 1)
  }

  function Spell(t: Tree): (bytes: seq<Byte>)
    ensures bytes != [] && bytes[0] != CLOSE && NEWLINE !in bytes
  {
    match t
    case Leaf(n) => Ones(n) + [END]
    case Node(children) => [OPEN] + SpellAll(children) + [CLOSE]
  }

  function SpellAll(ts: seq<Tree>): (bytes: seq<Byte>)
    ensures NEWLINE !in bytes
  {
    if ts == [] then [] else Spell(ts[0]) + SpellAll(ts[1..])
  }

  lemma {:induction false} OnesUnique(m: nat, n: nat, x: seq<Byte>, y: seq<Byte>)
    requires Ones(m) + [END] + x == Ones(n) + [END] + y
    ensures m == n && x == y
  {
    var a, b := Ones(m) + [END] + x, Ones(n) + [END] + y;
    if m == 0 || n == 0 {
      assert a[0] == b[0];
      assert a[1..] == b[1..];
      if m == n {
        assert a[1..] == x && b[1..] == y;
      }
    } else {
      assert a[1..] == Ones(m - 1) + [END] + x;
      assert b[1..] == Ones(n - 1) + [END] + y;
      OnesUnique(m - 1, n - 1, x, y);
    }
  }

  // What begins with a tree begins with no other.
  lemma {:induction false} SpellUnique(t: Tree, u: Tree, x: seq<Byte>, y: seq<Byte>)
    requires Spell(t) + x == Spell(u) + y
    ensures t == u && x == y
    decreases t, 0
  {
    SpellHead(t, x);
    SpellHead(u, y);
    if t.Leaf? && u.Leaf? {
      OnesUnique(t.n, u.n, x, y);
    } else if t.Node? && u.Node? {
      var a, b := Spell(t) + x, Spell(u) + y;
      assert a[1..] == SpellAll(t.children) + ([CLOSE] + x);
      assert b[1..] == SpellAll(u.children) + ([CLOSE] + y);
      AllUnique(t.children, u.children, x, y);
    }
  }

  lemma SpellHead(t: Tree, x: seq<Byte>)
    ensures Spell(t) + x != [] && ((Spell(t) + x)[0] == OPEN <==> t.Node?) && (Spell(t) + x)[0] != CLOSE
  {
  }

  lemma {:induction false} AllUnique(ts: seq<Tree>, us: seq<Tree>, x: seq<Byte>, y: seq<Byte>)
    requires SpellAll(ts) + ([CLOSE] + x) == SpellAll(us) + ([CLOSE] + y)
    ensures ts == us && x == y
    decreases ts, 1
  {
    AllHead(ts, x);
    AllHead(us, y);
    if ts == [] && us == [] {
      assert ([CLOSE] + x)[1..] == x && ([CLOSE] + y)[1..] == y;
      assert SpellAll(ts) + ([CLOSE] + x) == [CLOSE] + x && SpellAll(us) + ([CLOSE] + y) == [CLOSE] + y;
    } else if ts != [] && us != [] {
      var restX, restY := SpellAll(ts[1..]) + ([CLOSE] + x), SpellAll(us[1..]) + ([CLOSE] + y);
      assert SpellAll(ts) + ([CLOSE] + x) == Spell(ts[0]) + restX;
      assert SpellAll(us) + ([CLOSE] + y) == Spell(us[0]) + restY;
      SpellUnique(ts[0], us[0], restX, restY);
      AllUnique(ts[1..], us[1..], x, y);
      assert ts == [ts[0]] + ts[1..] && us == [us[0]] + us[1..];
    }
  }

  lemma AllHead(ts: seq<Tree>, x: seq<Byte>)
    ensures (SpellAll(ts) + ([CLOSE] + x))[0] == CLOSE <==> ts == []
  {
    if ts != [] {
      SpellHead(ts[0], SpellAll(ts[1..]) + ([CLOSE] + x));
      assert SpellAll(ts) + ([CLOSE] + x) == Spell(ts[0]) + (SpellAll(ts[1..]) + ([CLOSE] + x));
    }
  }

  // ---- records as trees ----

  function Text(s: string): Tree {
    Node(seq(|s|, i requires 0 <= i < |s| => Leaf(s[i] as nat)))
  }

  function Numbers(ns: seq<nat>): Tree {
    Node(seq(|ns|, i requires 0 <= i < |ns| => Leaf(ns[i])))
  }

  function Maybe(s: Option<string>): Tree {
    if s.None? then Node([]) else Node([Text(s.value)])
  }

  function OfItem(item: Item): Tree {
    match item
    case Message(role, content) => Node([Leaf(match role case User => 0 case Assistant => 1 case Developer => 2), Text(content)])
    case FunctionCall(callId, name, arguments) => Node([Leaf(3), Text(callId), Text(name), Text(arguments)])
    case FunctionCallOutput(id, output) => Node([Leaf(4), Text(id), Text(output)])
    case ResponseItem(kind, id, name, arguments, rendering) =>
      Node([Leaf(5), Text(kind), Maybe(id), Maybe(name), Maybe(arguments), Text(rendering)])
  }

  function OfItems(items: seq<Item>): Tree {
    Node(seq(|items|, i requires 0 <= i < |items| => OfItem(items[i])))
  }

  function OfMutation(mutation: Mutation): Tree {
    match mutation
    case Unchanged => Leaf(0)
    case Append(items) => Node([Leaf(1), OfItems(items)])
    case Replace(items, reason) => Node([Leaf(if reason == Compaction then 2 else 3), OfItems(items)])
  }

  function OfUsage(u: Usage): Tree {
    Numbers([u.inputTokens, u.outputTokens, u.cachedInputTokens, u.cacheWriteInputTokens, u.hostedSearches])
  }

  function TurnCode(status: TurnStatus): nat {
    match status
    case Queued => 0
    case Running => 1
    case Paused => 2
    case Completed => 3
    case Failed => 4
    case Interrupted => 5
    case Cancelled => 6
  }

  function OfTurn(t: Turn): Tree {
    Node([Numbers([t.id, t.agentId, TurnCode(t.status), t.completedModelSteps]), Text(t.input), Maybe(t.output),
          OfUsage(t.usage), Maybe(t.checkpointMessage), Maybe(t.error)])
  }

  function ActionCode(status: ActionStatus): nat {
    match status
    case Scheduled => 0
    case Running => 1
    case Completed => 2
    case Failed => 3
    case Interrupted => 4
    case Cancelled => 5
  }

  function Turns(t: Option<TurnId>): seq<nat> {
    if t.Some? then [t.value] else []
  }

  function OfAttempt(a: Attempt): Tree {
    Node([Numbers([a.id, a.invocationId, a.number, ActionCode(a.status)]), Numbers(Turns(a.turnId)), Maybe(a.error)])
  }

  function OfRolloutItem(item: RolloutItem): Tree {
    match item
    case TurnCreated(turn, attempt) => Node([Leaf(0), OfTurn(turn), OfAttempt(attempt)])
    case ContextCheckpoint(turnId, mutation, usage, steps, message, ids) =>
      Node([Leaf(1), Numbers([turnId, steps]), OfMutation(mutation), OfUsage(usage), Maybe(message), Numbers(ids)])
    case TurnUpdated(turn, ids) => Node([Leaf(2), OfTurn(turn), Numbers(ids)])
  }

  function OfRecord(r: Record): Tree {
    Node([Numbers([r.version, r.agentId, r.sequence]), OfRolloutItem(r.item)])
  }

  // ---- different records, different trees ----

  lemma TextUnique(s: string, t: string)
    ensures Text(s) == Text(t) ==> s == t
  {
    if Text(s) == Text(t) {
      var a, b := Text(s).children, Text(t).children;
      assert |a| == |s| && |b| == |t|;
      forall i | 0 <= i < |s| ensures s[i] == t[i] {
        assert a[i] == b[i];
      }
    }
  }

  lemma NumbersUnique(ms: seq<nat>, ns: seq<nat>)
    ensures Numbers(ms) == Numbers(ns) ==> ms == ns
  {
    if Numbers(ms) == Numbers(ns) {
      var a, b := Numbers(ms).children, Numbers(ns).children;
      assert |a| == |ms| && |b| == |ns|;
      forall i | 0 <= i < |ms| ensures ms[i] == ns[i] {
        assert a[i] == b[i];
      }
    }
  }

  lemma MaybeUnique(s: Option<string>, t: Option<string>)
    ensures Maybe(s) == Maybe(t) ==> s == t
  {
    hide Text;
    if s.Some? && t.Some? && Maybe(s) == Maybe(t) {
      assert [Text(s.value)][0] == [Text(t.value)][0];
      TextUnique(s.value, t.value);
    }
  }

  lemma ItemUnique(x: Item, y: Item)
    ensures OfItem(x) == OfItem(y) ==> x == y
  {
    hide Text, Maybe;
    if OfItem(x) == OfItem(y) {
      var a, b := OfItem(x).children, OfItem(y).children;
      assert a[0] == b[0] && |a| == |b|;
      match x {
        case Message(_, content) => assert a[1] == b[1]; TextUnique(content, y.content);
        case FunctionCall(callId, name, arguments) =>
          assert a[1] == b[1] && a[2] == b[2] && a[3] == b[3];
          TextUnique(callId, y.callId); TextUnique(name, y.name); TextUnique(arguments, y.arguments);
        case FunctionCallOutput(id, output) =>
          assert a[1] == b[1] && a[2] == b[2];
          TextUnique(id, y.outputId); TextUnique(output, y.output);
        case ResponseItem(kind, id, name, arguments, rendering) =>
          assert a[1] == b[1] && a[2] == b[2] && a[3] == b[3] && a[4] == b[4] && a[5] == b[5];
          TextUnique(kind, y.kind); TextUnique(rendering, y.rendering);
          MaybeUnique(id, y.itemCallId); MaybeUnique(name, y.itemName); MaybeUnique(arguments, y.itemArguments);
      }
    }
  }

  lemma ItemsUnique(xs: seq<Item>, ys: seq<Item>)
    ensures OfItems(xs) == OfItems(ys) ==> xs == ys
  {
    hide OfItem;
    if OfItems(xs) == OfItems(ys) {
      var a, b := OfItems(xs).children, OfItems(ys).children;
      assert |a| == |xs| && |b| == |ys|;
      forall i | 0 <= i < |xs| ensures xs[i] == ys[i] {
        assert a[i] == b[i];
        ItemUnique(xs[i], ys[i]);
      }
    }
  }

  lemma MutationUnique(x: Mutation, y: Mutation)
    ensures OfMutation(x) == OfMutation(y) ==> x == y
  {
    hide OfItems;
    if OfMutation(x) == OfMutation(y) && !x.Unchanged? {
      var a, b := OfMutation(x).children, OfMutation(y).children;
      assert a[0] == b[0] && a[1] == b[1];
      ItemsUnique(x.items, y.items);
    }
  }

  lemma UsageUnique(u: Usage, v: Usage)
    ensures OfUsage(u) == OfUsage(v) ==> u == v
  {
    var a, b := [u.inputTokens, u.outputTokens, u.cachedInputTokens, u.cacheWriteInputTokens, u.hostedSearches],
                [v.inputTokens, v.outputTokens, v.cachedInputTokens, v.cacheWriteInputTokens, v.hostedSearches];
    NumbersUnique(a, b);
    hide Numbers;
    if OfUsage(u) == OfUsage(v) {
      assert a[0] == b[0] && a[1] == b[1] && a[2] == b[2] && a[3] == b[3] && a[4] == b[4];
    }
  }

  lemma FourNumbers(a: nat, b: nat, c: nat, d: nat, a': nat, b': nat, c': nat, d': nat)
    requires Numbers([a, b, c, d]) == Numbers([a', b', c', d'])
    ensures a == a' && b == b' && c == c' && d == d'
  {
    NumbersUnique([a, b, c, d], [a', b', c', d']);
    assert [a, b, c, d][0] == a && [a, b, c, d][1] == b && [a, b, c, d][2] == c && [a, b, c, d][3] == d;
  }

  lemma TurnUnique(x: Turn, y: Turn)
    ensures OfTurn(x) == OfTurn(y) ==> x == y
  {
    hide Text, Maybe, Numbers, OfUsage;
    if OfTurn(x) == OfTurn(y) {
      var a, b := OfTurn(x).children, OfTurn(y).children;
      assert a[0] == b[0] && a[1] == b[1] && a[2] == b[2] && a[3] == b[3] && a[4] == b[4] && a[5] == b[5];
      FourNumbers(x.id, x.agentId, TurnCode(x.status), x.completedModelSteps, y.id, y.agentId, TurnCode(y.status), y.completedModelSteps);
      TextUnique(x.input, y.input);
      MaybeUnique(x.output, y.output);
      UsageUnique(x.usage, y.usage);
      MaybeUnique(x.checkpointMessage, y.checkpointMessage);
      MaybeUnique(x.error, y.error);
    }
  }

  lemma AttemptUnique(x: Attempt, y: Attempt)
    ensures OfAttempt(x) == OfAttempt(y) ==> x == y
  {
    hide Maybe, Numbers;
    if OfAttempt(x) == OfAttempt(y) {
      var a, b := OfAttempt(x).children, OfAttempt(y).children;
      assert a[0] == b[0] && a[1] == b[1] && a[2] == b[2];
      FourNumbers(x.id, x.invocationId, x.number, ActionCode(x.status), y.id, y.invocationId, y.number, ActionCode(y.status));
      NumbersUnique(Turns(x.turnId), Turns(y.turnId));
      MaybeUnique(x.error, y.error);
      assert |Turns(x.turnId)| == |Turns(y.turnId)|;
      if x.turnId.Some? {
        assert Turns(x.turnId)[0] == Turns(y.turnId)[0];
      }
    }
  }

  lemma RolloutItemUnique(x: RolloutItem, y: RolloutItem)
    ensures OfRolloutItem(x) == OfRolloutItem(y) ==> x == y
  {
    hide OfTurn, OfAttempt, Numbers, OfMutation, OfUsage, Maybe;
    if OfRolloutItem(x) == OfRolloutItem(y) {
      var a, b := OfRolloutItem(x).children, OfRolloutItem(y).children;
      assert a[0] == b[0] && a[1] == b[1] && a[2] == b[2];
      match x {
        case TurnCreated(turn, attempt) => TurnUnique(turn, y.turn); AttemptUnique(attempt, y.attempt);
        case TurnUpdated(turn, ids) => TurnUnique(turn, y.turn); NumbersUnique(ids, y.acknowledged);
        case ContextCheckpoint(turnId, mutation, usage, steps, message, ids) =>
          assert a[3] == b[3] && a[4] == b[4] && a[5] == b[5];
          NumbersUnique([turnId, steps], [y.turnId, y.completedModelSteps]);
          assert [turnId, steps][0] == turnId && [turnId, steps][1] == steps;
          MutationUnique(mutation, y.mutation);
          UsageUnique(usage, y.usage);
          MaybeUnique(message, y.checkpointMessage);
          NumbersUnique(ids, y.acknowledged);
      }
    }
  }

  lemma RecordUnique(x: Record, y: Record)
    ensures OfRecord(x) == OfRecord(y) ==> x == y
  {
    hide Numbers, OfRolloutItem;
    if OfRecord(x) == OfRecord(y) {
      var a, b := OfRecord(x).children, OfRecord(y).children;
      assert a[0] == b[0] && a[1] == b[1];
      var m, n := [x.version, x.agentId, x.sequence], [y.version, y.agentId, y.sequence];
      NumbersUnique(m, n);
      assert m[0] == n[0] && m[1] == n[1] && m[2] == n[2];
      RolloutItemUnique(x.item, y.item);
    }
  }

  // ---- the codec ----

  function Encoded(r: Record): seq<Byte> {
    Spell(OfRecord(r))
  }

  ghost function Decoded(bytes: seq<Byte>): Option<Record> {
    if r :| Encoded(r) == bytes then Some(r) else None
  }

  lemma EncodedUnique(x: Record, y: Record, rest: seq<Byte>)
    requires Encoded(x) == Encoded(y) + rest
    ensures x == y && rest == []
  {
    hide Spell, OfRecord;
    assert Spell(OfRecord(x)) + [] == Spell(OfRecord(x));
    SpellUnique(OfRecord(x), OfRecord(y), [], rest);
    RecordUnique(x, y);
  }

  /** The laws asked of the encoding of records can be met. */
  lemma LawfulExists() returns (c: Codec)
    ensures Lawful(c)
  {
    c := Codec(r => Encoded(r), bytes => Decoded(bytes));
    forall r ensures LawfulAt(c, r) {
      LawsHold(r);
    }
  }

  lemma LawsHold(r: Record)
    ensures Encoded(r) != [] && NEWLINE !in Encoded(r) && Decoded(Encoded(r)) == Some(r)
    ensures forall k :: 0 <= k < |Encoded(r)| ==> Decoded(Encoded(r)[..k]) == None
  {
    hide Spell, OfRecord;
    var e := Encoded(r);
    assert e + [] == e;
    forall x | Encoded(x) == e ensures x == r {
      EncodedUnique(r, x, []);
    }
    forall k | 0 <= k < |e| ensures Decoded(e[..k]) == None {
      forall x ensures Encoded(x) != e[..k] {
        if Encoded(x) == e[..k] {
          assert e == e[..k] + e[k..];
          EncodedUnique(r, x, e[k..]);
        }
      }
    }
  }
}
