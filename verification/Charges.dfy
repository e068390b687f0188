// What a history of projected records charges to Sessions.
module Charges {
  import opened Wrappers
  import opened Protocol

  // A projected record and the Session its Agent belongs to.
  datatype Entry = Entry(sessionId: SessionId, record: Record)

  // The usage each Turn last checkpointed.
  function LastUsage(journal: seq<Entry>): map<TurnId, Usage> {
    if journal == [] then map[] else
      var earlier := LastUsage(journal[..|journal| - 1]);
      match journal[|journal| - 1].record.item
      case TurnCreated(turn, _) => earlier[turn.id := turn.usage]
      case ContextCheckpoint(turnId, _, usage, _, _, _) => earlier[turnId := usage]
      case TurnUpdated(_, _) => earlier
  }

  function UsageBefore(journal: seq<Entry>, turnId: TurnId): Usage {
    if turnId in LastUsage(journal) then LastUsage(journal)[turnId] else NO_USAGE
  }

  // What one more entry adds to a Session's counter, and what it fails to take back.
  function Charge(journal: seq<Entry>, e: Entry, s: SessionId, m: Metric): nat {
    if e.sessionId == s && e.record.item.ContextCheckpoint?
    then Minus(Get(e.record.item.usage, m), Get(UsageBefore(journal, e.record.item.turnId), m)) else 0
  }

  function Drop(journal: seq<Entry>, e: Entry, s: SessionId, m: Metric): nat {
    if e.sessionId == s && e.record.item.ContextCheckpoint?
    then Minus(Get(UsageBefore(journal, e.record.item.turnId), m), Get(e.record.item.usage, m)) else 0
  }

  function Charged(journal: seq<Entry>, s: SessionId, m: Metric): nat {
    if journal == [] then 0 else
      var n := |journal| - 1;
      Charged(journal[..n], s, m) + Charge(journal[..n], journal[n], s, m)
  }

  function Dropped(journal: seq<Entry>, s: SessionId, m: Metric): nat {
    if journal == [] then 0 else
      var n := |journal| - 1;
      Dropped(journal[..n], s, m) + Drop(journal[..n], journal[n], s, m)
  }

  // Each Turn of a Session with the counter it last checkpointed.
  function Balances(journal: seq<Entry>, s: SessionId, m: Metric): map<TurnId, nat> {
    if journal == [] then map[] else
      var n := |journal| - 1;
      var earlier := Balances(journal[..n], s, m);
      var e := journal[n];
      if e.sessionId != s then earlier else
      match e.record.item
      case TurnCreated(turn, _) => earlier[turn.id := Get(turn.usage, m)]
      case ContextCheckpoint(turnId, _, usage, _, _, _) => earlier[turnId := Get(usage, m)]
      case TurnUpdated(_, _) => earlier
  }

  // A Turn is created once, with no usage, and is checkpointed in its own Session.
  ghost predicate JournalOk(journal: seq<Entry>) {
    forall i :: 0 <= i < |journal| ==> EntryOk(journal[..i], journal[i])
  }

  ghost predicate EntryOk(journal: seq<Entry>, e: Entry) {
    match e.record.item
    case TurnCreated(turn, _) => turn.id !in LastUsage(journal) && turn.usage == NO_USAGE
    case ContextCheckpoint(turnId, _, _, _, _, _) => exists i :: 0 <= i < |journal| && Opens(journal[i], turnId, e.sessionId)
    case TurnUpdated(_, _) => true
  }

  ghost predicate Opens(e: Entry, turnId: TurnId, s: SessionId) {
    e.sessionId == s && e.record.item.TurnCreated? && e.record.item.turn.id == turnId
  }

  lemma JournalAppend(journal: seq<Entry>, e: Entry)
    requires JournalOk(journal) && EntryOk(journal, e)
    ensures JournalOk(journal + [e])
  {
    forall i | 0 <= i < |journal + [e]| ensures EntryOk((journal + [e])[..i], (journal + [e])[i]) {
      assert (journal + [e])[..i] == journal[..i];
      assert journal[..|journal|] == journal;
    }
  }

  lemma {:induction false} LastUsageCovers(journal: seq<Entry>, i: nat)
    requires JournalOk(journal) && i < |journal| && journal[i].record.item.TurnCreated?
    ensures journal[i].record.item.turn.id in LastUsage(journal)
  {
    var n := |journal| - 1;
    if i < n {
      JournalPrefix(journal, n);
      LastUsageCovers(journal[..n], i);
    }
  }

  lemma JournalPrefix(journal: seq<Entry>, n: nat)
    requires JournalOk(journal) && n <= |journal|
    ensures JournalOk(journal[..n])
  {
    forall i | 0 <= i < n ensures EntryOk(journal[..n][..i], journal[..n][i]) {
      assert journal[..n][..i] == journal[..i];
    }
  }

  // A Session's balances and the global last usages are the same numbers.
  lemma {:induction false} BalanceIsLastUsage(journal: seq<Entry>, s: SessionId, m: Metric, i: nat)
    requires JournalOk(journal) && i < |journal| && journal[i].record.item.TurnCreated?
    ensures var t := journal[i].record.item.turn.id;
            && t in LastUsage(journal)
            && (journal[i].sessionId == s ==>
                  t in Balances(journal, s, m) && Balances(journal, s, m)[t] == Get(LastUsage(journal)[t], m))
            && (journal[i].sessionId != s ==> t !in Balances(journal, s, m))
  {
    hide Get;
    var n := |journal| - 1;
    var t := journal[i].record.item.turn.id;
    var e := journal[n];
    JournalPrefix(journal, n);
    assert EntryOk(journal[..n], e);
    if i < n {
      BalanceIsLastUsage(journal[..n], s, m, i);
      if e.record.item.ContextCheckpoint? && e.record.item.turnId == t {
        var j :| 0 <= j < n && Opens(journal[j], t, e.sessionId);
        if i < j {
          OpenedOnce(journal, i, j);
        } else if j < i {
          OpenedOnce(journal, j, i);
        }
      }
    } else {
      NotYetOpened(journal[..n], s, m, t);
    }
  }

  lemma {:induction false} NotYetOpened(journal: seq<Entry>, s: SessionId, m: Metric, t: TurnId)
    requires t !in LastUsage(journal)
    ensures t !in Balances(journal, s, m)
  {
    if journal != [] {
      NotYetOpened(journal[..|journal| - 1], s, m, t);
    }
  }

  lemma OpenedOnce(journal: seq<Entry>, i: nat, j: nat)
    requires JournalOk(journal) && i < j < |journal|
    requires journal[i].record.item.TurnCreated? && journal[j].record.item.TurnCreated?
    ensures journal[i].record.item.turn.id != journal[j].record.item.turn.id
  {
    JournalPrefix(journal, j);
    assert EntryOk(journal[..j], journal[j]);
    LastUsageCovers(journal[..j], i);
  }

  lemma BalanceStep(journal: seq<Entry>, e: Entry, s: SessionId, m: Metric)
    requires JournalOk(journal) && EntryOk(journal, e)
    ensures SumValues(Balances(journal + [e], s, m)) + Drop(journal, e, s, m) ==
            SumValues(Balances(journal, s, m)) + Charge(journal, e, s, m)
  {
    var earlier := Balances(journal, s, m);
    assert (journal + [e])[..|journal|] == journal;
    if e.sessionId == s {
      match e.record.item {
        case TurnCreated(turn, _) =>
          NotYetOpened(journal, s, m, turn.id);
          SumUpdate(earlier, turn.id, 0);
          assert Balances(journal + [e], s, m) == earlier[turn.id := 0];
        case ContextCheckpoint(turnId, _, usage, _, _, _) =>
          var i :| 0 <= i < |journal| && Opens(journal[i], turnId, s);
          BalanceIsLastUsage(journal, s, m, i);
          SumUpdate(earlier, turnId, Get(usage, m));
        case TurnUpdated(_, _) =>
      }
    }
  }

  // Conservation: what was charged is exactly what the Turns of the Session last
  // checkpointed, plus everything a checkpoint ever reported less than the one before.
  lemma {:induction false} ChargesBalance(journal: seq<Entry>, s: SessionId, m: Metric)
    requires JournalOk(journal)
    ensures Charged(journal, s, m) == SumValues(Balances(journal, s, m)) + Dropped(journal, s, m)
  {
    if journal == [] {
      assert Balances(journal, s, m) == map[];
    } else {
      var n := |journal| - 1;
      JournalPrefix(journal, n);
      ChargesBalance(journal[..n], s, m);
      assert EntryOk(journal[..n], journal[n]);
      assert journal == journal[..n] + [journal[n]];
      BalanceStep(journal[..n], journal[n], s, m);
      hide Balances, EntryOk, Charge, Drop;
    }
  }

  // No counter of the Session ever went down between two checkpoints of one Turn.
  ghost predicate NonDecreasing(journal: seq<Entry>, s: SessionId, m: Metric) {
    forall i :: 0 <= i < |journal| ==> Drop(journal[..i], journal[i], s, m) == 0
  }

  lemma {:induction false} DroppedNothing(journal: seq<Entry>, s: SessionId, m: Metric)
    ensures Dropped(journal, s, m) == 0 <==> NonDecreasing(journal, s, m)
  {
    if journal != [] {
      var n := |journal| - 1;
      DroppedNothing(journal[..n], s, m);
      forall i | 0 <= i < n ensures journal[..n][..i] == journal[..i] && journal[..n][i] == journal[i] {
      }
      if NonDecreasing(journal, s, m) {
        forall i | 0 <= i < n ensures Drop(journal[..n][..i], journal[..n][i], s, m) == 0 {
          assert Drop(journal[..i], journal[i], s, m) == 0;
        }
      }
      if Dropped(journal, s, m) == 0 {
        forall i | 0 <= i < |journal| ensures Drop(journal[..i], journal[i], s, m) == 0 {
          if i < n {
            assert Drop(journal[..n][..i], journal[..n][i], s, m) == 0;
          }
        }
      }
    }
  }

  // Charges equal the last checkpointed usages exactly when no counter went down.
  lemma ChargesAreExact(journal: seq<Entry>, s: SessionId, m: Metric)
    requires JournalOk(journal)
    ensures Charged(journal, s, m) == SumValues(Balances(journal, s, m)) <==> NonDecreasing(journal, s, m)
  {
    ChargesBalance(journal, s, m);
    DroppedNothing(journal, s, m);
  }
}
