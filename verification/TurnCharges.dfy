// A Session's balances, read off the Turn table: when a Turn's row always shows what its
// checkpoints reported, what a Session was charged is the sum over the rows of its Turns.
module TurnCharges {
  import opened Wrappers
  import opened Protocol
  import opened Rollout
  import opened Tables
  import Lifecycle
  import Projection
  import opened TurnLog
  import opened Charges
  import opened StoreMachine
  import opened StoreInvariant
  import opened ExactUsage

  // A status update repeats the usage the log shows for its Turn.
  ghost predicate Faithful(log: seq<Record>) {
    forall i :: 0 <= i < |log| && log[i].item.TurnUpdated? ==> FaithfulAt(Reconstruct(log[..i]), log[i].item)
  }

  ghost predicate FaithfulAt(st: Result<State>, item: RolloutItem) {
    item.TurnUpdated? && st.Success? && st.value.active.Some? ==> item.turn.usage == st.value.active.value.usage
  }

  lemma FaithfulAppend(log: seq<Record>, r: Record)
    ensures Faithful(log + [r]) <==> Faithful(log) && FaithfulAt(Reconstruct(log), r.item)
  {
    hide Reconstruct;
    var log' := log + [r];
    forall i | 0 <= i < |log| ensures log'[..i] == log[..i] && log'[i] == log[i] {
    }
    assert log'[..|log|] == log && log'[|log|] == r;
    if Faithful(log') {
      forall i | 0 <= i < |log| && log[i].item.TurnUpdated? ensures FaithfulAt(Reconstruct(log[..i]), log[i].item) {
        assert FaithfulAt(Reconstruct(log'[..i]), log'[i].item);
      }
    }
  }

  lemma FaithfulPrefix(log: seq<Record>, prefix: seq<Record>)
    requires Faithful(log) && prefix <= log
    ensures Faithful(prefix)
  {
    hide Reconstruct;
    forall i | 0 <= i < |prefix| && prefix[i].item.TurnUpdated? ensures FaithfulAt(Reconstruct(prefix[..i]), prefix[i].item) {
      assert prefix[..i] == log[..i];
    }
  }

  // ---- rows and the journal ----

  ghost predicate RowCharged(journal: seq<Entry>, a: AgentId, t: TurnId, turn: Turn) {
    && t in LastUsage(journal) && LastUsage(journal)[t] == turn.usage
    && exists k :: CreatedBy(journal, k, a, t)
  }

  // The rows of an Agent's records show the usage the journal last saw.
  ghost predicate RowsCharged(journal: seq<Entry>, a: AgentId) {
    var rows := Rows(EntriesOf(journal, a));
    forall t :: t in rows ==> RowCharged(journal, a, t, rows[t])
  }

  lemma CreatedLonger(journal: seq<Entry>, e: Entry, a: AgentId, t: TurnId)
    requires exists k :: CreatedBy(journal, k, a, t)
    ensures exists k :: CreatedBy(journal + [e], k, a, t)
  {
    var k :| CreatedBy(journal, k, a, t);
    assert CreatedBy(journal + [e], k, a, t);
  }

  lemma OwnRowsCharged(journal: seq<Entry>, e: Entry, a: AgentId)
    requires e.record.agentId == a && RowsCharged(journal, a) && Tracked(journal, a)
    requires Reconstruct(EntriesOf(journal, a)).Success? && Reconstruct(EntriesOf(journal, a) + [e.record]).Success?
    requires FaithfulAt(Reconstruct(EntriesOf(journal, a)), e.record.item)
    ensures RowsCharged(journal + [e], a)
  {
    hide Mutate, EntriesOf, Reconstruct, Rows;
    EntriesStep(journal, e, a);
    RowsAppend(EntriesOf(journal, a), e.record);
    ReconstructAppend(EntriesOf(journal, a), e.record);
    assert (journal + [e])[..|journal|] == journal;
    var rows, rows' := Rows(EntriesOf(journal, a)), Rows(EntriesOf(journal + [e], a));
    forall t | t in rows' ensures RowCharged(journal + [e], a, t, rows'[t]) {
      if e.record.item.TurnCreated? && t == e.record.item.turn.id {
        assert CreatedBy(journal + [e], |journal|, a, t);
      } else {
        assert t in rows ==> RowCharged(journal, a, t, rows[t]);
        CreatedLonger(journal, e, a, t);
      }
    }
  }

  // A record of another Agent is about another Turn.
  lemma OtherRowsCharged(journal: seq<Entry>, e: Entry, a: AgentId)
    requires e.record.agentId != a && JournalOk(journal) && EntryOk(journal, e) && RowsCharged(journal, a)
    requires Tracked(journal, e.record.agentId) && Reconstruct(EntriesOf(journal, e.record.agentId)).Success?
    requires Reconstruct(EntriesOf(journal, e.record.agentId) + [e.record]).Success?
    ensures RowsCharged(journal + [e], a)
  {
    hide Rows, CreatedBy, Mutate;
    EntriesStep(journal, e, a);
    ReconstructAppend(EntriesOf(journal, e.record.agentId), e.record);
    assert EntriesOf(journal, a) + [] == EntriesOf(journal, a);
    assert (journal + [e])[..|journal|] == journal;
    var rows := Rows(EntriesOf(journal, a));
    forall t | t in rows ensures RowCharged(journal + [e], a, t, rows[t]) {
      assert RowCharged(journal, a, t, rows[t]);
      CreatedLonger(journal, e, a, t);
      if e.record.item.ContextCheckpoint? {
        var k :| CreatedBy(journal, k, a, t);
        var l :| CreatedBy(journal, l, e.record.agentId, e.record.item.turnId);
        CreatedOnce(journal, k, a, t, l, e.record.agentId, e.record.item.turnId);
      }
    }
  }

  lemma {:induction false} AllRowsCharged(journal: seq<Entry>, a: AgentId)
    requires JournalOk(journal) && AllReconstruct(journal)
    requires forall b :: Faithful(EntriesOf(journal, b))
    ensures RowsCharged(journal, a)
    decreases |journal|
  {
    if journal != [] {
      var n := |journal| - 1;
      var e := journal[n];
      var b := e.record.agentId;
      hide Tracked, EntryOk, Reconstruct, Faithful, RowsCharged, EntriesOf, FaithfulAt;
      JournalPrefix(journal, n);
      assert EntryOk(journal[..n], e);
      AllReconstructBefore(journal);
      assert journal == journal[..n] + [e];
      AllTracked(journal[..n], b);
      forall c ensures Faithful(EntriesOf(journal[..n], c)) {
        EntriesStep(journal[..n], e, c);
        FaithfulPrefix(EntriesOf(journal, c), EntriesOf(journal[..n], c));
      }
      AllRowsCharged(journal[..n], a);
      EntriesStep(journal[..n], e, b);
      FaithfulAppend(EntriesOf(journal[..n], b), e.record);
      if a == b {
        OwnRowsCharged(journal[..n], e, a);
      } else {
        OtherRowsCharged(journal[..n], e, a);
      }
    }
  }

  // ---- balances ----

  lemma {:induction false} BalanceOpened(journal: seq<Entry>, s: SessionId, m: Metric, t: TurnId) returns (k: nat)
    requires JournalOk(journal) && t in Balances(journal, s, m)
    ensures k < |journal| && Opens(journal[k], t, s)
  {
    var n := |journal| - 1;
    JournalPrefix(journal, n);
    assert EntryOk(journal[..n], journal[n]);
    if t in Balances(journal[..n], s, m) {
      k := BalanceOpened(journal[..n], s, m, t);
    } else if journal[n].record.item.TurnCreated? {
      k := n;
    } else {
      var i :| 0 <= i < |journal[..n]| && Opens(journal[..n][i], t, s);
      k := i;
    }
  }

  lemma {:induction false} OpenedRow(journal: seq<Entry>, k: nat)
    requires k < |journal| && journal[k].record.item.TurnCreated?
    ensures journal[k].record.item.turn.id in Rows(EntriesOf(journal, journal[k].record.agentId))
  {
    var n := |journal| - 1;
    var a := journal[k].record.agentId;
    assert journal == journal[..n] + [journal[n]];
    EntriesStep(journal[..n], journal[n], a);
    RowsAppend(EntriesOf(journal[..n], a), journal[n].record);
    if k < n {
      OpenedRow(journal[..n], k);
      assert EntriesOf(journal[..n], a) + [] == EntriesOf(journal[..n], a);
    }
  }

  /** What the rows of a Session's Turns show. */
  ghost function TurnUsages(db: Tables, s: SessionId, m: Metric): map<TurnId, nat> {
    map t | t in db.turns && db.turns[t].agentId in db.agents && db.agents[db.turns[t].agentId] == s :: Get(db.turns[t].usage, m)
  }

  lemma RowsIn(w: World, a: AgentId)
    requires Inv(w)
    ensures RowsOf(w.db.turns, a) == Rows(EntriesOf(w.journal, a)) && EntriesOf(w.journal, a) <= LogOf(w, a)
  {
    hide Lifecycle.Ok, AccountsOk, DeliveryOk, Projection.Ready;
    assert EntriesOf(w.journal, a) == Seen(w, a);
  }

  lemma KnownIn(w: World, k: nat)
    requires Inv(w) && k < |w.journal|
    ensures EntryKnown(w.db, w.journal[k])
  {
    hide Lifecycle.Ok, ProjectionOk, DeliveryOk, Projection.Ready;
  }

  lemma BalancesAreRows(w: World, s: SessionId, m: Metric)
    requires Inv(w) && forall a :: Faithful(LogOf(w, a))
    ensures Balances(w.journal, s, m) == TurnUsages(w.db, s, m)
  {
    hide Inv, Faithful, LogOf, EntriesOf, Rows, JournalOk, AllReconstruct, Balances;
    JournalIn(w);
    forall a ensures Faithful(EntriesOf(w.journal, a)) {
      FaithfulPrefix(LogOf(w, a), EntriesOf(w.journal, a));
    }
    var balances, usages := Balances(w.journal, s, m), TurnUsages(w.db, s, m);
    forall t | t in usages ensures t in balances && balances[t] == usages[t] {
      var a := w.db.turns[t].agentId;
      AllRowsCharged(w.journal, a);
      RowsIn(w, a);
      assert t in RowsOf(w.db.turns, a);
      assert RowCharged(w.journal, a, t, w.db.turns[t]);
      var k :| CreatedBy(w.journal, k, a, t);
      KnownIn(w, k);
      BalanceIsLastUsage(w.journal, s, m, k);
    }
    forall t | t in balances ensures t in usages {
      var k := BalanceOpened(w.journal, s, m, t);
      KnownIn(w, k);
      OpenedRow(w.journal, k);
      RowsIn(w, w.journal[k].record.agentId);
    }
  }
}
