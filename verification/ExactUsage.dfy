// Charges are exact whenever every log reports growing usage; module RuntimeSafety shows that
// the logs of running agents do.
module ExactUsage {
  import opened Wrappers
  import opened Protocol
  import opened Rollout
  import opened TurnLog
  import opened Charges
  import opened StoreMachine
  import opened StoreInvariant
  import opened StoreRuns
  import opened StoreTheorems

  // Each checkpoint reports at least what the log showed for its Turn before.
  ghost predicate Growing(log: seq<Record>, m: Metric) {
    forall i :: 0 <= i < |log| && log[i].item.ContextCheckpoint? ==> GrowsAt(log, i, m)
  }

  ghost predicate GrowsAt(log: seq<Record>, i: nat, m: Metric)
    requires i < |log| && log[i].item.ContextCheckpoint?
  {
    var st := Reconstruct(log[..i]);
    st.Success? && st.value.active.Some? ==> Get(st.value.active.value.usage, m) <= Get(log[i].item.usage, m)
  }

  lemma {:induction false} ReconstructPrefix(log: seq<Record>, n: nat)
    requires n <= |log| && Reconstruct(log).Success?
    ensures Reconstruct(log[..n]).Success?
  {
    if n < |log| {
      ReconstructPrefix(log[..|log| - 1], n);
      assert log[..|log| - 1][..n] == log[..n];
    } else {
      assert log[..n] == log;
    }
  }

  ghost predicate AllReconstruct(journal: seq<Entry>) {
    forall a :: Reconstruct(EntriesOf(journal, a)).Success?
  }

  lemma AllReconstructBefore(journal: seq<Entry>)
    requires journal != [] && AllReconstruct(journal)
    ensures AllReconstruct(journal[..|journal| - 1])
  {
    var n := |journal| - 1;
    forall a ensures Reconstruct(EntriesOf(journal[..n], a)).Success? {
      var all := EntriesOf(journal, a);
      assert all[..|EntriesOf(journal[..n], a)|] == EntriesOf(journal[..n], a);
      ReconstructPrefix(all, |EntriesOf(journal[..n], a)|);
    }
  }

  ghost predicate CreatedBy(journal: seq<Entry>, k: nat, a: AgentId, t: TurnId) {
    k < |journal| && journal[k].record.agentId == a && TurnLog.Created(journal[k].record, t)
  }

  // The active Turn of an Agent was created by that Agent, and the journal's last usage
  // of it is the one its log shows.
  ghost predicate Tracked(journal: seq<Entry>, a: AgentId) {
    var st := Reconstruct(EntriesOf(journal, a));
    st.Success? && st.value.active.Some? ==>
      var active := st.value.active.value;
      && active.turnId in LastUsage(journal) && LastUsage(journal)[active.turnId] == active.usage
      && exists k :: CreatedBy(journal, k, a, active.turnId)
  }

  lemma OwnRecordTracked(journal: seq<Entry>, e: Entry, a: AgentId)
    requires e.record.agentId == a && EntryOk(journal, e) && Tracked(journal, a)
    requires Reconstruct(EntriesOf(journal, a)).Success?
    ensures Tracked(journal + [e], a)
  {
    EntriesStep(journal, e, a);
    ReconstructAppend(EntriesOf(journal, a), e.record);
    assert (journal + [e])[..|journal|] == journal;
    if e.record.item.TurnCreated? {
      assert CreatedBy(journal + [e], |journal|, a, e.record.item.turn.id);
    } else {
      CreatedStays(journal, e, a);
    }
  }

  lemma CreatedStays(journal: seq<Entry>, e: Entry, a: AgentId)
    ensures forall k, t :: CreatedBy(journal, k, a, t) ==> CreatedBy(journal + [e], k, a, t)
  {
  }

  // Another Agent's record is about another Turn.
  lemma OtherRecordTracked(journal: seq<Entry>, e: Entry, a: AgentId)
    requires e.record.agentId != a && JournalOk(journal) && EntryOk(journal, e)
    requires Tracked(journal, a) && Tracked(journal, e.record.agentId)
    requires Reconstruct(EntriesOf(journal, e.record.agentId)).Success?
    requires Reconstruct(EntriesOf(journal, e.record.agentId) + [e.record]).Success?
    ensures Tracked(journal + [e], a)
  {
    EntriesStep(journal, e, a);
    ReconstructAppend(EntriesOf(journal, e.record.agentId), e.record);
    assert EntriesOf(journal, a) + [] == EntriesOf(journal, a);
    assert (journal + [e])[..|journal|] == journal;
    var st := Reconstruct(EntriesOf(journal, a));
    if st.Success? && st.value.active.Some? {
      var t := st.value.active.value.turnId;
      var k :| CreatedBy(journal, k, a, t);
      assert CreatedBy(journal + [e], k, a, t);
      if e.record.item.ContextCheckpoint? {
        var l :| CreatedBy(journal, l, e.record.agentId, e.record.item.turnId);
        CreatedOnce(journal, k, a, t, l, e.record.agentId, e.record.item.turnId);
      }
    }
  }

  lemma CreatedOnce(journal: seq<Entry>, k: nat, a: AgentId, t: TurnId, l: nat, b: AgentId, u: TurnId)
    requires JournalOk(journal) && CreatedBy(journal, k, a, t) && CreatedBy(journal, l, b, u) && a != b
    ensures t != u
  {
    if k < l {
      OpenedOnce(journal, k, l);
    } else {
      OpenedOnce(journal, l, k);
    }
  }

  lemma {:induction false} AllTracked(journal: seq<Entry>, a: AgentId)
    requires JournalOk(journal) && AllReconstruct(journal)
    ensures Tracked(journal, a)
    decreases |journal|
  {
    if journal != [] {
      var n := |journal| - 1;
      var e := journal[n];
      var b := e.record.agentId;
      hide Tracked, EntryOk, Reconstruct;
      JournalPrefix(journal, n);
      assert EntryOk(journal[..n], e);
      AllReconstructBefore(journal);
      assert journal == journal[..n] + [e];
      AllTracked(journal[..n], a);
      AllTracked(journal[..n], b);
      if a == b {
        OwnRecordTracked(journal[..n], e, a);
      } else {
        EntriesStep(journal[..n], e, b);
        OtherRecordTracked(journal[..n], e, a);
      }
    }
  }

  // A checkpoint of the active Turn drops nothing when it reports no less than the log shows.
  lemma GrowthDropsNothing(journal: seq<Entry>, e: Entry, s: SessionId, m: Metric, st: State, st': State)
    requires e.record.item.ContextCheckpoint? && Tracked(journal, e.record.agentId)
    requires Reconstruct(EntriesOf(journal, e.record.agentId)) == Success(st) && ApplyRecord(st, e.record.item) == Success(st')
    requires st.active.Some? ==> Get(st.active.value.usage, m) <= Get(e.record.item.usage, m)
    ensures Drop(journal, e, s, m) == 0
  {
    hide EntriesOf, Reconstruct, LastUsage;
  }

  // A checkpoint drops nothing when the log it extends was growing.
  lemma CheckpointDropsNothing(journal: seq<Entry>, i: nat, s: SessionId, m: Metric)
    requires i < |journal| && JournalOk(journal) && AllReconstruct(journal)
    requires forall a :: Growing(EntriesOf(journal, a), m)
    ensures Drop(journal[..i], journal[i], s, m) == 0
  {
    hide EntriesOf, JournalOk, Tracked, AllReconstruct, Growing, Reconstruct, ApplyRecord, Drop, LastUsage;
    var e := journal[i];
    if e.record.item.ContextCheckpoint? {
      var a := e.record.agentId;
      JournalPrefix(journal, i);
      AllReconstructAt(journal, i);
      AllTracked(journal[..i], a);
      ReconstructIn(journal, a);
      var j := EntryAt(journal, i, a);
      var log := EntriesOf(journal, a);
      ReconstructPrefix(log, j + 1);
      ReconstructPrefix(log, j);
      assert log[..j + 1] == log[..j] + [log[j]];
      ReconstructAppend(log[..j], log[j]);
      GrowsIn(log, j, m);
      GrowthDropsNothing(journal[..i], e, s, m, Reconstruct(log[..j]).value, Reconstruct(log[..j + 1]).value);
    } else {
      DropsNothing(journal[..i], e, s, m);
    }
  }

  lemma DropsNothing(journal: seq<Entry>, e: Entry, s: SessionId, m: Metric)
    requires !e.record.item.ContextCheckpoint?
    ensures Drop(journal, e, s, m) == 0
  {
  }

  lemma ReconstructIn(journal: seq<Entry>, a: AgentId)
    requires AllReconstruct(journal)
    ensures Reconstruct(EntriesOf(journal, a)).Success?
  {
  }

  lemma GrowsIn(log: seq<Record>, j: nat, m: Metric)
    requires Growing(log, m) && j < |log| && log[j].item.ContextCheckpoint? && Reconstruct(log[..j]).Success?
    ensures var active := Reconstruct(log[..j]).value.active; active.Some? ==> Get(active.value.usage, m) <= Get(log[j].item.usage, m)
  {
    assert GrowsAt(log, j, m);
  }

  lemma {:induction false} AllReconstructAt(journal: seq<Entry>, i: nat)
    requires i <= |journal| && AllReconstruct(journal)
    ensures AllReconstruct(journal[..i])
    decreases |journal|
  {
    hide Reconstruct, AllReconstruct;
    if i < |journal| {
      AllReconstructBefore(journal);
      AllReconstructAt(journal[..|journal| - 1], i);
      assert journal[..|journal| - 1][..i] == journal[..i];
    } else {
      assert journal[..i] == journal;
    }
  }

  // Where the i-th entry stands in its Agent's log.
  lemma {:induction false} EntryAt(journal: seq<Entry>, i: nat, a: AgentId) returns (j: nat)
    requires i < |journal| && journal[i].record.agentId == a
    ensures j < |EntriesOf(journal, a)| && EntriesOf(journal, a)[j] == journal[i].record
    ensures EntriesOf(journal, a)[..j] == EntriesOf(journal[..i], a)
  {
    var n := |journal| - 1;
    if i < n {
      j := EntryAt(journal[..n], i, a);
      assert journal[..n][..i] == journal[..i];
    } else {
      j := |EntriesOf(journal[..n], a)|;
    }
  }

  lemma JournalIn(w: World)
    requires Inv(w)
    ensures JournalOk(w.journal) && AllReconstruct(w.journal)
    ensures forall a :: EntriesOf(w.journal, a) <= LogOf(w, a)
  {
    assert JournalMatches(w);
    forall a ensures Reconstruct(EntriesOf(w.journal, a)).Success? && EntriesOf(w.journal, a) <= LogOf(w, a) {
      assert EntriesOf(w.journal, a) == Seen(w, a);
      if a in w.logs {
        assert LogOk(a, w.logs[a]);
        ReconstructPrefix(w.logs[a], Projected(w.db, a));
      }
    }
  }

  lemma GrowingPrefix(log: seq<Record>, prefix: seq<Record>, m: Metric)
    requires Growing(log, m) && prefix <= log
    ensures Growing(prefix, m)
  {
    forall i | 0 <= i < |prefix| && prefix[i].item.ContextCheckpoint? ensures GrowsAt(prefix, i, m) {
      assert GrowsAt(log, i, m);
      assert prefix[..i] == log[..i];
    }
  }

  // If no log ever reports less usage for a Turn than before, a Session's counter is, up
  // to its width, exactly the usage reported elsewhere plus what each of its Turns last
  // checkpointed.
  lemma GrowingIsExact(steps: seq<Step>, s: SessionId, m: Metric)
    requires s in Run(START, steps).db.sessions
    requires forall a :: Growing(LogOf(Run(START, steps), a), m)
    ensures var w := Run(START, steps);
            Get(w.db.sessions[s].usage, m) ==
              Min(Limit(m), Total(w.external, s, m) + SumValues(Balances(w.journal, s, m)))
  {
    hide Inv, Run, Drop, JournalOk, AllReconstruct, Growing, EntriesOf, Balances, Dropped;
    Reachable(steps);
    var w := Run(START, steps);
    JournalIn(w);
    forall a ensures Growing(EntriesOf(w.journal, a), m) {
      GrowingPrefix(LogOf(w, a), EntriesOf(w.journal, a), m);
    }
    forall i | 0 <= i < |w.journal| ensures Drop(w.journal[..i], w.journal[i], s, m) == 0 {
      CheckpointDropsNothing(w.journal, i, s, m);
    }
    assert NonDecreasing(w.journal, s, m);
    UsageConserved(steps, s, m);
  }
}
