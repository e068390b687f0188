// The invariant of the store machine, and its preservation when one record is projected.
module StoreInvariant {
  import opened Wrappers
  import opened Protocol
  import opened Tables
  import opened Lifecycle
  import opened Projection
  import opened TurnLog
  import opened Charges
  import opened StoreMachine

  // ---- the invariant ----

  ghost predicate LogsOk(w: World) {
    forall a :: a in w.logs ==> a in w.db.agents && LogOk(a, w.logs[a])
  }

  ghost predicate BoundsOk(w: World) {
    && (forall a :: a in w.db.projected ==> a in w.db.agents)
    && (forall a :: Projected(w.db, a) <= |LogOf(w, a)|)
  }

  ghost predicate CacheOk(w: World) {
    forall a :: a in w.cache ==> w.cache[a] == |LogOf(w, a)| && Projected(w.db, a) == |LogOf(w, a)|
  }

  // The records of an Agent that have been projected.
  function Seen(w: World, a: AgentId): seq<Record>
    requires Projected(w.db, a) <= |LogOf(w, a)|
  {
    LogOf(w, a)[..Projected(w.db, a)]
  }

  function RowsOf(turns: map<TurnId, Turn>, a: AgentId): map<TurnId, Turn> {
    map t | t in turns && turns[t].agentId == a :: turns[t]
  }

  function EntriesOf(journal: seq<Entry>, a: AgentId): seq<Record> {
    if journal == [] then [] else
      var n := |journal| - 1;
      EntriesOf(journal[..n], a) + (if journal[n].record.agentId == a then [journal[n].record] else [])
  }

  // The Turn table is the fold of the projected records, each projected exactly once
  // and in order.
  ghost predicate RowsMatch(w: World)
    requires BoundsOk(w)
  {
    forall a :: RowsOf(w.db.turns, a) == Rows(Seen(w, a))
  }

  ghost predicate JournalMatches(w: World)
    requires BoundsOk(w)
  {
    forall a :: EntriesOf(w.journal, a) == Seen(w, a)
  }

  ghost predicate Counted(db: Tables, journal: seq<Entry>, t: TurnId) {
    && t in db.turns && db.turns[t].agentId in db.agents
    && t in LastUsage(journal) && db.turns[t].usage == LastUsage(journal)[t]
    && exists i :: 0 <= i < |journal| && Opens(journal[i], t, db.agents[db.turns[t].agentId])
  }

  ghost predicate LiveTurnsCounted(db: Tables, journal: seq<Entry>) {
    && (forall t :: t in db.turns && !db.turns[t].status.Terminal() ==> Counted(db, journal, t))
    && (forall t :: t in LastUsage(journal) ==> t in db.turns)
  }

  ghost predicate EntriesKnown(db: Tables, journal: seq<Entry>) {
    forall i :: 0 <= i < |journal| ==> EntryKnown(db, journal[i])
  }

  // An entry is charged to the Session its Agent belongs to.
  ghost predicate EntryKnown(db: Tables, e: Entry) {
    && e.sessionId in db.sessions
    && e.record.agentId in db.agents && db.agents[e.record.agentId] == e.sessionId
  }

  // A Session's counter is everything charged to it, cut off at the counter's width.
  ghost predicate UsageExact(sessions: map<SessionId, Session>, external: map<SessionId, Usage>, journal: seq<Entry>,
                             s: SessionId, m: Metric) {
    s in sessions ==> Get(sessions[s].usage, m) == Min(Limit(m), Total(external, s, m) + Charged(journal, s, m))
  }

  ghost predicate UsageOk(sessions: map<SessionId, Session>, external: map<SessionId, Usage>, journal: seq<Entry>) {
    && external.Keys <= sessions.Keys
    && forall s, m :: UsageExact(sessions, external, journal, s, m)
  }

  ghost predicate AllApplied(inputs: map<InputId, AgentInput>, ids: seq<InputId>) {
    forall id :: id in ids ==> id in inputs && inputs[id].status == Applied
  }

  ghost predicate AcknowledgedApplied(inputs: map<InputId, AgentInput>, journal: seq<Entry>) {
    forall i :: 0 <= i < |journal| ==> AllApplied(inputs, Acknowledged(journal[i].record.item))
  }

  ghost predicate Disjoint(ids: seq<InputId>, ids': seq<InputId>) {
    forall id :: id in ids ==> id !in ids'
  }

  // No input is acknowledged twice, neither by one record nor by two.
  ghost predicate AcknowledgedOnce(journal: seq<Entry>) {
    && (forall i :: 0 <= i < |journal| ==> Distinct(Acknowledged(journal[i].record.item)))
    && (forall i, j :: 0 <= i < j < |journal| ==>
          Disjoint(Acknowledged(journal[i].record.item), Acknowledged(journal[j].record.item)))
  }

  ghost predicate ProjectionOk(w: World) {
    LogsOk(w) && BoundsOk(w) && CacheOk(w) && RowsMatch(w) && JournalMatches(w)
  }

  ghost predicate AccountsOk(w: World) {
    JournalOk(w.journal) && EntriesKnown(w.db, w.journal) && LiveTurnsCounted(w.db, w.journal)
    && UsageOk(w.db.sessions, w.external, w.journal)
  }

  ghost predicate DeliveryOk(w: World) {
    AcknowledgedApplied(w.db.inputs, w.journal) && AcknowledgedOnce(w.journal)
  }

  ghost predicate Core(w: World) {
    Ok(w.db) && ProjectionOk(w) && AccountsOk(w) && DeliveryOk(w)
  }

  // At most one record is waiting, and only while the store is closed; it is ready.
  ghost predicate Waiting(w: World, a: AgentId) {
    Projected(w.db, a) < |LogOf(w, a)|
  }

  ghost predicate WaitingOk(w: World, a: AgentId) {
    Waiting(w, a) ==>
      && !w.live && a in w.logs
      && |LogOf(w, a)| == Projected(w.db, a) + 1
      && Ready(w.db, LogOf(w, a)[Projected(w.db, a)])
  }

  ghost predicate Inv(w: World) {
    && Core(w)
    && (forall a :: WaitingOk(w, a))
    && (forall a, b :: Waiting(w, a) && Waiting(w, b) ==> a == b)
  }

  // ---- one record projected ----

  // Projecting the next record of an Agent, as commit and replay both do.
  function ProjectNext(w: World, a: AgentId): Result<World>
    requires Projected(w.db, a) < |LogOf(w, a)|
  {
    var p := Projected(w.db, a);
    var w' :- ProjectOne(w, LogOf(w, a)[p]);
    Success(w'.(db := SetProjected(w'.db, a, p + 1)))
  }

  // What projection does to Turns and Sessions, without its checks and its inputs.
  ghost predicate Effect(db: Tables, r: Record, db': Tables) {
    && db'.agents == db.agents && db'.projected == db.projected
    && match r.item
       case TurnCreated(turn, _) => db'.turns == db.turns[turn.id := turn] && db'.sessions == db.sessions
       case TurnUpdated(turn, _) => db'.turns == db.turns[turn.id := turn] && db'.sessions == db.sessions
       case ContextCheckpoint(t, _, _, _, _, _) =>
         && t in db.turns && db'.turns == db.turns[t := Checkpointed(db.turns[t], r.item)]
         && db.turns[t].agentId in db.agents && db.agents[db.turns[t].agentId] in db.sessions
         && var s := db.agents[db.turns[t].agentId];
            db'.sessions == db.sessions[s := ChargedSession(db.sessions[s], r.item.usage, db.turns[t].usage)]
  }

  function ChargedSession(session: Session, usage: Usage, previous: Usage): Session {
    session.(usage := SaturatingAdd(session.usage, SaturatingSub(usage, previous)))
  }

  lemma ProjectEffect(db: Tables, r: Record)
    requires Project(db, r).Success?
    ensures Effect(db, r, Project(db, r).value)
  {
    hide Acknowledge, Release, SaturatingAdd, SaturatingSub, Checkpointed;
    match r.item
    case TurnCreated(_, _) =>
    case ContextCheckpoint(_, _, _, _, _, _) =>
    case TurnUpdated(_, _) =>
  }

  // The world after projecting r, given what projection made of the tables.
  function After(w: World, r: Record, db': Tables): World {
    w.(db := SetProjected(db', r.agentId, Projected(w.db, r.agentId) + 1),
       journal := w.journal + [Entry(if r.agentId in w.db.agents then w.db.agents[r.agentId] else 0, r)])
  }

  lemma RowsStep(db: Tables, r: Record, db': Tables, b: AgentId)
    requires TurnsOk(db.turns, db.agents) && Ready(db, r) && Effect(db, r, db')
    ensures RowsOf(db'.turns, b) ==
            if b == r.agentId then NextRows(RowsOf(db.turns, b), r.item) else RowsOf(db.turns, b)
  {
    var t := ItemTurn(r.item);
    assert t in db'.turns && db'.turns[t].agentId == r.agentId && db'.turns == db.turns[t := db'.turns[t]];
    RowsOfUpdate(db.turns, t, db'.turns[t], b);
  }

  lemma RowsOfUpdate(turns: map<TurnId, Turn>, t: TurnId, turn: Turn, b: AgentId)
    requires t in turns ==> turns[t].agentId == turn.agentId
    ensures RowsOf(turns[t := turn], b) == if b == turn.agentId then RowsOf(turns, b)[t := turn] else RowsOf(turns, b)
  {
  }

  lemma EntriesStep(journal: seq<Entry>, e: Entry, b: AgentId)
    ensures EntriesOf(journal + [e], b) == EntriesOf(journal, b) + (if b == e.record.agentId then [e.record] else [])
  {
    assert (journal + [e])[..|journal|] == journal;
  }

  // The new journal entry is well formed, and the counters of live Turns stay known.
  lemma CountedStep(db: Tables, journal: seq<Entry>, r: Record, db': Tables)
    requires Ready(db, r) && Effect(db, r, db')
    requires JournalOk(journal) && LiveTurnsCounted(db, journal)
    ensures JournalOk(journal + [Entry(db.agents[r.agentId], r)])
    ensures LiveTurnsCounted(db', journal + [Entry(db.agents[r.agentId], r)])
  {
    var e := Entry(db.agents[r.agentId], r);
    var t := ItemTurn(r.item);
    if r.item.ContextCheckpoint? {
      assert Counted(db, journal, t);
    }
    JournalAppend(journal, e);
    assert (journal + [e])[..|journal|] == journal;
    forall k | k in db'.turns && !db'.turns[k].status.Terminal() ensures Counted(db', journal + [e], k) {
      if k == t && r.item.TurnCreated? {
        assert Opens((journal + [e])[|journal|], t, db'.agents[db'.turns[k].agentId]);
      } else {
        assert Counted(db, journal, k);
        var i :| 0 <= i < |journal| && Opens(journal[i], k, db.agents[db.turns[k].agentId]);
        assert (journal + [e])[i] == journal[i];
      }
    }
  }

  lemma AddSaturates(x: nat, y: nat, d: nat, m: Metric)
    requires x == Min(Limit(m), y)
    ensures Min(Limit(m), x + d) == Min(Limit(m), y + d)
  {
  }

  lemma GetAdd(u: Usage, v: Usage, m: Metric)
    ensures Get(SaturatingAdd(u, v), m) == Min(Limit(m), Get(u, m) + Get(v, m))
    ensures Get(SaturatingSub(u, v), m) == Minus(Get(u, m), Get(v, m))
  {
  }

  lemma ChargedStep(journal: seq<Entry>, e: Entry, s: SessionId, m: Metric)
    ensures Charged(journal + [e], s, m) == Charged(journal, s, m) + Charge(journal, e, s, m)
  {
    assert (journal + [e])[..|journal|] == journal;
  }

  // A record that is no checkpoint of this Session leaves its counters alone.
  lemma Uncharged(db: Tables, journal: seq<Entry>, r: Record, db': Tables, s: SessionId, m: Metric)
    requires Ready(db, r) && Effect(db, r, db')
    requires !(r.item.ContextCheckpoint? && db.agents[r.agentId] == s)
    ensures Charge(journal, Entry(db.agents[r.agentId], r), s, m) == 0
    ensures s in db'.sessions ==> s in db.sessions && db'.sessions[s] == db.sessions[s]
  {
    hide AcknowledgementsValid, NewTurn, NextTurn, NoLiveTurn, SaturatingAdd, SaturatingSub, Checkpointed;
  }

  lemma ChargedNow(db: Tables, journal: seq<Entry>, r: Record, db': Tables, s: SessionId, m: Metric)
    requires Ready(db, r) && Effect(db, r, db') && r.item.ContextCheckpoint? && db.agents[r.agentId] == s
    requires Counted(db, journal, r.item.turnId)
    ensures s in db.sessions && s in db'.sessions
    ensures Get(db'.sessions[s].usage, m) ==
            Min(Limit(m), Get(db.sessions[s].usage, m) + Charge(journal, Entry(s, r), s, m))
  {
    hide AcknowledgementsValid, SaturatingAdd, SaturatingSub, ChargedSession, Checkpointed, Min, Get, Limit, Minus;
    ChargeSession(db.sessions[s], r.item.usage, db.turns[r.item.turnId].usage, m);
  }

  // A projected record charges its Session exactly what the journal says it does.
  lemma UsageStep(db: Tables, external: map<SessionId, Usage>, journal: seq<Entry>, r: Record, db': Tables,
                  s: SessionId, m: Metric)
    requires UsageExact(db.sessions, external, journal, s, m)
    requires Ready(db, r) && Effect(db, r, db')
    requires r.item.ContextCheckpoint? ==> Counted(db, journal, r.item.turnId)
    ensures UsageExact(db'.sessions, external, journal + [Entry(db.agents[r.agentId], r)], s, m)
  {
    hide Ready, Effect, Counted, Charged, Charge, Total, Get, Limit;
    EffectFrame(db, r, db');
    var e := Entry(db.agents[r.agentId], r);
    ChargedStep(journal, e, s, m);
    if r.item.ContextCheckpoint? && db.agents[r.agentId] == s {
      ChargedNow(db, journal, r, db', s, m);
      AddSaturates(Get(db.sessions[s].usage, m), Total(external, s, m) + Charged(journal, s, m), Charge(journal, e, s, m), m);
    } else {
      Uncharged(db, journal, r, db', s, m);
    }
  }

  lemma ChargeSession(session: Session, usage: Usage, previous: Usage, m: Metric)
    ensures Get(ChargedSession(session, usage, previous).usage, m) ==
            Min(Limit(m), Get(session.usage, m) + Minus(Get(usage, m), Get(previous, m)))
  {
    GetAdd(usage, previous, m);
    GetAdd(session.usage, SaturatingSub(usage, previous), m);
  }

  // The record's inputs were claimed, so no earlier record had acknowledged them.
  lemma AcknowledgedStep(db: Tables, journal: seq<Entry>, r: Record, s: SessionId)
    requires AcknowledgementsValid(db.inputs, r.item) && Project(db, r).Success?
    requires InputsAdvance(db.inputs, Project(db, r).value.inputs)
    requires AcknowledgedApplied(db.inputs, journal) && AcknowledgedOnce(journal)
    ensures AcknowledgedApplied(Project(db, r).value.inputs, journal + [Entry(s, r)])
    ensures AcknowledgedOnce(journal + [Entry(s, r)])
  {
    AcknowledgedAreApplied(db, r);
    forall i | 0 <= i < |journal| ensures Disjoint(Acknowledged(journal[i].record.item), Acknowledged(r.item)) {
      assert AllApplied(db.inputs, Acknowledged(journal[i].record.item));
    }
    forall i | 0 <= i < |journal| ensures AllApplied(Project(db, r).value.inputs, Acknowledged(journal[i].record.item)) {
      assert AllApplied(db.inputs, Acknowledged(journal[i].record.item));
    }
  }

  lemma AfterFrame(w: World, r: Record, db': Tables, b: AgentId)
    requires db'.projected == w.db.projected
    ensures var w' := After(w, r, db');
            && LogOf(w', b) == LogOf(w, b)
            && Projected(w'.db, b) == Projected(w.db, b) + (if b == r.agentId then 1 else 0)
  {
  }

  lemma SeenAfter(w: World, r: Record, db': Tables, b: AgentId)
    requires db'.projected == w.db.projected && Projected(w.db, b) <= |LogOf(w, b)|
    requires Projected(w.db, r.agentId) < |LogOf(w, r.agentId)|
    requires r == LogOf(w, r.agentId)[Projected(w.db, r.agentId)]
    ensures var w' := After(w, r, db');
            Projected(w'.db, b) <= |LogOf(w', b)| && Seen(w', b) == if b == r.agentId then Seen(w, b) + [r] else Seen(w, b)
  {
    hide After, LogOf, Projected;
    AfterFrame(w, r, db', b);
  }

  lemma BoundsStep(w: World, r: Record, db': Tables)
    requires BoundsOk(w) && CacheOk(w) && db'.projected == w.db.projected && r.agentId in w.db.agents && db'.agents == w.db.agents
    requires Projected(w.db, r.agentId) < |LogOf(w, r.agentId)| && r.agentId !in w.cache
    ensures BoundsOk(After(w, r, db')) && CacheOk(After(w, r, db'))
  {
    hide LogOf, Projected;
    var w' := After(w, r, db');
    forall b ensures LogOf(w', b) == LogOf(w, b) && Projected(w'.db, b) == Projected(w.db, b) + (if b == r.agentId then 1 else 0) {
      AfterFrame(w, r, db', b);
    }
    forall b ensures Projected(w'.db, b) <= |LogOf(w', b)| {
      assert Projected(w.db, b) <= |LogOf(w, b)|;
    }
  }

  // Tables, rows and journal move together.
  lemma MatchStep(w: World, r: Record, db': Tables)
    requires BoundsOk(w) && CacheOk(w) && RowsMatch(w) && JournalMatches(w)
    requires TurnsOk(w.db.turns, w.db.agents)
    requires Projected(w.db, r.agentId) < |LogOf(w, r.agentId)| && r.agentId !in w.cache
    requires r == LogOf(w, r.agentId)[Projected(w.db, r.agentId)]
    requires Ready(w.db, r) && Effect(w.db, r, db')
    ensures BoundsOk(After(w, r, db')) && CacheOk(After(w, r, db'))
    ensures RowsMatch(After(w, r, db')) && JournalMatches(After(w, r, db'))
  {
    EffectFrame(w.db, r, db');
    BoundsStep(w, r, db');
    hide Ready, Effect, TurnsOk, LogOf, Projected, Seen, EntriesOf, RowsOf, Rows, CacheOk;
    var w' := After(w, r, db');
    forall b ensures RowsOf(w'.db.turns, b) == Rows(Seen(w', b)) && EntriesOf(w'.journal, b) == Seen(w', b) {
      assert RowsOf(w.db.turns, b) == Rows(Seen(w, b)) && EntriesOf(w.journal, b) == Seen(w, b);
      SeenAfter(w, r, db', b);
      RowsAt(w.db, r, db', b, Seen(w, b), Seen(w', b));
      EntriesStep(w.journal, Entry(w.db.agents[r.agentId], r), b);
      assert EntriesOf(w.journal, b) + [] == EntriesOf(w.journal, b);
    }
  }

  lemma EffectFrame(db: Tables, r: Record, db': Tables)
    requires Ready(db, r) && Effect(db, r, db')
    ensures db'.projected == db.projected && db'.agents == db.agents && r.agentId in db.agents
  {
  }

  // The rows of one Agent after one more record, given what had been projected before.
  lemma RowsAt(db: Tables, r: Record, db': Tables, b: AgentId, seen: seq<Record>, seen': seq<Record>)
    requires TurnsOk(db.turns, db.agents) && Ready(db, r) && Effect(db, r, db')
    requires RowsOf(db.turns, b) == Rows(seen) && seen' == (if b == r.agentId then seen + [r] else seen)
    ensures RowsOf(db'.turns, b) == Rows(seen')
  {
    hide Ready, Effect, RowsOf, TurnsOk, Rows;
    RowsStep(db, r, db', b);
    RowsAppend(seen, r);
  }

  lemma LogsStep(w: World, r: Record, db': Tables)
    requires LogsOk(w) && Effect(w.db, r, db')
    ensures LogsOk(After(w, r, db'))
  {
  }

  lemma ProjectionStep(w: World, r: Record, db': Tables)
    requires ProjectionOk(w) && TurnsOk(w.db.turns, w.db.agents)
    requires Projected(w.db, r.agentId) < |LogOf(w, r.agentId)| && r.agentId !in w.cache
    requires r == LogOf(w, r.agentId)[Projected(w.db, r.agentId)]
    requires Ready(w.db, r) && Effect(w.db, r, db')
    ensures ProjectionOk(After(w, r, db'))
  {
    MatchStep(w, r, db');
    LogsStep(w, r, db');
  }

  lemma AllUsageStep(db: Tables, external: map<SessionId, Usage>, journal: seq<Entry>, r: Record, db': Tables)
    requires UsageOk(db.sessions, external, journal)
    requires Ready(db, r) && Effect(db, r, db')
    requires r.item.ContextCheckpoint? ==> Counted(db, journal, r.item.turnId)
    ensures UsageOk(db'.sessions, external, journal + [Entry(db.agents[r.agentId], r)])
  {
    forall s, m ensures UsageExact(db'.sessions, external, journal + [Entry(db.agents[r.agentId], r)], s, m) {
      UsageStep(db, external, journal, r, db', s, m);
    }
  }

  lemma AccountsStep(w: World, r: Record, db': Tables)
    requires AccountsOk(w) && AgentsOk(w.db.agents, w.db.sessions)
    requires Ready(w.db, r) && Effect(w.db, r, db')
    ensures AccountsOk(After(w, r, db'))
  {
    hide UsageOk, AcknowledgementsValid, NewTurn, NoLiveTurn, NextTurn, Projected, LastUsage, Opens, Terminal;
    if r.item.ContextCheckpoint? {
      assert Counted(w.db, w.journal, r.item.turnId);
    }
    CountedStep(w.db, w.journal, r, db');
    AllUsageStep(w.db, w.external, w.journal, r, db');
  }

  // The projected sequence is not part of any table the invariant speaks about.
  lemma SequenceKeeps(db: Tables, db': Tables, a: AgentId, n: nat)
    requires Ok(db') && Advances(db, db')
    ensures Ok(SetProjected(db', a, n)) && Advances(db, SetProjected(db', a, n))
  {
  }

  lemma ProjectNextIs(w: World, a: AgentId)
    requires Projected(w.db, a) < |LogOf(w, a)| && a in w.db.agents
    requires LogOf(w, a)[Projected(w.db, a)].agentId == a && Project(w.db, LogOf(w, a)[Projected(w.db, a)]).Success?
    ensures var r := LogOf(w, a)[Projected(w.db, a)];
            ProjectNext(w, a) == Success(After(w, r, Project(w.db, r).value))
  {
  }

  lemma AfterKeeps(w: World, r: Record, db': Tables)
    requires Core(w) && Projected(w.db, r.agentId) < |LogOf(w, r.agentId)| && r.agentId !in w.cache
    requires r == LogOf(w, r.agentId)[Projected(w.db, r.agentId)]
    requires Ready(w.db, r) && Project(w.db, r) == Success(db') && Effect(w.db, r, db')
    requires Ok(db') && Advances(w.db, db')
    ensures ProjectionOk(After(w, r, db')) && AccountsOk(After(w, r, db')) && DeliveryOk(After(w, r, db'))
  {
    ProjectionStep(w, r, db');
    AccountsStep(w, r, db');
    AcknowledgedStep(w.db, w.journal, r, w.db.agents[r.agentId]);
  }

  // Projecting a ready record succeeds and keeps everything.
  lemma ProjectNextKeeps(w: World, a: AgentId)
    requires Core(w) && Projected(w.db, a) < |LogOf(w, a)| && a !in w.cache
    requires LogOf(w, a)[Projected(w.db, a)].agentId == a && Ready(w.db, LogOf(w, a)[Projected(w.db, a)])
    ensures ProjectNext(w, a).Success?
    ensures Core(ProjectNext(w, a).value) && Advances(w.db, ProjectNext(w, a).value.db)
  {
    var r := LogOf(w, a)[Projected(w.db, a)];
    ProjectKeeps(w.db, r);
    ProjectEffect(w.db, r);
    var db' := Project(w.db, r).value;
    ProjectNextIs(w, a);
    AfterKeeps(w, r, db');
    SequenceKeeps(w.db, db', a, Projected(w.db, a) + 1);
  }
}
