// The store machine down to the bytes of its rollout files. A process may stop after any
// byte of an append; what a scan then finds is always a world of the store machine.
module FileRefinement {
  import opened Wrappers
  import opened Protocol
  import opened RolloutFile
  import opened StoreMachine
  import opened StoreInvariant
  import opened StoreSteps
  import opened StoreRuns
  import opened Lifecycle
  import TurnLog

  /** rest is the world without its logs: those are only in the files. */
  datatype Disk = Disk(files: map<AgentId, seq<Byte>>, rest: World)

  datatype FileStep =
    | Whole(step: Step)            // a step whose writes, if any, are complete
    | Torn(op: TurnOp, k: nat)     // the process stops k bytes into the append of an operation
    | Repairs(agentId: AgentId)    // a scan repairs the tail of a file, and the process stops before it
                                   // projects anything

  const EMPTY_DISK := Disk(map[], START)

  function RecordsIn(c: Codec, a: AgentId, bytes: seq<Byte>): seq<Record> {
    var r := ScanAll(c, a, bytes);
    if r.Success? then r.value.records else []
  }

  // What the program can know of a disk: the tables, and what scanning the files gives.
  function View(c: Codec, d: Disk): World {
    d.rest.(logs := map a | a in d.files :: RecordsIn(c, a, d.files[a]))
  }

  function FileOf(d: Disk, a: AgentId): seq<Byte> {
    if a in d.files then d.files[a] else []
  }

  // Records are only ever added at the end of a file.
  function Written(c: Codec, d: Disk, w': World): map<AgentId, seq<Byte>> {
    map a | a in w'.logs ::
      FileOf(d, a) + EncodeAll(c, w'.logs[a][Min(|LogOf(View(c, d), a)|, |w'.logs[a]|)..])
  }

  // The record whose append was under way, if the operation gets that far.
  function Pending(w: World, op: TurnOp): Result<(World, Record)> {
    var p :- Prepare(w, op);
    var ready :- Admit(p.world, p.agentId, p.item);
    Success((ready, NextRecord(ready, p.agentId, p.item)))
  }

  // What a scan of one file leaves of the files.
  function Repaired(c: Codec, files: map<AgentId, seq<Byte>>, a: AgentId): map<AgentId, seq<Byte>> {
    if a in files && ScanAll(c, a, files[a]).Success? then files[a := ScanAll(c, a, files[a]).value.kept] else files
  }

  function DiskNext(c: Codec, d: Disk, step: FileStep): Disk {
    var w := View(c, d);
    match step
    case Whole(s) =>
      var w' := Next(w, s);
      var files := Written(c, d, w');
      // the scan that a replay starts with repairs the tail of the file
      Disk(if s.ReplayOne? && !w.live then Repaired(c, files, s.agentId) else files, w')
    case Repairs(a) => Disk(Repaired(c, d.files, a), Stopped(w))
    case Torn(op, k) =>
      if !w.live || Pending(w, op).Failure? then Disk(d.files, Stopped(w)) else
      var (ready, r) := Pending(w, op).value;
      Disk(d.files[r.agentId := FileOf(d, r.agentId) + Line(c, r)[..Min(k, |Line(c, r)|)]], Stopped(ready))
  }

  // The step of the store machine a byte-level step stands for: a torn append happened
  // exactly when all bytes of the document had been written, and a repair changes nothing
  // that a scan finds.
  function StepOf(c: Codec, w: World, step: FileStep): Step {
    match step
    case Whole(s) => s
    case Torn(op, k) =>
      CrashInside(op, Pending(w, op).Success? && k >= |c.encode(Pending(w, op).value.1)|)
    case Repairs(_) => Crash
  }

  function DiskRun(c: Codec, steps: seq<FileStep>): Disk {
    if steps == [] then EMPTY_DISK else DiskNext(c, DiskRun(c, steps[..|steps| - 1]), steps[|steps| - 1])
  }

  function StepsOf(c: Codec, steps: seq<FileStep>): seq<Step> {
    if steps == [] then [] else
      var earlier := StepsOf(c, steps[..|steps| - 1]);
      earlier + [StepOf(c, Run(START, earlier), steps[|steps| - 1])]
  }

  // ---- what the files look like ----

  ghost predicate TornFile(c: Codec, a: AgentId, bytes: seq<Byte>, log: seq<Record>, base: seq<Record>, r: Record, k: nat) {
    && RolloutFile.Numbered(base + [r], a, 1) && k <= |Line(c, r)|
    && bytes == EncodeAll(c, base) + Line(c, r)[..k]
    && log == if k < |c.encode(r)| then base else base + [r]
  }

  // The encodings of the log, or a torn tail on top of what was there.
  ghost predicate FileOk(c: Codec, a: AgentId, bytes: seq<Byte>, log: seq<Record>) {
    bytes == EncodeAll(c, log) || exists base, r, k :: TornFile(c, a, bytes, log, base, r, k)
  }

  ghost predicate Matches(c: Codec, d: Disk, w: World) {
    && d.files.Keys == w.logs.Keys && d.rest.(logs := w.logs) == w
    && (forall a :: a in w.logs ==> FileOk(c, a, d.files[a], w.logs[a]))
    && (forall a :: a in w.logs && (w.live || a in w.cache) ==> d.files[a] == EncodeAll(c, w.logs[a]))
  }

  ghost predicate Short(w: World) {
    forall a :: a in w.logs ==> |w.logs[a]| < U64_MAX
  }

  lemma LogNumbered(w: World, a: AgentId)
    requires Inv(w) && a in w.logs
    ensures RolloutFile.Numbered(w.logs[a], a, 1)
  {
    assert TurnLog.LogOk(a, w.logs[a]);
    hide Inv;
    assert TurnLog.Numbered(a, w.logs[a]);
  }

  // Scanning a file finds the log and leaves its encoding.
  lemma ScanOfFile(c: Codec, a: AgentId, bytes: seq<Byte>, log: seq<Record>)
    requires Lawful(c) && RolloutFile.Numbered(log, a, 1) && |log| < U64_MAX && FileOk(c, a, bytes, log)
    ensures ScanAll(c, a, bytes) == Success(Scanned(log, EncodeAll(c, log)))
  {
    hide Lawful, RolloutFile.Numbered, ScanAll;
    if bytes == EncodeAll(c, log) {
      CleanScan(c, a, log);
    } else {
      var base, r, k :| TornFile(c, a, bytes, log, base, r, k);
      TornAppend(c, a, base, r, k);
    }
  }

  lemma ViewIs(c: Codec, d: Disk, w: World)
    requires Lawful(c) && Inv(w) && Short(w) && Matches(c, d, w)
    ensures View(c, d) == w
    ensures forall a :: a in w.logs ==> ScanAll(c, a, d.files[a]) == Success(Scanned(w.logs[a], EncodeAll(c, w.logs[a])))
  {
    hide Lawful, Inv, ScanAll, FileOk;
    forall a | a in w.logs
      ensures ScanAll(c, a, d.files[a]) == Success(Scanned(w.logs[a], EncodeAll(c, w.logs[a])))
    {
      LogNumbered(w, a);
      ScanOfFile(c, a, d.files[a], w.logs[a]);
    }
    assert View(c, d).logs == w.logs;
  }

  // ---- one step ----

  // A closed store appends nothing.
  lemma ClosedLogs(w: World, step: Step)
    requires !w.live
    ensures Next(w, step).logs == w.logs
    ensures !step.ReplayOne? && !step.Opened? ==> !Next(w, step).live && Next(w, step).cache.Keys <= w.cache.Keys
    ensures step.Opened? ==> Next(w, step).cache == w.cache && (Next(w, step).live ==> w.logs.Keys <= w.cache.Keys)
    ensures step.ReplayOne? ==> !Next(w, step).live && Next(w, step).cache.Keys <= w.cache.Keys + {step.agentId}
  {
    if step.ReplayOne? {
      ReplayLogs(w, step.agentId);
    }
  }

  lemma ReplayLogs(w: World, a: AgentId)
    ensures Or(Replay(w, a), w).logs == w.logs && Or(Replay(w, a), w).live == w.live
    ensures Or(Replay(w, a), w).cache.Keys <= w.cache.Keys + {a}
  {
    if Projected(w.db, a) <= |LogOf(w, a)| && ProjectAll(w, LogOf(w, a)[Projected(w.db, a)..]).Success? {
      ProjectAllFrame(w, LogOf(w, a)[Projected(w.db, a)..]);
    }
  }

  lemma {:induction false} ProjectAllFrame(w: World, records: seq<Record>)
    requires ProjectAll(w, records).Success?
    ensures var w' := ProjectAll(w, records).value; w'.logs == w.logs && w'.live == w.live && w'.cache == w.cache
    decreases |records|
  {
    if records != [] {
      ProjectAllFrame(ProjectOne(w, records[0]).value, records[1..]);
    }
  }

  // In an open store whole lines are added to clean files.
  lemma OpenWrites(c: Codec, d: Disk, w: World, w': World)
    requires View(c, d) == w && Matches(c, d, w) && w.live && LogsExtend(w, w') && w.logs.Keys <= w'.logs.Keys
    ensures Written(c, d, w').Keys == w'.logs.Keys
    ensures forall a :: a in w'.logs ==> Written(c, d, w')[a] == EncodeAll(c, w'.logs[a])
  {
    hide View, FileOk, Line;
    forall a | a in w'.logs ensures Written(c, d, w')[a] == EncodeAll(c, w'.logs[a]) {
      assert LogOf(w, a) <= LogOf(w', a);
      var n := |LogOf(w, a)|;
      assert w'.logs[a] == LogOf(w, a) + w'.logs[a][n..];
      EncodeConcat(c, LogOf(w, a), w'.logs[a][n..]);
      assert FileOf(d, a) == EncodeAll(c, LogOf(w, a));
    }
  }

  // A closed one adds nothing.
  lemma ClosedWrites(c: Codec, d: Disk, w: World, w': World)
    requires View(c, d) == w && d.files.Keys == w.logs.Keys && w'.logs == w.logs
    ensures Written(c, d, w') == d.files
  {
    hide View;
    forall a | a in w.logs ensures Written(c, d, w')[a] == d.files[a] {
      assert w.logs[a][|w.logs[a]|..] == [];
      assert d.files[a] + [] == d.files[a];
    }
  }

  ghost predicate AllClean(c: Codec, d: Disk, w: World) {
    d.files.Keys == w.logs.Keys && forall a :: a in w.logs ==> d.files[a] == EncodeAll(c, w.logs[a])
  }

  lemma CleanMatches(c: Codec, d: Disk, w: World)
    requires AllClean(c, d, w) && d.rest.(logs := w.logs) == w
    ensures Matches(c, d, w)
  {
  }

  lemma WholeMatches(c: Codec, d: Disk, w: World, step: Step)
    requires Inv(w) && View(c, d) == w && Matches(c, d, w) && !step.ReplayOne?
    ensures Matches(c, DiskNext(c, d, Whole(step)), Next(w, step))
  {
    hide Inv, Next, View, Advances, FileOk;
    NextKeeps(w, step);
    var w' := Next(w, step);
    if w.live {
      OpenWrites(c, d, w, w');
      CleanMatches(c, DiskNext(c, d, Whole(step)), w');
    } else {
      ClosedLogs(w, step);
      ClosedWrites(c, d, w, w');
    }
  }

  // The scan of a replay repairs the file it reads.
  lemma ReplayDisk(c: Codec, d: Disk, w: World, a: AgentId)
    requires View(c, d) == w && Matches(c, d, w) && !w.live
    requires a in w.logs ==> ScanAll(c, a, d.files[a]) == Success(Scanned(w.logs[a], EncodeAll(c, w.logs[a])))
    ensures DiskNext(c, d, Whole(ReplayOne(a))) ==
            Disk(if a in w.logs then d.files[a := EncodeAll(c, w.logs[a])] else d.files, Next(w, ReplayOne(a)))
  {
    hide Next, View, FileOk, ScanAll;
    ClosedLogs(w, ReplayOne(a));
    ClosedWrites(c, d, w, Next(w, ReplayOne(a)));
    hide Written;
  }

  lemma RepairMatches(c: Codec, d: Disk, w: World, w': World, a: AgentId)
    requires Matches(c, d, w) && w'.logs == w.logs && !w'.live && w'.cache.Keys <= w.cache.Keys + {a}
    ensures Matches(c, Disk(if a in w.logs then d.files[a := EncodeAll(c, w.logs[a])] else d.files, w'), w')
  {
    if a in w.logs {
      CleanFile(c, a, w.logs[a]);
    }
    hide FileOk;
  }

  lemma ReplayMatches(c: Codec, d: Disk, w: World, a: AgentId)
    requires Lawful(c) && Inv(w) && Short(w) && Matches(c, d, w)
    ensures Matches(c, DiskNext(c, d, Whole(ReplayOne(a))), Next(w, ReplayOne(a)))
  {
    hide Inv, Next, View, FileOk, ScanAll, Lawful, Short, DiskNext;
    ViewIs(c, d, w);
    if w.live {
      WholeLive(c, d, w, a);
    } else {
      ReplayDisk(c, d, w, a);
      ClosedLogs(w, ReplayOne(a));
      RepairMatches(c, d, w, Next(w, ReplayOne(a)), a);
    }
  }

  lemma CleanFile(c: Codec, a: AgentId, log: seq<Record>)
    ensures FileOk(c, a, EncodeAll(c, log), log)
  {
  }

  lemma WholeLive(c: Codec, d: Disk, w: World, a: AgentId)
    requires Inv(w) && w.live && View(c, d) == w && Matches(c, d, w)
    ensures Matches(c, DiskNext(c, d, Whole(ReplayOne(a))), Next(w, ReplayOne(a)))
  {
    hide View, FileOk, Inv;
    assert Next(w, ReplayOne(a)) == w;
    forall b | b in w.logs ensures LogOf(w, b)[|w.logs[b]|..] == [] {
    }
    ClosedWrites(c, d, w, w);
  }

  lemma PendingNumbered(w: World, op: TurnOp)
    requires Inv(w) && w.live && Pending(w, op).Success?
    ensures var (ready, r) := Pending(w, op).value;
            && Next(w, CrashInside(op, true)) == Stopped(Appended(ready, r))
            && Next(w, CrashInside(op, false)) == Stopped(Touched(w, r.agentId))
            && ready == w.(cache := ready.cache)
            && RolloutFile.Numbered(LogOf(w, r.agentId) + [r], r.agentId, 1)
  {
    hide Inv, Prepare, Admit, Plan, Replay, Advances;
    var p := Prepare(w, op).value;
    PrepareKeeps(w, op);
    AdmitIsIdle(p.world, p.agentId, p.item);
    CrashInsideKeeps(w, op, true);
    var (ready, r) := Pending(w, op).value;
    LogNumbered(Stopped(Appended(ready, r)), r.agentId);
  }

  lemma TornMatches(c: Codec, d: Disk, w: World, op: TurnOp, k: nat)
    requires Lawful(c) && Inv(w) && View(c, d) == w && Matches(c, d, w)
    ensures Matches(c, DiskNext(c, d, Torn(op, k)), Next(w, StepOf(c, w, Torn(op, k))))
  {
    hide Inv, View, Lawful, Prepare, Admit, FileOk, Next;
    if w.live && Pending(w, op).Success? {
      PendingNumbered(w, op);
      var (ready, r) := Pending(w, op).value;
      var a := r.agentId;
      var n := Min(k, |Line(c, r)|);
      TornTail(c, a, FileOf(d, a) + Line(c, r)[..n], LogOf(w, a), r, n, k);
      TornDisk(c, d, w, ready, r, n, k);
    } else {
      NothingTorn(w, op, Pending(w, op).Success? && k >= |c.encode(Pending(w, op).value.1)|);
      StoppedMatches(c, d, w);
    }
  }

  lemma NothingTorn(w: World, op: TurnOp, durable: bool)
    requires !w.live || Pending(w, op).Failure?
    ensures Next(w, CrashInside(op, durable)) == Stopped(w)
  {
    hide Prepare, Admit;
  }

  lemma StoppedMatches(c: Codec, d: Disk, w: World)
    requires Matches(c, d, w)
    ensures Matches(c, Disk(d.files, Stopped(w)), Stopped(w))
  {
    hide FileOk;
  }

  lemma TornTail(c: Codec, a: AgentId, bytes: seq<Byte>, base: seq<Record>, r: Record, n: nat, k: nat)
    requires RolloutFile.Numbered(base + [r], a, 1) && n == Min(k, |Line(c, r)|)
    requires bytes == EncodeAll(c, base) + Line(c, r)[..n]
    ensures FileOk(c, a, bytes, if k >= |c.encode(r)| then base + [r] else base)
  {
    assert TornFile(c, a, bytes, if k >= |c.encode(r)| then base + [r] else base, base, r, n);
  }

  lemma TornDisk(c: Codec, d: Disk, w: World, ready: World, r: Record, n: nat, k: nat)
    requires Matches(c, d, w) && w.live && n == Min(k, |Line(c, r)|)
    requires ready == w.(cache := ready.cache)
    requires var a := r.agentId;
             FileOk(c, a, FileOf(d, a) + Line(c, r)[..n], if k >= |c.encode(r)| then LogOf(w, a) + [r] else LogOf(w, a))
    ensures var a := r.agentId; var d' := Disk(d.files[a := FileOf(d, a) + Line(c, r)[..n]], Stopped(ready));
            Matches(c, d', if k >= |c.encode(r)| then Stopped(Appended(ready, r)) else Stopped(Touched(w, a)))
  {
    hide FileOk;
  }

  // A repair leaves what the next scan finds anyway.
  lemma RepairsMatch(c: Codec, d: Disk, w: World, a: AgentId)
    requires Lawful(c) && Inv(w) && Short(w) && Matches(c, d, w)
    ensures Matches(c, DiskNext(c, d, Repairs(a)), Next(w, Crash))
  {
    hide Inv, View, FileOk, ScanAll, Lawful, Short;
    ViewIs(c, d, w);
    RepairMatches(c, d, w, Stopped(w), a);
  }

  // ---- every run ----

  lemma StepMatches(c: Codec, d: Disk, w: World, step: FileStep)
    requires Lawful(c) && Inv(w) && Short(w) && Matches(c, d, w)
    ensures Matches(c, DiskNext(c, d, step), Next(w, StepOf(c, w, step)))
  {
    hide Inv, Next, View, DiskNext, Short, Lawful, Matches, Pending;
    ViewIs(c, d, w);
    match step
    case Whole(s) =>
      if s.ReplayOne? {
        ReplayMatches(c, d, w, s.agentId);
      } else {
        WholeMatches(c, d, w, s);
      }
    case Torn(op, k) => TornMatches(c, d, w, op, k);
    case Repairs(a) => RepairsMatch(c, d, w, a);
  }

  lemma ShortBefore(w: World, w': World)
    requires LogsExtend(w, w') && Short(w')
    ensures Short(w)
  {
    forall a | a in w.logs ensures |w.logs[a]| < U64_MAX {
      assert LogOf(w, a) <= LogOf(w', a);
    }
  }

  lemma RunSplit(c: Codec, steps: seq<FileStep>)
    requires steps != []
    ensures var n := |steps| - 1; var w := Run(START, StepsOf(c, steps[..n]));
            Run(START, StepsOf(c, steps)) == Next(w, StepOf(c, w, steps[n]))
  {
    hide Next, StepOf;
    var n := |steps| - 1;
    var earlier := StepsOf(c, steps[..n]);
    assert StepsOf(c, steps)[..|earlier|] == earlier;
  }

  // While every log can be scanned, the files hold the machine's logs.
  lemma {:induction false} DiskFollows(c: Codec, steps: seq<FileStep>)
    requires Lawful(c) && Short(Run(START, StepsOf(c, steps)))
    ensures View(c, DiskRun(c, steps)) == Run(START, StepsOf(c, steps))
    ensures Matches(c, DiskRun(c, steps), Run(START, StepsOf(c, steps)))
  {
    hide Inv, Next, View, DiskNext, Short, Lawful, Matches, StepOf, Advances;
    Reachable(StepsOf(c, steps));
    if steps == [] {
      NothingWritten(c);
    } else {
      var n := |steps| - 1;
      ShortEarlier(c, steps);
      DiskFollows(c, steps[..n]);
      NextMatches(c, steps);
    }
    ViewIs(c, DiskRun(c, steps), Run(START, StepsOf(c, steps)));
  }

  lemma ShortEarlier(c: Codec, steps: seq<FileStep>)
    requires steps != [] && Short(Run(START, StepsOf(c, steps)))
    ensures Short(Run(START, StepsOf(c, steps[..|steps| - 1])))
  {
    hide Inv, Next, Short, StepOf, Advances;
    var n := |steps| - 1;
    var w := Run(START, StepsOf(c, steps[..n]));
    RunSplit(c, steps);
    Reachable(StepsOf(c, steps[..n]));
    NextKeeps(w, StepOf(c, w, steps[n]));
    ShortBefore(w, Run(START, StepsOf(c, steps)));
  }

  lemma NextMatches(c: Codec, steps: seq<FileStep>)
    requires Lawful(c) && steps != [] && Short(Run(START, StepsOf(c, steps[..|steps| - 1])))
    requires Matches(c, DiskRun(c, steps[..|steps| - 1]), Run(START, StepsOf(c, steps[..|steps| - 1])))
    ensures Matches(c, DiskRun(c, steps), Run(START, StepsOf(c, steps)))
  {
    hide Inv, Next, View, DiskNext, Short, Lawful, Matches, StepOf, Advances;
    var n := |steps| - 1;
    RunSplit(c, steps);
    Reachable(StepsOf(c, steps[..n]));
    StepMatches(c, DiskRun(c, steps[..n]), Run(START, StepsOf(c, steps[..n])), steps[n]);
  }

  // ---- full logs ----

  // Neither a complete nor a torn file of a full log can be scanned.
  lemma FullFile(c: Codec, a: AgentId, bytes: seq<Byte>, log: seq<Record>)
    requires Lawful(c) && RolloutFile.Numbered(log, a, 1) && |log| >= U64_MAX && FileOk(c, a, bytes, log)
    ensures ScanAll(c, a, bytes).Failure?
  {
    hide Lawful, RolloutFile.Numbered, ScanAll;
    if bytes == EncodeAll(c, log) {
      FullLines(c, a, log, []);
      assert EncodeAll(c, log) + [] == bytes;
    } else {
      var base: seq<Record>, r: Record, k: nat :| TornFile(c, a, bytes, log, base, r, k);
      if |base| >= U64_MAX {
        NumberedPrefix(base, r, a);
        FullLines(c, a, base, Line(c, r)[..k]);
      } else {
        FullScan(c, a, base, r, k, []);
        assert Line(c, r)[..k] + [] == Line(c, r)[..k];
      }
    }
  }

  lemma FullLines(c: Codec, a: AgentId, records: seq<Record>, rest: seq<Byte>)
    requires Lawful(c) && RolloutFile.Numbered(records, a, 1) && |records| >= U64_MAX
    ensures ScanAll(c, a, EncodeAll(c, records) + rest).Failure?
  {
    hide Lawful, ScanAll;
    var first, last, more := records[..U64_MAX - 1], records[U64_MAX - 1], records[U64_MAX..];
    assert records == first + ([last] + more);
    NumberedTo(records, a);
    assert first + [last] == records[..U64_MAX];
    EncodeConcat(c, first, [last] + more);
    assert ([last] + more)[1..] == more;
    var tail := EncodeAll(c, more) + rest;
    assert Line(c, last)[..|Line(c, last)|] == Line(c, last);
    FullScan(c, a, first, last, |Line(c, last)|, tail);
    assert EncodeAll(c, records) + rest == EncodeAll(c, first) + (Line(c, last) + tail);
  }

  lemma NumberedTo(records: seq<Record>, a: AgentId)
    requires RolloutFile.Numbered(records, a, 1) && |records| >= U64_MAX
    ensures RolloutFile.Numbered(records[..U64_MAX], a, 1)
  {
    forall i | 0 <= i < U64_MAX ensures Belongs(records[..U64_MAX][i], a, 1 + i) {
      assert Belongs(records[i], a, 1 + i);
    }
  }

  lemma FullView(c: Codec, d: Disk, w: World)
    requires Lawful(c) && Inv(w) && !Short(w) && Matches(c, d, w)
    ensures View(c, d) != w
  {
    hide Lawful, Inv, ScanAll, FileOk;
    var a :| a in w.logs && |w.logs[a]| >= U64_MAX;
    LogNumbered(w, a);
    FullFile(c, a, d.files[a], w.logs[a]);
    assert View(c, d).logs[a] == [];
  }

  // The step that fills a log.
  lemma {:induction false} FirstFull(c: Codec, steps: seq<FileStep>) returns (n: nat)
    requires !Short(Run(START, StepsOf(c, steps)))
    ensures 0 < n <= |steps| && !Short(Run(START, StepsOf(c, steps[..n])))
    ensures Short(Run(START, StepsOf(c, steps[..n][..n - 1])))
  {
    hide Next, StepOf;
    n := |steps|;
    assert steps[..n] == steps;
    if !Short(Run(START, StepsOf(c, steps[..n - 1]))) {
      n := FirstFull(c, steps[..n - 1]);
      assert steps[..|steps| - 1][..n] == steps[..n];
    }
  }

  // Scanning the files after n steps gives what the store machine has then.
  ghost predicate Refines(c: Codec, steps: seq<FileStep>, n: nat)
    requires n <= |steps|
  {
    View(c, DiskRun(c, steps[..n])) == Run(START, StepsOf(c, steps[..n]))
  }

  lemma {:induction false} ShortPrefixes(c: Codec, steps: seq<FileStep>, n: nat)
    requires n <= |steps| && Short(Run(START, StepsOf(c, steps)))
    ensures Short(Run(START, StepsOf(c, steps[..n])))
    decreases |steps|
  {
    hide Short, Run;
    if n == |steps| {
      assert steps[..n] == steps;
    } else {
      ShortEarlier(c, steps);
      ShortPrefixes(c, steps[..|steps| - 1], n);
      assert steps[..|steps| - 1][..n] == steps[..n];
    }
  }

  /** Whatever bytes crashes leave behind, scanning the files gives at all times the world
      that the store machine reaches by a run of its own, in which torn appends either
      happened or did not, if and only if no log ever has 2^64 - 1 records, which a scan
      refuses. */
  lemma DiskRefinesStore(c: Codec, steps: seq<FileStep>)
    requires Lawful(c)
    ensures (forall n: nat :: n <= |steps| ==> Refines(c, steps, n)) <==> Short(Run(START, StepsOf(c, steps)))
  {
    hide Inv, Run, View, DiskRun, Short, Lawful, Matches, StepsOf;
    if Short(Run(START, StepsOf(c, steps))) {
      forall n: nat | n <= |steps| ensures Refines(c, steps, n) {
        ShortPrefixes(c, steps, n);
        DiskFollows(c, steps[..n]);
      }
    } else {
      var n := FirstFull(c, steps);
      DiskFollows(c, steps[..n][..n - 1]);
      NextMatches(c, steps[..n]);
      Reachable(StepsOf(c, steps[..n]));
      FullView(c, DiskRun(c, steps[..n]), Run(START, StepsOf(c, steps[..n])));
      assert !Refines(c, steps, n);
    }
  }

  lemma NothingWritten(c: Codec)
    ensures Matches(c, DiskRun(c, []), Run(START, StepsOf(c, [])))
  {
  }

  // In an open store every file is exactly the encoding of its log.
  lemma OpenFilesAreClean(c: Codec, steps: seq<FileStep>, a: AgentId)
    requires Lawful(c) && Short(Run(START, StepsOf(c, steps)))
    requires DiskRun(c, steps).rest.live && a in DiskRun(c, steps).files
    ensures DiskRun(c, steps).files[a] == EncodeAll(c, LogOf(Run(START, StepsOf(c, steps)), a))
  {
    hide Next, View, DiskNext, Short, Lawful, FileOk;
    DiskFollows(c, steps);
  }
}
