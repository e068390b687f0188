// Applying the chunks of a patch to the lines of a file.
module Patch {
  import opened Wrappers
  import Text

  datatype Chunk = Chunk(context: Option<string>, before: seq<string>, after: seq<string>, endOfFile: bool)

  // ---- finding a block of lines ----

  // From the strictest way to compare two lines to the most lenient.
  datatype Mode = Exact | IgnoreTrailing | IgnoreSurrounding {
    predicate Same(left: string, right: string) {
      match this
      case Exact => left == right
      case IgnoreTrailing => Text.TrimEnd(left) == Text.TrimEnd(right)
      case IgnoreSurrounding => Text.Trim(left) == Text.Trim(right)
    }

    predicate Stricter(other: Mode) {
      (Exact? && !other.Exact?) || (IgnoreTrailing? && other.IgnoreSurrounding?)
    }
  }

  // Two lines that differ only in white space at the ends, behind them or around them.
  ghost predicate SameBehind(left: string, right: string) {
    exists core, a, b :: left == core + a && right == core + b && Text.AllWhitespace(a) && Text.AllWhitespace(b)
  }

  ghost predicate SameInside(left: string, right: string) {
    exists core, a, b, c, d ::
      && left == a + core + b && right == c + core + d
      && Text.AllWhitespace(a) && Text.AllWhitespace(b) && Text.AllWhitespace(c) && Text.AllWhitespace(d)
  }

  /** What the three ways of comparing lines mean, from the strictest to the most lenient. */
  lemma ModeIs(mode: Mode, left: string, right: string)
    ensures mode.Same(left, right) <==>
            match mode
            case Exact => left == right
            case IgnoreTrailing => SameBehind(left, right)
            case IgnoreSurrounding => SameInside(left, right)
  {
    hide Text.Trim, Text.TrimEnd, Text.AllWhitespace;
    match mode
    case Exact =>
    case IgnoreTrailing => BehindIs(left, right);
    case IgnoreSurrounding => InsideIs(left, right);
  }

  lemma BehindIs(left: string, right: string)
    ensures Text.TrimEnd(left) == Text.TrimEnd(right) <==> SameBehind(left, right)
  {
    hide Text.AllWhitespace;
    if Text.TrimEnd(left) == Text.TrimEnd(right) {
      var core := Text.TrimEnd(left);
      Text.TrimEndIs(left);
      Text.TrimEndIs(right);
      assert left == core + left[|core|..] && right == core + right[|core|..];
    }
    forall core, a, b | left == core + a && right == core + b && Text.AllWhitespace(a) && Text.AllWhitespace(b)
      ensures Text.TrimEnd(left) == Text.TrimEnd(right)
    {
      Text.TrimEndIgnores(core, a);
      Text.TrimEndIgnores(core, b);
    }
  }

  lemma InsideIs(left: string, right: string)
    ensures Text.Trim(left) == Text.Trim(right) <==> SameInside(left, right)
  {
    hide Text.AllWhitespace, Text.Trim;
    if Text.Trim(left) == Text.Trim(right) {
      var a, b := Text.TrimIs(left);
      var c, d := Text.TrimIs(right);
    }
    forall core, a, b, c, d | left == a + core + b && right == c + core + d
                              && Text.AllWhitespace(a) && Text.AllWhitespace(b) && Text.AllWhitespace(c) && Text.AllWhitespace(d)
      ensures Text.Trim(left) == Text.Trim(right)
    {
      Text.TrimIgnores(a, core, b);
      Text.TrimIgnores(c, core, d);
    }
  }

  predicate SameLines(left: seq<string>, right: seq<string>, mode: Mode) {
    |left| == |right| && forall i :: 0 <= i < |left| ==> mode.Same(left[i], right[i])
  }

  predicate MatchesAt(lines: seq<string>, pattern: seq<string>, mode: Mode, at: nat) {
    at + |pattern| <= |lines| && SameLines(lines[at..at + |pattern|], pattern, mode)
  }

  // The leftmost place from start on, in the strictest mode that matches anywhere.
  ghost predicate IsBest(lines: seq<string>, pattern: seq<string>, start: nat, mode: Mode, at: nat) {
    && start <= at && MatchesAt(lines, pattern, mode, at)
    && (forall k: nat :: start <= k < at ==> !MatchesAt(lines, pattern, mode, k))
    && (forall m: Mode, k: nat :: m.Stricter(mode) && start <= k ==> !MatchesAt(lines, pattern, m, k))
  }

  ghost predicate Nowhere(lines: seq<string>, pattern: seq<string>, start: nat) {
    forall m: Mode, k: nat :: start <= k ==> !MatchesAt(lines, pattern, m, k)
  }

  ghost predicate Found(lines: seq<string>, pattern: seq<string>, start: nat, found: Option<nat>) {
    match found
    case Some(at) => exists mode :: IsBest(lines, pattern, start, mode, at)
    case None => Nowhere(lines, pattern, start)
  }

  method LinesMatch(lines: seq<string>, pattern: seq<string>, mode: Mode, at: nat) returns (same: bool)
    requires at + |pattern| <= |lines|
    ensures same == MatchesAt(lines, pattern, mode, at)
  {
    for i := 0 to |pattern|
      invariant forall j :: 0 <= j < i ==> mode.Same(lines[at..at + |pattern|][j], pattern[j])
    {
      assert lines[at..at + |pattern|][i] == lines[at + i];
      if !mode.Same(lines[at + i], pattern[i]) {
        return false;
      }
    }
    return true;
  }

  method FindInMode(lines: seq<string>, pattern: seq<string>, start: nat, mode: Mode) returns (found: Option<nat>)
    requires start + |pattern| <= |lines|
    ensures found.Some? ==> start <= found.value && MatchesAt(lines, pattern, mode, found.value)
    ensures found.Some? ==> forall k :: start <= k < found.value ==> !MatchesAt(lines, pattern, mode, k)
    ensures found.None? ==> forall k :: start <= k ==> !MatchesAt(lines, pattern, mode, k)
  {
    var at: nat := start;
    while at + |pattern| <= |lines|
      invariant start <= at
      invariant forall k :: start <= k < at ==> !MatchesAt(lines, pattern, mode, k)
    {
      var same := LinesMatch(lines, pattern, mode, at);
      if same {
        return Some(at);
      }
      at := at + 1;
    }
    return None;
  }

  method FindSequence(lines: seq<string>, pattern: seq<string>, start: nat) returns (found: Option<nat>)
    ensures pattern == [] ==> found == Some(Min(start, |lines|))
    ensures pattern != [] ==> Found(lines, pattern, start, found)
  {
    if pattern == [] {
      return Some(Min(start, |lines|));
    }
    if start > |lines| || |pattern| > |lines| - start {
      assert forall m: Mode, k: nat :: start <= k ==> !MatchesAt(lines, pattern, m, k);
      return None;
    }
    found := FindInMode(lines, pattern, start, Exact);
    if found.Some? {
      assert IsBest(lines, pattern, start, Exact, found.value);
      return;
    }
    found := FindInMode(lines, pattern, start, IgnoreTrailing);
    if found.Some? {
      assert IsBest(lines, pattern, start, IgnoreTrailing, found.value);
      return;
    }
    found := FindInMode(lines, pattern, start, IgnoreSurrounding);
    if found.Some? {
      assert IsBest(lines, pattern, start, IgnoreSurrounding, found.value);
    } else {
      forall m: Mode, k: nat | start <= k ensures !MatchesAt(lines, pattern, m, k) {
        assert m == Exact || m == IgnoreTrailing || m == IgnoreSurrounding;
      }
    }
  }

  // There is only one best place.
  lemma BestIsUnique(lines: seq<string>, pattern: seq<string>, start: nat, m: Mode, at: nat, n: Mode, at': nat)
    requires IsBest(lines, pattern, start, m, at) && IsBest(lines, pattern, start, n, at')
    ensures m == n && at == at'
  {
    assert m == n || m.Stricter(n) || n.Stricter(m);
  }

  // ---- what a patch does to the source ----

  /** Lines from.. of the source give way to a chunk's new lines. */
  datatype Region = Region(from: nat, chunk: Chunk) {
    function End(): nat {
      from + |chunk.before|
    }
  }

  // The search for the old lines begins behind the context line, if there is one.
  ghost predicate AfterContext(source: seq<string>, chunk: Chunk, position: nat, p: nat) {
    match chunk.context
    case None => p == position
    case Some(line) => p > 0 && Found(source, [line], position, Some(p - 1))
  }

  ghost predicate PlacesFrom(source: seq<string>, chunk: Chunk, p: nat, from: nat) {
    && (chunk.before == [] ==> from == if chunk.endOfFile then |source| else p)
    && (chunk.before != [] ==> Found(source, chunk.before, p, Some(from)))
    && (chunk.endOfFile ==> from + |chunk.before| == |source|)
  }

  // Where a chunk goes, when everything before position is already decided.
  ghost predicate Places(source: seq<string>, position: nat, r: Region) {
    exists p :: AfterContext(source, r.chunk, position, p) && PlacesFrom(source, r.chunk, p, r.from)
  }

  function EndOf(position: nat, regions: seq<Region>): nat {
    if regions == [] then position else regions[|regions| - 1].End()
  }

  // One region for each chunk, in order, not overlapping.
  ghost predicate Regions(source: seq<string>, chunks: seq<Chunk>, regions: seq<Region>) {
    && |regions| == |chunks|
    && forall i :: 0 <= i < |regions| ==> RegionOk(source, chunks, regions, i)
  }

  ghost predicate RegionOk(source: seq<string>, chunks: seq<Chunk>, regions: seq<Region>, i: nat)
    requires i < |regions| && i < |chunks|
  {
    var position := EndOf(0, regions[..i]);
    regions[i].chunk == chunks[i] && position <= regions[i].from && regions[i].End() <= |source|
    && Places(source, position, regions[i])
  }

  // The source up to the last region, with every region replaced.
  function Rebuilt(source: seq<string>, regions: seq<Region>): seq<string> {
    if regions == [] then [] else
      var earlier, r := regions[..|regions| - 1], regions[|regions| - 1];
      var position := EndOf(0, earlier);
      Rebuilt(source, earlier)
      + (if position <= r.from <= |source| then source[position..r.from] else []) + r.chunk.after
  }

  function Replaced(source: seq<string>, regions: seq<Region>): seq<string> {
    var position := EndOf(0, regions);
    Rebuilt(source, regions) + (if position <= |source| then source[position..] else [])
  }

  ghost predicate AllSame(source: seq<string>, lines: seq<string>, from: nat, mode: Mode)
    requires from + |lines| <= |source|
  {
    forall j :: 0 <= j < |lines| ==> mode.Same(source[from + j], lines[j])
  }

  // Lines of the source that stand for these, all compared in one way.
  ghost predicate StandsAt(source: seq<string>, lines: seq<string>, from: nat) {
    from + |lines| <= |source| && exists mode: Mode :: AllSame(source, lines, from, mode)
  }

  /** What placing the chunks means: regions in order, one for each chunk, over lines that
      stand for the chunk's old ones; behind a line that stands for its context; at the end of
      the file if the chunk says so, and right there if it neither removes nor looks for
      anything. */
  lemma RegionIs(source: seq<string>, chunks: seq<Chunk>, regions: seq<Region>, i: nat)
    requires Regions(source, chunks, regions) && i < |chunks|
    ensures var r, position := regions[i], EndOf(0, regions[..i]);
            && position <= r.from && r.chunk == chunks[i] && StandsAt(source, chunks[i].before, r.from)
            && (chunks[i].endOfFile ==> r.from + |chunks[i].before| == |source|)
            && (chunks[i].context.Some? ==>
                  exists p: nat :: StandsAt(source, [chunks[i].context.value], p) && position <= p < r.from)
            && (chunks[i].context.None? && chunks[i].before == [] && !chunks[i].endOfFile ==> r.from == position)
  {
    hide MatchesAt;
    var r, position := regions[i], EndOf(0, regions[..i]);
    assert RegionOk(source, chunks, regions, i);
    var p: nat :| AfterContext(source, r.chunk, position, p) && PlacesFrom(source, r.chunk, p, r.from);
    if r.chunk.context.Some? {
      FoundStands(source, [r.chunk.context.value], position, p - 1);
    }
    if r.chunk.before != [] {
      FoundStands(source, r.chunk.before, p, r.from);
    } else {
      assert AllSame(source, r.chunk.before, r.from, Exact);
    }
  }

  lemma FoundStands(source: seq<string>, lines: seq<string>, start: nat, at: nat)
    requires Found(source, lines, start, Some(at))
    ensures start <= at && StandsAt(source, lines, at)
  {
    var mode :| IsBest(source, lines, start, mode, at);
    assert MatchesAt(source, lines, mode, at);
    forall j | 0 <= j < |lines| ensures mode.Same(source[at + j], lines[j]) {
      assert source[at..at + |lines|][j] == source[at + j];
    }
    assert AllSame(source, lines, at, mode);
  }

  // ---- the algorithm ----

  // Matching only looks at the lines from the start on.
  lemma MatchShift(lines: seq<string>, source: seq<string>, cursor: nat, position: nat, pattern: seq<string>, mode: Mode, k: nat)
    requires cursor <= |lines| && position <= |source| && lines[cursor..] == source[position..]
    ensures MatchesAt(lines, pattern, mode, cursor + k) <==> MatchesAt(source, pattern, mode, position + k)
  {
    if cursor + k + |pattern| <= |lines| {
      SliceShift(lines, source, cursor, position, k, |pattern|);
    }
  }

  lemma SliceShift(lines: seq<string>, source: seq<string>, cursor: nat, position: nat, k: nat, n: nat)
    requires cursor <= |lines| && position <= |source| && lines[cursor..] == source[position..]
    requires cursor + k + n <= |lines|
    ensures position + k + n <= |source| && lines[cursor + k..cursor + k + n] == source[position + k..position + k + n]
  {
    assert |lines[cursor..]| == |source[position..]|;
    SliceOfTail(lines, cursor, k, n);
    SliceOfTail(source, position, k, n);
  }

  lemma SliceOfTail(s: seq<string>, from: nat, k: nat, n: nat)
    requires from + k + n <= |s|
    ensures s[from..][k..k + n] == s[from + k..from + k + n]
  {
    var tail := s[from..];
    var left, right := tail[k..k + n], s[from + k..from + k + n];
    forall i | 0 <= i < n ensures left[i] == right[i] {
    }
  }

  lemma FoundShift(lines: seq<string>, source: seq<string>, cursor: nat, position: nat, pattern: seq<string>, at: nat)
    requires cursor <= |lines| && position <= |source| && lines[cursor..] == source[position..]
    requires Found(lines, pattern, cursor, Some(at))
    ensures at >= cursor && Found(source, pattern, position, Some(at - cursor + position))
  {
    hide MatchesAt;
    var mode :| IsBest(lines, pattern, cursor, mode, at);
    var at' := at - cursor + position;
    MatchShift(lines, source, cursor, position, pattern, mode, at - cursor);
    forall k | position <= k < at' ensures !MatchesAt(source, pattern, mode, k) {
      MatchShift(lines, source, cursor, position, pattern, mode, k - position);
    }
    forall m: Mode, k | m.Stricter(mode) && position <= k ensures !MatchesAt(source, pattern, m, k) {
      MatchShift(lines, source, cursor, position, pattern, m, k - position);
    }
    assert IsBest(source, pattern, position, mode, at');
  }

  lemma NowhereShift(lines: seq<string>, source: seq<string>, cursor: nat, position: nat, pattern: seq<string>)
    requires cursor <= |lines| && position <= |source| && lines[cursor..] == source[position..]
    requires Nowhere(lines, pattern, cursor)
    ensures Nowhere(source, pattern, position)
  {
    forall m: Mode, k | position <= k ensures !MatchesAt(source, pattern, m, k) {
      MatchShift(lines, source, cursor, position, pattern, m, k - position);
    }
  }

  // A single pass over the source and splicing a growing vector of lines agree.
  ghost predicate InStep(source: seq<string>, regions: seq<Region>, lines: seq<string>, cursor: nat) {
    var position := EndOf(0, regions);
    && position <= |source| && cursor <= |lines|
    && lines[..cursor] == Rebuilt(source, regions) && lines[cursor..] == source[position..]
  }

  lemma SpliceInStep(source: seq<string>, regions: seq<Region>, lines: seq<string>, cursor: nat, start: nat, chunk: Chunk)
    requires InStep(source, regions, lines, cursor) && cursor <= start && start + |chunk.before| <= |lines|
    ensures var r := Region(start - cursor + EndOf(0, regions), chunk);
            && EndOf(0, regions) <= r.from && r.End() <= |source|
            && InStep(source, regions + [r], lines[..start] + chunk.after + lines[start + |chunk.before|..], start + |chunk.after|)
  {
    var position := EndOf(0, regions);
    var r := Region(start - cursor + position, chunk);
    var lines' := lines[..start] + chunk.after + lines[start + |chunk.before|..];
    assert |lines[cursor..]| == |source[position..]|;
    assert (regions + [r])[..|regions|] == regions;
    SliceShift(lines, source, cursor, position, 0, start - cursor);
    assert lines[..start] == lines[..cursor] + lines[cursor..start];
    assert lines'[..start + |chunk.after|] == Rebuilt(source, regions + [r]);
    assert lines[start + |chunk.before|..] == lines[cursor..][start + |chunk.before| - cursor..];
    assert source[r.End()..] == source[position..][r.End() - position..];
    assert lines'[start + |chunk.after|..] == lines[start + |chunk.before|..];
  }

  lemma RegionsAppend(source: seq<string>, chunks: seq<Chunk>, i: nat, regions: seq<Region>, r: Region)
    requires i < |chunks| && Regions(source, chunks[..i], regions) && r.chunk == chunks[i]
    requires EndOf(0, regions) <= r.from && r.End() <= |source| && Places(source, EndOf(0, regions), r)
    ensures Regions(source, chunks[..i + 1], regions + [r])
  {
    var all, some, fewer := regions + [r], chunks[..i + 1], chunks[..i];
    forall k | 0 <= k < |all| ensures RegionOk(source, some, all, k) {
      if k < i {
        assert RegionOk(source, fewer, regions, k);
        assert all[..k] == regions[..k];
      } else {
        assert all[..k] == regions;
      }
    }
  }

  lemma ContextIsUnique(source: seq<string>, chunk: Chunk, position: nat, p: nat, p': nat)
    requires AfterContext(source, chunk, position, p) && AfterContext(source, chunk, position, p')
    ensures p == p'
  {
    if chunk.context.Some? {
      FoundIsUnique(source, [chunk.context.value], position, p - 1, p' - 1);
    }
  }

  lemma PlaceIsUnique(source: seq<string>, position: nat, r: Region, r': Region)
    requires r.chunk == r'.chunk && Places(source, position, r) && Places(source, position, r')
    ensures r == r'
  {
    var p: nat :| AfterContext(source, r.chunk, position, p) && PlacesFrom(source, r.chunk, p, r.from);
    var p': nat :| AfterContext(source, r.chunk, position, p') && PlacesFrom(source, r.chunk, p', r'.from);
    ContextIsUnique(source, r.chunk, position, p, p');
    if r.chunk.before != [] {
      FoundIsUnique(source, r.chunk.before, p, r.from, r'.from);
    }
  }

  lemma FoundIsUnique(lines: seq<string>, pattern: seq<string>, start: nat, at: nat, at': nat)
    requires Found(lines, pattern, start, Some(at)) && Found(lines, pattern, start, Some(at'))
    ensures at == at'
  {
    hide IsBest;
    var m :| IsBest(lines, pattern, start, m, at);
    var n :| IsBest(lines, pattern, start, n, at');
    BestIsUnique(lines, pattern, start, m, at, n, at');
  }

  // The regions of the first chunks are those of any way to place all of them.
  lemma {:induction false} RegionsAgree(source: seq<string>, chunks: seq<Chunk>, i: nat, regions: seq<Region>, all: seq<Region>)
    requires i <= |chunks| && Regions(source, chunks[..i], regions) && Regions(source, chunks, all)
    ensures all[..i] == regions
  {
    if i > 0 {
      var some, fewer, earlier := chunks[..i], chunks[..i - 1], regions[..i - 1];
      forall k | 0 <= k < i - 1 ensures RegionOk(source, fewer, earlier, k) {
        assert RegionOk(source, some, regions, k);
        assert earlier[..k] == regions[..k];
      }
      RegionsAgree(source, chunks, i - 1, earlier, all);
      assert RegionOk(source, some, regions, i - 1) && RegionOk(source, chunks, all, i - 1);
      PlaceIsUnique(source, EndOf(0, all[..i - 1]), regions[i - 1], all[i - 1]);
    }
  }

  ghost predicate Placeable(source: seq<string>, chunks: seq<Chunk>) {
    exists all :: Regions(source, chunks, all)
  }

  // A chunk with no place makes the whole patch unplaceable.
  lemma NoPlace(source: seq<string>, chunks: seq<Chunk>, i: nat, regions: seq<Region>)
    requires i < |chunks| && Regions(source, chunks[..i], regions)
    requires forall r: Region :: r.chunk == chunks[i] ==> !Places(source, EndOf(0, regions), r)
    ensures !Placeable(source, chunks)
  {
    forall all | Regions(source, chunks, all) ensures false {
      RegionPlaces(source, chunks, all, i);
      RegionsAgree(source, chunks, i, regions, all);
    }
  }

  lemma RegionPlaces(source: seq<string>, chunks: seq<Chunk>, all: seq<Region>, i: nat)
    requires Regions(source, chunks, all) && i < |chunks|
    ensures all[i].chunk == chunks[i] && Places(source, EndOf(0, all[..i]), all[i])
  {
    assert RegionOk(source, chunks, all, i);
  }

  // Looking for the context of a chunk, and for its old lines.
  method FindContext(source: seq<string>, ghost regions: seq<Region>, lines: seq<string>, cursor: nat, chunk: Chunk)
    returns (next: Option<nat>)
    requires InStep(source, regions, lines, cursor)
    ensures next.Some? ==> cursor <= next.value <= |lines|
    ensures next.Some? ==> AfterContext(source, chunk, EndOf(0, regions), next.value - cursor + EndOf(0, regions))
    ensures next.None? ==> forall p :: !AfterContext(source, chunk, EndOf(0, regions), p)
  {
    ghost var position := EndOf(0, regions);
    if chunk.context.None? {
      return Some(cursor);
    }
    var found := FindSequence(lines, [chunk.context.value], cursor);
    if found.None? {
      NowhereShift(lines, source, cursor, position, [chunk.context.value]);
      NoContext(source, chunk, position);
      return None;
    }
    FoundShift(lines, source, cursor, position, [chunk.context.value], found.value);
    FoundInside(lines, [chunk.context.value], cursor, found.value);
    return Some(found.value + 1);
  }

  lemma NoContext(source: seq<string>, chunk: Chunk, position: nat)
    requires chunk.context.Some? && Nowhere(source, [chunk.context.value], position)
    ensures forall p :: !AfterContext(source, chunk, position, p)
  {
  }

  lemma FoundInside(lines: seq<string>, pattern: seq<string>, start: nat, at: nat)
    requires Found(lines, pattern, start, Some(at))
    ensures start <= at && at + |pattern| <= |lines|
  {
  }

  method FindStart(source: seq<string>, ghost regions: seq<Region>, lines: seq<string>, cursor: nat, from: nat, ghost p: nat,
                   chunk: Chunk)
    returns (start: Option<nat>)
    requires InStep(source, regions, lines, cursor) && cursor <= from <= |lines| && p == from - cursor + EndOf(0, regions)
    ensures start.Some? ==> cursor <= start.value && start.value + |chunk.before| <= |lines|
    ensures start.Some? ==> PlacesFrom(source, chunk, p, start.value - cursor + EndOf(0, regions))
    ensures start.None? ==> forall f :: !PlacesFrom(source, chunk, p, f)
  {
    ghost var position := EndOf(0, regions);
    assert |lines[cursor..]| == |source[position..]|;
    assert lines[from..] == lines[cursor..][from - cursor..] && source[p..] == source[position..][from - cursor..];
    var at: nat;
    if chunk.before == [] {
      at := if chunk.endOfFile then |lines| else from;
    } else {
      var found := FindSequence(lines, chunk.before, from);
      if found.None? {
        NowhereShift(lines, source, from, p, chunk.before);
        return None;
      }
      at := found.value;
      FoundInside(lines, chunk.before, from, at);
      FoundShift(lines, source, from, p, chunk.before, at);
    }
    if chunk.endOfFile && at + |chunk.before| != |lines| {
      forall f ensures !PlacesFrom(source, chunk, p, f) {
        if chunk.before != [] && Found(source, chunk.before, p, Some(f)) {
          FoundIsUnique(source, chunk.before, p, f, at - from + p);
        }
      }
      return None;
    }
    return Some(at);
  }

  /** Splicing chunk after chunk. It succeeds exactly when every chunk has a place behind
      the one before, and then those regions of the source, and nothing else, have been
      replaced by the chunks' new lines. */
  method ApplyToLines(source: seq<string>, chunks: seq<Chunk>) returns (r: Option<seq<string>>, ghost regions: seq<Region>)
    ensures r.Some? <==> Placeable(source, chunks)
    ensures r.Some? ==> Regions(source, chunks, regions) && r.value == Replaced(source, regions)
  {
    hide InStep, Regions, Places, AfterContext, PlacesFrom, Placeable, Replaced, EndOf;
    var lines: seq<string>, cursor: nat := source, 0;
    regions := [];
    NothingReplaced(source);
    assert chunks[..0] == [];
    for i := 0 to |chunks|
      invariant InStep(source, regions, lines, cursor) && Regions(source, chunks[..i], regions)
    {
      var chunk := chunks[i];
      ghost var position := EndOf(0, regions);
      var next := FindContext(source, regions, lines, cursor, chunk);
      if next.None? {
        NoContextNoPlace(source, chunks, i, regions);
        return None, regions;
      }
      var start := FindStart(source, regions, lines, cursor, next.value, next.value - cursor + position, chunk);
      if start.None? {
        NoPlaceFrom(source, chunks, i, regions, next.value - cursor + position);
        return None, regions;
      }
      ghost var region := Region(start.value - cursor + position, chunk);
      SpliceInStep(source, regions, lines, cursor, start.value, chunk);
      PlacesBy(source, position, next.value - cursor + position, region);
      RegionsAppend(source, chunks, i, regions, region);
      regions := regions + [region];
      lines := lines[..start.value] + chunk.after + lines[start.value + |chunk.before|..];
      cursor := start.value + |chunk.after|;
    }
    assert chunks[..|chunks|] == chunks;
    AllReplaced(source, regions, lines, cursor);
    PlaceableBy(source, chunks, regions);
    return Some(lines), regions;
  }

  lemma NothingReplaced(source: seq<string>)
    ensures InStep(source, [], source, 0) && Regions(source, [], []) && EndOf(0, []) == 0
  {
  }

  lemma AllReplaced(source: seq<string>, regions: seq<Region>, lines: seq<string>, cursor: nat)
    requires InStep(source, regions, lines, cursor)
    ensures lines == Replaced(source, regions)
  {
    assert lines == lines[..cursor] + lines[cursor..];
  }

  lemma PlaceableBy(source: seq<string>, chunks: seq<Chunk>, regions: seq<Region>)
    requires Regions(source, chunks, regions)
    ensures Placeable(source, chunks)
  {
  }

  lemma PlacesBy(source: seq<string>, position: nat, p: nat, r: Region)
    requires AfterContext(source, r.chunk, position, p) && PlacesFrom(source, r.chunk, p, r.from)
    ensures Places(source, position, r)
  {
  }

  lemma NoContextNoPlace(source: seq<string>, chunks: seq<Chunk>, i: nat, regions: seq<Region>)
    requires i < |chunks| && Regions(source, chunks[..i], regions)
    requires forall p :: !AfterContext(source, chunks[i], EndOf(0, regions), p)
    ensures !Placeable(source, chunks)
  {
    NoPlace(source, chunks, i, regions);
  }

  lemma NoPlaceFrom(source: seq<string>, chunks: seq<Chunk>, i: nat, regions: seq<Region>, p: nat)
    requires i < |chunks| && Regions(source, chunks[..i], regions)
    requires AfterContext(source, chunks[i], EndOf(0, regions), p)
    requires forall f :: !PlacesFrom(source, chunks[i], p, f)
    ensures !Placeable(source, chunks)
  {
    var position := EndOf(0, regions);
    forall r: Region | r.chunk == chunks[i] ensures !Places(source, position, r) {
      forall p': nat | AfterContext(source, r.chunk, position, p') ensures p' == p {
        ContextIsUnique(source, r.chunk, position, p, p');
      }
    }
    NoPlace(source, chunks, i, regions);
  }

  // ---- whole files ----

  // The lines of a file; a line feed at its end does not begin another one.
  function FileLines(source: string): seq<string> {
    var lines := Text.CleanLines(source);
    if lines[|lines| - 1] == "" then lines[..|lines| - 1] else lines
  }

  // A file in which a line feed ends every line.
  function Ended(lines: seq<string>): string {
    if lines == [] then "" else lines[0] + "\n" + Ended(lines[1..])
  }

  // Lines are separated, and a line feed is put behind the last one.
  method FileText(lines: seq<string>) returns (text: string)
    ensures text == Ended(lines)
  {
    JoinEnded(lines);
    text := if lines == [] then "" else Text.Join(lines) + "\n";
  }

  lemma {:induction false} JoinEnded(lines: seq<string>)
    ensures Ended(lines) == if lines == [] then "" else Text.Join(lines) + "\n"
  {
    if |lines| > 1 {
      JoinEnded(lines[1..]);
      assert lines[0] + "\n" + (Text.Join(lines[1..]) + "\n") == lines[0] + "\n" + Text.Join(lines[1..]) + "\n";
    } else if |lines| == 1 {
      assert lines[1..] == [] && lines[0] + "\n" + "" == lines[0] + "\n";
    }
  }

  method ReadLines(source: string) returns (lines: seq<string>)
    ensures lines == FileLines(source)
  {
    Text.NormalizeCleans(source);
    lines := Text.Split(Text.Normalize(source));
    if lines[|lines| - 1] == "" {
      lines := lines[..|lines| - 1];
    }
  }

  method ApplyChunks(source: string, chunks: seq<Chunk>) returns (r: Result<string>, ghost regions: seq<Region>)
    ensures r.Success? <==> Placeable(FileLines(source), chunks)
    ensures r.Success? ==>
              Regions(FileLines(source), chunks, regions) && r.value == Ended(Replaced(FileLines(source), regions))
  {
    var lines := ReadLines(source);
    var after, places := ApplyToLines(lines, chunks);
    regions := places;
    if after.None? {
      return Failure("failed to find expected lines"), regions;
    }
    var text := FileText(after.value);
    r := Success(text);
  }

  /** Without chunks a file keeps its lines: those between its line feeds, each without the
      carriage return before its line feed, and each ended by a line feed afterwards. */
  lemma NothingToApply(source: string)
    ensures var parts := Text.Split(source); var n := |parts| - 1;
            var lines := Replaced(FileLines(source), []);
            && |lines| == (if parts[n] == "" then n else n + 1)
            && (parts[n] != "" ==> lines[n] == parts[n])
            && forall i :: 0 <= i < n ==>
                 if parts[i] != "" && parts[i][|parts[i]| - 1] == '\r' then parts[i] == lines[i] + "\r" else lines[i] == parts[i]
  {
    Text.NormalizeLines(source);
    Text.NormalizeCleans(source);
    assert Replaced(FileLines(source), []) == FileLines(source);
  }
}
