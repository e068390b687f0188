// The Project change feed: pages of changed entities over a log that keeps growing.
module ChangeFeed {
  import opened Wrappers
  import opened ArtifactPaging

  const MAX_CHANGES_PER_READ: nat := 10_001
  const ARTIFACT := "artifact"

  datatype Change = Change(sequence: nat, kind: string, id: string, sessionId: Option<nat>)
  type Key = (string, string)

  function KeyOf(c: Change): Key {
    (c.kind, c.id)
  }

  // Sequence numbers ascend, starting above zero.
  ghost predicate LogOk(log: seq<Change>) {
    && (forall i :: 0 <= i < |log| ==> log[i].sequence > 0)
    && (forall i, j :: 0 <= i < j < |log| ==> log[i].sequence < log[j].sequence)
  }

  function Captured(log: seq<Change>): nat {
    if log == [] then 0 else log[|log| - 1].sequence
  }

  datatype Text = Text(textual: bool, sha: string, content: seq<Byte>, fixed: nat -> nat)

  /** What the store holds when a page is made: the encoded size of each entity's
      snapshot (its tombstone, if it is gone), and the artifacts. */
  datatype Snapshots = Snapshots(size: Change -> nat, artifact: string -> Option<Text>)

  datatype Continuation = Continuation(id: string, sha: string, offset: nat)
  datatype Cursor = Cursor(sequence: nat, continuation: Option<Continuation>)

  datatype Resource =
    | Whole(change: Change)
    | Slice(id: string, from: nat, to: nat, complete: bool)

  datatype Page = Page(cursor: Cursor, hasMore: bool, resources: seq<Resource>)

  // ---- reading a batch ----

  function BatchAfter(log: seq<Change>, after: nat): seq<Change> {
    if log == [] then [] else
    if log[0].sequence <= after then BatchAfter(log[1..], after) else
    if |log| <= MAX_CHANGES_PER_READ then log else log[..MAX_CHANGES_PER_READ]
  }

  lemma TailSlice(log: seq<Change>, lo: nat, hi: nat)
    requires 1 <= lo <= hi <= |log|
    ensures log[1..][lo - 1..hi - 1] == log[lo..hi]
  {
  }

  lemma {:induction false} BatchIsSlice(log: seq<Change>, after: nat, lo: nat, hi: nat)
    requires lo <= hi <= |log| && (hi == |log| || hi == lo + MAX_CHANGES_PER_READ) && hi <= lo + MAX_CHANGES_PER_READ
    requires forall i :: 0 <= i < |log| ==> (log[i].sequence <= after <==> i < lo)
    ensures BatchAfter(log, after) == log[lo..hi]
  {
    if lo > 0 {
      assert log[0].sequence <= after;
      forall i | 0 <= i < |log[1..]| ensures log[1..][i].sequence <= after <==> i < lo - 1 {
        assert log[1..][i] == log[i + 1];
      }
      BatchIsSlice(log[1..], after, lo - 1, hi - 1);
      TailSlice(log, lo, hi);
    } else if log != [] {
      assert log[0].sequence > after;
      assert log[..|log|] == log;
    }
  }

  /** The next changes behind a sequence, no more than the read limit. */
  method ChangesAfter(log: seq<Change>, after: nat) returns (r: Result<seq<Change>>, ghost lo: nat, ghost hi: nat)
    requires LogOk(log)
    ensures r.Success? <==> after <= Captured(log)
    ensures r.Success? ==> r.value == BatchAfter(log, after)
    ensures r.Success? ==> lo <= hi <= |log| && r.value == log[lo..hi]
    ensures r.Success? ==> forall i :: 0 <= i < |log| ==> (log[i].sequence <= after <==> i < lo)
    ensures r.Success? ==> hi == |log| || hi == lo + MAX_CHANGES_PER_READ
  {
    lo, hi := 0, 0;
    if after > Captured(log) {
      return Failure("cursor is ahead of the log"), lo, hi;
    }
    var i := 0;
    while i < |log| && log[i].sequence <= after
      invariant 0 <= i <= |log|
      invariant forall j :: 0 <= j < i ==> log[j].sequence <= after
    {
      i := i + 1;
    }
    lo := i;
    var changes := [];
    while i < |log| && |changes| < MAX_CHANGES_PER_READ
      invariant lo <= i <= |log| && changes == log[lo..i] && |changes| <= MAX_CHANGES_PER_READ
    {
      changes := changes + [log[i]];
      i := i + 1;
    }
    hi := i;
    BatchIsSlice(log, after, lo, hi);
    return Success(changes), lo, hi;
  }

  // ---- the newest change of every entity of a batch ----

  ghost predicate Newest(changes: seq<Change>, excluded: Change -> bool, c: Change) {
    && c in changes && !excluded(c)
    && forall d :: d in changes && !excluded(d) && KeyOf(d) == KeyOf(c) ==> d.sequence <= c.sequence
  }

  // Later changes overwrite earlier ones in the map; its values are then put in order.
  method LatestEntityChanges(changes: seq<Change>, excluded: Change -> bool) returns (latest: seq<Change>)
    requires LogOk(changes)
    ensures LogOk(latest)
    ensures forall c :: c in latest <==> Newest(changes, excluded, c)
  {
    var newest: map<Key, Change> := map[];
    for i := 0 to |changes|
      invariant forall k :: k in newest ==> KeyOf(newest[k]) == k && Newest(changes[..i], excluded, newest[k])
      invariant forall c :: c in changes[..i] && !excluded(c) ==> KeyOf(c) in newest
    {
      assert changes[..i + 1] == changes[..i] + [changes[i]];
      if !excluded(changes[i]) {
        newest := newest[KeyOf(changes[i]) := changes[i]];
      }
    }
    assert changes[..|changes|] == changes;
    latest := SortBySequence(newest.Values);
    forall c ensures c in latest <==> Newest(changes, excluded, c) {
      if Newest(changes, excluded, c) {
        assert KeyOf(c) in newest;
        SameSequence(changes, c, newest[KeyOf(c)]);
      }
    }
  }

  lemma SameSequence(log: seq<Change>, c: Change, d: Change)
    requires LogOk(log) && c in log && d in log
    ensures c.sequence == d.sequence ==> c == d
  {
  }

  lemma LeastExists(s: set<Change>)
    requires s != {}
    ensures exists c :: c in s && forall d :: d in s ==> c.sequence <= d.sequence
  {
    var c :| c in s;
    if s != {c} {
      LeastExists(s - {c});
      var e :| e in s - {c} && forall d :: d in s - {c} ==> e.sequence <= d.sequence;
      var least := if c.sequence <= e.sequence then c else e;
      forall d | d in s ensures least.sequence <= d.sequence {
        assert d == c || d in s - {c};
      }
    }
  }

  method SortBySequence(s: set<Change>) returns (sorted: seq<Change>)
    requires forall c :: c in s ==> c.sequence > 0
    requires forall c, d :: c in s && d in s && c.sequence == d.sequence ==> c == d
    ensures LogOk(sorted) && forall c :: c in sorted <==> c in s
  {
    NothingSorted();
    hide LogOk;
    sorted := [];
    var rest := s;
    while rest != {}
      invariant rest <= s && LogOk(sorted)
      invariant forall c :: c in sorted <==> c in s && c !in rest
      invariant forall c, d :: c in sorted && d in rest ==> c.sequence < d.sequence
      decreases |rest|
    {
      LeastExists(rest);
      var c :| c in rest && forall d :: d in rest ==> c.sequence <= d.sequence;
      SortedMore(sorted, c);
      sorted := sorted + [c];
      rest := rest - {c};
    }
  }

  lemma NothingSorted()
    ensures LogOk([])
  {
  }

  lemma SortedMore(sorted: seq<Change>, c: Change)
    requires LogOk(sorted) && c.sequence > 0 && forall d :: d in sorted ==> d.sequence < c.sequence
    ensures LogOk(sorted + [c])
  {
  }

  // ---- what one page promises ----

  // What a page finishes delivering: an entity, as of a change of it.
  predicate Finishes(page: Page, key: Key, sequence: nat) {
    exists i :: 0 <= i < |page.resources| && match page.resources[i]
      case Whole(change) => KeyOf(change) == key && change.sequence == sequence
      case Slice(id, _, _, complete) => complete && key == (ARTIFACT, id) && sequence == page.cursor.sequence
  }

  // A newer change of the same entity is still to be reported.
  ghost predicate Upcoming(log: seq<Change>, excluded: Change -> bool, after: nat, c: Change) {
    exists d :: d in log && !excluded(d) && KeyOf(d) == KeyOf(c) && d.sequence > after && d.sequence > c.sequence
  }

  predicate Continues(cursor: Cursor, key: Key) {
    cursor.continuation.Some? && key == (ARTIFACT, cursor.continuation.value.id)
  }

  ghost predicate Reported(log: seq<Change>, excluded: Change -> bool, page: Page, c: Change) {
    || (exists t :: t >= c.sequence && Finishes(page, KeyOf(c), t))
    || Upcoming(log, excluded, page.cursor.sequence, c)
    || Continues(page.cursor, KeyOf(c))
  }

  // Later in the log, or further in the artifact being paged.
  predicate Advances(cursor: Cursor, cursor': Cursor) {
    || cursor.sequence < cursor'.sequence
    || (cursor.sequence == cursor'.sequence && cursor.continuation.Some?
        && (cursor'.continuation.None?
            || (cursor'.continuation.value.id == cursor.continuation.value.id
                && cursor.continuation.value.offset < cursor'.continuation.value.offset)))
  }

  function TotalSize(snapshots: Snapshots, resources: seq<Resource>): nat {
    if resources == [] then 0 else
      TotalSize(snapshots, resources[..|resources| - 1])
      + match resources[|resources| - 1]
        case Whole(change) => snapshots.size(change) + 1
        case Slice(_, _, _, _) => 0
  }

  ghost predicate Genuine(log: seq<Change>, excluded: Change -> bool, after: nat, upto: nat, r: Resource) {
    r.Whole? ==> r.change in log && !excluded(r.change) && after < r.change.sequence <= upto
  }

  /** Every change the cursor passes is reported, will be superseded, or belongs to the
      artifact being paged; a page with more to come makes progress; one without leaves
      nothing behind. */
  ghost predicate PageOk(log: seq<Change>, excluded: Change -> bool, cursor: Cursor, page: Page) {
    && cursor.sequence <= page.cursor.sequence
    && (cursor.sequence <= Captured(log) ==> page.cursor.sequence <= Captured(log))
    && (forall c :: c in log && !excluded(c) && cursor.sequence < c.sequence <= page.cursor.sequence ==>
          Reported(log, excluded, page, c))
    && (cursor.continuation.Some? ==>
          var key := (ARTIFACT, cursor.continuation.value.id);
          Finishes(page, key, page.cursor.sequence) || (Continues(page.cursor, key) && page.cursor.sequence == cursor.sequence))
    && (forall i :: 0 <= i < |page.resources| ==>
          Genuine(log, excluded, cursor.sequence, page.cursor.sequence, page.resources[i]))
    && (page.hasMore ==> Advances(cursor, page.cursor))
    && (!page.hasMore ==> page.cursor.continuation.None? && Captured(log) <= page.cursor.sequence)
  }

  // Whole snapshots share a page only as long as they fit.
  ghost predicate WithinLimit(snapshots: Snapshots, page: Page) {
    || TotalSize(snapshots, page.resources) + PAGE_RESERVE_BYTES <= PAGE_BYTES
    || (|page.resources| == 1 && (page.resources[0].Slice? || snapshots.artifact(page.resources[0].change.id).None?))
  }

  // ---- pages of one artifact ----

  // Not even one character fits behind the offset.
  ghost predicate NoRoom(text: Text, offset: nat) {
    && offset < |text.content|
    && forall i :: offset < i <= |text.content| && IsBoundary(text.content, i) ==> !Fits(text.content, text.fixed(offset), offset, i)
  }

  // The rest of the content fits one page.
  predicate IsRest(text: Text, offset: nat) {
    offset == |text.content| || (offset < |text.content| && Fits(text.content, text.fixed(offset), offset, |text.content|))
  }

  /** Why a page of an artifact cannot be made: the offset is not a place in the text, no
      character fits, or the cursor is ahead of the log where it matters. */
  ghost predicate SliceRefused(log: seq<Change>, sequence: nat, text: Text, offset: nat) {
    || offset > |text.content| || !IsBoundary(text.content, offset)
    || NoRoom(text, offset)
    || (IsRest(text, offset) && sequence > Captured(log))
  }

  /** The page is the longest slice from the offset on that fits, and names what is left. */
  ghost predicate IsSlicePage(page: Page, id: string, text: Text, offset: nat) {
    exists end ::
      && IsPageEnd(text.content, text.fixed(offset), offset, end)
      && page.resources == [Slice(id, offset, end, end == |text.content|)]
      && page.cursor.continuation == (if end == |text.content| then None else Some(Continuation(id, text.sha, end)))
  }

  /** A page that starts an artifact begins at its beginning, and one that continues it goes
      on, in the same artifact, where the cursor says. */
  ghost predicate SlicesOk(snapshots: Snapshots, cursor: Cursor, page: Page) {
    if cursor.continuation.Some? then
      var continuation := cursor.continuation.value;
      var artifact := snapshots.artifact(continuation.id);
      artifact.Some? && artifact.value.sha == continuation.sha && IsSlicePage(page, continuation.id, artifact.value, continuation.offset)
    else page.cursor.continuation.Some? ==>
      var artifact := snapshots.artifact(page.cursor.continuation.value.id);
      artifact.Some? && IsSlicePage(page, page.cursor.continuation.value.id, artifact.value, 0)
  }

  lemma NoSlices(snapshots: Snapshots, cursor: Cursor, page: Page)
    requires cursor.continuation.None? && page.cursor.continuation.None?
    ensures SlicesOk(snapshots, cursor, page)
  {
  }

  // Where a page starts does not matter to an artifact it starts.
  lemma SlicesElsewhere(snapshots: Snapshots, cursor: Cursor, moved: Cursor, page: Page)
    requires cursor.continuation.None? && moved.continuation.None? && SlicesOk(snapshots, moved, page)
    ensures SlicesOk(snapshots, cursor, page)
  {
  }

  // The last boundary that fits is the end exactly when the rest fits.
  lemma RestEnds(text: Text, offset: nat, end: nat)
    requires offset <= |text.content| && IsPageEnd(text.content, text.fixed(offset), offset, end)
    ensures end == |text.content| <==> IsRest(text, offset)
  {
    assert IsBoundary(text.content, |text.content|);
  }

  method ArtifactPage(log: seq<Change>, cursor: Cursor, sequence: nat, id: string, text: Text, offset: nat) returns (r: Result<Page>)
    requires LogOk(log) && cursor.sequence <= sequence
    ensures r.Success? ==> offset <= |text.content| && IsBoundary(text.content, offset)
    ensures r.Success? ==>
              && r.value.cursor.sequence == sequence
              && (r.value.hasMore <==> r.value.cursor.continuation.Some? || Captured(log) > sequence)
              && (r.value.cursor.continuation.None? ==> sequence <= Captured(log))
    ensures r.Success? ==> IsSlicePage(r.value, id, text, offset)
    ensures r.Failure? <==> SliceRefused(log, sequence, text, offset)
  {
    if offset > |text.content| || !IsBoundary(text.content, offset) {
      return Failure("continuation offset is invalid");
    }
    var end :- FitArtifactEnd(text.content, text.fixed(offset), offset);
    RestEnds(text, offset, end);
    var complete := end == |text.content|;
    var next := Cursor(sequence, if complete then None else Some(Continuation(id, text.sha, end)));
    var hasMore := !complete;
    if complete {
      var batch, _, _ := ChangesAfter(log, sequence);
      if batch.Failure? {
        return Failure(batch.reason);
      }
      hasMore := Captured(log) > sequence;
    }
    return Success(Page(next, hasMore, [Slice(id, offset, end, complete)]));
  }

  // An artifact whose first page cannot be made.
  ghost predicate StartRefused(snapshots: Snapshots, id: string) {
    var artifact := snapshots.artifact(id);
    artifact.Some? && (!artifact.value.textual || NoRoom(artifact.value, 0))
  }

  method StartArtifact(log: seq<Change>, excluded: Change -> bool, snapshots: Snapshots, cursor: Cursor, change: Change) returns (r: Result<Page>)
    requires LogOk(log) && cursor.continuation.None?
    requires change in log && !excluded(change) && cursor.sequence < change.sequence && change.kind == ARTIFACT
    requires forall c :: c in log && !excluded(c) && cursor.sequence < c.sequence < change.sequence ==>
               Upcoming(log, excluded, change.sequence - 1, c)
    ensures r.Success? ==> PageOk(log, excluded, cursor, r.value) && WithinLimit(snapshots, r.value)
    ensures r.Success? ==> SlicesOk(snapshots, cursor, r.value)
    ensures r.Failure? <==> StartRefused(snapshots, change.id)
  {
    BelowCaptured(log, change);
    var artifact := snapshots.artifact(change.id);
    if artifact.None? {
      var page := Page(Cursor(change.sequence, None), true, [Whole(change)]);
      assert page.resources[0] == Whole(change);
      assert Finishes(page, KeyOf(change), change.sequence);
      FirstReported(log, excluded, cursor, page, change);
      return Success(page);
    }
    if !artifact.value.textual {
      return Failure("binary artifact metadata exceeds the page limit");
    }
    r := ArtifactPage(log, cursor, change.sequence, change.id, artifact.value, 0);
    if r.Success? {
      var page := r.value;
      if page.cursor.continuation.None? {
        assert page.resources[0].Slice? && page.resources[0].complete;
        assert Finishes(page, KeyOf(change), change.sequence);
      }
      FirstReported(log, excluded, cursor, page, change);
    }
  }

  lemma BelowCaptured(log: seq<Change>, c: Change)
    requires LogOk(log) && c in log
    ensures c.sequence <= Captured(log)
  {
  }

  // All changes before the first reported one are superseded by it or by later ones.
  lemma FirstReported(log: seq<Change>, excluded: Change -> bool, cursor: Cursor, page: Page, change: Change)
    requires LogOk(log) && change in log && !excluded(change) && page.cursor.sequence == change.sequence
    requires forall c :: c in log && !excluded(c) && cursor.sequence < c.sequence < change.sequence ==>
               Upcoming(log, excluded, change.sequence - 1, c)
    requires Finishes(page, KeyOf(change), change.sequence) || Continues(page.cursor, KeyOf(change))
    ensures forall c :: c in log && !excluded(c) && cursor.sequence < c.sequence <= change.sequence ==>
              Reported(log, excluded, page, c)
  {
    forall c | c in log && !excluded(c) && cursor.sequence < c.sequence <= change.sequence
      ensures Reported(log, excluded, page, c)
    {
      if c.sequence == change.sequence {
        SameSequence(log, c, change);
      } else {
        var d :| d in log && !excluded(d) && KeyOf(d) == KeyOf(c) && d.sequence > change.sequence - 1 && d.sequence > c.sequence;
        if d.sequence == change.sequence {
          SameSequence(log, d, change);
        } else {
          assert Upcoming(log, excluded, page.cursor.sequence, c);
        }
      }
    }
  }

  /** Why a continuation is refused: the artifact is gone or changed, or its next page
      cannot be made. */
  ghost predicate ContinuationRefused(log: seq<Change>, snapshots: Snapshots, cursor: Cursor)
    requires cursor.continuation.Some?
  {
    var continuation := cursor.continuation.value;
    var artifact := snapshots.artifact(continuation.id);
    || artifact.None? || artifact.value.sha != continuation.sha
    || SliceRefused(log, cursor.sequence, artifact.value, continuation.offset)
  }

  method ContinueArtifact(log: seq<Change>, excluded: Change -> bool, snapshots: Snapshots, cursor: Cursor) returns (r: Result<Page>)
    requires LogOk(log) && cursor.continuation.Some?
    ensures r.Success? ==> PageOk(log, excluded, cursor, r.value)
    ensures r.Failure? <==> ContinuationRefused(log, snapshots, cursor)
    ensures r.Success? ==> SlicesOk(snapshots, cursor, r.value)
  {
    var continuation := cursor.continuation.value;
    var artifact := snapshots.artifact(continuation.id);
    if artifact.None? {
      return Failure("not found");
    }
    if artifact.value.sha != continuation.sha {
      return Failure("artifact changed while its snapshot was paged");
    }
    r := ArtifactPage(log, cursor, cursor.sequence, continuation.id, artifact.value, continuation.offset);
    if r.Success? && r.value.cursor.continuation.None? {
      assert r.value.resources[0].Slice? && r.value.resources[0].complete;
      assert Finishes(r.value, (ARTIFACT, continuation.id), r.value.cursor.sequence);
    }
  }

  // ---- a page of whole snapshots ----

  // Changes the cursor may pass without a report.
  ghost predicate AllExcluded(log: seq<Change>, excluded: Change -> bool, after: nat, upto: nat) {
    forall c :: c in log && after < c.sequence <= upto ==> excluded(c)
  }

  lemma SkipExcluded(log: seq<Change>, excluded: Change -> bool, cursor: Cursor, moved: Cursor, page: Page)
    requires PageOk(log, excluded, moved, page) && cursor.continuation.None? && moved.continuation.None?
    requires cursor.sequence <= moved.sequence && AllExcluded(log, excluded, cursor.sequence, moved.sequence)
    requires cursor.sequence <= Captured(log) ==> moved.sequence <= Captured(log)
    ensures PageOk(log, excluded, cursor, page)
  {
    forall i | 0 <= i < |page.resources|
      ensures Genuine(log, excluded, cursor.sequence, page.cursor.sequence, page.resources[i])
    {
      assert Genuine(log, excluded, moved.sequence, page.cursor.sequence, page.resources[i]);
    }
  }

  // Every change of a batch has a newest one in the batch, among the latest.
  lemma NewestExists(batch: seq<Change>, excluded: Change -> bool, c: Change) returns (d: Change)
    requires c in batch && !excluded(c)
    ensures Newest(batch, excluded, d) && KeyOf(d) == KeyOf(c) && d.sequence >= c.sequence
  {
    var same := set e | e in batch && !excluded(e) && KeyOf(e) == KeyOf(c);
    assert c in same;
    GreatestChange(same);
    d :| d in same && forall e :: e in same ==> e.sequence <= d.sequence;
  }

  lemma GreatestChange(s: set<Change>)
    requires s != {}
    ensures exists c :: c in s && forall d :: d in s ==> d.sequence <= c.sequence
  {
    var c :| c in s;
    if s != {c} {
      GreatestChange(s - {c});
      var e :| e in s - {c} && forall d :: d in s - {c} ==> d.sequence <= e.sequence;
      var greatest := if c.sequence >= e.sequence then c else e;
      forall d | d in s ensures d.sequence <= greatest.sequence {
        assert d == c || d in s - {c};
      }
    }
  }

  // The snapshots of the first k latest changes.
  function Wholes(latest: seq<Change>, k: nat): seq<Resource>
    requires k <= |latest|
  {
    seq(k, i requires 0 <= i < k => Whole(latest[i]))
  }

  ghost predicate BatchOf(log: seq<Change>, after: nat, batch: seq<Change>) {
    && (forall c :: c in batch ==> c in log && c.sequence > after)
    && (forall c :: c in log && c.sequence > after && batch != [] && c.sequence <= batch[|batch| - 1].sequence ==> c in batch)
    && (batch == [] ==> Captured(log) <= after)
  }

  lemma SliceOk(log: seq<Change>, lo: nat, hi: nat)
    requires LogOk(log) && lo <= hi <= |log|
    ensures LogOk(log[lo..hi])
  {
  }

  lemma SliceIndex(log: seq<Change>, lo: nat, hi: nat, c: Change) returns (i: nat)
    requires lo <= hi <= |log| && c in log[lo..hi]
    ensures lo <= i < hi && log[i] == c
  {
    var k :| 0 <= k < hi - lo && log[lo..hi][k] == c;
    i := lo + k;
  }

  lemma BatchIs(log: seq<Change>, after: nat, lo: nat, hi: nat)
    requires LogOk(log) && lo <= hi <= |log| && (hi == |log| || hi == lo + MAX_CHANGES_PER_READ)
    requires forall i :: 0 <= i < |log| ==> (log[i].sequence <= after <==> i < lo)
    ensures BatchOf(log, after, log[lo..hi]) && LogOk(log[lo..hi])
  {
    SliceOk(log, lo, hi);
    var batch := log[lo..hi];
    forall c | c in batch ensures c in log && c.sequence > after {
      var i := SliceIndex(log, lo, hi, c);
    }
    if batch != [] {
      assert batch[|batch| - 1] == log[hi - 1];
      forall i | lo <= i < |log| && log[i].sequence <= log[hi - 1].sequence ensures log[i] in batch {
        assert i < hi;
        assert batch[i - lo] == log[i];
      }
    }
  }

  // A change passed by a page of whole snapshots is delivered by it, or superseded.
  lemma WholesReport(log: seq<Change>, excluded: Change -> bool, after: nat, batch: seq<Change>, latest: seq<Change>,
                     k: nat, page: Page, c: Change)
    requires LogOk(log) && LogOk(batch) && LogOk(latest) && BatchOf(log, after, batch)
    requires forall d :: d in latest <==> Newest(batch, excluded, d)
    requires 0 < k <= |latest| && page.resources == Wholes(latest, k) && page.cursor.sequence == latest[k - 1].sequence
    requires c in log && !excluded(c) && after < c.sequence <= page.cursor.sequence
    ensures Reported(log, excluded, page, c)
  {
    InBatch(log, excluded, after, batch, latest[k - 1], c);
    var d := NewestExists(batch, excluded, c);
    assert d in latest;
    var i :| 0 <= i < |latest| && latest[i] == d;
    if i < k {
      assert page.resources[i] == Whole(d);
      assert Finishes(page, KeyOf(c), d.sequence);
    } else {
      assert d.sequence > page.cursor.sequence;
      assert Upcoming(log, excluded, page.cursor.sequence, c);
    }
  }

  lemma InBatch(log: seq<Change>, excluded: Change -> bool, after: nat, batch: seq<Change>, last: Change, c: Change)
    requires LogOk(batch) && BatchOf(log, after, batch) && Newest(batch, excluded, last)
    requires c in log && after < c.sequence <= last.sequence
    ensures c in batch
  {
    var i :| 0 <= i < |batch| && batch[i] == last;
    assert last.sequence <= batch[|batch| - 1].sequence;
  }

  lemma WholePage(log: seq<Change>, excluded: Change -> bool, cursor: Cursor, batch: seq<Change>, latest: seq<Change>,
                  k: nat, page: Page)
    requires LogOk(log) && LogOk(batch) && LogOk(latest) && BatchOf(log, cursor.sequence, batch)
    requires cursor.continuation.None? && forall d :: d in latest <==> Newest(batch, excluded, d)
    requires 0 < k <= |latest| && page.resources == Wholes(latest, k)
    requires page.cursor == Cursor(latest[k - 1].sequence, None)
    requires page.hasMore <==> page.cursor.sequence < Captured(log)
    ensures PageOk(log, excluded, cursor, page)
  {
    assert latest[k - 1] in latest;
    assert latest[k - 1] in batch;
    BelowCaptured(log, latest[k - 1]);
    forall c | c in log && !excluded(c) && cursor.sequence < c.sequence <= page.cursor.sequence
      ensures Reported(log, excluded, page, c)
    {
      WholesReport(log, excluded, cursor.sequence, batch, latest, k, page, c);
    }
    forall i | 0 <= i < |page.resources|
      ensures Genuine(log, excluded, cursor.sequence, page.cursor.sequence, page.resources[i])
    {
      assert latest[i] in latest;
      assert i < k - 1 ==> latest[i].sequence < latest[k - 1].sequence;
    }
  }

  // The artifact that is paged comes first among the latest changes.
  lemma FirstIsNext(log: seq<Change>, excluded: Change -> bool, after: nat, batch: seq<Change>, latest: seq<Change>)
    requires LogOk(log) && LogOk(batch) && LogOk(latest) && BatchOf(log, after, batch) && latest != []
    requires forall d :: d in latest <==> Newest(batch, excluded, d)
    ensures latest[0] in log && !excluded(latest[0]) && after < latest[0].sequence
    ensures forall c :: c in log && !excluded(c) && after < c.sequence < latest[0].sequence ==>
              Upcoming(log, excluded, latest[0].sequence - 1, c)
  {
    assert latest[0] in latest;
    assert latest[0] in batch;
    forall c | c in log && !excluded(c) && after < c.sequence < latest[0].sequence
      ensures Upcoming(log, excluded, latest[0].sequence - 1, c)
    {
      InBatch(log, excluded, after, batch, latest[0], c);
      var d := NewestExists(batch, excluded, c);
      assert d in latest;
      var i :| 0 <= i < |latest| && latest[i] == d;
      assert d.sequence >= latest[0].sequence;
    }
  }

  // When no change of the batch is reported, all of it is excluded.
  lemma NothingLatest(log: seq<Change>, excluded: Change -> bool, after: nat, batch: seq<Change>)
    requires LogOk(batch) && BatchOf(log, after, batch) && batch != []
    requires forall d :: !Newest(batch, excluded, d)
    ensures AllExcluded(log, excluded, after, batch[|batch| - 1].sequence)
  {
    forall c | c in log && after < c.sequence <= batch[|batch| - 1].sequence ensures excluded(c) {
      if !excluded(c) {
        var d := NewestExists(batch, excluded, c);
      }
    }
  }

  // The first change a batch would report.
  ghost predicate IsFirst(batch: seq<Change>, excluded: Change -> bool, c: Change) {
    Newest(batch, excluded, c) && forall d :: Newest(batch, excluded, d) ==> c.sequence <= d.sequence
  }

  // A change that neither fits a page nor can be paged.
  ghost predicate Unpageable(snapshots: Snapshots, c: Change) {
    && PAGE_RESERVE_BYTES + snapshots.size(c) + 1 > PAGE_BYTES
    && (c.kind == ARTIFACT ==> StartRefused(snapshots, c.id))
  }

  /** A batch cannot be reported when the first change of it can neither be sent whole nor
      be paged. */
  ghost predicate BatchRefused(batch: seq<Change>, excluded: Change -> bool, snapshots: Snapshots) {
    exists c :: IsFirst(batch, excluded, c) && Unpageable(snapshots, c)
  }

  lemma FirstOf(batch: seq<Change>, excluded: Change -> bool, snapshots: Snapshots, latest: seq<Change>)
    requires LogOk(batch) && LogOk(latest) && forall c :: c in latest <==> Newest(batch, excluded, c)
    ensures BatchRefused(batch, excluded, snapshots) <==> latest != [] && Unpageable(snapshots, latest[0])
  {
    hide Unpageable, Newest;
    if latest != [] {
      assert latest[0] in latest;
      assert IsFirst(batch, excluded, latest[0]);
      forall c | IsFirst(batch, excluded, c) ensures c == latest[0] {
        assert c in latest;
        SameSequence(latest, c, latest[0]);
      }
    } else {
      forall c ensures !IsFirst(batch, excluded, c) {
        assert c !in latest;
      }
    }
  }

  /** One batch: as many snapshots as fit, or the first page of an artifact that does
      not fit alone. None means that every change of the batch is excluded. */
  method PageOfBatch(log: seq<Change>, excluded: Change -> bool, snapshots: Snapshots, cursor: Cursor, batch: seq<Change>)
    returns (r: Result<Option<Page>>)
    requires LogOk(log) && LogOk(batch) && BatchOf(log, cursor.sequence, batch) && cursor.continuation.None? && batch != []
    ensures r.Success? && r.value.Some? ==> PageOk(log, excluded, cursor, r.value.value) && WithinLimit(snapshots, r.value.value)
    ensures r.Success? && r.value.Some? ==> SlicesOk(snapshots, cursor, r.value.value)
    ensures r.Success? && r.value.None? ==> AllExcluded(log, excluded, cursor.sequence, batch[|batch| - 1].sequence)
    ensures r.Success? && r.value.None? <==> forall c :: c in batch ==> excluded(c)
    ensures r.Failure? <==> BatchRefused(batch, excluded, snapshots)
  {
    hide PageOk, BatchOf, Newest, AllExcluded, Upcoming, LogOk, StartRefused, BatchRefused, SlicesOk;
    var latest := LatestEntityChanges(batch, excluded);
    FirstOf(batch, excluded, snapshots, latest);
    LatestOrExcluded(batch, excluded, latest);
    var resources: seq<Resource>, encodedBytes := [], PAGE_RESERVE_BYTES;
    var k: nat := 0;
    while k < |latest|
      invariant k <= |latest| && resources == Wholes(latest, k)
      invariant encodedBytes == TotalSize(snapshots, resources) + PAGE_RESERVE_BYTES <= PAGE_BYTES
      invariant k > 0 ==> !Unpageable(snapshots, latest[0])
    {
      var change := latest[k];
      var size := snapshots.size(change) + 1;
      if encodedBytes + size > PAGE_BYTES {
        if resources == [] && change.kind == ARTIFACT {
          FirstIsNext(log, excluded, cursor.sequence, batch, latest);
          var page :- StartArtifact(log, excluded, snapshots, cursor, change);
          return Success(Some(page));
        }
        if resources == [] {
          return Failure("snapshot exceeds the page limit");
        }
        break;
      }
      encodedBytes := encodedBytes + size;
      assert (resources + [Whole(change)])[..k] == resources;
      resources := resources + [Whole(change)];
      assert resources == Wholes(latest, k + 1);
      k := k + 1;
    }
    if resources == [] {
      assert latest == [];
      NothingLatest(log, excluded, cursor.sequence, batch);
      return Success(None);
    }
    var next := Cursor(latest[k - 1].sequence, None);
    var page := Page(next, next.sequence < Captured(log), resources);
    WholePage(log, excluded, cursor, batch, latest, k, page);
    NoSlices(snapshots, cursor, page);
    return Success(Some(page));
  }

  // There is something to report exactly when not everything is excluded.
  lemma LatestOrExcluded(batch: seq<Change>, excluded: Change -> bool, latest: seq<Change>)
    requires LogOk(batch) && forall c :: c in latest <==> Newest(batch, excluded, c)
    ensures latest == [] <==> forall c :: c in batch ==> excluded(c)
  {
    if latest != [] {
      assert latest[0] in latest;
    }
    forall c | c in batch && !excluded(c) ensures latest != [] {
      var d := NewestExists(batch, excluded, c);
      assert d in latest;
    }
  }

  lemma {:induction false} BatchMoves(log: seq<Change>, after: nat)
    requires LogOk(log) && BatchAfter(log, after) != []
    ensures var batch := BatchAfter(log, after); after < batch[|batch| - 1].sequence <= Captured(log)
  {
    if log[0].sequence <= after {
      LogTail(log);
      BatchMoves(log[1..], after);
    } else {
      assert log[0].sequence <= log[|BatchAfter(log, after)| - 1].sequence <= log[|log| - 1].sequence;
    }
  }

  lemma LogTail(log: seq<Change>)
    requires LogOk(log) && log != []
    ensures LogOk(log[1..]) && (|log| > 1 ==> Captured(log[1..]) == Captured(log))
  {
  }

  /** The batch a page is made of: the first with a change that is not excluded. */
  ghost function NextBatch(log: seq<Change>, excluded: Change -> bool, after: nat): seq<Change>
    requires LogOk(log)
    decreases if after <= Captured(log) then Captured(log) - after else 0
  {
    var batch := BatchAfter(log, after);
    if batch == [] || exists c :: c in batch && !excluded(c) then batch else
      BatchMoves(log, after);
      NextBatch(log, excluded, batch[|batch| - 1].sequence)
  }

  lemma NextBatchIs(log: seq<Change>, excluded: Change -> bool, after: nat)
    requires LogOk(log)
    ensures var batch := BatchAfter(log, after);
            NextBatch(log, excluded, after) ==
              if batch != [] && forall c :: c in batch ==> excluded(c)
              then NextBatch(log, excluded, batch[|batch| - 1].sequence) else batch
  {
    hide LogOk, BatchAfter;
    if BatchAfter(log, after) != [] {
      BatchMoves(log, after);
    }
  }

  /** Why there is no page: the cursor is ahead of the log, a continuation is refused, or
      so is the batch to report. */
  ghost predicate PageRefused(log: seq<Change>, excluded: Change -> bool, snapshots: Snapshots, cursor: Cursor)
    requires LogOk(log)
  {
    if cursor.continuation.Some? then ContinuationRefused(log, snapshots, cursor)
    else cursor.sequence > Captured(log) || BatchRefused(NextBatch(log, excluded, cursor.sequence), excluded, snapshots)
  }

  lemma NothingRefused(excluded: Change -> bool, snapshots: Snapshots)
    ensures !BatchRefused([], excluded, snapshots)
  {
  }

  method ProjectSnapshotChanges(log: seq<Change>, excluded: Change -> bool, snapshots: Snapshots, cursor: Cursor) returns (r: Result<Page>)
    requires LogOk(log)
    ensures r.Success? ==> PageOk(log, excluded, cursor, r.value)
    ensures r.Success? && cursor.continuation.None? ==> WithinLimit(snapshots, r.value)
    ensures r.Success? ==> SlicesOk(snapshots, cursor, r.value)
    ensures r.Failure? <==> PageRefused(log, excluded, snapshots, cursor)
  {
    hide PageOk, AllExcluded, LogOk, BatchRefused, ContinuationRefused, BatchOf, WithinLimit, BatchAfter, NextBatch, SlicesOk;
    NothingRefused(excluded, snapshots);
    if cursor.continuation.Some? {
      r := ContinueArtifact(log, excluded, snapshots, cursor);
      return;
    }
    var sequence := cursor.sequence;
    ExcludedNone(log, excluded, sequence);
    while true
      invariant cursor.sequence <= sequence && AllExcluded(log, excluded, cursor.sequence, sequence)
      invariant sequence == cursor.sequence || sequence <= Captured(log)
      invariant NextBatch(log, excluded, sequence) == NextBatch(log, excluded, cursor.sequence)
      decreases Captured(log) - sequence
    {
      var changes, lo, hi := ChangesAfter(log, sequence);
      if changes.Failure? {
        return Failure(changes.reason);
      }
      BatchIs(log, sequence, lo, hi);
      NextBatchIs(log, excluded, sequence);
      var batch := changes.value;
      if batch == [] {
        NothingLeft(log, excluded, snapshots, cursor, sequence, batch);
        NoSlices(snapshots, cursor, Page(Cursor(Captured(log), None), false, []));
        return Success(Page(Cursor(Captured(log), None), false, []));
      }
      var page :- PageOfBatch(log, excluded, snapshots, Cursor(sequence, None), batch);
      if page.Some? {
        SkipExcluded(log, excluded, cursor, Cursor(sequence, None), page.value);
        SlicesElsewhere(snapshots, cursor, Cursor(sequence, None), page.value);
        return Success(page.value);
      }
      BatchMoves(log, sequence);
      ExcludedMore(log, excluded, cursor.sequence, sequence, batch[|batch| - 1].sequence);
      sequence := batch[|batch| - 1].sequence;
      if sequence >= Captured(log) {
        NothingMore(log, excluded, snapshots, cursor, sequence);
        NoSlices(snapshots, cursor, Page(Cursor(sequence, None), false, []));
        return Success(Page(Cursor(sequence, None), false, []));
      }
    }
  }

  lemma ExcludedNone(log: seq<Change>, excluded: Change -> bool, after: nat)
    ensures AllExcluded(log, excluded, after, after)
  {
  }

  lemma ExcludedMore(log: seq<Change>, excluded: Change -> bool, after: nat, upto: nat, further: nat)
    requires AllExcluded(log, excluded, after, upto) && AllExcluded(log, excluded, upto, further)
    ensures AllExcluded(log, excluded, after, further)
  {
  }

  // A page that reports nothing, because all that is left is excluded.
  lemma EmptyPage(log: seq<Change>, excluded: Change -> bool, snapshots: Snapshots, cursor: Cursor, sequence: nat)
    requires cursor.continuation.None? && cursor.sequence <= sequence && Captured(log) <= sequence
    requires cursor.sequence <= Captured(log) ==> sequence <= Captured(log)
    requires AllExcluded(log, excluded, cursor.sequence, sequence)
    ensures var page := Page(Cursor(sequence, None), false, []);
            PageOk(log, excluded, cursor, page) && WithinLimit(snapshots, page)
  {
  }

  lemma NothingLeft(log: seq<Change>, excluded: Change -> bool, snapshots: Snapshots, cursor: Cursor, sequence: nat, batch: seq<Change>)
    requires LogOk(log) && cursor.continuation.None? && cursor.sequence <= sequence <= Captured(log)
    requires batch == [] && batch == BatchAfter(log, sequence) && BatchOf(log, sequence, batch)
    requires AllExcluded(log, excluded, cursor.sequence, sequence)
    ensures var page := Page(Cursor(Captured(log), None), false, []);
            PageOk(log, excluded, cursor, page) && WithinLimit(snapshots, page)
    ensures NextBatch(log, excluded, sequence) == []
  {
    EmptyPage(log, excluded, snapshots, cursor, sequence);
  }

  lemma NothingMore(log: seq<Change>, excluded: Change -> bool, snapshots: Snapshots, cursor: Cursor, sequence: nat)
    requires LogOk(log) && cursor.continuation.None? && cursor.sequence <= sequence == Captured(log)
    requires AllExcluded(log, excluded, cursor.sequence, sequence)
    ensures var page := Page(Cursor(sequence, None), false, []);
            PageOk(log, excluded, cursor, page) && WithinLimit(snapshots, page)
    ensures NextBatch(log, excluded, sequence) == []
  {
    EmptyPage(log, excluded, snapshots, cursor, sequence);
    if BatchAfter(log, sequence) != [] {
      BatchMoves(log, sequence);
      assert false;
    }
  }

  // ---- following the cursors ----

  /** A page a reader got, and the log as it was then. */
  datatype Visit = Visit(log: seq<Change>, page: Page)

  function CursorAfter(visits: seq<Visit>): Cursor {
    if visits == [] then Cursor(0, None) else visits[|visits| - 1].page.cursor
  }

  function LogAfter(visits: seq<Visit>): seq<Change> {
    if visits == [] then [] else visits[|visits| - 1].log
  }

  // Each page answers the cursor of the one before, on a log that only grew.
  ghost predicate Followed(visits: seq<Visit>, excluded: Change -> bool) {
    visits != [] ==>
      var earlier, last := visits[..|visits| - 1], visits[|visits| - 1];
      && Followed(earlier, excluded) && LogOk(last.log) && LogAfter(earlier) <= last.log
      && PageOk(last.log, excluded, CursorAfter(earlier), last.page)
  }

  // A page has delivered the entity of c, in a state that already reflects c.
  ghost predicate Delivered(visits: seq<Visit>, c: Change) {
    exists i, t :: 0 <= i < |visits| && t >= c.sequence && Finishes(visits[i].page, KeyOf(c), t) && c in visits[i].log
  }

  ghost predicate Accounted(visits: seq<Visit>, excluded: Change -> bool, log: seq<Change>, c: Change) {
    || Delivered(visits, c)
    || Upcoming(log, excluded, CursorAfter(visits).sequence, c)
    || Continues(CursorAfter(visits), KeyOf(c))
  }

  lemma {:induction false} CursorInLog(visits: seq<Visit>, excluded: Change -> bool)
    requires Followed(visits, excluded)
    ensures CursorAfter(visits).sequence <= Captured(LogAfter(visits)) && LogOk(LogAfter(visits))
  {
    if visits != [] {
      var earlier := visits[..|visits| - 1];
      CursorInLog(earlier, excluded);
      CapturedGrows(LogAfter(earlier), LogAfter(visits));
    }
  }

  lemma CapturedGrows(log: seq<Change>, log': seq<Change>)
    requires LogOk(log) && LogOk(log') && log <= log'
    ensures Captured(log) <= Captured(log')
    ensures forall c :: c in log' && c.sequence <= Captured(log) ==> c in log
  {
    forall i | 0 <= i < |log'| && log'[i].sequence <= Captured(log) ensures log'[i] in log {
      if log != [] {
        assert log'[|log| - 1] == log[|log| - 1];
        assert log'[i] == log[i];
      }
    }
  }

  lemma DeliveredLonger(visits: seq<Visit>, more: Visit, c: Change)
    requires Delivered(visits, c)
    ensures Delivered(visits + [more], c)
  {
    var i, t :| 0 <= i < |visits| && t >= c.sequence && Finishes(visits[i].page, KeyOf(c), t) && c in visits[i].log;
    assert (visits + [more])[i] == visits[i];
  }

  // What the last page says about a change is what the whole reading knows.
  lemma ReportedNow(visits: seq<Visit>, excluded: Change -> bool, c: Change)
    requires visits != [] && c in LogAfter(visits)
    requires Reported(LogAfter(visits), excluded, visits[|visits| - 1].page, c)
    ensures Accounted(visits, excluded, LogAfter(visits), c)
  {
    var n := |visits| - 1;
    if t :| t >= c.sequence && Finishes(visits[n].page, KeyOf(c), t) {
      assert Delivered(visits, c);
    }
  }

  /** Every change the cursor has passed is delivered, superseded by a change to come,
      or part of the artifact that is being paged. */
  lemma {:induction false} PassedIsAccounted(visits: seq<Visit>, excluded: Change -> bool, c: Change)
    requires Followed(visits, excluded)
    requires c in LogAfter(visits) && !excluded(c) && c.sequence <= CursorAfter(visits).sequence
    ensures Accounted(visits, excluded, LogAfter(visits), c)
  {
    hide PageOk, Reported, Finishes;
    var n := |visits| - 1;
    var earlier, page, log := visits[..n], visits[n].page, visits[n].log;
    var before := CursorAfter(earlier);
    assert visits == earlier + [visits[n]];
    CursorInLog(earlier, excluded);
    if before.sequence < c.sequence {
      PageReports(log, excluded, before, page, c);
      ReportedNow(visits, excluded, c);
    } else {
      CapturedGrows(LogAfter(earlier), log);
      PassedIsAccounted(earlier, excluded, c);
      if Delivered(earlier, c) {
        DeliveredLonger(earlier, visits[n], c);
      } else if Continues(before, KeyOf(c)) {
        ContinuationMoves(visits, excluded, c);
      } else {
        StillUpcoming(visits, excluded, c);
      }
    }
  }

  lemma PageReports(log: seq<Change>, excluded: Change -> bool, cursor: Cursor, page: Page, c: Change)
    requires PageOk(log, excluded, cursor, page)
    requires c in log && !excluded(c) && cursor.sequence < c.sequence <= page.cursor.sequence
    ensures Reported(log, excluded, page, c)
  {
  }

  lemma ContinuationMoves(visits: seq<Visit>, excluded: Change -> bool, c: Change)
    requires Followed(visits, excluded) && visits != [] && c in LogAfter(visits)
    requires var before := CursorAfter(visits[..|visits| - 1]); Continues(before, KeyOf(c)) && c.sequence <= before.sequence
    ensures Accounted(visits, excluded, LogAfter(visits), c)
  {
    var page := visits[|visits| - 1].page;
    if Finishes(page, KeyOf(c), page.cursor.sequence) {
      assert Delivered(visits, c);
    }
  }

  lemma StillUpcoming(visits: seq<Visit>, excluded: Change -> bool, c: Change)
    requires Followed(visits, excluded) && visits != [] && c in LogAfter(visits)
    requires var earlier := visits[..|visits| - 1];
             Upcoming(LogAfter(earlier), excluded, CursorAfter(earlier).sequence, c)
    ensures Accounted(visits, excluded, LogAfter(visits), c)
  {
    hide Finishes;
    var n := |visits| - 1;
    var earlier, page, log := visits[..n], visits[n].page, visits[n].log;
    var d :| d in LogAfter(earlier) && !excluded(d) && KeyOf(d) == KeyOf(c) && d.sequence > CursorAfter(earlier).sequence
             && d.sequence > c.sequence;
    assert d in log;
    if d.sequence <= page.cursor.sequence {
      PageReports(log, excluded, CursorAfter(earlier), page, d);
      if t :| t >= d.sequence && Finishes(page, KeyOf(d), t) {
        assert Delivered(visits, c);
      } else if Upcoming(log, excluded, page.cursor.sequence, d) {
        var e :| e in log && !excluded(e) && KeyOf(e) == KeyOf(d) && e.sequence > page.cursor.sequence && e.sequence > d.sequence;
        assert Upcoming(log, excluded, page.cursor.sequence, c);
      }
    } else {
      assert Upcoming(log, excluded, page.cursor.sequence, c);
    }
  }

  /** When a page says that there is no more, every entity that had changed by then, and
      is not excluded, has been delivered in a state that reflects its last change. */
  lemma DrainedIsComplete(visits: seq<Visit>, excluded: Change -> bool, c: Change)
    requires Followed(visits, excluded) && visits != [] && !visits[|visits| - 1].page.hasMore
    requires c in LogAfter(visits) && !excluded(c)
    ensures Delivered(visits, c)
  {
    hide Finishes;
    CursorInLog(visits, excluded);
    BelowCaptured(LogAfter(visits), c);
    PassedIsAccounted(visits, excluded, c);
    if Upcoming(LogAfter(visits), excluded, CursorAfter(visits).sequence, c) {
      var d :| d in LogAfter(visits) && d.sequence > CursorAfter(visits).sequence;
      BelowCaptured(LogAfter(visits), d);
    }
  }

  // ---- reading one artifact ----

  /** A page a reader got, and what the store held then. */
  datatype Answer = Answer(snapshots: Snapshots, page: Page)

  function TextIn(answer: Answer, id: string): seq<Byte> {
    if answer.snapshots.artifact(id).Some? then answer.snapshots.artifact(id).value.content else []
  }

  // The bytes of an artifact that a page carries.
  function Bytes(answer: Answer, id: string): seq<Byte> {
    var resources := answer.page.resources;
    if |resources| == 1 && resources[0].Slice? && resources[0].from <= resources[0].to <= |TextIn(answer, id)|
    then TextIn(answer, id)[resources[0].from..resources[0].to] else []
  }

  function Received(answers: seq<Answer>, id: string): seq<Byte> {
    if answers == [] then [] else Bytes(answers[0], id) + Received(answers[1..], id)
  }

  // Each page answers the cursor of the one before, and the last is the first without a
  // continuation.
  ghost predicate Paged(answers: seq<Answer>, cursor: Cursor)
    decreases |answers|
  {
    && answers != [] && SlicesOk(answers[0].snapshots, cursor, answers[0].page)
    && (answers[0].page.cursor.continuation.None? <==> |answers| == 1)
    && (|answers| > 1 ==> Paged(answers[1..], answers[0].page.cursor))
  }

  // A hash stands for one text.
  ghost predicate HashNames(sha: string, content: seq<Byte>, id: string, answers: seq<Answer>) {
    forall i :: 0 <= i < |answers| ==>
      var artifact := answers[i].snapshots.artifact(id);
      artifact.Some? && artifact.value.sha == sha ==> artifact.value.content == content
  }

  lemma BytesOfPage(answer: Answer, id: string, text: Text, offset: nat) returns (end: nat)
    requires answer.snapshots.artifact(id) == Some(text) && IsSlicePage(answer.page, id, text, offset)
    ensures offset <= end <= |text.content| && Bytes(answer, id) == text.content[offset..end]
    ensures answer.page.cursor.continuation == if end == |text.content| then None else Some(Continuation(id, text.sha, end))
  {
    hide IsPageEnd, IsBoundary, Fits;
    end :| IsPageEnd(text.content, text.fixed(offset), offset, end)
           && answer.page.resources == [Slice(id, offset, end, end == |text.content|)]
           && answer.page.cursor.continuation == (if end == |text.content| then None else Some(Continuation(id, text.sha, end)));
    EndIn(text.content, text.fixed(offset), offset, end);
  }

  lemma EndIn(content: seq<Byte>, fixed: nat, offset: nat, end: nat)
    requires IsPageEnd(content, fixed, offset, end)
    ensures offset <= end <= |content|
  {
  }

  lemma {:induction false} RestIsReceived(answers: seq<Answer>, cursor: Cursor, content: seq<Byte>)
    requires cursor.continuation.Some? && Paged(answers, cursor)
    requires HashNames(cursor.continuation.value.sha, content, cursor.continuation.value.id, answers)
    ensures cursor.continuation.value.offset <= |content|
    ensures Received(answers, cursor.continuation.value.id) == content[cursor.continuation.value.offset..]
    decreases |answers|
  {
    hide IsSlicePage;
    var c := cursor.continuation.value;
    var text := answers[0].snapshots.artifact(c.id).value;
    assert text.content == content;
    var end := BytesOfPage(answers[0], c.id, text, c.offset);
    if |answers| > 1 {
      assert forall i :: 0 <= i < |answers[1..]| ==> answers[1..][i] == answers[i + 1];
      RestIsReceived(answers[1..], answers[0].page.cursor, content);
      assert content[c.offset..] == content[c.offset..end] + content[end..];
    } else {
      assert answers[1..] == [];
      assert content[c.offset..end] + [] == content[c.offset..];
    }
  }

  /** Whatever else changes in between: the slices a reader gets of an artifact that does not
      fit one page, from the page that starts it to the first without a continuation, are
      together exactly its content. */
  lemma ContinuationsAreContent(answers: seq<Answer>, cursor: Cursor, id: string, text: Text)
    requires cursor.continuation.None? && Paged(answers, cursor) && |answers| > 1
    requires id == answers[0].page.cursor.continuation.value.id && answers[0].snapshots.artifact(id) == Some(text)
    requires HashNames(text.sha, text.content, id, answers)
    ensures Received(answers, id) == text.content
  {
    hide IsSlicePage;
    var end := BytesOfPage(answers[0], id, text, 0);
    assert forall i :: 0 <= i < |answers[1..]| ==> answers[1..][i] == answers[i + 1];
    RestIsReceived(answers[1..], answers[0].page.cursor, text.content);
    assert text.content == text.content[0..end] + text.content[end..];
  }
}
