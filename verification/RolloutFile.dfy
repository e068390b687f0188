// The bytes of one Agent's rollout file: appending records to it, and the scan that reads
// them back and repairs a half-written tail.
module RolloutFile {
  import opened Wrappers
  import opened Protocol

  newtype Byte = b: int | 0 <= b < 256
  const NEWLINE: Byte := 10

  /** The JSON encoding of a record, known by its laws only (section 7 of RFC 8259: a
      control character inside a string is escaped). */
  datatype Codec = Codec(encode: Record -> seq<Byte>, decode: seq<Byte> -> Option<Record>)

  // Encodings are not empty, hold no newline, decode to what was encoded, and no proper
  // prefix of one is a document.
  ghost predicate Lawful(c: Codec) {
    forall r :: LawfulAt(c, r)
  }

  ghost predicate LawfulAt(c: Codec, r: Record) {
    && c.encode(r) != [] && NEWLINE !in c.encode(r) && c.decode(c.encode(r)) == Some(r)
    && forall k :: 0 <= k < |c.encode(r)| ==> c.decode(c.encode(r)[..k]) == None
  }

  function Line(c: Codec, r: Record): seq<Byte> {
    c.encode(r) + [NEWLINE]
  }

  function EncodeAll(c: Codec, records: seq<Record>): seq<Byte> {
    if records == [] then [] else Line(c, records[0]) + EncodeAll(c, records[1..])
  }

  // ---- what a scan of the remaining bytes does ----

  function LineEnd(bytes: seq<Byte>): (n: nat)
    ensures n <= |bytes| && NEWLINE !in bytes[..n] && (n < |bytes| ==> bytes[n] == NEWLINE)
  {
    if bytes == [] || bytes[0] == NEWLINE then 0 else
      var n := LineEnd(bytes[1..]) + 1;
      assert bytes[..n] == [bytes[0]] + bytes[1..][..n - 1];
      n
  }

  predicate Belongs(r: Record, agentId: AgentId, expected: nat) {
    r.version == ROLLOUT_VERSION && r.agentId == agentId && r.sequence == expected
  }

  /** The records a scan visits, and the bytes it leaves in the file. */
  datatype Scanned = Scanned(records: seq<Record>, kept: seq<Byte>)

  function ScanFrom(c: Codec, agentId: AgentId, bytes: seq<Byte>, expected: nat): Result<Scanned>
    decreases |bytes|
  {
    if bytes == [] then Success(Scanned([], [])) else
    var n := LineEnd(bytes);
    if n == 0 then Failure("empty interior record") else
    match c.decode(bytes[..n])
    case None => if n == |bytes| then Success(Scanned([], [])) else Failure("invalid record")
    case Some(r) =>
      if !Belongs(r, agentId, expected) then Failure("record does not belong here") else
      if expected == U64_MAX then Failure("Agent rollout sequence overflow") else
      if n == |bytes| then Success(Scanned([r], bytes + [NEWLINE])) else
      var rest :- ScanFrom(c, agentId, bytes[n + 1..], expected + 1);
      Success(Scanned([r] + rest.records, bytes[..n + 1] + rest.kept))
  }

  function ScanAll(c: Codec, agentId: AgentId, bytes: seq<Byte>): Result<Scanned> {
    ScanFrom(c, agentId, bytes, 1)
  }

  // ---- the file ----

  class File {
    const agentId: AgentId
    var bytes: seq<Byte>

    constructor (agentId: AgentId)
      ensures this.agentId == agentId && bytes == []
    {
      this.agentId, bytes := agentId, [];
    }

    // Reads line by line; truncates an undecodable tail, completes a decodable one.
    method Scan(c: Codec) returns (r: Result<seq<Record>>)
      modifies this
      ensures r.Success? == ScanAll(c, agentId, old(bytes)).Success?
      ensures r.Success? ==> Scanned(r.value, bytes) == ScanAll(c, agentId, old(bytes)).value
      ensures r.Failure? ==> bytes == old(bytes)
    {
      hide ScanFrom, Belongs;
      var records: seq<Record>, position, completeLen, expected, acceptedTrailing := [], 0, 0, 1, false;
      PrependNothing(ScanAll(c, agentId, bytes));
      assert bytes[..0] == [] && bytes[0..] == bytes;
      while position < |bytes|
        invariant bytes == old(bytes) && completeLen <= position <= |bytes| && expected >= 1
        invariant !acceptedTrailing ==>
                    && completeLen == position
                    && ScanAll(c, agentId, bytes) ==
                       Prepend(records, bytes[..position], ScanFrom(c, agentId, bytes[position..], expected))
        invariant acceptedTrailing ==>
                    position == |bytes| && ScanAll(c, agentId, bytes) == Success(Scanned(records, bytes + [NEWLINE]))
      {
        var n := LineEnd(bytes[position..]);
        var complete := position + n < |bytes|;
        var document := bytes[position..position + n];
        assert bytes[position..][..n] == document;
        ScanHead(c, agentId, bytes[position..], expected);
        if document == [] {
          return Failure("empty interior record");
        }
        var decoded := c.decode(document);
        if decoded.None? {
          if !complete {
            bytes := bytes[..completeLen];
            return Success(records);
          }
          return Failure("invalid record");
        }
        var record := decoded.value;
        if !Belongs(record, agentId, expected) {
          return Failure("record does not belong here");
        }
        if expected == U64_MAX {
          return Failure("Agent rollout sequence overflow");
        }
        ghost var rest := bytes[position..];
        if complete {
          assert rest[n + 1..] == bytes[position + n + 1..];
          PrependStep(records, bytes[..position], record, rest[..n + 1], ScanFrom(c, agentId, rest[n + 1..], expected + 1));
          assert bytes[..position] + rest[..n + 1] == bytes[..position + n + 1];
          completeLen := completeLen + n + 1;
          position := position + n + 1;
        } else {
          assert bytes[..position] + (rest + [NEWLINE]) == bytes + [NEWLINE];
          acceptedTrailing := true;
          position := |bytes|;
        }
        records, expected := records + [record], expected + 1;
      }
      if acceptedTrailing {
        bytes := bytes + [NEWLINE];
      } else {
        assert bytes[position..] == [] && bytes[..position] == bytes;
        ScanNothing(c, agentId, expected);
        assert records + [] == records && bytes + [] == bytes;
      }
      return Success(records);
    }

    // Appended to a file of complete lines, a record is read back behind what was there.
    method Append(c: Codec, record: Record)
      modifies this
      ensures bytes == old(bytes) + Line(c, record)
      ensures forall records ::
                Lawful(c) && Numbered(records + [record], agentId, 1) && |records| + 1 < U64_MAX && old(bytes) == EncodeAll(c, records) ==>
                  ScanAll(c, agentId, bytes) == Success(Scanned(records + [record], bytes))
    {
      ghost var before := bytes;
      bytes := bytes + (c.encode(record) + [NEWLINE]);
      forall records | Lawful(c) && Numbered(records + [record], agentId, 1) && |records| + 1 < U64_MAX && before == EncodeAll(c, records)
        ensures ScanAll(c, agentId, bytes) == Success(Scanned(records + [record], bytes))
      {
        EncodeAppend(c, records, record);
        CleanScan(c, agentId, records + [record]);
      }
    }
  }

  // One round of the scan.
  lemma ScanHead(c: Codec, agentId: AgentId, bytes: seq<Byte>, expected: nat)
    requires bytes != []
    ensures var n := LineEnd(bytes);
            ScanFrom(c, agentId, bytes, expected) ==
              if n == 0 then Failure("empty interior record")
              else if c.decode(bytes[..n]).None? then
                (if n == |bytes| then Success(Scanned([], [])) else Failure("invalid record"))
              else if !Belongs(c.decode(bytes[..n]).value, agentId, expected) then Failure("record does not belong here")
              else if expected == U64_MAX then Failure("Agent rollout sequence overflow")
              else if n == |bytes| then Success(Scanned([c.decode(bytes[..n]).value], bytes + [NEWLINE]))
              else Prepend([c.decode(bytes[..n]).value], bytes[..n + 1], ScanFrom(c, agentId, bytes[n + 1..], expected + 1))
  {
  }

  lemma ScanNothing(c: Codec, agentId: AgentId, expected: nat)
    ensures ScanFrom(c, agentId, [], expected) == Success(Scanned([], []))
  {
  }

  function Prepend(records: seq<Record>, kept: seq<Byte>, r: Result<Scanned>): Result<Scanned> {
    if r.Failure? then r else Success(Scanned(records + r.value.records, kept + r.value.kept))
  }

  lemma PrependNothing(r: Result<Scanned>)
    ensures Prepend([], [], r) == r
  {
    if r.Success? {
      assert [] + r.value.records == r.value.records && [] + r.value.kept == r.value.kept;
    }
  }

  lemma PrependStep(records: seq<Record>, kept: seq<Byte>, record: Record, line: seq<Byte>, r: Result<Scanned>)
    ensures Prepend(records, kept, Prepend([record], line, r)) == Prepend(records + [record], kept + line, r)
  {
    if r.Success? {
      assert records + ([record] + r.value.records) == records + [record] + r.value.records;
      assert kept + (line + r.value.kept) == kept + line + r.value.kept;
    }
  }

  // ---- clean and torn files ----

  ghost predicate Numbered(records: seq<Record>, agentId: AgentId, expected: nat) {
    forall i :: 0 <= i < |records| ==> Belongs(records[i], agentId, expected + i)
  }

  // A complete line is read as its record, whatever follows it.
  lemma ScanDocument(c: Codec, agentId: AgentId, document: seq<Byte>, r: Record, rest: seq<Byte>, expected: nat)
    requires document != [] && NEWLINE !in document && c.decode(document) == Some(r) && Belongs(r, agentId, expected)
    ensures ScanFrom(c, agentId, document + [NEWLINE] + rest, expected) ==
            if expected == U64_MAX then Failure("Agent rollout sequence overflow")
            else Prepend([r], document + [NEWLINE], ScanFrom(c, agentId, rest, expected + 1))
  {
    var bytes := document + [NEWLINE] + rest;
    LineEndAt(document, rest);
    assert bytes[..|document|] == document;
    assert bytes[..|document| + 1] == document + [NEWLINE];
    assert bytes[|document| + 1..] == rest;
  }

  lemma ScanLine(c: Codec, agentId: AgentId, r: Record, rest: seq<Byte>, expected: nat)
    requires LawfulAt(c, r) && Belongs(r, agentId, expected)
    ensures ScanFrom(c, agentId, Line(c, r) + rest, expected) ==
            if expected == U64_MAX then Failure("Agent rollout sequence overflow")
            else Prepend([r], Line(c, r), ScanFrom(c, agentId, rest, expected + 1))
  {
    ScanDocument(c, agentId, c.encode(r), r, rest, expected);
  }

  lemma {:induction false} LineEndAt(document: seq<Byte>, rest: seq<Byte>)
    requires NEWLINE !in document
    ensures LineEnd(document + [NEWLINE] + rest) == |document|
  {
    if document == [] {
      assert (document + [NEWLINE] + rest)[0] == NEWLINE;
    } else {
      LineEndAt(document[1..], rest);
      assert (document + [NEWLINE] + rest)[1..] == document[1..] + [NEWLINE] + rest;
    }
  }

  lemma {:induction false} NoLineEnd(document: seq<Byte>)
    requires NEWLINE !in document
    ensures LineEnd(document) == |document|
  {
    if document != [] {
      NoLineEnd(document[1..]);
    }
  }

  // Complete lines are read one by one, and the scan goes on behind them.
  lemma {:induction false} ScanLines(c: Codec, agentId: AgentId, records: seq<Record>, rest: seq<Byte>, expected: nat)
    requires Lawful(c) && Numbered(records, agentId, expected) && expected + |records| <= U64_MAX
    ensures ScanFrom(c, agentId, EncodeAll(c, records) + rest, expected) ==
            Prepend(records, EncodeAll(c, records), ScanFrom(c, agentId, rest, expected + |records|))
  {
    if records == [] {
      assert EncodeAll(c, records) + rest == rest;
      PrependNothing(ScanFrom(c, agentId, rest, expected));
    } else {
      assert LawfulAt(c, records[0]) && Belongs(records[0], agentId, expected + 0);
      forall i | 0 <= i < |records[1..]| ensures Belongs(records[1..][i], agentId, expected + 1 + i) {
        assert Belongs(records[i + 1], agentId, expected + (i + 1));
      }
      var tail := EncodeAll(c, records[1..]);
      assert EncodeAll(c, records) + rest == Line(c, records[0]) + (tail + rest);
      ScanLine(c, agentId, records[0], tail + rest, expected);
      ScanLines(c, agentId, records[1..], rest, expected + 1);
      PrependTwice([records[0]], Line(c, records[0]), records[1..], tail, ScanFrom(c, agentId, rest, expected + |records|));
      assert [records[0]] + records[1..] == records;
    }
  }

  lemma PrependTwice(a: seq<Record>, x: seq<Byte>, b: seq<Record>, y: seq<Byte>, r: Result<Scanned>)
    ensures Prepend(a, x, Prepend(b, y, r)) == Prepend(a + b, x + y, r)
  {
    if r.Success? {
      assert a + (b + r.value.records) == a + b + r.value.records;
      assert x + (y + r.value.kept) == x + y + r.value.kept;
    }
  }

  // A file of complete lines is read back and left alone, unless it holds 2^64 - 1
  // records: then the scan counts one too far.
  lemma CleanScan(c: Codec, agentId: AgentId, records: seq<Record>)
    requires Lawful(c) && Numbered(records, agentId, 1) && |records| <= U64_MAX
    ensures ScanAll(c, agentId, EncodeAll(c, records)) ==
            if |records| < U64_MAX then Success(Scanned(records, EncodeAll(c, records)))
            else Failure("Agent rollout sequence overflow")
  {
    if |records| < U64_MAX {
      ScanLines(c, agentId, records, [], 1);
      assert EncodeAll(c, records) + [] == EncodeAll(c, records);
      assert ScanFrom(c, agentId, [], 1 + |records|) == Success(Scanned([], []));
      assert records + [] == records;
    } else {
      var n := |records| - 1;
      var first, last := records[..n], records[n];
      EncodeAppend(c, first, last);
      assert first + [last] == records;
      assert Belongs(last, agentId, 1 + n) && LawfulAt(c, last);
      ScanLines(c, agentId, first, Line(c, last), 1);
      ScanLine(c, agentId, last, [], 1 + n);
      assert Line(c, last) + [] == Line(c, last);
    }
  }

  lemma {:induction false} EncodeAppend(c: Codec, records: seq<Record>, r: Record)
    ensures EncodeAll(c, records + [r]) == EncodeAll(c, records) + Line(c, r)
  {
    if records == [] {
      assert [r][1..] == [];
      assert EncodeAll(c, [r]) == Line(c, r) + EncodeAll(c, []);
    } else {
      EncodeAppend(c, records[1..], r);
      assert (records + [r])[1..] == records[1..] + [r];
    }
  }

  lemma {:induction false} EncodeConcat(c: Codec, a: seq<Record>, b: seq<Record>)
    ensures EncodeAll(c, a + b) == EncodeAll(c, a) + EncodeAll(c, b)
  {
    hide Line;
    if a == [] {
      assert a + b == b;
    } else {
      EncodeConcat(c, a[1..], b);
      assert (a + b)[0] == a[0] && (a + b)[1..] == a[1..] + b;
      Regroup(Line(c, a[0]), EncodeAll(c, a[1..]), EncodeAll(c, b));
    }
  }

  lemma Regroup(x: seq<Byte>, y: seq<Byte>, z: seq<Byte>)
    ensures x + (y + z) == x + y + z
  {
  }

  // What a scan makes of the first k bytes of one more line.
  lemma ScanTorn(c: Codec, agentId: AgentId, r: Record, k: nat, expected: nat)
    requires LawfulAt(c, r) && Belongs(r, agentId, expected) && k <= |Line(c, r)|
    requires k < |c.encode(r)| || expected < U64_MAX
    ensures ScanFrom(c, agentId, Line(c, r)[..k], expected) ==
            if k < |c.encode(r)| then Success(Scanned([], [])) else Success(Scanned([r], Line(c, r)))
  {
    var e := c.encode(r);
    if k <= |e| {
      assert Line(c, r)[..k] == e[..k];
      NoLineEnd(e[..k]);
      assert e[..k][..k] == e[..k] && e[..|e|] == e;
    } else {
      assert Line(c, r)[..k] == Line(c, r) + [] == Line(c, r);
      ScanLine(c, agentId, r, [], expected);
      assert [r] + [] == [r];
    }
  }

  /** A crash after any number of bytes of an append leaves the records that were there,
      or those and the new one, and the scan leaves exactly their encodings. */
  lemma TornAppend(c: Codec, agentId: AgentId, records: seq<Record>, r: Record, k: nat)
    requires Lawful(c) && Numbered(records + [r], agentId, 1) && k <= |Line(c, r)|
    requires |if k < |c.encode(r)| then records else records + [r]| < U64_MAX
    ensures var all := if k < |c.encode(r)| then records else records + [r];
            ScanAll(c, agentId, EncodeAll(c, records) + Line(c, r)[..k]) == Success(Scanned(all, EncodeAll(c, all)))
  {
    assert LawfulAt(c, r);
    forall i | 0 <= i < |records| ensures Belongs(records[i], agentId, 1 + i) {
      assert (records + [r])[i] == records[i];
    }
    assert Belongs((records + [r])[|records|], agentId, 1 + |records|);
    ScanLines(c, agentId, records, Line(c, r)[..k], 1);
    ScanTorn(c, agentId, r, k, 1 + |records|);
    EncodeAppend(c, records, r);
    assert records + [] == records && EncodeAll(c, records) + [] == EncodeAll(c, records);
  }

  // Behind 2^64 - 2 records the next one is refused, complete or not.
  lemma FullScan(c: Codec, agentId: AgentId, records: seq<Record>, last: Record, k: nat, rest: seq<Byte>)
    requires Lawful(c) && Numbered(records + [last], agentId, 1) && |records| == U64_MAX - 1
    requires |c.encode(last)| <= k <= |Line(c, last)| && (k < |Line(c, last)| ==> rest == [])
    ensures ScanAll(c, agentId, EncodeAll(c, records) + (Line(c, last)[..k] + rest)).Failure?
  {
    hide Lawful;
    NumberedPrefix(records, last, agentId);
    ScanLines(c, agentId, records, Line(c, last)[..k] + rest, 1);
    LastRefused(c, agentId, last, k, rest);
  }

  lemma NumberedPrefix(records: seq<Record>, last: Record, agentId: AgentId)
    requires Numbered(records + [last], agentId, 1)
    ensures Numbered(records, agentId, 1) && Belongs(last, agentId, 1 + |records|)
  {
    forall i | 0 <= i < |records| ensures Belongs(records[i], agentId, 1 + i) {
      assert (records + [last])[i] == records[i];
    }
    assert (records + [last])[|records|] == last;
  }

  lemma LastRefused(c: Codec, agentId: AgentId, last: Record, k: nat, rest: seq<Byte>)
    requires Lawful(c) && Belongs(last, agentId, U64_MAX)
    requires |c.encode(last)| <= k <= |Line(c, last)| && (k < |Line(c, last)| ==> rest == [])
    ensures ScanFrom(c, agentId, Line(c, last)[..k] + rest, U64_MAX).Failure?
  {
    assert LawfulAt(c, last);
    var e := c.encode(last);
    if k == |e| {
      assert Line(c, last)[..k] + rest == e;
      NoLineEnd(e);
      assert e[..|e|] == e;
    } else {
      assert Line(c, last)[..k] == Line(c, last);
      ScanLine(c, agentId, last, rest, U64_MAX);
    }
  }

  // ---- what a scan accepts ----

  function Lines(documents: seq<seq<Byte>>): seq<Byte> {
    if documents == [] then [] else documents[0] + [NEWLINE] + Lines(documents[1..])
  }

  // Documents without a newline, each of them a record of this version and Agent, in sequence.
  ghost predicate Reads(c: Codec, agentId: AgentId, expected: nat, documents: seq<seq<Byte>>, records: seq<Record>) {
    && |documents| == |records|
    && forall i :: 0 <= i < |documents| ==> ReadsAt(c, agentId, expected + i, documents[i], records[i])
  }

  ghost predicate ReadsAt(c: Codec, agentId: AgentId, expected: nat, document: seq<Byte>, r: Record) {
    && document != [] && NEWLINE !in document && c.decode(document) == Some(r)
    && r.version == 1 && r.agentId == agentId && r.sequence == expected
  }

  // Behind the lines there is nothing, or the beginning of a line that is no record.
  ghost predicate Tail(c: Codec, tail: seq<Byte>) {
    tail == [] || (NEWLINE !in tail && c.decode(tail).None?)
  }

  lemma ReadsMore(c: Codec, agentId: AgentId, expected: nat, document: seq<Byte>, r: Record, documents: seq<seq<Byte>>, records: seq<Record>)
    requires ReadsAt(c, agentId, expected, document, r) && Reads(c, agentId, expected + 1, documents, records)
    ensures Reads(c, agentId, expected, [document] + documents, [r] + records)
    ensures Lines([document] + documents) == document + [NEWLINE] + Lines(documents)
  {
    hide ReadsAt;
    var all, rs := [document] + documents, [r] + records;
    forall i | 0 <= i < |all| ensures ReadsAt(c, agentId, expected + i, all[i], rs[i]) {
      if i > 0 {
        assert ReadsAt(c, agentId, expected + 1 + (i - 1), documents[i - 1], records[i - 1]);
      }
    }
    assert all[1..] == documents;
  }

  // What a successful scan found in the first line.
  lemma ScanFound(c: Codec, agentId: AgentId, bytes: seq<Byte>, expected: nat)
    requires ScanFrom(c, agentId, bytes, expected).Success?
    ensures var n, scanned := LineEnd(bytes), ScanFrom(c, agentId, bytes, expected).value;
            if bytes == [] || c.decode(bytes[..n]).None? then n == |bytes| && scanned == Scanned([], [])
            else
              var r := c.decode(bytes[..n]).value;
              && n > 0 && Belongs(r, agentId, expected)
              && if n == |bytes| then scanned == Scanned([r], bytes + [NEWLINE]) else
                 && ScanFrom(c, agentId, bytes[n + 1..], expected + 1).Success?
                 && var rest := ScanFrom(c, agentId, bytes[n + 1..], expected + 1).value;
                    scanned == Scanned([r] + rest.records, bytes[..n + 1] + rest.kept)
  {
    hide Belongs;
  }

  /** A scan that succeeds has read every line as a record of its Agent, numbered without a
      gap, and kept those lines: the bytes that were there, without a tail that is no record,
      and with the newline a complete last record lacked. */
  lemma {:induction false} ScanReads(c: Codec, agentId: AgentId, bytes: seq<Byte>, expected: nat) returns (documents: seq<seq<Byte>>)
    requires ScanFrom(c, agentId, bytes, expected).Success?
    ensures var r := ScanFrom(c, agentId, bytes, expected).value;
            && Reads(c, agentId, expected, documents, r.records) && r.kept == Lines(documents)
            && (bytes + [NEWLINE] == r.kept || exists tail :: bytes == r.kept + tail && Tail(c, tail))
    decreases |bytes|
  {
    hide ScanFrom, Reads, ReadsAt, Belongs, Lines;
    ScanFound(c, agentId, bytes, expected);
    documents := [];
    var n := LineEnd(bytes);
    if bytes == [] || c.decode(bytes[..n]).None? {
      ReadsNothing(c, agentId, expected);
      assert bytes == [] + bytes && bytes[..n] == bytes;
      assert Tail(c, bytes);
    } else {
      hide Tail;
      var document, r := bytes[..n], c.decode(bytes[..n]).value;
      ReadsOne(c, agentId, expected, document, r);
      if n == |bytes| {
        ReadsNothing(c, agentId, expected + 1);
        ReadsMore(c, agentId, expected, document, r, [], []);
        documents := [document] + [];
        assert [r] + [] == [r] && document + [NEWLINE] + [] == bytes + [NEWLINE];
      } else {
        var rest := bytes[n + 1..];
        var more := ScanReads(c, agentId, rest, expected + 1);
        var scanned := ScanFrom(c, agentId, rest, expected + 1).value;
        ReadsMore(c, agentId, expected, document, r, more, scanned.records);
        documents := [document] + more;
        TailBehind(c, document, rest, scanned.kept);
        assert bytes == document + [NEWLINE] + rest;
        assert bytes[..n + 1] == document + [NEWLINE];
      }
    }
  }

  lemma ReadsNothing(c: Codec, agentId: AgentId, expected: nat)
    ensures Reads(c, agentId, expected, [], []) && Lines([]) == []
  {
  }

  lemma ReadsOne(c: Codec, agentId: AgentId, expected: nat, document: seq<Byte>, r: Record)
    requires document != [] && NEWLINE !in document && c.decode(document) == Some(r) && Belongs(r, agentId, expected)
    ensures ReadsAt(c, agentId, expected, document, r)
  {
  }

  lemma TailBehind(c: Codec, document: seq<Byte>, rest: seq<Byte>, kept: seq<Byte>)
    requires rest + [NEWLINE] == kept || exists tail :: rest == kept + tail && Tail(c, tail)
    ensures var line := document + [NEWLINE];
            line + rest + [NEWLINE] == line + kept || exists tail :: line + rest == line + kept + tail && Tail(c, tail)
  {
    hide Tail;
    var line := document + [NEWLINE];
    if rest + [NEWLINE] == kept {
      assert line + rest + [NEWLINE] == line + (rest + [NEWLINE]);
    } else {
      var tail :| rest == kept + tail && Tail(c, tail);
      assert line + rest == line + kept + tail;
    }
  }

  /** And such lines are read, whatever follows them. */
  lemma {:induction false} ScanAccepts(c: Codec, agentId: AgentId, documents: seq<seq<Byte>>, records: seq<Record>, rest: seq<Byte>, expected: nat)
    requires Reads(c, agentId, expected, documents, records) && expected + |records| <= U64_MAX
    ensures ScanFrom(c, agentId, Lines(documents) + rest, expected) ==
            Prepend(records, Lines(documents), ScanFrom(c, agentId, rest, expected + |records|))
  {
    hide ScanFrom;
    if documents == [] {
      assert Lines(documents) + rest == rest && records == [];
      PrependNothing(ScanFrom(c, agentId, rest, expected));
    } else {
      assert ReadsAt(c, agentId, expected + 0, documents[0], records[0]);
      forall i | 0 <= i < |documents[1..]| ensures ReadsAt(c, agentId, expected + 1 + i, documents[1..][i], records[1..][i]) {
        assert ReadsAt(c, agentId, expected + (i + 1), documents[i + 1], records[i + 1]);
      }
      var tail := Lines(documents[1..]);
      assert Lines(documents) + rest == documents[0] + [NEWLINE] + (tail + rest);
      ScanDocument(c, agentId, documents[0], records[0], tail + rest, expected);
      ScanAccepts(c, agentId, documents[1..], records[1..], rest, expected + 1);
      PrependTwice([records[0]], documents[0] + [NEWLINE], records[1..], tail, ScanFrom(c, agentId, rest, expected + |records|));
      assert [records[0]] + records[1..] == records;
    }
  }

  /** A tail that is no record is dropped; a last record without its newline gets one. */
  lemma ScanEnds(c: Codec, agentId: AgentId, tail: seq<Byte>, r: Record, expected: nat)
    ensures Tail(c, tail) ==> ScanFrom(c, agentId, tail, expected) == Success(Scanned([], []))
    ensures ReadsAt(c, agentId, expected, tail, r) && expected < U64_MAX ==>
              ScanFrom(c, agentId, tail, expected) == Success(Scanned([r], tail + [NEWLINE]))
  {
    if NEWLINE !in tail {
      NoLineEnd(tail);
      assert tail[..|tail|] == tail;
    }
  }

  // ---- any bytes at all ----

  /** Whatever the file held, a second scan finds the same records and changes nothing. */
  lemma {:induction false} ScanTwice(c: Codec, agentId: AgentId, bytes: seq<Byte>, expected: nat)
    requires ScanFrom(c, agentId, bytes, expected).Success?
    ensures ScanFrom(c, agentId, ScanFrom(c, agentId, bytes, expected).value.kept, expected) ==
            ScanFrom(c, agentId, bytes, expected)
    decreases |bytes|
  {
    if bytes != [] && c.decode(bytes[..LineEnd(bytes)]).Some? {
      var n := LineEnd(bytes);
      var document, r := bytes[..n], c.decode(bytes[..n]).value;
      if n == |bytes| {
        assert bytes == document;
        ScanDocument(c, agentId, document, r, [], expected);
        assert document + [NEWLINE] + [] == bytes + [NEWLINE] && [r] + [] == [r];
        assert ScanFrom(c, agentId, bytes, expected) == Success(Scanned([r], bytes + [NEWLINE]));
      } else {
        var rest := bytes[n + 1..];
        var kept := ScanFrom(c, agentId, rest, expected + 1).value.kept;
        assert bytes == document + [NEWLINE] + rest;
        ScanDocument(c, agentId, document, r, rest, expected);
        ScanTwice(c, agentId, rest, expected + 1);
        ScanDocument(c, agentId, document, r, kept, expected);
      }
    }
  }
}
