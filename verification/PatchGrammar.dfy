// The language of patches, as lines and what they mean: the parser accepts exactly these
// lines and gives exactly this meaning.
module PatchGrammar {
  import opened Wrappers
  import opened Patch
  import opened PatchParser
  import Text

  // ---- the lines of a chunk ----

  datatype Line = Keep(text: string) | Remove(text: string) | Insert(text: string) | FileEnd

  function Shown(l: Line): string {
    match l
    case Keep(text) => " " + text
    case Remove(text) => "-" + text
    case Insert(text) => "+" + text
    case FileEnd => "*** End of File"
  }

  function AllShown(lines: seq<Line>): seq<string> {
    if lines == [] then [] else [Shown(lines[0])] + AllShown(lines[1..])
  }

  // The lines a chunk looks for: those it keeps and those it removes.
  function Olds(lines: seq<Line>): seq<string> {
    if lines == [] then [] else
      (if lines[0].Keep? || lines[0].Remove? then [lines[0].text] else []) + Olds(lines[1..])
  }

  // And those it puts in their place: those it keeps and those it inserts.
  function News(lines: seq<Line>): seq<string> {
    if lines == [] then [] else
      (if lines[0].Keep? || lines[0].Insert? then [lines[0].text] else []) + News(lines[1..])
  }

  /** How a chunk begins; only the first of a file may begin without a line of its own. */
  datatype Header = NoLine | Marker | Context(line: string)

  datatype Piece = Piece(header: Header, lines: seq<Line>)

  function PieceLines(p: Piece): seq<string> {
    (match p.header case NoLine => [] case Marker => ["@@"] case Context(line) => ["@@ " + line]) + AllShown(p.lines)
  }

  function ChunkOf(p: Piece): Chunk {
    Chunk(if p.header.Context? then Some(p.header.line) else None, Olds(p.lines), News(p.lines), FileEnd in p.lines)
  }

  ghost predicate PieceOk(p: Piece) {
    p.header.Context? || Olds(p.lines) != [] || News(p.lines) != []
  }

  function AllPieces(pieces: seq<Piece>): seq<string> {
    if pieces == [] then [] else PieceLines(pieces[0]) + AllPieces(pieces[1..])
  }

  function ChunksOf(pieces: seq<Piece>): seq<Chunk> {
    if pieces == [] then [] else [ChunkOf(pieces[0])] + ChunksOf(pieces[1..])
  }

  ghost predicate PiecesOk(pieces: seq<Piece>) {
    forall i :: 0 <= i < |pieces| ==> PieceOk(pieces[i]) && !pieces[i].header.NoLine?
  }

  // ---- the parts of a patch ----

  datatype Part =
    | AddFile(path: string, content: seq<string>)
    | DeleteFile(path: string)
    | UpdateFile(path: string, moveTo: Option<string>, first: Option<Piece>, pieces: seq<Piece>)

  function Inserted(content: seq<string>): seq<string> {
    if content == [] then [] else ["+" + content[0]] + Inserted(content[1..])
  }

  function PartLines(part: Part): seq<string> {
    match part
    case AddFile(path, content) => ["*** Add File: " + path] + Inserted(content)
    case DeleteFile(path) => ["*** Delete File: " + path]
    case UpdateFile(path, moveTo, first, pieces) =>
      ["*** Update File: " + path] + ((if moveTo.Some? then ["*** Move to: " + moveTo.value] else [])
      + ((if first.Some? then PieceLines(first.value) else []) + AllPieces(pieces)))
  }

  ghost predicate PartOk(part: Part) {
    && Text.Trim(part.path) != ""
    && match part
       case AddFile(_, content) => content != []
       case DeleteFile(_) => true
       case UpdateFile(_, moveTo, first, pieces) =>
         && (moveTo.Some? ==> Text.Trim(moveTo.value) != "")
         && (moveTo.Some? || first.Some? || pieces != [])
         && (first.Some? ==> PieceOk(first.value) && first.value.header.NoLine?)
         && PiecesOk(pieces)
  }

  function HunkOf(part: Part): Hunk {
    match part
    case AddFile(path, content) => Add(Text.Trim(path), Ended(content))
    case DeleteFile(path) => Delete(Text.Trim(path))
    case UpdateFile(path, moveTo, first, pieces) =>
      Update(Text.Trim(path), if moveTo.Some? then Some(Text.Trim(moveTo.value)) else None,
             (if first.Some? then [ChunkOf(first.value)] else []) + ChunksOf(pieces))
  }

  function AllParts(parts: seq<Part>): seq<string> {
    if parts == [] then [] else PartLines(parts[0]) + AllParts(parts[1..])
  }

  function HunksOf(parts: seq<Part>): seq<Hunk> {
    if parts == [] then [] else [HunkOf(parts[0])] + HunksOf(parts[1..])
  }

  ghost predicate PartsOk(parts: seq<Part>) {
    forall i :: 0 <= i < |parts| ==> PartOk(parts[i])
  }

  // ---- chunks while they grow ----

  function Extended(c: Chunk, lines: seq<Line>): Chunk {
    c.(before := c.before + Olds(lines), after := c.after + News(lines), endOfFile := c.endOfFile || FileEnd in lines)
  }

  lemma Regroup(a: seq<string>, b: seq<string>, c: seq<string>)
    ensures a + b + c == a + (b + c)
  {
  }

  lemma OldsMore(l: Line, lines: seq<Line>)
    ensures Olds([l] + lines) == Olds([l]) + Olds(lines)
  {
    assert ([l] + lines)[1..] == lines && [l][1..] == [];
  }

  lemma NewsMore(l: Line, lines: seq<Line>)
    ensures News([l] + lines) == News([l]) + News(lines)
  {
    assert ([l] + lines)[1..] == lines && [l][1..] == [];
  }

  lemma ExtendedTwice(c: Chunk, l: Line, lines: seq<Line>)
    ensures Extended(Extended(c, [l]), lines) == Extended(c, [l] + lines)
  {
    hide Olds, News;
    OldsMore(l, lines);
    NewsMore(l, lines);
    Regroup(c.before, Olds([l]), Olds(lines));
    Regroup(c.after, News([l]), News(lines));
  }

  lemma ExtendedNone(c: Chunk)
    ensures Extended(c, []) == c
  {
    assert c.before + [] == c.before && c.after + [] == c.after;
  }

  lemma ChunkIsExtended(p: Piece)
    ensures ChunkOf(p) == Extended(EMPTY_CHUNK.(context := if p.header.Context? then Some(p.header.line) else None), p.lines)
  {
    assert [] + Olds(p.lines) == Olds(p.lines) && [] + News(p.lines) == News(p.lines);
  }

  ghost predicate NotEmpty(c: Chunk) {
    c.context.Some? || c.before != [] || c.after != []
  }

  // The chunk that is open, if any, with the lines that follow.
  function Current(d: Draft, lines: seq<Line>): seq<Chunk> {
    if d.current.None? && lines == [] then [] else [Extended(Open(d), lines)]
  }

  // ---- one line ----

  lemma BodyLine(d: Draft, l: Line)
    ensures !IsHunkHeader(Shown(l)) && UpdateLine(d, Shown(l)) == Success(d.(current := Some(Extended(Open(d), [l]))))
  {
    var line := Shown(l);
    ExtendedOne(Open(d), l);
    if l.FileEnd? {
      assert line[4] == 'E' && MOVE[4] == 'M' && ADD[4] == 'A' && DELETE[4] == 'D' && UPDATE[4] == 'U';
      assert line[0] == '*' && CONTEXT[0] == '@' && |END| != |line|;
    } else {
      assert line[1..] == l.text;
      assert line[0] != '*' && MOVE[0] == '*' && ADD[0] == '*' && DELETE[0] == '*' && UPDATE[0] == '*' && END[0] == '*';
      assert line[0] != '@' && CONTEXT[0] == '@' && CHUNK[0] == '@' && END_OF_FILE[0] == '*';
    }
  }

  lemma ExtendedOne(c: Chunk, l: Line)
    ensures Extended(c, [l]) ==
            match l
            case Keep(text) => c.(before := c.before + [text], after := c.after + [text])
            case Remove(text) => c.(before := c.before + [text])
            case Insert(text) => c.(after := c.after + [text])
            case FileEnd => c.(endOfFile := true)
  {
    assert [l][1..] == [] && Olds([]) == [] && News([]) == [];
    assert c.before + [] == c.before && c.after + [] == c.after;
  }

  // The line that shows the header of a chunk.
  function HeaderLine(h: Header): string
    requires !h.NoLine?
  {
    if h.Marker? then "@@" else "@@ " + h.line
  }

  lemma HeaderOpens(d: Draft, h: Header)
    requires !h.NoLine?
    ensures !IsHunkHeader(HeaderLine(h))
    ensures UpdateLine(d, HeaderLine(h)) ==
            if Closed(d).Failure? then Failure(Closed(d).reason)
            else Success(Closed(d).value.(current := Some(EMPTY_CHUNK.(context := if h.Context? then Some(h.line) else None))))
  {
    var line := HeaderLine(h);
    assert line[0] == '@' && MOVE[0] == '*' && ADD[0] == '*' && DELETE[0] == '*' && UPDATE[0] == '*' && END[0] == '*';
    if h.Context? {
      assert line[|CONTEXT|..] == h.line;
    } else {
      assert |line| < |CONTEXT|;
    }
  }

  // A line that an update accepts, other than a move, is one of these.
  lemma AcceptedLine(d: Draft, line: string) returns (h: Header, l: Line)
    requires UpdateLine(d, line).Success? && !(MOVE <= line)
    ensures if h.NoLine? then line == Shown(l) else line == HeaderLine(h)
  {
    h, l := NoLine, FileEnd;
    if line == CHUNK {
      h := Marker;
    } else if CONTEXT <= line {
      h := Context(line[|CONTEXT|..]);
    } else if line != END_OF_FILE {
      var text := line[1..];
      assert line == [line[0]] + text;
      l := if line[0] == ' ' then Keep(text) else if line[0] == '-' then Remove(text) else Insert(text);
    }
  }

  lemma CloseIs(d: Draft)
    ensures Closed(d) == if d.current.Some? && !NotEmpty(d.current.value) then Failure("empty update chunk")
                         else Success(Draft(d.moveTo, d.chunks + Current(d, []), None))
  {
    ExtendedNone(Open(d));
    assert d.chunks + [] == d.chunks;
  }

  // ---- the body of an update, read ----

  lemma {:induction false} LinesRead(d: Draft, lines: seq<Line>, rest: seq<string>)
    requires rest != []
    ensures UpdateBody(d, AllShown(lines) + rest) ==
            UpdateBody(if lines == [] then d else d.(current := Some(Extended(Open(d), lines))), rest)
    decreases |lines|
  {
    hide UpdateBody, UpdateLine, Extended, IsHunkHeader, Shown;
    if lines == [] {
      assert AllShown(lines) + rest == rest;
    } else {
      var d1 := d.(current := Some(Extended(Open(d), [lines[0]])));
      var tail := AllShown(lines[1..]) + rest;
      assert AllShown(lines) + rest == [Shown(lines[0])] + tail;
      BodyLine(d, lines[0]);
      UpdateCons(d, Shown(lines[0]), tail);
      LinesRead(d1, lines[1..], rest);
      ExtendedTwice(Open(d), lines[0], lines[1..]);
      assert [lines[0]] + lines[1..] == lines;
      if lines[1..] == [] {
        assert lines == [lines[0]];
      }
    }
  }

  lemma PieceNotEmpty(p: Piece)
    ensures PieceOk(p) <==> NotEmpty(ChunkOf(p))
  {
  }

  lemma PieceRead(d: Draft, p: Piece, rest: seq<string>)
    requires !p.header.NoLine? && Closed(d).Success? && rest != []
    ensures UpdateBody(d, PieceLines(p) + rest) == UpdateBody(Closed(d).value.(current := Some(ChunkOf(p))), rest)
  {
    hide UpdateBody, UpdateLine, Extended, IsHunkHeader, Closed, AllShown, ChunkOf;
    var line, tail := HeaderLine(p.header), AllShown(p.lines) + rest;
    assert PieceLines(p) + rest == [line] + tail;
    HeaderOpens(d, p.header);
    UpdateCons(d, line, tail);
    var open := EMPTY_CHUNK.(context := if p.header.Context? then Some(p.header.line) else None);
    var d1 := Closed(d).value.(current := Some(open));
    LinesRead(d1, p.lines, rest);
    ChunkIsExtended(p);
    ExtendedNone(open);
  }

  lemma {:induction false} PiecesRead(d: Draft, pieces: seq<Piece>, rest: seq<string>)
    requires Closes(rest) && PiecesOk(pieces) && (d.current.Some? ==> NotEmpty(d.current.value))
    ensures UpdateBody(d, AllPieces(pieces) + rest) ==
            Success((Draft(d.moveTo, d.chunks + Current(d, []) + ChunksOf(pieces), None), rest))
    decreases |pieces|
  {
    hide UpdateLine, Extended, IsHunkHeader, InBody, PieceLines, ChunkOf, PieceOk, NotEmpty, Closed;
    CloseIs(d);
    if pieces == [] {
      assert AllPieces(pieces) + rest == rest;
      assert d.chunks + Current(d, []) + [] == d.chunks + Current(d, []);
    } else {
      var p, tail := pieces[0], AllPieces(pieces[1..]) + rest;
      assert PieceOk(p);
      PieceNotEmpty(p);
      assert AllPieces(pieces) + rest == PieceLines(p) + tail;
      PieceRead(d, p, tail);
      var d1 := Closed(d).value.(current := Some(ChunkOf(p)));
      PiecesRead(d1, pieces[1..], rest);
      ExtendedNone(ChunkOf(p));
      assert d.chunks + Current(d, []) + [ChunkOf(p)] + ChunksOf(pieces[1..]) == d.chunks + Current(d, []) + ([ChunkOf(p)] + ChunksOf(pieces[1..]));
    }
  }

  // ---- and the other way round ----

  ghost predicate BodyHas(d: Draft, rest: seq<string>, lines: seq<Line>, pieces: seq<Piece>, after: seq<string>) {
    && rest == AllShown(lines) + (AllPieces(pieces) + after) && Closes(after) && PiecesOk(pieces)
    && UpdateBody(d, rest) == Success((Draft(d.moveTo, d.chunks + Current(d, lines) + ChunksOf(pieces), None), after))
    && (Current(d, lines) != [] ==> NotEmpty(Current(d, lines)[0]))
  }

  lemma {:induction false} BodyIs(d: Draft, rest: seq<string>) returns (lines: seq<Line>, pieces: seq<Piece>, after: seq<string>)
    requires rest != [] && UpdateBody(d, rest).Success? && (d.current.Some? || d.moveTo.Some? || d.chunks != [])
    ensures BodyHas(d, rest, lines, pieces, after)
    decreases |rest|
  {
    hide BodyHas, UpdateLine, Closed, NotEmpty, InBody;
    if !InBody(rest) {
      lines, pieces, after := [], [], rest;
      EmptyBody(d, rest);
    } else {
      InBodyHas(rest);
      var d1 := UpdateLine(d, rest[0]).value;
      NoMove(d, rest[0]);
      var h, l := AcceptedLine(d, rest[0]);
      LineOpens(d, rest[0], h, l);
      var ls, ps, a := BodyIs(d1, rest[1..]);
      after := a;
      if h.NoLine? {
        lines, pieces := [l] + ls, ps;
        MoreLines(d, rest, l, ls, ps, a);
      } else {
        lines, pieces := [], [Piece(h, ls)] + ps;
        MorePieces(d, rest, h, ls, ps, a);
      }
    }
  }

  lemma InBodyHas(rest: seq<string>)
    requires InBody(rest)
    ensures |rest| > 1 && !IsHunkHeader(rest[0])
  {
  }

  lemma EmptyBody(d: Draft, rest: seq<string>)
    requires rest != [] && !InBody(rest) && UpdateBody(d, rest).Success?
    ensures BodyHas(d, rest, [], [], rest)
  {
    CloseIs(d);
    ExtendedNone(Open(d));
    assert [] + ([] + rest) == rest && d.chunks + Current(d, []) + [] == d.chunks + Current(d, []);
  }

  lemma NoMove(d: Draft, line: string)
    requires UpdateLine(d, line).Success? && (d.current.Some? || d.moveTo.Some? || d.chunks != [])
    ensures !(MOVE <= line)
  {
  }

  // What an accepted line makes of the draft.
  lemma LineOpens(d: Draft, line: string, h: Header, l: Line)
    requires UpdateLine(d, line).Success? && if h.NoLine? then line == Shown(l) else line == HeaderLine(h)
    ensures UpdateLine(d, line).value ==
            if h.NoLine? then d.(current := Some(Extended(Open(d), [l])))
            else Draft(d.moveTo, d.chunks + Current(d, []), Some(EMPTY_CHUNK.(context := if h.Context? then Some(h.line) else None)))
    ensures !h.NoLine? && d.current.Some? ==> NotEmpty(d.current.value)
  {
    hide UpdateLine, IsHunkHeader, Extended, NotEmpty;
    CloseIs(d);
    if h.NoLine? {
      BodyLine(d, l);
    } else {
      HeaderOpens(d, h);
    }
  }

  lemma UpdateStep(d: Draft, rest: seq<string>)
    requires InBody(rest) && UpdateLine(d, rest[0]).Success?
    ensures UpdateBody(d, rest) == UpdateBody(UpdateLine(d, rest[0]).value, rest[1..])
  {
  }

  lemma MoreLines(d: Draft, rest: seq<string>, l: Line, ls: seq<Line>, ps: seq<Piece>, after: seq<string>)
    requires InBody(rest) && rest[0] == Shown(l) && UpdateLine(d, rest[0]) == Success(d.(current := Some(Extended(Open(d), [l]))))
    requires BodyHas(d.(current := Some(Extended(Open(d), [l]))), rest[1..], ls, ps, after)
    ensures BodyHas(d, rest, [l] + ls, ps, after)
  {
    hide UpdateBody, UpdateLine, Extended, NotEmpty, Shown, InBody, ChunksOf, AllPieces, PiecesOk, Closes, Olds, News;
    InBodyHas(rest);
    UpdateStep(d, rest);
    ExtendedTwice(Open(d), l, ls);
    assert ([l] + ls)[1..] == ls;
    assert rest == [Shown(l)] + rest[1..];
    assert [Shown(l)] + (AllShown(ls) + (AllPieces(ps) + after)) == [Shown(l)] + AllShown(ls) + (AllPieces(ps) + after);
  }

  lemma MorePieces(d: Draft, rest: seq<string>, h: Header, ls: seq<Line>, ps: seq<Piece>, after: seq<string>)
    requires InBody(rest) && !h.NoLine? && rest[0] == HeaderLine(h) && (d.current.Some? ==> NotEmpty(d.current.value))
    requires UpdateLine(d, rest[0]) ==
             Success(Draft(d.moveTo, d.chunks + Current(d, []), Some(EMPTY_CHUNK.(context := if h.Context? then Some(h.line) else None))))
    requires BodyHas(UpdateLine(d, rest[0]).value, rest[1..], ls, ps, after)
    ensures BodyHas(d, rest, [], [Piece(h, ls)] + ps, after)
  {
    hide UpdateBody, UpdateLine, Extended, NotEmpty, InBody, ChunkOf, PieceOk, Closes, PiecesOk, Olds, News;
    InBodyHas(rest);
    UpdateStep(d, rest);
    var p := Piece(h, ls);
    ChunkIsExtended(p);
    PieceNotEmpty(p);
    ExtendedNone(Open(d));
    assert ([p] + ps)[1..] == ps;
    PiecesMore(p, ps);
    assert rest == [HeaderLine(h)] + rest[1..];
    assert PieceLines(p) == [HeaderLine(h)] + AllShown(ls);
    Regroup([HeaderLine(h)], AllShown(ls), AllPieces(ps) + after);
    Regroup(PieceLines(p), AllPieces(ps), after);
    assert [] + (PieceLines(p) + AllPieces(ps) + after) == PieceLines(p) + AllPieces(ps) + after;
    assert d.chunks + Current(d, []) + [ChunkOf(p)] + ChunksOf(ps) == d.chunks + Current(d, []) + ([ChunkOf(p)] + ChunksOf(ps));
  }

  lemma PiecesMore(p: Piece, ps: seq<Piece>)
    requires PieceOk(p) && !p.header.NoLine? && PiecesOk(ps)
    ensures PiecesOk([p] + ps)
  {
  }

  // ---- a whole update ----

  const START := Draft(None, [], None)

  function FirstOf(lines: seq<Line>): Option<Piece> {
    if lines == [] then None else Some(Piece(NoLine, lines))
  }

  lemma MoveLine(raw: string)
    ensures !IsHunkHeader("*** Move to: " + raw)
    ensures UpdateLine(START, "*** Move to: " + raw) ==
            if Text.Trim(raw) == "" then Failure("patch path must not be empty") else Success(START.(moveTo := Some(Text.Trim(raw))))
  {
    var line := MOVE + raw;
    assert line[4] == 'M' && ADD[4] == 'A' && DELETE[4] == 'D' && UPDATE[4] == 'U' && END[4] == 'E';
    assert line[|MOVE|..] == raw;
  }

  lemma FirstLines(first: Piece)
    requires first.header.NoLine? && PieceOk(first)
    ensures PieceLines(first) == AllShown(first.lines) && first.lines != []
    ensures Extended(EMPTY_CHUNK, first.lines) == ChunkOf(first) && NotEmpty(ChunkOf(first))
  {
    ChunkIsExtended(first);
    PieceNotEmpty(first);
    assert [] + AllShown(first.lines) == AllShown(first.lines);
  }

  lemma PiecesAfter(d: Draft, first: Option<Piece>, pieces: seq<Piece>, rest: seq<string>)
    requires d.current.None? && d.chunks == [] && Closes(rest) && PiecesOk(pieces)
    requires first.Some? ==> PieceOk(first.value) && first.value.header.NoLine?
    ensures UpdateBody(d, (if first.Some? then PieceLines(first.value) else []) + AllPieces(pieces) + rest) ==
            Success((Draft(d.moveTo, (if first.Some? then [ChunkOf(first.value)] else []) + ChunksOf(pieces), None), rest))
  {
    hide UpdateBody, Extended, PieceOk, NotEmpty, InBody, ChunkOf, PieceLines, AllShown;
    var tail := AllPieces(pieces) + rest;
    if first.Some? {
      FirstLines(first.value);
      assert PieceLines(first.value) + AllPieces(pieces) + rest == AllShown(first.value.lines) + tail;
      LinesRead(d, first.value.lines, tail);
      PiecesRead(d.(current := Some(ChunkOf(first.value))), pieces, rest);
      ExtendedNone(ChunkOf(first.value));
      assert [] + [ChunkOf(first.value)] + ChunksOf(pieces) == [ChunkOf(first.value)] + ChunksOf(pieces);
    } else {
      assert [] + AllPieces(pieces) + rest == tail;
      PiecesRead(d, pieces, rest);
      assert [] + [] + ChunksOf(pieces) == [] + ChunksOf(pieces);
    }
  }

  lemma UpdateRead(moveTo: Option<string>, first: Option<Piece>, pieces: seq<Piece>, rest: seq<string>)
    requires Closes(rest) && PiecesOk(pieces) && (moveTo.Some? ==> Text.Trim(moveTo.value) != "")
    requires first.Some? ==> PieceOk(first.value) && first.value.header.NoLine?
    ensures var body := (if first.Some? then PieceLines(first.value) else []) + AllPieces(pieces);
            UpdateBody(START, (if moveTo.Some? then ["*** Move to: " + moveTo.value] else []) + body + rest) ==
            Success((Draft(if moveTo.Some? then Some(Text.Trim(moveTo.value)) else None,
                           (if first.Some? then [ChunkOf(first.value)] else []) + ChunksOf(pieces), None), rest))
  {
    hide UpdateBody, UpdateLine, PieceOk, InBody, ChunkOf, PieceLines, IsHunkHeader, Text.Trim;
    var body := (if first.Some? then PieceLines(first.value) else []) + AllPieces(pieces);
    if moveTo.Some? {
      var line := "*** Move to: " + moveTo.value;
      assert [line] + body + rest == [line] + (body + rest);
      MoveLine(moveTo.value);
      UpdateCons(START, line, body + rest);
      PiecesAfter(START.(moveTo := Some(Text.Trim(moveTo.value))), first, pieces, rest);
    } else {
      assert [] + body + rest == body + rest;
      PiecesAfter(START, first, pieces, rest);
    }
  }

  ghost predicate UpdateHas(rest: seq<string>, moveTo: Option<string>, first: Option<Piece>, pieces: seq<Piece>, after: seq<string>) {
    && rest == (if moveTo.Some? then ["*** Move to: " + moveTo.value] else [])
               + ((if first.Some? then PieceLines(first.value) else []) + AllPieces(pieces)) + after
    && Closes(after) && PiecesOk(pieces) && (moveTo.Some? ==> Text.Trim(moveTo.value) != "")
    && (first.Some? ==> PieceOk(first.value) && first.value.header.NoLine?)
  }

  lemma FirstHas(d: Draft, rest: seq<string>, lines: seq<Line>, pieces: seq<Piece>, after: seq<string>)
    requires d.current.None? && BodyHas(d, rest, lines, pieces, after)
    ensures var first := FirstOf(lines);
            && (first.Some? ==> PieceOk(first.value))
            && rest == ((if first.Some? then PieceLines(first.value) else []) + AllPieces(pieces)) + after
  {
    hide UpdateBody, Extended, InBody, AllShown, PieceLines, PieceOk, NotEmpty, AllPieces, Closes, PiecesOk, ChunkOf;
    FirstShown(lines);
    Regroup(AllShown(lines), AllPieces(pieces), after);
    if lines != [] {
      ChunkIsExtended(Piece(NoLine, lines));
      PieceNotEmpty(Piece(NoLine, lines));
    }
  }

  lemma FirstShown(lines: seq<Line>)
    ensures (if FirstOf(lines).Some? then PieceLines(FirstOf(lines).value) else []) == AllShown(lines)
  {
    assert [] + AllShown(lines) == AllShown(lines);
  }

  lemma MovedIs(rest: seq<string>) returns (moveTo: Option<string>, first: Option<Piece>, pieces: seq<Piece>, after: seq<string>)
    requires InBody(rest) && MOVE <= rest[0] && UpdateBody(START, rest).Success?
    ensures UpdateHas(rest, moveTo, first, pieces, after)
  {
    hide UpdateBody, UpdateLine, Extended, BodyHas, PieceOk, PieceLines, NotEmpty, AllPieces;
    InBodyHas(rest);
    FirstStep(rest);
    hide InBody;
    var d1 := UpdateLine(START, rest[0]).value;
    moveTo := Some(rest[0][|MOVE|..]);
    assert rest[0] == MOVE + moveTo.value;
    MoveLine(moveTo.value);
    var lines;
    lines, pieces, after := BodyIs(d1, rest[1..]);
    FirstHas(d1, rest[1..], lines, pieces, after);
    first := FirstOf(lines);
    BodyEnds(d1, rest[1..], lines, pieces, after);
    assert rest == [rest[0]] + rest[1..];
  }

  lemma UnmovedIs(rest: seq<string>) returns (first: Option<Piece>, pieces: seq<Piece>, after: seq<string>)
    requires InBody(rest) && !(MOVE <= rest[0]) && UpdateBody(START, rest).Success?
    ensures UpdateHas(rest, None, first, pieces, after)
  {
    hide UpdateBody, UpdateLine, Extended, BodyHas, PieceOk, PieceLines, NotEmpty, AllPieces;
    InBodyHas(rest);
    FirstStep(rest);
    var d1 := UpdateLine(START, rest[0]).value;
    var h, l := AcceptedLine(START, rest[0]);
    LineOpens(START, rest[0], h, l);
    var ls, ps, a := BodyIs(d1, rest[1..]);
    after := a;
    CloseIs(START);
    var lines: seq<Line>;
    if h.NoLine? {
      MoreLines(START, rest, l, ls, ps, a);
      lines, pieces := [l] + ls, ps;
    } else {
      MorePieces(START, rest, h, ls, ps, a);
      lines, pieces := [], [Piece(h, ls)] + ps;
    }
    hide InBody;
    FirstHas(START, rest, lines, pieces, after);
    first := FirstOf(lines);
    BodyEnds(START, rest, lines, pieces, after);
  }

  lemma UpdateIs(rest: seq<string>) returns (moveTo: Option<string>, first: Option<Piece>, pieces: seq<Piece>, after: seq<string>)
    requires rest != [] && UpdateBody(START, rest).Success?
    ensures UpdateHas(rest, moveTo, first, pieces, after)
  {
    hide UpdateBody, InBody, UpdateHas;
    moveTo := None;
    if !InBody(rest) {
      first, pieces, after := None, [], rest;
      NothingIn(rest);
    } else {
      InBodyHas(rest);
      if MOVE <= rest[0] {
        moveTo, first, pieces, after := MovedIs(rest);
      } else {
        first, pieces, after := UnmovedIs(rest);
      }
    }
  }

  lemma NothingIn(rest: seq<string>)
    requires rest != [] && !InBody(rest)
    ensures UpdateHas(rest, None, None, [], rest)
  {
    assert [] + ([] + []) + rest == rest;
  }

  lemma FirstStep(rest: seq<string>)
    requires InBody(rest) && UpdateBody(START, rest).Success?
    ensures UpdateLine(START, rest[0]).Success? && UpdateBody(UpdateLine(START, rest[0]).value, rest[1..]).Success?
  {
  }

  lemma BodyEnds(d: Draft, rest: seq<string>, lines: seq<Line>, pieces: seq<Piece>, after: seq<string>)
    requires BodyHas(d, rest, lines, pieces, after)
    ensures Closes(after) && PiecesOk(pieces)
  {
  }

  // ---- added files ----

  lemma AddLine(line: string, tail: seq<string>)
    requires tail != []
    ensures AddBody(["+" + line] + tail) == if AddBody(tail).Success? then Success(([line] + AddBody(tail).value.0, AddBody(tail).value.1))
                                            else Failure(AddBody(tail).reason)
  {
    var all := ["+" + line] + tail;
    assert all[0] == "+" + line && all[0][0] == '+' && all[0][1..] == line && all[1..] == tail;
    assert ADD[0] == '*' && DELETE[0] == '*' && UPDATE[0] == '*' && END[0] == '*';
  }

  lemma {:induction false} AddRead(content: seq<string>, rest: seq<string>)
    requires Closes(rest)
    ensures AddBody(Inserted(content) + rest) == Success((content, rest))
  {
    if content == [] {
      assert Inserted(content) + rest == rest;
    } else {
      hide AddBody, Inserted;
      Closing(rest);
      AddRead(content[1..], rest);
      AddLine(content[0], Inserted(content[1..]) + rest);
      InsertedMore(content[0], content[1..], rest);
      assert [content[0]] + content[1..] == content;
    }
  }

  lemma AddMore(rest: seq<string>)
    requires InBody(rest) && AddBody(rest).Success?
    ensures rest[0] == "+" + rest[0][1..] && AddBody(rest[1..]).Success?
    ensures AddBody(rest).value == ([rest[0][1..]] + AddBody(rest[1..]).value.0, AddBody(rest[1..]).value.1)
  {
  }

  lemma InsertedMore(line: string, content: seq<string>, after: seq<string>)
    ensures ["+" + line] + (Inserted(content) + after) == Inserted([line] + content) + after
  {
    assert ([line] + content)[1..] == content;
  }

  lemma {:induction false} AddIs(rest: seq<string>)
    requires rest != [] && AddBody(rest).Success?
    ensures var (content, after) := AddBody(rest).value; rest == Inserted(content) + after && Closes(after)
  {
    hide Closes, InBody;
    if InBody(rest) {
      hide AddBody, Inserted;
      InBodyHas(rest);
      AddMore(rest);
      AddIs(rest[1..]);
      InsertedMore(rest[0][1..], AddBody(rest[1..]).value.0, AddBody(rest[1..]).value.1);
      assert rest == [rest[0]] + rest[1..];
    } else {
      NothingMore(rest);
    }
  }

  lemma NothingMore(rest: seq<string>)
    requires rest != [] && !InBody(rest)
    ensures AddBody(rest) == Success(([], rest)) && rest == Inserted([]) + rest && Closes(rest)
  {
  }

  // ---- the parts, read ----

  lemma AddRest(path: string, content: seq<string>, rest: seq<string>)
    requires PartOk(AddFile(path, content)) && Closes(rest)
    ensures ParseHunk(PartLines(AddFile(path, content)) + rest) == Success((HunkOf(AddFile(path, content)), rest))
  {
    hide AddBody, UpdateBody, InBody, Text.Trim;
    var all := PartLines(AddFile(path, content)) + rest;
    assert all[0] == ADD + path && (ADD + path)[|ADD|..] == path;
    assert all[1..] == Inserted(content) + rest;
    AddRead(content, rest);
    JoinEnded(content);
  }

  lemma DeleteRest(path: string, rest: seq<string>)
    requires PartOk(DeleteFile(path))
    ensures ParseHunk(PartLines(DeleteFile(path)) + rest) == Success((HunkOf(DeleteFile(path)), rest))
  {
    hide AddBody, UpdateBody, InBody, Text.Trim;
    var all := PartLines(DeleteFile(path)) + rest;
    HeaderKinds(path);
    assert all[0] == DELETE + path && (DELETE + path)[|DELETE|..] == path;
    assert all[1..] == rest;
  }

  // The lines of an update behind its own.
  function UpdateLines(moveTo: Option<string>, first: Option<Piece>, pieces: seq<Piece>): seq<string> {
    (if moveTo.Some? then ["*** Move to: " + moveTo.value] else [])
    + ((if first.Some? then PieceLines(first.value) else []) + AllPieces(pieces))
  }

  function DraftOf(moveTo: Option<string>, first: Option<Piece>, pieces: seq<Piece>): Draft {
    Draft(if moveTo.Some? then Some(Text.Trim(moveTo.value)) else None,
          (if first.Some? then [ChunkOf(first.value)] else []) + ChunksOf(pieces), None)
  }

  lemma UpdateParsed(path: string, body: seq<string>, d: Draft, rest: seq<string>)
    requires Text.Trim(path) != "" && UpdateBody(START, body + rest) == Success((d, rest)) && (d.chunks != [] || d.moveTo.Some?)
    ensures ParseHunk(["*** Update File: " + path] + body + rest) == Success((Update(Text.Trim(path), d.moveTo, d.chunks), rest))
  {
    hide AddBody, UpdateBody, Text.Trim;
    var all := ["*** Update File: " + path] + body + rest;
    HeaderKinds(path);
    assert all[0] == UPDATE + path && (UPDATE + path)[|UPDATE|..] == path;
    assert all[1..] == body + rest;
  }

  lemma UpdateRest(part: Part, rest: seq<string>)
    requires part.UpdateFile? && PartOk(part) && Closes(rest)
    ensures ParseHunk(PartLines(part) + rest) == Success((HunkOf(part), rest))
  {
    hide ParseHunk, UpdateBody, Closes, Text.Trim, PieceOk, PieceLines, ChunkOf, AllPieces, PiecesOk;
    UpdateRead(part.moveTo, part.first, part.pieces, rest);
    UpdateParsed(part.path, UpdateLines(part.moveTo, part.first, part.pieces), DraftOf(part.moveTo, part.first, part.pieces), rest);
  }

  lemma PartRead(part: Part, rest: seq<string>)
    requires PartOk(part) && Closes(rest)
    ensures ParseHunk(PartLines(part) + rest) == Success((HunkOf(part), rest))
  {
    hide PartOk, ParseHunk, PartLines, HunkOf, Closes;
    match part
    case AddFile(path, content) => AddRest(path, content, rest);
    case DeleteFile(path) => DeleteRest(path, rest);
    case UpdateFile(_, _, _, _) => UpdateRest(part, rest);
  }

  lemma PartsClose(parts: seq<Part>, last: string)
    ensures Closes(AllParts(parts) + [last])
  {
    if parts != [] {
      var line := (AllParts(parts) + [last])[0];
      assert line == PartLines(parts[0])[0];
    }
  }

  lemma PartNotEmpty(part: Part)
    ensures PartLines(part) != []
  {
  }

  lemma {:induction false} PartsRead(parts: seq<Part>, last: string)
    requires PartsOk(parts)
    ensures ParseHunks(AllParts(parts) + [last]) == Success(HunksOf(parts))
  {
    hide PartOk, ParseHunk, PartLines, HunkOf, Closes;
    if parts != [] {
      var rest := AllParts(parts[1..]) + [last];
      assert AllParts(parts) + [last] == PartLines(parts[0]) + rest;
      assert PartOk(parts[0]);
      PartNotEmpty(parts[0]);
      PartsClose(parts[1..], last);
      PartRead(parts[0], rest);
      PartsRead(parts[1..], last);
    }
  }

  // ---- and the other way round ----

  // A hunk that was parsed, and the part that says it.
  ghost predicate HunkSays(rest: seq<string>, part: Part) {
    && rest != [] && PartOk(part) && ParseHunk(rest).Success? && ParseHunk(rest).value.1 != []
    && rest == PartLines(part) + ParseHunk(rest).value.1 && ParseHunk(rest).value.0 == HunkOf(part)
  }

  lemma AddHunkIs(rest: seq<string>)
    requires |rest| > 1 && ADD <= rest[0] && ParseHunk(rest).Success?
    ensures AddBody(rest[1..]).Success? && Text.Trim(rest[0][|ADD|..]) != ""
    ensures var (content, after) := AddBody(rest[1..]).value;
            content != [] && ParseHunk(rest).value == (Add(Text.Trim(rest[0][|ADD|..]), Text.Join(content) + "\n"), after)
  {
    hide AddBody, UpdateBody, InBody, Text.Trim, Text.Join;
  }

  lemma AddPartIs(rest: seq<string>) returns (part: Part)
    requires |rest| > 1 && ADD <= rest[0] && ParseHunk(rest).Success?
    ensures HunkSays(rest, part)
  {
    hide ParseHunk, AddBody, Text.Trim, Text.Join, Inserted, Ended;
    AddHunkIs(rest);
    var line := rest[0];
    var (content, after) := AddBody(rest[1..]).value;
    assert line == ADD + line[|ADD|..];
    AddIs(rest[1..]);
    Closing(after);
    JoinEnded(content);
    part := AddFile(line[|ADD|..], content);
    assert rest == [line] + rest[1..];
    Regroup([line], Inserted(content), after);
  }

  lemma Closing(after: seq<string>)
    requires Closes(after)
    ensures after != []
  {
  }

  lemma DeletePartIs(rest: seq<string>) returns (part: Part)
    requires |rest| > 1 && !(ADD <= rest[0]) && DELETE <= rest[0] && ParseHunk(rest).Success?
    ensures HunkSays(rest, part)
  {
    hide AddBody, UpdateBody, InBody, Text.Trim;
    assert rest[0] == DELETE + rest[0][|DELETE|..];
    part := DeleteFile(rest[0][|DELETE|..]);
    assert rest == [rest[0]] + rest[1..];
  }

  lemma UpdateHunkIs(rest: seq<string>)
    requires rest != [] && !(ADD <= rest[0]) && !(DELETE <= rest[0]) && ParseHunk(rest).Success?
    ensures UPDATE <= rest[0] && Text.Trim(rest[0][|UPDATE|..]) != "" && UpdateBody(START, rest[1..]).Success?
    ensures var (d, after) := UpdateBody(START, rest[1..]).value;
            (d.chunks != [] || d.moveTo.Some?) && ParseHunk(rest).value == (Update(Text.Trim(rest[0][|UPDATE|..]), d.moveTo, d.chunks), after)
  {
    hide AddBody, UpdateBody, InBody, Text.Trim;
  }

  lemma UpdatePartIs(rest: seq<string>) returns (part: Part)
    requires |rest| > 1 && !(ADD <= rest[0]) && !(DELETE <= rest[0]) && ParseHunk(rest).Success?
    ensures HunkSays(rest, part)
  {
    hide ParseHunk, UpdateBody, InBody, Text.Trim, PieceOk, PieceLines, ChunkOf, AllPieces, PiecesOk;
    UpdateHunkIs(rest);
    var line := rest[0];
    assert line == UPDATE + line[|UPDATE|..];
    var moveTo, first, pieces, after := UpdateIs(rest[1..]);
    UpdateRead(moveTo, first, pieces, after);
    assert rest[1..] == UpdateLines(moveTo, first, pieces) + after;
    assert UpdateBody(START, rest[1..]) == Success((DraftOf(moveTo, first, pieces), after));
    part := UpdateFile(line[|UPDATE|..], moveTo, first, pieces);
    NoChunks();
    assert rest == [line] + rest[1..];
    assert [line] + UpdateLines(moveTo, first, pieces) + after == [line] + (UpdateLines(moveTo, first, pieces) + after);
  }

  lemma NoChunks()
    ensures ChunksOf([]) == []
  {
  }

  lemma PartIs(rest: seq<string>) returns (part: Part)
    requires |rest| > 1 && ParseHunk(rest).Success?
    ensures HunkSays(rest, part)
  {
    hide ParseHunk, HunkSays;
    if ADD <= rest[0] {
      part := AddPartIs(rest);
    } else if DELETE <= rest[0] {
      part := DeletePartIs(rest);
    } else {
      part := UpdatePartIs(rest);
    }
  }

  lemma {:induction false} PartsAre(rest: seq<string>) returns (parts: seq<Part>)
    requires rest != [] && ParseHunks(rest).Success?
    ensures PartsOk(parts) && rest == AllParts(parts) + [rest[|rest| - 1]] && ParseHunks(rest).value == HunksOf(parts)
    decreases |rest|
  {
    hide PartOk, ParseHunk, PartLines, HunkOf;
    if |rest| <= 1 {
      parts := [];
      assert rest == [] + [rest[0]];
    } else {
      var part := PartIs(rest);
      var after := ParseHunk(rest).value.1;
      var more := PartsAre(after);
      parts := [part] + more;
      assert parts[1..] == more;
      assert rest[|rest| - 1] == after[|after| - 1];
      assert PartLines(part) + (AllParts(more) + [rest[|rest| - 1]]) == PartLines(part) + AllParts(more) + [rest[|rest| - 1]];
    }
  }

  /** A patch that says this: its lines are those of the parts, between the first and the last
      line of every patch, and its hunks are what the parts mean. */
  ghost predicate Says(lines: seq<string>, parts: seq<Part>, hunks: seq<Hunk>) {
    && parts != [] && PartsOk(parts) && hunks == HunksOf(parts)
    && lines == ["*** Begin Patch"] + AllParts(parts) + ["*** End Patch"]
  }

  lemma LanguageParses(patch: string, parts: seq<Part>, hunks: seq<Hunk>)
    requires Says(PatchLines(patch), parts, hunks)
    ensures Parse(patch) == Success(hunks)
  {
    hide PatchLines, ParseHunks, AllParts, HunksOf, PartsOk;
    var lines := PatchLines(patch);
    PartsRead(parts, END);
    SomeParts(parts);
    assert lines[1..] == AllParts(parts) + [END];
    assert lines[0] == BEGIN && lines[|lines| - 1] == END;
  }

  lemma ParsesLanguage(patch: string) returns (parts: seq<Part>)
    requires Parse(patch).Success?
    ensures Says(PatchLines(patch), parts, Parse(patch).value)
  {
    hide PatchLines, ParseHunks, AllParts, HunksOf, PartsOk;
    var lines := PatchLines(patch);
    OneLine(lines);
    parts := PartsAre(lines[1..]);
    NoParts();
    assert lines == [BEGIN] + lines[1..];
    assert [BEGIN] + (AllParts(parts) + [END]) == [BEGIN] + AllParts(parts) + [END];
  }

  /** Parsing succeeds exactly for the lines of a patch, and gives what they mean. */
  lemma ParseIsLanguage(patch: string, hunks: seq<Hunk>)
    ensures Parse(patch) == Success(hunks) <==> exists parts :: Says(Text.Split(Text.Trim(Text.Normalize(patch))), parts, hunks)
  {
    hide PatchLines, Parse, Says;
    assert PatchLines(patch) == Text.Split(Text.Trim(Text.Normalize(patch))) by {
      LinesOfPatch(patch);
    }
    if Parse(patch) == Success(hunks) {
      var parts := ParsesLanguage(patch);
      assert Says(Text.Split(Text.Trim(Text.Normalize(patch))), parts, hunks);
    }
    forall parts | Says(Text.Split(Text.Trim(Text.Normalize(patch))), parts, hunks) ensures Parse(patch) == Success(hunks) {
      LanguageParses(patch, parts, hunks);
    }
  }

  lemma LinesOfPatch(patch: string)
    ensures PatchLines(patch) == Text.Split(Text.Trim(Text.Normalize(patch)))
  {
  }

  lemma OneLine(lines: seq<string>)
    requires lines != [] && lines[0] == BEGIN && lines[|lines| - 1] == END
    ensures |lines| > 1
  {
    assert BEGIN[4] == 'B' && END[4] == 'E';
  }

  lemma NoParts()
    ensures HunksOf([]) == []
  {
  }

  lemma SomeParts(parts: seq<Part>)
    requires parts != []
    ensures HunksOf(parts) != []
  {
  }
}
