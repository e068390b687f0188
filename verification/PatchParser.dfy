// The patch grammar: the parser, and a printer it undoes.
module PatchParser {
  import opened Wrappers
  import opened Patch
  import Text

  datatype Hunk =
    | Add(path: string, content: string)
    | Delete(path: string)
    | Update(path: string, moveTo: Option<string>, chunks: seq<Chunk>)

  const BEGIN := "*** Begin Patch"
  const END := "*** End Patch"
  const ADD := "*** Add File: "
  const DELETE := "*** Delete File: "
  const UPDATE := "*** Update File: "
  const MOVE := "*** Move to: "
  const END_OF_FILE := "*** End of File"
  const CHUNK := "@@"
  const CONTEXT := "@@ "

  function StripPrefix(line: string, prefix: string): Option<string> {
    if prefix <= line then Some(line[|prefix|..]) else None
  }

  predicate IsHunkHeader(line: string) {
    ADD <= line || DELETE <= line || UPDATE <= line || line == END
  }

  function CheckedPath(path: string): Result<string> {
    var trimmed := Text.Trim(path);
    if trimmed == "" then Failure("patch path must not be empty") else Success(trimmed)
  }

  // ---- the grammar as functions of the remaining lines ----

  // Inside a hunk: the last line of a patch closes it, and so does a header.
  predicate InBody(rest: seq<string>) {
    |rest| > 1 && !IsHunkHeader(rest[0])
  }

  function AddBody(rest: seq<string>): Result<(seq<string>, seq<string>)> {
    if !InBody(rest) then Success(([], rest)) else
    if !("+" <= rest[0]) then Failure("added file lines must start with +") else
    var (content, after) :- AddBody(rest[1..]);
    Success(([rest[0][1..]] + content, after))
  }

  /** The update hunk read so far; current is the chunk that is still open. */
  datatype Draft = Draft(moveTo: Option<string>, chunks: seq<Chunk>, current: Option<Chunk>)

  const EMPTY_CHUNK := Chunk(None, [], [], false)

  function Open(d: Draft): Chunk {
    if d.current.Some? then d.current.value else EMPTY_CHUNK
  }

  function PushChunk(chunks: seq<Chunk>, chunk: Chunk): Result<seq<Chunk>> {
    if chunk.context.None? && chunk.before == [] && chunk.after == [] then Failure("empty update chunk")
    else Success(chunks + [chunk])
  }

  function Closed(d: Draft): Result<Draft> {
    if d.current.None? then Success(d) else
    var chunks :- PushChunk(d.chunks, d.current.value);
    Success(Draft(d.moveTo, chunks, None))
  }

  function UpdateLine(d: Draft, line: string): Result<Draft> {
    if MOVE <= line then
      var _ :- if d.moveTo.Some? || d.current.Some? || d.chunks != [] then Failure("move must precede update chunks")
               else Success(true);
      var path :- CheckedPath(line[|MOVE|..]);
      Success(d.(moveTo := Some(path)))
    else if line == CHUNK || CONTEXT <= line then
      var closed :- Closed(d);
      Success(closed.(current := Some(EMPTY_CHUNK.(context := StripPrefix(line, CONTEXT)))))
    else if line == END_OF_FILE then
      Success(d.(current := Some(Open(d).(endOfFile := true))))
    else if line != "" && line[0] == ' ' then
      Success(d.(current := Some(Open(d).(before := Open(d).before + [line[1..]], after := Open(d).after + [line[1..]]))))
    else if line != "" && line[0] == '-' then
      Success(d.(current := Some(Open(d).(before := Open(d).before + [line[1..]]))))
    else if line != "" && line[0] == '+' then
      Success(d.(current := Some(Open(d).(after := Open(d).after + [line[1..]]))))
    else Failure("invalid update line")
  }

  function UpdateBody(d: Draft, rest: seq<string>): Result<(Draft, seq<string>)>
    decreases |rest|
  {
    if !InBody(rest) then
      var closed :- Closed(d);
      Success((closed, rest))
    else
      var next :- UpdateLine(d, rest[0]);
      UpdateBody(next, rest[1..])
  }

  function ParseHunk(rest: seq<string>): (r: Result<(Hunk, seq<string>)>)
    requires rest != []
    ensures r.Success? ==> |r.value.1| < |rest|
  {
    var line := rest[0];
    if ADD <= line then
      var path :- CheckedPath(line[|ADD|..]);
      AddBodyShortens(rest[1..]);
      var (content, after) :- AddBody(rest[1..]);
      if content == [] then Failure("added file must contain at least one line") else
      Success((Add(path, Text.Join(content) + "\n"), after))
    else if DELETE <= line then
      var path :- CheckedPath(line[|DELETE|..]);
      Success((Delete(path), rest[1..]))
    else if UPDATE <= line then
      var path :- CheckedPath(line[|UPDATE|..]);
      UpdateBodyShortens(Draft(None, [], None), rest[1..]);
      var (d, after) :- UpdateBody(Draft(None, [], None), rest[1..]);
      if d.chunks == [] && d.moveTo.None? then Failure("update hunk is empty") else
      Success((Update(path, d.moveTo, d.chunks), after))
    else Failure("expected an Add, Delete, or Update hunk")
  }

  lemma {:induction false} AddBodyShortens(rest: seq<string>)
    ensures AddBody(rest).Success? ==> |AddBody(rest).value.1| <= |rest|
  {
    if InBody(rest) {
      AddBodyShortens(rest[1..]);
    }
  }

  lemma {:induction false} UpdateBodyShortens(d: Draft, rest: seq<string>)
    ensures UpdateBody(d, rest).Success? ==> |UpdateBody(d, rest).value.1| <= |rest|
    decreases |rest|
  {
    if InBody(rest) && UpdateLine(d, rest[0]).Success? {
      UpdateBodyShortens(UpdateLine(d, rest[0]).value, rest[1..]);
    }
  }

  function ParseHunks(rest: seq<string>): Result<seq<Hunk>>
    decreases |rest|
  {
    if |rest| <= 1 then Success([]) else
    var (hunk, after) :- ParseHunk(rest);
    var hunks :- ParseHunks(after);
    Success([hunk] + hunks)
  }

  function PatchLines(patch: string): (lines: seq<string>)
    ensures lines != []
  {
    Text.Split(Text.Trim(Text.Normalize(patch)))
  }

  function Parse(patch: string): Result<seq<Hunk>> {
    var lines := PatchLines(patch);
    if lines[0] != BEGIN then Failure("first line must be *** Begin Patch") else
    if lines[|lines| - 1] != END then Failure("last line must be *** End Patch") else
    var hunks :- ParseHunks(lines[1..]);
    if hunks == [] then Failure("patch must contain at least one hunk") else Success(hunks)
  }

  // ---- the parser as it walks its index ----

  function PrependHunks(hunks: seq<Hunk>, r: Result<seq<Hunk>>): Result<seq<Hunk>> {
    if r.Failure? then r else Success(hunks + r.value)
  }

  lemma AddStep(lines: seq<string>, next: nat, content: seq<string>)
    requires next + 1 < |lines| && !IsHunkHeader(lines[next]) && "+" <= lines[next]
    ensures AddBody(lines[next..]).Success? == AddBody(lines[next + 1..]).Success?
    ensures AddBody(lines[next..]).Success? ==>
              && content + AddBody(lines[next..]).value.0 == content + [lines[next][1..]] + AddBody(lines[next + 1..]).value.0
              && AddBody(lines[next..]).value.1 == AddBody(lines[next + 1..]).value.1
  {
    hide IsHunkHeader;
    assert lines[next..][0] == lines[next] && lines[next..][1..] == lines[next + 1..];
  }

  lemma AddStops(lines: seq<string>, next: nat)
    requires next < |lines|
    ensures next + 1 == |lines| || IsHunkHeader(lines[next]) ==> AddBody(lines[next..]) == Success(([], lines[next..]))
    ensures next + 1 < |lines| && !IsHunkHeader(lines[next]) && !("+" <= lines[next]) ==> AddBody(lines[next..]).Failure?
  {
    hide IsHunkHeader;
  }

  method ParseAddBody(lines: seq<string>, index: nat) returns (r: Result<seq<string>>, next: nat)
    requires index < |lines|
    ensures r.Success? == AddBody(lines[index..]).Success?
    ensures r.Success? ==> index <= next < |lines| && AddBody(lines[index..]).value == (r.value, lines[next..])
  {
    hide IsHunkHeader, AddBody;
    var content: seq<string> := [];
    next := index;
    assert AddBody(lines[index..]).Success? ==> [] + AddBody(lines[index..]).value.0 == AddBody(lines[index..]).value.0;
    while next + 1 < |lines| && !IsHunkHeader(lines[next])
      invariant index <= next < |lines|
      invariant AddBody(lines[index..]).Success? == AddBody(lines[next..]).Success?
      invariant AddBody(lines[next..]).Success? ==>
                  AddBody(lines[index..]).value == (content + AddBody(lines[next..]).value.0, AddBody(lines[next..]).value.1)
    {
      AddStops(lines, next);
      var value := StripPrefix(lines[next], "+");
      if value.None? {
        return Failure("added file lines must start with +"), next;
      }
      AddStep(lines, next, content);
      content := content + [value.value];
      next := next + 1;
    }
    AddStops(lines, next);
    assert content + [] == content;
    r := Success(content);
  }

  method ParseUpdateBody(lines: seq<string>, index: nat) returns (r: Result<Draft>, next: nat)
    requires index < |lines|
    ensures r.Success? == UpdateBody(Draft(None, [], None), lines[index..]).Success?
    ensures r.Success? ==>
              index <= next < |lines| && UpdateBody(Draft(None, [], None), lines[index..]).value == (r.value, lines[next..])
  {
    hide IsHunkHeader, CheckedPath, PushChunk, StripPrefix, Open;
    var moveTo: Option<string>, chunks: seq<Chunk>, current: Option<Chunk> := None, [], None;
    next := index;
    while next + 1 < |lines| && !IsHunkHeader(lines[next])
      invariant index <= next < |lines|
      invariant UpdateBody(Draft(None, [], None), lines[index..]) == UpdateBody(Draft(moveTo, chunks, current), lines[next..])
    {
      var line := lines[next];
      assert lines[next..][0] == line && lines[next..][1..] == lines[next + 1..];
      var d := Draft(moveTo, chunks, current);
      if MOVE <= line {
        if moveTo.Some? || current.Some? || chunks != [] {
          return Failure("move must precede update chunks"), next;
        }
        var path := CheckedPath(line[|MOVE|..]);
        if path.Failure? {
          return Failure(path.reason), next;
        }
        moveTo := Some(path.value);
      } else if line == CHUNK || CONTEXT <= line {
        if current.Some? {
          var pushed := PushChunk(chunks, current.value);
          if pushed.Failure? {
            return Failure(pushed.reason), next;
          }
          chunks := pushed.value;
        }
        current := Some(EMPTY_CHUNK.(context := StripPrefix(line, CONTEXT)));
      } else {
        var changed := UpdateLine(d, line);
        if changed.Failure? {
          return Failure(changed.reason), next;
        }
        current := changed.value.current;
      }
      next := next + 1;
    }
    if current.Some? {
      var pushed := PushChunk(chunks, current.value);
      if pushed.Failure? {
        return Failure(pushed.reason), next;
      }
      chunks := pushed.value;
    }
    r := Success(Draft(moveTo, chunks, None));
  }

  // One round of the outer loop.
  method ParseOneHunk(lines: seq<string>, index: nat) returns (r: Result<Hunk>, next: nat)
    requires index + 1 < |lines|
    ensures r.Success? == ParseHunk(lines[index..]).Success?
    ensures r.Success? ==> index < next <= |lines| && ParseHunk(lines[index..]) == Success((r.value, lines[next..]))
  {
    hide AddBody, UpdateBody, CheckedPath;
    var line := lines[index];
    next := index;
    assert lines[index..][0] == line && lines[index..][1..] == lines[index + 1..];
    if ADD <= line {
      var path := CheckedPath(line[|ADD|..]);
      if path.Failure? {
        return Failure(path.reason), next;
      }
      var content, end := ParseAddBody(lines, index + 1);
      if content.Failure? {
        return Failure(content.reason), next;
      }
      if content.value == [] {
        return Failure("added file must contain at least one line"), next;
      }
      return Success(Add(path.value, Text.Join(content.value) + "\n")), end;
    } else if DELETE <= line {
      var path := CheckedPath(line[|DELETE|..]);
      if path.Failure? {
        return Failure(path.reason), next;
      }
      return Success(Delete(path.value)), index + 1;
    } else if UPDATE <= line {
      var path := CheckedPath(line[|UPDATE|..]);
      if path.Failure? {
        return Failure(path.reason), next;
      }
      var d, end := ParseUpdateBody(lines, index + 1);
      if d.Failure? {
        return Failure(d.reason), next;
      }
      if d.value.chunks == [] && d.value.moveTo.None? {
        return Failure("update hunk is empty"), next;
      }
      return Success(Update(path.value, d.value.moveTo, d.value.chunks)), end;
    }
    return Failure("expected an Add, Delete, or Update hunk"), next;
  }

  /** Every round of the outer loop moves the index on. */
  method ParsePatch(patch: string) returns (r: Result<seq<Hunk>>)
    ensures r.Success? == Parse(patch).Success?
    ensures r.Success? ==> r == Parse(patch)
  {
    hide PatchLines, ParseHunk;
    var lines := PatchLines(patch);
    if lines[0] != BEGIN {
      return Failure("first line must be *** Begin Patch");
    }
    if lines[|lines| - 1] != END {
      return Failure("last line must be *** End Patch");
    }
    var hunks: seq<Hunk>, index: nat := [], 1;
    PrependNone(ParseHunks(lines[1..]));
    while index + 1 < |lines|
      invariant 1 <= index <= |lines|
      invariant ParseHunks(lines[1..]).Success? == ParseHunks(lines[index..]).Success?
      invariant ParseHunks(lines[1..]).Success? ==> ParseHunks(lines[1..]) == PrependHunks(hunks, ParseHunks(lines[index..]))
      decreases |lines| - index
    {
      var hunk, next := ParseOneHunk(lines, index);
      if hunk.Failure? {
        return Failure(hunk.reason);
      }
      PrependMore(hunks, hunk.value, ParseHunks(lines[next..]));
      hunks, index := hunks + [hunk.value], next;
    }
    PrependAll(hunks);
    if hunks == [] {
      return Failure("patch must contain at least one hunk");
    }
    return Success(hunks);
  }

  lemma PrependNone(r: Result<seq<Hunk>>)
    ensures PrependHunks([], r) == r
  {
    if r.Success? {
      assert [] + r.value == r.value;
    }
  }

  lemma PrependMore(hunks: seq<Hunk>, hunk: Hunk, r: Result<seq<Hunk>>)
    ensures PrependHunks(hunks, PrependHunks([hunk], r)) == PrependHunks(hunks + [hunk], r)
  {
    if r.Success? {
      assert hunks + ([hunk] + r.value) == hunks + [hunk] + r.value;
    }
  }

  lemma PrependAll(hunks: seq<Hunk>)
    ensures PrependHunks(hunks, Success([])) == Success(hunks)
  {
    assert hunks + [] == hunks;
  }

  // ---- a printer ----

  function Prefixed(prefix: string, lines: seq<string>): seq<string> {
    seq(|lines|, i requires 0 <= i < |lines| => prefix + lines[i])
  }

  function RenderChunk(c: Chunk): seq<string> {
    [if c.context.Some? then CONTEXT + c.context.value else CHUNK]
    + Prefixed("-", c.before) + Prefixed("+", c.after) + (if c.endOfFile then [END_OF_FILE] else [])
  }

  function RenderChunks(chunks: seq<Chunk>): seq<string> {
    if chunks == [] then [] else RenderChunk(chunks[0]) + RenderChunks(chunks[1..])
  }

  function ContentLines(content: string): seq<string> {
    if content == "" then [""] else Text.Split(content[..|content| - 1])
  }

  function RenderHunk(h: Hunk): seq<string> {
    match h
    case Add(path, content) => [ADD + path] + Prefixed("+", ContentLines(content))
    case Delete(path) => [DELETE + path]
    case Update(path, moveTo, chunks) =>
      [UPDATE + path] + (if moveTo.Some? then [MOVE + moveTo.value] else []) + RenderChunks(chunks)
  }

  function RenderHunks(hunks: seq<Hunk>): seq<string> {
    if hunks == [] then [] else RenderHunk(hunks[0]) + RenderHunks(hunks[1..])
  }

  function Render(hunks: seq<Hunk>): string {
    Text.Join([BEGIN] + RenderHunks(hunks) + [END])
  }

  // ---- the hunks a patch can express ----

  ghost predicate AllPlain(lines: seq<string>) {
    forall i :: 0 <= i < |lines| ==> Text.PlainLine(lines[i])
  }

  ghost predicate PathOk(path: string) {
    path != "" && Text.Trim(path) == path && Text.NoNewline(path)
  }

  ghost predicate ChunkOk(c: Chunk) {
    && (c.context.Some? ==> Text.PlainLine(c.context.value))
    && AllPlain(c.before) && AllPlain(c.after)
    && (c.context.Some? || c.before != [] || c.after != [])
  }

  ghost predicate HunkOk(h: Hunk) {
    match h
    case Add(path, content) =>
      PathOk(path) && content != "" && content[|content| - 1] == '\n' && AllPlain(ContentLines(content))
    case Delete(path) => PathOk(path)
    case Update(path, moveTo, chunks) =>
      && PathOk(path) && (moveTo.Some? ==> PathOk(moveTo.value)) && (chunks != [] || moveTo.Some?)
      && forall i :: 0 <= i < |chunks| ==> ChunkOk(chunks[i])
  }

  // ---- parsing what was printed ----

  // What follows a body closes it.
  ghost predicate Closes(rest: seq<string>) {
    rest != [] && !InBody(rest)
  }

  lemma {:induction false} AddBodyPrinted(lines: seq<string>, rest: seq<string>)
    requires Closes(rest)
    ensures AddBody(Prefixed("+", lines) + rest) == Success((lines, rest))
  {
    var all := Prefixed("+", lines) + rest;
    if lines == [] {
      assert all == rest;
    } else {
      AddBodyPrinted(lines[1..], rest);
      assert all[0] == "+" + lines[0] && all[0][0] == '+';
      assert all[1..] == Prefixed("+", lines[1..]) + rest;
      assert [lines[0]] + lines[1..] == lines;
    }
  }

  // One more line of an update hunk.
  lemma UpdateCons(d: Draft, line: string, rest: seq<string>)
    requires !IsHunkHeader(line) && rest != [] && UpdateLine(d, line).Success?
    ensures UpdateBody(d, [line] + rest) == UpdateBody(UpdateLine(d, line).value, rest)
  {
    assert ([line] + rest)[1..] == rest;
  }

  lemma {:induction false} RemovedPrinted(d: Draft, c: Chunk, lines: seq<string>, rest: seq<string>)
    requires d.current == Some(c) && rest != []
    ensures UpdateBody(d, Prefixed("-", lines) + rest) == UpdateBody(d.(current := Some(c.(before := c.before + lines))), rest)
    decreases |lines|
  {
    hide UpdateBody, CheckedPath, Closed, StripPrefix;
    if lines == [] {
      assert Prefixed("-", lines) + rest == rest && c.before + lines == c.before;
    } else {
      var line := "-" + lines[0];
      var tail := Prefixed("-", lines[1..]) + rest;
      assert Prefixed("-", lines) + rest == [line] + tail;
      assert line[0] == '-' && line[1..] == lines[0];
      UpdateCons(d, line, tail);
      var c' := c.(before := c.before + [lines[0]]);
      RemovedPrinted(d.(current := Some(c')), c', lines[1..], rest);
      assert c.before + [lines[0]] + lines[1..] == c.before + lines;
    }
  }

  lemma {:induction false} AddedPrinted(d: Draft, c: Chunk, lines: seq<string>, rest: seq<string>)
    requires d.current == Some(c) && rest != []
    ensures UpdateBody(d, Prefixed("+", lines) + rest) == UpdateBody(d.(current := Some(c.(after := c.after + lines))), rest)
    decreases |lines|
  {
    hide UpdateBody, CheckedPath, Closed, StripPrefix;
    if lines == [] {
      assert Prefixed("+", lines) + rest == rest && c.after + lines == c.after;
    } else {
      var line := "+" + lines[0];
      var tail := Prefixed("+", lines[1..]) + rest;
      assert Prefixed("+", lines) + rest == [line] + tail;
      assert line[0] == '+' && line[1..] == lines[0];
      UpdateCons(d, line, tail);
      var c' := c.(after := c.after + [lines[0]]);
      AddedPrinted(d.(current := Some(c')), c', lines[1..], rest);
      assert c.after + [lines[0]] + lines[1..] == c.after + lines;
    }
  }

  lemma ChunkHeader(d: Draft, c: Chunk)
    requires Closed(d).Success?
    ensures var line := if c.context.Some? then CONTEXT + c.context.value else CHUNK;
            && !IsHunkHeader(line)
            && UpdateLine(d, line) == Success(Closed(d).value.(current := Some(EMPTY_CHUNK.(context := c.context))))
  {
    var line := if c.context.Some? then CONTEXT + c.context.value else CHUNK;
    assert line[0] == '@';
    if c.context.Some? {
      assert line[|CONTEXT|..] == c.context.value;
    }
  }

  lemma EndOfFileLine(d: Draft, c: Chunk)
    requires d.current == Some(c)
    ensures !IsHunkHeader(END_OF_FILE)
    ensures UpdateLine(d, END_OF_FILE) == Success(d.(current := Some(c.(endOfFile := true))))
  {
    assert END_OF_FILE[4] == 'E' && MOVE[4] == 'M' && ADD[4] == 'A' && DELETE[4] == 'D' && UPDATE[4] == 'U';
    assert END_OF_FILE[0] == '*' && CONTEXT[0] == '@' && |END| != |END_OF_FILE|;
  }

  lemma ChunkPrinted(d: Draft, c: Chunk, rest: seq<string>)
    requires Closed(d).Success? && rest != []
    ensures UpdateBody(d, RenderChunk(c) + rest) == UpdateBody(Closed(d).value.(current := Some(c)), rest)
  {
    hide Closed, UpdateBody, IsHunkHeader, UpdateLine;
    var header := if c.context.Some? then CONTEXT + c.context.value else CHUNK;
    var last := (if c.endOfFile then [END_OF_FILE] else []) + rest;
    var added := Prefixed("+", c.after) + last;
    var removed := Prefixed("-", c.before) + added;
    assert RenderChunk(c) + rest == [header] + removed;
    ChunkHeader(d, c);
    UpdateCons(d, header, removed);
    var open := EMPTY_CHUNK.(context := c.context);
    var d1 := Closed(d).value.(current := Some(open));
    RemovedPrinted(d1, open, c.before, added);
    var open2 := open.(before := [] + c.before);
    AddedPrinted(d1.(current := Some(open2)), open2, c.after, last);
    var open3 := open2.(after := [] + c.after);
    assert [] + c.before == c.before && [] + c.after == c.after;
    if c.endOfFile {
      EndOfFileLine(d1.(current := Some(open3)), open3);
      UpdateCons(d1.(current := Some(open3)), END_OF_FILE, rest);
    } else {
      assert last == rest;
    }
  }

  lemma {:induction false} ChunksPrinted(d: Draft, chunks: seq<Chunk>, rest: seq<string>)
    requires Closed(d).Success? && Closes(rest) && forall i :: 0 <= i < |chunks| ==> ChunkOk(chunks[i])
    ensures UpdateBody(d, RenderChunks(chunks) + rest) ==
            Success((Closed(d).value.(chunks := Closed(d).value.chunks + chunks), rest))
    decreases |chunks|
  {
    hide Text.PlainLine, AllPlain, InBody, UpdateLine, Prefixed;
    if chunks == [] {
      assert RenderChunks(chunks) + rest == rest;
      assert Closed(d).value.chunks + [] == Closed(d).value.chunks;
    } else {
      var tail := RenderChunks(chunks[1..]) + rest;
      assert RenderChunks(chunks) + rest == RenderChunk(chunks[0]) + tail;
      ChunkPrinted(d, chunks[0], tail);
      var d' := Closed(d).value.(current := Some(chunks[0]));
      assert ChunkOk(chunks[0]);
      ChunksPrinted(d', chunks[1..], rest);
      assert Closed(d).value.chunks + [chunks[0]] + chunks[1..] == Closed(d).value.chunks + chunks;
    }
  }

  lemma UpdatePrinted(moveTo: Option<string>, chunks: seq<Chunk>, rest: seq<string>)
    requires Closes(rest) && (moveTo.Some? ==> PathOk(moveTo.value)) && forall i :: 0 <= i < |chunks| ==> ChunkOk(chunks[i])
    ensures UpdateBody(Draft(None, [], None), (if moveTo.Some? then [MOVE + moveTo.value] else []) + RenderChunks(chunks) + rest) ==
            Success((Draft(moveTo, chunks, None), rest))
  {
    hide UpdateBody, RenderChunks, ChunkOk, InBody;
    var d := Draft(None, [], None);
    var tail := RenderChunks(chunks) + rest;
    assert [] + chunks == chunks;
    if moveTo.Some? {
      var line := MOVE + moveTo.value;
      assert [line] + RenderChunks(chunks) + rest == [line] + tail;
      assert line[4] == 'M' && ADD[4] == 'A' && DELETE[4] == 'D' && UPDATE[4] == 'U' && END[4] == 'E';
      assert line[|MOVE|..] == moveTo.value;
      UpdateCons(d, line, tail);
      ChunksPrinted(d.(moveTo := moveTo), chunks, rest);
    } else {
      assert [] + RenderChunks(chunks) + rest == tail;
      ChunksPrinted(d, chunks, rest);
    }
  }

  lemma ContentOfLines(content: string)
    requires content != "" && content[|content| - 1] == '\n'
    ensures Text.Join(ContentLines(content)) + "\n" == content
  {
    Text.JoinOfSplit(content[..|content| - 1]);
  }

  lemma HeaderKinds(path: string)
    ensures !(ADD <= DELETE + path) && !(ADD <= UPDATE + path) && !(DELETE <= UPDATE + path)
  {
    assert ADD[4] == 'A' && (DELETE + path)[4] == 'D' && (UPDATE + path)[4] == 'U' && DELETE[4] == 'D';
  }

  lemma AddPrinted(path: string, content: string, rest: seq<string>)
    requires HunkOk(Add(path, content)) && Closes(rest)
    ensures ParseHunk(RenderHunk(Add(path, content)) + rest) == Success((Add(path, content), rest))
  {
    hide AddBody, ContentLines, AllPlain, InBody;
    var all := RenderHunk(Add(path, content)) + rest;
    assert all[0] == ADD + path && (ADD + path)[|ADD|..] == path;
    assert all[1..] == Prefixed("+", ContentLines(content)) + rest;
    AddBodyPrinted(ContentLines(content), rest);
    ContentOfLines(content);
    ContentNotEmpty(content);
  }

  lemma ContentNotEmpty(content: string)
    ensures ContentLines(content) != []
  {
  }

  lemma DeletePrinted(path: string, rest: seq<string>)
    requires HunkOk(Delete(path)) && Closes(rest)
    ensures ParseHunk(RenderHunk(Delete(path)) + rest) == Success((Delete(path), rest))
  {
    hide AddBody, UpdateBody, InBody;
    var all := RenderHunk(Delete(path)) + rest;
    HeaderKinds(path);
    assert all[0] == DELETE + path && (DELETE + path)[|DELETE|..] == path;
    assert all[1..] == rest;
  }

  lemma UpdateHunkPrinted(path: string, moveTo: Option<string>, chunks: seq<Chunk>, rest: seq<string>)
    requires HunkOk(Update(path, moveTo, chunks)) && Closes(rest)
    ensures ParseHunk(RenderHunk(Update(path, moveTo, chunks)) + rest) == Success((Update(path, moveTo, chunks), rest))
  {
    hide AddBody, UpdateBody, InBody, RenderChunks, ChunkOk;
    var all := RenderHunk(Update(path, moveTo, chunks)) + rest;
    HeaderKinds(path);
    assert all[0] == UPDATE + path && (UPDATE + path)[|UPDATE|..] == path;
    assert all[1..] == (if moveTo.Some? then [MOVE + moveTo.value] else []) + RenderChunks(chunks) + rest;
    UpdatePrinted(moveTo, chunks, rest);
  }

  lemma HunkPrinted(h: Hunk, rest: seq<string>)
    requires HunkOk(h) && Closes(rest)
    ensures ParseHunk(RenderHunk(h) + rest) == Success((h, rest))
  {
    hide HunkOk, ParseHunk, RenderHunk, Closes;
    match h
    case Add(path, content) => AddPrinted(path, content, rest);
    case Delete(path) => DeletePrinted(path, rest);
    case Update(path, moveTo, chunks) => UpdateHunkPrinted(path, moveTo, chunks, rest);
  }

  lemma PrintedCloses(hunks: seq<Hunk>)
    ensures Closes(RenderHunks(hunks) + [END])
  {
    if hunks != [] {
      var line := (RenderHunks(hunks) + [END])[0];
      assert line == RenderHunk(hunks[0])[0];
    }
  }

  lemma {:induction false} HunksPrinted(hunks: seq<Hunk>)
    requires forall i :: 0 <= i < |hunks| ==> HunkOk(hunks[i])
    ensures ParseHunks(RenderHunks(hunks) + [END]) == Success(hunks)
  {
    if hunks != [] {
      var rest := RenderHunks(hunks[1..]) + [END];
      assert RenderHunks(hunks) + [END] == RenderHunk(hunks[0]) + rest;
      PrintedCloses(hunks[1..]);
      HunkPrinted(hunks[0], rest);
      HunksPrinted(hunks[1..]);
      assert [hunks[0]] + hunks[1..] == hunks;
    }
  }

  // ---- from lines to text ----

  lemma PathIsPlain(prefix: string, path: string)
    requires PathOk(path) && Text.NoNewline(prefix)
    ensures Text.PlainLine(prefix + path)
  {
    Text.TrimEndsTight(path);
  }

  lemma PrefixedIsPlain(prefix: string, lines: seq<string>)
    requires AllPlain(lines) && prefix != "" && Text.PlainLine(prefix)
    ensures AllPlain(Prefixed(prefix, lines))
  {
    forall i | 0 <= i < |lines| ensures Text.PlainLine(prefix + lines[i]) {
      assert Text.PlainLine(lines[i]);
    }
  }

  lemma ChunkIsPlain(c: Chunk)
    requires ChunkOk(c)
    ensures AllPlain(RenderChunk(c))
  {
    PrefixedIsPlain("-", c.before);
    PrefixedIsPlain("+", c.after);
    assert Text.PlainLine(CHUNK) && Text.PlainLine(END_OF_FILE) && Text.PlainLine(CONTEXT);
  }

  lemma {:induction false} ChunksArePlain(chunks: seq<Chunk>)
    requires forall i :: 0 <= i < |chunks| ==> ChunkOk(chunks[i])
    ensures AllPlain(RenderChunks(chunks))
  {
    if chunks != [] {
      ChunkIsPlain(chunks[0]);
      ChunksArePlain(chunks[1..]);
    }
  }

  lemma PlainConcat(a: seq<string>, b: seq<string>)
    requires AllPlain(a) && AllPlain(b)
    ensures AllPlain(a + b)
  {
  }

  lemma HunkIsPlain(h: Hunk)
    requires HunkOk(h)
    ensures AllPlain(RenderHunk(h))
  {
    assert Text.NoNewline(ADD) && Text.NoNewline(DELETE) && Text.PlainLine("+");
    hide Text.PlainLine, Text.NoNewline, PathOk, ChunkOk, ContentLines;
    match h
    case Add(path, content) =>
      PathIsPlain(ADD, path);
      PrefixedIsPlain("+", ContentLines(content));
      PlainConcat([ADD + path], Prefixed("+", ContentLines(content)));
    case Delete(path) => PathIsPlain(DELETE, path);
    case Update(path, moveTo, chunks) => UpdateIsPlain(path, moveTo, chunks);
  }

  lemma UpdateIsPlain(path: string, moveTo: Option<string>, chunks: seq<Chunk>)
    requires HunkOk(Update(path, moveTo, chunks))
    ensures AllPlain(RenderHunk(Update(path, moveTo, chunks)))
  {
    assert Text.NoNewline(UPDATE) && Text.NoNewline(MOVE) && AllPlain([]);
    hide Text.PlainLine, Text.NoNewline, PathOk, ChunkOk;
    PathIsPlain(UPDATE, path);
    ChunksArePlain(chunks);
    var move := if moveTo.Some? then [MOVE + moveTo.value] else [];
    if moveTo.Some? {
      PathIsPlain(MOVE, moveTo.value);
    }
    PlainConcat([UPDATE + path], move);
    PlainConcat([UPDATE + path] + move, RenderChunks(chunks));
  }

  lemma {:induction false} HunksArePlain(hunks: seq<Hunk>)
    requires forall i :: 0 <= i < |hunks| ==> HunkOk(hunks[i])
    ensures AllPlain(RenderHunks(hunks))
  {
    if hunks != [] {
      HunkIsPlain(hunks[0]);
      HunksArePlain(hunks[1..]);
    }
  }

  lemma {:induction false} JoinEnds(lines: seq<string>)
    requires |lines| >= 2
    ensures lines[0] <= Text.Join(lines)
    ensures var s, last := Text.Join(lines), lines[|lines| - 1]; |last| <= |s| && s[|s| - |last|..] == last
  {
    if |lines| > 2 {
      JoinEnds(lines[1..]);
    } else {
      assert lines[1..] == [lines[1]];
    }
  }

  /** Parsing the rendering of any list of well-formed hunks gives back that list. */
  lemma ParseRender(hunks: seq<Hunk>)
    requires hunks != [] && forall i :: 0 <= i < |hunks| ==> HunkOk(hunks[i])
    ensures Parse(Render(hunks)) == Success(hunks)
  {
    hide RenderHunks, HunkOk, ParseHunks, Text.Normalize, Text.Split;
    var lines := [BEGIN] + RenderHunks(hunks) + [END];
    HunksArePlain(hunks);
    assert Text.PlainLine(BEGIN) && Text.PlainLine(END);
    Text.NormalizeJoin(lines);
    JoinEnds(lines);
    var text := Text.Join(lines);
    assert text[0] == '*' && text[|text| - |END|..][|END| - 1] == 'h';
    Text.TrimTight(text);
    Text.SplitOfJoin(lines);
    assert lines[1..] == RenderHunks(hunks) + [END];
    HunksPrinted(hunks);
  }

  lemma SameParse(a: string, b: string)
    requires Text.Normalize(a) == Text.Normalize(b)
    ensures Parse(a) == Parse(b)
  {
    hide ParseHunks, Text.Normalize, Text.Split;
  }

  lemma RenderedArePlain(hunks: seq<Hunk>) returns (lines: seq<string>)
    requires forall i :: 0 <= i < |hunks| ==> HunkOk(hunks[i])
    ensures lines == [BEGIN] + RenderHunks(hunks) + [END] && AllPlain(lines)
  {
    hide HunkOk, RenderHunks;
    HunksArePlain(hunks);
    assert Text.PlainLine(BEGIN) && Text.PlainLine(END);
    hide Text.PlainLine;
    PlainConcat([BEGIN], RenderHunks(hunks));
    PlainConcat([BEGIN] + RenderHunks(hunks), [END]);
    lines := [BEGIN] + RenderHunks(hunks) + [END];
  }

  /** So does parsing one whose lines end in carriage return and line feed. */
  lemma ParseRenderReturns(hunks: seq<Hunk>)
    requires hunks != [] && forall i :: 0 <= i < |hunks| ==> HunkOk(hunks[i])
    ensures Parse(Text.JoinReturns([BEGIN] + RenderHunks(hunks) + [END])) == Success(hunks)
  {
    hide Parse, Text.Normalize, Text.JoinReturns, Text.Join, HunkOk, Text.PlainLine, RenderHunks;
    ParseRender(hunks);
    var lines := RenderedArePlain(hunks);
    Text.NormalizeReturns(lines);
    Text.NormalizeJoin(lines);
    SameParse(Text.JoinReturns(lines), Text.Join(lines));
  }
}
