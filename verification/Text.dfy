// Characters as the program's string functions see them.
module Text {

  // White space as Unicode's White_Space property defines it; trimming removes it.
  predicate IsWhitespace(c: char) {
    var n := c as int;
    || 0x09 <= n <= 0x0D || n == 0x20 || n == 0x85 || n == 0xA0 || n == 0x1680
    || 0x2000 <= n <= 0x200A || n == 0x2028 || n == 0x2029 || n == 0x202F || n == 0x205F || n == 0x3000
  }

  function TrimStart(s: string): (t: string)
    ensures |t| <= |s|
  {
    if s != "" && IsWhitespace(s[0]) then TrimStart(s[1..]) else s
  }

  function TrimEnd(s: string): (t: string)
    ensures |t| <= |s| && t == s[..|t|]
    ensures t != "" ==> !IsWhitespace(t[|t| - 1])
  {
    if s != "" && IsWhitespace(s[|s| - 1]) then TrimEnd(s[..|s| - 1]) else s
  }

  function Trim(s: string): (t: string) {
    TrimEnd(TrimStart(s))
  }

  ghost predicate AllWhitespace(s: string) {
    forall i :: 0 <= i < |s| ==> IsWhitespace(s[i])
  }

  lemma {:induction false} TrimStartIs(s: string)
    ensures var t := TrimStart(s); var n := |s| - |t|;
            t == s[n..] && AllWhitespace(s[..n]) && (t != "" ==> !IsWhitespace(t[0]))
  {
    if s != "" && IsWhitespace(s[0]) {
      TrimStartIs(s[1..]);
      var n := |s[1..]| - |TrimStart(s)|;
      assert s[..n + 1] == [s[0]] + s[1..][..n];
    }
  }

  lemma {:induction false} TrimEndIs(s: string)
    ensures var t := TrimEnd(s); AllWhitespace(s[|t|..]) && (t != "" ==> !IsWhitespace(t[|t| - 1]))
  {
    if s != "" && IsWhitespace(s[|s| - 1]) {
      TrimEndIs(s[..|s| - 1]);
      var t := TrimEnd(s);
      assert s[|t|..] == s[..|s| - 1][|t|..] + [s[|s| - 1]];
    }
  }

  /** Trimming takes away white space, at both ends, until there is none. */
  lemma TrimIs(s: string) returns (before: string, after: string)
    ensures s == before + Trim(s) + after && AllWhitespace(before) && AllWhitespace(after)
    ensures Trim(s) != "" ==> !IsWhitespace(Trim(s)[0]) && !IsWhitespace(Trim(s)[|Trim(s)| - 1])
  {
    TrimStartIs(s);
    var t := TrimStart(s);
    TrimEndIs(t);
    before, after := s[..|s| - |t|], t[|Trim(s)|..];
    assert t == Trim(s) + after && s == before + t;
  }

  lemma {:induction false} TrimEndIgnores(core: string, space: string)
    requires AllWhitespace(space)
    ensures TrimEnd(core + space) == TrimEnd(core)
  {
    if space == "" {
      assert core + space == core;
    } else {
      var n := |space| - 1;
      assert (core + space)[..|core + space| - 1] == core + space[..n];
      TrimEndIgnores(core, space[..n]);
    }
  }

  lemma {:induction false} TrimStartIgnores(space: string, core: string)
    requires AllWhitespace(space)
    ensures TrimStart(space + core) == TrimStart(core)
  {
    if space == "" {
      assert space + core == core;
    } else {
      assert (space + core)[1..] == space[1..] + core;
      TrimStartIgnores(space[1..], core);
    }
  }

  lemma {:induction false} TrimIgnores(before: string, core: string, after: string)
    requires AllWhitespace(before) && AllWhitespace(after)
    ensures Trim(before + core + after) == Trim(core)
  {
    assert before + core + after == before + (core + after);
    TrimStartIgnores(before, core + after);
    TrimStartIs(core);
    var t := TrimStart(core);
    var lead := core[..|core| - |t|];
    if t == "" {
      assert core + after == core + after + "";
      TrimStartIgnores(core, after);
      TrimStartIgnores(core + after, "");
      TrimStartIgnores(after, "");
      assert after + "" == after;
    } else {
      assert core + after == lead + (t + after);
      TrimStartIgnores(lead, t + after);
      assert (t + after)[0] == t[0];
      TrimEndIgnores(t, after);
    }
  }

  // Bytes of a character in UTF-8 (section 3 of RFC 3629).
  function CharBytes(c: char): (n: nat)
    ensures 1 <= n <= 4
  {
    var n := c as int;
    if n < 0x80 then 1 else if n < 0x800 then 2 else if n < 0x10000 then 3 else 4
  }

  function ByteLength(s: string): nat {
    if s == "" then 0 else CharBytes(s[0]) + ByteLength(s[1..])
  }

  // Where a text has characters from a code point on.
  function From(s: string, code: nat): set<nat> {
    set i | 0 <= i < |s| && s[i] as int >= code
  }

  /** A character takes a byte, and one more from each of three code points on. */
  lemma {:induction false} ByteLengthIs(s: string)
    ensures ByteLength(s) == |s| + |From(s, 0x80)| + |From(s, 0x800)| + |From(s, 0x10000)|
  {
    if s != "" {
      ByteLengthIs(s[1..]);
      FromStep(s, 0x80);
      FromStep(s, 0x800);
      FromStep(s, 0x10000);
    }
  }

  lemma FromStep(s: string, code: nat)
    requires s != ""
    ensures |From(s, code)| == |From(s[1..], code)| + (if s[0] as int >= code then 1 else 0)
  {
    var shifted := set i | i in From(s[1..], code) :: i + 1;
    Shifts(From(s[1..], code), shifted);
    forall i | 0 < i < |s| ensures i in From(s, code) <==> i in shifted {
      assert s[i] == s[1..][i - 1] && (i in shifted <==> i - 1 in From(s[1..], code));
    }
    var all := shifted + (if s[0] as int >= code then {0} else {});
    forall i ensures i in From(s, code) <==> i in all {
      if i == 0 || i >= |s| {
        assert i !in shifted;
      }
    }
    assert From(s, code) == all;
  }

  lemma {:induction false} Shifts(a: set<nat>, b: set<nat>)
    requires b == set i | i in a :: i + 1
    ensures |b| == |a|
  {
    if a != {} {
      var i :| i in a;
      var fewer := set j | j in a - {i} :: j + 1;
      Shifts(a - {i}, fewer);
      assert i + 1 in b && i + 1 !in fewer;
      forall k | k in b ensures k in fewer + {i + 1} {
        var j :| j in a && k == j + 1;
        assert j == i || (j in a - {i} && j + 1 in fewer);
      }
      assert b == fewer + {i + 1};
    }
  }

  // ---- lines ----

  // Every carriage return before a line feed is dropped.
  function Normalize(s: string): string {
    if s == "" then "" else
    if |s| >= 2 && s[0] == '\r' && s[1] == '\n' then "\n" + Normalize(s[2..]) else
    [s[0]] + Normalize(s[1..])
  }

  function Split(s: string): (lines: seq<string>)
    ensures lines != []
  {
    if s == "" then [""] else
    var rest := Split(s[1..]);
    if s[0] == '\n' then [""] + rest else [[s[0]] + rest[0]] + rest[1..]
  }

  function Join(lines: seq<string>): string {
    if lines == [] then "" else if |lines| == 1 then lines[0] else lines[0] + "\n" + Join(lines[1..])
  }

  ghost predicate NoNewline(line: string) {
    '\n' !in line
  }

  // A line that survives normalization wherever it stands.
  ghost predicate PlainLine(line: string) {
    NoNewline(line) && (line != "" ==> line[|line| - 1] != '\r')
  }

  lemma {:induction false} JoinOfSplit(s: string)
    ensures Join(Split(s)) == s
  {
    if s != "" {
      JoinOfSplit(s[1..]);
      var rest := Split(s[1..]);
      if s[0] == '\n' {
        assert ([""] + rest)[1..] == rest;
        assert s == "" + "\n" + s[1..];
      } else if |rest| > 1 {
        var lines := [[s[0]] + rest[0]] + rest[1..];
        assert lines[1..] == rest[1..];
        assert s == [s[0]] + s[1..];
      } else {
        assert [[s[0]] + rest[0]] + rest[1..] == [[s[0]] + rest[0]];
      }
    }
  }

  lemma {:induction false} SplitLine(line: string)
    requires NoNewline(line)
    ensures Split(line) == [line]
  {
    if line != "" {
      SplitLine(line[1..]);
      assert [line[0]] + line[1..] == line;
    }
  }

  lemma {:induction false} SplitAfter(line: string, rest: string)
    requires NoNewline(line)
    ensures Split(line + "\n" + rest) == [line] + Split(rest)
  {
    var s := line + "\n" + rest;
    if line == "" {
      assert s[1..] == rest;
    } else {
      SplitAfter(line[1..], rest);
      assert s[1..] == line[1..] + "\n" + rest;
      assert [line[0]] + line[1..] == line;
      assert ([line[1..]] + Split(rest))[1..] == Split(rest);
    }
  }

  lemma {:induction false} SplitOfJoin(lines: seq<string>)
    requires lines != [] && forall i :: 0 <= i < |lines| ==> NoNewline(lines[i])
    ensures Split(Join(lines)) == lines
  {
    if |lines| == 1 {
      SplitLine(lines[0]);
    } else {
      SplitOfJoin(lines[1..]);
      SplitAfter(lines[0], Join(lines[1..]));
      assert [lines[0]] + lines[1..] == lines;
    }
  }

  lemma {:induction false} NormalizeLine(line: string, rest: string)
    requires PlainLine(line) && (rest == "" || rest[0] == '\n')
    ensures Normalize(line + rest) == line + Normalize(rest)
  {
    var s := line + rest;
    if line == "" {
      assert s == rest;
    } else {
      assert PlainLine(line[1..]);
      NormalizeLine(line[1..], rest);
      assert s[1..] == line[1..] + rest;
      assert line + Normalize(rest) == [line[0]] + (line[1..] + Normalize(rest));
    }
  }

  lemma {:induction false} NormalizeJoin(lines: seq<string>)
    requires forall i :: 0 <= i < |lines| ==> PlainLine(lines[i])
    ensures Normalize(Join(lines)) == Join(lines)
  {
    if |lines| == 1 {
      NormalizeLine(lines[0], "");
      assert lines[0] + "" == lines[0];
    } else if |lines| > 1 {
      NormalizeJoin(lines[1..]);
      var rest := "\n" + Join(lines[1..]);
      NormalizeLine(lines[0], rest);
      assert rest[1..] == Join(lines[1..]);
      assert lines[0] + rest == Join(lines);
    }
  }

  // ---- carriage returns ----

  function WithoutReturn(line: string): string {
    if line != "" && line[|line| - 1] == '\r' then line[..|line| - 1] else line
  }

  // The lines of a text, without the carriage return before their line feed. The last one
  // has no line feed.
  function CleanLines(s: string): (lines: seq<string>)
    ensures |lines| == |Split(s)|
  {
    var parts := Split(s);
    seq(|parts|, i requires 0 <= i < |parts| => if i < |parts| - 1 then WithoutReturn(parts[i]) else parts[i])
  }

  lemma ReturnBehind(c: char, line: string)
    requires line != "" || c != '\r'
    ensures WithoutReturn([c] + line) == [c] + WithoutReturn(line)
  {
    if line != "" {
      assert ([c] + line)[..|line|] == [c] + line[..|line| - 1];
    }
  }

  lemma CleanMore(c: char, rest: string)
    requires c != '\n' && (c == '\r' ==> rest == "" || rest[0] != '\n')
    ensures CleanLines([c] + rest) == [[c] + CleanLines(rest)[0]] + CleanLines(rest)[1..]
  {
    hide WithoutReturn;
    var parts := Split(rest);
    assert ([c] + rest)[1..] == rest;
    assert Split([c] + rest) == [[c] + parts[0]] + parts[1..];
    assert parts[0] == "" && |parts| > 1 ==> rest[0] == '\n';
    hide Split;
    if |parts| > 1 {
      ReturnBehind(c, parts[0]);
    }
  }

  lemma CleanBreak(rest: string)
    ensures CleanLines("\n" + rest) == [""] + CleanLines(rest)
    ensures CleanLines("\r\n" + rest) == [""] + CleanLines(rest)
  {
    assert ("\n" + rest)[1..] == rest && ("\r\n" + rest)[1..] == "\n" + rest;
    assert Split("\n" + rest) == [""] + Split(rest);
    assert Split("\r\n" + rest) == ["\r" + ""] + Split(rest);
    assert "\r" + "" == "\r";
  }

  lemma CleanNothing()
    ensures CleanLines("") == [""]
  {
  }

  lemma {:induction false} NormalizeCleans(s: string)
    ensures Split(Normalize(s)) == CleanLines(s)
    decreases |s|
  {
    hide CleanLines, WithoutReturn;
    if s == "" {
      CleanNothing();
    } else if |s| >= 2 && s[0] == '\r' && s[1] == '\n' {
      NormalizeCleans(s[2..]);
      CleanBreak(s[2..]);
      assert s == "\r\n" + s[2..];
      assert ("\n" + Normalize(s[2..]))[1..] == Normalize(s[2..]);
    } else {
      NormalizeCleans(s[1..]);
      assert s == [s[0]] + s[1..];
      assert ([s[0]] + Normalize(s[1..]))[1..] == Normalize(s[1..]);
      if s[0] == '\n' {
        CleanBreak(s[1..]);
      } else {
        CleanMore(s[0], s[1..]);
      }
    }
  }

  /** Normalizing keeps all lines, and takes exactly one carriage return from the end of
      each, if there is one; the last line, which no line feed ends, is left alone. */
  lemma NormalizeLines(s: string)
    ensures var before, after := Split(s), Split(Normalize(s)); var n := |before| - 1;
            && |after| == |before| && after[n] == before[n]
            && forall i :: 0 <= i < n ==>
                 if before[i] != "" && before[i][|before[i]| - 1] == '\r' then before[i] == after[i] + "\r" else after[i] == before[i]
  {
    NormalizeCleans(s);
    hide Split, Normalize;
    forall i | 0 <= i < |Split(s)| && Split(s)[i] != "" && Split(s)[i][|Split(s)[i]| - 1] == '\r'
      ensures Split(s)[i] == WithoutReturn(Split(s)[i]) + "\r"
    {
    }
  }

  // ---- texts with other line ends ----

  function JoinReturns(lines: seq<string>): string {
    if lines == [] then "" else if |lines| == 1 then lines[0] else lines[0] + "\r\n" + JoinReturns(lines[1..])
  }

  lemma {:induction false} NormalizeReturn(line: string, rest: string)
    requires PlainLine(line)
    ensures Normalize(line + "\r\n" + rest) == line + "\n" + Normalize(rest)
  {
    var s := line + "\r\n" + rest;
    if line == "" {
      assert s[2..] == rest;
    } else {
      assert PlainLine(line[1..]);
      NormalizeReturn(line[1..], rest);
      assert s[1..] == line[1..] + "\r\n" + rest;
      assert line + "\n" + Normalize(rest) == [line[0]] + (line[1..] + "\n" + Normalize(rest));
    }
  }

  /** Lines joined by carriage return and line feed are read as if joined by line feeds. */
  lemma {:induction false} NormalizeReturns(lines: seq<string>)
    requires forall i :: 0 <= i < |lines| ==> PlainLine(lines[i])
    ensures Normalize(JoinReturns(lines)) == Join(lines)
  {
    hide PlainLine, Normalize;
    if |lines| == 1 {
      NormalizeJoin(lines);
    } else if |lines| > 1 {
      NormalizeReturns(lines[1..]);
      NormalizeReturn(lines[0], JoinReturns(lines[1..]));
    } else {
      NormalizeJoin(lines);
    }
  }

  // Text without white space at its ends is left alone.
  lemma TrimTight(s: string)
    requires s != "" && !IsWhitespace(s[0]) && !IsWhitespace(s[|s| - 1])
    ensures Trim(s) == s
  {
  }

  // What trimming leaves alone does not end in white space.
  lemma TrimEndsTight(s: string)
    requires s != "" && Trim(s) == s
    ensures !IsWhitespace(s[|s| - 1])
  {
  }
}
