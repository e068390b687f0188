// Paging the text of an artifact: where a page ends, and what following the pages gives.
module ArtifactPaging {
  import opened Wrappers

  newtype Byte = b: int | 0 <= b < 256

  const PAGE_BYTES: nat := 1024 * 1024
  const PAGE_RESERVE_BYTES: nat := 4096

  // A byte that does not continue a character (section 3 of RFC 3629) starts one.
  predicate IsBoundary(content: seq<Byte>, i: nat) {
    i == 0 || i == |content| || (i < |content| && !(0x80 <= content[i] < 0xC0))
  }

  // Bytes a content byte takes in a JSON string (section 7 of RFC 8259).
  function JsonCost(b: Byte): (n: nat)
    ensures n >= 1
  {
    if b == 0x22 || b == 0x5C || b == 0x08 || b == 0x09 || b == 0x0A || b == 0x0C || b == 0x0D then 2
    else if b < 0x20 then 6 else 1
  }

  function Cost(slice: seq<Byte>): (n: nat)
    ensures n >= |slice|
  {
    if slice == [] then 0 else Cost(slice[..|slice| - 1]) + JsonCost(slice[|slice| - 1])
  }

  /** The encoded snapshot of one page: what does not depend on its end, the flag that
      tells whether it is the last one, and the escaped slice. */
  function PageSize(content: seq<Byte>, fixed: nat, offset: nat, end: nat): nat
    requires offset <= end <= |content|
  {
    fixed + (if end == |content| then |"true"| else |"false"|) + Cost(content[offset..end])
  }

  predicate Fits(content: seq<Byte>, fixed: nat, offset: nat, end: nat)
    requires offset <= end <= |content|
  {
    PageSize(content, fixed, offset, end) + PAGE_RESERVE_BYTES <= PAGE_BYTES
  }

  // ---- what the cost counts ----

  // Hexadecimal digits, in lower case.
  function Hex(n: int): (b: Byte)
    requires 0 <= n < 16
  {
    (if n < 10 then 0x30 + n else 0x61 + n - 10) as Byte
  }

  // A content byte as it is written in a JSON string: quotation mark, reverse solidus and
  // control characters are escaped, by a letter where there is one.
  function Escape(b: Byte): seq<Byte> {
    if b == 0x22 then [0x5C, 0x22] else if b == 0x5C then [0x5C, 0x5C]
    else if b == 0x08 then [0x5C, 0x62] else if b == 0x0C then [0x5C, 0x66]
    else if b == 0x0A then [0x5C, 0x6E] else if b == 0x0D then [0x5C, 0x72] else if b == 0x09 then [0x5C, 0x74]
    else if b < 0x20 then [0x5C, 0x75, 0x30, 0x30, Hex(b as int / 16), Hex(b as int % 16)] else [b]
  }

  function Escaped(slice: seq<Byte>): seq<Byte> {
    if slice == [] then [] else Escape(slice[0]) + Escaped(slice[1..])
  }

  // Reading it back.
  function Digit(b: Byte): int {
    if 0x30 <= b <= 0x39 then b as int - 0x30 else if 0x61 <= b <= 0x66 then b as int - 0x61 + 10 else 0
  }

  function Unescaped(text: seq<Byte>): seq<Byte> {
    if text == [] then [] else
    if text[0] != 0x5C || |text| == 1 then [text[0]] + Unescaped(text[1..]) else
    if text[1] == 0x75 && |text| >= 6 then [((Digit(text[4]) * 16 + Digit(text[5])) % 256) as Byte] + Unescaped(text[6..]) else
    [if text[1] == 0x62 then 0x08 else if text[1] == 0x66 then 0x0C else if text[1] == 0x6E then 0x0A
     else if text[1] == 0x72 then 0x0D else if text[1] == 0x74 then 0x09 else text[1]] + Unescaped(text[2..])
  }

  lemma DigitOfHex(n: int)
    requires 0 <= n < 16
    ensures Digit(Hex(n)) == n
  {
  }

  lemma UnescapeCode(b: Byte, rest: seq<Byte>)
    requires b < 0x20 && Escape(b) == [0x5C, 0x75, 0x30, 0x30, Hex(b as int / 16), Hex(b as int % 16)]
    ensures Unescaped(Escape(b) + rest) == [b] + Unescaped(rest)
  {
    hide Escape, Hex, Digit;
    var text := Escape(b) + rest;
    assert text[6..] == rest;
    DigitOfHex(b as int / 16);
    DigitOfHex(b as int % 16);
  }

  lemma UnescapeLetter(b: Byte, letter: Byte, rest: seq<Byte>)
    requires Escape(b) == [0x5C, letter]
    ensures Unescaped(Escape(b) + rest) == [b] + Unescaped(rest)
  {
    hide Hex, Digit;
    var text := Escape(b) + rest;
    assert text == [0x5C, letter] + rest && text[2..] == rest;
  }

  lemma UnescapeOne(b: Byte, rest: seq<Byte>)
    ensures Unescaped(Escape(b) + rest) == [b] + Unescaped(rest)
  {
    if |Escape(b)| == 6 {
      UnescapeCode(b, rest);
    } else if |Escape(b)| == 2 {
      UnescapeLetter(b, Escape(b)[1], rest);
    } else {
      hide Hex, Digit;
      assert (Escape(b) + rest)[1..] == rest;
    }
  }

  /** The escaped text says the same. */
  lemma {:induction false} EscapedIsRead(slice: seq<Byte>)
    ensures Unescaped(Escaped(slice)) == slice
  {
    hide Escape, Unescaped;
    if slice != [] {
      EscapedIsRead(slice[1..]);
      UnescapeOne(slice[0], Escaped(slice[1..]));
      assert slice == [slice[0]] + slice[1..];
    } else {
      NothingRead();
    }
  }

  lemma NothingRead()
    ensures Unescaped([]) == []
  {
  }

  lemma EscapedCons(b: Byte, rest: seq<Byte>)
    ensures Escaped([b] + rest) == Escape(b) + Escaped(rest)
  {
    hide Escape;
    assert ([b] + rest)[1..] == rest;
  }

  lemma Regroup(a: seq<Byte>, b: seq<Byte>, c: seq<Byte>)
    ensures a + (b + c) == a + b + c
  {
  }

  lemma {:induction false} EscapedConcat(a: seq<Byte>, b: seq<Byte>)
    ensures Escaped(a + b) == Escaped(a) + Escaped(b)
  {
    hide Escape;
    if a == [] {
      assert a + b == b;
    } else {
      hide Escaped;
      var rest := a[1..];
      assert a == [a[0]] + rest;
      EscapedConcat(rest, b);
      EscapedCons(a[0], rest);
      EscapedCons(a[0], rest + b);
      Regroup([a[0]], rest, b);
      Regroup(Escape(a[0]), Escaped(rest), Escaped(b));
    }
  }

  /** The cost of a slice is the length of its escaped text. */
  lemma {:induction false} CostIsLength(slice: seq<Byte>)
    ensures Cost(slice) == |Escaped(slice)|
  {
    if slice != [] {
      var n := |slice| - 1;
      CostIsLength(slice[..n]);
      EscapedConcat(slice[..n], slice[n..]);
      assert slice == slice[..n] + slice[n..];
      assert slice[n..][1..] == [];
      assert Escaped(slice[n..]) == Escape(slice[n]) + [];
    }
  }

  /** So what a page that fits really sends, its fixed part, its flag and its escaped slice,
      leaves the reserve of a page free. */
  lemma FitsIsSent(content: seq<Byte>, fixed: nat, offset: nat, end: nat)
    requires offset <= end <= |content|
    ensures Fits(content, fixed, offset, end) <==>
              fixed + (if end == |content| then 4 else 5) + |Escaped(content[offset..end])| <= 1_044_480
  {
    hide Escaped, Cost;
    CostIsLength(content[offset..end]);
  }

  // ---- whole characters ----

  // The bytes of a character that begins with this one (section 3 of RFC 3629).
  function CharLength(lead: Byte): (n: nat)
    ensures 1 <= n <= 4
  {
    if lead < 0xE0 then (if lead < 0xC0 then 1 else 2) else if lead < 0xF0 then 3 else 4
  }

  // Text: every character begins with a byte below 0x80 or from 0xC0 on, and continues with
  // bytes from 0x80 to 0xBF.
  ghost predicate IsText(s: seq<Byte>) {
    s != [] ==>
      && !(0x80 <= s[0] < 0xC0) && CharLength(s[0]) <= |s|
      && (forall i :: 1 <= i < CharLength(s[0]) ==> 0x80 <= s[i] < 0xC0)
      && IsText(s[CharLength(s[0])..])
  }

  // A boundary is not inside the first character.
  lemma BoundaryBehind(s: seq<Byte>, i: nat)
    requires IsText(s) && 0 < i <= |s| && IsBoundary(s, i)
    ensures var n := CharLength(s[0]); n <= i && IsBoundary(s[n..], i - n)
  {
    hide CharLength;
  }

  lemma TextBegins(s: seq<Byte>, i: nat)
    requires IsText(s) && s != [] && CharLength(s[0]) <= i <= |s| && IsText(s[CharLength(s[0])..i])
    ensures IsText(s[..i])
  {
    hide CharLength;
    assert s[..i][CharLength(s[0])..] == s[CharLength(s[0])..i];
  }

  lemma TextGoesOn(s: seq<Byte>)
    requires IsText(s) && s != []
    ensures CharLength(s[0]) <= |s| && IsText(s[CharLength(s[0])..])
  {
    hide CharLength;
  }

  lemma SliceOfRest(s: seq<Byte>, n: nat, i: nat)
    requires n <= i <= |s|
    ensures s[n..][..i - n] == s[n..i] && s[n..][i - n..] == s[i..]
  {
  }

  /** Cut at a boundary, a text is two texts: no character is torn. */
  lemma {:induction false} CutsBetween(s: seq<Byte>, i: nat)
    requires IsText(s) && i <= |s| && IsBoundary(s, i)
    ensures IsText(s[..i]) && IsText(s[i..])
    decreases |s|
  {
    if i == 0 {
      assert s[i..] == s && s[..i] == [];
    } else {
      var n := CharLength(s[0]);
      TextGoesOn(s);
      hide IsText;
      BoundaryBehind(s, i);
      hide IsBoundary, CharLength;
      SliceOfRest(s, n, i);
      CutsBetween(s[n..], i - n);
      TextBegins(s, i);
    }
  }

  lemma {:induction false} CostConcat(a: seq<Byte>, b: seq<Byte>)
    ensures Cost(a + b) == Cost(a) + Cost(b)
  {
    if b == [] {
      assert a + b == a;
    } else {
      CostConcat(a, b[..|b| - 1]);
      assert (a + b)[..|a + b| - 1] == a + b[..|b| - 1];
    }
  }

  // A longer page never encodes smaller, although its flag may be one byte shorter.
  lemma SizeGrows(content: seq<Byte>, fixed: nat, offset: nat, end: nat, end': nat)
    requires offset <= end <= end' <= |content|
    ensures PageSize(content, fixed, offset, end) <= PageSize(content, fixed, offset, end')
  {
    assert content[offset..end'] == content[offset..end] + content[end..end'];
    CostConcat(content[offset..end], content[end..end']);
  }

  method NextCharBoundary(content: seq<Byte>, offset: nat) returns (next: nat)
    requires offset < |content|
    ensures offset < next <= |content| && IsBoundary(content, next)
    ensures forall i :: offset < i < next ==> !IsBoundary(content, i)
  {
    next := offset + 1;
    while next < |content| && !IsBoundary(content, next)
      invariant offset < next <= |content|
      invariant forall i :: offset < i < next ==> !IsBoundary(content, i)
    {
      next := next + 1;
    }
  }

  // The nearest boundary at or below i, but not below floor.
  method FloorBoundary(content: seq<Byte>, floor: nat, i: nat) returns (j: nat)
    requires floor <= i <= |content|
    ensures floor <= j <= i && (j == floor || IsBoundary(content, j))
    ensures forall k :: j < k <= i ==> !IsBoundary(content, k)
  {
    j := i;
    while j > floor && !IsBoundary(content, j)
      invariant floor <= j <= i
      invariant forall k :: j < k <= i ==> !IsBoundary(content, k)
    {
      j := j - 1;
    }
  }

  // The end of a page is the last boundary up to which it fits.
  ghost predicate IsPageEnd(content: seq<Byte>, fixed: nat, offset: nat, end: nat)
  {
    && offset <= end <= |content| && IsBoundary(content, end)
    && (offset < |content| ==> offset < end && Fits(content, fixed, offset, end))
    && forall i :: end < i <= |content| && IsBoundary(content, i) ==> !Fits(content, fixed, offset, i)
  }

  /** The search over byte positions ends at the last boundary that fits, and fails
      exactly when not even one character does. */
  method FitArtifactEnd(content: seq<Byte>, fixed: nat, offset: nat) returns (r: Result<nat>)
    requires offset <= |content| && IsBoundary(content, offset)
    ensures r.Success? ==> IsPageEnd(content, fixed, offset, r.value)
    ensures r.Failure? <==>
              && offset < |content|
              && forall i :: offset < i <= |content| && IsBoundary(content, i) ==> !Fits(content, fixed, offset, i)
  {
    var low, high := offset, |content|;
    while low < high
      invariant offset <= low <= high <= |content|
      invariant IsBoundary(content, low) && IsBoundary(content, high)
      invariant low == offset || Fits(content, fixed, offset, low)
      invariant forall i :: high < i <= |content| && IsBoundary(content, i) ==> !Fits(content, fixed, offset, i)
      decreases high - low
    {
      var middle := FloorBoundary(content, offset, low + (high - low + 1) / 2);
      if middle == low && middle < high {
        middle := NextCharBoundary(content, middle);
      }
      assert low < middle <= high && IsBoundary(content, middle);
      if Fits(content, fixed, offset, middle) {
        low := middle;
      } else {
        forall i | middle <= i <= |content| && IsBoundary(content, i) ensures !Fits(content, fixed, offset, i) {
          SizeGrows(content, fixed, offset, middle, i);
        }
        high := FloorBoundary(content, offset, middle - 1);
      }
    }
    if low == offset && offset < |content| {
      return Failure("metadata leaves no room for content in a page");
    }
    return Success(low);
  }

  // ---- following the continuations ----

  ghost predicate Ascending(content: seq<Byte>, offset: nat, ends: seq<nat>)
    decreases |ends|
  {
    offset <= |content| && (ends != [] ==> offset < ends[0] <= |content| && Ascending(content, ends[0], ends[1..]))
  }

  function Slices(content: seq<Byte>, offset: nat, ends: seq<nat>): seq<Byte>
    requires Ascending(content, offset, ends)
    decreases |ends|
  {
    if ends == [] then [] else content[offset..ends[0]] + Slices(content, ends[0], ends[1..])
  }

  // The pages of one artifact, read from an offset to the end.
  ghost predicate Pages(content: seq<Byte>, fixed: nat -> nat, offset: nat, ends: seq<nat>)
    decreases |ends|
  {
    if ends == [] then offset == |content| else
      && offset < |content| && IsPageEnd(content, fixed(offset), offset, ends[0])
      && Pages(content, fixed, ends[0], ends[1..])
  }

  lemma {:induction false} PagesAscend(content: seq<Byte>, fixed: nat -> nat, offset: nat, ends: seq<nat>)
    requires Pages(content, fixed, offset, ends)
    ensures Ascending(content, offset, ends)
    decreases |ends|
  {
    if ends != [] {
      PagesAscend(content, fixed, ends[0], ends[1..]);
    }
  }

  // The pages from an offset on, each from the end of the one before.
  ghost predicate AllText(content: seq<Byte>, offset: nat, ends: seq<nat>)
    decreases |ends|
  {
    ends != [] ==> offset <= ends[0] <= |content| && IsText(content[offset..ends[0]]) && AllText(content, ends[0], ends[1..])
  }

  /** Pages of a text are texts. */
  lemma {:induction false} PagesAreText(content: seq<Byte>, fixed: nat -> nat, offset: nat, ends: seq<nat>)
    requires Pages(content, fixed, offset, ends) && offset <= |content| && IsText(content[offset..])
    ensures AllText(content, offset, ends)
    decreases |ends|
  {
    hide Fits;
    if ends != [] {
      var rest, n := content[offset..], ends[0] - offset;
      assert IsBoundary(rest, n);
      CutsBetween(rest, n);
      assert rest[..n] == content[offset..ends[0]] && rest[n..] == content[ends[0]..];
      PagesAreText(content, fixed, ends[0], ends[1..]);
    }
  }

  /** Pages are never empty, there are at most as many as bytes, each fits, and together
      they are exactly the content. */
  lemma {:induction false} PagesAreContent(content: seq<Byte>, fixed: nat -> nat, offset: nat, ends: seq<nat>)
    requires Pages(content, fixed, offset, ends)
    ensures Ascending(content, offset, ends) && |ends| <= |content| - offset
    ensures Slices(content, offset, ends) == content[offset..]
    ensures forall i :: 0 <= i < |ends| ==>
              var from := if i == 0 then offset else ends[i - 1];
              from < ends[i] <= |content| && Fits(content, fixed(from), from, ends[i])
    decreases |ends|
  {
    PagesAscend(content, fixed, offset, ends);
    if ends != [] {
      PagesAreContent(content, fixed, ends[0], ends[1..]);
      assert content[offset..] == content[offset..ends[0]] + content[ends[0]..];
      forall i | 0 < i < |ends|
        ensures ends[i - 1] < ends[i] <= |content| && Fits(content, fixed(ends[i - 1]), ends[i - 1], ends[i])
      {
        assert ends[1..][i - 1] == ends[i] && (i > 1 ==> ends[1..][i - 2] == ends[i - 1]);
      }
    }
  }
}
