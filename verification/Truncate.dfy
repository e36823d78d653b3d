/** Byte-bounded shortening that never splits a character (automations/actions.go),
    over UTF-8 as sections 3 and 4 of RFC 3629 define it. */
module Truncate {

  type Byte = b: int | 0 <= b < 256

  // ── UTF-8 ──────────────────────────────────────────────────────────────────

  // The surrogates are no characters.
  type Char = c: int | 0 <= c < 0xD800 || 0xE000 <= c <= 0x10FFFF

  function Tail(c: int): Byte {
    0x80 + c % 64
  }

  function Lead(bits: int, mark: int): Byte
    requires 0 <= bits && 0 <= mark && bits + mark < 256
  {
    mark + bits
  }

  // Section 3: the octets of one character.
  function Encode(c: Char): (s: seq<Byte>)
    ensures 1 <= |s| <= 4
  {
    if c < 0x80 then [Lead(c, 0)]
    else if c < 0x800 then [Lead(c / 64, 0xC0), Tail(c)]
    else if c < 0x10000 then [Lead(c / 64 / 64, 0xE0), Tail(c / 64), Tail(c)]
    else [Lead(c / 64 / 64 / 64, 0xF0), Tail(c / 64 / 64), Tail(c / 64), Tail(c)]
  }

  function EncodeAll(cs: seq<Char>): seq<Byte> {
    if cs == [] then [] else Encode(cs[0]) + EncodeAll(cs[1..])
  }

  predicate IsTail(b: Byte) {
    0x80 <= b <= 0xBF
  }

  predicate Tails(s: seq<Byte>, n: nat) {
    |s| >= n + 1 && forall i :: 1 <= i <= n ==> IsTail(s[i])
  }

  // Section 4: the length of the well-formed character a string starts with, or 0.
  function CharLength(s: seq<Byte>): (n: nat)
    ensures n <= |s|
  {
    if s == [] then 0
    else if s[0] <= 0x7F then 1
    else if 0xC2 <= s[0] <= 0xDF then if Tails(s, 1) then 2 else 0
    else if 0xE0 <= s[0] <= 0xEF then
      if Tails(s, 2) && (s[0] == 0xE0 ==> s[1] >= 0xA0) && (s[0] == 0xED ==> s[1] <= 0x9F) then 3 else 0
    else if 0xF0 <= s[0] <= 0xF4 then
      if Tails(s, 3) && (s[0] == 0xF0 ==> s[1] >= 0x90) && (s[0] == 0xF4 ==> s[1] <= 0x8F) then 4 else 0
    else 0
  }

  predicate Valid(s: seq<Byte>)
    decreases |s|
  {
    s == [] || (CharLength(s) > 0 && Valid(s[CharLength(s)..]))
  }

  function Join(high: int, b: Byte): int {
    high * 64 + (b - 0x80)
  }

  lemma JoinSplits(high: int, b: Byte)
    requires IsTail(b)
    ensures Join(high, b) / 64 == high && Tail(Join(high, b)) == b
  {
  }

  lemma DecodeThree(a: Byte, b: Byte, d: Byte) returns (c: Char)
    requires CharLength([a, b, d]) == 3
    ensures Encode(c) == [a, b, d]
  {
    var s: seq<Byte> := [a, b, d];
    assert IsTail(s[1]) && IsTail(s[2]);
    var high := Join(a - 0xE0, b);
    JoinSplits(a - 0xE0, b);
    JoinSplits(high, d);
    c := Join(high, d);
    hide Join, Tail;
  }

  lemma JoinRange(high: int, b: Byte, low: int, top: int)
    requires IsTail(b) && low <= high < top
    ensures low * 64 <= Join(high, b) < top * 64
  {
  }

  lemma FourBytes(a: Byte, b: Byte, d: Byte, e: Byte)
    requires CharLength([a, b, d, e]) == 4
    ensures IsTail(b) && IsTail(d) && IsTail(e) && 16 <= Join(a - 0xF0, b) < 272
  {
    var s: seq<Byte> := [a, b, d, e];
    assert IsTail(s[1]) && IsTail(s[2]) && IsTail(s[3]);
  }

  lemma DecodeFour(a: Byte, b: Byte, d: Byte, e: Byte) returns (c: Char)
    requires CharLength([a, b, d, e]) == 4
    ensures Encode(c) == [a, b, d, e]
  {
    hide CharLength, Join, Tail;
    FourBytes(a, b, d, e);
    var higher := Join(a - 0xF0, b);
    var high := Join(higher, d);
    JoinRange(higher, d, 16, 272);
    JoinRange(high, e, 1024, 17408);
    JoinSplits(a - 0xF0, b);
    JoinSplits(higher, d);
    JoinSplits(high, e);
    c := Join(high, e);
  }

  lemma DecodeHead(s: seq<Byte>) returns (c: Char)
    requires CharLength(s) > 0
    ensures Encode(c) == s[..CharLength(s)]
  {
    hide Encode;
    var n := CharLength(s);
    if n <= 2 {
      c := DecodeShort(s);
    } else if n == 3 {
      c := DecodeThree(s[0], s[1], s[2]);
    } else {
      c := DecodeFour(s[0], s[1], s[2], s[3]);
    }
  }

  lemma DecodeShort(s: seq<Byte>) returns (c: Char)
    requires 1 <= CharLength(s) <= 2
    ensures Encode(c) == s[..CharLength(s)]
  {
    if CharLength(s) == 1 {
      c := s[0];
    } else {
      c := Join(s[0] - 0xC0, s[1]);
      JoinSplits(s[0] - 0xC0, s[1]);
    }
  }

  lemma EncodedLength(c: Char, rest: seq<Byte>)
    ensures CharLength(Encode(c) + rest) == |Encode(c)|
  {
    var s := Encode(c) + rest;
    assert forall i :: 0 <= i < |Encode(c)| ==> s[i] == Encode(c)[i];
  }

  lemma {:induction false} EncodedIsValid(cs: seq<Char>)
    ensures Valid(EncodeAll(cs))
  {
    if cs != [] {
      EncodedLength(cs[0], EncodeAll(cs[1..]));
      EncodedIsValid(cs[1..]);
      assert EncodeAll(cs)[|Encode(cs[0])|..] == EncodeAll(cs[1..]);
    }
  }

  lemma {:induction false} ValidDecodes(s: seq<Byte>) returns (cs: seq<Char>)
    requires Valid(s)
    ensures EncodeAll(cs) == s
    decreases |s|
  {
    if s == [] {
      cs := [];
    } else {
      var rest := ValidDecodes(s[CharLength(s)..]);
      var c := DecodeHead(s);
      cs := [c] + rest;
      assert cs[1..] == rest;
    }
  }

  /** The two definitions agree: well-formed strings are the encodings. */
  lemma ValidIffEncoded(s: seq<Byte>)
    ensures Valid(s) <==> exists cs: seq<Char> :: EncodeAll(cs) == s
  {
    if Valid(s) {
      var cs := ValidDecodes(s);
    }
    forall cs: seq<Char> | EncodeAll(cs) == s
      ensures Valid(s)
    {
      EncodedIsValid(cs);
    }
  }

  // ── Character boundaries ───────────────────────────────────────────────────

  predicate RuneStart(b: Byte) {
    !IsTail(b)
  }

  // Where character k starts.
  function Offset(cs: seq<Char>, k: nat): nat
    requires k <= |cs|
  {
    if k == 0 then 0 else |Encode(cs[0])| + Offset(cs[1..], k - 1)
  }

  lemma {:induction false} OffsetCuts(cs: seq<Char>, k: nat)
    requires k <= |cs|
    ensures Offset(cs, k) <= |EncodeAll(cs)| && EncodeAll(cs)[..Offset(cs, k)] == EncodeAll(cs[..k])
  {
    if k > 0 {
      OffsetCuts(cs[1..], k - 1);
      assert cs[..k][1..] == cs[1..][..k - 1];
      assert cs[..k][0] == cs[0];
    }
  }

  lemma {:induction false} OffsetsRise(cs: seq<Char>, k: nat)
    requires k < |cs|
    ensures Offset(cs, k + 1) == Offset(cs, k) + |Encode(cs[k])| > Offset(cs, k)
  {
    if k > 0 {
      OffsetsRise(cs[1..], k - 1);
    }
  }

  lemma {:induction false} WholeOffset(cs: seq<Char>)
    ensures Offset(cs, |cs|) == |EncodeAll(cs)|
  {
    if cs != [] {
      WholeOffset(cs[1..]);
    }
  }

  // Within one character only the first octet starts a rune.
  lemma StartsOnce(c: Char, i: nat)
    requires i < |Encode(c)|
    ensures RuneStart(Encode(c)[i]) <==> i == 0
  {
  }

  ghost predicate IsBoundary(cs: seq<Char>, i: nat) {
    exists k: nat :: k < |cs| && Offset(cs, k) == i
  }

  lemma BoundaryShifts(cs: seq<Char>, i: nat)
    requires cs != [] && i >= |Encode(cs[0])|
    ensures IsBoundary(cs, i) <==> IsBoundary(cs[1..], i - |Encode(cs[0])|)
  {
    var rest, j := cs[1..], i - |Encode(cs[0])|;
    if IsBoundary(cs, i) {
      var k: nat :| k < |cs| && Offset(cs, k) == i;
      assert k > 0;
      var k': nat := k - 1;
      assert Offset(rest, k') == j;
    }
    if IsBoundary(rest, j) {
      var k: nat :| k < |rest| && Offset(rest, k) == j;
      assert Offset(cs, k + 1) == i;
    }
  }

  /** In an encoded text a byte looks like the start of a rune exactly when a
      character starts there. */
  lemma {:induction false} StartIffBoundary(cs: seq<Char>, i: nat)
    requires i < |EncodeAll(cs)|
    ensures RuneStart(EncodeAll(cs)[i]) <==> IsBoundary(cs, i)
  {
    var m := |Encode(cs[0])|;
    if i < m {
      StartsOnce(cs[0], i);
      forall k: nat | 0 < k < |cs|
        ensures Offset(cs, k) >= m
      {
      }
      assert Offset(cs, 0) == 0;
    } else {
      StartIffBoundary(cs[1..], i - m);
      BoundaryShifts(cs, i);
      assert EncodeAll(cs)[i] == EncodeAll(cs[1..])[i - m];
    }
  }

  // ── Shortening ─────────────────────────────────────────────────────────────

  const ELLIPSIS: Char := 0x2026

  // `cut` is the last rune start at or before `n`, or 0.
  ghost predicate IsCut(s: seq<Byte>, n: nat, cut: nat)
    requires n < |s|
  {
    cut <= n && (cut == 0 || RuneStart(s[cut])) && forall i :: cut < i <= n ==> !RuneStart(s[i])
  }

  method Shorten(s: seq<Byte>, limit: nat) returns (r: seq<Byte>)
    ensures |s| <= limit ==> r == s
    ensures |s| > limit ==> exists cut: nat :: IsCut(s, limit, cut) && r == s[..cut] + Encode(ELLIPSIS)
    ensures |r| <= limit + 3
    ensures Valid(s) ==> Valid(r)
  {
    if |s| <= limit {
      return s;
    }
    var n: nat := limit;
    while n > 0 && !RuneStart(s[n])
      invariant 0 <= n <= limit && forall i :: n < i <= limit ==> !RuneStart(s[i])
    {
      n := n - 1;
    }
    r := s[..n] + Encode(ELLIPSIS);
    assert IsCut(s, limit, n);
    if Valid(s) {
      ghost var cs := ValidDecodes(s);
      ghost var k := CutKeepsCharacters(cs, limit, n);
      EncodedIsValid(cs[..k] + [ELLIPSIS]);
    }
  }

  lemma {:induction false} EncodeSnoc(cs: seq<Char>, c: Char)
    ensures EncodeAll(cs + [c]) == EncodeAll(cs) + Encode(c)
  {
    if cs != [] {
      EncodeSnoc(cs[1..], c);
      assert (cs + [c])[1..] == cs[1..] + [c];
    } else {
      assert [c][1..] == [];
    }
  }

  // The first character starts at 0, so a cut is always a boundary.
  lemma CutIsBoundary(cs: seq<Char>, n: nat, cut: nat) returns (k: nat)
    requires n < |EncodeAll(cs)| && IsCut(EncodeAll(cs), n, cut)
    ensures k < |cs| && Offset(cs, k) == cut
  {
    if cut == 0 {
      k := 0;
    } else {
      StartIffBoundary(cs, cut);
      k :| k < |cs| && Offset(cs, k) == cut;
    }
  }

  /** Of a text too long, what is left is exactly the longest run of whole
      characters that fits in `n` bytes, followed by one ellipsis. */
  lemma CutKeepsCharacters(cs: seq<Char>, n: nat, cut: nat) returns (k: nat)
    requires n < |EncodeAll(cs)| && IsCut(EncodeAll(cs), n, cut)
    ensures k < |cs| && |EncodeAll(cs[..k])| <= n < |EncodeAll(cs[..k + 1])|
    ensures EncodeAll(cs)[..cut] + Encode(ELLIPSIS) == EncodeAll(cs[..k] + [ELLIPSIS])
  {
    k := CutIsBoundary(cs, n, cut);
    OffsetCuts(cs, k);
    OffsetCuts(cs, k + 1);
    OffsetsRise(cs, k);
    EncodeSnoc(cs[..k], ELLIPSIS);
    var next := Offset(cs, k + 1);
    if next <= n {
      WholeOffset(cs);
      assert k + 1 < |cs|;
      StartIffBoundary(cs, next);
      assert false;
    }
  }

  const COLUMN := 255

  /** Skip reasons and trigger details fit their columns, whole when they are
      within the limit and well-formed whenever they came so. */
  method ShortenForColumn(s: seq<Byte>) returns (r: seq<Byte>)
    ensures |r| <= COLUMN && (Valid(s) ==> Valid(r)) && (|s| <= COLUMN - 3 ==> r == s)
  {
    r := Shorten(s, COLUMN - 3);
  }
}
