/**
 UTF-8 as Go decodes it and UTF-16 as JavaScript counts it.

 `Decode` follows the byte ranges of section 4 of RFC 3629; a byte that starts no valid sequence is one
 replacement character.  `Units` is section 2.1 of RFC 2781.
 */
module Utf {
  type Byte = x: int | 0 <= x < 256
  type Bytes = seq<Byte>

  const REPLACEMENT := 0xFFFD

  datatype Decoded = Decoded(rune: nat, size: nat, ok: bool)

  predicate Continuation(b: Byte) { 0x80 <= b <= 0xBF }

  /** Length announced by a first byte, 0 if it cannot start a sequence. */
  function Announced(b: Byte): nat {
    if b < 0x80 then 1
    else if 0xC2 <= b <= 0xDF then 2
    else if 0xE0 <= b <= 0xEF then 3
    else if 0xF0 <= b <= 0xF4 then 4
    else 0
  }

  /** The second byte is narrowed for some first bytes: no overlong form, no surrogate, none above 10FFFF. */
  predicate SecondByte(b: Byte, c: Byte) {
    (if b == 0xE0 then 0xA0 else if b == 0xF0 then 0x90 else 0x80) <= c
      <= (if b == 0xED then 0x9F else if b == 0xF4 then 0x8F else 0xBF)
  }

  predicate WellFormed(s: Bytes)
    requires s != []
  {
    var n := Announced(s[0]);
    && 1 <= n <= |s|
    && (n >= 2 ==> SecondByte(s[0], s[1]))
    && (n >= 3 ==> Continuation(s[2]))
    && (n >= 4 ==> Continuation(s[3]))
  }

  function Decode(s: Bytes): (d: Decoded)
    requires s != []
    ensures 1 <= d.size <= |s|
  {
    if !WellFormed(s) then Decoded(REPLACEMENT, 1, false)
    else match Announced(s[0])
      case 1 => Decoded(s[0], 1, true)
      case 2 => Decoded((s[0] as int - 0xC0) * 64 + (s[1] as int - 0x80), 2, true)
      case 3 => Decoded(((s[0] as int - 0xE0) * 64 + (s[1] as int - 0x80)) * 64 + (s[2] as int - 0x80), 3, true)
      case _ =>
        Decoded((((s[0] as int - 0xF0) * 64 + (s[1] as int - 0x80)) * 64 + (s[2] as int - 0x80)) * 64
            + (s[3] as int - 0x80), 4, true)
  }

  predicate IsScalar(r: int) { 0 <= r < 0xD800 || 0xE000 <= r < 0x110000 }

  /** A continuation byte with the low six bits of `x`. */
  function Low(x: nat): Byte { 0x80 + x % 64 }

  /** The encoder of section 3 of RFC 3629. */
  function Encode(r: int): Bytes
    requires IsScalar(r)
  {
    if r < 0x80 then [r]
    else if r < 0x800 then [0xC0 + r / 64, Low(r)]
    else if r < 0x10000 then [0xE0 + r / 64 / 64, Low(r / 64), Low(r)]
    else [0xF0 + r / 64 / 64 / 64, Low(r / 64 / 64), Low(r / 64), Low(r)]
  }

  lemma SixBits(high: nat, low: nat)
    requires low < 64
    ensures (high * 64 + low) / 64 == high && (high * 64 + low) % 64 == low
  {
  }

  /** Decoding inverts encoding, whatever follows. */
  lemma DecodeEncode(r: int, rest: Bytes)
    requires IsScalar(r)
    ensures Decode(Encode(r) + rest) == Decoded(r, |Encode(r)|, true)
  {
    var s := Encode(r) + rest;
    assert forall i :: 0 <= i < |Encode(r)| ==> s[i] == Encode(r)[i];
  }

  /** And encoding inverts every successful decoding: each sequence accepted is the one of its scalar. */
  lemma EncodeDecode(s: Bytes)
    requires s != [] && Decode(s).ok
    ensures IsScalar(Decode(s).rune) && Encode(Decode(s).rune) == s[..Decode(s).size]
  {
    var d := Decode(s);
    match d.size {
      case 1 =>
        assert s[0] <= 0x7F;
      case 2 =>
        assert 0xC2 <= s[0] <= 0xDF;
        SixBits(s[0] as int - 0xC0, s[1] as int - 0x80);
      case 3 =>
        assert 0xE0 <= s[0] <= 0xEF;
        SixBits(s[0] as int - 0xE0, s[1] as int - 0x80);
        SixBits((s[0] as int - 0xE0) * 64 + (s[1] as int - 0x80), s[2] as int - 0x80);
      case _ =>
        assert 0xF0 <= s[0] <= 0xF4;
        SixBits(s[0] as int - 0xF0, s[1] as int - 0x80);
        SixBits((s[0] as int - 0xF0) * 64 + (s[1] as int - 0x80), s[2] as int - 0x80);
        SixBits(((s[0] as int - 0xF0) * 64 + (s[1] as int - 0x80)) * 64 + (s[2] as int - 0x80), s[3] as int - 0x80);
    }
  }

  /** The runes of a string, as `range` yields them. */
  function Runes(s: Bytes): seq<nat> {
    if s == [] then [] else [Decode(s).rune] + Runes(s[Decode(s).size..])
  }

  predicate Valid(s: Bytes) {
    s == [] || (Decode(s).ok && Valid(s[Decode(s).size..]))
  }

  function Units(r: nat): seq<nat> {
    if r <= 0xFFFF then [r] else [0xD800 + (r - 0x10000) / 0x400, 0xDC00 + (r - 0x10000) % 0x400]
  }

  /** A scalar's UTF-16, as section 2.1 of RFC 2781 decodes it: itself, or a high and a low surrogate. */
  lemma UnitsDecode(r: nat)
    requires IsScalar(r)
    ensures r < 0x10000 ==> Units(r) == [r] && !(0xD800 <= r < 0xE000)
    ensures r >= 0x10000 ==>
              && |Units(r)| == 2 && 0xD800 <= Units(r)[0] < 0xDC00 <= Units(r)[1] < 0xE000
              && r == 0x10000 + (Units(r)[0] - 0xD800) * 0x400 + (Units(r)[1] - 0xDC00)
  {
  }

  function Utf16(rs: seq<nat>): seq<nat> {
    if rs == [] then [] else Units(rs[0]) + Utf16(rs[1..])
  }

  /** The string as JavaScript sees it. */
  function Js(s: Bytes): seq<nat> { Utf16(Runes(s)) }

  lemma {:induction false} Utf16Concat(a: seq<nat>, b: seq<nat>)
    ensures Utf16(a + b) == Utf16(a) + Utf16(b)
  {
    if a == [] {
      assert a + b == b;
    } else {
      assert (a + b)[1..] == a[1..] + b;
      Utf16Concat(a[1..], b);
    }
  }

  // ---------------------------------------------------------------- self-synchronisation

  /** Decoding only looks at the bytes it consumes, when it succeeds. */
  lemma DecodePrefix(s: Bytes, k: nat)
    requires 0 < k <= |s|
    ensures Decode(s[..k]).ok ==> Decode(s) == Decode(s[..k])
    ensures Decode(s).ok && Decode(s).size <= k ==> Decode(s[..k]) == Decode(s)
  {
    assert forall i :: 0 <= i < k ==> s[..k][i] == s[i];
  }

  /** A first byte never occurs inside a sequence. */
  lemma NoStartInside(s: Bytes, i: nat)
    requires s != [] && 0 < i < Decode(s).size
    ensures Continuation(s[i]) && !WellFormed(s[i..])
  {
  }

  lemma {:induction false} DecodesAsPrefix(w: Bytes, rest: Bytes)
    requires Valid(w)
    ensures Runes(w + rest) == Runes(w) + Runes(rest)
    decreases |w|
  {
    if w == [] {
      assert w + rest == rest;
    } else {
      var n := Decode(w).size;
      assert (w + rest)[..|w|] == w;
      DecodePrefix(w + rest, |w|);
      assert (w + rest)[n..] == w[n..] + rest;
      DecodesAsPrefix(w[n..], rest);
    }
  }

  /** So the first sequence of `s` ends at or before any later occurrence of a valid string. */
  lemma SequenceEndsBefore(s: Bytes, i: nat, w: Bytes)
    requires 0 < i && w != [] && Valid(w) && i + |w| <= |s| && s[i..i + |w|] == w
    ensures Decode(s).size <= i && Decode(s[..i]) == Decode(s)
  {
    assert WellFormed(w) && w[0] == s[i];
    if Decode(s).size > i {
      NoStartInside(s, i);
      assert false;
    }
    DecodePrefix(s, i);
  }

  /**
   Self-synchronisation: wherever a valid, non-empty `w` occurs in the bytes of any string, valid or not,
   the string decodes as what comes before, then `w`, then what comes after.
   */
  lemma {:induction false} OccurrenceSplits(s: Bytes, i: nat, w: Bytes)
    requires w != [] && Valid(w) && i + |w| <= |s| && s[i..i + |w|] == w
    ensures Runes(s) == Runes(s[..i]) + Runes(w) + Runes(s[i + |w|..])
    decreases i
  {
    if i == 0 {
      assert s == w + s[|w|..];
      DecodesAsPrefix(w, s[|w|..]);
      assert Runes(s[..0]) == [];
    } else {
      SequenceEndsBefore(s, i, w);
      var n := Decode(s).size;
      var t, j := s[n..], i - n;
      assert t[j..j + |w|] == w && s[..i][n..] == t[..j] && t[j + |w|..] == s[i + |w|..];
      OccurrenceSplits(t, j, w);
      RunesSplit([Decode(s).rune], Runes(t[..j]), Runes(w), Runes(s[i + |w|..]));
    }
  }

  lemma RunesSplit(a: seq<nat>, b: seq<nat>, c: seq<nat>, d: seq<nat>)
    ensures a + (b + c + d) == a + b + c + d
  {
  }

  /** The same occurrence counted in UTF-16 units. */
  lemma OccurrenceInJs(s: Bytes, i: nat, w: Bytes)
    requires w != [] && Valid(w) && i + |w| <= |s| && s[i..i + |w|] == w
    ensures var offset, length := |Js(s[..i])|, |Js(w)|;
            offset + length <= |Js(s)| && Js(s)[offset..offset + length] == Js(w)
  {
    OccurrenceSplits(s, i, w);
    var a, b, c := Runes(s[..i]), Runes(w), Runes(s[i + |w|..]);
    Utf16Concat(a + b, c);
    Utf16Concat(a, b);
  }

  /** The loop over the runes of a string that counts its UTF-16 units. */
  method Utf16Len(s: Bytes) returns (n: nat)
    ensures n == |Js(s)|
  {
    n := 0;
    var i := 0;
    while i < |s|
      invariant 0 <= i <= |s|
      invariant n + |Js(s[i..])| == |Js(s)|
    {
      var d := Decode(s[i..]);
      assert s[i..][d.size..] == s[i + d.size..];
      assert Runes(s[i..])[1..] == Runes(s[i + d.size..]);
      n := n + if d.rune > 0xFFFF then 2 else 1;
      i := i + d.size;
    }
  }
}
