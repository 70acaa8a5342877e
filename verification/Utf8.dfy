/**
 The UTF-8 codec the phone falls back to (`packages/protocol/src/wire-frame.ts`)
 and the second encoder of the HTTP client (`packages/app/src/lib/iroh-fetch.ts`).

 A JavaScript string is a sequence of 16-bit code units, well formed or not.
 `x >> k` is written `x / 2^k` and `x & (2^k - 1)` is written `x % 2^k`; the
 operands of every `|` in the source share no bit, so `|` is written `+`.
 */
module Utf8 {
  type Unit = x: int | 0 <= x < 0x1_0000
  type Byte = x: int | 0 <= x < 0x100
  type Bytes = seq<Byte>
  type Units = seq<Unit>

  predicate High(u: int) { 0xD800 <= u <= 0xDBFF }

  predicate Low(u: int) { 0xDC00 <= u <= 0xDFFF }

  /** The bytes pushed for one code point (wire-frame.ts:71-86). */
  function EncodePoint(cp: int): (c: Bytes)
    requires 0 <= cp < 0x20_0000
    ensures |c| == if cp < 0x80 then 1 else if cp < 0x800 then 2 else if cp < 0x1_0000 then 3 else 4
  {
    if cp < 0x80 then [cp]
    else if cp < 0x800 then [0xC0 + cp / 64, 0x80 + cp % 64]
    else if cp < 0x1_0000 then [0xE0 + cp / 4096, 0x80 + cp / 64 % 64, 0x80 + cp % 64]
    else [0xF0 + cp / 262144, 0x80 + cp / 4096 % 64, 0x80 + cp / 64 % 64, 0x80 + cp % 64]
  }

  function Pair(hi: int, lo: int): int {
    0x1_0000 + (hi - 0xD800) * 1024 + (lo - 0xDC00)
  }

  predicate PairAt(s: Units, i: nat) {
    i + 1 < |s| && High(s[i]) && Low(s[i + 1])
  }

  /** The code point at `i`, and where the next one starts. */
  function Point(s: Units, i: nat): (cp: int)
    requires i < |s|
    ensures 0 <= cp <= 0x10_FFFF
  {
    if PairAt(s, i) then Pair(s[i], s[i + 1]) else s[i]
  }

  function Next(s: Units, i: nat): nat {
    if PairAt(s, i) then i + 2 else i + 1
  }

  /** What the encoder appends from position `i` on. */
  function EncodeFrom(s: Units, i: nat): Bytes
    requires i <= |s|
    decreases |s| - i
  {
    if i == |s| then []
    else EncodePoint(Point(s, i)) + EncodeFrom(s, Next(s, i))
  }

  function Encode(s: Units): Bytes { EncodeFrom(s, 0) }

  /** The bytes pushed for one code point. */
  method Push(out: Bytes, cp: int) returns (next: Bytes)
    requires 0 <= cp < 0x20_0000
    ensures next == out + EncodePoint(cp)
  {
    if cp < 0x80 {
      next := out + [cp];
    } else if cp < 0x800 {
      next := out + [0xC0 + cp / 64, 0x80 + cp % 64];
    } else if cp < 0x1_0000 {
      next := out + [0xE0 + cp / 4096, 0x80 + cp / 64 % 64, 0x80 + cp % 64];
    } else {
      next := out + [0xF0 + cp / 262144, 0x80 + cp / 4096 % 64, 0x80 + cp / 64 % 64, 0x80 + cp % 64];
    }
  }

  /** `utf8EncodeFallback`: one pass, pushing bytes. */
  method EncodeFallback(s: Units) returns (out: Bytes)
    ensures out == Encode(s)
  {
    out := [];
    var i := 0;
    while i < |s|
      invariant 0 <= i <= |s|
      invariant out + EncodeFrom(s, i) == Encode(s)
    {
      var cp: int := s[i];
      ghost var at := i;
      if 0xD800 <= cp <= 0xDBFF && i + 1 < |s| {
        var lo := s[i + 1];
        if 0xDC00 <= lo <= 0xDFFF {
          cp := 0x1_0000 + (cp - 0xD800) * 1024 + (lo - 0xDC00);
          i := i + 1;
        }
      }
      ghost var before := out;
      out := Push(out, cp);
      i := i + 1;
      assert out + EncodeFrom(s, i) == before + EncodeFrom(s, at) by {
        assert EncodeFrom(s, at) == EncodePoint(cp) + EncodeFrom(s, i);
        Assoc(before, EncodePoint(cp), EncodeFrom(s, i));
      }
    }
  }

  lemma Assoc<T>(a: seq<T>, b: seq<T>, c: seq<T>)
    ensures a + b + c == a + (b + c)
  {
  }

  // ---- Decoding ----

  /** `bytes[i] ?? 0`. */
  function At(bytes: Bytes, i: nat): Byte {
    if i < |bytes| then bytes[i] else 0
  }

  function Width(b0: Byte): (w: nat)
    ensures 1 <= w <= 4
  {
    if b0 < 0x80 then 1 else if b0 < 0xE0 then 2 else if b0 < 0xF0 then 3 else 4
  }

  /** What the reader makes of the four bytes at hand. */
  function PointOf(b0: Byte, b1: Byte, b2: Byte, b3: Byte): (cp: int)
    ensures 0 <= cp < 0x20_0000
  {
    if b0 < 0x80 then b0
    else if b0 < 0xE0 then b0 % 32 * 64 + b1 % 64
    else if b0 < 0xF0 then b0 % 16 * 4096 + b1 % 64 * 64 + b2 % 64
    else b0 % 8 * 262144 + b1 % 64 * 4096 + b2 % 64 * 64 + b3 % 64
  }

  /** The code point read at `i`, whatever bytes follow. */
  function PointAt(bytes: Bytes, i: nat): int
    requires i < |bytes|
  {
    PointOf(bytes[i], At(bytes, i + 1), At(bytes, i + 2), At(bytes, i + 3))
  }

  function UnitsOf(cp: int): Units
    requires 0 <= cp < 0x20_0000
  {
    if cp > 0xFFFF then [0xD800 + (cp - 0x1_0000) / 1024, 0xDC00 + (cp - 0x1_0000) % 1024] else [cp]
  }

  function DecodeFrom(bytes: Bytes, i: nat): Units
    decreases |bytes| - i
  {
    if i >= |bytes| then [] else UnitsOf(PointAt(bytes, i)) + DecodeFrom(bytes, i + Width(bytes[i]))
  }

  function Decode(bytes: Bytes): Units { DecodeFrom(bytes, 0) }

  /** `utf8DecodeFallback`: code units gather in `chunk` and are flushed to the
      string whenever 4096 or more are waiting. */
  method DecodeFallback(bytes: Bytes) returns (out: Units)
    ensures out == Decode(bytes)
  {
    hide PointOf, UnitsOf;
    out := [];
    var chunk: Units := [];
    ghost var read: Units := [];
    var i := 0;
    while i < |bytes|
      invariant read == out + chunk
      invariant read + DecodeFrom(bytes, i) == Decode(bytes)
      decreases |bytes| - i
    {
      var units := UnitsOf(PointAt(bytes, i));
      Assoc(read, units, DecodeFrom(bytes, i + Width(bytes[i])));
      Assoc(out, chunk, units);
      read := read + units;
      i := i + Width(bytes[i]);
      chunk := chunk + units;
      // Flush now and then: String.fromCharCode has an argument cap.
      if |chunk| >= 4096 {
        out := out + chunk;
        chunk := [];
      }
    }
    if |chunk| > 0 {
      out := out + chunk;
    }
  }

  // ---- Round trip, on every string ----

  lemma Sextets(cp: int)
    requires 0 <= cp
    ensures cp == cp / 64 * 64 + cp % 64
    ensures cp == cp / 4096 * 4096 + cp / 64 % 64 * 64 + cp % 64
    ensures cp == cp / 262144 * 262144 + cp / 4096 % 64 * 4096 + cp / 64 % 64 * 64 + cp % 64
  {
    assert cp / 4096 == cp / 64 / 64;
    assert cp / 262144 == cp / 4096 / 64;
  }

  lemma PointRoundTrip(cp: int, rest: Bytes)
    requires 0 <= cp < 0x20_0000
    ensures var bytes := EncodePoint(cp) + rest;
            Width(bytes[0]) == |EncodePoint(cp)| && PointAt(bytes, 0) == cp
  {
    var c := EncodePoint(cp);
    var bytes := c + rest;
    assert bytes[0] == c[0];
    assert |c| > 1 ==> bytes[1] == c[1];
    assert |c| > 2 ==> bytes[2] == c[2];
    assert |c| > 3 ==> bytes[3] == c[3];
    LeadByte(cp, At(bytes, 1), At(bytes, 2), At(bytes, 3));
  }

  lemma ThreeBytes(cp: int)
    requires 0x800 <= cp < 0x1_0000
    ensures 0 <= cp / 4096 < 16 && PointOf(0xE0 + cp / 4096, 0x80 + cp / 64 % 64, 0x80 + cp % 64, 0) == cp
  {
    Sextets(cp);
  }

  lemma FourBytes(cp: int)
    requires 0x1_0000 <= cp < 0x20_0000
    ensures 0 <= cp / 262144 < 8
    ensures PointOf(0xF0 + cp / 262144, 0x80 + cp / 4096 % 64, 0x80 + cp / 64 % 64, 0x80 + cp % 64) == cp
  {
    Sextets(cp);
  }

  lemma LeadByte(cp: int, x1: Byte, x2: Byte, x3: Byte)
    requires 0 <= cp < 0x20_0000
    ensures var c := EncodePoint(cp);
            && Width(c[0]) == |c|
            && PointOf(c[0], if |c| > 1 then c[1] else x1, if |c| > 2 then c[2] else x2,
                       if |c| > 3 then c[3] else x3) == cp
  {
    var c := EncodePoint(cp);
    hide PointOf;
    if cp < 0x80 {
    } else if cp < 0x800 {
    } else if cp < 0x1_0000 {
      ThreeBytes(cp);
    } else {
      FourBytes(cp);
    }
  }

  lemma {:induction false} DecodeShift(a: Bytes, b: Bytes, i: nat)
    ensures DecodeFrom(a + b, |a| + i) == DecodeFrom(b, i)
    decreases |b| - i
  {
    hide PointOf, UnitsOf;
    if i < |b| {
      assert (a + b)[|a| + i] == b[i];
      assert PointAt(a + b, |a| + i) == PointAt(b, i);
      DecodeShift(a, b, i + Width(b[i]));
    }
  }

  /** Decoding reads one encoded point and goes on with what follows it. */
  lemma DecodePoint(cp: int, rest: Bytes)
    requires 0 <= cp < 0x20_0000
    ensures Decode(EncodePoint(cp) + rest) == UnitsOf(cp) + Decode(rest)
  {
    PointRoundTrip(cp, rest);
    DecodeShift(EncodePoint(cp), rest, 0);
  }

  lemma PointUnits(s: Units, i: nat)
    requires i < |s|
    ensures Next(s, i) <= |s| && s[i..] == UnitsOf(Point(s, i)) + s[Next(s, i)..]
  {
  }

  lemma {:induction false} RoundTripFrom(s: Units, i: nat)
    requires i <= |s|
    ensures Decode(EncodeFrom(s, i)) == s[i..]
    decreases |s| - i
  {
    if i < |s| {
      PointUnits(s, i);
      RoundTripFrom(s, Next(s, i));
      DecodePoint(Point(s, i), EncodeFrom(s, Next(s, i)));
    }
  }

  /** Every string survives, lone surrogates included. */
  lemma RoundTrip(s: Units)
    ensures Decode(Encode(s)) == s
  {
    RoundTripFrom(s, 0);
  }

  // ---- The grammar of section 4 of RFC 3629 ----

  predicate Tail(b: Byte) { 0x80 <= b <= 0xBF }

  /** UTF8-1, UTF8-2, UTF8-3 or UTF8-4 of the ABNF, as a byte string of its own. */
  predicate Utf8Char(c: Bytes) {
    || (|c| == 1 && c[0] <= 0x7F)
    || (|c| == 2 && 0xC2 <= c[0] <= 0xDF && Tail(c[1]))
    || (|c| == 3 && Tail(c[2]) &&
        (|| (c[0] == 0xE0 && 0xA0 <= c[1] <= 0xBF)
         || (0xE1 <= c[0] <= 0xEC && Tail(c[1]))
         || (c[0] == 0xED && 0x80 <= c[1] <= 0x9F)
         || (0xEE <= c[0] <= 0xEF && Tail(c[1]))))
    || (|c| == 4 && Tail(c[2]) && Tail(c[3]) &&
        (|| (c[0] == 0xF0 && 0x90 <= c[1] <= 0xBF)
         || (0xF1 <= c[0] <= 0xF3 && Tail(c[1]))
         || (c[0] == 0xF4 && 0x80 <= c[1] <= 0x8F)))
  }

  /** `UTF8-octets = *( UTF8-char )`. */
  ghost predicate Utf8Octets(bytes: Bytes)
    decreases |bytes|
  {
    bytes == [] || exists n | 1 <= n <= 4 && n <= |bytes| :: Utf8Char(bytes[..n]) && Utf8Octets(bytes[n..])
  }

  /** No surrogate stands alone. */
  predicate WellFormed(s: Units, i: nat)
    requires i <= |s|
    decreases |s| - i
  {
    i == |s|
    || (PairAt(s, i) && WellFormed(s, i + 2))
    || (!High(s[i]) && !Low(s[i]) && WellFormed(s, i + 1))
  }

  lemma PointIsUtf8Char(cp: int)
    requires 0 <= cp <= 0x10_FFFF
    ensures Utf8Char(EncodePoint(cp)) <==> !(0xD800 <= cp <= 0xDFFF)
  {
    Sextets(cp);
    if 0x800 <= cp < 0x1_0000 {
    } else if 0x1_0000 <= cp {
    }
  }

  /** One character at the front: the grammar accepts the whole exactly when it
      accepts that character and the rest. */
  lemma OctetsSplit(c: Bytes, rest: Bytes)
    requires 1 <= |c| <= 4 && Width(c[0]) == |c|
    ensures Utf8Octets(c + rest) <==> Utf8Char(c) && Utf8Octets(rest)
  {
    var all := c + rest;
    assert all[..|c|] == c && all[|c|..] == rest;
    if Utf8Octets(all) {
      var n :| 1 <= n <= 4 && n <= |all| && Utf8Char(all[..n]) && Utf8Octets(all[n..]);
      assert all[..n][0] == c[0];
      assert n == |c|;
    }
  }

  lemma {:induction false} GrammarFrom(s: Units, i: nat)
    requires i <= |s|
    ensures Utf8Octets(EncodeFrom(s, i)) <==> WellFormed(s, i)
    decreases |s| - i
  {
    if i == |s| {
    } else {
      var cp, next := Point(s, i), Next(s, i);
      GrammarFrom(s, next);
      PointRoundTrip(cp, []);
      assert EncodePoint(cp) + [] == EncodePoint(cp);
      PointIsUtf8Char(cp);
      OctetsSplit(EncodePoint(cp), EncodeFrom(s, next));
    }
  }

  /** The bytes are UTF-8 in the sense of RFC 3629 exactly for well-formed strings. */
  lemma EncodesRfc3629(s: Units)
    ensures Utf8Octets(Encode(s)) <==> WellFormed(s, 0)
  {
    GrammarFrom(s, 0);
  }

  // ---- The code points the bytes spell ----

  function Sextet(b: int): int { b - 0x80 }

  /** The code point of one character, by the table in section 3 of RFC 3629. */
  function Spelled(c: Bytes): int {
    if |c| == 0 then 0
    else
      var x: int := c[0];
      if |c| == 1 then x
      else if |c| == 2 then (x - 0xC0) * 0x40 + Sextet(c[1])
      else if |c| == 3 then (x - 0xE0) * 0x1000 + Sextet(c[1]) * 0x40 + Sextet(c[2])
      else if |c| == 4 then (x - 0xF0) * 0x4_0000 + Sextet(c[1]) * 0x1000 + Sextet(c[2]) * 0x40 + Sextet(c[3])
      else 0
  }

  /** From `i` on the string is these code points, by section 2 of RFC 2781. */
  ghost predicate Utf16(points: seq<int>, s: Units, i: nat)
    requires i <= |s|
    decreases |points|
  {
    if points == [] then i == |s|
    else if points[0] < 0x1_0000 then
      i < |s| && s[i] == points[0] && !High(s[i]) && !Low(s[i]) && Utf16(points[1..], s, i + 1)
    else
      && i + 1 < |s| && High(s[i]) && Low(s[i + 1])
      && (var hi: int, lo: int := s[i], s[i + 1]; points[0] - 0x1_0000 == (hi - 0xD800) * 0x400 + (lo - 0xDC00))
      && Utf16(points[1..], s, i + 2)
  }

  /** The bytes are the UTF-8 characters of these code points, one by one. */
  ghost predicate Utf8Of(points: seq<int>, bytes: Bytes)
    decreases |points|
  {
    if points == [] then bytes == []
    else exists n | 1 <= n <= |bytes| ::
           Utf8Char(bytes[..n]) && Spelled(bytes[..n]) == points[0] && Utf8Of(points[1..], bytes[n..])
  }

  lemma PointSpelled(cp: int)
    requires 0 <= cp <= 0x10_FFFF
    ensures Spelled(EncodePoint(cp)) == cp
  {
    Sextets(cp);
  }

  lemma {:induction false} SpellsFrom(points: seq<int>, s: Units, i: nat)
    requires i <= |s| && Utf16(points, s, i)
    ensures Utf8Of(points, EncodeFrom(s, i))
    decreases |points|
  {
    hide EncodePoint, Spelled, Utf8Char;
    if points != [] {
      var cp, next := Point(s, i), Next(s, i);
      SpellsFrom(points[1..], s, next);
      PointSpelled(cp);
      PointIsUtf8Char(cp);
      PointLength(cp);
      var bytes, n := EncodeFrom(s, i), |EncodePoint(cp)|;
      assert bytes[..n] == EncodePoint(cp) && bytes[n..] == EncodeFrom(s, next);
    }
  }

  lemma PointLength(cp: int)
    requires 0 <= cp <= 0x10_FFFF
    ensures |EncodePoint(cp)| >= 1
  {
  }

  /** Whatever code points a string is made of, its bytes are their UTF-8. */
  lemma EncodesCodePoints(points: seq<int>, s: Units)
    requires Utf16(points, s, 0)
    ensures Utf8Of(points, Encode(s))
  {
    SpellsFrom(points, s, 0);
  }

  /** A byte that is not the first of a character, and a character cut off behind its
      first byte, are read all the same: by the bits at hand, the missing ones zero. */
  lemma DecodesAlone(b: Byte)
    ensures b < 0x80 ==> Decode([b]) == [b]
    ensures 0x80 <= b < 0xE0 ==> Decode([b]) == [b % 32 * 0x40]
    ensures 0xE0 <= b < 0xF0 ==> Decode([b]) == [(b - 0xE0) * 0x1000]
  {
    assert DecodeFrom([b], Width(b)) == [];
  }

  // ---- The HTTP client's encoder ----

  /** `enc` takes whatever follows a high surrogate as its other half. */
  function EncFrom(s: Units, i: nat): Bytes
    requires i <= |s|
    decreases |s| - i
  {
    if i == |s| then []
    else if High(s[i]) && i + 1 < |s| then EncodePoint(Pair(s[i], s[i + 1])) + EncFrom(s, i + 2)
    else EncodePoint(s[i]) + EncFrom(s, i + 1)
  }

  /** `enc` of iroh-fetch.ts. */
  method Enc(s: Units) returns (out: Bytes)
    ensures out == EncFrom(s, 0)
  {
    out := [];
    var i := 0;
    while i < |s|
      invariant 0 <= i <= |s|
      invariant out + EncFrom(s, i) == EncFrom(s, 0)
    {
      ghost var at, before := i, out;
      var c: int := s[i];
      if 0xD800 <= c <= 0xDBFF && i + 1 < |s| {
        i := i + 1;
        var next: int := s[i];
        c := 0x1_0000 + (c - 0xD800) * 1024 + (next - 0xDC00);
      }
      out := Push(out, c);
      i := i + 1;
      assert out + EncFrom(s, i) == before + EncFrom(s, at) by {
        assert EncFrom(s, at) == EncodePoint(c) + EncFrom(s, i);
        Assoc(before, EncodePoint(c), EncFrom(s, i));
      }
    }
  }

  lemma {:induction false} EncNoLonger(s: Units, i: nat)
    requires i <= |s|
    ensures |EncFrom(s, i)| <= |EncodeFrom(s, i)|
    decreases |s| - i
  {
    hide EncodePoint;
    if i == |s| {
    } else if High(s[i]) && i + 1 < |s| {
      EncNoLonger(s, i + 2);
    } else {
      EncNoLonger(s, i + 1);
    }
  }

  lemma SameTail<T>(a: seq<T>, b: seq<T>, c: seq<T>)
    ensures a + b == a + c <==> b == c
  {
    if a + b == a + c {
      assert b == (a + b)[|a|..] == (a + c)[|a|..] == c;
    }
  }

  /** A high surrogate joined to anything but a low one shows in the bytes, and
      nothing that follows makes up for it. */
  lemma EncMisjoins(s: Units, i: nat)
    requires i + 1 < |s| && High(s[i]) && !Low(s[i + 1])
    ensures EncFrom(s, i) != EncodeFrom(s, i)
  {
    var c := EncodePoint(Pair(s[i], s[i + 1]));
    EncNoLonger(s, i + 2);
    assert EncodeFrom(s, i) == EncodePoint(s[i]) + EncodeFrom(s, i + 1);
    assert EncFrom(s, i) == c + EncFrom(s, i + 2);
    if |c| == 4 {
      assert EncFrom(s, i)[0] == c[0] >= 0xF0;
      assert EncodeFrom(s, i)[0] == EncodePoint(s[i])[0] == 0xED;
    }
  }

  lemma {:induction false} EncAgreesFrom(s: Units, i: nat)
    requires i <= |s|
    ensures EncFrom(s, i) == EncodeFrom(s, i)
            <==> forall k :: i <= k && k + 1 < |s| && High(s[k]) ==> Low(s[k + 1])
    decreases |s| - i
  {
    if i == |s| {
    } else if High(s[i]) && i + 1 < |s| && !Low(s[i + 1]) {
      EncMisjoins(s, i);
    } else {
      EncAgreesFrom(s, Next(s, i));
      SameTail(EncodePoint(Point(s, i)), EncFrom(s, Next(s, i)), EncodeFrom(s, Next(s, i)));
    }
  }

  /** The two encoders agree exactly on the strings where every high surrogate
      that is not last has its low one behind it; those include the well-formed. */
  lemma EncAgrees(s: Units)
    ensures EncFrom(s, 0) == Encode(s)
            <==> forall k :: 0 <= k && k + 1 < |s| && High(s[k]) ==> Low(s[k + 1])
    ensures WellFormed(s, 0) ==> EncFrom(s, 0) == Encode(s)
  {
    EncAgreesFrom(s, 0);
    if WellFormed(s, 0) {
      WellFormedPairs(s, 0);
    }
  }

  lemma {:induction false} WellFormedPairs(s: Units, i: nat)
    requires i <= |s| && WellFormed(s, i)
    ensures forall k :: i <= k && k + 1 < |s| && High(s[k]) ==> Low(s[k + 1])
    decreases |s| - i
  {
    if i < |s| {
      WellFormedPairs(s, Next(s, i));
    }
  }
}
