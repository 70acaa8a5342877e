/**
 The incremental HTTP/1.1 response reader of the phone's `fetch`
 (`packages/app/src/lib/iroh-fetch.ts`): bytes come in pieces of any size, and the
 reader finds the end of the head and the body's chunks in them.
 */
module HttpReader {
  import opened Utf8
  import opened Wrappers

  const CRLF: Bytes := [13, 10]
  const CRLFCRLF: Bytes := [13, 10, 13, 10]

  // ---- Searching ----

  predicate MatchAt(buf: Bytes, pat: Bytes, i: nat) {
    i + |pat| <= |buf| && buf[i..i + |pat|] == pat
  }

  /** The first match at or after `from`, or -1. */
  function Find(buf: Bytes, pat: Bytes, from: nat): (r: int)
    requires |pat| > 0
    ensures r == -1 || (from <= r && MatchAt(buf, pat, r))
    ensures forall i: nat :: from <= i && MatchAt(buf, pat, i) ==> r != -1 && r <= i
    decreases |buf| - from
  {
    if from + |pat| > |buf| then -1
    else if MatchAt(buf, pat, from) then from
    else Find(buf, pat, from + 1)
  }

  /** `indexOf`: two nested loops, the inner one left at the first difference. */
  method IndexOf(buf: Bytes, pat: Bytes, from: nat) returns (r: int)
    requires |pat| > 0
    ensures r == Find(buf, pat, from)
  {
    var i := from;
    while i + |pat| <= |buf|
      invariant from <= i
      invariant Find(buf, pat, i) == Find(buf, pat, from)
    {
      var j := 0;
      while j < |pat| && buf[i + j] == pat[j]
        invariant 0 <= j <= |pat|
        invariant forall k :: 0 <= k < j ==> buf[i + k] == pat[k]
      {
        j := j + 1;
      }
      if j == |pat| {
        assert buf[i..i + |pat|] == pat;
        return i;
      }
      assert buf[i..i + |pat|][j] == buf[i + j] != pat[j];
      i := i + 1;
    }
    return -1;
  }

  /** A match in what has arrived stays the first one when more arrives. */
  lemma FindStable(buf: Bytes, all: Bytes, pat: Bytes)
    requires |pat| > 0 && buf <= all && Find(buf, pat, 0) != -1
    ensures Find(all, pat, 0) == Find(buf, pat, 0)
  {
    var at := Find(buf, pat, 0);
    assert MatchAt(all, pat, at) by {
      assert all[at..at + |pat|] == buf[at..at + |pat|];
    }
    var first := Find(all, pat, 0);
    assert MatchAt(buf, pat, first) by {
      assert all[first..first + |pat|] == buf[first..first + |pat|];
    }
  }

  // ---- Chunk sizes ----

  function HexDigit(b: Byte): Option<nat> {
    if 48 <= b <= 57 then Some(b - 48)
    else if 65 <= b <= 70 then Some(b - 55)
    else if 97 <= b <= 102 then Some(b - 87)
    else None
  }

  predicate Space(b: Byte) { 9 <= b <= 13 || b == 32 }

  /** `text.split(";")[0]`. */
  function BeforeSemicolon(line: Bytes): Bytes {
    if line == [] || line[0] == 59 then [] else [line[0]] + BeforeSemicolon(line[1..])
  }

  function TrimStart(line: Bytes): Bytes {
    if line != [] && Space(line[0]) then TrimStart(line[1..]) else line
  }

  /** The number the leading hexadecimal digits spell, on top of `acc`. */
  function Digits(line: Bytes, acc: nat): nat {
    if line != [] && HexDigit(line[0]).Some? then Digits(line[1..], acc * 16 + HexDigit(line[0]).value) else acc
  }

  /** `0x`, then digits; anything behind them is ignored, and no digit at all is NaN. */
  function Unsigned(text: Bytes): Option<nat> {
    var v := if |text| >= 2 && text[0] == 48 && (text[1] == 120 || text[1] == 88) then text[2..] else text;
    if v == [] || HexDigit(v[0]).None? then None else Some(Digits(v, 0))
  }

  /** `Number.parseInt(text, 16)`: white space and a sign before. */
  function ParseHex(text: Bytes): Option<int> {
    var t := TrimStart(text);
    var signed := t != [] && (t[0] == 43 || t[0] == 45);
    match Unsigned(if signed then t[1..] else t)
    case None => None
    case Some(n) =>
      var m: int := n;
      Some(if signed && t[0] == 45 then -m else m)
  }

  function ChunkSize(line: Bytes): Option<int> { ParseHex(BeforeSemicolon(line)) }

  // ---- What the body is, given all of its bytes ----

  /** The chunks yielded from these bytes: up to the last chunk, a size that is no
      number, or the end of the stream. */
  function Dechunk(bytes: Bytes): seq<Bytes>
    decreases |bytes|
  {
    var nl := Find(bytes, CRLF, 0);
    if nl < 0 then []
    else
      var size := ChunkSize(bytes[..nl]);
      var rest := bytes[nl + 2..];
      if size.None? || size.value <= 0 || |rest| < size.value + 2 then []
      else [rest[..size.value]] + Dechunk(rest[size.value + 2..])
  }

  lemma NoLine(bytes: Bytes)
    requires Find(bytes, CRLF, 0) < 0
    ensures Dechunk(bytes) == []
  {
  }

  lemma NoChunk(bytes: Bytes)
    requires var nl := Find(bytes, CRLF, 0);
             nl >= 0 && (var size := ChunkSize(bytes[..nl]);
                         size.None? || size.value <= 0 || |bytes| - nl < size.value + 4)
    ensures Dechunk(bytes) == []
  {
  }

  lemma OneChunk(bytes: Bytes)
    requires var nl := Find(bytes, CRLF, 0);
             nl >= 0 && (var size := ChunkSize(bytes[..nl]);
                         size.Some? && size.value > 0 && |bytes| - nl >= size.value + 4)
    ensures var nl := Find(bytes, CRLF, 0);
            var size := ChunkSize(bytes[..nl]).value;
            var rest := bytes[nl + 2..];
            Dechunk(bytes) == [rest[..size]] + Dechunk(rest[size + 2..])
  {
  }

  datatype Framing = Chunked | Length(n: nat) | UntilClose

  datatype Head = Head(text: Bytes) | Closed

  function Flatten(pieces: seq<Bytes>): Bytes {
    if pieces == [] then [] else pieces[0] + Flatten(pieces[1..])
  }

  lemma {:induction false} FlattenAppend(pieces: seq<Bytes>, piece: Bytes)
    ensures Flatten(pieces + [piece]) == Flatten(pieces) + piece
  {
    if pieces == [] {
      assert pieces + [piece] == [piece];
    } else {
      FlattenAppend(pieces[1..], piece);
      assert (pieces + [piece])[1..] == pieces[1..] + [piece];
    }
  }

  lemma FlattenNone()
    ensures Flatten([]) == []
  {
  }

  lemma TakeMore(taken: Bytes, piece: Bytes, left: Bytes, rest: Bytes)
    requires |piece| <= |left| && piece == left[..|piece|] && rest == left[|piece|..]
    ensures taken + left == taken + piece + rest
  {
  }

  /** The bytes still to be had: an empty read is the end of the stream, and so is
      a rejected one (when `incoming` runs out). */
  function Upcoming(incoming: seq<Bytes>): Bytes {
    if incoming == [] || incoming[0] == [] then [] else incoming[0] + Upcoming(incoming[1..])
  }

  lemma {:induction false} UpcomingFlatten(incoming: seq<Bytes>)
    requires forall i :: 0 <= i < |incoming| ==> incoming[i] != []
    ensures Upcoming(incoming) == Flatten(incoming)
  {
    if incoming != [] {
      UpcomingFlatten(incoming[1..]);
    }
  }

  class ResponseReader {
    var buf: Bytes
    var eof: bool
    /** What the stream's `read` will answer, call by call. */
    var incoming: seq<Bytes>

    /** All bytes not yet consumed, wherever they are. */
    ghost function Left(): Bytes
      reads this
    {
      buf + if eof then [] else Upcoming(incoming)
    }

    constructor (incoming: seq<Bytes>)
      ensures Left() == Upcoming(incoming)
    {
      this.incoming, buf, eof := incoming, [], false;
    }

    method Fill() returns (more: bool)
      modifies this
      ensures Left() == old(Left()) && old(buf) <= buf
      ensures more ==> |incoming| < |old(incoming)| && |buf| > |old(buf)|
      ensures !more ==> eof && buf == Left() == old(buf)
    {
      if eof {
        return false;
      }
      if incoming == [] || incoming[0] == [] {
        eof := true;
        return false;
      }
      Assoc(buf, incoming[0], Upcoming(incoming[1..]));
      buf := buf + incoming[0];
      incoming := incoming[1..];
      return true;
    }

    /** Reads until `pat` is in the buffer. */
    method Seek(pat: Bytes) returns (at: int)
      requires |pat| > 0
      modifies this
      ensures Left() == old(Left()) && at == Find(Left(), pat, 0)
      ensures at >= 0 ==> MatchAt(buf, pat, at)
    {
      at := IndexOf(buf, pat, 0);
      while at < 0
        invariant Left() == old(Left()) && at == Find(buf, pat, 0)
        decreases |incoming|
      {
        var more := Fill();
        if !more {
          assert at == -1 && Find(Left(), pat, 0) == -1;
          return;
        }
        at := IndexOf(buf, pat, 0);
      }
      FindStable(buf, Left(), pat);
    }

    /** Reads until the buffer holds `n` bytes. */
    method FillTo(n: nat) returns (filled: bool)
      modifies this
      ensures Left() == old(Left()) && filled == (n <= |Left()|)
      ensures filled ==> n <= |buf|
    {
      hide Upcoming;
      while |buf| < n
        invariant Left() == old(Left())
        decreases |incoming|
      {
        var more := Fill();
        if !more {
          return false;
        }
      }
      return true;
    }

    method Drop(n: nat)
      requires n <= |buf|
      modifies this
      ensures Left() == old(Left())[n..] && buf == old(buf)[n..]
      ensures incoming == old(incoming) && eof == old(eof)
    {
      buf := buf[n..];
    }

    method Take(n: nat) returns (piece: Bytes)
      requires 0 < n <= |buf|
      modifies this
      ensures |old(Left())| >= n && piece == old(Left())[..n] != [] && Left() == old(Left())[n..]
      ensures incoming == old(incoming) && eof == old(eof)
    {
      piece := buf[..n];
      Drop(n);
    }

    /** `head()`, up to the text it goes on to parse. */
    method ReadHead() returns (head: Head)
      modifies this
      ensures var at := Find(old(Left()), CRLFCRLF, 0);
              if at < 0 then head == Closed
              else head == Head(old(Left())[..at]) && Left() == old(Left())[at + 4..]
    {
      var at := Seek(CRLFCRLF);
      if at < 0 {
        return Closed;
      }
      head := Head(buf[..at]);
      assert buf[..at] == Left()[..at];
      Drop(at + 4);
    }

    /** `body()` with chunked framing: the chunks yielded. */
    method ReadChunked() returns (chunks: seq<Bytes>)
      modifies this
      ensures chunks == Dechunk(old(Left()))
    {
      hide Dechunk, Find, ChunkSize, Upcoming;
      chunks := [];
      while true
        invariant chunks + Dechunk(Left()) == Dechunk(old(Left()))
        decreases |Left()|
      {
        ghost var all := Left();
        var nl := Seek(CRLF);
        if nl < 0 {
          NoLine(all);
          return;
        }
        var size := ChunkSize(buf[..nl]);
        assert buf[..nl] == all[..nl];
        Drop(nl + 2);
        if size.None? || size.value <= 0 {
          NoChunk(all);
          return;
        }
        var filled := FillTo(size.value + 2);
        if !filled {
          NoChunk(all);
          return;
        }
        OneChunk(all);
        assert buf[..size.value] == Left()[..size.value];
        Assoc(chunks, [buf[..size.value]], Dechunk(Left()[size.value + 2..]));
        chunks := chunks + [buf[..size.value]];
        Drop(size.value + 2);
      }
    }

    /** `body()` without: `len` bytes, or all there are when it is negative. */
    method ReadPlain(len: int) returns (chunks: seq<Bytes>)
      modifies this
      ensures var all := old(Left());
              var n := if 0 <= len < |all| then len else |all|;
              Flatten(chunks) == all[..n] && Left() == all[n..]
      ensures forall i :: 0 <= i < |chunks| ==> chunks[i] != []
    {
      hide Upcoming, Flatten;
      chunks := [];
      var got := 0;
      ghost var all, taken := Left(), [];
      FlattenNone();
      while true
        invariant got == |taken| && (len >= 0 ==> got <= len)
        invariant Flatten(chunks) == taken && all == taken + Left()
        invariant forall i :: 0 <= i < |chunks| ==> chunks[i] != []
        decreases |incoming|, if eof then 0 else 1
      {
        if |buf| > 0 {
          var take := if len >= 0 && len - got < |buf| then len - got else |buf|;
          if take > 0 {
            ghost var left := Left();
            var piece := Take(take);
            TakeMore(taken, piece, left, Left());
            FlattenAppend(chunks, piece);
            taken := taken + piece;
            chunks := chunks + [piece];
            got := got + take;
          }
        }
        if len >= 0 && got >= len {
          return;
        }
        var more := Fill();
        if !more {
          return;
        }
      }
    }
  }

  /** What the head's text announces; `None` when its status line is malformed. */
  type Announced = Bytes -> Option<Framing>

  /** One exchange: the head, and the body's pieces by the framing it announces: its
      chunks, as many bytes as announced or as there are, or all of them. */
  method Exchange(incoming: seq<Bytes>, announced: Announced) returns (head: Head, chunks: seq<Bytes>)
    ensures var all := Upcoming(incoming);
            var at := Find(all, CRLFCRLF, 0);
            if at < 0 then head == Closed && chunks == []
            else
              && head == Head(all[..at])
              && match announced(all[..at])
                 case None => chunks == []
                 case Some(framing) =>
                   var rest := all[at + 4..];
                   match framing
                   case Chunked => chunks == Dechunk(rest)
                   case Length(n) => Flatten(chunks) == rest[..if n < |rest| then n else |rest|]
                   case UntilClose => Flatten(chunks) == rest
  {
    hide Find, Dechunk, Flatten, Upcoming;
    var reader := new ResponseReader(incoming);
    head := reader.ReadHead();
    chunks := [];
    if head.Head? {
      match announced(head.text) {
        case None =>
        case Some(Chunked) => chunks := reader.ReadChunked();
        case Some(Length(n)) => chunks := reader.ReadPlain(n);
        case Some(UntilClose) => chunks := reader.ReadPlain(-1);
      }
    }
  }

  /** However the network cuts the same bytes, the head is the same, so is the body,
      and with chunked framing so is each chunk. */
  method AnyCut(a: seq<Bytes>, b: seq<Bytes>, announced: Announced)
    returns (headA: Head, headB: Head, chunksA: seq<Bytes>, chunksB: seq<Bytes>)
    requires forall i :: 0 <= i < |a| ==> a[i] != []
    requires forall i :: 0 <= i < |b| ==> b[i] != []
    requires Flatten(a) == Flatten(b)
    ensures headA == headB && Flatten(chunksA) == Flatten(chunksB)
    ensures headA.Head? && announced(headA.text) == Some(Chunked) ==> chunksA == chunksB
  {
    UpcomingFlatten(a);
    UpcomingFlatten(b);
    headA, chunksA := Exchange(a, announced);
    headB, chunksB := Exchange(b, announced);
  }

  // ---- The encoding of section 7.1 of RFC 9112 ----

  /** `chunk-size = 1*HEXDIG`, for this number. */
  ghost predicate SizeDigits(digits: Bytes, n: nat) {
    |digits| > 0 && (forall i :: 0 <= i < |digits| ==> HexDigit(digits[i]).Some?) && HexValue(digits) == n
  }

  ghost function HexValue(digits: Bytes): nat
    requires forall i :: 0 <= i < |digits| ==> HexDigit(digits[i]).Some?
  {
    if digits == [] then 0
    else HexValue(digits[..|digits| - 1]) * 16 + HexDigit(digits[|digits| - 1]).value
  }

  /** `chunk-ext`: nothing, or blanks, a semicolon and more without a line break. */
  ghost predicate Extension(ext: Bytes) {
    && 13 !in ext
    && (ext == [] || exists k | 0 <= k < |ext| ::
          ext[k] == 59 && forall i :: 0 <= i < k ==> ext[i] == 32 || ext[i] == 9)
  }

  ghost predicate SizeLine(line: Bytes, n: nat) {
    exists k | 1 <= k <= |line| :: SizeDigits(line[..k], n) && Extension(line[k..])
  }

  ghost predicate Lines(lines: seq<Bytes>, chunks: seq<Bytes>) {
    |lines| == |chunks| && forall i :: 0 <= i < |lines| ==> chunks[i] != [] && SizeLine(lines[i], |chunks[i]|)
  }

  /** `chunk = chunk-size [ chunk-ext ] CRLF chunk-data CRLF`, one after the other. */
  ghost function Enchunk(lines: seq<Bytes>, chunks: seq<Bytes>): Bytes
    requires |lines| == |chunks|
  {
    if lines == [] then [] else lines[0] + CRLF + chunks[0] + CRLF + Enchunk(lines[1..], chunks[1..])
  }

  lemma {:induction false} DigitsValue(digits: Bytes, rest: Bytes, acc: nat)
    requires forall i :: 0 <= i < |digits| ==> HexDigit(digits[i]).Some?
    requires rest == [] || HexDigit(rest[0]).None?
    ensures Digits(digits + rest, acc) == Digits(digits, acc)
  {
    if digits == [] {
      assert digits + rest == rest;
    } else {
      assert (digits + rest)[1..] == digits[1..] + rest;
      DigitsValue(digits[1..], rest, acc * 16 + HexDigit(digits[0]).value);
    }
  }

  lemma {:induction false} DigitsAppend(digits: Bytes, last: Byte, acc: nat)
    requires forall i :: 0 <= i < |digits| ==> HexDigit(digits[i]).Some?
    requires HexDigit(last).Some?
    ensures Digits(digits + [last], acc) == Digits(digits, acc) * 16 + HexDigit(last).value
  {
    if digits == [] {
      assert digits + [last] == [last];
      assert Digits([last][1..], acc * 16 + HexDigit(last).value) == acc * 16 + HexDigit(last).value;
    } else {
      assert (digits + [last])[1..] == digits[1..] + [last];
      DigitsAppend(digits[1..], last, acc * 16 + HexDigit(digits[0]).value);
    }
  }

  lemma {:induction false} DigitsAreHex(digits: Bytes)
    requires forall i :: 0 <= i < |digits| ==> HexDigit(digits[i]).Some?
    ensures Digits(digits, 0) == HexValue(digits)
  {
    if digits != [] {
      var n := |digits| - 1;
      DigitsAreHex(digits[..n]);
      DigitsAppend(digits[..n], digits[n], 0);
      assert digits == digits[..n] + [digits[n]];
    }
  }

  lemma {:induction false} SemicolonCut(a: Bytes, b: Bytes)
    requires 59 !in a
    ensures BeforeSemicolon(a + b) == a + BeforeSemicolon(b)
  {
    if a == [] {
      assert a + b == b;
    } else {
      assert (a + b)[1..] == a[1..] + b;
      SemicolonCut(a[1..], b);
    }
  }

  /** Digits with something else behind them are parsed as those digits. */
  lemma ParseDigits(digits: Bytes, rest: Bytes, n: nat)
    requires SizeDigits(digits, n)
    requires rest == [] || rest[0] in {9, 32}
    ensures ParseHex(digits + rest) == Some(n)
  {
    var text := digits + rest;
    assert text[0] == digits[0];
    assert |text| >= 2 ==> text[1] == if |digits| > 1 then digits[1] else rest[0];
    DigitsValue(digits, rest, 0);
    DigitsAreHex(digits);
  }

  // ---- What is read as a number, and what ends a line or the stream ----

  lemma LineEnds()
    ensures CRLF == ['\r' as int, '\n' as int] && CRLFCRLF == CRLF + CRLF
  {
  }

  lemma SmallDigit(d: nat)
    requires d < 16
    ensures HexDigit("0123456789abcdef"[d] as int) == Some(d)
  {
  }

  lemma CapitalDigit(d: nat)
    requires d < 16
    ensures HexDigit("0123456789ABCDEF"[d] as int) == Some(d)
  {
  }

  /** Hexadecimal digits, small or capital, and nothing else. */
  lemma HexDigitIs(b: Byte)
    ensures forall d: nat :: d < 16 ==> HexDigit("0123456789abcdef"[d] as int) == Some(d)
    ensures forall d: nat :: d < 16 ==> HexDigit("0123456789ABCDEF"[d] as int) == Some(d)
    ensures HexDigit(b).Some? ==>
              var d := HexDigit(b).value;
              d < 16 && (b == "0123456789abcdef"[d] as int || b == "0123456789ABCDEF"[d] as int)
  {
    forall d: nat | d < 16
      ensures HexDigit("0123456789abcdef"[d] as int) == Some(d) && HexDigit("0123456789ABCDEF"[d] as int) == Some(d)
    {
      SmallDigit(d);
      CapitalDigit(d);
    }
    if HexDigit(b).Some? {
      DigitShown(b);
    }
  }

  lemma DigitShown(b: Byte)
    requires HexDigit(b).Some?
    ensures var d := HexDigit(b).value;
            d < 16 && (b == "0123456789abcdef"[d] as int || b == "0123456789ABCDEF"[d] as int)
  {
  }

  /** White space of ASCII, as `trim` and `parseInt` have it. */
  predicate Blank(b: Byte) {
    b in {'\t' as int, '\n' as int, 0x0B, 0x0C, '\r' as int, ' ' as int}
  }

  predicate Sign(text: Bytes) { text == [] || text == ['+' as int] || text == ['-' as int] }

  predicate Prefix(text: Bytes) { text == [] || text == ['0' as int, 'x' as int] || text == ['0' as int, 'X' as int] }

  predicate Prefixed(text: Bytes) { |text| >= 2 && Prefix(text[..2]) }

  lemma {:induction false} BlanksTrimmed(blanks: Bytes, rest: Bytes)
    requires forall i :: 0 <= i < |blanks| ==> Blank(blanks[i])
    requires rest == [] || !Blank(rest[0])
    ensures TrimStart(blanks + rest) == rest
  {
    if blanks == [] {
      assert blanks + rest == rest;
    } else {
      assert (blanks + rest)[1..] == blanks[1..] + rest;
      BlanksTrimmed(blanks[1..], rest);
    }
  }

  lemma UnsignedPlain(v: Bytes)
    requires !Prefixed(v)
    ensures Unsigned(v) == if v == [] || HexDigit(v[0]).None? then None else Some(Digits(v, 0))
  {
    assert |v| >= 2 ==> v[..2] == [v[0], v[1]];
  }

  lemma UnsignedPrefixed(prefix: Bytes, v: Bytes)
    requires Prefix(prefix) && prefix != []
    ensures Unsigned(prefix + v) == if v == [] || HexDigit(v[0]).None? then None else Some(Digits(v, 0))
  {
    hide Digits, HexDigit;
    var u := prefix + v;
    assert u[0] == prefix[0] && u[1] == prefix[1] && u[2..] == v;
  }

  lemma UnsignedReads(prefix: Bytes, digits: Bytes, rest: Bytes)
    requires Prefix(prefix) && digits != [] && forall i :: 0 <= i < |digits| ==> HexDigit(digits[i]).Some?
    requires rest == [] || HexDigit(rest[0]).None?
    requires prefix == [] ==> !Prefixed(digits + rest)
    ensures Unsigned(prefix + (digits + rest)) == Some(HexValue(digits))
  {
    hide HexValue, Digits, HexDigit, Unsigned, Prefixed;
    var v := digits + rest;
    assert v[0] == digits[0];
    if prefix == [] {
      assert prefix + v == v;
      UnsignedPlain(v);
    } else {
      UnsignedPrefixed(prefix, v);
    }
    DigitsValue(digits, rest, 0);
    DigitsAreHex(digits);
  }

  lemma UnsignedNone(prefix: Bytes, rest: Bytes)
    requires Prefix(prefix) && (rest == [] || HexDigit(rest[0]).None?)
    ensures Unsigned(prefix + rest) == None
  {
    if prefix == [] {
      assert prefix + rest == rest;
    } else {
      hide Unsigned;
      UnsignedPrefixed(prefix, rest);
    }
  }

  lemma SignReads(blanks: Bytes, sign: Bytes, u: Bytes)
    requires (forall i :: 0 <= i < |blanks| ==> Blank(blanks[i])) && Sign(sign)
    requires sign == [] && u != [] ==> !Blank(u[0]) && u[0] !in {'+' as int, '-' as int}
    ensures ParseHex(blanks + (sign + u)) ==
            match Unsigned(u)
            case None => None
            case Some(n) => var m: int := n; Some(if sign == ['-' as int] then -m else m)
  {
    hide Unsigned, TrimStart;
    var t := sign + u;
    if sign == [] {
      assert t == u;
    } else {
      assert t[0] == sign[0] && t[1..] == u;
    }
    BlanksTrimmed(blanks, t);
  }

  lemma DigitIsPlain(b: Byte)
    requires HexDigit(b).Some?
    ensures !Blank(b) && b !in {'+' as int, '-' as int}
  {
  }

  /** `parseInt(text, 16)` reads blanks, a sign, `0x` and then digits; what follows them
      does not matter. */
  lemma ParsesNumber(blanks: Bytes, sign: Bytes, prefix: Bytes, digits: Bytes, rest: Bytes)
    requires (forall i :: 0 <= i < |blanks| ==> Blank(blanks[i])) && Sign(sign) && Prefix(prefix)
    requires digits != [] && forall i :: 0 <= i < |digits| ==> HexDigit(digits[i]).Some?
    requires rest == [] || HexDigit(rest[0]).None?
    requires prefix == [] ==> !Prefixed(digits + rest)
    ensures var n: int := HexValue(digits);
            ParseHex(blanks + (sign + (prefix + (digits + rest)))) == Some(if sign == ['-' as int] then -n else n)
  {
    hide HexValue, HexDigit, Unsigned, ParseHex;
    UnsignedReads(prefix, digits, rest);
    var u := prefix + (digits + rest);
    if prefix == [] {
      assert u[0] == digits[0];
      DigitIsPlain(digits[0]);
    } else {
      assert u[0] == prefix[0];
    }
    SignReads(blanks, sign, u);
  }

  /** Without a digit there it is not a number. */
  lemma ParsesNone(blanks: Bytes, sign: Bytes, prefix: Bytes, rest: Bytes)
    requires (forall i :: 0 <= i < |blanks| ==> Blank(blanks[i])) && Sign(sign) && Prefix(prefix)
    requires rest == [] || HexDigit(rest[0]).None?
    requires sign == [] && prefix == [] && rest != [] ==> !Blank(rest[0]) && rest[0] !in {'+' as int, '-' as int}
    ensures ParseHex(blanks + (sign + (prefix + rest))) == None
  {
    hide HexDigit, Unsigned, ParseHex;
    UnsignedNone(prefix, rest);
    assert prefix == [] ==> prefix + rest == rest;
    SignReads(blanks, sign, prefix + rest);
  }

  /** An empty read is the end of the stream. */
  lemma {:induction false} UpcomingStops(a: seq<Bytes>, b: seq<Bytes>)
    requires forall i :: 0 <= i < |a| ==> a[i] != []
    ensures Upcoming(a + [[]] + b) == Flatten(a)
  {
    if a != [] {
      assert (a + [[]] + b)[1..] == a[1..] + [[]] + b;
      UpcomingStops(a[1..], b);
    }
  }

  /** The reader's number is the one the size line spells, whatever extension. */
  lemma SizeLineParses(line: Bytes, n: nat)
    requires SizeLine(line, n)
    ensures ChunkSize(line) == Some(n)
    ensures 13 !in line
  {
    hide ParseHex, HexValue;
    var k :| 1 <= k <= |line| && SizeDigits(line[..k], n) && Extension(line[k..]);
    var digits, ext := line[..k], line[k..];
    assert line == digits + ext;
    SemicolonCut(digits, ext);
    ParseDigits(digits, BeforeSemicolon(ext), n);
  }

  /** A line with no carriage return in it ends at the CRLF behind it. */
  lemma LineEnd(line: Bytes, rest: Bytes)
    requires 13 !in line
    ensures Find(line + CRLF + rest, CRLF, 0) == |line|
  {
    var all := line + CRLF + rest;
    assert all[|line|..|line| + 2] == CRLF;
    assert MatchAt(all, CRLF, |line|);
    forall i | 0 <= i < |line|
      ensures all[i] != 13
    {
      assert all[i] == line[i];
    }
    var at := Find(all, CRLF, 0);
    assert all[at..at + 2][0] == all[at];
  }

  /** One chunk at the front is yielded, and reading goes on behind it. */
  lemma DechunkOne(line: Bytes, chunk: Bytes, rest: Bytes)
    requires SizeLine(line, |chunk|) && chunk != []
    ensures Dechunk(line + CRLF + chunk + CRLF + rest) == [chunk] + Dechunk(rest)
  {
    hide ChunkSize;
    var all := line + CRLF + chunk + CRLF + rest;
    SizeLineParses(line, |chunk|);
    assert all == line + CRLF + (chunk + CRLF + rest);
    LineEnd(line, chunk + CRLF + rest);
    assert all[..|line|] == line && all[|line| + 2..] == chunk + CRLF + rest;
    assert (chunk + CRLF + rest)[..|chunk|] == chunk;
    assert (chunk + CRLF + rest)[|chunk| + 2..] == rest;
  }

  lemma LastChunk(line: Bytes, rest: Bytes)
    requires SizeLine(line, 0)
    ensures Dechunk(line + CRLF + rest) == []
  {
    SizeLineParses(line, 0);
    LineEnd(line, rest);
    assert (line + CRLF + rest)[..|line|] == line;
  }

  /** A body encoded by the RFC (any digits, leading zeros, extensions, trailers)
      yields exactly its chunks, in order. */
  lemma {:induction false} YieldsTheChunks(lines: seq<Bytes>, chunks: seq<Bytes>, last: Bytes, tail: Bytes)
    requires Lines(lines, chunks) && SizeLine(last, 0)
    ensures Dechunk(Enchunk(lines, chunks) + last + CRLF + tail) == chunks
    decreases |lines|
  {
    hide Dechunk;
    if lines == [] {
      assert Enchunk(lines, chunks) + last + CRLF + tail == last + CRLF + tail;
      LastChunk(last, tail);
    } else {
      var rest := Enchunk(lines[1..], chunks[1..]) + last + CRLF + tail;
      assert Enchunk(lines, chunks) + last + CRLF + tail == lines[0] + CRLF + chunks[0] + CRLF + rest;
      YieldsTheChunks(lines[1..], chunks[1..], last, tail);
      DechunkOne(lines[0], chunks[0], rest);
    }
  }

  /** Bytes that have yet to arrive never change a chunk already yielded: an
      unfinished response yields the first few chunks of the finished one. */
  lemma {:induction false} YieldsAsBytesArrive(p: Bytes, q: Bytes)
    requires p <= q
    ensures Dechunk(p) <= Dechunk(q)
    decreases |p|
  {
    hide ChunkSize, Find, Dechunk;
    var nl := Find(p, CRLF, 0);
    if nl < 0 {
      NoLine(p);
    } else {
      FindStable(p, q, CRLF);
      assert p[..nl] == q[..nl];
      var size := ChunkSize(p[..nl]);
      var restP, restQ := p[nl + 2..], q[nl + 2..];
      if size.Some? && 0 < size.value && size.value + 2 <= |restP| {
        OneChunk(p);
        OneChunk(q);
        assert restP[..size.value] == restQ[..size.value];
        YieldsAsBytesArrive(restP[size.value + 2..], restQ[size.value + 2..]);
      } else {
        NoChunk(p);
      }
    }
  }
}
