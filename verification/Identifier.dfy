/**
 Message ids that sort by time (`packages/oc-client/src/identifier.ts`), and the
 string compare that relies on it (`visibleMessages` of
 `packages/oc-client/src/transcript-reducer.ts`).
 */
module Identifier {
  type Byte = x: int | 0 <= x < 256

  const DIGITS := "0123456789"
  const CAPITALS := "ABCDEFGHIJKLMNOPQRSTUVWXYZ"
  const SMALL := "abcdefghijklmnopqrstuvwxyz"
  const CHARS := DIGITS + CAPITALS + SMALL
  const WINDOW := 0x1_0000_0000_0000

  function HexChar(d: nat): char
    requires d < 16
  {
    "0123456789abcdef"[d]
  }

  /** `current >> BigInt(8 * bytes)`. */
  function Shift(current: nat, bytes: nat): nat {
    if bytes == 0 then current else Shift(current, bytes - 1) / 256
  }

  /** The last `k` hexadecimal digits of `n`, most significant first. */
  function Hex(n: nat, k: nat): (s: string)
    ensures |s| == k
  {
    if k == 0 then "" else Hex(n / 16, k - 1) + [HexChar(n % 16)]
  }

  function Tail(random: seq<Byte>): (s: string)
    ensures |s| == |random|
  {
    if random == [] then "" else [CHARS[random[0] % 62]] + Tail(random[1..])
  }

  /** The millisecond of the last id, and how many ids it had. */
  datatype Clock = Clock(last: nat, counter: nat)

  function Tick(clock: Clock, now: nat): Clock {
    if now != clock.last then Clock(now, 1) else Clock(now, clock.counter + 1)
  }

  function Value(clock: Clock): nat { clock.last * 4096 + clock.counter }

  function Id(clock: Clock, random: seq<Byte>): string {
    "msg_" + Hex(Value(clock), 12) + Tail(random)
  }

  class Minter {
    var lastTimestamp: nat
    var counter: nat

    ghost function View(): Clock
      reads this
    {
      Clock(lastTimestamp, counter)
    }

    constructor ()
      ensures View() == Clock(0, 0)
    {
      lastTimestamp, counter := 0, 0;
    }

    /** `mintMessageId`, given the time and the random bytes. */
    method Mint(timestamp: nat, bytes: seq<Byte>) returns (id: string)
      modifies this
      ensures View() == Tick(old(View()), timestamp)
      ensures id == Id(View(), bytes)
    {
      hide Hex, Tail;
      if timestamp != lastTimestamp {
        lastTimestamp := timestamp;
        counter := 0;
      }
      counter := counter + 1;
      var current := timestamp * 4096 + counter;
      var time := Time(current);
      var random := Random(bytes);
      assert "msg_" + time + random == "msg_" + (time + random);
      id := "msg_" + (time + random);
    }
  }

  /** Six bytes, two digits each. */
  method Time(current: nat) returns (time: string)
    ensures time == Hex(current, 12)
  {
    hide Hex, HexChar, Shift;
    time := "";
    for index := 0 to 6
      invariant time == Hex(Shift(current, 6 - index), 2 * index)
    {
      var byte := Shift(current, 5 - index) % 256;
      NextByte(current, 5 - index, 2 * index);
      time := time + [HexChar(byte / 16), HexChar(byte % 16)];
    }
    NoShift(current);
  }

  method Random(bytes: seq<Byte>) returns (random: string)
    ensures random == Tail(bytes)
  {
    random := "";
    for i := 0 to |bytes|
      invariant random + Tail(bytes[i..]) == Tail(bytes)
    {
      assert bytes[i..][1..] == bytes[i + 1..];
      random := random + [CHARS[bytes[i] % 62]];
    }
  }

  lemma NoShift(current: nat)
    ensures Shift(current, 0) == current
  {
  }

  lemma NextByte(current: nat, left: nat, k: nat)
    ensures var byte := Shift(current, left) % 256;
            Hex(Shift(current, left), k + 2)
            == Hex(Shift(current, left + 1), k) + [HexChar(byte / 16), HexChar(byte % 16)]
  {
    TwoDigits(Shift(current, left), k);
  }

  lemma TwoDigits(n: nat, k: nat)
    ensures Hex(n, k + 2) == Hex(n / 256, k) + [HexChar(n % 256 / 16), HexChar(n % 256 % 16)]
  {
    assert Hex(n, k + 2) == Hex(n / 16, k + 1) + [HexChar(n % 16)];
    assert n / 16 / 16 == n / 256 && n / 16 % 16 == n % 256 / 16 && n % 16 == n % 256 % 16;
  }

  // ---- Digits order as the numbers do ----

  /** `a < b` on strings. */
  predicate Less(a: string, b: string) {
    b != "" && (a == "" || a[0] < b[0] || (a[0] == b[0] && Less(a[1..], b[1..])))
  }

  function Power(k: nat): (p: nat)
    ensures p > 0
  {
    if k == 0 then 1 else 16 * Power(k - 1)
  }

  lemma {:induction false} LessAppend(a: string, b: string, c: string, d: string)
    requires |a| == |b|
    ensures Less(a + c, b + d) <==> Less(a, b) || (a == b && Less(c, d))
  {
    if a == "" {
      assert a + c == c && b + d == d;
    } else {
      assert (a + c)[1..] == a[1..] + c && (b + d)[1..] == b[1..] + d;
      LessAppend(a[1..], b[1..], c, d);
      assert a == [a[0]] + a[1..] && b == [b[0]] + b[1..];
    }
  }

  lemma {:induction false} LessIrreflexive(a: string)
    ensures !Less(a, a)
  {
    if a != "" {
      LessIrreflexive(a[1..]);
    }
  }

  lemma MultipleIsFar(d: int, p: nat)
    requires p > 0 && d != 0
    ensures d * p >= p || d * p + p <= 0
  {
    if d > 0 {
      assert (d - 1) * p >= 0;
    } else {
      assert (-d - 1) * p >= 0;
    }
  }

  lemma ModUnique(n: nat, p: nat, q: int, r: nat)
    requires p > 0 && r < p && n == q * p + r
    ensures n % p == r
  {
    var d := n / p - q;
    assert n == n / p * p + n % p;
    assert d * p == r - n % p;
    if d != 0 {
      MultipleIsFar(d, p);
    }
  }

  lemma ModSplit(n: nat, p: nat)
    requires p > 0
    ensures n % (16 * p) == n / 16 % p * 16 + n % 16
  {
    var q := n / 16;
    assert q == q / p * p + q % p;
    assert n == q / p * (16 * p) + (q % p * 16 + n % 16) by {
      assert q / p * (16 * p) == q / p * p * 16;
    }
    ModUnique(n, 16 * p, q / p, q % p * 16 + n % 16);
  }

  lemma DigitOrder(d: nat, e: nat)
    requires d < 16 && e < 16
    ensures Less([HexChar(d)], [HexChar(e)]) <==> d < e
    ensures HexChar(d) == HexChar(e) <==> d == e
  {
  }

  lemma {:induction false} HexOrder(n: nat, m: nat, k: nat)
    ensures Less(Hex(n, k), Hex(m, k)) <==> n % Power(k) < m % Power(k)
    ensures Hex(n, k) == Hex(m, k) <==> n % Power(k) == m % Power(k)
  {
    hide HexChar;
    if k > 0 {
      HexOrder(n / 16, m / 16, k - 1);
      ModSplit(n, Power(k - 1));
      ModSplit(m, Power(k - 1));
      DigitOrder(n % 16, m % 16);
      LessAppend(Hex(n / 16, k - 1), Hex(m / 16, k - 1), [HexChar(n % 16)], [HexChar(m % 16)]);
      assert Hex(n, k) == Hex(m, k) <==> Hex(n / 16, k - 1) == Hex(m / 16, k - 1) && HexChar(n % 16) == HexChar(m % 16) by {
        assert Hex(n, k)[..k - 1] == Hex(n / 16, k - 1) && Hex(n, k)[k - 1] == HexChar(n % 16);
        assert Hex(m, k)[..k - 1] == Hex(m / 16, k - 1) && Hex(m, k)[k - 1] == HexChar(m % 16);
      }
    }
  }

  lemma PowerTwelve()
    ensures Power(12) == WINDOW
  {
    assert Power(4) == 0x1_0000;
    assert Power(8) == 0x1_0000_0000;
  }

  /** The 12 digits order as strings exactly as the numbers modulo 2^48 do. */
  lemma PrefixOrder(n: nat, m: nat)
    ensures Less(Hex(n, 12), Hex(m, 12)) <==> n % WINDOW < m % WINDOW
    ensures Hex(n, 12) == Hex(m, 12) <==> n % WINDOW == m % WINDOW
  {
    HexOrder(n, m, 12);
    PowerTwelve();
  }

  /** Whole ids: the digits decide, and the random part only when they are equal. */
  lemma IdOrder(a: Clock, b: Clock, ra: seq<Byte>, rb: seq<Byte>)
    ensures Less(Id(a, ra), Id(b, rb))
            <==> Value(a) % WINDOW < Value(b) % WINDOW
                 || (Value(a) % WINDOW == Value(b) % WINDOW && Less(Tail(ra), Tail(rb)))
  {
    hide Hex;
    var x, y := Hex(Value(a), 12), Hex(Value(b), 12);
    PrefixOrder(Value(a), Value(b));
    assert "msg_" + x + Tail(ra) == "msg_" + (x + Tail(ra));
    assert "msg_" + y + Tail(rb) == "msg_" + (y + Tail(rb));
    LessAppend("msg_", "msg_", x + Tail(ra), y + Tail(rb));
    LessIrreflexive("msg_");
    LessAppend(x, y, Tail(ra), Tail(rb));
  }

  // ---- What an id spells ----

  function HexDigit(c: char): nat {
    if '0' <= c <= '9' then c as nat - '0' as nat
    else if 'a' <= c <= 'f' then 10 + (c as nat - 'a' as nat)
    else 0
  }

  /** The number hexadecimal digits spell. */
  function HexNumber(digits: string): nat {
    if digits == "" then 0
    else 16 * HexNumber(digits[..|digits| - 1]) + HexDigit(digits[|digits| - 1])
  }

  lemma DigitSpells(d: nat)
    requires d < 16
    ensures HexDigit(HexChar(d)) == d
  {
  }

  lemma {:induction false} HexSpells(n: nat, k: nat)
    ensures HexNumber(Hex(n, k)) == n % Power(k)
  {
    hide HexChar, HexDigit;
    if k > 0 {
      var digits := Hex(n, k);
      HexSpells(n / 16, k - 1);
      ModSplit(n, Power(k - 1));
      DigitSpells(n % 16);
      assert digits[..k - 1] == Hex(n / 16, k - 1) && digits[k - 1] == HexChar(n % 16);
    }
  }

  /** Digits, then capitals, then small letters. */
  function Base62(d: nat): char
    requires d < 62
  {
    if d < 10 then '0' + d as char else if d < 36 then 'A' + (d - 10) as char else 'a' + (d - 36) as char
  }

  lemma {:induction false} TailAt(random: seq<Byte>, i: nat)
    requires i < |random|
    ensures Tail(random)[i] == Base62(random[i] % 62)
  {
    if i == 0 {
      CharsAre(random[0] % 62);
    } else {
      TailAt(random[1..], i - 1);
    }
  }

  lemma CharsAre(d: nat)
    requires d < 62
    ensures CHARS[d] == Base62(d)
  {
    assert d < 10 ==> CHARS[d] == DIGITS[d];
    assert 10 <= d < 36 ==> CHARS[d] == CAPITALS[d - 10];
    assert 36 <= d ==> CHARS[d] == SMALL[d - 36];
  }

  /** An id is its prefix, the number behind it modulo 2^48 in twelve hexadecimal digits,
      and one character of 62 for each random byte. */
  lemma IdSpells(clock: Clock, random: seq<Byte>)
    ensures var id := Id(clock, random);
            && |id| == 16 + |random| && id[..4] == "msg_"
            && HexNumber(id[4..16]) == Value(clock) % WINDOW
            && forall i :: 0 <= i < |random| ==> id[16 + i] == Base62(random[i] % 62)
  {
    hide Hex, HexNumber, Base62, Tail;
    var id := Id(clock, random);
    assert id[4..16] == Hex(Value(clock), 12);
    HexSpells(Value(clock), 12);
    PowerTwelve();
    forall i | 0 <= i < |random|
      ensures id[16 + i] == Base62(random[i] % 62)
    {
      TailAt(random, i);
    }
  }

  // ---- A run of mints ----

  /** The minter behind each of the ids minted at these times. */
  function Clocks(clock: Clock, times: seq<nat>): (r: seq<Clock>)
    ensures |r| == |times|
    decreases |times|
  {
    if times == [] then [] else [Tick(clock, times[0])] + Clocks(Tick(clock, times[0]), times[1..])
  }

  ghost predicate Nondecreasing(times: seq<nat>) {
    forall i, j :: 0 <= i < j < |times| ==> times[i] <= times[j]
  }

  /** Before the clock moves on, a millisecond has had no more ids than 4096 for
      each millisecond it moves. */
  ghost predicate RoomBefore(clock: Clock, now: nat) {
    now == clock.last || clock.counter <= (now - clock.last) * 4096
  }

  ghost predicate Room(clocks: seq<Clock>) {
    forall i, j :: 0 <= i && j == i + 1 < |clocks| ==> RoomBefore(clocks[i], clocks[j].last)
  }

  ghost predicate Increasing(clocks: seq<Clock>) {
    forall i, j :: 0 <= i < j < |clocks| ==> Value(clocks[i]) < Value(clocks[j])
  }

  lemma {:induction false} ClocksStep(clock: Clock, times: seq<nat>, i: nat)
    requires i < |times|
    ensures Clocks(clock, times)[i] == Tick(if i == 0 then clock else Clocks(clock, times)[i - 1], times[i])
    ensures Clocks(clock, times)[i].last == times[i]
    decreases |times|
  {
    if i > 0 {
      ClocksStep(Tick(clock, times[0]), times[1..], i - 1);
    }
  }

  lemma TickIncreases(clock: Clock, now: nat)
    requires clock.last <= now
    ensures Value(clock) < Value(Tick(clock, now)) <==> RoomBefore(clock, now)
  {
  }

  lemma {:induction false} IncreasingFromSteps(clocks: seq<Clock>, i: nat, j: nat)
    requires forall k, l :: 0 <= k && l == k + 1 < |clocks| ==> Value(clocks[k]) < Value(clocks[l])
    requires i < j < |clocks|
    ensures Value(clocks[i]) < Value(clocks[j])
    decreases j
  {
    assert Value(clocks[j - 1]) < Value(clocks[j]);
    if i < j - 1 {
      IncreasingFromSteps(clocks, i, j - 1);
    }
  }

  /** With a clock that never goes back, the numbers behind the ids increase in the
      order of minting exactly when there was room before every step of it. */
  lemma IncreasingIffRoom(times: seq<nat>)
    requires Nondecreasing(times)
    ensures Increasing(Clocks(Clock(0, 0), times)) <==> Room(Clocks(Clock(0, 0), times))
  {
    var clocks := Clocks(Clock(0, 0), times);
    forall k, l | 0 <= k && l == k + 1 < |clocks|
      ensures Value(clocks[k]) < Value(clocks[l]) <==> RoomBefore(clocks[k], clocks[l].last)
    {
      ClocksStep(Clock(0, 0), times, k);
      ClocksStep(Clock(0, 0), times, l);
      TickIncreases(clocks[k], times[l]);
    }
    if Room(clocks) {
      forall i, j | 0 <= i < j < |clocks|
        ensures Value(clocks[i]) < Value(clocks[j])
      {
        IncreasingFromSteps(clocks, i, j);
      }
    }
  }

  /** How often a time is among these. */
  function Count(times: seq<nat>, time: nat): nat {
    if times == [] then 0
    else Count(times[..|times| - 1], time) + if times[|times| - 1] == time then 1 else 0
  }

  lemma {:induction false} CountNone(times: seq<nat>, time: nat)
    requires time !in times
    ensures Count(times, time) == 0
  {
    if times != [] {
      CountNone(times[..|times| - 1], time);
    }
  }

  lemma {:induction false} CountPrefix(times: seq<nat>, k: nat, time: nat)
    requires k <= |times|
    ensures Count(times[..k], time) <= Count(times, time)
  {
    if k < |times| {
      CountPrefix(times[..|times| - 1], k, time);
      assert times[..|times| - 1][..k] == times[..k];
    } else {
      assert times[..k] == times;
    }
  }

  /** The counter behind an id is how many the millisecond has had. */
  lemma {:induction false} CounterCounts(times: seq<nat>, k: nat)
    requires Nondecreasing(times) && k < |times|
    ensures Clocks(Clock(0, 0), times)[k] == Clock(times[k], Count(times[..k + 1], times[k]))
  {
    hide Clocks;
    ClocksStep(Clock(0, 0), times, k);
    assert times[..k + 1][..k] == times[..k];
    if k == 0 {
      CountNone([], times[0]);
    } else {
      CounterCounts(times, k - 1);
      if times[k] != times[k - 1] {
        CountNone(times[..k], times[k]);
      }
    }
  }

  /** 4096 ids a millisecond always leave room. */
  lemma EnoughRoom(times: seq<nat>)
    requires Nondecreasing(times) && forall time :: Count(times, time) <= 4096
    ensures Room(Clocks(Clock(0, 0), times))
  {
    hide Clocks, Count;
    var clocks := Clocks(Clock(0, 0), times);
    forall i, j | 0 <= i && j == i + 1 < |clocks|
      ensures RoomBefore(clocks[i], clocks[j].last)
    {
      CounterCounts(times, i);
      CounterCounts(times, j);
      CountPrefix(times, i + 1, times[i]);
      assert Count(times, times[i]) <= 4096;
    }
  }

  function Ids(clocks: seq<Clock>, random: seq<seq<Byte>>): (ids: seq<string>)
    requires |random| == |clocks|
    ensures |ids| == |clocks|
  {
    seq(|clocks|, i requires 0 <= i < |clocks| => Id(clocks[i], random[i]))
  }

  ghost predicate OneWindow(clocks: seq<Clock>) {
    forall i, j :: 0 <= i < |clocks| && 0 <= j < |clocks| ==> Value(clocks[i]) / WINDOW == Value(clocks[j]) / WINDOW
  }

  ghost predicate Orderly(times: seq<nat>) {
    Nondecreasing(times) && Room(Clocks(Clock(0, 0), times)) && OneWindow(Clocks(Clock(0, 0), times))
  }

  /** Ids minted by a clock that never goes back, with room and inside one window of
      2^48 (2^36 ms), are in string order, whatever the random parts. */
  lemma MintOrder(times: seq<nat>, random: seq<seq<Byte>>, i: nat, j: nat)
    requires Orderly(times) && |random| == |times| && i < j < |times|
    ensures var ids := Ids(Clocks(Clock(0, 0), times), random);
            Less(ids[i], ids[j]) && !Less(ids[j], ids[i])
  {
    hide Id, Clocks;
    var clocks := Clocks(Clock(0, 0), times);
    IncreasingIffRoom(times);
    assert Value(clocks[i]) / WINDOW == Value(clocks[j]) / WINDOW;
    IdOrder(clocks[i], clocks[j], random[i], random[j]);
    IdOrder(clocks[j], clocks[i], random[j], random[i]);
  }

  /** `visibleMessages` on the ids: those before the boundary. */
  function VisibleIds(ids: seq<string>, boundary: string): seq<string> {
    if ids == [] then []
    else (if Less(ids[0], boundary) then [ids[0]] else []) + VisibleIds(ids[1..], boundary)
  }

  lemma {:induction false} VisibleSplit(a: seq<string>, b: seq<string>, boundary: string)
    requires forall id :: id in a ==> Less(id, boundary)
    requires forall id :: id in b ==> !Less(id, boundary)
    ensures VisibleIds(a + b, boundary) == a
    decreases |a| + |b|
  {
    if a != [] {
      assert (a + b)[1..] == a[1..] + b;
      VisibleSplit(a[1..], b, boundary);
    } else if b != [] {
      assert a + b == b && [] + b[1..] == b[1..];
      VisibleSplit([], b[1..], boundary);
    }
  }

  /** A revert to a minted message leaves exactly the ones minted before it. */
  lemma RevertShowsEarlier(times: seq<nat>, random: seq<seq<Byte>>, k: nat)
    requires Orderly(times) && |random| == |times| && k < |times|
    ensures var ids := Ids(Clocks(Clock(0, 0), times), random);
            VisibleIds(ids, ids[k]) == ids[..k]
  {
    hide Orderly, Clocks, Ids, Less;
    var ids := Ids(Clocks(Clock(0, 0), times), random);
    forall id | id in ids[..k]
      ensures Less(id, ids[k])
    {
      var i :| 0 <= i < k && ids[i] == id;
      MintOrder(times, random, i, k);
    }
    forall id | id in ids[k..]
      ensures !Less(id, ids[k])
    {
      var i :| k <= i < |ids| && ids[i] == id;
      if i == k {
        LessIrreflexive(id);
      } else {
        MintOrder(times, random, k, i);
      }
    }
    VisibleSplit(ids[..k], ids[k..], ids[k]);
    assert ids == ids[..k] + ids[k..];
  }
}
