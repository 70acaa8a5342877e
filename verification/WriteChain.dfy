/**
 The write chain of one stream (`IrohWireTransport.send`, `IrohPeerServer.send`):
 each `send` encodes at once and chains its `writeAll` behind the ones before it;
 a failed write is caught, so the chain goes on.

 One `writeAll` puts its bytes on the stream a few at a time, and other sends may
 come in between.
 */
module WriteChain {
  import opened Utf8
  import opened WireFrame

  /** `sent`: the payloads in the order of their `send` calls. `next` of them are
      settled; when `active`, `written` bytes of the frame of `sent[next]` are on the
      stream. `clean` is the stream as the first failed write left it. `left`: how many
      bytes of its frame each settled write has left on the stream. */
  datatype Chain = Chain(
    sent: seq<Bytes>, next: nat, active: bool, written: nat,
    stream: Bytes, failed: bool, clean: Bytes, left: seq<nat>)

  const Fresh := Chain([], 0, false, 0, [], false, [], [])

  datatype Event = Send(payload: Bytes) | Begin | Put(n: nat) | Done | Fail

  ghost predicate Can(c: Chain, e: Event) {
    match e
    case Send(payload) => |payload| > 0
    case Begin => !c.active && c.next < |c.sent|
    case Put(n) => c.active && c.next < |c.sent| && Fits(c.sent[c.next])
                   && c.written + n <= |FrameOf(c.sent[c.next])|
    case Done => c.active && c.next < |c.sent| && Fits(c.sent[c.next])
                 && c.written == |FrameOf(c.sent[c.next])|
    case Fail => c.active
  }

  ghost function Step(c: Chain, e: Event): Chain
    requires Can(c, e)
  {
    match e
    // An over-long message throws before anything is chained.
    case Send(payload) => if EncodeFrame(payload).TooLong? then c else c.(sent := c.sent + [payload])
    case Begin => c.(active := true, written := 0)
    case Put(n) =>
      c.(written := c.written + n,
         stream := c.stream + FrameOf(c.sent[c.next])[c.written..c.written + n])
    case Done => c.(active := false, next := c.next + 1, left := c.left + [c.written])
    case Fail =>
      c.(active := false, next := c.next + 1, failed := true, left := c.left + [c.written],
         clean := if c.failed then c.clean else c.stream)
  }

  ghost predicate Run(c: Chain, es: seq<Event>, c': Chain)
    decreases |es|
  {
    if es == [] then c' == c else Can(c, es[0]) && Run(Step(c, es[0]), es[1..], c')
  }

  /** Whole frames of the first `k` payloads and a piece of the next one. */
  ghost predicate WholeFrames(bytes: Bytes, sent: seq<Bytes>, k: nat, piece: nat) {
    AllFit(sent) && k <= |sent|
    && (if k < |sent| then piece <= |FrameOf(sent[k])| else piece == 0)
    && bytes == Frames(sent[..k]) + if k < |sent| then FrameOf(sent[k])[..piece] else []
  }

  ghost predicate Inv(c: Chain) {
    && AllFit(c.sent)
    && c.next <= |c.sent|
    && (c.active ==> c.next < |c.sent| && c.written <= |FrameOf(c.sent[c.next])|)
    && (!c.failed ==> WholeFrames(c.stream, c.sent, c.next, if c.active then c.written else 0))
    && (c.failed ==> c.clean <= c.stream && exists k, piece :: WholeFrames(c.clean, c.sent, k, piece))
  }

  lemma {:induction false} FramesAppend(a: seq<Bytes>, payload: Bytes)
    requires AllFit(a) && Fits(payload)
    ensures AllFit(a + [payload])
    ensures Frames(a + [payload]) == Frames(a) + FrameOf(payload)
  {
    if a == [] {
      assert a + [payload] == [payload];
    } else {
      FramesAppend(a[1..], payload);
      assert (a + [payload])[1..] == a[1..] + [payload];
    }
  }

  lemma WholeFramesGrow(bytes: Bytes, sent: seq<Bytes>, k: nat, piece: nat, payload: Bytes)
    requires WholeFrames(bytes, sent, k, piece) && Fits(payload)
    ensures WholeFrames(bytes, sent + [payload], k, piece)
  {
    assert (sent + [payload])[..k] == sent[..k];
  }

  lemma StepInv(c: Chain, e: Event)
    requires Inv(c) && Can(c, e)
    ensures Inv(Step(c, e))
  {
    hide FrameOf;
    var c' := Step(c, e);
    match e
    case Send(payload) =>
      if Fits(payload) {
        if c.failed {
          var k, piece :| WholeFrames(c.clean, c.sent, k, piece);
          WholeFramesGrow(c.clean, c.sent, k, piece, payload);
        } else {
          WholeFramesGrow(c.stream, c.sent, c.next, if c.active then c.written else 0, payload);
        }
      }
    case Begin =>
    case Put(n) =>
      var frame := FrameOf(c.sent[c.next]);
      assert frame[..c.written] + frame[c.written..c.written + n] == frame[..c.written + n];
    case Done =>
      if !c.failed {
        FramesAppend(c.sent[..c.next], c.sent[c.next]);
        assert c.sent[..c.next + 1] == c.sent[..c.next] + [c.sent[c.next]];
      }
    case Fail =>
      if !c.failed {
        assert WholeFrames(c'.clean, c.sent, c.next, c.written);
      }
  }

  lemma {:induction false} RunInv(c: Chain, es: seq<Event>, c': Chain)
    requires Inv(c) && Run(c, es, c')
    ensures Inv(c')
    decreases |es|
  {
    if es != [] {
      StepInv(c, es[0]);
      RunInv(Step(c, es[0]), es[1..], c');
    }
  }

  lemma {:induction false} FramesPrefix(sent: seq<Bytes>, k: nat, piece: nat)
    requires AllFit(sent) && k <= |sent|
    requires if k < |sent| then piece <= |FrameOf(sent[k])| else piece == 0
    ensures Frames(sent[..k]) + (if k < |sent| then FrameOf(sent[k])[..piece] else []) <= Frames(sent)
  {
    if k == 0 {
    } else {
      var rest := sent[1..];
      FramesPrefix(rest, k - 1, piece);
      assert sent[..k][1..] == rest[..k - 1];
    }
  }

  lemma WholeFramesPrefix(bytes: Bytes, sent: seq<Bytes>, k: nat, piece: nat)
    requires WholeFrames(bytes, sent, k, piece)
    ensures bytes <= Frames(sent)
    ensures k == |sent| ==> bytes == Frames(sent)
  {
    FramesPrefix(sent, k, piece);
    assert sent[..|sent|] == sent;
  }

  /** Whatever has arrived of what was put on the stream before a write failed, the
      reader has recovered the first few payloads in the order of their `send`
      calls; once everything is written and has arrived, all of them. */
  lemma ReaderGetsSendOrder(es: seq<Event>, c: Chain, arrived: Bytes)
    requires Run(Fresh, es, c)
    requires arrived <= if c.failed then c.clean else c.stream
    ensures ReadAll(arrived).payloads <= c.sent
    ensures !c.failed && c.next == |c.sent| && arrived == c.stream ==> ReadAll(arrived).payloads == c.sent
  {
    assert Inv(Fresh);
    RunInv(Fresh, es, c);
    if c.failed {
      var k, piece :| WholeFrames(c.clean, c.sent, k, piece);
      WholeFramesPrefix(c.clean, c.sent, k, piece);
    } else {
      WholeFramesPrefix(c.stream, c.sent, c.next, if c.active then c.written else 0);
    }
    ReadMonotone(arrived, Frames(c.sent));
    ReadsBack(c.sent);
  }

  lemma BrokenStream()
    ensures ReadAll([0, 0, 0, 2, 0, 0, 0, 1, 3]) == Read([[0, 0]], StreamEnd)
  {
    var stream: Bytes := [0, 0, 0, 2, 0, 0, 0, 1, 3];
    assert DecodeLength(stream[..4]) == Length.Bytes(2);
    assert stream[4..6] == [0, 0] && stream[6..] == [0, 1, 3];
  }

  const Broken := Chain([[1, 2]], 1, false, 4, [0, 0, 0, 2], true, [0, 0, 0, 2], [4])
  const Misled := Chain([[1, 2], [3]], 2, false, 5, [0, 0, 0, 2, 0, 0, 0, 1, 3], true, [0, 0, 0, 2], [4, 5])

  lemma AfterBroken() returns (es: seq<Event>)
    ensures Run(Broken, es, Misled)
  {
    var sent := [[1, 2], [3]];
    assert FrameOf([3]) == [0, 0, 0, 1, 3] && FrameOf([3])[0..5] == FrameOf([3]);
    assert [0, 0, 0, 2] + FrameOf([3]) == Misled.stream && [[1, 2]] + [[3]] == sent;
    es := [];
    es := Behind(Misled.(active := true, next := 1, left := [4]), Done, es, Misled);
    es := Behind(Broken.(sent := sent, active := true, written := 0), Put(5), es, Misled);
    es := Behind(Broken.(sent := sent), Begin, es, Misled);
    es := Behind(Broken, Send([3]), es, Misled);
  }

  lemma UntilBroken(es: seq<Event>, last: Chain) returns (all: seq<Event>)
    requires Run(Broken, es, last)
    ensures Run(Fresh.(sent := [[1, 2]]), all, last)
  {
    var c := Fresh.(sent := [[1, 2]]);
    assert FrameOf([1, 2])[0..4] == [0, 0, 0, 2] && [] + [0, 0, 0, 2] == [0, 0, 0, 2] && c.left + [4] == [4];
    all := Behind(c.(active := true, written := 4, stream := [0, 0, 0, 2]), Fail, es, last);
    all := Behind(c.(active := true), Put(4), all, last);
    all := Behind(c, Begin, all, last);
  }

  /** Behind a write that failed half way the reader can go wrong: the chain goes
      on, and the next frame is read as the rest of the broken one. */
  lemma BrokenFrameMisleads() returns (es: seq<Event>)
    ensures Run(Fresh, es, Misled) && !(ReadAll(Misled.stream).payloads <= Misled.sent)
  {
    es := AfterBroken();
    es := UntilBroken(es, Misled);
    assert Fresh.sent + [[1, 2]] == [[1, 2]];
    es := Behind(Fresh, Send([1, 2]), es, Misled);
    BrokenStream();
    assert ReadAll(Misled.stream).payloads[0] == [0, 0] && Misled.sent[0] == [1, 2];
  }

  lemma Behind(c: Chain, e: Event, es: seq<Event>, c': Chain) returns (es': seq<Event>)
    requires Can(c, e) && Run(Step(c, e), es, c')
    ensures Run(c, es', c')
  {
    es' := [e] + es;
    assert es'[1..] == es;
  }

  // ---- What failed writes leave on the stream ----

  /** Of each frame as many bytes as were put. */
  function Laid(sent: seq<Bytes>, put: seq<nat>): Bytes
    requires AllFit(sent) && |put| <= |sent| && NoMore(sent, put)
    decreases |put|
  {
    if put == [] then [] else FrameOf(sent[0])[..put[0]] + Laid(sent[1..], put[1..])
  }

  predicate NoMore(sent: seq<Bytes>, put: seq<nat>)
    requires AllFit(sent) && |put| <= |sent|
  {
    forall i :: 0 <= i < |put| ==> put[i] <= |FrameOf(sent[i])|
  }

  ghost predicate CanLay(sent: seq<Bytes>, put: seq<nat>) { AllFit(sent) && |put| <= |sent| && NoMore(sent, put) }

  /** How many bytes each write, the one under way included, has put. */
  function PutBy(c: Chain): seq<nat> { if c.active then c.left + [c.written] else c.left }

  ghost predicate OnStream(c: Chain) {
    && |c.left| == c.next
    && CanLay(c.sent, PutBy(c))
    && c.stream == Laid(c.sent, PutBy(c))
  }

  lemma {:induction false} LaidAppend(sent: seq<Bytes>, put: seq<nat>, n: nat)
    requires CanLay(sent, put) && |put| < |sent| && n <= |FrameOf(sent[|put|])|
    ensures CanLay(sent, put + [n])
    ensures Laid(sent, put + [n]) == Laid(sent, put) + FrameOf(sent[|put|])[..n]
    decreases |put|
  {
    hide FrameOf;
    if put == [] {
      assert ([] + [n])[1..] == [];
    } else {
      LaidAppend(sent[1..], put[1..], n);
      assert (put + [n])[1..] == put[1..] + [n];
    }
  }

  lemma {:induction false} LaidGrow(sent: seq<Bytes>, put: seq<nat>, payload: Bytes)
    requires CanLay(sent, put) && Fits(payload)
    ensures CanLay(sent + [payload], put) && Laid(sent + [payload], put) == Laid(sent, put)
    decreases |put|
  {
    hide FrameOf;
    if put != [] {
      LaidGrow(sent[1..], put[1..], payload);
      assert (sent + [payload])[1..] == sent[1..] + [payload];
    }
  }

  lemma SendOnStream(c: Chain, payload: Bytes)
    requires OnStream(c) && Can(c, Send(payload))
    ensures OnStream(Step(c, Send(payload)))
  {
    hide FrameOf, Laid, NoMore;
    if Fits(payload) {
      LaidGrow(c.sent, PutBy(c), payload);
    }
  }

  lemma PutOnStream(c: Chain, n: nat)
    requires OnStream(c) && Can(c, Put(n))
    ensures OnStream(Step(c, Put(n)))
  {
    hide FrameOf, Laid;
    var frame := FrameOf(c.sent[c.next]);
    LaidButLast(c.sent, c.left, c.written);
    LaidAppend(c.sent, c.left, c.written);
    LaidAppend(c.sent, c.left, c.written + n);
    assert frame[..c.written] + frame[c.written..c.written + n] == frame[..c.written + n];
  }

  lemma LaidButLast(sent: seq<Bytes>, put: seq<nat>, n: nat)
    requires CanLay(sent, put + [n])
    ensures CanLay(sent, put) && |put| < |sent| && n <= |FrameOf(sent[|put|])|
  {
    hide FrameOf;
    assert forall i :: 0 <= i < |put| ==> (put + [n])[i] == put[i];
    assert (put + [n])[|put|] == n;
  }

  lemma StepOnStream(c: Chain, e: Event)
    requires Inv(c) && OnStream(c) && Can(c, e)
    ensures OnStream(Step(c, e))
  {
    hide FrameOf, WholeFrames, Laid, NoMore;
    match e
    case Send(payload) => SendOnStream(c, payload);
    case Begin => LaidAppend(c.sent, c.left, 0);
    case Put(n) => PutOnStream(c, n);
    case Done =>
    case Fail =>
  }

  lemma {:induction false} RunOnStream(c: Chain, es: seq<Event>, c': Chain)
    requires Inv(c) && OnStream(c) && Run(c, es, c')
    ensures Inv(c') && OnStream(c')
    decreases |es|
  {
    hide Inv, OnStream, Can, Step;
    if es != [] {
      StepInv(c, es[0]);
      StepOnStream(c, es[0]);
      RunOnStream(Step(c, es[0]), es[1..], c');
    }
  }

  /** The payloads whose frames were put whole, whether or not their write settled well. */
  function Whole(sent: seq<Bytes>, put: seq<nat>): (whole: seq<Bytes>)
    requires CanLay(sent, put)
    ensures AllFit(whole)
    decreases |put|
  {
    if put == [] then []
    else (if put[0] == |FrameOf(sent[0])| then [sent[0]] else []) + Whole(sent[1..], put[1..])
  }

  ghost predicate Subsequence(a: seq<Bytes>, b: seq<Bytes>)
    decreases |b|
  {
    a == [] || (b != [] && ((a[0] == b[0] && Subsequence(a[1..], b[1..])) || Subsequence(a, b[1..])))
  }

  /** A piece of the first frame was put: neither nothing nor all of it. */
  predicate Piece(sent: seq<Bytes>, put: seq<nat>)
    requires CanLay(sent, put)
  {
    put != [] && 0 < put[0] < |FrameOf(sent[0])|
  }

  /** Some frame was left in pieces with more bytes behind it. */
  predicate Torn(sent: seq<Bytes>, put: seq<nat>)
    requires CanLay(sent, put)
    decreases |put|
  {
    put != [] && ((Piece(sent, put) && Laid(sent[1..], put[1..]) != []) || Torn(sent[1..], put[1..]))
  }

  /** A whole frame the header check accepts is at the front. */
  predicate Opens(stream: Bytes) {
    && |stream| >= HEADER_BYTES
    && var length := DecodeLength(stream[..HEADER_BYTES]);
       length.Bytes? && |stream| >= HEADER_BYTES + length.n
  }

  /** Where the reader begins a frame it delivers. */
  function ReadAt(stream: Bytes, at: nat): (starts: set<nat>)
    ensures forall k :: k in starts ==> k >= at
    decreases |stream|
  {
    if !Opens(stream) then {}
    else
      var n := HEADER_BYTES + DecodeLength(stream[..HEADER_BYTES]).n;
      {at} + ReadAt(stream[n..], at + n)
  }

  /** Where a frame that was put whole begins. */
  function WholeAt(sent: seq<Bytes>, put: seq<nat>, at: nat): (starts: set<nat>)
    requires CanLay(sent, put)
    ensures forall k :: k in starts ==> k >= at
    decreases |put|
  {
    if put == [] then {}
    else (if put[0] == |FrameOf(sent[0])| then {at} else {}) + WholeAt(sent[1..], put[1..], at + put[0])
  }

  /** The first piece with more behind it, together with these, makes up a frame. */
  predicate Swallows(sent: seq<Bytes>, put: seq<nat>)
    requires CanLay(sent, put)
    decreases |put|
  {
    put != [] && if Piece(sent, put) then Opens(Laid(sent, put)) else Swallows(sent[1..], put[1..])
  }

  /** A frame was put whole behind the first piece. */
  predicate Cut(sent: seq<Bytes>, put: seq<nat>)
    requires CanLay(sent, put)
    decreases |put|
  {
    put != [] && if Piece(sent, put) then Whole(sent[1..], put[1..]) != [] else Cut(sent[1..], put[1..])
  }

  lemma RestLays(sent: seq<Bytes>, put: seq<nat>)
    requires CanLay(sent, put) && put != []
    ensures CanLay(sent[1..], put[1..])
  {
    assert forall i :: 0 <= i < |put| - 1 ==> put[1..][i] == put[i + 1] && sent[1..][i] == sent[i + 1];
  }

  lemma FrameOpens(payload: Bytes, rest: Bytes)
    requires Fits(payload)
    ensures var stream := FrameOf(payload) + rest;
            && Opens(stream)
            && DecodeLength(stream[..HEADER_BYTES]).n == |payload|
            && stream[HEADER_BYTES + |payload|..] == rest
  {
    var stream := FrameOf(payload) + rest;
    LengthRoundTrip(|payload|);
    assert stream[..HEADER_BYTES] == Header(|payload|);
  }

  /** With its header out, a piece opens the stream once as many bytes follow as it
      lacks; without them it opens nothing. */
  lemma PieceOpens(payload: Bytes, n: nat, rest: Bytes)
    requires Fits(payload) && HEADER_BYTES <= n < |FrameOf(payload)|
    ensures var stream := FrameOf(payload)[..n] + rest;
            && (Opens(stream) <==> |stream| >= |FrameOf(payload)|)
            && DecodeLength(stream[..HEADER_BYTES]) == Length.Bytes(|payload|)
  {
    var stream := FrameOf(payload)[..n] + rest;
    LengthRoundTrip(|payload|);
    assert stream[..HEADER_BYTES] == Header(|payload|);
  }

  lemma NothingOpens(payload: Bytes, n: nat)
    requires Fits(payload) && n < |FrameOf(payload)|
    ensures !Opens(FrameOf(payload)[..n] + [])
  {
    if n >= HEADER_BYTES {
      PieceOpens(payload, n, []);
    }
  }

  lemma ReadsClosed(stream: Bytes)
    requires !Opens(stream)
    ensures ReadAll(stream).payloads == []
  {
  }

  lemma ReadsOpen(stream: Bytes)
    requires Opens(stream)
    ensures var end := HEADER_BYTES + DecodeLength(stream[..HEADER_BYTES]).n;
            ReadAll(stream).payloads == [stream[HEADER_BYTES..end]] + ReadAll(stream[end..]).payloads
  {
  }

  lemma {:induction false} NothingLaid(sent: seq<Bytes>, put: seq<nat>)
    requires CanLay(sent, put) && Laid(sent, put) == []
    ensures Whole(sent, put) == []
    decreases |put|
  {
    if put != [] {
      RestLays(sent, put);
      NothingLaid(sent[1..], put[1..]);
    }
  }

  /** Without a torn frame the reader delivers exactly what was put whole. */
  lemma {:induction false} UntornReads(sent: seq<Bytes>, put: seq<nat>)
    requires CanLay(sent, put) && !Torn(sent, put)
    ensures ReadAll(Laid(sent, put)).payloads == Whole(sent, put)
    decreases |put|
  {
    hide DecodeLength, Opens;
    if put != [] {
      RestLays(sent, put);
      var behind := Laid(sent[1..], put[1..]);
      if put[0] == |FrameOf(sent[0])| {
        assert Laid(sent, put) == FrameOf(sent[0]) + behind;
        ReadFrame(sent[0], behind);
        UntornReads(sent[1..], put[1..]);
      } else if put[0] == 0 {
        assert Laid(sent, put) == behind;
        UntornReads(sent[1..], put[1..]);
      } else {
        NothingLaid(sent[1..], put[1..]);
        NothingOpens(sent[0], put[0]);
        ReadsClosed(Laid(sent, put));
      }
    }
  }

  lemma PieceReads(sent: seq<Bytes>, put: seq<nat>, at: nat)
    requires CanLay(sent, put) && Piece(sent, put)
    ensures ReadAt(Laid(sent, put), at) <= WholeAt(sent, put, at) <==> !Opens(Laid(sent, put))
  {
    hide DecodeLength, Opens, Laid;
    assert at !in WholeAt(sent, put, at);
    assert Opens(Laid(sent, put)) ==> at in ReadAt(Laid(sent, put), at);
  }

  lemma ReadAtOpen(stream: Bytes, at: nat)
    requires Opens(stream)
    ensures var n := HEADER_BYTES + DecodeLength(stream[..HEADER_BYTES]).n;
            ReadAt(stream, at) == {at} + ReadAt(stream[n..], at + n)
  {
  }

  lemma FrameLength(payload: Bytes)
    requires Fits(payload)
    ensures |FrameOf(payload)| == HEADER_BYTES + |payload|
  {
  }

  lemma WholeReads(sent: seq<Bytes>, put: seq<nat>, at: nat)
    requires CanLay(sent, put) && put != [] && put[0] == |FrameOf(sent[0])|
    requires CanLay(sent[1..], put[1..])
    ensures ReadAt(Laid(sent, put), at) == {at} + ReadAt(Laid(sent[1..], put[1..]), at + put[0])
    ensures WholeAt(sent, put, at) == {at} + WholeAt(sent[1..], put[1..], at + put[0])
  {
    hide DecodeLength, Opens, FrameOf, ReadAt;
    var behind := Laid(sent[1..], put[1..]);
    assert Laid(sent, put) == FrameOf(sent[0]) + behind;
    FrameOpens(sent[0], behind);
    ReadAtOpen(Laid(sent, put), at);
    FrameLength(sent[0]);
  }

  /** By place: the reader delivers only frames put whole exactly when the first torn
      frame does not make up a frame with what follows it. */
  lemma {:induction false} ReadsWholesIff(sent: seq<Bytes>, put: seq<nat>, at: nat)
    requires CanLay(sent, put)
    ensures ReadAt(Laid(sent, put), at) <= WholeAt(sent, put, at) <==> !Swallows(sent, put)
    decreases |put|
  {
    hide DecodeLength, Opens;
    if put == [] {
      EmptyClosed();
    } else {
      RestLays(sent, put);
      var behind := Laid(sent[1..], put[1..]);
      if put[0] == |FrameOf(sent[0])| {
        WholeReads(sent, put, at);
        ReadsWholesIff(sent[1..], put[1..], at + put[0]);
        OnceMore(at, ReadAt(behind, at + put[0]), WholeAt(sent[1..], put[1..], at + put[0]));
      } else if put[0] == 0 {
        assert Laid(sent, put) == behind;
        ReadsWholesIff(sent[1..], put[1..], at);
      } else {
        PieceReads(sent, put, at);
      }
    }
  }

  lemma {:induction false} NoneWhole(sent: seq<Bytes>, put: seq<nat>, at: nat)
    requires CanLay(sent, put)
    ensures Whole(sent, put) == [] <==> WholeAt(sent, put, at) == {}
    decreases |put|
  {
    if put != [] {
      RestLays(sent, put);
      NoneWhole(sent[1..], put[1..], at + put[0]);
      assert put[0] == |FrameOf(sent[0])| ==> at in WholeAt(sent, put, at);
    }
  }

  /** It delivers all of them, too, exactly when moreover none was put behind a piece. */
  lemma {:induction false} ReadsAllIff(sent: seq<Bytes>, put: seq<nat>, at: nat)
    requires CanLay(sent, put)
    ensures ReadAt(Laid(sent, put), at) == WholeAt(sent, put, at) <==> !Swallows(sent, put) && !Cut(sent, put)
    decreases |put|
  {
    hide DecodeLength, Opens;
    if put == [] {
      EmptyClosed();
    } else {
      RestLays(sent, put);
      var behind := Laid(sent[1..], put[1..]);
      if put[0] == |FrameOf(sent[0])| {
        WholeReads(sent, put, at);
        ReadsAllIff(sent[1..], put[1..], at + put[0]);
        var a, b := ReadAt(behind, at + put[0]), WholeAt(sent[1..], put[1..], at + put[0]);
        OnceMore(at, a, b);
        OnceMore(at, b, a);
      } else if put[0] == 0 {
        assert Laid(sent, put) == behind;
        ReadsAllIff(sent[1..], put[1..], at);
      } else {
        PieceReads(sent, put, at);
        NoneWhole(sent[1..], put[1..], at + put[0]);
      }
    }
  }

  lemma EmptyClosed()
    ensures !Opens([])
  {
  }

  lemma OnceMore(k: nat, a: set<nat>, b: set<nat>)
    requires k !in a
    ensures {k} + a <= {k} + b <==> a <= b
  {
    if {k} + a <= {k} + b {
      forall x | x in a
        ensures x in b
      {
        assert x in {k} + a;
      }
    }
  }

  lemma {:induction false} NoneIsSubsequence(b: seq<Bytes>)
    ensures Subsequence([], b)
  {
  }

  /** Then what is delivered is some of what was sent, in order. */
  lemma {:induction false} UnswallowedReads(sent: seq<Bytes>, put: seq<nat>)
    requires CanLay(sent, put) && !Swallows(sent, put)
    ensures Subsequence(ReadAll(Laid(sent, put)).payloads, sent)
    decreases |put|
  {
    hide DecodeLength, Opens;
    if put == [] {
      EmptyClosed();
      ReadsClosed([]);
    } else {
      RestLays(sent, put);
      var behind := Laid(sent[1..], put[1..]);
      if put[0] == |FrameOf(sent[0])| {
        assert Laid(sent, put) == FrameOf(sent[0]) + behind;
        ReadFrame(sent[0], behind);
        UnswallowedReads(sent[1..], put[1..]);
        var read := ReadAll(Laid(sent, put)).payloads;
        assert read[1..] == ReadAll(behind).payloads;
      } else if put[0] == 0 {
        assert Laid(sent, put) == behind;
        UnswallowedReads(sent[1..], put[1..]);
      } else {
        ReadsClosed(Laid(sent, put));
      }
    }
  }

  /** JSON holds no raw control character. */
  predicate Text(payload: Bytes) { forall i :: 0 <= i < |payload| ==> payload[i] >= 0x20 }

  predicate AllText(payloads: seq<Bytes>) { forall i :: 0 <= i < |payloads| ==> Text(payloads[i]) }

  /** The first frame left in pieces has its header out. */
  predicate HeaderOut(sent: seq<Bytes>, put: seq<nat>)
    requires CanLay(sent, put)
    decreases |put|
  {
    put == [] || if Piece(sent, put) then put[0] >= HEADER_BYTES else HeaderOut(sent[1..], put[1..])
  }

  /** At least as many bytes as the first frame left in pieces lacks were put behind it. */
  predicate Covered(sent: seq<Bytes>, put: seq<nat>)
    requires CanLay(sent, put)
    decreases |put|
  {
    put != []
    && if Piece(sent, put) then |Laid(sent, put)| >= |FrameOf(sent[0])| else Covered(sent[1..], put[1..])
  }

  lemma {:induction false} SwallowsIsCovered(sent: seq<Bytes>, put: seq<nat>)
    requires CanLay(sent, put) && HeaderOut(sent, put)
    ensures Swallows(sent, put) <==> Covered(sent, put)
    decreases |put|
  {
    hide Opens;
    if put != [] {
      RestLays(sent, put);
      if Piece(sent, put) {
        PieceOpens(sent[0], put[0], Laid(sent[1..], put[1..]));
      } else {
        SwallowsIsCovered(sent[1..], put[1..]);
      }
    }
  }

  /** Every frame begins with a byte no JSON has: the cap leaves the length that small. */
  lemma {:induction false} LaidFirst(sent: seq<Bytes>, put: seq<nat>)
    requires CanLay(sent, put) && Laid(sent, put) != []
    ensures Laid(sent, put)[0] < 0x20
    decreases |put|
  {
    if put != [] {
      RestLays(sent, put);
      if put[0] == 0 {
        assert Laid(sent, put) == Laid(sent[1..], put[1..]);
        LaidFirst(sent[1..], put[1..]);
      } else {
        assert Laid(sent, put)[0] == FrameOf(sent[0])[0];
      }
    }
  }

  /** The frame made up of a piece and what follows holds the first byte behind the piece. */
  lemma MixedIsNoText(sent: seq<Bytes>, put: seq<nat>)
    requires CanLay(sent, put) && Piece(sent, put) && put[0] >= HEADER_BYTES && Opens(Laid(sent, put))
    ensures var read := ReadAll(Laid(sent, put)).payloads; read != [] && !Text(read[0])
  {
    hide DecodeLength;
    RestLays(sent, put);
    var stream, behind, n := Laid(sent, put), Laid(sent[1..], put[1..]), |sent[0]|;
    PieceOpens(sent[0], put[0], behind);
    ReadsOpen(stream);
    LaidFirst(sent[1..], put[1..]);
    var mixed := stream[HEADER_BYTES..HEADER_BYTES + n];
    assert mixed[put[0] - HEADER_BYTES] == stream[put[0]] == behind[0];
  }

  lemma {:induction false} SwallowedReads(sent: seq<Bytes>, put: seq<nat>)
    requires CanLay(sent, put) && HeaderOut(sent, put) && Swallows(sent, put)
    ensures !AllText(ReadAll(Laid(sent, put)).payloads)
    decreases |put|
  {
    hide DecodeLength, Opens, Text;
    RestLays(sent, put);
    var behind := Laid(sent[1..], put[1..]);
    if Piece(sent, put) {
      MixedIsNoText(sent, put);
    } else {
      SwallowedReads(sent[1..], put[1..]);
      if put[0] == 0 {
        assert Laid(sent, put) == behind;
      } else {
        assert Laid(sent, put) == FrameOf(sent[0]) + behind;
        ReadFrame(sent[0], behind);
        var read, later := ReadAll(Laid(sent, put)).payloads, ReadAll(behind).payloads;
        var i :| 0 <= i < |later| && !Text(later[i]);
        assert read[i + 1] == later[i];
      }
    }
  }

  lemma {:induction false} SubsequenceIsText(a: seq<Bytes>, b: seq<Bytes>)
    requires Subsequence(a, b) && AllText(b)
    ensures AllText(a)
    decreases |b|
  {
    hide Text;
    if a != [] {
      var rest := b[1..];
      assert AllText(rest);
      if a[0] == b[0] && Subsequence(a[1..], rest) {
        SubsequenceIsText(a[1..], rest);
        forall i | 0 <= i < |a|
          ensures Text(a[i])
        {
          assert i > 0 ==> a[i] == a[1..][i - 1];
        }
      } else {
        SubsequenceIsText(a, rest);
      }
    }
  }

  lemma FreshRun(es: seq<Event>, c: Chain)
    requires Run(Fresh, es, c)
    ensures Inv(c) && OnStream(c)
  {
    assert Inv(Fresh) && OnStream(Fresh);
    RunOnStream(Fresh, es, c);
  }

  /** A failed write that had put nothing, or the whole frame, does no harm, nor does a
      piece with nothing behind it: the reader delivers in order exactly what was put
      whole, from whatever has arrived the first few of these. */
  lemma HarmlessFailures(es: seq<Event>, c: Chain, arrived: Bytes)
    requires Run(Fresh, es, c)
    ensures CanLay(c.sent, PutBy(c))
    ensures !Torn(c.sent, PutBy(c)) ==> ReadAll(c.stream).payloads == Whole(c.sent, PutBy(c))
    ensures !Torn(c.sent, PutBy(c)) && arrived <= c.stream ==> ReadAll(arrived).payloads <= Whole(c.sent, PutBy(c))
  {
    FreshRun(es, c);
    if !Torn(c.sent, PutBy(c)) {
      UntornReads(c.sent, PutBy(c));
      if arrived <= c.stream {
        ReadMonotone(arrived, c.stream);
      }
    }
  }

  /** When the reader goes wrong: it delivers something that is not, at its place, a
      frame put whole exactly when the first frame left in pieces makes up a frame with
      the bytes behind it. Otherwise it delivers some of what was sent, in order, and
      misses none that was put whole exactly when none was put behind that piece. */
  lemma ReadsOnlySentIff(es: seq<Event>, c: Chain)
    requires Run(Fresh, es, c)
    ensures CanLay(c.sent, PutBy(c))
    ensures ReadAt(c.stream, 0) <= WholeAt(c.sent, PutBy(c), 0) <==> !Swallows(c.sent, PutBy(c))
    ensures !Swallows(c.sent, PutBy(c)) ==> Subsequence(ReadAll(c.stream).payloads, c.sent)
    ensures ReadAt(c.stream, 0) == WholeAt(c.sent, PutBy(c), 0) <==> !Swallows(c.sent, PutBy(c)) && !Cut(c.sent, PutBy(c))
  {
    FreshRun(es, c);
    ReadsWholesIff(c.sent, PutBy(c), 0);
    ReadsAllIff(c.sent, PutBy(c), 0);
    if !Swallows(c.sent, PutBy(c)) {
      UnswallowedReads(c.sent, PutBy(c));
    }
  }

  /** For JSON, as sent, and a piece that has its header out this is a count of bytes:
      what is delivered is some of what was sent, in order, exactly as long as fewer
      bytes follow the piece than it lacks. */
  lemma TextReadsIff(es: seq<Event>, c: Chain)
    requires Run(Fresh, es, c) && AllText(c.sent)
    ensures CanLay(c.sent, PutBy(c))
    ensures HeaderOut(c.sent, PutBy(c)) ==>
              (Subsequence(ReadAll(c.stream).payloads, c.sent) <==> !Covered(c.sent, PutBy(c)))
  {
    hide Text;
    FreshRun(es, c);
    if HeaderOut(c.sent, PutBy(c)) {
      SwallowsIsCovered(c.sent, PutBy(c));
      if Covered(c.sent, PutBy(c)) {
        SwallowedReads(c.sent, PutBy(c));
        if Subsequence(ReadAll(c.stream).payloads, c.sent) {
          SubsequenceIsText(ReadAll(c.stream).payloads, c.sent);
        }
      } else {
        UnswallowedReads(c.sent, PutBy(c));
      }
    }
  }

  lemma AlikeLays()
    ensures var sent, put: seq<nat> := [[9], [0]], [4, 5];
            && CanLay(sent, put) && Laid(sent, put) == [0, 0, 0, 1, 0, 0, 0, 1, 0]
            && Piece(sent, put)
  {
    var sent: seq<Bytes>, put: seq<nat> := [[9], [0]], [4, 5];
    assert FrameOf([9])[..4] == [0, 0, 0, 1] && FrameOf([0])[..5] == [0, 0, 0, 1, 0];
    assert sent[1..] == [[0]] && put[1..] == [5];
    assert Laid([[0]], [5]) == [0, 0, 0, 1, 0];
  }

  lemma AlikeReads()
    ensures var stream: Bytes := [0, 0, 0, 1, 0, 0, 0, 1, 0]; Opens(stream) && ReadAll(stream).payloads == [[0]]
  {
    var stream: Bytes := [0, 0, 0, 1, 0, 0, 0, 1, 0];
    assert DecodeLength(stream[..4]) == Length.Bytes(1);
    assert stream[4..5] == [0] && stream[5..] == [0, 0, 1, 0];
    assert DecodeLength([0, 0, 1, 0]) == Length.Bytes(256);
  }

  /** Of arbitrary payloads what is delivered cannot tell: here the reader makes one up
      that happens to be the one it skips. */
  lemma LooksAlike()
    ensures var sent, put: seq<nat> := [[9], [0]], [4, 5];
            && CanLay(sent, put) && Swallows(sent, put)
            && ReadAll(Laid(sent, put)).payloads == [[0]] && Subsequence([[0]], sent)
  {
    hide Opens, Laid, ReadAll, FrameOf;
    AlikeLays();
    AlikeReads();
    var sent: seq<Bytes> := [[9], [0]];
    assert sent[1..][0] == [0] && [[0]][1..] == [];
    NoneIsSubsequence(sent[1..][1..]);
  }

  // ---- What is sent is written, sooner or later ----

  /** The payloads of these sends that are not over-long, in order. */
  function SendsIn(es: seq<Event>): seq<Bytes> {
    if es == [] then []
    else (if es[0].Send? && |es[0].payload| <= 0x400_0000 then [es[0].payload] else []) + SendsIn(es[1..])
  }

  lemma {:induction false} SendsAdd(c: Chain, es: seq<Event>, c': Chain)
    requires Run(c, es, c')
    ensures c'.sent == c.sent + SendsIn(es)
    decreases |es|
  {
    if es != [] {
      SendsAdd(Step(c, es[0]), es[1..], c');
    }
  }

  /** What is chained is what was sent, in the order of the calls. */
  lemma SentInOrder(es: seq<Event>, c: Chain)
    requires Run(Fresh, es, c)
    ensures c.sent == SendsIn(es)
  {
    SendsAdd(Fresh, es, c);
  }

  /** From every state the chain can be run to its end, whatever has failed before: all
      that waits is put whole, in order, and left as whole frames. */
  lemma {:induction false} AllGetsWritten(c: Chain) returns (es: seq<Event>, c': Chain)
    requires Inv(c) && OnStream(c)
    ensures Run(c, es, c') && Inv(c') && OnStream(c')
    ensures c'.sent == c.sent && c'.next == |c.sent| && !c'.active && c'.failed == c.failed
    ensures c.left <= c'.left && forall k :: |c.left| <= k < |c'.left| ==> c'.left[k] == |FrameOf(c.sent[k])|
    decreases |c.sent| - c.next, if c.active then 0 else 1
  {
    hide FrameOf, WholeFrames, Inv, OnStream;
    ChainRange(c);
    if c.next == |c.sent| {
      es, c' := [], c;
    } else if !c.active {
      StepInv(c, Begin);
      StepOnStream(c, Begin);
      es, c' := AllGetsWritten(Step(c, Begin));
      es := Behind(c, Begin, es, c');
    } else {
      var n := |FrameOf(c.sent[c.next])| - c.written;
      StepInv(c, Put(n));
      StepOnStream(c, Put(n));
      var put := Step(c, Put(n));
      StepInv(put, Done);
      StepOnStream(put, Done);
      es, c' := AllGetsWritten(Step(put, Done));
      es := Behind(put, Done, es, c');
      es := Behind(c, Put(n), es, c');
    }
  }

  lemma ChainRange(c: Chain)
    requires Inv(c) && OnStream(c)
    ensures AllFit(c.sent) && c.next <= |c.sent| && |c.left| == c.next
    ensures c.active ==> c.next < |c.sent| && c.written <= |FrameOf(c.sent[c.next])|
  {
  }

  /** The transport's side of it. */
  class Writer {
    var waiting: seq<Bytes>
    var left: Bytes
    var active: bool
    var stream: Bytes
    ghost var view: Chain

    ghost predicate Valid()
      reads this
    {
      && Inv(view)
      && active == view.active && stream == view.stream
      && waiting == view.sent[if active then view.next + 1 else view.next..]
      && (active ==> left == FrameOf(view.sent[view.next])[view.written..])
    }

    constructor ()
      ensures Valid() && view == Fresh
    {
      waiting, left, active, stream := [], [], false, [];
      view := Fresh;
    }

    method Send(payload: Bytes) returns (ok: bool)
      requires Valid() && |payload| > 0
      modifies this
      ensures Valid() && view == Step(old(view), Event.Send(payload))
      ensures ok <==> |payload| <= MAX_FRAME_BYTES
    {
      hide FrameOf;
      StepInv(view, Event.Send(payload));
      ok := !EncodeFrame(payload).TooLong?;
      if ok {
        waiting := waiting + [payload];
      }
      view := Step(view, Event.Send(payload));
    }

    method Begin()
      requires Valid() && !active && waiting != []
      modifies this
      ensures Valid() && view == Step(old(view), Event.Begin)
    {
      hide FrameOf;
      StepInv(view, Event.Begin);
      left, waiting, active := FrameOf(waiting[0]), waiting[1..], true;
      view := Step(view, Event.Begin);
    }

    method Put(n: nat)
      requires Valid() && active && n <= |left|
      modifies this
      ensures Valid() && view == Step(old(view), Event.Put(n))
    {
      hide FrameOf;
      StepInv(view, Event.Put(n));
      stream, left := stream + left[..n], left[n..];
      view := Step(view, Event.Put(n));
    }

    method Settle(ok: bool)
      requires Valid() && active && (ok ==> left == [])
      modifies this
      ensures Valid() && view == Step(old(view), if ok then Event.Done else Event.Fail)
    {
      hide FrameOf;
      StepInv(view, if ok then Event.Done else Event.Fail);
      view := Step(view, if ok then Event.Done else Event.Fail);
      active := false;
    }
  }
}
