/**
 The daemon's side of the phone connections (`IrohPeerServer`): the version gate in
 front of every command, and the callbacks a connection's end runs.
 */
module PeerServer {
  import opened Wrappers
  import opened Protocol

  /** What a client sends, parsed. */
  datatype Frame = Hello(version: Option<Version>) | Ping(t: int) | Command(cmd: string) | Malformed

  /** What the daemon sends; `Other` is what a command's handler sends. */
  datatype Reply = ServerInfo(version: Option<Version>) | Refused(version: Option<Version>) | Pong(echo: int) | Other

  /** In `peers`, running its disconnect callbacks, or done with them. */
  datatype Stage = In | Closing(next: nat) | Gone

  /** `registered`: how many disconnect callbacks; they are known by their number.
      `dying`: a close waits for the writes. */
  datatype Slot = Slot(verified: bool, timer: bool, dying: bool, registered: nat, ran: seq<nat>, stage: Stage)

  datatype Entry = Heard(peer: nat, frame: Frame) | Sent(peer: nat, reply: Reply) | Handled(peer: nat, cmd: string)

  /** `queue`: commands whose handler is yet to be called. */
  datatype State = State(local: Option<Version>, slots: seq<Slot>, queue: seq<(nat, string)>, log: seq<Entry>)

  datatype Event =
    | Connect
    | Receive(peer: nat, frame: Frame)
    | RunHandler
    | HandlerSends(peer: nat)
    | Register(peer: nat)
    | HelloTimeout(peer: nat)
    | Flushed(peer: nat)
    | Close(peer: nat)
    | RunCallback(peer: nat)

  function SetSlot(s: State, i: nat, slot: Slot): State
    requires i < |s.slots|
  {
    s.(slots := s.slots[i := slot])
  }

  /** `send` */
  function Send(s: State, i: nat, reply: Reply): State
    requires i < |s.slots|
  {
    if s.slots[i].stage.In? then s.(log := s.log + [Sent(i, reply)]) else s
  }

  /** `onFrame` */
  function OnFrame(s: State, i: nat, frame: Frame): State
    requires i < |s.slots|
  {
    var slot := s.slots[i];
    match frame
    case Malformed => s
    case Hello(version) =>
      if slot.verified then s
      else if !Compatible(version, s.local) then SetSlot(Send(s, i, Refused(s.local)), i, slot.(dying := true))
      else Send(SetSlot(s, i, slot.(verified := true, timer := false)), i, ServerInfo(s.local))
    case Ping(t) =>
      if !slot.verified then SetSlot(Send(s, i, Refused(None)), i, slot.(dying := true))
      else Send(s, i, Pong(t))
    case Command(cmd) =>
      if !slot.verified then SetSlot(Send(s, i, Refused(None)), i, slot.(dying := true))
      else s.(queue := s.queue + [(i, cmd)])
  }

  /** `closePeer`, up to its callbacks. */
  function ClosePeer(s: State, i: nat): State
    requires i < |s.slots|
  {
    if s.slots[i].stage.In? then SetSlot(s, i, s.slots[i].(stage := Closing(0), timer := false)) else s
  }

  predicate Can(s: State, e: Event) {
    match e
    case Connect => true
    case Receive(i, _) => i < |s.slots|
    case RunHandler => s.queue != []
    case HandlerSends(i) => i < |s.slots| && exists k :: 0 <= k < |s.log| && s.log[k].Handled? && s.log[k].peer == i
    case Register(i) => i < |s.slots| && exists k :: 0 <= k < |s.log| && s.log[k].Handled? && s.log[k].peer == i
    case HelloTimeout(i) => i < |s.slots| && s.slots[i].timer
    case Flushed(i) => i < |s.slots| && s.slots[i].dying
    case Close(i) => i < |s.slots|
    case RunCallback(i) => i < |s.slots| && s.slots[i].stage.Closing?
  }

  function Step(s: State, e: Event): State
    requires Can(s, e)
  {
    match e
    case Connect => s.(slots := s.slots + [Slot(false, true, false, 0, [], In)])
    case Receive(i, frame) =>
      // The read loop ends when the peer is no longer there.
      if !s.slots[i].stage.In? then s else OnFrame(s.(log := s.log + [Heard(i, frame)]), i, frame)
    case RunHandler => s.(queue := s.queue[1..], log := s.log + [Handled(s.queue[0].0, s.queue[0].1)])
    case HandlerSends(i) => Send(s, i, Other)
    case Register(i) => SetSlot(s, i, s.slots[i].(registered := s.slots[i].registered + 1))
    case HelloTimeout(i) =>
      var fired := SetSlot(s, i, s.slots[i].(timer := false));
      if s.slots[i].verified then fired else ClosePeer(fired, i)
    case Flushed(i) => ClosePeer(s, i)
    case Close(i) => ClosePeer(s, i)
    case RunCallback(i) =>
      var slot, n := s.slots[i], s.slots[i].stage.next;
      SetSlot(s, i, if n < slot.registered then slot.(ran := slot.ran + [n], stage := Closing(n + 1))
                    else slot.(stage := Gone))
  }

  ghost predicate Run(s: State, es: seq<Event>, s': State)
    decreases |es|
  {
    if es == [] then s' == s else Can(s, es[0]) && Run(Step(s, es[0]), es[1..], s')
  }

  function Fresh(local: Option<Version>): State { State(local, [], [], []) }

  // ---- The version gate ----

  /** Among the first `n` entries the peer said a compatible hello. */
  ghost predicate Greeted(s: State, i: nat, n: nat)
    requires n <= |s.log|
  {
    exists k :: 0 <= k < n && s.log[k].Heard? && s.log[k].peer == i && s.log[k].frame.Hello?
                && Compatible(s.log[k].frame.version, s.local)
  }

  /** A command's handler was called, a ping answered, or a version accepted. */
  predicate PastTheGate(e: Entry) { e.Handled? || (e.Sent? && (e.reply.Pong? || e.reply.ServerInfo? || e.reply.Other?)) }

  ghost predicate GateInv(s: State) {
    && (forall i :: 0 <= i < |s.slots| && s.slots[i].verified ==> Greeted(s, i, |s.log|))
    && (forall q :: 0 <= q < |s.queue| ==> Greeted(s, s.queue[q].0, |s.log|))
    && (forall k :: 0 <= k < |s.log| && PastTheGate(s.log[k]) ==> Greeted(s, s.log[k].peer, k))
  }

  lemma GreetedLater(s: State, t: State, i: nat, n: nat, m: nat)
    requires n <= |s.log| && n <= m <= |t.log| && t.local == s.local && s.log <= t.log
    requires Greeted(s, i, n)
    ensures Greeted(t, i, m)
  {
    var k :| 0 <= k < n && s.log[k].Heard? && s.log[k].peer == i && s.log[k].frame.Hello?
             && Compatible(s.log[k].frame.version, s.local);
    assert t.log[k] == s.log[k];
  }

  /** The log grows by `more`; whoever passes the gate now has been greeted. */
  lemma GateGrows(s: State, t: State, more: seq<Entry>)
    requires GateInv(s) && t.local == s.local && t.log == s.log + more
    requires forall i :: 0 <= i < |t.slots| && t.slots[i].verified ==>
               (i < |s.slots| && s.slots[i].verified) || Greeted(t, i, |t.log|)
    requires forall q :: 0 <= q < |t.queue| ==> t.queue[q] in s.queue || Greeted(s, t.queue[q].0, |s.log|)
    requires forall k :: |s.log| <= k < |t.log| && PastTheGate(t.log[k]) ==> Greeted(t, t.log[k].peer, k)
    ensures GateInv(t)
  {
    hide PastTheGate;
    forall i | 0 <= i < |t.slots| && t.slots[i].verified
      ensures Greeted(t, i, |t.log|)
    {
      if i < |s.slots| && s.slots[i].verified {
        GreetedLater(s, t, i, |s.log|, |t.log|);
      }
    }
    forall q | 0 <= q < |t.queue|
      ensures Greeted(t, t.queue[q].0, |t.log|)
    {
      GreetedLater(s, t, t.queue[q].0, |s.log|, |t.log|);
    }
    forall k | 0 <= k < |t.log| && PastTheGate(t.log[k])
      ensures Greeted(t, t.log[k].peer, k)
    {
      if k < |s.log| {
        assert t.log[k] == s.log[k];
        GreetedLater(s, t, s.log[k].peer, k, k);
      }
    }
  }

  lemma SendGate(s: State, i: nat, reply: Reply)
    requires GateInv(s) && i < |s.slots|
    requires reply.Refused? || Greeted(s, i, |s.log|)
    ensures GateInv(Send(s, i, reply))
  {
    var t := Send(s, i, reply);
    if s.slots[i].stage.In? {
      if !reply.Refused? {
        GreetedLater(s, t, i, |s.log|, |s.log|);
      }
      GateGrows(s, t, [Sent(i, reply)]);
    }
  }

  lemma SlotGate(s: State, i: nat, slot: Slot)
    requires GateInv(s) && i < |s.slots| && (slot.verified ==> s.slots[i].verified || Greeted(s, i, |s.log|))
    ensures GateInv(SetSlot(s, i, slot))
  {
    var t := SetSlot(s, i, slot);
    assert forall j, n :: 0 <= n <= |s.log| && Greeted(s, j, n) ==> Greeted(t, j, n);
  }

  lemma FrameGate(s: State, i: nat, frame: Frame)
    requires GateInv(s) && i < |s.slots|
    requires frame.Hello? && Compatible(frame.version, s.local) ==> Greeted(s, i, |s.log|)
    ensures GateInv(OnFrame(s, i, frame))
  {
    hide GateInv, Greeted, Compatible;
    var slot := s.slots[i];
    VerifiedGreeted(s, i);
    match frame
    case Malformed =>
    case Hello(version) =>
      if !slot.verified {
        if Compatible(version, s.local) {
          SlotGate(s, i, slot.(verified := true, timer := false));
          var t := SetSlot(s, i, slot.(verified := true, timer := false));
          GreetedSame(s, t, i);
          SendGate(t, i, ServerInfo(s.local));
        } else {
          SendGate(s, i, Refused(s.local));
          SlotGate(Send(s, i, Refused(s.local)), i, slot.(dying := true));
        }
      }
    case Ping(t) =>
      if slot.verified {
        SendGate(s, i, Pong(t));
      } else {
        SendGate(s, i, Refused(None));
        SlotGate(Send(s, i, Refused(None)), i, slot.(dying := true));
      }
    case Command(cmd) =>
      if slot.verified {
        QueueGate(s, i, cmd);
      } else {
        SendGate(s, i, Refused(None));
        SlotGate(Send(s, i, Refused(None)), i, slot.(dying := true));
      }
  }

  lemma VerifiedGreeted(s: State, i: nat)
    requires GateInv(s) && i < |s.slots|
    ensures s.slots[i].verified ==> Greeted(s, i, |s.log|)
  {
  }

  lemma GreetedSame(s: State, t: State, i: nat)
    requires t.log == s.log && t.local == s.local && Greeted(s, i, |s.log|)
    ensures Greeted(t, i, |t.log|)
  {
  }

  lemma QueueGate(s: State, i: nat, cmd: string)
    requires GateInv(s) && Greeted(s, i, |s.log|)
    ensures GateInv(s.(queue := s.queue + [(i, cmd)]))
  {
    var t := s.(queue := s.queue + [(i, cmd)]);
    assert t.log == s.log + [];
    assert forall j, n :: 0 <= n <= |s.log| && Greeted(s, j, n) ==> Greeted(t, j, n);
  }

  lemma HeardGate(s: State, i: nat, frame: Frame)
    requires GateInv(s) && i < |s.slots|
    ensures var t := s.(log := s.log + [Heard(i, frame)]);
            GateInv(t) && (frame.Hello? && Compatible(frame.version, s.local) ==> Greeted(t, i, |t.log|))
  {
    var t := s.(log := s.log + [Heard(i, frame)]);
    assert t.log[|s.log|] == Heard(i, frame);
    GateGrows(s, t, [Heard(i, frame)]);
  }

  lemma HandlerGate(s: State)
    requires GateInv(s) && s.queue != []
    ensures GateInv(Step(s, RunHandler))
  {
    var t := Step(s, RunHandler);
    GreetedLater(s, t, s.queue[0].0, |s.log|, |s.log|);
    GateGrows(s, t, [Handled(s.queue[0].0, s.queue[0].1)]);
  }

  lemma CloseGate(s: State, i: nat)
    requires GateInv(s) && i < |s.slots|
    ensures GateInv(ClosePeer(s, i))
  {
    hide GateInv;
    if s.slots[i].stage.In? {
      SlotGate(s, i, s.slots[i].(stage := Closing(0), timer := false));
    }
  }

  lemma HandlerGreeted(s: State, i: nat)
    requires GateInv(s) && Can(s, HandlerSends(i))
    ensures Greeted(s, i, |s.log|)
  {
    var k :| 0 <= k < |s.log| && s.log[k].Handled? && s.log[k].peer == i;
    GreetedLater(s, s, i, k, |s.log|);
  }

  lemma ConnectGate(s: State)
    requires GateInv(s)
    ensures GateInv(Step(s, Connect))
  {
    assert s.log == s.log + [];
    GateGrows(s, Step(s, Connect), []);
  }

  lemma StepGate(s: State, e: Event)
    requires GateInv(s) && Can(s, e)
    ensures GateInv(Step(s, e))
  {
    hide GateInv, Greeted, OnFrame, Send, ClosePeer;
    match e
    case Connect => ConnectGate(s);
    case Receive(i, frame) =>
      HeardGate(s, i, frame);
      FrameGate(s.(log := s.log + [Heard(i, frame)]), i, frame);
    case RunHandler => HandlerGate(s);
    case HandlerSends(i) =>
      HandlerGreeted(s, i);
      SendGate(s, i, Other);
    case Register(i) => SlotGate(s, i, s.slots[i].(registered := s.slots[i].registered + 1));
    case HelloTimeout(i) =>
      SlotGate(s, i, s.slots[i].(timer := false));
      CloseGate(SetSlot(s, i, s.slots[i].(timer := false)), i);
    case Flushed(i) => CloseGate(s, i);
    case Close(i) => CloseGate(s, i);
    case RunCallback(i) =>
      var slot, n := s.slots[i], s.slots[i].stage.next;
      SlotGate(s, i, if n < slot.registered then slot.(ran := slot.ran + [n], stage := Closing(n + 1))
                     else slot.(stage := Gone));
  }

  lemma {:induction false} RunGate(s: State, es: seq<Event>, s': State)
    requires GateInv(s) && Run(s, es, s')
    ensures GateInv(s')
    decreases |es|
  {
    hide GateInv, Can, Step;
    if es != [] {
      StepGate(s, es[0]);
      RunGate(Step(s, es[0]), es[1..], s');
    }
  }

  /** For a connection, no command is handled, no ping answered and no version accepted
      before a compatible hello of its own. */
  lemma NothingBeforeHello(local: Option<Version>, es: seq<Event>, s: State, k: nat)
    requires Run(Fresh(local), es, s) && k < |s.log| && PastTheGate(s.log[k])
    ensures exists j :: 0 <= j < k && s.log[j].Heard? && s.log[j].peer == s.log[k].peer && s.log[j].frame.Hello?
                        && Compatible(s.log[j].frame.version, s.local)
  {
    RunGate(Fresh(local), es, s);
    assert Greeted(s, s.log[k].peer, k);
  }

  // ---- One answer to hello ----

  predicate InfoAt(s: State, k: nat, i: nat) {
    k < |s.log| && s.log[k].Sent? && s.log[k].peer == i && s.log[k].reply.ServerInfo?
  }

  ghost predicate InfoInv(s: State) {
    && (forall k: nat, i: nat :: InfoAt(s, k, i) ==> i < |s.slots| && s.slots[i].verified)
    && (forall j: nat, k: nat, i: nat :: InfoAt(s, j, i) && InfoAt(s, k, i) ==> j == k)
  }

  lemma StepInfo(s: State, e: Event)
    requires InfoInv(s) && Can(s, e)
    ensures InfoInv(Step(s, e))
  {
    var t := Step(s, e);
    forall k: nat, i: nat | InfoAt(t, k, i)
      ensures i < |t.slots| && t.slots[i].verified
      ensures InfoAt(s, k, i) || (k >= |s.log| && (i >= |s.slots| || !s.slots[i].verified) && k == |t.log| - 1)
    {
      assert k < |s.log| ==> InfoAt(s, k, i);
    }
  }

  lemma {:induction false} RunInfo(s: State, es: seq<Event>, s': State)
    requires InfoInv(s) && Run(s, es, s')
    ensures InfoInv(s')
    decreases |es|
  {
    hide InfoInv, Can, Step;
    if es != [] {
      StepInfo(s, es[0]);
      RunInfo(Step(s, es[0]), es[1..], s');
    }
  }

  /** A connection gets `server_info` at most once, however often it says hello. */
  lemma GreetedOnce(local: Option<Version>, es: seq<Event>, s: State, j: nat, k: nat, i: nat)
    requires Run(Fresh(local), es, s) && InfoAt(s, j, i) && InfoAt(s, k, i)
    ensures j == k
  {
    RunInfo(Fresh(local), es, s);
  }

  // ---- Disconnect callbacks ----

  function Upto(n: nat): (r: seq<nat>)
    ensures |r| == n && forall i :: 0 <= i < n ==> r[i] == i
  {
    seq(n, i => i)
  }

  ghost predicate SlotOk(slot: Slot) {
    && slot.ran == Upto(|slot.ran|) && |slot.ran| <= slot.registered
    && (slot.stage.In? ==> slot.ran == [])
    && (slot.stage.Closing? ==> slot.stage.next == |slot.ran|)
  }

  /** What a step does to one connection's callbacks. */
  ghost predicate SlotMoves(a: Slot, b: Slot) {
    && a.registered <= b.registered
    && (SlotOk(a) ==> SlotOk(b))
    && (a.stage.Gone? ==> b.stage.Gone? && b.ran == a.ran)
    && (b.stage.Gone? && !a.stage.Gone? ==> SlotOk(a) ==> |b.ran| == a.registered)
  }

  lemma StepSlots(s: State, e: Event)
    requires Can(s, e)
    ensures |s.slots| <= |Step(s, e).slots|
    ensures forall i :: 0 <= i < |s.slots| ==> SlotMoves(s.slots[i], Step(s, e).slots[i])
    ensures forall i :: |s.slots| <= i < |Step(s, e).slots| ==> SlotOk(Step(s, e).slots[i])
  {
    if e.RunCallback? {
      var slot, n := s.slots[e.peer], s.slots[e.peer].stage.next;
      assert n == |slot.ran| ==> Upto(n) + [n] == Upto(n + 1);
    }
  }

  ghost predicate SlotsOk(s: State) { forall i :: 0 <= i < |s.slots| ==> SlotOk(s.slots[i]) }

  lemma {:induction false} RunSlots(s: State, es: seq<Event>, s': State)
    requires SlotsOk(s) && Run(s, es, s')
    ensures SlotsOk(s') && |s.slots| <= |s'.slots|
    ensures forall i :: 0 <= i < |s.slots| && s.slots[i].stage.Gone? ==>
              s'.slots[i].stage.Gone? && s'.slots[i].ran == s.slots[i].ran
    ensures forall i :: 0 <= i < |s.slots| && !s.slots[i].stage.Gone? && s'.slots[i].stage.Gone? ==>
              s.slots[i].registered <= |s'.slots[i].ran|
    decreases |es|
  {
    hide Can, Step, SlotOk;
    if es != [] {
      StepSlots(s, es[0]);
      RunSlots(Step(s, es[0]), es[1..], s');
    }
  }

  /** A callback registered while the connection is in `peers`, or while its end is
      running the callbacks, has run exactly once when the end is done; one of the
      former has not run before. */
  lemma CallbackRunsOnce(local: Option<Version>, es: seq<Event>, s: State, i: nat, c: nat, after: seq<Event>, s': State)
    requires Run(Fresh(local), es, s) && i < |s.slots| && !s.slots[i].stage.Gone? && c < s.slots[i].registered
    requires Run(s, after, s') && i < |s'.slots| && s'.slots[i].stage.Gone?
    ensures s.slots[i].stage.In? ==> c !in s.slots[i].ran
    ensures c < |s'.slots[i].ran| && forall k :: 0 <= k < |s'.slots[i].ran| ==> (s'.slots[i].ran[k] == c <==> k == c)
  {
    RunSlots(Fresh(local), es, s);
    RunSlots(s, after, s');
    assert SlotOk(s'.slots[i]);
  }

  /** One registered once the end is done never runs. */
  lemma LateCallbackNeverRuns(local: Option<Version>, es: seq<Event>, s: State, i: nat, c: nat, after: seq<Event>, s': State)
    requires Run(Fresh(local), es, s) && i < |s.slots| && s.slots[i].stage.Gone? && s.slots[i].registered <= c
    requires Run(s, after, s')
    ensures i < |s'.slots| && c !in s'.slots[i].ran
  {
    RunSlots(Fresh(local), es, s);
    RunSlots(s, after, s');
    assert SlotOk(s.slots[i]);
  }

  // ---- Every frame has its answer, every command its turn ----

  /** What the gate answers: to a first hello its verdict, to a greeted peer's ping the
      pong, to anything else before a hello the refusal. */
  function AnswerTo(local: Option<Version>, greeted: bool, frame: Frame): Option<Reply> {
    match frame
    case Hello(version) =>
      if greeted then None else Some(if Compatible(version, local) then ServerInfo(local) else Refused(local))
    case Ping(t) => Some(if greeted then Pong(t) else Refused(None))
    case Command(_) => if greeted then None else Some(Refused(None))
    case Malformed => None
  }

  /** The entry is a compatible hello of the peer. */
  predicate Greets(local: Option<Version>, entry: Entry, i: nat) {
    entry.Heard? && entry.peer == i && entry.frame.Hello? && Compatible(entry.frame.version, local)
  }

  /** Among the first `n` entries the peer said one. */
  predicate GreetedIn(local: Option<Version>, log: seq<Entry>, i: nat, n: nat)
    requires n <= |log|
  {
    exists k :: 0 <= k < n && Greets(local, log[k], i)
  }

  /** What a step writes down. */
  function Written(s: State, e: Event): seq<Entry>
    requires Can(s, e)
  {
    match e
    case Receive(i, frame) =>
      if !s.slots[i].stage.In? then []
      else
        var answer := AnswerTo(s.local, s.slots[i].verified, frame);
        [Heard(i, frame)] + if answer.Some? then [Sent(i, answer.value)] else []
    case RunHandler => [Handled(s.queue[0].0, s.queue[0].1)]
    case HandlerSends(i) => if s.slots[i].stage.In? then [Sent(i, Other)] else []
    case _ => []
  }

  /** What every step does to the log, the queue and who is verified. */
  lemma StepTells(s: State, e: Event)
    requires Can(s, e)
    ensures var t := Step(s, e);
            && t.local == s.local && t.log == s.log + Written(s, e)
            && |t.slots| == |s.slots| + (if e.Connect? then 1 else 0)
            && (forall i :: 0 <= i < |s.slots| ==>
                  (t.slots[i].verified <==>
                     s.slots[i].verified
                     || (e.Receive? && e.peer == i && s.slots[i].stage.In? && e.frame.Hello? && Compatible(e.frame.version, s.local))))
            && (e.Connect? ==> t.slots[|s.slots|] == Slot(false, true, false, 0, [], In))
    ensures var t := Step(s, e);
            if e.RunHandler? then t.queue == s.queue[1..]
            else if e.Receive? && e.frame.Command? && s.slots[e.peer].stage.In? && s.slots[e.peer].verified then
              t.queue == s.queue + [(e.peer, e.frame.cmd)]
            else t.queue == s.queue
  {
    hide Compatible;
    assert s.log + [] == s.log;
    if e.Receive? {
      assert s.log + [Heard(e.peer, e.frame)] + [] == s.log + [Heard(e.peer, e.frame)];
    }
  }

  lemma GreetedMore(local: Option<Version>, log: seq<Entry>, more: seq<Entry>, i: nat, n: nat)
    requires n <= |log|
    ensures GreetedIn(local, log + more, i, n) <==> GreetedIn(local, log, i, n)
  {
    hide Greets;
    assert forall k :: 0 <= k < n ==> (log + more)[k] == log[k];
  }

  lemma GreetedNext(local: Option<Version>, log: seq<Entry>, more: seq<Entry>, i: nat)
    ensures GreetedIn(local, log + more, i, |log| + |more|) <==>
              GreetedIn(local, log, i, |log|) || exists k :: 0 <= k < |more| && Greets(local, more[k], i)
  {
    hide Greets;
    var all := log + more;
    assert forall k :: 0 <= k < |log| ==> all[k] == log[k];
    assert forall k :: 0 <= k < |more| ==> all[|log| + k] == more[k];
    if GreetedIn(local, all, i, |all|) {
      var k :| 0 <= k < |all| && Greets(local, all[k], i);
      assert k >= |log| ==> Greets(local, more[k - |log|], i);
    }
  }

  /** A peer is verified exactly when it was greeted. */
  ghost predicate VerifiedInv(s: State) {
    forall i: nat :: GreetedIn(s.local, s.log, i, |s.log|) <==> i < |s.slots| && s.slots[i].verified
  }

  lemma StepVerified(s: State, e: Event)
    requires VerifiedInv(s) && Can(s, e)
    ensures VerifiedInv(Step(s, e))
  {
    hide Step, AnswerTo;
    var t, more := Step(s, e), Written(s, e);
    StepTells(s, e);
    forall i: nat
      ensures GreetedIn(t.local, t.log, i, |t.log|) <==> i < |t.slots| && t.slots[i].verified
    {
      GreetedNext(s.local, s.log, more, i);
      if e.Receive? && s.slots[e.peer].stage.In? {
        assert more[0] == Heard(e.peer, e.frame);
      }
    }
  }

  /** The frame at `k` is answered right behind; an answer at `k` is one. */
  ghost predicate AnsweredAt(local: Option<Version>, log: seq<Entry>, k: nat)
    requires k < |log|
  {
    && (log[k].Heard? ==>
          var answer := AnswerTo(local, GreetedIn(local, log, log[k].peer, k), log[k].frame);
          answer.Some? ==> k + 1 < |log| && log[k + 1] == Sent(log[k].peer, answer.value))
    && (log[k].Sent? && !log[k].reply.Other? ==>
          && k > 0 && log[k - 1].Heard? && log[k - 1].peer == log[k].peer
          && AnswerTo(local, GreetedIn(local, log, log[k].peer, k - 1), log[k - 1].frame) == Some(log[k].reply))
  }

  ghost predicate AnsweredInv(s: State) { forall k :: 0 <= k < |s.log| ==> AnsweredAt(s.local, s.log, k) }

  lemma StepAnswered(s: State, e: Event)
    requires VerifiedInv(s) && AnsweredInv(s) && Can(s, e)
    ensures AnsweredInv(Step(s, e))
  {
    hide Step, AnswerTo, GreetedIn;
    var t, more := Step(s, e), Written(s, e);
    StepTells(s, e);
    forall k | 0 <= k < |t.log|
      ensures AnsweredAt(t.local, t.log, k)
    {
      if k < |s.log| {
        StillAnswered(s.local, s.log, more, k);
      } else {
        NowAnswered(s, e, k);
      }
    }
  }

  lemma StillAnswered(local: Option<Version>, log: seq<Entry>, more: seq<Entry>, k: nat)
    requires k < |log| && AnsweredAt(local, log, k)
    ensures AnsweredAt(local, log + more, k)
  {
    hide AnswerTo, GreetedIn;
    if log[k].Heard? {
      GreetedMore(local, log, more, log[k].peer, k);
    } else if log[k].Sent? && k > 0 {
      GreetedMore(local, log, more, log[k].peer, k - 1);
    }
  }

  lemma NowAnswered(s: State, e: Event, k: nat)
    requires VerifiedInv(s) && Can(s, e) && |s.log| <= k < |s.log| + |Written(s, e)|
    ensures AnsweredAt(s.local, s.log + Written(s, e), k)
  {
    hide AnswerTo, GreetedIn;
    var log := s.log + Written(s, e);
    assert log[k] == Written(s, e)[k - |s.log|];
    if e.Receive? {
      GreetedMore(s.local, s.log, Written(s, e), e.peer, |s.log|);
      assert log[|s.log|] == Heard(e.peer, e.frame);
    }
  }

  /** The commands heard of greeted peers among the first `n` entries, in order. */
  ghost function Accepted(local: Option<Version>, log: seq<Entry>, n: nat): seq<(nat, string)>
    requires n <= |log|
  {
    if n == 0 then []
    else Accepted(local, log, n - 1) + AcceptedAt(local, log, n - 1)
  }

  ghost function AcceptedAt(local: Option<Version>, log: seq<Entry>, k: nat): seq<(nat, string)>
    requires k < |log|
  {
    if log[k].Heard? && log[k].frame.Command? && GreetedIn(local, log, log[k].peer, k) then [(log[k].peer, log[k].frame.cmd)]
    else []
  }

  /** The commands handed to the handler among the first `n` entries, in order. */
  function HandledOf(log: seq<Entry>, n: nat): seq<(nat, string)>
    requires n <= |log|
  {
    if n == 0 then []
    else HandledOf(log, n - 1) + if log[n - 1].Handled? then [(log[n - 1].peer, log[n - 1].cmd)] else []
  }

  lemma {:induction false} SameBefore(local: Option<Version>, log: seq<Entry>, more: seq<Entry>, n: nat)
    requires n <= |log|
    ensures Accepted(local, log + more, n) == Accepted(local, log, n) && HandledOf(log + more, n) == HandledOf(log, n)
  {
    hide GreetedIn;
    if n > 0 {
      SameBefore(local, log, more, n - 1);
      assert (log + more)[n - 1] == log[n - 1];
      if log[n - 1].Heard? {
        GreetedMore(local, log, more, log[n - 1].peer, n - 1);
      }
    }
  }

  ghost predicate TurnsInv(s: State) {
    HandledOf(s.log, |s.log|) + s.queue == Accepted(s.local, s.log, |s.log|)
  }

  lemma Behind(local: Option<Version>, log: seq<Entry>, entry: Entry)
    ensures var all := log + [entry];
            && Accepted(local, all, |all|) == Accepted(local, log, |log|) + AcceptedAt(local, all, |log|)
            && HandledOf(all, |all|) == HandledOf(log, |log|) + if entry.Handled? then [(entry.peer, entry.cmd)] else []
  {
    SameBefore(local, log, [entry], |log|);
  }

  lemma StepTurns(s: State, e: Event)
    requires VerifiedInv(s) && TurnsInv(s) && Can(s, e)
    ensures TurnsInv(Step(s, e))
  {
    hide Step, AnswerTo, GreetedIn, Accepted, HandledOf;
    var t, more := Step(s, e), Written(s, e);
    StepTells(s, e);
    if more == [] {
      assert s.log + [] == s.log;
    } else {
      var once := s.log + [more[0]];
      Behind(s.local, s.log, more[0]);
      if e.Receive? {
        GreetedMore(s.local, s.log, [more[0]], e.peer, |s.log|);
      }
      if |more| == 2 {
        Behind(s.local, once, more[1]);
        assert t.log == once + [more[1]];
      } else {
        assert t.log == once;
      }
      var handled, accepted := HandledOf(s.log, |s.log|), Accepted(s.local, s.log, |s.log|);
      if e.RunHandler? {
        assert handled + s.queue == handled + [s.queue[0]] + s.queue[1..];
      }
    }
  }

  ghost predicate OrderInv(s: State) { VerifiedInv(s) && AnsweredInv(s) && TurnsInv(s) }

  lemma {:induction false} RunOrder(s: State, es: seq<Event>, s': State)
    requires OrderInv(s) && Run(s, es, s')
    ensures OrderInv(s')
    decreases |es|
  {
    hide VerifiedInv, AnsweredInv, TurnsInv, Can, Step;
    if es != [] {
      StepVerified(s, es[0]);
      StepAnswered(s, es[0]);
      StepTurns(s, es[0]);
      RunOrder(Step(s, es[0]), es[1..], s');
    }
  }

  /** Every frame that is heard has the answer it is due right behind it, and nothing but
      these is sent that is not a handler's. */
  lemma FramesAnswered(local: Option<Version>, es: seq<Event>, s: State, k: nat)
    requires Run(Fresh(local), es, s) && k < |s.log|
    ensures AnsweredAt(s.local, s.log, k)
  {
    RunOrder(Fresh(local), es, s);
  }

  /** Every command of a greeted peer is handed to the handler once, in the order they
      were heard: those that were, and those that wait. */
  lemma CommandsInTurn(local: Option<Version>, es: seq<Event>, s: State)
    requires Run(Fresh(local), es, s)
    ensures HandledOf(s.log, |s.log|) + s.queue == Accepted(s.local, s.log, |s.log|)
  {
    hide VerifiedInv, AnsweredInv;
    FreshOrder(local);
    RunOrder(Fresh(local), es, s);
  }

  lemma FreshOrder(local: Option<Version>)
    ensures OrderInv(Fresh(local))
  {
  }

  // ---- Nobody lingers ----

  /** A peer is verified or its hello timer runs; one that was refused is on its way out. */
  ghost predicate LingerInv(s: State) {
    && (forall i :: 0 <= i < |s.slots| ==> (s.slots[i].timer <==> s.slots[i].stage.In? && !s.slots[i].verified))
    && (forall k :: 0 <= k < |s.log| && s.log[k].Sent? && s.log[k].reply.Refused? ==>
          s.log[k].peer < |s.slots| && s.slots[s.log[k].peer].dying)
  }

  lemma StepLingers(s: State, e: Event)
    requires LingerInv(s) && Can(s, e)
    ensures LingerInv(Step(s, e))
  {
    hide Compatible;
    var t := Step(s, e);
    forall k | 0 <= k < |t.log| && t.log[k].Sent? && t.log[k].reply.Refused?
      ensures t.log[k].peer < |t.slots| && t.slots[t.log[k].peer].dying
    {
      assert k < |s.log| ==> t.log[k] == s.log[k];
    }
  }

  lemma {:induction false} RunLingers(s: State, es: seq<Event>, s': State)
    requires LingerInv(s) && Run(s, es, s')
    ensures LingerInv(s')
    decreases |es|
  {
    hide LingerInv, Can, Step;
    if es != [] {
      StepLingers(s, es[0]);
      RunLingers(Step(s, es[0]), es[1..], s');
    }
  }

  /** Nobody stays without having said hello: the timer of every such peer runs, and when
      it goes off the peer is taken out. */
  lemma SilentPeersGo(local: Option<Version>, es: seq<Event>, s: State, i: nat)
    requires Run(Fresh(local), es, s) && i < |s.slots|
    ensures s.slots[i].timer <==> s.slots[i].stage.In? && !s.slots[i].verified
    ensures Can(s, HelloTimeout(i)) <==> s.slots[i].stage.In? && !s.slots[i].verified
    ensures Can(s, HelloTimeout(i)) ==> !Step(s, HelloTimeout(i)).slots[i].stage.In?
  {
    RunLingers(Fresh(local), es, s);
  }

  /** A peer that was refused is taken out once what was sent to it is written. */
  lemma RefusedPeersGo(local: Option<Version>, es: seq<Event>, s: State, k: nat)
    requires Run(Fresh(local), es, s) && k < |s.log| && s.log[k].Sent? && s.log[k].reply.Refused?
    ensures Can(s, Flushed(s.log[k].peer)) && !Step(s, Flushed(s.log[k].peer)).slots[s.log[k].peer].stage.In?
  {
    RunLingers(Fresh(local), es, s);
  }

  /** Nothing is sent to a peer that is gone, and no step brings one back. */
  lemma {:induction false} NothingSentToTheGone(s: State, es: seq<Event>, s': State, i: nat)
    requires Run(s, es, s') && i < |s.slots| && !s.slots[i].stage.In?
    ensures i < |s'.slots| && !s'.slots[i].stage.In? && s.log <= s'.log
    ensures forall k :: |s.log| <= k < |s'.log| && (s'.log[k].Sent? || s'.log[k].Heard?) ==> s'.log[k].peer != i
    decreases |es|
  {
    hide Can, Step;
    if es != [] {
      GoneStep(s, es[0], i);
      NothingSentToTheGone(Step(s, es[0]), es[1..], s', i);
      var t := Step(s, es[0]);
      assert forall k :: |s.log| <= k < |t.log| ==> s'.log[k] == t.log[k];
    }
  }

  lemma GoneStep(s: State, e: Event, i: nat)
    requires Can(s, e) && i < |s.slots| && !s.slots[i].stage.In?
    ensures var t := Step(s, e);
            && i < |t.slots| && !t.slots[i].stage.In? && s.log <= t.log
            && forall k :: |s.log| <= k < |t.log| && (t.log[k].Sent? || t.log[k].Heard?) ==> t.log[k].peer != i
  {
    hide Compatible;
  }

  /** A callback a handler registers while the connection is not at its end runs exactly
      once when that is done. */
  lemma RegisteredRunsOnce(local: Option<Version>, es: seq<Event>, s: State, i: nat, after: seq<Event>, s': State)
    requires Run(Fresh(local), es, s) && Can(s, Register(i)) && !s.slots[i].stage.Gone?
    requires Run(Step(s, Register(i)), after, s') && i < |s'.slots| && s'.slots[i].stage.Gone?
    ensures var c := s.slots[i].registered;
            c !in s.slots[i].ran && c < |s'.slots[i].ran|
            && forall k :: 0 <= k < |s'.slots[i].ran| ==> (s'.slots[i].ran[k] == c <==> k == c)
  {
    RunSlots(Fresh(local), es, s);
    assert SlotOk(s.slots[i]);
    StepSlots(s, Register(i));
    RunSlots(Step(s, Register(i)), after, s');
    assert SlotOk(s'.slots[i]);
  }

  // ---- The server ----

  /** All of `closePeer`, when the callbacks register none. */
  function Closed(s: State, i: nat): State
    requires i < |s.slots|
  {
    if s.slots[i].stage.In? then
      SetSlot(s, i, s.slots[i].(stage := Gone, timer := false, ran := s.slots[i].ran + Upto(s.slots[i].registered)))
    else s
  }

  function RunAll(i: nat, n: nat): seq<Event> {
    if n == 0 then [RunCallback(i)] else [RunCallback(i)] + RunAll(i, n - 1)
  }

  /** The connection once the callbacks from its `n`-th on have run. */
  function RanFrom(slot: Slot, n: nat): Slot
    requires n <= slot.registered
  {
    slot.(stage := Gone, ran := slot.ran + Upto(slot.registered)[n..])
  }

  lemma RanOneMore(slot: Slot, n: nat)
    requires n < slot.registered
    ensures RanFrom(slot.(ran := slot.ran + [n], stage := Closing(n + 1)), n + 1) == RanFrom(slot, n)
  {
    var all := Upto(slot.registered);
    assert all[n..] == [n] + all[n + 1..];
    assert slot.ran + [n] + all[n + 1..] == slot.ran + all[n..];
  }

  lemma {:induction false} RunAllRuns(s: State, i: nat, n: nat)
    requires i < |s.slots| && n <= s.slots[i].registered && s.slots[i].stage == Closing(n)
    ensures Run(s, RunAll(i, s.slots[i].registered - n), SetSlot(s, i, RanFrom(s.slots[i], n)))
    decreases s.slots[i].registered - n
  {
    hide RanFrom;
    var slot := s.slots[i];
    var next := Step(s, RunCallback(i));
    if n == slot.registered {
      NoneLeft(slot);
      assert RunAll(i, 0)[1..] == [];
    } else {
      RunAllRuns(next, i, n + 1);
      RanOneMore(slot, n);
      assert RunAll(i, slot.registered - n)[1..] == RunAll(i, slot.registered - n - 1);
      SetTwice(s, i, slot.(ran := slot.ran + [n], stage := Closing(n + 1)), RanFrom(slot, n));
    }
  }

  lemma NoneLeft(slot: Slot)
    ensures RanFrom(slot, slot.registered) == slot.(stage := Gone)
  {
    assert slot.ran + Upto(slot.registered)[slot.registered..] == slot.ran;
  }

  lemma SetTwice(s: State, i: nat, a: Slot, b: Slot)
    requires i < |s.slots|
    ensures SetSlot(SetSlot(s, i, a), i, b) == SetSlot(s, i, b)
  {
  }

  /** It is the close and its callbacks one by one. */
  lemma ClosedIsRun(s: State, i: nat)
    requires i < |s.slots| && s.slots[i].stage.In?
    ensures Run(s, [Close(i)] + RunAll(i, s.slots[i].registered), Closed(s, i))
  {
    hide Run;
    var slot := s.slots[i];
    var es := [Close(i)] + RunAll(i, slot.registered);
    var t := ClosePeer(s, i);
    RunAllRuns(t, i, 0);
    assert Upto(slot.registered)[0..] == Upto(slot.registered);
    SetTwice(s, i, t.slots[i], Closed(s, i).slots[i]);
    assert es[1..] == RunAll(i, slot.registered);
    RunFirst(s, es, Closed(s, i));
  }

  lemma RunFirst(s: State, es: seq<Event>, s': State)
    requires es != [] && Can(s, es[0]) && Run(Step(s, es[0]), es[1..], s')
    ensures Run(s, es, s')
  {
  }

  class IrohPeerServer {
    const local: Option<Version>
    var slots: seq<Slot>
    var queue: seq<(nat, string)>
    var log: seq<Entry>

    function View(): State
      reads this
    {
      State(local, slots, queue, log)
    }

    constructor (local: Option<Version>)
      ensures View() == Fresh(local)
    {
      this.local := local;
      slots, queue, log := [], [], [];
    }

    /** A connection's stream is there: its slot, with the hello timer running. */
    method Accept() returns (i: nat)
      modifies this
      ensures View() == Step(old(View()), Connect) && i == |old(slots)|
    {
      i := |slots|;
      slots := slots + [Slot(false, true, false, 0, [], In)];
    }

    method SendFrame(i: nat, reply: Reply)
      requires i < |slots|
      modifies `log
      ensures View() == Send(old(View()), i, reply)
    {
      if !slots[i].stage.In? {
        return;
      }
      log := log + [Sent(i, reply)];
    }

    method Refuse(i: nat, version: Option<Version>)
      requires i < |slots|
      modifies `log, `slots
      ensures View() == SetSlot(Send(old(View()), i, Refused(version)), i, old(slots)[i].(dying := true))
    {
      SendFrame(i, Refused(version));
      slots := slots[i := slots[i].(dying := true)];
    }

    /** One turn of `readLoop`, and `onFrame`. */
    method ReadFrame(i: nat, frame: Frame)
      requires i < |slots|
      modifies this
      ensures View() == Step(old(View()), Receive(i, frame))
    {
      hide Compatible;
      if !slots[i].stage.In? {
        return;
      }
      log := log + [Heard(i, frame)];
      if frame.Malformed? {
        return;
      }
      if frame.Hello? {
        if slots[i].verified {
          return;
        }
        if !Compatible(frame.version, local) {
          Refuse(i, local);
          return;
        }
        slots := slots[i := slots[i].(verified := true, timer := false)];
        SendFrame(i, ServerInfo(local));
        return;
      }
      if !slots[i].verified {
        Refuse(i, None);
        return;
      }
      if frame.Ping? {
        SendFrame(i, Pong(frame.t));
        return;
      }
      queue := queue + [(i, frame.cmd)];
    }

    /** `closePeer` */
    method Shut(i: nat)
      requires i < |slots|
      modifies `slots
      ensures View() == Closed(old(View()), i)
    {
      var slot := slots[i];
      if !slot.stage.In? {
        return;
      }
      var ran := slot.ran;
      for n := 0 to slot.registered
        invariant ran == slot.ran + Upto(n)
      {
        assert Upto(n) + [n] == Upto(n + 1);
        ran := ran + [n];
      }
      slots := slots[i := slot.(stage := Gone, timer := false, ran := ran)];
    }

    /** `stop`: every peer, one after the other. */
    method Stop()
      modifies `slots
      ensures |slots| == |old(slots)| && forall i :: 0 <= i < |slots| ==> slots[i] == Closed(old(View()), i).slots[i]
    {
      for i := 0 to |slots|
        invariant |slots| == |old(slots)|
        invariant forall j :: 0 <= j < i ==> slots[j] == Closed(old(View()), j).slots[j]
        invariant forall j :: i <= j < |slots| ==> slots[j] == old(slots)[j]
      {
        Shut(i);
      }
    }
  }
}
