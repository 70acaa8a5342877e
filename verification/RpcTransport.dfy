/**
 One connection's RPCs: the wire's one-shot close (`IrohWireTransport.fireClose`) and
 the requests, liveness probe and close handler on top of it (`Transport`), from the
 moment the version handshake has settled and cleared its listeners.
 */
module RpcTransport {
  import opened Wrappers

  datatype Outcome = Answered | Failed | Refused | ClosedOff

  /** `late`: it was made when the wire's close had already fired. */
  datatype Request = Request(id: string, late: bool, outcome: Option<Outcome>)

  /** `reading`: the read loop runs. `routed`: the wire's close listener is the
      transport's and can still be called. `handler`: its unexpected-close handler is set; `heard`: how often it
      was called. `ticking`, `probing`: the ping interval and the pong deadline. */
  datatype State = State(
    reading: bool, closed: bool, closeFired: bool,
    installed: bool, routed: bool, handler: bool, heard: nat, intentional: bool,
    ticking: bool, probing: bool,
    pending: map<string, nat>, requests: seq<Request>)

  const Dialed := State(true, false, false, false, false, false, 0, false, false, false, map[], [])

  datatype Event =
    | Install
    | SetHandler
    | Ask(id: string, refused: bool)
    | Reply(id: string, error: bool)
    | Pong
    | Tick(refused: bool)
    | PongDeadline
    | ReadEnds
    | WireFails
    | Close

  function StopKeepalive(s: State): State { s.(ticking := false, probing := false) }

  /** Every pending request is rejected. */
  function RejectAll(requests: seq<Request>, pending: map<string, nat>): (r: seq<Request>)
    ensures |r| == |requests|
    ensures forall i :: 0 <= i < |requests| ==>
              r[i] == if requests[i].id in pending && pending[requests[i].id] == i
                      then requests[i].(outcome := Some(ClosedOff)) else requests[i]
  {
    seq(|requests|, i requires 0 <= i < |requests| =>
      if requests[i].id in pending && pending[requests[i].id] == i
      then requests[i].(outcome := Some(ClosedOff)) else requests[i])
  }

  /** `onTransportClosed` */
  function OnClosed(s: State): State {
    var t := StopKeepalive(s).(requests := RejectAll(s.requests, s.pending), pending := map[]);
    if !s.intentional && s.handler then t.(handler := false, heard := s.heard + 1) else t
  }

  function FireClose(s: State): State {
    if s.closeFired then s
    else if s.routed then OnClosed(s.(closeFired := true, routed := false))
    else s.(closeFired := true)
  }

  /** The wire's `close`. */
  function CloseWire(s: State): State { FireClose(s.(closed := true)) }

  function ProbeFailed(s: State): State { CloseWire(StopKeepalive(s)) }

  function Settle(s: State, id: string, outcome: Outcome): State {
    if id in s.pending && s.pending[id] < |s.requests| then
      s.(requests := s.requests[s.pending[id] := s.requests[s.pending[id]].(outcome := Some(outcome))],
         pending := s.pending - {id})
    else s
  }

  /** Request ids are fresh: random UUIDs. */
  predicate Can(s: State, e: Event) {
    match e
    case Install => !s.installed
    case SetHandler => s.installed
    case Ask(id, _) => s.installed && forall i :: 0 <= i < |s.requests| ==> s.requests[i].id != id
    case Reply(_, _) => s.installed && s.reading && !s.closed
    case Pong => s.installed && s.reading && !s.closed
    case Tick(_) => s.ticking
    case PongDeadline => s.probing
    case ReadEnds => s.reading
    case WireFails => true
    case Close => s.installed
  }

  function Step(s: State, e: Event): State
    requires Can(s, e)
  {
    match e
    case Install => s.(installed := true, routed := !s.closeFired, ticking := true)
    case SetHandler => s.(handler := true)
    case Ask(id, refused) =>
      var asked := s.(pending := s.pending[id := |s.requests|], requests := s.requests + [Request(id, s.closeFired, None)]);
      if refused then Settle(asked, id, Refused) else asked
    case Reply(id, error) => Settle(s, id, if error then Failed else Answered)
    case Pong => s.(probing := false)
    case Tick(refused) => if s.probing then s else if refused then ProbeFailed(s) else s.(probing := true)
    case PongDeadline => ProbeFailed(s)
    case ReadEnds => FireClose(s.(reading := false))
    case WireFails => FireClose(s)
    case Close => CloseWire(StopKeepalive(s.(intentional := true)))
  }

  ghost predicate Run(s: State, es: seq<Event>, s': State)
    decreases |es|
  {
    if es == [] then s' == s else Can(s, es[0]) && Run(Step(s, es[0]), es[1..], s')
  }

  // ---- What every step keeps ----

  predicate Waiting(s: State, i: nat) { i < |s.requests| && s.requests[i].outcome.None? }

  /** The map has exactly the requests that wait, and after the close only late ones do. */
  ghost predicate RequestOk(s: State, i: nat)
    requires i < |s.requests|
  {
    var r := s.requests[i];
    && (r.outcome.None? <==> r.id in s.pending && s.pending[r.id] == i)
    && (r.late ==> s.closeFired)
    && (s.closeFired && r.outcome.None? ==> r.late)
    && (forall j :: 0 <= j < i ==> s.requests[j].id != r.id)
  }

  ghost predicate Inv(s: State) {
    && (forall i :: 0 <= i < |s.requests| ==> RequestOk(s, i))
    && (forall id :: id in s.pending ==> s.pending[id] < |s.requests| && s.requests[s.pending[id]].id == id)
    && (s.routed <==> s.installed && !s.closeFired)
    && (!s.installed ==> s.requests == [] && !s.handler)
    && (s.closed ==> s.closeFired)
    && (!s.reading ==> s.closeFired)
    && (s.probing ==> s.ticking) && (s.ticking ==> s.installed)
    && s.heard <= 1 && (s.heard == 1 ==> s.closeFired)
  }

  lemma FireInv(s: State, closed: bool, reading: bool)
    requires Inv(s)
    ensures Inv(FireClose(s.(closed := closed, reading := reading)))
  {
    var t := FireClose(s.(closed := closed, reading := reading));
    forall i | 0 <= i < |t.requests|
      ensures RequestOk(t, i)
    {
      assert RequestOk(s, i);
    }
  }

  lemma SettleInv(s: State, id: string, outcome: Outcome)
    requires Inv(s)
    ensures Inv(Settle(s, id, outcome))
  {
    var t := Settle(s, id, outcome);
    forall i | 0 <= i < |t.requests|
      ensures RequestOk(t, i)
    {
      assert RequestOk(s, i);
      assert id in s.pending ==> RequestOk(s, s.pending[id]);
    }
  }

  lemma AskInv(s: State, id: string)
    requires Inv(s) && Can(s, Ask(id, false))
    ensures Inv(Step(s, Ask(id, false)))
  {
    var t := Step(s, Ask(id, false));
    forall i | 0 <= i < |t.requests|
      ensures RequestOk(t, i)
    {
      if i < |s.requests| {
        assert RequestOk(s, i);
      }
    }
  }

  lemma AsideInv(s: State, t: State)
    requires Inv(s) && t == s.(ticking := t.ticking, probing := t.probing, handler := t.handler, intentional := t.intentional)
    requires (t.probing ==> t.ticking) && (t.ticking ==> t.installed) && (t.handler ==> t.installed)
    ensures Inv(t)
  {
    forall i | 0 <= i < |t.requests|
      ensures RequestOk(t, i)
    {
      assert RequestOk(s, i);
    }
  }

  lemma StepInv(s: State, e: Event)
    requires Inv(s) && Can(s, e)
    ensures Inv(Step(s, e))
  {
    match e
    case Ask(id, refused) =>
      AskInv(s, id);
      SettleInv(Step(s, Ask(id, false)), id, Refused);
    case Reply(id, error) => SettleInv(s, id, if error then Failed else Answered);
    case Install =>
    case SetHandler => AsideInv(s, Step(s, e));
    case Pong => AsideInv(s, Step(s, e));
    case Tick(refused) =>
      AsideInv(s, StopKeepalive(s));
      AsideInv(s, s.(probing := true));
      FireInv(StopKeepalive(s), true, s.reading);
    case PongDeadline =>
      AsideInv(s, StopKeepalive(s));
      FireInv(StopKeepalive(s), true, s.reading);
    case ReadEnds => FireInv(s, s.closed, false);
    case WireFails => FireInv(s, s.closed, s.reading);
    case Close =>
      AsideInv(s, StopKeepalive(s.(intentional := true)));
      FireInv(StopKeepalive(s.(intentional := true)), true, s.reading);
  }

  lemma {:induction false} RunInv(s: State, es: seq<Event>, s': State)
    requires Inv(s) && Run(s, es, s')
    ensures Inv(s')
    decreases |es|
  {
    hide Inv, Can, Step;
    if es != [] {
      StepInv(s, es[0]);
      RunInv(Step(s, es[0]), es[1..], s');
    }
  }

  // ---- Requests ----

  /** An outcome is given once. */
  ghost predicate Lasts(s: State, t: State) {
    && |s.requests| <= |t.requests|
    && (forall i :: 0 <= i < |s.requests| ==>
          t.requests[i].id == s.requests[i].id && t.requests[i].late == s.requests[i].late
          && (s.requests[i].outcome.Some? ==> t.requests[i].outcome == s.requests[i].outcome))
    && (s.closeFired ==> t.closeFired) && (s.closed ==> t.closed) && (!s.reading ==> !t.reading)
  }

  lemma SettleLasts(s: State, id: string, outcome: Outcome)
    requires Inv(s)
    ensures Lasts(s, Settle(s, id, outcome))
  {
    if id in s.pending {
      assert RequestOk(s, s.pending[id]);
    }
  }

  lemma FireLasts(s: State, closed: bool, reading: bool)
    requires Inv(s) && (s.closed ==> closed) && (!s.reading ==> !reading)
    ensures Lasts(s, FireClose(s.(closed := closed, reading := reading)))
  {
    forall i | 0 <= i < |s.requests|
      ensures s.requests[i].outcome.Some? ==> !(s.requests[i].id in s.pending && s.pending[s.requests[i].id] == i)
    {
      assert RequestOk(s, i);
    }
  }

  lemma ProbeLasts(s: State, intentional: bool)
    requires Inv(s)
    ensures Lasts(s, CloseWire(StopKeepalive(s.(intentional := intentional))))
  {
    hide FireClose, RequestOk;
    var t := StopKeepalive(s.(intentional := intentional));
    AsideInv(s, t);
    FireLasts(t, true, s.reading);
  }

  lemma AskLasts(s: State, id: string, refused: bool)
    requires Inv(s) && Can(s, Ask(id, refused))
    ensures Lasts(s, Step(s, Ask(id, refused)))
  {
    hide Settle, RequestOk;
    AskInv(s, id);
    SettleLasts(Step(s, Ask(id, false)), id, Refused);
  }

  lemma StepLasts(s: State, e: Event)
    requires Inv(s) && Can(s, e)
    ensures Lasts(s, Step(s, e))
  {
    hide Settle, FireClose, CloseWire, StopKeepalive, RequestOk, Lasts;
    match e
    case Ask(id, refused) => AskLasts(s, id, refused);
    case Reply(id, error) => SettleLasts(s, id, if error then Failed else Answered);
    case Tick(refused) =>
      if s.probing || !refused {
        SameLasts(s, Step(s, e));
      } else {
        ProbeLasts(s, s.intentional);
      }
    case PongDeadline => ProbeLasts(s, s.intentional);
    case ReadEnds => FireLasts(s, s.closed, false);
    case WireFails => FireLasts(s, s.closed, s.reading);
    case Close => ProbeLasts(s, true);
    case _ => SameLasts(s, Step(s, e));
  }

  lemma SameLasts(s: State, t: State)
    requires t.requests == s.requests && t.closeFired == s.closeFired && t.closed == s.closed && t.reading == s.reading
    ensures Lasts(s, t)
  {
  }

  lemma {:induction false} OutcomeOnce(s: State, es: seq<Event>, s': State)
    requires Inv(s) && Run(s, es, s')
    ensures Lasts(s, s')
    decreases |es|
  {
    hide Inv, Can, Step;
    if es != [] {
      StepLasts(s, es[0]);
      StepInv(s, es[0]);
      OutcomeOnce(Step(s, es[0]), es[1..], s');
    }
  }

  /** The wire's close, once fired, has settled every request made before it: what
      waits then was made after it. */
  lemma CloseSettlesAll(es: seq<Event>, s: State, i: nat)
    requires Run(Dialed, es, s) && s.closeFired && Waiting(s, i)
    ensures s.requests[i].late
  {
    RunInv(Dialed, es, s);
    assert RequestOk(s, i);
  }

  /** Nothing can settle a request any more. */
  predicate Deaf(s: State) { s.closeFired && (!s.reading || s.closed) }

  lemma DeafStep(s: State, e: Event, i: nat)
    requires Inv(s) && Can(s, e) && Deaf(s) && Waiting(s, i)
    ensures Deaf(Step(s, e)) && Waiting(Step(s, e), i)
  {
  }

  lemma {:induction false} DeafRun(s: State, es: seq<Event>, s': State, i: nat)
    requires Inv(s) && Deaf(s) && Waiting(s, i) && Run(s, es, s')
    ensures Waiting(s', i)
    decreases |es|
  {
    hide Inv, Can, Step, Deaf, Waiting;
    if es != [] {
      DeafStep(s, es[0], i);
      StepInv(s, es[0]);
      DeafRun(Step(s, es[0]), es[1..], s', i);
    }
  }

  /** No run from here settles the request. */
  ghost predicate Hangs(s: State, i: nat) { forall es, s' :: Run(s, es, s') ==> Waiting(s', i) }

  lemma OneStep(s: State, e: Event)
    requires Can(s, e)
    ensures Run(s, [e], Step(s, e))
  {
    assert [e][1..] == [];
  }

  lemma CanSettle(s: State, i: nat) returns (e: Event)
    requires Inv(s) && Waiting(s, i) && !Deaf(s)
    ensures Can(s, e) && !Waiting(Step(s, e), i)
  {
    assert RequestOk(s, i);
    e := if s.closeFired then Reply(s.requests[i].id, false) else Close;
  }

  /** A waiting request hangs for good exactly when the wire's close has fired and the
      read loop has ended or was closed. Nothing stops one from being made then: the
      write fails silently and no close comes any more. */
  lemma HangsIff(before: seq<Event>, s: State, i: nat)
    requires Run(Dialed, before, s) && Waiting(s, i)
    ensures Hangs(s, i) <==> Deaf(s)
  {
    hide Inv, Can, Step, Deaf, Waiting, Run;
    DialedInv();
    RunInv(Dialed, before, s);
    if Deaf(s) {
      forall es, s' | Run(s, es, s')
        ensures Waiting(s', i)
      {
        DeafRun(s, es, s', i);
      }
    } else {
      var e := CanSettle(s, i);
      OneStep(s, e);
      var es, t := [e], Step(s, e);
      assert Run(s, es, t) && !Waiting(t, i);
    }
  }

  lemma DialedInv()
    ensures Inv(Dialed)
  {
  }

  /** Such a request: after the peer is gone, and before the provider has let go. */
  lemma LateRequestHangs(es: seq<Event>, s: State, id: string)
    requires Run(Dialed, es, s) && Deaf(s) && Can(s, Ask(id, false))
    ensures Hangs(Step(s, Ask(id, false)), |s.requests|)
  {
    RunInv(Dialed, es, s);
    StepInv(s, Ask(id, false));
    var t := Step(s, Ask(id, false));
    forall more, s' | Run(t, more, s')
      ensures Waiting(s', |s.requests|)
    {
      DeafRun(t, more, s', |s.requests|);
    }
  }

  const Listening := Dialed.(installed := true, routed := true, ticking := true, handler := true)
  const Heard := Listening.(reading := false, closeFired := true, routed := false, ticking := false, handler := false,
                            heard := 1)

  lemma Behind(s: State, e: Event, es: seq<Event>, s': State) returns (es': seq<Event>)
    requires Can(s, e) && Run(Step(s, e), es, s')
    ensures Run(s, es', s')
  {
    es' := [e] + es;
    assert es'[1..] == es;
  }

  lemma UntilHeard() returns (es: seq<Event>)
    ensures Run(Dialed, es, Heard)
  {
    es := [];
    assert RejectAll([], map[]) == [];
    es := Behind(Listening, ReadEnds, es, Heard);
    es := Behind(Listening.(handler := false), SetHandler, es, Heard);
    es := Behind(Dialed, Install, es, Heard);
  }

  /** It happens: the drop is heard, and what is asked before the reconnect hangs. */
  lemma AskedAfterDrop(id: string) returns (es: seq<Event>)
    ensures Run(Dialed, es, Heard) && Can(Heard, Ask(id, false)) && Hangs(Step(Heard, Ask(id, false)), 0)
  {
    es := UntilHeard();
    LateRequestHangs(es, Heard, id);
  }

  // ---- The close handler ----

  /** A step calls the unexpected-close handler exactly when the wire's close fires in
      it with the transport listening, a handler set and no close of our own. */
  lemma HeardIff(es: seq<Event>, s: State, e: Event)
    requires Run(Dialed, es, s) && Can(s, e)
    ensures var t := Step(s, e);
            && t.heard <= 1
            && (t.heard > s.heard <==> !s.closeFired && t.closeFired && s.routed && s.handler && !s.intentional && !e.Close?)
  {
    hide Inv, Step, Can;
    DialedInv();
    RunInv(Dialed, es, s);
    StepInv(s, e);
    HeardAtMostOnce(Step(s, e));
    StepHeard(s, e);
  }

  lemma SettleOnly(s: State, id: string, outcome: Outcome)
    ensures var t := Settle(s, id, outcome); t.closeFired == s.closeFired && t.routed == s.routed && t.heard == s.heard
  {
  }

  /** The step does not fire the wire's close. */
  predicate Harmless(s: State, e: Event) {
    match e
    case Tick(refused) => s.probing || !refused
    case PongDeadline => false
    case ReadEnds => false
    case WireFails => false
    case Close => false
    case _ => true
  }

  lemma AskHarmless(s: State, e: Event)
    requires Can(s, e) && (e.Ask? || e.Reply?)
    ensures var t := Step(s, e); t.closeFired == s.closeFired && t.heard == s.heard && t.routed == s.routed
  {
    hide Settle;
    match e
    case Ask(id, refused) =>
      var asked := [Request(id, s.closeFired, None)];
      SettleOnly(s.(pending := s.pending[id := |s.requests|], requests := s.requests + asked), id, Refused);
    case Reply(id, error) => SettleOnly(s, id, if error then Failed else Answered);
  }

  lemma HarmlessStep(s: State, e: Event)
    requires Can(s, e) && Harmless(s, e)
    ensures var t := Step(s, e); t.closeFired == s.closeFired && t.heard == s.heard
    ensures s.closeFired && !s.routed ==> !Step(s, e).routed
  {
    hide Settle, FireClose;
    if e.Ask? || e.Reply? {
      AskHarmless(s, e);
    }
  }

  /** The state as the wire's close fires in the step. */
  function Firing(s: State, e: Event): State {
    match e
    case ReadEnds => s.(reading := false)
    case WireFails => s
    case Close => StopKeepalive(s.(intentional := true)).(closed := true)
    case _ => StopKeepalive(s).(closed := true)
  }

  lemma FiringStep(s: State, e: Event)
    requires Can(s, e) && !Harmless(s, e)
    ensures Step(s, e) == FireClose(Firing(s, e))
  {
    hide FireClose;
  }

  /** What a step comes to, of those that close the wire. */
  lemma StepHeard(s: State, e: Event)
    requires Can(s, e)
    ensures var t := Step(s, e);
            var fires := !s.closeFired && t.closeFired;
            t.heard == s.heard + if fires && s.routed && s.handler && !s.intentional && !e.Close? then 1 else 0
  {
    hide FireClose, Step, Can;
    if Harmless(s, e) {
      HarmlessStep(s, e);
    } else {
      FiringStep(s, e);
      FireHeard(Firing(s, e));
    }
  }

  lemma HeardAtMostOnce(s: State)
    requires Inv(s)
    ensures s.heard <= 1
  {
  }

  lemma FireHeard(s: State)
    ensures FireClose(s).closeFired
    ensures FireClose(s).heard == s.heard + if !s.closeFired && s.routed && s.handler && !s.intentional then 1 else 0
  {
    hide RejectAll;
  }

  lemma UnheardStep(s: State, e: Event)
    requires s.closeFired && !s.routed && Can(s, e)
    ensures Step(s, e).closeFired && !Step(s, e).routed && Step(s, e).heard == s.heard
  {
    hide FireClose, Step, Can;
    if Harmless(s, e) {
      HarmlessStep(s, e);
    } else {
      FiringStep(s, e);
      FiredOnce(Firing(s, e));
    }
  }

  lemma FiredOnce(s: State)
    requires s.closeFired
    ensures FireClose(s) == s
  {
  }

  /** So a wire that dies before the transport listens is never heard of. */
  lemma {:induction false} UnheardStays(s: State, es: seq<Event>, s': State)
    requires s.closeFired && !s.routed && Run(s, es, s')
    ensures s'.heard == s.heard
    decreases |es|
  {
    hide Can, Step;
    if es != [] {
      UnheardStep(s, es[0]);
      UnheardStays(Step(s, es[0]), es[1..], s');
    }
  }

  /** Such a run: the stream ends between the version handshake and the transport's
      listeners, and the handler set afterwards waits for nothing. */
  lemma UnheardHappens() returns (es: seq<Event>, s: State)
    ensures Run(Dialed, es, s) && s.handler && !s.intentional && s.closeFired && !s.routed && s.heard == 0
  {
    es := [ReadEnds, Install, SetHandler];
    var ended := Step(Dialed, ReadEnds);
    var installed := Step(ended, Install);
    s := Step(installed, SetHandler);
    assert es[1..] == [Install, SetHandler] && es[1..][1..] == [SetHandler] && es[1..][1..][1..] == [];
    assert Run(installed, [SetHandler], s);
    assert Run(ended, [Install, SetHandler], s);
  }

  // ---- The liveness probe ----

  /** A pong deadline that passes closes the wire: no timer runs then, and no request
      made before it waits. */
  lemma ProbeCloses(es: seq<Event>, s: State)
    requires Run(Dialed, es, s)
    ensures s.probing ==>
              var t := Step(s, PongDeadline);
              t.closed && t.closeFired && !t.ticking && !t.probing
              && forall i: nat :: Waiting(t, i) ==> t.requests[i].late
  {
    RunInv(Dialed, es, s);
    if s.probing {
      StepInv(s, PongDeadline);
      var t := Step(s, PongDeadline);
      forall i: nat | Waiting(t, i)
        ensures t.requests[i].late
      {
        assert RequestOk(t, i);
      }
    }
  }

  // ---- What is told to whom ----

  /** A reply settles the request of its id, if that waits, by what it is: answered, or
      failed when it is an error. It changes nothing else. */
  lemma ReplyTells(es: seq<Event>, s: State, id: string, error: bool)
    requires Run(Dialed, es, s) && Can(s, Reply(id, error))
    ensures var t := Step(s, Reply(id, error));
            && t == s.(requests := t.requests, pending := t.pending) && |t.requests| == |s.requests|
            && (forall i :: 0 <= i < |s.requests| ==>
                  t.requests[i] == if Waiting(s, i) && s.requests[i].id == id
                                   then Request(id, s.requests[i].late, Some(if error then Failed else Answered))
                                   else s.requests[i])
            && forall i: nat :: Waiting(t, i) <==> Waiting(s, i) && s.requests[i].id != id
  {
    DialedInv();
    RunInv(Dialed, es, s);
    forall i | 0 <= i < |s.requests|
      ensures Waiting(s, i) && s.requests[i].id == id <==> id in s.pending && s.pending[id] == i
    {
      assert RequestOk(s, i);
    }
  }

  /** A request is the last one made and waits, unless the wire refused it there and then. */
  lemma AskTells(es: seq<Event>, s: State, id: string, refused: bool)
    requires Run(Dialed, es, s) && Can(s, Ask(id, refused))
    ensures var t := Step(s, Ask(id, refused));
            && t == s.(requests := t.requests, pending := t.pending)
            && t.requests == s.requests + [Request(id, s.closeFired, if refused then Some(Refused) else None)]
  {
    hide RequestOk;
    assert |s.requests + [Request(id, s.closeFired, None)]| == |s.requests| + 1;
  }

  /** What is there of a request's outcome in what has happened. */
  ghost predicate Told(es: seq<Event>, s: State, i: nat)
    requires i < |s.requests|
  {
    var r := s.requests[i];
    && (r.outcome == Some(Answered) ==> Reply(r.id, false) in es)
    && (r.outcome == Some(Failed) ==> Reply(r.id, true) in es)
    && (r.outcome == Some(Refused) ==> Ask(r.id, true) in es)
    && (r.outcome == Some(ClosedOff) ==> s.closeFired && !r.late)
  }

  ghost predicate AllTold(es: seq<Event>, s: State) { forall i :: 0 <= i < |s.requests| ==> Told(es, s, i) }

  lemma SettleTold(es: seq<Event>, s: State, id: string, outcome: Outcome)
    requires Inv(s) && AllTold(es, s)
    requires match outcome
             case Answered => Reply(id, false) in es
             case Failed => Reply(id, true) in es
             case Refused => Ask(id, true) in es
             case ClosedOff => false
    ensures AllTold(es, Settle(s, id, outcome))
  {
    hide RequestOk;
    var t := Settle(s, id, outcome);
    forall i | 0 <= i < |t.requests|
      ensures Told(es, t, i)
    {
      assert Told(es, s, i);
    }
  }

  lemma FireTold(es: seq<Event>, s: State, t: State)
    requires Inv(s) && AllTold(es, s) && t.requests == s.requests && t.pending == s.pending && t.closeFired == s.closeFired
    requires t.routed == s.routed
    ensures AllTold(es, FireClose(t))
  {
    var u := FireClose(t);
    forall i | 0 <= i < |u.requests|
      ensures Told(es, u, i)
    {
      assert Told(es, s, i) && RequestOk(s, i);
    }
  }

  lemma ToldLater(es: seq<Event>, e: Event, s: State)
    requires AllTold(es, s)
    ensures AllTold(es + [e], s)
  {
    forall i | 0 <= i < |s.requests|
      ensures Told(es + [e], s, i)
    {
      assert Told(es, s, i);
    }
  }

  lemma AskedTold(es: seq<Event>, s: State, id: string)
    requires AllTold(es, s)
    ensures AllTold(es, s.(requests := s.requests + [Request(id, s.closeFired, None)], pending := s.pending[id := |s.requests|]))
  {
    var t := s.(requests := s.requests + [Request(id, s.closeFired, None)], pending := s.pending[id := |s.requests|]);
    forall i | 0 <= i < |t.requests|
      ensures Told(es, t, i)
    {
      assert i < |s.requests| ==> Told(es, s, i);
    }
  }

  lemma StepTold(es: seq<Event>, s: State, e: Event)
    requires Inv(s) && AllTold(es, s) && Can(s, e)
    ensures AllTold(es + [e], Step(s, e))
  {
    hide Inv, AllTold, Settle, FireClose;
    ToldLater(es, e, s);
    var more := es + [e];
    assert e in more;
    match e
    case Ask(id, refused) =>
      AskedTold(more, s, id);
      AskInv(s, id);
      if refused {
        SettleTold(more, Step(s, Ask(id, false)), id, Refused);
      }
    case Reply(id, error) => SettleTold(more, s, id, if error then Failed else Answered);
    case Tick(refused) =>
      FireTold(more, s, StopKeepalive(s).(closed := true));
      SameTold(more, s, s.(probing := true));
    case PongDeadline => FireTold(more, s, StopKeepalive(s).(closed := true));
    case ReadEnds => FireTold(more, s, s.(reading := false));
    case WireFails => FireTold(more, s, s);
    case Close => FireTold(more, s, StopKeepalive(s.(intentional := true)).(closed := true));
    case _ => SameTold(more, s, Step(s, e));
  }

  lemma SameTold(es: seq<Event>, s: State, t: State)
    requires AllTold(es, s) && t.requests == s.requests && t.closeFired == s.closeFired
    ensures AllTold(es, t)
  {
    forall i | 0 <= i < |t.requests|
      ensures Told(es, t, i)
    {
      assert Told(es, s, i);
    }
  }

  lemma {:induction false} RunTold(es: seq<Event>, s: State, more: seq<Event>, s': State)
    requires Inv(s) && AllTold(es, s) && Run(s, more, s')
    ensures AllTold(es + more, s')
    decreases |more|
  {
    hide Inv, AllTold, Can, Step;
    if more == [] {
      assert es + [] == es;
    } else {
      StepTold(es, s, more[0]);
      StepInv(s, more[0]);
      RunTold(es + [more[0]], Step(s, more[0]), more[1..], s');
      assert es + [more[0]] + more[1..] == es + more;
    }
  }

  /** No request is told what did not happen: it is answered, or fails, only by a reply of
      its id that says so, is refused only by the wire, and is closed off only by a
      close of the wire after it was made. */
  lemma OutcomeIsTold(es: seq<Event>, s: State, i: nat)
    requires Run(Dialed, es, s) && i < |s.requests|
    ensures Told(es, s, i)
  {
    DialedInv();
    RunTold([], Dialed, es, s);
    assert [] + es == es;
  }

  /** Once it listens the transport probes: from then on until it is closed. */
  lemma InstallTells(s: State)
    requires Can(s, Install)
    ensures var t := Step(s, Install);
            t.installed && t.ticking && (t.routed <==> !s.closeFired) && Can(t, Tick(false)) && Can(t, Close)
            && !Step(t, Close).ticking && !Step(t, Close).probing && Step(t, Close).closed && Step(t, Close).intentional
  {
  }

  /** The liveness probe: a tick pings, unless the last ping's pong is still due; the pong
      makes it due no more; and a ping the wire refuses closes it, as a pong that does
      not come does. */
  lemma ProbeTells(s: State, refused: bool)
    requires s.ticking
    ensures var t := Step(s, Tick(refused));
            && (s.probing ==> t == s)
            && (!s.probing && !refused ==> t == s.(probing := true) && Can(t, PongDeadline))
            && (!s.probing && refused ==> t.closed && t.closeFired && !t.ticking && !t.probing)
    ensures s.installed && s.reading && !s.closed ==>
              Can(s, Pong) && Step(s, Pong) == s.(probing := false) && !Can(Step(s, Pong), PongDeadline)
  {
  }

  // ---- The code ----

  class Transport {
    var reading: bool
    var closed: bool
    var closeFired: bool
    var installed: bool
    var routed: bool
    var handler: bool
    var heard: nat
    var intentional: bool
    var ticking: bool
    var probing: bool
    var pending: map<string, nat>
    var requests: seq<Request>

    function View(): State
      reads this
    {
      State(reading, closed, closeFired, installed, routed, handler, heard, intentional, ticking, probing, pending, requests)
    }

    constructor ()
      ensures View() == Dialed
    {
      reading, closed, closeFired, installed, routed := true, false, false, false, false;
      handler, heard, intentional, ticking, probing := false, 0, false, false, false;
      pending, requests := map[], [];
    }

    /** `installMessageHandlers` */
    method InstallHandlers()
      requires Can(View(), Event.Install)
      modifies this
      ensures View() == Step(old(View()), Event.Install)
    {
      installed := true;
      routed := !closeFired;
      ticking := true;
    }

    /** The loop over the pending requests. */
    method RejectPending()
      modifies `requests
      ensures requests == RejectAll(old(requests), pending)
    {
      hide RejectAll;
      ghost var rejected := RejectAll(requests, pending);
      for i := 0 to |requests|
        invariant |requests| == |old(requests)|
        invariant forall k :: i <= k < |requests| ==> requests[k] == old(requests)[k]
        invariant forall k :: 0 <= k < i ==> requests[k] == rejected[k]
      {
        if requests[i].id in pending && pending[requests[i].id] == i {
          requests := requests[i := requests[i].(outcome := Some(ClosedOff))];
        }
      }
    }

    /** `onTransportClosed` */
    method OnTransportClosed()
      modifies this
      ensures View() == OnClosed(old(View()))
    {
      hide RejectAll;
      ticking, probing := false, false;
      RejectPending();
      pending := map[];
      if !intentional && handler {
        handler := false;
        heard := heard + 1;
      }
    }

    /** `fireClose` */
    method Fire()
      modifies this
      ensures View() == FireClose(old(View()))
    {
      hide OnClosed;
      if closeFired {
        return;
      }
      closeFired := true;
      if routed {
        routed := false;
        OnTransportClosed();
      }
    }

    /** `close` of the transport. */
    method CloseIt()
      requires Can(View(), Event.Close)
      modifies this
      ensures View() == Step(old(View()), Event.Close)
    {
      hide FireClose, OnClosed, RejectAll;
      intentional := true;
      ticking, probing := false, false;
      closed := true;
      Fire();
    }

    /** `request`; `refused`: the wire would not take it. */
    method Send(id: string, refused: bool)
      requires Can(View(), Event.Ask(id, refused))
      modifies this
      ensures View() == Step(old(View()), Event.Ask(id, refused))
    {
      pending := pending[id := |requests|];
      requests := requests + [Request(id, closeFired, None)];
      if refused {
        var i := pending[id];
        pending := pending - {id};
        requests := requests[i := requests[i].(outcome := Some(Refused))];
      }
    }

    /** The frame router, for a frame with a request id. */
    method Route(id: string, error: bool)
      requires Can(View(), Event.Reply(id, error))
      modifies this
      ensures View() == Step(old(View()), Event.Reply(id, error))
    {
      if id !in pending || pending[id] >= |requests| {
        return;
      }
      var i := pending[id];
      pending := pending - {id};
      requests := requests[i := requests[i].(outcome := Some(if error then Failed else Answered))];
    }

    /** One turn of the ping interval. */
    method OnTick(refused: bool)
      requires Can(View(), Event.Tick(refused))
      modifies this
      ensures View() == Step(old(View()), Event.Tick(refused))
    {
      if probing {
        return;
      }
      if refused {
        OnProbeFailed();
        return;
      }
      probing := true;
    }

    /** `probeFailed` */
    method OnProbeFailed()
      modifies this
      ensures View() == ProbeFailed(old(View()))
    {
      hide FireClose, OnClosed, RejectAll;
      ticking, probing := false, false;
      closed := true;
      Fire();
    }
  }
}
