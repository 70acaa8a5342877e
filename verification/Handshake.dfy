/**
 The phone's side of the version handshake (`helloHandshake`), and the two ends
 together.
 */
module Handshake {
  import opened Wrappers
  import opened Protocol
  import PeerServer

  /** What the wire gives while the handshake listens. `OtherFrame` is any frame that
      decides nothing. */
  datatype Input =
    | ServerInfo(version: Option<Version>)
    | Refusal(version: Option<Version>)
    | OtherFrame
    | WireClosed
    | Deadline
    | SendThrew

  /** `Incompatible` names the side to update. */
  datatype Outcome = Resolved | Incompatible(outdated: Outdated) | ClosedEarly | TimedOut | SendFailed

  datatype Outdated = App | Daemon | Unknown

  /** `IncompatibleProtocolError` */
  function OutdatedOf(daemon: Option<Version>, app: Option<Version>): Outdated {
    match OutdatedSide(daemon, app)
    case Some(Remote) => Daemon
    case Some(Local) => App
    case None => Unknown
  }

  /** What an input settles the handshake with, if it does. */
  function Decides(app: Option<Version>, input: Input): Option<Outcome> {
    match input
    case ServerInfo(version) =>
      Some(if Compatible(version, app) then Resolved else Incompatible(OutdatedOf(version, app)))
    case Refusal(version) => Some(Incompatible(OutdatedOf(version, app)))
    case OtherFrame => None
    case WireClosed => Some(ClosedEarly)
    case Deadline => Some(TimedOut)
    case SendThrew => Some(SendFailed)
  }

  /** The outcome is that of the first input that decides. */
  function FirstDecision(app: Option<Version>, inputs: seq<Input>): Option<Outcome> {
    if inputs == [] then None
    else if Decides(app, inputs[0]).Some? then Decides(app, inputs[0])
    else FirstDecision(app, inputs[1..])
  }

  /** The side to update is the lower one; without two versions that differ it is not known. */
  predicate Names(side: Outdated, daemon: Option<Version>, app: Option<Version>) {
    match side
    case Daemon => daemon.Some? && app.Some? && Compare(daemon.value, app.value) == Less
    case App => daemon.Some? && app.Some? && Compare(app.value, daemon.value) == Less
    case Unknown => daemon.None? || app.None? || daemon == app
  }

  /** When an input settles the handshake this way. */
  predicate Means(app: Option<Version>, input: Input, outcome: Outcome) {
    match outcome
    case Resolved => input.ServerInfo? && Compatible(input.version, app)
    case Incompatible(side) =>
      && (input.Refusal? || (input.ServerInfo? && !Compatible(input.version, app)))
      && Names(side, input.version, app)
    case ClosedEarly => input.WireClosed?
    case TimedOut => input.Deadline?
    case SendFailed => input.SendThrew?
  }

  lemma DecidesMeans(app: Option<Version>, input: Input)
    ensures Decides(app, input).None? <==> input == OtherFrame
    ensures Decides(app, input).Some? ==> Means(app, input, Decides(app, input).value)
  {
    hide Compatible, Compare;
    if (input.ServerInfo? || input.Refusal?) && input.version.Some? && app.Some? {
      TotalOrder(input.version.value, app.value);
    }
  }

  /** The first input that is not an idle frame decides, by what it is. */
  lemma {:induction false} FirstDecides(app: Option<Version>, inputs: seq<Input>)
    ensures FirstDecision(app, inputs).None? <==> forall k :: 0 <= k < |inputs| ==> inputs[k] == OtherFrame
    ensures FirstDecision(app, inputs).Some? ==>
              exists k :: 0 <= k < |inputs| && Means(app, inputs[k], FirstDecision(app, inputs).value)
                          && forall j :: 0 <= j < k ==> inputs[j] == OtherFrame
  {
    hide Decides, Means;
    if inputs != [] {
      DecidesMeans(app, inputs[0]);
    }
    if inputs != [] && Decides(app, inputs[0]).None? {
      FirstDecides(app, inputs[1..]);
      assert forall k :: 1 <= k < |inputs| ==> inputs[k] == inputs[1..][k - 1];
      if FirstDecision(app, inputs[1..]).Some? {
        var k :| 0 <= k < |inputs| - 1 && Means(app, inputs[1..][k], FirstDecision(app, inputs[1..]).value)
                 && forall j :: 0 <= j < k ==> inputs[1..][j] == OtherFrame;
        assert inputs[k + 1] == inputs[1..][k];
        assert forall j :: 0 <= j < k + 1 ==> inputs[j] == OtherFrame;
      }
    }
  }

  lemma {:induction false} DecisionAppend(app: Option<Version>, inputs: seq<Input>, input: Input)
    ensures FirstDecision(app, inputs + [input])
            == if FirstDecision(app, inputs).Some? then FirstDecision(app, inputs) else Decides(app, input)
  {
    if inputs == [] {
      assert [input][1..] == [];
    } else {
      DecisionAppend(app, inputs[1..], input);
      assert (inputs + [input])[1..] == inputs[1..] + [input];
    }
  }

  /** The handshake on the wire: its listeners and its timer. */
  class HelloHandshake {
    const app: Option<Version>
    var settled: bool
    var outcome: Option<Outcome>
    var onFrame: bool
    var onClose: bool
    var timer: bool
    /** All that came while it listened for it. */
    ghost var inputs: seq<Input>

    ghost predicate Valid()
      reads this
    {
      && outcome == FirstDecision(app, inputs)
      && (settled <==> outcome.Some?)
      && onFrame == !settled && onClose == !settled && timer == !settled
    }

    constructor (app: Option<Version>)
      ensures Valid() && this.app == app && inputs == [] && !settled
    {
      this.app := app;
      settled, outcome, onFrame, onClose, timer := false, None, true, true, true;
      inputs := [];
    }

    /** `finish` */
    method Finish(with: Outcome)
      modifies `settled, `outcome, `onFrame, `onClose, `timer
      ensures old(settled) ==> settled && outcome == old(outcome) && onFrame == old(onFrame) && onClose == old(onClose)
                               && timer == old(timer)
      ensures !old(settled) ==> settled && outcome == Some(with) && !onFrame && !onClose && !timer
    {
      if settled {
        return;
      }
      settled := true;
      timer := false;
      onFrame := false;
      onClose := false;
      outcome := Some(with);
    }

    /** One thing happens on the wire; a settled handshake does not hear it. */
    method Happen(input: Input)
      requires Valid()
      modifies this
      ensures Valid() && inputs == old(inputs) + [input]
      ensures old(outcome).Some? ==> outcome == old(outcome)
      ensures old(outcome).None? ==> outcome == Decides(app, input)
    {
      DecisionAppend(app, inputs, input);
      inputs := inputs + [input];
      match input
      case ServerInfo(version) =>
        if onFrame {
          if !Compatible(version, app) {
            Finish(Incompatible(OutdatedOf(version, app)));
          } else {
            Finish(Resolved);
          }
        }
      case Refusal(version) =>
        if onFrame {
          Finish(Incompatible(OutdatedOf(version, app)));
        }
      case OtherFrame =>
      case WireClosed =>
        if onClose {
          Finish(ClosedEarly);
        }
      case Deadline =>
        if timer {
          Finish(TimedOut);
        }
      case SendThrew => Finish(SendFailed);
    }
  }

  // ---- Both ends ----

  /** What the phone hears of a daemon's frame. */
  function AsInput(reply: PeerServer.Reply): Input {
    match reply
    case ServerInfo(version) => ServerInfo(version)
    case Refused(version) => Refusal(version)
    case _ => OtherFrame
  }

  /** What the daemon sends to connection `i`, in order. */
  function SentTo(log: seq<PeerServer.Entry>, i: nat): seq<Input> {
    if log == [] then []
    else
      var last := log[|log| - 1];
      SentTo(log[..|log| - 1], i) + if last.Sent? && last.peer == i then [AsInput(last.reply)] else []
  }

  /** A new connection says hello: the daemon's answer settles the phone's handshake at
      once, resolved exactly when the daemon accepts, else with the older side named
      as the daemon itself would name it. */
  lemma EndsAgree(s: PeerServer.State, i: nat, app: Version)
    requires i < |s.slots| && s.slots[i].stage.In? && !s.slots[i].verified && s.local.Some?
    requires SentTo(s.log, i) == []
    ensures var t := PeerServer.Step(s, PeerServer.Receive(i, PeerServer.Hello(Some(app))));
            var outcome := FirstDecision(Some(app), SentTo(t.log, i));
            && SentTo(t.log, i) == [if t.slots[i].verified then ServerInfo(s.local) else Refusal(s.local)]
            && if t.slots[i].verified then outcome == Some(Resolved)
            else
              && t.slots[i].dying
              && outcome == Some(Incompatible(if OutdatedSide(Some(app), s.local) == Some(Remote) then App else Daemon))
  {
    hide Compatible, OutdatedSide, Compare, PeerServer.Step, SentTo;
    var daemon := s.local.value;
    var t := PeerServer.Step(s, PeerServer.Receive(i, PeerServer.Hello(Some(app))));
    CompatibleIsEquivalence(app, daemon, app);
    var heard := s.log + [PeerServer.Heard(i, PeerServer.Hello(Some(app)))];
    HelloAnswered(s, i, app);
    SentAppend(s.log, PeerServer.Heard(i, PeerServer.Hello(Some(app))), i);
    if Compatible(Some(app), s.local) {
      SentAppend(heard, PeerServer.Sent(i, PeerServer.ServerInfo(s.local)), i);
    } else {
      SentAppend(heard, PeerServer.Sent(i, PeerServer.Refused(s.local)), i);
      SameSideIsOutdated(app, daemon);
      SameSideIsOutdated(daemon, app);
    }
  }

  lemma HelloAnswered(s: PeerServer.State, i: nat, app: Version)
    requires i < |s.slots| && s.slots[i].stage.In? && !s.slots[i].verified
    ensures var hello := PeerServer.Hello(Some(app));
            var t := PeerServer.Step(s, PeerServer.Receive(i, hello));
            var reply := if Compatible(Some(app), s.local) then PeerServer.ServerInfo(s.local) else PeerServer.Refused(s.local);
            && t.log == s.log + [PeerServer.Heard(i, hello)] + [PeerServer.Sent(i, reply)]
            && i < |t.slots|
            && (if Compatible(Some(app), s.local) then t.slots[i].verified else !t.slots[i].verified && t.slots[i].dying)
  {
    hide Compatible;
  }

  lemma SentAppend(log: seq<PeerServer.Entry>, entry: PeerServer.Entry, i: nat)
    ensures SentTo(log + [entry], i)
            == SentTo(log, i) + if entry.Sent? && entry.peer == i then [AsInput(entry.reply)] else []
  {
    assert (log + [entry])[..|log|] == log;
  }
}
