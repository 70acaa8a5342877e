/**
 The phone's port listeners (`PortForwarder`): reconciles chained one behind the
 other, while the wanted list, the app's state and the mount change between their
 awaits. A forwarder's `close` ends it.
 */
module PortForward {
  import opened Wrappers

  /** A listener `forwardTcp` gave. */
  datatype Forwarder = Forwarder(port: nat, live: bool)

  /** A link of the chain: a rejected one is broken. */
  datatype Turn = Waiting | Running | Done | Broken

  /** The await the running reconcile is at. `todo`: the ports its loop has yet to see;
      `failed`: its copy of the failed ports. */
  datatype Work =
    | Idle
    | Closing(target: seq<nat>, forwarder: nat, todo: seq<nat>)
    | AtEndpoint(target: seq<nat>, failed: map<nat, string>, todo: seq<nat>)
    | Opening(target: seq<nat>, failed: map<nat, string>, port: nat, todo: seq<nat>)

  /** `stale`: the app came to the foreground, and what follows from it has not been
      asked for yet. */
  datatype State = State(
    alive: bool, foreground: bool, wanted: seq<nat>, stale: bool,
    open: map<nat, nat>, forwarders: seq<Forwarder>, failed: map<nat, string>, listening: set<nat>,
    turns: seq<Turn>, work: Work)

  /** A mount, with what the module's state still holds. */
  function Mounted(foreground: bool, wanted: seq<nat>, failed: map<nat, string>): State {
    State(true, foreground, wanted, true, map[], [], failed, {}, [], Idle)
  }

  datatype Event =
    | Heard(ports: seq<nat>)
    | Background
    | Active
    | Unmount
    | Followed
    | Begin(turn: nat, order: seq<nat>)
    | CloseDone(turn: nat)
    | EndpointReady(turn: nat)
    | EndpointFails(turn: nat)
    | Opened(turn: nat)
    | OpenFails(turn: nat, why: string)

  /** `new Set(ports)`, in order. */
  function Dedupe(ports: seq<nat>): (r: seq<nat>)
    ensures forall p :: p in r <==> p in ports
    ensures Distinct(r)
  {
    if ports == [] then []
    else
      var before, last := Dedupe(ports[..|ports| - 1]), ports[|ports| - 1];
      assert ports == ports[..|ports| - 1] + [last];
      if last in before then before else before + [last]
  }

  predicate Distinct(ports: seq<nat>) { forall i, j :: 0 <= i < j < |ports| ==> ports[i] != ports[j] }

  function Target(s: State): seq<nat> { if s.alive && s.foreground then Dedupe(s.wanted) else [] }

  /** The ports of the target without a listener, in order. */
  function Missing(target: seq<nat>, open: map<nat, nat>): (r: seq<nat>)
    ensures forall p :: p in r <==> p in target && p !in open
    ensures Distinct(target) ==> Distinct(r)
  {
    if target == [] then []
    else
      var before, last := Missing(target[..|target| - 1], open), target[|target| - 1];
      assert target == target[..|target| - 1] + [last];
      if last in open then before else before + [last]
  }

  /** `chain = chain.then(..)` */
  function Ask(s: State): State { s.(turns := s.turns + [Waiting], stale := false) }

  function Finish(s: State, i: nat, failed: map<nat, string>): State
    requires i < |s.turns|
  {
    s.(turns := s.turns[i := Done], work := Idle, failed := failed, listening := s.open.Keys)
  }

  function OpenNext(s: State, i: nat, target: seq<nat>, failed: map<nat, string>, todo: seq<nat>): State
    requires i < |s.turns|
  {
    if todo == [] then Finish(s, i, failed) else s.(work := Opening(target, failed, todo[0], todo[1..]))
  }

  function Kept(failed: map<nat, string>, target: seq<nat>): map<nat, string> {
    map p | p in failed && p in target :: failed[p]
  }

  function AfterClosing(s: State, i: nat, target: seq<nat>): State
    requires i < |s.turns|
  {
    var failed, todo := Kept(s.failed, target), Missing(target, s.open);
    if todo == [] then Finish(s, i, failed) else s.(work := AtEndpoint(target, failed, todo))
  }

  /** The loop over the open ports, up to its next await. */
  function Visit(s: State, i: nat, target: seq<nat>, todo: seq<nat>): State
    requires i < |s.turns|
    decreases |todo|
  {
    if todo == [] then AfterClosing(s, i, target)
    else if todo[0] in target || todo[0] !in s.open then Visit(s, i, target, todo[1..])
    else s.(open := s.open - {todo[0]}, work := Closing(target, s.open[todo[0]], todo[1..]))
  }

  predicate IsRunning(s: State, i: nat) { i < |s.turns| && s.turns[i].Running? }

  ghost predicate Can(s: State, e: Event) {
    match e
    case Heard(_) => true
    case Background => s.foreground
    case Active => !s.foreground
    case Unmount => true
    case Followed => true
    case Begin(i, order) =>
      && i < |s.turns| && s.turns[i].Waiting? && (i == 0 || s.turns[i - 1].Done?)
      && Distinct(order) && forall p :: p in order <==> p in s.open
    case CloseDone(i) => IsRunning(s, i) && s.work.Closing? && s.work.forwarder < |s.forwarders|
    case EndpointReady(i) => IsRunning(s, i) && s.work.AtEndpoint?
    case EndpointFails(i) => IsRunning(s, i) && s.work.AtEndpoint?
    case Opened(i) => IsRunning(s, i) && s.work.Opening?
    case OpenFails(i, _) => IsRunning(s, i) && s.work.Opening?
  }

  ghost function Step(s: State, e: Event): State
    requires Can(s, e)
  {
    match e
    case Heard(ports) => Ask(s.(wanted := ports))
    case Background => Ask(s.(foreground := false))
    case Active => s.(foreground := true, stale := true)
    case Unmount => Ask(s.(alive := false))
    case Followed => Ask(s)
    case Begin(i, order) => Visit(s.(turns := s.turns[i := Running]), i, Target(s), order)
    case CloseDone(i) =>
      var f := s.work.forwarder;
      Visit(s.(forwarders := s.forwarders[f := s.forwarders[f].(live := false)]), i, s.work.target, s.work.todo)
    case EndpointReady(i) => OpenNext(s, i, s.work.target, s.work.failed, s.work.todo)
    case EndpointFails(i) => s.(turns := s.turns[i := Broken], work := Idle)
    case Opened(i) =>
      var p := s.work.port;
      OpenNext(s.(open := s.open[p := |s.forwarders|], forwarders := s.forwarders + [Forwarder(p, true)]),
               i, s.work.target, s.work.failed - {p}, s.work.todo)
    case OpenFails(i, why) => OpenNext(s, i, s.work.target, s.work.failed[s.work.port := why], s.work.todo)
  }

  ghost predicate Run(s: State, es: seq<Event>, s': State)
    decreases |es|
  {
    if es == [] then s' == s else Can(s, es[0]) && Run(Step(s, es[0]), es[1..], s')
  }

  // ---- What every step keeps ----

  /** Done up to some link; that one waits, runs or is broken; the rest wait. */
  ghost predicate ChainOk(s: State) {
    && (forall i :: 0 < i < |s.turns| && !s.turns[i].Waiting? ==> s.turns[i - 1].Done?)
    && (s.work.Idle? <==> forall i :: 0 <= i < |s.turns| ==> !s.turns[i].Running?)
  }

  ghost predicate Apart(open: map<nat, nat>, failed: map<nat, string>) { forall p :: p in open ==> p !in failed }

  ghost predicate Within(open: map<nat, nat>, failed: map<nat, string>, target: seq<nat>) {
    && (forall p :: p in open ==> p in target)
    && (forall p :: p in failed ==> p in target)
  }

  /** Each port of the target is open, failed, or still to do. */
  ghost predicate Covered(open: map<nat, nat>, failed: map<nat, string>, target: seq<nat>, todo: seq<nat>) {
    && Apart(open, failed) && Within(open, failed, target)
    && Distinct(todo) && (forall p :: p in todo ==> p in target && p !in open)
    && (forall p :: p in target ==> p in open || p in failed || p in todo)
  }

  ghost predicate WorkOk(s: State) {
    match s.work
    case Idle => Apart(s.open, s.failed)
    case Closing(target, f, todo) =>
      && Apart(s.open, s.failed) && Distinct(todo) && Distinct(target)
      && (forall p :: p in todo ==> p in s.open)
      && (forall p :: p in s.open ==> p in target || p in todo)
      && f < |s.forwarders| && s.forwarders[f].live && s.forwarders[f].port !in s.open
    case AtEndpoint(target, failed, todo) => Apart(s.open, s.failed) && Covered(s.open, failed, target, todo)
    case Opening(target, failed, port, todo) => Covered(s.open, failed, target, [port] + todo)
  }

  /** A listener that is up is that of its port, or the one being closed. */
  ghost predicate ForwardersOk(s: State) {
    && (forall p :: p in s.open ==>
          s.open[p] < |s.forwarders| && s.forwarders[s.open[p]] == Forwarder(p, true))
    && (forall f :: 0 <= f < |s.forwarders| && s.forwarders[f].live ==>
          (s.forwarders[f].port in s.open && s.open[s.forwarders[f].port] == f)
          || (s.work.Closing? && s.work.forwarder == f))
  }

  ghost predicate Settled(s: State) {
    && s.work.Idle? && forall i :: 0 <= i < |s.turns| ==> s.turns[i].Done?
  }

  /** What was asked for last is what is being, or was, brought about. */
  ghost predicate FreshOk(s: State) {
    !s.stale && (forall i :: 0 <= i < |s.turns| ==> !s.turns[i].Waiting?) ==>
      && (!s.work.Idle? ==> s.work.target == Target(s))
      && (Settled(s) ==> Covered(s.open, s.failed, Target(s), []) && s.listening == s.open.Keys)
  }

  ghost predicate Inv(s: State) {
    ChainOk(s) && WorkOk(s) && ForwardersOk(s) && FreshOk(s) && (s.turns == [] ==> s.stale)
  }

  /** The reconcile of link `i` runs, with no close under way. */
  ghost predicate Ready(s: State, i: nat, target: seq<nat>) {
    && IsRunning(s, i)
    && (forall k :: 0 < k < |s.turns| && !s.turns[k].Waiting? ==> s.turns[k - 1].Done?)
    && (forall k :: 0 <= k < |s.turns| && k != i ==> !s.turns[k].Running?)
    && OpenOk(s)
    && (!s.stale && (forall k :: 0 <= k < |s.turns| ==> !s.turns[k].Waiting?) ==> target == Target(s))
  }

  /** What is open is up, and nothing else is. */
  ghost predicate OpenOk(s: State) { Up(s.open, s.forwarders) }

  ghost predicate Up(open: map<nat, nat>, forwarders: seq<Forwarder>) {
    && (forall p :: p in open ==> open[p] < |forwarders| && forwarders[open[p]] == Forwarder(p, true))
    && (forall f :: 0 <= f < |forwarders| && forwarders[f].live ==>
          forwarders[f].port in open && open[forwarders[f].port] == f)
  }

  lemma FinishInv(s: State, i: nat, target: seq<nat>, failed: map<nat, string>)
    requires Ready(s, i, target) && Covered(s.open, failed, target, [])
    ensures Inv(Finish(s, i, failed))
  {
    hide Covered;
    var t := Finish(s, i, failed);
    assert Target(t) == Target(s);
    assert forall k :: 0 <= k < |s.turns| ==> t.turns[k] == if k == i then Done else s.turns[k];
    CoveredApart(s.open, failed, target, []);
  }

  lemma CoveredApart(open: map<nat, nat>, failed: map<nat, string>, target: seq<nat>, todo: seq<nat>)
    requires Covered(open, failed, target, todo)
    ensures Apart(open, failed)
  {
  }

  /** The reconcile goes to its next await: the work says so, the rest stands. */
  lemma AwaitInv(s: State, t: State, i: nat, target: seq<nat>)
    requires Ready(s, i, target) && t == s.(work := t.work) && !t.work.Idle? && !t.work.Closing? && t.work.target == target
    requires WorkOk(t)
    ensures Inv(t)
  {
    hide WorkOk, Apart, Covered;
    assert Target(t) == Target(s);
  }

  lemma OpenNextInv(s: State, i: nat, target: seq<nat>, failed: map<nat, string>, todo: seq<nat>)
    requires Ready(s, i, target) && Covered(s.open, failed, target, todo)
    ensures Inv(OpenNext(s, i, target, failed, todo))
  {
    assert i < |s.turns|;
    hide Covered, Ready, Inv;
    if todo == [] {
      FinishInv(s, i, target, failed);
    } else {
      assert todo == [todo[0]] + todo[1..];
      AwaitInv(s, OpenNext(s, i, target, failed, todo), i, target);
    }
  }

  lemma AfterClosingInv(s: State, i: nat, target: seq<nat>)
    requires Ready(s, i, target) && Apart(s.open, s.failed) && Distinct(target)
    requires forall p :: p in s.open ==> p in target
    ensures Inv(AfterClosing(s, i, target))
  {
    assert i < |s.turns|;
    hide Ready, Inv;
    var failed, todo := Kept(s.failed, target), Missing(target, s.open);
    assert Covered(s.open, failed, target, todo);
    if todo == [] {
      FinishInv(s, i, target, failed);
    } else {
      AwaitInv(s, AfterClosing(s, i, target), i, target);
    }
  }

  lemma {:induction false} VisitInv(s: State, i: nat, target: seq<nat>, todo: seq<nat>)
    requires Ready(s, i, target) && Apart(s.open, s.failed) && Distinct(target) && Distinct(todo)
    requires forall p :: p in todo ==> p in s.open
    requires forall p :: p in s.open ==> p in target || p in todo
    ensures Inv(Visit(s, i, target, todo))
    decreases |todo|
  {
    hide Inv, Target;
    if todo == [] {
      AfterClosingInv(s, i, target);
    } else {
      assert todo == [todo[0]] + todo[1..];
      assert todo[0] in s.open;
      if todo[0] in target {
        VisitInv(s, i, target, todo[1..]);
      } else {
        CloseInv(s, i, target, todo);
      }
    }
  }

  lemma CloseInv(s: State, i: nat, target: seq<nat>, todo: seq<nat>)
    requires Ready(s, i, target) && Apart(s.open, s.failed) && Distinct(target) && Distinct(todo)
    requires todo != [] && todo[0] !in target && forall p :: p in todo ==> p in s.open
    requires forall p :: p in s.open ==> p in target || p in todo
    ensures Inv(s.(open := s.open - {todo[0]}, work := Closing(target, s.open[todo[0]], todo[1..])))
  {
    var t := s.(open := s.open - {todo[0]}, work := Closing(target, s.open[todo[0]], todo[1..]));
    assert Target(t) == Target(s);
    CloseWork(s, target, todo);
    CloseForwarders(s, target, todo);
    hide WorkOk, ForwardersOk, OpenOk, Target;
  }

  lemma CloseWork(s: State, target: seq<nat>, todo: seq<nat>)
    requires OpenOk(s) && Apart(s.open, s.failed) && Distinct(target) && Distinct(todo)
    requires todo != [] && todo[0] !in target && forall p :: p in todo ==> p in s.open
    requires forall p :: p in s.open ==> p in target || p in todo
    ensures WorkOk(s.(open := s.open - {todo[0]}, work := Closing(target, s.open[todo[0]], todo[1..])))
  {
    assert todo == [todo[0]] + todo[1..];
    assert todo[0] in todo;
    assert forall k :: 1 <= k < |todo| ==> todo[k] != todo[0] && todo[k] == todo[1..][k - 1];
  }

  lemma CloseForwarders(s: State, target: seq<nat>, todo: seq<nat>)
    requires OpenOk(s) && todo != [] && todo[0] in s.open
    ensures ForwardersOk(s.(open := s.open - {todo[0]}, work := Closing(target, s.open[todo[0]], todo[1..])))
  {
  }

  lemma AskInv(s: State, t: State)
    requires Inv(s) && t == s.(alive := t.alive, foreground := t.foreground, wanted := t.wanted)
    ensures Inv(Ask(t))
  {
    hide Covered, Apart;
    var u := Ask(t);
    assert u.turns[|s.turns|] == Waiting;
    assert forall k :: 0 <= k < |s.turns| ==> u.turns[k] == s.turns[k];
    assert ChainOk(u);
    assert WorkOk(u);
    assert ForwardersOk(u);
  }

  lemma BeginInv(s: State, i: nat, order: seq<nat>)
    requires Inv(s) && Can(s, Begin(i, order))
    ensures s.work.Idle?
    ensures Inv(Step(s, Begin(i, order)))
  {
    hide Covered;
    NoneRuns(s, i);
    var t := s.(turns := s.turns[i := Running]);
    assert Target(t) == Target(s);
    assert Ready(t, i, Target(s));
    VisitInv(t, i, Target(s), order);
  }

  lemma NoneRuns(s: State, i: nat)
    requires ChainOk(s) && i < |s.turns| && s.turns[i].Waiting? && (i == 0 || s.turns[i - 1].Done?)
    ensures forall k :: 0 <= k < |s.turns| ==> if k < i then s.turns[k].Done? else s.turns[k].Waiting?
  {
    forall k | 0 <= k < i
      ensures s.turns[k].Done?
    {
      DoneBefore(s, k, i - 1);
    }
    forall k | i <= k < |s.turns|
      ensures s.turns[k].Waiting?
    {
      WaitingBehind(s, i, k);
    }
  }

  lemma {:induction false} DoneBefore(s: State, k: nat, i: nat)
    requires ChainOk(s) && k <= i < |s.turns| && s.turns[i].Done?
    ensures s.turns[k].Done?
    decreases i
  {
    if k < i {
      DoneBefore(s, k, i - 1);
    }
  }

  lemma {:induction false} WaitingBehind(s: State, i: nat, k: nat)
    requires ChainOk(s) && i <= k < |s.turns| && s.turns[i].Waiting?
    ensures s.turns[k].Waiting?
    decreases k
  {
    if i < k {
      WaitingBehind(s, i, k - 1);
    }
  }

  lemma RunningReady(s: State, i: nat)
    requires Inv(s) && IsRunning(s, i) && !s.work.Idle? && !s.work.Closing?
    ensures Ready(s, i, s.work.target)
  {
    hide WorkOk, Covered;
    OnlyRuns(s, i);
  }

  lemma OnlyRuns(s: State, i: nat)
    requires ChainOk(s) && IsRunning(s, i)
    ensures forall k :: 0 <= k < |s.turns| && k != i ==> !s.turns[k].Running?
  {
    forall k | 0 <= k < |s.turns| && k != i
      ensures !s.turns[k].Running?
    {
      if k < i {
        DoneBefore(s, k, i - 1);
      } else if !s.turns[k].Waiting? {
        DoneBefore(s, i, k - 1);
      }
    }
  }

  lemma CloseDoneInv(s: State, i: nat)
    requires Inv(s) && Can(s, CloseDone(i))
    ensures Inv(Step(s, CloseDone(i)))
  {
    hide Covered;
    OnlyRuns(s, i);
    var f := s.work.forwarder;
    var t := s.(forwarders := s.forwarders[f := s.forwarders[f].(live := false)]);
    assert Target(t) == Target(s);
    assert OpenOk(t);
    VisitInv(t, i, s.work.target, s.work.todo);
  }

  lemma EndpointReadyInv(s: State, i: nat)
    requires Inv(s) && Can(s, EndpointReady(i))
    ensures Inv(Step(s, EndpointReady(i)))
  {
    RunningReady(s, i);
    OpenNextInv(s, i, s.work.target, s.work.failed, s.work.todo);
  }

  lemma EndpointFailsInv(s: State, i: nat)
    requires Inv(s) && Can(s, EndpointFails(i))
    ensures Inv(Step(s, EndpointFails(i)))
  {
    hide Covered;
    OnlyRuns(s, i);
    var t := Step(s, EndpointFails(i));
    assert t.turns[i] == Broken;
    assert forall k :: 0 <= k < |s.turns| && k != i ==> t.turns[k] == s.turns[k];
    assert ChainOk(t);
  }

  lemma OpenedInv(s: State, i: nat)
    requires Inv(s) && Can(s, Opened(i))
    ensures Inv(Step(s, Opened(i)))
  {
    hide Inv;
    RunningReadyOpening(s, i);
    var p := s.work.port;
    var t := s.(open := s.open[p := |s.forwarders|], forwarders := s.forwarders + [Forwarder(p, true)]);
    OpenedCovered(s.open, s.work.failed, s.work.target, p, s.work.todo, |s.forwarders|);
    OpenedReady(s, t, i, s.work.target);
    OpenNextInv(t, i, s.work.target, s.work.failed - {p}, s.work.todo);
  }

  lemma RunningReadyOpening(s: State, i: nat)
    requires Inv(s) && IsRunning(s, i) && s.work.Opening?
    ensures Ready(s, i, s.work.target) && s.work.port !in s.open
    ensures Covered(s.open, s.work.failed, s.work.target, [s.work.port] + s.work.todo)
  {
    RunningReady(s, i);
    assert s.work.port in [s.work.port] + s.work.todo;
  }

  lemma OpenedReady(s: State, t: State, i: nat, target: seq<nat>)
    requires Ready(s, i, target) && s.work.Opening? && s.work.port !in s.open
    requires t == s.(open := s.open[s.work.port := |s.forwarders|], forwarders := s.forwarders + [Forwarder(s.work.port, true)])
    ensures Ready(t, i, target)
  {
    assert Target(t) == Target(s);
  }

  lemma OpenedCovered(open: map<nat, nat>, failed: map<nat, string>, target: seq<nat>, p: nat, todo: seq<nat>, f: nat)
    requires Covered(open, failed, target, [p] + todo)
    ensures Covered(open[p := f], failed - {p}, target, todo)
  {
    FirstApart(p, todo);
  }

  lemma FirstApart(p: nat, todo: seq<nat>)
    requires Distinct([p] + todo)
    ensures Distinct(todo) && p !in todo && forall q :: q in [p] + todo <==> q == p || q in todo
  {
    var all := [p] + todo;
    assert forall k :: 0 <= k < |todo| ==> all[k + 1] == todo[k];
    assert all[0] == p;
  }

  lemma FailedCovered(open: map<nat, nat>, failed: map<nat, string>, target: seq<nat>, p: nat, todo: seq<nat>, why: string)
    requires Covered(open, failed, target, [p] + todo)
    ensures Covered(open, failed[p := why], target, todo)
  {
    FirstApart(p, todo);
    assert p in [p] + todo;
  }

  lemma OpenFailsInv(s: State, i: nat, why: string)
    requires Inv(s) && Can(s, OpenFails(i, why))
    ensures Inv(Step(s, OpenFails(i, why)))
  {
    hide Inv;
    RunningReadyOpening(s, i);
    FailedCovered(s.open, s.work.failed, s.work.target, s.work.port, s.work.todo, why);
    OpenNextInv(s, i, s.work.target, s.work.failed[s.work.port := why], s.work.todo);
  }

  lemma ActiveInv(s: State)
    requires Inv(s)
    ensures Inv(s.(foreground := true, stale := true))
  {
    hide Covered;
  }

  lemma StepInv(s: State, e: Event)
    requires Inv(s) && Can(s, e)
    ensures Inv(Step(s, e))
  {
    hide Inv, Visit, OpenNext;
    match e
    case Heard(ports) => AskInv(s, s.(wanted := ports));
    case Background => AskInv(s, s.(foreground := false));
    case Active => ActiveInv(s);
    case Unmount => AskInv(s, s.(alive := false));
    case Followed => AskInv(s, s);
    case Begin(i, order) => BeginInv(s, i, order);
    case CloseDone(i) => CloseDoneInv(s, i);
    case EndpointReady(i) => EndpointReadyInv(s, i);
    case EndpointFails(i) => EndpointFailsInv(s, i);
    case Opened(i) => OpenedInv(s, i);
    case OpenFails(i, why) => OpenFailsInv(s, i, why);
  }

  lemma {:induction false} RunInv(s: State, es: seq<Event>, s': State)
    requires Inv(s) && Run(s, es, s')
    ensures Inv(s')
    decreases |es|
  {
    hide Inv, Can, Step;
    if es != [] {
      StepInv(s, es[0]);
      RunInv(Step(s, es[0]), es[1..], s');
    }
  }

  lemma MountInv(foreground: bool, wanted: seq<nat>, failed: map<nat, string>, es: seq<Event>, s: State)
    requires Run(Mounted(foreground, wanted, failed), es, s)
    ensures Inv(s)
  {
    RunInv(Mounted(foreground, wanted, failed), es, s);
  }

  // ---- Over any run of a mount ----

  /** Reconciles never overlap, and run in the order they were asked for. */
  lemma OneAtATime(foreground: bool, wanted: seq<nat>, failed: map<nat, string>, es: seq<Event>, s: State, i: nat, k: nat)
    requires Run(Mounted(foreground, wanted, failed), es, s)
    requires k < i < |s.turns| && !s.turns[i].Waiting?
    ensures s.turns[k].Done?
  {
    MountInv(foreground, wanted, failed, es, s);
    DoneBefore(s, k, i - 1);
  }

  /** No port ever has two listeners, and each one that is up is known: it is its
      port's, or it is being closed. */
  lemma OneListenerPerPort(foreground: bool, wanted: seq<nat>, failed: map<nat, string>, es: seq<Event>, s: State,
                           f: nat, g: nat)
    requires Run(Mounted(foreground, wanted, failed), es, s)
    requires f < |s.forwarders| && g < |s.forwarders| && s.forwarders[f].live && s.forwarders[g].live
    requires s.forwarders[f].port == s.forwarders[g].port
    ensures f == g
    ensures (s.forwarders[f].port in s.open && s.open[s.forwarders[f].port] == f)
            || (s.work.Closing? && s.work.forwarder == f)
  {
    MountInv(foreground, wanted, failed, es, s);
  }

  /** What a reconcile that has ended left. */
  ghost predicate OnTarget(t: State, target: seq<nat>) {
    && t.open.Keys !! t.failed.Keys && t.listening == t.open.Keys
    && forall p :: p in t.open || p in t.failed <==> p in target
  }

  predicate Ends(s: State, t: State, i: nat) { i < |s.turns| && i < |t.turns| && !s.turns[i].Done? && t.turns[i].Done? }

  /** The target the reconcile read when it began. */
  function ReadTarget(s: State, e: Event): seq<nat> {
    if e.Begin? || s.work.Idle? then Target(s) else s.work.target
  }

  /** When a reconcile ends, the open and the failed ports are apart and together they
      are the target it read when it began. */
  lemma EndsOnTarget(foreground: bool, wanted: seq<nat>, failed: map<nat, string>, es: seq<Event>, s: State,
                     e: Event, i: nat)
    requires Run(Mounted(foreground, wanted, failed), es, s) && Can(s, e) && Ends(s, Step(s, e), i)
    ensures OnTarget(Step(s, e), ReadTarget(s, e))
  {
    hide Visit, OpenNext, Covered, WorkOk, ForwardersOk, FreshOk, OnTarget;
    MountInv(foreground, wanted, failed, es, s);
    match e
    case Begin(j, order) => BeginEnds(s, j, order);
    case CloseDone(j) => CloseEnds(s, j);
    case EndpointReady(j) =>
      RunningReady(s, j);
      WorkCovered(s);
      NextEnds(s, j, s.work.target, s.work.failed, s.work.todo);
    case Opened(j) => OpenedEnds(s, j);
    case OpenFails(j, why) =>
      RunningReadyOpening(s, j);
      FailedCovered(s.open, s.work.failed, s.work.target, s.work.port, s.work.todo, why);
      NextEnds(s, j, s.work.target, s.work.failed[s.work.port := why], s.work.todo);
    case EndpointFails(j) =>
    case _ =>
  }

  lemma WorkCovered(s: State)
    requires WorkOk(s) && s.work.AtEndpoint?
    ensures Covered(s.open, s.work.failed, s.work.target, s.work.todo)
  {
  }

  lemma OpenedEnds(s: State, j: nat)
    requires Inv(s) && Can(s, Opened(j))
    ensures var t := Step(s, Opened(j));
            |t.turns| == |s.turns| && (t.turns[j].Done? ==> OnTarget(t, s.work.target))
            && forall k :: 0 <= k < |s.turns| && k != j ==> t.turns[k] == s.turns[k]
  {
    hide OpenNext, Covered, OnTarget;
    RunningReadyOpening(s, j);
    var p := s.work.port;
    var u := s.(open := s.open[p := |s.forwarders|], forwarders := s.forwarders + [Forwarder(p, true)]);
    OpenedCovered(s.open, s.work.failed, s.work.target, p, s.work.todo, |s.forwarders|);
    NextEnds(u, j, s.work.target, s.work.failed - {p}, s.work.todo);
  }

  lemma BeginEnds(s: State, j: nat, order: seq<nat>)
    requires Inv(s) && Can(s, Begin(j, order))
    ensures var t := Step(s, Begin(j, order));
            |t.turns| == |s.turns| && (t.turns[j].Done? ==> OnTarget(t, Target(s)))
            && forall k :: 0 <= k < |s.turns| && k != j ==> t.turns[k] == s.turns[k]
  {
    hide Visit, OnTarget;
    NoneRuns(s, j);
    VisitEnds(s.(turns := s.turns[j := Running]), j, Target(s), order);
  }

  lemma NextEnds(s: State, i: nat, target: seq<nat>, failed: map<nat, string>, todo: seq<nat>)
    requires IsRunning(s, i) && Covered(s.open, failed, target, todo)
    ensures var t := OpenNext(s, i, target, failed, todo); t.turns[i].Done? ==> OnTarget(t, target)
    ensures |OpenNext(s, i, target, failed, todo).turns| == |s.turns|
    ensures forall k :: 0 <= k < |s.turns| && k != i ==> OpenNext(s, i, target, failed, todo).turns[k] == s.turns[k]
  {
  }

  lemma {:induction false} VisitEnds(s: State, i: nat, target: seq<nat>, todo: seq<nat>)
    requires IsRunning(s, i) && Apart(s.open, s.failed) && Distinct(target) && Distinct(todo)
    requires forall p :: p in todo ==> p in s.open
    requires forall p :: p in s.open ==> p in target || p in todo
    ensures var t := Visit(s, i, target, todo);
            |t.turns| == |s.turns| && (t.turns[i].Done? ==> OnTarget(t, target))
            && forall k :: 0 <= k < |s.turns| && k != i ==> t.turns[k] == s.turns[k]
    decreases |todo|
  {
    if todo != [] {
      assert todo == [todo[0]] + todo[1..];
      if todo[0] in target {
        VisitEnds(s, i, target, todo[1..]);
      }
    }
  }

  lemma CloseEnds(s: State, i: nat)
    requires Inv(s) && Can(s, CloseDone(i))
    ensures var t := Step(s, CloseDone(i));
            |t.turns| == |s.turns| && (t.turns[i].Done? ==> OnTarget(t, s.work.target))
            && forall k :: 0 <= k < |s.turns| && k != i ==> t.turns[k] == s.turns[k]
  {
    hide Visit;
    var f := s.work.forwarder;
    VisitEnds(s.(forwarders := s.forwarders[f := s.forwarders[f].(live := false)]), i, s.work.target, s.work.todo);
  }

  /** Once all that was asked for is done, the listeners are in step with what is wanted
      now: none at all in the background or unmounted. */
  lemma InStep(foreground: bool, wanted: seq<nat>, failed: map<nat, string>, es: seq<Event>, s: State)
    requires Run(Mounted(foreground, wanted, failed), es, s) && Settled(s) && !s.stale
    ensures OnTarget(s, Target(s))
    ensures !(s.alive && s.foreground) ==> forall f :: 0 <= f < |s.forwarders| ==> !s.forwarders[f].live
  {
    MountInv(foreground, wanted, failed, es, s);
  }

  // ---- A broken chain ----

  lemma StepBroken(s: State, e: Event, i: nat)
    requires Inv(s) && i < |s.turns| && s.turns[i].Broken? && Can(s, e)
    ensures var t := Step(s, e);
            && i < |t.turns| && t.turns[i].Broken?
            && t.open == s.open && t.forwarders == s.forwarders && t.failed == s.failed && t.listening == s.listening
  {
    hide Visit, OpenNext, WorkOk, Covered, FreshOk;
    BrokenIdle(s, i);
    if e.Begin? {
      NoneRuns(s, e.turn);
    }
  }

  lemma BrokenIdle(s: State, i: nat)
    requires ChainOk(s) && i < |s.turns| && s.turns[i].Broken?
    ensures forall k :: 0 <= k < |s.turns| ==> !s.turns[k].Running?
  {
    forall k | 0 <= k < |s.turns|
      ensures !s.turns[k].Running?
    {
      if k < i {
        DoneBefore(s, k, i - 1);
      } else if k > i && !s.turns[k].Waiting? {
        DoneBefore(s, i, k - 1);
      }
    }
  }

  /** After an endpoint lookup that fails nothing is reconciled any more in the mount:
      what listens goes on listening, in the background too. */
  lemma {:induction false} BrokenForGood(s: State, i: nat, es: seq<Event>, s': State)
    requires Inv(s) && i < |s.turns| && s.turns[i].Broken? && Run(s, es, s')
    ensures s'.open == s.open && s'.forwarders == s.forwarders && s'.failed == s.failed && s'.listening == s.listening
    decreases |es|
  {
    hide Inv, Can, Step;
    if es != [] {
      StepInv(s, es[0]);
      StepBroken(s, es[0], i);
      BrokenForGood(Step(s, es[0]), i, es[1..], s');
    }
  }

  ghost predicate NoneBroken(s: State) { forall i :: 0 <= i < |s.turns| ==> !s.turns[i].Broken? }

  /** Each wanted port listens or has failed, and no other one does. */
  ghost predicate OnWanted(s: State) {
    s.open.Keys !! s.failed.Keys && forall p :: p in s.open || p in s.failed <==> p in Target(s)
  }

  /** It changes neither what is wanted nor whether the app may listen. */
  predicate Quiet(e: Event) { !e.Heard? && !e.Background? && !e.Active? && !e.Unmount? }

  // ---- An unbroken chain gets on ----

  function Undone(turns: seq<Turn>): nat {
    if turns == [] then 0 else (if turns[0].Done? then 0 else 1) + Undone(turns[1..])
  }

  lemma {:induction false} UndoneAt(turns: seq<Turn>, i: nat, turn: Turn)
    requires i < |turns| && !turns[i].Done?
    ensures Undone(turns[i := turn]) == if turn.Done? then Undone(turns) - 1 else Undone(turns)
  {
    var after := turns[i := turn];
    if i == 0 {
      assert after[1..] == turns[1..];
    } else {
      UndoneAt(turns[1..], i - 1, turn);
      assert after[1..] == turns[1..][i - 1 := turn];
    }
  }

  function Stage(work: Work): nat {
    match work
    case Idle => 3
    case Closing(_, _, _) => 2
    case AtEndpoint(_, _, _) => 1
    case Opening(_, _, _, _) => 0
  }

  function Ahead(work: Work): nat { if work.Idle? then 0 else |work.todo| }

  ghost predicate SameWish(s: State, t: State) {
    t.alive == s.alive && t.foreground == s.foreground && t.wanted == s.wanted && t.stale == s.stale
  }

  /** The reconcile of link `i` ended, or is at its next await. */
  ghost predicate Moves(s: State, t: State, i: nat) {
    && i < |s.turns| && SameWish(s, t)
    && t.turns == (if t.work.Idle? then s.turns[i := Done] else s.turns)
  }

  lemma {:induction false} VisitMoves(s: State, i: nat, target: seq<nat>, todo: seq<nat>)
    requires IsRunning(s, i)
    ensures var t := Visit(s, i, target, todo);
            && Moves(s, t, i)
            && (t.work.Closing? ==> |t.work.todo| < |todo|) && !t.work.Opening?
    decreases |todo|
  {
    hide Kept, Missing;
    if todo != [] && (todo[0] in target || todo[0] !in s.open) {
      VisitMoves(s, i, target, todo[1..]);
    }
  }

  lemma OpenNextMoves(s: State, i: nat, target: seq<nat>, failed: map<nat, string>, todo: seq<nat>)
    requires IsRunning(s, i)
    ensures var t := OpenNext(s, i, target, failed, todo);
            && Moves(s, t, i)
            && (!t.work.Idle? ==> t.work.Opening? && |t.work.todo| < |todo|)
  {
  }

  lemma Enumerated(ports: set<nat>) returns (order: seq<nat>)
    ensures Distinct(order) && forall p :: p in order <==> p in ports
    decreases |ports|
  {
    if ports == {} {
      order := [];
    } else {
      var p :| p in ports;
      var rest := Enumerated(ports - {p});
      order := [p] + rest;
      assert forall q :: q in order <==> q == p || q in rest;
    }
  }

  lemma FirstUndone(turns: seq<Turn>, k: nat) returns (i: nat)
    requires k < |turns| && !turns[k].Done?
    ensures i < |turns| && !turns[i].Done? && (i == 0 || turns[i - 1].Done?)
    decreases k
  {
    i := k;
    if k > 0 && !turns[k - 1].Done? {
      i := FirstUndone(turns, k - 1);
    }
  }

  /** Fewer links are left to do, or the running one has less before it. */
  ghost predicate Closer(s: State, t: State) {
    || Undone(t.turns) < Undone(s.turns)
    || (Undone(t.turns) == Undone(s.turns)
        && (Stage(t.work) < Stage(s.work) || (Stage(t.work) == Stage(s.work) && Ahead(t.work) < Ahead(s.work))))
  }

  lemma MovesCloser(s: State, m: State, t: State, i: nat)
    requires NoneBroken(s) && SameWish(s, m) && Moves(m, t, i)
    requires i < |s.turns| && !s.turns[i].Done? && m.turns == s.turns[i := Running]
    requires !t.work.Idle? ==>
               Stage(t.work) < Stage(s.work) || (Stage(t.work) == Stage(s.work) && Ahead(t.work) < Ahead(s.work))
    ensures NoneBroken(t) && SameWish(s, t) && Closer(s, t)
  {
    UndoneAt(s.turns, i, Running);
    UndoneAt(m.turns, i, Done);
  }

  lemma CloseGetsOn(s: State, i: nat)
    requires Inv(s) && NoneBroken(s) && IsRunning(s, i) && s.work.Closing?
    ensures Can(s, CloseDone(i))
    ensures var t := Step(s, CloseDone(i)); NoneBroken(t) && SameWish(s, t) && Closer(s, t)
  {
    hide Visit, FreshOk, ForwardersOk, Closer, Moves;
    var f := s.work.forwarder;
    var m := s.(forwarders := s.forwarders[f := s.forwarders[f].(live := false)]);
    VisitMoves(m, i, s.work.target, s.work.todo);
    MovesCloser(s, m, Step(s, CloseDone(i)), i);
  }

  lemma OpenGetsOn(s: State, i: nat)
    requires NoneBroken(s) && IsRunning(s, i) && s.work.Opening?
    ensures var t := Step(s, Opened(i)); NoneBroken(t) && SameWish(s, t) && Closer(s, t)
  {
    hide OpenNext, Closer, Moves;
    var p := s.work.port;
    var m := s.(open := s.open[p := |s.forwarders|], forwarders := s.forwarders + [Forwarder(p, true)]);
    OpenNextMoves(m, i, s.work.target, s.work.failed - {p}, s.work.todo);
    MovesCloser(s, m, Step(s, Opened(i)), i);
  }

  lemma EndpointGetsOn(s: State, i: nat)
    requires NoneBroken(s) && IsRunning(s, i) && s.work.AtEndpoint?
    ensures var t := Step(s, EndpointReady(i)); NoneBroken(t) && SameWish(s, t) && Closer(s, t)
  {
    hide OpenNext, Closer, Moves;
    OpenNextMoves(s, i, s.work.target, s.work.failed, s.work.todo);
    MovesCloser(s, s, Step(s, EndpointReady(i)), i);
  }

  /** Whatever the state of an unbroken chain with something left to do, a step that
      brings it closer to the end. */
  lemma NextStep(s: State) returns (e: Event)
    requires Inv(s) && NoneBroken(s) && !Settled(s)
    ensures Can(s, e) && Quiet(e)
    ensures NoneBroken(Step(s, e)) && SameWish(s, Step(s, e)) && Closer(s, Step(s, e))
  {
    hide Step, FreshOk, ForwardersOk, WorkOk, NoneBroken, Closer, SameWish;
    if s.work.Idle? {
      e := NextBegins(s);
    } else {
      var i: nat :| i < |s.turns| && s.turns[i].Running?;
      match s.work
      case Closing(_, _, _) =>
        e := CloseDone(i);
        CloseGetsOn(s, i);
      case AtEndpoint(_, _, _) =>
        e := EndpointReady(i);
        EndpointGetsOn(s, i);
      case Opening(_, _, _, _) =>
        e := Opened(i);
        OpenGetsOn(s, i);
    }
  }

  lemma NextBegins(s: State) returns (e: Event)
    requires Inv(s) && NoneBroken(s) && !Settled(s) && s.work.Idle?
    ensures Can(s, e) && Quiet(e)
    ensures NoneBroken(Step(s, e)) && SameWish(s, Step(s, e)) && Closer(s, Step(s, e))
  {
    hide Visit, FreshOk, ForwardersOk, WorkOk, Missing, Dedupe, Moves, Closer;
    var k: nat :| k < |s.turns| && !s.turns[k].Done?;
    var i := FirstUndone(s.turns, k);
    assert s.turns[i].Waiting?;
    var order := Enumerated(s.open.Keys);
    e := Begin(i, order);
    var m := s.(turns := s.turns[i := Running]);
    VisitMoves(m, i, Target(s), order);
    MovesCloser(s, m, Step(s, e), i);
  }

  lemma Drives(s: State) returns (es: seq<Event>, s': State)
    requires Inv(s) && NoneBroken(s)
    ensures Run(s, es, s') && (forall e :: e in es ==> Quiet(e))
    ensures Settled(s') && SameWish(s, s')
    decreases Undone(s.turns), Stage(s.work), Ahead(s.work)
  {
    hide Inv, Can, Step, NoneBroken, Settled;
    if Settled(s) {
      es, s' := [], s;
    } else {
      var e := NextStep(s);
      StepInv(s, e);
      var rest;
      rest, s' := Drives(Step(s, e));
      es := [e] + rest;
      assert es[1..] == rest;
    }
  }

  /** As long as no link is broken the listeners can be brought in step with what is
      wanted now, with nothing wanted anew: one more reconcile asked for, and every one
      of the chain run to its end. */
  lemma GetsInStep(s: State) returns (es: seq<Event>, s': State)
    requires Inv(s) && NoneBroken(s)
    ensures Run(s, es, s') && (forall e :: e in es ==> Quiet(e))
    ensures Target(s') == Target(s) && Settled(s') && OnTarget(s', Target(s)) && OnWanted(s')
  {
    hide Inv, NoneBroken, Settled, OnTarget, OnWanted;
    StepInv(s, Followed);
    AskedUnbroken(s);
    var rest;
    rest, s' := Drives(Step(s, Followed));
    RunInv(Step(s, Followed), rest, s');
    es := [Followed] + rest;
    assert es[1..] == rest;
    SettledOnTarget(s');
  }

  lemma AskedUnbroken(s: State)
    requires NoneBroken(s)
    ensures NoneBroken(Ask(s))
  {
  }

  lemma SettledOnTarget(s: State)
    requires Inv(s) && Settled(s) && !s.stale
    ensures OnTarget(s, Target(s)) && OnWanted(s)
  {
  }

  /** The run brings the listeners in step with what is wanted now. */
  ghost predicate Mends(s: State, es: seq<Event>, s': State) {
    Run(s, es, s') && Target(s') == Target(s) && OnWanted(s')
  }

  /** Exactly when it is too late: no run at all brings the listeners in step with what
      is wanted now if and only if a link is broken and they are out of step already. */
  lemma OutOfStepForGoodIff(foreground: bool, wanted: seq<nat>, failed: map<nat, string>, es: seq<Event>, s: State)
    requires Run(Mounted(foreground, wanted, failed), es, s)
    ensures (exists es', s' :: Mends(s, es', s')) <==> NoneBroken(s) || OnWanted(s)
  {
    hide Inv, Target;
    MountInv(foreground, wanted, failed, es, s);
    if NoneBroken(s) {
      var es', s' := GetsInStep(s);
      assert Mends(s, es', s');
    } else if OnWanted(s) {
      var none: seq<Event> := [];
      assert Mends(s, none, s);
    } else {
      var i: nat :| i < |s.turns| && s.turns[i].Broken?;
      forall es', s'
        ensures !Mends(s, es', s')
      {
        if Run(s, es', s') {
          BrokenForGood(s, i, es', s');
        }
      }
    }
  }

  // ---- What each change leads to ----

  ghost predicate NoneLive(s: State) { forall f :: 0 <= f < |s.forwarders| ==> !s.forwarders[f].live }

  /** The wanted ports listen or have failed, and no other one does. */
  ghost predicate Serves(s: State, ports: seq<nat>) {
    s.open.Keys !! s.failed.Keys && forall p :: p in s.open || p in s.failed <==> p in ports
  }

  /** A new list of ports, heard in the foreground, is brought about, and so is the list
      there is once the app is back in the foreground. */
  lemma GetsToServe(s: State, e: Event, ports: seq<nat>) returns (es: seq<Event>, s': State)
    requires Inv(s) && NoneBroken(s) && Can(s, e) && s.alive
    requires (e == Heard(ports) && s.foreground) || (e == Active && ports == s.wanted)
    ensures Run(Step(s, e), es, s') && (forall x :: x in es ==> Quiet(x)) && Settled(s') && Serves(s', ports)
  {
    hide Inv, Settled, OnTarget;
    StepInv(s, e);
    var t := Step(s, e);
    assert forall k :: 0 <= k < |t.turns| ==> t.turns[k] == if k < |s.turns| then s.turns[k] else Waiting;
    es, s' := GetsInStep(t);
    assert Target(t) == Dedupe(ports);
  }

  predicate Allows(s: State) { s.alive && s.foreground }

  lemma {:induction false} StaysOff(s: State, es: seq<Event>, s': State)
    requires Run(s, es, s') && !Allows(s) && (s.alive ==> Active !in es)
    ensures !Allows(s')
    decreases |es|
  {
    hide Visit, OpenNext, Can;
    if es != [] {
      OffStep(s, es[0]);
      StaysOff(Step(s, es[0]), es[1..], s');
    }
  }

  lemma OffStep(s: State, e: Event)
    requires Can(s, e) && !Allows(s) && (s.alive ==> e != Active)
    ensures !Allows(Step(s, e)) && (Step(s, e).alive ==> s.alive)
  {
    hide Visit, OpenNext;
    match e
    case Begin(i, order) => VisitMoves(s.(turns := s.turns[i := Running]), i, Target(s), order);
    case CloseDone(i) =>
      var f := s.work.forwarder;
      VisitMoves(s.(forwarders := s.forwarders[f := s.forwarders[f].(live := false)]), i, s.work.target, s.work.todo);
    case EndpointReady(i) => OpenNextMoves(s, i, s.work.target, s.work.failed, s.work.todo);
    case Opened(i) =>
      var p := s.work.port;
      OpenNextMoves(s.(open := s.open[p := |s.forwarders|], forwarders := s.forwarders + [Forwarder(p, true)]),
                    i, s.work.target, s.work.failed - {p}, s.work.todo);
    case OpenFails(i, why) => OpenNextMoves(s, i, s.work.target, s.work.failed[s.work.port := why], s.work.todo);
    case _ =>
  }

  /** Once unmounted, or in the background until the app is back, nothing listens when all
      that was asked for is done, whatever else is heard. */
  lemma OffWhenAway(foreground: bool, wanted: seq<nat>, failed: map<nat, string>, before: seq<Event>, s: State,
                    e: Event, es: seq<Event>, s': State)
    requires Run(Mounted(foreground, wanted, failed), before, s) && Can(s, e) && (e == Unmount || e == Background)
    requires Run(Step(s, e), es, s') && (e == Background ==> Active !in es)
    ensures !Allows(s') && (Settled(s') && !s'.stale ==> NoneLive(s') && Serves(s', []))
  {
    hide Run, Can, Settled;
    MountInv(foreground, wanted, failed, before, s);
    StepInv(s, e);
    AwayNow(s, e);
    StaysOff(Step(s, e), es, s');
    RunInv(Step(s, e), es, s');
    if Settled(s') && !s'.stale {
      NothingListens(s');
    }
  }

  lemma AwayNow(s: State, e: Event)
    requires Can(s, e) && (e == Unmount || e == Background)
    ensures !Allows(Step(s, e)) && (e == Unmount ==> !Step(s, e).alive)
  {
  }

  lemma NothingListens(s: State)
    requires Inv(s) && Settled(s) && !s.stale && !Allows(s)
    ensures NoneLive(s) && Serves(s, [])
  {
  }

  /** The failed ports the running reconcile will tell. */
  function Told(s: State): map<nat, string> { if s.work.AtEndpoint? || s.work.Opening? then s.work.failed else s.failed }

  /** A listener that comes up is its port's, which has then not failed; one that does not
      leaves its reason. Either way the reconcile goes on with the next port. */
  lemma OpeningTells(s: State, i: nat, why: string)
    requires Inv(s) && Can(s, Opened(i))
    ensures var t, p := Step(s, Opened(i)), s.work.port;
            && p in t.open && t.open[p] == |s.forwarders| && t.forwarders == s.forwarders + [Forwarder(p, true)]
            && p !in Told(t) && Told(t).Keys == s.work.failed.Keys - {p}
            && t.open.Keys == s.open.Keys + {p}
            && Moves(s, t, i) && (!t.work.Idle? ==> |t.work.todo| < |s.work.todo|)
    ensures var t, p := Step(s, OpenFails(i, why)), s.work.port;
            && t.open == s.open && t.forwarders == s.forwarders
            && p in Told(t) && Told(t)[p] == why && Told(t).Keys == s.work.failed.Keys + {p}
            && (forall q :: q in s.work.failed && q != p ==> Told(t)[q] == s.work.failed[q])
            && Moves(s, t, i) && (!t.work.Idle? ==> |t.work.todo| < |s.work.todo|)
  {
    hide Inv;
  }

  lemma Then(s: State, es: seq<Event>, mid: State, e: Event) returns (es': seq<Event>)
    requires Run(s, es, mid) && Can(mid, e)
    ensures Run(s, es', Step(mid, e))
    decreases |es|
  {
    hide Can, Step;
    if es == [] {
      es' := [e];
      assert es'[1..] == [];
    } else {
      var rest := Then(Step(s, es[0]), es[1..], mid, e);
      es' := [es[0]] + rest;
      assert es'[1..] == rest;
    }
  }

  /** One port listens, from the mount on. */
  const Listens := State(true, true, [80], false, map[80 := 0], [Forwarder(80, true)], map[], {80}, [Done], Idle)

  /** A second one is wanted, and the endpoint for it is being looked up. */
  const LooksUp := Listens.(wanted := [80, 81], turns := [Done, Running], work := AtEndpoint([80, 81], map[], [81]))

  const Asked := Mounted(true, [80], map[]).(turns := [Waiting], stale := false)

  const Opens := Asked.(turns := [Running], work := Opening([80], map[], 80, []))

  lemma FirstBegins()
    ensures Can(Asked, Begin(0, []))
    ensures Step(Asked, Begin(0, [])) == Asked.(turns := [Running], work := AtEndpoint([80], map[], [80]))
  {
    OnePort();
    assert Kept(map[], [80]) == map[];
    assert Asked.turns[0 := Running] == [Running];
  }

  lemma UntilOpens() returns (es: seq<Event>)
    ensures Run(Mounted(true, [80], map[]), es, Opens)
  {
    hide Visit;
    var s := Mounted(true, [80], map[]);
    es := Then(s, [], s, Followed);
    assert Step(s, Followed) == Asked;
    FirstBegins();
    es := Then(s, es, Asked, Begin(0, []));
    var b := Asked.(turns := [Running], work := AtEndpoint([80], map[], [80]));
    es := Then(s, es, b, EndpointReady(0));
    assert Step(b, EndpointReady(0)).work.todo == [];
    assert Step(b, EndpointReady(0)) == Opens;
  }

  lemma UntilListens() returns (es: seq<Event>)
    ensures Run(Mounted(true, [80], map[]), es, Listens)
  {
    es := UntilOpens();
    es := Then(Mounted(true, [80], map[]), es, Opens, Opened(0));
    var t := Step(Opens, Opened(0));
    assert t.turns == [Done];
    assert t.forwarders == [Forwarder(80, true)];
    assert t.open == map[80 := 0];
    assert t.failed == map[];
    assert t.listening == {80};
  }

  lemma OnePort()
    ensures Dedupe([80]) == [80] && Missing([80], map[]) == [80]
  {
    assert [80][..0] == [];
  }

  lemma TwoPorts()
    ensures Dedupe([80, 81]) == [80, 81] && Missing([80, 81], map[80 := 0]) == [81]
  {
    assert [80, 81][..1] == [80] && [80][..0] == [];
  }

  lemma UntilLooksUp(start: State, before: seq<Event>) returns (es: seq<Event>)
    requires Run(start, before, Listens)
    ensures Run(start, es, LooksUp)
  {
    TwoPorts();
    var a := Listens.(wanted := [80, 81], turns := [Done, Waiting]);
    es := Then(start, before, Listens, Heard([80, 81]));
    assert Step(Listens, Heard([80, 81])) == a;
    es := Then(start, es, a, Begin(1, [80]));
    assert Kept(map[], [80, 81]) == map[];
    assert Target(a) == [80, 81];
    assert a.turns[1 := Running] == [Done, Running];
  }

  /** It happens: the endpoint lookup for a second port fails, the app goes to the
      background, and the first goes on listening. */
  lemma LeftListening() returns (es: seq<Event>, s: State)
    ensures Run(Mounted(true, [80], map[]), es, s)
    ensures !s.foreground && s.forwarders == [Forwarder(80, true)] && !NoneBroken(s) && !OnWanted(s)
  {
    var start := Mounted(true, [80], map[]);
    es := UntilListens();
    es := UntilLooksUp(start, es);
    es := Then(start, es, LooksUp, EndpointFails(1));
    var broken := Step(LooksUp, EndpointFails(1));
    assert broken.turns[1].Broken?;
    es := Then(start, es, broken, Background);
    s := Step(broken, Background);
    assert s.turns[1].Broken? && 80 in s.open;
  }

  /** Which ports are open and which have failed, and why, after a reconcile that found
      these open. */
  ghost predicate Reconciled(before: map<nat, nat>, up: bool, wanted: seq<nat>, outcome: nat -> Option<string>,
                             open: map<nat, nat>, failed: map<nat, string>) {
    && (forall p :: p in open <==> up && p in wanted && (p in before || outcome(p).None?))
    && (forall p :: p in failed <==> up && p in wanted && p !in before && outcome(p).Some?)
    && (forall p :: p in failed ==> failed[p] == outcome(p).value)
  }

  lemma Reconciles(before: map<nat, nat>, closed: map<nat, nat>, target: seq<nat>, up: bool, wanted: seq<nat>,
                   outcome: nat -> Option<string>, kept: map<nat, string>, todo: seq<nat>,
                   open: map<nat, nat>, failed: map<nat, string>)
    requires forall p :: p in target <==> up && p in wanted
    requires forall p :: p in closed <==> p in before && p in target
    requires forall p :: p in kept ==> p in target && p !in closed
    requires forall p :: p in todo <==> p in target && p !in closed
    requires forall p :: p in open <==> p in closed || (p in todo && outcome(p).None?)
    requires forall p :: p in failed <==> if p in todo then outcome(p).Some? else p in kept
    requires forall p :: p in failed ==> failed[p] == if p in todo then outcome(p).value else kept[p]
    ensures Reconciled(before, up, wanted, outcome, open, failed)
  {
  }

  lemma KeptApart(failed: map<nat, string>, target: seq<nat>, open: map<nat, nat>)
    requires Apart(open, failed)
    ensures Apart(open, Kept(failed, target))
    ensures forall p :: p in Kept(failed, target) ==> p in target && p !in open
    ensures forall p :: p in Kept(failed, target) ==> p in failed && Kept(failed, target)[p] == failed[p]
  {
  }

  /** A wanted port has no listener: the endpoint is looked up. */
  ghost predicate NeedsEndpoint(before: map<nat, nat>, up: bool, wanted: seq<nat>) {
    up && exists p :: p in wanted && p !in before
  }

  lemma MissingSome(target: seq<nat>, up: bool, wanted: seq<nat>, before: map<nat, nat>, open: map<nat, nat>)
    requires forall p :: p in target <==> up && p in wanted
    requires forall p :: p in open <==> p in before && p in target
    ensures Missing(target, open) != [] <==> NeedsEndpoint(before, up, wanted)
  {
    hide Missing;
    var missing := Missing(target, open);
    if missing != [] {
      assert missing[0] in missing;
    }
    if NeedsEndpoint(before, up, wanted) {
      var p :| p in wanted && p !in before;
      assert p in missing;
    }
  }

  // ---- The code ----

  /** One reconcile from end to end: nothing else touches these while it runs. */
  class PortForwarder {
    var open: map<nat, nat>
    var forwarders: seq<Forwarder>
    var failed: map<nat, string>
    var listening: set<nat>
    var broken: bool

    ghost predicate Valid()
      reads this
    {
      Up(open, forwarders) && Apart(open, failed)
    }

    constructor (failed: map<nat, string>)
      ensures Valid() && open == map[] && forwarders == [] && this.failed == failed && !broken
    {
      open, forwarders, this.failed, listening, broken := map[], [], failed, {}, false;
    }

    /** The ports that are not in the target close, in the order of the map. */
    method CloseOthers(target: seq<nat>, order: seq<nat>)
      requires Valid() && Distinct(order) && forall p :: p in order <==> p in open
      modifies `open, `forwarders
      ensures Valid()
      ensures forall p :: p in open <==> p in old(open) && p in target
      ensures forall p :: p in open ==> open[p] == old(open)[p]
    {
      for k := 0 to |order|
        invariant Valid()
        invariant forall p :: p in open <==> p in old(open) && (p in target || p in order[k..])
        invariant forall p :: p in open ==> open[p] == old(open)[p]
      {
        var port := order[k];
        assert order[k..] == [port] + order[k + 1..];
        assert port !in order[k + 1..];
        if port !in target {
          var fw := open[port];
          open := open - {port};
          forwarders := forwarders[fw := forwarders[fw].(live := false)];
        }
      }
    }

    /** `outcome`: why `forwardTcp` fails for a port, if it does. */
    method OpenMissing(todo: seq<nat>, outcome: nat -> Option<string>)
      requires Valid() && Distinct(todo) && forall p :: p in todo ==> p !in open
      modifies `open, `forwarders, `failed
      ensures Valid()
      ensures forall p :: p in open <==> p in old(open) || (p in todo && outcome(p).None?)
      ensures forall p :: p in old(open) ==> open[p] == old(open)[p]
      ensures forall p :: p in failed <==> if p in todo then outcome(p).Some? else p in old(failed)
      ensures forall p :: p in failed ==> failed[p] == if p in todo then outcome(p).value else old(failed)[p]
    {
      for k := 0 to |todo|
        invariant Valid()
        invariant forall p :: p in open <==> p in old(open) || (p in todo[..k] && outcome(p).None?)
        invariant forall p :: p in old(open) ==> open[p] == old(open)[p]
        invariant forall p :: p in failed <==> if p in todo[..k] then outcome(p).Some? else p in old(failed)
        invariant forall p :: p in failed ==> failed[p] == if p in todo[..k] then outcome(p).value else old(failed)[p]
      {
        var port := todo[k];
        assert todo[..k + 1] == todo[..k] + [port];
        assert port !in todo[..k] && port in todo;
        match outcome(port)
        case None =>
          open := open[port := |forwarders|];
          forwarders := forwarders + [Forwarder(port, true)];
          failed := failed - {port};
        case Some(why) =>
          failed := failed[port := why];
      }
      assert todo[..|todo|] == todo;
    }

    /** `reached`: whether the endpoint lookup succeeds. When it does not, the chain is
        broken: the others are closed, nothing is told, and no later link runs. */
    method Reconcile(alive: bool, foreground: bool, wanted: seq<nat>, order: seq<nat>, reached: bool,
                     outcome: nat -> Option<string>)
      requires Valid() && Distinct(order) && forall p :: p in order <==> p in open
      modifies this
      ensures Valid()
      ensures broken <==> old(broken) || (!reached && NeedsEndpoint(old(open), alive && foreground, wanted))
      ensures old(broken) ==>
                open == old(open) && forwarders == old(forwarders) && failed == old(failed) && listening == old(listening)
      ensures !old(broken) && broken ==> failed == old(failed) && listening == old(listening)
      ensures !old(broken) && broken ==> forall p :: p in open <==> p in old(open) && p in wanted
      ensures forall p :: p in open && p in old(open) ==> open[p] == old(open)[p]
      ensures !broken ==>
                listening == open.Keys && Reconciled(old(open), alive && foreground, wanted, outcome, open, failed)
    {
      if broken {
        return;
      }
      hide Dedupe, Missing, Up, Distinct, Apart, Kept, Reconciled, NeedsEndpoint;
      var target := if alive && foreground then Dedupe(wanted) else [];
      CloseOthers(target, order);
      var stillFailed := Kept(failed, target);
      var toOpen := Missing(target, open);
      MissingSome(target, alive && foreground, wanted, old(open), open);
      KeptApart(failed, target, open);
      if |toOpen| > 0 && !reached {
        broken := true;
        return;
      }
      ghost var closed := open;
      OpenAndTell(stillFailed, toOpen, outcome);
      Reconciles(old(open), closed, target, alive && foreground, wanted, outcome, stillFailed, toOpen, open, failed);
    }

    /** Behind the endpoint, when one was needed: what is missing opens, and all is told. */
    method OpenAndTell(stillFailed: map<nat, string>, toOpen: seq<nat>, outcome: nat -> Option<string>)
      requires Up(open, forwarders) && Apart(open, stillFailed)
      requires Distinct(toOpen) && forall p :: p in toOpen ==> p !in open
      modifies `open, `forwarders, `failed, `listening
      ensures Valid() && listening == open.Keys
      ensures forall p :: p in open <==> p in old(open) || (p in toOpen && outcome(p).None?)
      ensures forall p :: p in old(open) ==> open[p] == old(open)[p]
      ensures forall p :: p in failed <==> if p in toOpen then outcome(p).Some? else p in stillFailed
      ensures forall p :: p in failed ==> failed[p] == if p in toOpen then outcome(p).value else stillFailed[p]
    {
      failed := stillFailed;
      if |toOpen| > 0 {
        OpenMissing(toOpen, outcome);
      }
      listening := open.Keys;
    }
  }
}
