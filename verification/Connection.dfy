/**
 The phone's one live connection (`DaemonClientProvider`) and the facade its
 transports are swapped under (`DaemonClient`): `connect`, `pair` and `unpair` cut
 at their `await`s, timers, and transports that drop.
 */
module Connection {
  import opened Wrappers

  /** `epoch`: of the attempt that obtained it. `wired`: its unexpected-close handler is
      set. `heard`: the handler was called. */
  datatype Transport = Transport(epoch: nat, life: Life, wired: bool, heard: bool)

  datatype Life = Live | Dropped | Closed

  datatype Timer = Timer(epoch: nat, attempt: nat, live: bool)

  datatype Kind = Connecting(attempt: nat) | Pairing | Unpairing

  /** The await an attempt is at. */
  datatype Phase = AtIdentity | AtRecord | AtDial | Holding(transport: nat) | Checking(transport: nat) | AtClear | Over

  datatype Task = Task(kind: Kind, epoch: nat, phase: Phase)

  datatype Status = IsConnecting(attempt: nat) | Ready | Offline(attempt: nat) | Error | Unpaired

  datatype Swap = Attached(transport: nat) | Detached

  /** `ready`: the facade's promises, the last being its `readyPromise`; each resolved
      with a transport or not yet. `swaps`: the calls on the facade so far. `leaked`:
      transports nobody can close any more. */
  datatype State = State(
    epoch: nat, transportRef: Option<nat>, timerRef: Option<nat>, shouldReconnect: bool,
    attached: Option<nat>, ready: seq<Option<nat>>, swaps: seq<Swap>,
    status: Status, paired: Option<string>, protocolError: bool,
    tasks: seq<Task>, transports: seq<Transport>, timers: seq<Timer>, leaked: set<nat>)

  const Boot := State(0, None, None, true, None, [None], [], IsConnecting(0), None, false, [], [], [], {})

  /** What `getPairedDaemon` gives. */
  datatype Load = Record(record: string) | Missing | Unreadable

  datatype Event =
    | Connect
    | Pair
    | Unpair
    | Unmount
    | Fire(timer: nat)
    | Identity(task: nat, ok: bool)
    | Loaded(task: nat, load: Load)
    | Dialed(task: nat)
    | DialFailed(task: nat, mismatch: bool)
    | StoreFailed(task: nat)
    | Resume(task: nat)
    | Checked(task: nat, load: Load)
    | Cleared(task: nat, ok: bool)
    | Drop(transport: nat)

  // ---- The facade ----

  function Attach(s: State, t: nat): State
    requires s.ready != []
  {
    var last := |s.ready| - 1;
    s.(attached := Some(t), swaps := s.swaps + [Attached(t)],
       ready := s.ready[last := if s.ready[last].None? then Some(t) else s.ready[last]])
  }

  function Detach(s: State): State { s.(attached := None, swaps := s.swaps + [Detached], ready := s.ready + [None]) }

  // ---- The provider's segments ----

  function ClearTimer(s: State): State {
    if s.timerRef.Some? && s.timerRef.value < |s.timers| then
      s.(timerRef := None, timers := s.timers[s.timerRef.value := s.timers[s.timerRef.value].(live := false)])
    else s.(timerRef := None)
  }

  function Arm(s: State, epoch: nat, attempt: nat): State {
    s.(timerRef := Some(|s.timers|), timers := s.timers + [Timer(epoch, attempt, true)])
  }

  function Close(s: State, t: nat): State {
    if t < |s.transports| then s.(transports := s.transports[t := s.transports[t].(life := Closed)]) else s
  }

  /** Detach before closing: no RPC gets the old handle. */
  function LetGo(s: State): State {
    if s.transportRef.None? then s
    else Close(Detach(s.(transportRef := None)), s.transportRef.value)
  }

  function Start(s: State, attempt: nat): State {
    LetGo(ClearTimer(s.(epoch := s.epoch + 1))).(
      shouldReconnect := true, status := IsConnecting(attempt),
      tasks := s.tasks + [Task(Connecting(attempt), s.epoch + 1, AtIdentity)])
  }

  function StartPair(s: State): State {
    ClearTimer(s.(epoch := s.epoch + 1)).(
      shouldReconnect := true, tasks := s.tasks + [Task(Pairing, s.epoch + 1, AtIdentity)])
  }

  /** What `unpair` and the unmount do at once. */
  function TearDown(s: State): State { LetGo(ClearTimer(s.(epoch := s.epoch + 1, shouldReconnect := false))) }

  function SetPhase(s: State, i: nat, phase: Phase): State
    requires i < |s.tasks|
  {
    s.(tasks := s.tasks[i := s.tasks[i].(phase := phase)])
  }

  predicate Current(s: State, i: nat) { i < |s.tasks| && s.tasks[i].epoch == s.epoch }

  /** The `catch` at the end of `connect` and of `pair`: a pair only rethrows. */
  function Catch(s: State, i: nat): State
    requires i < |s.tasks|
  {
    var over := SetPhase(s, i, Over);
    if Current(s, i) && s.tasks[i].kind.Connecting? then over.(status := Error) else over
  }

  /** `connect` with what was stored. The record is published whatever the epoch. */
  function OnRecord(s: State, i: nat, load: Load): State
    requires i < |s.tasks|
  {
    match load
    case Unreadable => Catch(s, i)
    case Missing =>
      var over := SetPhase(s, i, Over);
      if Current(s, i) then over.(paired := None, status := Unpaired) else over
    case Record(record) => SetPhase(s, i, AtDial).(paired := Some(record))
  }

  function OnDialFailed(s: State, i: nat, mismatch: bool): State
    requires i < |s.tasks|
  {
    var over := SetPhase(s, i, Over);
    if !s.tasks[i].kind.Connecting? || !Current(s, i) || !s.shouldReconnect then over
    else if mismatch then over.(shouldReconnect := false, protocolError := true, status := Error)
    else Arm(over, s.tasks[i].epoch, s.tasks[i].kind.attempt + 1).(status := Offline(s.tasks[i].kind.attempt))
  }

  /** The handler wired, the transport in place, the facade attached. */
  function Adopt(s: State, t: nat): State
    requires s.ready != []
  {
    var wired := if t < |s.transports| then s.(transports := s.transports[t := s.transports[t].(wired := true)]) else s;
    Attach(wired.(transportRef := Some(t)), t).(protocolError := false, status := Ready)
  }

  /** Behind `Transport.reconnect` or `Transport.pair`. */
  function OnTransport(s: State, i: nat): State
    requires i < |s.tasks| && s.tasks[i].phase.Holding? && s.ready != []
  {
    var t := s.tasks[i].phase.transport;
    if !Current(s, i) then SetPhase(Close(s, t), i, Over)
    else if s.tasks[i].kind.Pairing? then SetPhase(s, i, Checking(t))
    else Adopt(SetPhase(s, i, Over), t)
  }

  /** `pair` behind its second look at the store. */
  function OnChecked(s: State, i: nat, load: Load): State
    requires i < |s.tasks| && s.tasks[i].phase.Checking? && s.ready != []
  {
    var t, over := s.tasks[i].phase.transport, SetPhase(s, i, Over);
    match load
    case Unreadable => over.(leaked := s.leaked + {t})
    case Missing => Close(over, t)
    case Record(record) =>
      if !Current(s, i) then Close(over, t) else Adopt(LetGo(over), t).(paired := Some(record))
  }

  function OnClose(s: State, epoch: nat): State {
    if epoch != s.epoch || !s.shouldReconnect then s
    else Arm(ClearTimer(s), epoch, 1).(status := Offline(0))
  }

  function OnDrop(s: State, t: nat): State
    requires t < |s.transports|
  {
    var it := s.transports[t];
    var dropped := s.(transports := s.transports[t := Transport(it.epoch, Dropped, false, it.wired)]);
    if it.wired then OnClose(dropped, it.epoch) else dropped
  }

  function OnTimer(s: State, k: nat): State
    requires k < |s.timers|
  {
    var fired := s.(timerRef := None, timers := s.timers[k := s.timers[k].(live := false)]);
    if s.timers[k].epoch != s.epoch || !s.shouldReconnect then fired else Start(fired, s.timers[k].attempt)
  }

  // ---- The steps ----

  predicate At(s: State, i: nat, phase: Phase) { i < |s.tasks| && s.tasks[i].phase == phase }

  predicate Can(s: State, e: Event) {
    s.ready != []
    && match e
       case Connect => true
       case Pair => true
       case Unpair => true
       case Unmount => true
       case Fire(k) => k < |s.timers| && s.timers[k].live
       case Identity(i, _) => At(s, i, AtIdentity)
       case Loaded(i, _) => At(s, i, AtRecord)
       case Dialed(i) => At(s, i, AtDial)
       case DialFailed(i, _) => At(s, i, AtDial)
       case StoreFailed(i) => At(s, i, AtDial) && s.tasks[i].kind.Pairing?
       case Resume(i) => i < |s.tasks| && s.tasks[i].phase.Holding?
       case Checked(i, _) => i < |s.tasks| && s.tasks[i].phase.Checking?
       case Cleared(i, _) => At(s, i, AtClear)
       case Drop(t) => t < |s.transports| && s.transports[t].life.Live?
  }

  function Step(s: State, e: Event): State
    requires Can(s, e)
  {
    match e
    case Connect => Start(s, 0)
    case Pair => StartPair(s)
    case Unpair => TearDown(s).(tasks := s.tasks + [Task(Unpairing, s.epoch + 1, AtClear)])
    case Unmount => TearDown(s)
    case Fire(k) => OnTimer(s, k)
    case Identity(i, ok) =>
      if !ok then Catch(s, i) else SetPhase(s, i, if s.tasks[i].kind.Pairing? then AtDial else AtRecord)
    case Loaded(i, load) => OnRecord(s, i, load)
    case Dialed(i) =>
      SetPhase(s, i, Holding(|s.transports|)).(transports := s.transports + [Transport(s.tasks[i].epoch, Live, false, false)])
    case DialFailed(i, mismatch) => OnDialFailed(s, i, mismatch)
    case StoreFailed(i) =>
      SetPhase(s, i, Over).(transports := s.transports + [Transport(s.tasks[i].epoch, Live, false, false)],
                            leaked := s.leaked + {|s.transports|})
    case Resume(i) => OnTransport(s, i)
    case Checked(i, load) => OnChecked(s, i, load)
    case Cleared(i, ok) =>
      // Sets the state whatever the epoch.
      if ok then SetPhase(s, i, Over).(paired := None, protocolError := false, status := Unpaired)
      else SetPhase(s, i, Over)
    case Drop(t) => OnDrop(s, t)
  }

  ghost predicate Run(s: State, es: seq<Event>, s': State)
    decreases |es|
  {
    if es == [] then s' == s else Can(s, es[0]) && Run(Step(s, es[0]), es[1..], s')
  }

  // ---- What every step keeps ----

  /** The facade holds what the provider holds; every promise but the last has been
      resolved, and the last is while attached. */
  ghost predicate FacadeOk(s: State) {
    && s.attached == s.transportRef
    && s.ready != []
    && (forall g :: 0 <= g < |s.ready| - 1 ==> s.ready[g].Some?)
    && s.ready[|s.ready| - 1] == s.attached
    && Alternates(s.swaps, s.attached)
  }

  /** Attach, detach, attach, ..., and what is attached now came with the last call. */
  ghost predicate Alternates(swaps: seq<Swap>, attached: Option<nat>) {
    && (forall k :: 0 <= k < |swaps| ==> (swaps[k].Attached? <==> k % 2 == 0))
    && (if attached.Some? then swaps != [] && swaps[|swaps| - 1] == Attached(attached.value) else |swaps| % 2 == 0)
  }

  /** At most one timer is set, it is the one the provider knows, and it is of the
      current epoch. */
  ghost predicate TimersOk(s: State) {
    && (forall k :: 0 <= k < |s.timers| ==> (s.timers[k].live <==> s.timerRef == Some(k)))
    && (s.timerRef.Some? ==>
          s.timerRef.value < |s.timers| && s.timers[s.timerRef.value].epoch == s.epoch && s.shouldReconnect)
  }

  predicate InFlight(task: Task) { !task.phase.Over? && !task.kind.Unpairing? }

  /** An attempt of the current epoch runs alone: no timer beside it, and for a connect
      no transport either. Attempts have distinct epochs. */
  ghost predicate TaskOk(s: State, i: nat)
    requires i < |s.tasks|
  {
    var task := s.tasks[i];
    && task.epoch <= s.epoch
    && (forall j :: 0 <= j < i ==> s.tasks[j].epoch < task.epoch)
    && (task.phase.AtRecord? ==> task.kind.Connecting?)
    && (task.phase.AtClear? ==> task.kind.Unpairing?)
    && (task.kind.Unpairing? ==> task.phase.AtClear? || task.phase.Over?)
    && (task.phase.Checking? ==> task.kind.Pairing?)
    && (InFlight(task) && task.epoch == s.epoch ==>
          s.timerRef.None? && s.shouldReconnect && (task.kind.Connecting? ==> s.transportRef.None?))
    && (task.phase.Holding? || task.phase.Checking? ==>
          Held(s, task.phase.transport, task.epoch))
  }

  /** Only the attempt that dialed it has it. */
  ghost predicate Held(s: State, t: nat, epoch: nat) {
    && t < |s.transports| && s.transports[t].epoch == epoch && !s.transports[t].wired && !s.transports[t].heard
    && s.transportRef != Some(t) && t !in s.leaked && !s.transports[t].life.Closed?
  }

  ghost predicate HasIt(s: State, i: nat, t: nat) {
    && i < |s.tasks|
    && (s.tasks[i].phase == Holding(t) || s.tasks[i].phase == Checking(t))
  }

  /** A transport that is not closed is in place, in the hands of an attempt, or leaked. */
  ghost predicate Accounted(s: State, t: nat)
    requires t < |s.transports|
  {
    s.transports[t].life.Closed? || s.transportRef == Some(t) || t in s.leaked || exists i :: HasIt(s, i, t)
  }

  /** A transport with a live handler is the one in place, and its attempt is over. */
  ghost predicate TransportOk(s: State, t: nat)
    requires t < |s.transports|
  {
    var it := s.transports[t];
    && it.epoch <= s.epoch
    && (it.life.Live? ==> !it.heard && (it.wired ==> s.transportRef == Some(t)))
    && (it.wired || it.heard ==> forall i :: 0 <= i < |s.tasks| && s.tasks[i].epoch == it.epoch ==> s.tasks[i].phase.Over?)
    && (s.transportRef == Some(t) ==>
          !it.life.Closed? && (it.wired || it.heard)
          && (it.epoch == s.epoch ==> s.shouldReconnect))
    && (s.transportRef == Some(t) ==> (s.timerRef.Some? <==> it.heard && it.epoch == s.epoch))
    && (t in s.leaked ==> !it.life.Closed? && s.transportRef != Some(t))
    && Accounted(s, t)
  }

  ghost predicate Inv(s: State) {
    && FacadeOk(s)
    && TimersOk(s)
    && (forall i :: 0 <= i < |s.tasks| ==> TaskOk(s, i))
    && (forall t :: 0 <= t < |s.transports| ==> TransportOk(s, t))
    && (s.transportRef.Some? ==> s.transportRef.value < |s.transports|)
    && (forall t :: t in s.leaked ==> t < |s.transports|)
  }


  /** Tasks keep their epoch and stay over; new ones are of a new epoch. */
  ghost predicate TasksAge(s: State, t: State) {
    && s.epoch <= t.epoch
    && |s.tasks| <= |t.tasks|
    && (forall i :: 0 <= i < |s.tasks| ==>
          t.tasks[i].epoch == s.tasks[i].epoch && t.tasks[i].kind == s.tasks[i].kind
          && (s.tasks[i].phase.Over? ==> t.tasks[i].phase.Over?))
    && (forall i :: |s.tasks| <= i < |t.tasks| ==> t.tasks[i].epoch > s.epoch)
    && s.leaked <= t.leaked
  }

  lemma TransportStays(s: State, t: State, k: nat)
    requires TasksAge(s, t) && k < |s.transports| && k < |t.transports| && TransportOk(s, k)
    requires t.transports[k] == s.transports[k]
    requires t.transportRef == Some(k) <==> s.transportRef == Some(k)
    requires s.transportRef == Some(k) ==>
               if t.epoch == s.epoch then
                 t.shouldReconnect == s.shouldReconnect && (s.timerRef.Some? <==> t.timerRef.Some?)
               else t.timerRef.None?
    requires k in t.leaked && k !in s.leaked ==> !s.transports[k].life.Closed? && s.transportRef != Some(k)
    requires forall i :: HasIt(s, i, k) ==> HasIt(t, i, k) || k in t.leaked
    ensures TransportOk(t, k)
  {
    if exists i :: HasIt(s, i, k) {
      var i :| HasIt(s, i, k);
      assert HasIt(t, i, k) || k in t.leaked;
    }
  }

  lemma ClosedIsOk(s: State, t: State, k: nat)
    requires TasksAge(s, t) && k < |s.transports| && k < |t.transports| && TransportOk(s, k)
    requires t.transports[k] == s.transports[k].(life := Closed) && t.transportRef != Some(k) && k !in t.leaked
    ensures TransportOk(t, k)
  {
  }

  lemma TaskStays(s: State, t: State, i: nat)
    requires TasksAge(s, t) && i < |s.tasks| && TaskOk(s, i) && t.tasks[i] == s.tasks[i]
    requires t.epoch == s.epoch && InFlight(s.tasks[i]) && s.tasks[i].epoch == s.epoch ==>
               t.timerRef == s.timerRef && t.shouldReconnect == s.shouldReconnect && t.transportRef == s.transportRef
    requires forall k: nat :: HasIt(s, i, k) && Held(s, k, s.tasks[i].epoch) ==> Held(t, k, s.tasks[i].epoch)
    ensures TaskOk(t, i)
  {
    if s.tasks[i].phase.Holding? || s.tasks[i].phase.Checking? {
      assert HasIt(s, i, s.tasks[i].phase.transport);
    }
  }

  /** A step that bumps the epoch and lets go of the transport. */
  lemma RestartInv(s: State, t: State)
    requires Inv(s) && FacadeOk(t) && TimersOk(t) && TasksAge(s, t) && t.epoch == s.epoch + 1
    requires t.transportRef.None? && t.timerRef.None? && t.leaked == s.leaked
    requires t.transports == LetGo(s).transports
    requires t.tasks == s.tasks || (|t.tasks| == |s.tasks| + 1 && t.tasks[..|s.tasks|] == s.tasks && FreshTask(t))
    ensures Inv(t)
  {
    hide LetGo;
    LetGoIs(s);
    forall i | 0 <= i < |s.tasks|
      ensures TaskOk(t, i)
    {
      assert TaskOk(s, i);
      assert t.tasks[i] == s.tasks[i];
      TaskStays(s, t, i);
    }
    if |t.tasks| > |s.tasks| {
      FreshTaskOk(s, t);
    }
    forall k | 0 <= k < |t.transports|
      ensures TransportOk(t, k)
    {
      assert TransportOk(s, k);
      if s.transportRef == Some(k) {
        ClosedIsOk(s, t, k);
      } else {
        TransportStays(s, t, k);
      }
    }
  }

  ghost predicate FreshTask(t: State) {
    && t.tasks != []
    && var last := t.tasks[|t.tasks| - 1];
       last.epoch == t.epoch
       && ((last.kind.Connecting? && last.phase.AtIdentity? && t.shouldReconnect)
           || (last.kind.Unpairing? && last.phase.AtClear?))
  }

  lemma FreshTaskOk(s: State, t: State)
    requires Inv(s) && TasksAge(s, t) && FreshTask(t) && t.epoch == s.epoch + 1
    requires |t.tasks| == |s.tasks| + 1 && t.tasks[..|s.tasks|] == s.tasks && t.transportRef.None? && t.timerRef.None?
    ensures TaskOk(t, |s.tasks|)
  {
    forall j | 0 <= j < |s.tasks|
      ensures t.tasks[j].epoch < t.epoch
    {
      assert TaskOk(s, j) && t.tasks[j] == s.tasks[j];
    }
  }

  lemma LetGoIs(s: State)
    requires s.transportRef.Some? ==> s.transportRef.value < |s.transports|
    ensures var u := LetGo(s);
            && u == s.(transportRef := None, attached := u.attached, ready := u.ready, swaps := u.swaps,
                       transports := u.transports)
            && |u.transports| == |s.transports|
            && (forall k :: 0 <= k < |s.transports| ==>
                 u.transports[k] == if s.transportRef == Some(k) then s.transports[k].(life := Closed) else s.transports[k])
            && (FacadeOk(s) ==> FacadeOk(u))
  {
  }

  /** No timer runs after it. */
  lemma ClearTimerIs(s: State)
    requires forall k :: 0 <= k < |s.timers| ==> (s.timers[k].live <==> s.timerRef == Some(k))
    ensures var u := ClearTimer(s);
            && u == s.(timerRef := None, timers := u.timers)
            && forall k :: 0 <= k < |u.timers| ==> !u.timers[k].live
  {
  }

  lemma TornDownInv(s: State, shouldReconnect: bool, t: State)
    requires Inv(s)
    requires var u := LetGo(ClearTimer(s.(epoch := s.epoch + 1)));
             t == u.(shouldReconnect := shouldReconnect, tasks := t.tasks, status := t.status)
    requires t.tasks == s.tasks || (|t.tasks| == |s.tasks| + 1 && t.tasks[..|s.tasks|] == s.tasks && FreshTask(t))
    ensures Inv(t)
  {
    hide LetGo, ClearTimer, TaskOk, TransportOk;
    var bumped := s.(epoch := s.epoch + 1);
    ClearTimerIs(bumped);
    LetGoIs(ClearTimer(bumped));
    LetGoIs(s);
    assert forall i :: 0 <= i < |s.tasks| ==> t.tasks[i] == s.tasks[i];
    SameTransports(LetGo(ClearTimer(bumped)), LetGo(s));
    RestartInv(s, t);
  }

  lemma SameTransports(a: State, b: State)
    requires |a.transports| == |b.transports|
    requires forall k :: 0 <= k < |a.transports| ==> a.transports[k] == b.transports[k]
    ensures a.transports == b.transports
  {
  }

  lemma ConnectInv(s: State, attempt: nat)
    requires Inv(s)
    ensures Inv(Start(s, attempt))
  {
    hide LetGo, Inv, ClearTimer;
    ClearTimerKeeps(s.(epoch := s.epoch + 1));
    TornDownInv(s, true, Start(s, attempt));
  }

  lemma ClearTimerKeeps(s: State)
    ensures ClearTimer(s) == s.(timerRef := None, timers := ClearTimer(s).timers)
    ensures ClearTimer(s.(shouldReconnect := false)) == ClearTimer(s).(shouldReconnect := false)
    ensures LetGo(ClearTimer(s)).(shouldReconnect := false) == LetGo(ClearTimer(s.(shouldReconnect := false)))
    ensures LetGo(ClearTimer(s)).tasks == s.tasks && LetGo(ClearTimer(s)).epoch == s.epoch
  {
  }

  lemma UnmountInv(s: State)
    requires Inv(s)
    ensures Inv(TearDown(s))
  {
    hide LetGo, Inv, ClearTimer;
    ClearTimerKeeps(s.(epoch := s.epoch + 1));
    TornDownInv(s, false, TearDown(s));
  }

  lemma UnpairInv(s: State)
    requires Inv(s) && Can(s, Unpair)
    ensures Inv(Step(s, Unpair))
  {
    hide LetGo, Inv, ClearTimer;
    ClearTimerKeeps(s.(epoch := s.epoch + 1));
    TornDownInv(s, false, Step(s, Unpair));
  }

  lemma PairInv(s: State)
    requires Inv(s)
    ensures Inv(StartPair(s))
  {
    hide ClearTimer, TaskOk, TransportOk;
    var t := StartPair(s);
    ClearTimerIs(s.(epoch := s.epoch + 1));
    forall i | 0 <= i < |t.tasks|
      ensures TaskOk(t, i)
    {
      if i < |s.tasks| {
        TaskStays(s, t, i);
      } else {
        PairTaskOk(s, t);
      }
    }
    forall k | 0 <= k < |t.transports|
      ensures TransportOk(t, k)
    {
      TransportStays(s, t, k);
    }
  }

  lemma PairTaskOk(s: State, t: State)
    requires Inv(s) && t.epoch == s.epoch + 1 && t.timerRef.None? && t.shouldReconnect
    requires t.tasks == s.tasks + [Task(Pairing, t.epoch, AtIdentity)]
    ensures TaskOk(t, |s.tasks|)
  {
    forall j | 0 <= j < |s.tasks|
      ensures t.tasks[j].epoch < t.epoch
    {
      assert TaskOk(s, j);
    }
  }

  /** A timer that goes off is of the current epoch and always connects: both of its
      checks pass. */
  lemma TimerConnects(s: State, f: nat)
    requires Inv(s) && Can(s, Fire(f))
    ensures OnTimer(s, f) == Start(s, s.timers[f].attempt)
  {
    hide LetGo, TaskOk, TransportOk;
    var fired := s.(timerRef := None, timers := s.timers[f := s.timers[f].(live := false)]);
    assert ClearTimer(fired.(epoch := s.epoch + 1)) == ClearTimer(s.(epoch := s.epoch + 1));
  }

  lemma FireInv(s: State, f: nat)
    requires Inv(s) && Can(s, Fire(f))
    ensures Inv(OnTimer(s, f))
  {
    hide Inv, Start;
    TimerConnects(s, f);
    ConnectInv(s, s.timers[f].attempt);
  }

  // ---- Steps of one attempt ----

  ghost predicate OthersSame(s: State, t: State, i: nat) {
    && i < |s.tasks| && |t.tasks| == |s.tasks|
    && (forall j :: 0 <= j < |s.tasks| && j != i ==> t.tasks[j] == s.tasks[j])
    && t.tasks[i].kind == s.tasks[i].kind && t.tasks[i].epoch == s.tasks[i].epoch
    && t.epoch == s.epoch && !s.tasks[i].phase.Over?
  }

  /** Of the current epoch no second attempt is in flight. */
  lemma OneInFlight(s: State, i: nat, j: nat)
    requires Inv(s) && i < |s.tasks| && j < |s.tasks| && s.tasks[i].epoch == s.tasks[j].epoch
    ensures i == j
  {
    assert TaskOk(s, i) && TaskOk(s, j);
  }

  /** A step of one attempt that touches no transport. */
  lemma AttemptInv(s: State, t: State, i: nat)
    requires Inv(s) && OthersSame(s, t, i) && FacadeOk(t) && TimersOk(t) && TaskOk(t, i)
    requires t.transportRef == s.transportRef && t.transports == s.transports && t.leaked == s.leaked
    requires t.timerRef == s.timerRef && t.shouldReconnect == s.shouldReconnect
    requires forall k :: HasIt(s, i, k) ==> HasIt(t, i, k)
    ensures Inv(t)
  {
    hide FacadeOk, TimersOk, TaskOk, TransportOk, HasIt, Held;
    forall j | 0 <= j < |t.tasks|
      ensures TaskOk(t, j)
    {
      if j != i {
        assert TaskOk(s, j);
        HeldSame(s, t);
        TaskStays(s, t, j);
      }
    }
    forall k | 0 <= k < |t.transports|
      ensures TransportOk(t, k)
    {
      HasItSame(s, t, i, k);
      TransportStays(s, t, k);
    }
  }

  lemma HeldSame(s: State, t: State)
    requires t.transportRef == s.transportRef && t.transports == s.transports && t.leaked == s.leaked
    ensures forall k, epoch :: Held(s, k, epoch) ==> Held(t, k, epoch)
  {
  }

  lemma HasItSame(s: State, t: State, i: nat, k: nat)
    requires OthersSame(s, t, i) && (HasIt(s, i, k) ==> HasIt(t, i, k))
    ensures forall j :: HasIt(s, j, k) ==> HasIt(t, j, k)
  {
  }

  /** A step that ends an attempt, or takes it on, with no transport in hand. */
  lemma EmptyHanded(s: State, i: nat, phase: Phase)
    requires Inv(s) && i < |s.tasks|
    requires var at := s.tasks[i].phase; at.AtIdentity? || at.AtRecord? || at.AtDial? || at.AtClear?
    requires phase.Over? || (phase.AtRecord? && s.tasks[i].kind.Connecting?)
             || (phase.AtDial? && !s.tasks[i].kind.Unpairing?)
    ensures Inv(SetPhase(s, i, phase))
  {
    var t := SetPhase(s, i, phase);
    assert TaskOk(s, i);
    TaskOver(s, i, phase);
    FacadeSame(s, t);
    AttemptInv(s, t, i);
  }

  lemma FacadeSame(s: State, t: State)
    requires FacadeOk(s) && TimersOk(s) && t == s.(tasks := t.tasks)
    ensures FacadeOk(t) && TimersOk(t)
  {
  }

  lemma TaskOver(s: State, i: nat, phase: Phase)
    requires i < |s.tasks| && TaskOk(s, i) && !s.tasks[i].phase.Over?
    requires phase.Over? || (phase.AtRecord? && s.tasks[i].kind.Connecting?)
             || (phase.AtDial? && !s.tasks[i].kind.Unpairing?)
    ensures TaskOk(SetPhase(s, i, phase), i)
  {
  }

  /** `status`, `paired` and `protocolError` are shown, and nothing looks at them. */
  lemma ShownOnly(s: State, t: State)
    requires Inv(s) && t == s.(status := t.status, paired := t.paired, protocolError := t.protocolError)
    ensures Inv(t)
  {
    hide FacadeOk, TimersOk, Held;
    SameParts(s, t);
    forall i | 0 <= i < |t.tasks|
      ensures TaskOk(t, i)
    {
      assert TaskOk(s, i);
      HeldSame(s, t);
    }
    forall k | 0 <= k < |t.transports|
      ensures TransportOk(t, k)
    {
      assert TransportOk(s, k);
      TransportStays(s, t, k);
    }
  }

  lemma SameParts(s: State, t: State)
    requires FacadeOk(s) && TimersOk(s)
    requires t == s.(status := t.status, paired := t.paired, protocolError := t.protocolError)
    ensures FacadeOk(t) && TimersOk(t)
  {
  }

  lemma IdentityInv(s: State, i: nat, ok: bool)
    requires Inv(s) && Can(s, Identity(i, ok))
    ensures Inv(Step(s, Identity(i, ok)))
  {
    hide Inv;
    var phase := if !ok then Over else if s.tasks[i].kind.Pairing? then AtDial else AtRecord;
    IdentityKind(s, i);
    EmptyHanded(s, i, phase);
    ShownOnly(SetPhase(s, i, phase), Step(s, Identity(i, ok)));
  }

  lemma IdentityKind(s: State, i: nat)
    requires Inv(s) && i < |s.tasks| && !s.tasks[i].phase.Over? && !s.tasks[i].phase.AtClear?
    ensures !s.tasks[i].kind.Unpairing?
    ensures s.tasks[i].phase.AtRecord? ==> s.tasks[i].kind.Connecting?
  {
    assert TaskOk(s, i);
  }

  lemma LoadedInv(s: State, i: nat, load: Load)
    requires Inv(s) && Can(s, Loaded(i, load))
    ensures Inv(OnRecord(s, i, load))
  {
    hide Inv;
    var phase := if load.Record? then AtDial else Over;
    IdentityKind(s, i);
    EmptyHanded(s, i, phase);
    ShownOnly(SetPhase(s, i, phase), OnRecord(s, i, load));
  }

  lemma ClearedInv(s: State, i: nat, ok: bool)
    requires Inv(s) && Can(s, Cleared(i, ok))
    ensures Inv(Step(s, Cleared(i, ok)))
  {
    hide Inv;
    EmptyHanded(s, i, Over);
    ShownOnly(SetPhase(s, i, Over), Step(s, Cleared(i, ok)));
  }

  /** The current attempt ends with no transport in place or in hand. */
  lemma LoneEnds(s: State, t: State, i: nat)
    requires Inv(s) && Current(s, i) && InFlight(s.tasks[i]) && OthersSame(s, t, i) && t.tasks[i].phase.Over?
    requires FacadeOk(t) && TimersOk(t) && s.transportRef.None? && t.transportRef.None?
    requires t.transports == s.transports && t.leaked == s.leaked && forall k :: !HasIt(s, i, k)
    ensures Inv(t)
  {
    hide FacadeOk, TimersOk, Held, HasIt, TransportOk;
    HeldSame(s, t);
    OthersKeep(s, t, i);
    OverOk(s, t, i);
    forall k | 0 <= k < |t.transports|
      ensures TransportOk(t, k)
    {
      HasItSame(s, t, i, k);
      TransportStays(s, t, k);
    }
  }

  lemma OverOk(s: State, t: State, i: nat)
    requires OthersSame(s, t, i) && TaskOk(s, i) && t.tasks[i].phase.Over?
    ensures TaskOk(t, i)
  {
  }

  /** When the current attempt ends, whatever it did to timer and transport is nothing
      to the others: none of them is current. */
  lemma OthersKeep(s: State, t: State, i: nat)
    requires Inv(s) && Current(s, i) && InFlight(s.tasks[i]) && OthersSame(s, t, i)
    requires s.leaked <= t.leaked
    requires forall j: nat, k :: j < |s.tasks| && j != i && HasIt(s, j, k) && Held(s, k, s.tasks[j].epoch) ==>
               Held(t, k, s.tasks[j].epoch)
    ensures forall j :: 0 <= j < |s.tasks| && j != i ==> TaskOk(t, j)
  {
    hide FacadeOk, TimersOk, Held, HasIt, TransportOk;
    forall j | 0 <= j < |s.tasks| && j != i
      ensures TaskOk(t, j)
    {
      if s.tasks[j].epoch == s.epoch {
        OneInFlight(s, i, j);
      } else {
        NotCurrentStays(s, t, j);
      }
    }
  }

  lemma NotCurrentStays(s: State, t: State, j: nat)
    requires j < |s.tasks| && |t.tasks| == |s.tasks| && TaskOk(s, j) && s.tasks[j].epoch != s.epoch && t.epoch == s.epoch
    requires t.tasks[j] == s.tasks[j] && forall i :: 0 <= i < j ==> t.tasks[i].epoch == s.tasks[i].epoch
    requires forall k :: HasIt(s, j, k) && Held(s, k, s.tasks[j].epoch) ==> Held(t, k, s.tasks[j].epoch)
    ensures TaskOk(t, j)
  {
    if s.tasks[j].phase.Holding? || s.tasks[j].phase.Checking? {
      assert HasIt(s, j, s.tasks[j].phase.transport);
    }
  }

  lemma DialFailedInv(s: State, i: nat, mismatch: bool)
    requires Inv(s) && Can(s, DialFailed(i, mismatch))
    ensures Inv(OnDialFailed(s, i, mismatch))
  {
    hide TransportOk;
    IdentityKind(s, i);
    var t := OnDialFailed(s, i, mismatch);
    assert TaskOk(s, i);
    if !s.tasks[i].kind.Connecting? || !Current(s, i) || !s.shouldReconnect {
      EmptyHanded(s, i, Over);
    } else {
      EndedParts(s, i, mismatch);
      LoneEnds(s, t, i);
    }
  }

  lemma EndedParts(s: State, i: nat, mismatch: bool)
    requires FacadeOk(s) && TimersOk(s) && i < |s.tasks| && s.tasks[i].epoch == s.epoch && s.timerRef.None?
    ensures var t := OnDialFailed(s, i, mismatch); FacadeOk(t) && TimersOk(t)
  {
  }

  /** A transport comes to be, in the hands of its attempt or, after a failed write to
      the store, of nobody. */
  lemma NewTransportInv(s: State, t: State, i: nat)
    requires Inv(s) && OthersSame(s, t, i) && s.tasks[i].phase.AtDial?
    requires var n := |s.transports|;
             t.transports == s.transports + [Transport(s.tasks[i].epoch, Live, false, false)]
             && ((t.tasks[i].phase == Holding(n) && t.leaked == s.leaked)
                 || (t.tasks[i].phase.Over? && t.leaked == s.leaked + {n}))
    requires t == s.(tasks := t.tasks, transports := t.transports, leaked := t.leaked)
    requires !s.tasks[i].kind.Unpairing?
    ensures Inv(t)
  {
    hide TransportOk, HasIt, Held;
    var n := |s.transports|;
    FacadeAside(s, t);
    forall j | 0 <= j < |t.tasks|
      ensures TaskOk(t, j)
    {
      HeldGrows(s, t);
      if j != i {
        TaskStays(s, t, j);
      } else {
        HolderOk(s, t, i);
      }
    }
    forall k | 0 <= k < |t.transports|
      ensures TransportOk(t, k)
    {
      if k < n {
        NotInHand(s, i, k);
        HasItSame(s, t, i, k);
        TransportStays(s, t, k);
      } else {
        NewTransportOk(s, t, i);
      }
    }
  }

  lemma FacadeAside(s: State, t: State)
    requires FacadeOk(s) && TimersOk(s)
    requires t == s.(tasks := t.tasks, transports := t.transports, leaked := t.leaked)
    ensures FacadeOk(t) && TimersOk(t)
  {
  }

  lemma NotInHand(s: State, i: nat, k: nat)
    requires i < |s.tasks| && !s.tasks[i].phase.Holding? && !s.tasks[i].phase.Checking?
    ensures !HasIt(s, i, k)
  {
  }

  lemma HeldGrows(s: State, t: State)
    requires s.transports <= t.transports && t.transportRef == s.transportRef
    requires forall k :: k in t.leaked ==> k in s.leaked || k >= |s.transports|
    ensures forall k, epoch :: Held(s, k, epoch) ==> Held(t, k, epoch)
  {
  }

  lemma HolderOk(s: State, t: State, i: nat)
    requires Inv(s) && OthersSame(s, t, i) && s.tasks[i].phase.AtDial? && !s.tasks[i].kind.Unpairing?
    requires var n := |s.transports|;
             t.transports == s.transports + [Transport(s.tasks[i].epoch, Live, false, false)]
             && ((t.tasks[i].phase == Holding(n) && t.leaked == s.leaked) || t.tasks[i].phase.Over?)
    requires t == s.(tasks := t.tasks, transports := t.transports, leaked := t.leaked)
    ensures TaskOk(t, i)
  {
    assert TaskOk(s, i);
  }

  lemma NewTransportOk(s: State, t: State, i: nat)
    requires Inv(s) && OthersSame(s, t, i)
    requires var n := |s.transports|;
             t.transports == s.transports + [Transport(s.tasks[i].epoch, Live, false, false)]
             && (t.tasks[i].phase == Holding(n) || n in t.leaked)
    requires t == s.(tasks := t.tasks, transports := t.transports, leaked := t.leaked)
    ensures TransportOk(t, |s.transports|)
  {
    assert TaskOk(s, i);
    assert t.tasks[i].phase == Holding(|s.transports|) ==> HasIt(t, i, |s.transports|);
  }

  lemma DialedInv(s: State, i: nat)
    requires Inv(s) && Can(s, Dialed(i))
    ensures Inv(Step(s, Dialed(i)))
  {
    hide Inv;
    IdentityKind(s, i);
    NewTransportInv(s, Step(s, Dialed(i)), i);
  }

  lemma StoreFailedInv(s: State, i: nat)
    requires Inv(s) && Can(s, StoreFailed(i))
    ensures Inv(Step(s, StoreFailed(i)))
  {
    hide Inv;
    NewTransportInv(s, Step(s, StoreFailed(i)), i);
  }

  /** A superseded attempt closes what it got. */
  lemma ClosedInv(s: State, i: nat, k: nat)
    requires Inv(s) && HasIt(s, i, k)
    ensures Inv(SetPhase(Close(s, k), i, Over))
  {
    hide TransportOk;
    var t := SetPhase(Close(s, k), i, Over);
    assert TaskOk(s, i);
    FacadeAside(s, t);
    forall j | 0 <= j < |t.tasks|
      ensures TaskOk(t, j)
    {
      assert TaskOk(s, j);
      if j != i {
        HeldApart(s, t, i, j, k);
        TaskStays(s, t, j);
      }
    }
    forall d | 0 <= d < |t.transports|
      ensures TransportOk(t, d)
    {
      if d == k {
        ClosedIsOk(s, t, k);
      } else {
        HasItSame(s, t, i, d);
        TransportStays(s, t, d);
      }
    }
  }

  /** Two attempts do not have the same transport. */
  lemma HeldApart(s: State, t: State, i: nat, j: nat, k: nat)
    requires i < |s.tasks| && j < |s.tasks| && i != j && TaskOk(s, i) && TaskOk(s, j) && HasIt(s, i, k)
    requires |t.transports| == |s.transports|
    requires forall d :: 0 <= d < |s.transports| && d != k ==> t.transports[d] == s.transports[d]
    requires t.transportRef == s.transportRef || t.transportRef == Some(k)
    requires t.leaked <= s.leaked + {k}
    ensures forall d :: HasIt(s, j, d) && Held(s, d, s.tasks[j].epoch) ==> Held(t, d, s.tasks[j].epoch)
  {
  }

  lemma CheckingInv(s: State, i: nat, k: nat)
    requires Inv(s) && i < |s.tasks| && s.tasks[i].phase == Holding(k) && s.tasks[i].kind.Pairing?
    ensures Inv(SetPhase(s, i, Checking(k)))
  {
    hide TransportOk;
    var t := SetPhase(s, i, Checking(k));
    assert TaskOk(s, i);
    FacadeAside(s, t);
    assert forall d :: HasIt(s, i, d) ==> HasIt(t, i, d);
    AttemptInv(s, t, i);
  }

  lemma LeakInv(s: State, i: nat, k: nat)
    requires Inv(s) && HasIt(s, i, k)
    ensures Inv(SetPhase(s, i, Over).(leaked := s.leaked + {k}))
  {
    hide TransportOk;
    var t := SetPhase(s, i, Over).(leaked := s.leaked + {k});
    assert TaskOk(s, i);
    FacadeAside(s, t);
    forall j | 0 <= j < |t.tasks|
      ensures TaskOk(t, j)
    {
      assert TaskOk(s, j);
      if j != i {
        HeldApart(s, t, i, j, k);
        TaskStays(s, t, j);
      }
    }
    forall d | 0 <= d < |t.transports|
      ensures TransportOk(t, d)
    {
      LeakedHands(s, t, i, k, d);
      TransportStays(s, t, d);
    }
  }

  lemma LeakedHands(s: State, t: State, i: nat, k: nat, d: nat)
    requires OthersSame(s, t, i) && HasIt(s, i, k) && k in t.leaked
    ensures forall j :: HasIt(s, j, d) ==> HasIt(t, j, d) || d in t.leaked
  {
  }

  /** The current attempt puts its transport in place of the old one. */
  lemma AdoptInv(s: State, i: nat, k: nat)
    requires Inv(s) && Current(s, i) && HasIt(s, i, k)
    ensures Inv(Adopt(LetGo(SetPhase(s, i, Over)), k))
  {
    hide TransportOk, LetGo;
    var over := SetPhase(s, i, Over);
    ReadyNonempty(s, i);
    var t := Adopt(LetGo(over), k);
    assert TaskOk(s, i);
    LetGoIs(over);
    FacadeAside(s, over);
    AdoptParts(LetGo(over), k);
    AdoptedTasks(s, t, i, k);
    forall d | 0 <= d < |t.transports|
      ensures TransportOk(t, d)
    {
      AdoptedTransport(s, t, i, k, d);
    }
  }

  lemma AdoptParts(s: State, k: nat)
    requires FacadeOk(s) && TimersOk(s) && s.transportRef.None? && k < |s.transports|
    ensures var t := Adopt(s, k);
            && FacadeOk(t) && TimersOk(t) && t.transportRef == Some(k)
            && t.transports == s.transports[k := s.transports[k].(wired := true)]
            && t.tasks == s.tasks && t.epoch == s.epoch && t.leaked == s.leaked && t.shouldReconnect == s.shouldReconnect
            && t.timerRef == s.timerRef
  {
  }

  ghost predicate Adopted(s: State, t: State, i: nat, k: nat) {
    && Current(s, i) && HasIt(s, i, k) && OthersSame(s, t, i) && t.tasks[i].phase.Over?
    && t.transportRef == Some(k) && k < |s.transports| == |t.transports|
    && t.leaked == s.leaked && t.shouldReconnect == s.shouldReconnect && t.timerRef == s.timerRef
    && t.transports[k] == s.transports[k].(wired := true)
    && forall d :: 0 <= d < |s.transports| && d != k ==>
         t.transports[d] == if s.transportRef == Some(d) then s.transports[d].(life := Closed) else s.transports[d]
  }

  lemma AdoptedTasks(s: State, t: State, i: nat, k: nat)
    requires Inv(s) && Adopted(s, t, i, k)
    ensures forall j :: 0 <= j < |t.tasks| ==> TaskOk(t, j)
  {
    hide TransportOk;
    assert TaskOk(s, i);
    OverOk(s, t, i);
    forall j: nat, d | j < |s.tasks| && j != i && HasIt(s, j, d) && Held(s, d, s.tasks[j].epoch)
      ensures Held(t, d, s.tasks[j].epoch)
    {
      assert TaskOk(s, j);
    }
    OthersKeep(s, t, i);
  }

  lemma AdoptedTransport(s: State, t: State, i: nat, k: nat, d: nat)
    requires Inv(s) && Adopted(s, t, i, k) && d < |t.transports|
    ensures TransportOk(t, d)
  {
    assert TaskOk(s, i) && TransportOk(s, d);
    if d == k {
      forall j | 0 <= j < |t.tasks| && t.tasks[j].epoch == t.transports[k].epoch
        ensures t.tasks[j].phase.Over?
      {
        OneInFlight(s, i, j);
      }
    } else if s.transportRef == Some(d) {
      ClosedIsOk(s, t, d);
    } else {
      HasItElse(s, t, i, k, d);
      TransportStays(s, t, d);
    }
  }

  lemma HasItElse(s: State, t: State, i: nat, k: nat, d: nat)
    requires OthersSame(s, t, i) && HasIt(s, i, k) && d != k
    ensures forall j :: HasIt(s, j, d) ==> HasIt(t, j, d)
  {
  }

  lemma ResumeInv(s: State, i: nat)
    requires Inv(s) && Can(s, Resume(i))
    ensures Inv(OnTransport(s, i))
  {
    hide TransportOk, Adopt, Close;
    var k := s.tasks[i].phase.transport;
    assert HasIt(s, i, k) && TaskOk(s, i);
    if !Current(s, i) {
      ClosedInv(s, i, k);
    } else if s.tasks[i].kind.Pairing? {
      CheckingInv(s, i, k);
    } else {
      AdoptInv(s, i, k);
      assert LetGo(SetPhase(s, i, Over)) == SetPhase(s, i, Over);
    }
  }

  lemma CheckedInv(s: State, i: nat, load: Load)
    requires Inv(s) && Can(s, Checked(i, load))
    ensures Inv(OnChecked(s, i, load))
  {
    hide Inv, Adopt, LetGo;
    var k := s.tasks[i].phase.transport;
    assert HasIt(s, i, k);
    match load
    case Unreadable => LeakInv(s, i, k);
    case Missing =>
      ClosedInv(s, i, k);
      assert Close(SetPhase(s, i, Over), k) == SetPhase(Close(s, k), i, Over);
    case Record(record) =>
      if !Current(s, i) {
        ClosedInv(s, i, k);
        assert Close(SetPhase(s, i, Over), k) == SetPhase(Close(s, k), i, Over);
      } else {
        AdoptInv(s, i, k);
        ReadyNonempty(s, i);
        ShownOnly(Adopt(LetGo(SetPhase(s, i, Over)), k), OnChecked(s, i, load));
      }
  }

  lemma ReadyNonempty(s: State, i: nat)
    requires i < |s.tasks| && s.ready != []
    ensures LetGo(SetPhase(s, i, Over)).ready != []
  {
  }

  lemma DropParts(s: State, d: nat)
    requires FacadeOk(s) && TimersOk(s) && d < |s.transports|
    ensures var t, it := OnDrop(s, d), s.transports[d];
            && FacadeOk(t) && TimersOk(t)
            && t == s.(transports := t.transports, timerRef := t.timerRef, timers := t.timers, status := t.status)
            && t.transports == s.transports[d := Transport(it.epoch, Dropped, false, it.wired)]
            && (if it.wired && it.epoch == s.epoch && s.shouldReconnect then t.timerRef.Some? else t.timerRef == s.timerRef)
  {
  }

  lemma DropTask(s: State, t: State, d: nat, j: nat)
    requires Inv(s) && d < |s.transports| && s.transports[d].life.Live? && t == OnDrop(s, d) && j < |s.tasks|
    ensures TaskOk(t, j)
  {
    hide OnDrop;
    DropParts(s, d);
    assert TransportOk(s, d) && TaskOk(s, j);
    forall k: nat | HasIt(s, j, k) && Held(s, k, s.tasks[j].epoch)
      ensures Held(t, k, s.tasks[j].epoch)
    {
    }
    TaskStays(s, t, j);
  }

  lemma DroppedOk(s: State, t: State, d: nat)
    requires Inv(s) && d < |s.transports| && s.transports[d].life.Live? && t == OnDrop(s, d)
    ensures TransportOk(t, d)
  {
    hide OnDrop;
    DropParts(s, d);
    assert TransportOk(s, d);
    assert forall i :: HasIt(s, i, d) <==> HasIt(t, i, d);
  }

  lemma WiredInPlace(s: State, d: nat)
    requires d < |s.transports| && TransportOk(s, d) && s.transports[d].life.Live?
    ensures s.transports[d].wired ==> s.transportRef == Some(d)
  {
  }

  lemma DropInv(s: State, d: nat)
    requires Inv(s) && Can(s, Drop(d))
    ensures Inv(OnDrop(s, d))
  {
    hide OnDrop, TaskOk, TransportOk;
    var t := OnDrop(s, d);
    DropParts(s, d);
    forall j | 0 <= j < |t.tasks|
      ensures TaskOk(t, j)
    {
      DropTask(s, t, d, j);
    }
    forall k | 0 <= k < |t.transports|
      ensures TransportOk(t, k)
    {
      if k != d {
        WiredInPlace(s, d);
        TransportStays(s, t, k);
      } else {
        DroppedOk(s, t, d);
      }
    }
  }

  lemma StepInv(s: State, e: Event)
    requires Inv(s) && Can(s, e)
    ensures Inv(Step(s, e))
  {
    match e
    case Connect => ConnectInv(s, 0);
    case Pair => PairInv(s);
    case Unpair => UnpairInv(s);
    case Unmount => UnmountInv(s);
    case Fire(k) => FireInv(s, k);
    case Identity(i, ok) => IdentityInv(s, i, ok);
    case Loaded(i, load) => LoadedInv(s, i, load);
    case Dialed(i) => DialedInv(s, i);
    case DialFailed(i, mismatch) => DialFailedInv(s, i, mismatch);
    case StoreFailed(i) => StoreFailedInv(s, i);
    case Resume(i) => ResumeInv(s, i);
    case Checked(i, load) => CheckedInv(s, i, load);
    case Cleared(i, ok) => ClearedInv(s, i, ok);
    case Drop(t) => DropInv(s, t);
  }

  lemma {:induction false} RunInv(s: State, es: seq<Event>, s': State)
    requires Inv(s) && Run(s, es, s')
    ensures Inv(s')
    decreases |es|
  {
    hide Inv, Can, Step;
    if es != [] {
      StepInv(s, es[0]);
      RunInv(Step(s, es[0]), es[1..], s');
    }
  }

  lemma BootRun(es: seq<Event>, s: State)
    requires Run(Boot, es, s)
    ensures Inv(s)
  {
    RunInv(Boot, es, s);
  }

  // ---- Over any run ----

  /** Attach and detach on the facade strictly alternate, and what it holds is what the
      provider holds: at most one transport. */
  lemma FacadeAlternates(es: seq<Event>, s: State)
    requires Run(Boot, es, s)
    ensures s.attached == s.transportRef
    ensures forall k :: 0 <= k < |s.swaps| ==> (s.swaps[k].Attached? <==> k % 2 == 0)
    ensures if s.attached.Some? then s.swaps != [] && s.swaps[|s.swaps| - 1] == Attached(s.attached.value)
            else s.swaps == [] || s.swaps[|s.swaps| - 1].Detached?
  {
    BootRun(es, s);
  }

  /** No RPC that waits is orphaned by a re-arm: every promise but the last has been
      resolved, and the last is exactly while a transport is attached, with that one. */
  lemma NoWaiterOrphaned(es: seq<Event>, s: State, g: nat)
    requires Run(Boot, es, s) && g < |s.ready|
    ensures g < |s.ready| - 1 ==> s.ready[g].Some?
    ensures g == |s.ready| - 1 ==> s.ready[g] == s.attached
  {
    BootRun(es, s);
  }

  /** Promises are only added, and resolve once. */
  ghost predicate Kept(a: seq<Option<nat>>, b: seq<Option<nat>>) {
    |a| <= |b| && forall g :: 0 <= g < |a| && a[g].Some? ==> b[g] == a[g]
  }

  lemma StartKeeps(s: State, attempt: nat)
    ensures Kept(s.ready, Start(s, attempt).ready) && s.leaked == Start(s, attempt).leaked
  {
  }

  lemma TearDownKeeps(s: State)
    ensures Kept(s.ready, TearDown(s).ready) && s.leaked == TearDown(s).leaked
    ensures Kept(s.ready, StartPair(s).ready) && s.leaked == StartPair(s).leaked
  {
  }

  lemma OnTransportKeeps(s: State, i: nat)
    requires i < |s.tasks| && s.tasks[i].phase.Holding? && s.ready != []
    ensures Kept(s.ready, OnTransport(s, i).ready) && s.leaked == OnTransport(s, i).leaked
  {
  }

  lemma OnCheckedKeeps(s: State, i: nat, load: Load)
    requires i < |s.tasks| && s.tasks[i].phase.Checking? && s.ready != []
    ensures Kept(s.ready, OnChecked(s, i, load).ready)
    ensures OnChecked(s, i, load).leaked == s.leaked + if load.Unreadable? then {s.tasks[i].phase.transport} else {}
  {
    hide LetGo, Adopt;
    var over := SetPhase(s, i, Over);
    LetGoKeeps(over);
    ReadyNonempty(s, i);
    AdoptKeeps(LetGo(over), s.tasks[i].phase.transport);
  }

  lemma LetGoKeeps(s: State)
    ensures Kept(s.ready, LetGo(s).ready) && LetGo(s).leaked == s.leaked
  {
  }

  lemma AdoptKeeps(s: State, t: nat)
    requires s.ready != []
    ensures Kept(s.ready, Adopt(s, t).ready) && Adopt(s, t).leaked == s.leaked
  {
  }

  lemma OnDropKeeps(s: State, t: nat)
    requires t < |s.transports|
    ensures OnDrop(s, t).ready == s.ready && OnDrop(s, t).leaked == s.leaked
  {
  }

  lemma OnTimerKeeps(s: State, k: nat)
    requires k < |s.timers|
    ensures Kept(s.ready, OnTimer(s, k).ready) && OnTimer(s, k).leaked == s.leaked
  {
    hide Start;
    var fired := s.(timerRef := None, timers := s.timers[k := s.timers[k].(live := false)]);
    StartKeeps(fired, s.timers[k].attempt);
  }

  lemma StepKeeps(s: State, e: Event)
    requires Can(s, e)
    ensures Kept(s.ready, Step(s, e).ready) && s.leaked <= Step(s, e).leaked
    ensures Step(s, e).leaked == s.leaked + if StorageFails(e) then {InHand(s, e)} else {}
  {
    hide Start, StartPair, TearDown, OnTransport, OnChecked, OnDrop, OnTimer;
    match e
    case Connect => StartKeeps(s, 0);
    case Pair => TearDownKeeps(s);
    case Unpair => TearDownKeeps(s);
    case Unmount => TearDownKeeps(s);
    case Fire(k) => OnTimerKeeps(s, k);
    case Resume(i) => OnTransportKeeps(s, i);
    case Checked(i, load) => OnCheckedKeeps(s, i, load);
    case Drop(t) => OnDropKeeps(s, t);
    case _ =>
  }

  lemma {:induction false} PromisesResolveOnce(s: State, es: seq<Event>, s': State)
    requires Run(s, es, s')
    ensures Kept(s.ready, s'.ready)
    decreases |es|
  {
    hide Can, Step;
    if es != [] {
      StepKeeps(s, es[0]);
      PromisesResolveOnce(Step(s, es[0]), es[1..], s');
    }
  }

  /** A storage call failed. */
  predicate StorageFails(e: Event) { e.StoreFailed? || (e.Checked? && e.load.Unreadable?) }

  /** The transport in hand when it did. */
  function InHand(s: State, e: Event): nat
    requires Can(s, e) && StorageFails(e)
  {
    if e.StoreFailed? then |s.transports| else s.tasks[e.task].phase.transport
  }

  lemma {:induction false} RunLeaks(s: State, es: seq<Event>, s': State)
    requires Run(s, es, s')
    ensures s.leaked <= s'.leaked
    ensures (forall e :: e in es ==> !StorageFails(e)) ==> s'.leaked == s.leaked
    decreases |es|
  {
    hide Can, Step, StorageFails, Kept;
    if es != [] {
      StepKeeps(s, es[0]);
      RunLeaks(Step(s, es[0]), es[1..], s');
      assert es[0] in es;
    }
  }

  /** Once the attempt that obtained a transport is over, the transport is the one in
      place or closed: unless it was leaked, and then it is neither. */
  lemma InPlaceOrClosed(es: seq<Event>, s: State, t: nat)
    requires Run(Boot, es, s) && t < |s.transports|
    requires forall i :: 0 <= i < |s.tasks| && s.tasks[i].epoch == s.transports[t].epoch ==> s.tasks[i].phase.Over?
    ensures (s.transportRef == Some(t) || s.transports[t].life.Closed?) <==> t !in s.leaked
    ensures (forall e :: e in es ==> !StorageFails(e)) ==> t !in s.leaked
  {
    BootRun(es, s);
    RunLeaks(Boot, es, s);
    assert TransportOk(s, t);
    forall i: nat
      ensures !HasIt(s, i, t)
    {
      assert i < |s.tasks| ==> TaskOk(s, i);
    }
  }

  /** Every failed storage call with a transport in hand leaks it, for good. */
  lemma StorageFailureLeaks(before: seq<Event>, s: State, e: Event, after: seq<Event>, s': State)
    requires Run(Boot, before, s) && Can(s, e) && StorageFails(e) && Run(Step(s, e), after, s')
    ensures var t := InHand(s, e);
            && t < |s'.transports| && t in s'.leaked
            && !s'.transports[t].life.Closed? && s'.transportRef != Some(t)
  {
    hide Can, Step, InHand, StorageFails, Kept, TaskOk, Accounted, FacadeOk, TimersOk;
    BootRun(before, s);
    StepInv(s, e);
    StepKeeps(s, e);
    RunInv(Step(s, e), after, s');
    RunLeaks(Step(s, e), after, s');
    assert TransportOk(s', InHand(s, e));
  }

  // ---- Superseded attempts ----

  function AttemptOf(e: Event): Option<nat> {
    match e
    case Identity(i, _) => Some(i)
    case Loaded(i, _) => Some(i)
    case Dialed(i) => Some(i)
    case DialFailed(i, _) => Some(i)
    case StoreFailed(i) => Some(i)
    case Resume(i) => Some(i)
    case Checked(i, _) => Some(i)
    case Cleared(i, _) => Some(i)
    case _ => None
  }

  /** A superseded attempt never attaches, shows a status, arms a timer or touches
      another's transport; what it still does is publish the record it loaded. */
  lemma SupersededIsSilent(s: State, e: Event, i: nat)
    requires Can(s, e) && AttemptOf(e) == Some(i) && !Current(s, i) && !e.Cleared?
    ensures var t := Step(s, e);
            && t == s.(tasks := t.tasks, transports := t.transports, leaked := t.leaked, paired := t.paired)
            && t.paired == (if e.Loaded? && e.load.Record? then Some(e.load.record) else s.paired)
            && |s.transports| <= |t.transports|
            && forall k :: 0 <= k < |s.transports| && !HasIt(s, i, k) ==> t.transports[k] == s.transports[k]
  {
  }

  lemma {:induction false} Then(s: State, es: seq<Event>, mid: State, e: Event) returns (es': seq<Event>)
    requires Run(s, es, mid) && Can(mid, e)
    ensures Run(s, es', Step(mid, e)) && es' == es + [e]
    decreases |es|
  {
    hide Can, Step;
    if es == [] {
      es' := [e];
      assert es'[1..] == [];
    } else {
      var rest := Then(Step(s, es[0]), es[1..], mid, e);
      es' := [es[0]] + rest;
      assert es'[1..] == rest;
    }
  }

  // ---- Behind an unpair ----

  /** What the user starts anew. A retry cannot start anything once an unpair took the
      timer away. */
  predicate Renews(e: Event) { e.Connect? || e.Pair? }

  predicate Quiet(es: seq<Event>) { forall e :: e in es ==> !Renews(e) }

  /** A run behind the unpair called in `s`, with its store cleared, in which the user
      starts nothing anew. */
  ghost predicate Unpairs(s: State, es: seq<Event>, s': State) {
    Can(s, Unpair) && Run(Step(s, Unpair), es, s') && Quiet(es) && Cleared(|s.tasks|, true) in es
  }

  /** A connect that has yet to read the store. */
  predicate Unread(s: State, i: nat) {
    i < |s.tasks| && s.tasks[i].kind.Connecting? && (s.tasks[i].phase.AtIdentity? || s.tasks[i].phase.AtRecord?)
  }

  ghost predicate NoneUnread(s: State) { forall i: nat :: !Unread(s, i) }

  /** `t` is behind `u`, in which the connection was let go of: nothing is in place, set
      to retry, or able to become so. */
  ghost predicate Quieted(u: State, t: State) {
    && Inv(t)
    && !t.shouldReconnect && t.attached.None? && t.timerRef.None?
    && t.swaps == u.swaps && t.timers == u.timers
    && (t.status == u.status || t.status.Unpaired?)
    && forall i: nat :: Current(t, i) ==> t.tasks[i].kind.Unpairing? || t.tasks[i].phase.Over?
  }

  /** A new epoch supersedes every attempt. */
  lemma Superseded(s: State, t: State, i: nat)
    requires Inv(s) && t.epoch > s.epoch && s.tasks <= t.tasks && i < |s.tasks|
    ensures !Current(t, i)
  {
    assert TaskOk(s, i);
  }

  lemma TearDownIs(s: State)
    requires Inv(s)
    ensures var t := TearDown(s);
            && t == s.(epoch := s.epoch + 1, shouldReconnect := false, transportRef := None, timerRef := None,
                       attached := None, ready := t.ready, swaps := t.swaps, transports := t.transports, timers := t.timers)
            && (s.timerRef.None? ==> t.timers == s.timers)
            && (s.transportRef.None? ==> t.swaps == s.swaps)
  {
    hide TaskOk, TransportOk;
  }

  /** Every attempt still under way is superseded, and so silent. */
  lemma QuietAttempt(u: State, t: State, e: Event, i: nat)
    requires Quieted(u, t) && Can(t, e) && AttemptOf(e) == Some(i) && !e.Cleared?
    ensures Quieted(u, Step(t, e)) && Step(t, e).status == t.status
  {
    hide TransportOk, FacadeOk, TimersOk;
    StepInv(t, e);
    assert i < |t.tasks| && TaskOk(t, i);
    SupersededIsSilent(t, e, i);
    TasksStay(t, e, i);
  }

  lemma TasksStay(t: State, e: Event, i: nat)
    requires Can(t, e) && AttemptOf(e) == Some(i) && (!Current(t, i) || e.Cleared?)
    ensures OthersSame(t, Step(t, e), i)
  {
  }

  lemma UnmountQuiets(u: State, s: State)
    requires Inv(s) && TearDown(s).swaps == u.swaps && TearDown(s).timers == u.timers
    requires s.status == u.status || s.status.Unpaired?
    ensures Quieted(u, TearDown(s))
  {
    hide TaskOk, TransportOk, FacadeOk, TimersOk;
    UnmountInv(s);
    TearDownIs(s);
    forall i: nat
      ensures !Current(TearDown(s), i)
    {
      if i < |s.tasks| {
        Superseded(s, TearDown(s), i);
      }
    }
  }

  lemma UnpairQuiets(u: State, s: State)
    requires Inv(s) && Can(s, Unpair) && TearDown(s).swaps == u.swaps && TearDown(s).timers == u.timers
    requires s.status == u.status || s.status.Unpaired?
    ensures Quieted(u, Step(s, Unpair)) && Step(s, Unpair).status == s.status
  {
    hide TaskOk, TransportOk, FacadeOk, TimersOk;
    var t := Step(s, Unpair);
    UnpairInv(s);
    TearDownIs(s);
    forall i: nat | Current(t, i)
      ensures t.tasks[i].kind.Unpairing?
    {
      if i < |s.tasks| {
        Superseded(s, t, i);
      }
    }
  }

  lemma NothingFires(u: State, t: State, k: nat)
    requires Quieted(u, t)
    ensures !Can(t, Fire(k))
  {
    hide TaskOk, TransportOk;
  }

  lemma DropQuiets(u: State, t: State, d: nat)
    requires Quieted(u, t) && Can(t, Drop(d))
    ensures Quieted(u, Step(t, Drop(d))) && Step(t, Drop(d)).status == t.status
  {
    hide TaskOk, TransportOk, FacadeOk, TimersOk;
    StepInv(t, Drop(d));
  }

  lemma ClearedQuiets(u: State, t: State, i: nat, ok: bool)
    requires Quieted(u, t) && Can(t, Cleared(i, ok))
    ensures Quieted(u, Step(t, Cleared(i, ok))) && Step(t, Cleared(i, ok)).status == if ok then Unpaired else t.status
  {
    hide TaskOk, TransportOk, FacadeOk, TimersOk;
    StepInv(t, Cleared(i, ok));
    TasksStay(t, Cleared(i, ok), i);
  }

  lemma QuietStep(u: State, t: State, e: Event)
    requires Quieted(u, t) && Can(t, e) && !Renews(e)
    ensures Quieted(u, Step(t, e))
    ensures Step(t, e).status == if e.Cleared? && e.ok then Unpaired else t.status
  {
    if e.Cleared? {
      ClearedQuiets(u, t, e.task, e.ok);
    } else if AttemptOf(e).Some? {
      QuietAttempt(u, t, e, AttemptOf(e).value);
    } else {
      match e
      case Unpair =>
        TearDownIs(t);
        UnpairQuiets(u, t);
      case Unmount =>
        TearDownIs(t);
        UnmountQuiets(u, t);
      case Fire(k) => NothingFires(u, t, k);
      case Drop(d) => DropQuiets(u, t, d);
      case _ =>
    }
  }

  /** Only a connect that has yet to read the store can publish a record. */
  lemma NothingRead(u: State, t: State, e: Event)
    requires Quieted(u, t) && NoneUnread(t) && Can(t, e) && !Renews(e)
    ensures NoneUnread(Step(t, e))
    ensures Step(t, e).paired == t.paired || Step(t, e).paired.None?
    ensures e.Cleared? && e.ok ==> Step(t, e).paired.None?
  {
    hide TransportOk, FacadeOk, TimersOk;
    if AttemptOf(e).Some? {
      var i := AttemptOf(e).value;
      assert TaskOk(t, i) && !Unread(t, i);
      if !e.Cleared? {
        SupersededIsSilent(t, e, i);
      }
      TasksStay(t, e, i);
      assert forall j: nat :: Unread(Step(t, e), j) ==> j == i || Unread(t, j);
    } else {
      NothingUnread(u, t, e);
    }
  }

  lemma NothingUnread(u: State, t: State, e: Event)
    requires Quieted(u, t) && NoneUnread(t) && Can(t, e) && !Renews(e) && AttemptOf(e).None?
    ensures NoneUnread(Step(t, e)) && Step(t, e).paired == t.paired
  {
    hide TaskOk, TransportOk, FacadeOk;
    assert forall j: nat :: Unread(Step(t, e), j) ==> Unread(t, j);
  }

  /** Behind an unpair nothing attaches, no retry is set and no attempt that was under
      way shows a status, until the user starts anew. */
  lemma {:induction false} QuietRun(u: State, t: State, es: seq<Event>, s': State, i: nat)
    requires Quieted(u, t) && Run(t, es, s') && Quiet(es)
    ensures Quieted(u, s')
    ensures Cleared(i, true) in es || t.status.Unpaired? ==> s'.status.Unpaired?
    ensures NoneUnread(t) && (Cleared(i, true) in es || t.paired.None?) ==> s'.paired.None?
    decreases |es|
  {
    hide Can, Step, Quieted, NoneUnread;
    if es != [] {
      assert es[0] in es;
      QuietStep(u, t, es[0]);
      if NoneUnread(t) {
        NothingRead(u, t, es[0]);
      }
      QuietRun(u, Step(t, es[0]), es[1..], s', i);
    }
  }

  /** A connect that has yet to read the store when the user unpairs publishes the old
      record after all: paired, while the status says not. */
  lemma RecordAfterUnpair(s: State, i: nat, record: string) returns (es: seq<Event>, s': State)
    requires Inv(s) && Unread(s, i)
    ensures Unpairs(s, es, s') && s'.status.Unpaired? && s'.paired == Some(record)
  {
    hide Inv, TearDown;
    ReadyOk(s);
    var j, u := |s.tasks|, Step(s, Unpair);
    UnpairKeepsTasks(s);
    UnpairInv(s);
    ReadyOk(u);
    var at := u;
    es := [];
    if s.tasks[i].phase.AtIdentity? {
      es := Then(u, [], u, Identity(i, true));
      at := Step(u, Identity(i, true));
      StepInv(u, Identity(i, true));
    }
    ReadyOk(at);
    es := Then(u, es, at, Cleared(j, true));
    var cleared := Step(at, Cleared(j, true));
    es := Then(u, es, cleared, Loaded(i, Record(record)));
    s' := Step(cleared, Loaded(i, Record(record)));
    assert es[|es| - 2] == Cleared(j, true);
  }

  lemma ReadyOk(s: State)
    requires Inv(s)
    ensures s.ready != []
  {
  }

  lemma UnpairKeepsTasks(s: State)
    requires Can(s, Unpair)
    ensures Step(s, Unpair).tasks == s.tasks + [Task(Unpairing, s.epoch + 1, AtClear)]
  {
  }

  /** Whatever was under way: once the store is cleared the status stays "unpaired" until
      the user starts anew, with nothing attached and no retry set; and no record is
      shown beside it exactly when no connect had yet to read the store as `unpair`
      was called. */
  lemma NoRecordAfterUnpairIff(before: seq<Event>, s: State)
    requires Run(Boot, before, s)
    ensures forall es, s' :: Unpairs(s, es, s') ==> s'.status.Unpaired? && s'.attached.None? && s'.timerRef.None?
    ensures (forall es, s' :: Unpairs(s, es, s') ==> s'.paired.None?) <==> forall i: nat :: !Unread(s, i)
  {
    hide Inv, Unread, Step, Can;
    BootRun(before, s);
    forall es, s' | Unpairs(s, es, s')
      ensures s'.status.Unpaired? && s'.attached.None? && s'.timerRef.None?
      ensures NoneUnread(s) ==> s'.paired.None?
    {
      QuietBehind(s, es, s');
    }
    if i: nat :| Unread(s, i) {
      var es, s' := RecordAfterUnpair(s, i, "");
      assert Unpairs(s, es, s') && s'.paired.Some?;
    }
  }

  lemma QuietBehind(s: State, es: seq<Event>, s': State)
    requires Inv(s) && Unpairs(s, es, s')
    ensures s'.status.Unpaired? && s'.attached.None? && s'.timerRef.None?
    ensures NoneUnread(s) ==> s'.paired.None?
  {
    hide Inv, TearDown, Run;
    var u := Step(s, Unpair);
    UnpairKeepsTasks(s);
    UnpairQuietsIt(s);
    assert NoneUnread(s) ==> NoneUnread(u) by {
      assert forall i: nat :: Unread(u, i) ==> Unread(s, i);
    }
    QuietRun(u, u, es, s', |s.tasks|);
  }

  lemma UnpairQuietsIt(s: State)
    requires Inv(s) && Can(s, Unpair)
    ensures Quieted(Step(s, Unpair), Step(s, Unpair))
  {
    hide Inv, Quieted;
    TearDownKeepsStatus(s);
    UnpairQuiets(TearDown(s), s);
    SameQuiet(TearDown(s), Step(s, Unpair), Step(s, Unpair));
  }

  lemma TearDownKeepsStatus(s: State)
    ensures TearDown(s).status == s.status
  {
  }

  lemma SameQuiet(u: State, v: State, t: State)
    requires Quieted(u, t) && v.swaps == u.swaps && v.timers == u.timers && v.status == u.status
    ensures Quieted(v, t)
  {
  }

  // ---- An unpair that comes late ----

  /** The event puts a transport in place. */
  predicate Attaches(s: State, e: Event) {
    match e
    case Resume(i) => Current(s, i) && s.tasks[i].kind.Connecting?
    case Checked(i, load) => Current(s, i) && load.Record?
    case _ => false
  }

  /** The event takes away what is in place. */
  predicate LetsGo(e: Event) { e.Connect? || e.Fire? || e.Unpair? || e.Unmount? }

  /** Some event of the run attaches, and none behind it lets go. */
  ghost predicate StillAttached(s: State, es: seq<Event>)
    decreases |es|
  {
    && es != [] && Can(s, es[0])
    && (StillAttached(Step(s, es[0]), es[1..]) || (Attaches(s, es[0]) && NoneLetsGo(es[1..])))
  }

  predicate NoneLetsGo(es: seq<Event>) { forall e :: e in es ==> !LetsGo(e) }

  lemma LetGoEmpties(s: State)
    requires s.attached == s.transportRef
    ensures LetGo(s).attached.None?
  {
  }

  lemma StartEmpties(s: State, attempt: nat)
    requires s.attached == s.transportRef
    ensures Start(s, attempt).attached.None? && TearDown(s).attached.None?
  {
    hide LetGo;
    ClearTimerKeeps(s.(epoch := s.epoch + 1));
    LetGoEmpties(ClearTimer(s.(epoch := s.epoch + 1)));
    LetGoEmpties(ClearTimer(s.(epoch := s.epoch + 1, shouldReconnect := false)));
  }

  lemma AttemptAttaches(s: State, e: Event, i: nat)
    requires Inv(s) && Can(s, e) && AttemptOf(e) == Some(i)
    ensures Step(s, e).attached.Some? <==> Attaches(s, e) || s.attached.Some?
  {
    hide TransportOk, FacadeOk, TimersOk, LetGo;
    assert TaskOk(s, i);
  }

  lemma StepAttached(s: State, e: Event)
    requires Inv(s) && Can(s, e)
    ensures Step(s, e).attached.Some? <==> Attaches(s, e) || (s.attached.Some? && !LetsGo(e))
  {
    hide TransportOk, TaskOk, TimersOk, Start, TearDown;
    if AttemptOf(e).Some? {
      AttemptAttaches(s, e, AttemptOf(e).value);
    } else {
      match e
      case Connect => StartEmpties(s, 0);
      case Fire(k) =>
        TimerConnects(s, k);
        StartEmpties(s, s.timers[k].attempt);
      case Unpair => StartEmpties(s, 0);
      case Unmount => StartEmpties(s, 0);
      case _ =>
    }
  }

  lemma {:induction false} RunAttached(s: State, es: seq<Event>, s': State)
    requires Inv(s) && Run(s, es, s')
    ensures s'.attached.Some? <==> StillAttached(s, es) || (s.attached.Some? && NoneLetsGo(es))
    decreases |es|
  {
    hide Inv, Can, Step, Attaches, LetsGo;
    if es != [] {
      StepInv(s, es[0]);
      StepAttached(s, es[0]);
      RunAttached(Step(s, es[0]), es[1..], s');
      assert es[0] in es && forall e :: e in es <==> e == es[0] || e in es[1..];
    }
  }

  /** No transport and no attempt changes hands, and the epoch only grows. */
  ghost predicate Ages(s: State, t: State) {
    && s.epoch <= t.epoch
    && |s.tasks| <= |t.tasks|
    && (forall i :: 0 <= i < |s.tasks| ==> t.tasks[i].epoch == s.tasks[i].epoch && t.tasks[i].kind == s.tasks[i].kind)
    && |s.transports| <= |t.transports|
    && (forall k :: 0 <= k < |s.transports| ==> t.transports[k].epoch == s.transports[k].epoch)
  }

  lemma PartsAge(s: State)
    ensures Ages(s, LetGo(s)) && Ages(s, ClearTimer(s))
  {
  }

  lemma AgesChain(s: State, t: State, u: State)
    requires Ages(s, t) && Ages(t, u)
    ensures Ages(s, u)
  {
  }

  lemma StartAges(s: State, attempt: nat)
    ensures Ages(s, Start(s, attempt)) && Ages(s, TearDown(s)) && Ages(s, StartPair(s))
  {
    hide LetGo, ClearTimer;
    var bumped := s.(epoch := s.epoch + 1);
    ClearTimerKeeps(bumped);
    PartsAge(bumped);
    PartsAge(ClearTimer(bumped));
    AgesChain(bumped, ClearTimer(bumped), LetGo(ClearTimer(bumped)));
  }

  lemma AdoptAges(s: State, k: nat)
    requires s.ready != []
    ensures Ages(s, Adopt(s, k)) && Ages(s, Close(s, k))
  {
  }

  lemma CheckedAges(s: State, i: nat, load: Load)
    requires Can(s, Checked(i, load))
    ensures Ages(s, OnChecked(s, i, load))
  {
    hide LetGo, Adopt, Close;
    var over, k := SetPhase(s, i, Over), s.tasks[i].phase.transport;
    ReadyNonempty(s, i);
    PartsAge(over);
    AdoptAges(over, k);
    AdoptAges(LetGo(over), k);
    AgesChain(over, LetGo(over), Adopt(LetGo(over), k));
  }

  lemma ResumeAges(s: State, i: nat)
    requires Can(s, Resume(i))
    ensures Ages(s, OnTransport(s, i))
  {
    hide Adopt, Close;
    AdoptAges(s, s.tasks[i].phase.transport);
    AdoptAges(SetPhase(s, i, Over), s.tasks[i].phase.transport);
  }

  lemma AttemptAges(s: State, e: Event)
    requires Can(s, e) && AttemptOf(e).Some?
    ensures Ages(s, Step(s, e))
  {
    hide OnChecked, OnTransport;
    if e.Checked? {
      CheckedAges(s, e.task, e.load);
    } else if e.Resume? {
      ResumeAges(s, e.task);
    }
  }

  lemma StepAges(s: State, e: Event)
    requires Inv(s) && Can(s, e)
    ensures Ages(s, Step(s, e))
  {
    hide FacadeOk, TaskOk, TransportOk, Start, StartPair, TearDown;
    if AttemptOf(e).Some? {
      AttemptAges(s, e);
    } else {
      match e
      case Connect => StartAges(s, 0);
      case Pair => StartAges(s, 0);
      case Fire(k) =>
        TimerConnects(s, k);
        StartAges(s, s.timers[k].attempt);
      case Unpair => StartAges(s, 0);
      case Unmount => StartAges(s, 0);
      case _ =>
    }
  }

  /** What is attached was obtained by an attempt begun after the unpair of task `j`. */
  ghost predicate Later(s: State, j: nat, epoch: nat) {
    && Inv(s)
    && epoch <= s.epoch && j < |s.tasks| && s.tasks[j].kind.Unpairing? && s.tasks[j].epoch == epoch
    && (s.attached.Some? ==> s.attached.value < |s.transports| && s.transports[s.attached.value].epoch > epoch)
  }

  lemma AttachedHere(s: State, e: Event)
    requires Inv(s) && Can(s, e) && Attaches(s, e)
    ensures Step(s, e).attached == Some(s.tasks[e.task].phase.transport)
    ensures s.tasks[e.task].phase.transport < |s.transports|
    ensures s.transports[s.tasks[e.task].phase.transport].epoch == s.epoch
    ensures !s.tasks[e.task].kind.Unpairing?
  {
    hide TransportOk, FacadeOk, TimersOk, LetGo;
    assert TaskOk(s, e.task);
  }

  lemma AttachedBefore(s: State, e: Event)
    requires Inv(s) && Can(s, e) && !Attaches(s, e) && Step(s, e).attached.Some?
    ensures Step(s, e).attached == s.attached
  {
    hide TransportOk, TaskOk, TimersOk, Start, TearDown;
    StepAttached(s, e);
    assert AttemptOf(e).Some? ==> TaskOk(s, AttemptOf(e).value);
    if e.Resume? {
      ResumesOnly(s, e.task);
    }
  }

  lemma ResumesOnly(s: State, i: nat)
    requires Inv(s) && Can(s, Resume(i))
    ensures !s.tasks[i].kind.Unpairing?
  {
    assert TaskOk(s, i);
  }

  lemma LaterStep(s: State, e: Event, j: nat, epoch: nat)
    requires Later(s, j, epoch) && Can(s, e)
    ensures Later(Step(s, e), j, epoch)
  {
    hide Inv, Step;
    var t := Step(s, e);
    StepInv(s, e);
    StepAges(s, e);
    if Attaches(s, e) {
      AttachedHere(s, e);
      AttemptOfAttach(s, e);
      if s.epoch == epoch {
        OneInFlight(s, e.task, j);
      }
    } else if t.attached.Some? {
      AttachedBefore(s, e);
    }
  }

  lemma AttemptOfAttach(s: State, e: Event)
    requires Can(s, e) && Attaches(s, e)
    ensures Current(s, e.task)
  {
  }

  lemma {:induction false} LaterRun(s: State, es: seq<Event>, s': State, j: nat, epoch: nat)
    requires Later(s, j, epoch) && Run(s, es, s')
    ensures Later(s', j, epoch)
    decreases |es|
  {
    hide Later, Can, Step;
    if es != [] {
      LaterStep(s, es[0], j, epoch);
      LaterRun(Step(s, es[0]), es[1..], s', j, epoch);
    }
  }

  /** An unpair whose store answers late shows "unpaired", superseded or not. It shows
      it over a transport exactly when one was attached since it was called, of a later
      pair or connect, and not let go of again. */
  lemma UnpairedOverPairIff(before: seq<Event>, s: State, es: seq<Event>, v: State)
    requires Run(Boot, before, s) && Can(s, Unpair) && Run(Step(s, Unpair), es, v)
    requires Can(v, Cleared(|s.tasks|, true))
    ensures var t := Step(v, Cleared(|s.tasks|, true));
            && t.status.Unpaired? && t.paired.None?
            && (t.attached.Some? <==> StillAttached(Step(s, Unpair), es))
            && (t.attached.Some? ==>
                  !Current(v, |s.tasks|) && t.attached.value < |t.transports|
                  && t.transports[t.attached.value].epoch > Step(s, Unpair).epoch)
  {
    hide Inv, TearDown, Run, StillAttached;
    BootRun(before, s);
    UnpairInv(s);
    UnpairKeepsTasks(s);
    UnpairQuietsIt(s);
    var u := Step(s, Unpair);
    RunAttached(u, es, v);
    EpochOfUnpair(s);
    LaterRun(u, es, v, |s.tasks|, u.epoch);
    if v.attached.Some? {
      InPlaceEpoch(v, v.attached.value);
    }
  }

  lemma EpochOfUnpair(s: State)
    requires Can(s, Unpair)
    ensures Step(s, Unpair).epoch == s.epoch + 1
  {
  }

  lemma InPlaceEpoch(s: State, k: nat)
    requires Inv(s) && s.attached == Some(k)
    ensures k < |s.transports| && s.transports[k].epoch <= s.epoch
  {
    assert k < |s.transports| && TransportOk(s, k);
  }

  /** The first steps of a pair begun beside other attempts, up to its second look at
      the store. */
  lemma PairsUp(s: State) returns (es: seq<Event>, v: State)
    requires Inv(s)
    ensures Run(s, es, v) && Pair in es
    ensures v.epoch == s.epoch + 1
    ensures v.tasks == s.tasks + [Task(Pairing, s.epoch + 1, Checking(|s.transports|))]
    ensures v.transports == s.transports + [Transport(s.epoch + 1, Live, false, false)]
  {
    hide Inv, ClearTimer;
    ReadyOk(s);
    var n := |s.tasks|;
    ClearTimerKeeps(s.(epoch := s.epoch + 1));
    es := Then(s, [], s, Pair);
    var a := Step(s, Pair);
    PairInv(s);
    ReadyOk(a);
    es := Then(s, es, a, Identity(n, true));
    var b := Step(a, Identity(n, true));
    es := Then(s, es, b, Dialed(n));
    var c := Step(b, Dialed(n));
    es := Then(s, es, c, Resume(n));
    v := Step(c, Resume(n));
    assert es[0] == Pair;
  }

  lemma PairEnds(v: State, i: nat, k: nat, record: string) returns (ready: State)
    requires Inv(v) && Current(v, i) && v.tasks[i].phase == Checking(k)
    ensures v.ready != [] && ready == OnChecked(v, i, Record(record))
    ensures ready.attached == Some(k) && ready.tasks == v.tasks[i := v.tasks[i].(phase := Over)]
    ensures k < |v.transports| == |ready.transports| && ready.transports[k] == v.transports[k].(wired := true)
  {
    hide Inv, LetGo;
    ReadyOk(v);
    InPlaceRange(v);
    ReadyNonempty(v, i);
    LetGoIs(SetPhase(v, i, Over));
    NotInPlace(v, i, k);
    HeldInRange(v, i);
    ready := OnChecked(v, i, Record(record));
  }

  /** From every state with a store to be cleared, superseded or not: the user pairs
      anew, and "unpaired" is shown over that connection. */
  lemma UnpairedOverPair(s: State, i: nat, record: string) returns (es: seq<Event>, s': State)
    requires Inv(s) && At(s, i, AtClear)
    ensures Run(s, es + [Cleared(i, true)], s') && Pair in es
    ensures s'.status.Unpaired? && s'.paired.None? && s'.attached == Some(|s.transports|)
    ensures |s'.transports| > |s.transports| && s'.transports[|s.transports|] == Transport(s.epoch + 1, Live, true, false)
  {
    hide Inv, LetGo, OnChecked;
    var n, k := |s.tasks|, |s.transports|;
    var pairs, v := PairsUp(s);
    RunInv(s, pairs, v);
    ReadyOk(v);
    es := Then(s, pairs, v, Checked(n, Record(record)));
    var ready := PairEnds(v, n, k, record);
    StepInv(v, Checked(n, Record(record)));
    ReadyOk(ready);
    var last := Then(s, es, ready, Cleared(i, true));
    s' := Step(ready, Cleared(i, true));
  }

  lemma InPlaceRange(s: State)
    requires Inv(s)
    ensures s.transportRef.Some? ==> s.transportRef.value < |s.transports|
  {
  }

  lemma NotInPlace(s: State, i: nat, k: nat)
    requires Inv(s) && HasIt(s, i, k)
    ensures s.transportRef != Some(k)
  {
    assert TaskOk(s, i);
  }

  // ---- Timers and retries ----

  /** At most one timer is set, of the current epoch, never beside an attempt of that
      epoch; so one that goes off connects. */
  lemma OneTimer(es: seq<Event>, s: State, k: nat)
    requires Run(Boot, es, s) && k < |s.timers| && s.timers[k].live
    ensures s.timerRef == Some(k) && s.timers[k].epoch == s.epoch
    ensures forall j :: 0 <= j < |s.timers| && s.timers[j].live ==> j == k
    ensures forall i :: 0 <= i < |s.tasks| && InFlight(s.tasks[i]) ==> s.tasks[i].epoch != s.epoch
    ensures OnTimer(s, k) == Start(s, s.timers[k].attempt)
  {
    hide LetGo, Start, OnTimer;
    BootRun(es, s);
    TimerConnects(s, k);
    forall i | 0 <= i < |s.tasks| && InFlight(s.tasks[i])
      ensures s.tasks[i].epoch != s.epoch
    {
      assert TaskOk(s, i);
    }
  }

  /** While a transport is in place, a retry is set exactly when its drop was heard and
      nothing has been attempted since. A drop before the handler is set is not heard,
      and a pair that fails takes the retry away. */
  lemma RetryIsSet(es: seq<Event>, s: State, t: nat)
    requires Run(Boot, es, s) && s.transportRef == Some(t)
    ensures t < |s.transports| && !s.transports[t].life.Closed?
    ensures s.timerRef.Some? <==> s.transports[t].heard && s.transports[t].epoch == s.epoch
  {
    BootRun(es, s);
    assert TransportOk(s, t);
  }

  /** What a failed dial of the current connect leads to. A daemon that cannot be reached
      is shown offline, with one retry set, of the next attempt; one of another version
      is shown as an error, with none. */
  lemma DialFailedTells(s: State, i: nat, mismatch: bool)
    requires Inv(s) && Can(s, DialFailed(i, mismatch)) && Current(s, i) && s.tasks[i].kind.Connecting?
    ensures var t, attempt := Step(s, DialFailed(i, mismatch)), s.tasks[i].kind.attempt;
            && t.tasks == s.tasks[i := Task(Connecting(attempt), s.epoch, Over)]
            && t.attached.None? && t.epoch == s.epoch && t.paired == s.paired && t.transports == s.transports
            && (mismatch ==> t.status.Error? && t.protocolError && !t.shouldReconnect && NoneLive(t))
            && (!mismatch ==>
                  && t.status == Offline(attempt) && t.protocolError == s.protocolError && t.shouldReconnect
                  && exists k: nat :: OnlyLive(t, k) && t.timers[k].epoch == t.epoch && t.timers[k].attempt == attempt + 1)
  {
    hide TransportOk;
    assert TaskOk(s, i);
    var t := Step(s, DialFailed(i, mismatch));
    if !mismatch {
      assert OnlyLive(t, |s.timers|);
    }
  }

  ghost predicate NoneLive(s: State) { forall k :: 0 <= k < |s.timers| ==> !s.timers[k].live }

  ghost predicate OnlyLive(s: State, k: nat) {
    k < |s.timers| && forall j :: 0 <= j < |s.timers| ==> (s.timers[j].live <==> j == k)
  }

  /** A daemon of another version is not dialed again by itself: until the user starts
      anew nothing attaches, no timer is set, and the status is the error, or "unpaired"
      once an unpair has cleared the store. */
  lemma MismatchIsFinal(before: seq<Event>, s: State, i: nat, es: seq<Event>, s': State)
    requires Run(Boot, before, s) && Can(s, DialFailed(i, true)) && Current(s, i) && s.tasks[i].kind.Connecting?
    requires Run(Step(s, DialFailed(i, true)), es, s') && Quiet(es)
    ensures s'.attached.None? && NoneLive(s') && (s'.status.Error? || s'.status.Unpaired?)
  {
    hide Inv, Run, Current, Can;
    BootRun(before, s);
    var t := Step(s, DialFailed(i, true));
    StepInv(s, DialFailed(i, true));
    DialFailedTells(s, i, true);
    MismatchQuiets(s, i);
    QuietRun(t, t, es, s', i);
    NoTimerLives(s');
  }

  lemma MismatchQuiets(s: State, i: nat)
    requires Inv(s) && Can(s, DialFailed(i, true)) && Current(s, i) && s.tasks[i].kind.Connecting?
    ensures var t := Step(s, DialFailed(i, true)); Quieted(t, t)
  {
    hide TransportOk, FacadeOk, TimersOk;
    var t := Step(s, DialFailed(i, true));
    assert TaskOk(s, i);
    StepInv(s, DialFailed(i, true));
    DialFailedTells(s, i, true);
    forall j: nat | Current(t, j)
      ensures t.tasks[j].kind.Unpairing? || t.tasks[j].phase.Over?
    {
      OneInFlight(s, i, j);
    }
  }

  lemma NoTimerLives(s: State)
    requires Inv(s) && s.timerRef.None?
    ensures NoneLive(s)
  {
  }

  /** A daemon that stays out of reach is tried again and again: behind every retry that
      goes off there is a run to the next one, its attempt counted on. */
  lemma RetriesGoOn(s: State, k: nat, record: string) returns (es: seq<Event>, s': State, next: nat)
    requires Inv(s) && Can(s, Fire(k))
    ensures Run(s, es, s') && Inv(s') && OnlyLive(s', next)
    ensures s'.status == Offline(s.timers[k].attempt) && s'.timers[next].attempt == s.timers[k].attempt + 1
  {
    hide Inv, LetGo, ClearTimer, OnDialFailed, TearDown, OnTransport, OnChecked, OnDrop;
    var i, attempt := |s.tasks|, s.timers[k].attempt;
    TimerConnects(s, k);
    ClearTimerKeeps(s.(epoch := s.epoch + 1));
    FireInv(s, k);
    es := Then(s, [], s, Fire(k));
    var a := Step(s, Fire(k));
    ReadyOk(a);
    es := Then(s, es, a, Identity(i, true));
    var b := Step(a, Identity(i, true));
    StepInv(a, Identity(i, true));
    es := Then(s, es, b, Loaded(i, Record(record)));
    var c := Step(b, Loaded(i, Record(record)));
    StepInv(b, Loaded(i, Record(record)));
    es := Then(s, es, c, DialFailed(i, false));
    s' := Step(c, DialFailed(i, false));
    StepInv(c, DialFailed(i, false));
    DialFailedTells(c, i, false);
    next :| OnlyLive(s', next) && s'.timers[next].epoch == s'.epoch && s'.timers[next].attempt == attempt + 1;
  }

  // ---- What each segment leads to ----

  /** The transport in place, if any, was let go of: detached and closed. */
  ghost predicate LetGoOf(s: State, t: State) {
    && t.attached.None? && t.transportRef.None? && |t.transports| == |s.transports|
    && forall k :: 0 <= k < |s.transports| ==>
         t.transports[k] == if s.attached == Some(k) then s.transports[k].(life := Closed) else s.transports[k]
  }

  /** A new attempt takes the timer away; a connect, an unpair and an unmount also let go
      of the transport, while a pair keeps it for as long as it takes. */
  lemma BeginningsTell(s: State, e: Event)
    requires Inv(s) && Can(s, e)
    ensures e.Connect? || e.Fire? ==>
              var t, attempt := Step(s, e), if e.Fire? then s.timers[e.timer].attempt else 0;
              && LetGoOf(s, t) && NoneLive(t) && t.epoch == s.epoch + 1 && t.shouldReconnect
              && t.status == IsConnecting(attempt) && t.paired == s.paired && t.protocolError == s.protocolError
              && t.tasks == s.tasks + [Task(Connecting(attempt), s.epoch + 1, AtIdentity)]
    ensures e.Pair? ==>
              var t := Step(s, e);
              && t.transports == s.transports && t.attached == s.attached && NoneLive(t) && t.epoch == s.epoch + 1
              && t.shouldReconnect && t.status == s.status && t.paired == s.paired && t.protocolError == s.protocolError
              && t.tasks == s.tasks + [Task(Pairing, s.epoch + 1, AtIdentity)]
    ensures e.Unpair? || e.Unmount? ==>
              var t := Step(s, e);
              && LetGoOf(s, t) && NoneLive(t) && t.epoch == s.epoch + 1 && !t.shouldReconnect
              && t.status == s.status && t.paired == s.paired && t.protocolError == s.protocolError
              && t.tasks == s.tasks + if e.Unpair? then [Task(Unpairing, s.epoch + 1, AtClear)] else []
  {
    hide TaskOk, TransportOk, LetGo, ClearTimer, Start, TearDown;
    match e
    case Connect => StartTells(s, 0);
    case Fire(k) =>
      TimerConnects(s, k);
      StartTells(s, s.timers[k].attempt);
    case Pair => ClearTimerTells(s.(epoch := s.epoch + 1));
    case Unpair => TearDownTells(s);
    case Unmount =>
      TearDownTells(s);
      assert s.tasks + [] == s.tasks;
    case _ =>
  }

  lemma ClearTimerTells(s: State)
    requires forall k :: 0 <= k < |s.timers| ==> (s.timers[k].live <==> s.timerRef == Some(k))
    ensures ClearTimer(s) == s.(timerRef := None, timers := ClearTimer(s).timers) && NoneLive(ClearTimer(s))
  {
    ClearTimerIs(s);
  }

  lemma LetGoTells(s: State)
    requires s.attached == s.transportRef && (s.transportRef.Some? ==> s.transportRef.value < |s.transports|)
    ensures LetGoOf(s, LetGo(s))
    ensures LetGo(s) == s.(transportRef := None, attached := None, ready := LetGo(s).ready, swaps := LetGo(s).swaps,
                           transports := LetGo(s).transports)
  {
  }

  lemma StartTells(s: State, attempt: nat)
    requires Inv(s)
    ensures var t := Start(s, attempt);
            && LetGoOf(s, t) && NoneLive(t) && t.epoch == s.epoch + 1 && t.shouldReconnect
            && t.status == IsConnecting(attempt) && t.paired == s.paired && t.protocolError == s.protocolError
            && t.tasks == s.tasks + [Task(Connecting(attempt), s.epoch + 1, AtIdentity)]
  {
    hide TaskOk, TransportOk, LetGo, ClearTimer;
    var bumped := s.(epoch := s.epoch + 1);
    ClearTimerTells(bumped);
    LetGoTells(ClearTimer(bumped));
  }

  lemma TearDownTells(s: State)
    requires Inv(s)
    ensures var t := TearDown(s);
            && LetGoOf(s, t) && NoneLive(t) && t.epoch == s.epoch + 1 && !t.shouldReconnect
            && t.status == s.status && t.paired == s.paired && t.protocolError == s.protocolError && t.tasks == s.tasks
  {
    hide TaskOk, TransportOk, LetGo, ClearTimer;
    var bumped := s.(epoch := s.epoch + 1, shouldReconnect := false);
    ClearTimerTells(bumped);
    LetGoTells(ClearTimer(bumped));
  }

  /** The attempt is at this await now, and the others where they were. */
  ghost predicate NowAt(s: State, t: State, i: nat, phase: Phase) {
    i < |s.tasks| && t.tasks == s.tasks[i := Task(s.tasks[i].kind, s.tasks[i].epoch, phase)]
  }

  /** Behind the identity, and in a connect behind the store: a record is shown and dialed,
      none shows "unpaired", and what fails shows the error; the last two only for the
      attempt that is current. */
  lemma StoreTells(s: State, i: nat, load: Load)
    requires Inv(s)
    ensures Can(s, Identity(i, true)) ==>
              var t := Step(s, Identity(i, true));
              t == s.(tasks := t.tasks) && NowAt(s, t, i, if s.tasks[i].kind.Pairing? then AtDial else AtRecord)
    ensures Can(s, Identity(i, false)) ==>
              var t := Step(s, Identity(i, false));
              && t == s.(tasks := t.tasks, status := t.status) && NowAt(s, t, i, Over)
              && t.status == if Current(s, i) && s.tasks[i].kind.Connecting? then Error else s.status
    ensures Can(s, Loaded(i, load)) ==>
              var t := Step(s, Loaded(i, load));
              && t == s.(tasks := t.tasks, status := t.status, paired := t.paired)
              && NowAt(s, t, i, if load.Record? then AtDial else Over)
              && match load
                 case Record(record) => t.paired == Some(record) && t.status == s.status
                 case Missing =>
                   if Current(s, i) then t.paired.None? && t.status.Unpaired? else t.paired == s.paired && t.status == s.status
                 case Unreadable => t.paired == s.paired && t.status == if Current(s, i) then Error else s.status
  {
    hide TransportOk, FacadeOk, TimersOk;
    assert i < |s.tasks| ==> TaskOk(s, i);
  }

  /** The transport in hand is in place: attached, its handler set. */
  ghost predicate InPlace(t: State, k: nat) {
    && t.attached == Some(k) && t.transportRef == Some(k) && k < |t.transports|
    && t.transports[k].wired && t.status.Ready? && !t.protocolError
  }

  /** A transport that was dialed is in the attempt's hands; a connect that is still
      current puts it in place, a pair looks at the store again, and a superseded attempt
      closes it. */
  lemma TransportTells(s: State, i: nat)
    requires Inv(s)
    ensures Can(s, Dialed(i)) ==>
              var t := Step(s, Dialed(i));
              && t == s.(tasks := t.tasks, transports := t.transports) && NowAt(s, t, i, Holding(|s.transports|))
              && t.transports == s.transports + [Transport(s.tasks[i].epoch, Live, false, false)]
    ensures Can(s, Resume(i)) ==>
              var t, k := Step(s, Resume(i)), s.tasks[i].phase.transport;
              && k < |s.transports| == |t.transports| && t.paired == s.paired
              && (!Current(s, i) ==>
                    && t == s.(tasks := t.tasks, transports := s.transports[k := s.transports[k].(life := Closed)])
                    && NowAt(s, t, i, Over))
              && (Current(s, i) && s.tasks[i].kind.Pairing? ==> t == s.(tasks := t.tasks) && NowAt(s, t, i, Checking(k)))
              && (Current(s, i) && !s.tasks[i].kind.Pairing? ==>
                    InPlace(t, k) && NowAt(s, t, i, Over) && t.transports == s.transports[k := s.transports[k].(wired := true)])
  {
    hide TransportOk, TimersOk;
    assert i < |s.tasks| ==> TaskOk(s, i);
  }

  /** A pair behind its second look at the store: it takes over when the record is there
      and it is still current, the transport before let go of; else it closes what it
      has, unless the look failed. */
  lemma PairTells(s: State, i: nat, load: Load)
    requires Inv(s) && Can(s, Checked(i, load))
    ensures var t, k := Step(s, Checked(i, load)), s.tasks[i].phase.transport;
            && k < |s.transports| == |t.transports| && NowAt(s, t, i, Over)
            && (load.Unreadable? ==> t == s.(tasks := t.tasks, leaked := s.leaked + {k}))
            && (load.Missing? || (load.Record? && !Current(s, i)) ==>
                  t == s.(tasks := t.tasks, transports := s.transports[k := s.transports[k].(life := Closed)]))
            && (load.Record? && Current(s, i) ==>
                  && InPlace(t, k) && t.paired == Some(load.record)
                  && forall d :: 0 <= d < |s.transports| && d != k ==>
                       t.transports[d] == if s.attached == Some(d) then s.transports[d].(life := Closed) else s.transports[d])
  {
    hide TransportOk, TimersOk, LetGo;
    assert TaskOk(s, i);
    var k, over := s.tasks[i].phase.transport, SetPhase(s, i, Over);
    ReadyNonempty(s, i);
    LetGoTells(over);
    assert s.tasks[i].kind.Pairing?;
  }

  /** A drop that is heard, of the transport of the current attempt, is shown and sets the
      first retry; one that is not, or of an attempt since superseded, sets none. */
  lemma DropTells(s: State, k: nat)
    requires Inv(s) && Can(s, Drop(k))
    ensures var t, it := Step(s, Drop(k)), s.transports[k];
            && t.transports == s.transports[k := Transport(it.epoch, Dropped, false, it.wired)]
            && t.attached == s.attached && t.tasks == s.tasks && t.paired == s.paired
            && (it.wired && it.epoch == s.epoch && s.shouldReconnect ==>
                  && t.status == Offline(0)
                  && exists n: nat :: OnlyLive(t, n) && t.timers[n].epoch == s.epoch && t.timers[n].attempt == 1)
            && (!(it.wired && it.epoch == s.epoch && s.shouldReconnect) ==> t.status == s.status && t.timers == s.timers)
  {
    hide TaskOk, TransportOk, ClearTimer;
    var it := s.transports[k];
    var dropped := s.(transports := s.transports[k := Transport(it.epoch, Dropped, false, it.wired)]);
    ClearTimerTells(dropped);
    if it.wired && it.epoch == s.epoch && s.shouldReconnect {
      assert OnlyLive(Step(s, Drop(k)), |ClearTimer(dropped).timers|);
    }
  }

  /** A cleared store shows "unpaired"; one that could not be cleared shows nothing new. */
  lemma ClearedTells(s: State, i: nat, ok: bool)
    requires Can(s, Cleared(i, ok))
    ensures var t := Step(s, Cleared(i, ok));
            && NowAt(s, t, i, Over)
            && t == s.(tasks := t.tasks, status := if ok then Unpaired else s.status,
                       paired := if ok then None else s.paired, protocolError := !ok && s.protocolError)
  {
  }

  // ---- The code ----

  /** The facade: its transport, and the promises it has made, the last of them its
      `readyPromise`. */
  class DaemonClient {
    var transport: Option<nat>
    var promises: seq<Option<nat>>
    var swaps: seq<Swap>

    constructor ()
      ensures transport == None && promises == [None] && swaps == []
    {
      transport, promises, swaps := None, [None], [];
    }

    method AttachTransport(t: nat)
      requires promises != []
      modifies this
      ensures transport == Some(t) && swaps == old(swaps) + [Attached(t)] && |promises| == |old(promises)|
      ensures promises[|promises| - 1] == if old(promises)[|promises| - 1].None? then Some(t) else old(promises)[|promises| - 1]
      ensures promises[..|promises| - 1] == old(promises)[..|promises| - 1]
    {
      transport := Some(t);
      swaps := swaps + [Attached(t)];
      if promises[|promises| - 1].None? {
        promises := promises[|promises| - 1 := Some(t)];
      }
    }

    method DetachTransport()
      modifies this
      ensures transport == None && promises == old(promises) + [None] && swaps == old(swaps) + [Detached]
    {
      transport := None;
      promises := promises + [None];
      swaps := swaps + [Detached];
    }
  }

  class DaemonClientProvider {
    const facade: DaemonClient
    var epoch: nat
    var transportRef: Option<nat>
    var timerRef: Option<nat>
    var shouldReconnect: bool
    var status: Status
    var paired: Option<string>
    var protocolError: bool
    var tasks: seq<Task>
    var transports: seq<Transport>
    var timers: seq<Timer>
    ghost var leaked: set<nat>

    ghost function View(): State
      reads this, facade
    {
      State(epoch, transportRef, timerRef, shouldReconnect, facade.transport, facade.promises, facade.swaps,
            status, paired, protocolError, tasks, transports, timers, leaked)
    }

    ghost predicate Valid()
      reads this, facade
    {
      Inv(View())
    }

    constructor ()
      ensures Valid() && View() == Boot && fresh(facade)
    {
      facade := new DaemonClient();
      epoch, transportRef, timerRef, shouldReconnect := 0, None, None, true;
      status, paired, protocolError := IsConnecting(0), None, false;
      tasks, transports, timers, leaked := [], [], [], {};
    }

    /** `clearReconnectTimer` */
    method ClearReconnectTimer()
      requires timerRef.Some? ==> timerRef.value < |timers|
      modifies `timerRef, `timers
      ensures View() == ClearTimer(old(View()))
    {
      if timerRef.Some? {
        timers := timers[timerRef.value := timers[timerRef.value].(live := false)];
        timerRef := None;
      }
    }

    method CloseTransport(t: nat)
      requires t < |transports|
      modifies `transports
      ensures View() == Close(old(View()), t)
    {
      transports := transports[t := transports[t].(life := Closed)];
    }

    method LetGoOfTransport()
      requires transportRef.Some? ==> transportRef.value < |transports|
      modifies `transportRef, `transports, facade
      ensures View() == LetGo(old(View()))
    {
      var prevTransport := transportRef;
      transportRef := None;
      if prevTransport.Some? {
        facade.DetachTransport();
        CloseTransport(prevTransport.value);
      }
    }

    method ArmTimer(of: nat, attempt: nat)
      modifies `timerRef, `timers
      ensures View() == Arm(old(View()), of, attempt)
    {
      timerRef := Some(|timers|);
      timers := timers + [Timer(of, attempt, true)];
    }

    /** `connect`, up to its first await. */
    method Reconnect(attempt: nat)
      requires transportRef.Some? ==> transportRef.value < |transports|
      requires timerRef.Some? ==> timerRef.value < |timers|
      modifies this, facade
      ensures View() == Start(old(View()), attempt)
      ensures old(Valid()) ==> Valid()
    {
      hide LetGo, ClearTimer, TaskOk, TransportOk;
      if Inv(View()) {
        ConnectInv(View(), attempt);
      }
      epoch := epoch + 1;
      ClearReconnectTimer();
      LetGoOfTransport();
      shouldReconnect := true;
      status := IsConnecting(attempt);
      tasks := tasks + [Task(Connecting(attempt), epoch, AtIdentity)];
    }

    /** `pair`, up to its first await. */
    method BeginPair()
      requires Valid()
      modifies this
      ensures Valid() && View() == StartPair(old(View()))
    {
      hide ClearTimer, TaskOk, TransportOk;
      PairInv(View());
      epoch := epoch + 1;
      ClearReconnectTimer();
      shouldReconnect := true;
      tasks := tasks + [Task(Pairing, epoch, AtIdentity)];
    }

    /** `unpair`, up to its await. */
    method BeginUnpair()
      requires Valid()
      modifies this, facade
      ensures Valid() && View() == Step(old(View()), Unpair)
    {
      hide LetGo, ClearTimer, TaskOk, TransportOk;
      UnpairInv(View());
      epoch := epoch + 1;
      shouldReconnect := false;
      ClearReconnectTimer();
      LetGoOfTransport();
      tasks := tasks + [Task(Unpairing, epoch, AtClear)];
    }

    method MoveOn(i: nat, phase: Phase)
      requires i < |tasks|
      modifies `tasks
      ensures View() == SetPhase(old(View()), i, phase)
    {
      tasks := tasks[i := tasks[i].(phase := phase)];
    }

    /** Behind `getPairedDaemon` in `connect`. */
    method HaveRecord(i: nat, load: Load)
      requires Valid() && Can(View(), Loaded(i, load))
      modifies this
      ensures Valid() && View() == Step(old(View()), Loaded(i, load))
    {
      hide Inv, Can;
      LoadedInv(View(), i, load);
      LoadedKind(View(), i, load);
      MoveOn(i, if load.Record? then AtDial else Over);
      if load.Record? {
        paired := Some(load.record);
        return;
      }
      if tasks[i].epoch != epoch {
        return;
      }
      if load.Missing? {
        paired := None;
        status := Unpaired;
      } else {
        status := Error;
      }
    }

    /** The inner `catch` of `connect`; a pair only rethrows. */
    method DialThrew(i: nat, mismatch: bool)
      requires Valid() && Can(View(), DialFailed(i, mismatch))
      modifies this
      ensures Valid() && View() == Step(old(View()), DialFailed(i, mismatch))
    {
      hide Inv;
      DialFailedInv(View(), i, mismatch);
      var kind := tasks[i].kind;
      MoveOn(i, Over);
      if !kind.Connecting? || tasks[i].epoch != epoch || !shouldReconnect {
        return;
      }
      if mismatch {
        shouldReconnect := false;
        protocolError := true;
        status := Error;
        return;
      }
      status := Offline(kind.attempt);
      ArmTimer(tasks[i].epoch, kind.attempt + 1);
    }

    method PutInPlace(t: nat)
      requires facade.promises != [] && t < |transports|
      modifies this, facade
      ensures View() == Adopt(old(View()), t)
    {
      transports := transports[t := transports[t].(wired := true)];
      transportRef := Some(t);
      ghost var before := facade.promises;
      facade.AttachTransport(t);
      assert facade.promises == before[|before| - 1 := if before[|before| - 1].None? then Some(t) else before[|before| - 1]];
      protocolError := false;
      status := Ready;
    }

    /** Behind `Transport.reconnect` or `Transport.pair`. */
    method HaveTransport(i: nat)
      requires Valid() && Can(View(), Resume(i))
      modifies this, facade
      ensures Valid() && View() == Step(old(View()), Resume(i))
    {
      hide Inv, Adopt, Close;
      ResumeInv(View(), i);
      HeldInRange(View(), i);
      var t := tasks[i].phase.transport;
      if tasks[i].epoch != epoch {
        CloseTransport(t);
        MoveOn(i, Over);
      } else if tasks[i].kind.Pairing? {
        MoveOn(i, Checking(t));
      } else {
        MoveOn(i, Over);
        PutInPlace(t);
      }
    }

    /** `pair` behind its `getPairedDaemon`. */
    method HavePairedRecord(i: nat, load: Load)
      requires Valid() && Can(View(), Checked(i, load))
      modifies this, facade
      ensures Valid() && View() == Step(old(View()), Checked(i, load))
    {
      hide Inv, Adopt, Close, LetGo;
      CheckedInv(View(), i, load);
      HeldInRange(View(), i);
      LetGoInRange(View(), i);
      var t := tasks[i].phase.transport;
      MoveOn(i, Over);
      if load.Unreadable? {
        leaked := leaked + {t};
      } else if load.Missing? || tasks[i].epoch != epoch {
        CloseTransport(t);
      } else {
        LetGoOfTransport();
        PutInPlace(t);
        paired := Some(load.record);
      }
    }

    /** A drop, and `handleUnexpectedClose` when the handler is set. */
    method TransportDropped(t: nat)
      requires Valid() && Can(View(), Drop(t))
      modifies this
      ensures Valid() && View() == Step(old(View()), Drop(t))
    {
      hide TaskOk, TransportOk, ClearTimer;
      DropInv(View(), t);
      var it := transports[t];
      transports := transports[t := Transport(it.epoch, Dropped, false, it.wired)];
      if !it.wired || it.epoch != epoch || !shouldReconnect {
        return;
      }
      ClearReconnectTimer();
      status := Offline(0);
      ArmTimer(it.epoch, 1);
    }

    /** The timer callbacks. */
    method TimerFired(k: nat)
      requires Valid() && Can(View(), Fire(k))
      modifies this, facade
      ensures Valid() && View() == Step(old(View()), Fire(k))
    {
      hide Start, LetGo, TaskOk, TransportOk;
      FireInv(View(), k);
      timerRef := None;
      timers := timers[k := timers[k].(live := false)];
      if timers[k].epoch == epoch && shouldReconnect {
        Reconnect(timers[k].attempt);
      }
    }
  }

  lemma LoadedKind(s: State, i: nat, load: Load)
    requires Inv(s) && Can(s, Loaded(i, load))
    ensures i < |s.tasks| && s.tasks[i].kind.Connecting?
  {
    assert TaskOk(s, i);
  }

  lemma HeldInRange(s: State, i: nat)
    requires Inv(s) && i < |s.tasks| && (s.tasks[i].phase.Holding? || s.tasks[i].phase.Checking?)
    ensures s.tasks[i].phase.transport < |s.transports| && s.ready != []
    ensures s.transportRef.Some? ==> s.transportRef.value < |s.transports|
  {
    assert TaskOk(s, i);
  }

  lemma LetGoInRange(s: State, i: nat)
    requires i < |s.tasks| && s.ready != []
    ensures LetGo(SetPhase(s, i, Over)).ready != []
    ensures |LetGo(SetPhase(s, i, Over)).transports| == |s.transports|
  {
  }
}
