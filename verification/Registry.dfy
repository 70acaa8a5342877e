/**
 The preview registry's servers (`PreviewRegistry`): `start` and `stop` behind the
 name lock, re-checks, exit events and unloads, each cut at its `await`s into steps
 that any other step may come between.
 */
module Registry {
  import opened Wrappers
  import NameLock

  datatype Key = Key(directory: string, name: string)

  datatype Stopper = ByUser | ByAgent(session: Option<string>)

  datatype How = Stopped(stopper: Stopper) | Unloaded | Process(exit: Option<int>) | External

  datatype Cause = Cause(at: int, how: How)

  datatype Entry = Entry(
    key: Key, shell: string, pid: Option<int>, command: string, running: bool, ended: Option<Cause>)

  /** `command`: trimmed, and missing when blank. */
  datatype Ask = Start(command: Option<string>) | Stop(stopper: Stopper)

  datatype Answer =
    | NoServer
    | NotRunning(entry: nat)
    | StoppedIt(entry: nat)
    | AlreadyRuns(entry: nat)
    | CommandMissing
    | EndedEarly(entry: nat)
    | Started(entry: nat)
    | Threw

  /** Where an operation is. `refresh`: the re-check it waits for, unless that had
      nothing to ask. */
  datatype Pc =
    | Called
    | StartChecking(entry: nat, refresh: Option<nat>)
    | Creating
    | Sleeping(entry: nat, waited: nat)
    | Watching(entry: nat, waited: nat, refresh: Option<nat>)
    | StopChecking(entry: nat, refresh: Option<nat>)
    | Removing(entry: nat)
    | Answered(answer: Answer)

  datatype Job = Job(key: Key, ask: Ask, pc: Pc)

  datatype Outcome = Awaiting | Fine | Failed

  /** A `refresh` of an entry that ran when it began. */
  datatype Refresh = Refresh(entry: nat, outcome: Outcome)

  /** An `unloaded` with the entries that ran when it began. */
  datatype Unload = Unload(mine: set<nat>, over: bool)

  datatype State = State(
    lock: NameLock.Lock, jobs: seq<Job>,
    entries: seq<Entry>, dirs: map<Key, nat>, stopping: map<string, How>,
    refreshes: seq<Refresh>, unloads: seq<Unload>)

  datatype ShellStatus = ShellRunning | ShellExited | ShellTimeout | ShellKilled

  datatype Info = NoAnswer | NoShell | Shell(status: ShellStatus, exit: Option<int>, pid: Option<int>)

  datatype Event =
    | Call(key: Key, ask: Ask)
    | Begin(job: nat)
    | Resume(job: nat)
    | Created(job: nat, shell: string, pid: Option<int>)
    | CreateFailed(job: nat)
    | Tick(job: nat)
    | Removed(job: nat, at: int)
    | CleanUp(job: nat)
    | RefreshBegin(entry: nat)
    | RefreshEnd(refresh: nat, info: Info, at: int)
    | Exited(entry: nat, status: ShellStatus, exit: Option<int>, at: int)
    | UnloadBegin(directory: string)
    | UnloadEnd(unload: nat, at: int)
    | UnloadFailed(unload: nat)

  const POLL_MS := 250
  const START_WAIT_MS := 2000

  /** The lock's key. */
  function LockKey(key: Key): string { key.directory + [0 as char] + key.name }

  function Get<K, V>(m: map<K, V>, k: K): Option<V> { if k in m then Some(m[k]) else None }

  // ---- The segments between two awaits ----

  function End(entry: Entry, cause: Cause): Entry { entry.(running := false, ended := Some(cause)) }

  function CauseOf(stopping: map<string, How>, shell: string, status: ShellStatus, exit: Option<int>, at: int): Cause {
    Cause(at,
          if shell in stopping then stopping[shell]
          else if status.ShellExited? then Process(exit) else External)
  }

  function SetPc(s: State, i: nat, pc: Pc): State
    requires i < |s.jobs|
  {
    s.(jobs := s.jobs[i := s.jobs[i].(pc := pc)])
  }

  function Settle(s: State, i: nat, answer: Answer): State
    requires i < |s.jobs| && NameLock.Can(s.lock, NameLock.Settle(i))
  {
    SetPc(s, i, Answered(answer)).(lock := NameLock.Step(s.lock, NameLock.Settle(i)))
  }

  function AskShell(s: State, e: nat): State
    requires e < |s.entries|
  {
    if s.entries[e].running then s.(refreshes := s.refreshes + [Refresh(e, Awaiting)]) else s
  }

  function AskedAs(s: State, e: nat): Option<nat>
    requires e < |s.entries|
  {
    if s.entries[e].running then Some(|s.refreshes|) else None
  }

  predicate Done(s: State, refresh: Option<nat>) {
    refresh.Some? ==> refresh.value < |s.refreshes| && !s.refreshes[refresh.value].outcome.Awaiting?
  }

  predicate ItThrew(s: State, refresh: Option<nat>) {
    refresh.Some? && refresh.value < |s.refreshes| && s.refreshes[refresh.value].outcome.Failed?
  }

  predicate Runs(s: State, e: nat) { e < |s.entries| && s.entries[e].running }

  /** `startLocked` once the existing entry is checked. */
  function PastCheck(s: State, i: nat, existing: Option<nat>): State
    requires i < |s.jobs| && s.jobs[i].ask.Start? && NameLock.Can(s.lock, NameLock.Settle(i))
  {
    if existing.Some? && Runs(s, existing.value) then Settle(s, i, AlreadyRuns(existing.value))
    else if s.jobs[i].ask.command.None? then Settle(s, i, CommandMissing)
    else SetPc(s, i, Creating)
  }

  function Open(s: State, i: nat): State
    requires i < |s.jobs| && NameLock.Can(s.lock, NameLock.Settle(i))
    requires forall key :: key in s.dirs ==> s.dirs[key] < |s.entries|
  {
    var found := Get(s.dirs, s.jobs[i].key);
    if s.jobs[i].ask.Start? then
      if found.Some? && Runs(s, found.value) then
        SetPc(AskShell(s, found.value), i, StartChecking(found.value, AskedAs(s, found.value)))
      else PastCheck(s, i, found)
    else if found.None? then Settle(s, i, NoServer)
    else SetPc(AskShell(s, found.value), i, StopChecking(found.value, AskedAs(s, found.value)))
  }

  predicate Waits(s: State, i: nat) {
    i < |s.jobs|
    && match s.jobs[i].pc
       case StartChecking(e, r) => e < |s.entries| && s.jobs[i].ask.Start? && Done(s, r)
       case StopChecking(e, r) => e < |s.entries| && s.jobs[i].ask.Stop? && Done(s, r)
       case Watching(e, _, r) => e < |s.entries| && Done(s, r)
       case _ => false
  }

  function GoOn(s: State, i: nat): State
    requires Waits(s, i) && NameLock.Can(s.lock, NameLock.Settle(i))
  {
    match s.jobs[i].pc
    case StartChecking(e, r) => if ItThrew(s, r) then Settle(s, i, Threw) else PastCheck(s, i, Some(e))
    case StopChecking(e, r) =>
      if !s.entries[e].running then Settle(s, i, NotRunning(e))
      else SetPc(s, i, Removing(e)).(stopping := s.stopping[s.entries[e].shell := Stopped(s.jobs[i].ask.stopper)])
    case Watching(e, waited, r) =>
      if ItThrew(s, r) then Settle(s, i, Threw)
      else if !s.entries[e].running then Settle(s, i, EndedEarly(e))
      else if waited + POLL_MS < START_WAIT_MS then SetPc(s, i, Sleeping(e, waited + POLL_MS))
      else Settle(s, i, Started(e))
  }

  function Create(s: State, i: nat, shell: string, pid: Option<int>): State
    requires i < |s.jobs| && s.jobs[i].ask.Start? && s.jobs[i].ask.command.Some?
  {
    var job := s.jobs[i];
    SetPc(s, i, Sleeping(|s.entries|, 0)).(
      entries := s.entries + [Entry(job.key, shell, pid, job.ask.command.value, true, None)],
      dirs := s.dirs[job.key := |s.entries|])
  }

  function Remove(s: State, i: nat, at: int): State
    requires i < |s.jobs| && s.jobs[i].ask.Stop? && s.jobs[i].pc.Removing? && s.jobs[i].pc.entry < |s.entries|
    requires NameLock.Can(s.lock, NameLock.Settle(i))
  {
    var e := s.jobs[i].pc.entry;
    Settle(s, i, StoppedIt(e)).(
      stopping := s.stopping - {s.entries[e].shell},
      entries := s.entries[e := End(s.entries[e], Cause(at, Stopped(s.jobs[i].ask.stopper)))])
  }

  /** What a re-check does with the shell's answer: the status is not looked at again. */
  function Hear(s: State, r: nat, info: Info, at: int): State
    requires r < |s.refreshes| && s.refreshes[r].entry < |s.entries|
  {
    var e := s.refreshes[r].entry;
    var entry := s.entries[e];
    match info
    case NoAnswer => s.(refreshes := s.refreshes[r := Refresh(e, Failed)])
    case NoShell =>
      s.(refreshes := s.refreshes[r := Refresh(e, Fine)],
         entries := s.entries[e := End(entry, CauseOf(s.stopping, entry.shell, ShellKilled, None, at))])
    case Shell(status, exit, pid) =>
      s.(refreshes := s.refreshes[r := Refresh(e, Fine)],
         entries := s.entries[e :=
           if !status.ShellRunning? then End(entry, CauseOf(s.stopping, entry.shell, status, exit, at))
           else if entry.pid.None? then entry.(pid := pid)
           else entry])
  }

  /** The servers of a directory that run. */
  function RunningIn(s: State, directory: string): set<nat> {
    set key | key in s.dirs && key.directory == directory && Runs(s, s.dirs[key]) :: s.dirs[key]
  }

  function Shells(entries: seq<Entry>, mine: set<nat>): set<string> {
    set e | e in mine && e < |entries| :: entries[e].shell
  }

  function Mark(s: State, mine: set<nat>): State {
    s.(stopping := map shell | shell in s.stopping.Keys + Shells(s.entries, mine) ::
         if shell in Shells(s.entries, mine) then Unloaded else s.stopping[shell],
       unloads := s.unloads + [Unload(mine, false)])
  }

  function Unmark(s: State, u: nat): State
    requires u < |s.unloads|
  {
    s.(stopping := s.stopping - Shells(s.entries, s.unloads[u].mine),
       unloads := s.unloads[u := Unload(s.unloads[u].mine, true)])
  }

  function EndAll(entries: seq<Entry>, mine: set<nat>, at: int): (r: seq<Entry>)
    ensures |r| == |entries|
  {
    seq(|entries|, e requires 0 <= e < |entries| =>
      if e in mine && entries[e].running then End(entries[e], Cause(at, Unloaded)) else entries[e])
  }

  // ---- The steps ----

  /** The server a name shows. */
  predicate Shown(s: State, e: nat) { e < |s.entries| && Get(s.dirs, s.entries[e].key) == Some(e) }

  predicate Active(s: State, i: nat) { i < |s.jobs| && NameLock.Can(s.lock, NameLock.Settle(i)) }

  ghost predicate Can(s: State, e: Event) {
    match e
    case Call(_, _) => true
    case Begin(i) =>
      i < |s.jobs| && s.jobs[i].pc.Called? && NameLock.Can(s.lock, NameLock.Begin(i))
      && forall key :: key in s.dirs ==> s.dirs[key] < |s.entries|
    case Resume(i) => Active(s, i) && Waits(s, i)
    case Created(i, _, _) => Active(s, i) && s.jobs[i].pc.Creating? && s.jobs[i].ask.Start? && s.jobs[i].ask.command.Some?
    case CreateFailed(i) => Active(s, i) && s.jobs[i].pc.Creating?
    case Tick(i) => Active(s, i) && s.jobs[i].pc.Sleeping? && s.jobs[i].pc.entry < |s.entries|
    case Removed(i, _) =>
      Active(s, i) && s.jobs[i].pc.Removing? && s.jobs[i].ask.Stop? && s.jobs[i].pc.entry < |s.entries|
    case CleanUp(i) => NameLock.Can(s.lock, NameLock.CleanUp(i))
    case RefreshBegin(e) => Shown(s, e)
    case RefreshEnd(r, _, _) =>
      r < |s.refreshes| && s.refreshes[r].outcome.Awaiting? && s.refreshes[r].entry < |s.entries|
    case Exited(e, _, _, _) => Shown(s, e)
    case UnloadBegin(_) => true
    case UnloadEnd(u, _) => u < |s.unloads| && !s.unloads[u].over
    case UnloadFailed(u) => u < |s.unloads| && !s.unloads[u].over
  }

  ghost function Step(s: State, e: Event): State
    requires Can(s, e)
  {
    match e
    case Call(key, ask) =>
      s.(lock := NameLock.Step(s.lock, NameLock.Call(LockKey(key))), jobs := s.jobs + [Job(key, ask, Called)])
    case Begin(i) => Open(s.(lock := NameLock.Step(s.lock, NameLock.Begin(i))), i)
    case Resume(i) => GoOn(s, i)
    case Created(i, shell, pid) => Create(s, i, shell, pid)
    case CreateFailed(i) => Settle(s, i, Threw)
    case Tick(i) =>
      var pc := s.jobs[i].pc;
      SetPc(AskShell(s, pc.entry), i, Watching(pc.entry, pc.waited, AskedAs(s, pc.entry)))
    case Removed(i, at) => Remove(s, i, at)
    case CleanUp(i) => s.(lock := NameLock.Step(s.lock, NameLock.CleanUp(i)))
    case RefreshBegin(e) => AskShell(s, e)
    case RefreshEnd(r, info, at) => Hear(s, r, info, at)
    case Exited(e, status, exit, at) =>
      if !s.entries[e].running then s
      else s.(entries := s.entries[e := End(s.entries[e], CauseOf(s.stopping, s.entries[e].shell, status, exit, at))])
    case UnloadBegin(directory) => Mark(s, RunningIn(s, directory))
    case UnloadEnd(u, at) => Unmark(s, u).(entries := EndAll(s.entries, s.unloads[u].mine, at))
    case UnloadFailed(u) => Unmark(s, u)
  }

  ghost predicate Run(s: State, es: seq<Event>, s': State)
    decreases |es|
  {
    if es == [] then s' == s else Can(s, es[0]) && Run(Step(s, es[0]), es[1..], s')
  }

  // ---- What every step keeps ----

  ghost predicate EntryOk(s: State, e: nat)
    requires e < |s.entries|
  {
    && (s.entries[e].running <==> s.entries[e].ended.None?)
    && (s.entries[e].running ==> Shown(s, e))
  }

  ghost predicate DirOk(s: State, key: Key) {
    key in s.dirs ==> s.dirs[key] < |s.entries| && s.entries[s.dirs[key]].key == key
  }

  function PhaseOf(pc: Pc): NameLock.Phase {
    match pc
    case Called => NameLock.Waiting
    case Answered(_) => NameLock.Settled
    case _ => NameLock.Running
  }

  predicate Asked(s: State, refresh: Option<nat>, e: nat) {
    refresh.Some? ==> refresh.value < |s.refreshes| && s.refreshes[refresh.value].entry == e
  }

  /** An operation that looks at an entry looks at the one its name shows. */
  ghost predicate JobOk(s: State, i: nat)
    requires i < |s.jobs|
  {
    var job := s.jobs[i];
    match job.pc
    case Called => true
    case StartChecking(e, r) => job.ask.Start? && Get(s.dirs, job.key) == Some(e) && Asked(s, r, e)
    case Creating => job.ask.Start? && job.ask.command.Some? && (job.key in s.dirs ==> !Runs(s, s.dirs[job.key]))
    case Sleeping(e, _) => Get(s.dirs, job.key) == Some(e)
    case Watching(e, _, r) => Get(s.dirs, job.key) == Some(e) && Asked(s, r, e)
    case StopChecking(e, r) => job.ask.Stop? && Get(s.dirs, job.key) == Some(e) && Asked(s, r, e)
    case Removing(e) => job.ask.Stop? && Get(s.dirs, job.key) == Some(e)
    case Answered(_) => true
  }

  ghost predicate LockOk(s: State) {
    && NameLock.Inv(s.lock)
    && |s.jobs| == |s.lock.ops|
    && forall i :: 0 <= i < |s.jobs| ==>
         s.lock.ops[i].key == LockKey(s.jobs[i].key) && s.lock.ops[i].phase == PhaseOf(s.jobs[i].pc)
  }

  ghost predicate Inv(s: State) {
    && LockOk(s)
    && (forall e :: 0 <= e < |s.entries| ==> EntryOk(s, e))
    && (forall key :: DirOk(s, key))
    && (forall i :: 0 <= i < |s.jobs| ==> JobOk(s, i))
    && (forall r :: 0 <= r < |s.refreshes| ==> s.refreshes[r].entry < |s.entries|)
  }

  /** Two states apart by what is not the shown servers: entries may have ended. */
  ghost predicate Calm(s: State, t: State) {
    && t.dirs == s.dirs
    && |t.entries| == |s.entries|
    && (forall e :: 0 <= e < |s.entries| ==>
          t.entries[e].key == s.entries[e].key && t.entries[e].shell == s.entries[e].shell
          && (t.entries[e].running ==> s.entries[e].running)
          && (t.entries[e].running <==> t.entries[e].ended.None?))
    && |s.refreshes| <= |t.refreshes|
    && (forall r :: 0 <= r < |s.refreshes| ==> t.refreshes[r].entry == s.refreshes[r].entry)
    && (forall r :: |s.refreshes| <= r < |t.refreshes| ==> t.refreshes[r].entry < |t.entries|)
  }

  /** All but job `i` are where they were. */
  ghost predicate SameJobsBut(s: State, t: State, i: int) {
    |t.jobs| == |s.jobs| && forall j :: 0 <= j < |s.jobs| && j != i ==> t.jobs[j] == s.jobs[j]
  }

  lemma CalmJob(s: State, t: State, i: nat)
    requires Calm(s, t) && i < |s.jobs| && i < |t.jobs| && t.jobs[i] == s.jobs[i]
    requires JobOk(s, i) && DirOk(s, s.jobs[i].key)
    ensures JobOk(t, i)
  {
  }

  lemma CalmInv(s: State, t: State, i: int)
    requires Inv(s) && Calm(s, t) && SameJobsBut(s, t, i) && LockOk(t)
    requires 0 <= i < |s.jobs| ==> JobOk(t, i)
    ensures Inv(t)
  {
    forall e | 0 <= e < |t.entries|
      ensures EntryOk(t, e)
    {
      assert EntryOk(s, e);
    }
    forall key
      ensures DirOk(t, key)
    {
      assert DirOk(s, key);
    }
    forall j | 0 <= j < |t.jobs|
      ensures JobOk(t, j)
    {
      if j != i {
        assert JobOk(s, j) && DirOk(s, s.jobs[j].key);
        CalmJob(s, t, j);
      }
    }
  }

  /** At most one operation of a name is between its begin and its answer. */
  lemma OneActive(s: State, i: nat, j: nat)
    requires LockOk(s) && i < |s.jobs| && j < |s.jobs| && s.jobs[i].key == s.jobs[j].key
    requires PhaseOf(s.jobs[i].pc).Running? && PhaseOf(s.jobs[j].pc).Running?
    ensures i == j
  {
    if i < j {
      NameLock.EarlierSettled(s.lock, j, i);
    } else if j < i {
      NameLock.EarlierSettled(s.lock, i, j);
    }
  }

  /** The lock and the program counters agree, but for job `i`. */
  lemma LockMoves(s: State, t: State, i: nat, e: NameLock.Event)
    requires LockOk(s) && i < |s.jobs| && NameLock.Can(s.lock, e) && !e.Call? && (e.CleanUp? || e.op == i)
    requires t.lock == NameLock.Step(s.lock, e) && SameJobsBut(s, t, i) && t.jobs[i].key == s.jobs[i].key
    requires PhaseOf(t.jobs[i].pc) == t.lock.ops[i].phase
    ensures LockOk(t)
  {
    NameLock.StepInv(s.lock, e);
  }

  lemma LockStays(s: State, t: State, i: int)
    requires LockOk(s) && t.lock == s.lock && SameJobsBut(s, t, i)
    requires 0 <= i < |s.jobs| ==> t.jobs[i].key == s.jobs[i].key && PhaseOf(t.jobs[i].pc) == s.lock.ops[i].phase
    ensures LockOk(t)
  {
  }

  lemma CallInv(s: State, key: Key, ask: Ask)
    requires Inv(s)
    ensures Inv(Step(s, Call(key, ask)))
  {
    var t := Step(s, Call(key, ask));
    NameLock.StepInv(s.lock, NameLock.Call(LockKey(key)));
    forall i | 0 <= i < |t.jobs|
      ensures JobOk(t, i)
    {
      if i < |s.jobs| {
        assert JobOk(s, i);
      }
    }
    assert forall e :: 0 <= e < |s.entries| ==> EntryOk(s, e) ==> EntryOk(t, e);
    assert forall k :: DirOk(s, k) ==> DirOk(t, k);
  }

  lemma SettleInv(s: State, i: nat, answer: Answer)
    requires Inv(s) && Active(s, i)
    ensures Inv(Settle(s, i, answer))
  {
    hide NameLock.Inv, JobOk, EntryOk;
    var t := Settle(s, i, answer);
    LockMoves(s, t, i, NameLock.Settle(i));
    AllOk(s);
    assert JobOk(t, i) by { AnsweredOk(t, i); }
    CalmInv(s, t, i);
  }

  lemma AnsweredOk(s: State, i: nat)
    requires i < |s.jobs| && s.jobs[i].pc.Answered?
    ensures JobOk(s, i)
  {
  }

  lemma AllOk(s: State)
    requires Inv(s)
    ensures forall e :: 0 <= e < |s.entries| ==> (s.entries[e].running <==> s.entries[e].ended.None?)
  {
    forall e | 0 <= e < |s.entries|
      ensures s.entries[e].running <==> s.entries[e].ended.None?
    {
      assert EntryOk(s, e);
    }
  }

  lemma SetPcInv(s: State, i: nat, pc: Pc)
    requires Inv(s) && Active(s, i) && PhaseOf(pc).Running? && JobOk(SetPc(s, i, pc), i)
    ensures Inv(SetPc(s, i, pc))
  {
    hide NameLock.Inv, JobOk, EntryOk;
    var t := SetPc(s, i, pc);
    LockStays(s, t, i);
    AllOk(s);
    CalmInv(s, t, i);
  }

  lemma AskShellInv(s: State, e: nat)
    requires Inv(s) && e < |s.entries|
    ensures Inv(AskShell(s, e)) && Asked(AskShell(s, e), AskedAs(s, e), e)
  {
    hide NameLock.Inv, JobOk, EntryOk;
    var t := AskShell(s, e);
    LockStays(s, t, -1);
    AllOk(s);
    CalmInv(s, t, -1);
  }

  lemma PastCheckInv(s: State, i: nat, existing: Option<nat>)
    requires Inv(s) && Active(s, i) && s.jobs[i].ask.Start? && existing == Get(s.dirs, s.jobs[i].key)
    ensures Inv(PastCheck(s, i, existing))
  {
    hide NameLock.Inv, EntryOk;
    if existing.Some? && Runs(s, existing.value) {
      SettleInv(s, i, AlreadyRuns(existing.value));
    } else if s.jobs[i].ask.command.None? {
      SettleInv(s, i, CommandMissing);
    } else {
      SetPcInv(s, i, Creating);
    }
  }

  lemma ResumeInv(s: State, i: nat)
    requires Inv(s) && Can(s, Resume(i))
    ensures Inv(GoOn(s, i))
  {
    hide NameLock.Inv, EntryOk, Settle;
    assert JobOk(s, i);
    match s.jobs[i].pc
    case StartChecking(e, r) =>
      if ItThrew(s, r) {
        SettleInv(s, i, Threw);
      } else {
        PastCheckInv(s, i, Some(e));
      }
    case StopChecking(e, r) =>
      if !s.entries[e].running {
        SettleInv(s, i, NotRunning(e));
      } else {
        SetPcInv(s, i, Removing(e));
        StoppingIsAside(SetPc(s, i, Removing(e)), GoOn(s, i));
      }
    case Watching(e, waited, r) =>
      if ItThrew(s, r) {
        SettleInv(s, i, Threw);
      } else if !s.entries[e].running {
        SettleInv(s, i, EndedEarly(e));
      } else if waited + POLL_MS < START_WAIT_MS {
        SetPcInv(s, i, Sleeping(e, waited + POLL_MS));
      } else {
        SettleInv(s, i, Started(e));
      }
  }

  lemma StoppingIsAside(s: State, t: State)
    requires Inv(s) && t == s.(stopping := t.stopping, unloads := t.unloads)
    ensures Inv(t)
  {
    hide NameLock.Inv, JobOk, EntryOk;
    LockStays(s, t, -1);
    AllOk(s);
    CalmInv(s, t, -1);
  }

  lemma TickInv(s: State, i: nat)
    requires Inv(s) && Can(s, Tick(i))
    ensures Inv(Step(s, Tick(i)))
  {
    hide NameLock.Inv, EntryOk;
    assert JobOk(s, i);
    var pc := s.jobs[i].pc;
    AskShellInv(s, pc.entry);
    SetPcInv(AskShell(s, pc.entry), i, Watching(pc.entry, pc.waited, AskedAs(s, pc.entry)));
  }

  /** A begin is the lock's begin and a segment at once. */
  lemma BeginInv(s: State, i: nat)
    requires Inv(s) && Can(s, Begin(i))
    ensures Inv(Step(s, Begin(i)))
  {
    hide NameLock.Inv, EntryOk, Open, JobOk;
    var t := Step(s, Begin(i));
    var begun := s.(lock := NameLock.Step(s.lock, NameLock.Begin(i)));
    BeginLock(s, i);
    OpenShape(begun, i);
    OpenJobOk(begun, i);
    AllOk(s);
    CalmInv(s, t, i);
  }

  lemma BeginLock(s: State, i: nat)
    requires Inv(s) && Can(s, Begin(i))
    ensures LockOk(Step(s, Begin(i)))
  {
    hide NameLock.Inv, JobOk, EntryOk, Open;
    var begun := NameLock.Step(s.lock, NameLock.Begin(i));
    NameLock.StepInv(s.lock, NameLock.Begin(i));
    NameLock.StepInv(begun, NameLock.Settle(i));
    OpenShape(s.(lock := begun), i);
  }

  /** The first segment leaves the operation waiting or answered, and no other moved. */
  lemma OpenShape(s: State, i: nat)
    requires i < |s.jobs| && NameLock.Can(s.lock, NameLock.Settle(i))
    requires forall key :: key in s.dirs ==> s.dirs[key] < |s.entries|
    ensures var t := Open(s, i);
            && SameJobsBut(s, t, i) && t.jobs[i].key == s.jobs[i].key
            && t.entries == s.entries && t.dirs == s.dirs
            && |s.refreshes| <= |t.refreshes|
            && (forall r :: 0 <= r < |s.refreshes| ==> t.refreshes[r] == s.refreshes[r])
            && (forall r :: |s.refreshes| <= r < |t.refreshes| ==> t.refreshes[r].entry < |t.entries|)
            && (if t.jobs[i].pc.Answered? then t.lock == NameLock.Step(s.lock, NameLock.Settle(i))
                else t.lock == s.lock && PhaseOf(t.jobs[i].pc).Running?)
  {
    hide NameLock.Step;
  }

  lemma OpenJobOk(s: State, i: nat)
    requires i < |s.jobs| && NameLock.Can(s.lock, NameLock.Settle(i))
    requires forall key :: key in s.dirs ==> s.dirs[key] < |s.entries|
    ensures JobOk(Open(s, i), i)
  {
    hide NameLock.Step;
  }

  lemma CreatedInv(s: State, i: nat, shell: string, pid: Option<int>)
    requires Inv(s) && Can(s, Created(i, shell, pid))
    ensures Inv(Create(s, i, shell, pid))
  {
    hide NameLock.Inv;
    var t := Create(s, i, shell, pid);
    var key := s.jobs[i].key;
    assert JobOk(s, i) && DirOk(s, key);
    LockStays(s, t, i);
    forall e | 0 <= e < |t.entries|
      ensures EntryOk(t, e)
    {
      if e < |s.entries| {
        assert EntryOk(s, e);
      }
    }
    forall k
      ensures DirOk(t, k)
    {
      assert DirOk(s, k);
    }
    forall j | 0 <= j < |t.jobs|
      ensures JobOk(t, j)
    {
      if j != i {
        assert JobOk(s, j) && DirOk(s, s.jobs[j].key);
        if PhaseOf(s.jobs[j].pc).Running? && s.jobs[j].key == key {
          OneActive(s, i, j);
        }
      }
    }
  }

  lemma RemovedInv(s: State, i: nat, at: int)
    requires Inv(s) && Can(s, Removed(i, at))
    ensures Inv(Remove(s, i, at))
  {
    hide NameLock.Inv, JobOk, EntryOk;
    var t := Remove(s, i, at);
    LockMoves(s, t, i, NameLock.Settle(i));
    AllOk(s);
    assert JobOk(t, i) by { AnsweredOk(t, i); }
    CalmInv(s, t, i);
  }

  lemma HearInv(s: State, r: nat, info: Info, at: int)
    requires Inv(s) && r < |s.refreshes|
    ensures Inv(Hear(s, r, info, at))
  {
    hide NameLock.Inv, JobOk, EntryOk, CauseOf;
    var t := Hear(s, r, info, at);
    LockStays(s, t, -1);
    AllOk(s);
    CalmInv(s, t, -1);
  }

  lemma EntriesEndInv(s: State, t: State)
    requires Inv(s) && t == s.(stopping := t.stopping, unloads := t.unloads, entries := t.entries)
    requires |t.entries| == |s.entries|
    requires forall e :: 0 <= e < |s.entries| ==>
               t.entries[e] == s.entries[e]
               || (t.entries[e].ended.Some? && t.entries[e] == End(s.entries[e], t.entries[e].ended.value))
    ensures Inv(t)
  {
    hide NameLock.Inv, JobOk, EntryOk;
    LockStays(s, t, -1);
    AllOk(s);
    CalmInv(s, t, -1);
  }

  lemma AsideInv(s: State, e: Event)
    requires Inv(s) && Can(s, e)
    requires e.Exited? || e.UnloadBegin? || e.UnloadEnd? || e.UnloadFailed?
    ensures Inv(Step(s, e))
  {
    hide Inv, CauseOf, RunningIn, Shells;
    EntriesEndInv(s, Step(s, e));
  }

  lemma CleanUpInv(s: State, i: nat)
    requires Inv(s) && Can(s, CleanUp(i))
    ensures Inv(Step(s, CleanUp(i)))
  {
    hide NameLock.Inv, JobOk, EntryOk;
    var t := Step(s, CleanUp(i));
    NameLock.StepInv(s.lock, NameLock.CleanUp(i));
    AllOk(s);
    CalmInv(s, t, -1);
  }

  lemma StepInv(s: State, e: Event)
    requires Inv(s) && Can(s, e)
    ensures Inv(Step(s, e))
  {
    hide Inv, Open, GoOn, Create, Remove, Hear, Settle, Active;
    match e
    case Call(key, ask) => CallInv(s, key, ask);
    case Begin(i) => BeginInv(s, i);
    case Resume(i) => ResumeInv(s, i);
    case Created(i, shell, pid) => CreatedInv(s, i, shell, pid);
    case CreateFailed(i) => SettleInv(s, i, Threw);
    case Tick(i) => TickInv(s, i);
    case Removed(i, at) => RemovedInv(s, i, at);
    case CleanUp(i) => CleanUpInv(s, i);
    case RefreshBegin(entry) => AskShellInv(s, entry);
    case RefreshEnd(r, info, at) => HearInv(s, r, info, at);
    case _ => AsideInv(s, e);
  }

  lemma {:induction false} RunInv(s: State, es: seq<Event>, s': State)
    requires Inv(s) && Run(s, es, s')
    ensures Inv(s')
    decreases |es|
  {
    hide Inv, Can, Step;
    if es != [] {
      StepInv(s, es[0]);
      RunInv(Step(s, es[0]), es[1..], s');
    }
  }

  // ---- Over any run ----

  /** What the state file brings back: servers that ran, each the one of its name. */
  ghost predicate Booted(s: State) {
    && s.lock == NameLock.Free && s.jobs == [] && s.stopping == map[] && s.refreshes == [] && s.unloads == []
    && (forall e :: 0 <= e < |s.entries| ==> s.entries[e].running && EntryOk(s, e))
    && (forall key :: DirOk(s, key))
  }

  lemma BootInv(start: State, es: seq<Event>, s: State)
    requires Booted(start) && Run(start, es, s)
    ensures Inv(s)
  {
    RunInv(start, es, s);
  }

  /** A running server is the one its name shows: never replaced, never dropped, and so
      the only one of its name. */
  lemma RunningIsShown(start: State, es: seq<Event>, s: State, e: nat)
    requires Booted(start) && Run(start, es, s) && e < |s.entries| && s.entries[e].running
    ensures s.entries[e].key in s.dirs && s.dirs[s.entries[e].key] == e
    ensures forall d :: 0 <= d < |s.entries| && s.entries[d].running && s.entries[d].key == s.entries[e].key ==> d == e
  {
    BootInv(start, es, s);
    assert EntryOk(s, e);
    forall d | 0 <= d < |s.entries| && s.entries[d].running && s.entries[d].key == s.entries[e].key
      ensures d == e
    {
      assert EntryOk(s, d);
    }
  }

  /** `start` and `stop` of one name run one at a time, in the order of the calls. */
  lemma OneAtATime(start: State, es: seq<Event>, s: State, i: nat, j: nat)
    requires Booted(start) && Run(start, es, s)
    requires j < i < |s.jobs| && s.jobs[i].key == s.jobs[j].key && !s.jobs[i].pc.Called?
    ensures s.jobs[j].pc.Answered?
  {
    BootInv(start, es, s);
    NameLock.EarlierSettled(s.lock, i, j);
  }

  /** Entries are never lost; their status goes from running to ended and not back;
      a process id stays. */
  ghost predicate Lasts(s: State, t: State) {
    && |s.entries| <= |t.entries|
    && forall e :: 0 <= e < |s.entries| ==> EntryLasts(s.entries[e], t.entries[e])
  }

  ghost predicate EntryLasts(a: Entry, b: Entry) {
    && b.key == a.key && b.shell == a.shell && b.command == a.command
    && (b.running ==> a.running)
    && (a.pid.Some? ==> b.pid == a.pid)
  }

  /** The ended entry whose cause a step writes anew. */
  function Rewritten(s: State, e: Event): Option<nat> {
    if e.RefreshEnd? && e.refresh < |s.refreshes| then Some(s.refreshes[e.refresh].entry)
    else if e.Removed? && e.job < |s.jobs| && s.jobs[e.job].pc.Removing? then Some(s.jobs[e.job].pc.entry)
    else None
  }

  ghost predicate EntriesMove(s: State, t: State, rewritten: Option<nat>) {
    && Lasts(s, t)
    && forall e :: 0 <= e < |s.entries| && !s.entries[e].running && rewritten != Some(e) ==>
         t.entries[e].ended == s.entries[e].ended
  }

  /** Only a running server is asked about. */
  ghost predicate RefreshesMove(s: State, t: State) {
    && |s.refreshes| <= |t.refreshes|
    && (forall r :: 0 <= r < |s.refreshes| ==>
          t.refreshes[r].entry == s.refreshes[r].entry
          && (t.refreshes[r].outcome.Awaiting? ==> s.refreshes[r].outcome.Awaiting?))
    && (forall r :: |s.refreshes| <= r < |t.refreshes| ==> Runs(s, t.refreshes[r].entry))
  }

  /** Only a running server is stopped. */
  ghost predicate JobsMove(s: State, t: State) {
    && |s.jobs| <= |t.jobs|
    && forall i :: 0 <= i < |t.jobs| && t.jobs[i].pc.Removing? ==>
         Runs(s, t.jobs[i].pc.entry) || (i < |s.jobs| && t.jobs[i].pc == s.jobs[i].pc)
  }

  ghost predicate UnloadsMove(s: State, t: State) {
    && |s.unloads| <= |t.unloads|
    && forall u :: 0 <= u < |s.unloads| ==> t.unloads[u].mine == s.unloads[u].mine
  }

  ghost predicate Moves(s: State, t: State, rewritten: Option<nat>) {
    EntriesMove(s, t, rewritten) && RefreshesMove(s, t) && JobsMove(s, t) && UnloadsMove(s, t)
  }

  lemma BeginMoves(s: State, i: nat)
    requires Can(s, Begin(i))
    ensures Moves(s, Step(s, Begin(i)), None)
  {
    OpenMoves(s.(lock := NameLock.Step(s.lock, NameLock.Begin(i))), i);
  }

  lemma OpenMoves(s: State, i: nat)
    requires Active(s, i) && forall key :: key in s.dirs ==> s.dirs[key] < |s.entries|
    ensures Moves(s, Open(s, i), None)
  {
    hide NameLock.Step, NameLock.Can;
  }

  lemma SettleMoves(s: State, i: nat, answer: Answer)
    requires Active(s, i)
    ensures Moves(s, Settle(s, i, answer), None)
  {
    hide NameLock.Step, NameLock.Can;
  }

  lemma SetPcMoves(s: State, i: nat, pc: Pc)
    requires i < |s.jobs| && (pc.Removing? ==> Runs(s, pc.entry))
    ensures Moves(s, SetPc(s, i, pc), None)
  {
  }

  lemma ResumeMoves(s: State, i: nat)
    requires Active(s, i) && Waits(s, i)
    ensures Moves(s, GoOn(s, i), None)
  {
    hide Settle, SetPc, NameLock.Step, NameLock.Can, EntriesMove, RefreshesMove, JobsMove, UnloadsMove;
    match s.jobs[i].pc
    case StartChecking(e, r) =>
      SettleMoves(s, i, Threw);
      SettleMoves(s, i, AlreadyRuns(e));
      SettleMoves(s, i, CommandMissing);
      SetPcMoves(s, i, Creating);
    case StopChecking(e, r) =>
      SettleMoves(s, i, NotRunning(e));
      if s.entries[e].running {
        SetPcMoves(s, i, Removing(e));
        StoppingAside(s, SetPc(s, i, Removing(e)), s.stopping[s.entries[e].shell := Stopped(s.jobs[i].ask.stopper)]);
      }
    case Watching(e, waited, r) =>
      SettleMoves(s, i, Threw);
      SettleMoves(s, i, EndedEarly(e));
      SettleMoves(s, i, Started(e));
      SetPcMoves(s, i, Sleeping(e, waited + POLL_MS));
  }

  lemma StoppingAside(s: State, t: State, stopping: map<string, How>)
    requires Moves(s, t, None)
    ensures Moves(s, t.(stopping := stopping), None)
  {
  }

  lemma RemoveMoves(s: State, i: nat, at: int)
    requires Can(s, Removed(i, at))
    ensures Moves(s, Remove(s, i, at), Some(s.jobs[i].pc.entry))
  {
    hide NameLock.Step;
  }

  lemma HearMoves(s: State, r: nat, info: Info, at: int)
    requires Can(s, RefreshEnd(r, info, at))
    ensures Moves(s, Hear(s, r, info, at), Some(s.refreshes[r].entry))
  {
    hide CauseOf, Active, NameLock.Can;
  }

  lemma UnloadMoves(s: State, u: nat, at: int)
    requires u < |s.unloads|
    ensures Moves(s, Unmark(s, u).(entries := EndAll(s.entries, s.unloads[u].mine, at)), None)
    ensures Moves(s, Unmark(s, u), None)
  {
    hide Shells;
  }

  lemma TickMoves(s: State, i: nat)
    requires Can(s, Tick(i))
    ensures Moves(s, Step(s, Tick(i)), None)
  {
    hide NameLock.Can;
  }

  lemma StepMoves(s: State, e: Event)
    requires Can(s, e)
    ensures Moves(s, Step(s, e), Rewritten(s, e))
  {
    hide Open, GoOn, Remove, Hear, Unmark, EndAll, RunningIn, Shells, CauseOf, NameLock.Can, NameLock.Step;
    match e
    case Begin(i) => BeginMoves(s, i);
    case Resume(i) => ResumeMoves(s, i);
    case Removed(i, at) => RemoveMoves(s, i, at);
    case RefreshEnd(r, info, at) => HearMoves(s, r, info, at);
    case UnloadEnd(u, at) => UnloadMoves(s, u, at);
    case UnloadFailed(u) => UnloadMoves(s, u, 0);
    case Tick(i) => TickMoves(s, i);
    case _ =>
  }

  lemma {:induction false} RunLasts(s: State, es: seq<Event>, s': State)
    requires Run(s, es, s')
    ensures Lasts(s, s') && UnloadsMove(s, s')
    decreases |es|
  {
    hide Can, Step;
    if es != [] {
      StepMoves(s, es[0]);
      RunLasts(Step(s, es[0]), es[1..], s');
    }
  }

  /** A shell that `create` returned has its entry under its name until that ended. */
  lemma ShellKeepsItsEntry(start: State, before: seq<Event>, s: State, i: nat, shell: string, pid: Option<int>,
                           after: seq<Event>, s': State)
    requires Booted(start) && Run(start, before, s) && Can(s, Created(i, shell, pid))
    requires Run(Step(s, Created(i, shell, pid)), after, s')
    ensures var n := |s.entries|;
            && n < |s'.entries| && s'.entries[n].shell == shell && s'.entries[n].key == s.jobs[i].key
            && (s'.entries[n].ended.None? ==> s'.entries[n].running && Get(s'.dirs, s.jobs[i].key) == Some(n))
  {
    var t := Step(s, Created(i, shell, pid));
    BootInv(start, before, s);
    StepInv(s, Created(i, shell, pid));
    RunInv(t, after, s');
    RunLasts(t, after, s');
    assert EntryLasts(t.entries[|s.entries|], s'.entries[|s.entries|]);
    assert EntryOk(s', |s.entries|);
  }

  // ---- Why a server ended ----

  /** Something that waits will still write the entry's cause: a re-check that asked
      while it ran, or a stop of it. */
  ghost predicate Pending(s: State, e: nat) {
    || (exists r :: RechecksNow(s, r, e))
    || (exists i :: StopsNow(s, i, e))
  }

  predicate RechecksNow(s: State, r: nat, e: nat) {
    r < |s.refreshes| && s.refreshes[r].entry == e && s.refreshes[r].outcome.Awaiting?
  }

  predicate StopsNow(s: State, i: nat, e: nat) { i < |s.jobs| && s.jobs[i].pc == Removing(e) }

  ghost predicate Frozen(s: State, e: nat) {
    e < |s.entries| && !s.entries[e].running && !Pending(s, e)
  }

  lemma FrozenStep(s: State, e: nat, ev: Event)
    requires Inv(s) && Frozen(s, e) && Can(s, ev)
    ensures var t := Step(s, ev); Frozen(t, e) && t.entries[e].ended == s.entries[e].ended
  {
    hide Step, Can, Inv;
    var t := Step(s, ev);
    StepMoves(s, ev);
    assert Rewritten(s, ev) != Some(e) by { NotRewritten(s, e, ev); }
    forall r: nat
      ensures !RechecksNow(t, r, e)
    {
      assert !RechecksNow(s, r, e);
    }
    forall i: nat
      ensures !StopsNow(t, i, e)
    {
      assert !StopsNow(s, i, e);
    }
  }

  lemma NotRewritten(s: State, e: nat, ev: Event)
    requires Frozen(s, e) && Can(s, ev)
    ensures Rewritten(s, ev) != Some(e)
  {
    hide NameLock.Can;
    if ev.RefreshEnd? {
      assert !RechecksNow(s, ev.refresh, e);
    } else if ev.Removed? {
      assert !StopsNow(s, ev.job, e);
    }
  }

  lemma {:induction false} FrozenRun(s: State, e: nat, es: seq<Event>, s': State)
    requires Inv(s) && Frozen(s, e) && Run(s, es, s')
    ensures e < |s'.entries| && s'.entries[e].ended == s.entries[e].ended
    decreases |es|
  {
    hide Inv, Can, Step, Frozen;
    if es == [] {
      assert e < |s.entries| by { FrozenIn(s, e); }
    } else {
      FrozenStep(s, e, es[0]);
      StepInv(s, es[0]);
      FrozenRun(Step(s, es[0]), e, es[1..], s');
    }
  }

  lemma FrozenIn(s: State, e: nat)
    requires Frozen(s, e)
    ensures e < |s.entries|
  {
  }

  lemma OneStep(s: State, e: Event)
    requires Can(s, e)
    ensures Run(s, [e], Step(s, e))
  {
    assert [e][1..] == [];
  }

  lemma PendingMoves(s: State, e: nat) returns (ev: Event)
    requires Inv(s) && e < |s.entries| && !s.entries[e].running && Pending(s, e)
    ensures Can(s, ev) && |Step(s, ev).entries| == |s.entries| && Step(s, ev).entries[e].ended != s.entries[e].ended
  {
    hide NameLock.Step, NameLock.Inv;
    assert EntryOk(s, e);
    var later := s.entries[e].ended.value.at + 1;
    if r :| RechecksNow(s, r, e) {
      ev := RefreshEnd(r, NoShell, later);
    } else {
      var i :| StopsNow(s, i, e);
      assert JobOk(s, i);
      ev := Removed(i, later);
    }
  }

  /** No run from here changes why the server ended. */
  ghost predicate Final(s: State, e: nat)
    requires e < |s.entries|
  {
    forall es, s' :: Run(s, es, s') ==> e < |s'.entries| && s'.entries[e].ended == s.entries[e].ended
  }

  lemma PendingIsNotFinal(s: State, e: nat)
    requires Inv(s) && e < |s.entries| && !s.entries[e].running && Pending(s, e)
    ensures !Final(s, e)
  {
    hide Can, Step, Inv, Pending, Run;
    var ev := PendingMoves(s, e);
    var es, t := [ev], Step(s, ev);
    OneStep(s, ev);
    assert Run(s, es, t) && t.entries[e].ended != s.entries[e].ended;
  }

  /** The cause of an ended server is final exactly when neither a re-check nor a stop
      of it is under way. */
  lemma CauseIsFinal(start: State, before: seq<Event>, s: State, e: nat)
    requires Booted(start) && Run(start, before, s) && e < |s.entries| && !s.entries[e].running
    ensures Final(s, e) <==> !Pending(s, e)
  {
    hide Can, Step, Inv, Pending, Run, Booted;
    BootInv(start, before, s);
    if Pending(s, e) {
      PendingIsNotFinal(s, e);
    } else {
      FrozenAt(s, e);
      forall es, s' | Run(s, es, s')
        ensures e < |s'.entries| && s'.entries[e].ended == s.entries[e].ended
      {
        FrozenRun(s, e, es, s');
      }
    }
  }

  lemma FrozenAt(s: State, e: nat)
    requires e < |s.entries| && !s.entries[e].running && !Pending(s, e)
    ensures Frozen(s, e)
  {
  }

  /** The entry has ended at `at`: for the reason left for its shell, else by its own
      exit, else from outside. The rest of it stands. */
  ghost predicate EndedBy(stopping: map<string, How>, a: Entry, b: Entry, exited: bool, exit: Option<int>, at: int) {
    && b.key == a.key && b.shell == a.shell && b.pid == a.pid && b.command == a.command
    && !b.running && b.ended.Some? && b.ended.value.at == at
    && (a.shell in stopping ==> b.ended.value.how == stopping[a.shell])
    && (a.shell !in stopping && exited ==> b.ended.value.how == Process(exit))
    && (a.shell !in stopping && !exited ==> b.ended.value.how == External)
  }

  ghost predicate SameEntriesBut(s: State, t: State, e: int) {
    |t.entries| == |s.entries| && forall d :: 0 <= d < |s.entries| && d != e ==> t.entries[d] == s.entries[d]
  }

  /** The shell is no more, or no longer runs. */
  predicate Gone(info: Info) { info.NoShell? || (info.Shell? && !info.status.ShellRunning?) }

  /** What a re-check does with each answer of the shell, whatever the entry's status by
      then: it ends the server whose shell is gone, learns a missing pid from one that
      runs, and changes nothing when there was no answer. */
  lemma RecheckTells(s: State, r: nat, info: Info, at: int)
    requires Can(s, RefreshEnd(r, info, at))
    ensures var t, e := Step(s, RefreshEnd(r, info, at)), s.refreshes[r].entry;
            && t == s.(entries := t.entries, refreshes := t.refreshes) && SameEntriesBut(s, t, e)
            && (Gone(info) ==>
                  var exited := info.Shell? && info.status.ShellExited?;
                  EndedBy(s.stopping, s.entries[e], t.entries[e], exited, if exited then info.exit else None, at))
            && (info.NoAnswer? ==> t.entries[e] == s.entries[e])
            && (!info.NoAnswer? && !Gone(info) ==>
                  var a, b := s.entries[e], t.entries[e];
                  b == Entry(a.key, a.shell, b.pid, a.command, a.running, a.ended)
                  && b.pid == if a.pid.Some? then a.pid else info.pid)
            && |t.refreshes| == |s.refreshes|
            && (forall q :: 0 <= q < |s.refreshes| && q != r ==> t.refreshes[q] == s.refreshes[q])
            && t.refreshes[r] == Refresh(e, if info.NoAnswer? then Failed else Fine)
  {
  }

  /** What an exit event does: it ends the server its shell is of, once. */
  lemma ExitTells(s: State, e: nat, status: ShellStatus, exit: Option<int>, at: int)
    requires Can(s, Exited(e, status, exit, at))
    ensures var t := Step(s, Exited(e, status, exit, at));
            && t == s.(entries := t.entries) && SameEntriesBut(s, t, e)
            && (s.entries[e].running ==>
                  EndedBy(s.stopping, s.entries[e], t.entries[e], status.ShellExited?, exit, at))
            && (!s.entries[e].running ==> t == s)
  {
  }

  lemma GoneNow(start: State, before: seq<Event>, s: State, ev: Event, e: nat)
    requires Booted(start) && Run(start, before, s) && Can(s, ev)
    requires ev.Exited? || (ev.RefreshEnd? && Gone(ev.info))
    requires e == if ev.Exited? then ev.entry else s.refreshes[ev.refresh].entry
    ensures e < |Step(s, ev).entries| && !Step(s, ev).entries[e].running && Inv(Step(s, ev))
  {
    hide Inv, Booted;
    BootInv(start, before, s);
    StepInv(s, ev);
    if ev.Exited? {
      ExitTells(s, e, ev.status, ev.exit, ev.at);
    } else {
      RecheckTells(s, ev.refresh, ev.info, ev.at);
    }
  }

  lemma EndedIsEnded(s: State, e: nat)
    requires Inv(s) && e < |s.entries| && !s.entries[e].running
    ensures s.entries[e].ended.Some?
  {
    assert EntryOk(s, e);
  }

  /** A stop that answers "Stopped" leaves its own cause on the server its name shows,
      whatever came between; only a re-check still under way can change it. */
  lemma StopLeavesItsCause(start: State, es: seq<Event>, s: State, i: nat, at: int)
    requires Booted(start) && Run(start, es, s) && Can(s, Removed(i, at))
    ensures StopLeft(s, i, at)
  {
    BootInv(start, es, s);
    RemovedLeaves(s, i, at);
  }

  ghost predicate StopLeft(s: State, i: nat, at: int)
    requires Can(s, Removed(i, at))
  {
    var t, e := Step(s, Removed(i, at)), s.jobs[i].pc.entry;
    && t.jobs[i].pc == Answered(StoppedIt(e))
    && Get(t.dirs, s.jobs[i].key) == Some(e) && t.dirs == s.dirs
    && t.stopping == s.stopping - {s.entries[e].shell} && |t.entries| == |s.entries|
    && (forall other | 0 <= other < |s.entries| && other != e :: t.entries[other] == s.entries[other])
    && t.entries[e].shell == s.entries[e].shell && t.entries[e].key == s.entries[e].key
    && !t.entries[e].running && t.entries[e].ended == Some(Cause(at, Stopped(s.jobs[i].ask.stopper)))
    && (Pending(t, e) <==> exists r :: RechecksNow(s, r, e))
  }

  lemma RemovedLeaves(s: State, i: nat, at: int)
    requires Inv(s) && Can(s, Removed(i, at))
    ensures StopLeft(s, i, at)
  {
    hide NameLock.Step, NameLock.Inv, EntryOk;
    var t, e := Step(s, Removed(i, at)), s.jobs[i].pc.entry;
    assert JobOk(s, i) && DirOk(s, s.jobs[i].key);
    assert forall r: nat :: RechecksNow(s, r, e) <==> RechecksNow(t, r, e);
    forall j: nat
      ensures !StopsNow(t, j, e)
    {
      if StopsNow(t, j, e) {
        assert JobOk(s, j) && DirOk(s, s.jobs[j].key);
        OneActive(s, i, j);
      }
    }
  }

  // ---- Who is blamed ----

  predicate StopOf(s: State, i: nat, shell: string, stopper: Stopper) {
    && i < |s.jobs| && s.jobs[i].pc.Removing? && s.jobs[i].ask == Stop(stopper)
    && s.jobs[i].pc.entry < |s.entries| && s.entries[s.jobs[i].pc.entry].shell == shell
  }

  predicate UnloadOf(s: State, u: nat, shell: string) {
    u < |s.unloads| && !s.unloads[u].over && shell in Shells(s.entries, s.unloads[u].mine)
  }

  /** A stop or an unload that is under way stands behind the word in `stopping`. */
  ghost predicate Meant(s: State, shell: string, how: How) {
    match how
    case Stopped(stopper) => exists i :: StopOf(s, i, shell, stopper)
    case Unloaded => exists u :: UnloadOf(s, u, shell)
    case _ => false
  }

  ghost predicate AllMeant(s: State) {
    forall shell :: shell in s.stopping ==> Meant(s, shell, s.stopping[shell])
  }

  lemma StopOfStays(s: State, ev: Event, i: nat, shell: string, stopper: Stopper)
    requires Can(s, ev) && StopOf(s, i, shell, stopper)
    ensures StopOf(Step(s, ev), i, shell, stopper) || shell !in Step(s, ev).stopping
  {
    hide NameLock.Can, NameLock.Step, Open, RunningIn, Shells, CauseOf;
    if Moved(ev) != Some(i) {
      OthersWait(s, ev, i);
      StepMoves(s, ev);
      assert EntryLasts(s.entries[s.jobs[i].pc.entry], Step(s, ev).entries[s.jobs[i].pc.entry]);
    }
  }

  lemma UnloadOfStays(s: State, ev: Event, u: nat, shell: string)
    requires Can(s, ev) && UnloadOf(s, u, shell)
    ensures UnloadOf(Step(s, ev), u, shell) || shell !in Step(s, ev).stopping
  {
    hide NameLock.Can, NameLock.Step, Open, GoOn, Hear, RunningIn, CauseOf, EndAll;
    var t := Step(s, ev);
    StepMoves(s, ev);
    var e :| e in s.unloads[u].mine && e < |s.entries| && s.entries[e].shell == shell;
    assert EntryLasts(s.entries[e], t.entries[e]);
    assert t.entries[e].shell in Shells(t.entries, t.unloads[u].mine);
    UnloadsOver(s, ev, u);
  }

  lemma UnloadsOver(s: State, ev: Event, u: nat)
    requires Can(s, ev) && u < |s.unloads| && !s.unloads[u].over
    ensures u < |Step(s, ev).unloads|
    ensures Step(s, ev).unloads[u].over ==>
              (ev.UnloadEnd? || ev.UnloadFailed?) && Step(s, ev).stopping == s.stopping - Shells(s.entries, s.unloads[u].mine)
  {
    hide NameLock.Can, NameLock.Step, RunningIn, Shells, CauseOf, EndAll;
  }

  /** Only a stop that begins to remove, and an unload that begins, add a word. */
  lemma WordsAdded(s: State, ev: Event, shell: string)
    requires Can(s, ev) && shell in Step(s, ev).stopping
    ensures var t := Step(s, ev);
            || (shell in s.stopping && t.stopping[shell] == s.stopping[shell])
            || Meant(t, shell, t.stopping[shell])
  {
    hide NameLock.Can, NameLock.Step, GoOn, Mark, Meant, RunningIn, CauseOf, EndAll;
    if ev.UnloadBegin? {
      MarkAdds(s, RunningIn(s, ev.directory), shell);
    } else if ev.Resume? {
      GoOnAdds(s, ev.job, shell);
    }
  }

  lemma MarkAdds(s: State, mine: set<nat>, shell: string)
    requires shell in Mark(s, mine).stopping
    ensures var t := Mark(s, mine);
            || (shell in s.stopping && t.stopping[shell] == s.stopping[shell])
            || Meant(t, shell, t.stopping[shell])
  {
    hide Shells;
    var t := Mark(s, mine);
    if shell in Shells(s.entries, mine) {
      assert UnloadOf(t, |s.unloads|, shell);
    }
  }

  lemma GoOnAdds(s: State, i: nat, shell: string)
    requires Active(s, i) && Waits(s, i) && shell in GoOn(s, i).stopping
    ensures var t := GoOn(s, i);
            || (shell in s.stopping && t.stopping[shell] == s.stopping[shell])
            || Meant(t, shell, t.stopping[shell])
  {
    hide NameLock.Step;
    var t := GoOn(s, i);
    if s.jobs[i].pc.StopChecking? && s.entries[s.jobs[i].pc.entry].running && shell == s.entries[s.jobs[i].pc.entry].shell {
      assert StopOf(t, i, shell, s.jobs[i].ask.stopper);
    }
  }

  lemma StepMeant(s: State, ev: Event)
    requires AllMeant(s) && Can(s, ev)
    ensures AllMeant(Step(s, ev))
  {
    hide Can, Step, StopOf, UnloadOf;
    var t := Step(s, ev);
    forall shell | shell in t.stopping
      ensures Meant(t, shell, t.stopping[shell])
    {
      WordsAdded(s, ev, shell);
      if shell in s.stopping && t.stopping[shell] == s.stopping[shell] {
        match s.stopping[shell]
        case Stopped(stopper) =>
          var i :| StopOf(s, i, shell, stopper);
          StopOfStays(s, ev, i, shell, stopper);
        case Unloaded =>
          var u :| UnloadOf(s, u, shell);
          UnloadOfStays(s, ev, u, shell);
        case _ =>
      }
    }
  }

  lemma {:induction false} RunMeant(s: State, es: seq<Event>, s': State)
    requires AllMeant(s) && Run(s, es, s')
    ensures AllMeant(s')
    decreases |es|
  {
    hide AllMeant, Can, Step;
    if es != [] {
      StepMeant(s, es[0]);
      RunMeant(Step(s, es[0]), es[1..], s');
    }
  }

  /** An exit event or a re-check never blames a stop or an unload that is not under
      way then: without one it was the process itself or something outside. */
  lemma BlameIsFair(start: State, es: seq<Event>, s: State, shell: string, status: ShellStatus, exit: Option<int>, at: int)
    requires Booted(start) && Run(start, es, s)
    ensures var how := CauseOf(s.stopping, shell, status, exit, at).how;
            match how
            case Stopped(stopper) => exists i :: StopOf(s, i, shell, stopper)
            case Unloaded => exists u :: UnloadOf(s, u, shell)
            case Process(code) => status.ShellExited? && code == exit
            case External => !status.ShellExited?
    ensures (forall i, stopper :: !StopOf(s, i, shell, stopper)) && (forall u :: !UnloadOf(s, u, shell)) ==>
              shell !in s.stopping
  {
    hide StopOf, UnloadOf;
    RunMeant(start, es, s);
    assert shell in s.stopping ==> Meant(s, shell, s.stopping[shell]);
  }

  /** Each answer is so when it is given. */
  ghost predicate True(s: State, key: Key, answer: Answer) {
    match answer
    case NoServer => key !in s.dirs
    case NotRunning(e) => Get(s.dirs, key) == Some(e) && !Runs(s, e)
    case StoppedIt(e) => Get(s.dirs, key) == Some(e) && !Runs(s, e)
    case AlreadyRuns(e) => Get(s.dirs, key) == Some(e) && Runs(s, e)
    case CommandMissing => key in s.dirs ==> !Runs(s, s.dirs[key])
    case EndedEarly(e) => Get(s.dirs, key) == Some(e) && !Runs(s, e)
    case Started(e) => Get(s.dirs, key) == Some(e) && Runs(s, e)
    case Threw => true
  }

  lemma OpenIsTrue(s: State, i: nat)
    requires Inv(s) && Can(s, Begin(i))
    ensures var t := Step(s, Begin(i));
            t.jobs[i].pc.Answered? ==> True(t, s.jobs[i].key, t.jobs[i].pc.answer)
  {
    hide NameLock.Inv, EntryOk;
    assert DirOk(s, s.jobs[i].key);
  }

  lemma GoOnIsTrue(s: State, i: nat)
    requires Inv(s) && Active(s, i) && Waits(s, i)
    ensures |GoOn(s, i).jobs| == |s.jobs|
    ensures var t := GoOn(s, i);
            t.jobs[i].pc.Answered? ==> True(t, s.jobs[i].key, t.jobs[i].pc.answer)
  {
    hide NameLock.Inv, EntryOk, NameLock.Step;
    assert JobOk(s, i);
  }

  /** The operation a step is of. */
  function Moved(e: Event): Option<nat> {
    match e
    case Begin(i) => Some(i)
    case Resume(i) => Some(i)
    case Created(i, _, _) => Some(i)
    case CreateFailed(i) => Some(i)
    case Tick(i) => Some(i)
    case Removed(i, _) => Some(i)
    case _ => None
  }

  lemma OthersWait(s: State, e: Event, i: nat)
    requires Can(s, e) && i < |s.jobs| && Moved(e) != Some(i)
    ensures i < |Step(s, e).jobs| && Step(s, e).jobs[i] == s.jobs[i]
  {
    hide NameLock.Can, NameLock.Step, RunningIn, Shells, CauseOf, Open;
    if e.Begin? {
      OpenMovesOne(s, e.job);
    }
  }

  lemma OpenMovesOne(s: State, i: nat)
    requires Can(s, Begin(i))
    ensures SameJobsBut(s, Step(s, Begin(i)), i)
  {
  }

  lemma AnswersAreTrue(start: State, es: seq<Event>, s: State, ev: Event, i: nat)
    requires Booted(start) && Run(start, es, s) && Can(s, ev)
    requires i < |s.jobs| && !s.jobs[i].pc.Answered?
    ensures var t := Step(s, ev);
            i < |t.jobs| && (t.jobs[i].pc.Answered? ==> True(t, s.jobs[i].key, t.jobs[i].pc.answer))
  {
    hide Booted, Run, Inv;
    BootInv(start, es, s);
    AnswerIsTrue(s, ev, i);
  }

  lemma AnswerIsTrue(s: State, ev: Event, i: nat)
    requires Inv(s) && Can(s, ev) && i < |s.jobs| && !s.jobs[i].pc.Answered?
    ensures var t := Step(s, ev);
            i < |t.jobs| && (t.jobs[i].pc.Answered? ==> True(t, s.jobs[i].key, t.jobs[i].pc.answer))
  {
    hide Inv, Open, GoOn, NameLock.Step, RunningIn, Shells, CauseOf, EntryOk;
    if Moved(ev) != Some(i) {
      OthersWait(s, ev, i);
    } else {
      match ev
      case Begin(_) =>
        OpenMovesOne(s, i);
        OpenIsTrue(s, i);
      case Resume(_) => GoOnIsTrue(s, i);
      case Removed(_, at) => RemovedLeaves(s, i, at);
      case _ =>
    }
  }

  /** A server whose shell a re-check or an exit event found gone runs no more, in any
      run from there: no `start` takes it for running again. */
  lemma GoneForGood(start: State, before: seq<Event>, s: State, ev: Event, e: nat, after: seq<Event>, s': State)
    requires Booted(start) && Run(start, before, s) && Can(s, ev) && Run(Step(s, ev), after, s')
    requires ev.Exited? || (ev.RefreshEnd? && Gone(ev.info))
    requires e == if ev.Exited? then ev.entry else s.refreshes[ev.refresh].entry
    ensures e < |s'.entries| && !s'.entries[e].running && s'.entries[e].ended.Some?
    ensures forall next, i: nat :: Can(s', next) && i < |s'.jobs| && !s'.jobs[i].pc.Answered? ==>
              i < |Step(s', next).jobs| && Step(s', next).jobs[i].pc != Answered(AlreadyRuns(e))
              && Step(s', next).jobs[i].pc != Answered(Started(e))
  {
    hide Step, Can, Inv, Booted;
    var t := Step(s, ev);
    GoneNow(start, before, s, ev, e);
    RunLasts(t, after, s');
    RunInv(t, after, s');
    EndedIsEnded(s', e);
    forall next, i: nat | Can(s', next) && i < |s'.jobs| && !s'.jobs[i].pc.Answered?
      ensures i < |Step(s', next).jobs| && Step(s', next).jobs[i].pc != Answered(AlreadyRuns(e))
      ensures Step(s', next).jobs[i].pc != Answered(Started(e))
    {
      AnswerIsTrue(s', next, i);
      StepMoves(s', next);
    }
  }

  /** When an unload is over, every server that ran when it began has ended. */
  lemma UnloadEndsThem(start: State, es: seq<Event>, s: State, directory: string, during: seq<Event>, s': State, at: int)
    requires Booted(start) && Run(start, es, s)
    requires var began := Step(s, UnloadBegin(directory));
             Run(began, during, s') && Can(s', UnloadEnd(|s.unloads|, at))
    ensures var t := Step(s', UnloadEnd(|s.unloads|, at));
            forall e :: 0 <= e < |s.entries| && s.entries[e].running && s.entries[e].key.directory == directory ==>
                e < |t.entries| && !t.entries[e].running
  {
    hide NameLock.Step, NameLock.Inv, NameLock.Can;
    var began := Step(s, UnloadBegin(directory));
    BootInv(start, es, s);
    RunLasts(began, during, s');
    forall e | 0 <= e < |s.entries| && s.entries[e].running && s.entries[e].key.directory == directory
      ensures e in RunningIn(s, directory)
    {
      assert EntryOk(s, e);
      assert s.dirs[s.entries[e].key] == e;
    }
  }

  // ---- What each segment leads to ----

  /** All but this job, and these parts, stay. */
  ghost predicate SameBesides(s: State, t: State, i: nat) {
    && i < |s.jobs| && SameJobsBut(s, t, i)
    && t.jobs[i].key == s.jobs[i].key && t.jobs[i].ask == s.jobs[i].ask
    && t.unloads == s.unloads
  }

  /** A call is queued with what it asks for; a listing
      asks the shell of each server that runs, and neither changes a server. */
  lemma CallTells(s: State, key: Key, ask: Ask, e: nat)
    requires Inv(s)
    ensures var t := Step(s, Call(key, ask));
            t == s.(lock := t.lock, jobs := s.jobs + [Job(key, ask, Called)])
    ensures Can(s, RefreshBegin(e)) ==>
              && Step(s, RefreshBegin(e)).refreshes == s.refreshes + (if s.entries[e].running then [Refresh(e, Awaiting)] else [])
              && Step(s, RefreshBegin(e)) == s.(refreshes := Step(s, RefreshBegin(e)).refreshes)
  {
    hide NameLock.Step, NameLock.Inv;
    assert s.refreshes + [] == s.refreshes;
  }

  /** The first segment: a `start` re-checks a server that runs, and else creates one when
      it was given a command; a `stop` re-checks the server there is. */
  lemma BeginTells(s: State, i: nat)
    requires Inv(s) && Can(s, Begin(i))
    ensures var t, job, found := Step(s, Begin(i)), s.jobs[i], Get(s.dirs, s.jobs[i].key);
            var asks := found.Some? && Runs(s, found.value);
            && SameBesides(s, t, i) && t.entries == s.entries && t.dirs == s.dirs && t.stopping == s.stopping
            && (if asks then t.refreshes == s.refreshes + [Refresh(found.value, Awaiting)] else t.refreshes == s.refreshes)
            && match job.ask
               case Start(command) =>
                 t.jobs[i].pc == if asks then StartChecking(found.value, Some(|s.refreshes|))
                                 else if command.None? then Answered(CommandMissing) else Creating
               case Stop(_) =>
                 t.jobs[i].pc == if found.None? then Answered(NoServer)
                                 else StopChecking(found.value, if asks then Some(|s.refreshes|) else None)
  {
    hide NameLock.Step, NameLock.Inv, JobOk, EntryOk;
    assert DirOk(s, s.jobs[i].key);
  }

  /** The re-check a job waited for failed. */
  predicate Unheard(s: State, refresh: Option<nat>) {
    refresh.Some? && refresh.value < |s.refreshes| && s.refreshes[refresh.value] == Refresh(s.refreshes[refresh.value].entry, Failed)
  }

  /** The segments behind a re-check, by what the entry is by then: a `start` finds its
      server running still or goes on to create one; a `stop` finds it ended or goes on
      to remove it, and leaves its word; a new server is looked at until it has run for
      the time it is given. */
  lemma ResumeTells(s: State, i: nat)
    requires Inv(s) && Can(s, Resume(i))
    ensures var t, job := Step(s, Resume(i)), s.jobs[i];
            && SameBesides(s, t, i) && t.entries == s.entries && t.dirs == s.dirs && t.refreshes == s.refreshes
            && match job.pc
               case StartChecking(e, r) =>
                 && t.stopping == s.stopping
                 && t.jobs[i].pc == if Unheard(s, r) then Answered(Threw)
                                    else if s.entries[e].running then Answered(AlreadyRuns(e))
                                    else if job.ask.command.None? then Answered(CommandMissing) else Creating
               case StopChecking(e, r) =>
                 if !s.entries[e].running then t.jobs[i].pc == Answered(NotRunning(e)) && t.stopping == s.stopping
                 else
                   && t.jobs[i].pc == Removing(e)
                   && t.stopping == s.stopping[s.entries[e].shell := Stopped(job.ask.stopper)]
               case Watching(e, waited, r) =>
                 && t.stopping == s.stopping
                 && t.jobs[i].pc == if Unheard(s, r) then Answered(Threw)
                                    else if !s.entries[e].running then Answered(EndedEarly(e))
                                    else if waited < 1750 then Sleeping(e, waited + 250) else Answered(Started(e))
               case _ => true
  {
    hide NameLock.Step, NameLock.Inv, EntryOk;
    assert JobOk(s, i);
  }

  /** A shell that was created has its running server, under its name, and is looked at
      from then on. */
  lemma CreatedTells(s: State, i: nat, shell: string, pid: Option<int>)
    requires Inv(s) && Can(s, Created(i, shell, pid))
    ensures var t, job, n := Step(s, Created(i, shell, pid)), s.jobs[i], |s.entries|;
            && SameBesides(s, t, i) && t.refreshes == s.refreshes && t.stopping == s.stopping
            && t.entries == s.entries + [Entry(job.key, shell, pid, job.ask.command.value, true, None)]
            && t.dirs == s.dirs[job.key := n] && t.jobs[i].pc == Sleeping(n, 0)
    ensures Can(s, CreateFailed(i)) && Step(s, CreateFailed(i)).jobs[i].pc == Answered(Threw)
    ensures Step(s, CreateFailed(i)).entries == s.entries && Step(s, CreateFailed(i)).dirs == s.dirs
  {
    hide NameLock.Step, NameLock.Inv;
  }

  /** A look asks the shell of a server that runs, and only then. */
  lemma TickTells(s: State, i: nat)
    requires Inv(s) && Can(s, Tick(i))
    ensures var t, e := Step(s, Tick(i)), s.jobs[i].pc.entry;
            && SameBesides(s, t, i) && t.entries == s.entries && t.dirs == s.dirs && t.stopping == s.stopping
            && t.refreshes == s.refreshes + (if s.entries[e].running then [Refresh(e, Awaiting)] else [])
            && t.jobs[i].pc == Watching(e, s.jobs[i].pc.waited, if s.entries[e].running then Some(|s.refreshes|) else None)
  {
    hide NameLock.Step, NameLock.Inv;
    assert s.refreshes + [] == s.refreshes;
  }

  /** The shells of the servers an unload is of. */
  ghost predicate ShellOf(s: State, mine: set<nat>, shell: string) {
    exists e: nat :: e in mine && e < |s.entries| && s.entries[e].shell == shell
  }

  lemma ShellsAre(s: State, mine: set<nat>, shell: string)
    ensures shell in Shells(s.entries, mine) <==> ShellOf(s, mine, shell)
  {
  }

  /** An unload is of the servers that run in its directory when it begins, and leaves its
      word for their shells. */
  lemma UnloadBeginTells(s: State, directory: string)
    requires Inv(s)
    ensures var t := Step(s, UnloadBegin(directory));
            && t == s.(stopping := t.stopping, unloads := t.unloads)
            && |t.unloads| == |s.unloads| + 1 && t.unloads[..|s.unloads|] == s.unloads && !t.unloads[|s.unloads|].over
            && var mine := t.unloads[|s.unloads|].mine;
               && (forall e: nat :: e in mine <==> Runs(s, e) && s.entries[e].key.directory == directory)
               && (forall shell :: ShellOf(s, mine, shell) ==> shell in t.stopping && t.stopping[shell] == Unloaded)
               && (forall shell :: !ShellOf(s, mine, shell) ==> Get(t.stopping, shell) == Get(s.stopping, shell))
  {
    hide LockOk, JobOk, Shells;
    var t := Step(s, UnloadBegin(directory));
    var mine := t.unloads[|s.unloads|].mine;
    forall e: nat
      ensures e in mine <==> Runs(s, e) && s.entries[e].key.directory == directory
    {
      UnloadsRunning(s, directory, e);
    }
    forall shell
      ensures shell in Shells(s.entries, mine) <==> ShellOf(s, mine, shell)
    {
      ShellsAre(s, mine, shell);
    }
  }

  lemma UnloadsRunning(s: State, directory: string, e: nat)
    requires Inv(s)
    ensures e in RunningIn(s, directory) <==> Runs(s, e) && s.entries[e].key.directory == directory
  {
    hide LockOk, JobOk;
    if Runs(s, e) {
      assert EntryOk(s, e);
      assert s.dirs[s.entries[e].key] == e;
    }
    if e in RunningIn(s, directory) {
      var key :| key in s.dirs && key.directory == directory && s.dirs[key] == e;
      assert DirOk(s, key);
    }
  }

  /** When it is over its word is taken back, and its servers that still run end as
      unloaded; when it failed only the word is. */
  lemma UnloadEndTells(s: State, u: nat, at: int)
    requires Can(s, UnloadEnd(u, at))
    ensures var t, mine := Step(s, UnloadEnd(u, at)), s.unloads[u].mine;
            && t == s.(entries := t.entries, stopping := t.stopping, unloads := s.unloads[u := Unload(mine, true)])
            && |t.entries| == |s.entries|
            && (forall e: nat :: e < |s.entries| ==>
                  if e in mine && s.entries[e].running then
                    var a := s.entries[e];
                    t.entries[e] == Entry(a.key, a.shell, a.pid, a.command, false, Some(Cause(at, Unloaded)))
                  else t.entries[e] == s.entries[e])
            && (forall shell :: Get(t.stopping, shell) == if ShellOf(s, mine, shell) then None else Get(s.stopping, shell))
    ensures var t := Step(s, UnloadFailed(u));
            t.entries == s.entries && t.stopping == Step(s, UnloadEnd(u, at)).stopping && t.unloads[u].over
  {
    hide Shells;
    forall shell
      ensures shell in Shells(s.entries, s.unloads[u].mine) <==> ShellOf(s, s.unloads[u].mine, shell)
    {
      ShellsAre(s, s.unloads[u].mine, shell);
    }
  }

  // ---- The trap of the unguarded re-check ----

  lemma {:induction false} Then(s: State, es: seq<Event>, mid: State, e: Event) returns (es': seq<Event>)
    requires Run(s, es, mid) && Can(mid, e)
    ensures Run(s, es', Step(mid, e))
    decreases |es|
  {
    hide Can, Step;
    if es == [] {
      es' := [e];
      assert es'[1..] == [];
    } else {
      var rest := Then(Step(s, es[0]), es[1..], mid, e);
      es' := [es[0]] + rest;
      assert es'[1..] == rest;
    }
  }

  const Web := Key("/p", "web")
  const Server := Entry(Web, "sh", None, "dev", true, None)
  const Asked2 := [Refresh(0, Awaiting), Refresh(0, Awaiting)]
  const Fine2 := [Refresh(0, Awaiting), Refresh(0, Fine)]
  const OneServer := State(NameLock.Free, [], [Server], map[Web := 0], map[], [], [])

  function StopOp(phase: NameLock.Phase): NameLock.Lock {
    NameLock.Lock([NameLock.Op(LockKey(Web), None, phase)], map[LockKey(Web) := 0])
  }

  function StopJob(pc: Pc): seq<Job> { [Job(Web, Stop(ByUser), pc)] }

  const Called1 := State(StopOp(NameLock.Waiting), StopJob(Called), [Server], map[Web := 0], map[],
                         [Refresh(0, Awaiting)], [])
  const Checking1 := State(StopOp(NameLock.Running), StopJob(StopChecking(0, Some(1))), [Server], map[Web := 0], map[],
                           Asked2, [])
  const Removing1 := State(StopOp(NameLock.Running), StopJob(Removing(0)), [Server], map[Web := 0],
                           map["sh" := Stopped(ByUser)], Fine2, [])
  const Stopped1 := State(StopOp(NameLock.Settled), StopJob(Answered(StoppedIt(0))),
                          [End(Server, Cause(1, Stopped(ByUser)))], map[Web := 0], map[], Fine2, [])

  lemma UntilCalled() returns (es: seq<Event>)
    ensures Run(OneServer, es, Called1)
  {
    var asked := OneServer.(refreshes := [Refresh(0, Awaiting)]);
    es := Then(OneServer, [], OneServer, RefreshBegin(0));
    assert Step(OneServer, RefreshBegin(0)) == asked;
    es := Then(OneServer, es, asked, Call(Web, Stop(ByUser)));
    assert Step(asked, Call(Web, Stop(ByUser))) == Called1;
  }

  lemma UntilChecking() returns (es: seq<Event>)
    ensures Run(OneServer, es, Checking1)
  {
    es := UntilCalled();
    es := Then(OneServer, es, Called1, Begin(0));
    assert Step(Called1, Begin(0)) == Checking1;
  }

  lemma UntilRemoving() returns (es: seq<Event>)
    ensures Run(OneServer, es, Removing1)
  {
    es := UntilChecking();
    var heard := Shell(ShellRunning, None, None);
    es := Then(OneServer, es, Checking1, RefreshEnd(1, heard, 0));
    assert Step(Checking1, RefreshEnd(1, heard, 0)) == Checking1.(refreshes := Fine2);
    es := Then(OneServer, es, Checking1.(refreshes := Fine2), Resume(0));
    assert Step(Checking1.(refreshes := Fine2), Resume(0)) == Removing1;
  }

  lemma UntilStopped() returns (es: seq<Event>)
    ensures Run(OneServer, es, Stopped1)
  {
    es := UntilRemoving();
    es := Then(OneServer, es, Removing1, Removed(0, 1));
    assert Step(Removing1, Removed(0, 1)) == Stopped1;
  }

  /** A re-check that asked before the stop writes its own cause over the stop's: after
      "Stopped", the server reads as killed from outside. */
  lemma RecheckOverStop() returns (es: seq<Event>, s: State)
    ensures Booted(OneServer) && Run(OneServer, es, s)
    ensures s.jobs == StopJob(Answered(StoppedIt(0))) && s.entries == [End(Server, Cause(2, External))]
  {
    es := UntilStopped();
    es := Then(OneServer, es, Stopped1, RefreshEnd(0, NoShell, 2));
    s := Step(Stopped1, RefreshEnd(0, NoShell, 2));
  }

  // ---- The state file ----

  /** The last running entry of a name in the file. */
  function Latest(saved: seq<Entry>, key: Key): Option<Entry> {
    if saved == [] then None
    else
      var last := saved[|saved| - 1];
      if last.running && last.key == key then Some(last) else Latest(saved[..|saved| - 1], key)
  }

  function Showing(s: State, key: Key): Option<Entry> {
    if key in s.dirs && s.dirs[key] < |s.entries| then Some(s.entries[s.dirs[key]]) else None
  }

  /** `save` writes the entries the names show, in some order. */
  ghost predicate Saves(s: State, saved: seq<Entry>) {
    && (forall key :: key in s.dirs ==> Showing(s, key).Some? && Showing(s, key).value in saved)
    && (forall entry :: entry in saved ==> Showing(s, entry.key) == Some(entry))
  }

  lemma {:induction false} LatestIs(saved: seq<Entry>, key: Key, shown: Option<Entry>)
    requires forall entry :: entry in saved && entry.key == key ==> shown == Some(entry)
    requires shown.Some? && shown.value.running ==> shown.value in saved && shown.value.key == key
    ensures Latest(saved, key) == if shown.Some? && shown.value.running && shown.value.key == key then shown else None
  {
    if saved != [] {
      var n := |saved| - 1;
      var last := saved[n];
      assert last in saved;
      if !(last.running && last.key == key) {
        assert saved == saved[..n] + [last];
        LatestIs(saved[..n], key, shown);
      }
    }
  }

  /** What a restart brings back are the servers that ran, each under its name. */
  lemma RestartKeepsRunning(start: State, es: seq<Event>, s: State, saved: seq<Entry>, key: Key)
    requires Booted(start) && Run(start, es, s) && Saves(s, saved)
    ensures Latest(saved, key)
            == if Showing(s, key).Some? && Showing(s, key).value.running then Showing(s, key) else None
    ensures forall e :: 0 <= e < |s.entries| && s.entries[e].running ==> Latest(saved, s.entries[e].key) == Some(s.entries[e])
  {
    hide Run, Booted, LockOk, JobOk;
    BootInv(start, es, s);
    SavedLatest(s, saved, key);
    forall e | 0 <= e < |s.entries| && s.entries[e].running
      ensures Latest(saved, s.entries[e].key) == Some(s.entries[e])
    {
      assert EntryOk(s, e);
      SavedLatest(s, saved, s.entries[e].key);
    }
  }

  lemma SavedLatest(s: State, saved: seq<Entry>, key: Key)
    requires Saves(s, saved) && DirOk(s, key)
    ensures Latest(saved, key)
            == if Showing(s, key).Some? && Showing(s, key).value.running then Showing(s, key) else None
  {
    LatestIs(saved, key, Showing(s, key));
  }

  // ---- The registry itself ----

  class PreviewRegistry {
    var ops: seq<NameLock.Op>
    var locks: map<string, nat>
    var jobs: seq<Job>
    var entries: seq<Entry>
    var dirs: map<Key, nat>
    var stopping: map<string, How>
    var refreshes: seq<Refresh>
    var unloads: seq<Unload>

    function View(): State
      reads this
    {
      State(NameLock.Lock(ops, locks), jobs, entries, dirs, stopping, refreshes, unloads)
    }

    /** `load`: the running entries of the state file, each one as `save` wrote it. */
    constructor (saved: seq<Entry>)
      requires forall entry :: entry in saved ==> (entry.running <==> entry.ended.None?)
      ensures Booted(View())
      ensures forall key :: Showing(View(), key) == Latest(saved, key)
    {
      ops, locks, jobs, entries, dirs := [], map[], [], [], map[];
      stopping, refreshes, unloads := map[], [], [];
      new;
      for i := 0 to |saved|
        modifies `entries, `dirs
        invariant forall e :: 0 <= e < |entries| ==> entries[e].running && EntryOk(View(), e)
        invariant forall key :: DirOk(View(), key)
        invariant forall key :: Showing(View(), key) == Latest(saved[..i], key)
      {
        assert saved[..i + 1][..i] == saved[..i];
        var entry := saved[i];
        if entry.running {
          label Before:
          assert DirOk(View(), entry.key);
          if entry.key in dirs {
            entries := entries[dirs[entry.key] := entry];
          } else {
            entries, dirs := entries + [entry], dirs[entry.key := |entries|];
          }
          forall key
            ensures DirOk(View(), key) && Showing(View(), key) == Latest(saved[..i + 1], key)
          {
            assert old@Before(DirOk(View(), key) && Showing(View(), key) == Latest(saved[..i], key));
          }
        }
      }
      assert saved[..|saved|] == saved;
    }

    /** `locked` */
    method Locked(key: Key, ask: Ask) returns (i: nat)
      modifies this
      ensures View() == Step(old(View()), Call(key, ask)) && i == |old(jobs)|
    {
      var k := LockKey(key);
      i := |jobs|;
      ops := ops + [NameLock.Op(k, NameLock.Get(locks, k), NameLock.Waiting)];
      locks := locks[k := |ops| - 1];
      jobs := jobs + [Job(key, ask, Called)];
    }

    method Reply(i: nat, answer: Answer)
      requires i < |jobs| && NameLock.Can(View().lock, NameLock.Settle(i))
      modifies `ops, `jobs
      ensures View() == Settle(old(View()), i, answer)
    {
      ops := ops[i := ops[i].(phase := NameLock.Settled)];
      jobs := jobs[i := jobs[i].(pc := Answered(answer))];
    }

    /** What runs when the lock's `tail` settles. */
    method Unlock(i: nat)
      requires Can(View(), CleanUp(i))
      modifies `locks
      ensures View() == Step(old(View()), CleanUp(i))
    {
      var key := ops[i].key;
      if key in locks && locks[key] == i {
        locks := locks - {key};
      }
    }

    method WaitAt(i: nat, pc: Pc)
      requires i < |jobs|
      modifies `jobs
      ensures View() == SetPc(old(View()), i, pc)
    {
      jobs := jobs[i := jobs[i].(pc := pc)];
    }

    /** `refresh`, up to its await. */
    method Recheck(e: nat) returns (r: Option<nat>)
      requires e < |entries|
      modifies `refreshes
      ensures View() == AskShell(old(View()), e) && r == AskedAs(old(View()), e)
    {
      if !entries[e].running {
        return None;
      }
      r, refreshes := Some(|refreshes|), refreshes + [Refresh(e, Awaiting)];
    }

    /** `startLocked` behind its check, up to the create. */
    method AfterCheck(i: nat, existing: Option<nat>)
      requires i < |jobs| && jobs[i].ask.Start? && NameLock.Can(View().lock, NameLock.Settle(i))
      modifies this
      ensures View() == PastCheck(old(View()), i, existing)
    {
      if existing.Some? && existing.value < |entries| && entries[existing.value].running {
        Reply(i, AlreadyRuns(existing.value));
      } else if jobs[i].ask.command.None? {
        Reply(i, CommandMissing);
      } else {
        WaitAt(i, Creating);
      }
    }

    /** The first segment of `startLocked` or of `stop`. */
    method Enter(i: nat)
      requires Can(View(), Begin(i))
      modifies this
      ensures View() == Step(old(View()), Begin(i))
    {
      ops := ops[i := ops[i].(phase := NameLock.Running)];
      var key := jobs[i].key;
      if jobs[i].ask.Start? {
        if key in dirs && entries[dirs[key]].running {
          var r := Recheck(dirs[key]);
          WaitAt(i, StartChecking(dirs[key], r));
        } else {
          AfterCheck(i, Get(dirs, key));
        }
      } else if key !in dirs {
        Reply(i, NoServer);
      } else {
        var r := Recheck(dirs[key]);
        WaitAt(i, StopChecking(dirs[key], r));
      }
    }

    /** The segment behind an awaited re-check. */
    method Proceed(i: nat)
      requires Can(View(), Resume(i))
      modifies this
      ensures View() == Step(old(View()), Resume(i))
    {
      match jobs[i].pc
      case StartChecking(e, r) =>
        if ItThrew(View(), r) {
          Reply(i, Threw);
        } else {
          AfterCheck(i, Some(e));
        }
      case StopChecking(e, r) =>
        if !entries[e].running {
          Reply(i, NotRunning(e));
        } else {
          stopping := stopping[entries[e].shell := Stopped(jobs[i].ask.stopper)];
          WaitAt(i, Removing(e));
        }
      case Watching(e, waited, r) =>
        if ItThrew(View(), r) {
          Reply(i, Threw);
        } else if !entries[e].running {
          Reply(i, EndedEarly(e));
        } else if waited + POLL_MS < START_WAIT_MS {
          WaitAt(i, Sleeping(e, waited + POLL_MS));
        } else {
          Reply(i, Started(e));
        }
    }

    /** The segment behind `create`. */
    method Enlist(i: nat, shell: string, pid: Option<int>)
      requires Can(View(), Created(i, shell, pid))
      modifies this
      ensures View() == Step(old(View()), Created(i, shell, pid))
    {
      var job := jobs[i];
      entries := entries + [Entry(job.key, shell, pid, job.ask.command.value, true, None)];
      dirs := dirs[job.key := |entries| - 1];
      WaitAt(i, Sleeping(|entries| - 1, 0));
    }

    method Wake(i: nat)
      requires Can(View(), Tick(i))
      modifies this
      ensures View() == Step(old(View()), Tick(i))
    {
      var pc := jobs[i].pc;
      var r := Recheck(pc.entry);
      WaitAt(i, Watching(pc.entry, pc.waited, r));
    }

    method Finish(e: nat, cause: Cause)
      requires e < |entries|
      modifies `entries
      ensures entries == old(entries)[e := End(old(entries)[e], cause)]
    {
      entries := entries[e := entries[e].(running := false, ended := Some(cause))];
    }

    /** The last segment of `stop`. */
    method FinishStop(i: nat, at: int)
      requires Can(View(), Removed(i, at))
      modifies this
      ensures View() == Step(old(View()), Removed(i, at))
    {
      var e := jobs[i].pc.entry;
      stopping := stopping - {entries[e].shell};
      Finish(e, Cause(at, Stopped(jobs[i].ask.stopper)));
      Reply(i, StoppedIt(e));
    }

    /** `refresh` behind its await. */
    method Heard(r: nat, info: Info, at: int)
      requires Can(View(), RefreshEnd(r, info, at))
      modifies this
      ensures View() == Step(old(View()), RefreshEnd(r, info, at))
    {
      var e := refreshes[r].entry;
      refreshes := refreshes[r := Refresh(e, if info.NoAnswer? then Failed else Fine)];
      if info.NoAnswer? {
        return;
      }
      if info.NoShell? || !info.status.ShellRunning? {
        var status, exit := if info.NoShell? then ShellKilled else info.status, if info.NoShell? then None else info.exit;
        Finish(e, CauseOf(stopping, entries[e].shell, status, exit, at));
      } else if entries[e].pid.None? && info.pid.Some? {
        entries := entries[e := entries[e].(pid := info.pid)];
      }
    }

    /** `shellExited`: the first running server of the shell ends. */
    method ShellExited(shell: string, status: ShellStatus, exit: Option<int>, at: int) returns (e: Option<nat>)
      modifies `entries
      ensures e.Some? ==> && Shown(old(View()), e.value) && old(entries)[e.value].running
                          && old(entries)[e.value].shell == shell
                          && View() == Step(old(View()), Exited(e.value, status, exit, at))
      ensures e.None? ==> View() == old(View())
                          && forall d :: 0 <= d < |entries| && Shown(View(), d) && entries[d].running ==> entries[d].shell != shell
    {
      for d := 0 to |entries|
        invariant View() == old(View())
        invariant forall c :: 0 <= c < d && Shown(View(), c) && entries[c].running ==> entries[c].shell != shell
      {
        if entries[d].key in dirs && dirs[entries[d].key] == d && entries[d].shell == shell && entries[d].running {
          Finish(d, CauseOf(stopping, shell, status, exit, at));
          return Some(d);
        }
      }
      return None;
    }

    /** `unloaded`, up to its first await. */
    method BeginUnload(directory: string) returns (u: nat)
      modifies `stopping, `unloads
      ensures View() == Step(old(View()), UnloadBegin(directory)) && u == |old(unloads)|
    {
      var mine := RunningIn(View(), directory);
      var shells := Shells(entries, mine);
      u := |unloads|;
      unloads := unloads + [Unload(mine, false)];
      stopping := map shell | shell in stopping.Keys + shells ::
        if shell in shells then Unloaded else stopping[shell];
    }

    /** Its `finally`, and the end of what still runs. */
    method EndUnload(u: nat, at: int)
      requires Can(View(), UnloadEnd(u, at))
      modifies `entries, `stopping, `unloads
      ensures View() == Step(old(View()), UnloadEnd(u, at))
    {
      var mine := unloads[u].mine;
      stopping := stopping - Shells(entries, mine);
      unloads := unloads[u := Unload(mine, true)];
      for e := 0 to |entries|
        modifies `entries
        invariant |entries| == |old(entries)|
        invariant entries[e..] == old(entries)[e..]
        invariant entries[..e] == EndAll(old(entries), mine, at)[..e]
      {
        if e in mine && entries[e].running {
          Finish(e, Cause(at, Unloaded));
        }
      }
    }
  }
}
