/**
 The end of an unloaded project's processes (`PreviewRegistry.unloaded`): let go,
 wait for them to exit, SIGTERM, wait, SIGKILL.

 `alive` is the world: whether a process is there when the n-th thing happens.
 */
module Unload {
  import opened Wrappers

  type Pid = int

  datatype Event = Release | Look(pid: Pid, there: bool) | Sleep | Term(pid: Pid) | Kill(pid: Pid)

  type Log = seq<Event>
  type World = (nat, Pid) -> bool

  const POLL_MS := 250
  const UNLOAD_EXIT_MS := 3000
  const UNLOAD_TERM_MS := 2000

  /** The polls a wait of so long has. */
  function Polls(ms: nat): nat { (ms + POLL_MS - 1) / POLL_MS }

  // ---- What happens, in order ----

  /** `pids.some(alive)` from the `at`-th event on: it looks until one is there. */
  function AnyThere(at: nat, pids: seq<Pid>, alive: World): Log
    decreases |pids|
  {
    if pids == [] then []
    else
      [Look(pids[0], alive(at, pids[0]))]
      + if alive(at, pids[0]) then [] else AnyThere(at + 1, pids[1..], alive)
  }

  predicate Found(looks: Log) { looks != [] && looks[|looks| - 1].Look? && looks[|looks| - 1].there }

  /** `pids.filter(alive)` looks at all of them. */
  function EachLook(at: nat, pids: seq<Pid>, alive: World): Log
    decreases |pids|
  {
    if pids == [] then [] else [Look(pids[0], alive(at, pids[0]))] + EachLook(at + 1, pids[1..], alive)
  }

  function There(at: nat, pids: seq<Pid>, alive: World): seq<Pid>
    decreases |pids|
  {
    if pids == [] then []
    else (if alive(at, pids[0]) then [pids[0]] else []) + There(at + 1, pids[1..], alive)
  }

  /** `left`, with `n` polls to go. */
  function Wait(at: nat, pids: seq<Pid>, n: nat, alive: World): Log
    decreases n
  {
    if n == 0 then EachLook(at, pids, alive)
    else
      var looks := AnyThere(at, pids, alive);
      if !Found(looks) then looks else looks + [Sleep] + Wait(at + |looks| + 1, pids, n - 1, alive)
  }

  function Left(at: nat, pids: seq<Pid>, n: nat, alive: World): seq<Pid>
    decreases n
  {
    if n == 0 then There(at, pids, alive)
    else
      var looks := AnyThere(at, pids, alive);
      if !Found(looks) then [] else Left(at + |looks| + 1, pids, n - 1, alive)
  }

  function Terms(pids: seq<Pid>): (r: Log)
    ensures |r| == |pids| && forall i :: 0 <= i < |r| ==> r[i] == Term(pids[i])
  {
    if pids == [] then [] else [Term(pids[0])] + Terms(pids[1..])
  }

  function Kills(pids: seq<Pid>): (r: Log)
    ensures |r| == |pids| && forall i :: 0 <= i < |r| ==> r[i] == Kill(pids[i])
  {
    if pids == [] then [] else [Kill(pids[0])] + Kills(pids[1..])
  }

  /** Everything up to the wait for SIGTERM, and what is left then. */
  function FirstWait(pids: seq<Pid>, alive: World): Log { Wait(1, pids, Polls(UNLOAD_EXIT_MS), alive) }

  function FirstLeft(pids: seq<Pid>, alive: World): seq<Pid> { Left(1, pids, Polls(UNLOAD_EXIT_MS), alive) }

  function SecondAt(pids: seq<Pid>, alive: World): nat { 1 + |FirstWait(pids, alive)| + |FirstLeft(pids, alive)| }

  function SecondWait(pids: seq<Pid>, alive: World): Log {
    Wait(SecondAt(pids, alive), pids, Polls(UNLOAD_TERM_MS), alive)
  }

  function SecondLeft(pids: seq<Pid>, alive: World): seq<Pid> {
    Left(SecondAt(pids, alive), pids, Polls(UNLOAD_TERM_MS), alive)
  }

  function Unloading(pids: seq<Pid>, alive: World): Log {
    if FirstLeft(pids, alive) == [] then [Release] + FirstWait(pids, alive)
    else
      [Release] + FirstWait(pids, alive) + Terms(FirstLeft(pids, alive))
      + SecondWait(pids, alive) + Kills(SecondLeft(pids, alive))
  }

  // ---- The code ----

  lemma AnyStep(log: Log, pids: seq<Pid>, alive: World)
    requires pids != []
    ensures var there := alive(|log|, pids[0]);
            var more := log + [Look(pids[0], there)];
            if there then log + AnyThere(|log|, pids, alive) == more && Found(AnyThere(|log|, pids, alive))
            else
              log + AnyThere(|log|, pids, alive) == more + AnyThere(|more|, pids[1..], alive)
              && Found(AnyThere(|log|, pids, alive)) == Found(AnyThere(|more|, pids[1..], alive))
  {
    hide Found;
    var looks := AnyThere(|log| + 1, pids[1..], alive);
    FoundBehind(pids[0], looks);
    AnyThereFirst(|log|, pids, alive);
    hide AnyThere;
    assert log + ([Look(pids[0], false)] + looks) == log + [Look(pids[0], false)] + looks;
  }

  lemma AnyThereFirst(at: nat, pids: seq<Pid>, alive: World)
    requires pids != []
    ensures AnyThere(at, pids, alive)
            == if alive(at, pids[0]) then [Look(pids[0], true)]
               else [Look(pids[0], false)] + AnyThere(at + 1, pids[1..], alive)
  {
  }

  lemma FoundBehind(pid: Pid, looks: Log)
    ensures Found([Look(pid, false)] + looks) == Found(looks)
    ensures Found([Look(pid, true)])
  {
  }

  method AnyAlive(log: Log, pids: seq<Pid>, alive: World) returns (more: Log, found: bool)
    ensures more == log + AnyThere(|log|, pids, alive) && found == Found(AnyThere(|log|, pids, alive))
  {
    more := log;
    assert pids[0..] == pids;
    for i := 0 to |pids|
      invariant log + AnyThere(|log|, pids, alive) == more + AnyThere(|more|, pids[i..], alive)
      invariant Found(AnyThere(|log|, pids, alive)) == Found(AnyThere(|more|, pids[i..], alive))
    {
      hide AnyThere, Found;
      AnyStep(more, pids[i..], alive);
      assert pids[i..][1..] == pids[i + 1..];
      var there := alive(|more|, pids[i]);
      more := more + [Look(pids[i], there)];
      if there {
        return more, true;
      }
    }
    return more, false;
  }

  method AllAlive(log: Log, pids: seq<Pid>, alive: World) returns (more: Log, rest: seq<Pid>)
    ensures more == log + EachLook(|log|, pids, alive) && rest == There(|log|, pids, alive)
  {
    more, rest := log, [];
    for i := 0 to |pids|
      invariant |more| == |log| + i
      invariant log + EachLook(|log|, pids, alive) == more + EachLook(|more|, pids[i..], alive)
      invariant There(|log|, pids, alive) == rest + There(|more|, pids[i..], alive)
    {
      assert pids[i..][1..] == pids[i + 1..];
      var there := alive(|more|, pids[i]);
      more := more + [Look(pids[i], there)];
      if there {
        rest := rest + [pids[i]];
      }
    }
  }

  lemma WaitStep(log: Log, pids: seq<Pid>, n: nat, alive: World)
    requires n > 0
    ensures var looked := log + AnyThere(|log|, pids, alive);
            var more := looked + [Sleep];
            if Found(AnyThere(|log|, pids, alive)) then
              log + Wait(|log|, pids, n, alive) == more + Wait(|more|, pids, n - 1, alive)
              && Left(|log|, pids, n, alive) == Left(|more|, pids, n - 1, alive)
            else log + Wait(|log|, pids, n, alive) == looked && Left(|log|, pids, n, alive) == []
  {
    hide AnyThere, Found;
    var looks := AnyThere(|log|, pids, alive);
    var more := log + looks + [Sleep];
    assert |more| == |log| + |looks| + 1;
    assert more + Wait(|more|, pids, n - 1, alive) == log + (looks + [Sleep] + Wait(|more|, pids, n - 1, alive));
  }

  /** `left` */
  method WaitForExit(log: Log, pids: seq<Pid>, ms: nat, alive: World) returns (more: Log, rest: seq<Pid>)
    ensures more == log + Wait(|log|, pids, Polls(ms), alive) && rest == Left(|log|, pids, Polls(ms), alive)
  {
    more := log;
    var t := 0;
    ghost var n := 0;
    while t < ms
      invariant t == n * POLL_MS && n <= Polls(ms)
      invariant log + Wait(|log|, pids, Polls(ms), alive) == more + Wait(|more|, pids, Polls(ms) - n, alive)
      invariant Left(|log|, pids, Polls(ms), alive) == Left(|more|, pids, Polls(ms) - n, alive)
    {
      hide Wait, Left, AnyThere, Found;
      WaitStep(more, pids, Polls(ms) - n, alive);
      var looked, found := AnyAlive(more, pids, alive);
      if !found {
        return looked, [];
      }
      more := looked + [Sleep];
      t, n := t + POLL_MS, n + 1;
    }
    more, rest := AllAlive(more, pids, alive);
  }

  /** `unloaded`, from the tree on: `tree` is missing when reading it failed. */
  method Unloaded(roots: seq<Pid>, tree: Option<seq<Pid>>, alive: World) returns (log: Log)
    ensures log == Unloading(if tree.Some? then tree.value else roots, alive)
  {
    hide Wait, Left, Polls;
    var pids := if tree.Some? then tree.value else roots;
    log := [Release];
    var rest: seq<Pid>;
    log, rest := WaitForExit(log, pids, UNLOAD_EXIT_MS, alive);
    if |rest| > 0 {
      log := log + Terms(rest);
      assert |log| == SecondAt(pids, alive);
      log, rest := WaitForExit(log, pids, UNLOAD_TERM_MS, alive);
      log := log + Kills(rest);
    }
  }

  // ---- What that comes to ----

  function Sleeps(log: Log): nat {
    if log == [] then 0 else Sleeps(log[..|log| - 1]) + if log[|log| - 1].Sleep? then 1 else 0
  }

  /** What the last look at a process saw. */
  function LastLook(log: Log, pid: Pid): Option<bool> {
    if log == [] then None
    else
      var last := log[|log| - 1];
      if last.Look? && last.pid == pid then Some(last.there) else LastLook(log[..|log| - 1], pid)
  }

  lemma {:induction false} SleepsJoin(a: Log, b: Log)
    ensures Sleeps(a + b) == Sleeps(a) + Sleeps(b)
  {
    if b == [] {
      assert a + b == a;
    } else {
      SleepsJoin(a, b[..|b| - 1]);
      assert (a + b)[..|a + b| - 1] == a + b[..|b| - 1];
    }
  }

  lemma {:induction false} LastLookJoin(a: Log, b: Log, pid: Pid)
    ensures LastLook(a + b, pid) == if LastLook(b, pid).Some? then LastLook(b, pid) else LastLook(a, pid)
  {
    if b == [] {
      assert a + b == a;
    } else {
      LastLookJoin(a, b[..|b| - 1], pid);
      assert (a + b)[..|a + b| - 1] == a + b[..|b| - 1];
    }
  }

  /** Nothing but looks at the captured processes and, in a wait, sleeps. */
  predicate Quiet(log: Log, pids: seq<Pid>) {
    forall e :: e in log ==> (e.Look? && e.pid in pids) || e.Sleep?
  }

  lemma {:induction false} NoSignals(log: Log, pids: seq<Pid>)
    requires forall e :: e in log ==> e.Term? || e.Kill?
    ensures Sleeps(log) == 0 && forall pid :: LastLook(log, pid) == None
  {
    if log != [] {
      assert log[|log| - 1] in log;
      NoSignals(log[..|log| - 1], pids);
    }
  }

  lemma LookFirst(e: Event, rest: Log, pid: Pid)
    requires e.Look?
    ensures LastLook([e] + rest, pid)
            == if LastLook(rest, pid).Some? then LastLook(rest, pid) else if pid == e.pid then Some(e.there) else None
    ensures Sleeps([e] + rest) == Sleeps(rest)
  {
    LastLookJoin([e], rest, pid);
    SleepsJoin([e], rest);
    assert [e][..0] == [];
  }

  lemma {:induction false} AnyThereQuiet(at: nat, pids: seq<Pid>, alive: World)
    ensures Quiet(AnyThere(at, pids, alive), pids) && Sleeps(AnyThere(at, pids, alive)) == 0
    decreases |pids|
  {
    if pids != [] {
      var first := Look(pids[0], alive(at, pids[0]));
      LookFirst(first, if first.there then [] else AnyThere(at + 1, pids[1..], alive), 0);
      if !first.there {
        AnyThereQuiet(at + 1, pids[1..], alive);
      }
    }
  }

  /** When `some` finds none, it has seen each one gone. */
  lemma {:induction false} NoneThere(at: nat, pids: seq<Pid>, alive: World, pid: Pid)
    requires !Found(AnyThere(at, pids, alive)) && pid in pids
    ensures LastLook(AnyThere(at, pids, alive), pid) == Some(false)
    decreases |pids|
  {
    var first := Look(pids[0], alive(at, pids[0]));
    var rest := AnyThere(at + 1, pids[1..], alive);
    assert AnyThere(at, pids, alive) == [first] + if first.there then [] else rest;
    assert rest != [] ==> ([first] + rest)[|rest|] == rest[|rest| - 1];
    LookFirst(first, rest, pid);
    if pid in pids[1..] {
      NoneThere(at + 1, pids[1..], alive, pid);
    } else {
      NotLooked(at + 1, pids[1..], alive, pid);
    }
  }

  lemma NotLooked(at: nat, pids: seq<Pid>, alive: World, pid: Pid)
    requires pid !in pids
    ensures LastLook(AnyThere(at, pids, alive), pid) == None
  {
    AnyThereQuiet(at, pids, alive);
    NeverLooked(AnyThere(at, pids, alive), pid);
  }

  lemma {:induction false} NeverLooked(log: Log, pid: Pid)
    requires forall e :: e in log ==> !(e.Look? && e.pid == pid)
    ensures LastLook(log, pid) == None
  {
    if log != [] {
      assert log[|log| - 1] in log;
      NeverLooked(log[..|log| - 1], pid);
    }
  }

  lemma {:induction false} EachLookIs(at: nat, pids: seq<Pid>, alive: World, pid: Pid)
    ensures Quiet(EachLook(at, pids, alive), pids) && Sleeps(EachLook(at, pids, alive)) == 0
    ensures forall p :: p in There(at, pids, alive) ==> p in pids && Look(p, true) in EachLook(at, pids, alive)
    ensures pid in pids ==>
              LastLook(EachLook(at, pids, alive), pid) == Some(false) || pid in There(at, pids, alive)
    ensures pid !in pids ==> LastLook(EachLook(at, pids, alive), pid) == None
    decreases |pids|
  {
    if pids != [] {
      var first := Look(pids[0], alive(at, pids[0]));
      EachLookIs(at + 1, pids[1..], alive, pid);
      LookFirst(first, EachLook(at + 1, pids[1..], alive), pid);
    }
  }

  /** A wait of `n` polls is quiet and bounded; what is left has been waited for to the
      end and was there when last looked at; what is not, was seen gone. */
  ghost predicate WaitOk(log: Log, left: seq<Pid>, n: nat, pids: seq<Pid>) {
    && Quiet(log, pids) && Sleeps(log) <= n
    && (forall p :: p in left ==> p in pids && Sleeps(log) == n && SeenSince(log, p))
    && (forall p :: p in pids ==> LastLook(log, p) == Some(false) || p in left)
  }

  lemma {:induction false} WaitIs(at: nat, pids: seq<Pid>, n: nat, alive: World)
    ensures WaitOk(Wait(at, pids, n, alive), Left(at, pids, n, alive), n, pids)
    decreases n
  {
    hide AnyThere, Found, WaitOk, EachLook, There;
    if n == 0 {
      FilterOk(at, pids, alive);
    } else {
      var looks := AnyThere(at, pids, alive);
      if !Found(looks) {
        NoneLeft(at, pids, n, alive);
      } else {
        WaitIs(at + |looks| + 1, pids, n - 1, alive);
        PollOk(at, pids, n, alive);
      }
    }
  }

  lemma FilterOk(at: nat, pids: seq<Pid>, alive: World)
    ensures WaitOk(EachLook(at, pids, alive), There(at, pids, alive), 0, pids)
  {
    hide EachLook, There, SeenSince;
    EachLookIs(at, pids, alive, 0);
    forall p | p in pids
      ensures LastLook(EachLook(at, pids, alive), p) == Some(false) || p in There(at, pids, alive)
    {
      EachLookIs(at, pids, alive, p);
    }
    forall p | p in There(at, pids, alive)
      ensures SeenSince(EachLook(at, pids, alive), p)
    {
      SeenSinceStart(EachLook(at, pids, alive), p);
    }
  }

  lemma NoneLeft(at: nat, pids: seq<Pid>, n: nat, alive: World)
    requires !Found(AnyThere(at, pids, alive))
    ensures WaitOk(AnyThere(at, pids, alive), [], n, pids)
  {
    hide AnyThere, Found, Sleeps, LastLook;
    AnyThereQuiet(at, pids, alive);
    forall p | p in pids
      ensures LastLook(AnyThere(at, pids, alive), p) == Some(false)
    {
      NoneThere(at, pids, alive, p);
    }
  }

  lemma PollOk(at: nat, pids: seq<Pid>, n: nat, alive: World)
    requires n > 0
    requires var looks := AnyThere(at, pids, alive);
             WaitOk(Wait(at + |looks| + 1, pids, n - 1, alive), Left(at + |looks| + 1, pids, n - 1, alive), n - 1, pids)
    ensures var looks := AnyThere(at, pids, alive);
            WaitOk(looks + [Sleep] + Wait(at + |looks| + 1, pids, n - 1, alive),
                   Left(at + |looks| + 1, pids, n - 1, alive), n, pids)
  {
    hide AnyThere, Wait, Left, Sleeps, LastLook, SeenSince;
    var looks := AnyThere(at, pids, alive);
    AnyThereQuiet(at, pids, alive);
    WaitOn(looks, Wait(at + |looks| + 1, pids, n - 1, alive));
  }

  lemma WaitOn(looks: Log, rest: Log)
    requires Sleeps(looks) == 0
    ensures Sleeps(looks + [Sleep] + rest) == 1 + Sleeps(rest)
    ensures forall p :: LastLook(rest, p).Some? ==> LastLook(looks + [Sleep] + rest, p) == LastLook(rest, p)
    ensures forall p :: SeenSince(rest, p) ==> SeenSince(looks + [Sleep] + rest, p)
  {
    SleepsJoin(looks, [Sleep]);
    SleepsJoin(looks + [Sleep], rest);
    assert [Sleep][..0] == [];
    forall p
      ensures LastLook(rest, p).Some? ==> LastLook(looks + [Sleep] + rest, p) == LastLook(rest, p)
      ensures SeenSince(rest, p) ==> SeenSince(looks + [Sleep] + rest, p)
    {
      LastLookJoin(looks + [Sleep], rest, p);
      SeenSinceJoin(looks + [Sleep], rest, p);
    }
  }

  /** A look saw it there, with no sleep since. */
  predicate SeenSince(log: Log, pid: Pid) {
    log != []
    && var last := log[|log| - 1];
       !last.Sleep? && (last == Look(pid, true) || SeenSince(log[..|log| - 1], pid))
  }

  lemma {:induction false} SeenSinceJoin(a: Log, b: Log, pid: Pid)
    ensures SeenSince(b, pid) ==> SeenSince(a + b, pid)
    ensures SeenSince(a, pid) && (forall e :: e in b ==> !e.Sleep?) ==> SeenSince(a + b, pid)
  {
    if b == [] {
      assert a + b == a;
    } else {
      var n := |b| - 1;
      SeenSinceJoin(a, b[..n], pid);
      assert (a + b)[..|a + b| - 1] == a + b[..n] && (a + b)[|a + b| - 1] == b[n];
      assert b[n] in b;
    }
  }

  lemma {:induction false} SeenSinceStart(looks: Log, pid: Pid)
    requires Look(pid, true) in looks && Sleeps(looks) == 0
    ensures SeenSince(looks, pid)
  {
    var n := |looks| - 1;
    if looks[n] != Look(pid, true) {
      assert looks == looks[..n] + [looks[n]];
      SeenSinceStart(looks[..n], pid);
    }
  }

  // ---- The promises ----

  lemma SleepsInAll(pids: seq<Pid>, alive: World)
    ensures Sleeps(Unloading(pids, alive)) <= 20
  {
    hide Wait, Left, Sleeps, Quiet, SeenSince, LastLook;
    var first, rest := FirstWait(pids, alive), FirstLeft(pids, alive);
    var second, last := SecondWait(pids, alive), SecondLeft(pids, alive);
    WaitIs(1, pids, 12, alive);
    WaitIs(SecondAt(pids, alive), pids, 8, alive);
    SleepsJoin([Release], first);
    ReleaseIsNoSleep();
    if rest != [] {
      NoSignals(Terms(rest), pids);
      NoSignals(Kills(last), pids);
      SleepsJoin([Release] + first, Terms(rest));
      SleepsJoin([Release] + first + Terms(rest), second);
      SleepsJoin([Release] + first + Terms(rest) + second, Kills(last));
    }
  }

  lemma ReleaseIsNoSleep()
    ensures Sleeps([Release]) == 0
  {
    assert [Release][..0] == [];
  }

  /** The old instance is let go of once, before anything else; only captured processes
      are looked at or signalled; and it waits at most twenty polls. */
  lemma ReleasedOnceThenCaptured(pids: seq<Pid>, alive: World)
    ensures var log := Unloading(pids, alive);
            && log != [] && log[0] == Release
            && (forall k :: 1 <= k < |log| ==> !log[k].Release? && (log[k].Sleep? || log[k].pid in pids))
            && Sleeps(log) <= 20
  {
    hide Wait, Left, FirstWait, SecondWait, Sleeps, SeenSince, LastLook;
    SleepsInAll(pids, alive);
    WaitsAreQuiet(pids, alive);
    LeftAreCaptured(pids, alive);
    var log := Unloading(pids, alive);
    forall k | 1 <= k < |log|
      ensures !log[k].Release? && (log[k].Sleep? || log[k].pid in pids)
    {
      if FirstLeft(pids, alive) == [] {
        assert log[k] == FirstWait(pids, alive)[k - 1];
        assert log[k] in FirstWait(pids, alive);
      } else {
        PartOfLog(pids, alive, k);
      }
    }
  }

  lemma LeftAreCaptured(pids: seq<Pid>, alive: World)
    ensures forall p :: p in FirstLeft(pids, alive) || p in SecondLeft(pids, alive) ==> p in pids
  {
    hide Wait, Left;
    WaitIs(1, pids, 12, alive);
    WaitIs(SecondAt(pids, alive), pids, 8, alive);
  }

  /** Where the k-th event comes from, when some process outlives the first wait. */
  lemma PartOfLog(pids: seq<Pid>, alive: World, k: nat)
    requires FirstLeft(pids, alive) != [] && 1 <= k < |Unloading(pids, alive)|
    ensures var e := Unloading(pids, alive)[k];
            || e in FirstWait(pids, alive)
            || (e.Term? && e.pid in FirstLeft(pids, alive))
            || e in SecondWait(pids, alive)
            || (e.Kill? && e.pid in SecondLeft(pids, alive))
  {
    hide FirstWait, SecondWait, FirstLeft, SecondLeft;
    var first, rest := FirstWait(pids, alive), FirstLeft(pids, alive);
    var second, last := SecondWait(pids, alive), SecondLeft(pids, alive);
    var log := Unloading(pids, alive);
    var a, b, c := 1 + |first|, 1 + |first| + |rest|, 1 + |first| + |rest| + |second|;
    if k < a {
      assert log[k] == first[k - 1];
    } else if k < b {
      assert log[k] == Terms(rest)[k - a];
    } else if k < c {
      assert log[k] == second[k - b];
    } else {
      assert log[k] == Kills(last)[k - c];
    }
  }

  lemma SignalPrefix(signals: Log, before: Log, k: nat, pid: Pid)
    requires k <= |signals| && forall e :: e in signals ==> e.Term? || e.Kill?
    ensures Sleeps(before + signals[..k]) == Sleeps(before)
    ensures SeenSince(before, pid) ==> SeenSince(before + signals[..k], pid)
  {
    hide Sleeps, SeenSince;
    NoSignals(signals[..k], []);
    SleepsJoin(before, signals[..k]);
    SeenSinceJoin(before, signals[..k], pid);
  }

  /** What has happened when the k-th SIGTERM is sent. */
  lemma BeforeTerm(pids: seq<Pid>, alive: World, k: nat)
    requires k < |FirstLeft(pids, alive)|
    ensures var before := [Release] + FirstWait(pids, alive) + Terms(FirstLeft(pids, alive))[..k];
            Sleeps(before) == 12 && SeenSince(before, FirstLeft(pids, alive)[k])
  {
    hide Wait, Left, SeenSince, Sleeps, LastLook, Quiet;
    var first, rest := FirstWait(pids, alive), FirstLeft(pids, alive);
    WaitIs(1, pids, 12, alive);
    SleepsJoin([Release], first);
    ReleaseIsNoSleep();
    SeenSinceJoin([Release], first, rest[k]);
    SignalPrefix(Terms(rest), [Release] + first, k, rest[k]);
  }

  lemma LeftWasSeen(log: Log, left: seq<Pid>, n: nat, pids: seq<Pid>, pid: Pid)
    requires WaitOk(log, left, n, pids) && pid in left
    ensures Sleeps(log) == n && SeenSince(log, pid)
  {
  }

  /** What has happened when the k-th SIGKILL is sent. */
  lemma BeforeKill(pids: seq<Pid>, alive: World, k: nat)
    requires FirstLeft(pids, alive) != [] && k < |SecondLeft(pids, alive)|
    ensures var before := [Release] + FirstWait(pids, alive) + Terms(FirstLeft(pids, alive))
                          + SecondWait(pids, alive) + Kills(SecondLeft(pids, alive))[..k];
            Sleeps(before) == 20 && SeenSince(before, SecondLeft(pids, alive)[k])
  {
    hide Wait, Left, SeenSince, Sleeps, LastLook, Quiet, FirstWait, FirstLeft;
    var first, rest := FirstWait(pids, alive), FirstLeft(pids, alive);
    var second, last := SecondWait(pids, alive), SecondLeft(pids, alive);
    var asked := [Release] + first + Terms(rest);
    assert Sleeps(asked) == 12 by {
      BeforeTerm(pids, alive, 0);
      assert Terms(rest)[..0] == [] && [Release] + first + [] == [Release] + first;
      NoSignals(Terms(rest), pids);
      SleepsJoin([Release] + first, Terms(rest));
    }
    PollsAre();
    WaitIs(SecondAt(pids, alive), pids, Polls(UNLOAD_TERM_MS), alive);
    LeftWasSeen(second, last, 8, pids, last[k]);
    SleepsJoin(asked, second);
    SeenSinceJoin(asked, second, last[k]);
    assert SeenSince(asked + second, last[k]);
    SignalPrefix(Kills(last), asked + second, k, last[k]);
  }

  /** SIGTERM goes only to processes seen alive after the twelve polls of the first
      wait, SIGKILL only to those seen alive after the eight polls of the second. */
  lemma SignalledAfterTheWait(pids: seq<Pid>, alive: World, k: nat)
    requires k < |Unloading(pids, alive)|
    ensures var log := Unloading(pids, alive);
            && (log[k].Term? ==> Sleeps(log[..k]) == 12 && SeenSince(log[..k], log[k].pid))
            && (log[k].Kill? ==> Sleeps(log[..k]) == 20 && SeenSince(log[..k], log[k].pid))
  {
    hide Wait, Left, Sleeps, SeenSince, FirstWait, SecondWait;
    var log := Unloading(pids, alive);
    var first, rest := FirstWait(pids, alive), FirstLeft(pids, alive);
    WaitsAreQuiet(pids, alive);
    if rest == [] {
      assert k > 0 ==> log[k] == first[k - 1] && first[k - 1] in first;
    } else {
      var second, last := SecondWait(pids, alive), SecondLeft(pids, alive);
      var a, b, c := 1 + |first|, 1 + |first| + |rest|, 1 + |first| + |rest| + |second|;
      if 0 < k < a {
        assert log[k] == first[k - 1] && first[k - 1] in first;
      } else if a <= k < b {
        assert log[k] == Term(rest[k - a]);
        assert log[..k] == [Release] + first + Terms(rest)[..k - a];
        BeforeTerm(pids, alive, k - a);
      } else if b <= k < c {
        assert log[k] == second[k - b] && second[k - b] in second;
      } else if c <= k {
        assert log[k] == Kill(last[k - c]);
        assert log[..k] == [Release] + first + Terms(rest) + second + Kills(last)[..k - c];
        BeforeKill(pids, alive, k - c);
      }
    }
  }

  lemma WaitsAreQuiet(pids: seq<Pid>, alive: World)
    ensures Quiet(FirstWait(pids, alive), pids) && Quiet(SecondWait(pids, alive), pids)
  {
    hide Wait, Left;
    WaitIs(1, pids, 12, alive);
    WaitIs(SecondAt(pids, alive), pids, 8, alive);
  }

  lemma KillSent(pids: seq<Pid>, alive: World, pid: Pid)
    requires FirstLeft(pids, alive) != [] && pid in SecondLeft(pids, alive)
    ensures Kill(pid) in Unloading(pids, alive)
  {
    hide Wait, Left, FirstWait, FirstLeft, SecondWait, SecondLeft;
    var last := SecondLeft(pids, alive);
    var k :| 0 <= k < |last| && last[k] == pid;
    assert Kills(last)[k] in Kills(last);
  }

  lemma TermSent(pids: seq<Pid>, alive: World, pid: Pid)
    requires pid in FirstLeft(pids, alive)
    ensures Term(pid) in Unloading(pids, alive)
  {
    hide Wait, Left, FirstWait, FirstLeft, SecondWait, SecondLeft;
    var rest := FirstLeft(pids, alive);
    var k :| 0 <= k < |rest| && rest[k] == pid;
    assert Terms(rest)[k] in Terms(rest);
  }

  /** In the end every captured process was seen gone or was sent SIGKILL. */
  lemma NoneSurvivesUnseen(pids: seq<Pid>, alive: World, pid: Pid)
    requires pid in pids
    ensures Kill(pid) in Unloading(pids, alive) || LastLook(Unloading(pids, alive), pid) == Some(false)
  {
    hide Wait, Left, Sleeps, SeenSince;
    var first, rest := FirstWait(pids, alive), FirstLeft(pids, alive);
    if rest == [] {
      WaitIs(1, pids, 12, alive);
      LastLookJoin([Release], first, pid);
    } else {
      var second, last := SecondWait(pids, alive), SecondLeft(pids, alive);
      WaitIs(SecondAt(pids, alive), pids, 8, alive);
      if pid in last {
        KillSent(pids, alive, pid);
      } else {
        LastLookJoin([Release] + first + Terms(rest), second, pid);
        NoSignals(Kills(last), pids);
        LastLookJoin([Release] + first + Terms(rest) + second, Kills(last), pid);
      }
    }
  }

  /** What is gone stays gone: its number is not given to another process. */
  ghost predicate Final(alive: World) {
    forall i: nat, j: nat, pid :: i <= j && alive(j, pid) ==> alive(i, pid)
  }

  // ---- Exactly when a process is killed unasked ----

  /** The first process a poll from the `at`-th event on finds. */
  function FirstThere(at: nat, pids: seq<Pid>, alive: World): (r: Option<nat>)
    ensures r.Some? ==> r.value < |pids| && alive(at + r.value, pids[r.value])
                        && forall i :: 0 <= i < r.value ==> !alive(at + i, pids[i])
    ensures r.None? ==> forall i :: 0 <= i < |pids| ==> !alive(at + i, pids[i])
    decreases |pids|
  {
    if pids == [] then None
    else if alive(at, pids[0]) then Some(0)
    else
      var rest := FirstThere(at + 1, pids[1..], alive);
      assert forall i :: 1 <= i < |pids| ==> pids[i] == pids[1..][i - 1];
      if rest.Some? then Some(rest.value + 1) else None
  }

  /** When the last look at all of them begins, if each of the `n` polls before it finds
      one there: a poll looks up to the one it finds, and sleeps. */
  function FilterTime(at: nat, pids: seq<Pid>, n: nat, alive: World): Option<nat>
    decreases n
  {
    if n == 0 then Some(at)
    else
      var k := FirstThere(at, pids, alive);
      if k.Some? then FilterTime(at + k.value + 2, pids, n - 1, alive) else None
  }

  /** A look at all of them from the `at`-th event on finds this one. */
  ghost predicate FoundAt(at: nat, pids: seq<Pid>, alive: World, pid: Pid) {
    exists i :: 0 <= i < |pids| && pids[i] == pid && alive(at + i, pid)
  }

  lemma {:induction false} FirstThereIs(at: nat, pids: seq<Pid>, alive: World)
    ensures var k, looks := FirstThere(at, pids, alive), AnyThere(at, pids, alive);
            && (k.Some? <==> Found(looks))
            && (k.Some? ==> |looks| == k.value + 1)
    decreases |pids|
  {
    hide Found;
    if pids == [] {
      FoundNothing();
    } else {
      AnyThereFirst(at, pids, alive);
      FoundBehind(pids[0], AnyThere(at + 1, pids[1..], alive));
      if !alive(at, pids[0]) {
        FirstThereIs(at + 1, pids[1..], alive);
      }
    }
  }

  lemma FoundNothing()
    ensures !Found([])
  {
  }

  /** A wait that gets to its filter leaves what that finds; one that does not, nothing. */
  lemma {:induction false} WaitToFilter(at: nat, pids: seq<Pid>, n: nat, alive: World)
    ensures var t := FilterTime(at, pids, n, alive);
            if t.None? then Left(at, pids, n, alive) == []
            else t.value >= at && Left(at, pids, n, alive) == There(t.value, pids, alive)
                 && |Wait(at, pids, n, alive)| == t.value - at + |pids|
    decreases n
  {
    hide AnyThere, Found, There, EachLook;
    FirstThereIs(at, pids, alive);
    if n == 0 {
      EachLookSize(at, pids, alive);
    } else {
      var k := FirstThere(at, pids, alive);
      if k.Some? {
        WaitToFilter(at + k.value + 2, pids, n - 1, alive);
      }
    }
  }

  lemma FoundFirst(at: nat, pids: seq<Pid>, alive: World, pid: Pid)
    requires pids != []
    ensures FoundAt(at, pids, alive, pid)
            <==> (pids[0] == pid && alive(at, pid)) || FoundAt(at + 1, pids[1..], alive, pid)
  {
    var rest := pids[1..];
    if FoundAt(at + 1, rest, alive, pid) {
      var i :| 0 <= i < |rest| && rest[i] == pid && alive(at + 1 + i, pid);
      assert pids[i + 1] == pid && alive(at + (i + 1), pid);
    }
    if FoundAt(at, pids, alive, pid) {
      var i :| 0 <= i < |pids| && pids[i] == pid && alive(at + i, pid);
      assert i > 0 ==> rest[i - 1] == pid && alive(at + 1 + (i - 1), pid);
    }
  }

  lemma {:induction false} ThereIs(at: nat, pids: seq<Pid>, alive: World, pid: Pid)
    ensures pid in There(at, pids, alive) <==> FoundAt(at, pids, alive, pid)
    decreases |pids|
  {
    if pids != [] {
      hide FoundAt;
      FoundFirst(at, pids, alive, pid);
      ThereIs(at + 1, pids[1..], alive, pid);
    }
  }

  /** Both waits run to their filters, the first of which finds somebody; there this
      process is not, and in the second it is. */
  ghost predicate GoneThenThere(pids: seq<Pid>, alive: World, pid: Pid) {
    var first := FilterTime(1, pids, Polls(UNLOAD_EXIT_MS), alive);
    first.Some? && There(first.value, pids, alive) != []
    && var start := first.value + |pids| + |There(first.value, pids, alive)|;
       var second := FilterTime(start, pids, Polls(UNLOAD_TERM_MS), alive);
       second.Some? && !FoundAt(first.value, pids, alive, pid) && FoundAt(second.value, pids, alive, pid)
  }

  /** SIGTERM goes exactly to what the first wait leaves, SIGKILL to what the second
      leaves behind it. */
  lemma SignalledIff(pids: seq<Pid>, alive: World, pid: Pid)
    ensures Term(pid) in Unloading(pids, alive) <==> pid in FirstLeft(pids, alive)
    ensures Kill(pid) in Unloading(pids, alive) <==> FirstLeft(pids, alive) != [] && pid in SecondLeft(pids, alive)
  {
    hide Wait, Left, FirstWait, SecondWait, FirstLeft, SecondLeft;
    if Term(pid) in Unloading(pids, alive) {
      AskedIsLeft(pids, alive, pid);
    }
    if pid in FirstLeft(pids, alive) {
      TermSent(pids, alive, pid);
    }
    if Kill(pid) in Unloading(pids, alive) {
      KilledIsLast(pids, alive, pid);
    }
    if FirstLeft(pids, alive) != [] && pid in SecondLeft(pids, alive) {
      KillSent(pids, alive, pid);
    }
  }

  lemma AskedIsLeft(pids: seq<Pid>, alive: World, pid: Pid)
    requires Term(pid) in Unloading(pids, alive)
    ensures pid in FirstLeft(pids, alive)
  {
    hide Wait, Left, FirstWait, SecondWait;
    WaitsAreQuiet(pids, alive);
    var log := Unloading(pids, alive);
    if FirstLeft(pids, alive) != [] {
      var k :| 0 <= k < |log| && log[k] == Term(pid);
      PartOfLog(pids, alive, k);
    }
  }

  /** A process gets SIGKILL without SIGTERM exactly when it is gone at the look of the
      first filter and there at that of the second: its number was taken again. */
  lemma KilledUnaskedIff(pids: seq<Pid>, alive: World, pid: Pid)
    ensures Kill(pid) in Unloading(pids, alive) && Term(pid) !in Unloading(pids, alive)
            <==> GoneThenThere(pids, alive, pid)
  {
    hide Wait, Left, There, FilterTime, FoundAt, Unloading, Polls;
    SignalledIff(pids, alive, pid);
    WaitToFilter(1, pids, Polls(UNLOAD_EXIT_MS), alive);
    var first := FilterTime(1, pids, Polls(UNLOAD_EXIT_MS), alive);
    if first.Some? {
      ThereIs(first.value, pids, alive, pid);
      var start := first.value + |pids| + |There(first.value, pids, alive)|;
      assert SecondAt(pids, alive) == start;
      WaitToFilter(start, pids, Polls(UNLOAD_TERM_MS), alive);
      var second := FilterTime(start, pids, Polls(UNLOAD_TERM_MS), alive);
      if second.Some? {
        ThereIs(second.value, pids, alive, pid);
      }
    }
  }

  /** So, while no number is taken again, what gets SIGKILL had got SIGTERM. */
  lemma KilledWereAsked(pids: seq<Pid>, alive: World, pid: Pid)
    requires Final(alive) && Kill(pid) in Unloading(pids, alive)
    ensures Term(pid) in Unloading(pids, alive)
  {
    hide Unloading;
    KilledUnaskedIff(pids, alive, pid);
    NotTakenAgain(pids, alive, pid);
  }

  lemma NotTakenAgain(pids: seq<Pid>, alive: World, pid: Pid)
    requires Final(alive)
    ensures !GoneThenThere(pids, alive, pid)
  {
    hide Wait, Left, There, FilterTime, Polls;
    var first := FilterTime(1, pids, Polls(UNLOAD_EXIT_MS), alive);
    if first.Some? {
      var start := first.value + |pids| + |There(first.value, pids, alive)|;
      WaitToFilter(start, pids, Polls(UNLOAD_TERM_MS), alive);
      var second := FilterTime(start, pids, Polls(UNLOAD_TERM_MS), alive);
      if second.Some? && FoundAt(second.value, pids, alive, pid) {
        var i :| 0 <= i < |pids| && pids[i] == pid && alive(second.value + i, pid);
        assert alive(first.value + i, pid);
      }
    }
  }

  lemma KilledIsLast(pids: seq<Pid>, alive: World, pid: Pid)
    requires Kill(pid) in Unloading(pids, alive)
    ensures FirstLeft(pids, alive) != [] && pid in SecondLeft(pids, alive)
  {
    hide Wait, Left, FirstWait, SecondWait;
    WaitsAreQuiet(pids, alive);
    if FirstLeft(pids, alive) != [] {
      var log := Unloading(pids, alive);
      var k :| 0 <= k < |log| && log[k] == Kill(pid);
      PartOfLog(pids, alive, k);
    }
  }

  /** While the first one is there, a poll looks at it and sleeps. */
  lemma {:induction false} FirstStays(at: nat, pids: seq<Pid>, n: nat, alive: World)
    requires pids != [] && forall k: nat :: alive(k, pids[0])
    ensures Left(at, pids, n, alive) == There(at + 2 * n, pids, alive)
    ensures |Wait(at, pids, n, alive)| == 2 * n + |pids|
    decreases n
  {
    if n == 0 {
      EachLookSize(at, pids, alive);
    } else {
      hide AnyThere, Found, There;
      AnyThereFirst(at, pids, alive);
      FoundBehind(pids[0], []);
      FirstStays(at + 2, pids, n - 1, alive);
    }
  }

  lemma {:induction false} EachLookSize(at: nat, pids: seq<Pid>, alive: World)
    ensures |EachLook(at, pids, alive)| == |pids|
    decreases |pids|
  {
    if pids != [] {
      EachLookSize(at + 1, pids[1..], alive);
    }
  }

  lemma ThereOfTwo(at: nat, alive: World)
    requires alive(at, 7)
    ensures There(at, [7, 8], alive) == if alive(at + 1, 8) then [7, 8] else [7]
  {
    assert [7, 8][1..] == [8] && [8][1..] == [];
  }

  /** A number taken again can get SIGKILL without SIGTERM: the second filter looks at
      every captured process, not at those that were asked. */
  lemma TakenNumberIsKilled() returns (pids: seq<Pid>, alive: World)
    ensures Kill(8) in Unloading(pids, alive) && Term(8) !in Unloading(pids, alive)
  {
    hide Wait, Left, There, Polls;
    pids := [7, 8];
    alive := (n, pid) => pid == 7 || n > 30;
    PollsAre();
    FirstStays(1, pids, 12, alive);
    ThereOfTwo(25, alive);
    assert SecondAt(pids, alive) == 28;
    FirstStays(28, pids, 8, alive);
    ThereOfTwo(44, alive);
    KillSent(pids, alive, 8);
    WaitsAreQuiet(pids, alive);
    var log := Unloading(pids, alive);
    forall k | 0 <= k < |log|
      ensures log[k] != Term(8)
    {
      if k > 0 {
        PartOfLog(pids, alive, k);
      }
    }
  }

  lemma PollsAre()
    ensures Polls(UNLOAD_EXIT_MS) == 12 && Polls(UNLOAD_TERM_MS) == 8
  {
  }
}
