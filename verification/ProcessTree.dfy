/**
 Process trees and the ports they listen on (`packages/daemon/src/preview/ports.ts`):
 worklists over a parent relation that need not be a tree.
 */
module ProcessTree {
  import opened Wrappers

  type Pid = int

  /** pid to its children; a missing key has none. */
  type Children = map<Pid, seq<Pid>>

  function ChildrenIn(children: Children, pid: Pid): seq<Pid> {
    if pid in children then children[pid] else []
  }

  /** The numbers of one `ps` line; a line is skipped without two, or when its pid
      is 0 (also what a blank line reads as). */
  type PsLine = seq<int>

  predicate Row(line: PsLine) { |line| >= 2 && line[0] != 0 }

  /** The line's numbers are those of a process and its parent. */
  predicate Says(line: PsLine, ppid: Pid, pid: Pid) { |line| >= 2 && line[0] == pid && line[1] == ppid && pid != 0 }

  /** Some line says `pid` is a child of `ppid`. */
  ghost predicate Child(lines: seq<PsLine>, ppid: Pid, pid: Pid) {
    exists i :: 0 <= i < |lines| && Says(lines[i], ppid, pid)
  }

  lemma ChildMore(lines: seq<PsLine>, i: nat, ppid: Pid, pid: Pid)
    requires i < |lines|
    ensures Child(lines[..i + 1], ppid, pid)
            <==> Child(lines[..i], ppid, pid) || Says(lines[i], ppid, pid)
  {
    var a, b := lines[..i], lines[..i + 1];
    assert b[i] == lines[i];
    if Child(a, ppid, pid) {
      var k :| 0 <= k < |a| && Says(a[k], ppid, pid);
      assert b[k] == a[k];
    }
    if Child(b, ppid, pid) {
      var k :| 0 <= k < |b| && Says(b[k], ppid, pid);
      assert k < i ==> a[k] == b[k];
    }
  }

  /** `childrenOf` */
  method ChildrenOf(lines: seq<PsLine>) returns (children: Children)
    ensures forall ppid, pid :: pid in ChildrenIn(children, ppid) <==> Child(lines, ppid, pid)
  {
    children := map[];
    for i := 0 to |lines|
      invariant forall ppid, pid :: pid in ChildrenIn(children, ppid) <==> Child(lines[..i], ppid, pid)
    {
      hide Child;
      ghost var was := children;
      if Row(lines[i]) {
        var pid, ppid := lines[i][0], lines[i][1];
        if ppid in children {
          children := children[ppid := children[ppid] + [pid]];
        } else {
          children := children[ppid := [pid]];
        }
        assert forall p :: ChildrenIn(children, p) == ChildrenIn(was, p) + if p == ppid then [pid] else [];
      }
      forall ppid, pid
        ensures pid in ChildrenIn(children, ppid) <==> Child(lines[..i + 1], ppid, pid)
      {
        assert pid in ChildrenIn(was, ppid) <==> Child(lines[..i], ppid, pid);
        ChildMore(lines, i, ppid, pid);
      }
    }
    assert lines[..|lines|] == lines;
  }

  // ---- Reachability ----

  ghost function Elems(xs: seq<Pid>): set<Pid> { set x | x in xs }

  /** A chain of children from a root down to `pid`. */
  ghost predicate Path(lines: seq<PsLine>, roots: seq<Pid>, path: seq<Pid>, pid: Pid) {
    |path| > 0 && path[0] in roots && path[|path| - 1] == pid
    && forall i, j :: 0 <= i && j == i + 1 < |path| ==> Child(lines, path[i], path[j])
  }

  ghost predicate Reachable(lines: seq<PsLine>, roots: seq<Pid>, pid: Pid) {
    exists path :: Path(lines, roots, path, pid)
  }

  /** Every pid that can come up: what termination is measured by. */
  ghost function Known(lines: seq<PsLine>, roots: seq<Pid>): set<Pid> {
    Elems(roots) + set i | 0 <= i < |lines| && Row(lines[i]) :: lines[i][0]
  }

  lemma RootReachable(lines: seq<PsLine>, roots: seq<Pid>, pid: Pid)
    requires pid in roots
    ensures Reachable(lines, roots, pid) && pid in Known(lines, roots)
  {
    assert Path(lines, roots, [pid], pid);
  }

  lemma ChildReachable(lines: seq<PsLine>, roots: seq<Pid>, pid: Pid, child: Pid)
    requires Reachable(lines, roots, pid) && Child(lines, pid, child)
    ensures Reachable(lines, roots, child) && child in Known(lines, roots)
  {
    var path :| Path(lines, roots, path, pid);
    assert Path(lines, roots, path + [child], child);
  }

  ghost predicate Distinct(xs: seq<Pid>) {
    forall i, j :: 0 <= i < j < |xs| ==> xs[i] != xs[j]
  }

  /** It is a root or stands behind a parent of its own. */
  ghost predicate Follows(lines: seq<PsLine>, roots: seq<Pid>, before: seq<Pid>, pid: Pid) {
    pid in roots || exists parent :: parent in before && Child(lines, parent, pid)
  }

  ghost predicate TreeOrder(lines: seq<PsLine>, roots: seq<Pid>, pids: seq<Pid>) {
    forall i :: 0 <= i < |pids| ==> Follows(lines, roots, pids[..i], pids[i])
  }

  /** What waits on the stack: reachable, and in its place. */
  ghost predicate Waiting(lines: seq<PsLine>, roots: seq<Pid>, seen: seq<Pid>, stack: seq<Pid>) {
    forall pid :: pid in stack ==>
      && Reachable(lines, roots, pid) && pid in Known(lines, roots)
      && Follows(lines, roots, seen, pid)
  }

  /** What was seen: reachable, each once, and nothing it leads to is forgotten. */
  ghost predicate Visited(lines: seq<PsLine>, roots: seq<Pid>, seen: seq<Pid>, stack: seq<Pid>) {
    && Distinct(seen)
    && TreeOrder(lines, roots, seen)
    && (forall pid :: pid in seen ==> Reachable(lines, roots, pid))
    && (forall pid :: pid in roots ==> pid in seen || pid in stack)
    && (forall pid, child :: pid in seen && Child(lines, pid, child) ==> child in seen || child in stack)
  }

  ghost predicate Frontier(lines: seq<PsLine>, roots: seq<Pid>, seen: seq<Pid>, stack: seq<Pid>) {
    Waiting(lines, roots, seen, stack) && Visited(lines, roots, seen, stack)
  }

  lemma Start(lines: seq<PsLine>, roots: seq<Pid>, stack: seq<Pid>)
    requires forall pid :: pid in stack <==> pid in roots
    ensures Frontier(lines, roots, [], stack)
  {
    forall pid | pid in stack
      ensures Reachable(lines, roots, pid) && pid in Known(lines, roots)
    {
      RootReachable(lines, roots, pid);
    }
  }

  /** The pid at the end of the stack had been seen. */
  lemma Skip(lines: seq<PsLine>, roots: seq<Pid>, seen: seq<Pid>, stack: seq<Pid>)
    requires Frontier(lines, roots, seen, stack) && stack != [] && stack[|stack| - 1] in seen
    ensures Frontier(lines, roots, seen, stack[..|stack| - 1])
  {
    var rest := stack[..|stack| - 1];
    assert stack == rest + [stack[|stack| - 1]];
  }

  /** It is new, and opened. */
  lemma Open(lines: seq<PsLine>, roots: seq<Pid>, seen: seq<Pid>, stack: seq<Pid>, children: seq<Pid>)
    requires Frontier(lines, roots, seen, stack) && stack != [] && stack[|stack| - 1] !in seen
    requires forall child :: child in children <==> Child(lines, stack[|stack| - 1], child)
    ensures Frontier(lines, roots, seen + [stack[|stack| - 1]], stack[..|stack| - 1] + children)
  {
    hide Child, Reachable, Known;
    var pid, rest := stack[|stack| - 1], stack[..|stack| - 1];
    var seen', stack' := seen + [pid], rest + children;
    assert stack == rest + [pid];
    forall p | p in stack'
      ensures Reachable(lines, roots, p) && p in Known(lines, roots) && Follows(lines, roots, seen', p)
    {
      if p in children {
        ChildReachable(lines, roots, pid, p);
        assert pid in seen';
      }
    }
    forall i | 0 <= i < |seen'|
      ensures Follows(lines, roots, seen'[..i], seen'[i])
    {
      assert seen'[..i] == seen[..i];
      assert i == |seen| ==> seen[..i] == seen;
    }
  }

  /** With an empty stack everything reachable is seen. */
  lemma {:induction false} Complete(lines: seq<PsLine>, roots: seq<Pid>, seen: seq<Pid>, path: seq<Pid>, pid: Pid)
    requires Visited(lines, roots, seen, []) && Path(lines, roots, path, pid)
    ensures pid in seen
    decreases |path|
  {
    hide Child;
    if |path| > 1 {
      var n := |path| - 1;
      assert Path(lines, roots, path[..n], path[n - 1]);
      Complete(lines, roots, seen, path[..n], path[n - 1]);
      assert Child(lines, path[n - 1], path[n]);
    }
  }

  lemma SeenIsReachable(lines: seq<PsLine>, roots: seq<Pid>, seen: seq<Pid>)
    requires Visited(lines, roots, seen, [])
    ensures forall pid :: pid in seen <==> Reachable(lines, roots, pid)
  {
    forall pid | Reachable(lines, roots, pid)
      ensures pid in seen
    {
      var path :| Path(lines, roots, path, pid);
      Complete(lines, roots, seen, path, pid);
    }
  }

  lemma Shrinks(known: set<Pid>, seen: seq<Pid>, pid: Pid)
    requires pid in known && pid !in seen
    ensures |known - Elems(seen + [pid])| < |known - Elems(seen)|
  {
    assert known - Elems(seen + [pid]) == (known - Elems(seen)) - {pid};
  }

  function Reversed(xs: seq<Pid>): (ys: seq<Pid>)
    ensures |ys| == |xs| && forall x :: x in ys <==> x in xs
    ensures xs != [] ==> ys[|ys| - 1] == xs[0]
  {
    if xs == [] then [] else Reversed(xs[1..]) + [xs[0]]
  }

  /** `treePids`: exactly the pids reachable from the roots, each once, whatever
      cycles the parents make; the first root first, and every other pid behind a
      parent of its own unless it is a root. */
  method TreePids(lines: seq<PsLine>, roots: seq<Pid>) returns (pids: seq<Pid>)
    ensures Distinct(pids)
    ensures forall pid :: pid in pids <==> Reachable(lines, roots, pid)
    ensures TreeOrder(lines, roots, pids)
    ensures roots != [] ==> pids != [] && pids[0] == roots[0]
  {
    var children := ChildrenOf(lines);
    var stack := Reversed(roots);
    pids := [];
    Start(lines, roots, stack);
    ghost var known := Known(lines, roots);
    while stack != []
      invariant Frontier(lines, roots, pids, stack)
      invariant if pids == [] then stack == Reversed(roots) else roots != [] && pids[0] == roots[0]
      decreases |known - Elems(pids)|, |stack|
    {
      hide Visited, Known, Follows, Reachable, Child, Elems;
      var pid := stack[|stack| - 1];
      if pid in pids {
        Skip(lines, roots, pids, stack);
        stack := stack[..|stack| - 1];
      } else {
        Open(lines, roots, pids, stack, ChildrenIn(children, pid));
        Shrinks(known, pids, pid);
        pids := pids + [pid];
        stack := stack[..|stack| - 1] + ChildrenIn(children, pid);
      }
    }
    SeenIsReachable(lines, roots, pids);
  }

  // ---- Ports ----

  /** An `lsof -F pn` line: a process, a socket's port (0 when it has none that is a
      whole number), or something else. */
  datatype LsofLine = Process(pid: Pid) | Socket(port: int) | Other

  /** The process the line at `k` belongs to: the last one named before it. */
  function Owner(lines: seq<LsofLine>, k: nat): Option<Pid>
    requires k <= |lines|
  {
    if k == 0 then None
    else if lines[k - 1].Process? then Some(lines[k - 1].pid)
    else Owner(lines, k - 1)
  }

  ghost predicate Holds(lines: seq<LsofLine>, pid: Pid, port: int) {
    port > 0 && exists k :: 0 <= k < |lines| && lines[k] == Socket(port) && Owner(lines, k) == Some(pid)
  }

  /** A JavaScript Set of ports keeps them in the order they were added. */
  function Add(ports: seq<int>, port: int): (r: seq<int>)
    ensures forall x :: x in r <==> x in ports || x == port
  {
    if port in ports then ports else ports + [port]
  }

  function AddAll(ports: seq<int>, more: seq<int>): (r: seq<int>)
    ensures forall x :: x in r <==> x in ports || x in more
    decreases |more|
  {
    if more == [] then ports else AddAll(Add(ports, more[0]), more[1..])
  }

  function PortsIn(byPid: map<Pid, seq<int>>, pid: Pid): seq<int> {
    if pid in byPid then byPid[pid] else []
  }

  lemma HoldsMore(lines: seq<LsofLine>, i: nat, pid: Pid, port: int)
    requires i < |lines|
    ensures Holds(lines[..i + 1], pid, port)
            <==> Holds(lines[..i], pid, port)
                 || (port > 0 && lines[i] == Socket(port) && Owner(lines, i) == Some(pid))
  {
    var a, b := lines[..i], lines[..i + 1];
    forall k | 0 <= k <= i
      ensures Owner(a, k) == Owner(lines, k) == Owner(b, k)
    {
      OwnerPrefix(lines, i, k);
      OwnerPrefix(lines, i + 1, k);
    }
    if Holds(a, pid, port) {
      var k :| 0 <= k < |a| && a[k] == Socket(port) && Owner(a, k) == Some(pid);
      assert b[k] == Socket(port) && Owner(b, k) == Some(pid);
    }
    if port > 0 && lines[i] == Socket(port) && Owner(lines, i) == Some(pid) {
      assert b[i] == Socket(port) && Owner(b, i) == Some(pid);
    }
    if Holds(b, pid, port) && lines[i] != Socket(port) {
      var k :| 0 <= k < |b| && b[k] == Socket(port) && Owner(b, k) == Some(pid);
      assert a[k] == Socket(port) && Owner(a, k) == Some(pid);
    }
    if Holds(b, pid, port) && lines[i] == Socket(port) && Owner(lines, i) != Some(pid) {
      var k :| 0 <= k < |b| && b[k] == Socket(port) && Owner(b, k) == Some(pid);
      assert a[k] == Socket(port) && Owner(a, k) == Some(pid);
    }
  }

  lemma {:induction false} OwnerPrefix(lines: seq<LsofLine>, i: nat, k: nat)
    requires k <= i <= |lines|
    ensures Owner(lines[..i], k) == Owner(lines, k)
  {
    if k > 0 {
      OwnerPrefix(lines, i, k - 1);
    }
  }

  /** `portsOf`: one pass, adding to the current process's set. */
  method PortsOf(lines: seq<LsofLine>) returns (byPid: map<Pid, seq<int>>)
    ensures forall pid, port :: port in PortsIn(byPid, pid) <==> Holds(lines, pid, port)
  {
    byPid := map[];
    var current: Option<Pid> := None;
    for i := 0 to |lines|
      invariant current == Owner(lines, i)
      invariant current.Some? ==> current.value in byPid
      invariant forall pid, port :: port in PortsIn(byPid, pid) <==> Holds(lines[..i], pid, port)
    {
      hide Holds, Owner;
      ghost var was := byPid;
      if lines[i].Process? {
        var pid := lines[i].pid;
        byPid := byPid[pid := PortsIn(byPid, pid)];
        current := Some(pid);
      } else if lines[i].Socket? && current.Some? && lines[i].port > 0 {
        byPid := byPid[current.value := Add(byPid[current.value], lines[i].port)];
        assert forall pid :: pid != current.value ==> PortsIn(byPid, pid) == PortsIn(was, pid);
      }
      forall pid, port
        ensures port in PortsIn(byPid, pid) <==> Holds(lines[..i + 1], pid, port)
      {
        assert port in PortsIn(was, pid) <==> Holds(lines[..i], pid, port);
        HoldsMore(lines, i, pid, port);
      }
    }
    assert lines[..|lines|] == lines;
  }

  ghost predicate Ascending(xs: seq<int>) {
    forall i, j :: 0 <= i < j < |xs| ==> xs[i] < xs[j]
  }

  /** Where `x` belongs in an ascending list that may have it already. */
  function Insert(xs: seq<int>, x: int): (r: seq<int>)
    requires Ascending(xs)
    ensures Ascending(r) && forall y :: y in r <==> y in xs || y == x
  {
    if xs == [] || x < xs[0] then [x] + xs
    else if x == xs[0] then xs
    else
      var rest := Insert(xs[1..], x);
      assert forall i :: 0 <= i < |rest| ==> rest[i] in rest;
      [xs[0]] + rest
  }

  /** `sort((a, b) => a - b)` on ports that are all different. */
  function Sorted(ports: seq<int>, done: seq<int>): (r: seq<int>)
    requires Ascending(done)
    ensures Ascending(r) && forall x :: x in r <==> x in ports || x in done
    decreases |ports|
  {
    if ports == [] then done else Sorted(ports[1..], Insert(done, ports[0]))
  }

  /** The list answered for one root. */
  ghost predicate PortList(lines: seq<PsLine>, lsof: seq<LsofLine>, root: Pid, ports: seq<int>) {
    && Ascending(ports)
    && forall port :: port in ports <==> exists pid :: Reachable(lines, [root], pid) && Holds(lsof, pid, port)
  }

  /** `treePorts`: for each root the ascending list of exactly the ports held by
      the pids reachable from it. */
  method TreePorts(lines: seq<PsLine>, lsof: seq<LsofLine>, roots: seq<Pid>) returns (result: map<Pid, seq<int>>)
    ensures forall root :: root in result <==> root in roots
    ensures forall root :: root in result ==> PortList(lines, lsof, root, result[root])
  {
    var children := ChildrenOf(lines);
    var listening := PortsOf(lsof);
    result := map[];
    for i := 0 to |roots|
      invariant forall root :: root in result <==> root in roots[..i]
      invariant forall root :: root in result ==> PortList(lines, lsof, root, result[root])
    {
      hide PortList;
      var root := roots[i];
      var ports := TreePortsOf(lines, children, lsof, listening, root);
      result := result[root := ports];
    }
  }

  /** The walk below one root, gathering ports on the way. */
  method TreePortsOf(ghost lines: seq<PsLine>, children: Children, ghost lsof: seq<LsofLine>,
                     listening: map<Pid, seq<int>>, root: Pid)
    returns (sorted: seq<int>)
    requires forall ppid, pid :: pid in ChildrenIn(children, ppid) <==> Child(lines, ppid, pid)
    requires forall pid, port :: port in PortsIn(listening, pid) <==> Holds(lsof, pid, port)
    ensures PortList(lines, lsof, root, sorted)
  {
    hide Visited, Known, Follows, Reachable, Child, Elems, Holds, ChildrenIn, PortsIn, Add, AddAll, Sorted;
    var ports: seq<int> := [];
    var stack := [root];
    var seen: seq<Pid> := [];
    Start(lines, [root], stack);
    ghost var known := Known(lines, [root]);
    while stack != []
      invariant Frontier(lines, [root], seen, stack)
      invariant forall port :: port in ports <==> exists pid :: pid in seen && port in PortsIn(listening, pid)
      decreases |known - Elems(seen)|, |stack|
    {
      var pid := stack[|stack| - 1];
      if pid in seen {
        Skip(lines, [root], seen, stack);
        stack := stack[..|stack| - 1];
      } else {
        Open(lines, [root], seen, stack, ChildrenIn(children, pid));
        Shrinks(known, seen, pid);
        seen := seen + [pid];
        ports := AddAll(ports, PortsIn(listening, pid));
        stack := stack[..|stack| - 1] + ChildrenIn(children, pid);
      }
    }
    SeenIsReachable(lines, [root], seen);
    sorted := Sorted(ports, []);
  }
}
