/**
 The promise lock of the preview registry (`PreviewRegistry.locked`): a call chains
 behind the last one with its key, and clears the key when it is still the last.
 */
module NameLock {
  import opened Wrappers

  datatype Phase = Waiting | Running | Settled

  /** A call of `locked`: the one whose promise it chained behind, if any. */
  datatype Op = Op(key: string, previous: Option<nat>, phase: Phase)

  /** `locks`: for a key, the call whose `tail` the map holds. */
  datatype Lock = Lock(ops: seq<Op>, locks: map<string, nat>)

  const Free := Lock([], map[])

  datatype Event = Call(key: string) | Begin(op: nat) | Settle(op: nat) | CleanUp(op: nat)

  function Get(locks: map<string, nat>, key: string): Option<nat> {
    if key in locks then Some(locks[key]) else None
  }

  predicate Can(l: Lock, e: Event) {
    match e
    case Call(_) => true
    case Begin(i) =>
      && i < |l.ops| && l.ops[i].phase.Waiting?
      && (l.ops[i].previous.Some? ==>
            l.ops[i].previous.value < |l.ops| && l.ops[l.ops[i].previous.value].phase.Settled?)
    case Settle(i) => i < |l.ops| && l.ops[i].phase.Running?
    case CleanUp(i) => i < |l.ops| && l.ops[i].phase.Settled?
  }

  function Step(l: Lock, e: Event): Lock
    requires Can(l, e)
  {
    match e
    case Call(key) => Lock(l.ops + [Op(key, Get(l.locks, key), Waiting)], l.locks[key := |l.ops|])
    case Begin(i) => l.(ops := l.ops[i := l.ops[i].(phase := Running)])
    case Settle(i) => l.(ops := l.ops[i := l.ops[i].(phase := Settled)])
    case CleanUp(i) =>
      var key := l.ops[i].key;
      if Get(l.locks, key) == Some(i) then l.(locks := l.locks - {key}) else l
  }

  ghost predicate Run(l: Lock, es: seq<Event>, l': Lock)
    decreases |es|
  {
    if es == [] then l' == l else Can(l, es[0]) && Run(Step(l, es[0]), es[1..], l')
  }

  /** The op chained behind the last one with its key that had not settled; whatever
      came before that has. */
  ghost predicate Chained(l: Lock, i: nat)
    requires i < |l.ops|
  {
    var op := l.ops[i];
    && (op.previous.Some? ==> op.previous.value < i && l.ops[op.previous.value].key == op.key)
    && (forall j :: 0 <= j < i && l.ops[j].key == op.key ==>
          l.ops[j].phase.Settled? || (op.previous.Some? && j <= op.previous.value))
    && (!op.phase.Waiting? && op.previous.Some? ==> l.ops[op.previous.value].phase.Settled?)
  }

  /** The map has the last op of a key, unless all of them have settled. */
  ghost predicate Held(l: Lock, key: string) {
    && (key in l.locks ==> l.locks[key] < |l.ops| && l.ops[l.locks[key]].key == key)
    && (forall j :: 0 <= j < |l.ops| && l.ops[j].key == key && (key in l.locks ==> l.locks[key] < j) ==>
          l.ops[j].phase.Settled?)
  }

  ghost predicate Inv(l: Lock) {
    && (forall i :: 0 <= i < |l.ops| ==> Chained(l, i))
    && (forall key :: Held(l, key))
  }

  ghost predicate BehindSettled(l: Lock, i: nat) { i < |l.ops| && l.ops[i].phase.Settled? }

  /** Whatever begins finds every earlier op with its key settled. */
  lemma {:induction false} EarlierSettled(l: Lock, i: nat, j: nat)
    requires Inv(l) && j < i < |l.ops| && l.ops[i].key == l.ops[j].key
    requires !l.ops[i].phase.Waiting? || l.ops[i].previous.None? || BehindSettled(l, l.ops[i].previous.value)
    ensures l.ops[j].phase.Settled?
    decreases i
  {
    assert Chained(l, i);
    if l.ops[i].previous.Some? {
      var p := l.ops[i].previous.value;
      if j < p {
        EarlierSettled(l, p, j);
      }
    }
  }

  lemma ChainedStays(l: Lock, e: Event, i: nat)
    requires Inv(l) && Can(l, e) && i < |l.ops|
    ensures Chained(Step(l, e), i)
  {
    assert Chained(l, i);
  }

  lemma HeldStays(l: Lock, e: Event, key: string)
    requires Inv(l) && Can(l, e)
    ensures Held(Step(l, e), key)
  {
    assert Held(l, key);
    if e.CleanUp? && Get(l.locks, l.ops[e.op].key) == Some(e.op) && key == l.ops[e.op].key {
      forall j | 0 <= j < |l.ops| && l.ops[j].key == key
        ensures l.ops[j].phase.Settled?
      {
        if j < e.op {
          EarlierSettled(l, e.op, j);
        }
      }
    }
  }

  lemma StepInv(l: Lock, e: Event)
    requires Inv(l) && Can(l, e)
    ensures Inv(Step(l, e))
  {
    var l' := Step(l, e);
    forall key
      ensures Held(l', key)
    {
      HeldStays(l, e, key);
    }
    forall i | 0 <= i < |l'.ops|
      ensures Chained(l', i)
    {
      if i < |l.ops| {
        ChainedStays(l, e, i);
      } else {
        assert Held(l, e.key);
      }
    }
  }

  lemma {:induction false} RunInv(l: Lock, es: seq<Event>, l': Lock)
    requires Inv(l) && Run(l, es, l')
    ensures Inv(l')
    decreases |es|
  {
    if es != [] {
      StepInv(l, es[0]);
      RunInv(Step(l, es[0]), es[1..], l');
    }
  }

  /** One at a time and in the order of the calls: an op has only begun when all those
      called before it with the same key have settled. */
  lemma OneAtATimeInOrder(es: seq<Event>, l: Lock)
    requires Run(Free, es, l)
    ensures forall i, j :: 0 <= j < i < |l.ops| && l.ops[i].key == l.ops[j].key && !l.ops[i].phase.Waiting? ==>
              l.ops[j].phase.Settled?
  {
    RunInv(Free, es, l);
    forall i, j | 0 <= j < i < |l.ops| && l.ops[i].key == l.ops[j].key && !l.ops[i].phase.Waiting?
      ensures l.ops[j].phase.Settled?
    {
      EarlierSettled(l, i, j);
    }
  }

  lemma {:induction false} SomeoneCanMove(l: Lock, i: nat) returns (e: Event)
    requires Inv(l) && i < |l.ops| && !l.ops[i].phase.Settled?
    ensures Can(l, e) && (e.Begin? || e.Settle?) && e.op <= i && l.ops[e.op].key == l.ops[i].key
    decreases i
  {
    assert Chained(l, i);
    if l.ops[i].phase.Running? {
      e := Settle(i);
    } else if l.ops[i].previous.Some? && !l.ops[l.ops[i].previous.value].phase.Settled? {
      e := SomeoneCanMove(l, l.ops[i].previous.value);
    } else {
      e := Begin(i);
    }
  }

  /** The lock is never stuck: while an op has not settled, it or an earlier one with
      its key can begin or is running. */
  lemma NeverStuck(es: seq<Event>, l: Lock, i: nat)
    requires Run(Free, es, l) && i < |l.ops| && !l.ops[i].phase.Settled?
    ensures exists e :: Can(l, e) && (e.Begin? || e.Settle?) && e.op <= i && l.ops[e.op].key == l.ops[i].key
  {
    RunInv(Free, es, l);
    var e := SomeoneCanMove(l, i);
  }

  ghost predicate Cleaned(l: Lock, i: nat) {
    i < |l.ops| && l.ops[i].phase.Settled? && Get(l.locks, l.ops[i].key) != Some(i)
  }

  lemma {:induction false} CleanedStays(l: Lock, es: seq<Event>, l': Lock, i: nat)
    requires Run(l, es, l') && (Cleaned(l, i) || CleanUp(i) in es)
    ensures Cleaned(l', i)
    decreases |es|
  {
    if es != [] {
      assert CleanUp(i) in es ==> es[0] == CleanUp(i) || CleanUp(i) in es[1..];
      CleanedStays(Step(l, es[0]), es[1..], l', i);
    }
  }

  /** And when each of them has cleaned up the map holds nothing. */
  lemma NothingLeft(es: seq<Event>, l: Lock)
    requires Run(Free, es, l) && forall i: nat :: i < |l.ops| ==> CleanUp(i) in es
    ensures l.locks == map[]
  {
    RunInv(Free, es, l);
    forall i: nat | i < |l.ops|
      ensures Cleaned(l, i)
    {
      CleanedStays(Free, es, l, i);
    }
    forall key
      ensures key !in l.locks
    {
      assert Held(l, key);
      assert key in l.locks ==> Cleaned(l, l.locks[key]);
    }
  }
}
