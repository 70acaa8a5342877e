/**
 The coalescing port check (`PreviewRegistry.checkPorts`): one scan at a time, and
 callers that come while one runs share the next.

 A scan's promise goes through steps that other code may come between: the scan
 settles, its `finally` runs, the promise of that settles, a `then` on it runs.
 */
module PortScanner {
  import opened Wrappers

  /** Where the promise `scan().finally(..)` is. `ok`: the scan fulfilled. */
  datatype Scan = Running | Settled(ok: bool) | Cleared(ok: bool) | Done(ok: bool)

  /** A promise `checkPorts` returns: a scan's, or that of a queued check. */
  datatype Ref = OfScan(scan: nat) | OfQueued(queued: nat)

  /** What a call got, and how many scans had begun before it. */
  datatype Answer = Answer(begun: nat, ref: Ref)

  /** A queued check: the scan it waits for, and once that one is done the answer
      of its own call. */
  datatype Queued = Queued(on: nat, fired: Option<Answer>)

  datatype State = State(
    scans: seq<Scan>, queue: seq<Queued>, checking: Option<nat>, checkAgain: Option<nat>, answers: seq<Answer>)

  const Idle := State([], [], None, None, [])

  datatype Event = Call | Settle(scan: nat, ok: bool) | Finally(scan: nat) | Finish(scan: nat) | Then(queued: nat)

  /** `checkPorts`, as a caller outside or a queued check runs it. */
  function Check(s: State): State {
    if s.checking.None? then s.(scans := s.scans + [Running], checking := Some(|s.scans|))
    else if s.checkAgain.None? then
      s.(queue := s.queue + [Queued(s.checking.value, None)], checkAgain := Some(|s.queue|))
    else s
  }

  /** What it returns. */
  function Returned(s: State): Answer {
    Answer(|s.scans|,
           if s.checking.None? then OfScan(|s.scans|)
           else if s.checkAgain.None? then OfQueued(|s.queue|)
           else OfQueued(s.checkAgain.value))
  }

  predicate Can(s: State, e: Event) {
    match e
    case Call => true
    case Settle(k, _) => k < |s.scans| && s.scans[k].Running?
    case Finally(k) => k < |s.scans| && s.scans[k].Settled?
    case Finish(k) => k < |s.scans| && s.scans[k].Cleared?
    case Then(j) =>
      j < |s.queue| && s.queue[j].fired.None? && s.queue[j].on < |s.scans| && s.scans[s.queue[j].on] == Done(true)
  }

  function Step(s: State, e: Event): State
    requires Can(s, e)
  {
    match e
    case Call => Check(s).(answers := s.answers + [Returned(s)])
    case Settle(k, ok) => s.(scans := s.scans[k := Settled(ok)])
    case Finally(k) => s.(scans := s.scans[k := Cleared(s.scans[k].ok)], checking := None)
    case Finish(k) => s.(scans := s.scans[k := Done(s.scans[k].ok)])
    case Then(j) =>
      var cleared := s.(checkAgain := None);
      var after := Check(cleared);
      after.(queue := after.queue[j := Queued(s.queue[j].on, Some(Returned(cleared)))])
  }

  ghost predicate Run(s: State, es: seq<Event>, s': State)
    decreases |es|
  {
    if es == [] then s' == s else Can(s, es[0]) && Run(Step(s, es[0]), es[1..], s')
  }

  predicate Active(scan: Scan) { scan.Running? || scan.Settled? }

  /** The answer is a promise that waits for a scan begun no earlier than the call. */
  ghost predicate Sound(s: State, a: Answer) {
    && a.begun <= |s.scans|
    && match a.ref
       case OfScan(k) => a.begun <= k < |s.scans|
       case OfQueued(j) => j < |s.queue| && (s.queue[j].fired.Some? ==> a.begun <= s.queue[j].fired.value.begun)
  }

  ghost predicate FlagsOk(s: State) {
    && (s.checking.Some? ==> s.checking.value < |s.scans|)
    && (forall k :: 0 <= k < |s.scans| ==> (Active(s.scans[k]) <==> s.checking == Some(k)))
    && (s.checkAgain.Some? ==> s.checkAgain.value < |s.queue|)
    && (forall j :: 0 <= j < |s.queue| ==> (s.queue[j].fired.None? <==> s.checkAgain == Some(j)))
    && (forall j :: 0 <= j < |s.queue| ==> s.queue[j].on < |s.scans|)
  }

  ghost predicate QueueOk(s: State) { forall j :: 0 <= j < |s.queue| ==> QueuedSound(s, j) }

  ghost predicate AnswersOk(s: State) { forall i :: 0 <= i < |s.answers| ==> Sound(s, s.answers[i]) }

  ghost predicate Inv(s: State) { FlagsOk(s) && QueueOk(s) && AnswersOk(s) }

  ghost predicate QueuedSound(s: State, j: nat)
    requires j < |s.queue|
  {
    var q := s.queue[j];
    && q.on < |s.scans|
    && (q.fired.Some? ==> Sound(s, q.fired.value) && (q.fired.value.ref.OfQueued? ==> j < q.fired.value.ref.queued))
  }

  lemma CheckKeepsFlags(s: State)
    requires FlagsOk(s)
    ensures FlagsOk(Check(s))
  {
  }

  lemma ThenKeepsFlags(s: State, j: nat)
    requires FlagsOk(s) && Can(s, Then(j))
    ensures FlagsOk(Step(s, Then(j)))
  {
  }

  lemma FlagsStay(s: State, e: Event)
    requires FlagsOk(s) && Can(s, e)
    ensures FlagsOk(Step(s, e))
  {
    match e
    case Call => CheckKeepsFlags(s);
    case Then(j) => ThenKeepsFlags(s, j);
    case _ =>
  }

  /** Later scans and queued checks leave an answer sound; so does a queued check
      that runs, as it begins after all answers that wait for it. */
  lemma SoundStays(s: State, e: Event, a: Answer)
    requires FlagsOk(s) && Can(s, e) && Sound(s, a)
    ensures Sound(Step(s, e), a)
  {
  }

  lemma AnswersStay(s: State, e: Event)
    requires FlagsOk(s) && AnswersOk(s) && Can(s, e)
    ensures AnswersOk(Step(s, e))
  {
    var t := Step(s, e);
    forall i | 0 <= i < |t.answers|
      ensures Sound(t, t.answers[i])
    {
      if i < |s.answers| {
        SoundStays(s, e, s.answers[i]);
      }
    }
  }

  lemma QueueStays(s: State, e: Event)
    requires FlagsOk(s) && QueueOk(s) && Can(s, e)
    ensures QueueOk(Step(s, e))
  {
    var t := Step(s, e);
    forall j | 0 <= j < |t.queue|
      ensures QueuedSound(t, j)
    {
      if j < |s.queue| {
        assert QueuedSound(s, j);
        if s.queue[j].fired.Some? {
          SoundStays(s, e, s.queue[j].fired.value);
        }
      }
    }
  }

  lemma StepInv(s: State, e: Event)
    requires Inv(s) && Can(s, e)
    ensures Inv(Step(s, e))
  {
    hide Can, Step, FlagsOk, QueueOk, AnswersOk;
    FlagsStay(s, e);
    QueueStays(s, e);
    AnswersStay(s, e);
  }

  lemma {:induction false} RunInv(s: State, es: seq<Event>, s': State)
    requires Inv(s) && Run(s, es, s')
    ensures Inv(s')
    decreases |es|
  {
    if es != [] {
      StepInv(s, es[0]);
      RunInv(Step(s, es[0]), es[1..], s');
    }
  }

  // ---- One scan at a time ----

  lemma OneScanAtATime(es: seq<Event>, s: State)
    requires Run(Idle, es, s)
    ensures forall i, k :: 0 <= i < |s.scans| && 0 <= k < |s.scans| && Active(s.scans[i]) && Active(s.scans[k]) ==> i == k
  {
    RunInv(Idle, es, s);
  }

  // ---- None answers with ports from before the call ----

  /** The promise has fulfilled: a queued check's does with the promise its own call
      returned. */
  ghost predicate Fulfilled(s: State, ref: Ref)
    decreases if ref.OfScan? then 0 else 1 + |s.queue| - ref.queued
  {
    match ref
    case OfScan(k) => k < |s.scans| && s.scans[k] == Done(true)
    case OfQueued(j) =>
      && j < |s.queue| && s.queue[j].fired.Some?
      && var then' := s.queue[j].fired.value.ref;
         (then'.OfQueued? ==> j < then'.queued < |s.queue|) && Fulfilled(s, then')
  }

  lemma {:induction false} FulfilledByScan(s: State, a: Answer) returns (k: nat)
    requires Inv(s) && Sound(s, a) && Fulfilled(s, a.ref)
    ensures a.begun <= k < |s.scans| && s.scans[k] == Done(true)
    decreases if a.ref.OfScan? then 0 else 1 + |s.queue| - a.ref.queued
  {
    match a.ref
    case OfScan(scan) => k := scan;
    case OfQueued(j) =>
      assert QueuedSound(s, j);
      k := FulfilledByScan(s, s.queue[j].fired.value);
  }

  /** A promise `checkPorts` returned fulfils only once a scan that began at or after
      the call has finished, whoever slips in between. */
  lemma AnswersAreFresh(es: seq<Event>, s: State, i: nat)
    requires Run(Idle, es, s) && i < |s.answers| && Fulfilled(s, s.answers[i].ref)
    ensures exists k :: s.answers[i].begun <= k < |s.scans| && s.scans[k] == Done(true)
  {
    RunInv(Idle, es, s);
    var k := FulfilledByScan(s, s.answers[i]);
  }

  // ---- And every one does fulfil ----

  /** No scan runs and no callback waits. */
  ghost predicate Quiet(s: State) {
    forall e :: Can(s, e) ==> e == Call
  }

  ghost predicate Failed(s: State, k: nat) { k < |s.scans| && s.scans[k].Done? && !s.scans[k].ok }

  /** The promise a caller holds leads to a scan that failed. */
  ghost predicate Stranded(s: State, ref: Ref)
    decreases if ref.OfScan? then 0 else 1 + |s.queue| - ref.queued
  {
    match ref
    case OfScan(k) => Failed(s, k)
    case OfQueued(j) =>
      j < |s.queue|
      && if s.queue[j].fired.None? then Failed(s, s.queue[j].on)
         else
           var then' := s.queue[j].fired.value.ref;
           (then'.OfQueued? ==> j < then'.queued < |s.queue|) && Stranded(s, then')
  }

  lemma {:induction false} QuietFulfils(s: State, a: Answer)
    requires Inv(s) && Quiet(s) && Sound(s, a)
    ensures Fulfilled(s, a.ref) <==> !Stranded(s, a.ref)
    decreases if a.ref.OfScan? then 0 else 1 + |s.queue| - a.ref.queued
  {
    match a.ref
    case OfScan(k) =>
      QuietScan(s, k);
    case OfQueued(j) =>
      assert QueuedSound(s, j);
      if s.queue[j].fired.Some? {
        QuietFulfils(s, s.queue[j].fired.value);
      } else {
        QuietScan(s, s.queue[j].on);
        assert Can(s, Then(j)) ==> Then(j) == Call;
      }
  }

  lemma QuietScan(s: State, k: nat)
    requires Quiet(s) && k < |s.scans|
    ensures s.scans[k].Done?
  {
    assert Can(s, Settle(k, true)) ==> Settle(k, true) == Call;
    assert Can(s, Finally(k)) ==> Finally(k) == Call;
    assert Can(s, Finish(k)) ==> Finish(k) == Call;
  }

  /** Once nothing is left to happen, every caller's promise has fulfilled, except
      those that wait for a scan that failed. */
  lemma NobodyIsLeftWaiting(es: seq<Event>, s: State, i: nat)
    requires Run(Idle, es, s) && Quiet(s) && i < |s.answers|
    ensures Fulfilled(s, s.answers[i].ref) <==> !Stranded(s, s.answers[i].ref)
  {
    RunInv(Idle, es, s);
    QuietFulfils(s, s.answers[i]);
  }

  lemma {:induction false} NoFailureNoneStranded(s: State, ref: Ref)
    requires forall k :: !Failed(s, k)
    ensures !Stranded(s, ref)
    decreases if ref.OfScan? then 0 else 1 + |s.queue| - ref.queued
  {
    if ref.OfQueued? && ref.queued < |s.queue| && s.queue[ref.queued].fired.Some? {
      var next := s.queue[ref.queued].fired.value.ref;
      if next.OfQueued? ==> ref.queued < next.queued < |s.queue| {
        NoFailureNoneStranded(s, next);
      }
    }
  }

  /** So, while no scan fails, nobody is left waiting. */
  lemma AllAnswered(es: seq<Event>, s: State)
    requires Run(Idle, es, s) && Quiet(s) && forall k :: !Failed(s, k)
    ensures forall i :: 0 <= i < |s.answers| ==> Fulfilled(s, s.answers[i].ref)
  {
    forall i | 0 <= i < |s.answers|
      ensures Fulfilled(s, s.answers[i].ref)
    {
      NobodyIsLeftWaiting(es, s, i);
      NoFailureNoneStranded(s, s.answers[i].ref);
    }
  }

  // ---- A scan that fails while a check is queued ----

  /** The queued check waits for a scan that failed. */
  ghost predicate Poisoned(s: State) {
    s.checkAgain.Some? && s.checkAgain.value < |s.queue| && Failed(s, s.queue[s.checkAgain.value].on)
  }

  lemma {:induction false} PoisonStays(s: State, es: seq<Event>, s': State)
    requires Inv(s) && Poisoned(s) && Run(s, es, s')
    ensures Poisoned(s') && s'.checkAgain == s.checkAgain
    decreases |es|
  {
    if es != [] {
      StepInv(s, es[0]);
      assert Poisoned(Step(s, es[0]));
      PoisonStays(Step(s, es[0]), es[1..], s');
    }
  }

  const First := Answer(0, OfScan(0))
  const Second := Answer(1, OfQueued(0))
  const Waiting := State([Running], [Queued(0, None)], Some(0), Some(0), [First, Second])
  const Broken := State([Done(false)], [Queued(0, None)], None, Some(0), [First, Second])

  lemma AfterTwoCalls() returns (es: seq<Event>)
    ensures Run(Waiting, es, Broken)
  {
    OneScan(Running, Settled(false));
    OneScan(Settled(false), Cleared(false));
    OneScan(Cleared(false), Done(false));
    es := [];
    es := Behind(Waiting.(scans := [Cleared(false)], checking := None), Finish(0), es, Broken);
    es := Behind(Waiting.(scans := [Settled(false)]), Finally(0), es, Broken);
    es := Behind(Waiting, Settle(0, false), es, Broken);
  }

  lemma OneScan(a: Scan, b: Scan)
    ensures [a][0 := b] == [b]
  {
  }

  lemma PoisonHappens() returns (es: seq<Event>)
    ensures Run(Idle, es, Broken) && Poisoned(Broken)
  {
    es := AfterTwoCalls();
    var one := State([Running], [], Some(0), None, [First]);
    assert [First] + [Second] == Waiting.answers && [] + [Queued(0, None)] == Waiting.queue;
    es := Behind(one, Call, es, Broken);
    assert [] + [First] == one.answers && [] + [Running] == one.scans;
    es := Behind(Idle, Call, es, Broken);
  }

  lemma Behind(s: State, e: Event, es: seq<Event>, s': State) returns (es': seq<Event>)
    requires Can(s, e) && Run(Step(s, e), es, s')
    ensures Run(s, es', s')
  {
    es' := [e] + es;
    assert es'[1..] == es;
  }

  // ---- Which calls are never answered ----

  predicate HasFailed(scan: Scan) { !scan.Running? && !scan.ok }

  /** The scan a call would wait for now, when one runs. */
  function Awaited(s: State): nat
    requires s.checking.Some?
  {
    if s.checkAgain.Some? && s.checkAgain.value < |s.queue| then s.queue[s.checkAgain.value].on else s.checking.value
  }

  /** A scan runs or is about to be cleared, and the one to wait for has failed. */
  predicate Doomed(s: State) { s.checking.Some? && Awaited(s) < |s.scans| && HasFailed(s.scans[Awaited(s)]) }

  /** The queued check waits for a scan that has failed. */
  predicate Lost(s: State, j: nat) {
    j < |s.queue| && s.queue[j].fired.None? && s.queue[j].on < |s.scans| && HasFailed(s.scans[s.queue[j].on])
  }

  lemma LostStep(s: State, e: Event, j: nat)
    requires Lost(s, j) && Can(s, e)
    ensures Lost(Step(s, e), j)
  {
  }

  lemma {:induction false} LostRun(s: State, es: seq<Event>, s': State, j: nat)
    requires Lost(s, j) && Run(s, es, s')
    ensures Lost(s', j)
    decreases |es|
  {
    hide Can, Step, Lost;
    if es != [] {
      LostStep(s, es[0], j);
      LostRun(Step(s, es[0]), es[1..], s', j);
    }
  }

  lemma {:induction false} Joined(s: State, es: seq<Event>, mid: State, more: seq<Event>, s': State)
    requires Run(s, es, mid) && Run(mid, more, s')
    ensures Run(s, es + more, s')
    decreases |es|
  {
    hide Can, Step;
    if es == [] {
      assert es + more == more;
    } else {
      Joined(Step(s, es[0]), es[1..], mid, more, s');
      assert (es + more)[1..] == es[1..] + more;
    }
  }

  /** A scan can be brought to its end: well, unless it has failed already. */
  lemma EndScan(s: State, k: nat) returns (es: seq<Event>, s': State)
    requires FlagsOk(s) && k < |s.scans|
    ensures Run(s, es, s') && FlagsOk(s')
    ensures s' == s.(scans := s.scans[k := Done(!HasFailed(s.scans[k]))],
                     checking := if s.checking == Some(k) then None else s.checking)
    decreases match s.scans[k] case Running => 3 case Settled(_) => 2 case Cleared(_) => 1 case Done(_) => 0
  {
    if s.scans[k].Done? {
      es, s' := [], s;
      assert s.scans[k := s.scans[k]] == s.scans;
    } else {
      var e := match s.scans[k] case Running => Settle(k, true) case Settled(_) => Finally(k) case Cleared(_) => Finish(k);
      var t := Step(s, e);
      FlagsStay(s, e);
      var more;
      more, s' := EndScan(t, k);
      assert s.scans[k := t.scans[k]][k := s'.scans[k]] == s.scans[k := s'.scans[k]];
      es := Behind(s, e, more, s');
    }
  }

  /** A queued check can be answered while its scan has not failed: the active scan ends,
      its own ends, it calls again, and that scan ends. */
  lemma AnswerQueued(s: State, j: nat) returns (es: seq<Event>, s': State)
    requires FlagsOk(s) && s.checking.Some? && j < |s.queue| && s.queue[j].fired.None?
    requires !HasFailed(s.scans[s.queue[j].on])
    ensures Run(s, es, s') && Fulfilled(s', OfQueued(j))
  {
    hide Run, FlagsOk;
    var k := s.queue[j].on;
    FlagsInRange(s, j);
    var a, one := EndScan(s, s.checking.value);
    var b, two := EndScan(one, k);
    Joined(s, a, one, b, two);
    var three := Step(two, Then(j));
    FlagsStay(two, Then(j));
    OneStep(two, Then(j));
    Joined(s, a + b, two, [Then(j)], three);
    var m := |two.scans|;
    var c, four := EndScan(three, m);
    Joined(s, a + b + [Then(j)], three, c, four);
    es, s' := a + b + [Then(j)] + c, four;
  }

  lemma FlagsInRange(s: State, j: nat)
    requires FlagsOk(s) && s.checking.Some? && j < |s.queue|
    ensures s.checking.value < |s.scans| && s.queue[j].on < |s.scans|
  {
  }

  lemma OneStep(s: State, e: Event)
    requires Can(s, e)
    ensures Run(s, [e], Step(s, e))
  {
    assert [e][1..] == [];
  }

  /** No run from here fulfils the promise. */
  ghost predicate NeverFulfils(s: State, ref: Ref) { forall es, s' :: Run(s, es, s') ==> !Fulfilled(s', ref) }

  lemma DoomedNeverFulfils(s: State)
    requires FlagsOk(s) && Doomed(s)
    ensures NeverFulfils(Step(s, Call), Returned(s).ref)
  {
    var t, j := Step(s, Call), Returned(s).ref.queued;
    forall es, s' | Run(t, es, s')
      ensures !Fulfilled(s', OfQueued(j))
    {
      LostRun(t, es, s', j);
    }
  }

  lemma OthersCanFulfil(s: State) returns (es: seq<Event>, s': State)
    requires FlagsOk(s) && !Doomed(s)
    ensures Run(Step(s, Call), es, s') && Fulfilled(s', Returned(s).ref)
  {
    var t := Step(s, Call);
    FlagsStay(s, Call);
    if s.checking.None? {
      es, s' := EndScan(t, |s.scans|);
    } else {
      es, s' := AnswerQueued(t, Returned(s).ref.queued);
    }
  }

  /** A call is never answered, whatever happens, exactly when a scan is under way and
      the one the call would wait for has already failed: the current one, in the moment
      before its `finally`, or one that failed with a check queued behind it. */
  lemma NeverAnsweredIff(before: seq<Event>, s: State)
    requires Run(Idle, before, s)
    ensures NeverFulfils(Step(s, Call), Returned(s).ref) <==> Doomed(s)
  {
    hide Fulfilled, Doomed, Can, Step;
    RunInv(Idle, before, s);
    if Doomed(s) {
      DoomedNeverFulfils(s);
    } else {
      var es, s' := OthersCanFulfil(s);
    }
  }

  /** And `checkAgain` is not cleared when the scan it waits for fails: from then on these
      are exactly the calls while a scan is under way. */
  lemma PoisonedCall(s: State, es: seq<Event>, s': State)
    requires Inv(s) && Poisoned(s) && Run(s, es, s')
    ensures Doomed(s') <==> s'.checking.Some?
    ensures s'.checking.Some? ==> Returned(s').ref == OfQueued(s.checkAgain.value) && Stranded(s', Returned(s').ref)
  {
    RunInv(s, es, s');
    PoisonStays(s, es, s');
  }

  /** The registry's two fields and what its callbacks do to them. */
  class Scanner {
    var checking: Option<nat>
    var checkAgain: Option<nat>
    var scans: nat
    var queue: seq<nat>
    ghost var view: State

    ghost predicate Valid()
      reads this
    {
      && Inv(view)
      && checking == view.checking && checkAgain == view.checkAgain
      && scans == |view.scans|
      && |queue| == |view.queue| && forall j :: 0 <= j < |queue| ==> queue[j] == view.queue[j].on
    }

    constructor ()
      ensures Valid() && view == Idle
    {
      checking, checkAgain, scans, queue := None, None, 0, [];
      view := Idle;
    }

    method CheckPorts() returns (ref: Ref)
      requires Valid()
      modifies this
      ensures Valid() && view == Step(old(view), Call) && ref == Returned(old(view)).ref
    {
      StepInv(view, Call);
      view := Step(view, Call);
      ref := Ask();
    }

    /** The body of `checkPorts`. */
    method Ask() returns (ref: Ref)
      modifies `checking, `checkAgain, `scans, `queue
      ensures old(checking).None? ==>
                checking == Some(old(scans)) && scans == old(scans) + 1 && ref == OfScan(old(scans))
                && checkAgain == old(checkAgain) && queue == old(queue)
      ensures old(checking).Some? ==>
                checking == old(checking) && scans == old(scans)
                && if old(checkAgain).Some? then
                     checkAgain == old(checkAgain) && queue == old(queue) && ref == OfQueued(checkAgain.value)
                   else
                     checkAgain == Some(|old(queue)|) && queue == old(queue) + [checking.value]
                     && ref == OfQueued(|old(queue)|)
    {
      if checking.None? {
        checking, scans := Some(scans), scans + 1;
        return OfScan(checking.value);
      }
      if checkAgain.None? {
        checkAgain, queue := Some(|queue|), queue + [checking.value];
      }
      return OfQueued(checkAgain.value);
    }

    method OnFinally(k: nat)
      requires Valid() && Can(view, Event.Finally(k))
      modifies this
      ensures Valid() && view == Step(old(view), Event.Finally(k))
    {
      StepInv(view, Event.Finally(k));
      view := Step(view, Event.Finally(k));
      checking := None;
    }

    method OnThen(j: nat) returns (ref: Ref)
      requires Valid() && Can(view, Event.Then(j))
      modifies this
      ensures Valid() && view == Step(old(view), Event.Then(j)) && view.queue[j].fired.Some?
      ensures ref == view.queue[j].fired.value.ref
    {
      StepInv(view, Event.Then(j));
      view := Step(view, Event.Then(j));
      checkAgain := None;
      ref := Ask();
    }
  }
}
