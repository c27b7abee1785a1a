/** What the barrier protocol promises, over every run of a drain-ordered queue. */
module BarrierTheorems {
  import opened Options
  import opened OrderedQueue
  import opened BarrierInvariant
  import opened BarrierSteps
  import opened BarrierStages

  /** Every step keeps the invariant, if a sequence that starts does not run across the seam. */
  lemma {:induction false} StepCore(s: State, step: Step)
    requires Core(s) && Enabled(s, step) && Disciplined(step) && (step.Start? ==> Clear(s))
    ensures Core(Apply(s, step))
  {
    hide Core, Clear;
    match step
    case AddFs(barrier, empty, back) => AddFsInv(s, barrier, empty, back);
    case AddSpecial(front, discard, hard) => AddSpecialInv(s, front, discard);
    case MergeBio(r) => MergeBioInv(s, r);
    case MergeRqs(r, next) => MergeRqsInv(s, r, next);
    case Dispatch(r, p) => DispatchInv(s, r, p);
    case Start => StartInv(s);
    case Peek => PeekInv(s);
    case Issue => IssueInv(s);
    case Complete(r, error) =>
      if IsProxy(r) { CompleteProxyInv(s, r, error); } else { CompletePlainInv(s, r, error); }
    case BarError(error) => BarErrorInv(s, error);
    case Requeue(r) => RequeueInv(s, r);
  }

  /** The two states hold the same requests in the same places. */
  predicate SamePlaces(s: State, t: State) {
    && t.queue == s.queue && t.elevator == s.elevator && t.driver == s.driver
    && t.nextOrdered == s.nextOrdered && t.begun == s.begun && t.hist == s.hist
  }

  lemma {:induction false} SeqPlaces(s: State, bits: OrdSeq, error: int)
    requires s.orig.Some? && s.orig.value.Fs?
    ensures SamePlaces(s, CompleteSeq(s, bits, error))
  {
    hide Union, CurSeq;
  }

  lemma {:induction false} CompletedPlaces(s: State, r: Rq, started: bool)
    requires WellTyped(s)
    ensures SamePlaces(s, Completed(s, r, started))
  {
    hide CompleteSeq;
    var t := if started then s.(inFlight := s.inFlight - Weight(r)) else s;
    if Drained(t) { SeqPlaces(t, DRAIN_BIT, 0); }
  }

  lemma {:induction false} CompleteSeam(s: State, r: Rq, error: int)
    requires WellTyped(s) && (IsProxy(r) ==> Active(s))
    ensures SamePlaces(s.(driver := s.driver - {r}), CompleteRq(s, r, error))
  {
    hide Completed, CompleteSeq;
    var t := s.(driver := s.driver - {r}, done := if r.Fs? then s.done + r.parts else s.done);
    CompletedPlaces(t, r, true);
    var u := Completed(t, r, true);
    if IsProxy(r) && u.orig.Some? && u.orig.value.Fs? { SeqPlaces(u, StageBit(r), error); }
  }

  lemma {:induction false} StartSeam(s: State)
    requires CanStart(s)
    ensures var t := Begin(s);
      t.begun == s.begun + 1 && t.hist == s.hist && t.nextOrdered == s.nextOrdered
      && t.driver == s.driver && t.elevator == s.elevator
  {
    hide CompleteSeq, SkipBits, WithProxies, SequenceMode;
    var t := Stashed(s);
    SeqPlaces(t, SkipBits(t.ordered, t.inFlight), 0);
  }

  /** What no step changes: where the seam is, the barriers so far and the mode. */
  lemma {:induction false} SeamStays(s: State, step: Step)
    requires WellTyped(s) && Enabled(s, step)
    ensures Apply(s, step).hist.base == s.hist.base && Apply(s, step).hist.flip == s.hist.flip
    ensures Apply(s, step).begun == if step.Start? then s.begun + 1 else s.begun
    ensures s.hist.bars <= Apply(s, step).hist.bars && Apply(s, step).nextOrdered == s.nextOrdered
  {
    hide CompleteRq, Completed, Begin, MayIssue, Stop, InsertAt, RequeueIndex;
    match step
    case MergeRqs(r, next) => CompletedPlaces(MergedPair(s, r, next), next, false);
    case Start => StartSeam(s);
    case Complete(r, error) => CompleteSeam(s, r, error);
    case _ =>
  }

  /** Without a seam ahead every step keeps the invariant. */
  lemma {:induction false} StepInv(s: State, step: Step)
    requires Inv(s) && Enabled(s, step) && Disciplined(step)
    ensures Inv(Apply(s, step))
  {
    hide Core, Apply, Enabled;
    CoreTyped(s);
    SeamStays(s, step);
    StepCore(s, step);
  }

  lemma {:induction false} CoreTyped(s: State)
    requires Core(s)
    ensures WellTyped(s)
  {
    hide Books, Places, QueueOk, DrainLive;
  }

  // ----- runs

  ghost predicate IsRun(mode: Ordered, states: seq<State>, steps: seq<Step>) {
    && |states| == |steps| + 1
    && states[0] == Init(mode)
    && forall i | 0 <= i < |steps| :: IsStep(states[i], steps[i], states[i + 1])
  }

  ghost predicate IsStep(s: State, step: Step, t: State) {
    WellTyped(s) && Enabled(s, step) && t == Apply(s, step)
  }

  ghost predicate DisciplinedRun(mode: Ordered, states: seq<State>, steps: seq<Step>) {
    && DrainMode(mode)
    && IsRun(mode, states, steps)
    && forall i | 0 <= i < |steps| :: Disciplined(steps[i])
  }

  lemma {:induction false} RunInv(mode: Ordered, states: seq<State>, steps: seq<Step>, k: nat)
    requires DisciplinedRun(mode, states, steps) && k < |states|
    ensures Inv(states[k])
  {
    hide Core, Apply, Enabled;
    if k == 0 {
      InitInv(mode);
    } else {
      RunInv(mode, states, steps, k - 1);
      assert IsStep(states[k - 1], steps[k - 1], states[k]);
      StepInv(states[k - 1], steps[k - 1]);
    }
  }

  // ----- separation

  predicate Ended(s: State, no: nat) { exists i | 0 <= i < |s.ended| :: s.ended[i].0 == no }

  /** What must hold when the queue hands `r` to the driver in state `s`. */
  ghost predicate Separated(s: State, r: Rq) {
    // a proxy goes out only when everything submitted before its barrier is completed
    && (IsProxy(r) ==>
          && s.orig.Some? && s.orig.value.Fs?
          && forall n: nat {:trigger n in s.done} | n < s.orig.value.no :: n in s.done)
    // data submitted after a barrier goes out only when that barrier has ended
    && (r.Fs? ==>
          && !r.barrier
          && forall p, e: nat | p in r.parts && e < |s.hist.bars| && s.hist.bars[e].Fs? && s.hist.bars[e].no < p ::
               Ended(s, s.hist.bars[e].no))
  }

  lemma {:induction false} ProxySeparated(s: State)
    requires Core(s) && Active(s) && s.ordseq.drain
    ensures s.orig.Some? && s.orig.value.Fs?
    ensures forall n: nat {:trigger n in s.done} | n < s.orig.value.no :: n in s.done
  {
    var b := s.orig.value;
    forall x, n: nat | x in Live(s) && Holds(x, n) ensures n >= b.no {
      assert GoodRq(s.hist, s.done, x);
      assert x in s.queue ==> EntryOk(s, x);
    }
    forall n: nat | n < b.no ensures n in s.done {
      assert Submitted(s.hist, n);
    }
  }

  lemma {:induction false} FsSeparated(s: State, r: Rq)
    requires Core(s) && s.queue != [] && r == s.queue[0] && MayIssue(s, r) && r.Fs?
    ensures Separated(s, r)
  {
    HeadHandedOut(s);
    assert r in Live(s) && GoodRq(s.hist, s.done, r);
    forall p, e: nat | p in r.parts && e < |s.hist.bars| && s.hist.bars[e].Fs? && s.hist.bars[e].no < p
      ensures Ended(s, s.hist.bars[e].no)
    {
      assert s.hist.epochs[p] == r.epoch;
      assert e < r.epoch;
      assert s.ended[e].0 == s.hist.bars[e].no;
    }
  }

  /** Whatever an orderly queue may hand out respects every barrier. */
  lemma {:induction false} IssueSeparated(s: State)
    requires Core(s) && s.queue != [] && MayIssue(s, s.queue[0])
    ensures Separated(s, s.queue[0])
  {
    hide Core;
    HeadHandedOut(s);
    if s.queue[0].Fs? {
      FsSeparated(s, s.queue[0]);
    } else if IsProxy(s.queue[0]) {
      ProxySeparated(s);
    }
  }

  /** Main theorem.  In every disciplined run of a drain-ordered queue, whatever is queued and
      re-queued, every request handed out respects every barrier. */
  lemma {:induction false} BarrierSeparates(mode: Ordered, states: seq<State>, steps: seq<Step>, k: nat)
    requires DisciplinedRun(mode, states, steps) && k < |steps| && steps[k].Issue?
    ensures states[k].queue != [] && Separated(states[k], states[k].queue[0])
  {
    hide Core, Separated;
    RunInv(mode, states, steps, k);
    assert IsStep(states[k], steps[k], states[k + 1]);
    IssueSeparated(states[k]);
  }

  // ----- the history variables mean what they say

  /** Step `step` from `s` completes submission `n`: the driver completes a request carrying it,
      or the barrier with that number ends. */
  ghost predicate Finishes(s: State, step: Step, t: State, n: nat) {
    || (step.Complete? && Holds(step.rq, n))
    || (s.orig.Some? && Holds(s.orig.value, n) && |t.ended| == |s.ended| + 1)
    || (step.Start? && s.queue != [] && Holds(s.queue[0], n) && |t.ended| == |s.ended| + 1)
  }

  /** What completing a stage adds to the books: nothing, or the barrier with the first error. */
  ghost predicate BookedBy(s: State, t: State) {
    || (t.done == s.done && t.ended == s.ended)
    || (&& s.orig.Some? && s.orig.value.Fs?
        && t.done == s.done + s.orig.value.parts
        && t.ended == s.ended + [(s.orig.value.no, t.orderr)])
  }

  lemma {:induction false} CompletedBooks(s: State, r: Rq, started: bool)
    requires WellTyped(s)
    ensures BookedBy(s, Completed(s, r, started))
  {
  }

  lemma {:induction false} CompleteRqBooks(s: State, r: Rq, error: int)
    requires WellTyped(s) && (IsProxy(r) ==> Active(s))
    ensures !IsProxy(r) ==> BookedBy(s.(done := if r.Fs? then s.done + r.parts else s.done), CompleteRq(s, r, error))
    ensures IsProxy(r) && Places(s) && r in s.driver ==> BookedBy(s, CompleteRq(s, r, error))
  {
    if IsProxy(r) {
      if Places(s) && r in s.driver { ProxyIsClose(s, r, error); }
    } else {
      var t := s.(driver := s.driver - {r}, done := if r.Fs? then s.done + r.parts else s.done);
      CompletedBooks(t, r, true);
    }
  }

  lemma {:induction false} DoneGrows(s: State, step: Step, n: nat)
    requires Core(s) && Enabled(s, step)
    requires n in Apply(s, step).done && n !in s.done
    ensures Finishes(s, step, Apply(s, step), n)
  {
    match step
    case Complete(r, error) => CompleteRqBooks(s, r, error);
    case MergeRqs(r, next) => CompletedBooks(MergedPair(s, r, next), next, false);
    case Start => StartHead(s); StartIsClose(s);
    case _ =>
  }

  lemma {:induction false} DoneMeansFinished(mode: Ordered, states: seq<State>, steps: seq<Step>, k: nat,
                                             n: nat) returns (j: nat)
    requires DisciplinedRun(mode, states, steps) && k < |states| && n in states[k].done
    ensures j < k && Finishes(states[j], steps[j], states[j + 1], n)
  {
    if n in states[k - 1].done {
      j := DoneMeansFinished(mode, states, steps, k - 1, n);
    } else {
      j := k - 1;
      RunInv(mode, states, steps, j);
      assert IsStep(states[j], steps[j], states[k]);
      DoneGrows(states[j], steps[j], n);
    }
  }

  // ----- progress and checks

  lemma {:induction false} Unstuck(s: State)
    requires Core(s) && Active(s)
    ensures s.driver != {} || (s.queue != [] && MayIssue(s, s.queue[0]))
  {
    if s.driver == {} && !Draining(s) { StageAtHead(s); }
  }

  /** An active sequence is never stuck: the driver owes a completion or the head may go out. */
  lemma {:induction false} NeverStuck(mode: Ordered, states: seq<State>, steps: seq<Step>, k: nat)
    requires DisciplinedRun(mode, states, steps) && k < |states| && Active(states[k])
    ensures WellTyped(states[k])
    ensures states[k].driver != {} || (states[k].queue != [] && MayIssue(states[k], states[k].queue[0]))
  {
    RunInv(mode, states, steps, k);
    Unstuck(states[k]);
  }

  lemma {:induction false} StageAtHead(s: State)
    requires Core(s) && Active(s) && s.driver == {} && !Draining(s)
    ensures s.queue != [] && MayIssue(s, s.queue[0])
  {
    hide Census, Apart, ElevatorOk, HistOk;
    var p := if CurSeq(s.ordseq) == PREFLUSH then PreFlush else if CurSeq(s.ordseq) == BAR then Bar else PostFlush;
    assert p in s.queue;
    var i :| 0 <= i < |s.queue| && s.queue[i] == p;
    var h := s.queue[0];
    assert h in s.queue && EntryOk(s, h);
    if !h.Special? {
      assert Key(s.begun, h) <= Key(s.begun, p);
      HeadWhileActive(s);
    }
  }

  /** A call of the stage-completing routine: the mask it finds and the bits it is to set. */
  datatype Call = Call(mask: OrdSeq, bits: OrdSeq)

  function DrainCalls(s: State, r: Rq, started: bool): seq<Call>
    requires WellTyped(s)
  {
    var t := if started then s.(inFlight := s.inFlight - Weight(r)) else s;
    if Drained(t) then [Call(t.ordseq, DRAIN_BIT)] else []
  }

  /** Every such call a step makes, in order. */
  function StageCalls(s: State, step: Step): seq<Call>
    requires WellTyped(s) && Enabled(s, step)
  {
    match step
    case Start =>
      var t := Stashed(s);
      if s.nextOrdered != ORDERED_NONE then [Call(t.ordseq, SkipBits(t.ordered, t.inFlight))] else []
    case MergeRqs(r, next) => DrainCalls(MergedPair(s, r, next), next, false)
    case Complete(r, _) =>
      var t := s.(driver := s.driver - {r}, done := if r.Fs? then s.done + r.parts else s.done);
      DrainCalls(t, r, true) + if IsProxy(r) then [Call(Completed(t, r, true).ordseq, StageBit(r))] else []
    case _ => []
  }

  lemma {:induction false} CallsFresh(s: State, step: Step)
    requires Core(s) && Enabled(s, step)
    ensures forall c | c in StageCalls(s, step) :: !Overlap(c.mask, c.bits)
  {
    hide Census, HistOk, Sorted, BarriersQueued, Apart, ElevatorOk, EntryOk, DrainLive;
  }

  /** The source's fatal checks and warning never fire: no stage bit is set twice, a sequence starts
      only on an idle mask, and the head never belongs to a stage already passed. */
  lemma {:induction false} ChecksSilent(mode: Ordered, states: seq<State>, steps: seq<Step>, k: nat)
    requires DisciplinedRun(mode, states, steps) && k < |steps|
    ensures var s := states[k];
      && IsStep(s, steps[k], states[k + 1])
      && (forall c | c in StageCalls(s, steps[k]) :: !Overlap(c.mask, c.bits))
      && (steps[k].Start? ==> s.ordseq == IDLE)
      && (Active(s) && s.queue != [] && !s.queue[0].Special? ==> CurSeq(s.ordseq) <= ReqSeq(s, s.queue[0]))
  {
    hide Core, StageCalls;
    var s := states[k];
    RunInv(mode, states, steps, k);
    assert IsStep(s, steps[k], states[k + 1]);
    CallsFresh(s, steps[k]);
    if Active(s) && s.queue != [] { HeadWhileActive(s); }
  }

  /** At most one barrier is reported, with the first error of its sequence. */
  ghost predicate Reported(s: State, t: State) {
    t.ended == s.ended || exists no: nat :: t.ended == s.ended + [(no, FirstError(t.errs))]
  }

  lemma {:induction false} StartErrors(s: State)
    requires Core(s) && CanStart(s)
    ensures Reported(s, StartOrdered(s))
  {
    StartHead(s);
    StartIsClose(s);
    var t := StartOrdered(s);
    assert t.ended == s.ended || t.ended == s.ended + [(s.queue[0].no, FirstError(t.errs))];
  }

  lemma {:induction false} EndedGrows(s: State, step: Step)
    requires Core(s) && Enabled(s, step) && Disciplined(step)
    ensures Reported(s, Apply(s, step))
  {
    match step
    case Start => StartErrors(s);
    case Complete(r, error) => CompleteRqErrors(s, r, error);
    case MergeRqs(r, next) => MergeRqsErrors(s, r, next);
    case _ =>
  }

  lemma {:induction false} MergeRqsErrors(s: State, r: Rq, next: Rq)
    requires Core(s) && r.Fs? && next.Fs?
    ensures Reported(s, Completed(MergedPair(s, r, next), next, false))
  {
    CompletedBooks(MergedPair(s, r, next), next, false);
    FirstErrorAppend(s.errs, 0);
    var t := Completed(MergedPair(s, r, next), next, false);
    assert t.ended == s.ended || t.ended == s.ended + [(s.orig.value.no, FirstError(t.errs))];
  }

  lemma {:induction false} CompleteRqErrors(s: State, r: Rq, error: int)
    requires Core(s) && r in s.driver && (IsProxy(r) ==> Active(s))
    ensures Reported(s, CompleteRq(s, r, error))
  {
    CompleteRqBooks(s, r, error);
    FirstErrorAppend(s.errs, error);
    FirstErrorAppend(s.errs, 0);
    if IsProxy(r) { ProxyIsClose(s, r, error); }
    var t := CompleteRq(s, r, error);
    assert t.ended == s.ended || t.ended == s.ended + [(s.orig.value.no, FirstError(t.errs))];
  }

  ghost predicate EndedInOrder(s: State) {
    && |s.ended| <= |s.hist.bars|
    && (forall i | 0 <= i < |s.ended| :: s.hist.bars[i].Fs? && s.ended[i].0 == s.hist.bars[i].no)
    && (forall i, j | 0 <= i < j < |s.ended| :: s.ended[i].0 < s.ended[j].0)
  }

  lemma {:induction false} EndedSorted(s: State)
    requires Books(s)
    ensures EndedInOrder(s)
  {
    assert forall i, j | 0 <= i < j < |s.ended| :: s.hist.bars[i].no < s.hist.bars[j].no;
  }

  /** Barriers end in submission order, each exactly once, and each with the first error its
      sequence reported (zero if there was none). */
  lemma {:induction false} BarriersEndOnce(mode: Ordered, states: seq<State>, steps: seq<Step>, k: nat)
    requires DisciplinedRun(mode, states, steps) && k < |steps|
    ensures EndedInOrder(states[k + 1])
    ensures Reported(states[k], states[k + 1])
  {
    RunInv(mode, states, steps, k + 1);
    EndedSorted(states[k + 1]);
    RunInv(mode, states, steps, k);
    assert IsStep(states[k], steps[k], states[k + 1]);
    EndedGrows(states[k], steps[k]);
  }

  // ----- a run that breaks the rule the protocol relies on

  const DRAIN_ONLY := Ordered(true, false, false, true, false, false)
  const SOME_BARRIER := Fs(0, {0}, true, false, false, 0)
  const PACKET := Special(0, false)
  const LATER := Fs(1, {1}, false, false, false, 1)

  /** The overtaking run, state by state. */
  function Overtaking(i: nat): State
    requires i < 9
  {
    var h0 := Hist([0], [SOME_BARRIER], 0, 0, false);
    var h1 := h0.(specials := 1);
    var s0 := Init(DRAIN_ONLY);
    if i == 0 then s0
    else
      var s1 := s0.(queue := [SOME_BARRIER], soft := {SOME_BARRIER}, ordcolor := true, hist := h0);
      if i == 1 then s1
      else
        var s2 := s1.(queue := [SOME_BARRIER, PACKET], soft := {SOME_BARRIER, PACKET}, ordcolor := false, hist := h1);
        if i == 2 then s2
        else
          var s3 := s2.(elevator := {LATER}, hist := h1.(epochs := [0, 1]));
          if i == 3 then s3
          else
            var s4 := s3.(queue := [Bar, PACKET], soft := {SOME_BARRIER, PACKET} + PROXIES, ordered := DRAIN_ONLY,
                          ordseq := OrdSeq(true, true, true, false, true), orig := Some(SOME_BARRIER),
                          begun := 1, errs := [0]);
            if i == 4 then s4
            else
              var s5 := s4.(queue := [PACKET], driver := {Bar}, started := {Bar}, inFlight := 1);
              if i == 5 then s5
              else
                var s6 := s5.(queue := [], driver := {Bar, PACKET}, started := {Bar, PACKET});
                if i == 6 then s6
                else
                  var s7 := s6.(queue := [LATER], elevator := {});
                  if i == 7 then s7
                  else s7.(queue := [], driver := {Bar, PACKET, LATER}, started := {Bar, PACKET, LATER}, inFlight := 2)
  }

  const OVERTAKING_STEPS: seq<Step> :=
    [AddFs(true, false, true), AddSpecial(false, false, true), AddFs(false, false, false), Start,
     Issue, Issue, Dispatch(LATER, 0), Issue]

  lemma {:induction false} OvertakingStarts()
    ensures IsStep(Overtaking(3), Start, Overtaking(4))
  {
    var s := Overtaking(3);
    assert s.queue[1..] == [PACKET];
    assert WithProxies([PACKET], DRAIN_ONLY) == [Bar, PACKET];
    assert s.started - PROXIES == {};
  }

  lemma {:induction false} OvertakingBefore(i: nat)
    requires i < 3
    ensures IsStep(Overtaking(i), OVERTAKING_STEPS[i], Overtaking(i + 1))
  {
    assert [SOME_BARRIER] + [PACKET] == [SOME_BARRIER, PACKET];
  }

  lemma {:induction false} OvertakingAfter(i: nat)
    requires 4 <= i < 8
    ensures IsStep(Overtaking(i), OVERTAKING_STEPS[i], Overtaking(i + 1))
  {
    assert [Bar, PACKET][1..] == [PACKET] && [PACKET][1..] == [] && [LATER][1..] == [];
    assert InsertAt([], 0, LATER) == [LATER];
  }

  lemma {:induction false} OvertakingStep(i: nat)
    requires i < 8
    ensures IsStep(Overtaking(i), OVERTAKING_STEPS[i], Overtaking(i + 1))
  {
    hide Overtaking, IsStep;
    if i == 3 { OvertakingStarts(); } else if i < 3 { OvertakingBefore(i); } else { OvertakingAfter(i); }
  }

  /** A packet command with the hard-barrier flag, queued behind a barrier, gives later data the
      barrier's own colour: that data is handed out while the barrier is still in the driver. */
  lemma {:induction false} HardSpecialOvertakes() returns (states: seq<State>)
    ensures IsRun(DRAIN_ONLY, states, OVERTAKING_STEPS)
    ensures OVERTAKING_STEPS[7].Issue? && Bar in states[7].driver
    ensures states[7].queue != [] && !Separated(states[7], states[7].queue[0])
  {
    states := seq(9, i requires 0 <= i < 9 => Overtaking(i));
    forall i | 0 <= i < 8 ensures IsStep(states[i], OVERTAKING_STEPS[i], states[i + 1]) {
      OvertakingStep(i);
    }
    var s := states[7];
    assert 1 in LATER.parts && s.hist.bars[0] == SOME_BARRIER;
    assert !Ended(s, 0);
  }
}
