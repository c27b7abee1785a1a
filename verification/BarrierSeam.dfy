/** The one colour bit.  Its parity does not matter to the protocol, and it may even change behind a
    barrier whose sequence ends as it starts. */
module BarrierSeam {
  import opened Options
  import opened OrderedQueue
  import opened BarrierInvariant
  import opened BarrierSteps
  import opened BarrierStages
  import opened BarrierTheorems

  /** `steps` is a disciplined run from `s` that hands out a request it must not. */
  ghost predicate Breaks(s: State, steps: seq<Step>)
    decreases |steps|
  {
    && steps != []
    && WellTyped(s) && Enabled(s, steps[0]) && Disciplined(steps[0])
    && ((steps[0].Issue? && !Separated(s, s.queue[0])) || Breaks(Apply(s, steps[0]), steps[1..]))
  }

  ghost predicate NoFs(s: State) { forall r | r in Live(s) :: !r.Fs? }

  // ----- steps that neither read nor write the colour or the history

  function Coated(s: State, h: Hist, c: bool): State { s.(hist := h, ordcolor := c) }

  predicate Plain(step: Step) { !step.AddFs? && !step.AddSpecial? && !step.MergeBio? }

  lemma {:induction false} CoatedIndex(s: State, q: seq<Rq>, n: int, h: Hist, c: bool)
    requires s.orig.Some? && s.orig.value.Fs?
    ensures RequeueIndex(Coated(s, h, c), q, n) == RequeueIndex(s, q, n)
  {
    if q != [] { CoatedIndex(s, q[1..], n, h, c); }
  }

  lemma {:induction false} CoatedCompleted(s: State, r: Rq, started: bool, h: Hist, c: bool)
    requires WellTyped(s)
    ensures Completed(Coated(s, h, c), r, started) == Coated(Completed(s, r, started), h, c)
  {
  }

  lemma {:induction false} CoatedEnd(s: State, bit: OrdSeq, error: int, h: Hist, c: bool)
    ensures EndStage(Coated(s, h, c), bit, error) == Coated(EndStage(s, bit, error), h, c)
  {
  }

  lemma {:induction false} CoatedComplete(s: State, r: Rq, error: int, h: Hist, c: bool)
    requires WellTyped(s) && (IsProxy(r) ==> Active(s))
    ensures CompleteRq(Coated(s, h, c), r, error) == Coated(CompleteRq(s, r, error), h, c)
  {
    hide Completed, EndStage;
    var t := s.(driver := s.driver - {r}, done := if r.Fs? then s.done + r.parts else s.done);
    CoatedCompleted(t, r, true, h, c);
    CoatedEnd(Completed(t, r, true), StageBit(r), error, h, c);
  }

  lemma {:induction false} CoatedSeq(s: State, bits: OrdSeq, error: int, h: Hist, c: bool)
    requires s.orig.Some? && s.orig.value.Fs?
    ensures CompleteSeq(Coated(s, h, c), bits, error) == Coated(CompleteSeq(s, bits, error), h, c)
  {
    hide Union, CurSeq;
  }

  lemma {:induction false} CoatedStash(s: State, h: Hist, c: bool)
    requires CanStart(s)
    ensures CanStart(Coated(s, h, c)) && Stashed(Coated(s, h, c)) == Coated(Stashed(s), h, c)
  {
    hide WithProxies, SequenceMode;
  }

  lemma {:induction false} CoatedBegin(s: State, h: Hist, c: bool)
    requires CanStart(s)
    ensures CanStart(Coated(s, h, c)) && Begin(Coated(s, h, c)) == Coated(Begin(s), h, c)
  {
    CoatedStash(s, h, c);
    var t := Stashed(s);
    assert t.orig.Some? && t.orig.value.Fs?;
    CoatedSeq(t, SkipBits(t.ordered, t.inFlight), 0, h, c);
    hide Stashed, CompleteSeq, SkipBits;
  }

  lemma {:induction false} CoatedEnabled(s: State, step: Step, h: Hist, c: bool)
    requires WellTyped(s) && Plain(step)
    ensures Enabled(Coated(s, h, c), step) <==> Enabled(s, step)
  {
    if step.Dispatch? && Enabled(Coated(s, h, c), step) {
      forall i | step.pos <= i < |s.queue| ensures !Stop(s, s.queue[i]) { assert !Stop(Coated(s, h, c), s.queue[i]); }
    }
  }

  lemma {:induction false} CoatedMergeRqs(s: State, r: Rq, next: Rq, h: Hist, c: bool)
    requires WellTyped(s) && r.Fs? && next.Fs?
    ensures Completed(MergedPair(Coated(s, h, c), r, next), next, false) == Coated(Completed(MergedPair(s, r, next),
        next, false), h, c)
  {
    hide Completed;
    CoatedCompleted(MergedPair(s, r, next), next, false, h, c);
  }

  lemma {:induction false} CoatedRequeue(s: State, r: Rq, h: Hist, c: bool)
    requires WellTyped(s)
    ensures Requeued(Coated(s, h, c), r) == Coated(Requeued(s, r), h, c)
  {
    hide RequeueIndex, InsertAt;
    if Active(s) { CoatedIndex(s, s.queue, ReqSeq(s, r), h, c); }
  }

  lemma {:induction false} CoatedSmall(s: State, step: Step, h: Hist, c: bool)
    requires WellTyped(s) && Enabled(s, step) && Enabled(Coated(s, h, c), step)
    requires step.Dispatch? || step.Peek? || step.Issue? || step.BarError?
    ensures Apply(Coated(s, h, c), step) == Coated(Apply(s, step), h, c)
  {
    hide InsertAt, MayIssue, Stop;
  }

  lemma {:induction false} CoatedStep(s: State, step: Step, h: Hist, c: bool)
    requires WellTyped(s) && Plain(step) && Enabled(s, step)
    ensures WellTyped(Coated(s, h, c)) && Enabled(Coated(s, h, c), step)
    ensures Apply(Coated(s, h, c), step) == Coated(Apply(s, step), h, c)
  {
    CoatedEnabled(s, step, h, c);
    hide CompleteRq, Completed, Begin, Requeued, MayIssue, Stop, Drained, CanStart, InsertAt;
    match step
    case MergeRqs(r, next) => CoatedMergeRqs(s, r, next, h, c);
    case Start => CoatedBegin(s, h, c);
    case Complete(r, error) => CoatedComplete(s, r, error, h, c);
    case Requeue(r) => CoatedRequeue(s, r, h, c);
    case _ => CoatedSmall(s, step, h, c);
  }

  // ----- no live file-system request: only the parity of the colours changes

  function Rebased(s: State, base: nat, flip: bool): State { s.(hist := s.hist.(base := base, flip := flip)) }

  lemma {:induction false} StepRebased(s: State, step: Step, base: nat, flip: bool)
    requires WellTyped(s) && Enabled(s, step)
    ensures var t := Rebased(s, base, flip);
      WellTyped(t) && Enabled(t, step) && Apply(t, step) == Rebased(Apply(s, step), base, flip)
  {
    if Plain(step) {
      CoatedStep(s, step, s.hist.(base := base, flip := flip), s.ordcolor);
      PlainKeeps(s, step);
      hide Apply, Enabled;
    }
  }

  lemma {:induction false} PlainKeeps(s: State, step: Step)
    requires WellTyped(s) && Enabled(s, step) && Plain(step)
    ensures Apply(s, step).hist == s.hist && Apply(s, step).ordcolor == s.ordcolor
  {
    CoatedStep(s, step, s.hist, s.ordcolor);
    hide Apply, Enabled;
    assert Coated(s, s.hist, s.ordcolor) == s;
  }

  // ----- turning the colours over

  /** Everything live came before the newest barrier, or is that barrier. */
  ghost predicate OldOnly(s: State) { forall r | r in Live(s) && r.Fs? :: r.epoch < |s.hist.bars| }

  lemma {:induction false} SpecialLive(s: State, front: bool, discard: bool)
    ensures Live(AddSpecialTo(s, front, discard, false)) == Live(s) + {Special(s.hist.specials, discard)}
  {
  }

  lemma {:induction false} SameLive(t: State, u: State)
    requires u.elevator == t.elevator && u.queue == t.queue && u.driver == t.driver && u.orig == t.orig
    ensures Live(u) == Live(t)
  {
  }

  /** The seam put behind the newest barrier, and the colour of what comes next turned over. */
  function Turned(t: State): State {
    t.(ordcolor := !t.ordcolor, hist := t.hist.(base := |t.hist.bars|, flip := !t.hist.flip))
  }

  lemma {:induction false} TurnedLined(t: State)
    requires Places(t) && Lined(t)
    ensures Places(Turned(t)) && Lined(Turned(t))
  {
    var u := Turned(t);
    hide Apart, Sorted;
    assert forall r | r in t.queue :: EntryOk(t, r);
    assert BarriersQueued(u.hist, u.begun, u.queue) by {
      forall e: nat | Pending(u.hist, u.begun, e)
        ensures u.hist.bars[e] in u.queue
      {
        assert Pending(t.hist, t.begun, e);
      }
    }
  }

  /** Nothing live is from before the seam that is already behind. */
  lemma {:induction false} LiveFromSeam(s: State)
    requires Inv(s)
    ensures forall r | r in Live(s) && r.Fs? :: s.hist.base <= r.epoch
  {
    hide Census, Apart, Sorted, BarriersQueued, ProxiesOk, DrainLive;
    forall r | r in Live(s) && r.Fs? ensures s.hist.base <= r.epoch {
      if r in s.queue { assert EntryOk(s, r); }
    }
  }

  lemma {:induction false} TurnedBooks(t: State)
    requires Books(t) && OldOnly(t) && !(Active(t) && t.begun == |t.hist.bars|)
    requires forall r | r in Live(t) && r.Fs? :: t.hist.base <= r.epoch
    ensures Books(Turned(t))
  {
    var u := Turned(t);
    SameLive(t, u);
    hide Live;
    forall r | r in Live(u) ensures GoodRq(u.hist, u.done, r) { assert GoodRq(t.hist, t.done, r); }
    assert Covered(u.hist, u.done, Live(u)) by {
      forall n: nat | Submitted(u.hist, n) && n !in u.done
        ensures exists r :: r in Live(u) && Holds(r, n)
      {
        assert Submitted(t.hist, n);
      }
    }
  }

  lemma {:induction false} TurnedCore(t: State)
    requires Inv(t) && OldOnly(t) && !(Active(t) && t.begun == |t.hist.bars|)
    ensures Core(Turned(t))
  {
    LiveFromSeam(t);
    hide Books, Places, Lined, OldOnly, Live;
    TurnedLined(t);
    TurnedBooks(t);
  }

  // ----- passing the seam

  /** A live request that does not hold up the barrier before the seam. */
  predicate Quiet(base: nat, r: Rq) {
    && (r.Fs? ==> r.barrier || r.epoch + 1 != base)
    && (r.Special? ==> !r.discard)
  }

  /** The barrier before `base` is empty, and the mode has no flush to do before it. */
  ghost predicate PauseAt(h: Hist, mode: Ordered, base: nat) {
    0 < base <= |h.bars| && h.bars[base - 1].Fs? && h.bars[base - 1].empty && !mode.preflush
  }

  /** The seam is behind, or it lies behind a queued barrier whose sequence will end as it starts. */
  ghost predicate Seam(s: State) {
    || s.hist.base <= s.begun
    || (PauseAt(s.hist, s.nextOrdered, s.hist.base) && forall r | r in Live(s) :: Quiet(s.hist.base, r))
  }

  lemma {:induction false} NothingCounts(s: State)
    requires Core(s) && !Active(s) && s.hist.base == s.begun + 1 && forall r | r in Live(s) :: Quiet(s.hist.base, r)
    ensures s.inFlight == 0
  {
    hide Books, Lined, Apart;
    forall r | r in s.driver ensures !Accounts(r) { assert r in Live(s) && Quiet(s.hist.base, r); }
    assert Accounted(s.driver) == {};
  }

  /** When that barrier's turn comes its sequence has no stage left to wait for. */
  lemma {:induction false} SeamClear(s: State)
    requires Core(s) && Seam(s) && CanStart(s)
    ensures Clear(s)
  {
    hide Core, Live, Quiet;
    if s.hist.base == s.begun + 1 {
      StartHead(s);
      NothingCounts(s);
    }
  }

  // what a step can bring to life

  predicate Brought(s: State, step: Step, r: Rq) {
    || IsProxy(r)
    || (r.Fs? && r.epoch == |s.hist.bars|)
    || (step.AddSpecial? && r.Special? && r.discard == step.discard)
  }

  lemma {:induction false} CompletedLive(s: State, r: Rq, started: bool)
    requires WellTyped(s)
    ensures Live(Completed(s, r, started)) <= Live(s)
  {
    hide Union, CurSeq;
  }

  lemma {:induction false} CompleteLive(s: State, r: Rq, error: int)
    requires WellTyped(s) && (IsProxy(r) ==> Active(s))
    ensures Live(CompleteRq(s, r, error)) <= Live(s)
  {
    hide Completed, Union, CurSeq;
    var t := s.(driver := s.driver - {r}, done := if r.Fs? then s.done + r.parts else s.done);
    CompletedLive(t, r, true);
    var u := Completed(t, r, true);
    assert Live(EndStage(u, StageBit(r), error)) <= Live(u);
    assert Live(t) <= Live(s);
  }

  lemma {:induction false} StartLive(s: State, r: Rq)
    requires CanStart(s) && r in Live(Begin(s))
    ensures r in Live(s) || IsProxy(r)
  {
    hide Union, CurSeq, SkipBits;
  }

  lemma {:induction false} RequeueLive(s: State, r: Rq)
    requires WellTyped(s) && r in s.driver
    ensures Live(Requeued(s, r)) <= Live(s)
  {
    hide RequeueIndex;
  }

  lemma {:induction false} StepLive(s: State, step: Step, r: Rq)
    requires WellTyped(s) && Enabled(s, step) && ElevatorOk(s.elevator, |s.hist.bars|) && r in Live(Apply(s, step))
    ensures r in Live(s) || Brought(s, step, r)
  {
    hide CompleteRq, Completed, Begin, Requeued, MayIssue, Stop, Drained;
    match step
    case MergeRqs(x, next) => CompletedLive(MergedPair(s, x, next), next, false);
    case Start => StartLive(s, r);
    case Complete(x, error) => CompleteLive(s, x, error);
    case Requeue(x) => RequeueLive(s, x);
    case _ =>
  }

  lemma {:induction false} QuietStep(s: State, step: Step, base: nat, r: Rq)
    requires WellTyped(s) && Enabled(s, step) && ElevatorOk(s.elevator, |s.hist.bars|) && r in Live(Apply(s, step))
    requires base <= |s.hist.bars| && (step.AddSpecial? ==> !step.discard) && forall x | x in Live(s) :: Quiet(base, x)
    ensures Quiet(base, r)
  {
    StepLive(s, step, r);
    hide Apply, Enabled, Live, ElevatorOk;
  }

  lemma {:induction false} PauseStays(h: Hist, mode: Ordered, base: nat, h': Hist)
    requires PauseAt(h, mode, base) && h.bars <= h'.bars
    ensures PauseAt(h', mode, base)
  {
  }

  lemma {:induction false} SeamStep(s: State, step: Step)
    requires Core(s) && Seam(s) && Enabled(s, step)
    requires s.hist.base <= s.begun || (step.AddSpecial? ==> !step.discard)
    ensures Seam(Apply(s, step))
  {
    CoreElevator(s);
    hide Core, Apply, Enabled, Live, ElevatorOk, Quiet, PauseAt;
    SeamStays(s, step);
    var t := Apply(s, step);
    if t.hist.base > t.begun {
      PauseStays(s.hist, s.nextOrdered, s.hist.base, t.hist);
      forall r | r in Live(t) ensures Quiet(t.hist.base, r) { QuietStep(s, step, s.hist.base, r); }
    }
  }

  lemma {:induction false} CoreElevator(s: State)
    requires Core(s)
    ensures WellTyped(s) && ElevatorOk(s.elevator, |s.hist.bars|)
  {
    hide Books, QueueOk, DrainLive, Apart;
  }

  /** No step of the run adds a discard request that is not a file-system request. */
  predicate Discardless(steps: seq<Step>) {
    forall i | 0 <= i < |steps| :: steps[i].AddSpecial? ==> !steps[i].discard
  }

  /** Every disciplined run from an orderly state is separated, whatever parity its colours have, and
      if there is a seam ahead, every run without such discards. */
  lemma {:induction false} NeverBreaks(s: State, steps: seq<Step>, base: nat, flip: bool)
    requires Core(Rebased(s, base, flip)) && Seam(Rebased(s, base, flip))
    requires base <= s.begun || Discardless(steps)
    ensures !Breaks(s, steps)
    decreases |steps|
  {
    hide Core, Seam, Clear, Separated, Apply, Enabled;
    var t := Rebased(s, base, flip);
    if steps != [] && WellTyped(s) && Enabled(s, steps[0]) && Disciplined(steps[0]) {
      var step := steps[0];
      StepRebased(s, step, base, flip);
      if step.Start? { SeamClear(t) by { StartEnabled(t); } }
      StepCore(t, step);
      SeamStep(t, step);
      SeamStays(s, step);
      assert base > s.begun ==> Discardless(steps[1..]);
      NeverBreaks(Apply(s, step), steps[1..], base, flip);
      if step.Issue? {
        IssueEnabled(t);
        IssueSeparated(t);
        SeparatedRebased(s, s.queue[0], base, flip);
      }
    }
  }

  lemma {:induction false} StartEnabled(s: State)
    requires WellTyped(s) && Enabled(s, Start)
    ensures CanStart(s)
  {
  }

  lemma {:induction false} IssueEnabled(s: State)
    requires WellTyped(s) && Enabled(s, Issue)
    ensures s.queue != [] && MayIssue(s, s.queue[0])
  {
  }

  lemma {:induction false} SeparatedRebased(s: State, r: Rq, base: nat, flip: bool)
    requires Separated(Rebased(s, base, flip), r)
    ensures Separated(s, r)
  {
    var t := Rebased(s, base, flip);
    forall p, e: nat | r.Fs? && p in r.parts && e < |s.hist.bars| && s.hist.bars[e].Fs? && s.hist.bars[e].no < p
      ensures Ended(s, s.hist.bars[e].no)
    {
      assert Ended(t, t.hist.bars[e].no);
    }
  }
}
