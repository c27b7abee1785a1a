/** What a barrier's sequence has to do before the barrier may end, over every run: each stage the mode asks
    for is handed to the driver and completed, in order, and no other; and what a queue that cannot order
    does instead. */
module BarrierObligations {
  import opened Options
  import opened OrderedQueue
  import opened BarrierInvariant
  import opened BarrierSteps
  import opened BarrierStages
  import opened BarrierTheorems

  /** The stages a barrier needs: no data and nothing to flush behind it if it is empty. */
  predicate Needs(mode: Ordered, b: Rq, p: Rq)
    requires b.Fs?
  {
    match p
    case PreFlush => mode.preflush
    case Bar => mode.bar && !b.empty
    case PostFlush => mode.postflush && !b.empty
    case _ => false
  }

  predicate Passed(o: OrdSeq, p: Rq) {
    match p
    case PreFlush => o.preflush
    case Bar => o.bar
    case PostFlush => o.postflush
    case _ => false
  }

  /** The driver completes a stage of the barrier. */
  ghost predicate Completes(s: State, step: Step, p: Rq, b: Rq) {
    step.Complete? && step.rq == p && p in s.driver && s.orig == Some(b)
  }

  // ----- single steps

  lemma {:induction false} SeqPasses(s: State, bits: OrdSeq, error: int, p: Rq)
    requires s.orig.Some? && s.orig.value.Fs? && IsProxy(p)
    ensures var t := CompleteSeq(s, bits, error);
      && (Active(t) ==> t.orig.Some?)
      && (t.orig.Some? ==> t.orig == s.orig && (Passed(t.ordseq, p) <==> Passed(s.ordseq, p) || Passed(bits, p)))
      && (t.ended != s.ended ==> Passed(s.ordseq, p) || Passed(bits, p))
      && (t.ended == s.ended || exists e: int :: t.ended == s.ended + [(s.orig.value.no, e)])
      && (t.ended == s.ended <==> t.orig == s.orig)
  {
    var mask, t := Union(s.ordseq, bits), CompleteSeq(s, bits, error);
    assert Passed(mask, p) <==> Passed(s.ordseq, p) || Passed(bits, p);
    if CurSeq(mask) == DONE {
      assert Passed(mask, p) && t.orig.None?;
      hide CurSeq, Union, Passed;
      var err := if error != 0 && s.orderr == 0 then error else s.orderr;
      assert t.ended == s.ended + [(s.orig.value.no, err)] && |t.ended| > |s.ended|;
    } else {
      assert t.orig == s.orig && t.ended == s.ended;
      hide CurSeq, Union, Passed;
    }
  }

  /** A step within a sequence: it stays the same barrier's, and a stage is passed only by its completion. */
  ghost predicate WithinSequence(s: State, step: Step, t: State, p: Rq)
    requires s.orig.Some? && s.orig.value.Fs?
  {
    && (Active(t) ==> t.orig == s.orig)
    && (Active(t) && Passed(t.ordseq, p) ==> Passed(s.ordseq, p) || (step.Complete? && step.rq == p))
    && (Active(t) && Passed(s.ordseq, p) ==> Passed(t.ordseq, p))
    && (t.ended != s.ended ==> Passed(s.ordseq, p) || (step.Complete? && step.rq == p))
    && (t.ended == s.ended || exists e: int :: t.ended == s.ended + [(s.orig.value.no, e)])
  }

  lemma {:induction false} DrainPasses(p: Rq)
    ensures !Passed(DRAIN_BIT, p)
  {
  }

  lemma {:induction false} CompletedWithin(s: State, step: Step, r: Rq, started: bool, p: Rq)
    requires WellTyped(s) && Active(s) && IsProxy(p)
    ensures WithinSequence(s, step, Completed(s, r, started), p)
    ensures var t := Completed(s, r, started);
      t.orig.Some? ==> t.orig == s.orig && t.ended == s.ended && (Passed(t.ordseq, p) <==> Passed(s.ordseq, p))
  {
    hide CompleteSeq, Passed, Drained;
    var t := if started then s.(inFlight := s.inFlight - Weight(r)) else s;
    assert !Passed(DRAIN_BIT, p) by { DrainPasses(p); }
    SeqPasses(t, DRAIN_BIT, 0, p);
  }

  lemma {:induction false} StageWithin(s: State, r: Rq, error: int, p: Rq)
    requires WellTyped(s) && Active(s) && IsProxy(p) && IsProxy(r)
    ensures WithinSequence(s, Complete(r, error), CompleteRq(s, r, error), p)
  {
    var s0 := s.(driver := s.driver - {r});
    var t := Completed(s0, r, true);
    CompletedWithin(s0, Complete(r, error), r, true, p);
    if t.orig.Some? && t.orig.value.Fs? { SeqPasses(t, StageBit(r), error, p); }
    hide Completed, CompleteSeq;
  }

  lemma {:induction false} ActiveStep(s: State, step: Step, p: Rq)
    requires WellTyped(s) && Active(s) && Enabled(s, step) && IsProxy(p)
    ensures WithinSequence(s, step, Apply(s, step), p)
  {
    match step
    case Complete(r, error) =>
      if IsProxy(r) {
        StageWithin(s, r, error, p);
      } else {
        CompletedWithin(s.(driver := s.driver - {r}, done := if r.Fs? then s.done + r.parts else s.done), step, r, true,
                        p);
      }
    case MergeRqs(r, next) =>
      CompletedWithin(s.(elevator := s.elevator - {r, next} + {Merged(r, next)}), step, next, false, p);
    case _ =>
  }

  /** A sequence begins with just the stages passed that the barrier does not need. */
  ghost predicate BeginsRight(s: State, step: Step, t: State, p: Rq) {
    && (Active(t) || t.ended != s.ended ==> step.Start? && CanStart(s))
    && (step.Start? && CanStart(s) && s.nextOrdered != ORDERED_NONE ==>
          && (Active(t) ==> t.orig == Some(s.queue[0]))
          && (Active(t) ==> (Passed(t.ordseq, p) <==> !Needs(s.nextOrdered, s.queue[0], p)))
          && (t.ended != s.ended ==> !Needs(s.nextOrdered, s.queue[0], p))
          && (t.ended == s.ended || exists e: int :: t.ended == s.ended + [(s.queue[0].no, e)]))
  }

  lemma {:induction false} IdleCompleted(s: State, r: Rq, started: bool)
    requires WellTyped(s) && !Active(s)
    ensures var t := Completed(s, r, started); !Active(t) && t.ended == s.ended
  {
    hide CompleteSeq;
  }

  lemma {:induction false} StartBegins(s: State, p: Rq)
    requires CanStart(s) && s.nextOrdered != ORDERED_NONE && IsProxy(p)
    ensures BeginsRight(s, Start, StartOrdered(s), p)
  {
    var t := Stashed(s);
    SeqPasses(t, SkipBits(t.ordered, t.inFlight), 0, p);
    hide CompleteSeq, WithProxies;
  }

  lemma {:induction false} IdleStep(s: State, step: Step, p: Rq)
    requires WellTyped(s) && !Active(s) && Enabled(s, step) && IsProxy(p)
    ensures BeginsRight(s, step, Apply(s, step), p)
  {
    match step
    case Start => if s.nextOrdered != ORDERED_NONE { StartBegins(s, p); }
    case Complete(r, error) =>
      IdleCompleted(s.(driver := s.driver - {r}, done := if r.Fs? then s.done + r.parts else s.done), r, true);
    case MergeRqs(r, next) =>
      IdleCompleted(s.(elevator := s.elevator - {r, next} + {Merged(r, next)}), next, false);
    case _ =>
  }

  // ----- whole runs

  lemma {:induction false} ModeStays(mode: Ordered, states: seq<State>, steps: seq<Step>, k: nat)
    requires IsRun(mode, states, steps) && k < |states|
    ensures states[k].nextOrdered == mode
  {
    if k > 0 {
      ModeStays(mode, states, steps, k - 1);
      assert IsStep(states[k - 1], steps[k - 1], states[k]);
      hide Apply, Enabled;
      SeamStays(states[k - 1], steps[k - 1]);
    }
  }

  lemma {:induction false} OneBack(s: State, step: Step, t: State, p: Rq)
    requires IsStep(s, step, t) && Active(t) && IsProxy(p)
    ensures t.orig.Some? && t.orig.value.Fs? && (Active(s) ==> s.orig == t.orig)
    ensures Active(s) && Passed(t.ordseq, p) && !Passed(s.ordseq, p) ==> Completes(s, step, p, t.orig.value)
    ensures Active(s) && Passed(s.ordseq, p) ==> Passed(t.ordseq, p)
    ensures !Active(s) && s.nextOrdered != ORDERED_NONE ==>
      (Passed(t.ordseq, p) <==> !Needs(s.nextOrdered, t.orig.value, p))
    ensures !Active(s) ==> s.nextOrdered != ORDERED_NONE
  {
    if Active(s) {
      ActiveStep(s, step, p);
    } else {
      IdleStep(s, step, p);
    }
  }

  /** At any point of any run, whatever the mode: a stage that the barrier needs is passed exactly if the
      driver has completed it for this barrier. */
  lemma {:induction false} PassedMeansCompleted(mode: Ordered, states: seq<State>, steps: seq<Step>, k: nat, p: Rq)
    returns (j: nat)
    requires IsRun(mode, states, steps) && k < |states| && Active(states[k]) && IsProxy(p)
    ensures states[k].orig.Some? && states[k].orig.value.Fs?
    ensures !Passed(states[k].ordseq, p) ==> Needs(mode, states[k].orig.value, p)
    ensures Passed(states[k].ordseq, p) && Needs(mode, states[k].orig.value, p) ==>
      j < k && Completes(states[j], steps[j], p, states[k].orig.value)
  {
    j := 0;
    assert k > 0;
    assert IsStep(states[k - 1], steps[k - 1], states[k]);
    hide Active, IsStep, Passed, Needs, Completes;
    ModeStays(mode, states, steps, k - 1);
    OneBack(states[k - 1], steps[k - 1], states[k], p);
    if Active(states[k - 1]) {
      j := PassedMeansCompleted(mode, states, steps, k - 1, p);
      if Passed(states[k].ordseq, p) && !Passed(states[k - 1].ordseq, p) { j := k - 1; }
    }
  }

  /** The barrier that a step ends. */
  function Ending(s: State, step: Step): Rq
    requires WellTyped(s) && Enabled(s, step) && (step.Start? || s.orig.Some?)
  {
    if step.Start? then s.queue[0] else s.orig.value
  }

  /** A barrier ends only when every stage it needs has been handed to the driver and completed for it. */
  lemma {:induction false} EndsAfterStages(mode: Ordered, states: seq<State>, steps: seq<Step>, k: nat, p: Rq)
    returns (j: nat)
    requires IsRun(mode, states, steps) && mode != ORDERED_NONE && IsProxy(p)
    requires k < |steps| && states[k + 1].ended != states[k].ended
    ensures IsStep(states[k], steps[k], states[k + 1]) && (steps[k].Start? || states[k].orig.Some?)
    ensures var b := Ending(states[k], steps[k]);
      && b.Fs? && (exists e: int :: states[k + 1].ended == states[k].ended + [(b.no, e)])
      && (Needs(mode, b, p) ==> j <= k && Completes(states[j], steps[j], p, b))
  {
    j := k;
    var s, step := states[k], steps[k];
    assert IsStep(s, step, states[k + 1]);
    ModeStays(mode, states, steps, k);
    hide Apply;
    if Active(s) {
      ActiveStep(s, step, p);
      if Passed(s.ordseq, p) { j := PassedMeansCompleted(mode, states, steps, k, p); }
    } else {
      IdleStep(s, step, p);
    }
  }

  predicate Earlier(q: Rq, p: Rq) { (q.PreFlush? && (p.Bar? || p.PostFlush?)) || (q.Bar? && p.PostFlush?) }

  /** While the driver has a stage of a barrier, the barrier needs it, and the stages before it are completed. */
  lemma {:induction false} StagesInOrder(mode: Ordered, states: seq<State>, steps: seq<Step>, k: nat, p: Rq, q: Rq)
    returns (j: nat)
    requires DisciplinedRun(mode, states, steps) && k < |states| && p in states[k].driver && IsProxy(p)
    requires IsProxy(q) && Earlier(q, p)
    ensures WellTyped(states[k]) && Active(states[k]) && Needs(mode, states[k].orig.value, p)
    ensures Needs(mode, states[k].orig.value, q) ==>
      j < k && Completes(states[j], steps[j], q, states[k].orig.value)
  {
    RunInv(mode, states, steps, k);
    DriverStage(states[k], p, q);
    CoreTyped(states[k]);
    hide Core, DisciplinedRun;
    var _ := PassedMeansCompleted(mode, states, steps, k, p);
    j := PassedMeansCompleted(mode, states, steps, k, q);
  }

  lemma {:induction false} DriverStage(s: State, p: Rq, q: Rq)
    requires Core(s) && p in s.driver && IsProxy(p) && IsProxy(q) && Earlier(q, p)
    ensures Active(s) && !Passed(s.ordseq, p) && Passed(s.ordseq, q)
  {
    hide Books, Lined, Apart, ElevatorOk, DriverOk;
  }

  // ----- a queue that cannot order

  /** Such a queue never starts a sequence nor hands out a barrier, and has ended its barriers with the error
      for an operation that is not supported. */
  ghost predicate Unordered(s: State) {
    && s.nextOrdered == ORDERED_NONE && !Active(s)
    && (forall r | r in s.driver :: !IsBarrier(r))
    && (forall i | 0 <= i < |s.ended| :: s.ended[i].1 == -95)
  }

  lemma {:induction false} UnorderedStep(s: State, step: Step)
    requires WellTyped(s) && Unordered(s) && Enabled(s, step)
    ensures Unordered(Apply(s, step))
    ensures step.Start? ==>
      && s.queue != [] && s.queue[0].Fs?
      && var t := Apply(s, step); t.ended == s.ended + [(s.queue[0].no, -95)] && t.queue == s.queue[1..]
  {
    match step
    case Complete(r, error) =>
      IdleCompleted(s.(driver := s.driver - {r}, done := if r.Fs? then s.done + r.parts else s.done), r, true);
    case MergeRqs(r, next) =>
      IdleCompleted(s.(elevator := s.elevator - {r, next} + {Merged(r, next)}), next, false);
    case _ =>
  }

  lemma {:induction false} UnorderedBack(states: seq<State>, steps: seq<Step>, k: nat)
    requires IsRun(ORDERED_NONE, states, steps) && k < |states|
    ensures Unordered(states[k])
  {
    if k > 0 {
      UnorderedBack(states, steps, k - 1);
      assert IsStep(states[k - 1], steps[k - 1], states[k]);
      hide Unordered, Apply, Enabled, WellTyped;
      UnorderedStep(states[k - 1], steps[k - 1]);
    }
  }

  /** Every run of a queue that cannot order. */
  lemma {:induction false} BarriersRejected(states: seq<State>, steps: seq<Step>, k: nat)
    requires IsRun(ORDERED_NONE, states, steps) && k < |steps|
    ensures Unordered(states[k])
    ensures steps[k].Start? ==>
      && states[k].queue != [] && states[k].queue[0].Fs?
      && states[k + 1].ended == states[k].ended + [(states[k].queue[0].no, -95)]
      && states[k + 1].queue == states[k].queue[1..]
  {
    UnorderedBack(states, steps, k);
    assert IsStep(states[k], steps[k], states[k + 1]);
    hide Unordered, Apply, Enabled, WellTyped;
    UnorderedStep(states[k], steps[k]);
  }
}
