/** The rule behind the one colour bit.  The code toggles the bit for every request that carries the
    hard-barrier flag, but only file-system requests become barriers.  When a special request with
    that flag is harmless, and when it is not. */
module BarrierColours {
  import opened Options
  import opened OrderedQueue
  import opened BarrierInvariant
  import opened BarrierSteps
  import opened BarrierStages
  import opened BarrierTheorems
  import opened BarrierSeam
  import opened BarrierBreaks

  /** No live request is a discard without being a file-system request. */
  ghost predicate NoDiscards(s: State) { forall r | r in Live(s) && r.Special? :: !r.discard }

  /** The newest barrier is still queued, is empty, needs no flush, and no data since the barrier
      before it is live: its sequence will end as it starts. */
  ghost predicate Pause(s: State) {
    && s.begun < |s.hist.bars|
    && PauseAt(s.hist, s.nextOrdered, |s.hist.bars|)
    && forall r | r in Live(s) && r.Fs? :: r.barrier || r.epoch + 1 < |s.hist.bars|
  }

  ghost predicate Harmless(s: State) { NoFs(s) || Pause(s) }

  // ----- harmless: the colours only turn over

  lemma {:induction false} NoBarrierQueued(s: State)
    requires HistOk(s.hist) && BarriersQueued(s.hist, s.begun, s.queue) && NoFs(s)
    ensures !Pending(s.hist, s.begun, s.begun)
  {
    assert forall r | r in s.queue :: r in Live(s);
  }

  lemma {:induction false} NothingPending(s: State)
    requires Inv(s) && NoFs(s)
    ensures !Active(s) && s.begun == |s.hist.bars|
  {
    hide Census, Apart, Sorted, DriverOk, ProxiesOk, EntryOk, DrainLive;
    assert OrigSet(s.orig) <= Live(s);
    assert BarriersQueued(s.hist, s.begun, s.queue);
    assert !Pending(s.hist, s.begun, s.begun) by { NoBarrierQueued(s); }
  }

  lemma {:induction false} GoodEpochs(s: State)
    requires Core(s)
    ensures forall r | r in Live(s) && r.Fs? && r.barrier :: r.epoch < |s.hist.bars|
  {
    hide Places, Lined, Live, HistOk, Exclusive, Covered;
    forall r | r in Live(s) && r.Fs? && r.barrier ensures r.epoch < |s.hist.bars| {
      assert GoodRq(s.hist, s.done, r);
    }
  }

  /** What the seam needs, from what the caller can see. */
  lemma {:induction false} HarmlessTurns(t: State)
    requires Inv(t) && Harmless(t) && (NoFs(t) || NoDiscards(t))
    ensures Core(Turned(t)) && Seam(Turned(t)) && (NoFs(t) ==> t.begun == |t.hist.bars|)
  {
    if NoFs(t) { NothingPending(t); }
    GoodEpochs(t);
    SameLive(t, Turned(t));
    hide Core, Live;
    TurnedCore(t);
  }

  lemma {:induction false} SpecialHarmless(s: State, front: bool, discard: bool)
    ensures var t := AddSpecialTo(s, front, discard, false);
      && (NoFs(t) <==> NoFs(s)) && (Pause(t) <==> Pause(s)) && (!discard && NoDiscards(s) ==> NoDiscards(t))
  {
    SpecialLive(s, front, discard);
    hide Live;
  }

  lemma {:induction false} SpecialInv(s: State, front: bool, discard: bool)
    requires Inv(s) && Enabled(s, AddSpecial(front, discard, true))
    ensures Inv(AddSpecialTo(s, front, discard, false))
    ensures Tinted(AddSpecialTo(s, front, discard, false)) == AddSpecialTo(s, front, discard, true)
  {
    AddSpecialInv(s, front, discard);
    hide Core;
  }

  // ----- not harmless: some run breaks

  /** Unless the newest barrier pauses, something live makes it wait. */
  lemma {:induction false} SomethingWaits(t: State) returns (y: Rq)
    requires LastPending(t) && !Pause(t)
    ensures Waits(t, y)
  {
    y := Bar;
    if t.begun < |t.hist.bars| && PauseAt(t.hist, t.nextOrdered, |t.hist.bars|) {
      var x :| x in Live(t) && x.Fs? && !x.barrier && x.epoch + 1 >= |t.hist.bars|;
      HeldLive(t, x);
      y := x;
    } else {
      LastIsFs(t);
      hide Core, Live;
    }
  }

  lemma {:induction false} HeldLive(t: State, x: Rq)
    requires LastPending(t) && x in Live(t) && x.Fs? && !x.barrier && x.epoch + 1 >= |t.hist.bars|
    ensures Held(t, x)
  {
    hide Census, Places, Lined;
    assert x.epoch < |t.hist.bars|;
    assert t.orig.Some? ==> t.orig.value.barrier;
    PendingElevator(t);
  }

  lemma {:induction false} PendingElevator(t: State)
    requires LastPending(t)
    ensures t.elevator == {}
  {
    hide Books, Lined, Apart, DriverOk, ProxiesOk;
    assert forall r | r in t.elevator :: r in Live(t);
  }

  lemma {:induction false} LastIsFs(t: State)
    requires LastPending(t)
    ensures t.begun <= |t.hist.bars| && t.hist.bars[|t.hist.bars| - 1].Fs?
  {
    hide Census, Places, Lined;
  }

  /** Unless it is harmless, a hard special lets some disciplined run hand out a request it must not:
      data before a barrier it follows, or a proxy before data it must wait for.  The run needs no
      discard request. */
  lemma {:induction false} HardSpecialBreaks(s: State, front: bool, discard: bool) returns (steps: seq<Step>)
    requires Inv(s) && !Harmless(s) && Enabled(s, AddSpecial(front, discard, true)) && s.nextOrdered.bar
    ensures Breaks(AddSpecialTo(s, front, discard, true), steps) && Discardless(steps)
  {
    SpecialInv(s, front, discard);
    SpecialHarmless(s, front, discard);
    var t := AddSpecialTo(s, front, discard, false);
    assert t.nextOrdered.bar;
    hide Core, NoFs, Pause, AddSpecialTo, Breaks, Discardless, Waits;
    if x :| Newest(t, x) {
      steps := BreaksNewest(t, x);
    } else {
      assert OldOnly(t) by { NoneNewest(t); }
      OldMeansPending(t);
      var y := SomethingWaits(t);
      steps := BreaksPending(t, y);
    }
  }

  /** The exact rule.  Discards come as file-system requests.  From any orderly state of a queue that
      orders by draining, adding a special request with the hard-barrier flag keeps every disciplined
      continuation separated if and only if it is harmless at that moment. */
  lemma {:induction false} HardSpecialIff(s: State, front: bool)
    requires Inv(s) && NoDiscards(s) && Enabled(s, AddSpecial(front, false, true)) && s.nextOrdered.bar
    ensures (forall steps | Discardless(steps) :: !Breaks(AddSpecialTo(s, front, false, true), steps)) <==> Harmless(s)
  {
    hide Core, Seam, NoFs, Pause, NoDiscards, Breaks, Discardless;
    var u := AddSpecialTo(s, front, false, true);
    if Harmless(s) {
      var t := AddSpecialTo(s, front, false, false);
      SpecialInv(s, front, false);
      SpecialHarmless(s, front, false);
      HarmlessTurns(t);
      assert Rebased(u, |s.hist.bars|, !s.hist.flip) == Turned(t);
      forall steps | Discardless(steps) ensures !Breaks(u, steps) {
        NeverBreaks(u, steps, |s.hist.bars|, !s.hist.flip);
      }
    } else {
      var steps := HardSpecialBreaks(s, front, false);
    }
  }

  /** The rule if callers might also submit discards that are not file-system requests: then only a
      queue without any live file-system request is safe. */
  lemma {:induction false} HardSpecialDiscardIff(s: State, front: bool, discard: bool)
    requires Inv(s) && Enabled(s, AddSpecial(front, discard, true)) && s.nextOrdered.bar
    ensures (forall steps :: !Breaks(AddSpecialTo(s, front, discard, true), steps)) <==> NoFs(s)
  {
    hide Core, Seam, NoFs, Pause, NoDiscards, Breaks, Discardless;
    var t, u := AddSpecialTo(s, front, discard, false), AddSpecialTo(s, front, discard, true);
    SpecialInv(s, front, discard);
    SpecialHarmless(s, front, discard);
    if NoFs(s) {
      HarmlessTurns(t);
      assert Rebased(u, |s.hist.bars|, !s.hist.flip) == Turned(t);
      forall steps ensures !Breaks(u, steps) { NeverBreaks(u, steps, |s.hist.bars|, !s.hist.flip); }
    } else if Pause(s) {
      PausePending(t);
      var steps := BreaksPending(t, Bar);
    } else {
      var steps := HardSpecialBreaks(s, front, discard);
    }
  }

  lemma {:induction false} PausePending(t: State)
    requires Inv(t) && Pause(t)
    ensures LastPending(t)
  {
    GoodEpochs(t);
    hide Core, Live;
  }

  /** The two rules differ: an empty barrier alone on a queue that only drains. */
  lemma {:induction false} EmptyBarrierHarmless()
    ensures var s := AddFsTo(Init(DRAIN_ONLY), true, true, true);
      Inv(s) && NoDiscards(s) && !NoFs(s) && Harmless(s) && s.nextOrdered.bar
  {
    InitInv(DRAIN_ONLY);
    var s0 := Init(DRAIN_ONLY);
    hide Core;
    AddFsInv(s0, true, true, true);
    var b, s := NewFs(s0, true, true), AddFsTo(s0, true, true, true);
    assert s.queue == [b] && Live(s) == {b};
    hide Live;
  }
}
