/** The request queue as the source keeps it: fields updated in place, the sequence mask a byte of
    flag bits.  Every method is proved to take the step that `OrderedQueue` describes. */
module RequestQueueClass {
  import opened Options
  import opened OrderedQueue
  import opened BarrierInvariant
  import opened BarrierSteps
  import opened BarrierStages
  import opened BarrierTheorems
  import opened SequenceMask

  /** What the methods need from the invariant. */
  predicate Tidy(s: State) {
    && WellTyped(s)
    && (!Active(s) ==> Bar !in s.queue && PreFlush !in s.queue && PostFlush !in s.queue)
    && (forall r | r in s.elevator :: r.Fs?)
  }

  /** A running sequence keeps the head back: it has just begun to drain, or it is not the head's turn. */
  predicate HeldBack(s: State) {
    Active(s) && WellTyped(s) && s.queue != [] && (s.inFlight != 0 || !MayIssue(s, s.queue[0]))
  }

  datatype Past = Past(driver: set<Rq>, hist: Hist, begun: nat, done: set<nat>, ended: seq<(nat, int)>, errs: seq<int>)

  class RequestQueue {
    var nextOrdered: Ordered
    var queueHead: seq<Rq>
    var soft: set<Rq>
    var started: set<Rq>
    var elevator: set<Rq>
    var ordseq: Mask
    var ordered: Ordered
    var orig: Option<Rq>
    var orderr: int
    var ordcolor: bool
    var inFlight: int
    // what the driver holds and what has happened, for specification only
    ghost var past: Past

    ghost function View(): State
      reads this
    {
      State(nextOrdered, queueHead, soft, started, elevator, past.driver, Flags(ordseq), ordered, orig, orderr,
            ordcolor, inFlight, past.hist, past.begun, past.done, past.ended, past.errs)
    }

    constructor (mode: Ordered)
      ensures View() == Init(mode)
    {
      nextOrdered, queueHead, soft, started, elevator := mode, [], {}, {}, {};
      ordseq, ordered, orig, orderr, ordcolor, inFlight := NO_BITS, ORDERED_NONE, None, 0, false, 0;
      past := Past({}, Hist([], [], 0, 0, false), 0, {}, [], []);
      FlagsNamed();
    }

    /** The stage bit of a request, from its identity, its type and its colour. */
    method StageOf(rq: Rq) returns (r: Bits)
      requires orig.Some? && orig.value.Fs?
      ensures r == Bit(ReqSeq(View(), rq)) && IsStage(ReqSeq(View(), rq))
    {
      if rq == PreFlush { r := SEQ_PREFLUSH; }
      else if rq == Bar { r := SEQ_BAR; }
      else if rq == PostFlush { r := SEQ_POSTFLUSH; }
      else if !rq.Fs? { r := SEQ_DRAIN; }
      else if rq.color == orig.value.color { r := SEQ_DRAIN; }
      else { r := SEQ_DONE; }
    }

    /** Marks stages complete; the caller must not repeat a stage. */
    method CompleteStages(bits: Mask, error: int) returns (finished: bool)
      requires orig.Some? && orig.value.Fs? && !Meets(ordseq, bits)
      modifies this`ordseq, this`orig, this`orderr, this`past
      ensures View() == CompleteSeq(old(View()), Flags(bits), error)
      ensures finished <==> CurSeq(Union(Flags(old(ordseq)), Flags(bits))) == DONE
    {
      hide Flags, Union, Bit, CurSeq, Meets;
      if error != 0 && orderr == 0 { orderr := error; }
      past := past.(errs := past.errs + [error]);
      ordseq := Or(ordseq, bits);
      var cur := CurSeqBits(ordseq);
      finished := cur == SEQ_DONE;
      DoneBit(CurSeq(Flags(ordseq)));
      CurSeqIsStage(Flags(ordseq));
      FlagsNamed();
      if finished {
        past := past.(ended := past.ended + [(orig.value.no, orderr)], done := past.done + orig.value.parts);
        ordseq, orig := NO_BITS, None;
      }
    }

    /** Takes the barrier off the list and lets its proxies take its place. */
    method SwapInProxies(m: Ordered)
      requires queueHead != []
      modifies this`queueHead, this`soft, this`started, this`inFlight, this`orig
      ensures queueHead == WithProxies(old(queueHead)[1..], m) && orig == Some(old(queueHead)[0])
      ensures soft == old(soft) + PROXIES && started == old(started) - PROXIES
      ensures inFlight == old(inFlight) + if old(queueHead)[0] in old(started) then 1 else 0
    {
      var b := queueHead[0];
      if b in started { inFlight := inFlight + 1; }
      queueHead, orig := queueHead[1..], Some(b);
      if m.postflush { queueHead := [PostFlush] + queueHead; }
      if m.bar { queueHead := [Bar] + queueHead; }
      if m.preflush { queueHead := [PreFlush] + queueHead; }
      soft, started := soft + PROXIES, started - PROXIES;
    }

    method Stash()
      requires CanStart(View())
      modifies this
      ensures View() == Stashed(old(View()))
    {
      var m := SequenceMode(nextOrdered, queueHead[0].empty);
      FlagsNamed();
      hide Flags, WithProxies, SequenceMode;
      orderr, ordered, ordseq := 0, m, SEQ_STARTED;
      past := past.(errs := [], begun := past.begun + 1);
      SwapInProxies(m);
    }

    /** Opens a sequence, completes the stages that are skipped, and names the request to hand out. */
    method BeginSequence() returns (ok: bool, rq: Option<Rq>)
      requires CanStart(View())
      modifies this
      ensures View() == StartOrdered(old(View()))
      ensures ok <==> Active(View())
      ensures ok ==> (rq.Some? <==> View().ordseq.drain) && (rq.None? ==> inFlight != 0)
      ensures ok && rq.Some? ==> queueHead != [] && rq.value == queueHead[0] && IsProxy(rq.value)
    {
      hide Flags, Meets;
      Stash();
      rq := None;
      var skip := NO_BITS;
      FlagsNamed();
      if ordered.postflush { rq := Some(PostFlush); } else { skip := Or(skip, SEQ_POSTFLUSH); }
      if ordered.bar { rq := Some(Bar); } else { skip := Or(skip, SEQ_BAR); }
      if ordered.preflush { rq := Some(PreFlush); } else { skip := Or(skip, SEQ_PREFLUSH); }
      if ordered.byDrain && inFlight != 0 { rq := None; } else { skip := Or(skip, SEQ_DRAIN); }
      assert Flags(skip) == SkipBits(ordered, inFlight);
      var finished := CompleteStages(skip, 0);
      ok := !finished;
    }

    /** Ends a barrier that the queue cannot order. */
    method Reject()
      requires CanStart(View())
      modifies this`queueHead, this`past
      ensures View() == RejectBarrier(old(View()))
    {
      var b := queueHead[0];
      queueHead := queueHead[1..];
      past := past.(begun := past.begun + 1, ended := past.ended + [(b.no, -EOPNOTSUPP)], done := past.done + b.parts);
    }

    /** Whether a running sequence lets the head go out now. */
    method HeadMayGo() returns (go: bool)
      requires WellTyped(View()) && Active(View()) && queueHead != []
      ensures go == MayIssue(View(), queueHead[0])
    {
      hide Flags, Bit, Below, CurSeq;
      var head := queueHead[0];
      if head.Special? {
        go := true;
      } else if ordered.byTag {
        go := !IsBarrier(head) || head == Bar;
      } else {
        var stage := StageOf(head);
        var cur := CurSeqBits(ordseq);
        go := !Below(cur, stage);
        CurSeqIsStage(Flags(ordseq));
        BitOrder(CurSeq(Flags(ordseq)), ReqSeq(View(), head));
      }
    }

    /** Decides about the head: hand it out, hold it back (no request), or retry (not ok). */
    method DoOrdered() returns (ok: bool, rq: Option<Rq>)
      requires queueHead != [] && Tidy(View())
      modifies this
      ensures View() == if CanStart(old(View())) then Begin(old(View())) else old(View())
      ensures !ok <==> !Active(View()) && CanStart(old(View()))
      ensures ok && rq.Some? ==> queueHead != [] && rq.value == queueHead[0]
      ensures ok && CanStart(old(View())) ==> (rq.Some? <==> View().ordseq.drain) && (rq.None? ==> inFlight != 0)
      ensures ok && rq.Some? && CanStart(old(View())) ==> IsProxy(rq.value)
      ensures ok && !CanStart(old(View())) ==> (rq.Some? <==> MayIssue(View(), queueHead[0]))
      ensures ok && rq.None? ==> Active(View())
    {
      hide Flags;
      FlagsIdle(ordseq);
      var head := queueHead[0];
      if ordseq == NO_BITS {
        if head.Fs? && head.barrier {
          if nextOrdered != ORDERED_NONE {
            ok, rq := BeginSequence();
          } else {
            Reject();
            ok, rq := false, None;
          }
        } else {
          ok, rq := true, Some(head);
        }
      } else {
        var go := HeadMayGo();
        ok, rq := true, if go then Some(head) else None;
      }
    }

    /** The scheduler's dispatch hook: unless forced it may keep everything back; or it moves any request it holds to
        any place of the list that no stop flag guards. */
    method ElevatorDispatch(force: bool) returns (moved: bool, ghost step: Option<Step>)
      requires Tidy(View())
      modifies this`elevator, this`queueHead
      ensures Tidy(View())
      ensures moved ==> step.Some? && step.value.Dispatch? && IsStep(old(View()), step.value, View())
      ensures moved ==> |elevator| < |old(elevator)|
      ensures !moved ==> step.None? && View() == old(View())
      ensures force ==> (moved <==> old(elevator) != {})
    {
      moved, step := *, None;
      if force { moved := true; }
      if elevator == {} { moved := false; }
      if moved {
        var r :| r in elevator;
        var p := ChoosePlace();
        step := Some(Dispatch(r, p));
        InsertElems(queueHead, p, r);
        elevator, queueHead := elevator - {r}, InsertAt(queueHead, p, r);
      }
    }

    method ChoosePlace() returns (p: nat)
      ensures p <= |queueHead| && forall i | p <= i < |queueHead| :: !Stop(View(), queueHead[i])
    {
      p := |queueHead|;
      while p > 0 && !(queueHead[p - 1] in soft || queueHead[p - 1] in started || IsBarrier(queueHead[p - 1]) ||
                       queueHead[p - 1].PreFlush? || queueHead[p - 1].PostFlush?)
        invariant p <= |queueHead| && forall i | p <= i < |queueHead| :: !Stop(View(), queueHead[i])
      {
        if * { break; }
        p := p - 1;
      }
    }

    /** One turn of the fetch loop: consult the head, or ask the scheduler when the list is empty.
        `again` asks for another turn; `step` is the protocol step taken, if any. */
    method FetchTurn() returns (again: bool, rq: Option<Rq>, ghost step: Option<Step>)
      requires Tidy(View())
      modifies this
      ensures Tidy(View())
      ensures step.Some? ==> IsStep(old(View()), step.value, View()) && (step.value.Start? || step.value.Dispatch?)
      ensures step.None? ==> View() == old(View())
      ensures again ==> |elevator| < |old(elevator)| || (elevator == old(elevator) && |queueHead| < |old(queueHead)|)
      ensures !again && rq.Some? ==> queueHead != [] && rq.value == queueHead[0] && MayIssue(View(), rq.value)
      ensures !again && rq.None? && queueHead != [] ==> HeldBack(View())
    {
      ghost var s := View();
      step := None;
      if queueHead != [] {
        var ok;
        ok, rq := DoOrdered();
        again := !ok;
        if CanStart(s) {
          BeginTidy(s);
          step := Some(Start);
        }
      } else {
        again, step := ElevatorDispatch(false);
        rq := None;
      }
    }

    /** The fetch loop.  It takes only protocol steps, and what it returns may be handed out. */
    method NextRequest() returns (rq: Option<Rq>, ghost states: seq<State>, ghost steps: seq<Step>)
      requires Tidy(View())
      modifies this
      ensures Tidy(View())
      ensures IsPath(states, steps) && states[0] == old(View()) && states[|steps|] == View()
      ensures forall step | step in steps :: Disciplined(step)
      ensures rq.Some? ==> queueHead != [] && rq.value == queueHead[0] && MayIssue(View(), rq.value)
      ensures rq.None? && queueHead != [] ==> HeldBack(View())
      ensures old(Inv(View())) ==> Inv(View())
      ensures old(Inv(View())) && rq.None? && (queueHead != [] || Active(View())) ==> past.driver != {}
    {
      states, steps := [View()], [];
      var again := true;
      rq := None;
      while again
        invariant Tidy(View())
        invariant IsPath(states, steps) && states[0] == old(View()) && states[|steps|] == View()
        invariant forall step | step in steps :: Disciplined(step)
        invariant !again && rq.Some? ==> queueHead != [] && rq.value == queueHead[0] && MayIssue(View(), rq.value)
        invariant !again && rq.None? && queueHead != [] ==> HeldBack(View())
        decreases again, |elevator|, |queueHead|
      {
        ghost var step;
        again, rq, step := FetchTurn();
        if step.Some? {
          PathExtend(states, steps, step.value, View());
          states, steps := states + [View()], steps + [step.value];
        }
      }
      hide Inv, HeldBack, Tidy;
      if old(Inv(View())) {
        PathInv(states, steps, |steps|);
        EmptyHanded(View());
      }
    }

    /** Forces the scheduler to give up everything it holds. */
    method DrainElevator() returns (ghost states: seq<State>, ghost steps: seq<Step>)
      requires Tidy(View())
      modifies this`elevator, this`queueHead
      ensures Tidy(View()) && elevator == {}
      ensures IsPath(states, steps) && states[0] == old(View()) && states[|steps|] == View()
      ensures forall step | step in steps :: Disciplined(step)
    {
      states, steps := [View()], [];
      var moved := true;
      while moved
        invariant Tidy(View())
        invariant IsPath(states, steps) && states[0] == old(View()) && states[|steps|] == View()
        invariant forall step | step in steps :: Disciplined(step)
        invariant !moved ==> elevator == {}
        decreases moved, |elevator|
      {
        ghost var step;
        moved, step := ElevatorDispatch(true);
        if step.Some? {
          PathExtend(states, steps, step.value, View());
          states, steps := states + [View()], steps + [step.value];
        }
      }
    }

    /** Adds a new file-system request: it takes the queue's colour, a barrier toggles that colour,
        and the request joins the scheduler or the back of the list. */
    method AddFsRequest(rq: Rq, back: bool)
      requires rq.Fs? && rq.(color := ordcolor) == NewFs(View(), rq.barrier, rq.empty)
      requires (rq.barrier ==> back) && (back ==> elevator == {})
      modifies this`queueHead, this`soft, this`elevator, this`ordcolor, this`past
      ensures View() == AddFsTo(old(View()), rq.barrier, rq.empty, back)
    {
      ghost var h := past.hist;
      var r := rq.(color := ordcolor);
      past := past.(hist := h.(epochs := h.epochs + [|h.bars|], bars := if r.barrier then h.bars + [r] else h.bars));
      if r.barrier { ordcolor := !ordcolor; }
      if back {
        queueHead, soft := queueHead + [r], soft + {r};
      } else {
        elevator := elevator + {r};
      }
    }

    /** The place of a returned request among the stages: before the first entry of a later stage. */
    method RequeuePlace(rq: Rq) returns (k: nat)
      requires WellTyped(View())
      ensures k == RequeueAt(View(), rq)
    {
      hide Flags, Bit, Below;
      k := 0;
      FlagsIdle(ordseq);
      if ordseq != NO_BITS {
        var stage := StageOf(rq);
        var later := false;
        while k < |queueHead| && !later
          invariant 0 <= k <= |queueHead|
          invariant forall i | 0 <= i < k :: ReqSeq(View(), queueHead[i]) < ReqSeq(View(), rq)
          invariant later ==> k < |queueHead| && ReqSeq(View(), rq) <= ReqSeq(View(), queueHead[k])
          decreases |queueHead| - k, !later
        {
          var here := StageOf(queueHead[k]);
          later := !Below(here, stage);
          BitOrder(ReqSeq(View(), queueHead[k]), ReqSeq(View(), rq));
          if !later { k := k + 1; }
        }
        RequeueIndexUnique(View(), queueHead, ReqSeq(View(), rq), k);
      }
    }

    /** Puts a request the driver gives back in its place. */
    method RequeueRequest(rq: Rq)
      requires WellTyped(View()) && rq in past.driver
      modifies this`queueHead, this`soft, this`started, this`inFlight, this`past
      ensures View() == Requeued(old(View()), rq)
    {
      var k := RequeuePlace(rq);
      RequeuedQueue(View(), rq);
      queueHead, inFlight := InsertAt(queueHead, k, rq), inFlight - Weight(rq);
      soft, started := soft + {rq}, started - {rq};
      past := past.(driver := past.driver - {rq});
    }

    /** Whether nothing of the drain stage is left in the driver or at the head. */
    method NothingToDrain() returns (drained: bool)
      requires WellTyped(View())
      ensures drained == Drained(View())
    {
      hide Flags, Bit, Below, CurSeq;
      drained := false;
      FlagsIdle(ordseq);
      if ordseq != NO_BITS && inFlight == 0 {
        var cur := CurSeqBits(ordseq);
        CurSeqIsStage(Flags(ordseq));
        DrainIsBit();
        BitOrder(CurSeq(Flags(ordseq)), DRAIN);
        if cur == SEQ_DRAIN {
          drained := queueHead == [];
          if queueHead != [] {
            var stage := StageOf(queueHead[0]);
            drained := Below(SEQ_DRAIN, stage);
            BitOrder(DRAIN, ReqSeq(View(), queueHead[0]));
          }
        }
      }
    }

    /** Accounting for a request that leaves the driver, and the end of the drain stage. */
    method CompletedRequest(rq: Rq)
      requires WellTyped(View())
      modifies this
      ensures View() == Completed(old(View()), rq, true)
    {
      inFlight := inFlight - Weight(rq);
      var drained := NothingToDrain();
      FlagsNamed();
      DrainFresh(View());
      hide Flags, Meets, Drained, CompleteSeq;
      if drained {
        var _ := CompleteStages(SEQ_DRAIN, 0);
      }
    }

    /** The driver completes a request.  A proxy's end callback also completes its stage. */
    method CompleteRequest(rq: Rq, error: int)
      requires Inv(View()) && rq in past.driver
      modifies this
      ensures View() == CompleteRq(old(View()), rq, error)
    {
      ghost var s := View();
      StageStillClear(s, rq);
      FlagsNamed();
      hide Inv, Flags, Meets, Completed, CompleteSeq;
      past := past.(driver := past.driver - {rq}, done := if rq.Fs? then past.done + rq.parts else past.done);
      CompletedRequest(rq);
      if rq == PreFlush {
        var _ := CompleteStages(SEQ_PREFLUSH, error);
      } else if rq == Bar {
        var _ := CompleteStages(SEQ_BAR, error);
      } else if rq == PostFlush {
        var _ := CompleteStages(SEQ_POSTFLUSH, error);
      }
    }
  }

  lemma {:induction false} DoneBit(stage: int)
    ensures IsStage(stage) ==> (Bit(stage) == SEQ_DONE <==> stage == DONE)
  {
    if IsStage(stage) { BitOrder(stage, DONE); }
  }

  lemma {:induction false} DrainIsBit()
    ensures Bit(DRAIN) == SEQ_DRAIN && IsStage(DRAIN)
  {
  }

  lemma {:induction false} DrainFresh(s: State)
    requires WellTyped(s)
    ensures Drained(s) ==> !Overlap(s.ordseq, DRAIN_BIT) && s.orig.Some? && s.orig.value.Fs?
  {
  }

  /** When a proxy comes back its stage bit is clear, and stays clear through the accounting. */
  lemma {:induction false} StageStillClear(s: State, r: Rq)
    requires Inv(s) && r in s.driver
    ensures WellTyped(s) && (IsProxy(r) ==> Active(s))
    ensures IsProxy(r) ==>
      var t := Completed(s.(driver := s.driver - {r}), r, true);
      t.orig.Some? && t.orig.value.Fs? && !Overlap(t.ordseq, StageBit(r))
  {
    hide Census, HistOk, Sorted, Apart, EntryOk, BarriersQueued, DrainLive;
  }

  lemma {:induction false} RequeueIndexUnique(s: State, q: seq<Rq>, n: int, k: nat)
    requires s.orig.Some? && s.orig.value.Fs? && k <= |q|
    requires forall i | 0 <= i < k :: ReqSeq(s, q[i]) < n
    requires k < |q| ==> n <= ReqSeq(s, q[k])
    ensures RequeueIndex(s, q, n) == k
  {
  }

  /** Starting a sequence leaves the queue tidy; if it ends at once the list has shrunk, and if the
      drain stage is over the proxy at the head may go. */
  lemma {:induction false} BeginTidy(s: State)
    requires Tidy(s) && CanStart(s)
    ensures Tidy(Begin(s))
    ensures !Active(Begin(s)) ==> Begin(s).queue == s.queue[1..]
    ensures Begin(s).elevator == s.elevator
    ensures Active(Begin(s)) && Begin(s).ordseq.drain && Begin(s).queue != [] && IsProxy(Begin(s).queue[0]) ==>
      MayIssue(Begin(s), Begin(s).queue[0])
  {
    if s.nextOrdered != ORDERED_NONE {
      var t := Stashed(s);
      CompleteSeqIsClose(t, SkipBits(t.ordered, t.inFlight), 0);
    }
  }

  /** When the head is held back, or a sequence runs on an empty list, the driver owes a completion. */
  lemma {:induction false} EmptyHanded(s: State)
    requires Inv(s)
    ensures HeldBack(s) || (Active(s) && s.queue == []) ==> s.driver != {}
  {
    if Active(s) { Unstuck(s); }
    if s.inFlight != 0 { InFlightOwed(s); }
    hide Core;
  }

  lemma {:induction false} InFlightOwed(s: State)
    requires Core(s) && s.inFlight != 0
    ensures s.driver != {}
  {
    hide Books, Lined, Apart, ProxiesOk;
    assert s.driver == {} ==> Accounted(s.driver) == {};
  }

  /** Steps of the class are steps of the protocol, so the invariant survives every call. */
  lemma {:induction false} PathInv(states: seq<State>, steps: seq<Step>, k: nat)
    requires IsPath(states, steps) && Inv(states[0]) && k <= |steps|
    requires forall step | step in steps :: Disciplined(step)
    ensures Inv(states[k])
  {
    hide Inv;
    if k > 0 {
      PathInv(states, steps, k - 1);
      assert IsStep(states[k - 1], steps[k - 1], states[k]);
      StepInv(states[k - 1], steps[k - 1]);
    }
  }

  lemma {:induction false} PathExtend(states: seq<State>, steps: seq<Step>, step: Step, t: State)
    requires IsPath(states, steps) && IsStep(states[|steps|], step, t)
    ensures IsPath(states + [t], steps + [step])
  {
  }

  ghost predicate IsPath(states: seq<State>, steps: seq<Step>) {
    && |states| == |steps| + 1
    && forall i | 0 <= i < |steps| :: IsStep(states[i], steps[i], states[i + 1])
  }
}
