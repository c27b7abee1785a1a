/** Runs that go wrong once the colour of new requests has been turned over: every one is built from
    ordinary steps, and only where nothing else will do from a discard request. */
module BarrierBreaks {
  import opened Options
  import opened OrderedQueue
  import opened BarrierInvariant
  import opened BarrierSteps
  import opened BarrierStages
  import opened BarrierTheorems
  import opened BarrierSeam

  /** The state with the colour the next request gets turned over. */
  function Tinted(s: State): State { Coated(s, s.hist, !s.ordcolor) }

  lemma {:induction false} BreaksCons(s: State, step: Step, rest: seq<Step>)
    requires WellTyped(s) && Enabled(s, step) && Disciplined(step) && Breaks(Apply(s, step), rest)
    ensures Breaks(s, [step] + rest)
  {
    hide Apply, Enabled, Separated;
    assert ([step] + rest)[1..] == rest;
  }

  lemma {:induction false} OneStep(step: Step)
    requires !step.AddSpecial?
    ensures Discardless([step])
  {
  }

  lemma {:induction false} DiscardlessCons(step: Step, rest: seq<Step>)
    requires !step.AddSpecial? && Discardless(rest)
    ensures Discardless([step] + rest)
  {
  }

  /** A step that does not touch the colours may come first. */
  lemma {:induction false} TintedCons(s: State, step: Step, rest: seq<Step>)
    requires WellTyped(s) && Enabled(s, step) && Plain(step) && Breaks(Tinted(Apply(s, step)), rest)
    ensures Breaks(Tinted(s), [step] + rest)
  {
    CoatedStep(s, step, s.hist, !s.ordcolor);
    PlainKeeps(s, step);
    hide Apply, Enabled;
    BreaksCons(Tinted(s), step, rest);
  }

  // how far a state is from having nothing left to do

  function Heft(r: Rq): nat { if r.Fs? && r.barrier then 20 else 2 }

  function HeftOf(q: seq<Rq>): nat { if q == [] then 0 else Heft(q[0]) + HeftOf(q[1..]) }

  function Mu(s: State): nat { 3 * |s.elevator| + HeftOf(s.queue) + |s.driver| }

  lemma {:induction false} HeftConcat(a: seq<Rq>, b: seq<Rq>)
    ensures HeftOf(a + b) == HeftOf(a) + HeftOf(b)
  {
    if a == [] { assert a + b == b; } else { assert (a + b)[1..] == a[1..] + b; HeftConcat(a[1..], b); }
  }

  lemma {:induction false} ProxyHeft(q: seq<Rq>, m: Ordered)
    ensures HeftOf(WithProxies(q, m)) <= HeftOf(q) + 6
  {
    HeftConcat([PostFlush], q);
    var q1 := if m.postflush then [PostFlush] + q else q;
    HeftConcat([Bar], q1);
    var q2 := if m.bar then [Bar] + q1 else q1;
    HeftConcat([PreFlush], q2);
    assert HeftOf([PostFlush]) == 2 && HeftOf([Bar]) == 2 && HeftOf([PreFlush]) == 2;
  }

  lemma {:induction false} DispatchDown(s: State, r: Rq)
    requires WellTyped(s) && r in s.elevator && r.Fs? && !r.barrier
    ensures Enabled(s, Dispatch(r, |s.queue|)) && Mu(Apply(s, Dispatch(r, |s.queue|))) < Mu(s)
  {
    var t := Apply(s, Dispatch(r, |s.queue|));
    assert t.queue == s.queue + [r];
    HeftConcat(s.queue, [r]);
    assert HeftOf([r]) == 2;
  }

  lemma {:induction false} IssueDown(s: State)
    requires WellTyped(s) && Enabled(s, Issue)
    ensures Mu(Apply(s, Issue)) < Mu(s)
  {
    hide MayIssue;
  }

  /** Completing leaves the list and the scheduler alone. */
  lemma {:induction false} CompleteDown(s: State, r: Rq)
    requires WellTyped(s) && Enabled(s, Complete(r, 0))
    ensures var t := Apply(s, Complete(r, 0)); Mu(t) < Mu(s) && SamePlaces(s.(driver := s.driver - {r}), t)
  {
    hide Completed, CompleteSeq;
    var t := s.(driver := s.driver - {r}, done := if r.Fs? then s.done + r.parts else s.done);
    CompletedPlaces(t, r, true);
    var u := Completed(t, r, true);
    if IsProxy(r) && u.orig.Some? && u.orig.value.Fs? { SeqPlaces(u, StageBit(r), 0); }
  }

  lemma {:induction false} StashDown(s: State)
    requires CanStart(s)
    ensures var t := Stashed(s);
      && Mu(t) + 12 < Mu(s) && t.driver == s.driver && t.elevator == s.elevator && t.begun == s.begun + 1
      && t.hist == s.hist && t.nextOrdered == s.nextOrdered && t.orig.Some? && t.orig.value.Fs?
      && (forall r | r in s.queue[1..] :: r in t.queue)
      && (forall r | r in t.queue :: r in s.queue || IsProxy(r))
  {
    ProxyHeft(s.queue[1..], SequenceMode(s.nextOrdered, s.queue[0].empty));
  }

  lemma {:induction false} StartDown(s: State)
    requires CanStart(s)
    ensures var t := Begin(s);
      && Mu(t) + 12 < Mu(s) && t.driver == s.driver && t.elevator == s.elevator && t.begun == s.begun + 1
      && t.hist == s.hist && t.nextOrdered == s.nextOrdered
      && (forall r | r in s.queue[1..] :: r in t.queue)
      && (forall r | r in t.queue :: r in s.queue || IsProxy(r))
  {
    StashDown(s);
    var t := Stashed(s);
    SeqPlaces(t, SkipBits(t.ordered, t.inFlight), 0);
    hide Stashed, CompleteSeq, SkipBits;
  }

  // ----- breaking with a live request of the newest epoch

  /** A sequence of the wrong colour is draining while the earlier x is in the driver. */
  ghost predicate Doomed(u: State, x: Rq, w: Rq, p: nat, m: Ordered) {
    && x.Fs? && w.Fs? && p in x.parts && p !in u.done && p !in w.parts
    && u.orig.Some? && u.orig.value.Fs? && u.orig.value.color != x.color && p < u.orig.value.no
    && m.bar && DrainMode(m) && u.ordered == m
    && u.ordseq == OrdSeq(true, false, !m.preflush, false, !m.postflush)
    && u.queue == WithProxies([], m) && u.driver == {x, w} && u.inFlight == 2
  }

  lemma {:induction false} BehindProxies(u: State, x: Rq, w: Rq, p: nat, m: Ordered)
    requires Doomed(u, x, w, p, m)
    ensures Requeued(u, x).queue == u.queue + [x] && Requeued(u, x).driver == {w} && Requeued(u, x).inFlight == 1
  {
    hide RequeueIndex, WithProxies;
    ProxiesBelow(u, m);
    var k := RequeueIndex(u, u.queue, ReqSeq(u, x));
    assert k == |u.queue| && ReqSeq(u, x) == DONE;
    assert InsertAt(u.queue, k, x) == u.queue + [x];
    assert {x, w} - {x} == {w};
  }

  lemma {:induction false} ProxiesBelow(u: State, m: Ordered)
    requires u.orig.Some? && u.orig.value.Fs?
    ensures forall i | 0 <= i < |WithProxies([], m)| :: ReqSeq(u, WithProxies([], m)[i]) < DONE
  {
  }

  /** The last accounted request completes: the drain stage ends although x has not. */
  lemma {:induction false} DrainsEarly(v: State, x: Rq, w: Rq, m: Ordered)
    requires w.Fs? && v.orig.Some? && v.orig.value.Fs? && m.bar
    requires v.ordseq == OrdSeq(true, false, !m.preflush, false, !m.postflush)
    requires v.queue == WithProxies([], m) + [x] && v.driver == {w} && v.inFlight == 1
    ensures var t := CompleteRq(v, w, 0);
      && t.ordseq == OrdSeq(true, true, !m.preflush, false, !m.postflush)
      && t.queue == v.queue && t.done == v.done + w.parts && t.orig == v.orig && t.ordered == v.ordered
  {
    var t := v.(driver := v.driver - {w}, inFlight := 0, done := v.done + w.parts);
    assert v.queue[0].PreFlush? || v.queue[0].Bar?;
    assert Drained(t);
  }

  lemma {:induction false} ProxyTooEarly(t: State, p: nat, m: Ordered)
    requires t.ordseq == OrdSeq(true, true, !m.preflush, false, !m.postflush) && DrainMode(t.ordered)
    requires t.orig.Some? && t.orig.value.Fs? && p < t.orig.value.no && p !in t.done
    requires t.queue != [] && t.queue[0] == if m.preflush then PreFlush else Bar
    ensures Breaks(t, [Issue])
  {
    assert MayIssue(t, t.queue[0]);
    assert !Separated(t, t.queue[0]);
    hide Separated, MayIssue;
  }

  lemma {:induction false} RequeuedKeeps(u: State, x: Rq)
    requires WellTyped(u)
    ensures var v := Requeued(u, x);
      v.orig == u.orig && v.done == u.done && v.ordseq == u.ordseq && v.ordered == u.ordered
  {
    hide RequeueIndex, InsertAt;
  }

  lemma {:induction false} DoomedBreaks(u: State, x: Rq, w: Rq, p: nat, m: Ordered)
    requires Doomed(u, x, w, p, m)
    ensures Breaks(u, [Requeue(x)] + ([Complete(w, 0)] + [Issue]))
  {
    hide Requeued, CompleteRq, Breaks;
    var v := Requeued(u, x);
    BehindProxies(u, x, w, p, m);
    RequeuedKeeps(u, x);
    DrainsEarly(v, x, w, m);
    ProxyTooEarly(CompleteRq(v, w, 0), p, m);
    BreaksCons(v, Complete(w, 0), [Issue]);
    BreaksCons(u, Requeue(x), [Complete(w, 0)] + [Issue]);
  }

  /** x is live and in the newest epoch. */
  predicate Newest(s: State, x: Rq) {
    x.Fs? && x.epoch == |s.hist.bars| && (x in s.elevator || x in s.queue || x in s.driver)
  }

  lemma {:induction false} NewestFacts(s: State, x: Rq)
    requires Inv(s) && Newest(s, x)
    ensures !x.barrier && (Active(s) ==> x !in s.driver) && x.color == s.ordcolor && x.parts != {}
    ensures forall p | p in x.parts :: p < |s.hist.epochs| && p !in s.done
  {
    hide Apart, Sorted, ProxiesOk, EntryOk, DrainLive;
    assert x in Live(s) && GoodRq(s.hist, s.done, x);
  }

  /** Idle, with nothing but x outstanding. */
  ghost predicate Alone(s: State, x: Rq) {
    !Active(s) && s.elevator == {} && s.queue == [] && s.driver == {x} && Newest(s, x)
  }

  lemma {:induction false} AloneFacts(s: State, x: Rq)
    requires Inv(s) && Alone(s, x)
    ensures s.inFlight == 1 && DrainMode(s.nextOrdered) && forall r | r in s.started :: !(r.Fs? && r.barrier)
  {
    hide Census, HistOk, Apart, ProxiesOk, EntryOk, BarriersQueued;
    assert Accounted(s.driver) == {x};
  }

  /** A new request of the other colour, added and handed out. */
  function Companion(s: State): Rq { NewFs(Tinted(s), false, false) }

  function A2(s: State): State {
    var w := Companion(s);
    Tinted(s).(hist := s.hist.(epochs := s.hist.epochs + [|s.hist.bars|]), soft := s.soft + {w}, queue := [],
               started := s.started + {w}, driver := s.driver + {w}, inFlight := s.inFlight + 1)
  }

  lemma {:induction false} AloneCompanion(s: State, rest: seq<Step>)
    requires !Active(s) && s.queue == [] && s.elevator == {} && Breaks(A2(s), rest)
    ensures Breaks(Tinted(s), [AddFs(false, false, true)] + ([Issue] + rest))
  {
    hide Separated;
    var w := Companion(s);
    var a1 := AddFsTo(Tinted(s), false, false, true);
    assert a1.queue == [w] && a1.queue[1..] == [];
    assert Apply(a1, Issue) == A2(s);
    BreaksCons(a1, Issue, rest);
    BreaksCons(Tinted(s), AddFs(false, false, true), [Issue] + rest);
  }

  /** A sequence that starts with requests in flight begins by draining. */
  lemma {:induction false} StartShape(a: State, b: Rq)
    requires CanStart(a) && a.queue == [b] && !b.empty && b !in a.started && a.inFlight > 0
    requires DrainMode(a.nextOrdered) && a.nextOrdered.bar
    ensures var u, m := Begin(a), a.nextOrdered;
      && u.orig == Some(b) && u.done == a.done && u.ordered == m && u.driver == a.driver && u.inFlight == a.inFlight
      && u.ordseq == OrdSeq(true, false, !m.preflush, false, !m.postflush) && u.queue == WithProxies([], m)
  {
    hide WithProxies;
    assert a.queue[1..] == [];
  }

  lemma {:induction false} AloneStarts(s: State, x: Rq, p: nat)
    requires Inv(s) && Alone(s, x) && s.nextOrdered.bar && p in x.parts
    ensures var a3 := AddFsTo(A2(s), true, false, true);
      CanStart(a3) && Doomed(Begin(a3), x, Companion(s), p, s.nextOrdered)
  {
    hide Core, WithProxies, Begin;
    NewestFacts(s, x);
    AloneFacts(s, x);
    StartShape(AddFsTo(A2(s), true, false, true), NewFs(A2(s), true, false));
  }

  function DoomedSteps(x: Rq, w: Rq): seq<Step> { [Requeue(x)] + ([Complete(w, 0)] + [Issue]) }

  lemma {:induction false} DoomedStart(a: State, x: Rq, w: Rq, p: nat, m: Ordered)
    requires CanStart(a) && Doomed(Begin(a), x, w, p, m)
    ensures Breaks(a, [Start] + DoomedSteps(x, w))
  {
    hide Begin, Doomed, Breaks;
    DoomedBreaks(Begin(a), x, w, p, m);
    BreaksCons(a, Start, DoomedSteps(x, w));
  }

  lemma {:induction false} AddBarrierFirst(a: State, rest: seq<Step>)
    requires !Active(a) && a.elevator == {} && Breaks(AddFsTo(a, true, false, true), rest)
    ensures Breaks(a, [AddFs(true, false, true)] + rest)
  {
    hide AddFsTo, Breaks;
    BreaksCons(a, AddFs(true, false, true), rest);
  }

  lemma {:induction false} BreaksAlone(s: State, x: Rq) returns (steps: seq<Step>)
    requires Inv(s) && Alone(s, x) && s.nextOrdered.bar
    ensures Breaks(Tinted(s), steps) && Discardless(steps)
  {
    NewestFacts(s, x);
    var p :| p in x.parts;
    AloneStarts(s, x, p);
    var w, a2 := Companion(s), A2(s);
    assert !Active(a2) && a2.elevator == {};
    hide Begin, Doomed, Core, AddFsTo, A2, Companion, Tinted, CanStart, Breaks, DoomedSteps;
    DoomedStart(AddFsTo(a2, true, false, true), x, w, p, s.nextOrdered);
    var rest := [Start] + DoomedSteps(x, w);
    AddBarrierFirst(a2, rest);
    AloneCompanion(s, [AddFs(true, false, true)] + rest);
    steps := [AddFs(false, false, true)] + ([Issue] + ([AddFs(true, false, true)] + rest));
    AloneSteps(x, w);
  }

  lemma {:induction false} AloneSteps(x: Rq, w: Rq)
    ensures Discardless([AddFs(false, false, true)] +
                        ([Issue] + ([AddFs(true, false, true)] + ([Start] + DoomedSteps(x, w)))))
  {
  }

  /** Some step brings an orderly state closer to having nothing to do.  `keep` is not completed. */
  ghost predicate Closer(s: State, step: Step) {
    && WellTyped(s) && Enabled(s, step) && Plain(step)
    && Mu(Apply(s, step)) < Mu(s) && Inv(Apply(s, step))
    && Apply(s, step).nextOrdered == s.nextOrdered && Apply(s, step).hist == s.hist
  }

  lemma {:induction false} InvParts(s: State)
    requires Inv(s)
    ensures WellTyped(s) && ElevatorOk(s.elevator, |s.hist.bars|)
    ensures forall r | r in s.driver && IsProxy(r) :: Active(s)
  {
    hide Books, QueueOk, DrainLive, Apart;
  }

  lemma {:induction false} DispatchCloser(s: State, r: Rq)
    requires Inv(s) && r in s.elevator
    ensures Closer(s, Dispatch(r, |s.queue|))
    ensures var t := Apply(s, Dispatch(r, |s.queue|));
      t.elevator == s.elevator - {r} && t.queue == s.queue + [r] && t.driver == s.driver
  {
    hide Core, Mu;
    InvParts(s);
    DispatchDown(s, r);
    StepInv(s, Dispatch(r, |s.queue|));
  }

  lemma {:induction false} IssueCloser(s: State)
    requires Inv(s) && s.queue != [] && MayIssue(s, s.queue[0])
    ensures Closer(s, Issue)
    ensures var t := Apply(s, Issue);
      t.elevator == s.elevator && t.queue == s.queue[1..] && t.driver == s.driver + {s.queue[0]} && t.begun == s.begun
  {
    hide Core, Mu, MayIssue;
    InvParts(s);
    IssueDown(s);
    StepInv(s, Issue);
  }

  lemma {:induction false} CompleteCloser(s: State, r: Rq)
    requires Inv(s) && r in s.driver
    ensures Closer(s, Complete(r, 0))
    ensures var t := Apply(s, Complete(r, 0)); SamePlaces(s.(driver := s.driver - {r}), t)
  {
    hide Core, Mu, CompleteRq;
    InvParts(s);
    CompleteDown(s, r);
    StepInv(s, Complete(r, 0));
  }

  lemma {:induction false} StartCloser(s: State)
    requires Inv(s) && CanStart(s)
    ensures Closer(s, Start) && Mu(Apply(s, Start)) + 12 < Mu(s)
    ensures var t := Apply(s, Start);
      && t.elevator == s.elevator && t.driver == s.driver && t.begun == s.begun + 1
      && (forall r | r in s.queue[1..] :: r in t.queue) && (forall r | r in t.queue :: r in s.queue || IsProxy(r))
  {
    hide Core, Mu, Begin;
    InvParts(s);
    StartDown(s);
    StepInv(s, Start);
  }

  lemma {:induction false} CloserCons(s: State, step: Step, rest: seq<Step>)
    requires Closer(s, step) && Breaks(Tinted(Apply(s, step)), rest)
    ensures Breaks(Tinted(s), [step] + rest)
  {
    hide Core, Mu, Apply, Enabled;
    TintedCons(s, step, rest);
  }

  lemma {:induction false} IdleHead(s: State)
    requires Inv(s) && !Active(s)
    ensures s.queue != [] && !CanStart(s) ==> MayIssue(s, s.queue[0])
  {
    hide Census, HistOk, Sorted, Apart, EntryOk;
    if s.queue != [] { assert s.queue[0] in s.queue; }
  }

  /** A step that keeps x live, unless x is all there is. */
  lemma {:induction false} StepKeeping(s: State, x: Rq) returns (step: Step)
    requires Inv(s) && Newest(s, x) && !Alone(s, x)
    ensures Closer(s, step) && Newest(Apply(s, step), x) && !step.AddSpecial?
  {
    NewestFacts(s, x);
    hide Core, Mu, MayIssue, Enabled;
    if s.elevator != {} {
      var r :| r in s.elevator;
      step := Dispatch(r, |s.queue|);
      DispatchCloser(s, r);
    } else if s.queue != [] && MayIssue(s, s.queue[0]) {
      step := Issue;
      IssueCloser(s);
      assert x in s.queue ==> x == s.queue[0] || x in s.queue[1..];
    } else if CanStart(s) {
      step := Start;
      StartCloser(s);
      assert x in s.queue ==> x == s.queue[0] || x in s.queue[1..];
    } else {
      if Active(s) { Unstuck(s); } else { IdleHead(s); }
      var r :| r in s.driver && r != x;
      step := Complete(r, 0);
      CompleteCloser(s, r);
    }
  }

  lemma {:induction false} BreaksNewest(s: State, x: Rq) returns (steps: seq<Step>)
    requires Inv(s) && Newest(s, x) && s.nextOrdered.bar
    ensures Breaks(Tinted(s), steps) && Discardless(steps)
    decreases Mu(s)
  {
    hide Core, Newest, Alone, Breaks;
    if Alone(s, x) {
      steps := BreaksAlone(s, x);
    } else {
      var step := StepKeeping(s, x);
      assert !step.AddSpecial?;
      var rest := BreaksNewest(Apply(s, step), x);
      CloserCons(s, step, rest);
      steps := [step] + rest;
    }
  }

  // ----- breaking with a live barrier and nothing newer

  /** Later data queued at the end, with a history and a colour of one's own choosing. */
  function Tailed(s: State, y: Rq): State { s.(queue := s.queue + [y], soft := s.soft + {y}) }

  lemma {:induction false} TailedIssue(s: State, y: Rq)
    requires WellTyped(s) && s.queue != [] && MayIssue(s, s.queue[0])
    ensures var t := Tailed(s, y); Enabled(t, Issue) && Apply(t, Issue) == Tailed(Apply(s, Issue), y)
  {
    assert (s.queue + [y])[1..] == s.queue[1..] + [y];
  }

  lemma {:induction false} TailedCompleted(s: State, y: Rq, r: Rq)
    requires WellTyped(s) && s.queue != []
    ensures Completed(Tailed(s, y), r, true) == Tailed(Completed(s, r, true), y)
  {
    hide Union, CurSeq;
  }

  lemma {:induction false} TailedEnd(s: State, y: Rq, bit: OrdSeq)
    ensures EndStage(Tailed(s, y), bit, 0) == Tailed(EndStage(s, bit, 0), y)
  {
    hide Union, CurSeq;
  }

  lemma {:induction false} TailedComplete(s: State, y: Rq, r: Rq)
    requires WellTyped(s) && s.queue != [] && Enabled(s, Complete(r, 0))
    ensures var t := Tailed(s, y); Enabled(t, Complete(r, 0)) && Apply(t, Complete(r, 0)) == Tailed(Apply(s,
        Complete(r, 0)), y)
  {
    hide Completed, EndStage;
    var t := s.(driver := s.driver - {r}, done := if r.Fs? then s.done + r.parts else s.done);
    TailedCompleted(t, y, r);
    TailedEnd(Completed(t, r, true), y, StageBit(r));
  }

  /** The newest barrier is in progress and nothing of the newest epoch is live. */
  ghost predicate LastRunning(s: State) { Inv(s) && Active(s) && s.begun == |s.hist.bars| && OldOnly(s) }

  /** y looks as if it had come before the running barrier, though it came after. */
  predicate Impostor(s: State, y: Rq, h: Hist) {
    && y.Fs? && !y.barrier && y.parts == {y.no} && h.bars == s.hist.bars
    && s.orig.Some? && s.orig.value.Fs? && y.color == s.orig.value.color && s.orig.value.no < y.no
  }

  lemma {:induction false} RunningFacts(s: State)
    requires LastRunning(s)
    ensures s.orig.Some? && s.orig.value.Fs? && s.begun == |s.hist.bars| > 0 && s.orig.value == s.hist.bars[s.begun - 1]
    ensures s.orig.value.color != s.ordcolor && s.orig.value.no < |s.hist.epochs| && s.elevator == {}
    ensures !Ended(s, s.orig.value.no) && CurSeq(s.ordseq) >= DRAIN
  {
    hide Exclusive, Covered, Apart, DriverOk, ProxiesOk, QueueOk, DrainLive;
    var b := s.orig.value;
    assert b in Live(s) && GoodRq(s.hist, s.done, b);
    forall i | 0 <= i < |s.ended|
      ensures s.ended[i].0 != b.no
    {
      assert s.hist.bars[i].no < s.hist.bars[s.begun - 1].no;
    }
    assert forall r: Rq :: r !in s.elevator;
  }

  lemma {:induction false} ImpostorEarly(u: State, y: Rq, e: nat)
    requires y.Fs? && y.no in y.parts && e < |u.hist.bars| && u.hist.bars[e].Fs? && u.hist.bars[e].no < y.no
    requires !Ended(u, u.hist.bars[e].no)
    ensures !Separated(u, y)
  {
  }

  /** The impostor reaches the head while the barrier is running: it is handed out. */
  lemma {:induction false} ImpostorGoes(s: State, y: Rq, h: Hist, c: bool)
    requires LastRunning(s) && Impostor(s, y, h) && s.queue == []
    ensures Breaks(Coated(Tailed(s, y), h, c), [Issue])
  {
    hide Core, LastRunning, Separated, Issued;
    RunningFacts(s);
    var u := Coated(Tailed(s, y), h, c);
    assert u.queue == [y] && Active(u) && ReqSeq(u, y) == DRAIN;
    assert DrainMode(u.ordered) by { RunningDrains(s); }
    assert Ended(u, s.orig.value.no) == Ended(s, s.orig.value.no);
    ImpostorEarly(u, y, s.begun - 1);
  }

  lemma {:induction false} RunningDrains(s: State)
    requires LastRunning(s)
    ensures DrainMode(s.ordered)
  {
    hide Census, Places, Lined;
  }

  lemma {:induction false} BlockedHead(s: State)
    requires LastRunning(s) && s.queue != [] && !MayIssue(s, s.queue[0])
    ensures IsProxy(s.queue[0]) && s.driver != {}
  {
    Unstuck(s);
    hide Exclusive, Covered, Apart, Sorted, BarriersQueued, DriverOk, ProxiesOk, DrainLive;
    var r := s.queue[0];
    assert r in s.queue && r in Live(s);
    assert GoodRq(s.hist, s.done, r) && EntryOk(s, r);
  }

  lemma {:induction false} RunningIssue(s: State)
    requires LastRunning(s) && s.queue != [] && MayIssue(s, s.queue[0])
    ensures Closer(s, Issue) && LastRunning(Apply(s, Issue)) && Apply(s, Issue).orig == s.orig
  {
    hide Core, Mu, MayIssue;
    IssueCloser(s);
    assert forall r | r in s.queue[1..] :: r in s.queue;
  }

  lemma {:induction false} RunningComplete(s: State, r: Rq)
    requires LastRunning(s) && s.queue != [] && IsProxy(s.queue[0]) && r in s.driver
    ensures Closer(s, Complete(r, 0)) && LastRunning(Apply(s, Complete(r, 0)))
    ensures Apply(s, Complete(r, 0)).orig == s.orig
  {
    CompleteCloser(s, r);
    var t := Apply(s, Complete(r, 0));
    hide Apply, Enabled, Mu;
    assert Active(t) by { ProxyQueued(t); }
    RunningFacts(s);
    RunningFacts(t);
  }

  lemma {:induction false} ProxyQueued(s: State)
    requires Inv(s) && s.queue != [] && IsProxy(s.queue[0])
    ensures Active(s)
  {
    hide Books, Lined;
    assert s.queue[0] in s.queue;
  }

  /** Everything ahead of the impostor goes out while the barrier keeps running. */
  lemma {:induction false} BreaksRunning(s: State, y: Rq, h: Hist, c: bool) returns (steps: seq<Step>)
    requires LastRunning(s) && Impostor(s, y, h)
    ensures Breaks(Coated(Tailed(s, y), h, c), steps) && Discardless(steps)
    decreases Mu(s)
  {
    InvParts(s);
    hide LastRunning, Core, Mu, Apply, Enabled, MayIssue, Breaks, Coated, Tailed, Impostor, Discardless;
    if s.queue == [] {
      ImpostorGoes(s, y, h, c);
      steps := [Issue];
      OneStep(Issue);
    } else if MayIssue(s, s.queue[0]) {
      RunningIssue(s);
      var rest := BreaksRunning(Apply(s, Issue), y, h, c);
      TailedIssue(s, y);
      CoatedStep(Tailed(s, y), Issue, h, c);
      BreaksCons(Coated(Tailed(s, y), h, c), Issue, rest);
      DiscardlessCons(Issue, rest);
      steps := [Issue] + rest;
    } else {
      BlockedHead(s);
      var r :| r in s.driver;
      RunningComplete(s, r);
      var rest := BreaksRunning(Apply(s, Complete(r, 0)), y, h, c);
      TailedComplete(s, y, r);
      CoatedStep(Tailed(s, y), Complete(r, 0), h, c);
      BreaksCons(Coated(Tailed(s, y), h, c), Complete(r, 0), rest);
      DiscardlessCons(Complete(r, 0), rest);
      steps := [Complete(r, 0)] + rest;
    }
  }

  lemma {:induction false} BreaksLast(s: State) returns (steps: seq<Step>)
    requires LastRunning(s)
    ensures Breaks(Tinted(s), steps) && Discardless(steps)
  {
    RunningFacts(s);
    InvParts(s);
    hide Core, LastRunning, Breaks, Apply, Discardless, Enabled;
    var y := NewFs(Tinted(s), false, false);
    var h := s.hist.(epochs := s.hist.epochs + [|s.hist.bars|]);
    assert Impostor(s, y, h);
    AddImpostor(s, y, h);
    hide Tinted, Coated, Tailed, Impostor, NewFs;
    var rest := BreaksRunning(s, y, h, !s.ordcolor);
    BreaksCons(Tinted(s), AddFs(false, false, true), rest);
    DiscardlessCons(AddFs(false, false, true), rest);
    steps := [AddFs(false, false, true)] + rest;
  }

  lemma {:induction false} AddImpostor(s: State, y: Rq, h: Hist)
    requires WellTyped(s) && s.elevator == {} && y == NewFs(Tinted(s), false, false)
    requires h == s.hist.(epochs := s.hist.epochs + [|s.hist.bars|])
    ensures WellTyped(Tinted(s)) && Enabled(Tinted(s), AddFs(false, false, true))
    ensures Apply(Tinted(s), AddFs(false, false, true)) == Coated(Tailed(s, y), h, !s.ordcolor)
  {
  }

  /** The newest barrier is still to end, and nothing of the newest epoch is live. */
  ghost predicate LastPending(s: State) {
    Inv(s) && OldOnly(s) && |s.hist.bars| > 0 && (s.begun < |s.hist.bars| || Active(s))
  }

  lemma {:induction false} PendingQueued(s: State)
    requires LastPending(s) && s.begun < |s.hist.bars|
    ensures s.queue != [] && s.hist.bars[|s.hist.bars| - 1] in s.queue && s.elevator == {} && WellTyped(s)
    ensures CanStart(s) ==> s.queue[0] == s.hist.bars[s.begun]
  {
    if CanStart(s) { StartHead(s); }
    hide HistOk, Census, Sorted, DriverOk, ProxiesOk, Apart, EntryOk;
    assert Pending(s.hist, s.begun, |s.hist.bars| - 1);
    assert forall r: Rq :: r !in s.elevator;
  }

  lemma {:induction false} TowardsIssue(s: State)
    requires LastPending(s) && s.queue != [] && MayIssue(s, s.queue[0])
    ensures Closer(s, Issue) && LastPending(Apply(s, Issue))
  {
    InvParts(s);
    IssueCloser(s);
    IssuedLive(s);
    hide Core, Mu, MayIssue, Live;
  }

  lemma {:induction false} OldStarts(s: State)
    requires CanStart(s) && OldOnly(s)
    ensures OldOnly(Begin(s))
  {
    StartSeam(s);
    hide Begin, Live;
    forall r | r in Live(Begin(s)) && r.Fs? ensures r.epoch < |s.hist.bars| { StartLive(s, r); }
  }

  lemma {:induction false} TowardsStart(s: State)
    requires LastPending(s) && CanStart(s) && s.begun + 1 < |s.hist.bars|
    ensures Closer(s, Start) && LastPending(Apply(s, Start))
  {
    hide Core, Mu, Begin, OldOnly;
    StartCloser(s);
    OldStarts(s);
  }

  lemma {:induction false} TowardsComplete(s: State, r: Rq)
    requires LastPending(s) && s.begun < |s.hist.bars| && r in s.driver
    ensures Closer(s, Complete(r, 0)) && LastPending(Apply(s, Complete(r, 0)))
  {
    hide Core, Mu, CompleteRq, Live;
    CompleteCloser(s, r);
    InvParts(s);
    CompleteLive(s, r, 0);
  }

  /** Data queued right before the newest barrier. */
  predicate Held(s: State, y: Rq) {
    y.Fs? && !y.barrier && y.epoch + 1 == |s.hist.bars| && (y in s.queue || y in s.driver)
  }

  lemma {:induction false} HeldElsewhere(s: State, y: Rq)
    requires Inv(s) && Held(s, y) && Active(s) && s.begun < |s.hist.bars|
    ensures y !in s.driver
  {
    hide Books, Lined, Apart, ProxiesOk;
  }

  /** A step on the way to the newest barrier's turn, which completes nothing held. */
  ghost predicate Towards(s: State, step: Step, y: Rq) {
    && Closer(s, step) && LastPending(Apply(s, step)) && !step.AddSpecial?
    && Apply(s, step).begun < |s.hist.bars| && (Held(s, y) ==> Held(Apply(s, step), y))
  }

  lemma {:induction false} HeldIssue(s: State, y: Rq)
    requires LastPending(s) && s.begun < |s.hist.bars| && s.queue != [] && MayIssue(s, s.queue[0])
    ensures Towards(s, Issue, y)
  {
    TowardsIssue(s);
    IssueCloser(s);
    hide Core, Mu, MayIssue, OldOnly;
    assert y in s.queue ==> y == s.queue[0] || y in s.queue[1..];
  }

  lemma {:induction false} HeldStart(s: State, y: Rq)
    requires LastPending(s) && CanStart(s) && s.begun + 1 < |s.hist.bars|
    ensures Towards(s, Start, y)
  {
    TowardsStart(s);
    StartCloser(s);
    hide Core, Mu, Begin, OldOnly;
    assert y in s.queue ==> y == s.queue[0] || y in s.queue[1..];
  }

  lemma {:induction false} HeldComplete(s: State, y: Rq, r: Rq)
    requires LastPending(s) && s.begun < |s.hist.bars| && r in s.driver && Active(s)
    ensures Towards(s, Complete(r, 0), y)
  {
    TowardsComplete(s, r);
    CompleteCloser(s, r);
    if Held(s, y) { HeldElsewhere(s, y); }
    hide Core, Mu, CompleteRq, OldOnly;
  }

  /** Short of the newest barrier's turn there is one. */
  lemma {:induction false} StepTowards(s: State, y: Rq) returns (step: Step)
    requires LastPending(s) && s.begun < |s.hist.bars| && !(CanStart(s) && s.begun == |s.hist.bars| - 1)
    ensures Towards(s, step, y)
  {
    PendingQueued(s);
    assert Inv(s);
    if Active(s) { Unstuck(s); } else { IdleHead(s); }
    hide Core, LastPending, Towards, MayIssue, CanStart;
    if MayIssue(s, s.queue[0]) {
      step := Issue;
      HeldIssue(s, y);
    } else if CanStart(s) {
      step := Start;
      HeldStart(s, y);
    } else {
      var r :| r in s.driver;
      step := Complete(r, 0);
      HeldComplete(s, y, r);
    }
  }

  /** The newest barrier's sequence cannot end at once. */
  predicate Lasts(s: State)
    requires CanStart(s)
  {
    s.inFlight > 0 || !s.queue[0].empty || s.nextOrdered.preflush
  }

  lemma {:induction false} StaysActive(s: State)
    requires CanStart(s) && DrainMode(s.nextOrdered) && s.nextOrdered.bar && Lasts(s) && s.queue[0] !in s.started
    ensures Active(Begin(s))
  {
    hide WithProxies;
  }

  lemma {:induction false} InFlightCounts(s: State)
    requires Inv(s)
    ensures s.inFlight == |Accounted(s.driver)| && DrainMode(s.nextOrdered)
  {
    hide Census, HistOk, Lined, Apart, ProxiesOk;
  }

  /** At the newest barrier's turn what is held is in flight. */
  lemma {:induction false} HeldLasts(s: State, y: Rq)
    requires LastPending(s) && CanStart(s) && s.begun == |s.hist.bars| - 1 && Held(s, y)
    ensures Lasts(s)
  {
    assert y in s.queue ==> y == s.queue[0] || y in s.queue[1..];
    StartTail(s);
    InFlightCounts(s);
    hide Core;
    assert y in s.driver && y in Accounted(s.driver);
  }

  /** A discard request goes in at the head and out to the driver. */
  lemma {:induction false} SpecialIn(s: State)
    requires LastPending(s) && CanStart(s)
    ensures var s1 := AddSpecialTo(s, true, true, false);
      && Inv(s1) && OldOnly(s1) && Closer(s1, Issue) && CanStart(s.(queue := s1.queue[1..]))
      && s1.queue[0] == Special(s.hist.specials, true) && WellTyped(s1) && Enabled(s1, Issue)
  {
    InvParts(s);
    SpecialLive(s, true, true);
    hide Core, Mu, Live;
    AddSpecialInv(s, true, true);
    var s1 := AddSpecialTo(s, true, true, false);
    assert s1.queue[1..] == s.queue;
    IssueCloser(s1);
  }

  lemma {:induction false} SpecialShape(s: State)
    requires CanStart(s) && s.inFlight >= 0
    ensures var s1 := AddSpecialTo(s, true, true, false);
      && WellTyped(s1) && Enabled(s1, Issue)
      && var s2 := Apply(s1, Issue);
      && CanStart(s2) && Lasts(s2) && s2.begun == s.begun && s2.hist.bars == s.hist.bars
      && s2.nextOrdered == s.nextOrdered
  {
    assert AddSpecialTo(s, true, true, false).queue[1..] == s.queue;
  }

  lemma {:induction false} SpecialOut(s: State)
    requires LastPending(s) && CanStart(s)
    ensures var s1 := AddSpecialTo(s, true, true, false);
      && WellTyped(s1) && Enabled(s1, Issue)
      && var s2 := Apply(s1, Issue);
      && Inv(s2) && OldOnly(s2) && CanStart(s2) && Lasts(s2) && s2.begun == s.begun && s2.hist.bars == s.hist.bars
      && s2.nextOrdered == s.nextOrdered
  {
    hide Core, Mu, Live, AddSpecialTo, Apply, Enabled, CanStart, Lasts, WellTyped;
    SpecialIn(s);
    InFlightCounts(s);
    SpecialShape(s);
    IssuedLive(AddSpecialTo(s, true, true, false));
  }

  lemma {:induction false} IssuedLive(s: State)
    requires WellTyped(s) && Enabled(s, Issue)
    ensures Live(Apply(s, Issue)) == Live(s)
  {
    hide MayIssue;
    assert s.queue == [s.queue[0]] + s.queue[1..];
  }

  lemma {:induction false} TurnStarts(s: State)
    requires Inv(s) && OldOnly(s) && CanStart(s) && Lasts(s) && s.begun == |s.hist.bars| - 1 && s.nextOrdered.bar
    ensures Closer(s, Start) && LastRunning(Apply(s, Start))
  {
    hide Core, Mu, Lasts;
    StartCloser(s);
    StartHead(s);
    InFlightCounts(s);
    StaysActive(s);
    hide Begin, OldOnly;
    OldStarts(s);
  }

  lemma {:induction false} TintedSpecial(s: State)
    requires !Active(s)
    ensures WellTyped(Tinted(s)) && Enabled(Tinted(s), AddSpecial(true, true, false))
    ensures Apply(Tinted(s), AddSpecial(true, true, false)) == Tinted(AddSpecialTo(s, true, true, false))
  {
  }

  /** The newest barrier's turn, with something for its sequence to wait for. */
  lemma {:induction false} BreaksTurn(s: State) returns (steps: seq<Step>)
    requires Inv(s) && OldOnly(s) && CanStart(s) && Lasts(s) && s.begun == |s.hist.bars| - 1 && s.nextOrdered.bar
    ensures Breaks(Tinted(s), steps) && Discardless(steps)
  {
    hide Core, Mu, LastRunning, OldOnly, Closer, Breaks, Apply, Lasts;
    TurnStarts(s);
    CloserEnabled(s, Start);
    var rest := BreaksLast(Apply(s, Start));
    CloserCons(s, Start, rest);
    steps := [Start] + rest;
  }

  /** The same with nothing to wait for: a discard request is put in flight first. */
  lemma {:induction false} BreaksByDiscard(s: State) returns (steps: seq<Step>)
    requires LastPending(s) && CanStart(s) && s.begun == |s.hist.bars| - 1 && s.nextOrdered.bar
    ensures Breaks(Tinted(s), steps)
  {
    hide Core, Mu, LastRunning, OldOnly, Closer, Breaks, Lasts;
    var s1 := AddSpecialTo(s, true, true, false);
    SpecialIn(s);
    SpecialOut(s);
    TintedSpecial(s);
    hide AddSpecialTo, Apply;
    CloserEnabled(s1, Issue);
    var rest := BreaksTurn(Apply(s1, Issue));
    CloserCons(s1, Issue, rest);
    BreaksCons(Tinted(s), AddSpecial(true, true, false), [Issue] + rest);
    steps := [AddSpecial(true, true, false)] + ([Issue] + rest);
  }

  lemma {:induction false} CloserEnabled(s: State, step: Step)
    requires Closer(s, step)
    ensures WellTyped(s) && Enabled(s, step)
  {
    hide Core, Mu, Apply;
  }

  /** The newest barrier has something to wait for: it runs, it has work of its own, or y precedes it. */
  predicate Waits(s: State, y: Rq)
    requires |s.hist.bars| > 0
  {
    || s.begun == |s.hist.bars|
    || (s.hist.bars[|s.hist.bars| - 1].Fs? && !s.hist.bars[|s.hist.bars| - 1].empty)
    || s.nextOrdered.preflush
    || Held(s, y)
  }

  lemma {:induction false} BreaksPending(s: State, y: Rq) returns (steps: seq<Step>)
    requires LastPending(s) && s.nextOrdered.bar
    ensures Breaks(Tinted(s), steps) && (Waits(s, y) ==> Discardless(steps))
    decreases Mu(s)
  {
    assert s.begun <= |s.hist.bars| by { hide Census, Places, Lined; }
    if CanStart(s) { StartHead(s); }
    hide Core, OldOnly, Breaks, CanStart, Apply, Enabled, Lasts, Held, Waits, Discardless, Closer, Mu, Tinted;
    if s.begun == |s.hist.bars| {
      steps := BreaksLast(s);
    } else if CanStart(s) && s.begun == |s.hist.bars| - 1 {
      if Held(s, y) { HeldLasts(s, y); }
      if Lasts(s) {
        steps := BreaksTurn(s);
      } else {
        NotLasting(s, y);
        steps := BreaksByDiscard(s);
      }
    } else {
      var step := StepTowards(s, y);
      var rest := BreaksPending(Apply(s, step), y);
      CloserCons(s, step, rest);
      WaitsStill(s, step, y);
      if Waits(s, y) { DiscardlessCons(step, rest); }
      steps := [step] + rest;
    }
  }

  lemma {:induction false} WaitsStill(s: State, step: Step, y: Rq)
    requires |s.hist.bars| > 0 && s.begun < |s.hist.bars| && Closer(s, step)
    requires Held(s, y) ==> Held(Apply(s, step), y)
    ensures Waits(s, y) ==> Waits(Apply(s, step), y)
  {
    hide Core, Mu, Apply, Enabled, Held;
  }

  lemma {:induction false} NotLasting(s: State, y: Rq)
    requires CanStart(s) && !Lasts(s) && !Held(s, y) && s.begun == |s.hist.bars| - 1
    requires s.queue[0] == s.hist.bars[s.begun]
    ensures !Waits(s, y)
  {
    hide Held;
  }

  /** Without anything of the newest epoch, what is live waits for the newest barrier. */
  lemma {:induction false} OldMeansPending(s: State)
    requires Inv(s) && !NoFs(s) && OldOnly(s)
    ensures LastPending(s)
  {
    hide Exclusive, Covered, Apart, Sorted, ProxiesOk, DrainLive;
    var x :| x in Live(s) && x.Fs?;
    assert GoodRq(s.hist, s.done, x);
    assert x in s.queue ==> EntryOk(s, x);
  }

  lemma {:induction false} NoneNewest(s: State)
    requires Inv(s) && forall x :: !Newest(s, x)
    ensures OldOnly(s)
  {
    hide Exclusive, Covered, Apart, QueueOk, DriverOk, ProxiesOk, DrainLive, ElevatorOk;
    forall r | r in Live(s) && r.Fs? ensures r.epoch < |s.hist.bars| {
      assert GoodRq(s.hist, s.done, r) && !Newest(s, r);
    }
  }
}
