/** Starting a barrier sequence, completing its stages, and closing it. */
module BarrierStages {
  import opened Options
  import opened OrderedQueue
  import opened BarrierInvariant
  import opened BarrierSteps

  /** What `CompleteSeq` does once its bits are in the mask: close the sequence if it was the last. */
  function Close(u: State): State
    requires u.orig.Some? && u.orig.value.Fs?
  {
    if CurSeq(u.ordseq) != DONE then u
    else u.(ordseq := IDLE, orig := None,
            ended := u.ended + [(u.orig.value.no, u.orderr)],
            done := u.done + u.orig.value.parts)
  }

  function WithBits(s: State, bits: OrdSeq, error: int): State {
    s.(orderr := if error != 0 && s.orderr == 0 then error else s.orderr,
       ordseq := Union(s.ordseq, bits), errs := s.errs + [error])
  }

  lemma {:induction false} CompleteSeqIsClose(s: State, bits: OrdSeq, error: int)
    requires s.orig.Some? && s.orig.value.Fs?
    ensures CompleteSeq(s, bits, error) == Close(WithBits(s, bits, error))
  {
  }

  /** The live requests lose one, whose submissions are now completed. */
  lemma {:induction false} CensusDone(h: Hist, done: set<nat>, live: set<Rq>, r: Rq)
    requires Census(h, done, live) && r in live && r.Fs?
    ensures Census(h, done + r.parts, live - {r})
  {
    var done' := done + r.parts;
    assert GoodRq(h, done, r);
    forall x | x in live - {r} ensures GoodRq(h, done', x) {
      assert GoodRq(h, done, x);
      forall p | x.Fs? && p in x.parts ensures p !in done' {
        assert Holds(x, p);
        assert p in r.parts ==> Holds(r, p);
      }
    }
    assert Covered(h, done', live - {r}) by {
      forall n: nat | Submitted(h, n) && n !in done' ensures exists x :: x in live - {r} && Holds(x, n) {
        var x :| x in live && Holds(x, n);
        assert x in live - {r};
      }
    }
  }

  lemma {:induction false} CloseInv(u: State)
    requires BooksMid(u) && Places(u) && Lined(u) && Active(u)
    requires CurSeq(u.ordseq) == DONE || u.hist.base != u.begun
    ensures Core(Close(u))
  {
    if CurSeq(u.ordseq) == DONE {
      CloseBooks(u);
      ClosePlaces(u);
      CloseLined(u);
    }
  }

  lemma {:induction false} CloseBooks(u: State)
    requires BooksMid(u) && Active(u) && CurSeq(u.ordseq) == DONE
    requires Apart(u.elevator, u.queue, u.driver, u.orig)
    ensures Books(Close(u))
  {
    var t := Close(u);
    var b := u.orig.value;
    assert b in Live(u);
    CensusDone(u.hist, u.done, Live(u), b);
    assert Live(t) == Live(u) - {b};
  }

  lemma {:induction false} ClosePlaces(u: State)
    requires Places(u) && WellTyped(u) && Active(u) && CurSeq(u.ordseq) == DONE
    ensures Places(Close(u))
  {
  }

  lemma {:induction false} CloseLined(u: State)
    requires Lined(u) && Active(u) && CurSeq(u.ordseq) == DONE
    ensures Lined(Close(u))
  {
    assert forall x | x in u.queue :: EntryOk(u, x);
  }

  // ----- the drain stage

  /** The invariant without the promise that draining can go on. */
  ghost predicate Core0(s: State) { Books(s) && Places(s) && QueueOk(s) && WellTyped(s) }

  lemma {:induction false} NothingInFlight(s: State)
    requires DriverOk(s) && s.inFlight == 0
    ensures forall r | r in s.driver :: !Accounts(r)
  {
    forall r | r in s.driver ensures !Accounts(r) {
      assert Accounted(s.driver) == {};
      assert Accounts(r) ==> r in Accounted(s.driver);
    }
  }

  /** The check made on every completion either finishes the drain stage or leaves work to wait for. */
  lemma {:induction false} CompletedInv(s: State)
    requires Core0(s)
    ensures Core(if Drained(s) then CompleteSeq(s, DRAIN_BIT, 0) else s)
  {
    hide Census, HistOk, Sorted, BarriersQueued, Apart, ElevatorOk, ProxiesOk;
    if Drained(s) {
      DrainedInv(s);
    } else if Draining(s) {
      assert s.driver == {} ==> s.inFlight == 0 by { assert s.driver == {} ==> Accounted(s.driver) == {}; }
    }
  }

  lemma {:induction false} DrainedInv(s: State)
    requires Core0(s) && Drained(s)
    ensures Core(CompleteSeq(s, DRAIN_BIT, 0))
  {
    var u := WithBits(s, DRAIN_BIT, 0);
    CompleteSeqIsClose(s, DRAIN_BIT, 0);
    DrainedBooks(s);
    DrainedPlaces(s);
    DrainedLined(s);
    CloseInv(u);
  }

  lemma {:induction false} DrainedBooks(s: State)
    requires Books(s) && Active(s)
    ensures BooksMid(WithBits(s, DRAIN_BIT, 0))
  {
    FirstErrorAppend(s.errs, 0);
    assert Live(WithBits(s, DRAIN_BIT, 0)) == Live(s);
  }

  lemma {:induction false} DrainedPlaces(s: State)
    requires Core0(s) && Drained(s)
    ensures Places(WithBits(s, DRAIN_BIT, 0))
  {
    NothingInFlight(s);
  }

  /** With the head past the drain stage, no request being drained is left on the list. */
  lemma {:induction false} DrainedQueue(s: State, x: Rq)
    requires Core0(s) && Drained(s) && x in s.queue && x.Fs?
    ensures s.begun <= x.epoch
  {
    var h := s.queue[0];
    assert h in s.queue && h in Live(s) && x in Live(s);
    assert EntryOk(s, x) && EntryOk(s, h) && GoodRq(s.hist, s.done, h) && GoodRq(s.hist, s.done, x);
    var i :| 0 <= i < |s.queue| && s.queue[i] == x;
    assert i > 0 ==> Key(s.begun, h) <= Key(s.begun, x);
  }

  lemma {:induction false} DrainedLined(s: State)
    requires Core0(s) && Drained(s)
    ensures Lined(WithBits(s, DRAIN_BIT, 0))
  {
    var u := WithBits(s, DRAIN_BIT, 0);
    forall x | x in u.queue ensures EntryOk(u, x) {
      assert EntryOk(s, x);
      if x.Fs? { DrainedQueue(s, x); }
    }
  }

  // ----- completions of ordinary requests

  /** The state right after the driver gives back a file-system or special request. */
  function Returned(s: State, r: Rq): State {
    s.(driver := s.driver - {r}, inFlight := s.inFlight - Weight(r),
       done := if r.Fs? then s.done + r.parts else s.done)
  }

  lemma {:induction false} ReturnedInv0(s: State, r: Rq)
    requires Core(s) && r in s.driver && !IsProxy(r)
    ensures Core0(Returned(s, r))
  {
    hide Books, Places, QueueOk, DrainLive, HistOk, Census, Apart;
    assert Apart(s.elevator, s.queue, s.driver, s.orig) by { ReturnedApart(s); }
    ReturnedBooks(s, r);
    ReturnedPlaces(s, r);
    ReturnedQueue(s, r);
  }

  lemma {:induction false} ReturnedApart(s: State)
    requires Places(s)
    ensures Apart(s.elevator, s.queue, s.driver, s.orig)
  {
  }

  lemma {:induction false} ReturnedQueue(s: State, r: Rq)
    requires QueueOk(s)
    ensures QueueOk(Returned(s, r))
  {
    hide Sorted, BarriersQueued;
    assert forall x | x in s.queue :: EntryOk(s, x);
  }

  lemma {:induction false} ReturnedBooks(s: State, r: Rq)
    requires Books(s) && r in s.driver && Apart(s.elevator, s.queue, s.driver, s.orig)
    ensures Books(Returned(s, r))
  {
    var t := Returned(s, r);
    assert r in Live(s);
    assert Live(t) == Live(s) - {r};
    if r.Fs? {
      CensusDone(s.hist, s.done, Live(s), r);
    } else {
      CensusMoved(s.hist, s.done, Live(s), Live(t));
    }
    SequenceFrame(s, t);
  }

  lemma {:induction false} ReturnedPlaces(s: State, r: Rq)
    requires Places(s) && r in s.driver && !IsProxy(r)
    ensures Places(Returned(s, r))
  {
    AccountedChange(s.driver, r);
  }

  lemma {:induction false} CompletePlainInv(s: State, r: Rq, error: int)
    requires Core(s) && r in s.driver && !IsProxy(r)
    ensures Core(CompleteRq(s, r, error))
  {
    hide Books, Places, QueueOk, DrainLive, CompleteRq, Returned, CompleteSeq, Drained;
    ReturnedInv0(s, r);
    CompletedInv(Returned(s, r));
    CompletePlain(s, r, error);
  }

  lemma {:induction false} CompletePlain(s: State, r: Rq, error: int)
    requires WellTyped(s) && WellTyped(Returned(s, r)) && !IsProxy(r)
    ensures var t := Returned(s, r);
      CompleteRq(s, r, error) == if Drained(t) then CompleteSeq(t, DRAIN_BIT, 0) else t
  {
    hide CompleteSeq, Drained;
  }

  // ----- merging two scheduled requests

  function MergedPair(s: State, r: Rq, next: Rq): State
    requires r.Fs? && next.Fs?
  {
    s.(elevator := s.elevator - {r, next} + {Merged(r, next)})
  }

  lemma {:induction false} MergePairCensus(s: State, r: Rq, next: Rq)
    requires r in s.elevator && next in s.elevator && r != next && r.Fs? && next.Fs?
    requires ElevatorOk(s.elevator, |s.hist.bars|) && Census(s.hist, s.done, Live(s))
    requires Apart(s.elevator, s.queue, s.driver, s.orig)
    ensures Census(s.hist, s.done, Live(MergedPair(s, r, next)))
    ensures Merged(r, next) !in Live(s)
  {
    var m := Merged(r, next);
    assert r in Live(s) && next in Live(s);
    assert GoodRq(s.hist, s.done, r) && GoodRq(s.hist, s.done, next);
    assert GoodRq(s.hist, s.done, m);
    forall n | Holds(m, n) ensures exists x :: x in {r, next} && Holds(x, n) {
      if Holds(r, n) { assert r in {r, next}; } else { assert next in {r, next} && Holds(next, n); }
    }
    CensusMerged(s.hist, s.hist, s.done, Live(s), {r, next}, m);
    var p :| p in next.parts;
    var q :| q in r.parts;
    assert Holds(m, p) && Holds(next, p) && Holds(m, q) && Holds(r, q);
    assert Live(MergedPair(s, r, next)) == Live(s) - {r, next} + {m};
  }

  lemma {:induction false} MergePairInv0(s: State, r: Rq, next: Rq)
    requires Core(s) && r in s.elevator && next in s.elevator && r != next && r.Fs? && next.Fs?
    ensures Core0(MergedPair(s, r, next))
  {
    hide Live;
    var t := MergedPair(s, r, next);
    MergePairCensus(s, r, next);
    MergePairPlaces(s, r, next);
    SequenceFrame(s, t);
  }

  lemma {:induction false} MergePairPlaces(s: State, r: Rq, next: Rq)
    requires Places(s) && r in s.elevator && next in s.elevator && r.Fs? && next.Fs?
    requires Merged(r, next) !in Live(s)
    ensures Places(MergedPair(s, r, next))
  {
  }

  lemma {:induction false} MergeRqsInv(s: State, r: Rq, next: Rq)
    requires Core(s) && Enabled(s, MergeRqs(r, next))
    ensures Core(Completed(MergedPair(s, r, next), next, false))
  {
    MergePairInv0(s, r, next);
    CompletedInv(MergedPair(s, r, next));
  }

  // ----- completions of proxies

  function StageBit(r: Rq): OrdSeq {
    match r
    case PreFlush => PRE_BIT
    case Bar => BAR_BIT
    case PostFlush => POST_BIT
    case _ => IDLE
  }

  function ProxyReturned(s: State, r: Rq, error: int): State {
    WithBits(s.(driver := s.driver - {r}, inFlight := s.inFlight - Weight(r)), StageBit(r), error)
  }

  lemma {:induction false} CompleteProxyInv(s: State, r: Rq, error: int)
    requires Core(s) && r in s.driver && IsProxy(r) && Active(s)
    ensures Core(CompleteRq(s, r, error))
  {
    ProxyIsClose(s, r, error);
    ProxyBooks(s, r, error);
    ProxyPlaces(s, r, error);
    ProxyLined(s, r, error);
    CloseInv(ProxyReturned(s, r, error));
  }

  lemma {:induction false} ProxyIsClose(s: State, r: Rq, error: int)
    requires Places(s) && WellTyped(s) && r in s.driver && IsProxy(r) && Active(s)
    ensures CompleteRq(s, r, error) == Close(ProxyReturned(s, r, error))
  {
    var t := s.(driver := s.driver - {r}, inFlight := s.inFlight - Weight(r));
    assert !Drained(t);
    CompleteSeqIsClose(t, StageBit(r), error);
  }

  lemma {:induction false} ProxyBooks(s: State, r: Rq, error: int)
    requires Books(s) && r in s.driver && IsProxy(r) && Active(s)
    requires Apart(s.elevator, s.queue, s.driver, s.orig)
    ensures BooksMid(ProxyReturned(s, r, error))
  {
    var u := ProxyReturned(s, r, error);
    FirstErrorAppend(s.errs, error);
    assert Live(u) == Live(s) - {r};
    CensusMoved(s.hist, s.done, Live(s), Live(u));
  }

  lemma {:induction false} ProxyPlaces(s: State, r: Rq, error: int)
    requires Places(s) && r in s.driver && IsProxy(r) && Active(s) && s.ordseq.started
    ensures Places(ProxyReturned(s, r, error))
  {
    AccountedChange(s.driver, r);
  }

  lemma {:induction false} ProxyLined(s: State, r: Rq, error: int)
    requires Core(s) && r in s.driver && IsProxy(r) && Active(s)
    ensures Lined(ProxyReturned(s, r, error))
  {
    assert forall x | x in s.queue :: EntryOk(s, x);
  }

  // ----- starting a sequence

  function Opened(s: State): State
    requires CanStart(s)
  {
    var b := s.queue[0];
    var m := SequenceMode(s.nextOrdered, b.empty);
    s.(orderr := 0, errs := [0], ordered := m, orig := Some(b), begun := s.begun + 1,
       ordseq := Union(OrdSeq(true, false, false, false, false), SkipBits(m, s.inFlight)),
       queue := WithProxies(s.queue[1..], m), soft := s.soft + PROXIES, started := s.started - PROXIES)
  }

  /** The barrier at the head of an idle queue is the oldest one not yet begun, and it was never started. */
  lemma {:induction false} StartHead(s: State)
    requires Core(s) && CanStart(s)
    ensures s.begun < |s.hist.bars| && s.queue[0] == s.hist.bars[s.begun] && s.queue[0] !in s.started
  {
    var b := s.queue[0];
    assert b in s.queue && b in Live(s);
    assert GoodRq(s.hist, s.done, b) && EntryOk(s, b);
    FirstOrdered(s.hist, s.begun, s.queue, 0);
  }

  lemma {:induction false} StartIsClose(s: State)
    requires CanStart(s) && s.queue[0] !in s.started
    ensures StartOrdered(s) == Close(Opened(s))
  {
    var t := Stashed(s);
    CompleteSeqIsClose(t, SkipBits(t.ordered, t.inFlight), 0);
  }

  lemma {:induction false} Pushed(q: seq<Rq>, r: Rq)
    ensures forall x :: x in [r] + q <==> x in q || x == r
    ensures NoDup(q) && r !in q ==> NoDup([r] + q)
  {
  }

  lemma {:induction false} ProxiesPushed(q: seq<Rq>, m: Ordered)
    requires forall r | r in q :: !IsProxy(r)
    requires NoDup(q)
    ensures var w := WithProxies(q, m);
      && NoDup(w)
      && (forall r :: r in w <==>
           r in q || (r.PreFlush? && m.preflush) || (r.Bar? && m.bar) || (r.PostFlush? && m.postflush))
  {
    Pushed(q, PostFlush);
    var q1 := if m.postflush then [PostFlush] + q else q;
    Pushed(q1, Bar);
    var q2 := if m.bar then [Bar] + q1 else q1;
    Pushed(q2, PreFlush);
  }

  lemma {:induction false} SortedPush(begun: nat, q: seq<Rq>, r: Rq)
    requires Sorted(begun, q) && forall x | x in q && !x.Special? :: Key(begun, r) <= Key(begun, x)
    ensures Sorted(begun, [r] + q)
  {
    var w := [r] + q;
    forall i, j | 0 <= i < j < |w| && !w[i].Special? && !w[j].Special?
      ensures Key(begun, w[i]) <= Key(begun, w[j])
    {
      assert w[j] == q[j - 1];
      if i > 0 { assert w[i] == q[i - 1]; }
    }
  }

  lemma {:induction false} ProxiesSorted(begun: nat, q: seq<Rq>, m: Ordered)
    requires forall r | r in q :: !IsProxy(r)
    requires Sorted(begun, q)
    requires 1 <= begun && forall r | r in q && r.Fs? :: begun <= r.epoch
    ensures Sorted(begun, WithProxies(q, m))
  {
    SortedPush(begun, q, PostFlush);
    var q1 := if m.postflush then [PostFlush] + q else q;
    SortedPush(begun, q1, Bar);
    var q2 := if m.bar then [Bar] + q1 else q1;
    SortedPush(begun, q2, PreFlush);
  }

  lemma {:induction false} StartTail(s: State)
    requires Core(s) && CanStart(s)
    ensures forall r | r in s.queue[1..] :: r in s.queue && r != s.queue[0] && !IsProxy(r)
    ensures forall r | r in s.queue[1..] && r.Fs? :: s.begun + 1 <= r.epoch
    ensures NoDup(s.queue[1..]) && Sorted(s.begun, s.queue[1..])
  {
    StartHead(s);
    TailElems(s.queue);
    forall r | r in s.queue[1..] && r.Fs? ensures s.begun + 1 <= r.epoch {
      assert r in s.queue && r in Live(s);
      assert GoodRq(s.hist, s.done, r) && EntryOk(s, r);
      var i :| 0 <= i < |s.queue| && s.queue[i] == r;
      assert Key(s.begun, s.queue[0]) <= Key(s.begun, r);
    }
  }

  /** A sequence started now does not run across the seam: it ends at once or belongs elsewhere. */
  predicate Clear(s: State)
    requires CanStart(s)
  {
    s.hist.base != s.begun + 1 || CurSeq(Opened(s).ordseq) == DONE
  }

  lemma {:induction false} StartInv(s: State)
    requires Core(s) && CanStart(s) && Clear(s)
    ensures Core(Begin(s))
  {
    StartHead(s);
    StartIsClose(s);
    StartTail(s);
    OpenedBooks(s);
    OpenedPlaces(s);
    OpenedLined(s);
    CloseInv(Opened(s));
  }

  lemma {:induction false} OpenedBooks(s: State)
    requires Core(s) && CanStart(s)
    requires s.begun < |s.hist.bars| && s.queue[0] == s.hist.bars[s.begun]
    requires forall r | r in s.queue[1..] :: r in s.queue && r != s.queue[0] && !IsProxy(r)
    requires NoDup(s.queue[1..])
    ensures BooksMid(Opened(s))
  {
    var u := Opened(s);
    ProxiesPushed(s.queue[1..], u.ordered);
    TailElems(s.queue);
    CensusMoved(s.hist, s.done, Live(s), Live(u));
    assert SequenceMid(u);
  }

  lemma {:induction false} OpenedPlaces(s: State)
    requires Places(s) && CanStart(s) && DrainMode(s.nextOrdered)
    requires forall r | r in s.queue[1..] :: r in s.queue && r != s.queue[0] && !IsProxy(r)
    requires NoDup(s.queue[1..])
    ensures Places(Opened(s))
  {
    var u := Opened(s);
    ProxiesPushed(s.queue[1..], u.ordered);
    if s.inFlight == 0 { NothingInFlight(s); }
    assert DriverOk(u);
    assert ProxiesOk(u);
  }

  /** Once the oldest pending barrier has left the list, the others are still on it. */
  lemma {:induction false} OthersQueued(h: Hist, begun: nat, q: seq<Rq>, q': seq<Rq>)
    requires HistOk(h) && BarriersQueued(h, begun, q) && begun < |h.bars| && q != [] && q[0] == h.bars[begun]
    requires forall r | r in q[1..] :: r in q'
    ensures BarriersQueued(h, begun + 1, q')
  {
    forall e: nat | Pending(h, begun + 1, e) ensures h.bars[e] in q' {
      assert Pending(h, begun, e) && h.bars[e] in q && h.bars[e].epoch == e;
      assert h.bars[e] in q[1..];
    }
  }

  lemma {:induction false} OpenedEntries(s: State)
    requires Core(s) && CanStart(s)
    requires forall r | r in s.queue[1..] :: r in s.queue && !IsProxy(r)
    requires forall r | r in s.queue[1..] && r.Fs? :: s.begun + 1 <= r.epoch
    requires NoDup(s.queue[1..])
    ensures forall r | r in Opened(s).queue :: EntryOk(Opened(s), r)
  {
    hide Live, HistOk, BarriersQueued, Sorted, Apart, DriverOk, ProxiesOk, SequenceOk, DrainLive, ElevatorOk;
    ProxiesPushed(s.queue[1..], Opened(s).ordered);
    assert forall x | x in s.queue :: EntryOk(s, x);
  }

  lemma {:induction false} OpenedDrainLive(s: State)
    requires Core(s) && CanStart(s)
    requires forall r | r in s.queue[1..] :: r in s.queue && !IsProxy(r)
    ensures WellTyped(Opened(s)) && DrainLive(Opened(s))
  {
    hide Census, HistOk, BarriersQueued, Sorted, Apart, ProxiesOk, ElevatorOk;
    assert s.driver == {} ==> s.inFlight == 0 by { assert s.driver == {} ==> Accounted(s.driver) == {}; }
  }

  lemma {:induction false} OpenedLined(s: State)
    requires Core(s) && CanStart(s)
    requires s.begun < |s.hist.bars| && s.queue[0] == s.hist.bars[s.begun]
    requires forall r | r in s.queue[1..] :: r in s.queue && r != s.queue[0] && !IsProxy(r)
    requires forall r | r in s.queue[1..] && r.Fs? :: s.begun + 1 <= r.epoch
    requires NoDup(s.queue[1..]) && Sorted(s.begun, s.queue[1..])
    ensures Lined(Opened(s))
  {
    hide Live, HistOk, BarriersQueued, Sorted, EntryOk, DrainLive, Places, SequenceOk, NoDup;
    var u := Opened(s);
    ProxiesPushed(s.queue[1..], u.ordered);
    OthersQueued(s.hist, s.begun, s.queue, u.queue);
    Rekeyed(s.begun, s.begun + 1, s.queue[1..]);
    ProxiesSorted(s.begun + 1, s.queue[1..], u.ordered);
    OpenedEntries(s);
    OpenedDrainLive(s);
  }

  /** Only proxies take their key from the running sequence. */
  lemma {:induction false} Rekeyed(begun: nat, begun': nat, q: seq<Rq>)
    requires Sorted(begun, q) && forall r | r in q :: !IsProxy(r)
    ensures Sorted(begun', q)
  {
    forall i, j | 0 <= i < j < |q| && !q[i].Special? && !q[j].Special?
      ensures Key(begun', q[i]) <= Key(begun', q[j])
    {
      assert Key(begun, q[i]) <= Key(begun, q[j]);
      assert q[i] in q && q[j] in q;
    }
  }
}
