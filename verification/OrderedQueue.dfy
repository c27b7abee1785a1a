/** The ordered-write (barrier) protocol of one block request queue.

    A queue hands requests to a driver.  A barrier request must separate everything
    submitted before it from everything submitted after it.  The queue does this with
    one colour bit per request and a mask of sequence stages.  This module gives the
    protocol as steps on a value-level state; `BarrierInvariant` and `BarrierTheorems`
    prove what every run keeps, and `RequestQueueClass` is the in-place form. */
module OrderedQueue {
  import opened Options

  // ----- stage values: bits of the sequence mask, in issue order
  const STARTED := 1
  const DRAIN := 2
  const PREFLUSH := 4
  const BAR := 8
  const POSTFLUSH := 16
  const DONE := 32

  const EOPNOTSUPP := 95

  /** The sequence mask, one flag per bit. */
  datatype OrdSeq = OrdSeq(started: bool, drain: bool, preflush: bool, bar: bool, postflush: bool)

  const IDLE := OrdSeq(false, false, false, false, false)

  function Union(a: OrdSeq, b: OrdSeq): OrdSeq {
    OrdSeq(a.started || b.started, a.drain || b.drain, a.preflush || b.preflush,
           a.bar || b.bar, a.postflush || b.postflush)
  }

  /** True when the two masks share a bit: the condition of the source's fatal check. */
  predicate Overlap(a: OrdSeq, b: OrdSeq) {
    (a.started && b.started) || (a.drain && b.drain) || (a.preflush && b.preflush) ||
    (a.bar && b.bar) || (a.postflush && b.postflush)
  }

  /** The lowest stage whose bit is clear; 0 for an idle queue. */
  function CurSeq(o: OrdSeq): int {
    if o == IDLE then 0
    else if !o.started then STARTED
    else if !o.drain then DRAIN
    else if !o.preflush then PREFLUSH
    else if !o.bar then BAR
    else if !o.postflush then POSTFLUSH
    else DONE
  }

  /** How a queue supports barriers: the flags of the ordered mode. */
  datatype Ordered = Ordered(byDrain: bool, byTag: bool, preflush: bool, bar: bool, postflush: bool, fua: bool)

  const ORDERED_NONE := Ordered(false, false, false, false, false, false)

  /** A request.  `Fs` is a file-system request, `Special` any other request a caller adds,
      and the last three are the proxy requests embedded in the queue.

      `parts` and `epoch` are history that the code never reads: the submission numbers whose
      data the request carries, and how many file-system barriers were submitted before it. */
  datatype Rq =
    | Fs(no: nat, parts: set<nat>, barrier: bool, empty: bool, color: bool, epoch: nat)
    | Special(no: nat, discard: bool)
    | PreFlush
    | Bar
    | PostFlush

  /** What has been submitted so far. */
  datatype Hist = Hist(
    epochs: seq<nat>,            // epoch of each file-system submission
    bars: seq<Rq>,               // barriers in submission order
    specials: nat,               // how many Special requests were added
    base: nat,                   // the seam: from this epoch on the colour of an epoch is its parity,
    flip: bool)                  // or the opposite if turned over; before it, the other way round

  datatype State = State(
    nextOrdered: Ordered,        // the mode the driver registered
    queue: seq<Rq>,              // the dispatch list, head first
    soft: set<Rq>,               // requests with the soft-barrier flag
    started: set<Rq>,            // requests with the started flag
    elevator: set<Rq>,           // sorted requests the scheduler still holds
    driver: set<Rq>,             // requests handed out and not yet completed
    ordseq: OrdSeq,
    ordered: Ordered,            // the mode of the sequence in progress
    orig: Option<Rq>,            // the barrier being executed by proxy
    orderr: int,                 // first error of the sequence, 0 if none
    ordcolor: bool,
    inFlight: int,               // accounted requests in the driver, both directions
    // history
    hist: Hist,
    begun: nat,                  // how many barriers have left the dispatch list
    done: set<nat>,              // submissions whose data has been completed
    ended: seq<(nat, int)>,      // barriers ended, with the error reported
    errs: seq<int>)              // errors reported by the current sequence

  function Init(mode: Ordered): State {
    State(mode, [], {}, {}, {}, {}, IDLE, ORDERED_NONE, None, 0, false, 0, Hist([], [], 0, 0, false), 0, {}, [], [])
  }

  predicate Odd(n: nat) { n % 2 == 1 }

  /** The colour of an epoch. */
  predicate Tint(h: Hist, e: nat) { Odd(e) != (h.flip != (e < h.base)) }

  // ----- classification of requests

  predicate IsFs(r: Rq) { r.Fs? || r.Bar? }

  /** A file-system request with the hard-barrier flag. */
  predicate IsBarrier(r: Rq) { r.Bar? || (r.Fs? && r.barrier) }

  /** Whether a started request is counted in `inFlight`. */
  predicate Accounts(r: Rq) { IsFs(r) || (r.Special? && r.discard) }

  function Weight(r: Rq): int { if Accounts(r) then 1 else 0 }

  /** The flags a scheduler may not sort across. */
  predicate Stop(s: State, r: Rq) {
    r in s.soft || r in s.started || IsBarrier(r) || r.PreFlush? || r.PostFlush?
  }

  predicate Active(s: State) { s.ordseq != IDLE }

  /** The stage a request belongs to, decided from identity, type and the colour bit alone. */
  function ReqSeq(s: State, r: Rq): int
    requires s.orig.Some? && s.orig.value.Fs?
  {
    match r
    case PreFlush => PREFLUSH
    case Bar => BAR
    case PostFlush => POSTFLUSH
    case Special(_, _) => DRAIN
    case Fs(_, _, _, _, color, _) => if color == s.orig.value.color then DRAIN else DONE
  }

  predicate WellTyped(s: State) { Active(s) ==> s.orig.Some? && s.orig.value.Fs? }

  // ----- sequence bookkeeping

  function CompleteSeq(s: State, seq_: OrdSeq, error: int): State
    requires s.orig.Some? && s.orig.value.Fs?
  {
    var err := if error != 0 && s.orderr == 0 then error else s.orderr;
    var mask := Union(s.ordseq, seq_);
    var t := s.(orderr := err, ordseq := mask, errs := s.errs + [error]);
    if CurSeq(mask) != DONE then t
    else t.(ordseq := IDLE, orig := None,
            ended := s.ended + [(s.orig.value.no, err)],
            done := s.done + s.orig.value.parts)
  }

  /** Whether a completion lets the drain stage finish. */
  predicate Drained(s: State)
    requires WellTyped(s)
  {
    && Active(s)
    && s.inFlight == 0
    && CurSeq(s.ordseq) == DRAIN
    && (s.queue == [] || ReqSeq(s, s.queue[0]) > DRAIN)
  }

  const DRAIN_BIT := OrdSeq(false, true, false, false, false)
  const PRE_BIT := OrdSeq(false, false, true, false, false)
  const BAR_BIT := OrdSeq(false, false, false, true, false)
  const POST_BIT := OrdSeq(false, false, false, false, true)

  /** What releasing a request does to the queue; `started` says whether the driver had it. */
  function Completed(s: State, r: Rq, started: bool): State
    requires WellTyped(s)
  {
    var t := if started then s.(inFlight := s.inFlight - Weight(r)) else s;
    if Drained(t) then CompleteSeq(t, DRAIN_BIT, 0) else t
  }

  // ----- starting a sequence

  function SequenceMode(mode: Ordered, empty: bool): Ordered {
    if !empty then mode
    else
      var m := mode.(bar := false, postflush := false);
      if m.byTag && !m.preflush then m.(byTag := false, byDrain := true) else m
  }

  function SkipBits(m: Ordered, inFlight: int): OrdSeq {
    OrdSeq(false, !(m.byDrain && inFlight != 0), !m.preflush, !m.bar, !m.postflush)
  }

  /** Proxies are pushed in reverse issue order. */
  function WithProxies(q: seq<Rq>, m: Ordered): seq<Rq> {
    var q1 := if m.postflush then [PostFlush] + q else q;
    var q2 := if m.bar then [Bar] + q1 else q1;
    if m.preflush then [PreFlush] + q2 else q2
  }

  const PROXIES: set<Rq> := {PreFlush, Bar, PostFlush}

  predicate CanStart(s: State) {
    && !Active(s)
    && s.queue != []
    && s.queue[0].Fs?
    && s.queue[0].barrier
  }

  /** The barrier is stashed away and its proxies take its place. */
  function Stashed(s: State): State
    requires CanStart(s)
  {
    var b := s.queue[0];
    var m := SequenceMode(s.nextOrdered, b.empty);
    s.(orderr := 0, errs := [], ordered := m, ordseq := OrdSeq(true, false, false, false, false),
       orig := Some(b), begun := s.begun + 1,
       inFlight := s.inFlight + (if b in s.started then 1 else 0),
       queue := WithProxies(s.queue[1..], m),
       soft := s.soft + PROXIES, started := s.started - PROXIES)
  }

  function StartOrdered(s: State): State
    requires CanStart(s)
  {
    var t := Stashed(s);
    CompleteSeq(t, SkipBits(t.ordered, t.inFlight), 0)
  }

  /** A barrier on a queue that cannot order: ended with an error at once. */
  function RejectBarrier(s: State): State
    requires CanStart(s)
  {
    var b := s.queue[0];
    s.(queue := s.queue[1..], begun := s.begun + 1,
       ended := s.ended + [(b.no, -EOPNOTSUPP)], done := s.done + b.parts)
  }

  function Begin(s: State): State
    requires CanStart(s)
  {
    if s.nextOrdered != ORDERED_NONE then StartOrdered(s) else RejectBarrier(s)
  }

  /** Whether the head of a non-empty queue may be handed out now. */
  predicate MayIssue(s: State, r: Rq)
    requires WellTyped(s)
  {
    if !Active(s) then !IsBarrier(r)
    else if r.Special? then true
    else if s.ordered.byTag then !IsBarrier(r) || r.Bar?
    else ReqSeq(s, r) <= CurSeq(s.ordseq)
  }

  // ----- insertion

  /** First position whose stage is not below `n`, for re-queueing in stage order. */
  function RequeueIndex(s: State, q: seq<Rq>, n: int): (k: nat)
    requires s.orig.Some? && s.orig.value.Fs?
    ensures k <= |q|
    ensures forall i | 0 <= i < k :: ReqSeq(s, q[i]) < n
    ensures k < |q| ==> n <= ReqSeq(s, q[k])
  {
    if q == [] || n <= ReqSeq(s, q[0]) then 0 else 1 + RequeueIndex(s, q[1..], n)
  }

  function InsertAt(q: seq<Rq>, k: nat, r: Rq): seq<Rq>
    requires k <= |q|
  {
    q[..k] + [r] + q[k..]
  }

  function Requeued(s: State, r: Rq): State
    requires WellTyped(s)
  {
    s.(driver := s.driver - {r}, inFlight := s.inFlight - Weight(r),
       soft := s.soft + {r}, started := s.started - {r},
       queue := if !Active(s) then [r] + s.queue
                else InsertAt(s.queue, RequeueIndex(s, s.queue, ReqSeq(s, r)), r))
  }

  function NewFs(s: State, barrier: bool, empty: bool): Rq {
    var n := |s.hist.epochs|;
    Fs(n, {n}, barrier, empty, s.ordcolor, |s.hist.bars|)
  }

  function AddFsTo(s: State, barrier: bool, empty: bool, back: bool): State {
    var r := NewFs(s, barrier, empty);
    var t := s.(hist := s.hist.(epochs := s.hist.epochs + [|s.hist.bars|],
                                bars := if barrier then s.hist.bars + [r] else s.hist.bars),
                ordcolor := if barrier then !s.ordcolor else s.ordcolor);
    if back then t.(queue := s.queue + [r], soft := s.soft + {r})
    else t.(elevator := s.elevator + {r})
  }

  /** `hard` is the hard-barrier flag; the code toggles the colour for any request that has it. */
  function AddSpecialTo(s: State, front: bool, discard: bool, hard: bool): State {
    var r := Special(s.hist.specials, discard);
    s.(hist := s.hist.(specials := s.hist.specials + 1),
       ordcolor := if hard then !s.ordcolor else s.ordcolor,
       soft := s.soft + {r},
       queue := if front then [r] + s.queue else s.queue + [r])
  }

  function Merged(r: Rq, next: Rq): Rq
    requires r.Fs? && next.Fs?
  {
    r.(parts := r.parts + next.parts)
  }

  // ----- steps

  datatype Step =
    | AddFs(barrier: bool, empty: bool, back: bool)
    | AddSpecial(front: bool, discard: bool, hard: bool)
    | MergeBio(rq: Rq)
    | MergeRqs(rq: Rq, next: Rq)
    | Dispatch(rq: Rq, pos: nat)
    | Start
    | Peek
    | Issue
    | Complete(rq: Rq, error: int)
    | BarError(error: int)
    | Requeue(rq: Rq)

  /** What the code and the driver rules allow in a state.
      Back insertion first drains the scheduler, hence the empty elevator;
      a barrier is always inserted at the back. */
  predicate Enabled(s: State, step: Step)
    requires WellTyped(s)
  {
    match step
    case AddFs(barrier, empty, back) => (barrier ==> back) && (empty ==> barrier) && (back ==> s.elevator == {})
    case AddSpecial(front, _, _) => front || s.elevator == {}
    case MergeBio(r) => r in s.elevator && r.Fs?
    case MergeRqs(r, next) => r in s.elevator && next in s.elevator && r != next && r.Fs? && next.Fs?
    case Dispatch(r, p) => r in s.elevator && p <= |s.queue| && forall i | p <= i < |s.queue| :: !Stop(s, s.queue[i])
    case Start => CanStart(s)
    case Peek => s.queue != [] && MayIssue(s, s.queue[0])
    case Issue => s.queue != [] && MayIssue(s, s.queue[0])
    case Complete(r, _) => r in s.driver && (r.PreFlush? || r.Bar? || r.PostFlush? ==> Active(s))
    case BarError(_) => Bar in s.driver && Active(s)
    case Requeue(r) => r in s.driver
  }

  function CompleteRq(s: State, r: Rq, error: int): State
    requires WellTyped(s)
    requires r.PreFlush? || r.Bar? || r.PostFlush? ==> Active(s)
  {
    var t := s.(driver := s.driver - {r});
    match r
    case Fs(_, parts, _, _, _, _) => Completed(t.(done := s.done + parts), r, true)
    case Special(_, _) => Completed(t, r, true)
    case PreFlush => EndStage(Completed(t, r, true), PRE_BIT, error)
    case Bar => EndStage(Completed(t, r, true), BAR_BIT, error)
    case PostFlush => EndStage(Completed(t, r, true), POST_BIT, error)
  }

  /** A proxy's end callback.  The source would dereference the barrier unconditionally;
      the invariant shows that it is always there. */
  function EndStage(s: State, bit: OrdSeq, error: int): State {
    if s.orig.Some? && s.orig.value.Fs? then CompleteSeq(s, bit, error) else s
  }

  function Apply(s: State, step: Step): State
    requires WellTyped(s) && Enabled(s, step)
  {
    match step
    case AddFs(barrier, empty, back) => AddFsTo(s, barrier, empty, back)
    case AddSpecial(front, discard, hard) => AddSpecialTo(s, front, discard, hard)
    case MergeBio(r) =>
      s.(elevator := s.elevator - {r} + {r.(parts := r.parts + {|s.hist.epochs|})},
         hist := s.hist.(epochs := s.hist.epochs + [|s.hist.bars|]))
    case MergeRqs(r, next) =>
      Completed(s.(elevator := s.elevator - {r, next} + {Merged(r, next)}), next, false)
    case Dispatch(r, p) =>
      s.(elevator := s.elevator - {r}, queue := InsertAt(s.queue, p, r))
    case Start => Begin(s)
    case Peek => s.(started := s.started + {s.queue[0]})
    case Issue =>
      var r := s.queue[0];
      s.(queue := s.queue[1..], started := s.started + {r}, driver := s.driver + {r},
         inFlight := s.inFlight + Weight(r))
    case Complete(r, error) => CompleteRq(s, r, error)
    case BarError(error) =>
      s.(orderr := if error != 0 && s.orderr == 0 then error else s.orderr, errs := s.errs + [error])
    case Requeue(r) => Requeued(s, r)
  }

  /** Callers and drivers that follow the rules the protocol relies on. */
  predicate Disciplined(step: Step) { step.AddSpecial? ==> !step.hard }
}
