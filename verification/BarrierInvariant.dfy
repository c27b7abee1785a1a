/** The inductive invariant of the barrier protocol on drain-ordered queues, and its
    preservation by every step. */
module BarrierInvariant {
  import opened Options
  import opened OrderedQueue

  /** One number orders everything a barrier must separate: epoch first, then stage.
      Requests of epoch e, then the proxies of barrier e, then barrier e itself. */
  function Key(begun: nat, r: Rq): int {
    match r
    case Fs(_, _, barrier, _, _, epoch) => 8 * epoch + (if barrier then 7 else 0)
    case PreFlush => 8 * (begun - 1) + 1
    case Bar => 8 * (begun - 1) + 2
    case PostFlush => 8 * (begun - 1) + 3
    case Special(_, _) => 0
  }

  predicate DrainMode(m: Ordered) { m.byDrain && !m.byTag }

  // ----- history

  /** Submission n is in an epoch up to e exactly when it was not submitted after barrier e. */
  ghost predicate HistOk(h: Hist) {
    && (forall e | 0 <= e < |h.bars| ::
          && h.bars[e].Fs? && h.bars[e].barrier && h.bars[e].epoch == e
          && h.bars[e].no < |h.epochs|
          && h.bars[e].parts == {h.bars[e].no})
    && (forall i, j | 0 <= i < j < |h.bars| :: h.bars[i].no < h.bars[j].no)
    && (forall n | 0 <= n < |h.epochs| :: h.epochs[n] <= |h.bars|)
    && (forall n, e | 0 <= n < |h.epochs| && 0 <= e < |h.bars| :: h.epochs[n] <= e <==> n <= h.bars[e].no)
  }

  ghost predicate GoodRq(h: Hist, done: set<nat>, r: Rq) {
    && (r.Fs? ==>
          && r.color == Tint(h, r.epoch)
          && r.epoch <= |h.bars|
          && r.parts != {}
          && (forall p | p in r.parts :: p < |h.epochs| && h.epochs[p] == r.epoch && p !in done)
          && (r.barrier ==> r.epoch < |h.bars| && r == h.bars[r.epoch]))
    && (r.Special? ==> r.no < h.specials)
  }

  function Elems(q: seq<Rq>): set<Rq> { set r | r in q }

  function OrigSet(o: Option<Rq>): set<Rq> { if o.Some? then {o.value} else {} }

  /** Every request the queue is responsible for. */
  function Live(s: State): set<Rq> { s.elevator + Elems(s.queue) + s.driver + OrigSet(s.orig) }

  predicate Submitted(h: Hist, n: nat) { n < |h.epochs| }

  predicate Holds(r: Rq, n: nat) { r.Fs? && n in r.parts }

  ghost predicate AllGood(h: Hist, done: set<nat>, live: set<Rq>) {
    forall r | r in live :: GoodRq(h, done, r)
  }

  ghost predicate Exclusive(live: set<Rq>) {
    forall r, t, n | r in live && t in live && Holds(r, n) && Holds(t, n) :: r == t
  }

  ghost predicate Covered(h: Hist, done: set<nat>, live: set<Rq>) {
    && (forall n {:trigger Submitted(h, n)} | Submitted(h, n) && n !in done :: exists r :: r in live && Holds(r, n))
    && (forall n | n in done :: n < |h.epochs|)
  }

  /** Conservation: a submission is completed or held by exactly one live request. */
  ghost predicate Census(h: Hist, done: set<nat>, live: set<Rq>) {
    AllGood(h, done, live) && Exclusive(live) && Covered(h, done, live)
  }

  ghost predicate NoDup(q: seq<Rq>) {
    forall i, j | 0 <= i < j < |q| :: q[i] != q[j]
  }

  ghost predicate Apart(elevator: set<Rq>, queue: seq<Rq>, driver: set<Rq>, orig: Option<Rq>) {
    && NoDup(queue)
    && (forall r | r in queue :: r !in elevator && r !in driver && orig != Some(r))
    && (forall r | r in driver :: r !in elevator && orig != Some(r))
    && (forall r | r in elevator :: orig != Some(r))
  }

  // ----- where requests are

  ghost predicate ElevatorOk(elevator: set<Rq>, epoch: nat) {
    forall r | r in elevator :: r.Fs? && !r.barrier && r.epoch == epoch
  }

  ghost predicate Sorted(begun: nat, q: seq<Rq>) {
    forall i, j | 0 <= i < j < |q| && !q[i].Special? && !q[j].Special? :: Key(begun, q[i]) <= Key(begun, q[j])
  }

  predicate Draining(s: State) { Active(s) && !s.ordseq.drain }

  ghost predicate EntryOk(s: State, r: Rq) {
    && (r.Fs? ==>
          || s.begun <= r.epoch
          || (Draining(s) && r.epoch == s.begun - 1 && !r.barrier && r in s.soft))
    && (!Stop(s, r) ==> r.Fs?)
  }

  predicate Pending(h: Hist, begun: nat, e: nat) { begun <= e < |h.bars| }

  ghost predicate BarriersQueued(h: Hist, begun: nat, q: seq<Rq>) {
    forall e: nat {:trigger h.bars[e]} {:trigger Pending(h, begun, e)} | Pending(h, begun, e) :: h.bars[e] in q
  }

  ghost predicate QueueOk(s: State) {
    && (forall r | r in s.queue :: EntryOk(s, r))
    && Sorted(s.begun, s.queue)
    && BarriersQueued(s.hist, s.begun, s.queue)
    && (forall r | r in s.started :: !(r.Fs? && r.barrier))
  }

  ghost predicate DriverOk(s: State) {
    && (forall r | r in s.driver && r.Fs? ::
          && !r.barrier
          && (if Active(s) then !s.ordseq.drain && r.epoch == s.begun - 1 else r.epoch == s.begun))
    && s.inFlight == |Accounted(s.driver)|
  }

  function Accounted(driver: set<Rq>): set<Rq> { set r | r in driver && Accounts(r) }

  /** A proxy is on the list or in the driver exactly while its stage bit is clear,
      and in the driver only while its stage is the current one. */
  ghost predicate ProxyOk(s: State, r: Rq, bit: bool, stage: int) {
    && (r in s.queue || r in s.driver <==> Active(s) && !bit)
    && (r in s.driver ==> CurSeq(s.ordseq) == stage)
  }

  ghost predicate ProxiesOk(s: State) {
    && ProxyOk(s, PreFlush, s.ordseq.preflush, PREFLUSH)
    && ProxyOk(s, Bar, s.ordseq.bar, BAR)
    && ProxyOk(s, PostFlush, s.ordseq.postflush, POSTFLUSH)
  }

  function FirstError(errs: seq<int>): int {
    if errs == [] then 0
    else if errs[0] != 0 then errs[0]
    else FirstError(errs[1..])
  }

  /** The books of the sequence in progress; the last stage may have just finished. */
  ghost predicate SequenceMid(s: State)
    requires HistOk(s.hist) && s.begun <= |s.hist.bars|
  {
    && DrainMode(s.nextOrdered)
    && (Active(s) <==> s.orig.Some?)
    && (Active(s) ==>
          && s.ordseq.started
          && 0 < s.begun && s.orig.value == s.hist.bars[s.begun - 1]
          && DrainMode(s.ordered)
          && s.orderr == FirstError(s.errs))
    && |s.ended| == (if Active(s) then s.begun - 1 else s.begun as int)
    && (forall i | 0 <= i < |s.ended| :: s.ended[i].0 == s.hist.bars[i].no)
  }

  ghost predicate SequenceOk(s: State)
    requires HistOk(s.hist) && s.begun <= |s.hist.bars|
  {
    SequenceMid(s) && CurSeq(s.ordseq) != DONE && (Active(s) ==> s.hist.base != s.begun)
  }

  /** While draining, either the driver still owes a completion or the head may go out. */
  ghost predicate DrainLive(s: State)
    requires WellTyped(s)
  {
    Draining(s) ==> s.driver != {} || (s.queue != [] && ReqSeq(s, s.queue[0]) == DRAIN)
  }

  ghost predicate Books(s: State) {
    && HistOk(s.hist)
    && s.begun <= |s.hist.bars|
    && s.ordcolor == Tint(s.hist, |s.hist.bars|) && s.hist.base <= |s.hist.bars|
    && SequenceOk(s)
    && Census(s.hist, s.done, Live(s))
  }

  ghost predicate Places(s: State) {
    && Apart(s.elevator, s.queue, s.driver, s.orig)
    && ElevatorOk(s.elevator, |s.hist.bars|)
    && DriverOk(s)
    && ProxiesOk(s)
  }

  ghost predicate Lined(s: State) {
    && QueueOk(s)
    && WellTyped(s)
    && DrainLive(s)
  }

  /** The invariant proper.  The colours may have a seam; a sequence never runs right across it. */
  ghost predicate Core(s: State) { Books(s) && Places(s) && Lined(s) }

  /** The invariant of a queue whose colours have no seam ahead. */
  ghost predicate Inv(s: State) { Core(s) && s.hist.base <= s.begun }

  /** The invariant at the moment a stage bit has been set, before the sequence is closed. */
  ghost predicate BooksMid(s: State) {
    && HistOk(s.hist)
    && s.begun <= |s.hist.bars|
    && s.ordcolor == Tint(s.hist, |s.hist.bars|) && s.hist.base <= |s.hist.bars|
    && SequenceMid(s)
    && Census(s.hist, s.done, Live(s))
  }

  lemma {:induction false} InitInv(mode: Ordered)
    requires DrainMode(mode)
    ensures Inv(Init(mode))
  {
  }

  // ----- facts about the head of the list

  lemma {:induction false} FirstErrorAppend(errs: seq<int>, e: int)
    ensures FirstError(errs + [e]) == if e != 0 && FirstError(errs) == 0 then e else FirstError(errs)
  {
    if errs != [] {
      assert (errs + [e])[1..] == errs[1..] + [e];
      FirstErrorAppend(errs[1..], e);
    }
  }

  /** The first ordered entry of the list has the smallest epoch still queued, so among the
      later epochs it is the one whose colour differs from the running barrier's. */
  lemma {:induction false} FirstOrdered(h: Hist, begun: nat, q: seq<Rq>, i: nat)
    requires HistOk(h) && BarriersQueued(h, begun, q) && Sorted(begun, q)
    requires i < |q| && q[i].Fs? && q[i].epoch <= |h.bars|
    requires forall j | 0 <= j < i :: q[j].Special?
    ensures q[i].epoch <= begun
  {
    assert Pending(h, begun, begun) ==> h.bars[begun] in q;
  }

  /** The head as the fetch loop sees it while a sequence runs. */
  lemma {:induction false} HeadWhileActive(s: State)
    requires Core(s) && Active(s) && s.queue != []
    ensures s.queue[0].Special? || CurSeq(s.ordseq) <= ReqSeq(s, s.queue[0])
    ensures s.queue[0].Fs? && ReqSeq(s, s.queue[0]) <= CurSeq(s.ordseq) ==>
              Draining(s) && s.queue[0].epoch == s.begun - 1
  {
    var r := s.queue[0];
    assert r in s.queue && r in Live(s);
    if r.Fs? {
      assert GoodRq(s.hist, s.done, r);
      FirstOrdered(s.hist, s.begun, s.queue, 0);
      assert EntryOk(s, r);
    }
  }
}
