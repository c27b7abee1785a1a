/** Every step of a disciplined caller and driver keeps the barrier invariant. */
module BarrierSteps {
  import opened OrderedQueue
  import opened BarrierInvariant

  predicate IsProxy(r: Rq) { r.PreFlush? || r.Bar? || r.PostFlush? }

  /** Requests only moved between places: nothing lost, nothing duplicated. */
  lemma {:induction false} CensusMoved(h: Hist, done: set<nat>, live: set<Rq>, live': set<Rq>)
    requires Census(h, done, live)
    requires forall r | r in live' :: r in live || IsProxy(r)
    requires forall r | r in live && r.Fs? :: r in live'
    ensures Census(h, done, live')
  {
    assert AllGood(h, done, live');
    assert Covered(h, done, live') by {
      forall n: nat | Submitted(h, n) && n !in done ensures exists r :: r in live' && Holds(r, n) {
        var r :| r in live && Holds(r, n);
        assert r in live';
      }
    }
  }

  /** A new submission joins the live requests. */
  lemma {:induction false} CensusAdded(h: Hist, h': Hist, done: set<nat>, live: set<Rq>, r: Rq)
    requires Census(h, done, live)
    requires h.epochs <= h'.epochs && |h'.epochs| == |h.epochs| + 1 && h.bars <= h'.bars && h'.specials == h.specials
    requires h'.base == h.base && h'.flip == h.flip
    requires r.Fs? && r.parts == {|h.epochs|} && GoodRq(h', done, r)
    ensures Census(h', done, live + {r})
    ensures r !in live
  {
    assert Holds(r, |h.epochs|);
    forall x | x in live ensures GoodRq(h', done, x) && !Holds(x, |h.epochs|) {
      assert GoodRq(h, done, x);
    }
    assert Covered(h', done, live + {r}) by {
      forall n: nat | Submitted(h', n) && n !in done ensures exists x :: x in live + {r} && Holds(x, n) {
        if n < |h.epochs| {
          assert Submitted(h, n);
          var x :| x in live && Holds(x, n);
          assert x in live + {r};
        }
      }
    }
  }

  lemma {:induction false} DrainLiveSameHead(s: State, t: State)
    requires WellTyped(s) && DrainLive(s)
    requires t.ordseq == s.ordseq && t.orig == s.orig && t.driver == s.driver
    requires s.queue != [] ==> t.queue != [] && t.queue[0] == s.queue[0]
    ensures WellTyped(t) && DrainLive(t)
  {
  }

  lemma {:induction false} SequenceFrame(s: State, t: State)
    requires HistOk(s.hist) && HistOk(t.hist) && s.begun <= |s.hist.bars| && SequenceOk(s)
    requires t.nextOrdered == s.nextOrdered && t.ordseq == s.ordseq && t.ordered == s.ordered && t.orig == s.orig
    requires t.orderr == s.orderr && t.errs == s.errs && t.begun == s.begun && t.ended == s.ended
    requires s.hist.bars <= t.hist.bars && s.hist.base == t.hist.base
    ensures SequenceOk(t)
  {
  }

  /** Appending a request that no key exceeds. */
  lemma {:induction false} SortedAppend(begun: nat, q: seq<Rq>, r: Rq)
    requires Sorted(begun, q)
    requires r.Special? || forall x | x in q && !x.Special? :: Key(begun, x) <= Key(begun, r)
    ensures Sorted(begun, q + [r])
  {
  }

  // ----- submissions

  lemma {:induction false} AddFsInv(s: State, barrier: bool, empty: bool, back: bool)
    requires Core(s) && Enabled(s, AddFs(barrier, empty, back))
    ensures Core(AddFsTo(s, barrier, empty, back))
  {
    AddFsCensus(s, barrier, empty, back);
    AddFsBooks(s, barrier, empty, back);
    AddFsPlaces(s, barrier, empty, back);
    AddFsLined(s, barrier, empty, back);
  }

  lemma {:induction false} AddFsBooks(s: State, barrier: bool, empty: bool, back: bool)
    requires HistOk(s.hist) && s.begun <= |s.hist.bars| && s.ordcolor == Tint(s.hist, |s.hist.bars|)
    requires s.hist.base <= |s.hist.bars| && SequenceOk(s)
    requires var t := AddFsTo(s, barrier, empty, back); Census(t.hist, t.done, Live(t))
    ensures Books(AddFsTo(s, barrier, empty, back))
  {
    AddFsHist(s.hist, s.ordcolor, NewFs(s, barrier, empty));
    SequenceFrame(s, AddFsTo(s, barrier, empty, back));
  }

  lemma {:induction false} AddFsCensus(s: State, barrier: bool, empty: bool, back: bool)
    requires HistOk(s.hist) && s.ordcolor == Tint(s.hist, |s.hist.bars|) && s.hist.base <= |s.hist.bars|
    requires Census(s.hist, s.done, Live(s))
    ensures var t := AddFsTo(s, barrier, empty, back); Census(t.hist, t.done, Live(t))
    ensures NewFs(s, barrier, empty) !in Live(s)
  {
    var t := AddFsTo(s, barrier, empty, back);
    var r := NewFs(s, barrier, empty);
    assert Live(t) == Live(s) + {r};
    assert GoodRq(t.hist, s.done, r);
    CensusAdded(s.hist, t.hist, s.done, Live(s), r);
  }

  lemma {:induction false} AddFsPlaces(s: State, barrier: bool, empty: bool, back: bool)
    requires Places(s) && NewFs(s, barrier, empty) !in Live(s)
    requires (barrier ==> back) && (back ==> s.elevator == {})
    ensures Places(AddFsTo(s, barrier, empty, back))
  {
  }

  lemma {:induction false} AddFsLined(s: State, barrier: bool, empty: bool, back: bool)
    requires Core(s) && Enabled(s, AddFs(barrier, empty, back))
    ensures Lined(AddFsTo(s, barrier, empty, back))
  {
    hide Places, HistOk, Exclusive, SequenceOk, Covered;
    var t := AddFsTo(s, barrier, empty, back);
    var r := NewFs(s, barrier, empty);
    forall x | x in s.queue ensures x.Special? || Key(s.begun, x) <= Key(s.begun, r) {
      assert x in Live(s);
      assert GoodRq(s.hist, s.done, x);
    }
    SortedAppend(s.begun, s.queue, r);
    DrainLiveSameHead(s, t);
  }

  lemma {:induction false} AddFsHist(h: Hist, ordcolor: bool, r: Rq)
    requires HistOk(h) && ordcolor == Tint(h, |h.bars|) && h.base <= |h.bars|
    requires r.Fs? && r == Fs(|h.epochs|, {|h.epochs|}, r.barrier, r.empty, ordcolor, |h.bars|)
    ensures HistOk(h.(epochs := h.epochs + [|h.bars|], bars := if r.barrier then h.bars + [r] else h.bars))
    ensures Tint(h, |if r.barrier then h.bars + [r] else h.bars|) == if r.barrier then !ordcolor else ordcolor
  {
  }

  lemma {:induction false} CensusSpecial(h: Hist, done: set<nat>, live: set<Rq>, r: Rq)
    requires Census(h, done, live) && r.Special? && r.no == h.specials
    ensures Census(h.(specials := h.specials + 1), done, live + {r})
    ensures r !in live
  {
    var h' := h.(specials := h.specials + 1);
    forall x | x in live ensures GoodRq(h', done, x) && x != r {
      assert GoodRq(h, done, x);
    }
    assert Covered(h', done, live + {r}) by {
      forall n: nat | Submitted(h', n) && n !in done ensures exists x :: x in live + {r} && Holds(x, n) {
        assert Submitted(h, n);
        var x :| x in live && Holds(x, n);
        assert x in live + {r};
      }
    }
  }

  lemma {:induction false} AddSpecialInv(s: State, front: bool, discard: bool)
    requires Core(s) && Enabled(s, AddSpecial(front, discard, false))
    ensures Core(AddSpecialTo(s, front, discard, false))
  {
    AddSpecialBooks(s, front, discard);
    AddSpecialPlaces(s, front, discard);
    AddSpecialLined(s, front, discard);
  }

  lemma {:induction false} AddSpecialBooks(s: State, front: bool, discard: bool)
    requires Books(s)
    ensures Books(AddSpecialTo(s, front, discard, false))
    ensures Special(s.hist.specials, discard) !in Live(s)
  {
    SequenceFrame(s, AddSpecialTo(s, front, discard, false));
    AddSpecialCensus(s, front, discard);
  }

  lemma {:induction false} AddSpecialCensus(s: State, front: bool, discard: bool)
    requires Census(s.hist, s.done, Live(s))
    ensures var t := AddSpecialTo(s, front, discard, false); Census(t.hist, t.done, Live(t))
    ensures Special(s.hist.specials, discard) !in Live(s)
  {
    var r := Special(s.hist.specials, discard);
    CensusSpecial(s.hist, s.done, Live(s), r);
    assert Live(AddSpecialTo(s, front, discard, false)) == Live(s) + {r};
  }

  lemma {:induction false} AddSpecialPlaces(s: State, front: bool, discard: bool)
    requires Places(s) && Special(s.hist.specials, discard) !in Live(s)
    ensures Places(AddSpecialTo(s, front, discard, false))
  {
  }

  lemma {:induction false} AddSpecialLined(s: State, front: bool, discard: bool)
    requires Lined(s)
    ensures Lined(AddSpecialTo(s, front, discard, false))
  {
    SortedAppend(s.begun, s.queue, Special(s.hist.specials, discard));
  }

  // ----- merges inside the scheduler

  /** Live requests may be replaced by one that holds the same submissions, and a fresh one too. */
  lemma {:induction false} CensusMerged(h: Hist, h': Hist, done: set<nat>, live: set<Rq>, gone: set<Rq>, m: Rq)
    requires Census(h, done, live) && gone <= live && m.Fs? && GoodRq(h', done, m)
    requires h.epochs <= h'.epochs <= h.epochs + [|h.bars|] && h'.bars == h.bars && h'.specials == h.specials
    requires h'.base == h.base && h'.flip == h.flip
    requires forall x, n | x in gone && Holds(x, n) :: Holds(m, n)
    requires forall n | Holds(m, n) :: (exists x :: x in gone && Holds(x, n)) || n == |h.epochs|
    requires |h'.epochs| > |h.epochs| ==> Holds(m, |h.epochs|)
    ensures Census(h', done, live - gone + {m})
    ensures m in live ==> m in gone
  {
    var live' := live - gone + {m};
    var p :| p in m.parts;
    assert Holds(m, p);
    forall x | x in live ensures GoodRq(h', done, x) && !Holds(x, |h.epochs|) {
      assert GoodRq(h, done, x);
    }
    forall x, n | x in live && x !in gone && Holds(x, n) ensures !Holds(m, n) {
    }
    assert Covered(h', done, live') by {
      forall n: nat | Submitted(h', n) && n !in done ensures exists x :: x in live' && Holds(x, n) {
        if n < |h.epochs| {
          assert Submitted(h, n);
          var x :| x in live && Holds(x, n);
          if x in gone { assert m in live' && Holds(m, n); } else { assert x in live'; }
        } else {
          assert m in live' && Holds(m, n);
        }
      }
    }
  }

  function MergedBio(s: State, r: Rq): State
    requires r.Fs?
  {
    s.(elevator := s.elevator - {r} + {r.(parts := r.parts + {|s.hist.epochs|})},
       hist := s.hist.(epochs := s.hist.epochs + [|s.hist.bars|]))
  }

  lemma {:induction false} MergeBioInv(s: State, r: Rq)
    requires Core(s) && r in s.elevator && r.Fs?
    ensures Core(MergedBio(s, r))
  {
    MergeBioCensus(s, r);
    MergeBioBooks(s, r);
    MergeBioPlaces(s, r);
    MergeBioLined(s, r);
  }

  lemma {:induction false} MergeBioCensus(s: State, r: Rq)
    requires r in s.elevator && r.Fs?
    requires HistOk(s.hist) && ElevatorOk(s.elevator, |s.hist.bars|) && Census(s.hist, s.done, Live(s))
    requires Apart(s.elevator, s.queue, s.driver, s.orig)
    ensures var t := MergedBio(s, r); Census(t.hist, t.done, Live(t))
    ensures r.(parts := r.parts + {|s.hist.epochs|}) !in Live(s)
  {
    var t := MergedBio(s, r);
    var m := r.(parts := r.parts + {|s.hist.epochs|});
    assert r in Live(s);
    assert GoodRq(s.hist, s.done, r);
    assert Holds(m, |s.hist.epochs|);
    assert m in Live(s) ==> GoodRq(s.hist, s.done, m);
    assert GoodRq(t.hist, s.done, m) by {
      assert |s.hist.epochs| !in s.done;
    }
    forall n | Holds(m, n) ensures (exists x :: x in {r} && Holds(x, n)) || n == |s.hist.epochs| {
      if n != |s.hist.epochs| { assert r in {r} && Holds(r, n); }
    }
    CensusMerged(s.hist, t.hist, s.done, Live(s), {r}, m);
    assert Live(t) == Live(s) - {r} + {m};
  }

  lemma {:induction false} MergeBioBooks(s: State, r: Rq)
    requires Books(s) && r.Fs?
    requires var t := MergedBio(s, r); Census(t.hist, t.done, Live(t))
    ensures Books(MergedBio(s, r))
  {
    var t := MergedBio(s, r);
    MergeHist(s.hist);
    SequenceFrame(s, t);
  }

  lemma {:induction false} MergeHist(h: Hist)
    requires HistOk(h)
    ensures HistOk(h.(epochs := h.epochs + [|h.bars|]))
  {
  }

  lemma {:induction false} MergeBioPlaces(s: State, r: Rq)
    requires Places(s) && r in s.elevator && r.Fs? && r.(parts := r.parts + {|s.hist.epochs|}) !in Live(s)
    ensures Places(MergedBio(s, r))
  {
  }

  lemma {:induction false} MergeBioLined(s: State, r: Rq)
    requires Lined(s) && r.Fs?
    ensures Lined(MergedBio(s, r))
  {
    DrainLiveSameHead(s, MergedBio(s, r));
  }

  // ----- moves

  lemma {:induction false} SortedInsert(begun: nat, q: seq<Rq>, k: nat, r: Rq)
    requires Sorted(begun, q) && k <= |q|
    requires r.Special? || forall i | 0 <= i < k && !q[i].Special? :: Key(begun, q[i]) <= Key(begun, r)
    requires r.Special? || forall i | k <= i < |q| && !q[i].Special? :: Key(begun, r) <= Key(begun, q[i])
    ensures Sorted(begun, InsertAt(q, k, r))
  {
    var w := InsertAt(q, k, r);
    forall i, j | 0 <= i < j < |w| && !w[i].Special? && !w[j].Special?
      ensures Key(begun, w[i]) <= Key(begun, w[j])
    {
      var i' := if i < k then i else i - 1;
      var j' := if j < k then j else j - 1;
      assert i != k ==> w[i] == q[i'];
      assert j != k ==> w[j] == q[j'];
    }
  }

  lemma {:induction false} InsertElems(q: seq<Rq>, k: nat, r: Rq)
    requires k <= |q|
    ensures forall x :: x in InsertAt(q, k, r) <==> x in q || x == r
    ensures NoDup(q) && r !in q ==> NoDup(InsertAt(q, k, r))
  {
    assert q == q[..k] + q[k..];
  }

  function Dispatched(s: State, r: Rq, p: nat): State
    requires p <= |s.queue|
  {
    s.(elevator := s.elevator - {r}, queue := InsertAt(s.queue, p, r))
  }

  lemma {:induction false} DispatchInv(s: State, r: Rq, p: nat)
    requires Core(s) && Enabled(s, Dispatch(r, p))
    ensures Core(Dispatched(s, r, p))
  {
    InsertElems(s.queue, p, r);
    DispatchBooks(s, r, p);
    DispatchPlaces(s, r, p);
    DispatchLined(s, r, p);
  }

  lemma {:induction false} DispatchBooks(s: State, r: Rq, p: nat)
    requires Books(s) && r in s.elevator && p <= |s.queue|
    ensures Books(Dispatched(s, r, p))
  {
    var t := Dispatched(s, r, p);
    InsertElems(s.queue, p, r);
    assert Live(t) == Live(s);
    SequenceFrame(s, t);
  }

  lemma {:induction false} DispatchPlaces(s: State, r: Rq, p: nat)
    requires Places(s) && r in s.elevator && p <= |s.queue|
    ensures Places(Dispatched(s, r, p))
  {
    InsertElems(s.queue, p, r);
  }

  /** The scheduler may not sort across a stop flag, so what follows is of the newest epoch. */
  lemma {:induction false} DispatchLined(s: State, r: Rq, p: nat)
    requires Core(s) && Enabled(s, Dispatch(r, p))
    ensures Lined(Dispatched(s, r, p))
  {
    hide Census, Sorted, Apart, ProxiesOk, DriverOk, SequenceOk, HistOk;
    var t := Dispatched(s, r, p);
    InsertElems(s.queue, p, r);
    assert r.Fs? && !r.barrier && r.epoch == |s.hist.bars|;
    DispatchSorted(s, r, p);
    assert DrainLive(t) by {
      if Draining(t) && s.driver == {} {
        assert s.queue[0] in s.queue && EntryOk(s, s.queue[0]);
        assert p > 0 by { DrainHeadPinned(s); }
      }
    }
  }

  /** While draining, what may go out at the head is pinned: nothing is sorted in front of it. */
  lemma {:induction false} DrainHeadPinned(s: State)
    requires Core(s) && Draining(s) && s.queue != [] && ReqSeq(s, s.queue[0]) == DRAIN
    ensures Stop(s, s.queue[0])
  {
    var r := s.queue[0];
    assert r in s.queue && EntryOk(s, r);
    HeadWhileActive(s);
  }

  lemma {:induction false} DispatchSorted(s: State, r: Rq, p: nat)
    requires Core(s) && Enabled(s, Dispatch(r, p))
    ensures Sorted(s.begun, InsertAt(s.queue, p, r))
  {
    hide DrainLive, SequenceOk, Apart, ProxiesOk, DriverOk, Exclusive, Covered;
    forall i | 0 <= i < |s.queue| && !s.queue[i].Special?
      ensures i < p ==> Key(s.begun, s.queue[i]) <= Key(s.begun, r)
      ensures p <= i ==> Key(s.begun, r) <= Key(s.begun, s.queue[i])
    {
      var x := s.queue[i];
      assert x in s.queue && x in Live(s);
      assert GoodRq(s.hist, s.done, x);
      if p <= i {
        assert EntryOk(s, x);
        PlainIsNewest(s, i);
      }
    }
    SortedInsert(s.begun, s.queue, p, r);
  }

  lemma {:induction false} PlainIsNewest(s: State, i: nat)
    requires Core(s) && i < |s.queue|
    requires forall j | i <= j < |s.queue| :: !Stop(s, s.queue[j])
    ensures s.queue[i].Fs? && s.queue[i].epoch == |s.hist.bars|
  {
    var x := s.queue[i];
    assert x in s.queue && x in Live(s);
    assert EntryOk(s, x) && GoodRq(s.hist, s.done, x);
    assert s.begun <= x.epoch;
    assert !Pending(s.hist, s.begun, x.epoch);
  }

  lemma {:induction false} AccountedMore(driver: set<Rq>, r: Rq)
    requires r !in driver
    ensures |Accounted(driver + {r})| == |Accounted(driver)| + Weight(r)
  {
    assert Accounted(driver + {r}) == if Accounts(r) then Accounted(driver) + {r} else Accounted(driver);
  }

  lemma {:induction false} AccountedChange(driver: set<Rq>, r: Rq)
    ensures r !in driver ==> |Accounted(driver + {r})| == |Accounted(driver)| + Weight(r)
    ensures r in driver ==> |Accounted(driver - {r})| == |Accounted(driver)| - Weight(r)
  {
    hide *;
    if r !in driver {
      AccountedMore(driver, r);
    } else {
      AccountedMore(driver - {r}, r);
      assert driver - {r} + {r} == driver;
    }
  }
  function Issued(s: State): State
    requires s.queue != []
  {
    var r := s.queue[0];
    s.(queue := s.queue[1..], started := s.started + {r}, driver := s.driver + {r},
       inFlight := s.inFlight + Weight(r))
  }

  /** Which requests the queue can hand out: never a queued barrier, and in a running sequence
      only the proxy whose turn it is, a request being drained, or a special request. */
  lemma {:induction false} HeadHandedOut(s: State)
    requires Core(s) && s.queue != [] && MayIssue(s, s.queue[0])
    ensures var r := s.queue[0];
      && (r.Fs? ==> !r.barrier && r.epoch == (if Active(s) then s.begun - 1 else s.begun))
      && (r.Fs? && Active(s) ==> Draining(s))
      && (IsProxy(r) ==> Active(s) && ReqSeq(s, r) == CurSeq(s.ordseq))
  {
    var r := s.queue[0];
    assert r in s.queue && r in Live(s);
    assert GoodRq(s.hist, s.done, r) && EntryOk(s, r);
    if Active(s) {
      HeadWhileActive(s);
    } else if r.Fs? {
      FirstOrdered(s.hist, s.begun, s.queue, 0);
    }
  }

  lemma {:induction false} IssueInv(s: State)
    requires Core(s) && s.queue != [] && MayIssue(s, s.queue[0])
    ensures Core(Issued(s))
  {
    HeadHandedOut(s);
    TailElems(s.queue);
    IssueBooks(s);
    IssuePlaces(s);
    IssueLined(s);
  }

  lemma {:induction false} TailElems(q: seq<Rq>)
    requires q != [] && NoDup(q)
    ensures forall x :: x in q[1..] <==> x in q && x != q[0]
    ensures NoDup(q[1..])
    ensures forall begun: nat :: Sorted(begun, q) ==> Sorted(begun, q[1..])
  {
    assert q == [q[0]] + q[1..];
  }

  lemma {:induction false} IssueBooks(s: State)
    requires Books(s) && s.queue != [] && NoDup(s.queue)
    ensures Books(Issued(s))
  {
    var t := Issued(s);
    TailElems(s.queue);
    assert Live(t) == Live(s);
    SequenceFrame(s, t);
  }

  lemma {:induction false} IssuePlaces(s: State)
    requires Places(s) && s.queue != []
    requires var r := s.queue[0];
      && (r.Fs? ==> !r.barrier && r.epoch == (if Active(s) then s.begun - 1 else s.begun))
      && (r.Fs? && Active(s) ==> Draining(s))
      && (r.PreFlush? ==> CurSeq(s.ordseq) == PREFLUSH)
      && (r.Bar? ==> CurSeq(s.ordseq) == BAR)
      && (r.PostFlush? ==> CurSeq(s.ordseq) == POSTFLUSH)
    ensures Places(Issued(s))
  {
    var t := Issued(s);
    TailElems(s.queue);
    AccountedChange(s.driver, s.queue[0]);
    assert Apart(t.elevator, t.queue, t.driver, t.orig);
    assert DriverOk(t);
  }

  lemma {:induction false} IssueLined(s: State)
    requires Lined(s) && s.queue != [] && NoDup(s.queue) && HistOk(s.hist)
    requires s.queue[0].Fs? ==> !s.queue[0].barrier
    ensures Lined(Issued(s))
  {
    var t := Issued(s);
    TailElems(s.queue);
    assert forall x | x in t.queue :: EntryOk(s, x);
    assert s.queue[0] in t.driver;
  }

  lemma {:induction false} PeekInv(s: State)
    requires Core(s) && s.queue != [] && MayIssue(s, s.queue[0])
    ensures Core(s.(started := s.started + {s.queue[0]}))
  {
    hide Census, HistOk, Sorted, BarriersQueued, Apart, ElevatorOk;
    var t := s.(started := s.started + {s.queue[0]});
    HeadHandedOut(s);
    SequenceFrame(s, t);
    assert Live(t) == Live(s);
    assert Lined(t) by {
      assert forall x | x in t.queue :: EntryOk(s, x);
    }
  }

  lemma {:induction false} BarErrorInv(s: State, error: int)
    requires Core(s) && Active(s)
    ensures Core(s.(orderr := if error != 0 && s.orderr == 0 then error else s.orderr, errs := s.errs + [error]))
  {
    var t := s.(orderr := if error != 0 && s.orderr == 0 then error else s.orderr, errs := s.errs + [error]);
    FirstErrorAppend(s.errs, error);
    assert Live(t) == Live(s);
    DrainLiveSameHead(s, t);
  }

  // ----- re-queueing

  lemma {:induction false} RequeueInv(s: State, r: Rq)
    requires Core(s) && r in s.driver
    ensures Core(Requeued(s, r))
  {
    RequeueBooks(s, r);
    RequeuePlaces(s, r);
    RequeueLined(s, r);
  }

  function RequeueAt(s: State, r: Rq): (k: nat)
    requires WellTyped(s)
    ensures k <= |s.queue|
  {
    if Active(s) then RequeueIndex(s, s.queue, ReqSeq(s, r)) else 0
  }

  lemma {:induction false} RequeuedQueue(s: State, r: Rq)
    requires WellTyped(s)
    ensures Requeued(s, r).queue == InsertAt(s.queue, RequeueAt(s, r), r)
  {
  }

  lemma {:induction false} RequeueBooks(s: State, r: Rq)
    requires Books(s) && r in s.driver && WellTyped(s)
    ensures Books(Requeued(s, r))
  {
    var t := Requeued(s, r);
    RequeuedQueue(s, r);
    InsertElems(s.queue, RequeueAt(s, r), r);
    assert Live(t) == Live(s);
    SequenceFrame(s, t);
  }

  lemma {:induction false} RequeuePlaces(s: State, r: Rq)
    requires Places(s) && r in s.driver && WellTyped(s)
    ensures Places(Requeued(s, r))
  {
    RequeuedQueue(s, r);
    InsertElems(s.queue, RequeueAt(s, r), r);
    AccountedChange(s.driver, r);
  }

  /** A re-queued request lands in front of every ordered entry: only special requests
      precede it, whatever colours the rest of the list has. */
  lemma {:induction false} RequeueBeforeOrdered(s: State, r: Rq)
    requires Core(s) && r in s.driver
    ensures forall i | 0 <= i < RequeueAt(s, r) :: s.queue[i].Special?
    ensures !r.Special? ==> forall x | x in s.queue && !x.Special? :: Key(s.begun, r) <= Key(s.begun, x)
    ensures Draining(s) ==> RequeueAt(s, r) == 0
  {
    RequeueKeys(s, r);
    if Active(s) {
      var k := RequeueAt(s, r);
      if r.Fs? { assert r in Live(s) && GoodRq(s.hist, s.done, r); }
      var i := 0;
      while i < k
        invariant 0 <= i <= k
        invariant forall j | 0 <= j < i :: s.queue[j].Special?
      {
        RequeueSkips(s, r, i);
        i := i + 1;
      }
    }
  }

  lemma {:induction false} RequeueKeys(s: State, r: Rq)
    requires Core(s) && r in s.driver
    ensures !r.Special? ==> forall x | x in s.queue && !x.Special? :: Key(s.begun, r) <= Key(s.begun, x)
  {
    hide Sorted, BarriersQueued, Exclusive, Covered, HistOk, Apart, DrainLive;
    forall x | x in s.queue && !x.Special? && !r.Special? ensures Key(s.begun, r) <= Key(s.begun, x) {
      assert x in Live(s);
      assert GoodRq(s.hist, s.done, x) && EntryOk(s, x);
    }
  }

  lemma {:induction false} RequeueSkips(s: State, r: Rq, i: nat)
    requires Core(s) && r in s.driver && Active(s) && i < RequeueAt(s, r)
    requires forall j | 0 <= j < i :: s.queue[j].Special?
    ensures s.queue[i].Special?
  {
    var x := s.queue[i];
    assert x in s.queue && x in Live(s);
    assert GoodRq(s.hist, s.done, x) && EntryOk(s, x);
    if x.Fs? { FirstOrdered(s.hist, s.begun, s.queue, i); }
  }

  lemma {:induction false} RequeueLined(s: State, r: Rq)
    requires Core(s) && r in s.driver
    ensures Lined(Requeued(s, r))
  {
    var k := RequeueAt(s, r);
    RequeuedQueue(s, r);
    RequeueBeforeOrdered(s, r);
    RequeueEntries(s, r);
    InsertElems(s.queue, k, r);
    SortedInsert(s.begun, s.queue, k, r);
  }

  lemma {:induction false} RequeueEntries(s: State, r: Rq)
    requires Core(s) && r in s.driver
    requires Draining(s) ==> RequeueAt(s, r) == 0
    ensures forall x | x in Requeued(s, r).queue :: EntryOk(Requeued(s, r), x)
    ensures DrainLive(Requeued(s, r))
  {
    hide Live, Apart, Sorted, BarriersQueued, ElevatorOk, ProxiesOk, SequenceOk, DrainLive;
    RequeuedQueue(s, r);
    InsertElems(s.queue, RequeueAt(s, r), r);
    assert forall x | x in s.queue :: EntryOk(s, x);
    RequeueDrainLive(s, r);
  }

  lemma {:induction false} RequeueDrainLive(s: State, r: Rq)
    requires Core(s) && r in s.driver
    requires Draining(s) ==> RequeueAt(s, r) == 0
    ensures DrainLive(Requeued(s, r))
  {
    hide Exclusive, Covered, Apart, Sorted, BarriersQueued, EntryOk, ElevatorOk;
    RequeuedQueue(s, r);
    if r.Fs? { assert r in Live(s) && GoodRq(s.hist, s.done, r); }
  }
}
