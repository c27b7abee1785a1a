/** Sorting a request into the dispatch list: a one-way elevator that starts at the boundary sector
    and never passes a barrier, a started request, or a request of another kind. */
module DispatchSort {

  /** `stop` is any of the soft-barrier, hard-barrier and started flags. */
  datatype Rq = Rq(id: nat, pos: nat, write: bool, discard: bool, stop: bool)

  /** Entries a request may be sorted among. */
  predicate Kin(r: Rq, p: Rq) { p.discard == r.discard && p.write == r.write && !p.stop }

  /** One-way order: sectors from the boundary up, then those below it. */
  predicate Before(boundary: nat, a: Rq, b: Rq) {
    if a.pos >= boundary then b.pos < boundary || a.pos <= b.pos
    else b.pos < boundary && a.pos <= b.pos
  }

  ghost predicate Ordered(boundary: nat, q: seq<Rq>) {
    forall i, j | 0 <= i < j < |q| :: Before(boundary, q[i], q[j])
  }

  /** One sweep of the disk: up from the boundary, then the first k done, up from the bottom. */
  ghost predicate Sweep(boundary: nat, q: seq<Rq>, k: nat) {
    && k <= |q| && (forall i | 0 <= i < k :: q[i].pos >= boundary) && (forall i | k <= i < |q| :: q[i].pos < boundary)
    && (forall i, j | 0 <= i < j < k :: q[i].pos <= q[j].pos)
    && (forall i, j | k <= i < j < |q| :: q[i].pos <= q[j].pos)
  }

  /** How many entries at the front lie at or above the boundary. */
  function Upper(boundary: nat, q: seq<Rq>): nat {
    if q == [] || q[0].pos < boundary then 0 else 1 + Upper(boundary, q[1..])
  }

  lemma {:induction false} UpperSplits(boundary: nat, q: seq<Rq>)
    ensures var k := Upper(boundary, q);
      k <= |q| && (forall i | 0 <= i < k :: q[i].pos >= boundary) && (k < |q| ==> q[k].pos < boundary)
  {
    if q != [] && q[0].pos >= boundary {
      UpperSplits(boundary, q[1..]);
      var k := Upper(boundary, q);
      assert forall i | 0 < i < k :: q[i] == q[1..][i - 1];
      assert k < |q| ==> q[k] == q[1..][k - 1];
    }
  }

  /** The order is exactly one sweep. */
  lemma {:induction false} OrderedIsSweep(boundary: nat, q: seq<Rq>)
    ensures Ordered(boundary, q) <==> Sweep(boundary, q, Upper(boundary, q))
  {
    UpperSplits(boundary, q);
    hide Upper;
    var k := Upper(boundary, q);
    if Ordered(boundary, q) {
      forall i | k <= i < |q| ensures q[i].pos < boundary { assert k < i ==> Before(boundary, q[k], q[i]); }
      forall i, j | 0 <= i < j < k ensures q[i].pos <= q[j].pos { assert Before(boundary, q[i], q[j]); }
      forall i, j | k <= i < j < |q| ensures q[i].pos <= q[j].pos { assert Before(boundary, q[i], q[j]); }
    }
  }

  /** Start of the run of kin at the end of the list. */
  function RunStart(q: seq<Rq>, r: Rq): (k: nat)
    ensures k <= |q|
    ensures forall i | k <= i < |q| :: Kin(r, q[i])
    ensures k > 0 ==> !Kin(r, q[k - 1])
  {
    if q == [] || !Kin(r, q[|q| - 1]) then |q| else RunStart(q[..|q| - 1], r)
  }

  /** Any two requests are comparable, and the order is transitive. */
  lemma {:induction false} BeforeTotal(boundary: nat, a: Rq, b: Rq, c: Rq)
    ensures Before(boundary, a, b) || Before(boundary, b, a)
    ensures Before(boundary, a, b) && Before(boundary, b, c) ==> Before(boundary, a, c)
  {
  }

  /** The walk from the tail: the request goes right behind the entry it stops at. */
  method FindPlace(q: seq<Rq>, boundary: nat, rq: Rq) returns (p: nat)
    ensures RunStart(q, rq) <= p <= |q|
    ensures forall i | p <= i < |q| :: !Before(boundary, q[i], rq)
    ensures p > RunStart(q, rq) ==> Before(boundary, q[p - 1], rq)
  {
    p := |q|;
    while p > 0
      invariant RunStart(q, rq) <= p <= |q|
      invariant forall i | p <= i < |q| :: !Before(boundary, q[i], rq)
    {
      var pos := q[p - 1];
      if rq.discard != pos.discard { break; }
      if rq.write != pos.write { break; }
      if pos.stop { break; }
      if rq.pos >= boundary {
        if pos.pos < boundary {
          p := p - 1;
          continue;
        }
      } else {
        if pos.pos >= boundary { break; }
      }
      if rq.pos >= pos.pos { break; }
      p := p - 1;
    }
  }

  /** The list with the request at place p. */
  function Placed(q: seq<Rq>, p: nat, rq: Rq): seq<Rq>
    requires p <= |q|
  {
    q[..p] + [rq] + q[p..]
  }

  lemma {:induction false} PlacedRun(q: seq<Rq>, p: nat, rq: Rq, k: nat)
    requires k <= p <= |q|
    ensures Placed(q, p, rq)[k..] == q[k..p] + [rq] + q[p..] && Placed(q, p, rq)[..k] == q[..k]
  {
  }

  /** An ordered run stays ordered, and the request lies behind its equals. */
  lemma {:induction false} InsertOrdered(boundary: nat, run: seq<Rq>, p: nat, rq: Rq)
    requires Ordered(boundary, run) && p <= |run|
    requires forall i | p <= i < |run| :: !Before(boundary, run[i], rq)
    requires p > 0 ==> Before(boundary, run[p - 1], rq)
    ensures Ordered(boundary, Placed(run, p, rq))
  {
    var q := Placed(run, p, rq);
    forall i, j | 0 <= i < j < |q| ensures Before(boundary, q[i], q[j]) {
      if i < p && j == p { BeforeTotal(boundary, run[i], run[p - 1], rq); }
      if i == p { BeforeTotal(boundary, rq, run[j - 1], rq); }
    }
  }

  class DispatchList {
    var queueHead: seq<Rq>
    var endSector: nat               // the boundary of the one-way elevator

    /** The run that requests like `rq` are sorted among is in one-way order. */
    ghost predicate RunOrdered(rq: Rq)
      reads this
    {
      Ordered(endSector, queueHead[RunStart(queueHead, rq)..])
    }

    /** Sorts a request in.  Nothing that is not its kin is passed; if the run was in order it still is. */
    method Sort(rq: Rq) returns (p: nat)
      modifies this`queueHead
      ensures RunStart(old(queueHead), rq) <= p <= |old(queueHead)| && queueHead == Placed(old(queueHead), p, rq)
      ensures old(RunOrdered(rq)) && !rq.stop ==>
        RunOrdered(rq) && RunStart(queueHead, rq) == RunStart(old(queueHead), rq)
      ensures var q := old(queueHead);
        forall i | p <= i < |q| :: q[i].write == rq.write && q[i].discard == rq.discard && !q[i].stop
      ensures old(RunOrdered(rq)) && !rq.stop ==>
        var run := queueHead[RunStart(queueHead, rq)..]; Sweep(endSector, run, Upper(endSector, run))
    {
      ghost var was := queueHead;
      p := FindPlace(queueHead, endSector, rq);
      queueHead := queueHead[..p] + [rq] + queueHead[p..];
      if !rq.stop { SortKeeps(was, endSector, rq, p); }
      OrderedIsSweep(endSector, queueHead[RunStart(queueHead, rq)..]);
      hide Ordered, Upper, Sweep;
    }
  }

  lemma {:induction false} SortKeeps(q: seq<Rq>, boundary: nat, rq: Rq, p: nat)
    requires Kin(rq, rq) && RunStart(q, rq) <= p <= |q|
    requires forall i | p <= i < |q| :: !Before(boundary, q[i], rq)
    requires p > RunStart(q, rq) ==> Before(boundary, q[p - 1], rq)
    ensures RunStart(Placed(q, p, rq), rq) == RunStart(q, rq)
    ensures Ordered(boundary, q[RunStart(q, rq)..]) ==> Ordered(boundary, Placed(q, p, rq)[RunStart(q, rq)..])
  {
    var k := RunStart(q, rq);
    hide RunStart, Before, Kin;
    PlacedKin(q, p, rq, k);
    RunStartIs(Placed(q, p, rq), rq, k);
    if Ordered(boundary, q[k..]) {
      hide Ordered, Placed;
      InsertOrdered(boundary, q[k..], p - k, rq);
      PlacedShift(q, p, rq, k);
    }
  }

  lemma {:induction false} PlacedShift(q: seq<Rq>, p: nat, rq: Rq, k: nat)
    requires k <= p <= |q|
    ensures Placed(q[k..], p - k, rq) == Placed(q, p, rq)[k..]
  {
    assert q[k..][..p - k] == q[k..p] && q[k..][p - k..] == q[p..];
    PlacedRun(q, p, rq, k);
  }

  lemma {:induction false} PlacedKin(q: seq<Rq>, p: nat, rq: Rq, k: nat)
    requires k <= p <= |q| && Kin(rq, rq) && (forall i | k <= i < |q| :: Kin(rq, q[i]))
    requires (k > 0 ==> !Kin(rq, q[k - 1]))
    ensures forall i | k <= i <= |q| :: Kin(rq, Placed(q, p, rq)[i])
    ensures k > 0 ==> !Kin(rq, Placed(q, p, rq)[k - 1])
  {
    hide Kin;
    forall i | k <= i <= |q| ensures Kin(rq, Placed(q, p, rq)[i]) {
      assert Placed(q, p, rq)[i] == if i < p then q[i] else if i == p then rq else q[i - 1];
    }
  }

  lemma {:induction false} RunStartIs(q: seq<Rq>, r: Rq, k: nat)
    requires k <= |q| && (forall i | k <= i < |q| :: Kin(r, q[i])) && (k > 0 ==> !Kin(r, q[k - 1]))
    ensures RunStart(q, r) == k
  {
    if k < |q| { RunStartIs(q[..|q| - 1], r, k); }
  }

  // ----- a whole batch

  /** Requests sorted in one after the other, each where the walk puts it. */
  ghost predicate Sorts(boundary: nat, q: seq<Rq>, rqs: seq<Rq>, r: seq<Rq>)
    decreases |rqs|
  {
    if rqs == [] then r == q
    else exists p: nat :: Sorted1(boundary, q, rqs[0], p) && Sorts(boundary, Placed(q, p, rqs[0]), rqs[1..], r)
  }

  ghost predicate Sorted1(boundary: nat, q: seq<Rq>, rq: Rq, p: nat) {
    && RunStart(q, rq) <= p <= |q|
    && (forall i | p <= i < |q| :: !Before(boundary, q[i], rq))
    && (p > RunStart(q, rq) ==> Before(boundary, q[p - 1], rq))
  }

  lemma {:induction false} PlacedBag(q: seq<Rq>, p: nat, rq: Rq)
    requires p <= |q|
    ensures multiset(Placed(q, p, rq)) == multiset(q) + multiset{rq}
  {
    assert q == q[..p] + q[p..];
  }

  lemma {:induction false} KinRun(q: seq<Rq>, a: Rq, b: Rq)
    requires a.write == b.write && a.discard == b.discard
    ensures RunStart(q, a) == RunStart(q, b)
  {
    if q != [] { KinRun(q[..|q| - 1], a, b); }
  }

  /** One step of a batch. */
  lemma {:induction false} BatchStep(boundary: nat, q: seq<Rq>, rq: Rq, p: nat, kind: Rq)
    requires Sorted1(boundary, q, rq, p) && Kin(kind, rq) && Ordered(boundary, q[RunStart(q, kind)..])
    ensures var q' := Placed(q, p, rq);
      && RunStart(q', kind) == RunStart(q, kind) && Ordered(boundary, q'[RunStart(q', kind)..])
      && multiset(q') == multiset(q) + multiset{rq} && q'[..RunStart(q, kind)] == q[..RunStart(q, kind)]
  {
    KinRun(q, rq, kind);
    KinRun(Placed(q, p, rq), rq, kind);
    SortKeeps(q, boundary, rq, p);
    hide Ordered, RunStart, Before, Placed;
    PlacedRun(q, p, rq, RunStart(q, kind));
    PlacedBag(q, p, rq);
  }

  /** However a batch of like requests arrives, it ends up as one ordered run behind what was there. */
  lemma {:induction false} BatchOrdered(boundary: nat, q: seq<Rq>, rqs: seq<Rq>, r: seq<Rq>, kind: Rq)
    requires Sorts(boundary, q, rqs, r) && Ordered(boundary, q[RunStart(q, kind)..])
    requires forall i | 0 <= i < |rqs| :: Kin(kind, rqs[i])
    ensures RunStart(r, kind) == RunStart(q, kind) && Ordered(boundary, r[RunStart(r, kind)..])
    ensures multiset(r) == multiset(q) + multiset(rqs) && r[..RunStart(q, kind)] == q[..RunStart(q, kind)]
    ensures var run := r[RunStart(r, kind)..]; Sweep(boundary, run, Upper(boundary, run))
    decreases |rqs|
  {
    hide Ordered, RunStart, Kin, Placed, Sweep, Upper;
    OrderedIsSweep(boundary, r[RunStart(r, kind)..]);
    if rqs == [] {
      assert Sorts(boundary, q, [], r) && multiset(rqs) == multiset{};
    } else {
      var p: nat :| Sorted1(boundary, q, rqs[0], p) && Sorts(boundary, Placed(q, p, rqs[0]), rqs[1..], r);
      hide Sorts, Sorted1;
      BatchStep(boundary, q, rqs[0], p, kind);
      BatchOrdered(boundary, Placed(q, p, rqs[0]), rqs[1..], r, kind);
      assert rqs == [rqs[0]] + rqs[1..];
    }
  }
}
