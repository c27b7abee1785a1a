/** Which bios a completion ends, what it leaves, and with which error a bio ends when its bytes came
    in several goes. */
module Verdicts {
  import opened Segments
  import opened RequestGeometry
  import opened Completion
  import opened BlockRequest

  /** The error of a bio whose last bytes come with `error`; `failed` says whether it failed before. */
  function Verdict(failed: bool, error: int): int { if error != 0 then error else if failed then -5 else 0 }

  /** The first n bytes cover the first k bios and no more. */
  ghost predicate Covers(bios: seq<Bio>, n: nat, k: nat) {
    && k <= |bios| && TotalSize(bios[..k]) <= n
    && (k < |bios| ==> n < TotalSize(bios[..k]) + bios[k].size)
  }

  /** Exactly the first k bios end, in order, each with its own verdict. */
  ghost predicate EndsFirst(bios: seq<Bio>, k: nat, error: int, ended: seq<(nat, int)>) {
    && k <= |bios| && |ended| == k
    && forall i | 0 <= i < k :: ended[i] == (bios[i].id, Verdict(!bios[i].uptodate, error))
  }

  /** What is left is the rest, its first bio short of m bytes and that many whole sectors further. */
  ghost predicate LeavesRest(bios: seq<Bio>, k: nat, m: nat, error: int, left: seq<Bio>) {
    if k >= |bios| then left == []
    else
      && |left| == |bios| - k && left[1..] == bios[k + 1..]
      && left[0].id == bios[k].id && left[0].size == bios[k].size - m && left[0].sector == bios[k].sector + m / 512
      && left[0].uptodate == (bios[k].uptodate && (m == 0 || error == 0))
      && left[0].idx + |left[0].vecs| == bios[k].idx + |bios[k].vecs|
  }

  lemma {:induction false} SplitFirst(bios: seq<Bio>, k: nat)
    requires 0 < k <= |bios|
    ensures bios[..k] == [bios[0]] + bios[1..][..k - 1]
    ensures TotalSize(bios[..k]) == bios[0].size + TotalSize(bios[1..][..k - 1])
  {
    assert bios[..k][1..] == bios[1..][..k - 1];
  }

  /** What one go does, with k bios covered. */
  ghost predicate Goes(bios: seq<Bio>, n: nat, error: int, k: nat) {
    && Covers(bios, n, k) && EndsFirst(bios, k, error, EndedBios(bios, n, error))
    && LeavesRest(bios, k, n - TotalSize(bios[..k]), error, Left(bios, n, error))
    && (k < |bios| ==> Into(bios, n) == n - TotalSize(bios[..k]))
  }

  lemma {:induction false} GoesInto(x: Bio, rest: seq<Bio>, n: nat, error: int)
    requires IsData(x) && n < x.size
    ensures Goes([x] + rest, n, error, 0)
  {
    var bios := [x] + rest;
    LeftCons(x, rest, n, error);
    AdvanceBioFacts(x, n, error);
    SkipShape(x.vecs, n);
    assert bios[..0] == [] && bios[1..] == rest;
    assert ([CutBy(x, n, n / 512, error)] + rest)[1..] == rest;
    hide Left, EndedBios, IsData;
  }

  lemma {:induction false} GoesPast(x: Bio, rest: seq<Bio>, n: nat, error: int, j: nat)
    requires x.size <= n && Goes(rest, n - x.size, error, j)
    ensures Goes([x] + rest, n, error, j + 1)
  {
    var bios := [x] + rest;
    LeftCons(x, rest, n, error);
    assert bios[1..] == rest;
    EndsCons(x, rest, j, error, EndedBios(rest, n - x.size, error));
    hide Left, EndedBios, EndsFirst;
    SplitFirst(bios, j + 1);
    assert j < |rest| ==> bios[j + 1] == rest[j] && bios[j + 2..] == rest[j + 1..];
  }

  /** The main result on one go. */
  lemma {:induction false} OneGo(bios: seq<Bio>, n: nat, error: int) returns (k: nat)
    requires AllData(bios)
    ensures Goes(bios, n, error, k)
  {
    k := 0;
    if bios != [] {
      var x, rest := bios[0], bios[1..];
      TailData(bios);
      assert [x] + rest == bios;
      hide Goes, IsData;
      if x.size <= n {
        var j := OneGo(rest, n - x.size, error);
        k := j + 1;
        GoesPast(x, rest, n, error, j);
      } else {
        GoesInto(x, rest, n, error);
      }
    } else {
      assert bios[..0] == [];
    }
  }

  lemma {:induction false} EndsCons(x: Bio, rest: seq<Bio>, j: nat, error: int, ended: seq<(nat, int)>)
    requires EndsFirst(rest, j, error, ended)
    ensures EndsFirst([x] + rest, j + 1, error, [(x.id, EndError(x, error))] + ended)
  {
  }

  /** The bios from the k-th on end, the first of them with a failure on record if `failed`. */
  ghost predicate EndsNext(bios: seq<Bio>, k: nat, failed: bool, error: int, ended: seq<(nat, int)>) {
    && k + |ended| <= |bios|
    && forall i | 0 <= i < |ended| ::
         ended[i] == (bios[k + i].id, Verdict(!bios[k + i].uptodate || (i == 0 && failed), error))
  }

  /** What the first go left, the second ends in turn. */
  lemma {:induction false} EndsAfter(bios: seq<Bio>, k: nat, m: nat, e1: int, left: seq<Bio>, j: nat, e2: int,
                                     second: seq<(nat, int)>)
    requires k <= |bios| && LeavesRest(bios, k, m, e1, left) && EndsFirst(left, j, e2, second)
    ensures EndsNext(bios, k, m > 0 && e1 != 0, e2, second)
  {
    forall i | 0 <= i < |second|
      ensures second[i] == (bios[k + i].id, Verdict(!bios[k + i].uptodate || (i == 0 && m > 0 && e1 != 0), e2))
    {
      if i > 0 { assert left[i] == left[1..][i - 1] && bios[k + i] == bios[k + 1..][i - 1]; }
    }
  }

  /** Two goes with errors of their own.  The bio the first go stopped in fails if either go failed;
      the others end with the verdict of the go that ends them. */
  lemma {:induction false} TwoErrors(bios: seq<Bio>, a: nat, e1: int, b: nat, e2: int)
    requires AllData(bios)
    ensures var first, second := EndedBios(bios, a, e1), EndedBios(Left(bios, a, e1), b, e2);
      && EndsFirst(bios, |first|, e1, first)
      && EndsNext(bios, |first|, Into(bios, a) > 0 && e1 != 0, e2, second)
  {
    hide Left, EndedBios, IsData, Into, LeavesRest, TotalSize;
    var k := OneGo(bios, a, e1);
    LeftFacts(bios, a, e1);
    var left := Left(bios, a, e1);
    var j := OneGo(left, b, e2);
    EndsAfter(bios, k, a - TotalSize(bios[..k]), e1, left, j, e2, EndedBios(left, b, e2));
    if k == |bios| { NothingAfter(bios, k, a, e1, b, e2); }
  }

  lemma {:induction false} NothingAfter(bios: seq<Bio>, k: nat, n: nat, error: int, b: nat, e2: int)
    requires k == |bios| && TotalSize(bios[..k]) <= n
    requires LeavesRest(bios, k, n - TotalSize(bios[..k]), error, Left(bios, n, error))
    ensures EndedBios(Left(bios, n, error), b, e2) == []
  {
    hide Left;
  }

  /** The same for a request that is updated twice. */
  method UpdateErrors(r: Request, l: Limits, a: nat, e1: int, b: nat, e2: int)
    returns (ghost first: seq<(nat, int)>, ghost second: seq<(nat, int)>)
    requires AllData(r.bios) && r.dataLen == TotalSize(r.bios)
    modifies r
    ensures r.ended == old(r.ended) + first + second
    ensures EndsFirst(old(r.bios), |first|, e1, first)
    ensures EndsNext(old(r.bios), |first|, Into(old(r.bios), a) > 0 && e1 != 0, e2, second)
    ensures a + b >= TotalSize(old(r.bios)) ==> |first| + |second| == |old(r.bios)|
  {
    hide TallyOk, Left, EndedBios, SameButSizes, IsData, Into, TotalSize, EndsFirst, EndsNext;
    var _ := r.Update(l, a, e1);
    ghost var mid := r.bios;
    var more := r.Update(l, b, e2);
    SizesDontMatter(mid, Left(old(r.bios), a, e1), b, e2);
    TwoErrors(old(r.bios), a, e1, b, e2);
    first, second := EndedBios(old(r.bios), a, e1), EndedBios(mid, b, e2);
    AllEnd(old(r.bios), a, e1, b, e2);
  }

  lemma {:induction false} AllEnd(bios: seq<Bio>, a: nat, e1: int, b: nat, e2: int)
    requires AllData(bios)
    ensures a + b >= TotalSize(bios) ==>
      |EndedBios(bios, a, e1)| + |EndedBios(Left(bios, a, e1), b, e2)| == |bios|
  {
    var k := OneGo(bios, a, e1);
    LeftFacts(bios, a, e1);
    var left := Left(bios, a, e1);
    var j := OneGo(left, b, e2);
    LeftFacts(left, b, e2);
    hide Left, EndedBios, IsData, Into, TotalSize;
  }
}
