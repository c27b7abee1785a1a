/** Physical segments of a request: how a list of memory vectors is packed into scatter-gather
    segments.  A packing is a list of cut marks, one per vector: a mark starts a new segment.

    `MappedCuts` is the packing the scatterlist builder makes, `CountedCuts` the one the segment
    counter makes.  The builder's packing is the smallest of all valid ones. */
module Segments {

  const PAGE_SIZE := 4096

  datatype Vec = Vec(page: nat, offset: nat, len: nat)

  function Phys(v: Vec): nat { v.page * PAGE_SIZE + v.offset }

  type Window = n: nat | n > 0 witness 1

  /** What a queue allows.  `window` is the segment-boundary mask plus one. */
  datatype Limits = Limits(cluster: bool, maxSegSize: nat, window: Window, bouncePfn: nat, maxSegments: nat,
      maxSectors: nat)

  predicate High(l: Limits, v: Vec) { v.page > l.bouncePfn }

  /** Two neighbours may share a segment: contiguous, and not across the boundary window. */
  predicate Glue(l: Limits, v: Vec, w: Vec) {
    && l.cluster
    && Phys(v) + v.len == Phys(w)
    && Phys(v) / l.window == (Phys(w) + w.len - 1) / l.window
  }

  // ----- packings

  function Count(cuts: seq<bool>): nat {
    if cuts == [] then 0 else Count(cuts[..|cuts| - 1]) + if cuts[|cuts| - 1] then 1 else 0
  }

  /** Size of the last segment. */
  function LastRun(vs: seq<Vec>, cuts: seq<bool>): nat
    requires |vs| == |cuts|
  {
    if vs == [] then 0
    else
      var n := |vs| - 1;
      vs[n].len + if cuts[n] then 0 else LastRun(vs[..n], cuts[..n])
  }

  /** Size of the first segment. */
  function FirstRun(vs: seq<Vec>, cuts: seq<bool>): nat
    requires |vs| == |cuts|
  {
    if vs == [] then 0
    else
      var n := |vs| - 1;
      if n == 0 || (Count(cuts[..n]) == 1 && !cuts[n]) then FirstRun(vs[..n], cuts[..n]) + vs[n].len
      else FirstRun(vs[..n], cuts[..n])
  }

  ghost predicate Valid(l: Limits, vs: seq<Vec>, cuts: seq<bool>) {
    && |vs| == |cuts|
    && (vs == [] ||
        var n := |vs| - 1;
        && Valid(l, vs[..n], cuts[..n])
        && (cuts[n] || (n > 0 && Glue(l, vs[n - 1], vs[n]) && LastRun(vs, cuts) <= l.maxSegSize)))
  }

  lemma {:induction false} CountPositive(l: Limits, vs: seq<Vec>, cuts: seq<bool>)
    requires Valid(l, vs, cuts) && vs != []
    ensures Count(cuts) >= 1
    ensures Count(cuts) == 1 ==> FirstRun(vs, cuts) == LastRun(vs, cuts)
  {
    var n := |vs| - 1;
    if n > 0 {
      CountPositive(l, vs[..n], cuts[..n]);
    } else {
      assert vs[..0] == [] && cuts[..0] == [];
    }
  }

  // ----- the two packings the code makes

  predicate CutHere(l: Limits, vs: seq<Vec>, size: nat, counting: bool)
    requires vs != []
  {
    var n := |vs| - 1;
    || n == 0
    || (counting && (High(l, vs[n]) || High(l, vs[n - 1])))
    || !l.cluster
    || size + vs[n].len > l.maxSegSize
    || !Glue(l, vs[n - 1], vs[n])
  }

  function GreedyCuts(l: Limits, vs: seq<Vec>, counting: bool): (cuts: seq<bool>)
    ensures |cuts| == |vs|
  {
    if vs == [] then []
    else
      var n := |vs| - 1;
      var before := GreedyCuts(l, vs[..n], counting);
      before + [CutHere(l, vs, LastRun(vs[..n], before), counting)]
  }

  function MappedCuts(l: Limits, vs: seq<Vec>): seq<bool> { GreedyCuts(l, vs, false) }

  function CountedCuts(l: Limits, vs: seq<Vec>): seq<bool> { GreedyCuts(l, vs, true) }

  lemma {:induction false} GreedyValid(l: Limits, vs: seq<Vec>, counting: bool)
    ensures Valid(l, vs, GreedyCuts(l, vs, counting))
  {
    if vs != [] {
      var n := |vs| - 1;
      GreedyValid(l, vs[..n], counting);
      var cuts := GreedyCuts(l, vs, counting);
      assert cuts[..n] == GreedyCuts(l, vs[..n], counting);
    }
  }

  /** Greedy stays ahead: after every prefix it has used fewer segments than any valid packing,
      or as many with no more bytes in the last one. */
  lemma {:induction false} GreedyAhead(l: Limits, vs: seq<Vec>, cuts: seq<bool>)
    requires Valid(l, vs, cuts)
    ensures var g := MappedCuts(l, vs);
      Count(g) < Count(cuts) || (Count(g) == Count(cuts) && LastRun(vs, g) <= LastRun(vs, cuts))
  {
    if vs != [] {
      var n := |vs| - 1;
      var g := MappedCuts(l, vs);
      assert g[..n] == MappedCuts(l, vs[..n]);
      GreedyAhead(l, vs[..n], cuts[..n]);
    }
  }

  lemma {:induction false} GreedyMinimal(l: Limits, vs: seq<Vec>, cuts: seq<bool>)
    requires Valid(l, vs, cuts)
    ensures Count(MappedCuts(l, vs)) <= Count(cuts)
  {
    GreedyAhead(l, vs, cuts);
  }

  /** Without bounce pages the counter counts exactly what the builder emits. */
  lemma {:induction false} CountedIsMapped(l: Limits, vs: seq<Vec>)
    requires forall v | v in vs :: !High(l, v)
    ensures CountedCuts(l, vs) == MappedCuts(l, vs)
  {
    if vs != [] {
      var n := |vs| - 1;
      assert forall v | v in vs[..n] :: v in vs;
      CountedIsMapped(l, vs[..n]);
    }
  }

  // ----- putting packings together

  lemma {:induction false} CountConcat(a: seq<bool>, b: seq<bool>)
    ensures Count(a + b) == Count(a) + Count(b)
  {
    if b == [] {
      assert a + b == a;
    } else {
      var n := |b| - 1;
      assert (a + b)[..|a| + n] == a + b[..n];
      CountConcat(a, b[..n]);
    }
  }

  /** Side by side: no segment spans the seam. */
  lemma {:induction false} ConcatPacking(l: Limits, vs: seq<Vec>, a: seq<bool>, ws: seq<Vec>, b: seq<bool>)
    requires Valid(l, vs, a) && Valid(l, ws, b) && vs != [] && ws != []
    ensures Valid(l, vs + ws, a + b)
    ensures FirstRun(vs + ws, a + b) == FirstRun(vs, a)
    ensures LastRun(vs + ws, a + b) == LastRun(ws, b)
  {
    hide Glue;
    var n := |ws| - 1;
    CountPositive(l, vs, a);
    assert (vs + ws)[..|vs| + n] == vs + ws[..n] && (a + b)[..|a| + n] == a + b[..n];
    CountConcat(a, b[..n]);
    if n > 0 {
      CountPositive(l, ws[..n], b[..n]);
      ConcatPacking(l, vs, a, ws[..n], b[..n]);
    } else {
      assert vs + ws[..0] == vs && a + b[..0] == a;
    }
  }

  function Joined(a: seq<bool>, b: seq<bool>): seq<bool>
    requires b != []
  {
    a + [false] + b[1..]
  }

  lemma {:induction false} JoinedPrefix(vs: seq<Vec>, a: seq<bool>, ws: seq<Vec>, b: seq<bool>)
    requires |vs| == |a| && |ws| == |b| > 1
    ensures var n := |ws| - 1; (vs + ws)[..|vs| + n] == vs + ws[..n] && Joined(a, b)[..|vs| + n] == Joined(a, b[..n])
  {
  }

  lemma {:induction false} JoinCount(a: seq<bool>, b: seq<bool>)
    requires b != [] && b[0]
    ensures Count(Joined(a, b)) == Count(a) + Count(b) - 1
  {
    assert Joined(a, b) == a + ([false] + b[1..]);
    CountConcat(a, [false] + b[1..]);
    CountConcat([false], b[1..]);
    CountConcat([true], b[1..]);
    assert b == [true] + b[1..];
  }

  lemma {:induction false} FirstCut(l: Limits, vs: seq<Vec>, cuts: seq<bool>)
    requires Valid(l, vs, cuts) && vs != []
    ensures cuts != [] && cuts[0]
  {
    if |vs| > 1 { FirstCut(l, vs[..|vs| - 1], cuts[..|vs| - 1]); }
  }

  /** Glued at the seam: the last segment of one and the first of the other become one. */
  lemma {:induction false} JoinPacking(l: Limits, vs: seq<Vec>, a: seq<bool>, ws: seq<Vec>, b: seq<bool>)
    requires Valid(l, vs, a) && Valid(l, ws, b) && vs != [] && ws != []
    requires Glue(l, vs[|vs| - 1], ws[0]) && LastRun(vs, a) + FirstRun(ws, b) <= l.maxSegSize
    ensures Valid(l, vs + ws, Joined(a, b))
    ensures LastRun(vs + ws, Joined(a, b)) == if Count(b) == 1 then LastRun(vs, a) + FirstRun(ws, b) else LastRun(ws, b)
  {
    var n := |ws| - 1;
    if n > 0 {
      JoinedPrefix(vs, a, ws, b);
      CountPositive(l, ws[..n], b[..n]);
      JoinPacking(l, vs, a, ws[..n], b[..n]);
    } else {
      assert (vs + ws)[..|vs|] == vs && Joined(a, b)[..|vs|] == a;
      assert ws[..0] == [] && b[..0] == [];
    }
  }

  lemma {:induction false} FirstRunSnoc(vs: seq<Vec>, cuts: seq<bool>)
    requires |vs| == |cuts| > 1
    ensures var n := |vs| - 1;
      FirstRun(vs, cuts) == FirstRun(vs[..n], cuts[..n]) + if Count(cuts[..n]) == 1 && !cuts[n] then vs[n].len else 0
  {
  }

  lemma {:induction false} JoinFirstBase(l: Limits, vs: seq<Vec>, a: seq<bool>, w: Vec)
    requires Valid(l, vs, a) && vs != []
    ensures FirstRun(vs + [w], a + [false]) == FirstRun(vs, a) + if Count(a) == 1 then w.len else 0
  {
    assert (vs + [w])[..|vs|] == vs && (a + [false])[..|vs|] == a;
  }

  lemma {:induction false} JoinFirst(l: Limits, vs: seq<Vec>, a: seq<bool>, ws: seq<Vec>, b: seq<bool>)
    requires Valid(l, vs, a) && Valid(l, ws, b) && vs != [] && ws != []
    ensures FirstRun(vs + ws, Joined(a, b)) == FirstRun(vs, a) + if Count(a) == 1 then FirstRun(ws, b) else 0
  {
    var n := |ws| - 1;
    if n == 0 {
      JoinFirstBase(l, vs, a, ws[0]);
      assert ws == [ws[0]] && Joined(a, b) == a + [false];
      assert ws[..0] == [] && b[..0] == [];
    } else {
      JoinFirst(l, vs, a, ws[..n], b[..n]);
      JoinFirstStep(l, vs, a, ws, b);
    }
  }

  lemma {:induction false} JoinFirstStep(l: Limits, vs: seq<Vec>, a: seq<bool>, ws: seq<Vec>, b: seq<bool>)
    requires Valid(l, vs, a) && Valid(l, ws, b) && vs != [] && |ws| > 1
    requires var n := |ws| - 1;
      FirstRun(vs + ws[..n], Joined(a, b[..n])) ==
      FirstRun(vs, a) + if Count(a) == 1 then FirstRun(ws[..n], b[..n]) else 0
    ensures FirstRun(vs + ws, Joined(a, b)) == FirstRun(vs, a) + if Count(a) == 1 then FirstRun(ws, b) else 0
  {
    var n := |ws| - 1;
    CountPositive(l, vs, a);
    JoinedPrefix(vs, a, ws, b);
    FirstCut(l, ws[..n], b[..n]);
    CountPositive(l, ws[..n], b[..n]);
    JoinCount(a, b[..n]);
    FirstRunSnoc(vs + ws, Joined(a, b));
    FirstRunSnoc(ws, b);
  }

  // ----- packings known only by their numbers

  ghost predicate Packs(l: Limits, vs: seq<Vec>, nr: nat, front: nat, back: nat, cuts: seq<bool>) {
    Valid(l, vs, cuts) && Count(cuts) == nr && FirstRun(vs, cuts) <= front && LastRun(vs, cuts) <= back
  }

  /** Some valid packing has `nr` segments, a first one of at most `front` bytes and a last one of
      at most `back`. */
  ghost predicate Packable(l: Limits, vs: seq<Vec>, nr: nat, front: nat, back: nat) {
    exists cuts :: Packs(l, vs, nr, front, back, cuts)
  }

  lemma {:induction false} PackWiden(l: Limits, vs: seq<Vec>, nr: nat, front: nat, back: nat, front': nat, back': nat)
    requires Packable(l, vs, nr, front, back) && front <= front' && back <= back'
    ensures Packable(l, vs, nr, front', back')
  {
    hide Valid, FirstRun, LastRun, Count;
    var cuts :| Packs(l, vs, nr, front, back, cuts);
    assert Packs(l, vs, nr, front', back', cuts);
  }

  lemma {:induction false} PackConcat(l: Limits, vs: seq<Vec>, m: nat, f: nat, b: nat, ws: seq<Vec>, n: nat, f': nat,
                                      b': nat)
    requires Packable(l, vs, m, f, b) && Packable(l, ws, n, f', b') && vs != [] && ws != []
    ensures Packable(l, vs + ws, m + n, f, b')
  {
    hide Valid, FirstRun, LastRun, Count, Glue;
    var p :| Packs(l, vs, m, f, b, p);
    var q :| Packs(l, ws, n, f', b', q);
    ConcatPacking(l, vs, p, ws, q);
    CountConcat(p, q);
    assert Packs(l, vs + ws, m + n, f, b', p + q);
  }

  lemma {:induction false} PackJoin(l: Limits, vs: seq<Vec>, m: nat, f: nat, b: nat, ws: seq<Vec>, n: nat, f': nat,
                                    b': nat)
    requires Packable(l, vs, m, f, b) && Packable(l, ws, n, f', b') && vs != [] && ws != []
    requires Glue(l, vs[|vs| - 1], ws[0]) && b + f' <= l.maxSegSize
    ensures m >= 1 && n >= 1
    ensures Packable(l, vs + ws, m + n - 1, if m == 1 then b + f' else f, if n == 1 then b + f' else b')
    ensures m == 1 ==> Packable(l, vs, m, b + f', b)
    ensures n == 1 ==> Packable(l, ws, n, f', b + f')
  {
    hide Valid, FirstRun, LastRun, Count, Glue;
    var p :| Packs(l, vs, m, f, b, p);
    var q :| Packs(l, ws, n, f', b', q);
    CountPositive(l, vs, p);
    CountPositive(l, ws, q);
    JoinPacking(l, vs, p, ws, q);
    JoinFirst(l, vs, p, ws, q);
    FirstCut(l, ws, q);
    JoinCount(p, q);
    assert Packs(l, vs + ws, m + n - 1, if m == 1 then b + f' else f, if n == 1 then b + f' else b', Joined(p, q));
    if m == 1 { assert Packs(l, vs, m, b + f', b, p); }
    if n == 1 { assert Packs(l, ws, n, f', b + f', q); }
  }

  lemma {:induction false} PackNonzero(l: Limits, vs: seq<Vec>, nr: nat, front: nat, back: nat)
    requires Packable(l, vs, nr, front, back) && vs != []
    ensures nr >= 1
  {
    var cuts :| Valid(l, vs, cuts) && Count(cuts) <= nr;
    CountPositive(l, vs, cuts);
  }

  lemma {:induction false} PackMinimal(l: Limits, vs: seq<Vec>, nr: nat, front: nat, back: nat)
    requires Packable(l, vs, nr, front, back)
    ensures Count(MappedCuts(l, vs)) <= nr
  {
    var cuts :| Packs(l, vs, nr, front, back, cuts);
    GreedyMinimal(l, vs, cuts);
  }

  lemma {:induction false} PackCounted(l: Limits, vs: seq<Vec>)
    ensures var cuts := CountedCuts(l, vs); Packable(l, vs, Count(cuts), FirstRun(vs, cuts), LastRun(vs, cuts))
  {
    var cuts := CountedCuts(l, vs);
    GreedyValid(l, vs, true);
    assert Packs(l, vs, Count(cuts), FirstRun(vs, cuts), LastRun(vs, cuts), cuts);
  }

  // ----- a packing never has a segment larger than the whole

  function Total(vs: seq<Vec>): nat { if vs == [] then 0 else vs[0].len + Total(vs[1..]) }

  lemma {:induction false} TotalLast(vs: seq<Vec>)
    requires vs != []
    ensures Total(vs) == Total(vs[..|vs| - 1]) + vs[|vs| - 1].len
  {
    var n := |vs| - 1;
    if n > 0 {
      assert vs[1..][..n - 1] == vs[..n][1..];
      TotalLast(vs[1..]);
    } else {
      assert vs[..0] == [] && vs[1..] == [];
    }
  }

  lemma {:induction false} RunsWithinTotal(l: Limits, vs: seq<Vec>, cuts: seq<bool>)
    requires Valid(l, vs, cuts)
    ensures LastRun(vs, cuts) <= Total(vs) && FirstRun(vs, cuts) <= Total(vs)
    ensures Count(cuts) == 1 ==> LastRun(vs, cuts) == Total(vs)
  {
    hide Glue;
    if vs != [] {
      var n := |vs| - 1;
      TotalLast(vs);
      RunsWithinTotal(l, vs[..n], cuts[..n]);
      if n > 0 { CountPositive(l, vs[..n], cuts[..n]); } else { assert vs[..0] == [] && cuts[..0] == []; }
    }
  }

  /** A list packed into one segment is no longer than either recorded end. */
  lemma {:induction false} PackOne(l: Limits, vs: seq<Vec>, front: nat, back: nat)
    requires Packable(l, vs, 1, front, back) && vs != []
    ensures Total(vs) <= front && Total(vs) <= back
  {
    hide Valid, FirstRun, LastRun, Count;
    var cuts :| Packs(l, vs, 1, front, back, cuts);
    RunsWithinTotal(l, vs, cuts);
    CountPositive(l, vs, cuts);
  }

  /** A recorded end that covers the whole list covers any end segment. */
  lemma {:induction false} PackCap(l: Limits, vs: seq<Vec>, nr: nat, front: nat, back: nat, front': nat, back': nat)
    requires Packable(l, vs, nr, front, back)
    requires (front <= front' || Total(vs) <= front') && (back <= back' || Total(vs) <= back')
    ensures Packable(l, vs, nr, front', back')
  {
    hide Valid, FirstRun, LastRun, Count;
    var cuts :| Packs(l, vs, nr, front, back, cuts);
    RunsWithinTotal(l, vs, cuts);
    assert Packs(l, vs, nr, front', back', cuts);
  }
}
