/** What the device asks of a packing, without reference to how the code compares neighbours: a segment
    of several vectors is one range of memory, inside one boundary window and within the size limit.
    The packings of `Segments` are exactly these, and the two the code makes are the smallest. */
module Packings {
  import opened Multiples
  import opened Segments
  import opened RequestGeometry

  /** Vectors i up to j are a segment: a cut at i, none inside, and it goes no further. */
  predicate Run(cuts: seq<bool>, i: nat, j: nat) {
    && i < j <= |cuts| && cuts[i]
    && (forall k | i < k < j :: !cuts[k])
    && (j == |cuts| || cuts[j])
  }

  function End(v: Vec): nat { Phys(v) + v.len }

  predicate Touch(vs: seq<Vec>, k: nat)
    requires k + 1 < |vs|
  {
    End(vs[k]) == Phys(vs[k + 1])
  }

  ghost predicate Range(vs: seq<Vec>, i: nat, j: nat) {
    i < j <= |vs| && forall k | i <= k < j - 1 :: Touch(vs, k)
  }

  /** The addresses from `from` up to `end` lie in one boundary window. */
  predicate OneWindow(l: Limits, from: nat, end: nat)
    requires from < end
  {
    from / l.window == (end - 1) / l.window
  }

  ghost predicate Segment(l: Limits, vs: seq<Vec>, i: nat, j: nat) {
    && Range(vs, i, j) && l.cluster
    && Phys(vs[i]) < End(vs[j - 1]) <= Phys(vs[i]) + l.maxSegSize
    && OneWindow(l, Phys(vs[i]), End(vs[j - 1]))
  }

  /** Every vector begins a segment or belongs to one; a vector by itself is always allowed. */
  ghost predicate Packed(l: Limits, vs: seq<Vec>, cuts: seq<bool>) {
    && |vs| == |cuts| && (cuts != [] ==> cuts[0])
    && forall i: nat, j: nat | Run(cuts, i, j) && j - i > 1 :: Segment(l, vs, i, j)
  }

  // ----- ranges

  lemma {:induction false} DivMono(a: nat, b: nat, w: Window)
    requires a <= b
    ensures a / w <= b / w
  {
    var q, r := b / w, a / w;
    assert q * w <= b < q * w + w && r * w <= a;
    assert (q + 1) * w == q * w + w;
    if q + 1 <= r { MulMono(q + 1, r, w); }
  }

  lemma {:induction false} WindowInside(l: Limits, a: nat, b: nat, c: nat, d: nat)
    requires a <= b < c <= d && OneWindow(l, a, d)
    ensures OneWindow(l, b, c)
  {
    DivMono(a, b, l.window);
    DivMono(b, c - 1, l.window);
    DivMono(c - 1, d - 1, l.window);
  }

  /** Windows that share an address below their ends are one. */
  lemma {:induction false} WindowJoin(l: Limits, a: nat, b: nat, c: nat, d: nat)
    requires a <= b < c <= d && OneWindow(l, a, c) && OneWindow(l, b, d)
    ensures OneWindow(l, a, d)
  {
    DivMono(a, b, l.window);
    DivMono(b, c - 1, l.window);
  }

  lemma {:induction false} RangeGrows(vs: seq<Vec>, i: nat, k: nat, j: nat)
    requires Range(vs, i, j) && i <= k < j && Positive(vs)
    ensures Phys(vs[i]) <= Phys(vs[k]) < End(vs[k]) <= End(vs[j - 1])
    decreases j - i
  {
    hide Phys;
    if i < k {
      assert Touch(vs, i);
      RangeGrows(vs, i + 1, k, j);
    } else if k + 1 < j {
      assert Touch(vs, k);
      RangeGrows(vs, k + 1, k + 1, j);
    }
  }

  lemma {:induction false} GlueMeans(l: Limits, v: Vec, w: Vec)
    requires v.len > 0 && w.len > 0
    ensures Glue(l, v, w) <==> l.cluster && End(v) == Phys(w) && OneWindow(l, Phys(v), End(w))
  {
  }

  // ----- a valid packing's last segment is one range

  ghost predicate Tail(cuts: seq<bool>, s: nat) { s < |cuts| && cuts[s] && forall k | s < k < |cuts| :: !cuts[k] }

  lemma {:induction false} TailFacts(l: Limits, vs: seq<Vec>, cuts: seq<bool>, s: nat)
    requires Valid(l, vs, cuts) && Positive(vs) && Tail(cuts, s)
    ensures Range(vs, s, |vs|) && LastRun(vs, cuts) == End(vs[|vs| - 1]) - Phys(vs[s])
    ensures |vs| - s > 1 ==> Segment(l, vs, s, |vs|)
  {
    hide Phys, OneWindow, Glue;
    var n := |vs| - 1;
    if s < n {
      assert Tail(cuts[..n], s);
      TailFacts(l, vs[..n], cuts[..n], s);
      GlueMeans(l, vs[n - 1], vs[n]);
      TailStep(l, vs, s);
    }
  }

  lemma {:induction false} TailStep(l: Limits, vs: seq<Vec>, s: nat)
    requires |vs| > 1 && s < |vs| - 1 && Positive(vs) && Range(vs[..|vs| - 1], s, |vs| - 1)
    requires |vs| - 1 - s > 1 ==> Segment(l, vs[..|vs| - 1], s, |vs| - 1)
    requires Glue(l, vs[|vs| - 2], vs[|vs| - 1]) && End(vs[|vs| - 1]) - Phys(vs[s]) <= l.maxSegSize
    ensures Segment(l, vs, s, |vs|)
  {
    hide Phys, OneWindow, Glue;
    var n := |vs| - 1;
    GlueMeans(l, vs[n - 1], vs[n]);
    RangeSnoc(vs, s);
    RangeGrows(vs, s, n - 1, n + 1);
    RangeGrows(vs, s, n, n + 1);
    if n - s > 1 { WindowJoin(l, Phys(vs[s]), Phys(vs[n - 1]), End(vs[n - 1]), End(vs[n])); }
  }

  lemma {:induction false} RangeSnoc(vs: seq<Vec>, s: nat)
    requires |vs| > 1 && s < |vs| - 1 && Range(vs[..|vs| - 1], s, |vs| - 1) && Touch(vs, |vs| - 2)
    ensures Range(vs, s, |vs|)
  {
    hide Phys;
    var n := |vs| - 1;
    forall k | s <= k < n ensures Touch(vs, k) {
      if k < n - 1 { assert Touch(vs[..n], k); }
    }
  }

  // ----- valid is packed

  lemma {:induction false} ValidPrefix(l: Limits, vs: seq<Vec>, cuts: seq<bool>, j: nat)
    requires Valid(l, vs, cuts) && j <= |vs|
    ensures Valid(l, vs[..j], cuts[..j])
    decreases |vs| - j
  {
    hide Glue, LastRun;
    if j == |vs| {
      assert vs[..j] == vs && cuts[..j] == cuts;
    } else {
      var n := |vs| - 1;
      ValidPrefix(l, vs[..n], cuts[..n], j);
      assert vs[..n][..j] == vs[..j] && cuts[..n][..j] == cuts[..j];
    }
  }

  lemma {:induction false} ValidPacked(l: Limits, vs: seq<Vec>, cuts: seq<bool>)
    requires Valid(l, vs, cuts) && Positive(vs)
    ensures Packed(l, vs, cuts)
  {
    hide Phys, OneWindow, Glue, Segment;
    if vs != [] { FirstCut(l, vs, cuts); }
    forall i: nat, j: nat | Run(cuts, i, j) && j - i > 1 ensures Segment(l, vs, i, j) {
      ValidPrefix(l, vs, cuts, j);
      assert Tail(cuts[..j], i);
      TailFacts(l, vs[..j], cuts[..j], i);
      SegmentWithin(l, vs, i, j);
    }
  }

  lemma {:induction false} SegmentWithin(l: Limits, vs: seq<Vec>, i: nat, j: nat)
    requires i < j <= |vs|
    ensures Segment(l, vs[..j], i, j) <==> Segment(l, vs, i, j)
  {
    hide Phys, OneWindow;
    assert forall k | i <= k < j - 1 :: Touch(vs[..j], k) == Touch(vs, k);
  }

  // ----- packed is valid

  lemma {:induction false} SegmentShrinks(l: Limits, vs: seq<Vec>, i: nat, j: nat)
    requires Segment(l, vs, i, j) && j - i > 1 && Positive(vs)
    ensures Segment(l, vs, i, j - 1)
  {
    hide Phys, OneWindow;
    RangeGrows(vs, i, j - 2, j);
    RangeGrows(vs, i, i, j);
    WindowInside(l, Phys(vs[i]), Phys(vs[i]), End(vs[j - 2]), End(vs[j - 1]));
  }

  lemma {:induction false} PackedPrefix(l: Limits, vs: seq<Vec>, cuts: seq<bool>)
    requires Packed(l, vs, cuts) && Positive(vs) && vs != []
    ensures var n := |vs| - 1; Packed(l, vs[..n], cuts[..n])
  {
    hide Phys, OneWindow, Segment;
    var n := |vs| - 1;
    forall i: nat, j: nat | Run(cuts[..n], i, j) && j - i > 1 ensures Segment(l, vs[..n], i, j) {
      if j < n || cuts[n] {
        assert Run(cuts, i, j);
      } else {
        assert Run(cuts, i, n + 1);
        SegmentShrinks(l, vs, i, n + 1);
      }
      SegmentWithin(l, vs, i, j);
      SegmentWithin(l, vs[..n], i, j);
      assert vs[..n][..j] == vs[..j];
    }
  }

  lemma {:induction false} TailOf(cuts: seq<bool>) returns (s: nat)
    requires cuts != [] && cuts[0]
    ensures Tail(cuts, s)
  {
    s := |cuts| - 1;
    while !cuts[s]
      invariant s < |cuts| && forall k | s < k < |cuts| :: !cuts[k]
      decreases s
    {
      s := s - 1;
    }
  }

  lemma {:induction false} PackedValid(l: Limits, vs: seq<Vec>, cuts: seq<bool>)
    requires Packed(l, vs, cuts) && Positive(vs)
    ensures Valid(l, vs, cuts)
  {
    if vs != [] {
      var n := |vs| - 1;
      PackedPrefix(l, vs, cuts);
      PackedValid(l, vs[..n], cuts[..n]);
      if !cuts[n] { PackedLast(l, vs, cuts); }
    }
    hide Phys, OneWindow, Glue, Packed;
  }

  lemma {:induction false} PackedLast(l: Limits, vs: seq<Vec>, cuts: seq<bool>)
    requires Packed(l, vs, cuts) && Positive(vs) && vs != [] && !cuts[|vs| - 1]
    requires Valid(l, vs[..|vs| - 1], cuts[..|vs| - 1])
    ensures |vs| > 1 && Glue(l, vs[|vs| - 2], vs[|vs| - 1]) && LastRun(vs, cuts) <= l.maxSegSize
  {
    hide Phys, OneWindow, Glue, Valid;
    var n := |vs| - 1;
    assert cuts[..n][0];
    var s := TailOf(cuts[..n]);
    assert Run(cuts, s, n + 1);
    TailFacts(l, vs[..n], cuts[..n], s);
    assert Touch(vs, n - 1);
    RangeGrows(vs, s, n - 1, n + 1);
    WindowInside(l, Phys(vs[s]), Phys(vs[n - 1]), End(vs[n]), End(vs[n]));
    GlueMeans(l, vs[n - 1], vs[n]);
  }

  /** The packings the code reasons with are exactly the ones the device allows. */
  lemma {:induction false} ValidIff(l: Limits, vs: seq<Vec>, cuts: seq<bool>)
    requires Positive(vs)
    ensures Valid(l, vs, cuts) <==> Packed(l, vs, cuts)
  {
    hide Valid, Packed;
    if Valid(l, vs, cuts) { ValidPacked(l, vs, cuts); }
    if Packed(l, vs, cuts) { PackedValid(l, vs, cuts); }
  }

  // ----- the two packings the code makes

  /** The builder's packing is allowed, and no allowed packing has fewer segments. */
  lemma {:induction false} MappedSmallest(l: Limits, vs: seq<Vec>, cuts: seq<bool>)
    requires Positive(vs)
    ensures Packed(l, vs, MappedCuts(l, vs))
    ensures Packed(l, vs, cuts) ==> Count(MappedCuts(l, vs)) <= Count(cuts)
  {
    GreedyValid(l, vs, false);
    ValidIff(l, vs, MappedCuts(l, vs));
    ValidIff(l, vs, cuts);
    hide Valid, Packed;
    if Packed(l, vs, cuts) { GreedyMinimal(l, vs, cuts); }
  }

  /** A vector that may be bounced has a segment of its own. */
  ghost predicate Isolated(l: Limits, vs: seq<Vec>, cuts: seq<bool>) {
    |vs| == |cuts| && forall i | 0 <= i < |vs| && High(l, vs[i]) :: cuts[i] && (i + 1 < |cuts| ==> cuts[i + 1])
  }

  lemma {:induction false} CountedIsolates(l: Limits, vs: seq<Vec>)
    ensures Isolated(l, vs, CountedCuts(l, vs))
  {
    hide Glue, LastRun;
    if vs != [] {
      var n := |vs| - 1;
      CountedIsolates(l, vs[..n]);
      assert CountedCuts(l, vs)[..n] == CountedCuts(l, vs[..n]);
      var cuts := CountedCuts(l, vs);
      forall i | 0 <= i < |vs| && High(l, vs[i]) ensures cuts[i] && (i + 1 < |cuts| ==> cuts[i + 1]) {
        if i < n { assert High(l, vs[..n][i]) && cuts[i] == cuts[..n][i]; }
        if i + 1 < n { assert cuts[i + 1] == cuts[..n][i + 1]; }
      }
    }
  }

  lemma {:induction false} CountedAhead(l: Limits, vs: seq<Vec>, cuts: seq<bool>)
    requires Valid(l, vs, cuts) && Isolated(l, vs, cuts)
    ensures var g := CountedCuts(l, vs);
      Count(g) < Count(cuts) || (Count(g) == Count(cuts) && LastRun(vs, g) <= LastRun(vs, cuts))
  {
    hide Phys;
    if vs != [] {
      var n := |vs| - 1;
      var g := CountedCuts(l, vs);
      assert g[..n] == CountedCuts(l, vs[..n]);
      IsolatedPrefix(l, vs, cuts);
      CountedAhead(l, vs[..n], cuts[..n]);
    }
  }

  lemma {:induction false} IsolatedPrefix(l: Limits, vs: seq<Vec>, cuts: seq<bool>)
    requires Isolated(l, vs, cuts) && vs != []
    ensures var n := |vs| - 1; Isolated(l, vs[..n], cuts[..n])
    ensures var n := |vs| - 1; High(l, vs[n]) || (n > 0 && High(l, vs[n - 1])) ==> cuts[n]
  {
  }

  /** The counter's packing isolates what may be bounced, and none that does has fewer segments. */
  lemma {:induction false} CountedSmallest(l: Limits, vs: seq<Vec>, cuts: seq<bool>)
    requires Positive(vs)
    ensures Packed(l, vs, CountedCuts(l, vs)) && Isolated(l, vs, CountedCuts(l, vs))
    ensures Packed(l, vs, cuts) && Isolated(l, vs, cuts) ==> Count(CountedCuts(l, vs)) <= Count(cuts)
  {
    GreedyValid(l, vs, true);
    CountedIsolates(l, vs);
    ValidIff(l, vs, CountedCuts(l, vs));
    ValidIff(l, vs, cuts);
    hide Valid, Packed, Isolated;
    if Packed(l, vs, cuts) && Isolated(l, vs, cuts) { CountedAhead(l, vs, cuts); }
  }

  // ----- a single entry

  /** An entry is one of the vectors as it is, or fits the device's limits. */
  ghost predicate EntryFits(l: Limits, vs: seq<Vec>, e: Vec) {
    e in vs || (l.cluster && 0 < e.len <= l.maxSegSize && OneWindow(l, Phys(e), End(e)))
  }

  /** The last entry, still open, begins in the window of the last vector. */
  ghost predicate OpenEntry(l: Limits, e: Vec, last: Vec) {
    Phys(e) <= Phys(last) && End(e) == End(last) && Phys(e) / l.window == Phys(last) / l.window
  }

  lemma {:induction false} EntryGrows(l: Limits, e: Vec, prev: Vec, v: Vec)
    requires OpenEntry(l, e, prev) && prev.len > 0 && v.len > 0 && Glue(l, prev, v) && e.len + v.len <= l.maxSegSize
    ensures var g := e.(len := e.len + v.len);
      OpenEntry(l, g, v) && l.cluster && 0 < g.len <= l.maxSegSize && OneWindow(l, Phys(g), End(g))
  {
    var g := e.(len := e.len + v.len);
    assert Phys(g) == Phys(e) && End(g) == End(v);
    DivMono(Phys(prev), Phys(v), l.window);
    DivMono(Phys(v), End(v) - 1, l.window);
    hide Phys;
  }
}
