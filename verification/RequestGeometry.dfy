/** Requests made of bios: the incremental segment tally, the scatterlist builder, and merging. */
module RequestGeometry {
  import opened Numbers
  import opened Segments

  /** A bio: `vecs` are the memory vectors still to be transferred, `idx` how many are behind it.
      `front` and `back` are the recorded sizes of its first and last segments, `segs` its recorded
      segment count. */
  datatype Bio = Bio(id: nat, sector: nat, vecs: seq<Vec>, idx: nat, size: nat,
                     front: nat, back: nat, segs: nat, segValid: bool, uptodate: bool)

  ghost predicate Positive(vs: seq<Vec>) { forall i | 0 <= i < |vs| :: vs[i].len > 0 }

  /** A bio that carries data: vectors left, none empty, and a size that adds up. */
  ghost predicate IsData(b: Bio) {
    && b.vecs != []
    && Positive(b.vecs)
    && b.size == Total(b.vecs)
  }

  ghost predicate AllData(bios: seq<Bio>) { forall i | 0 <= i < |bios| :: IsData(bios[i]) }

  function Flat(bios: seq<Bio>): seq<Vec> {
    if bios == [] then [] else Flat(bios[..|bios| - 1]) + bios[|bios| - 1].vecs
  }

  lemma {:induction false} AllDataConcat(a: seq<Bio>, b: seq<Bio>)
    requires AllData(a) && AllData(b)
    ensures AllData(a + b)
  {
    forall i | 0 <= i < |a + b| ensures IsData((a + b)[i]) {
      if i < |a| { assert IsData(a[i]); } else { assert IsData(b[i - |a|]); }
    }
  }

  lemma {:induction false} FlatConcat(a: seq<Bio>, b: seq<Bio>)
    ensures Flat(a + b) == Flat(a) + Flat(b)
  {
    if b == [] {
      assert a + b == a;
    } else {
      var n := |b| - 1;
      assert (a + b)[..|a| + n] == a + b[..n];
      assert (a + b)[|a| + n] == b[n];
      FlatConcat(a, b[..n]);
      Associative(Flat(a), Flat(b[..n]), b[n].vecs);
    }
  }

  lemma {:induction false} Associative<T>(a: seq<T>, b: seq<T>, c: seq<T>)
    ensures a + b + c == a + (b + c)
  {
  }

  lemma {:induction false} SliceSnoc<T>(a: seq<T>, s: seq<T>, j: nat)
    requires j < |s|
    ensures a + s[..j + 1] == a + s[..j] + [s[j]]
  {
  }

  lemma {:induction false} FlatLast(bios: seq<Bio>)
    requires bios != [] && bios[|bios| - 1].vecs != []
    ensures var vs := bios[|bios| - 1].vecs; Flat(bios) != [] && Flat(bios)[|Flat(bios)| - 1] == vs[|vs| - 1]
  {
  }

  lemma {:induction false} FlatFirst(bios: seq<Bio>)
    requires bios != [] && bios[0].vecs != []
    ensures Flat(bios) != [] && Flat(bios)[0] == bios[0].vecs[0]
  {
    var n := |bios| - 1;
    if n > 0 {
      FlatFirst(bios[..n]);
    } else {
      assert bios[..0] == [];
    }
  }

  // ----- the tally

  /** The recorded numbers describe some valid packing of the request: as many segments as counted,
      and end segments no larger than the sizes recorded in the first and last bio. */
  ghost predicate TallyOk(l: Limits, bios: seq<Bio>, nr: nat)
    ensures TallyOk(l, bios, nr) ==> bios != []
  {
    bios != [] && Flat(bios) != [] && Packable(l, Flat(bios), nr, bios[0].front, bios[|bios| - 1].back)
  }

  /** What the driver relies on: the builder never emits more entries than were counted. */
  lemma {:induction false} MappedWithinTally(l: Limits, bios: seq<Bio>, nr: nat)
    requires TallyOk(l, bios, nr)
    ensures Count(MappedCuts(l, Flat(bios))) <= nr
  {
    hide Packable, Flat;
    PackMinimal(l, Flat(bios), nr, bios[0].front, bios[|bios| - 1].back);
  }

  /** Appending one request's bios behind another's, counting the seam as a cut. */
  lemma {:induction false} TallyConcat(l: Limits, a: seq<Bio>, m: nat, b: seq<Bio>, n: nat)
    requires TallyOk(l, a, m) && TallyOk(l, b, n)
    ensures TallyOk(l, a + b, m + n)
  {
    hide Packable, Flat;
    FlatConcat(a, b);
    PackConcat(l, Flat(a), m, a[0].front, a[|a| - 1].back, Flat(b), n, b[0].front, b[|b| - 1].back);
  }

  // ----- counting

  /** The counter's variables: segments, size of the open one, and the previous vector. */
  datatype Tally = Tally(nr: nat, segSize: nat, front: nat, prev: Vec, highPrev: bool)

  method CountBio(l: Limits, b: Bio, t0: Tally, ghost front0: nat, ghost before: seq<Vec>) returns (t: Tally)
    requires Counted(l, before, t0, front0)
    ensures Counted(l, before + b.vecs, t, front0)
  {
    t := t0;
    assert before + b.vecs[..0] == before;
    for j := 0 to |b.vecs|
      invariant Counted(l, before + b.vecs[..j], t, front0)
    {
      CountedStep(l, before + b.vecs[..j], b.vecs[j], t, front0);
      SliceSnoc(before, b.vecs, j);
      t := CountVec(l, t, b.vecs[j]);
    }
    assert b.vecs[..|b.vecs|] == b.vecs;
  }

  /** One turn of the counting loop. */
  function CountVec(l: Limits, t: Tally, v: Vec): Tally {
    var high := High(l, v);
    if !high && !t.highPrev && l.cluster && t.segSize + v.len <= l.maxSegSize && Glue(l, t.prev, v) then
      t.(segSize := t.segSize + v.len, prev := v)
    else
      Tally(t.nr + 1, v.len, if t.nr == 1 && t.segSize > t.front then t.segSize else t.front, v, high)
  }

  /** The segment counter: walks every pending vector and remembers the sizes of the end segments
      in the first and last bio. */
  method CountSegments(l: Limits, bios: seq<Bio>) returns (nr: nat, front: nat, back: nat)
    ensures var cuts := CountedCuts(l, Flat(bios));
      && nr == Count(cuts)
      && (bios != [] ==> front == Max(bios[0].front, FirstRun(Flat(bios), cuts)))
      && (bios != [] ==> back == Max(bios[|bios| - 1].back, LastRun(Flat(bios), cuts)))
  {
    if bios == [] { return 0, 0, 0; }
    var t := Tally(0, 0, bios[0].front, Vec(0, 0, 0), true);
    for i := 0 to |bios|
      invariant Counted(l, Flat(bios[..i]), t, bios[0].front)
    {
      t := CountBio(l, bios[i], t, bios[0].front, Flat(bios[..i]));
      assert bios[..i + 1][..i] == bios[..i];
    }
    assert bios[..|bios|] == bios;
    nr, front := t.nr, if t.nr == 1 && t.segSize > t.front then t.segSize else t.front;
    back := Max(bios[|bios| - 1].back, t.segSize);
    GreedyValid(l, Flat(bios), true);
    if Flat(bios) != [] { CountPositive(l, Flat(bios), CountedCuts(l, Flat(bios))); }
  }

  /** The counter's variables after the vectors `vs`. */
  ghost predicate Counted(l: Limits, vs: seq<Vec>, t: Tally, front0: nat) {
    var cuts := CountedCuts(l, vs);
    && t.nr == Count(cuts)
    && t.segSize == LastRun(vs, cuts)
    && (t.nr <= 1 ==> t.front == front0)
    && (t.nr > 1 ==> t.front == Max(front0, FirstRun(vs, cuts)))
    && t.highPrev == (vs == [] || High(l, vs[|vs| - 1]))
    && (vs != [] ==> t.prev == vs[|vs| - 1])
  }

  lemma {:induction false} CountedStep(l: Limits, vs: seq<Vec>, v: Vec, t: Tally, front0: nat)
    requires Counted(l, vs, t, front0)
    ensures Counted(l, vs + [v], CountVec(l, t, v), front0)
  {
    CountedSnoc(l, vs, v);
  }

  lemma {:induction false} CountedSnoc(l: Limits, vs: seq<Vec>, v: Vec)
    ensures var cuts := CountedCuts(l, vs);
      var cut := CutHere(l, vs + [v], LastRun(vs, cuts), true);
      && CountedCuts(l, vs + [v]) == cuts + [cut]
      && Count(cuts + [cut]) == Count(cuts) + (if cut then 1 else 0)
      && LastRun(vs + [v], cuts + [cut]) == v.len + (if cut then 0 else LastRun(vs, cuts))
      && (vs == [] ==> Count(cuts) == 0)
      && (vs != [] ==>
            && Count(cuts) >= 1
            && (Count(cuts) == 1 ==> FirstRun(vs, cuts) == LastRun(vs, cuts))
            && FirstRun(vs + [v], cuts + [cut]) == FirstRun(vs, cuts) + if Count(cuts) == 1 && !cut then v.len else 0)
  {
    var cuts := CountedCuts(l, vs);
    var cut := CutHere(l, vs + [v], LastRun(vs, cuts), true);
    assert (vs + [v])[..|vs|] == vs && (cuts + [cut])[..|vs|] == cuts;
    GreedyValid(l, vs, true);
    if vs != [] { CountPositive(l, vs, cuts); }
  }

  // ----- recording a count

  function WithFront(bios: seq<Bio>, front: nat): (r: seq<Bio>)
    requires bios != []
    ensures |r| == |bios|
  {
    bios[0 := bios[0].(front := front)]
  }

  function WithBack(bios: seq<Bio>, back: nat): (r: seq<Bio>)
    requires bios != []
    ensures |r| == |bios|
  {
    bios[|bios| - 1 := bios[|bios| - 1].(back := back)]
  }

  predicate SameVecs(a: seq<Bio>, b: seq<Bio>) {
    |a| == |b| && forall i | 0 <= i < |a| :: a[i].vecs == b[i].vecs && a[i].size == b[i].size
  }

  lemma {:induction false} SameVecsFlat(a: seq<Bio>, b: seq<Bio>)
    requires SameVecs(a, b)
    ensures Flat(a) == Flat(b)
  {
    if a != [] {
      var n := |a| - 1;
      SameVecsFlat(a[..n], b[..n]);
    }
  }

  /** Recorded end sizes only have to be upper bounds. */
  lemma {:induction false} TallyWidened(l: Limits, bios: seq<Bio>, nr: nat, bios': seq<Bio>)
    requires TallyOk(l, bios, nr) && SameVecs(bios, bios')
    requires bios[0].front <= bios'[0].front && bios[|bios| - 1].back <= bios'[|bios| - 1].back
    ensures TallyOk(l, bios', nr)
  {
    hide Packable, Flat;
    SameVecsFlat(bios, bios');
    PackWiden(l, Flat(bios), nr, bios[0].front, bios[|bios| - 1].back, bios'[0].front, bios'[|bios| - 1].back);
  }

  /** A fresh count, with the end sizes it found, describes a valid packing. */
  lemma {:induction false} CountDescribes(l: Limits, bios: seq<Bio>, bios': seq<Bio>, nr: nat)
    requires bios != [] && Flat(bios) != [] && SameVecs(bios, bios')
    requires var cuts := CountedCuts(l, Flat(bios));
      && nr == Count(cuts)
      && FirstRun(Flat(bios), cuts) <= bios'[0].front
      && LastRun(Flat(bios), cuts) <= bios'[|bios| - 1].back
    ensures TallyOk(l, bios', nr)
  {
    hide Packable, Flat;
    SameVecsFlat(bios, bios');
    PackCounted(l, Flat(bios));
    var cuts := CountedCuts(l, Flat(bios));
    PackWiden(l, Flat(bios), nr, FirstRun(Flat(bios), cuts), LastRun(Flat(bios), cuts), bios'[0].front,
        bios'[|bios| - 1].back);
  }

  /** A bio on its own, with a recorded count that is right. */
  ghost predicate BioOk(l: Limits, b: Bio) { b.segValid && TallyOk(l, [b], b.segs) }

  lemma {:induction false} FlatSingle(b: Bio)
    ensures Flat([b]) == b.vecs
  {
    assert [b][..0] == [];
    assert Flat([b]) == Flat([b][..0]) + b.vecs;
  }

  /** The same bio but for what is recorded of its segments; the recorded sizes may only grow. */
  predicate Rerecords(b: Bio, r: Bio) {
    && r == b.(front := r.front, back := r.back, segs := r.segs, segValid := r.segValid)
    && b.front <= r.front && b.back <= r.back
  }

  /** What a recount of a bio records. */
  predicate Records(l: Limits, b: Bio, r: Bio) {
    var cuts := CountedCuts(l, b.vecs);
    && r.segValid && r.segs == Count(cuts)
    && r.front == Max(b.front, FirstRun(b.vecs, cuts)) && r.back == Max(b.back, LastRun(b.vecs, cuts))
  }

  /** Counts a bio's segments afresh. */
  method RecountBio(l: Limits, b: Bio) returns (r: Bio)
    requires IsData(b)
    ensures Rerecords(b, r) && BioOk(l, r) && Records(l, b, r)
  {
    FlatFirst([b]);
    FlatSingle(b);
    var nr, front, back := CountSegments(l, [b]);
    r := b.(front := front, back := back, segs := nr, segValid := true);
    CountDescribes(l, [b], [r], nr);
  }

  /** Whether the last segment of one bio and the first of the next may become one. */
  predicate Contiguous(l: Limits, b: Bio, next: Bio)
    requires b.vecs != [] && next.vecs != []
  {
    && l.cluster
    && b.back + next.front <= l.maxSegSize
    && Glue(l, b.vecs[|b.vecs| - 1], next.vecs[0])
  }

  function JoinedFront(a: seq<Bio>, m: nat, size: nat): (r: seq<Bio>)
    requires a != []
    ensures SameVecs(a, r) && r[0].front == (if m == 1 then size else a[0].front) && r[|r| - 1].back == a[|a| - 1].back
  {
    if m == 1 then WithFront(a, size) else a
  }

  function JoinedBack(b: seq<Bio>, n: nat, size: nat): (r: seq<Bio>)
    requires b != []
    ensures SameVecs(b, r) && r[|r| - 1].back == (if n == 1 then size else b[|b| - 1].back) && r[0].front == b[0].front
  {
    if n == 1 then WithBack(b, size) else b
  }

  lemma {:induction false} SeamGlued(l: Limits, a: seq<Bio>, m: nat, b: seq<Bio>, n: nat)
    requires TallyOk(l, a, m) && TallyOk(l, b, n) && a[|a| - 1].vecs != [] && b[0].vecs != []
    requires Contiguous(l, a[|a| - 1], b[0])
    ensures m >= 1 && n >= 1
    ensures var f, k, f', k' := a[0].front, a[|a| - 1].back, b[0].front, b[|b| - 1].back;
      && Packable(l, Flat(a) + Flat(b), m + n - 1, if m == 1 then k + f' else f, if n == 1 then k + f' else k')
      && Packable(l, Flat(a), m, if m == 1 then k + f' else f, k)
      && Packable(l, Flat(b), n, f', if n == 1 then k + f' else k')
  {
    hide Packable, Flat;
    FlatLast(a);
    FlatFirst(b);
    PackJoin(l, Flat(a), m, a[0].front, a[|a| - 1].back, Flat(b), n, b[0].front, b[|b| - 1].back);
  }

  /** Two requests, the seam glued: one segment fewer, and the recorded sizes of a request that is
      a single segment grow to the joined size. */
  lemma {:induction false} TallyJoined(l: Limits, a: seq<Bio>, m: nat, b: seq<Bio>, n: nat, a': seq<Bio>, b': seq<Bio>)
    requires TallyOk(l, a, m) && TallyOk(l, b, n) && a[|a| - 1].vecs != [] && b[0].vecs != []
    requires Contiguous(l, a[|a| - 1], b[0]) && SameVecs(a, a') && SameVecs(b, b')
    requires a'[|a| - 1].back == a[|a| - 1].back && b'[0].front == b[0].front
    requires a'[0].front == if m == 1 then a[|a| - 1].back + b[0].front else a[0].front
    requires b'[|b| - 1].back == if n == 1 then a[|a| - 1].back + b[0].front else b[|b| - 1].back
    ensures m >= 1 && n >= 1
    ensures TallyOk(l, a' + b', m + n - 1) && TallyOk(l, a', m) && TallyOk(l, b', n)
  {
    hide Packable, Flat, Contiguous;
    SeamGlued(l, a, m, b, n);
    FlatLast(a);
    FlatFirst(b);
    SameVecsFlat(a, a');
    SameVecsFlat(b, b');
    TallyAppended(l, a', b', m + n - 1);
  }

  lemma {:induction false} TallyAppended(l: Limits, a: seq<Bio>, b: seq<Bio>, nr: nat)
    requires a != [] && b != [] && Flat(a) != []
    requires Packable(l, Flat(a) + Flat(b), nr, a[0].front, b[|b| - 1].back)
    ensures TallyOk(l, a + b, nr)
  {
    hide Packable, Flat;
    FlatConcat(a, b);
  }
}
