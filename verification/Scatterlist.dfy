/** The scatterlist builder: one entry per segment of the greedy packing, covering the same bytes. */
module Scatterlist {
  import opened Multiples
  import opened Options
  import opened Segments
  import opened RequestGeometry
  import opened Completion
  import opened Packings

  /** The list after the vectors `vs`: entries so far, the last of them still open. */
  ghost predicate Mapped(l: Limits, vs: seq<Vec>, sg: seq<Vec>) {
    var cuts := MappedCuts(l, vs);
    && |sg| == Count(cuts)
    && (sg == [] <==> vs == [])
    && (vs != [] ==>
          && sg[|sg| - 1].len == LastRun(vs, cuts)
          && Phys(sg[|sg| - 1]) + sg[|sg| - 1].len == Phys(vs[|vs| - 1]) + vs[|vs| - 1].len)
    && Addrs(sg) == Addrs(vs)
    && (Positive(vs) ==> Fitting(l, vs, sg))
  }

  /** Every entry suits the device, and the last one is open for the next vector. */
  ghost predicate Fitting(l: Limits, vs: seq<Vec>, sg: seq<Vec>) {
    && (forall e | e in sg :: EntryFits(l, vs, e))
    && (vs != [] ==> sg != [] && OpenEntry(l, sg[|sg| - 1], vs[|vs| - 1]))
  }

  lemma {:induction false} FittingCut(l: Limits, vs: seq<Vec>, sg: seq<Vec>, v: Vec)
    requires Fitting(l, vs, sg)
    ensures Fitting(l, vs + [v], sg + [v])
  {
    hide OneWindow, Phys;
    assert forall e | e in vs :: e in vs + [v];
    forall e | e in sg + [v] ensures EntryFits(l, vs + [v], e) { assert e in sg || e == v; }
  }

  lemma {:induction false} FittingGrow(l: Limits, vs: seq<Vec>, sg: seq<Vec>, v: Vec)
    requires Fitting(l, vs, sg) && vs != [] && Positive(vs) && v.len > 0 && Glue(l, vs[|vs| - 1], v)
    requires sg[|sg| - 1].len + v.len <= l.maxSegSize
    ensures var n := |sg| - 1; Fitting(l, vs + [v], sg[n := sg[n].(len := sg[n].len + v.len)])
  {
    var n := |sg| - 1;
    var g := sg[n].(len := sg[n].len + v.len);
    EntryGrows(l, sg[n], vs[|vs| - 1], v);
    hide OneWindow, Phys, OpenEntry;
    assert forall e | e in vs :: e in vs + [v];
    forall e | e in sg[n := g] ensures EntryFits(l, vs + [v], e) { assert e in sg || e == g; }
  }

  /** One turn of the building loop. */
  function MapVec(l: Limits, sg: seq<Vec>, prev: Vec, v: Vec): seq<Vec> {
    var n := |sg| - 1;
    if sg != [] && l.cluster && sg[n].len + v.len <= l.maxSegSize && Glue(l, prev, v) then
      sg[n := sg[n].(len := sg[n].len + v.len)]
    else
      sg + [v]
  }

  lemma {:induction false} AddrsSnoc(vs: seq<Vec>, v: Vec)
    ensures Addrs(vs + [v]) == Addrs(vs) + Span(v)
  {
    if vs == [] {
      assert vs + [v] == [v] && [v][1..] == [];
    } else {
      assert (vs + [v])[1..] == vs[1..] + [v];
      AddrsSnoc(vs[1..], v);
    }
  }

  lemma {:induction false} SpanGrows(e: Vec, v: Vec)
    requires Phys(e) + e.len == Phys(v)
    ensures Span(e.(len := e.len + v.len)) == Span(e) + Span(v)
  {
    hide Phys;
    var g := e.(len := e.len + v.len);
    assert Phys(g) == Phys(e) by { SamePlace(e, g); }
  }

  lemma {:induction false} SamePlace(e: Vec, g: Vec)
    requires e.page == g.page && e.offset == g.offset
    ensures Phys(e) == Phys(g)
  {
  }

  lemma {:induction false} AddrsGrow(sg: seq<Vec>, v: Vec)
    requires sg != [] && Phys(sg[|sg| - 1]) + sg[|sg| - 1].len == Phys(v)
    ensures var n := |sg| - 1; Addrs(sg[n := sg[n].(len := sg[n].len + v.len)]) == Addrs(sg) + Span(v)
  {
    hide Phys, Span, Addrs;
    var n := |sg| - 1;
    var e := sg[n];
    var g := e.(len := e.len + v.len);
    assert sg == sg[..n] + [e] && sg[n := g] == sg[..n] + [g];
    AddrsSnoc(sg[..n], e);
    AddrsSnoc(sg[..n], g);
    SpanGrows(e, v);
    Associative(Addrs(sg[..n]), Span(e), Span(v));
  }

  lemma {:induction false} MappedSnoc(l: Limits, vs: seq<Vec>, v: Vec)
    ensures var cuts := MappedCuts(l, vs);
      var cut := CutHere(l, vs + [v], LastRun(vs, cuts), false);
      && MappedCuts(l, vs + [v]) == cuts + [cut]
      && Count(cuts + [cut]) == Count(cuts) + (if cut then 1 else 0)
      && LastRun(vs + [v], cuts + [cut]) == v.len + (if cut then 0 else LastRun(vs, cuts))
  {
    var cuts := MappedCuts(l, vs);
    var cut := CutHere(l, vs + [v], LastRun(vs, cuts), false);
    assert (vs + [v])[..|vs|] == vs && (cuts + [cut])[..|vs|] == cuts;
  }

  lemma {:induction false} MappedStep(l: Limits, vs: seq<Vec>, sg: seq<Vec>, prev: Vec, v: Vec)
    requires Mapped(l, vs, sg) && (vs != [] ==> prev == vs[|vs| - 1])
    ensures Mapped(l, vs + [v], MapVec(l, sg, prev, v))
  {
    hide Phys, GreedyCuts, Count, LastRun, Addrs, Glue, Fitting;
    assert Positive(vs + [v]) ==> Positive(vs) && v.len > 0 by {
      assert (vs + [v])[|vs|] == v && forall i | 0 <= i < |vs| :: (vs + [v])[i] == vs[i];
    }
    MappedSnoc(l, vs, v);
    AddrsSnoc(vs, v);
    var cut := CutHere(l, vs + [v], LastRun(vs, MappedCuts(l, vs)), false);
    if vs != [] && !cut {
      GlueTouches(l, prev, v);
      AddrsGrow(sg, v);
      var n := |sg| - 1;
      SamePlace(sg[n], sg[n].(len := sg[n].len + v.len));
      if Positive(vs + [v]) { FittingGrow(l, vs, sg, v); }
    } else {
      if Positive(vs + [v]) { FittingCut(l, vs, sg, v); }
      AddrsSnoc(sg, v);
      hide MappedCuts;
    }
  }

  lemma {:induction false} GlueTouches(l: Limits, v: Vec, w: Vec)
    requires Glue(l, v, w)
    ensures Phys(v) + v.len == Phys(w)
  {
  }

  method MapBio(l: Limits, vecs: seq<Vec>, sg0: seq<Vec>, prev0: Vec, ghost before: seq<Vec>) returns (sg: seq<Vec>,
                prev: Vec)
    requires Mapped(l, before, sg0) && (before != [] ==> prev0 == before[|before| - 1])
    ensures Mapped(l, before + vecs, sg) && (before + vecs != [] ==> prev == (before + vecs)[|before + vecs| - 1])
  {
    hide Mapped;
    sg, prev := sg0, prev0;
    assert before + vecs[..0] == before;
    for j := 0 to |vecs|
      invariant Mapped(l, before + vecs[..j], sg)
      invariant before + vecs[..j] != [] ==> prev == (before + vecs[..j])[|before| + j - 1]
    {
      MappedStep(l, before + vecs[..j], sg, prev, vecs[j]);
      SliceSnoc(before, vecs, j);
      sg := MapVec(l, sg, prev, vecs[j]);
      prev := vecs[j];
    }
    assert vecs[..|vecs|] == vecs;
  }

  /** Builds the list for a whole request: as many entries as the greedy packing has segments, and
      exactly the bytes of the request, in order. */
  method MapRequest(l: Limits, bios: seq<Bio>) returns (sg: seq<Vec>)
    ensures |sg| == Count(MappedCuts(l, Flat(bios)))
    ensures Addrs(sg) == Addrs(Flat(bios))
    ensures forall nr: nat | TallyOk(l, bios, nr) :: |sg| <= nr
    ensures Positive(Flat(bios)) ==> forall e | e in sg :: EntryFits(l, Flat(bios), e)
    ensures Positive(Flat(bios)) ==> forall cuts | Packed(l, Flat(bios), cuts) :: |sg| <= Count(cuts)
  {
    var prev := Vec(0, 0, 0);
    sg := [];
    for i := 0 to |bios|
      invariant Mapped(l, Flat(bios[..i]), sg)
      invariant Flat(bios[..i]) != [] ==> prev == Flat(bios[..i])[|Flat(bios[..i])| - 1]
    {
      sg, prev := MapBio(l, bios[i].vecs, sg, prev, Flat(bios[..i]));
      assert bios[..i + 1][..i] == bios[..i];
    }
    assert bios[..|bios|] == bios;
    forall nr: nat | TallyOk(l, bios, nr) ensures |sg| <= nr { MappedWithinTally(l, bios, nr); }
    forall cuts | Positive(Flat(bios)) && Packed(l, Flat(bios), cuts) ensures |sg| <= Count(cuts) {
      MappedSmallest(l, Flat(bios), cuts);
    }
  }

  // ----- what a device may want on top

  /** Bytes that fill the data up to a multiple of `pad`, a power of two. */
  function Padding(bytes: nat, pad: Window): nat { if bytes % pad == 0 then 0 else pad - bytes % pad }

  lemma {:induction false} PaddingFits(bytes: nat, pad: Window)
    ensures Multiple(bytes + Padding(bytes, pad), pad) && Padding(bytes, pad) < pad
  {
    DownFacts(bytes, pad);
    MultipleMod(bytes, pad);
    MultipleAdd(Down(bytes, pad), pad, pad) by { assert Multiple(pad, pad) by { assert Multiple(0, pad); } }
  }

  lemma {:induction false} PaddedAddrs(sg: seq<Vec>, p: nat)
    requires sg != []
    ensures var n := |sg| - 1;
      var r := Addrs(sg[n := sg[n].(len := sg[n].len + p)]); Addrs(sg) <= r && |r| == |Addrs(sg)| + p
  {
    var e := sg[|sg| - 1];
    var v := Vec(e.page, e.offset + e.len, p);
    assert Phys(v) == Phys(e) + e.len;
    hide Phys;
    AddrsGrow(sg, v);
  }

  /** The list b has p more bytes at its end than a. */
  ghost predicate Longer(a: seq<Vec>, b: seq<Vec>, p: nat) { Addrs(a) <= Addrs(b) && |Addrs(b)| == |Addrs(a)| + p }

  lemma {:induction false} LongerStill(a: seq<Vec>, b: seq<Vec>, p: nat, c: seq<Vec>, q: nat)
    requires Longer(a, b, p) && Longer(b, c, q)
    ensures Longer(a, c, p + q)
  {
    hide Addrs;
  }

  /** The last entry grows by the padding. */
  method Pad(sg0: seq<Vec>, bytes: nat, pad: Window) returns (sg: seq<Vec>)
    requires bytes == |Addrs(sg0)|
    ensures |sg| == |sg0| && Longer(sg0, sg, Padding(bytes, pad))
  {
    sg := sg0;
    hide Addrs, Padding;
    if Padding(bytes, pad) > 0 {
      Unpadded(bytes, pad, sg);
      PaddedAddrs(sg, Padding(bytes, pad));
      var n := |sg| - 1;
      sg := sg[n := sg[n].(len := sg[n].len + Padding(bytes, pad))];
    }
  }

  /** A drain buffer gets an entry of its own. */
  method Drain(sg0: seq<Vec>, drain: Vec) returns (sg: seq<Vec>)
    ensures sg == sg0 + [drain] && Longer(sg0, sg, drain.len)
  {
    AddrsSnoc(sg0, drain);
    hide Addrs;
    sg := sg0 + [drain];
  }

  /** The list with what the device wants on top: at most one entry more than was counted, and the
      request's bytes still come first. */
  method MapForDevice(l: Limits, bios: seq<Bio>, bytes: nat, copyUser: bool, pad: Window, drain: Option<Vec>)
    returns (sg: seq<Vec>, extra: nat)
    requires bytes == |Addrs(Flat(bios))|
    ensures |sg| == Count(MappedCuts(l, Flat(bios))) + if drain.Some? then 1 else 0
    ensures forall nr: nat | TallyOk(l, bios, nr) :: |sg| <= nr + if drain.Some? then 1 else 0
    ensures Longer(Flat(bios), sg, extra)
    ensures extra == (if copyUser then Padding(bytes, pad) else 0) + if drain.Some? then drain.value.len else 0
    ensures drain.Some? ==> sg != [] && sg[|sg| - 1] == drain.value
    ensures copyUser && drain.None? ==> Multiple(bytes + extra, pad)
  {
    sg := MapRequest(l, bios);
    extra := 0;
    PaddingFits(bytes, pad);
    assert Longer(Flat(bios), sg, 0) && Longer(sg, sg, 0);
    hide Addrs, Padding, Flat, MappedCuts, Count, TallyOk, Longer;
    if copyUser {
      ghost var was := sg;
      sg := Pad(sg, bytes, pad);
      LongerStill(Flat(bios), was, 0, sg, Padding(bytes, pad));
      extra := Padding(bytes, pad);
    }
    if drain.Some? {
      ghost var was := sg;
      sg := Drain(sg, drain.value);
      LongerStill(Flat(bios), was, extra, sg, drain.value.len);
      extra := extra + drain.value.len;
    }
  }

  /** Data that needs padding is not empty. */
  lemma {:induction false} Unpadded(bytes: nat, pad: Window, sg: seq<Vec>)
    requires |Addrs(sg)| == bytes && Padding(bytes, pad) > 0
    ensures sg != []
  {
    ModSmall(0, pad);
  }
}
