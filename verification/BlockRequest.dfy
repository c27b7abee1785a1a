/** A block request as the source keeps it: a chain of bios updated in place by merging and by
    partial completion, with its segment tally, byte count and sector. */
module BlockRequest {
  import opened Numbers
  import opened Segments
  import opened RequestGeometry
  import opened Completion
  import opened Packings

  // ----- finding where a completion stops

  /** The k-th pending vector is where m bytes end, r bytes into it. */
  ghost predicate StopsAt(b: Bio, m: nat, k: nat, r: nat) {
    k < |b.vecs| && m == Total(b.vecs[..k]) + r && r < b.vecs[k].len
  }

  lemma {:induction false} StopUnique(vs: seq<Vec>, m: nat, k: nat, r: nat)
    requires k < |vs| && m == Total(vs[..k]) + r && r < vs[k].len
    requires Positive(vs)
    ensures Whole(vs, m) == k && Skip(vs, m) == [Trim(vs[k], r)] + vs[k + 1..]
  {
    if k > 0 {
      assert vs[..k][0] == vs[0] && vs[..k][1..] == vs[1..][..k - 1];
      assert Positive(vs[1..]);
      StopUnique(vs[1..], m - vs[0].len, k - 1, r);
      assert vs[1..][k - 1] == vs[k] && vs[1..][k..] == vs[k + 1..];
    } else {
      assert vs[..0] == [];
    }
  }

  lemma {:induction false} TotalSnoc(vs: seq<Vec>, k: nat)
    requires k < |vs|
    ensures Total(vs[..k + 1]) == Total(vs[..k]) + vs[k].len
  {
    if k == 0 {
      assert vs[..1] == [vs[0]] && vs[..0] == [];
      assert [vs[0]][1..] == [];
    } else {
      assert vs[..k + 1][1..] == vs[1..][..k] && vs[..k][1..] == vs[1..][..k - 1];
      TotalSnoc(vs[1..], k - 1);
    }
  }

  lemma {:induction false} TotalPrefix(vs: seq<Vec>, k: nat)
    requires k <= |vs|
    ensures Total(vs[..k]) <= Total(vs) && (k == |vs| ==> Total(vs[..k]) == Total(vs))
    decreases |vs| - k
  {
    if k < |vs| {
      TotalSnoc(vs, k);
      TotalPrefix(vs, k + 1);
    } else {
      assert vs[..k] == vs;
    }
  }

  /** Where the walk over a request stands: bios still to go, whole vectors passed in the first of
      them and their bytes, bytes still to complete, bytes completed, bios ended. */
  datatype Walk = Walk(bios: seq<Bio>, nextIdx: nat, bioBytes: nat, left: nat, total: nat, ended: seq<(nat, int)>)

  /** Completing m bytes of `rest`, after ending `ended`, is completing n bytes of `bios`. */
  ghost predicate Remains(bios: seq<Bio>, n: nat, error: int, rest: seq<Bio>, m: nat, ended: seq<(nat, int)>) {
    && AllData(rest)
    && Advance(rest, m, error) == Advance(bios, n, error)
    && Into(rest, m) == Into(bios, n)
    && ended + EndedBios(rest, m, error) == EndedBios(bios, n, error)
    && TotalSize(rest) - m == TotalSize(bios) - n
  }

  /** Whole vectors passed in the first bio, and room for the rest of the bytes in it. */
  ghost predicate Passed(rest: seq<Bio>, nextIdx: nat, bioBytes: nat, left: nat) {
    if rest == [] then nextIdx == 0 && bioBytes == 0
    else
      && nextIdx <= |rest[0].vecs|
      && bioBytes == Total(rest[0].vecs[..nextIdx])
      && (nextIdx > 0 ==> left + bioBytes < rest[0].size)
  }

  ghost predicate Walked(bios: seq<Bio>, n: nat, error: int, w: Walk) {
    && w.total + w.left == n
    && Remains(bios, n, error, w.bios, w.left + w.bioBytes, w.ended)
    && Passed(w.bios, w.nextIdx, w.bioBytes, w.left)
  }

  lemma {:induction false} RemainsTail(bios: seq<Bio>, n: nat, error: int, rest: seq<Bio>, m: nat, ended: seq<(nat,
                                       int)>)
    requires Remains(bios, n, error, rest, m, ended) && rest != [] && rest[0].size <= m
    ensures Remains(bios, n, error, rest[1..], m - rest[0].size, ended + [(rest[0].id, EndError(rest[0], error))])
  {
    TailData(rest);
    Associative(ended, [(rest[0].id, EndError(rest[0], error))], EndedBios(rest[1..], m - rest[0].size, error));
  }

  lemma {:induction false} PassedNone(rest: seq<Bio>, left: nat)
    ensures Passed(rest, 0, 0, left)
  {
    if rest != [] { assert rest[0].vecs[..0] == []; }
  }

  lemma {:induction false} PassedWhole(rest: seq<Bio>, nextIdx: nat, bioBytes: nat, left: nat)
    requires Passed(rest, nextIdx, bioBytes, left) && rest != [] && rest[0].size <= left
    ensures nextIdx == 0 && bioBytes == 0
  {
    assert rest[0].vecs[..0] == [];
  }

  /** Inside a bio there is always a next vector. */
  lemma {:induction false} PassNext(rest: seq<Bio>, nextIdx: nat, bioBytes: nat, left: nat)
    requires Passed(rest, nextIdx, bioBytes, left) && rest != [] && IsData(rest[0]) && left < rest[0].size
    ensures left + bioBytes < rest[0].size && nextIdx < |rest[0].vecs|
    ensures var v := rest[0].vecs[nextIdx];
      && v.len > 0
      && (v.len <= left ==> Passed(rest, nextIdx + 1, bioBytes + v.len, left - v.len))
  {
    var vs := rest[0].vecs;
    assert nextIdx == 0 ==> vs[..0] == [];
    TotalPrefix(vs, nextIdx);
    assert vs[nextIdx] in vs;
    TotalSnoc(vs, nextIdx);
  }

  /** One turn: end a whole bio, or pass a whole vector. */
  function EndBio(w: Walk, error: int): Walk
    requires w.bios != [] && w.bios[0].size <= w.left
  {
    var b := w.bios[0];
    Walk(w.bios[1..], 0, 0, w.left - b.size, w.total + b.size, w.ended + [(b.id, EndError(b, error))])
  }

  function PassVec(w: Walk): Walk
    requires w.bios != [] && w.nextIdx < |w.bios[0].vecs| && w.bios[0].vecs[w.nextIdx].len <= w.left
  {
    var v := w.bios[0].vecs[w.nextIdx];
    Walk(w.bios, w.nextIdx + 1, w.bioBytes + v.len, w.left - v.len, w.total + v.len, w.ended)
  }

  lemma {:induction false} EndBioWalked(bios: seq<Bio>, n: nat, error: int, w: Walk)
    requires Walked(bios, n, error, w) && w.bios != [] && w.bios[0].size <= w.left
    ensures Walked(bios, n, error, EndBio(w, error))
  {
    PassedWhole(w.bios, w.nextIdx, w.bioBytes, w.left);
    RemainsTail(bios, n, error, w.bios, w.left, w.ended);
    PassedNone(w.bios[1..], w.left - w.bios[0].size);
  }

  lemma {:induction false} PassVecWalked(bios: seq<Bio>, n: nat, error: int, w: Walk)
    requires Walked(bios, n, error, w) && w.bios != [] && w.left < w.bios[0].size
    ensures w.left + w.bioBytes < w.bios[0].size && w.nextIdx < |w.bios[0].vecs|
    ensures var v := w.bios[0].vecs[w.nextIdx];
      if v.len <= w.left then v.len > 0 && Walked(bios, n, error, PassVec(w))
      else StopsAt(w.bios[0], w.left + w.bioBytes, w.nextIdx, w.left)
  {
    assert IsData(w.bios[0]);
    PassNext(w.bios, w.nextIdx, w.bioBytes, w.left);
  }

  /** The completion loop: ends whole bios, then passes whole vectors of the next one, and stops
      inside a vector, at a boundary, or when nothing is left. */
  method WalkRequest(bios: seq<Bio>, n: nat, error: int) returns (w: Walk)
    requires AllData(bios)
    ensures Walked(bios, n, error, w)
    ensures w.bios != [] ==>
      w.left + w.bioBytes < w.bios[0].size && StopsAt(w.bios[0], w.left + w.bioBytes, w.nextIdx, w.left)
  {
    w := Walk(bios, 0, 0, n, 0, []);
    PassedNone(bios, n);
    assert [] + EndedBios(bios, n, error) == EndedBios(bios, n, error);
    while w.bios != []
      invariant Walked(bios, n, error, w)
      decreases |w.bios|, if w.bios != [] then |w.bios[0].vecs| - w.nextIdx else 0
    {
      if w.bios[0].size <= w.left {
        EndBioWalked(bios, n, error, w);
        w := EndBio(w, error);
      } else {
        PassVecWalked(bios, n, error, w);
        if w.bios[0].vecs[w.nextIdx].len > w.left { break; }
        w := PassVec(w);
      }
    }
  }

  // ----- finishing the bio the walk stopped in

  /** What the code writes into the bio: sizes, sector, flag, index, and the trimmed vector. */
  function CutBio(b: Bio, m: nat, k: nat, r: nat, error: int): Bio
    requires m <= b.size && k < |b.vecs| && r <= b.vecs[k].len
  {
    if m == 0 then b
    else b.(size := b.size - m, sector := b.sector + m / 512, uptodate := b.uptodate && error == 0,
            idx := b.idx + k, vecs := [Trim(b.vecs[k], r)] + b.vecs[k + 1..])
  }

  lemma {:induction false} CutIsAdvance(b: Bio, m: nat, k: nat, r: nat, error: int)
    requires IsData(b) && m < b.size && StopsAt(b, m, k, r)
    ensures CutBio(b, m, k, r, error) == AdvanceBio(b, m, error).(sector := b.sector + m / 512)
  {
    StopUnique(b.vecs, m, k, r);
  }

  /** Equal but for the recorded segment sizes. */
  predicate SameBut(a: Bio, b: Bio) { a.(front := 0, back := 0) == b.(front := 0, back := 0) }

  predicate SameButSizes(a: seq<Bio>, b: seq<Bio>) { |a| == |b| && forall i | 0 <= i < |a| :: SameBut(a[i], b[i]) }

  /** The bios a completion of n bytes leaves. */
  function Left(bios: seq<Bio>, n: nat, error: int): seq<Bio> {
    MoveSector(Advance(bios, n, error), Into(bios, n) / 512)
  }

  lemma {:induction false} IntoHead(rest: seq<Bio>, m: nat, error: int)
    requires AllData(rest) && rest != [] && m < rest[0].size
    ensures Into(rest, m) == m
    ensures Left(rest, m, error) == [AdvanceBio(rest[0], m, error).(sector := rest[0].sector + m / 512)] + rest[1..]
  {
    assert IsData(rest[0]);
    assert ([AdvanceBio(rest[0], m, error)] + rest[1..])[1..] == rest[1..];
  }

  /** The chain after the walk is the chain the completion should leave. */
  lemma {:induction false} WalkLeaves(bios: seq<Bio>, n: nat, error: int, rest: seq<Bio>, m: nat, k: nat, r: nat,
                                      ended: seq<(nat, int)>)
    requires Remains(bios, n, error, rest, m, ended) && rest != [] && m < rest[0].size && StopsAt(rest[0], m, k, r)
    ensures Left(bios, n, error) == [CutBio(rest[0], m, k, r, error)] + rest[1..]
    ensures n < TotalSize(bios) && ended == EndedBios(bios, n, error)
  {
    assert IsData(rest[0]);
    CutIsAdvance(rest[0], m, k, r, error);
    IntoHead(rest, m, error);
  }

  lemma {:induction false} WalkFinishes(bios: seq<Bio>, n: nat, error: int, m: nat, ended: seq<(nat, int)>)
    requires Remains(bios, n, error, [], m, ended)
    ensures Left(bios, n, error) == [] && n >= TotalSize(bios) && ended == EndedBios(bios, n, error)
  {
  }

  lemma {:induction false} LeftFacts(bios: seq<Bio>, n: nat, error: int)
    requires AllData(bios)
    ensures AllData(Left(bios, n, error))
    ensures TotalSize(Left(bios, n, error)) == TotalSize(bios) - Min(n, TotalSize(bios))
    ensures |Bytes(bios)| == TotalSize(bios)
    ensures Bytes(Left(bios, n, error)) == Bytes(bios)[Min(n, TotalSize(bios))..]
    ensures Left(bios, n, error) == [] <==> n >= TotalSize(bios)
  {
    if n <= TotalSize(bios) {
      AdvanceSizes(bios, n, error);
      AdvanceDropsPrefix(bios, n, error);
      SectorOnly(Advance(bios, n, error), Into(bios, n) / 512);
    } else {
      AdvanceAll(bios, n, error);
      BytesLength(bios);
    }
  }

  lemma {:induction false} AdvanceAll(bios: seq<Bio>, n: nat, error: int)
    requires n > TotalSize(bios)
    ensures Advance(bios, n, error) == []
  {
    if bios != [] { AdvanceAll(bios[1..], n - bios[0].size, error); }
  }

  lemma {:induction false} SectorOnly(bios: seq<Bio>, sectors: nat)
    requires AllData(bios)
    ensures AllData(MoveSector(bios, sectors)) && TotalSize(MoveSector(bios, sectors)) == TotalSize(bios)
    ensures Bytes(MoveSector(bios, sectors)) == Bytes(bios)
  {
    if bios != [] {
      var b := bios[0].(sector := bios[0].sector + sectors);
      TailData(bios);
      assert IsData(b);
      AllDataConcat([b], bios[1..]);
      assert ([b] + bios[1..])[1..] == bios[1..];
    }
  }

  lemma {:induction false} SizesOnly(bios: seq<Bio>, front: nat, back: nat)
    requires bios != []
    ensures var r := WithBack(WithFront(bios, front), back);
      && SameButSizes(r, bios) && SameVecs(bios, r) && r[|r| - 1].back == back
      && r[0].front == front
  {
  }

  /** Recounts the segments of a chain that changed. */
  method Recounted(l: Limits, bios: seq<Bio>) returns (r: seq<Bio>, nr: nat)
    requires AllData(bios) && bios != []
    ensures TallyOk(l, r, nr) && SameButSizes(r, bios) && nr == Count(CountedCuts(l, Flat(bios)))
    ensures Flat(r) == Flat(bios)
  {
    var front, back;
    nr, front, back := CountSegments(l, bios);
    r := WithBack(WithFront(bios, front), back);
    SizesOnly(bios, front, back);
    FlatFirst(bios);
    CountDescribes(l, bios, r, nr);
    SameVecsFlat(bios, r);
  }

  /** Completes the first n bytes of a chain. */
  method Completed(bios: seq<Bio>, n: nat, error: int) returns (r: seq<Bio>, ended: seq<(nat, int)>)
    requires AllData(bios)
    ensures r == Left(bios, n, error) && ended == EndedBios(bios, n, error)
    ensures r == [] <==> n >= TotalSize(bios)
  {
    var w := WalkRequest(bios, n, error);
    ended := w.ended;
    if w.bios == [] {
      WalkFinishes(bios, n, error, w.left + w.bioBytes, w.ended);
      r := [];
    } else {
      WalkLeaves(bios, n, error, w.bios, w.left + w.bioBytes, w.nextIdx, w.left, w.ended);
      r := [CutBio(w.bios[0], w.left + w.bioBytes, w.nextIdx, w.left, error)] + w.bios[1..];
    }
  }

  /** The sanity check after a partial completion cannot fail: the current vector fits. */
  lemma {:induction false} NotBotched(bios: seq<Bio>)
    requires AllData(bios) && bios != []
    ensures bios[0].vecs != [] && bios[0].vecs[0].len <= TotalSize(bios)
  {
    assert IsData(bios[0]);
  }

  /** An error on part of a bio sticks: whatever its last bytes report, the bio ends with an error. */
  lemma {:induction false} ErrorSticks(bios: seq<Bio>, n: nat, error: int)
    requires AllData(bios) && n < TotalSize(bios) && Into(bios, n) > 0 && error != 0
    ensures Left(bios, n, error) != [] && !Left(bios, n, error)[0].uptodate
  {
    TailData(bios);
    if bios[0].size <= n { ErrorSticks(bios[1..], n - bios[0].size, error); }
  }

  // ----- completing in two goes

  lemma {:induction false} DivCarry(i: nat, b: nat)
    ensures (i + b) / 512 == i / 512 + b / 512 + if i % 512 + b % 512 >= 512 then 1 else 0
  {
  }

  /** The second share ends in the same bio as the first, and the odd bytes of the two make up a
      sector that neither has by itself. */
  predicate Carries(bios: seq<Bio>, a: nat, b: nat) {
    bios != [] &&
    if bios[0].size <= a then Carries(bios[1..], a - bios[0].size, b)
    else a + b < bios[0].size && a % 512 + b % 512 >= 512
  }

  function CutBy(x: Bio, n: nat, sectors: nat, error: int): Bio
    requires n <= x.size
  {
    var y := AdvanceBio(x, n, error);
    y.(sector := y.sector + sectors)
  }

  lemma {:induction false} LeftCons(x: Bio, rest: seq<Bio>, n: nat, error: int)
    ensures Left([x] + rest, n, error) ==
      if x.size <= n then Left(rest, n - x.size, error) else [CutBy(x, n, n / 512, error)] + rest
    ensures EndedBios([x] + rest, n, error) ==
      if x.size <= n then [(x.id, EndError(x, error))] + EndedBios(rest, n - x.size, error) else []
  {
    hide AdvanceBio, EndError;
    var bios := [x] + rest;
    assert bios[1..] == rest && bios[0] == x;
    if x.size > n {
      var y := AdvanceBio(x, n, error);
      assert ([y] + rest)[1..] == rest;
    }
  }

  /** Twice inside one bio: everything but the sector is as if done at once. */
  lemma {:induction false} CutTwice(x: Bio, a: nat, b: nat, error: int)
    requires IsData(x) && a + b < x.size
    ensures var y := CutBy(x, a, a / 512, error);
      && b < y.size
      && CutBy(y, b, b / 512, error) == CutBy(x, a + b, a / 512 + b / 512, error)
  {
    AdvanceBioFacts(x, a, error);
    AdvanceBioTwice(x, a, b, error);
  }

  lemma {:induction false} CutFacts(x: Bio, n: nat, sectors: nat, error: int)
    requires IsData(x) && n < x.size
    ensures var y := CutBy(x, n, sectors, error);
      y.size == x.size - n && y.id == x.id && EndError(y, error) == EndError(x, error)
  {
    AdvanceBioFacts(x, n, error);
  }

  lemma {:induction false} LeftInBio(x: Bio, rest: seq<Bio>, a: nat, b: nat, error: int)
    requires IsData(x) && a < x.size
    ensures Left([CutBy(x, a, a / 512, error)] + rest, b, error) == Left([x] + rest, a + b, error)
            <==> !(a + b < x.size && a % 512 + b % 512 >= 512)
    ensures EndedBios([CutBy(x, a, a / 512, error)] + rest, b, error) == EndedBios([x] + rest, a + b, error)
  {
    hide CutBy, IsData, EndError, Left, EndedBios;
    var y := CutBy(x, a, a / 512, error);
    CutFacts(x, a, a / 512, error);
    LeftCons(y, rest, b, error);
    LeftCons(x, rest, a + b, error);
    if a + b < x.size {
      CutTwice(x, a, b, error);
      DivCarry(a, b);
      OneCutDiffers(x, rest, a + b, a / 512 + b / 512, (a + b) / 512, error);
    }
  }

  lemma {:induction false} OneCutDiffers(x: Bio, rest: seq<Bio>, n: nat, s: nat, t: nat, error: int)
    requires n <= x.size
    ensures [CutBy(x, n, s, error)] + rest == [CutBy(x, n, t, error)] + rest <==> s == t
  {
    hide AdvanceBio;
    assert ([CutBy(x, n, s, error)] + rest)[0].sector == AdvanceBio(x, n, error).sector + s;
    assert ([CutBy(x, n, t, error)] + rest)[0].sector == AdvanceBio(x, n, error).sector + t;
  }

  /** Completing a bytes and then b leaves what completing a + b at once leaves exactly when no odd
      bytes are lost: each go moves the sector by its own whole sectors only. */
  lemma {:induction false} LeftLeftIff(bios: seq<Bio>, a: nat, b: nat, error: int)
    requires AllData(bios)
    ensures Left(Left(bios, a, error), b, error) == Left(bios, a + b, error) <==> !Carries(bios, a, b)
  {
    hide CutBy, IsData;
    if bios != [] {
      TailData(bios);
      assert [bios[0]] + bios[1..] == bios;
      LeftCons(bios[0], bios[1..], a, error);
      LeftCons(bios[0], bios[1..], a + b, error);
      if bios[0].size <= a {
        LeftLeftIff(bios[1..], a - bios[0].size, b, error);
      } else {
        LeftInBio(bios[0], bios[1..], a, b, error);
      }
    }
  }

  /** The bios ended, and the errors they end with, are always those of completing a + b at once. */
  lemma {:induction false} EndedEnded(bios: seq<Bio>, a: nat, b: nat, error: int)
    requires AllData(bios)
    ensures EndedBios(bios, a, error) + EndedBios(Left(bios, a, error), b, error) == EndedBios(bios, a + b, error)
  {
    hide CutBy, IsData, EndError;
    if bios != [] {
      TailData(bios);
      assert [bios[0]] + bios[1..] == bios;
      LeftCons(bios[0], bios[1..], a, error);
      LeftCons(bios[0], bios[1..], a + b, error);
      if bios[0].size <= a {
        EndedEnded(bios[1..], a - bios[0].size, b, error);
        var e := [(bios[0].id, EndError(bios[0], error))];
        Associative(e, EndedBios(bios[1..], a - bios[0].size, error), EndedBios(Left(bios, a, error), b, error));
      } else {
        LeftInBio(bios[0], bios[1..], a, b, error);
      }
    }
  }

  lemma {:induction false} CarriesDiffers(bios: seq<Bio>, a: nat, b: nat, error: int)
    requires AllData(bios) && Carries(bios, a, b)
    ensures !SameButSizes(Left(Left(bios, a, error), b, error), Left(bios, a + b, error))
  {
    hide IsData;
    TailData(bios);
    var x, rest := bios[0], bios[1..];
    assert [x] + rest == bios;
    LeftCons(x, rest, a, error);
    LeftCons(x, rest, a + b, error);
    if x.size <= a {
      CarriesDiffers(rest, a - x.size, b, error);
    } else {
      CarriesHere(x, rest, a, b, error);
    }
  }

  lemma {:induction false} CarriesHere(x: Bio, rest: seq<Bio>, a: nat, b: nat, error: int)
    requires IsData(x) && a + b < x.size && a % 512 + b % 512 >= 512
    ensures !SameButSizes(Left([CutBy(x, a, a / 512, error)] + rest, b, error), Left([x] + rest, a + b, error))
  {
    hide IsData, Left;
    var y := CutBy(x, a, a / 512, error);
    CutTwice(x, a, b, error);
    DivCarry(a, b);
    LeftCons(y, rest, b, error);
    LeftCons(x, rest, a + b, error);
    var p, q := [CutBy(x, a + b, a / 512 + b / 512, error)] + rest, [CutBy(x, a + b, (a + b) / 512, error)] + rest;
    assert p[0].sector != q[0].sector;
    assert !SameBut(p[0], q[0]);
  }

  /** Two halves of a sector, done one after the other, leave the bio's sector where it was. */
  lemma {:induction false} HalvesLoseSector(x: Bio, error: int)
    requires IsData(x) && x.size > 512
    ensures var twice, once := Left(Left([x], 256, error), 256, error), Left([x], 512, error);
      twice != [] && once != [] && twice[0].sector == x.sector && once[0].sector == x.sector + 1
  {
    LeftCons(x, [], 256, error);
    LeftCons(x, [], 512, error);
    assert [x] + [] == [x];
    var y := CutBy(x, 256, 0, error);
    LeftCons(y, [], 256, error);
    assert [y] + [] == [y];
  }

  // ----- recorded sizes play no part in completion

  lemma {:induction false} SizesDontMatter(x: seq<Bio>, y: seq<Bio>, n: nat, error: int)
    requires SameButSizes(x, y)
    ensures SameButSizes(Left(x, n, error), Left(y, n, error)) && EndedBios(x, n, error) == EndedBios(y, n, error)
    ensures TotalSize(x) == TotalSize(y)
  {
    assert |x| == |y|;
    hide SameBut, SameButSizes, CutBy, EndError, Left, EndedBios;
    if x == [] {
      NothingLeft(n, error);
    } else {
      var x', y' := x[1..], y[1..];
      assert [x[0]] + x' == x && [y[0]] + y' == y;
      SameTail(x, y);
      LeftCons(x[0], x', n, error);
      LeftCons(y[0], y', n, error);
      SameCut(x[0], y[0], n, error);
      if x[0].size <= n {
        SizesDontMatter(x', y', n - x[0].size, error);
      } else {
        SizesDontMatter(x', y', 0, error);
        SameCons(CutBy(x[0], n, n / 512, error), x', CutBy(y[0], n, n / 512, error), y');
      }
    }
  }

  lemma {:induction false} SameButTrans(x: seq<Bio>, y: seq<Bio>, z: seq<Bio>)
    requires SameButSizes(x, y) && SameButSizes(y, z)
    ensures SameButSizes(x, z) && SameButSizes(y, x)
  {
    forall i | 0 <= i < |x|
      ensures SameBut(x[i], z[i]) && SameBut(y[i], x[i])
    {
      assert SameBut(x[i], y[i]) && SameBut(y[i], z[i]);
    }
  }

  lemma {:induction false} SameData(x: seq<Bio>, y: seq<Bio>)
    requires SameButSizes(x, y) && AllData(y)
    ensures AllData(x)
  {
    forall i | 0 <= i < |x| ensures IsData(x[i]) { assert SameBut(x[i], y[i]) && IsData(y[i]); }
  }

  /** What a completion leaves, with its end sizes recorded anew. */
  lemma {:induction false} UpdateFacts(bios: seq<Bio>, n: nat, error: int, r: seq<Bio>)
    requires AllData(bios) && SameButSizes(r, Left(bios, n, error))
    ensures AllData(r) && TotalSize(r) == TotalSize(bios) - Min(n, TotalSize(bios))
    ensures r == [] <==> n >= TotalSize(bios)
    ensures r != [] ==> r[0].vecs != [] && r[0].vecs[0].len <= TotalSize(r)
    ensures r != [] && error != 0 && Into(bios, n) > 0 ==> !r[0].uptodate
  {
    LeftFacts(bios, n, error);
    assert |r| == |Left(bios, n, error)| && (r != [] ==> SameBut(r[0], Left(bios, n, error)[0]));
    hide Left, SameButSizes, IsData, Advance, Into;
    SameData(r, Left(bios, n, error));
    SizesDontMatter(r, Left(bios, n, error), 0, error);
    if r != [] {
      NotBotched(r);
      if error != 0 && Into(bios, n) > 0 { ErrorSticks(bios, n, error); }
    }
  }

  lemma {:induction false} NothingLeft(n: nat, error: int)
    ensures SameButSizes([], []) && Left([], n, error) == []
  {
  }

  lemma {:induction false} SameCut(b: Bio, c: Bio, n: nat, error: int)
    requires SameBut(b, c)
    ensures b.size == c.size && b.id == c.id && EndError(b, error) == EndError(c, error)
    ensures n <= b.size ==> SameBut(CutBy(b, n, n / 512, error), CutBy(c, n, n / 512, error))
  {
  }

  lemma {:induction false} SameTail(x: seq<Bio>, y: seq<Bio>)
    requires SameButSizes(x, y) && x != []
    ensures SameButSizes(x[1..], y[1..]) && SameBut(x[0], y[0])
  {
    hide SameBut;
  }

  lemma {:induction false} SameCons(b: Bio, x: seq<Bio>, c: Bio, y: seq<Bio>)
    requires SameButSizes(x, y) && SameBut(b, c)
    ensures SameButSizes([b] + x, [c] + y)
  {
    hide SameBut;
  }

  // ----- merging

  /** A request as a value: its chain, tally, byte count, start sector and merge flag. */
  datatype Chain = Chain(bios: seq<Bio>, nr: nat, bytes: nat, sector: nat, noMerge: bool)

  /** A bio that may be merged: data, and a recorded count that is right if marked so. */
  ghost predicate Mergeable(l: Limits, b: Bio) { IsData(b) && (b.segValid ==> BioOk(l, b)) }

  ghost predicate AllMergeable(l: Limits, bios: seq<Bio>) { forall i | 0 <= i < |bios| :: Mergeable(l, bios[i]) }

  /** What every request under construction satisfies. */
  ghost predicate ChainOk(l: Limits, c: Chain) {
    TallyOk(l, c.bios, c.nr) && AllMergeable(l, c.bios) && c.bytes == TotalSize(c.bios)
  }

  /** A bio is recounted only if its count is not marked valid. */
  ghost predicate Fresh(l: Limits, b: Bio, r: Bio) {
    if b.segValid then r == b else Rerecords(b, r) && BioOk(l, r) && Records(l, b, r)
  }

  /** Refused: too many sectors or segments; no further merging is tried. */
  function Refuse(c: Chain): Chain { c.(noMerge := true) }

  /** The sector limit a bio merge goes by: the source keeps it in sixteen bits. */
  function BioLimit(l: Limits): nat { l.maxSectors % 0x1_0000 }

  /** A bio is appended if the limits allow; `tail` and `b` are the last bio and the new one with
      fresh counts. */
  function BackMerged(l: Limits, c: Chain, tail: Bio, b: Bio): (r: (bool, Chain))
    requires c.bios != []
  {
    if c.bytes / 512 + b.size / 512 > BioLimit(l) then (false, Refuse(c))
    else
      var bios := c.bios[|c.bios| - 1 := tail];
      if c.nr + b.segs > l.maxSegments then (false, Refuse(c.(bios := bios)))
      else (true, c.(bios := bios + [b], nr := c.nr + b.segs, bytes := c.bytes + b.size))
  }

  /** A bio is prepended if the limits allow; `head` and `b` are the first bio and the new one with
      fresh counts. */
  function FrontMerged(l: Limits, c: Chain, head: Bio, b: Bio): (r: (bool, Chain))
    requires c.bios != []
  {
    if c.bytes / 512 + b.size / 512 > BioLimit(l) then (false, Refuse(c))
    else
      var bios := c.bios[0 := head];
      if c.nr + b.segs > l.maxSegments then (false, Refuse(c.(bios := bios)))
      else (true, Chain([b] + bios, c.nr + b.segs, c.bytes + b.size, b.sector, c.noMerge))
  }

  /** Hangs the second chain behind the first if `total` segments are allowed. */
  function Splice(l: Limits, c: Chain, d: Chain, total: nat): (bool, Chain, Chain) {
    if total > l.maxSegments then (false, c, d)
    else (true, c.(bios := c.bios + d.bios, nr := total, bytes := c.bytes + d.bytes), d.(bios := []))
  }

  /** Joins two requests' chains.  The recorded sizes are updated before the segment limit is
      checked, so they may change even when the merge is refused. */
  function Absorbed(l: Limits, c: Chain, d: Chain): (r: (bool, Chain, Chain))
    requires c.bios != [] && d.bios != [] && c.bios[|c.bios| - 1].vecs != [] && d.bios[0].vecs != []
  {
    if c.bytes / 512 + d.bytes / 512 > l.maxSectors then (false, c, d)
    else if Contiguous(l, c.bios[|c.bios| - 1], d.bios[0]) then Glued(l, c, d)
    else Splice(l, c, d, c.nr + d.nr)
  }

  /** The seam becomes part of one segment. */
  function Glued(l: Limits, c: Chain, d: Chain): (bool, Chain, Chain)
    requires c.bios != [] && d.bios != []
  {
    var size := c.bios[|c.bios| - 1].back + d.bios[0].front;
    SpliceGlued(l, c, d, JoinedFront(c.bios, c.nr, size), JoinedBack(d.bios, d.nr, size))
  }

  function SpliceGlued(l: Limits, c: Chain, d: Chain, a: seq<Bio>, b: seq<Bio>): (bool, Chain, Chain) {
    Splice(l, c.(bios := a), d.(bios := b), if c.nr + d.nr > 0 then c.nr + d.nr - 1 else 0)
  }

  lemma {:induction false} TotalSizeConcat(a: seq<Bio>, b: seq<Bio>)
    ensures TotalSize(a + b) == TotalSize(a) + TotalSize(b)
  {
    if a == [] {
      assert a + b == b;
    } else {
      assert (a + b)[1..] == a[1..] + b;
      TotalSizeConcat(a[1..], b);
    }
  }

  lemma {:induction false} SameVecsSize(a: seq<Bio>, b: seq<Bio>)
    requires SameVecs(a, b)
    ensures TotalSize(a) == TotalSize(b) && Bytes(a) == Bytes(b)
  {
    if a != [] { SameVecsSize(a[1..], b[1..]); }
  }

  /** Recounting a bio of a chain only widens what the tally already allows. */
  lemma {:induction false} RerecordedTally(l: Limits, bios: seq<Bio>, nr: nat, i: nat, r: Bio)
    requires TallyOk(l, bios, nr) && i < |bios| && Rerecords(bios[i], r)
    ensures TallyOk(l, bios[i := r], nr)
  {
    hide TallyOk;
    TallyWidened(l, bios, nr, bios[i := r]);
  }

  lemma {:induction false} RerecordedData(bios: seq<Bio>, i: nat, r: Bio)
    requires i < |bios| && Rerecords(bios[i], r)
    ensures TotalSize(bios[i := r]) == TotalSize(bios) && Flat(bios[i := r]) == Flat(bios)
  {
    SameVecsSize(bios, bios[i := r]);
    SameVecsFlat(bios, bios[i := r]);
  }

  lemma {:induction false} AppendedData(bios: seq<Bio>, b: Bio)
    ensures Flat(bios + [b]) == Flat(bios) + b.vecs && Flat([b] + bios) == b.vecs + Flat(bios)
    ensures TotalSize(bios + [b]) == TotalSize(bios) + b.size && TotalSize([b] + bios) == TotalSize(bios) + b.size
  {
    FlatConcat(bios, [b]);
    FlatConcat([b], bios);
    FlatSingle(b);
    TotalSizeConcat(bios, [b]);
    TotalSizeConcat([b], bios);
    assert [b][1..] == [];
  }

  /** A back merge keeps the tally right and stays within the segment limit. */
  lemma {:induction false} BackMergedTally(l: Limits, c: Chain, tail: Bio, b: Bio)
    requires TallyOk(l, c.bios, c.nr) && Rerecords(c.bios[|c.bios| - 1], tail) && BioOk(l, b)
    ensures var (ok, r) := BackMerged(l, c, tail, b); TallyOk(l, r.bios, r.nr) && (ok ==> r.nr <= l.maxSegments)
  {
    hide TallyOk, Rerecords;
    RerecordedTally(l, c.bios, c.nr, |c.bios| - 1, tail);
    TallyConcat(l, c.bios[|c.bios| - 1 := tail], c.nr, [b], b.segs);
  }

  /** It appends the bio's data and counts its bytes. */
  lemma {:induction false} BackMergedData(l: Limits, c: Chain, tail: Bio, b: Bio)
    requires c.bios != [] && c.bytes == TotalSize(c.bios) && Rerecords(c.bios[|c.bios| - 1], tail)
    ensures var (ok, r) := BackMerged(l, c, tail, b);
      Flat(r.bios) == Flat(c.bios) + (if ok then b.vecs else []) && r.bytes == TotalSize(r.bios)
  {
    hide Rerecords, Flat;
    RerecordedData(c.bios, |c.bios| - 1, tail);
    AppendedData(c.bios[|c.bios| - 1 := tail], b);
  }

  /** A front merge keeps the tally right and stays within the segment limit. */
  lemma {:induction false} FrontMergedTally(l: Limits, c: Chain, head: Bio, b: Bio)
    requires TallyOk(l, c.bios, c.nr) && Rerecords(c.bios[0], head) && BioOk(l, b)
    ensures var (ok, r) := FrontMerged(l, c, head, b); TallyOk(l, r.bios, r.nr) && (ok ==> r.nr <= l.maxSegments)
  {
    hide TallyOk, Rerecords;
    RerecordedTally(l, c.bios, c.nr, 0, head);
    TallyConcat(l, [b], b.segs, c.bios[0 := head], c.nr);
  }

  /** It puts the bio's data and start sector in front and counts its bytes. */
  lemma {:induction false} FrontMergedData(l: Limits, c: Chain, head: Bio, b: Bio)
    requires c.bios != [] && c.bytes == TotalSize(c.bios) && Rerecords(c.bios[0], head)
    ensures var (ok, r) := FrontMerged(l, c, head, b);
      && Flat(r.bios) == (if ok then b.vecs else []) + Flat(c.bios) && r.bytes == TotalSize(r.bios)
      && r.sector == if ok then b.sector else c.sector
  {
    hide Rerecords, Flat;
    RerecordedData(c.bios, 0, head);
    AppendedData(c.bios[0 := head], b);
  }

  lemma {:induction false} SpliceTally(l: Limits, c: Chain, d: Chain, total: nat)
    requires TallyOk(l, c.bios, c.nr) && TallyOk(l, d.bios, d.nr) && TallyOk(l, c.bios + d.bios, total)
    ensures MergedTally(l, Splice(l, c, d, total))
  {
    hide TallyOk;
  }

  ghost predicate MergedTally(l: Limits, r: (bool, Chain, Chain)) {
    && TallyOk(l, r.1.bios, r.1.nr)
    && (r.0 ==> r.1.nr <= l.maxSegments)
    && (!r.0 ==> TallyOk(l, r.2.bios, r.2.nr))
  }

  lemma {:induction false} GluedTally(l: Limits, c: Chain, d: Chain)
    requires TallyOk(l, c.bios, c.nr) && TallyOk(l, d.bios, d.nr) && c.bios[|c.bios| - 1].vecs != []
    requires d.bios[0].vecs != []
    requires Contiguous(l, c.bios[|c.bios| - 1], d.bios[0])
    ensures MergedTally(l, Glued(l, c, d))
  {
    hide TallyOk;
    var size := c.bios[|c.bios| - 1].back + d.bios[0].front;
    var a, b := JoinedFront(c.bios, c.nr, size), JoinedBack(d.bios, d.nr, size);
    TallyJoined(l, c.bios, c.nr, d.bios, d.nr, a, b);
    GluedSplice(l, c, d, a, b);
  }

  lemma {:induction false} GluedSplice(l: Limits, c: Chain, d: Chain, a: seq<Bio>, b: seq<Bio>)
    requires c.nr >= 1 && TallyOk(l, a, c.nr) && TallyOk(l, b, d.nr) && TallyOk(l, a + b, c.nr + d.nr - 1)
    ensures MergedTally(l, SpliceGlued(l, c, d, a, b))
  {
    hide TallyOk;
    SpliceTally(l, c.(bios := a), d.(bios := b), c.nr + d.nr - 1);
  }

  /** Merging two requests keeps both tallies right, whether or not the merge goes through. */
  lemma {:induction false} AbsorbedTally(l: Limits, c: Chain, d: Chain)
    requires TallyOk(l, c.bios, c.nr) && TallyOk(l, d.bios, d.nr) && c.bios[|c.bios| - 1].vecs != []
    requires d.bios[0].vecs != []
    ensures MergedTally(l, Absorbed(l, c, d))
  {
    hide Glued, Splice, TallyOk;
    if Contiguous(l, c.bios[|c.bios| - 1], d.bios[0]) { GluedTally(l, c, d); } else { PlainTally(l, c, d); }
  }

  lemma {:induction false} PlainTally(l: Limits, c: Chain, d: Chain)
    requires TallyOk(l, c.bios, c.nr) && TallyOk(l, d.bios, d.nr)
    ensures MergedTally(l, Splice(l, c, d, c.nr + d.nr))
  {
    hide TallyOk, Splice;
    TallyConcat(l, c.bios, c.nr, d.bios, d.nr);
    SpliceTally(l, c, d, c.nr + d.nr);
  }

  /** The data of two requests after a merge, and their byte counts. */
  ghost predicate MergedData(c: Chain, d: Chain, r: (bool, Chain, Chain)) {
    && Flat(r.1.bios) == Flat(c.bios) + (if r.0 then Flat(d.bios) else [])
    && r.1.bytes == TotalSize(r.1.bios)
    && (if r.0 then r.2.bios == [] else Flat(r.2.bios) == Flat(d.bios) && r.2.bytes == TotalSize(r.2.bios))
  }

  lemma {:induction false} SpliceBytes(l: Limits, c: Chain, d: Chain, a: seq<Bio>, b: seq<Bio>, total: nat)
    requires SameVecs(c.bios, a) && SameVecs(d.bios, b) && c.bytes == TotalSize(c.bios) && d.bytes == TotalSize(d.bios)
    ensures MergedData(c, d, Splice(l, c.(bios := a), d.(bios := b), total))
  {
    hide Flat, TotalSize, SameVecs;
    AbsorbedData(c.bios, d.bios, a, b);
  }

  lemma {:induction false} GluedBytes(l: Limits, c: Chain, d: Chain)
    requires c.bios != [] && d.bios != [] && c.bytes == TotalSize(c.bios) && d.bytes == TotalSize(d.bios)
    ensures MergedData(c, d, Glued(l, c, d))
  {
    hide Flat, TotalSize;
    var size := c.bios[|c.bios| - 1].back + d.bios[0].front;
    SpliceBytes(l, c, d, JoinedFront(c.bios, c.nr, size), JoinedBack(d.bios, d.nr, size),
        if c.nr + d.nr > 0 then c.nr + d.nr - 1 else 0);
  }

  lemma {:induction false} PlainBytes(l: Limits, c: Chain, d: Chain, total: nat)
    requires c.bytes == TotalSize(c.bios) && d.bytes == TotalSize(d.bios)
    ensures MergedData(c, d, Splice(l, c, d, total)) && MergedData(c, d, (false, c, d))
  {
    SpliceBytes(l, c, d, c.bios, d.bios, total);
  }

  /** It concatenates the data and adds the bytes. */
  lemma {:induction false} AbsorbedBytes(l: Limits, c: Chain, d: Chain)
    requires c.bios != [] && d.bios != [] && c.bios[|c.bios| - 1].vecs != [] && d.bios[0].vecs != []
    requires c.bytes == TotalSize(c.bios) && d.bytes == TotalSize(d.bios)
    ensures MergedData(c, d, Absorbed(l, c, d))
  {
    PlainBytes(l, c, d, c.nr + d.nr);
    GluedBytes(l, c, d);
  }

  lemma {:induction false} AbsorbedData(a: seq<Bio>, b: seq<Bio>, a': seq<Bio>, b': seq<Bio>)
    requires SameVecs(a, a') && SameVecs(b, b')
    ensures Flat(a') == Flat(a) && Flat(b') == Flat(b) && Flat(a' + b') == Flat(a) + Flat(b)
    ensures TotalSize(a') == TotalSize(a) && TotalSize(b') == TotalSize(b)
    ensures TotalSize(a' + b') == TotalSize(a) + TotalSize(b)
  {
    SameVecsFlat(a, a');
    SameVecsFlat(b, b');
    SameVecsSize(a, a');
    SameVecsSize(b, b');
    FlatConcat(a', b');
    TotalSizeConcat(a', b');
  }

  // ----- every operation keeps a request in order

  lemma {:induction false} FreshSize(l: Limits, b: Bio, r: Bio)
    requires Fresh(l, b, r)
    ensures r.size == b.size && r.sector == b.sector
  {
    hide TallyOk;
  }

  lemma {:induction false} FreshFacts(l: Limits, b: Bio, r: Bio)
    requires Mergeable(l, b) && Fresh(l, b, r)
    ensures Rerecords(b, r) && BioOk(l, r) && Mergeable(l, r)
  {
    hide TallyOk, Total, Positive;
  }

  lemma {:induction false} AllMergeableUpdate(l: Limits, bios: seq<Bio>, i: nat, r: Bio)
    requires AllMergeable(l, bios) && i < |bios| && Mergeable(l, r)
    ensures AllMergeable(l, bios[i := r])
  {
    hide Mergeable;
  }

  lemma {:induction false} AllMergeableConcat(l: Limits, a: seq<Bio>, b: seq<Bio>)
    requires AllMergeable(l, a) && AllMergeable(l, b)
    ensures AllMergeable(l, a + b)
  {
    hide Mergeable;
    forall i | 0 <= i < |a + b| ensures Mergeable(l, (a + b)[i]) {
      assert (a + b)[i] == if i < |a| then a[i] else b[i - |a|];
    }
  }

  lemma {:induction false} BackMergedOk(l: Limits, c: Chain, bio: Bio, tail: Bio, b: Bio)
    requires ChainOk(l, c) && Mergeable(l, bio) && Fresh(l, c.bios[|c.bios| - 1], tail) && Fresh(l, bio, b)
    ensures var (ok, r) := BackMerged(l, c, tail, b); ChainOk(l, r) && (ok ==> r.nr <= l.maxSegments)
  {
    hide TallyOk, Mergeable, Rerecords, AllMergeable, Fresh, BioOk;
    assert Mergeable(l, c.bios[|c.bios| - 1]) by { MergeableAt(l, c.bios, |c.bios| - 1); }
    FreshFacts(l, c.bios[|c.bios| - 1], tail);
    FreshFacts(l, bio, b);
    BackMergedTally(l, c, tail, b);
    BackMergedData(l, c, tail, b);
    AllMergeableUpdate(l, c.bios, |c.bios| - 1, tail);
    AllMergeableOne(l, b);
    AllMergeableConcat(l, c.bios[|c.bios| - 1 := tail], [b]);
  }

  lemma {:induction false} MergeableAt(l: Limits, bios: seq<Bio>, i: nat)
    requires AllMergeable(l, bios) && i < |bios|
    ensures Mergeable(l, bios[i])
  {
    hide Mergeable;
  }

  lemma {:induction false} AllMergeableOne(l: Limits, b: Bio)
    requires Mergeable(l, b)
    ensures AllMergeable(l, [b])
  {
    hide Mergeable;
  }

  lemma {:induction false} FrontMergedOk(l: Limits, c: Chain, bio: Bio, head: Bio, b: Bio)
    requires ChainOk(l, c) && Mergeable(l, bio) && Fresh(l, c.bios[0], head) && Fresh(l, bio, b)
    ensures var (ok, r) := FrontMerged(l, c, head, b); ChainOk(l, r) && (ok ==> r.nr <= l.maxSegments)
  {
    hide TallyOk, Mergeable, Rerecords, AllMergeable, Fresh, BioOk;
    MergeableAt(l, c.bios, 0);
    FreshFacts(l, c.bios[0], head);
    FreshFacts(l, bio, b);
    FrontMergedTally(l, c, head, b);
    FrontMergedData(l, c, head, b);
    AllMergeableUpdate(l, c.bios, 0, head);
    AllMergeableOne(l, b);
    AllMergeableConcat(l, [b], c.bios[0 := head]);
  }

  lemma {:induction false} TotalConcat(a: seq<Vec>, b: seq<Vec>)
    ensures Total(a + b) == Total(a) + Total(b)
  {
    if a == [] {
      assert a + b == b;
    } else {
      assert (a + b)[1..] == a[1..] + b;
      TotalConcat(a[1..], b);
    }
  }

  /** A bio is no longer than the request it is in. */
  lemma {:induction false} TotalOfEnds(bios: seq<Bio>)
    requires bios != []
    ensures Total(bios[0].vecs) <= Total(Flat(bios)) && Total(bios[|bios| - 1].vecs) <= Total(Flat(bios))
  {
    var n := |bios| - 1;
    TotalConcat(Flat(bios[..n]), bios[n].vecs);
    if n > 0 { TotalOfEnds(bios[..n]); }
  }

  /** Recorded sizes that cover the whole bio keep its count right. */
  lemma {:induction false} StillMergeable(l: Limits, b: Bio, front: nat, back: nat)
    requires Mergeable(l, b)
    requires (front == b.front || Total(b.vecs) <= front) && (back == b.back || Total(b.vecs) <= back)
    ensures Mergeable(l, b.(front := front, back := back))
  {
    hide Packable, Total, Positive;
    var b' := b.(front := front, back := back);
    if b.segValid {
      FlatSingle(b);
      FlatSingle(b');
      PackCap(l, b.vecs, b.segs, b.front, b.back, front, back);
    }
  }

  /** A request that is one segment is no longer than the sizes recorded for its ends, so the
      joined size covers its first and its last bio. */
  lemma {:induction false} JoinedMergeable(l: Limits, c: Chain, size: nat)
    requires ChainOk(l, c)
    ensures c.bios[|c.bios| - 1].back <= size ==> AllMergeable(l, JoinedFront(c.bios, c.nr, size))
    ensures c.bios[0].front <= size ==> AllMergeable(l, JoinedBack(c.bios, c.nr, size))
  {
    hide Packable, Total, Flat, Mergeable, AllMergeable;
    if c.nr == 1 {
      var a, z := c.bios[0], c.bios[|c.bios| - 1];
      PackOne(l, Flat(c.bios), a.front, z.back);
      TotalOfEnds(c.bios);
      MergeableAt(l, c.bios, 0);
      MergeableAt(l, c.bios, |c.bios| - 1);
      if z.back <= size {
        StillMergeable(l, a, size, a.back);
        AllMergeableUpdate(l, c.bios, 0, a.(front := size));
      }
      if a.front <= size {
        StillMergeable(l, z, z.front, size);
        AllMergeableUpdate(l, c.bios, |c.bios| - 1, z.(back := size));
      }
    }
  }

  lemma {:induction false} GluedMergeable(l: Limits, c: Chain, d: Chain)
    requires ChainOk(l, c) && ChainOk(l, d)
    ensures var r := Glued(l, c, d); AllMergeable(l, r.1.bios) && (!r.0 ==> AllMergeable(l, r.2.bios))
  {
    hide TallyOk, Mergeable, AllMergeable, JoinedFront, JoinedBack;
    var size := c.bios[|c.bios| - 1].back + d.bios[0].front;
    JoinedMergeable(l, c, size);
    JoinedMergeable(l, d, size);
    AllMergeableConcat(l, JoinedFront(c.bios, c.nr, size), JoinedBack(d.bios, d.nr, size));
  }

  lemma {:induction false} AbsorbedMergeable(l: Limits, c: Chain, d: Chain)
    requires ChainOk(l, c) && ChainOk(l, d) && c.bios[|c.bios| - 1].vecs != [] && d.bios[0].vecs != []
    ensures var r := Absorbed(l, c, d); AllMergeable(l, r.1.bios) && (!r.0 ==> AllMergeable(l, r.2.bios))
  {
    hide TallyOk, Mergeable, AllMergeable, Glued, Contiguous;
    GluedMergeable(l, c, d);
    AllMergeableConcat(l, c.bios, d.bios);
  }

  lemma {:induction false} EndsHaveVecs(l: Limits, c: Chain)
    requires ChainOk(l, c)
    ensures c.bios != [] && c.bios[0].vecs != [] && c.bios[|c.bios| - 1].vecs != []
  {
    hide TallyOk, Total, Positive;
    MergeableAt(l, c.bios, 0);
    MergeableAt(l, c.bios, |c.bios| - 1);
  }

  lemma {:induction false} AbsorbedOk(l: Limits, c: Chain, d: Chain)
    requires ChainOk(l, c) && ChainOk(l, d) && c.bios[|c.bios| - 1].vecs != [] && d.bios[0].vecs != []
    ensures var (ok, r, u) := Absorbed(l, c, d);
      ChainOk(l, r) && (ok ==> r.nr <= l.maxSegments) && (!ok ==> ChainOk(l, u))
  {
    hide TallyOk, AllMergeable, Absorbed;
    AbsorbedTally(l, c, d);
    AbsorbedBytes(l, c, d);
    AbsorbedMergeable(l, c, d);
  }

  // ----- what merging means for the limits

  /** A request of `bytes` may take `more` bytes on: the whole sectors of both are within the limit. */
  predicate SectorsFit(limit: nat, bytes: nat, more: nat) { bytes / 512 + more / 512 <= limit }

  /** A bio goes behind the request exactly if its sectors and segments fit; if not, the data stays and no
      further merge is tried. */
  ghost predicate BackRule(l: Limits, c: Chain, bio: Bio, segs: nat, ok: bool, r: Chain) {
    && (ok <==> SectorsFit(l.maxSectors % 0x1_0000, c.bytes, bio.size) && c.nr + segs <= l.maxSegments)
    && r.nr == c.nr + (if ok then segs else 0) && r.bytes == c.bytes + (if ok then bio.size else 0)
    && r.sector == c.sector && r.noMerge == (c.noMerge || !ok)
    && Flat(r.bios) == Flat(c.bios) + (if ok then bio.vecs else [])
    && |r.bios| == |c.bios| + if ok then 1 else 0
  }

  /** The same in front, where the start sector moves. */
  ghost predicate FrontRule(l: Limits, c: Chain, bio: Bio, segs: nat, ok: bool, r: Chain) {
    && (ok <==> SectorsFit(l.maxSectors % 0x1_0000, c.bytes, bio.size) && c.nr + segs <= l.maxSegments)
    && r.nr == c.nr + (if ok then segs else 0) && r.bytes == c.bytes + (if ok then bio.size else 0)
    && r.sector == (if ok then bio.sector else c.sector) && r.noMerge == (c.noMerge || !ok)
    && Flat(r.bios) == (if ok then bio.vecs else []) + Flat(c.bios)
    && |r.bios| == |c.bios| + if ok then 1 else 0
  }

  /** The segment at the seam of two bios can be one. */
  predicate SeamFits(l: Limits, b: Bio, next: Bio)
    requires b.vecs != [] && next.vecs != []
  {
    var v, w := b.vecs[|b.vecs| - 1], next.vecs[0];
    && l.cluster && b.back + next.front <= l.maxSegSize && End(v) == Phys(w)
    && Phys(v) < End(w) && OneWindow(l, Phys(v), End(w))
  }

  /** Two requests become one exactly if their sectors fit and their segments, one fewer if the seam can
      be one; then a request of a single segment has that segment's size recorded at its far end. */
  ghost predicate JoinRule(l: Limits, c: Chain, d: Chain, ok: bool, r: Chain, u: Chain)
    requires c.bios != [] && d.bios != [] && c.bios[|c.bios| - 1].vecs != [] && d.bios[0].vecs != []
  {
    var last, first := c.bios[|c.bios| - 1], d.bios[0];
    var seam := SeamFits(l, last, first);
    var total := c.nr + d.nr - if seam then 1 else 0;
    && (ok <==> SectorsFit(l.maxSectors, c.bytes, d.bytes) && total <= l.maxSegments)
    && (if ok then
          && r.nr == total && r.bytes == c.bytes + d.bytes && u.bios == []
          && Flat(r.bios) == Flat(c.bios) + Flat(d.bios) && |r.bios| == |c.bios| + |d.bios|
        else
          && r.nr == c.nr && r.bytes == c.bytes && u.nr == d.nr && u.bytes == d.bytes
          && Flat(r.bios) == Flat(c.bios) && Flat(u.bios) == Flat(d.bios)
          && |r.bios| == |c.bios| && |u.bios| == |d.bios|)
    && r.sector == c.sector && r.noMerge == c.noMerge
    && var b := if ok then r.bios else u.bios;
       var grown := SectorsFit(l.maxSectors, c.bytes, d.bytes) && seam;
       && r.bios != [] && b != []
       && r.bios[0].front == (if grown && c.nr == 1 then last.back + first.front else c.bios[0].front)
       && b[|b| - 1].back == if grown && d.nr == 1 then last.back + first.front else d.bios[|d.bios| - 1].back
  }

  lemma {:induction false} SectorsMean(limit: nat, bytes: nat, more: nat)
    ensures SectorsFit(limit, bytes, more) <==> bytes / 512 + more / 512 <= limit
  {
  }

  /** The limit of a bio merge is the queue's limit exactly if that is below 65536; at 65536 nothing is merged. */
  lemma {:induction false} ShortLimitIff(limit: nat)
    ensures limit < 0x1_0000 <==> forall a, b :: SectorsFit(limit % 0x1_0000, a, b) <==> SectorsFit(limit, a, b)
    ensures SectorsFit(0x1_0000, 512, 512) && !SectorsFit(0x1_0000 % 0x1_0000, 512, 512)
  {
    if limit >= 0x1_0000 {
      var a := limit * 512;
      assert a / 512 == limit;
      assert SectorsFit(limit, a, 0) && !SectorsFit(limit % 0x1_0000, a, 0);
    }
  }

  /** The data of a chain with one bio recounted and another put behind or in front. */
  lemma {:induction false} MergedVecs(bios: seq<Bio>, i: nat, r: Bio, bio: Bio, b: Bio)
    requires i < |bios| && Rerecords(bios[i], r) && Rerecords(bio, b)
    ensures var s := bios[i := r];
      && Flat(s) == Flat(bios) + [] == [] + Flat(bios)
      && Flat(s + [b]) == Flat(bios) + bio.vecs && Flat([b] + s) == bio.vecs + Flat(bios)
      && b.size == bio.size && b.sector == bio.sector
  {
    hide Flat, TotalSize;
    RerecordedData(bios, i, r);
    AppendedData(bios[i := r], b);
  }

  lemma {:induction false} BackMergedRule(l: Limits, c: Chain, bio: Bio, tail: Bio, b: Bio)
    requires c.bios != [] && Rerecords(c.bios[|c.bios| - 1], tail) && Rerecords(bio, b)
    ensures var (ok, r) := BackMerged(l, c, tail, b); BackRule(l, c, bio, b.segs, ok, r)
  {
    hide Flat, SectorsFit, Rerecords;
    MergedVecs(c.bios, |c.bios| - 1, tail, bio, b);
    SectorsMean(BioLimit(l), c.bytes, b.size);
    assert Flat(Refuse(c).bios) == Flat(c.bios) + [];
  }

  lemma {:induction false} FrontMergedRule(l: Limits, c: Chain, bio: Bio, head: Bio, b: Bio)
    requires c.bios != [] && Rerecords(c.bios[0], head) && Rerecords(bio, b)
    ensures var (ok, r) := FrontMerged(l, c, head, b); FrontRule(l, c, bio, b.segs, ok, r)
  {
    hide Flat, SectorsFit, Rerecords;
    MergedVecs(c.bios, 0, head, bio, b);
    SectorsMean(BioLimit(l), c.bytes, b.size);
    assert Flat(Refuse(c).bios) == [] + Flat(c.bios);
  }

  lemma {:induction false} FreshSame(l: Limits, b: Bio, r: Bio)
    requires Fresh(l, b, r)
    ensures Rerecords(b, r)
  {
    hide TallyOk, Records;
  }

  lemma {:induction false} ContiguousMeans(l: Limits, b: Bio, next: Bio)
    requires IsData(b) && IsData(next)
    ensures Contiguous(l, b, next) <==> SeamFits(l, b, next)
  {
    GlueMeans(l, b.vecs[|b.vecs| - 1], next.vecs[0]);
    hide Glue, OneWindow, Phys, Total;
  }

  /** The same for the seam of two requests. */
  lemma {:induction false} SeamMeans(l: Limits, c: Chain, d: Chain)
    requires ChainOk(l, c) && ChainOk(l, d) && c.bios[|c.bios| - 1].vecs != [] && d.bios[0].vecs != []
    ensures c.nr >= 1 && d.nr >= 1
    ensures Contiguous(l, c.bios[|c.bios| - 1], d.bios[0]) <==> SeamFits(l, c.bios[|c.bios| - 1], d.bios[0])
  {
    assert c.bios != [] && d.bios != [];
    hide TallyOk, AllMergeable, Contiguous, SeamFits, BioOk;
    MergeableAt(l, c.bios, |c.bios| - 1);
    MergeableAt(l, d.bios, 0);
    ContiguousMeans(l, c.bios[|c.bios| - 1], d.bios[0]);
    SomeSegments(l, c);
    SomeSegments(l, d);
  }

  /** What joining the seam does to the two chains, whether or not they are then made one. */
  lemma {:induction false} JoinedEnds(c: Chain, d: Chain, size: nat)
    requires c.bios != [] && d.bios != []
    ensures var a, b := JoinedFront(c.bios, c.nr, size), JoinedBack(d.bios, d.nr, size);
      && |a| == |c.bios| && |b| == |d.bios| && Flat(a) == Flat(c.bios) && Flat(b) == Flat(d.bios)
      && Flat(a + b) == Flat(c.bios) + Flat(d.bios)
      && a[0].front == (if c.nr == 1 then size else c.bios[0].front)
      && b[|b| - 1].back == if d.nr == 1 then size else d.bios[|d.bios| - 1].back
  {
    var a, b := JoinedFront(c.bios, c.nr, size), JoinedBack(d.bios, d.nr, size);
    hide Flat;
    SameVecsFlat(c.bios, a);
    SameVecsFlat(d.bios, b);
    FlatConcat(a, b);
  }

  lemma {:induction false} BackMergedFacts(l: Limits, c: Chain, bio: Bio, tail: Bio, b: Bio)
    requires ChainOk(l, c) && Mergeable(l, bio) && Fresh(l, c.bios[|c.bios| - 1], tail) && Fresh(l, bio, b)
    ensures var (ok, r) := BackMerged(l, c, tail, b); ChainOk(l, r) && BackRule(l, c, bio, b.segs, ok, r)
    ensures b.size == bio.size
  {
    hide TallyOk, Mergeable, AllMergeable, Fresh, Rerecords, BackMerged, BackRule;
    FreshSize(l, bio, b);
    BackMergedOk(l, c, bio, tail, b);
    FreshSame(l, c.bios[|c.bios| - 1], tail);
    FreshSame(l, bio, b);
    BackMergedRule(l, c, bio, tail, b);
  }

  lemma {:induction false} FrontMergedFacts(l: Limits, c: Chain, bio: Bio, head: Bio, b: Bio)
    requires ChainOk(l, c) && Mergeable(l, bio) && Fresh(l, c.bios[0], head) && Fresh(l, bio, b)
    ensures var (ok, r) := FrontMerged(l, c, head, b); ChainOk(l, r) && FrontRule(l, c, bio, b.segs, ok, r)
    ensures b.size == bio.size && b.sector == bio.sector
  {
    hide TallyOk, Mergeable, AllMergeable, Fresh, Rerecords, FrontMerged, FrontRule;
    FreshSize(l, bio, b);
    FrontMergedOk(l, c, bio, head, b);
    FreshSame(l, c.bios[0], head);
    FreshSame(l, bio, b);
    FrontMergedRule(l, c, bio, head, b);
  }

  lemma {:induction false} PlainRule(l: Limits, c: Chain, d: Chain)
    requires c.bios != [] && d.bios != [] && c.bios[|c.bios| - 1].vecs != [] && d.bios[0].vecs != []
    requires !(SectorsFit(l.maxSectors, c.bytes, d.bytes) && SeamFits(l, c.bios[|c.bios| - 1], d.bios[0]))
    ensures !SectorsFit(l.maxSectors, c.bytes, d.bytes) ==> JoinRule(l, c, d, false, c, d)
    ensures SectorsFit(l.maxSectors, c.bytes, d.bytes) ==>
      var (ok, r, u) := Splice(l, c, d, c.nr + d.nr); JoinRule(l, c, d, ok, r, u)
  {
    hide Flat, SeamFits, SectorsFit;
    FlatConcat(c.bios, d.bios);
  }

  lemma {:induction false} GluedRule(l: Limits, c: Chain, d: Chain)
    requires c.bios != [] && d.bios != [] && c.bios[|c.bios| - 1].vecs != [] && d.bios[0].vecs != []
    requires SectorsFit(l.maxSectors, c.bytes, d.bytes) && SeamFits(l, c.bios[|c.bios| - 1], d.bios[0]) && c.nr >= 1
    ensures var (ok, r, u) := Glued(l, c, d); JoinRule(l, c, d, ok, r, u)
  {
    hide Flat, SeamFits, SectorsFit, JoinedFront, JoinedBack;
    JoinedEnds(c, d, c.bios[|c.bios| - 1].back + d.bios[0].front);
  }

  lemma {:induction false} AbsorbedRule(l: Limits, c: Chain, d: Chain)
    requires c.bios != [] && d.bios != [] && ChainOk(l, c) && ChainOk(l, d)
    requires c.bios[|c.bios| - 1].vecs != [] && d.bios[0].vecs != []
    ensures var (ok, r, u) := Absorbed(l, c, d); JoinRule(l, c, d, ok, r, u)
  {
    hide ChainOk, Contiguous, SeamFits, Glued, Splice, SectorsFit, JoinRule;
    SeamMeans(l, c, d);
    SectorsMean(l.maxSectors, c.bytes, d.bytes);
    if SectorsFit(l.maxSectors, c.bytes, d.bytes) && SeamFits(l, c.bios[|c.bios| - 1], d.bios[0]) {
      GluedRule(l, c, d);
    } else {
      PlainRule(l, c, d);
    }
  }

  lemma {:induction false} SomeSegments(l: Limits, c: Chain)
    requires ChainOk(l, c)
    ensures c.nr >= 1
  {
    hide AllMergeable, Flat;
    PackNonzero(l, Flat(c.bios), c.nr, c.bios[0].front, c.bios[|c.bios| - 1].back);
  }

  /** A bio whose recorded count may be stale is recounted before it is used. */
  method Freshened(l: Limits, b: Bio) returns (r: Bio)
    requires Mergeable(l, b)
    ensures Fresh(l, b, r)
  {
    if b.segValid { r := b; } else { r := RecountBio(l, b); }
  }

  class Request {
    var bios: seq<Bio>
    var nrSegs: nat
    var dataLen: nat
    var sector: nat
    var noMerge: bool
    const hasSector: bool                // a file-system or discard request: its sector means something
    ghost var ended: seq<(nat, int)>     // bios ended so far, with their errors

    ghost function View(): Chain
      reads this
    {
      Chain(bios, nrSegs, dataLen, sector, noMerge)
    }

    /** Completes the first n bytes.  Bios that are done are ended; the rest is set up to go on. */
    method Update(l: Limits, n: nat, error: int) returns (more: bool)
      requires AllData(bios) && dataLen == TotalSize(bios)
      modifies this
      ensures more <==> n < TotalSize(old(bios))
      ensures SameButSizes(bios, Left(old(bios), n, error))
      ensures ended == old(ended) + EndedBios(old(bios), n, error)
      ensures AllData(bios) && dataLen == TotalSize(bios) == old(dataLen) - Min(n, old(dataLen))
      ensures more ==> bios != [] && TallyOk(l, bios, nrSegs) && nrSegs == Count(CountedCuts(l, Flat(bios)))
      ensures sector == old(sector) + if more && hasSector then n / 512 else 0
      ensures more ==> bios[0].vecs != [] && bios[0].vecs[0].len <= dataLen
      ensures more && error != 0 && Into(old(bios), n) > 0 ==> !bios[0].uptodate
      ensures !more ==> bios == []
    {
      hide TallyOk, Left, EndedBios, SameButSizes, IsData, Into, TotalSize;
      LeftFacts(bios, n, error);
      var left, done := Completed(bios, n, error);
      more := left != [];
      ended := ended + done;
      if more {
        dataLen := dataLen - n;
        if hasSector { sector := sector + n / 512; }
        bios, nrSegs := Recounted(l, left);
      } else {
        NothingLeft(n, error);
        bios, dataLen := [], 0;
      }
      UpdateFacts(old(bios), n, error, bios);
    }

    /** Whether `segs` more segments fit; a refusal forbids further merging. */
    method NewHwSegment(l: Limits, segs: nat) returns (ok: bool)
      modifies this`nrSegs, this`noMerge
      ensures ok <==> old(nrSegs) + segs <= l.maxSegments
      ensures ok ==> nrSegs == old(nrSegs) + segs && noMerge == old(noMerge)
      ensures !ok ==> nrSegs == old(nrSegs) && noMerge
    {
      ok := nrSegs + segs <= l.maxSegments;
      if ok { nrSegs := nrSegs + segs; } else { noMerge := true; }
    }

    /** Appends a bio to the request if the limits allow. */
    method BackMerge(l: Limits, bio: Bio) returns (ok: bool, ghost tail: Bio, ghost b: Bio)
      requires ChainOk(l, View()) && Mergeable(l, bio)
      modifies this`bios, this`nrSegs, this`dataLen, this`noMerge
      ensures Fresh(l, old(bios)[|old(bios)| - 1], tail) && Fresh(l, bio, b)
      ensures BackRule(l, old(View()), bio, b.segs, ok, View())
      ensures (ok, View()) == BackMerged(l, old(View()), tail, b)
      ensures ChainOk(l, View())
    {
      hide TallyOk, Mergeable, AllMergeable, Fresh, BackRule;
      MergeableAt(l, bios, |bios| - 1);
      var last := Freshened(l, bios[|bios| - 1]);
      var new_ := Freshened(l, bio);
      tail, b := last, new_;
      BackMergedFacts(l, View(), bio, tail, b);
      hide ChainOk;
      var limit := l.maxSectors % 0x1_0000;
      if dataLen / 512 + bio.size / 512 > limit {
        noMerge, ok := true, false;
      } else {
        bios := bios[|bios| - 1 := last];
        ok := NewHwSegment(l, new_.segs);
        if ok { bios, dataLen := bios + [new_], dataLen + bio.size; }
      }
    }

    /** Prepends a bio to the request if the limits allow. */
    method FrontMerge(l: Limits, bio: Bio) returns (ok: bool, ghost head: Bio, ghost b: Bio)
      requires ChainOk(l, View()) && Mergeable(l, bio)
      modifies this`bios, this`nrSegs, this`dataLen, this`noMerge, this`sector
      ensures Fresh(l, old(bios)[0], head) && Fresh(l, bio, b)
      ensures FrontRule(l, old(View()), bio, b.segs, ok, View())
      ensures (ok, View()) == FrontMerged(l, old(View()), head, b)
      ensures ChainOk(l, View())
    {
      hide TallyOk, Mergeable, AllMergeable, Fresh, FrontRule;
      MergeableAt(l, bios, 0);
      var first := Freshened(l, bios[0]);
      var new_ := Freshened(l, bio);
      head, b := first, new_;
      FrontMergedFacts(l, View(), bio, head, b);
      hide ChainOk;
      var limit := l.maxSectors % 0x1_0000;
      if dataLen / 512 + bio.size / 512 > limit {
        noMerge, ok := true, false;
      } else {
        bios := bios[0 := first];
        ok := NewHwSegment(l, new_.segs);
        if ok { bios, dataLen, sector := [new_] + bios, dataLen + bio.size, bio.sector; }
      }
    }

    /** Hangs the other request's bios behind this one's if `total` segments are allowed. */
    method TakeOver(l: Limits, next: Request, total: nat) returns (ok: bool)
      requires next != this
      modifies this`bios, this`nrSegs, this`dataLen, next`bios
      ensures (ok, View(), next.View()) == Splice(l, old(View()), old(next.View()), total)
    {
      ok := total <= l.maxSegments;
      if ok {
        bios, nrSegs, dataLen := bios + next.bios, total, dataLen + next.dataLen;
        next.bios := [];
      }
    }

    /** Takes over the bios of the request that follows on the disk, if the limits allow. */
    method Absorb(l: Limits, next: Request) returns (ok: bool)
      requires next != this && ChainOk(l, View()) && ChainOk(l, next.View())
      modifies this`bios, this`nrSegs, this`dataLen, next`bios
      ensures old(bios)[|old(bios)| - 1].vecs != [] && old(next.bios)[0].vecs != []
      ensures JoinRule(l, old(View()), old(next.View()), ok, View(), next.View())
      ensures (ok, View(), next.View()) == Absorbed(l, old(View()), old(next.View()))
      ensures ChainOk(l, View()) && (!ok ==> ChainOk(l, next.View()))
    {
      hide ChainOk, Contiguous, JoinedFront, JoinedBack, Splice, JoinRule;
      EndsHaveVecs(l, View());
      EndsHaveVecs(l, next.View());
      AbsorbedOk(l, View(), next.View());
      AbsorbedRule(l, View(), next.View());
      ok := false;
      if dataLen / 512 + next.dataLen / 512 <= l.maxSectors {
        var total := nrSegs + next.nrSegs;
        if Contiguous(l, bios[|bios| - 1], next.bios[0]) {
          var size := bios[|bios| - 1].back + next.bios[0].front;
          bios := JoinedFront(bios, nrSegs, size);
          next.bios := JoinedBack(next.bios, next.nrSegs, size);
          total := if total > 0 then total - 1 else total;
        }
        ok := TakeOver(l, next, total);
      }
    }
  }

  /** Two completions of a request, against one of the sum: the same bios end with the same errors
      and the same bytes remain; the sectors agree exactly when no odd bytes are lost. */
  method UpdateTwice(r: Request, l: Limits, a: nat, b: nat, error: int) returns (more: bool)
    requires AllData(r.bios) && r.dataLen == TotalSize(r.bios)
    modifies r
    ensures more <==> a + b < TotalSize(old(r.bios))
    ensures r.ended == old(r.ended) + EndedBios(old(r.bios), a + b, error)
    ensures r.dataLen == old(r.dataLen) - Min(a + b, old(r.dataLen))
    ensures SameButSizes(r.bios, Left(old(r.bios), a + b, error)) <==> !Carries(old(r.bios), a, b)
    ensures more && r.hasSector ==> (r.sector == old(r.sector) + (a + b) / 512 <==> a % 512 + b % 512 < 512)
    ensures !r.hasSector ==> r.sector == old(r.sector)
  {
    hide TallyOk, Left, EndedBios, SameButSizes, IsData, Into, TotalSize, Carries;
    more := r.Update(l, a, error);
    ghost var mid := r.bios;
    more := r.Update(l, b, error);
    TwoGoes(old(r.bios), a, b, error, mid, r.bios);
    DivCarry(a, b);
    Associative(old(r.ended), EndedBios(old(r.bios), a, error), EndedBios(mid, b, error));
  }

  lemma {:induction false} TwoGoes(bios: seq<Bio>, a: nat, b: nat, error: int, mid: seq<Bio>, end: seq<Bio>)
    requires AllData(bios) && SameButSizes(mid, Left(bios, a, error)) && SameButSizes(end, Left(mid, b, error))
    ensures EndedBios(bios, a, error) + EndedBios(mid, b, error) == EndedBios(bios, a + b, error)
    ensures SameButSizes(end, Left(bios, a + b, error)) <==> !Carries(bios, a, b)
  {
    hide Left, EndedBios, SameButSizes, IsData, Carries;
    var once, twice := Left(bios, a + b, error), Left(Left(bios, a, error), b, error);
    EndedEnded(bios, a, b, error);
    SizesDontMatter(mid, Left(bios, a, error), b, error);
    SameButTrans(end, Left(mid, b, error), twice);
    LeftLeftIff(bios, a, b, error);
    if Carries(bios, a, b) {
      CarriesDiffers(bios, a, b, error);
      SameButTrans(end, twice, twice) by { SameSelf(twice); }
      if SameButSizes(end, once) { SameButTrans(twice, end, once); }
    }
  }

  lemma {:induction false} SameSelf(x: seq<Bio>)
    ensures SameButSizes(x, x)
  {
  }
}
