/** Partial completion of a request: what finishing the first n bytes leaves behind. */
module Completion {
  import opened Segments
  import opened RequestGeometry

  const EIO := 5

  // ----- bytes

  function Span(v: Vec): seq<int> { seq(v.len, i => Phys(v) + i) }

  /** The physical addresses a list of vectors covers, in order. */
  function Addrs(vs: seq<Vec>): (r: seq<int>)
    ensures |r| == Total(vs)
  {
    if vs == [] then [] else Span(vs[0]) + Addrs(vs[1..])
  }

  function Bytes(bios: seq<Bio>): seq<int> { if bios == [] then [] else Addrs(bios[0].vecs) + Bytes(bios[1..]) }

  // ----- advancing

  function Trim(v: Vec, n: nat): Vec
    requires n <= v.len
  {
    v.(offset := v.offset + n, len := v.len - n)
  }

  /** Skips n bytes of a vector list, vector by vector. */
  function Skip(vs: seq<Vec>, n: nat): (r: seq<Vec>) {
    if vs == [] then []
    else if vs[0].len <= n then Skip(vs[1..], n - vs[0].len)
    else [Trim(vs[0], n)] + vs[1..]
  }

  /** How many whole vectors the first n bytes cover. */
  function Whole(vs: seq<Vec>, n: nat): (k: nat)
    ensures k <= |vs|
  {
    if vs == [] || vs[0].len > n then 0 else 1 + Whole(vs[1..], n - vs[0].len)
  }

  /** A bio with its first n bytes done: the index moves past whole vectors, the next one is trimmed. */
  function AdvanceBio(b: Bio, n: nat, error: int): Bio
    requires n <= b.size
  {
    if n == 0 then b
    else
      b.(idx := b.idx + Whole(b.vecs, n), vecs := Skip(b.vecs, n), size := b.size - n,
         uptodate := b.uptodate && error == 0)
  }

  /** The bios left after n bytes: whole ones drop off, the first one left is advanced. */
  function Advance(bios: seq<Bio>, n: nat, error: int): (r: seq<Bio>) {
    if bios == [] then []
    else if bios[0].size <= n then Advance(bios[1..], n - bios[0].size, error)
    else [AdvanceBio(bios[0], n, error)] + bios[1..]
  }

  /** How many of the n bytes fall into the first bio that is left. */
  function Into(bios: seq<Bio>, n: nat): nat {
    if bios == [] then 0 else if bios[0].size <= n then Into(bios[1..], n - bios[0].size) else n
  }

  /** The sector number of the first bio left moves by the whole sectors done in it. */
  function MoveSector(bios: seq<Bio>, sectors: nat): seq<Bio> {
    if bios == [] then [] else [bios[0].(sector := bios[0].sector + sectors)] + bios[1..]
  }

  /** The bios ended by n bytes, each with the error it is ended with. */
  function EndedBios(bios: seq<Bio>, n: nat, error: int): seq<(nat, int)> {
    if bios == [] || bios[0].size > n then []
    else [(bios[0].id, EndError(bios[0], error))] + EndedBios(bios[1..], n - bios[0].size, error)
  }

  /** A bio that saw an error before ends with one even if its last bytes went well. */
  function EndError(b: Bio, error: int): int { if error == 0 && !b.uptodate then -EIO else error }

  function TotalSize(bios: seq<Bio>): nat { if bios == [] then 0 else bios[0].size + TotalSize(bios[1..]) }

  // ----- vector lists

  lemma {:induction false} SkipShape(vs: seq<Vec>, n: nat)
    requires n < Total(vs)
    ensures Whole(vs, n) < |vs|
    ensures 0 <= n - Total(vs[..Whole(vs, n)]) < vs[Whole(vs, n)].len
    ensures Skip(vs, n) == [Trim(vs[Whole(vs, n)], n - Total(vs[..Whole(vs, n)]))] + vs[Whole(vs, n) + 1..]
  {
    if vs[0].len <= n {
      var m := n - vs[0].len;
      SkipShape(vs[1..], m);
      var k := Whole(vs[1..], m);
      assert vs[..k + 1][1..] == vs[1..][..k] && vs[..k + 1][0] == vs[0];
      assert vs[1..][k + 1..] == vs[k + 2..];
    } else {
      assert vs[..0] == [];
    }
  }

  lemma {:induction false} DropLong<T>(x: seq<T>, y: seq<T>, n: nat)
    requires |x| <= n <= |x| + |y|
    ensures (x + y)[n..] == y[n - |x|..]
  {
  }

  lemma {:induction false} DropShort<T>(x: seq<T>, y: seq<T>, n: nat)
    requires n <= |x|
    ensures (x + y)[n..] == x[n..] + y
  {
  }

  lemma {:induction false} SkipAddrs(vs: seq<Vec>, n: nat)
    requires n < Total(vs)
    ensures Addrs(Skip(vs, n)) == Addrs(vs)[n..]
  {
    if vs[0].len <= n {
      SkipAddrs(vs[1..], n - vs[0].len);
      DropLong(Span(vs[0]), Addrs(vs[1..]), n);
    } else {
      assert ([Trim(vs[0], n)] + vs[1..])[1..] == vs[1..];
      assert Span(Trim(vs[0], n)) == Span(vs[0])[n..];
      DropShort(Span(vs[0]), Addrs(vs[1..]), n);
    }
  }

  lemma {:induction false} SkipPositive(vs: seq<Vec>, n: nat)
    requires n < Total(vs) && Positive(vs)
    ensures Positive(Skip(vs, n))
  {
    if vs[0].len <= n {
      assert Positive(vs[1..]);
      SkipPositive(vs[1..], n - vs[0].len);
    }
  }

  lemma {:induction false} SkipSkip(vs: seq<Vec>, a: nat, b: nat)
    requires a + b < Total(vs) && Positive(vs)
    ensures Skip(Skip(vs, a), b) == Skip(vs, a + b)
    ensures Whole(vs, a) + Whole(Skip(vs, a), b) == Whole(vs, a + b)
  {
    if vs[0].len <= a {
      assert Positive(vs[1..]);
      SkipSkip(vs[1..], a - vs[0].len, b);
    } else {
      var s := Skip(vs, a);
      assert s[1..] == vs[1..];
    }
  }

  // ----- one bio

  lemma {:induction false} AdvanceBioFacts(b: Bio, n: nat, error: int)
    requires IsData(b) && n < b.size
    ensures var r := AdvanceBio(b, n, error);
      IsData(r) && r.size == b.size - n && r.vecs == Skip(b.vecs, n)
  {
    SkipShape(b.vecs, n);
    SkipPositive(b.vecs, n);
    SkipAddrs(b.vecs, n);
    SkipNone(b.vecs);
  }

  lemma {:induction false} SkipNone(vs: seq<Vec>)
    requires Positive(vs)
    ensures Skip(vs, 0) == vs && Whole(vs, 0) == 0
  {
    if vs != [] { assert vs[0] in vs && Trim(vs[0], 0) == vs[0]; }
  }

  // ----- the whole request

  lemma {:induction false} TailData(bios: seq<Bio>)
    requires AllData(bios) && bios != []
    ensures IsData(bios[0]) && AllData(bios[1..])
  {
    forall i | 0 <= i < |bios[1..]| ensures IsData(bios[1..][i]) { assert bios[1..][i] == bios[i + 1]; }
  }

  lemma {:induction false} BytesLength(bios: seq<Bio>)
    requires AllData(bios)
    ensures |Bytes(bios)| == TotalSize(bios)
  {
    if bios != [] {
      TailData(bios);
      BytesLength(bios[1..]);
    }
  }

  lemma {:induction false} BytesCons(b: Bio, rest: seq<Bio>)
    ensures Bytes([b] + rest) == Addrs(b.vecs) + Bytes(rest)
  {
    assert ([b] + rest)[1..] == rest;
  }

  lemma {:induction false} AdvanceSizes(bios: seq<Bio>, n: nat, error: int)
    requires AllData(bios) && n <= TotalSize(bios)
    ensures AllData(Advance(bios, n, error))
    ensures TotalSize(Advance(bios, n, error)) == TotalSize(bios) - n
    ensures Advance(bios, n, error) == [] <==> n == TotalSize(bios)
  {
    if bios != [] {
      TailData(bios);
      if bios[0].size <= n {
        AdvanceSizes(bios[1..], n - bios[0].size, error);
      } else {
        AdvanceBioFacts(bios[0], n, error);
        var a := AdvanceBio(bios[0], n, error);
        assert ([a] + bios[1..])[1..] == bios[1..];
        AllDataConcat([a], bios[1..]);
      }
    }
  }

  lemma {:induction false} AdvanceInFirst(b: Bio, rest: seq<Bio>, n: nat, error: int)
    requires IsData(b) && n < b.size
    ensures Bytes([AdvanceBio(b, n, error)] + rest) == (Addrs(b.vecs) + Bytes(rest))[n..]
  {
    AdvanceBioFacts(b, n, error);
    SkipAddrs(b.vecs, n);
    BytesCons(AdvanceBio(b, n, error), rest);
    DropShort(Addrs(b.vecs), Bytes(rest), n);
  }

  /** Completing n bytes drops exactly the first n bytes. */
  lemma {:induction false} AdvanceDropsPrefix(bios: seq<Bio>, n: nat, error: int)
    requires AllData(bios) && n <= TotalSize(bios)
    ensures |Bytes(bios)| == TotalSize(bios)
    ensures Bytes(Advance(bios, n, error)) == Bytes(bios)[n..]
  {
    BytesLength(bios);
    if bios != [] {
      TailData(bios);
      if bios[0].size <= n {
        AdvanceDropsPrefix(bios[1..], n - bios[0].size, error);
        DropLong(Addrs(bios[0].vecs), Bytes(bios[1..]), n);
      } else {
        AdvanceInFirst(bios[0], bios[1..], n, error);
      }
    }
  }

  lemma {:induction false} AdvanceBioTwice(x: Bio, a: nat, b: nat, error: int)
    requires IsData(x) && a + b < x.size
    ensures IsData(AdvanceBio(x, a, error)) && b < AdvanceBio(x, a, error).size
    ensures AdvanceBio(AdvanceBio(x, a, error), b, error) == AdvanceBio(x, a + b, error)
  {
    AdvanceBioFacts(x, a, error);
    SkipSkip(x.vecs, a, b);
  }
}
