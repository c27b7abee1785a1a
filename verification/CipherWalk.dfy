/** How the cipher walk divides a request that lies scattered over pages, and what that means for the
    data: every division is a legal one, unless the walk stops for want of a bounce page. */
module CipherWalk {
  import opened ByteXor
  import opened Cbc
  import opened Multiples
  import opened Numbers

  const PAGE_SIZE := 4096

  /** An entry of a scatterlist: where it begins, counted from the start of its first page, and its
      length. */
  datatype Extent = Extent(offset: nat, length: nat)

  function Length(sg: seq<Extent>): nat { if sg == [] then 0 else sg[0].length + Length(sg[1..]) }

  /** What is left of the entry that holds byte `at`, from that byte on. */
  function Here(sg: seq<Extent>, at: nat): (r: Extent)
    requires at < Length(sg)
    ensures r.length > 0
  {
    if at < sg[0].length then Extent(sg[0].offset + at, sg[0].length - at) else Here(sg[1..], at - sg[0].length)
  }

  /** Bytes from `at` on that lie in one piece: to the end of the entry or of the page. */
  function PageLen(sg: seq<Extent>, at: nat): (n: nat)
    requires at < Length(sg)
    ensures n > 0 && n <= Here(sg, at).length && Here(sg, at).offset % PAGE_SIZE + n <= PAGE_SIZE
  {
    Min(PAGE_SIZE - Here(sg, at).offset % PAGE_SIZE, Here(sg, at).length)
  }

  type Align = n: nat | n > 0 witness 1

  predicate Aligned(sg: seq<Extent>, at: nat, align: Align)
    requires at < Length(sg)
  {
    Here(sg, at).offset % align == 0
  }

  /** A request: source and destination lists of the same length. */
  datatype Request = Request(src: seq<Extent>, dst: seq<Extent>, total: nat, align: Align)

  predicate Whole(rq: Request) { Length(rq.src) == rq.total == Length(rq.dst) }

  predicate Straight(rq: Request, at: nat)
    requires Whole(rq) && at < rq.total
  {
    Aligned(rq.src, at, rq.align) && Aligned(rq.dst, at, rq.align)
  }

  /** Bytes from `at` on that lie in one piece on both sides. */
  function Piece(rq: Request, at: nat): (n: nat)
    requires Whole(rq) && at < rq.total
    ensures 0 < n <= rq.total - at
  {
    Min(Min(rq.total - at, PageLen(rq.src, at)), PageLen(rq.dst, at))
  }

  /** The next chunk: what lies in one piece if that is a block at least, else a single block gathered
      together. */
  function ChunkAt(rq: Request, at: nat, bs: nat): Chunk
    requires Whole(rq) && at < rq.total
  {
    if Piece(rq, at) < bs then Chunk(bs, Slow)
    else Chunk(Piece(rq, at), if Straight(rq, at) then Fast else Bounce)
  }

  /** Where the walk goes on: behind the whole blocks of the chunk. */
  function NextAt(rq: Request, at: nat, bs: nat): (r: nat)
    requires Whole(rq) && bs > 0 && at + bs <= rq.total
    ensures at < r <= rq.total && r == at + Floor(ChunkAt(rq, at, bs).n, bs)
    ensures bs <= ChunkAt(rq, at, bs).n <= rq.total - at
  {
    var n := ChunkAt(rq, at, bs).n;
    FloorIsMod(n, bs);
    at + (n - n % bs)
  }

  datatype Plan = Plan(chunks: seq<Chunk>, stopped: bool)

  /** The walk from byte `at` on.  Unaligned data needs a bounce page; if there is none (`page`), the
      walk hands out an empty chunk, and the driver takes that for the end. */
  function Walk(rq: Request, at: nat, bs: nat, page: bool): Plan
    requires Whole(rq) && at <= rq.total && bs > 0
    decreases rq.total - at
  {
    if rq.total < at + bs then Plan([], false)
    else if !Straight(rq, at) && !page then Plan([], true)
    else
      var rest := Walk(rq, NextAt(rq, at, bs), bs, page);
      Plan([ChunkAt(rq, at, bs)] + rest.chunks, rest.stopped)
  }

  /** Every division is legal, and complete unless the walk stops. */
  lemma {:induction false} WalkFits(rq: Request, at: nat, bs: nat, page: bool)
    requires Whole(rq) && at <= rq.total && bs > 0
    ensures var r := Walk(rq, at, bs, page);
      && Legal(r.chunks, rq.total - at, bs) && (!r.stopped ==> Fits(r.chunks, rq.total - at, bs))
      && (r.stopped ==> !page && rq.total - at >= Served(r.chunks, bs) + bs)
    decreases rq.total - at
  {
    hide Straight, Floor, NextAt, ChunkAt, Legal, Fits, Served;
    if rq.total < at + bs {
      NoChunks(rq.total - at, bs);
    } else if page || Straight(rq, at) {
      var c, next := ChunkAt(rq, at, bs), NextAt(rq, at, bs);
      WalkFits(rq, next, bs, page);
      SlowIsBlock(rq, at, bs);
      OneMore(c, Walk(rq, next, bs, page).chunks, rq.total - at, bs);
    } else {
      NoChunks(rq.total - at, bs);
    }
  }

  lemma {:induction false} NoChunks(total: nat, bs: nat)
    requires bs > 0
    ensures Legal([], total, bs) && Served([], bs) == 0 && (total < bs ==> Fits([], total, bs))
  {
  }

  lemma {:induction false} SlowIsBlock(rq: Request, at: nat, bs: nat)
    requires Whole(rq) && at < rq.total
    ensures var c := ChunkAt(rq, at, bs); c.via == Slow ==> c.n == bs
  {
  }

  lemma {:induction false} OneMore(c: Chunk, rest: seq<Chunk>, total: nat, bs: nat)
    requires bs > 0 && bs <= c.n <= total && (c.via == Slow ==> c.n == bs)
    requires Legal(rest, total - Floor(c.n, bs), bs)
    ensures Legal([c] + rest, total, bs) && Served([c] + rest, bs) == Floor(c.n, bs) + Served(rest, bs)
    ensures Fits(rest, total - Floor(c.n, bs), bs) ==> Fits([c] + rest, total, bs)
  {
    hide Floor;
    assert ([c] + rest)[1..] == rest;
  }

  // ----- when the walk stops

  /** The places where the chunks begin. */
  ghost predicate StartsChunk(chunks: seq<Chunk>, k: nat, bs: nat, at: nat)
    requires bs > 0
  {
    k < |chunks| && at == Served(chunks[..k], bs)
  }

  /** Some chunk of the full walk begins where the data is not aligned. */
  ghost predicate Crooked(rq: Request, from: nat, bs: nat)
    requires Whole(rq) && from <= rq.total && bs > 0
  {
    exists k: nat, at: nat :: StartsChunk(Walk(rq, from, bs, true).chunks, k, bs, at) && from + at < rq.total &&
                              !Straight(rq, from + at)
  }

  lemma {:induction false} CrookedNow(rq: Request, from: nat, bs: nat)
    requires Whole(rq) && bs > 0 && from + bs <= rq.total && !Straight(rq, from)
    ensures Crooked(rq, from, bs)
  {
    hide Straight, NextAt, ChunkAt;
    var chunks := Walk(rq, from, bs, true).chunks;
    assert chunks[..0] == [];
    assert StartsChunk(chunks, 0, bs, 0);
  }

  /** A chunk after the first one is a chunk of the rest. */
  lemma {:induction false} ChunkOfRest(c: Chunk, rest: seq<Chunk>, k: nat, bs: nat, at: nat)
    requires bs > 0
    ensures StartsChunk([c] + rest, k + 1, bs, Floor(c.n, bs) + at) <==> StartsChunk(rest, k, bs, at)
  {
    hide Floor, Served;
    if k < |rest| { ServedCons(c, rest, k + 1, bs); }
  }

  lemma {:induction false} WalkCons(rq: Request, from: nat, bs: nat)
    requires Whole(rq) && bs > 0 && from + bs <= rq.total
    ensures var c := ChunkAt(rq, from, bs);
      && NextAt(rq, from, bs) == from + Floor(c.n, bs)
      && Walk(rq, from, bs, true).chunks == [c] + Walk(rq, NextAt(rq, from, bs), bs, true).chunks
  {
    hide Straight, NextAt, ChunkAt, Floor;
  }

  /** A crooked chunk of the full walk is not its first if that is straight. */
  lemma {:induction false} CrookedRest(rq: Request, from: nat, bs: nat, k: nat, at: nat)
    requires Whole(rq) && bs > 0 && from + bs <= rq.total && Straight(rq, from)
    requires StartsChunk(Walk(rq, from, bs, true).chunks, k, bs, at) && from + at < rq.total
    requires !Straight(rq, from + at)
    ensures Crooked(rq, NextAt(rq, from, bs), bs)
  {
    hide Walk, Straight, NextAt, ChunkAt, Floor, StartsChunk, Whole;
    var c, next := ChunkAt(rq, from, bs), NextAt(rq, from, bs);
    var rest := Walk(rq, next, bs, true).chunks;
    WalkCons(rq, from, bs);
    FirstChunk([c] + rest, k, bs, at);
    var at' := BehindFirst(c, rest, k, bs, at);
    ChunkOfRest(c, rest, k - 1, bs, at');
    assert StartsChunk(rest, k - 1, bs, at');
  }

  lemma {:induction false} CrookedLater(rq: Request, from: nat, bs: nat)
    requires Whole(rq) && bs > 0 && from + bs <= rq.total && Straight(rq, from)
    ensures Crooked(rq, from, bs) <==> Crooked(rq, NextAt(rq, from, bs), bs)
  {
    hide Walk, Straight, NextAt, ChunkAt, Floor, StartsChunk, Whole;
    var c, next := ChunkAt(rq, from, bs), NextAt(rq, from, bs);
    if Crooked(rq, from, bs) {
      var k: nat, at: nat :| StartsChunk(Walk(rq, from, bs, true).chunks, k, bs, at) && from + at < rq.total &&
                             !Straight(rq, from + at);
      CrookedRest(rq, from, bs, k, at);
    }
    if Crooked(rq, next, bs) {
      var rest := Walk(rq, next, bs, true).chunks;
      var k: nat, at: nat :| StartsChunk(rest, k, bs, at) && next + at < rq.total && !Straight(rq, next + at);
      WalkCons(rq, from, bs);
      ChunkOfRest(c, rest, k, bs, at);
      assert StartsChunk([c] + rest, k + 1, bs, Floor(c.n, bs) + at);
    }
  }

  lemma {:induction false} FirstChunk(chunks: seq<Chunk>, k: nat, bs: nat, at: nat)
    requires bs > 0 && StartsChunk(chunks, k, bs, at)
    ensures k == 0 ==> at == 0
  {
    assert chunks[..0] == [];
  }

  lemma {:induction false} BehindFirst(c: Chunk, rest: seq<Chunk>, k: nat, bs: nat, at: nat) returns (at': nat)
    requires bs > 0 && StartsChunk([c] + rest, k, bs, at) && k > 0
    ensures at == Floor(c.n, bs) + at'
  {
    hide Floor, Served;
    ServedCons(c, rest, k, bs);
    at' := at - Floor(c.n, bs);
  }

  lemma {:induction false} ServedCons(c: Chunk, rest: seq<Chunk>, k: nat, bs: nat)
    requires bs > 0 && 0 < k <= |rest| + 1
    ensures Served(([c] + rest)[..k], bs) == Floor(c.n, bs) + Served(rest[..k - 1], bs)
  {
    hide Floor;
    assert ([c] + rest)[..k] == [c] + rest[..k - 1];
    assert ([c] + rest[..k - 1])[1..] == rest[..k - 1];
  }

  // ----- where the chunks lie

  /** The n bytes from `at` on lie in one entry and on one page. */
  predicate OnePiece(sg: seq<Extent>, at: nat, n: nat)
    requires at < Length(sg)
  {
    n <= Here(sg, at).length && Here(sg, at).offset % PAGE_SIZE + n <= PAGE_SIZE
  }

  predicate BothInPiece(rq: Request, at: nat, n: nat)
    requires Whole(rq) && at < rq.total
  {
    n <= rq.total - at && OnePiece(rq.src, at, n) && OnePiece(rq.dst, at, n)
  }

  /** A chunk at `at` is what lies in one piece on both sides, and as long as that goes; a block is gathered
      exactly if it does not, and copied through a page exactly if it does but is not aligned. */
  ghost predicate RightChunk(rq: Request, at: nat, bs: nat, c: Chunk)
    requires Whole(rq) && at < rq.total
  {
    && (c.via == Slow <==> !BothInPiece(rq, at, bs)) && (c.via == Slow ==> c.n == bs)
    && (c.via != Slow ==> BothInPiece(rq, at, c.n) && !BothInPiece(rq, at, c.n + 1))
    && (c.via == Fast ==> Here(rq.src, at).offset % rq.align == 0 && Here(rq.dst, at).offset % rq.align == 0)
    && (c.via == Bounce ==> !(Here(rq.src, at).offset % rq.align == 0 && Here(rq.dst, at).offset % rq.align == 0))
  }

  lemma {:induction false} PieceIs(sg: seq<Extent>, at: nat, n: nat)
    requires at < Length(sg)
    ensures OnePiece(sg, at, n) <==> n <= PageLen(sg, at)
  {
    hide Here;
  }

  lemma {:induction false} ChunkRight(rq: Request, at: nat, bs: nat)
    requires Whole(rq) && at < rq.total
    ensures RightChunk(rq, at, bs, ChunkAt(rq, at, bs))
  {
    var n := ChunkAt(rq, at, bs).n;
    PieceIs(rq.src, at, bs);
    PieceIs(rq.dst, at, bs);
    PieceIs(rq.src, at, n);
    PieceIs(rq.dst, at, n);
    PieceIs(rq.src, at, n + 1);
    PieceIs(rq.dst, at, n + 1);
    hide OnePiece, PageLen, Here, Length;
  }

  lemma {:induction false} WalkStarts(rq: Request, from: nat, bs: nat, page: bool)
    requires Whole(rq) && from <= rq.total && bs > 0 && Walk(rq, from, bs, page).chunks != []
    ensures from + bs <= rq.total && NextAt(rq, from, bs) == from + Floor(ChunkAt(rq, from, bs).n, bs)
    ensures Walk(rq, from, bs, page).chunks ==
      [ChunkAt(rq, from, bs)] + Walk(rq, NextAt(rq, from, bs), bs, page).chunks
  {
    hide Straight, NextAt, ChunkAt, Floor;
  }

  /** Every chunk of every walk is the right one for where it begins. */
  lemma {:induction false} ChunksRight(rq: Request, from: nat, bs: nat, page: bool, k: nat, at: nat)
    requires Whole(rq) && from <= rq.total && bs > 0 && StartsChunk(Walk(rq, from, bs, page).chunks, k, bs, at)
    ensures from + at < rq.total && RightChunk(rq, from + at, bs, Walk(rq, from, bs, page).chunks[k])
    decreases k
  {
    hide Walk, Straight, NextAt, ChunkAt, Floor, RightChunk, Whole, StartsChunk;
    InList(Walk(rq, from, bs, page).chunks, k, bs, at);
    WalkStarts(rq, from, bs, page);
    var c, next := ChunkAt(rq, from, bs), NextAt(rq, from, bs);
    var rest := Walk(rq, next, bs, page).chunks;
    FirstChunk([c] + rest, k, bs, at);
    if k == 0 {
      ChunkRight(rq, from, bs);
    } else {
      var at' := BehindFirst(c, rest, k, bs, at);
      ChunkOfRest(c, rest, k - 1, bs, at');
      ChunksRight(rq, next, bs, page, k - 1, at');
    }
  }

  lemma {:induction false} InList(chunks: seq<Chunk>, k: nat, bs: nat, at: nat)
    requires bs > 0 && StartsChunk(chunks, k, bs, at)
    ensures k < |chunks|
  {
    hide Served;
  }

  /** It stops exactly if there is no page and some chunk needs one. */
  lemma {:induction false} StopsIff(rq: Request, from: nat, bs: nat, page: bool)
    requires Whole(rq) && from <= rq.total && bs > 0
    ensures Walk(rq, from, bs, page).stopped <==> !page && Crooked(rq, from, bs)
    decreases rq.total - from
  {
    hide Straight, NextAt, ChunkAt, StartsChunk;
    if rq.total < from + bs {
      NothingStarts(Walk(rq, from, bs, true).chunks, bs);
    } else if !Straight(rq, from) {
      CrookedNow(rq, from, bs);
      if page { WalkFits(rq, from, bs, page); }
    } else {
      CrookedLater(rq, from, bs);
      StopsIff(rq, NextAt(rq, from, bs), bs, page);
      hide Crooked;
    }
  }

  lemma {:induction false} NothingStarts(chunks: seq<Chunk>, bs: nat)
    requires bs > 0 && chunks == []
    ensures forall k: nat, at: nat :: !StartsChunk(chunks, k, bs, at)
  {
  }

  // ----- the driver over the walk

  /** Encrypts or decrypts a scattered request.  If the walk does not stop, all whole blocks are done,
      and success means that there is nothing else.  If it stops, success is reported although at least
      a block has not been touched. */
  method CryptRequest(m: Mode, bs: nat, rq: Request, src: array<Byte>, dst: array<Byte>, iv: array<Byte>, page: bool)
    returns (ok: bool)
    requires bs > 0 && Usable(m, bs) && iv.Length == bs && src.Length == dst.Length && iv != src && iv != dst
    requires Whole(rq) && rq.total == src.Length
    modifies dst, iv
    ensures var done := Served(Walk(rq, 0, bs, page).chunks, bs);
      && done <= src.Length
      && Wrote(old(dst[..]), dst[..], 0, Chained(m, bs, old(iv[..]), old(src[..done])))
      && iv[..] == IvAfter(m, bs, old(iv[..]), old(src[..done]))
      && (if !page && Crooked(rq, 0, bs) then ok && done + bs <= src.Length
          else done == Floor(src.Length, bs) && (ok <==> Multiple(src.Length, bs)))
  {
    hide Usable, Wrote, Chained, IvAfter, Multiple, Legal, Fits, Served, Floor, Walk, Crooked;
    StopsIff(rq, 0, bs, page);
    WalkFits(rq, 0, bs, page);
    var plan := Walk(rq, 0, bs, page);
    if !plan.stopped { FitsServes(plan.chunks, src.Length, bs); }
    var at := CryptChunks(m, bs, src, dst, iv, plan.chunks);
    ok := plan.stopped || at == src.Length;
    FloorFull(src.Length, bs);
  }

  lemma {:induction false} FloorFull(n: nat, bs: nat)
    requires bs > 0
    ensures Floor(n, bs) == n <==> Multiple(n, bs)
  {
  }

  /** One misaligned byte is enough: a single block at an odd offset, and no page. */
  lemma {:induction false} SilentStop()
    ensures var rq := Request([Extent(1, 16)], [Extent(0, 16)], 16, 4);
      Whole(rq) && Crooked(rq, 0, 16) && Walk(rq, 0, 16, false) == Plan([], true)
  {
    var rq := Request([Extent(1, 16)], [Extent(0, 16)], 16, 4);
    assert Length(rq.src) == 16 && Length(rq.dst) == 16;
    CrookedNow(rq, 0, 16);
  }
}
