/** Requests under construction: whatever is merged with whatever, in any order, a request never
    needs more scatterlist entries than it has counted, and what merging made is within the limits. */
module MergeHistory {
  import opened Segments
  import opened RequestGeometry
  import opened Completion
  import opened BlockRequest
  import opened Scatterlist

  /** The requests being built, by name. */
  type Pool = map<nat, Chain>

  /** The steps that build requests.  `bio` is the bio as submitted; `counted`, `tail` and `head` are
      bios after the recount the step may make. */
  datatype Op =
    | New(id: nat, bio: Bio, counted: Bio)
    | Back(id: nat, bio: Bio, tail: Bio, counted: Bio)
    | Front(id: nat, bio: Bio, head: Bio, counted: Bio)
    | Join(id: nat, next: nat)

  ghost predicate Possible(l: Limits, pool: Pool, op: Op) {
    match op
    case New(id, bio, counted) => id !in pool && Mergeable(l, bio) && Fresh(l, bio, counted)
    case Back(id, bio, tail, counted) =>
      && id in pool && pool[id].bios != [] && Mergeable(l, bio)
      && Fresh(l, pool[id].bios[|pool[id].bios| - 1], tail) && Fresh(l, bio, counted)
    case Front(id, bio, head, counted) =>
      && id in pool && pool[id].bios != [] && Mergeable(l, bio)
      && Fresh(l, pool[id].bios[0], head) && Fresh(l, bio, counted)
    case Join(id, next) =>
      && id != next && id in pool && next in pool
      && pool[id].bios != [] && pool[next].bios != []
      && pool[id].bios[|pool[id].bios| - 1].vecs != [] && pool[next].bios[0].vecs != []
  }

  /** A join that goes through uses up the second request; one that is refused keeps both. */
  ghost function After(l: Limits, pool: Pool, op: Op): Pool
    requires Possible(l, pool, op)
  {
    match op
    case New(id, bio, counted) => pool[id := Chain([counted], counted.segs, counted.size, counted.sector, false)]
    case Back(id, bio, tail, counted) => pool[id := BackMerged(l, pool[id], tail, counted).1]
    case Front(id, bio, head, counted) => pool[id := FrontMerged(l, pool[id], head, counted).1]
    case Join(id, next) =>
      var (ok, c, d) := Absorbed(l, pool[id], pool[next]);
      if ok then (pool - {next})[id := c] else pool[id := c][next := d]
  }

  ghost predicate PoolOk(l: Limits, pool: Pool) { forall id | id in pool :: ChainOk(l, pool[id]) }

  lemma {:induction false} NewOk(l: Limits, bio: Bio, counted: Bio)
    requires Mergeable(l, bio) && Fresh(l, bio, counted)
    ensures ChainOk(l, Chain([counted], counted.segs, counted.size, counted.sector, false))
  {
    hide TallyOk, Mergeable, AllMergeable, Rerecords;
    FreshFacts(l, bio, counted);
    AllMergeableOne(l, counted);
    assert [counted][1..] == [] && TotalSize([counted]) == counted.size;
  }

  lemma {:induction false} StepOk(l: Limits, pool: Pool, op: Op)
    requires PoolOk(l, pool) && Possible(l, pool, op)
    ensures PoolOk(l, After(l, pool, op))
  {
    hide ChainOk, Mergeable, Fresh, BackMerged, FrontMerged, Absorbed;
    match op
    case New(id, bio, counted) => NewOk(l, bio, counted);
    case Back(id, bio, tail, counted) => BackMergedOk(l, pool[id], bio, tail, counted);
    case Front(id, bio, head, counted) => FrontMergedOk(l, pool[id], bio, head, counted);
    case Join(id, next) => AbsorbedOk(l, pool[id], pool[next]);
  }

  ghost predicate History(l: Limits, pools: seq<Pool>, ops: seq<Op>) {
    && |pools| == |ops| + 1 && pools[0] == map[]
    && forall i | 0 <= i < |ops| :: Follows(l, pools[i], ops[i], pools[i + 1])
  }

  ghost predicate Follows(l: Limits, pool: Pool, op: Op, pool': Pool) {
    Possible(l, pool, op) && pool' == After(l, pool, op)
  }

  lemma {:induction false} HistoryOk(l: Limits, pools: seq<Pool>, ops: seq<Op>, k: nat)
    requires History(l, pools, ops) && k < |pools|
    ensures PoolOk(l, pools[k])
  {
    if k > 0 {
      HistoryOk(l, pools, ops, k - 1);
      assert Follows(l, pools[k - 1], ops[k - 1], pools[k]);
      StepOk(l, pools[k - 1], ops[k - 1]);
    }
  }

  /** The main result: at any point of any history, the scatterlist of any request is no longer than
      its count. */
  lemma {:induction false} MappedWithinCount(l: Limits, pools: seq<Pool>, ops: seq<Op>, k: nat, id: nat)
    requires History(l, pools, ops) && k < |pools| && id in pools[k]
    ensures Count(MappedCuts(l, Flat(pools[k][id].bios))) <= pools[k][id].nr
  {
    HistoryOk(l, pools, ops, k);
    MappedWithinTally(l, pools[k][id].bios, pools[k][id].nr);
  }

  // ----- the limits

  /** Bios of whole sectors, as file systems submit them. */
  ghost predicate AllWhole(bios: seq<Bio>) { forall i | 0 <= i < |bios| :: bios[i].size % 512 == 0 }

  /** A request that a merge made is within the limits; odd bytes may take it one sector over. */
  ghost predicate Capped(l: Limits, c: Chain) {
    |c.bios| > 1 ==>
      && c.nr <= l.maxSegments && c.bytes / 512 <= l.maxSectors + 1
      && (AllWhole(c.bios) ==> c.bytes / 512 <= l.maxSectors)
  }

  ghost predicate PoolCapped(l: Limits, pool: Pool) { forall id | id in pool :: Capped(l, pool[id]) }

  lemma {:induction false} WholeTotal(bios: seq<Bio>)
    requires AllWhole(bios)
    ensures TotalSize(bios) % 512 == 0
  {
    if bios != [] { WholeTotal(bios[1..]); }
  }

  /** The parts fit one by one; together they do not exactly if the odd bytes of both make up a sector that
      is not there. */
  lemma {:induction false} OddBytes(limit: nat, a: nat, b: nat)
    requires SectorsFit(limit, a, b)
    ensures (a + b) / 512 <= limit + 1
    ensures (a + b) / 512 > limit <==> a / 512 + b / 512 == limit && a % 512 + b % 512 >= 512
  {
    var x, y := a % 512, b % 512;
    assert (a + b) / 512 == a / 512 + b / 512 + (x + y) / 512;
  }

  lemma {:induction false} MergedCapped(l: Limits, r: Chain, a: nat, part: seq<Bio>)
    requires r.bytes == a + TotalSize(part) && SectorsFit(l.maxSectors, a, TotalSize(part)) && r.nr <= l.maxSegments
    requires AllWhole(r.bios) ==> AllWhole(part)
    ensures Capped(l, r)
  {
    OddBytes(l.maxSectors, a, TotalSize(part));
    if AllWhole(r.bios) { WholeTotal(part); }
  }

  lemma {:induction false} WholePart(a: seq<Bio>, b: seq<Bio>)
    requires AllWhole(a + b)
    ensures AllWhole(a) && AllWhole(b)
  {
    forall i | 0 <= i < |a| ensures a[i].size % 512 == 0 { assert (a + b)[i] == a[i]; }
    forall i | 0 <= i < |b| ensures b[i].size % 512 == 0 { assert (a + b)[|a| + i] == b[i]; }
  }

  /** A chain with one bio's record changed keeps the sizes. */
  lemma {:induction false} RecountCapped(l: Limits, c: Chain, c': Chain)
    requires Capped(l, c) && c'.nr == c.nr && c'.bytes == c.bytes && SameVecs(c'.bios, c.bios)
    ensures Capped(l, c')
  {
    if AllWhole(c'.bios) {
      forall i | 0 <= i < |c.bios| ensures c.bios[i].size % 512 == 0 { assert c'.bios[i].size == c.bios[i].size; }
    }
  }

  lemma {:induction false} ShortFits(l: Limits, a: nat, b: nat)
    requires a / 512 + b / 512 <= BioLimit(l)
    ensures SectorsFit(l.maxSectors, a, b)
  {
  }

  lemma {:induction false} BackCapped(l: Limits, c: Chain, bio: Bio, tail: Bio, b: Bio)
    requires Capped(l, c) && c.bios != [] && Fresh(l, c.bios[|c.bios| - 1], tail) && Fresh(l, bio, b)
    ensures Capped(l, BackMerged(l, c, tail, b).1)
  {
    FreshSame(l, c.bios[|c.bios| - 1], tail);
    FreshSame(l, bio, b);
    hide Fresh, Capped;
    var bios := c.bios[|c.bios| - 1 := tail];
    var r := BackMerged(l, c, tail, b);
    if r.0 {
      assert [b][1..] == [] && TotalSize([b]) == b.size;
      if AllWhole(bios + [b]) { WholePart(bios, [b]); }
      ShortFits(l, c.bytes, b.size);
      MergedCapped(l, r.1, c.bytes, [b]);
    } else {
      RecountCapped(l, c, r.1);
    }
  }

  lemma {:induction false} FrontCapped(l: Limits, c: Chain, bio: Bio, head: Bio, b: Bio)
    requires Capped(l, c) && c.bios != [] && Fresh(l, c.bios[0], head) && Fresh(l, bio, b)
    ensures Capped(l, FrontMerged(l, c, head, b).1)
  {
    FreshSame(l, c.bios[0], head);
    FreshSame(l, bio, b);
    hide Fresh, Capped;
    var bios := c.bios[0 := head];
    var r := FrontMerged(l, c, head, b);
    if r.0 {
      assert [b][1..] == [] && TotalSize([b]) == b.size;
      if AllWhole([b] + bios) { WholePart([b], bios); }
      ShortFits(l, c.bytes, b.size);
      MergedCapped(l, r.1, c.bytes, [b]);
    } else {
      RecountCapped(l, c, r.1);
    }
  }

  lemma {:induction false} SpliceCapped(l: Limits, c: Chain, d: Chain, total: nat)
    requires d.bytes == TotalSize(d.bios) && SectorsFit(l.maxSectors, c.bytes, d.bytes) && Capped(l, c) && Capped(l, d)
    ensures var (ok, r, u) := Splice(l, c, d, total); Capped(l, r) && (!ok ==> Capped(l, u))
  {
    hide Capped, SectorsFit;
    if total <= l.maxSegments {
      if AllWhole(c.bios + d.bios) { WholePart(c.bios, d.bios); }
      MergedCapped(l, c.(bios := c.bios + d.bios, nr := total, bytes := c.bytes + d.bytes), c.bytes, d.bios);
    }
  }

  lemma {:induction false} GluedCapped(l: Limits, c: Chain, d: Chain)
    requires Capped(l, c) && Capped(l, d) && d.bytes == TotalSize(d.bios) && SectorsFit(l.maxSectors, c.bytes, d.bytes)
    requires c.bios != [] && d.bios != []
    ensures var (ok, r, u) := Glued(l, c, d); Capped(l, r) && (!ok ==> Capped(l, u))
  {
    hide Capped, SectorsFit, Splice;
    var size := c.bios[|c.bios| - 1].back + d.bios[0].front;
    var a, b := JoinedFront(c.bios, c.nr, size), JoinedBack(d.bios, d.nr, size);
    RecountCapped(l, c, c.(bios := a));
    RecountCapped(l, d, d.(bios := b));
    SameVecsSize(d.bios, b);
    hide JoinedFront, JoinedBack;
    SpliceCapped(l, c.(bios := a), d.(bios := b), if c.nr + d.nr > 0 then c.nr + d.nr - 1 else 0);
  }

  lemma {:induction false} JoinCapped(l: Limits, c: Chain, d: Chain)
    requires Capped(l, c) && Capped(l, d) && d.bytes == TotalSize(d.bios)
    requires c.bios != [] && d.bios != [] && c.bios[|c.bios| - 1].vecs != [] && d.bios[0].vecs != []
    ensures var (ok, r, u) := Absorbed(l, c, d); Capped(l, r) && (!ok ==> Capped(l, u))
  {
    hide Capped, SectorsFit, Contiguous, Splice, Glued;
    SectorsMean(l.maxSectors, c.bytes, d.bytes);
    if SectorsFit(l.maxSectors, c.bytes, d.bytes) {
      GluedCapped(l, c, d);
      SpliceCapped(l, c, d, c.nr + d.nr);
    }
  }

  lemma {:induction false} StepCapped(l: Limits, pool: Pool, op: Op)
    requires PoolOk(l, pool) && PoolCapped(l, pool) && Possible(l, pool, op)
    ensures PoolCapped(l, After(l, pool, op))
  {
    hide Mergeable, AllMergeable, TallyOk, Fresh, BackMerged, FrontMerged, Absorbed;
    match op
    case New(id, bio, counted) =>
    case Back(id, bio, tail, counted) =>
      hide Capped, ChainOk;
      BackCapped(l, pool[id], bio, tail, counted);
    case Front(id, bio, head, counted) =>
      hide Capped, ChainOk;
      FrontCapped(l, pool[id], bio, head, counted);
    case Join(id, next) =>
      assert pool[next].bytes == TotalSize(pool[next].bios) by { assert ChainOk(l, pool[next]); }
      hide Capped, ChainOk;
      JoinCapped(l, pool[id], pool[next]);
  }

  /** At any point of any history, every request made by a merge is within the segment limit and, if its
      bios are of whole sectors, within the sector limit; if not, at most one sector above it. */
  lemma {:induction false} MergedWithinLimits(l: Limits, pools: seq<Pool>, ops: seq<Op>, k: nat, id: nat)
    requires History(l, pools, ops) && k < |pools| && id in pools[k] && |pools[k][id].bios| > 1
    ensures pools[k][id].nr <= l.maxSegments && pools[k][id].bytes / 512 <= l.maxSectors + 1
    ensures AllWhole(pools[k][id].bios) ==> pools[k][id].bytes / 512 <= l.maxSectors
  {
    HistoryCapped(l, pools, ops, k);
  }

  lemma {:induction false} FollowsCapped(l: Limits, pool: Pool, op: Op, pool': Pool)
    requires PoolOk(l, pool) && PoolCapped(l, pool) && Follows(l, pool, op, pool')
    ensures PoolCapped(l, pool')
  {
    hide PoolOk, PoolCapped, Possible, After;
    StepCapped(l, pool, op);
  }

  lemma {:induction false} EmptyCapped(l: Limits)
    ensures PoolCapped(l, map[])
  {
  }

  lemma {:induction false} HistoryStep(l: Limits, pools: seq<Pool>, ops: seq<Op>, k: nat)
    requires History(l, pools, ops) && k < |ops|
    ensures Follows(l, pools[k], ops[k], pools[k + 1])
  {
    hide Follows;
  }

  lemma {:induction false} HistoryCapped(l: Limits, pools: seq<Pool>, ops: seq<Op>, k: nat)
    requires |pools| == |ops| + 1 && pools[0] == map[] && History(l, pools, ops) && k < |pools|
    ensures PoolCapped(l, pools[k])
  {
    hide PoolOk, PoolCapped, Follows, History;
    EmptyCapped(l);
    if k > 0 {
      HistoryOk(l, pools, ops, k - 1);
      HistoryCapped(l, pools, ops, k - 1);
      HistoryStep(l, pools, ops, k - 1);
      FollowsCapped(l, pools[k - 1], ops[k - 1], pools[k]);
    }
  }

  /** After the history, some merged request has more sectors than the limit. */
  ghost predicate Exceeds(l: Limits, pools: seq<Pool>, ops: seq<Op>) {
    && History(l, pools, ops) && 0 in pools[|ops|]
    && |pools[|ops|][0].bios| > 1 && pools[|ops|][0].bytes / 512 > l.maxSectors
  }

  lemma {:induction false} OneVecPacks(l: Limits, v: Vec)
    ensures Packable(l, [v], 1, v.len, v.len)
  {
    var vs, cuts := [v], [true];
    assert vs[..0] == [] && cuts[..0] == [];
    assert Valid(l, vs[..0], cuts[..0]) && Count(cuts[..0]) == 0 && LastRun(vs[..0], cuts[..0]) == 0;
    assert Packs(l, vs, 1, v.len, v.len, cuts);
  }

  lemma {:induction false} OneVecOk(l: Limits, v: Vec, b: Bio)
    requires v.len > 0 && b == Bio(0, 0, [v], 0, v.len, v.len, v.len, 1, true, true)
    ensures Mergeable(l, b) && Fresh(l, b, b)
  {
    hide Packable, Flat, Records;
    FlatSingle(b);
    OneVecPacks(l, v);
    assert Total([v]) == v.len by { assert [v][1..] == []; }
  }

  /** Odd bytes do take a request over the limit: two bios of 1023 bytes under a limit of two sectors
      are merged into a request of three. */
  lemma {:induction false} OddBytesOverLimit(l: Limits)
    requires l.maxSectors == 2 && l.maxSegments >= 2
    ensures exists pools: seq<Pool>, ops: seq<Op> :: Exceeds(l, pools, ops)
  {
    var v := Vec(0, 0, 1023);
    var b := Bio(0, 0, [v], 0, 1023, 1023, 1023, 1, true, true);
    OneVecOk(l, v, b);
    hide Mergeable, Fresh;
    var one, two := Chain([b], 1, 1023, 0, false), Chain([b, b], 2, 2046, 0, false);
    var pools: seq<Pool>, ops := [map[], map[0 := one], map[0 := two]], [New(0, b, b), Back(0, b, b, b)];
    assert [b][0 := b] == [b] && [b] + [b] == [b, b];
    assert BackMerged(l, one, b, b) == (true, two);
    assert Follows(l, pools[0], ops[0], pools[1]) && Follows(l, pools[1], ops[1], pools[2]);
    assert Exceeds(l, pools, ops);
  }
}
