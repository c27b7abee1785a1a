/** The deadline scheduler: every waiting request is in two indexes of its direction, one by sector
    and one by age, and writes are starved only so long. */
module Deadline {
  import opened Lists
  import opened Multiples
  import opened Numbers
  import opened Options

  datatype Rq = Rq(write: bool, pos: nat, sectors: nat, expires: nat)

  type Rqs = map<nat, Rq>

  type Int32 = n: int | -0x8000_0000 <= n < 0x8000_0000

  /** A signed setting compared with an unsigned counter is taken as unsigned. */
  function AsUnsigned(n: Int32): nat { if n >= 0 then n else n + 0x1_0000_0000 }

  /** One direction: the sort tree from sector to request, the requests by age, and the request the
      running batch continues with. */
  datatype Side = Side(tree: map<nat, nat>, fifo: seq<nat>, next: Option<nat>)

  predicate InTree(rqs: Rqs, tree: map<nat, nat>, id: nat) {
    id in rqs && rqs[id].pos in tree && tree[rqs[id].pos] == id
  }

  /** The twin indexes agree, but for `stray`, which is waiting but for the moment not in the tree. */
  ghost predicate SideOk(rqs: Rqs, s: Side, write: bool, stray: set<nat>) {
    && (forall p | p in s.tree :: s.tree[p] in rqs && rqs[s.tree[p]].pos == p && s.tree[p] !in stray)
    && NoRepeat(s.fifo)
    && (forall id | id in s.fifo :: id in rqs && rqs[id].write == write)
    && (forall id: nat :: id in s.fifo <==> InTree(rqs, s.tree, id) || id in stray)
    && (s.next.Some? ==> s.next.value in s.fifo)
  }

  // ----- the tree

  /** The request with the next higher sector. */
  ghost predicate IsLatter(tree: map<nat, nat>, pos: nat, r: Option<nat>) {
    if r.None? then forall k | k in tree :: k <= pos
    else exists k | k in tree && k > pos && tree[k] == r.value :: forall j | j in tree && j > pos :: k <= j
  }

  method Latter(tree: map<nat, nat>, pos: nat) returns (r: Option<nat>)
    ensures IsLatter(tree, pos, r)
    ensures r.Some? ==> exists k | k in tree && k > pos :: tree[k] == r.value
  {
    var keys, best: Option<nat> := tree.Keys, None;
    while keys != {}
      invariant keys <= tree.Keys
      invariant best.None? ==> forall j | j in tree && j !in keys :: j <= pos
      invariant best.Some? ==>
        best.value in tree && best.value > pos && forall j | j in tree && j !in keys && j > pos :: best.value <= j
      decreases |keys|
    {
      var k :| k in keys;
      keys := keys - {k};
      if k > pos && (best.None? || k < best.value) { best := Some(k); }
    }
    r := if best.None? then None else Some(tree[best.value]);
  }

  // ----- changing one index at a time

  /** A request taken out of both indexes. */
  function Without(rqs: Rqs, s: Side, id: nat, next: Option<nat>): Side
    requires id in rqs
  {
    Side(s.tree - {rqs[id].pos}, Remove(s.fifo, id), next)
  }

  lemma {:induction false} WithoutOk(rqs: Rqs, s: Side, write: bool, stray: set<nat>, id: nat, next: Option<nat>)
    requires SideOk(rqs, s, write, stray) && InTree(rqs, s.tree, id)
    requires (next.Some? ==> next.value in s.fifo && next.value != id)
    ensures SideOk(rqs - {id}, Without(rqs, s, id, next), write, stray)
    ensures |Without(rqs, s, id, next).fifo| == |s.fifo| - 1 && id in s.fifo
  {
    RemoveFacts(s.fifo, id);
    hide Remove, NoRepeat;
  }

  lemma {:induction false} OtherOk(rqs: Rqs, s: Side, write: bool, id: nat)
    requires SideOk(rqs, s, write, {}) && id !in s.fifo
    ensures SideOk(rqs - {id}, s.(next := None), write, {})
  {
    hide NoRepeat;
    assert forall p | p in s.tree :: InTree(rqs, s.tree, s.tree[p]);
  }

  /** A new request put into both. */
  lemma {:induction false} WithOk(rqs: Rqs, s: Side, id: nat, rq: Rq)
    requires SideOk(rqs, s, rq.write, {}) && id !in rqs && rq.pos !in s.tree
    ensures SideOk(rqs[id := rq], s.(tree := s.tree[rq.pos := id], fifo := s.fifo + [id]), rq.write, {})
  {
    assert id !in s.fifo;
    assert NoRepeat(s.fifo + [id]);
    hide NoRepeat;
  }

  lemma {:induction false} OtherWithOk(rqs: Rqs, s: Side, write: bool, id: nat, rq: Rq)
    requires SideOk(rqs, s, write, {}) && (id !in rqs || (id !in s.fifo && rqs[id].write != write))
    ensures SideOk(rqs[id := rq], s, write, {})
  {
    hide NoRepeat;
    assert forall p | p in s.tree :: InTree(rqs, s.tree, s.tree[p]);
  }

  /** A request's record changes while it is out of the tree. */
  lemma {:induction false} StrayOk(rqs: Rqs, s: Side, id: nat, rq: Rq)
    requires SideOk(rqs, s, rq.write, {}) && InTree(rqs, s.tree, id) && rqs[id].write == rq.write
    ensures SideOk(rqs[id := rq], s.(tree := s.tree - {rqs[id].pos}), rq.write, {id})
  {
    hide NoRepeat;
    assert id in s.fifo;
  }

  lemma {:induction false} BackOk(rqs: Rqs, s: Side, write: bool, id: nat)
    requires SideOk(rqs, s, write, {id}) && id in rqs && rqs[id].pos !in s.tree
    ensures SideOk(rqs, s.(tree := s.tree[rqs[id].pos := id]), write, {})
  {
    hide NoRepeat;
  }

  /** A record changes but for its place. */
  lemma {:induction false} SamePlaceOk(rqs: Rqs, s: Side, write: bool, id: nat, rq: Rq)
    requires SideOk(rqs, s, write, {}) && id in rqs && rq.pos == rqs[id].pos && rq.write == rqs[id].write
    ensures SideOk(rqs[id := rq], s, write, {})
  {
    hide NoRepeat;
  }

  lemma {:induction false} LatterWaits(rqs: Rqs, s: Side, write: bool, stray: set<nat>, id: nat, r: Option<nat>)
    requires SideOk(rqs, s, write, stray) && InTree(rqs, s.tree, id) && IsLatter(s.tree, rqs[id].pos, r)
    ensures r.Some? ==> r.value in s.fifo && r.value != id
  {
    hide NoRepeat;
    if r.Some? {
      var k :| k in s.tree && k > rqs[id].pos && s.tree[k] == r.value;
      assert InTree(rqs, s.tree, r.value);
    }
  }

  // ----- sector order

  /** Some waiting request of the direction lies above the sector. */
  ghost predicate AnyAbove(rqs: Rqs, write: bool, pos: nat) {
    exists x | x in rqs :: rqs[x].write == write && rqs[x].pos > pos
  }

  /** `id` is the waiting request of the direction with the lowest sector above `pos`. */
  ghost predicate LowestAbove(rqs: Rqs, write: bool, pos: nat, id: nat) {
    && id in rqs && rqs[id].write == write && rqs[id].pos > pos
    && forall x | x in rqs && rqs[x].write == write && rqs[x].pos > pos :: rqs[id].pos <= rqs[x].pos
  }

  ghost predicate Ahead(rqs: Rqs, write: bool, pos: nat, next: Option<nat>) {
    if next.None? then !AnyAbove(rqs, write, pos) else LowestAbove(rqs, write, pos, next.value)
  }

  /** Only the direction of the request just sent has a batch to continue, with the lowest sector above. */
  ghost predicate Poised(rqs: Rqs, read: Side, write: Side, isWrite: bool, pos: nat) {
    if isWrite then read.next.None? && Ahead(rqs, true, pos, write.next)
    else write.next.None? && Ahead(rqs, false, pos, read.next)
  }

  /** The tree tells what comes next among the requests it holds. */
  lemma {:induction false} LatterAhead(rqs: Rqs, s: Side, write: bool, stray: set<nat>, pos: nat, next: Option<nat>)
    requires SideOk(rqs, s, write, stray) && IsLatter(s.tree, pos, next)
    requires forall x | x in rqs && rqs[x].write == write :: x in s.fifo
    ensures Ahead(rqs - stray, write, pos, next)
  {
    hide NoRepeat;
    forall x | x in rqs - stray && rqs[x].write == write && rqs[x].pos > pos
      ensures rqs[x].pos in s.tree && next.Some? && next.value in rqs && rqs[next.value].pos <= rqs[x].pos
    {
      assert InTree(rqs, s.tree, x);
    }
    if next.Some? {
      var k :| k in s.tree && k > pos && s.tree[k] == next.value;
      assert InTree(rqs, s.tree, next.value);
    }
  }

  /** What goes out and what lies at or below its sector do not matter. */
  lemma {:induction false} AheadWithout(rqs: Rqs, write: bool, pos: nat, id: nat, next: Option<nat>)
    requires Ahead(rqs, write, pos, next) && id in rqs && rqs[id].pos <= pos
    ensures Ahead(rqs - {id}, write, pos, next)
  {
    if AnyAbove(rqs - {id}, write, pos) {
      var x :| x in rqs - {id} && rqs[x].write == write && rqs[x].pos > pos;
      assert AnyAbove(rqs, write, pos);
    }
  }

  /** The ages and what continues a batch, after a sector has been cleared for another request: only its
      occupant has gone, and the batch goes on above it. */
  ghost predicate Cleared(rqs: Rqs, isWrite: bool, pos: nat, tree: map<nat, nat>, mine: Side, other: Side,
                          mine': Side, other': Side) {
    && other'.fifo == other.fifo
    && if pos in tree then
         mine'.fifo == Remove(mine.fifo, tree[pos]) && Ahead(rqs, isWrite, pos, mine'.next) && other'.next.None?
       else
         mine'.fifo == mine.fifo && mine'.next == mine.next && other'.next == other.next
  }

  // ----- the scheduler

  /** The request that occupies a sector, if any: it must go before another can be put there. */
  ghost function Alias(tree: map<nat, nat>, pos: nat): set<nat> { if pos in tree then {tree[pos]} else {} }

  ghost function AliasList(tree: map<nat, nat>, pos: nat): seq<nat> { if pos in tree then [tree[pos]] else [] }

  /** What clearing a sector does to the requests, the dispatch list, the writes that went out and
      those still waiting. */
  ghost predicate Evicted(isWrite: bool, tree: map<nat, nat>, pos: nat, stray: set<nat>,
                          rqs: Rqs, out: seq<nat>, writes: nat, waiting: nat,
                          rqs': Rqs, out': seq<nat>, writes': nat, waiting': nat) {
    && rqs' == rqs - Alias(tree, pos) && out' == out + AliasList(tree, pos) && Alias(tree, pos) !! stray
    && var n := if isWrite && pos in tree then 1 else 0; writes' == writes + n && waiting' + n == waiting
  }

  /** Both directions are in order, and at most one has a batch to continue. */
  ghost predicate Agree(rqs: Rqs, read: Side, write: Side, strayRead: set<nat>, strayWrite: set<nat>) {
    && SideOk(rqs, read, false, strayRead) && SideOk(rqs, write, true, strayWrite)
    && !(read.next.Some? && write.next.Some?)
    && (forall id | id in rqs :: id in read.fifo || id in write.fifo)
  }

  /** A request leaves: its own side shrinks, the other only loses its batch. */
  lemma {:induction false} LeaveSide(rqs: Rqs, mine: Side, other: Side, write: bool, stray: set<nat>, id: nat,
                                     next: Option<nat>)
    requires SideOk(rqs, mine, write, stray) && SideOk(rqs, other, !write, {}) && InTree(rqs, mine.tree, id)
    requires rqs[id].write == write
    requires next.Some? ==> next.value in mine.fifo && next.value != id
    requires forall x | x in rqs :: x in mine.fifo || x in other.fifo
    ensures SideOk(rqs - {id}, Without(rqs, mine, id, next), write, stray)
    ensures SideOk(rqs - {id}, other.(next := None), !write, {})
    ensures forall x | x in rqs - {id} :: x in Without(rqs, mine, id, next).fifo || x in other.fifo
    ensures |Without(rqs, mine, id, next).fifo| == |mine.fifo| - 1
  {
    WithoutOk(rqs, mine, write, stray, id, next);
    RemoveFacts(mine.fifo, id);
    assert id !in other.fifo;
    OtherOk(rqs, other, !write, id);
    hide SideOk, InTree, Remove, NoRepeat;
  }

  /** The two sides after a request has gone to the dispatch list. */
  function Moved(rqs: Rqs, read: Side, write: Side, id: nat, next: Option<nat>): (Side, Side)
    requires id in rqs
  {
    if rqs[id].write then (read.(next := None), Without(rqs, write, id, next))
    else (Without(rqs, read, id, next), write.(next := None))
  }

  lemma {:induction false} MovedOk(rqs: Rqs, read: Side, write: Side, strayRead: set<nat>, strayWrite: set<nat>,
                                   id: nat, next: Option<nat>)
    requires Agree(rqs, read, write, strayRead, strayWrite) && id in rqs
    requires if rqs[id].write then strayRead == {} else strayWrite == {}
    requires var s := if rqs[id].write then write else read;
      InTree(rqs, s.tree, id) && IsLatter(s.tree, rqs[id].pos, next)
    ensures var (r, w) := Moved(rqs, read, write, id, next);
      Agree(rqs - {id}, r, w, strayRead, strayWrite) && |r.fifo| + |w.fifo| == |read.fifo| + |write.fifo| - 1
  {
    hide SideOk, InTree, IsLatter, Without;
    if rqs[id].write {
      LatterWaits(rqs, write, true, strayWrite, id, next);
      LeaveSide(rqs, write, read, true, strayWrite, id, next);
    } else {
      LatterWaits(rqs, read, false, strayRead, id, next);
      LeaveSide(rqs, read, write, false, strayRead, id, next);
    }
  }

  lemma {:induction false} MovedShape(rqs: Rqs, read: Side, write: Side, id: nat, next: Option<nat>)
    requires id in rqs
    ensures var (r, w) := Moved(rqs, read, write, id, next);
      && rqs[id].pos !in (if rqs[id].write then w.tree else r.tree)
      && (if rqs[id].write then r.fifo == read.fifo && w.fifo == Remove(write.fifo, id)
          else w.fifo == write.fifo && r.fifo == Remove(read.fifo, id))
      && (if rqs[id].write then r.next.None? && w.next == next else w.next.None? && r.next == next)
  {
    hide Remove;
  }

  lemma {:induction false} MovedPoised(rqs: Rqs, read: Side, write: Side, strayRead: set<nat>, strayWrite: set<nat>,
                                       id: nat, next: Option<nat>)
    requires Agree(rqs, read, write, strayRead, strayWrite) && id in rqs
    requires if rqs[id].write then strayRead == {} else strayWrite == {}
    requires IsLatter(if rqs[id].write then write.tree else read.tree, rqs[id].pos, next)
    requires id !in strayRead && id !in strayWrite
    ensures var (r, w) := Moved(rqs, read, write, id, next);
      Poised(rqs - {id} - strayRead - strayWrite, r, w, rqs[id].write, rqs[id].pos)
  {
    hide SideOk, IsLatter, Moved, Ahead, Remove;
    MovedShape(rqs, read, write, id, next);
    MineWait(rqs, read, write, strayRead, strayWrite);
    var w := rqs[id].write;
    var stray := if w then strayWrite else strayRead;
    LatterAhead(rqs, if w then write else read, w, stray, rqs[id].pos, next);
    AheadWithout(rqs - stray, w, rqs[id].pos, id, next);
    assert rqs - {id} - strayRead - strayWrite == rqs - stray - {id};
  }

  lemma {:induction false} MineWait(rqs: Rqs, read: Side, write: Side, strayRead: set<nat>, strayWrite: set<nat>)
    requires Agree(rqs, read, write, strayRead, strayWrite)
    ensures forall x | x in rqs :: if rqs[x].write then x in write.fifo else x in read.fifo
  {
    hide NoRepeat, InTree;
  }

  /** Which request a call may send, and how the counters move.  A running batch goes on; otherwise reads come
      first until writes have been passed over `starve` times, and the batch starts at the oldest request of the
      direction if that has expired or nothing follows in sector order. */
  ghost predicate Selects(batch: nat, starve: nat, rqs: Rqs, read: Side, write: Side, batching: nat, starved: nat,
                          now: nat, id: nat, batching': nat, starved': nat) {
    && id in rqs
    && var s := if rqs[id].write then write else read;
       if (read.next.Some? || write.next.Some?) && batching < batch then
         s.next == Some(id) && batching' == batching + 1 && starved' == starved
       else
         && (rqs[id].write <==> read.fifo == [] || (write.fifo != [] && starved >= starve))
         && batching' == 1
         && starved' == (if rqs[id].write then 0 else if write.fifo == [] then starved else starved + 1)
         && s.fifo != [] && s.fifo[0] in rqs
         && if s.next.None? || now > rqs[s.fifo[0]].expires then id == s.fifo[0] else s.next == Some(id)
  }

  class Scheduler {
    // settings
    const expireRead: nat
    const expireWrite: nat
    const fifoBatch: nat
    const writesStarved: Int32
    // run-time data
    var rqs: Rqs
    var read: Side
    var write: Side
    var batching: nat
    var starved: nat
    var lastSector: nat
    var nrSorted: int                  // requests the scheduler holds, as the elevator counts them
    var dispatched: seq<nat>           // the dispatch list
    var writesOut: nat                 // how many writes have gone there, for the bound below

    ghost predicate Valid()
      reads this
    {
      && Agree(rqs, read, write, {}, {})
      && nrSorted == |read.fifo| + |write.fifo|
    }

    function Mine(isWrite: bool): Side
      reads this
    {
      if isWrite then write else read
    }

    constructor (expireRead: nat, expireWrite: nat, fifoBatch: nat, writesStarved: Int32)
      ensures Valid() && rqs == map[] && dispatched == [] && writesOut == 0 && batching == 0 && starved == 0
      ensures this.fifoBatch == fifoBatch && this.writesStarved == writesStarved
    {
      this.expireRead, this.expireWrite := expireRead, expireWrite;
      this.fifoBatch, this.writesStarved := fifoBatch, writesStarved;
      rqs, read, write := map[], Side(map[], [], None), Side(map[], [], None);
      batching, starved, lastSector, nrSorted, dispatched, writesOut := 0, 0, 0, 0, [], 0;
    }

    /** Takes a request out of both indexes; `next` is what continues its batch. */
    method TakeOut(id: nat, next: Option<nat>)
      requires id in rqs
      modifies this`rqs, this`read, this`write, this`lastSector
      ensures (read, write) == Moved(old(rqs), old(read), old(write), id, next) && rqs == old(rqs) - {id}
      ensures lastSector == old(rqs[id].pos + rqs[id].sectors)
    {
      var rq := rqs[id];
      hide Remove;
      lastSector := rq.pos + rq.sectors;
      if rq.write {
        read, write := read.(next := None), Without(rqs, write, id, next);
      } else {
        read, write := Without(rqs, read, id, next), write.(next := None);
      }
      rqs := rqs - {id};
    }

    /** Moves a request to the dispatch list; the next one in sector order continues its batch. */
    method MoveRequest(id: nat, ghost strayRead: set<nat>, ghost strayWrite: set<nat>)
      requires Agree(rqs, read, write, strayRead, strayWrite) && id in rqs
      requires InTree(rqs, if rqs[id].write then write.tree else read.tree, id)
      requires if rqs[id].write then strayRead == {} else strayWrite == {}
      requires id !in strayRead && id !in strayWrite
      modifies this`rqs, this`read, this`write, this`lastSector, this`nrSorted, this`dispatched, this`writesOut
      ensures Agree(rqs, read, write, strayRead, strayWrite) && rqs == old(rqs) - {id}
      ensures Poised(rqs - strayRead - strayWrite, read, write, old(rqs[id].write), old(rqs[id].pos))
      ensures exists next | IsLatter(old(if rqs[id].write then write.tree else read.tree), old(rqs[id].pos), next) ::
        (read, write) == Moved(old(rqs), old(read), old(write), id, next)
      ensures old(rqs[id].pos) !in if old(rqs[id].write) then write.tree else read.tree
      ensures if old(rqs[id].write) then |write.fifo| == |old(write.fifo)| - 1 else write.fifo == old(write.fifo)
      ensures if old(rqs[id].write) then read.fifo == old(read.fifo) && write.fifo == Remove(old(write.fifo), id)
              else write.fifo == old(write.fifo) && read.fifo == Remove(old(read.fifo), id)
      ensures lastSector == old(rqs[id].pos + rqs[id].sectors)
      ensures |read.fifo| + |write.fifo| == |old(read.fifo)| + |old(write.fifo)| - 1 && nrSorted == old(nrSorted) - 1
      ensures dispatched == old(dispatched) + [id] && writesOut == old(writesOut) + if old(rqs)[id].write then 1 else 0
    {
      var rq := rqs[id];
      var next := Latter(if rq.write then write.tree else read.tree, rq.pos);
      MovedOk(rqs, read, write, strayRead, strayWrite, id, next);
      MovedShape(rqs, read, write, id, next);
      MovedPoised(rqs, read, write, strayRead, strayWrite, id, next);
      hide Agree, InTree, IsLatter, Moved, Poised, Remove;
      TakeOut(id, next);
      if rq.write { writesOut := writesOut + 1; }
      dispatched := dispatched + [id];
      nrSorted := nrSorted - 1;
    }

    /** The request that occupies a sector goes to the dispatch list. */
    method MoveAlias(isWrite: bool, pos: nat, ghost stray: set<nat>)
      requires Agree(rqs, read, write, if isWrite then {} else stray, if isWrite then stray else {})
      requires pos in if isWrite then write.tree else read.tree
      modifies this`rqs, this`read, this`write, this`lastSector, this`nrSorted, this`dispatched, this`writesOut
      ensures Agree(rqs, read, write, if isWrite then {} else stray, if isWrite then stray else {})
      ensures pos !in if isWrite then write.tree else read.tree
      ensures nrSorted - |read.fifo| - |write.fifo| == old(nrSorted - |read.fifo| - |write.fifo|)
      ensures Evicted(isWrite, old(if isWrite then write.tree else read.tree), pos, stray,
                      old(rqs), old(dispatched), old(writesOut), |old(write.fifo)|,
                      rqs, dispatched, writesOut, |write.fifo|)
      ensures Cleared(rqs - stray, isWrite, pos, old(Mine(isWrite).tree), old(Mine(isWrite)), old(Mine(!isWrite)),
                      Mine(isWrite), Mine(!isWrite))
    {
      hide Agree, InTree, Remove, Moved, IsLatter, Ahead;
      var alias := (if isWrite then write.tree else read.tree)[pos];
      AliasKnown(rqs, read, write, isWrite, stray, pos);
      MoveRequest(alias, if isWrite then {} else stray, if isWrite then stray else {});
      assert rqs - (if isWrite then {} else stray) - (if isWrite then stray else {}) == rqs - stray;
    }

    /** Clears a sector in a tree: whoever is there goes to the dispatch list first. */
    method Evict(isWrite: bool, pos: nat, ghost stray: set<nat>)
      requires Agree(rqs, read, write, if isWrite then {} else stray, if isWrite then stray else {})
      modifies this`rqs, this`read, this`write, this`lastSector, this`nrSorted, this`dispatched, this`writesOut
      ensures Agree(rqs, read, write, if isWrite then {} else stray, if isWrite then stray else {})
      ensures pos !in if isWrite then write.tree else read.tree
      ensures nrSorted - |read.fifo| - |write.fifo| == old(nrSorted - |read.fifo| - |write.fifo|)
      ensures Evicted(isWrite, old(if isWrite then write.tree else read.tree), pos, stray,
                      old(rqs), old(dispatched), old(writesOut), |old(write.fifo)|,
                      rqs, dispatched, writesOut, |write.fifo|)
      ensures Cleared(rqs - stray, isWrite, pos, old(Mine(isWrite).tree), old(Mine(isWrite)), old(Mine(!isWrite)),
                      Mine(isWrite), Mine(!isWrite))
    {
      ghost var tree := if isWrite then write.tree else read.tree;
      assert pos !in tree ==> Evicted(isWrite, tree, pos, stray, rqs, dispatched, writesOut, |write.fifo|,
                                      rqs, dispatched, writesOut, |write.fifo|);
      ghost var mine, other := Mine(isWrite), Mine(!isWrite);
      assert pos !in tree ==> Cleared(rqs - stray, isWrite, pos, tree, mine, other, mine, other);
      hide Agree, Evicted, Cleared;
      while pos in (if isWrite then write.tree else read.tree)
        invariant Agree(rqs, read, write, if isWrite then {} else stray, if isWrite then stray else {})
        invariant nrSorted - |read.fifo| - |write.fifo| == old(nrSorted - |read.fifo| - |write.fifo|)
        invariant pos in (if isWrite then write.tree else read.tree) ==>
          unchanged(`rqs, `read, `write, `dispatched, `writesOut)
        invariant pos !in (if isWrite then write.tree else read.tree) ==>
          Evicted(isWrite, tree, pos, stray, old(rqs), old(dispatched), old(writesOut), |old(write.fifo)|,
                  rqs, dispatched, writesOut, |write.fifo|)
        invariant pos !in (if isWrite then write.tree else read.tree) ==>
          Cleared(rqs - stray, isWrite, pos, tree, mine, other, Mine(isWrite), Mine(!isWrite))
        decreases pos in if isWrite then write.tree else read.tree
      {
        MoveAlias(isWrite, pos, stray);
      }
    }

    /** A new request: both indexes, and an expiry time. */
    method AddRequest(id: nat, isWrite: bool, pos: nat, sectors: nat, now: nat)
      requires Valid() && id !in rqs
      modifies this`rqs, this`read, this`write, this`lastSector, this`nrSorted, this`dispatched, this`writesOut
      ensures Valid() && id in rqs
      ensures var rq := Rq(isWrite, pos, sectors, now + if isWrite then expireWrite else expireRead);
        rqs == (old(rqs) - Alias(old(if isWrite then write.tree else read.tree), pos))[id := rq]
      ensures dispatched == old(dispatched) + AliasList(old(if isWrite then write.tree else read.tree), pos)
      ensures Mine(isWrite).fifo != []
      ensures var fifo := Mine(isWrite).fifo; fifo[|fifo| - 1] == id
      ensures var s := Mine(isWrite);
        Cleared(rqs - {id}, isWrite, pos, old(Mine(isWrite).tree), old(Mine(isWrite)), old(Mine(!isWrite)),
                s.(fifo := s.fifo[..|s.fifo| - 1]), Mine(!isWrite))
      ensures old(dispatched) <= dispatched && writesOut >= old(writesOut)
      ensures writesOut == old(writesOut) ==> |write.fifo| >= |old(write.fifo)|
    {
      nrSorted := nrSorted + 1;
      Evict(isWrite, pos, {});
      var rq := Rq(isWrite, pos, sectors, now + if isWrite then expireWrite else expireRead);
      assert rqs - {} == rqs;
      hide Agree, Remove, Ahead;
      Join(id, rq);
      assert (rqs - {id}) - {} == rqs - {id};
    }

    method Join(id: nat, rq: Rq)
      requires Agree(rqs, read, write, {}, {}) && id !in rqs && rq.pos !in if rq.write then write.tree else read.tree
      modifies this`rqs, this`read, this`write
      ensures Agree(rqs, read, write, {}, {}) && rqs == old(rqs)[id := rq]
      ensures |read.fifo| == |old(read.fifo)| + if rq.write then 0 else 1
      ensures |write.fifo| == |old(write.fifo)| + if rq.write then 1 else 0
      ensures Mine(rq.write).fifo == old(Mine(rq.write).fifo) + [id] && Mine(!rq.write) == old(Mine(!rq.write))
      ensures Mine(rq.write).next == old(Mine(rq.write).next) && rqs - {id} == old(rqs)
    {
      JoinOk(rqs, read, write, id, rq);
      hide Agree;
      if rq.write {
        write := write.(tree := write.tree[rq.pos := id], fifo := write.fifo + [id]);
      } else {
        read := read.(tree := read.tree[rq.pos := id], fifo := read.fifo + [id]);
      }
      rqs := rqs[id := rq];
    }

    /** Takes a request out of its tree and gives it a new record. */
    method Detach(id: nat, rq: Rq)
      requires Agree(rqs, read, write, {}, {}) && id in rqs && rq.write == rqs[id].write
      modifies this`rqs, this`read, this`write
      ensures Agree(rqs, read, write, if rq.write then {} else {id}, if rq.write then {id} else {})
      ensures rqs == old(rqs)[id := rq] && read.fifo == old(read.fifo) && write.fifo == old(write.fifo)
      ensures (if rq.write then write.tree else read.tree) ==
        old(if rqs[id].write then write.tree else read.tree) - {old(rqs[id].pos)}
      ensures read.next == old(read.next) && write.next == old(write.next)
    {
      DetachOk(rqs, read, write, id, rq);
      hide Agree;
      if rq.write {
        write := write.(tree := write.tree - {rqs[id].pos});
      } else {
        read := read.(tree := read.tree - {rqs[id].pos});
      }
      rqs := rqs[id := rq];
    }

    /** Puts it back at its new place. */
    method Attach(id: nat)
      requires id in rqs
      requires Agree(rqs, read, write, if rqs[id].write then {} else {id}, if rqs[id].write then {id} else {})
      requires rqs[id].pos !in if rqs[id].write then write.tree else read.tree
      modifies this`read, this`write
      ensures Agree(rqs, read, write, {}, {}) && read.fifo == old(read.fifo) && write.fifo == old(write.fifo)
      ensures read.next == old(read.next) && write.next == old(write.next)
    {
      AttachOk(rqs, read, write, id);
      hide Agree;
      if rqs[id].write {
        write := write.(tree := write.tree[rqs[id].pos := id]);
      } else {
        read := read.(tree := read.tree[rqs[id].pos := id]);
      }
    }

    /** A bio is merged in front of a request: it moves in the tree, not in age. */
    method FrontMerge(id: nat, sectors: nat)
      requires Valid() && id in rqs && sectors <= rqs[id].pos
      modifies this`rqs, this`read, this`write, this`lastSector, this`nrSorted, this`dispatched, this`writesOut
      ensures Valid() && id in rqs
      ensures var rq := old(rqs)[id].(pos := old(rqs)[id].pos - sectors, sectors := old(rqs)[id].sectors + sectors);
        var tree := old(if rqs[id].write then write.tree else read.tree) - {old(rqs[id].pos)};
        && rqs[id] == rq && rqs == old(rqs)[id := rq] - Alias(tree, rq.pos)
        && dispatched == old(dispatched) + AliasList(tree, rq.pos)
        && Cleared(rqs - {id}, rq.write, rq.pos, tree, old(Mine(rqs[id].write)), old(Mine(!rqs[id].write)),
                   Mine(rq.write), Mine(!rq.write))
      ensures old(dispatched) <= dispatched && writesOut >= old(writesOut)
      ensures writesOut == old(writesOut) ==> |write.fifo| >= |old(write.fifo)|
    {
      var rq := rqs[id].(pos := rqs[id].pos - sectors, sectors := rqs[id].sectors + sectors);
      hide Agree, Ahead, Remove;
      MakeRoom(id, rq);
      Attach(id);
    }

    /** Takes a request out of its tree and clears its new sector. */
    method MakeRoom(id: nat, rq: Rq)
      requires Agree(rqs, read, write, {}, {}) && id in rqs && rq.write == rqs[id].write
      modifies this`rqs, this`read, this`write, this`lastSector, this`nrSorted, this`dispatched, this`writesOut
      ensures id in rqs && rqs[id] == rq && rq.pos !in if rq.write then write.tree else read.tree
      ensures var tree := old(if rqs[id].write then write.tree else read.tree) - {old(rqs[id].pos)};
        && rqs == old(rqs)[id := rq] - Alias(tree, rq.pos) && dispatched == old(dispatched) + AliasList(tree, rq.pos)
        && Cleared(rqs - {id}, rq.write, rq.pos, tree, old(Mine(rqs[id].write)), old(Mine(!rqs[id].write)),
                   Mine(rq.write), Mine(!rq.write))
      ensures Agree(rqs, read, write, if rq.write then {} else {id}, if rq.write then {id} else {})
      ensures nrSorted - |read.fifo| - |write.fifo| == old(nrSorted - |read.fifo| - |write.fifo|)
      ensures old(dispatched) <= dispatched && writesOut >= old(writesOut)
      ensures writesOut == old(writesOut) ==> |write.fifo| >= |old(write.fifo)|
    {
      hide Agree, Ahead, Remove;
      Detach(id, rq);
      Evict(rq.write, rq.pos, {id});
    }

    /** A bio is merged behind a request: it grows where it is. */
    method BackMerge(id: nat, sectors: nat)
      requires Valid() && id in rqs
      modifies this`rqs
      ensures Valid() && rqs == old(rqs)[id := old(rqs)[id].(sectors := old(rqs)[id].sectors + sectors)]
    {
      var rq := rqs[id].(sectors := rqs[id].sectors + sectors);
      GrownOk(rqs, read, write, id, rq);
      hide Agree;
      rqs := rqs[id := rq];
    }

    /** A request swallows the one behind it, which may just have grown in front by `grown` sectors
        without having been moved in the tree.  If it expires sooner, its age is taken over. */
    method MergeRequests(id: nat, other: nat, grown: nat)
      requires Valid() && id in rqs && other in rqs && id != other && rqs[id].write == rqs[other].write
      modifies this`rqs, this`read, this`write, this`nrSorted
      ensures Valid()
      ensures var a, b := old(rqs)[id], old(rqs)[other];
        && rqs == old(rqs)[id := a.(sectors := a.sectors + (b.sectors + grown),
                                 expires := Min(a.expires, b.expires))] - {other}
        && var fifo := old(if rqs[id].write then write.fifo else read.fifo);
           (if a.write then write.fifo else read.fifo) ==
           if b.expires < a.expires then Replace(Remove(fifo, id), other, id) else Remove(fifo, other)
      ensures if old(rqs)[id].write then read == old(read) else write == old(write)
      ensures var w := old(rqs)[id].write;
        if old(Mine(rqs[id].write).next) == Some(other) then Ahead(rqs, w, old(rqs)[other].pos, Mine(w).next)
        else Mine(w).next == old(Mine(rqs[id].write).next)
      ensures old(write.fifo) != [] ==> write.fifo != []
    {
      var rq := rqs[id].(sectors := rqs[id].sectors + (rqs[other].sectors + grown),
                         expires := Min(rqs[id].expires, rqs[other].expires));
      var sooner := rqs[other].expires < rqs[id].expires;
      var next := NextWithout(if rq.write then write else read, other);
      SwallowedAhead(rqs, read, write, id, other, rq, next);
      hide Agree, NextAfter, Remove, Replace, Ahead;
      Swallow(id, other, rq, sooner, next);
      nrSorted := nrSorted - 1;
    }

    method Swallow(id: nat, other: nat, rq: Rq, sooner: bool, next: Option<nat>)
      requires Agree(rqs, read, write, {}, {}) && id in rqs && other in rqs && id != other
      requires rqs[id].write == rqs[other].write
      requires rq.pos == rqs[id].pos && rq.write == rqs[id].write
      requires NextAfter(rqs, if rq.write then write else read, other, next)
      modifies this`rqs, this`read, this`write
      ensures Agree(rqs, read, write, {}, {}) && rqs == old(rqs)[id := rq] - {other}
      ensures if rq.write then read == old(read) && write == Swallowed(old(rqs), old(write), id, other, sooner, next)
              else write == old(write) && read == Swallowed(old(rqs), old(read), id, other, sooner, next)
      ensures |read.fifo| + |write.fifo| == |old(read.fifo)| + |old(write.fifo)| - 1
      ensures old(write.fifo) != [] ==> write.fifo != []
    {
      hide Agree, Swallowed, NextAfter;
      MergedOk(rqs, read, write, id, other, rq, sooner, next);
      if rq.write {
        write := Swallowed(rqs, write, id, other, sooner, next);
      } else {
        read := Swallowed(rqs, read, id, other, sooner, next);
      }
      rqs := rqs[id := rq] - {other};
    }

    /** What continues a batch once `other` is gone. */
    method NextWithout(side: Side, other: nat) returns (next: Option<nat>)
      requires other in rqs
      ensures NextAfter(rqs, side, other, next)
    {
      if side.next == Some(other) { next := Latter(side.tree, rqs[other].pos); } else { next := side.next; }
    }

    /** An upper bound on the dispatch calls until a write goes out, while writes are waiting. */
    ghost function Rank(): nat
      reads this
    {
      RankOf(fifoBatch, AsUnsigned(writesStarved), batching, starved)
    }

    /** A request of the running batch, if there is one and the batch is not used up. */
    predicate Continuing()
      reads this
    {
      (write.next.Some? || read.next.Some?) && batching < fifoBatch
    }

    /** Writes get the next batch: no reads, or writes have been passed over often enough. */
    predicate WriteTurn()
      reads this
    {
      write.fifo != [] && (read.fifo == [] || starved >= AsUnsigned(writesStarved))
    }

    /** What goes out next: the running batch, or a new one that starts at the oldest request of the
        direction if that has expired or nothing follows in sector order. */
    ghost function Wanted(now: nat): Option<nat>
      reads this
    {
      if Continuing() then if write.next.Some? then write.next else read.next
      else
        var side := if WriteTurn() then write else read;
        if side.fifo == [] then None
        else if side.next.Some? && !(side.fifo[0] in rqs && now > rqs[side.fifo[0]].expires) then side.next
        else Some(side.fifo[0])
    }

    /** Decides what goes out next. */
    method Choose(now: nat) returns (r: Option<nat>)
      requires Valid()
      modifies this`batching, this`starved
      ensures Valid() && (r.None? <==> read.fifo == [] && write.fifo == [])
      ensures r == old(Wanted(now))
      ensures r.Some? ==> Selects(fifoBatch, AsUnsigned(writesStarved), old(rqs), old(read), old(write), old(batching),
                                  old(starved), now, r.value, batching, starved)
      ensures batching == if r.None? then old(batching) else if old(Continuing()) then old(batching) + 1 else 1
      ensures starved ==
        if r.None? || old(Continuing()) then old(starved)
        else if old(WriteTurn()) then 0
        else old(starved) + if write.fifo != [] then 1 else 0
      ensures r.Some? ==> r.value in rqs && r.value in if rqs[r.value].write then write.fifo else read.fifo
      ensures r.Some? && !old(Continuing()) ==>
        var fifo := if rqs[r.value].write then write.fifo else read.fifo;
        fifo[0] in rqs && (now > rqs[fifo[0]].expires ==> r.value == fifo[0])
      ensures r.Some? && !rqs[r.value].write && write.fifo != [] ==> Rank() < old(Rank())
    {
      KnownFifo(rqs, read, write);
      hide Agree;
      var anyReads, anyWrites := read.fifo != [], write.fifo != [];
      var rq := if write.next.Some? then write.next else read.next;
      if rq.Some? && batching < fifoBatch {
        batching := batching + 1;
        return rq;
      }
      var side;
      RankSelect(fifoBatch, AsUnsigned(writesStarved), batching, starved);
      if anyReads {
        side := read;
        if anyWrites {
          starved := starved + 1;
          if starved - 1 >= AsUnsigned(writesStarved) { side, starved := write, 0; }
        }
      } else if anyWrites {
        side, starved := write, 0;
      } else {
        return None;
      }
      if now > rqs[side.fifo[0]].expires || side.next.None? { r := Some(side.fifo[0]); } else { r := side.next; }
      batching := 1;
    }

    /** Dispatches one request, if any is waiting. */
    method Dispatch(now: nat) returns (r: Option<nat>)
      requires Valid()
      modifies this
      ensures Valid() && (r.None? <==> old(rqs) == map[]) && r == old(Wanted(now))
      ensures batching == if r.None? then old(batching) else if old(Continuing()) then old(batching) + 1 else 1
      ensures r.Some? ==> Selects(fifoBatch, AsUnsigned(writesStarved), old(rqs), old(read), old(write), old(batching),
                                  old(starved), now, r.value, batching, starved)
      ensures r.None? ==> read == old(read) && write == old(write)
      ensures r.Some? ==> read.fifo == Remove(old(read.fifo), r.value) && write.fifo == Remove(old(write.fifo), r.value)
      ensures r.Some? ==> r.value in old(rqs) && var rq := old(rqs)[r.value];
        Poised(rqs, read, write, rq.write, rq.pos) && lastSector == rq.pos + rq.sectors
      ensures r.None? ==>
        rqs == old(rqs) && nrSorted == old(nrSorted) && dispatched == old(dispatched) && writesOut == old(writesOut)
      ensures r.Some? ==> r.value in old(rqs) && rqs == old(rqs) - {r.value} && nrSorted == old(nrSorted) - 1
      ensures r.Some? ==> dispatched == old(dispatched) + [r.value]
      ensures r.Some? ==> writesOut == old(writesOut) + if old(rqs)[r.value].write then 1 else 0
      ensures r.Some? && !old(rqs)[r.value].write && old(write.fifo) != [] ==>
        Rank() < old(Rank()) && |write.fifo| == |old(write.fifo)|
      ensures r.Some? && !old(Continuing()) ==>
        var fifo := if old(rqs)[r.value].write then old(write.fifo) else old(read.fifo);
        fifo != [] && fifo[0] in old(rqs) && (now > old(rqs)[fifo[0]].expires ==> r.value == fifo[0])
    {
      hide Agree, InTree, Remove, RankOf, Poised, Selects;
      EmptyIff(rqs, read, write);
      r := Choose(now);
      if r.Some? {
        WaitsInTree(rqs, read, write, r.value);
        RemoveMissing(if rqs[r.value].write then read.fifo else write.fifo, r.value);
        MoveRequest(r.value, {}, {});
        assert rqs - {} - {} == rqs;
      }
    }

    /** Forced draining: it ends, and then the elevator's count is zero. */
    method Drain(now: nat)
      requires Valid()
      modifies this
      ensures Valid() && rqs == map[] && nrSorted == 0
    {
      var more := true;
      while more
        invariant Valid() && (!more ==> rqs == map[])
        decreases more, |rqs|
      {
        var r := Dispatch(now);
        more := r.Some?;
      }
      EmptyIff(rqs, read, write);
    }
  }

  // ----- a batch goes on in sector order

  ghost function Rest(rqs: Rqs, sent: seq<nat>): Rqs { rqs - set x | x in sent }

  /** How a call follows one that sent `rq` as the n-th of its batch and left `rest` waiting: with the lowest
      sector above, unless there is none or the batch is used up. */
  ghost predicate GoesOn(batch: nat, rest: Rqs, rq: Rq, n: nat, id: nat, n': nat) {
    if n < batch && AnyAbove(rest, rq.write, rq.pos) then LowestAbove(rest, rq.write, rq.pos, id) && n' == n + 1
    else n' == 1
  }

  lemma {:induction false} PoisedGoesOn(d: Scheduler, rq: Rq, now: nat)
    requires Poised(d.rqs, d.read, d.write, rq.write, rq.pos)
    ensures d.Continuing() <==> d.batching < d.fifoBatch && AnyAbove(d.rqs, rq.write, rq.pos)
    ensures d.Continuing() ==> d.Wanted(now).Some? && LowestAbove(d.rqs, rq.write, rq.pos, d.Wanted(now).value)
  {
  }

  /** Everything sent was waiting, nothing is sent twice, and each call follows the one before in sector order
      for as long as the batch lasts. */
  ghost predicate InOrder(batch: nat, rqs: Rqs, sent: seq<nat>, batches: seq<nat>) {
    && |sent| == |batches| && (forall i | 0 <= i < |sent| :: sent[i] in rqs && sent[i] !in sent[..i])
    && forall i | 0 < i < |sent| :: Links(batch, rqs, sent, batches, i)
  }

  ghost predicate Links(batch: nat, rqs: Rqs, sent: seq<nat>, batches: seq<nat>, i: nat)
    requires 0 < i < |sent| == |batches| && sent[i - 1] in rqs
  {
    GoesOn(batch, Rest(rqs, sent[..i]), rqs[sent[i - 1]], batches[i - 1], sent[i], batches[i])
  }

  ghost predicate LastIs(rqs: Rqs, sent: seq<nat>, batches: seq<nat>, rq: Rq, n: nat) {
    && |sent| == |batches| > 0 && sent[|sent| - 1] in rqs
    && rqs[sent[|sent| - 1]] == rq && batches[|sent| - 1] == n
  }

  lemma {:induction false} InOrderSnoc(batch: nat, rqs: Rqs, sent: seq<nat>, batches: seq<nat>, rq: Rq, m: nat,
                                       id: nat, n: nat)
    requires InOrder(batch, rqs, sent, batches) && id in Rest(rqs, sent)
    requires sent != [] ==> LastIs(rqs, sent, batches, rq, m) && GoesOn(batch, Rest(rqs, sent), rq, m, id, n)
    ensures InOrder(batch, rqs, sent + [id], batches + [n]) && Rest(rqs, sent) - {id} == Rest(rqs, sent + [id])
    ensures LastIs(rqs, sent + [id], batches + [n], rqs[id], n)
  {
    hide GoesOn, Links, LastIs;
    var sent', batches' := sent + [id], batches + [n];
    RestSnoc(rqs, sent, id);
    forall i | 0 <= i < |sent'| ensures sent'[i] in rqs && sent'[i] !in sent'[..i] {
      assert sent'[..i] == sent[..i];
      assert i == |sent| ==> sent[..i] == sent;
    }
    hide Rest;
    assert LastIs(rqs, sent', batches', rqs[id], n) by { LastSnoc(rqs, sent, batches, id, n); }
    forall i | 0 < i < |sent'| ensures Links(batch, rqs, sent', batches', i) {
      if i < |sent| {
        assert Links(batch, rqs, sent, batches, i);
        LinkStays(batch, rqs, sent, batches, id, n, i);
      } else {
        LinkNew(batch, rqs, sent, batches, rq, m, id, n);
      }
    }
  }

  lemma {:induction false} LastSnoc(rqs: Rqs, sent: seq<nat>, batches: seq<nat>, id: nat, n: nat)
    requires |sent| == |batches| && id in rqs
    ensures LastIs(rqs, sent + [id], batches + [n], rqs[id], n)
  {
  }

  lemma {:induction false} RestSnoc(rqs: Rqs, sent: seq<nat>, id: nat)
    ensures Rest(rqs, sent) - {id} == Rest(rqs, sent + [id])
    ensures id in Rest(rqs, sent) ==> id in rqs && id !in sent && Rest(rqs, sent)[id] == rqs[id]
  {
  }

  lemma {:induction false} LinkStays(batch: nat, rqs: Rqs, sent: seq<nat>, batches: seq<nat>, id: nat, n: nat, i: nat)
    requires 0 < i < |sent| == |batches| && sent[i - 1] in rqs && Links(batch, rqs, sent, batches, i)
    ensures Links(batch, rqs, sent + [id], batches + [n], i)
  {
    hide GoesOn, Rest;
    assert (sent + [id])[..i] == sent[..i];
  }

  lemma {:induction false} LinkNew(batch: nat, rqs: Rqs, sent: seq<nat>, batches: seq<nat>, rq: Rq, m: nat, id: nat,
                                   n: nat)
    requires LastIs(rqs, sent, batches, rq, m) && GoesOn(batch, Rest(rqs, sent), rq, m, id, n)
    ensures Links(batch, rqs, sent + [id], batches + [n], |sent|)
  {
    hide GoesOn, Rest;
    assert (sent + [id])[..|sent|] == sent;
  }

  /** What some calls have sent, the last `rq` as the n-th of its batch, and what they have left. */
  ghost predicate SoFar(batch: nat, rqs: Rqs, out: seq<nat>, sent: seq<nat>, batches: seq<nat>, rq: Rq, n: nat,
                        rqs': Rqs, out': seq<nat>) {
    && InOrder(batch, rqs, sent, batches) && rqs' == Rest(rqs, sent) && out' == out + sent
    && (sent != [] ==> LastIs(rqs, sent, batches, rq, n))
  }

  lemma {:induction false} SoFarNext(batch: nat, rqs: Rqs, out: seq<nat>, sent: seq<nat>, batches: seq<nat>, rq: Rq,
                                     n: nat, rqs': Rqs, out': seq<nat>, id: nat, n': nat)
    requires SoFar(batch, rqs, out, sent, batches, rq, n, rqs', out') && id in rqs'
    requires sent != [] ==> GoesOn(batch, rqs', rq, n, id, n')
    ensures SoFar(batch, rqs, out, sent + [id], batches + [n'], rqs'[id], n', rqs' - {id}, out' + [id])
  {
    hide InOrder, GoesOn, LastIs;
    InOrderSnoc(batch, rqs, sent, batches, rq, n, id, n');
  }

  /** The last call sent `rq` as the n-th of its batch. */
  ghost predicate Resumes(d: Scheduler, rq: Rq, n: nat)
    reads d
  {
    Poised(d.rqs, d.read, d.write, rq.write, rq.pos) && d.batching == n
  }

  /** A dispatch call after another: it goes on with the batch. */
  method DispatchNext(d: Scheduler, now: nat, ghost first: bool, ghost rq: Rq, ghost n: nat) returns (r: Option<nat>)
    requires d.Valid() && (first || Resumes(d, rq, n))
    modifies d
    ensures d.Valid() && (r.None? <==> old(d.rqs) == map[])
    ensures r.None? ==> d.rqs == old(d.rqs) && d.dispatched == old(d.dispatched) && (first || Resumes(d, rq, n))
    ensures r.Some? ==> r.value in old(d.rqs) && d.rqs == old(d.rqs) - {r.value}
    ensures r.Some? ==> d.dispatched == old(d.dispatched) + [r.value] && Resumes(d, old(d.rqs)[r.value], d.batching)
    ensures r.Some? && !first ==> GoesOn(d.fifoBatch, old(d.rqs), rq, n, r.value, d.batching)
  {
    if !first { PoisedGoesOn(d, rq, now); }
    hide Scheduler.Valid, Scheduler.Wanted, Scheduler.Continuing, Poised, AnyAbove, LowestAbove, Remove, Selects;
    r := d.Dispatch(now);
  }

  /** Dispatch calls in a row. */
  method DispatchAll(d: Scheduler, nows: seq<nat>) returns (sent: seq<nat>, batches: seq<nat>)
    requires d.Valid()
    modifies d
    ensures d.Valid() && |sent| <= |nows| && (|sent| < |nows| ==> d.rqs == map[])
    ensures d.rqs == Rest(old(d.rqs), sent) && d.dispatched == old(d.dispatched) + sent
    ensures InOrder(d.fifoBatch, old(d.rqs), sent, batches)
  {
    sent, batches := [], [];
    ghost var rq, n := Rq(false, 0, 0, 0), 0;
    assert SoFar(d.fifoBatch, d.rqs, d.dispatched, sent, batches, rq, n, d.rqs, d.dispatched);
    hide Scheduler.Valid, Resumes, GoesOn, SoFar;
    for k := 0 to |nows|
      invariant d.Valid() && |sent| <= k && (|sent| < k ==> d.rqs == map[])
      invariant SoFar(d.fifoBatch, old(d.rqs), old(d.dispatched), sent, batches, rq, n, d.rqs, d.dispatched)
      invariant sent != [] ==> Resumes(d, rq, n)
    {
      ghost var rqs, out := d.rqs, d.dispatched;
      var r := DispatchNext(d, nows[k], sent == [], rq, n);
      if r.Some? {
        SoFarNext(d.fifoBatch, old(d.rqs), old(d.dispatched), sent, batches, rq, n, rqs, out, r.value, d.batching);
        rq, n := rqs[r.value], d.batching;
        sent, batches := sent + [r.value], batches + [d.batching];
      }
    }
    SoFarMeans(d.fifoBatch, old(d.rqs), old(d.dispatched), sent, batches, rq, n, d.rqs, d.dispatched);
  }

  lemma {:induction false} SoFarMeans(batch: nat, rqs: Rqs, out: seq<nat>, sent: seq<nat>, batches: seq<nat>, rq: Rq,
                                      n: nat, rqs': Rqs, out': seq<nat>)
    requires SoFar(batch, rqs, out, sent, batches, rq, n, rqs', out')
    ensures InOrder(batch, rqs, sent, batches) && rqs' == Rest(rqs, sent) && out' == out + sent
  {
    hide InOrder, Rest;
  }

  // ----- writes are starved only so long

  datatype Op =
    | Add(id: nat, write: bool, pos: nat, sectors: nat, now: nat)
    | Front(id: nat, sectors: nat)
    | Back(id: nat, sectors: nat)
    | Merge(id: nat, other: nat, grown: nat)
    | Call(now: nat)

  /** Whatever else happens, one step leaves the bound as it is unless it is a dispatch call. */
  method Perform(d: Scheduler, op: Op)
    requires d.Valid()
    modifies d
    ensures d.Valid() && d.writesOut >= old(d.writesOut)
    ensures d.writesOut == old(d.writesOut) && old(d.write.fifo) != [] ==> d.write.fifo != []
    ensures d.writesOut == old(d.writesOut) && old(d.write.fifo) != [] ==>
      d.Rank() <= old(d.Rank()) - if op.Call? then 1 else 0
  {
    hide Cleared, Ahead, Poised, Remove, Replace, Selects;
    match op
    case Add(id, write, pos, sectors, now) => if id !in d.rqs { d.AddRequest(id, write, pos, sectors, now); }
    case Front(id, sectors) => if id in d.rqs && sectors <= d.rqs[id].pos { d.FrontMerge(id, sectors); }
    case Back(id, sectors) => if id in d.rqs { d.BackMerge(id, sectors); }
    case Merge(id, other, grown) =>
      if id in d.rqs && other in d.rqs && id != other && d.rqs[id].write == d.rqs[other].write {
        d.MergeRequests(id, other, grown);
      }
    case Call(now) =>
      EmptyIff(d.rqs, d.read, d.write);
      var _ := d.Dispatch(now);
  }

  /** Plays any list of operations for as long as no write goes out.  While a write is waiting, that
      is fewer dispatch calls than the bound. */
  method Starve(d: Scheduler, ops: seq<Op>) returns (calls: nat)
    requires d.Valid() && d.write.fifo != []
    modifies d
    ensures d.Valid()
    ensures d.writesOut == old(d.writesOut) ==>
      calls == CountCalls(ops) && calls < StarveBound(AsUnsigned(d.writesStarved), d.fifoBatch)
    ensures d.writesOut > old(d.writesOut) ==> calls <= StarveBound(AsUnsigned(d.writesStarved), d.fifoBatch)
  {
    calls := 0;
    var was := d.writesOut;
    ghost var bound := StarveBound(AsUnsigned(d.writesStarved), d.fifoBatch);
    RankSelect(d.fifoBatch, AsUnsigned(d.writesStarved), d.batching, d.starved);
    assert d.Rank() <= bound;
    hide RankOf, StarveBound, Scheduler.Valid;
    assert ops[..0] == [];
    for i := 0 to |ops|
      invariant d.Valid() && d.writesOut == old(d.writesOut) && d.write.fifo != []
      invariant calls == CountCalls(ops[..i]) && calls + d.Rank() <= bound
    {
      RankPositive(d.fifoBatch, AsUnsigned(d.writesStarved), d.batching, d.starved);
      Perform(d, ops[i]);
      assert ops[..i + 1][..i] == ops[..i];
      if ops[i].Call? { calls := calls + 1; }
      if d.writesOut > was { return; }
    }
    assert ops[..|ops|] == ops;
    RankPositive(d.fifoBatch, AsUnsigned(d.writesStarved), d.batching, d.starved);
  }

  function CountCalls(ops: seq<Op>): nat {
    if ops == [] then 0 else CountCalls(ops[..|ops| - 1]) + if ops[|ops| - 1].Call? then 1 else 0
  }

  lemma {:induction false} RankPositive(batch: nat, starve: nat, batching: nat, starved: nat)
    ensures RankOf(batch, starve, batching, starved) >= 1
  {
  }

  /** Dispatch calls within which a waiting write goes out. */
  function StarveBound(starve: nat, batch: nat): nat { starve * AtLeastOne(batch) + batch + 1 }

  /** A batch limit of zero still lets every batch have its first request. */
  function AtLeastOne(batch: nat): nat { if batch == 0 then 1 else batch }

  function RankOf(batch: nat, starve: nat, batching: nat, starved: nat): nat {
    (if batching < batch then batch - batching else 0)
    + (if starved < starve then (starve - starved) * AtLeastOne(batch) else 0) + 1
  }

  /** Starting a read batch uses up one of the times writes may be starved. */
  lemma {:induction false} RankSelect(batch: nat, starve: nat, batching: nat, starved: nat)
    ensures starved < starve ==> RankOf(batch, starve, 1, starved + 1) < RankOf(batch, starve, batching, starved)
    ensures RankOf(batch, starve, batching, starved) <= StarveBound(starve, batch)
  {
    var n, b := starve - starved, AtLeastOne(batch);
    if n > 0 {
      assert n * b == (n - 1) * b + b;
      MulMono(n, starve, b);
    }
  }

  /** A negative setting is a huge one: with reads waiting, two billion read batches come first. */
  lemma {:induction false} NegativeStarves(d: Scheduler)
    requires d.writesStarved < 0 && d.read.fifo != [] && d.starved < 0x8000_0000
    ensures !d.WriteTurn()
    ensures StarveBound(AsUnsigned(d.writesStarved), d.fifoBatch) > 0x8000_0000
  {
    MulMono(1, AtLeastOne(d.fifoBatch), AsUnsigned(d.writesStarved));
  }

  lemma {:induction false} GrownOk(rqs: Rqs, read: Side, write: Side, id: nat, rq: Rq)
    requires Agree(rqs, read, write, {}, {}) && id in rqs && rq.pos == rqs[id].pos && rq.write == rqs[id].write
    ensures Agree(rqs[id := rq], read, write, {}, {})
  {
    SamePlaceOk(rqs, read, false, id, rq);
    SamePlaceOk(rqs, write, true, id, rq);
    hide SideOk;
  }

  lemma {:induction false} KnownFifo(rqs: Rqs, read: Side, write: Side)
    requires Agree(rqs, read, write, {}, {})
    ensures forall id | id in read.fifo :: id in rqs && !rqs[id].write
    ensures forall id | id in write.fifo :: id in rqs && rqs[id].write
    ensures (read.next.Some? ==> read.next.value in read.fifo) && (write.next.Some? ==> write.next.value in write.fifo)
  {
    hide NoRepeat, InTree;
  }

  lemma {:induction false} EmptyIff(rqs: Rqs, read: Side, write: Side)
    requires Agree(rqs, read, write, {}, {})
    ensures rqs == map[] <==> read.fifo == [] && write.fifo == []
  {
    KnownFifo(rqs, read, write);
    hide SideOk;
    if read.fifo != [] { assert read.fifo[0] in rqs; }
    if write.fifo != [] { assert write.fifo[0] in rqs; }
  }

  lemma {:induction false} AliasKnown(rqs: Rqs, read: Side, write: Side, isWrite: bool, stray: set<nat>, pos: nat)
    requires Agree(rqs, read, write, if isWrite then {} else stray, if isWrite then stray else {})
    requires pos in if isWrite then write.tree else read.tree
    ensures var s := if isWrite then write else read; var id := s.tree[pos];
      id in rqs && rqs[id].pos == pos && rqs[id].write == isWrite && InTree(rqs, s.tree, id) && id !in stray
  {
    hide NoRepeat;
    var s := if isWrite then write else read;
    assert InTree(rqs, s.tree, s.tree[pos]);
  }

  lemma {:induction false} JoinOk(rqs: Rqs, read: Side, write: Side, id: nat, rq: Rq)
    requires Agree(rqs, read, write, {}, {}) && id !in rqs && rq.pos !in if rq.write then write.tree else read.tree
    ensures Agree(rqs[id := rq],
                  if rq.write then read else read.(tree := read.tree[rq.pos := id], fifo := read.fifo + [id]),
                  if rq.write then write.(tree := write.tree[rq.pos := id], fifo := write.fifo + [id]) else write,
                  {}, {})
  {
    hide SideOk;
    if rq.write {
      WithOk(rqs, write, id, rq);
      OtherWithOk(rqs, read, false, id, rq);
    } else {
      WithOk(rqs, read, id, rq);
      OtherWithOk(rqs, write, true, id, rq);
    }
  }

  lemma {:induction false} WaitsInTree(rqs: Rqs, read: Side, write: Side, id: nat)
    requires Agree(rqs, read, write, {}, {}) && id in rqs
    ensures InTree(rqs, if rqs[id].write then write.tree else read.tree, id)
    ensures id in (if rqs[id].write then write.fifo else read.fifo)
    ensures id !in if rqs[id].write then read.fifo else write.fifo
  {
    hide NoRepeat;
  }

  lemma {:induction false} DetachOk(rqs: Rqs, read: Side, write: Side, id: nat, rq: Rq)
    requires Agree(rqs, read, write, {}, {}) && id in rqs && rq.write == rqs[id].write
    ensures Agree(rqs[id := rq], if rq.write then read else read.(tree := read.tree - {rqs[id].pos}),
                  if rq.write then write.(tree := write.tree - {rqs[id].pos}) else write,
                  if rq.write then {} else {id}, if rq.write then {id} else {})
  {
    WaitsInTree(rqs, read, write, id);
    hide SideOk, InTree;
    if rq.write {
      StrayOk(rqs, write, id, rq);
      OtherWithOk(rqs, read, false, id, rq);
    } else {
      StrayOk(rqs, read, id, rq);
      OtherWithOk(rqs, write, true, id, rq);
    }
  }

  lemma {:induction false} AttachOk(rqs: Rqs, read: Side, write: Side, id: nat)
    requires id in rqs
    requires Agree(rqs, read, write, if rqs[id].write then {} else {id}, if rqs[id].write then {id} else {})
    requires rqs[id].pos !in if rqs[id].write then write.tree else read.tree
    ensures var w, p := rqs[id].write, rqs[id].pos;
      Agree(rqs, if w then read else read.(tree := read.tree[p := id]),
          if w then write.(tree := write.tree[p := id]) else write, {}, {})
  {
    hide SideOk;
    if rqs[id].write { BackOk(rqs, write, true, id); } else { BackOk(rqs, read, false, id); }
  }

  // ----- merging two requests

  /** The side after `id` has swallowed `other`, in whose place among the ages it may now be. */
  function Swallowed(rqs: Rqs, s: Side, id: nat, other: nat, sooner: bool, next: Option<nat>): Side
    requires other in rqs
  {
    Side(s.tree - {rqs[other].pos}, if sooner then Replace(Remove(s.fifo, id), other, id) else Remove(s.fifo, other),
        next)
  }

  lemma {:induction false} FifoSwap(rqs: Rqs, s: Side, write: bool, fifo: seq<nat>)
    requires SideOk(rqs, s, write, {}) && NoRepeat(fifo) && forall x :: x in fifo <==> x in s.fifo
    ensures SideOk(rqs, s.(fifo := fifo), write, {})
  {
    hide NoRepeat;
  }

  lemma {:induction false} SwallowedAges(fifo: seq<nat>, id: nat, other: nat)
    requires NoRepeat(fifo) && id in fifo && other in fifo && id != other
    ensures var r := Replace(Remove(fifo, id), other, id);
      NoRepeat(r) && |r| == |fifo| - 1 && forall x :: x in r <==> x in Remove(fifo, other)
  {
    hide NoRepeat, Remove, Replace;
    RemoveFacts(fifo, id);
    RemoveFacts(fifo, other);
    ReplaceFacts(Remove(fifo, id), other, id);
  }

  lemma {:induction false} SwallowedOk(rqs: Rqs, s: Side, write: bool, id: nat, other: nat, rq: Rq, sooner: bool,
                                       next: Option<nat>)
    requires SideOk(rqs, s, write, {}) && InTree(rqs, s.tree, id) && InTree(rqs, s.tree, other) && id != other
    requires rq.pos == rqs[id].pos && rq.write == rqs[id].write
    requires (next.Some? ==> next.value in s.fifo && next.value != other)
    ensures SideOk(rqs[id := rq] - {other}, Swallowed(rqs, s, id, other, sooner, next), write, {})
    ensures |Swallowed(rqs, s, id, other, sooner, next).fifo| == |s.fifo| - 1
  {
    assert id in s.fifo && other in s.fifo && NoRepeat(s.fifo);
    WithoutOk(rqs, s, write, {}, other, next);
    var t := Without(rqs, s, other, next);
    hide SideOk, NoRepeat, Remove, Replace, InTree;
    SamePlaceOk(rqs - {other}, t, write, id, rq);
    assert (rqs - {other})[id := rq] == rqs[id := rq] - {other};
    if sooner {
      SwallowedAges(s.fifo, id, other);
      FifoSwap(rqs[id := rq] - {other}, t, write, Replace(Remove(s.fifo, id), other, id));
    }
  }

  /** What continues the batch when `other` goes. */
  ghost predicate NextAfter(rqs: Rqs, s: Side, other: nat, next: Option<nat>)
    requires other in rqs
  {
    if s.next == Some(other) then IsLatter(s.tree, rqs[other].pos, next) else next == s.next
  }

  lemma {:induction false} SwallowedAhead(rqs: Rqs, read: Side, write: Side, id: nat, other: nat, rq: Rq,
                                          next: Option<nat>)
    requires Agree(rqs, read, write, {}, {}) && id in rqs && other in rqs && id != other
    requires rqs[id].write == rqs[other].write && rq.pos == rqs[id].pos && rq.write == rqs[id].write
    requires NextAfter(rqs, if rq.write then write else read, other, next)
    ensures var s := if rq.write then write else read;
      if s.next == Some(other) then Ahead(rqs[id := rq] - {other}, rq.write, rqs[other].pos, next) else next == s.next
  {
    MineWait(rqs, read, write, {}, {});
    hide SideOk, IsLatter, AnyAbove, LowestAbove;
    var s := if rq.write then write else read;
    if s.next == Some(other) {
      LatterAhead(rqs, s, rq.write, {}, rqs[other].pos, next);
      assert rqs - {} == rqs;
      AheadSame(rqs, rq.write, rqs[other].pos, id, rq, next);
      AheadWithout(rqs[id := rq], rq.write, rqs[other].pos, other, next);
    }
  }

  lemma {:induction false} AheadSame(rqs: Rqs, write: bool, pos: nat, id: nat, rq: Rq, next: Option<nat>)
    requires Ahead(rqs, write, pos, next) && id in rqs && rq.pos == rqs[id].pos && rq.write == rqs[id].write
    ensures Ahead(rqs[id := rq], write, pos, next)
  {
    var rqs' := rqs[id := rq];
    assert forall x | x in rqs' :: x in rqs && rqs'[x].pos == rqs[x].pos && rqs'[x].write == rqs[x].write;
    if AnyAbove(rqs', write, pos) {
      var x :| x in rqs' && rqs'[x].write == write && rqs'[x].pos > pos;
      assert rqs[x].write == write && rqs[x].pos > pos;
    }
  }

  lemma {:induction false} NextWaits(rqs: Rqs, s: Side, write: bool, other: nat, next: Option<nat>)
    requires SideOk(rqs, s, write, {}) && InTree(rqs, s.tree, other) && NextAfter(rqs, s, other, next)
    ensures next.Some? ==> next.value in s.fifo && next.value != other
  {
    hide NoRepeat, IsLatter;
    if s.next == Some(other) { LatterWaits(rqs, s, write, {}, other, next); }
  }

  lemma {:induction false} MergedSide(rqs: Rqs, mine: Side, rest: Side, write: bool, id: nat, other: nat, rq: Rq,
                                      sooner: bool, next: Option<nat>)
    requires SideOk(rqs, mine, write, {}) && SideOk(rqs, rest, !write, {}) && InTree(rqs, mine.tree, id)
    requires InTree(rqs, mine.tree, other)
    requires id != other && rq.pos == rqs[id].pos && rq.write == rqs[id].write == write && rqs[other].write == write
    requires NextAfter(rqs, mine, other, next) && forall x | x in rqs :: x in mine.fifo || x in rest.fifo
    ensures var m, rqs' := Swallowed(rqs, mine, id, other, sooner, next), rqs[id := rq] - {other};
      && SideOk(rqs', m, write, {}) && SideOk(rqs', rest, !write, {}) && |m.fifo| == |mine.fifo| - 1
      && forall x | x in rqs' :: x in m.fifo || x in rest.fifo
  {
    var m := Swallowed(rqs, mine, id, other, sooner, next);
    assert forall x :: x in m.fifo <==> x in mine.fifo && x != other by {
      SwallowedElems(rqs, mine, write, id, other, sooner, next);
    }
    assert id !in rest.fifo && other !in rest.fifo;
    NextWaits(rqs, mine, write, other, next);
    SwallowedOk(rqs, mine, write, id, other, rq, sooner, next);
    hide SideOk, InTree, IsLatter, Swallowed;
    RestOk(rqs, rest, !write, id, other, rq);
  }

  lemma {:induction false} SwallowedElems(rqs: Rqs, s: Side, write: bool, id: nat, other: nat, sooner: bool,
                                          next: Option<nat>)
    requires SideOk(rqs, s, write, {}) && InTree(rqs, s.tree, id) && InTree(rqs, s.tree, other) && id != other
    ensures forall x :: x in Swallowed(rqs, s, id, other, sooner, next).fifo <==> x in s.fifo && x != other
  {
    assert id in s.fifo && other in s.fifo && NoRepeat(s.fifo);
    hide SideOk, NoRepeat, Remove, Replace, InTree;
    RemoveFacts(s.fifo, other);
    if sooner { SwallowedAges(s.fifo, id, other); }
  }

  lemma {:induction false} RestOk(rqs: Rqs, s: Side, write: bool, id: nat, other: nat, rq: Rq)
    requires SideOk(rqs, s, write, {}) && id in rqs && id !in s.fifo && other !in s.fifo
    ensures SideOk(rqs[id := rq] - {other}, s, write, {})
  {
    hide NoRepeat;
    assert forall p | p in s.tree :: InTree(rqs, s.tree, s.tree[p]);
  }

  lemma {:induction false} MergedOk(rqs: Rqs, read: Side, write: Side, id: nat, other: nat, rq: Rq, sooner: bool,
                                    next: Option<nat>)
    requires Agree(rqs, read, write, {}, {}) && id in rqs && other in rqs && id != other
    requires rqs[id].write == rqs[other].write
    requires rq.pos == rqs[id].pos && rq.write == rqs[id].write
    requires NextAfter(rqs, if rq.write then write else read, other, next)
    ensures var w, rqs' := rq.write, rqs[id := rq] - {other};
      && Agree(rqs', if w then read else Swallowed(rqs, read, id, other, sooner, next),
               if w then Swallowed(rqs, write, id, other, sooner, next) else write, {}, {})
      && |Swallowed(rqs, if w then write else read, id, other, sooner, next).fifo| ==
         |(if w then write else read).fifo| - 1
      && id in Swallowed(rqs, if w then write else read, id, other, sooner, next).fifo
  {
    WaitsInTree(rqs, read, write, id);
    WaitsInTree(rqs, read, write, other);
    if rq.write {
      SwallowedElems(rqs, write, true, id, other, sooner, next);
    } else {
      SwallowedElems(rqs, read, false, id, other, sooner, next);
    }
    hide SideOk, InTree, IsLatter;
    if rq.write {
      MergedSide(rqs, write, read, true, id, other, rq, sooner, next);
    } else {
      MergedSide(rqs, read, write, false, id, other, rq, sooner, next);
    }
    assert next.Some? ==> (if rq.write then write else read).next.Some? by {
      NextOnly(rqs, if rq.write then write else read, other, next);
    }
  }

  lemma {:induction false} NextOnly(rqs: Rqs, s: Side, other: nat, next: Option<nat>)
    requires other in rqs && NextAfter(rqs, s, other, next)
    ensures next.Some? ==> s.next.Some?
  {
    hide IsLatter;
  }
}
