/** The scheduler's merge hash: requests by the sector they end at. */
module RequestHash {
  import opened Lists
  import opened Options

  const ENTRIES := 64
  const GOLDEN_RATIO_PRIME := 0x9e37fffffffc0001
  const TWO64 := 0x1_0000_0000_0000_0000

  /** The bucket of an end sector: a multiplicative hash of its 4 KiB block, top six bits. */
  function Bucket(sector: nat): (b: nat)
    ensures b < ENTRIES
  {
    (sector / 8 * GOLDEN_RATIO_PRIME) % TWO64 / 0x400_0000_0000_0000
  }

  datatype Rq = Rq(pos: nat, sectors: nat, mergeable: bool)

  function Key(r: Rq): nat { r.pos + r.sectors }

  type Chains = seq<seq<nat>>

  /** On the hash: linked in some chain. */
  predicate OnHash(chains: Chains, id: nat) { exists b | 0 <= b < |chains| :: id in chains[b] }

  /** Every linked request is known and in the bucket of its current end sector, but for `stray`,
      which may be anywhere. */
  ghost predicate Placed(chains: Chains, rqs: map<nat, Rq>, stray: set<nat>) {
    && |chains| == ENTRIES
    && (forall b | 0 <= b < ENTRIES :: NoRepeat(chains[b]))
    && (forall b, id | 0 <= b < ENTRIES && id in chains[b] && id !in stray :: id in rqs && Bucket(Key(rqs[id])) == b)
  }

  /** The chains after a request is unlinked, wherever it was. */
  function Unlinked(chains: Chains, id: nat): (r: Chains)
    ensures |r| == |chains|
  {
    seq(|chains|, b requires 0 <= b < |chains| => Remove(chains[b], id))
  }

  lemma {:induction false} UnlinkedFacts(chains: Chains, rqs: map<nat, Rq>, id: nat, stray: set<nat>)
    requires Placed(chains, rqs, stray)
    ensures Placed(Unlinked(chains, id), rqs, stray - {id})
    ensures forall x :: OnHash(Unlinked(chains, id), x) <==> OnHash(chains, x) && x != id
  {
    hide Bucket, NoRepeat;
    var r := Unlinked(chains, id);
    forall b | 0 <= b < |chains| ensures NoRepeat(r[b]) && forall x :: x in r[b] <==> x in chains[b] && x != id {
      RemoveFacts(chains[b], id);
    }
    forall x ensures OnHash(r, x) <==> OnHash(chains, x) && x != id {
      if OnHash(chains, x) && x != id {
        var b :| 0 <= b < |chains| && x in chains[b];
        assert x in r[b];
      }
    }
  }

  /** The chains after a request is linked at the head of one. */
  function Linked(chains: Chains, b: nat, id: nat): Chains
    requires b < |chains|
  {
    chains[b := [id] + chains[b]]
  }

  lemma {:induction false} LinkedFacts(chains: Chains, rqs: map<nat, Rq>, id: nat)
    requires Placed(chains, rqs, {}) && id in rqs && !OnHash(chains, id)
    ensures Placed(Linked(chains, Bucket(Key(rqs[id])), id), rqs, {})
    ensures forall x :: OnHash(Linked(chains, Bucket(Key(rqs[id])), id), x) <==> OnHash(chains, x) || x == id
  {
    hide Bucket;
    var h := Bucket(Key(rqs[id]));
    var r := Linked(chains, h, id);
    assert NoRepeat(chains[h]) && id !in chains[h];
    assert forall x :: x in r[h] <==> x in chains[h] || x == id;
    forall x ensures OnHash(r, x) <==> OnHash(chains, x) || x == id {
      if OnHash(chains, x) {
        var b :| 0 <= b < |chains| && x in chains[b];
        assert x in r[b];
      }
      if x == id { assert x in r[h]; }
    }
  }

  /** Only requests that are allowed to stray have changed. */
  lemma {:induction false} PlacedWith(chains: Chains, rqs: map<nat, Rq>, rqs': map<nat, Rq>, id: nat)
    requires Placed(chains, rqs, {}) && forall x | x in rqs && x != id :: x in rqs' && rqs'[x] == rqs[x]
    ensures Placed(chains, rqs', {id})
    ensures id in rqs && id in rqs' && Key(rqs'[id]) == Key(rqs[id]) ==> Placed(chains, rqs', {})
  {
    hide Bucket, NoRepeat;
  }

  class ElevatorHash {
    var chains: Chains
    var rqs: map<nat, Rq>            // the requests the scheduler knows, by name

    ghost predicate Valid()
      reads this
    {
      Placed(chains, rqs, {})
    }

    constructor ()
      ensures Valid() && rqs == map[] && forall id :: !OnHash(chains, id)
    {
      chains := seq(ENTRIES, _ => []);
      rqs := map[];
    }

    /** Unlinks a request from whatever chain it is on. */
    method Unhash(id: nat)
      requires Placed(chains, rqs, {id})
      modifies this`chains
      ensures Valid() && chains == Unlinked(old(chains), id)
      ensures forall x :: OnHash(chains, x) <==> OnHash(old(chains), x) && x != id
    {
      hide Placed, OnHash;
      UnlinkedFacts(chains, rqs, id, {id});
      assert {id} - {id} == {};
      chains := Unlinked(chains, id);
    }

    /** Links a request at the head of its chain; the fatal check is that it is not linked yet. */
    method Hash(id: nat)
      requires Valid() && id in rqs && !OnHash(chains, id)
      modifies this`chains
      ensures Valid()
      ensures forall x :: OnHash(chains, x) <==> OnHash(old(chains), x) || x == id
    {
      assert |chains| == ENTRIES;
      hide Placed, OnHash, Bucket;
      LinkedFacts(chains, rqs, id);
      chains := Linked(chains, Bucket(Key(rqs[id])), id);
    }

    /** Moves a request whose end sector has changed to its new chain. */
    method Reposition(id: nat)
      requires Placed(chains, rqs, {id}) && id in rqs
      modifies this`chains
      ensures Valid()
      ensures forall x :: OnHash(chains, x) <==> OnHash(old(chains), x) || x == id
    {
      hide Placed, OnHash;
      Unhash(id);
      Hash(id);
    }

    /** A new request enters the scheduler; only a mergeable one is hashed. */
    method Insert(id: nat, rq: Rq)
      requires Valid() && id !in rqs
      modifies this
      ensures Valid() && rqs == old(rqs)[id := rq]
      ensures forall x :: OnHash(chains, x) <==> OnHash(old(chains), x) || (x == id && rq.mergeable)
    {
      NotKnownNotHashed(chains, rqs, id);
      PlacedWith(chains, rqs, rqs[id := rq], id);
      StrayAbsent(chains, rqs[id := rq], id);
      hide Placed, OnHash;
      rqs := rqs[id := rq];
      if rq.mergeable { Hash(id); }
    }

    /** A bio of `sectors` is appended to a request: its end moves, and so does its place. */
    method BackMerge(id: nat, sectors: nat)
      requires Valid() && id in rqs
      modifies this
      ensures Valid() && rqs == old(rqs)[id := old(rqs)[id].(sectors := old(rqs)[id].sectors + sectors)]
      ensures forall x :: OnHash(chains, x) <==> OnHash(old(chains), x) || x == id
    {
      var rqs' := rqs[id := rqs[id].(sectors := rqs[id].sectors + sectors)];
      PlacedWith(chains, rqs, rqs', id);
      hide Placed, OnHash;
      rqs := rqs';
      Reposition(id);
    }

    /** A bio is put in front: the start moves down by as much as the length grows, so the end stays. */
    method FrontMerge(id: nat, sectors: nat)
      requires Valid() && id in rqs && sectors <= rqs[id].pos
      modifies this`rqs
      ensures Valid()
      ensures rqs == old(rqs)[id := old(rqs)[id].(pos := old(rqs)[id].pos - sectors,
          sectors := old(rqs)[id].sectors + sectors)]
    {
      var rqs' := rqs[id := rqs[id].(pos := rqs[id].pos - sectors, sectors := rqs[id].sectors + sectors)];
      PlacedWith(chains, rqs, rqs', id);
      hide Placed;
      rqs := rqs';
    }

    /** One request swallows the one behind it. */
    method MergeRequests(id: nat, next: nat)
      requires Valid() && id in rqs && next in rqs && id != next
      modifies this
      ensures Valid()
      ensures rqs == old(rqs)[id := old(rqs)[id].(sectors := old(rqs)[id].sectors + old(rqs)[next].sectors)] - {next}
      ensures forall x :: OnHash(chains, x) <==> (OnHash(old(chains), x) || x == id) && x != next
    {
      var rqs' := rqs[id := rqs[id].(sectors := rqs[id].sectors + rqs[next].sectors)];
      PlacedWith(chains, rqs, rqs', id);
      hide Placed, OnHash;
      rqs := rqs';
      Reposition(id);
      Dispatch(next);
    }

    /** A request leaves for the dispatch list. */
    method Dispatch(id: nat)
      requires Valid() && id in rqs
      modifies this
      ensures Valid() && rqs == old(rqs) - {id}
      ensures forall x :: OnHash(chains, x) <==> OnHash(old(chains), x) && x != id
    {
      PlacedWith(chains, rqs, rqs, id);
      Unhash(id);
      NotHashedForget(chains, rqs, id);
      hide Placed, OnHash;
      rqs := rqs - {id};
    }

    /** Merging is forbidden from now on; the request stays where it is until a search meets it. */
    method ForbidMerging(id: nat)
      requires Valid() && id in rqs
      modifies this`rqs
      ensures Valid() && rqs == old(rqs)[id := old(rqs)[id].(mergeable := false)]
    {
      PlacedWith(chains, rqs, rqs[id := rqs[id].(mergeable := false)], id);
      hide Placed;
      rqs := rqs[id := rqs[id].(mergeable := false)];
    }

    /** Finds a mergeable request that ends at `offset`, unlinking unmergeable ones on its way.  It
        finds one exactly when a scan of everything on the hash would. */
    method Find(offset: nat) returns (r: Option<nat>)
      requires Valid()
      modifies this`chains
      ensures Valid()
      ensures r.Some? <==>
        exists id :: OnHash(old(chains), id) && id in rqs && rqs[id].mergeable &&
                     rqs[id].pos + rqs[id].sectors == offset
      ensures r.Some? ==>
        && OnHash(chains, r.value) && r.value in rqs && rqs[r.value].mergeable
        && rqs[r.value].pos + rqs[r.value].sectors == offset
      ensures forall id :: OnHash(chains, id) ==> OnHash(old(chains), id)
      ensures forall id | OnHash(old(chains), id) && !OnHash(chains, id) :: id in rqs && !rqs[id].mergeable
    {
      var b, k := Bucket(offset), 0;
      r := None;
      while k < |chains[b]|
        invariant Valid() && k <= |chains[b]|
        invariant forall i | 0 <= i < k :: chains[b][i] in rqs && Key(rqs[chains[b][i]]) != offset
        invariant forall id :: OnHash(chains, id) ==> OnHash(old(chains), id)
        invariant forall id | OnHash(old(chains), id) && !OnHash(chains, id) :: id in rqs && !rqs[id].mergeable
        decreases |chains[b]| - k
      {
        var id := chains[b][k];
        Known(chains, rqs, b, k);
        if !rqs[id].mergeable {
          RemoveAt(chains[b], k);
          PlacedWith(chains, rqs, rqs, id);
          Unhash(id);
        } else if Key(rqs[id]) == offset {
          assert OnHash(chains, id);
          r := Some(id);
          return;
        } else {
          k := k + 1;
        }
      }
      NoneLeft(chains, rqs, offset);
    }
  }

  lemma {:induction false} Known(chains: Chains, rqs: map<nat, Rq>, b: nat, k: nat)
    requires Placed(chains, rqs, {}) && b < ENTRIES && k < |chains[b]|
    ensures chains[b][k] in rqs && NoRepeat(chains[b]) && OnHash(chains, chains[b][k])
  {
    hide Bucket;
    assert chains[b][k] in chains[b];
  }

  lemma {:induction false} NotKnownNotHashed(chains: Chains, rqs: map<nat, Rq>, id: nat)
    requires Placed(chains, rqs, {}) && id !in rqs
    ensures !OnHash(chains, id)
  {
    hide Bucket;
  }

  lemma {:induction false} StrayAbsent(chains: Chains, rqs: map<nat, Rq>, id: nat)
    requires Placed(chains, rqs, {id}) && !OnHash(chains, id)
    ensures Placed(chains, rqs, {})
  {
    hide Bucket, NoRepeat;
  }

  lemma {:induction false} NotHashedForget(chains: Chains, rqs: map<nat, Rq>, id: nat)
    requires Placed(chains, rqs, {}) && !OnHash(chains, id)
    ensures Placed(chains, rqs - {id}, {})
  {
    hide Bucket, NoRepeat;
  }

  /** A chain without the end sector means no hashed request has it. */
  lemma {:induction false} NoneLeft(chains: Chains, rqs: map<nat, Rq>, offset: nat)
    requires Placed(chains, rqs, {})
    requires forall i | 0 <= i < |chains[Bucket(offset)]| ::
      chains[Bucket(offset)][i] in rqs && Key(rqs[chains[Bucket(offset)][i]]) != offset
    ensures forall id | OnHash(chains, id) :: id in rqs && Key(rqs[id]) != offset
  {
    hide Bucket, NoRepeat;
    forall id | OnHash(chains, id) ensures id in rqs && Key(rqs[id]) != offset {
      var b :| 0 <= b < |chains| && id in chains[b];
      assert Bucket(Key(rqs[id])) == b;
    }
  }
}
