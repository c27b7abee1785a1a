/** The group service tree: groups by virtual disk time, the cached leftmost one, and how far apart
    the groups' times can drift. */
module CfqGroups {
  import opened Numbers
  import opened Options

  const SERVICE_SHIFT_FACTOR := 4096     // times are scaled up by twelve bits
  const WEIGHT_DEFAULT := 500

  type Weight = w: nat | w > 0 witness 1

  /** Time charged for a slice: less for a heavier group. */
  function ScaleSlice(delta: nat, weight: Weight): nat { delta * SERVICE_SHIFT_FACTOR * WEIGHT_DEFAULT / weight }

  datatype Node = Node(id: nat, vdisktime: nat)

  // ----- the tree, in order

  ghost predicate InOrder(t: seq<Node>) { forall i, j | 0 <= i < j < |t| :: t[i].vdisktime <= t[j].vdisktime }

  ghost predicate Unique(t: seq<Node>) { forall i, j | 0 <= i < j < |t| :: t[i].id != t[j].id }

  /** Where a group with this time goes: behind its equals. */
  ghost predicate FitsAt(t: seq<Node>, v: nat, k: nat) {
    && k <= |t|
    && (forall i | 0 <= i < k :: t[i].vdisktime <= v)
    && (forall i | k <= i < |t| :: v < t[i].vdisktime)
  }

  function At(t: seq<Node>, k: nat, n: Node): seq<Node>
    requires k <= |t|
  {
    t[..k] + [n] + t[k..]
  }

  lemma {:induction false} AtElem(t: seq<Node>, k: nat, n: Node, i: nat)
    requires k <= |t| && i <= |t|
    ensures At(t, k, n)[i] == if i < k then t[i] else if i == k then n else t[i - 1]
  {
  }

  lemma {:induction false} AtOrder(t: seq<Node>, k: nat, n: Node)
    requires InOrder(t) && FitsAt(t, n.vdisktime, k)
    ensures InOrder(At(t, k, n))
  {
    var r := At(t, k, n);
    forall i, j | 0 <= i < j < |r| ensures r[i].vdisktime <= r[j].vdisktime {
      AtElem(t, k, n, i);
      AtElem(t, k, n, j);
      hide At;
    }
  }

  ghost predicate Has(t: seq<Node>, id: nat) { exists i | 0 <= i < |t| :: t[i].id == id }

  lemma {:induction false} AtUnique(t: seq<Node>, k: nat, n: Node)
    requires Unique(t) && !Has(t, n.id) && k <= |t|
    ensures Unique(At(t, k, n))
  {
    var r := At(t, k, n);
    forall i, j | 0 <= i < j < |r| ensures r[i].id != r[j].id {
      AtElem(t, k, n, i);
      AtElem(t, k, n, j);
      hide At;
    }
  }

  function Without(t: seq<Node>, k: nat): seq<Node>
    requires k < |t|
  {
    t[..k] + t[k + 1..]
  }

  lemma {:induction false} WithoutFacts(t: seq<Node>, k: nat)
    requires InOrder(t) && Unique(t) && k < |t|
    ensures var r := Without(t, k); InOrder(r) && Unique(r) && !Has(r, t[k].id)
    ensures forall i | 0 <= i < |t| - 1 :: Without(t, k)[i] == t[if i < k then i else i + 1]
  {
    var r := Without(t, k);
    assert forall i | 0 <= i < |r| :: r[i] == t[if i < k then i else i + 1];
    hide Without;
    forall i, j | 0 <= i < j < |r| ensures r[i].vdisktime <= r[j].vdisktime && r[i].id != r[j].id {}
    forall i | 0 <= i < |r| ensures r[i].id != t[k].id {}
  }

  // ----- how far the times are apart

  function Spread(t: seq<Node>): int { if t == [] then 0 else t[|t| - 1].vdisktime - t[0].vdisktime }

  function Charged(n: Node, c: nat): Node { n.(vdisktime := n.vdisktime + c) }

  /** Group i is taken out, charged c, and put back at place k. */
  ghost predicate ChargedAt(t: seq<Node>, i: nat, c: nat, k: nat, r: seq<Node>) {
    && i < |t|
    && FitsAt(Without(t, i), Charged(t[i], c).vdisktime, k)
    && r == At(Without(t, i), k, Charged(t[i], c))
  }

  /** The leftmost group is. */
  ghost predicate ServedAt(t: seq<Node>, c: nat, k: nat, r: seq<Node>) { ChargedAt(t, 0, c, k, r) }

  lemma {:induction false} Ends(t: seq<Node>, c: nat, k: nat)
    requires t != [] && k < |t|
    ensures var w := Without(t, 0); var r := At(w, k, Charged(t[0], c));
      && |w| == |t| - 1 && |r| == |t|
      && r[0] == (if k > 0 then t[1] else Charged(t[0], c))
      && r[|w|] == (if k < |w| then t[|w|] else Charged(t[0], c))
  {
    var w := Without(t, 0);
    assert w == t[1..];
    AtElem(w, k, Charged(t[0], c), 0);
    AtElem(w, k, Charged(t[0], c), |w|);
    hide At, Without;
  }

  /** Charging the leftmost group c leaves the spread within the larger of what it was and c. */
  lemma {:induction false} ServeSpread(t: seq<Node>, c: nat, k: nat, r: seq<Node>)
    requires InOrder(t) && InOrder(r) && ServedAt(t, c, k, r)
    ensures |r| == |t| && 0 <= Spread(r) <= Max(Spread(t), c)
  {
    Ends(t, c, k);
    var n := |t| - 1;
    assert n > 0 ==> t[0].vdisktime <= t[1].vdisktime && t[0].vdisktime <= t[n].vdisktime;
    assert n > 0 ==> r[0].vdisktime <= r[n].vdisktime;
    assert k < n ==> Charged(t[0], c).vdisktime < Without(t, 0)[k].vdisktime <= t[n].vdisktime;
    hide At, Without, InOrder, FitsAt;
  }

  /** Serving the leftmost group, one charge after the other. */
  ghost predicate ServedRun(trees: seq<seq<Node>>, charges: seq<nat>) {
    && |trees| == |charges| + 1 && trees[0] != [] && InOrder(trees[0]) && Unique(trees[0])
    && forall i | 0 <= i < |charges| :: Serves(trees[i], charges[i], trees[i + 1])
  }

  ghost predicate Serves(t: seq<Node>, c: nat, r: seq<Node>) { exists k: nat :: ServedAt(t, c, k, r) }

  function MaxCharge(charges: seq<nat>): nat {
    if charges == [] then 0 else Max(MaxCharge(charges[..|charges| - 1]), charges[|charges| - 1])
  }

  lemma {:induction false} ServeKeeps(t: seq<Node>, c: nat, r: seq<Node>)
    requires InOrder(t) && Unique(t) && Serves(t, c, r)
    ensures InOrder(r) && Unique(r) && |r| == |t| && 0 <= Spread(r) <= Max(Spread(t), c)
  {
    var k: nat :| ServedAt(t, c, k, r);
    WithoutFacts(t, 0);
    hide InOrder, Unique, FitsAt, Has;
    AtOrder(Without(t, 0), k, Charged(t[0], c));
    AtUnique(Without(t, 0), k, Charged(t[0], c)) by { FitsBound(Without(t, 0), Charged(t[0], c).vdisktime, k); }
    ServeSpread(t, c, k, r);
  }

  lemma {:induction false} FitsBound(t: seq<Node>, v: nat, k: nat)
    requires FitsAt(t, v, k)
    ensures k <= |t|
  {
  }

  /** While the groups stay the same and only the one just picked is charged, the times never drift
      further apart than they were, or than the largest single charge. */
  lemma {:induction false} SpreadBounded(trees: seq<seq<Node>>, charges: seq<nat>, k: nat)
    requires ServedRun(trees, charges) && k <= |charges|
    ensures InOrder(trees[k]) && Unique(trees[k]) && |trees[k]| == |trees[0]|
    ensures 0 <= Spread(trees[k]) <= Max(Spread(trees[0]), MaxCharge(charges[..k]))
  {
    hide InOrder, Unique, Serves;
    if k == 0 {
      SpreadPositive(trees[0]);
    } else {
      SpreadBounded(trees, charges, k - 1);
      assert Serves(trees[k - 1], charges[k - 1], trees[k]);
      ServeKeeps(trees[k - 1], charges[k - 1], trees[k]);
      assert charges[..k][..k - 1] == charges[..k - 1];
    }
  }

  lemma {:induction false} SpreadPositive(t: seq<Node>)
    requires InOrder(t)
    ensures Spread(t) >= 0
  {
  }

  // ----- the tree as the scheduler keeps it

  class ServiceTree {
    var tree: seq<Node>
    var left: Option<nat>            // the cached leftmost group, if known
    var active: Option<nat>
    var minVdisktime: nat
    var nrQueues: map<nat, nat>      // busy queues of each group

    /** Busy queues of a group. */
    function Queues(id: nat): nat
      reads this
    {
      if id in nrQueues then nrQueues[id] else 0
    }

    ghost predicate Valid()
      reads this
    {
      && InOrder(tree) && Unique(tree)
      && (left.Some? ==> tree != [] && left.value == tree[0].id)
      && (forall i | 0 <= i < |tree| :: minVdisktime <= tree[i].vdisktime)
    }

    /** A group is on the tree exactly while it has busy queues. */
    ghost predicate OnTree()
      reads this
    {
      forall id: nat :: Has(tree, id) <==> Queues(id) > 0
    }

    /** Puts a group in its place; a group that passes everyone becomes the cached leftmost. */
    method Insert(n: Node)
      requires Valid() && !Has(tree, n.id) && minVdisktime <= n.vdisktime
      modifies this`tree, this`left
      ensures Valid() && exists k: nat :: FitsAt(old(tree), n.vdisktime, k) && tree == At(old(tree), k, n)
    {
      var k: nat := |tree|;
      while k > 0 && n.vdisktime < tree[k - 1].vdisktime
        invariant k <= |tree| && forall i | k <= i < |tree| :: n.vdisktime < tree[i].vdisktime
      {
        k := k - 1;
      }
      InsertFacts(tree, k, n, minVdisktime);
      hide InOrder, Unique, FitsAt, Has, At;
      if k == 0 { left := Some(n.id); }
      tree := At(tree, k, n);
    }

    /** The place of a group in the tree. */
    method Find(id: nat) returns (k: nat)
      requires Has(tree, id)
      ensures k < |tree| && tree[k].id == id
    {
      k := 0;
      while tree[k].id != id
        invariant k < |tree| && exists i | k <= i < |tree| :: tree[i].id == id
        decreases |tree| - k
      {
        k := k + 1;
      }
    }

    /** Takes a group out; if it was the cached leftmost, the cache is emptied. */
    method Erase(id: nat) returns (n: Node)
      requires Valid() && Has(tree, id)
      modifies this`tree, this`left
      ensures Valid() && n.id == id && minVdisktime <= n.vdisktime && !Has(tree, id)
      ensures exists k: nat | k < |old(tree)| :: old(tree)[k] == n && tree == Without(old(tree), k)
    {
      var k := Find(id);
      n := tree[k];
      WithoutFacts(tree, k);
      assert k > 0 ==> tree[0].id != tree[k].id && Without(tree, k)[0] == tree[0];
      hide InOrder, Unique, Has, Without;
      if left == Some(id) { left := None; }
      tree := Without(tree, k);
    }

    /** A queue of the group becomes busy.  With its first one the group joins behind all the others,
        or at the minimum if alone. */
    method AddGroup(id: nat, idleDelay: nat)
      requires Valid() && OnTree()
      modifies this`tree, this`left, this`nrQueues
      ensures Valid() && OnTree() && nrQueues == old(nrQueues)[id := old(Queues(id)) + 1]
      ensures var v := if old(tree) == [] then minVdisktime else old(tree)[|old(tree)| - 1].vdisktime + idleDelay;
        tree == if old(Queues(id)) > 0 then old(tree) else old(tree) + [Node(id, v)]
    {
      var first := Queues(id) == 0;
      nrQueues := nrQueues[id := Queues(id) + 1];
      if !first { return; }
      ghost var was := tree;
      Join(id, idleDelay);
      HasAppended(was, tree[|was|]);
      hide InOrder, Unique, Has;
    }

    method Join(id: nat, idleDelay: nat)
      requires Valid() && !Has(tree, id)
      modifies this`tree, this`left
      ensures Valid()
      ensures var v := if old(tree) == [] then minVdisktime else old(tree)[|old(tree)| - 1].vdisktime + idleDelay;
        tree == old(tree) + [Node(id, v)]
    {
      var v := if tree != [] then tree[|tree| - 1].vdisktime + idleDelay else minVdisktime;
      ghost var was := tree;
      AddedLast(tree, v);
      hide InOrder, Unique, Has;
      Insert(Node(id, v));
      ghost var k: nat :| FitsAt(was, v, k) && tree == At(was, k, Node(id, v));
      assert k == |was| && was[..k] == was && was[k..] == [];
    }

    /** The leftmost group, looked up if it is not cached. */
    method First() returns (r: Option<nat>)
      requires Valid()
      modifies this`left
      ensures Valid() && (r.None? <==> tree == []) && (r.Some? ==> r.value == tree[0].id && left == r)
    {
      if left.None? && tree != [] { left := Some(tree[0].id); }
      r := left;
    }

    /** Raises the minimum to the smaller of the active and the leftmost group's time.  Without a known
        leftmost group only the active one counts, and then the minimum may pass groups before it. */
    method UpdateMin()
      requires Valid() && (active.Some? ==> Has(tree, active.value))
      modifies this`minVdisktime
      ensures active.None? ==> minVdisktime == old(minVdisktime)
      ensures active.Some? && left.Some? ==> minVdisktime == tree[0].vdisktime
      ensures active.Some? && left.None? ==>
        exists k | 0 <= k < |tree| :: tree[k].id == active.value && minVdisktime == tree[k].vdisktime
      ensures Valid() <==> active.None? || minVdisktime == tree[0].vdisktime
    {
      var v := minVdisktime;
      if active.Some? {
        var k := Find(active.value);
        v := tree[k].vdisktime;
        assert tree[0].vdisktime <= v;
      }
      if left.Some? { v := Min(v, tree[0].vdisktime); }
      minVdisktime := Max(minVdisktime, v);
    }

    /** Picks the group to serve: one with the least time.  The minimum never goes down. */
    method NextGroup() returns (r: Option<nat>)
      requires Valid()
      modifies this`left, this`active, this`minVdisktime
      ensures Valid() && (r.None? <==> tree == []) && minVdisktime >= old(minVdisktime)
      ensures minVdisktime == if r.Some? then tree[0].vdisktime else old(minVdisktime)
      ensures r.Some? ==>
        r.value == tree[0].id && active == r && forall i | 0 <= i < |tree| :: tree[0].vdisktime <= tree[i].vdisktime
    {
      if tree == [] { return None; }
      r := First();
      active := r;
      assert Has(tree, r.value);
      UpdateMin();
    }

    /** Charges the group that was served.  If that is the leftmost, the tree makes the step whose
        spread is bounded above. */
    method Served(id: nat, slice: nat, weight: Weight)
      requires Valid() && Has(tree, id)
      modifies this`tree, this`left
      ensures Valid()
      ensures exists i: nat, k: nat | i < |old(tree)| && old(tree)[i].id == id ::
        ChargedAt(old(tree), i, ScaleSlice(slice, weight), k, tree)
      ensures old(OnTree()) ==> OnTree()
      ensures old(tree)[0].id == id ==> Serves(old(tree), ScaleSlice(slice, weight), tree)
    {
      ghost var was := tree;
      var n := Erase(id);
      ghost var k: nat :| k < |was| && was[k] == n && tree == Without(was, k);
      ghost var mid := tree;
      var c := ScaleSlice(slice, weight);
      hide ScaleSlice;
      Insert(Charged(n, c));
      ghost var j: nat :| FitsAt(mid, Charged(n, c).vdisktime, j) && tree == At(mid, j, Charged(n, c));
      assert ChargedAt(was, k, c, j, tree);
      ChargedHas(was, k, c, j, tree);
      if was[0].id == id {
        assert k == 0;
        assert ServedAt(was, c, j, tree);
      }
    }

    /** A queue of the group is no longer busy.  With the last one gone the group leaves the tree; it
        stops being the active group in any case. */
    method DelGroup(id: nat)
      requires Valid() && OnTree() && Queues(id) > 0
      modifies this`tree, this`left, this`active, this`nrQueues
      ensures Valid() && OnTree() && nrQueues == old(nrQueues)[id := old(Queues(id)) - 1]
      ensures active == if old(active) == Some(id) then None else old(active)
      ensures old(Queues(id)) > 1 ==> tree == old(tree)
      ensures old(Queues(id)) == 1 ==>
        exists k: nat | k < |old(tree)| :: old(tree)[k].id == id && tree == Without(old(tree), k)
    {
      if active == Some(id) { active := None; }
      var last := Queues(id) == 1;
      nrQueues := nrQueues[id := Queues(id) - 1];
      if !last { return; }
      ghost var was := tree;
      var _ := Erase(id);
      ghost var k: nat :| k < |was| && was[k].id == id && tree == Without(was, k);
      HasWithout(was, k);
      hide InOrder, Unique, Has, Without;
    }
  }

  lemma {:induction false} ChargedHas(t: seq<Node>, i: nat, c: nat, k: nat, r: seq<Node>)
    requires Unique(t) && ChargedAt(t, i, c, k, r)
    ensures forall id: nat :: Has(r, id) <==> Has(t, id)
  {
    HasWithout(t, i);
    HasAt(Without(t, i), k, Charged(t[i], c));
    assert Has(t, t[i].id);
    hide Has, Without, At, FitsAt, Unique;
  }

  lemma {:induction false} HasAt(t: seq<Node>, k: nat, n: Node)
    requires k <= |t|
    ensures forall id: nat :: Has(At(t, k, n), id) <==> Has(t, id) || id == n.id
  {
    var r := At(t, k, n);
    forall id: nat | Has(t, id) ensures Has(r, id) {
      var i :| 0 <= i < |t| && t[i].id == id;
      AtElem(t, k, n, if i < k then i else i + 1);
      assert r[if i < k then i else i + 1].id == id;
    }
    AtElem(t, k, n, k);
    assert r[k].id == n.id;
    forall id: nat | Has(r, id) ensures Has(t, id) || id == n.id {
      var i :| 0 <= i < |r| && r[i].id == id;
      AtElem(t, k, n, i);
    }
  }

  lemma {:induction false} HasAppended(t: seq<Node>, n: Node)
    ensures forall id: nat :: Has(t + [n], id) <==> Has(t, id) || id == n.id
  {
    forall id: nat | Has(t, id) ensures Has(t + [n], id) {
      var i :| 0 <= i < |t| && t[i].id == id;
      assert (t + [n])[i].id == id;
    }
    assert (t + [n])[|t|].id == n.id;
  }

  lemma {:induction false} HasWithout(t: seq<Node>, k: nat)
    requires Unique(t) && k < |t|
    ensures forall id: nat :: Has(Without(t, k), id) <==> Has(t, id) && id != t[k].id
  {
    var r := Without(t, k);
    forall id: nat | Has(t, id) && id != t[k].id ensures Has(r, id) {
      var i :| 0 <= i < |t| && t[i].id == id;
      assert r[if i < k then i else i - 1].id == id;
    }
    forall id: nat | Has(r, id) ensures Has(t, id) && id != t[k].id {
      var i :| 0 <= i < |r| && r[i].id == id;
      assert t[if i < k then i else i + 1].id == id;
    }
  }

  lemma {:induction false} InsertFacts(t: seq<Node>, k: nat, n: Node, min: nat)
    requires InOrder(t) && Unique(t) && !Has(t, n.id) && k <= |t| && min <= n.vdisktime
    requires forall i | k <= i < |t| :: n.vdisktime < t[i].vdisktime
    requires k > 0 ==> t[k - 1].vdisktime <= n.vdisktime
    requires forall i | 0 <= i < |t| :: min <= t[i].vdisktime
    ensures FitsAt(t, n.vdisktime, k) && InOrder(At(t, k, n)) && Unique(At(t, k, n)) && |At(t, k, n)| == |t| + 1
    ensures forall i | 0 <= i <= |t| :: min <= At(t, k, n)[i].vdisktime
    ensures At(t, k, n)[0] == if k == 0 then n else t[0]
  {
    assert FitsAt(t, n.vdisktime, k) by { assert forall i | 0 <= i < k :: t[i].vdisktime <= t[k - 1].vdisktime; }
    AtOrder(t, k, n);
    AtUnique(t, k, n);
    AtElem(t, k, n, 0);
    forall i | 0 <= i <= |t| ensures min <= At(t, k, n)[i].vdisktime { AtElem(t, k, n, i); }
  }

  lemma {:induction false} AddedLast(t: seq<Node>, v: nat)
    requires InOrder(t) && (t != [] ==> t[|t| - 1].vdisktime <= v)
    ensures forall k: nat | FitsAt(t, v, k) :: k == |t|
  {
    assert t != [] ==> !(v < t[|t| - 1].vdisktime);
  }
}
