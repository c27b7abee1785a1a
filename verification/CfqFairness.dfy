/** What charging by weight achieves: groups that stay busy are served in proportion to their weights. */
module CfqFairness {
  import opened Multiples
  import opened Numbers
  import opened CfqGroups

  /** What a slice costs at the default weight, per unit. */
  const UNIT := 2048000

  /** The charge is the slice divided by the weight, but for what the division drops. */
  lemma {:induction false} ScaleExact(delta: nat, weight: Weight)
    ensures var c := ScaleSlice(delta, weight); weight * c <= UNIT * delta < weight * (c + 1)
  {
    var n := delta * SERVICE_SHIFT_FACTOR * WEIGHT_DEFAULT;
    assert n == UNIT * delta;
    assert n == weight * (n / weight) + n % weight;
    assert weight * (n / weight + 1) == weight * (n / weight) + weight;
  }

  /** A heavier group is charged no more for the same slice, and at the default weight exactly the slice. */
  lemma {:induction false} HeavierChargedLess(delta: nat, light: Weight, heavy: Weight)
    requires light <= heavy
    ensures ScaleSlice(delta, heavy) <= ScaleSlice(delta, light)
    ensures ScaleSlice(delta, 500) == 4096 * delta
  {
    ScaleExact(delta, light);
    ScaleExact(delta, heavy);
    ScaleExact(delta, 500);
    var c, d := ScaleSlice(delta, light), ScaleSlice(delta, heavy);
    hide ScaleSlice;
    if c < d {
      MulMono(light, heavy, c + 1);
      MulMono(c + 1, d, heavy);
    }
  }

  /** Turns of a fixed set of groups: each time the leftmost is served for a slice and charged for it. */
  ghost predicate Turns(trees: seq<seq<Node>>, slices: seq<nat>, charges: seq<nat>, weights: map<nat, Weight>) {
    && |slices| == |charges| && ServedRun(trees, charges)
    && (forall i | 0 <= i < |charges| :: ChargedFor(trees[i], slices[i], charges[i], weights))
  }

  ghost predicate ChargedFor(t: seq<Node>, slice: nat, charge: nat, weights: map<nat, Weight>) {
    t != [] && t[0].id in weights && charge == ScaleSlice(slice, weights[t[0].id])
  }

  predicate Serving(t: seq<Node>, id: nat) { t != [] && t[0].id == id }

  /** How often a group was served in the first k turns, and the sum of what `amounts` says for those. */
  ghost function TurnsOf(trees: seq<seq<Node>>, id: nat, k: nat): nat
    requires k <= |trees|
  {
    if k == 0 then 0 else TurnsOf(trees, id, k - 1) + if Serving(trees[k - 1], id) then 1 else 0
  }

  ghost function SumOf(trees: seq<seq<Node>>, amounts: seq<nat>, id: nat, k: nat): nat
    requires k <= |trees| && k <= |amounts|
  {
    if k == 0 then 0 else SumOf(trees, amounts, id, k - 1) + if Serving(trees[k - 1], id) then amounts[k - 1] else 0
  }

  ghost predicate TimeIs(t: seq<Node>, id: nat, v: nat) { exists i | 0 <= i < |t| :: t[i] == Node(id, v) }

  lemma {:induction false} AtTimes(t: seq<Node>, k: nat, n: Node, id: nat, v: nat)
    requires k <= |t| && (n == Node(id, v) || TimeIs(t, id, v))
    ensures TimeIs(At(t, k, n), id, v)
  {
    assert |At(t, k, n)| == |t| + 1;
    hide At;
    if n == Node(id, v) {
      AtElem(t, k, n, k);
      assert At(t, k, n)[k] == Node(id, v);
    } else {
      var i :| 0 <= i < |t| && t[i] == Node(id, v);
      var j := if i < k then i else i + 1;
      AtElem(t, k, n, j);
      assert At(t, k, n)[j] == Node(id, v);
    }
  }

  lemma {:induction false} RestTimes(t: seq<Node>, id: nat, v: nat)
    requires TimeIs(t, id, v) && Unique(t)
    ensures if t[0].id == id then t[0] == Node(id, v) else TimeIs(Without(t, 0), id, v)
  {
    var i :| 0 <= i < |t| && t[i] == Node(id, v);
    assert i > 0 ==> t[0].id != t[i].id;
    assert Without(t, 0) == t[1..];
    if i > 0 { assert t[1..][i - 1] == Node(id, v); }
  }

  lemma {:induction false} ServeTime(t: seq<Node>, c: nat, r: seq<Node>, id: nat, v: nat)
    requires Unique(t) && Serves(t, c, r) && TimeIs(t, id, v)
    ensures TimeIs(r, id, if Serving(t, id) then v + c else v)
  {
    var k: nat :| ServedAt(t, c, k, r);
    RestTimes(t, id, v);
    FitsBound(Without(t, 0), Charged(t[0], c).vdisktime, k);
    hide Unique, FitsAt, Without, At, TimeIs;
    AtTimes(Without(t, 0), k, Charged(t[0], c), id, if t[0].id == id then v + c else v);
  }

  /** A group's time grows by what it is charged. */
  lemma {:induction false} TimeGrows(trees: seq<seq<Node>>, charges: seq<nat>, id: nat, v: nat, k: nat)
    requires ServedRun(trees, charges) && k <= |charges| && TimeIs(trees[0], id, v)
    ensures TimeIs(trees[k], id, v + SumOf(trees, charges, id, k))
  {
    hide TimeIs, Serves, InOrder, Unique, Serving;
    if k > 0 {
      TimeGrows(trees, charges, id, v, k - 1);
      SpreadBounded(trees, charges, k - 1);
      assert Serves(trees[k - 1], charges[k - 1], trees[k]);
      ServeTime(trees[k - 1], charges[k - 1], trees[k], id, v + SumOf(trees, charges, id, k - 1));
    }
  }

  lemma {:induction false} WithinSpread(t: seq<Node>, a: nat, v: nat, b: nat, w: nat)
    requires InOrder(t) && TimeIs(t, a, v) && TimeIs(t, b, w)
    ensures v - w <= Spread(t)
  {
    var i :| 0 <= i < |t| && t[i] == Node(a, v);
    var j :| 0 <= j < |t| && t[j] == Node(b, w);
    assert t[0].vdisktime <= t[j].vdisktime && t[i].vdisktime <= t[|t| - 1].vdisktime;
  }

  /** Slices and charges of a group agree but for what the division drops, once a turn. */
  lemma {:induction false} SlicesCharged(trees: seq<seq<Node>>, slices: seq<nat>, charges: seq<nat>,
                                         weights: map<nat, Weight>, id: nat, k: nat)
    requires Turns(trees, slices, charges, weights) && k <= |charges| && id in weights
    ensures var c := SumOf(trees, charges, id, k); var s := UNIT * SumOf(trees, slices, id, k);
      weights[id] * c <= s <= weights[id] * (c + TurnsOf(trees, id, k))
  {
    assert |trees| == |charges| + 1;
    hide ServedRun;
    if k > 0 {
      SlicesCharged(trees, slices, charges, weights, id, k - 1);
      assert ChargedFor(trees[k - 1], slices[k - 1], charges[k - 1], weights);
      if Serving(trees[k - 1], id) {
        ScaleExact(slices[k - 1], weights[id]);
        hide ScaleSlice;
        OneMore(weights[id], SumOf(trees, charges, id, k - 1), TurnsOf(trees, id, k - 1), charges[k - 1],
                UNIT * SumOf(trees, slices, id, k - 1), UNIT * slices[k - 1]);
      }
    }
  }

  lemma {:induction false} OneMore(w: nat, c: nat, n: nat, d: nat, s: nat, e: nat)
    requires w * c <= s <= w * (c + n) && w * d <= e < w * (d + 1)
    ensures w * (c + d) <= s + e <= w * (c + d + (n + 1))
  {
    assert w * (c + d) == w * c + w * d;
    assert w * (c + d + (n + 1)) == w * (c + n) + w * (d + 1);
  }

  /** How far the charges of two groups can be apart: what the times were apart, and may be. */
  ghost function Slack(trees: seq<seq<Node>>, charges: seq<nat>): int
    requires trees != []
  {
    Spread(trees[0]) + Max(if Spread(trees[0]) < 0 then 0 else Spread(trees[0]), MaxCharge(charges))
  }

  lemma {:induction false} ChargesClose(trees: seq<seq<Node>>, charges: seq<nat>, a: nat, v: nat, b: nat, w: nat)
    requires ServedRun(trees, charges) && TimeIs(trees[0], a, v) && TimeIs(trees[0], b, w)
    ensures var n := |charges|; SumOf(trees, charges, a, n) - SumOf(trees, charges, b, n) <= Slack(trees, charges)
  {
    hide TimeIs, InOrder, Serves, Unique, SumOf;
    var n := |charges|;
    WithinSpread(trees[0], b, w, a, v);
    TimeGrows(trees, charges, a, v, n);
    TimeGrows(trees, charges, b, w, n);
    SpreadBounded(trees, charges, n);
    assert charges[..n] == charges;
    WithinSpread(trees[n], a, v + SumOf(trees, charges, a, n), b, w + SumOf(trees, charges, b, n));
  }

  /** The main result: whatever the slices, two groups that stay on the tree get disk time in proportion to
      their weights.  Time divided by weight differs by no more than the slack and one unit for each turn,
      however long the run. */
  lemma {:induction false} ServedByWeight(trees: seq<seq<Node>>, slices: seq<nat>, charges: seq<nat>,
                                          weights: map<nat, Weight>, a: nat, v: nat, b: nat, w: nat)
    requires Turns(trees, slices, charges, weights) && a in weights && b in weights
    requires TimeIs(trees[0], a, v) && TimeIs(trees[0], b, w)
    ensures var n := |charges|; var slack := Slack(trees, charges) + TurnsOf(trees, a, n);
      UNIT * SumOf(trees, slices, a, n) * weights[b] <=
      UNIT * SumOf(trees, slices, b, n) * weights[a] + weights[a] * weights[b] * slack
  {
    var n := |charges|;
    SlicesCharged(trees, slices, charges, weights, a, n);
    SlicesCharged(trees, slices, charges, weights, b, n);
    ChargesClose(trees, charges, a, v, b, w);
    hide ServedRun, TimeIs, SumOf, TurnsOf, Slack;
    Cross(weights[a], weights[b], UNIT * SumOf(trees, slices, a, n), UNIT * SumOf(trees, slices, b, n),
          SumOf(trees, charges, a, n), SumOf(trees, charges, b, n), TurnsOf(trees, a, n), Slack(trees, charges));
  }

  lemma {:induction false} Cross(p: nat, q: nat, s: nat, t: nat, c: nat, d: nat, n: nat, slack: int)
    requires s <= p * (c + n) && q * d <= t && c - d <= slack
    ensures s * q <= t * p + p * q * (slack + n)
  {
    var m := d + slack + n;
    MulMono(s, p * (c + n), q);
    MulMono(q * d, t, p);
    MulMono(c + n, m, p * q);
    assert p * (c + n) * q == (c + n) * (p * q);
    assert m * (p * q) == q * d * p + p * q * (slack + n) by { Spread3(p, q, d, slack + n); }
  }

  lemma {:induction false} Spread3(p: nat, q: nat, d: nat, e: int)
    ensures (d + e) * (p * q) == q * d * p + p * q * e
  {
    var pq := p * q;
    assert (d + e) * pq == d * pq + e * pq;
    assert d * pq == q * d * p;
  }
}
