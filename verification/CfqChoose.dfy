/** Which request the disk head should go to next: a preference for a fixed head position, and the
    neighbour search that finds the best without looking at the rest. */
module CfqChoose {
  import opened Multiples
  import opened Options

  datatype Rq = Rq(id: nat, pos: nat, sync: bool, meta: bool)

  /** How far back a seek may go, in sectors, and how much dearer it is than one forward. */
  datatype Seek = Seek(backMax: nat, penalty: nat)

  predicate Wraps(k: Seek, s: nat, last: nat) { s < last && s + k.backMax < last }

  /** The cost of a seek that does not wrap. */
  function Distance(k: Seek, s: nat, last: nat): nat {
    if s >= last then s - last else (last - s) * k.penalty
  }

  /** The pairwise choice. */
  function Choose(k: Seek, rq1: Option<Rq>, rq2: Option<Rq>, last: nat): Option<Rq> {
    if rq1.None? || rq1 == rq2 then rq2
    else if rq2.None? then rq1
    else Some(ChooseOf(k, rq1.value, rq2.value, last))
  }

  function ChooseOf(k: Seek, a: Rq, b: Rq, last: nat): Rq {
    if a.sync && !b.sync then a
    else if b.sync && !a.sync then b
    else if a.meta && !b.meta then a
    else if b.meta && !a.meta then b
    else
      var d1, d2 := Distance(k, a.pos, last), Distance(k, b.pos, last);
      if !Wraps(k, a.pos, last) && !Wraps(k, b.pos, last) then
        if d1 < d2 then a else if d2 < d1 then b else if a.pos >= b.pos then a else b
      else if !Wraps(k, a.pos, last) then a
      else if !Wraps(k, b.pos, last) then b
      else if a.pos <= b.pos then a else b
  }

  // ----- the preference behind it

  /** Among positions: unwrapped first and nearest, ties to the higher; then wrapped, lowest first. */
  predicate Nearer(k: Seek, s: nat, t: nat, last: nat) {
    if Wraps(k, s, last) then Wraps(k, t, last) && s <= t
    else Wraps(k, t, last) || Distance(k, s, last) < Distance(k, t, last) ||
         (Distance(k, s, last) == Distance(k, t, last) && s >= t)
  }

  /** a is at least as good as b. */
  predicate Prefers(k: Seek, a: Rq, b: Rq, last: nat) {
    if a.sync != b.sync then a.sync
    else if a.meta != b.meta then a.meta
    else Nearer(k, a.pos, b.pos, last)
  }

  lemma {:induction false} NearerOrder(k: Seek, s: nat, t: nat, u: nat, last: nat)
    ensures Nearer(k, s, t, last) || Nearer(k, t, s, last)
    ensures Nearer(k, s, t, last) && Nearer(k, t, u, last) ==> Nearer(k, s, u, last)
    ensures Nearer(k, s, t, last) && Nearer(k, t, s, last) ==> s == t
  {
    hide Distance;
  }

  /** For a fixed head position the preference is total, transitive, and indifferent only between
      requests of one class at one sector. */
  lemma {:induction false} PrefersOrder(k: Seek, a: Rq, b: Rq, c: Rq, last: nat)
    ensures Prefers(k, a, b, last) || Prefers(k, b, a, last)
    ensures Prefers(k, a, b, last) && Prefers(k, b, c, last) ==> Prefers(k, a, c, last)
    ensures Prefers(k, a, b, last) && Prefers(k, b, a, last) ==> a.pos == b.pos && a.sync == b.sync && a.meta == b.meta
  {
    hide Nearer;
    NearerOrder(k, a.pos, b.pos, c.pos, last);
  }

  /** The pairwise choice is one of the two and at least as good as the other. */
  lemma {:induction false} ChooseIsBetter(k: Seek, a: Rq, b: Rq, last: nat)
    ensures var r := ChooseOf(k, a, b, last); (r == a || r == b) && Prefers(k, r, a, last) && Prefers(k, r, b, last)
  {
    hide Distance;
  }

  /** The rule in plain terms, for requests of one class, `a` at the lower sector.  It is taken if both lie ahead
      of the head, if both lie further behind than a seek may go back, or if only it lies behind, in reach, and
      the way back, times the penalty, is shorter than the way forward. */
  predicate TakesLower(k: Seek, a: Rq, b: Rq, last: nat) {
    || last <= a.pos
    || b.pos + k.backMax < last
    || (a.pos < last <= b.pos && last <= a.pos + k.backMax && (last - a.pos) * k.penalty < b.pos - last)
  }

  lemma {:induction false} SeekRule(k: Seek, a: Rq, b: Rq, last: nat)
    requires a.sync == b.sync && a.meta == b.meta && a.pos < b.pos
    ensures ChooseOf(k, a, b, last) == ChooseOf(k, b, a, last) == if TakesLower(k, a, b, last) then a else b
  {
    if b.pos < last { MulMono(last - b.pos, last - a.pos, k.penalty); }
  }

  /** Between classes the position does not matter: synchronous first, then metadata. */
  lemma {:induction false} ClassRule(k: Seek, a: Rq, b: Rq, last: nat)
    requires (a.sync && !b.sync) || (a.sync == b.sync && a.meta && !b.meta)
    ensures ChooseOf(k, a, b, last) == a && ChooseOf(k, b, a, last) == a
  {
    hide Distance, Wraps;
  }

  // ----- the best of all

  ghost predicate Best(k: Seek, r: Rq, rqs: seq<Rq>, last: nat) {
    r in rqs && forall x | x in rqs :: Prefers(k, r, x, last)
  }

  /** Choosing one after the other over a whole list. */
  function BestOf(k: Seek, rqs: seq<Rq>, last: nat): Option<Rq> {
    if rqs == [] then None else Choose(k, Some(rqs[0]), BestOf(k, rqs[1..], last), last)
  }

  lemma {:induction false} BestOfIsBest(k: Seek, rqs: seq<Rq>, last: nat)
    requires rqs != []
    ensures BestOf(k, rqs, last).Some? && Best(k, BestOf(k, rqs, last).value, rqs, last)
  {
    hide Prefers, ChooseOf;
    PrefersOrder(k, rqs[0], rqs[0], rqs[0], last);
    if |rqs| > 1 {
      var rest := rqs[1..];
      BestOfIsBest(k, rest, last);
      var m := BestOf(k, rest, last).value;
      ChooseIsBetter(k, rqs[0], m, last);
      var r := BestOf(k, rqs, last).value;
      PrefersOrder(k, m, m, m, last);
      assert r == rqs[0] || r in rest;
      forall x | x in rqs ensures Prefers(k, r, x, last) {
        if x != rqs[0] {
          assert x in rest;
          PrefersOrder(k, r, m, x, last);
        }
      }
    } else {
      assert BestOf(k, rqs[1..], last) == None;
      assert forall x | x in rqs :: x == rqs[0];
    }
  }

  /** With distinct sectors there is only one best. */
  lemma {:induction false} BestUnique(k: Seek, r: Rq, t: Rq, rqs: seq<Rq>, last: nat)
    requires Best(k, r, rqs, last) && Best(k, t, rqs, last)
    requires forall x, y | x in rqs && y in rqs && x.pos == y.pos :: x == y
    ensures r == t
  {
    hide Prefers;
    PrefersOrder(k, r, t, r, last);
  }

  // ----- the neighbour search

  /** A sort tree: requests by sector, no two at one. */
  ghost predicate Tree(t: seq<Rq>) { forall i, j | 0 <= i < j < |t| :: t[i].pos < t[j].pos }

  /** Looks at the next request, or the first when there is none, and at the previous one. */
  function FindNext(k: Seek, t: seq<Rq>, i: nat): Option<Rq>
    requires i < |t|
  {
    var prev := if i > 0 then Some(t[i - 1]) else None;
    var next := if i + 1 < |t| then Some(t[i + 1]) else if i != 0 then Some(t[0]) else None;
    Choose(k, next, prev, t[i].pos)
  }

  function Others(t: seq<Rq>, i: nat): seq<Rq>
    requires i < |t|
  {
    t[..i] + t[i + 1..]
  }

  ghost predicate SameClass(rqs: seq<Rq>) {
    forall x, y | x in rqs && y in rqs :: x.sync == y.sync && x.meta == y.meta
  }

  /** Ahead of the head the nearest is the best; behind it too, unless it is out of reach, and then
      the lowest is. */
  lemma {:induction false} NeighbourNearer(k: Seek, s: nat, t: nat, last: nat)
    ensures last < s <= t ==> Nearer(k, s, t, last)
    ensures t <= s < last && !Wraps(k, s, last) ==> Nearer(k, s, t, last)
    ensures s <= t < last && Wraps(k, t, last) ==> Nearer(k, s, t, last)
    ensures t < last < s && Wraps(k, t, last) ==> Nearer(k, s, t, last)
  {
    if t <= s < last { MulMono(last - s, last - t, k.penalty); }
  }

  /** The two requests the search looks at; one when there is nothing before the head. */
  function NextOf(t: seq<Rq>, i: nat): Rq
    requires i < |t| && |t| > 1
  {
    if i + 1 < |t| then t[i + 1] else t[0]
  }

  function PrevOf(t: seq<Rq>, i: nat): Rq
    requires i < |t| && |t| > 1
  {
    if i > 0 then t[i - 1] else t[i + 1]
  }

  /** Behind the head and within reach, so that the previous request stands in front of it. */
  predicate BehindPrev(k: Seek, t: seq<Rq>, i: nat, j: nat)
    requires i < |t| && |t| > 1
  {
    j < i && !Wraps(k, PrevOf(t, i).pos, t[i].pos)
  }

  /** A strictly higher class: synchronous before asynchronous, then metadata before the rest. */
  predicate Above(a: Rq, b: Rq) { if a.sync != b.sync then a.sync else a.meta && !b.meta }

  /** Request j is of a higher class than the neighbour that stands in front of it, and the other
      neighbour does not make up for that. */
  predicate Overlooks(k: Seek, t: seq<Rq>, i: nat, j: nat)
    requires i < |t| && |t| > 1 && j < |t|
  {
    var near, far := if BehindPrev(k, t, i, j) then PrevOf(t, i) else NextOf(t, i),
                     if BehindPrev(k, t, i, j) then NextOf(t, i) else PrevOf(t, i);
    Above(t[j], near) && !Prefers(k, far, t[j], t[i].pos)
  }

  /** The main result: the neighbour search gives the same request as choosing over all the others
      exactly when it overlooks none of them. */
  lemma {:induction false} FindNextIff(k: Seek, t: seq<Rq>, i: nat)
    requires Tree(t) && i < |t|
    ensures FindNext(k, t, i) == BestOf(k, Others(t, i), t[i].pos) <==>
      |t| == 1 || forall j | 0 <= j < |t| && j != i :: !Overlooks(k, t, i, j)
  {
    hide ChooseOf, Prefers, Nearer, Distance, Wraps, BestOf, Overlooks;
    var o, last := Others(t, i), t[i].pos;
    if |t| == 1 {
      assert o == [];
      BestOfNone(k, last);
    } else {
      assert |o| == |t| - 1;
      OthersDistinct(t, i);
      BestOfIsBest(k, o, last);
      SearchIsBestIff(k, t, i);
      if Best(k, FindNext(k, t, i).value, o, last) {
        BestUnique(k, FindNext(k, t, i).value, BestOf(k, o, last).value, o, last);
      }
    }
  }

  /** Among requests of one class nothing is overlooked. */
  lemma {:induction false} FindNextIsBest(k: Seek, t: seq<Rq>, i: nat)
    requires Tree(t) && i < |t| && SameClass(Others(t, i))
    ensures FindNext(k, t, i) == BestOf(k, Others(t, i), t[i].pos)
  {
    FindNextIff(k, t, i);
    OthersDistinct(t, i);
    hide FindNext, BestOf, Tree, Prefers, Wraps;
  }

  lemma {:induction false} BestOfNone(k: Seek, last: nat)
    ensures BestOf(k, [], last) == None
  {
  }

  lemma {:induction false} OthersDistinct(t: seq<Rq>, i: nat)
    requires Tree(t) && i < |t|
    ensures forall x, y | x in Others(t, i) && y in Others(t, i) && x.pos == y.pos :: x == y
    ensures forall x :: x in Others(t, i) <==> exists j | 0 <= j < |t| && j != i :: t[j] == x
  {
    forall x | x in Others(t, i) ensures exists j | 0 <= j < |t| && j != i :: t[j] == x {
      var m :| 0 <= m < |Others(t, i)| && Others(t, i)[m] == x;
      assert t[if m < i then m else m + 1] == x;
    }
    forall j | 0 <= j < |t| && j != i ensures t[j] in Others(t, i) {
      assert Others(t, i)[if j < i then j else j - 1] == t[j];
    }
  }

  lemma {:induction false} SearchIsBestIff(k: Seek, t: seq<Rq>, i: nat)
    requires Tree(t) && i < |t| && |t| > 1
    ensures FindNext(k, t, i).Some?
    ensures Best(k, FindNext(k, t, i).value, Others(t, i), t[i].pos) <==>
      forall j | 0 <= j < |t| && j != i :: !Overlooks(k, t, i, j)
  {
    var o, last, prev, next := Others(t, i), t[i].pos, PrevOf(t, i), NextOf(t, i);
    SearchPicks(k, t, i);
    var r := FindNext(k, t, i).value;
    OthersDistinct(t, i);
    assert prev in o && next in o;
    hide FindNext, ChooseOf, Nearer, Distance, Wraps, Others, Prefers, Overlooks, Tree;
    forall j | 0 <= j < |t| && j != i
      ensures Prefers(k, r, t[j], last) <==> !Overlooks(k, t, i, j)
    {
      OverlooksIff(k, t, i, j, r);
    }
  }

  /** The search picks one of the neighbours, and the better. */
  lemma {:induction false} SearchPicks(k: Seek, t: seq<Rq>, i: nat)
    requires i < |t| && |t| > 1
    ensures FindNext(k, t, i).Some?
    ensures var r := FindNext(k, t, i).value;
      && (r == NextOf(t, i) || r == PrevOf(t, i))
      && Prefers(k, r, NextOf(t, i), t[i].pos) && Prefers(k, r, PrevOf(t, i), t[i].pos)
  {
    hide ChooseOf, Prefers;
    ChooseIsBetter(k, NextOf(t, i), PrevOf(t, i), t[i].pos);
    PrefersOrder(k, NextOf(t, i), NextOf(t, i), NextOf(t, i), t[i].pos);
  }

  lemma {:induction false} OverlooksIff(k: Seek, t: seq<Rq>, i: nat, j: nat, r: Rq)
    requires Tree(t) && i < |t| && |t| > 1 && j < |t| && j != i && (r == NextOf(t, i) || r == PrevOf(t, i))
    requires Prefers(k, r, NextOf(t, i), t[i].pos) && Prefers(k, r, PrevOf(t, i), t[i].pos)
    ensures Prefers(k, r, t[j], t[i].pos) <==> !Overlooks(k, t, i, j)
  {
    var last, near, far := t[i].pos, NextOf(t, i), PrevOf(t, i);
    if BehindPrev(k, t, i, j) { near, far := far, near; }
    NearIsNearer(k, t, i, j);
    assert Prefers(k, near, t[j], last) <==> !Above(t[j], near);
    PrefersOrder(k, r, near, t[j], last);
    PrefersOrder(k, r, far, t[j], last);
    hide Prefers, Nearer, Distance, Wraps, Tree, NextOf, PrevOf, BehindPrev, Above;
  }

  /** Of its own class, a request is no nearer than the neighbour that stands in front of it. */
  lemma {:induction false} NearIsNearer(k: Seek, t: seq<Rq>, i: nat, j: nat)
    requires Tree(t) && i < |t| && |t| > 1 && j < |t| && j != i
    ensures var near := if BehindPrev(k, t, i, j) then PrevOf(t, i) else NextOf(t, i);
      Nearer(k, near.pos, t[j].pos, t[i].pos)
  {
    var prev, next := PrevOf(t, i), NextOf(t, i);
    NeighbourNearer(k, next.pos, t[j].pos, t[i].pos);
    NeighbourNearer(k, prev.pos, t[j].pos, t[i].pos);
    WrapsBelow(k, t[j].pos, prev.pos, t[i].pos);
    hide Nearer, Distance, Wraps;
  }

  lemma {:induction false} WrapsBelow(k: Seek, s: nat, t: nat, last: nat)
    ensures s <= t && Wraps(k, t, last) ==> Wraps(k, s, last)
  {
  }

  /** With classes mixed the neighbours may both be passed over by a better request further off. */
  lemma {:induction false} MixedClassesMissed()
    ensures var k, t := Seek(100, 2), [Rq(0, 10, true, false), Rq(1, 20, true, false), Rq(2, 30, true, true)];
      Tree(t) && FindNext(k, t, 0) != BestOf(k, Others(t, 0), 10)
  {
    var k, t := Seek(100, 2), [Rq(0, 10, true, false), Rq(1, 20, true, false), Rq(2, 30, true, true)];
    assert Others(t, 0) == [t[1], t[2]];
    assert [t[1], t[2]][1..] == [t[2]] && [t[2]][1..] == [];
  }
}
