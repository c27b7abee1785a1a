/** Queues scheduled to merge point to the queue that will take them over.  The pointers never form
    a loop, so every walk along them ends. */
module CfqMergeChain {
  import opened Options

  type Links = map<nat, nat>

  /** From q the chain ends after exactly n links. */
  ghost predicate EndsAfter(links: Links, q: nat, n: nat)
    decreases n
  {
    if n == 0 then q !in links else q in links && EndsAfter(links, links[q], n - 1)
  }

  ghost predicate Ends(links: Links, q: nat) { exists n: nat :: EndsAfter(links, q, n) }

  ghost predicate Acyclic(links: Links) { forall q: nat :: Ends(links, q) }

  /** x is on the chain from q, which ends after n links. */
  ghost predicate OnChain(links: Links, q: nat, n: nat, x: nat)
    decreases n
  {
    x == q || (n > 0 && q in links && OnChain(links, links[q], n - 1, x))
  }

  /** The last queue of the chain. */
  ghost function EndOf(links: Links, q: nat, n: nat): nat
    requires EndsAfter(links, q, n)
    decreases n
  {
    if n == 0 then q else EndOf(links, links[q], n - 1)
  }

  lemma {:induction false} EndOnChain(links: Links, q: nat, n: nat)
    requires EndsAfter(links, q, n)
    ensures OnChain(links, q, n, EndOf(links, q, n)) && EndOf(links, q, n) !in links
    decreases n
  {
    if n > 0 { EndOnChain(links, links[q], n - 1); }
  }

  lemma {:induction false} EndKnown(links: Links, refs: map<nat, int>, q: nat, n: nat)
    requires EndsAfter(links, q, n) && q in refs && Closed(refs, links)
    ensures EndOf(links, q, n) in refs
    decreases n
  {
    if n > 0 { EndKnown(links, refs, links[q], n - 1); }
  }

  lemma {:induction false} EndUnique(links: Links, q: nat, m: nat, n: nat)
    requires EndsAfter(links, q, m) && EndsAfter(links, q, n)
    ensures m == n
    decreases n
  {
    if m > 0 && n > 0 { EndUnique(links, links[q], m - 1, n - 1); }
  }

  /** Linking one chain end to another lengthens the chains that ended at the first by one. */
  lemma {:induction false} Extended(links: Links, a: nat, b: nat, q: nat, n: nat)
    requires a !in links && b !in links && a != b && EndsAfter(links, q, n)
    ensures EndsAfter(links[a := b], q, n) || EndsAfter(links[a := b], q, n + 1)
    decreases n
  {
    var l := links[a := b];
    if n == 0 {
      if q == a { assert EndsAfter(l, b, 0); }
    } else {
      Extended(links, a, b, links[q], n - 1);
    }
  }

  lemma {:induction false} LinkKeepsAcyclic(links: Links, a: nat, b: nat)
    requires Acyclic(links) && a !in links && b !in links && a != b
    ensures Acyclic(links[a := b])
  {
    var l := links[a := b];
    forall q: nat ensures Ends(l, q) {
      assert Ends(links, q);
      var n: nat :| EndsAfter(links, q, n);
      Extended(links, a, b, q, n);
    }
  }

  /** A chain that leads back to its start has no end. */
  lemma {:induction false} LoopNeverEnds(links: Links, q: nat, n: nat, path: seq<nat>)
    requires |path| > 1 && path[0] == q && path[|path| - 1] == q
    requires forall i | 0 <= i < |path| - 1 :: path[i] in links && links[path[i]] == path[i + 1]
    ensures !EndsAfter(links, q, n)
  {
    if EndsAfter(links, q, n) {
      WalkDown(links, path, n, |path| - 1);
      EndUnique(links, q, n, n - (|path| - 1));
    }
  }

  lemma {:induction false} WalkDown(links: Links, path: seq<nat>, n: nat, i: nat)
    requires i < |path| && EndsAfter(links, path[0], n)
    requires forall j | 0 <= j < |path| - 1 :: path[j] in links && links[path[j]] == path[j + 1]
    ensures i <= n && EndsAfter(links, path[i], n - i)
  {
    if i > 0 { WalkDown(links, path, n, i - 1); }
  }

  /** No node comes twice: the rest of a chain does not lead back. */
  lemma {:induction false} NoReturn(links: Links, q: nat, n: nat, x: nat, m: nat)
    requires n > 0 && EndsAfter(links, q, n) && m < n && OnChain(links, links[q], m, x) && EndsAfter(links, links[q], m)
    ensures x != q
    decreases m
  {
    if x == q {
      var k := TailLength(links, links[q], m, q);
      EndUnique(links, q, n, k);
    }
  }

  lemma {:induction false} TailLength(links: Links, q: nat, n: nat, x: nat) returns (k: nat)
    requires EndsAfter(links, q, n) && OnChain(links, q, n, x)
    ensures k <= n && EndsAfter(links, x, k)
    decreases n
  {
    if x == q { k := n; } else { k := TailLength(links, links[q], n - 1, x); }
  }

  class Queues {
    var newCfqq: Links               // the queue each one will merge into
    var refs: map<nat, int>          // reference counts
    var ioRefs: map<nat, int>        // those held by allocated requests

    ghost predicate Valid()
      reads this
    {
      && Acyclic(newCfqq)
      && refs.Keys == ioRefs.Keys
      && forall q | q in newCfqq :: q in refs && newCfqq[q] in refs
    }

    /** References held by processes. */
    function ProcessRefs(q: nat): int
      reads this
      requires q in refs && q in ioRefs
    {
      refs[q] - ioRefs[q]
    }

    /** Walks to the end of the chain from q; gives up exactly if `avoid` is on it. */
    method ChainEnd(q: nat, avoid: nat) returns (end: Option<nat>)
      requires Valid() && q in refs && q != avoid
      ensures forall n: nat | EndsAfter(newCfqq, q, n) ::
        && (end.None? <==> OnChain(newCfqq, q, n, avoid))
        && (end.Some? ==> end.value == EndOf(newCfqq, q, n))
      ensures end.Some? ==> end.value !in newCfqq && end.value in refs
    {
      assert Ends(newCfqq, q);
      ghost var n: nat :| EndsAfter(newCfqq, q, n);
      forall k: nat | EndsAfter(newCfqq, q, k) ensures k == n { EndUnique(newCfqq, q, k, n); }
      ghost var m: nat := n;
      var at := q;
      while at in newCfqq
        invariant m <= n && EndsAfter(newCfqq, at, m) && at != avoid && at in refs
        invariant EndOf(newCfqq, at, m) == EndOf(newCfqq, q, n)
        invariant OnChain(newCfqq, at, m, avoid) <==> OnChain(newCfqq, q, n, avoid)
        decreases m
      {
        if newCfqq[at] == avoid {
          assert OnChain(newCfqq, avoid, m - 1, avoid);
          return None;
        }
        at, m := newCfqq[at], m - 1;
      }
      end := Some(at);
    }

    /** Schedules two queues to merge: the one whose processes hold fewer references follows the
        other, which is charged with them.  A queue whose processes are gone is left alone, and so is
        one the other's chain already leads to. */
    method SetupMerge(cfqq: nat, other: nat) returns (ghost n: nat)
      requires Valid() && cfqq in refs && other in refs && cfqq !in newCfqq && cfqq != other
      modifies this`newCfqq, this`refs
      ensures Valid() && EndsAfter(old(newCfqq), other, n) && EndOf(old(newCfqq), other, n) in old(refs)
      ensures var end := EndOf(old(newCfqq), other, n);
        if OnChain(old(newCfqq), other, n, cfqq) || old(ProcessRefs(cfqq)) == 0
        then newCfqq == old(newCfqq) && refs == old(refs)
        else if old(ProcessRefs(cfqq)) <= old(ProcessRefs(end))
        then Followed(old(newCfqq), old(refs), old(ioRefs), cfqq, end, newCfqq, refs)
        else Followed(old(newCfqq), old(refs), old(ioRefs), end, cfqq, newCfqq, refs)
    {
      var end := ChainEnd(other, cfqq);
      assert Ends(newCfqq, other);
      n :| EndsAfter(newCfqq, other, n);
      EndKnown(newCfqq, refs, other, n);
      if end.None? { return; }
      EndOnChain(newCfqq, other, n);
      var process, theirs := ProcessRefs(cfqq), ProcessRefs(end.value);
      if process == 0 { return; }
      hide EndsAfter, OnChain, EndOf;
      if theirs >= process {
        LinkKeepsAcyclic(newCfqq, cfqq, end.value);
        newCfqq, refs := newCfqq[cfqq := end.value], refs[end.value := refs[end.value] + process];
      } else {
        LinkKeepsAcyclic(newCfqq, end.value, cfqq);
        newCfqq, refs := newCfqq[end.value := cfqq], refs[cfqq := refs[cfqq] + theirs];
      }
    }

    /** A queue goes away: it and every queue on its chain lose one reference, each exactly once.  The
        loop warning cannot fire. */
    method ExitQueue(cfqq: nat) returns (warned: bool, ghost n: nat)
      requires Valid() && cfqq in refs
      modifies this`refs
      ensures Valid() && !warned && EndsAfter(newCfqq, cfqq, n)
      ensures refs.Keys == old(refs).Keys
      ensures forall x | x in refs :: refs[x] == old(refs)[x] - (if OnChain(newCfqq, cfqq, n, x) then 1 else 0)
    {
      hide OnChain;
      warned := false;
      assert Ends(newCfqq, cfqq);
      n :| EndsAfter(newCfqq, cfqq, n);
      DroppedMeans(refs, newCfqq, cfqq, n);
      var at := if cfqq in newCfqq then Some(newCfqq[cfqq]) else None;
      ghost var m, left := n - 1, if cfqq in newCfqq then Dropped(refs, newCfqq, newCfqq[cfqq], n - 1) else refs;
      while at.Some?
        invariant Valid() && !warned && refs.Keys == old(refs).Keys && -1 <= m < n && (at.None? <==> m == -1)
        invariant at.Some? ==> at.value in refs && EndsAfter(newCfqq, at.value, m)
        invariant left == if at.Some? then Dropped(refs, newCfqq, at.value, m) else refs
        decreases m
      {
        assert at.value != cfqq by { if at.value == cfqq { EndUnique(newCfqq, cfqq, n, m); } }
        if at.value == cfqq {
          warned := true;
          break;
        }
        var next := if at.value in newCfqq then Some(newCfqq[at.value]) else None;
        refs := refs[at.value := refs[at.value] - 1];
        at := next;
        m := m - 1;
      }
      refs := refs[cfqq := refs[cfqq] - 1];
      DroppedLater(old(refs), newCfqq, cfqq, n);
    }
  }

  /** One reference less for every queue on the chain from q. */
  ghost function Dropped(refs: map<nat, int>, links: Links, q: nat, n: nat): map<nat, int>
    decreases n
  {
    if q !in refs then refs
    else
      var r := refs[q := refs[q] - 1];
      if n == 0 || q !in links then r else Dropped(r, links, links[q], n - 1)
  }

  ghost predicate Closed(refs: map<nat, int>, links: Links) { forall q | q in links :: q in refs && links[q] in refs }

  lemma {:induction false} DroppedMeans(refs: map<nat, int>, links: Links, q: nat, n: nat)
    requires EndsAfter(links, q, n) && q in refs && Closed(refs, links)
    ensures var r := Dropped(refs, links, q, n);
      r.Keys == refs.Keys && forall x | x in refs :: r[x] == refs[x] - (if OnChain(links, q, n, x) then 1 else 0)
    decreases n
  {
    if n > 0 {
      var r := refs[q := refs[q] - 1];
      DroppedMeans(r, links, links[q], n - 1);
      if OnChain(links, links[q], n - 1, q) { NoReturn(links, q, n, q, n - 1); }
    }
  }

  /** The order does not matter: the queue itself may come last. */
  lemma {:induction false} DroppedLater(refs: map<nat, int>, links: Links, q: nat, n: nat)
    requires EndsAfter(links, q, n) && q in refs && Closed(refs, links)
    ensures var t := if q in links then Dropped(refs, links, links[q], n - 1) else refs;
      q in t && t[q := t[q] - 1] == Dropped(refs, links, q, n)
  {
    if n > 0 {
      var r := refs[q := refs[q] - 1];
      DroppedMeans(refs, links, links[q], n - 1);
      DroppedMeans(r, links, links[q], n - 1);
      if OnChain(links, links[q], n - 1, q) { NoReturn(links, q, n, q, n - 1); }
    }
  }

  /** a now follows b, which has taken over the references of its processes; a had no more of them. */
  ghost predicate Followed(links: Links, refs: map<nat, int>, io: map<nat, int>, a: nat, b: nat, links': Links,
                           refs': map<nat, int>) {
    && a in refs && a in io && b in refs && b in io && a != b && a !in links && b !in links
    && refs[a] - io[a] <= refs[b] - io[b]
    && links' == links[a := b] && refs' == refs[b := refs[b] + (refs[a] - io[a])]
  }
}
