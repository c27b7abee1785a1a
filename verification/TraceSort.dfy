/** Restoring the order of trace records: a windowed selection sort, in place. */
module TraceSort {
  import opened Numbers

  const LOOK_AHEAD := 1000

  /** A record: its sequence number and everything else. */
  datatype Rec = Rec(no: U32, payload: int)

  /** The successor in 32-bit arithmetic. */
  function Succ(n: U32): U32 { (n + 1) % 0x1_0000_0000 }

  // ----- what the loops compute

  /** The scan for the lowest number: it stops early once the lowest so far is the wanted one. */
  function Scan(s: seq<Rec>, pos: nat, min: nat, want: U32): (r: nat)
    requires min < |s| && pos <= |s|
    ensures r < |s|
    decreases |s| - pos
  {
    if pos == |s| || s[min].no == want then min
    else Scan(s, pos + 1, if s[pos].no < s[min].no then pos else min, want)
  }

  function Window(s: seq<Rec>): (w: seq<Rec>)
    ensures |w| <= |s| && (s != [] ==> w != [])
  {
    if |s| > LOOK_AHEAD then s[..LOOK_AHEAD] else s
  }

  /** Which of the remaining records comes next. */
  function Pick(last: U32, s: seq<Rec>): (k: nat)
    requires s != []
    ensures k < |s|
  {
    if last != 0 && Succ(last) != s[0].no then Scan(Window(s), 0, 0, Succ(last)) else 0
  }

  function Without(s: seq<Rec>, k: nat): (r: seq<Rec>)
    requires k < |s|
    ensures |r| == |s| - 1
  {
    s[..k] + s[k + 1..]
  }

  /** The records in the order the program leaves them. */
  function Reordered(last: U32, s: seq<Rec>): (r: seq<Rec>)
    ensures |r| == |s|
    decreases |s|
  {
    if s == [] then []
    else
      var k := Pick(last, s);
      [s[k]] + Reordered(s[k].no, Without(s, k))
  }

  /** Breaks in a list of numbers, not counting what follows a zero. */
  function Gaps(last: U32, s: seq<Rec>): nat
    decreases |s|
  {
    if s == [] then 0
    else (if last != 0 && s[0].no != Succ(last) then 1 else 0) + Gaps(s[0].no, s[1..])
  }

  /** Records fetched from further on because their number was the wanted one. */
  function Fetched(last: U32, s: seq<Rec>): nat
    decreases |s|
  {
    if s == [] then 0
    else
      var k := Pick(last, s);
      (if last != 0 && s[0].no != Succ(last) == s[k].no then 1 else 0) + Fetched(s[k].no, Without(s, k))
  }

  // ----- the in-place loops

  method FindLowest(a: array<Rec>, start: nat, end: nat, want: U32) returns (min: nat)
    requires start < end <= a.Length
    ensures min == start + Scan(Window(a[start..end]), 0, 0, want)
  {
    var stop := if end > start + LOOK_AHEAD then start + LOOK_AHEAD else end;
    ghost var w := Window(a[start..end]);
    assert w == a[start..stop];
    min := start;
    var pos := start;
    while pos != stop && a[min].no != want
      invariant start <= pos <= stop && start <= min < stop
      invariant Scan(w, pos - start, min - start, want) == Scan(w, 0, 0, want)
    {
      assert w[pos - start] == a[pos] && w[min - start] == a[min];
      if a[pos].no < a[min].no { min := pos; }
      pos := pos + 1;
    }
    assert w[min - start] == a[min];
  }

  /** Moves the record at `from` down to `target`, shifting the ones between up by one. */
  method MoveRecord(a: array<Rec>, target: nat, from: nat)
    requires target <= from < a.Length
    modifies a
    ensures a[..] == old(a[..target]) + [old(a[from])] + old(a[target..from]) + old(a[from + 1..])
  {
    var pos := from;
    while pos > target
      invariant target <= pos <= from
      invariant forall i | 0 <= i < a.Length ::
        a[i] == if i == pos then old(a[from]) else if pos < i <= from then old(a[i - 1]) else old(a[i])
    {
      a[pos - 1], a[pos] := a[pos], a[pos - 1];
      pos := pos - 1;
    }
  }

  lemma {:induction false} MoveMeans(s: seq<Rec>, target: nat, k: nat)
    requires target + k < |s|
    ensures var m := s[..target] + [s[target + k]] + s[target..target + k] + s[target + k + 1..];
      && |m| == |s| && m[..target + 1] == s[..target] + [s[target + k]]
      && m[target + 1..] == Without(s[target..], k)
  {
    var m := s[..target] + [s[target + k]] + s[target..target + k] + s[target + k + 1..];
    var rest := s[target..];
    assert rest[..k] == s[target..target + k] && rest[k + 1..] == s[target + k + 1..];
    assert m == (s[..target] + [s[target + k]]) + (s[target..target + k] + s[target + k + 1..]);
  }

  /** Puts the right record at place i. */
  method Settle(a: array<Rec>, i: nat, last: U32) returns (hole: bool, moved: bool)
    requires i < a.Length
    modifies a
    ensures var rest := old(a[i..]); var k := Pick(last, rest);
      a[..i + 1] == old(a[..i]) + [rest[k]] && a[i + 1..] == Without(rest, k)
    ensures hole <==> last != 0 && a[i].no != Succ(last)
    ensures moved <==> last != 0 && a[i].no == Succ(last) && old(a[i].no) != Succ(last)
  {
    hole, moved := false, false;
    ghost var was, rest := a[..], a[i..];
    if last != 0 && Succ(last) != a[i].no {
      var at := FindLowest(a, i, a.Length, Succ(last));
      assert a[i..a.Length] == rest && was[i..] == rest;
      moved := a[at].no == Succ(last);
      hole := !moved;
      MoveRecord(a, i, at);
      hide Pick, Scan, Window;
      MoveMeans(was, i, at - i);
      assert was[..i] == old(a[..i]) && was[i..at] == old(a[i..at]) && was[at + 1..] == old(a[at + 1..]);
      assert a[..][..i + 1] == a[..i + 1] && a[..][i + 1..] == a[i + 1..];
      assert a[i] == a[..i + 1][i];
    }
  }

  lemma {:induction false} ReorderedStep(done: seq<Rec>, last: U32, rest: seq<Rec>)
    requires rest != []
    ensures var k := Pick(last, rest); var r := rest[k];
      && done + Reordered(last, rest) == (done + [r]) + Reordered(r.no, Without(rest, k))
      && Gaps(last, Reordered(last, rest)) ==
         (if last != 0 && r.no != Succ(last) then 1 else 0) + Gaps(r.no, Reordered(r.no, Without(rest, k)))
      && Fetched(last, rest) ==
         (if last != 0 && rest[0].no != Succ(last) == r.no then 1 else 0) + Fetched(r.no, Without(rest, k))
  {
    hide Pick, Without;
    var k := Pick(last, rest);
    var r, t := rest[k], Reordered(rest[k].no, Without(rest, k));
    assert Reordered(last, rest) == [r] + t;
    assert ([r] + t)[1..] == t;
  }

  /** Nothing is fetched and no break is left exactly if there was no break to begin with, and then nothing is
      moved. */
  lemma {:induction false} UntouchedIff(last: U32, s: seq<Rec>)
    ensures Fetched(last, s) == 0 && Gaps(last, Reordered(last, s)) == 0 <==> Gaps(last, s) == 0
    ensures Gaps(last, s) == 0 ==> Reordered(last, s) == s
    decreases |s|
  {
    if s != [] {
      var k := Pick(last, s);
      ReorderedStep([], last, s);
      if last == 0 || s[0].no == Succ(last) {
        assert k == 0 && Without(s, 0) == s[1..] && [s[0]] + s[1..] == s;
        hide Pick, Without;
        UntouchedIff(s[0].no, s[1..]);
      }
    }
  }

  /** Part of the way: what is done, what is left, and what has been counted. */
  ghost predicate Midway(was: seq<Rec>, done: seq<Rec>, last: U32, rest: seq<Rec>, holes: nat, fetched: nat) {
    && done + Reordered(last, rest) == Reordered(0, was)
    && holes + Gaps(last, Reordered(last, rest)) == Gaps(0, Reordered(0, was))
    && fetched + Fetched(last, rest) == Fetched(0, was)
  }

  lemma {:induction false} MidwayStart(was: seq<Rec>)
    ensures Midway(was, [], 0, was, 0, 0)
  {
    hide Reordered, Gaps, Fetched;
    assert [] + Reordered(0, was) == Reordered(0, was);
  }

  lemma {:induction false} MidwayNext(was: seq<Rec>, done: seq<Rec>, last: U32, rest: seq<Rec>, holes: nat,
                                      fetched: nat)
    requires Midway(was, done, last, rest, holes, fetched) && rest != []
    ensures var k := Pick(last, rest); var r := rest[k];
      Midway(was, done + [r], r.no, Without(rest, k), holes + if last != 0 && r.no != Succ(last) then 1 else 0,
             fetched + if last != 0 && rest[0].no != Succ(last) == r.no then 1 else 0)
  {
    hide Reordered, Gaps, Fetched, Pick, Without;
    ReorderedStep(done, last, rest);
  }

  lemma {:induction false} MidwayEnd(was: seq<Rec>, done: seq<Rec>, last: U32, holes: nat, fetched: nat)
    requires Midway(was, done, last, [], holes, fetched)
    ensures done == Reordered(0, was) && holes == Gaps(0, done) && fetched == Fetched(0, was)
  {
    NothingLeft(last);
    hide Reordered, Gaps, Fetched;
    assert done + [] == done;
  }

  /** The whole pass: the array ends up reordered, and every break left in it has been counted. */
  method Reorder(a: array<Rec>) returns (holes: nat, reordered: nat)
    modifies a
    ensures a[..] == Reordered(0, old(a[..]))
    ensures holes == Gaps(0, a[..]) && reordered == Fetched(0, old(a[..]))
    ensures holes == 0 && reordered == 0 <==> Gaps(0, old(a[..])) == 0
    ensures holes == 0 && reordered == 0 ==> a[..] == old(a[..])
  {
    hide Pick, Without, Reordered, Gaps, Fetched, Midway;
    ghost var was := a[..];
    UntouchedIff(0, was);
    MidwayStart(was);
    holes, reordered := 0, 0;
    var last: U32 := 0;
    var i := 0;
    assert a[..0] == [] && a[0..] == was;
    while i != a.Length
      invariant i <= a.Length
      invariant Midway(was, a[..i], last, a[i..], holes, reordered)
    {
      MidwayNext(was, a[..i], last, a[i..], holes, reordered);
      var hole, moved := Settle(a, i, last);
      if hole { holes := holes + 1; }
      if moved { reordered := reordered + 1; }
      assert a[i] == a[..i + 1][i];
      last := a[i].no;
      i := i + 1;
    }
    assert a[i..] == [] && a[..i] == a[..];
    MidwayEnd(was, a[..], last, holes, reordered);
  }

  lemma {:induction false} NothingLeft(last: U32)
    ensures Reordered(last, []) == [] && Gaps(last, []) == 0 && Fetched(last, []) == 0
  {
  }

  // ----- nothing is lost

  lemma {:induction false} WithoutBag(s: seq<Rec>, k: nat)
    requires k < |s|
    ensures multiset(s) == multiset{s[k]} + multiset(Without(s, k))
  {
    assert s == s[..k] + [s[k]] + s[k + 1..];
  }

  /** The result is a permutation of the input, whatever the numbers are. */
  lemma {:induction false} ReorderedPermutes(last: U32, s: seq<Rec>)
    ensures multiset(Reordered(last, s)) == multiset(s)
    decreases |s|
  {
    hide Pick, Without;
    if s != [] {
      var k := Pick(last, s);
      WithoutBag(s, k);
      ReorderedPermutes(s[k].no, Without(s, k));
      assert Reordered(last, s) == [s[k]] + Reordered(s[k].no, Without(s, k));
    }
  }

  // ----- when the result is sorted

  ghost predicate Distinct(s: seq<Rec>) { forall i, j | 0 <= i < j < |s| :: s[i].no != s[j].no }

  ghost predicate Sorted(s: seq<Rec>) { forall i, j | 0 <= i < j < |s| :: s[i].no < s[j].no }

  ghost predicate AllAbove(s: seq<Rec>, n: nat) { forall i | 0 <= i < |s| :: s[i].no > n }

  /** How many records of s have a number above n. */
  function CountAbove(s: seq<Rec>, n: nat): nat {
    if s == [] then 0 else CountAbove(s[..|s| - 1], n) + if s[|s| - 1].no > n then 1 else 0
  }

  /** Fewer than the window's length of higher-numbered records precede each record. */
  ghost predicate Near(s: seq<Rec>) { forall j | 0 <= j < |s| :: CountAbove(s[..j], s[j].no) < LOOK_AHEAD }

  ghost predicate IsMin(s: seq<Rec>, m: nat) { m < |s| && forall i | 0 <= i < |s| && i != m :: s[m].no < s[i].no }

  lemma {:induction false} MinExists(s: seq<Rec>) returns (m: nat)
    requires s != [] && Distinct(s)
    ensures IsMin(s, m)
  {
    if |s| == 1 {
      m := 0;
    } else {
      var n := |s| - 1;
      var k := MinExists(s[..n]);
      assert forall i | 0 <= i < n && i != k :: s[k].no < s[i].no by {
        assert forall i | 0 <= i < n :: s[..n][i] == s[i];
      }
      m := if s[n].no < s[k].no then n else k;
    }
  }

  /** With nothing below the wanted number, the scan finds the lowest. */
  lemma {:induction false} ScanFinds(s: seq<Rec>, pos: nat, min: nat, want: U32, m: nat)
    requires IsMin(s, m) && min < |s| && pos <= |s| && s[m].no >= want
    requires forall i | 0 <= i < pos :: s[min].no <= s[i].no
    ensures Scan(s, pos, min, want) == m
    decreases |s| - pos
  {
    if pos < |s| && s[min].no != want { ScanFinds(s, pos + 1, if s[pos].no < s[min].no then pos else min, want, m); }
  }

  /** The next record is the lowest that remains exactly when that lies in the window. */
  lemma {:induction false} PickIsMin(last: U32, s: seq<Rec>, m: nat)
    requires last != 0 && IsMin(s, m) && AllAbove(s, last)
    ensures s[m].no > last && (Pick(last, s) == m <==> m < LOOK_AHEAD)
  {
    assert s[m].no > last;
    assert Succ(last) == last + 1;
    if s[0].no == Succ(last) {
      assert m == 0;
    } else {
      var w := Window(s);
      if m < LOOK_AHEAD {
        assert IsMin(w, m) && w[m] == s[m];
        ScanFinds(w, 0, 0, Succ(last), m);
      }
    }
  }

  lemma {:induction false} CountAll(s: seq<Rec>, n: nat)
    requires AllAbove(s, n)
    ensures CountAbove(s, n) == |s|
  {
    if s != [] { CountAll(s[..|s| - 1], n); }
  }

  lemma {:induction false} CountConcat(a: seq<Rec>, b: seq<Rec>, n: nat)
    ensures CountAbove(a + b, n) == CountAbove(a, n) + CountAbove(b, n)
  {
    if b == [] {
      assert a + b == a;
    } else {
      var k := |b| - 1;
      assert (a + b)[..|a| + k] == a + b[..k] && (a + b)[|a| + k] == b[k];
      CountConcat(a, b[..k], n);
    }
  }

  /** Taking the lowest record out changes nobody else's count. */
  lemma {:induction false} CountWithout(s: seq<Rec>, m: nat, j: nat)
    requires IsMin(s, m) && j < |s| && j != m
    ensures var t, i := Without(s, m), if j < m then j else j - 1;
      t[i] == s[j] && CountAbove(t[..i], t[i].no) == CountAbove(s[..j], s[j].no)
  {
    hide CountAbove;
    var t, i, n := Without(s, m), if j < m then j else j - 1, s[j].no;
    if j < m {
      assert t[..i] == s[..j];
    } else {
      assert t[..i] == s[..m] + s[m + 1..j] && s[..j] == s[..m] + ([s[m]] + s[m + 1..j]);
      CountConcat(s[..m], s[m + 1..j], n);
      CountConcat(s[..m], [s[m]] + s[m + 1..j], n);
      CountConcat([s[m]], s[m + 1..j], n);
      CountOne(s[m], n);
    }
  }

  lemma {:induction false} CountOne(r: Rec, n: nat)
    ensures CountAbove([r], n) == if r.no > n then 1 else 0
  {
    assert [r][..0] == [];
  }

  lemma {:induction false} NearWithout(s: seq<Rec>, m: nat)
    requires IsMin(s, m)
    ensures Near(s) <==> m < LOOK_AHEAD && Near(Without(s, m))
  {
    hide CountAbove;
    var t := Without(s, m);
    assert AllAbove(s[..m], s[m].no);
    CountAll(s[..m], s[m].no);
    if m < LOOK_AHEAD && Near(t) {
      forall j | 0 <= j < |s| ensures CountAbove(s[..j], s[j].no) < LOOK_AHEAD {
        if j != m { CountWithout(s, m, j); }
      }
    }
    if Near(s) {
      forall i | 0 <= i < |t| ensures CountAbove(t[..i], t[i].no) < LOOK_AHEAD {
        CountWithout(s, m, if i < m then i else i + 1);
      }
    }
  }

  lemma {:induction false} MinFirst(r: seq<Rec>, s: seq<Rec>, m: nat)
    requires multiset(r) == multiset(s) && IsMin(s, m) && Sorted(r)
    ensures r != [] && r[0] == s[m]
  {
    assert s[m] in multiset(r) && s[m] in r;
    assert r[0] in multiset(s) && r[0] in s;
  }

  lemma {:induction false} SortedCons(x: Rec, t: seq<Rec>)
    requires AllAbove(t, x.no)
    ensures Sorted([x] + t) <==> Sorted(t)
  {
    var r := [x] + t;
    if Sorted(r) { forall i, j | 0 <= i < j < |t| ensures t[i].no < t[j].no { assert r[i + 1].no < r[j + 1].no; } }
    if Sorted(t) {
      forall i, j | 0 <= i < j < |r|
        ensures r[i].no < r[j].no
      {
        assert i > 0 ==> t[i - 1].no < t[j - 1].no;
      }
    }
  }

  lemma {:induction false} AllAboveBag(r: seq<Rec>, s: seq<Rec>, n: nat)
    requires multiset(r) == multiset(s) && AllAbove(s, n)
    ensures AllAbove(r, n)
  {
    forall i | 0 <= i < |r| ensures r[i].no > n { assert r[i] in multiset(s) && r[i] in s; }
  }

  lemma {:induction false} WithoutRest(s: seq<Rec>, m: nat)
    requires IsMin(s, m) && Distinct(s)
    ensures Distinct(Without(s, m)) && AllAbove(Without(s, m), s[m].no)
  {
    var t := Without(s, m);
    forall i | 0 <= i < |t| ensures t[i] == s[if i < m then i else i + 1] {}
  }

  /** From any point where everything left is above the last number: sorted iff near. */
  lemma {:induction false} RestSortedIff(last: U32, s: seq<Rec>)
    requires last != 0 && Distinct(s) && AllAbove(s, last)
    ensures Sorted(Reordered(last, s)) <==> Near(s)
    decreases |s|
  {
    hide Pick, Without, Distinct, Near, CountAbove, Sorted, AllAbove, IsMin;
    if s == [] {
      NearEmpty();
    } else {
      var m := MinExists(s);
      PickIsMin(last, s, m);
      NearWithout(s, m);
      var k := Pick(last, s);
      if k == m {
        WithoutRest(s, m);
        RestSortedIff(s[m].no, Without(s, m));
        FirstThenRest(s, m);
      } else {
        ReorderedPermutes(last, s);
        NotMin(s, m, k);
        if Sorted(Reordered(last, s)) { MinFirst(Reordered(last, s), s, m); }
      }
    }
  }

  lemma {:induction false} FirstThenRest(s: seq<Rec>, m: nat)
    requires m < |s| && AllAbove(Without(s, m), s[m].no)
    ensures var t := Reordered(s[m].no, Without(s, m)); Sorted([s[m]] + t) <==> Sorted(t)
  {
    hide Sorted, AllAbove, Without;
    var t := Without(s, m);
    ReorderedPermutes(s[m].no, t);
    AllAboveBag(Reordered(s[m].no, t), t, s[m].no);
    SortedCons(s[m], Reordered(s[m].no, t));
  }

  lemma {:induction false} NotMin(s: seq<Rec>, m: nat, k: nat)
    requires IsMin(s, m) && k < |s| && k != m
    ensures s[k] != s[m] && !IsMin(s, k)
  {
  }

  lemma {:induction false} NearEmpty()
    ensures Near([]) && Sorted([])
  {
  }

  /** The main result.  With distinct non-zero numbers the pass sorts the records if and only if the
      lowest comes first and no record is behind a window's length of higher-numbered ones. */
  lemma {:induction false} ReorderSortsIff(s: seq<Rec>)
    requires Distinct(s) && AllAbove(s, 0)
    ensures Sorted(Reordered(0, s)) <==> s == [] || (IsMin(s, 0) && Near(s))
  {
    if s != [] {
      hide Without, Distinct, Near, CountAbove;
      var m := MinExists(s);
      ReorderedPermutes(0, s);
      assert Pick(0, s) == 0;
      if m == 0 {
        WithoutRest(s, 0);
        NearWithout(s, 0);
        RestSortedIff(s[0].no, Without(s, 0));
        FirstThenRest(s, 0);
      } else {
        NotMin(s, m, 0);
        if Sorted(Reordered(0, s)) { MinFirst(Reordered(0, s), s, m); }
      }
    }
  }

  /** The first record is never moved, so two records in the wrong order stay that way. */
  lemma {:induction false} SwappedPairStays(a: Rec, b: Rec)
    requires 0 < b.no < a.no
    ensures !Sorted(Reordered(0, [a, b]))
  {
    var s := [a, b];
    assert s[1].no < s[0].no && !IsMin(s, 0);
    ReorderSortsIff(s);
  }
}
