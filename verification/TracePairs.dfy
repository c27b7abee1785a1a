/** Pairing start and end records of a trace: each start with the next end on its processor, unless
    another start or a hole in the trace comes first. */
module TracePairs {
  import opened Numbers
  import opened Options

  type U64 = n: nat | n < 0x1_0000_0000_0000_0000

  datatype Rec = Rec(time: U64, no: U32, cpu: nat, event: nat, realTime: bool)

  type Trace = seq<Rec>

  /** Time from one stamp to another, in 64-bit arithmetic. */
  function Elapsed(a: U64, b: U64): U64 { (b - a) % 0x1_0000_0000_0000_0000 }

  /** The sequence number breaks off before record h. */
  predicate Hole(tr: Trace, h: nat)
    requires 0 < h < |tr|
  {
    tr[h - 1].no != 0 && tr[h].no != (tr[h - 1].no + 1) % 0x1_0000_0000
  }

  /** A hole that a search on behalf of a processor notices: one that does not lie right behind a record of
      that processor, where the search starts afresh. */
  predicate Noticed(tr: Trace, cpu: nat, h: nat)
    requires 0 < h < |tr|
  {
    Hole(tr, h) && tr[h - 1].cpu != cpu
  }

  ghost predicate Unbroken(tr: Trace, cpu: nat, i: nat, j: nat) {
    j < |tr| && forall h | i < h <= j :: !Noticed(tr, cpu, h)
  }

  /** The record on `cpu`, at or after `start`, whose event is one of the two looked for. */
  predicate Hit(tr: Trace, k: nat, cpu: nat, id: nat, stop: nat)
    requires k < |tr|
  {
    tr[k].cpu == cpu && (tr[k].event == id || tr[k].event == stop)
  }

  ghost predicate FirstHit(tr: Trace, start: nat, j: nat, cpu: nat, id: nat, stop: nat) {
    && start <= j < |tr| && Hit(tr, j, cpu, id, stop)
    && forall k | start <= k < j :: !Hit(tr, k, cpu, id, stop)
  }

  /** i starts an interval of event `id` and j ends it: nothing of that event lies between on the
      same processor. */
  ghost predicate IsPair(tr: Trace, id: nat, i: nat, j: nat) {
    && i < j < |tr| && tr[i].event == id && tr[j].event == id + 1
    && FirstHit(tr, i + 1, j, tr[i].cpu, id + 1, id)
  }

  // ----- what pairing means

  /** Intervals of one event on one processor do not overlap. */
  lemma {:induction false} PairsApart(tr: Trace, id: nat, i: nat, j: nat, i': nat, j': nat)
    requires IsPair(tr, id, i, j) && IsPair(tr, id, i', j') && tr[i].cpu == tr[i'].cpu && i < i'
    ensures j < i'
  {
    assert Hit(tr, i', tr[i].cpu, id + 1, id);
  }

  /** No end belongs to two starts, and no start has two ends. */
  lemma {:induction false} PairUnique(tr: Trace, id: nat, i: nat, j: nat, i': nat, j': nat)
    requires IsPair(tr, id, i, j) && IsPair(tr, id, i', j') && (j == j' || i == i')
    ensures i == i' && j == j'
  {
    if i < i' { PairsApart(tr, id, i, j, i', j'); }
    if i' < i { PairsApart(tr, id, i', j', i, j); }
  }

  // ----- the searches

  /** The next record of a processor, unless a hole comes first. */
  method Next(tr: Trace, start: nat, cpu: nat) returns (r: Option<nat>)
    requires start <= |tr|
    ensures r.Some? ==>
      start <= r.value < |tr| && tr[r.value].cpu == cpu && forall k | start <= k < r.value :: tr[k].cpu != cpu
    ensures r.Some? ==> Unbroken(tr, cpu, start, r.value)
    ensures r.None? ==> forall j: nat | start <= j < |tr| && tr[j].cpu == cpu :: !Unbroken(tr, cpu, start, j)
  {
    var last: U32 := 0;
    var pos: nat := start;
    while pos != |tr|
      invariant start <= pos <= |tr|
      invariant forall k | start <= k < pos :: tr[k].cpu != cpu
      invariant pos > start ==> last == tr[pos - 1].no
      invariant pos == start ==> last == 0
      invariant forall h | start < h < pos :: !Hole(tr, h)
    {
      if last != 0 && (last + 1) % 0x1_0000_0000 != tr[pos].no {
        assert Noticed(tr, cpu, pos);
        return None;
      }
      last := tr[pos].no;
      if tr[pos].cpu == cpu { return Some(pos); }
      pos := pos + 1;
    }
    r := None;
  }

  /** Records of a processor from place i up to place j. */
  function OnCpu(tr: Trace, cpu: nat, i: nat, j: nat): nat
    requires i <= j <= |tr|
    decreases j
  {
    if i == j then 0 else OnCpu(tr, cpu, i, j - 1) + if tr[j - 1].cpu == cpu then 1 else 0
  }

  lemma {:induction false} OnCpuSkip(tr: Trace, cpu: nat, i: nat, m: nat, j: nat)
    requires i <= m <= j <= |tr| && forall k | m <= k < j :: tr[k].cpu != cpu
    ensures OnCpu(tr, cpu, i, j) == OnCpu(tr, cpu, i, m)
    decreases j
  {
    if m < j { OnCpuSkip(tr, cpu, i, m, j - 1); }
  }

  /** What the search is to find: the first of the two events is the wanted one, no noticed hole comes before
      it, and no other record of the processor either unless intervals may be interleaved. */
  ghost predicate Reachable(tr: Trace, start: nat, j: nat, cpu: nat, id: nat, stop: nat, interleaved: bool) {
    && FirstHit(tr, start, j, cpu, id, stop) && tr[j].event == id && Unbroken(tr, cpu, start, j)
    && (interleaved || OnCpu(tr, cpu, start, j) == 0)
  }

  /** The next record with the wanted event, stopping at the other event.  `restarts` counts the
      processor's other records on the way. */
  method NextId(tr: Trace, start: nat, cpu: nat, id: nat, stop: nat, interleaved: bool) returns (r: Option<nat>,
                restarts: nat)
    requires start <= |tr| && id != stop
    ensures r.Some? ==> Reachable(tr, start, r.value, cpu, id, stop, interleaved)
    ensures r.Some? ==> restarts == OnCpu(tr, cpu, start, r.value)
    ensures r.None? ==> forall j: nat :: !Reachable(tr, start, j, cpu, id, stop, interleaved)
  {
    var pos: nat := start;
    restarts := 0;
    while true
      invariant start <= pos <= |tr|
      invariant forall k | start <= k < pos :: !Hit(tr, k, cpu, id, stop)
      invariant restarts == OnCpu(tr, cpu, start, pos) && (interleaved || restarts == 0)
      invariant pos > start ==> tr[pos - 1].cpu == cpu
      invariant forall h | start < h < pos :: !Noticed(tr, cpu, h)
      decreases |tr| - pos
    {
      r := Next(tr, pos, cpu);
      if r.None? {
        forall j: nat ensures !Reachable(tr, start, j, cpu, id, stop, interleaved) {
          if Reachable(tr, start, j, cpu, id, stop, interleaved) { assert Unbroken(tr, cpu, pos, j); }
        }
        return;
      }
      OnCpuSkip(tr, cpu, start, pos, r.value);
      SkippedUnbroken(tr, cpu, start, pos, r.value);
      pos := r.value;
      if tr[pos].event == id {
        return;
      } else if tr[pos].event == stop {
        assert Hit(tr, pos, cpu, id, stop);
        r := None;
        return;
      }
      pos, restarts := pos + 1, restarts + 1;
      if !interleaved {
        r := None;
        forall j: nat ensures !Reachable(tr, start, j, cpu, id, stop, interleaved) {
          if Reachable(tr, start, j, cpu, id, stop, interleaved) { OnCpuMono(tr, cpu, start, pos, j); }
        }
        return;
      }
    }
  }

  lemma {:induction false} SkippedUnbroken(tr: Trace, cpu: nat, start: nat, m: nat, j: nat)
    requires start <= m <= j < |tr| && (m > start ==> tr[m - 1].cpu == cpu) && Unbroken(tr, cpu, m, j)
    requires forall h | start < h < m :: !Noticed(tr, cpu, h)
    ensures Unbroken(tr, cpu, start, j)
  {
  }

  lemma {:induction false} OnCpuMono(tr: Trace, cpu: nat, i: nat, m: nat, j: nat)
    requires i <= m <= j <= |tr|
    ensures OnCpu(tr, cpu, i, m) <= OnCpu(tr, cpu, i, j)
    decreases j
  {
    if m < j { OnCpuMono(tr, cpu, i, m, j - 1); }
  }

  /** By convention the end of an interval is the event after its start. */
  method FindSecond(tr: Trace, i: nat, interleaved: bool) returns (r: Option<nat>, restarts: nat)
    requires i < |tr|
    ensures r.Some? ==> i < r.value < |tr| && IsPair(tr, tr[i].event, i, r.value)
    ensures r.Some? ==> restarts == OnCpu(tr, tr[i].cpu, i + 1, r.value)
    ensures r.Some? <==> exists j: nat :: Joined(tr, i, j, interleaved)
    ensures r.Some? ==> Joined(tr, i, r.value, interleaved)
  {
    r, restarts := NextId(tr, i + 1, tr[i].cpu, tr[i].event + 1, tr[i].event, interleaved);
    if r.Some? { assert IsPair(tr, tr[i].event, i, r.value); }
    hide Joined, Reachable;
    if r.Some? {
      JoinedMeans(tr, i, r.value, interleaved);
    } else {
      forall j: nat ensures !Joined(tr, i, j, interleaved) {
        JoinedMeans(tr, i, j, interleaved);
        assert !Reachable(tr, i + 1, j, tr[i].cpu, tr[i].event + 1, tr[i].event, interleaved);
      }
    }
  }

  /** A start and its end, with no noticed hole between, and nothing of the processor between unless intervals
      may be interleaved. */
  ghost predicate Joined(tr: Trace, i: nat, j: nat, interleaved: bool)
    requires i < |tr|
  {
    && IsPair(tr, tr[i].event, i, j) && Unbroken(tr, tr[i].cpu, i + 1, j)
    && (interleaved || OnCpu(tr, tr[i].cpu, i + 1, j) == 0)
  }

  lemma {:induction false} JoinedMeans(tr: Trace, i: nat, j: nat, interleaved: bool)
    requires i < |tr|
    ensures Joined(tr, i, j, interleaved) <==>
      Reachable(tr, i + 1, j, tr[i].cpu, tr[i].event + 1, tr[i].event, interleaved)
  {
    hide Unbroken, OnCpu;
  }

  /** A hole between a start and an end that follows it directly is never noticed: the two are joined although
      records are missing between them. */
  lemma {:induction false} HoleMissed(a: Rec, b: Rec, interleaved: bool)
    requires a.cpu == b.cpu && b.event == a.event + 1 && a.no != 0 && b.no != (a.no + 1) % 0x1_0000_0000
    ensures Hole([a, b], 1) && Joined([a, b], 0, 1, interleaved)
  {
    assert OnCpu([a, b], a.cpu, 1, 1) == 0;
    assert Hit([a, b], 1, a.cpu, a.event + 1, a.event);
  }

  // ----- the conversion

  datatype Settings = Settings(interleaved: bool, bestEffort: bool, avoidCpu: Option<nat>, onlyCpu: Option<nat>,
      threshold: U64)

  /** Start records from place i up to place j. */
  function CountStarts(tr: Trace, id: nat, i: nat, j: nat): nat
    requires i <= j <= |tr|
    decreases j
  {
    if i == j then 0 else CountStarts(tr, id, i, j - 1) + if tr[j - 1].event == id then 1 else 0
  }

  /** Pairs in the order of their starts, all before `end`. */
  ghost predicate AllPairs(tr: Trace, id: nat, pairs: seq<(nat, nat)>, end: nat) {
    && (forall k | 0 <= k < |pairs| :: IsPair(tr, id, pairs[k].0, pairs[k].1) && pairs[k].0 < end)
    && (forall k, l | 0 <= k < l < |pairs| :: pairs[k].0 < pairs[l].0)
  }

  /** Records that lie between the ends of a pair on its processor, over all pairs. */
  ghost function Between(tr: Trace, pairs: seq<(nat, nat)>): nat {
    if pairs == [] then 0
    else
      var (i, j) := pairs[|pairs| - 1];
      Between(tr, pairs[..|pairs| - 1]) + if i < j < |tr| then OnCpu(tr, tr[i].cpu, i + 1, j) else 0
  }

  lemma {:induction false} BetweenMore(tr: Trace, pairs: seq<(nat, nat)>, i: nat, j: nat)
    requires i < j < |tr|
    ensures Between(tr, pairs + [(i, j)]) == Between(tr, pairs) + OnCpu(tr, tr[i].cpu, i + 1, j)
  {
    assert (pairs + [(i, j)])[..|pairs|] == pairs;
  }

  predicate AvoidedCpu(o: Settings, cpu: nat) { o.avoidCpu == Some(cpu) || (o.onlyCpu.Some? && o.onlyCpu != Some(cpu)) }

  predicate TooLong(tr: Trace, o: Settings, p: (nat, nat)) {
    p.0 < |tr| && p.1 < |tr| && Elapsed(tr[p.0].time, tr[p.1].time) > o.threshold
  }

  /** A pair that is output: within the threshold, and real-time at one end unless all are wanted. */
  predicate Shown(tr: Trace, o: Settings, p: (nat, nat)) {
    && p.0 < |tr| && p.1 < |tr| && Elapsed(tr[p.0].time, tr[p.1].time) <= o.threshold
    && (tr[p.0].realTime || tr[p.1].realTime || o.bestEffort)
  }

  ghost function ShownOf(tr: Trace, o: Settings, pairs: seq<(nat, nat)>): seq<(nat, nat)> {
    if pairs == [] then []
    else
      var p := pairs[|pairs| - 1];
      ShownOf(tr, o, pairs[..|pairs| - 1]) + if Shown(tr, o, p) then [p] else []
  }

  ghost function LongOf(tr: Trace, o: Settings, pairs: seq<(nat, nat)>): nat {
    if pairs == [] then 0
    else LongOf(tr, o, pairs[..|pairs| - 1]) + if TooLong(tr, o, pairs[|pairs| - 1]) then 1 else 0
  }

  /** The pairs are sorted out rightly: what is printed is just what is to be shown, in order; the rest is too
      long or not real-time. */
  ghost predicate SortedOut(tr: Trace, o: Settings, pairs: seq<(nat, nat)>, printed: seq<(nat, nat)>, complete: nat,
                            filtered: nat, nonRt: nat) {
    && printed == ShownOf(tr, o, pairs) && complete == |printed| && filtered == LongOf(tr, o, pairs)
    && complete + filtered + nonRt == |pairs|
  }

  lemma {:induction false} PairAdded(tr: Trace, id: nat, pairs: seq<(nat, nat)>, i: nat, j: nat)
    requires AllPairs(tr, id, pairs, i) && IsPair(tr, id, i, j)
    ensures AllPairs(tr, id, pairs + [(i, j)], i + 1)
  {
    hide IsPair;
  }

  lemma {:induction false} PairsWiden(tr: Trace, id: nat, pairs: seq<(nat, nat)>, i: nat)
    requires AllPairs(tr, id, pairs, i)
    ensures AllPairs(tr, id, pairs, i + 1)
  {
    hide IsPair;
  }

  lemma {:induction false} SortedOutMore(tr: Trace, o: Settings, pairs: seq<(nat, nat)>, printed: seq<(nat, nat)>,
                                         complete: nat, filtered: nat, nonRt: nat, p: (nat, nat))
    requires SortedOut(tr, o, pairs, printed, complete, filtered, nonRt) && p.0 < |tr| && p.1 < |tr|
    ensures var long, shown := TooLong(tr, o, p), Shown(tr, o, p);
      SortedOut(tr, o, pairs + [p], if shown then printed + [p] else printed, if shown then complete + 1 else complete,
                if long then filtered + 1 else filtered, if long || shown then nonRt else nonRt + 1)
  {
    hide Elapsed;
    var more := pairs + [p];
    assert more[..|pairs|] == pairs && more[|pairs|] == p;
    assert printed + [] == printed;
  }

  /** What is shown is paired, in the same order. */
  lemma {:induction false} ShownArePairs(tr: Trace, o: Settings, pairs: seq<(nat, nat)>)
    ensures forall p :: p in ShownOf(tr, o, pairs) <==> p in pairs && Shown(tr, o, p)
  {
    hide Shown;
    if pairs != [] {
      var n := |pairs| - 1;
      ShownArePairs(tr, o, pairs[..n]);
      assert pairs == pairs[..n] + [pairs[n]];
    }
  }

  /** Among all the pairs of a trace no end occurs twice, and on one processor none overlap. */
  lemma {:induction false} PairsTogether(tr: Trace, id: nat, pairs: seq<(nat, nat)>, end: nat)
    requires AllPairs(tr, id, pairs, end)
    ensures Separate(tr, pairs)
  {
    forall k, l | 0 <= k < l < |pairs|
      ensures pairs[k].1 != pairs[l].1 && pairs[k].0 < |tr| && pairs[l].0 < |tr|
      ensures tr[pairs[k].0].cpu == tr[pairs[l].0].cpu ==> pairs[k].1 < pairs[l].0
    {
      var (i, j) := pairs[k];
      var (i', j') := pairs[l];
      if j == j' { PairUnique(tr, id, i, j, i', j'); }
      if tr[i].cpu == tr[i'].cpu { PairsApart(tr, id, i, j, i', j'); }
    }
  }

  ghost predicate Separate(tr: Trace, pairs: seq<(nat, nat)>) {
    forall k, l | 0 <= k < l < |pairs| ::
      && pairs[k].1 != pairs[l].1 && pairs[k].0 < |tr| && pairs[l].0 < |tr|
      && (tr[pairs[k].0].cpu == tr[pairs[l].0].cpu ==> pairs[k].1 < pairs[l].0)
  }

  /** The pairs so far are right, and so is what has been printed and counted. */
  ghost predicate SoundAt(tr: Trace, id: nat, end: nat, o: Settings, pairs: seq<(nat, nat)>, printed: seq<(nat, nat)>,
                          complete: nat, filtered: nat, nonRt: nat, interleaved: nat) {
    && AllPairs(tr, id, pairs, end) && SortedOut(tr, o, pairs, printed, complete, filtered, nonRt)
    && interleaved == Between(tr, pairs)
  }

  lemma {:induction false} SoundNext(tr: Trace, id: nat, o: Settings, pairs: seq<(nat, nat)>, printed: seq<(nat, nat)>,
                                     complete: nat, filtered: nat, nonRt: nat, interleaved: nat, i: nat, j: nat)
    requires SoundAt(tr, id, i, o, pairs, printed, complete, filtered, nonRt, interleaved) && i < j < |tr|
    requires IsPair(tr, id, i, j)
    ensures var long, shown := TooLong(tr, o, (i, j)), Shown(tr, o, (i, j));
      SoundAt(tr, id, i + 1, o, pairs + [(i, j)], if shown then printed + [(i, j)] else printed,
              if shown then complete + 1 else complete, if long then filtered + 1 else filtered,
              if long || shown then nonRt else nonRt + 1, interleaved + OnCpu(tr, tr[i].cpu, i + 1, j))
  {
    hide AllPairs, SortedOut, IsPair, TooLong, Shown, Between, OnCpu;
    PairAdded(tr, id, pairs, i, j);
    BetweenMore(tr, pairs, i, j);
    SortedOutMore(tr, o, pairs, printed, complete, filtered, nonRt, (i, j));
  }

  // ----- every start is dealt with

  /** What becomes of the start record at i: left out, or paired exactly if its end is there. */
  ghost predicate Dealt(tr: Trace, id: nat, o: Settings, pairs: seq<(nat, nat)>, i: nat)
    requires i < |tr|
  {
    tr[i].event == id ==>
      ((exists k | 0 <= k < |pairs| :: pairs[k].0 == i) <==>
       !AvoidedCpu(o, tr[i].cpu) && exists j: nat :: Joined(tr, i, j, o.interleaved))
  }

  ghost predicate AllDealt(tr: Trace, id: nat, o: Settings, pairs: seq<(nat, nat)>, from: nat, end: nat)
    requires end <= |tr|
  {
    forall i | from <= i < end :: Dealt(tr, id, o, pairs, i)
  }

  /** Start records on processors that are left out. */
  function CountAvoided(tr: Trace, id: nat, o: Settings, i: nat, j: nat): nat
    requires i <= j <= |tr|
    decreases j
  {
    if i == j then 0
    else CountAvoided(tr, id, o, i, j - 1) + if tr[j - 1].event == id && AvoidedCpu(o, tr[j - 1].cpu) then 1 else 0
  }

  lemma {:induction false} DealtMore(tr: Trace, id: nat, o: Settings, pairs: seq<(nat, nat)>, pairs': seq<(nat, nat)>,
                                     from: nat, i: nat)
    requires from <= i < |tr| && AllDealt(tr, id, o, pairs, from, i) && AllPairs(tr, id, pairs, i)
    requires pairs' == pairs || exists j: nat :: pairs' == pairs + [(i, j)]
    requires tr[i].event == id ==>
      (pairs' != pairs <==> !AvoidedCpu(o, tr[i].cpu) && exists j: nat :: Joined(tr, i, j, o.interleaved))
    requires tr[i].event != id ==> pairs' == pairs
    ensures AllDealt(tr, id, o, pairs', from, i + 1)
  {
    hide AvoidedCpu, Joined, IsPair;
    forall x | from <= x < i + 1 ensures Dealt(tr, id, o, pairs', x) {
      if x < i { assert Dealt(tr, id, o, pairs, x); }
      assert (exists k | 0 <= k < |pairs'| :: pairs'[k].0 == x) <==>
        (exists k | 0 <= k < |pairs| :: pairs[k].0 == x) || (x == i && pairs' != pairs) by {
        StartsMore(pairs, pairs', x, i);
      }
    }
  }

  lemma {:induction false} StartsMore(pairs: seq<(nat, nat)>, pairs': seq<(nat, nat)>, x: nat, i: nat)
    requires pairs' == pairs || exists j: nat :: pairs' == pairs + [(i, j)]
    ensures (exists k | 0 <= k < |pairs'| :: pairs'[k].0 == x) <==>
      (exists k | 0 <= k < |pairs| :: pairs[k].0 == x) || (x == i && pairs' != pairs)
  {
    if pairs' != pairs {
      var j: nat :| pairs' == pairs + [(i, j)];
      assert pairs'[|pairs|].0 == i;
      if k :| 0 <= k < |pairs| && pairs[k].0 == x { assert pairs'[k].0 == x; }
    }
  }

  class Converter {
    const opts: Settings
    var complete: nat
    var incomplete: nat
    var filtered: nat
    var skipped: nat
    var nonRt: nat
    var interleaved: nat
    var avoided: nat
    ghost var pairs: seq<(nat, nat)>       // every start that found its end
    ghost var printed: seq<(nat, nat)>     // those that were output

    constructor (o: Settings)
      ensures opts == o && Handled() == 0 && skipped == 0 && interleaved == 0 && pairs == [] && printed == []
    {
      opts := o;
      complete, incomplete, filtered, skipped, nonRt, interleaved, avoided := 0, 0, 0, 0, 0, 0, 0;
      pairs, printed := [], [];
    }

    /** Start records accounted for. */
    function Handled(): nat
      reads this
    {
      avoided + complete + incomplete + filtered + nonRt
    }

    ghost predicate Sound(tr: Trace, id: nat, end: nat)
      reads this
    {
      SoundAt(tr, id, end, opts, pairs, printed, complete, filtered, nonRt, interleaved)
    }

    /** Too long, not real-time, or printed. */
    method Classify(i: nat, j: nat, long: bool, idle: bool)
      modifies this`filtered, this`nonRt, this`complete, this`printed
      ensures filtered == old(filtered) + if long then 1 else 0
      ensures nonRt == old(nonRt) + if !long && idle then 1 else 0
      ensures complete == old(complete) + if !long && !idle then 1 else 0
      ensures printed == if !long && !idle then old(printed) + [(i, j)] else old(printed)
    {
      if long {
        filtered := filtered + 1;
      } else if idle {
        nonRt := nonRt + 1;
      } else {
        printed := printed + [(i, j)];
        complete := complete + 1;
      }
    }

    /** Accounts for one pair. */
    method ShowPair(tr: Trace, i: nat, j: nat, restarts: nat, ghost id: nat)
      requires i < j < |tr| && IsPair(tr, id, i, j) && Sound(tr, id, i) && restarts == OnCpu(tr, tr[i].cpu, i + 1, j)
      modifies this
      ensures Sound(tr, id, i + 1) && Handled() == old(Handled()) + 1 && skipped == old(skipped)
      ensures pairs == old(pairs) + [(i, j)] && avoided == old(avoided)
    {
      hide SoundAt, IsPair, Elapsed, OnCpu;
      var long := Elapsed(tr[i].time, tr[j].time) > opts.threshold;
      var idle := !tr[i].realTime && !tr[j].realTime && !opts.bestEffort;
      SoundNext(tr, id, opts, pairs, printed, complete, filtered, nonRt, interleaved, i, j);
      interleaved := interleaved + restarts;
      pairs := pairs + [(i, j)];
      Classify(i, j, long, idle);
    }

    /** Accounts for one start record, in exactly one of five ways. */
    method ShowCsv(tr: Trace, i: nat, ghost id: nat)
      requires i < |tr| && tr[i].event == id && Sound(tr, id, i)
      modifies this
      ensures Sound(tr, id, i + 1) && Handled() == old(Handled()) + 1 && skipped == old(skipped)
      ensures avoided == old(avoided) + if AvoidedCpu(opts, tr[i].cpu) then 1 else 0
      ensures pairs == old(pairs) || exists j: nat :: pairs == old(pairs) + [(i, j)]
      ensures pairs != old(pairs) <==>
        !AvoidedCpu(opts, tr[i].cpu) && exists j: nat :: Joined(tr, i, j, opts.interleaved)
    {
      PairsWiden(tr, id, pairs, i);
      hide AllPairs, SortedOut, IsPair, Between, OnCpu, Joined;
      if Some(tr[i].cpu) == opts.avoidCpu || (opts.onlyCpu.Some? && tr[i].cpu != opts.onlyCpu.value) {
        avoided := avoided + 1;
        return;
      }
      var second, restarts := FindSecond(tr, i, opts.interleaved);
      if second.Some? {
        ShowPair(tr, i, second.value, restarts, id);
      } else {
        incomplete := incomplete + 1;
      }
    }

    /** The whole trace: everything before the first end record is skipped; after that every start
        record is accounted for exactly once, and paired exactly if it is to be and its end is there. */
    method ShowId(tr: Trace, id: nat)
      requires skipped == 0 && Handled() == 0 && interleaved == 0 && pairs == [] && printed == []
      modifies this
      ensures skipped <= |tr| && (forall k | 0 <= k < skipped :: tr[k].event != id + 1)
      ensures skipped < |tr| ==> tr[skipped].event == id + 1
      ensures Handled() == CountStarts(tr, id, skipped, |tr|) && avoided == CountAvoided(tr, id, opts, skipped, |tr|)
      ensures Sound(tr, id, |tr|) && Separate(tr, pairs) && AllDealt(tr, id, opts, pairs, skipped, |tr|)
      ensures forall p :: p in printed <==> p in pairs && Shown(tr, opts, p)
    {
      hide IsPair, Elapsed, Shown, TooLong, Dealt, Joined, AvoidedCpu;
      var start := SkipPrefix(tr, id);
      while start < |tr|
        invariant skipped <= start <= |tr|
        invariant Handled() == CountStarts(tr, id, skipped, start) && Sound(tr, id, start)
        invariant avoided == CountAvoided(tr, id, opts, skipped, start)
        invariant AllDealt(tr, id, opts, pairs, skipped, start)
        invariant forall k | 0 <= k < skipped :: tr[k].event != id + 1
        invariant skipped < |tr| ==> tr[skipped].event == id + 1
      {
        ghost var was := pairs;
        if tr[start].event == id { ShowCsv(tr, start, id); }
        DealtMore(tr, id, opts, was, pairs, skipped, start);
        start := start + 1;
      }
      PairsTogether(tr, id, pairs, |tr|);
      ShownArePairs(tr, opts, pairs);
    }

    /** Skips everything before the first end record. */
    method SkipPrefix(tr: Trace, id: nat) returns (start: nat)
      requires skipped == 0
      modifies this`skipped
      ensures start == skipped <= |tr| && (forall k | 0 <= k < start :: tr[k].event != id + 1)
      ensures start < |tr| ==> tr[start].event == id + 1
    {
      start := 0;
      while start < |tr| && tr[start].event != id + 1
        invariant start == skipped <= |tr| && forall k | 0 <= k < start :: tr[k].event != id + 1
      {
        skipped := skipped + 1;
        start := start + 1;
      }
    }
  }
}
