/** Command tags shared by several queues.  A bit per tag acts as the lock of its entry in the index;
    taking and returning a tag are split into the steps that other queues can observe. */
module TagMap {
  import opened Numbers
  import opened Options

  /** Where a request is between taking a tag and having returned it. */
  datatype Phase =
    | Free                                  // no tag, not looking for one
    | Searching(limit: nat)                 // looking for a clear bit below the limit
    | Found(limit: nat, t: nat)             // saw one, has not set it yet
    | Owned(t: nat)                         // set the bit
    | Tagged(t: nat)                        // wrote the tag into the request
    | Busy(t: nat)                          // wrote the request into the index: in use
    | Untagged(t: nat)                      // took the tag out of the request again
    | Unindexed(t: nat)                     // took the request out of the index

  datatype State = State(
    bits: set<nat>,                         // the tag map
    index: map<nat, nat>,                   // tag to request
    tags: map<nat, nat>,                    // request to tag, as the request records it
    phase: map<nat, Phase>,
    async: set<nat>,                        // requests that are not synchronous
    maxDepth: nat,
    realDepth: nat)

  function At(s: State, r: nat): Phase { if r in s.phase then s.phase[r] else Free }

  /** Tags an asynchronous request may take: all but two, but always one. */
  function AsyncLimit(depth: nat): nat {
    if depth <= 1 then depth else if depth - 2 == 0 then 1 else depth - 2
  }

  function Limit(s: State, r: nat): nat { if r in s.async then AsyncLimit(s.maxDepth) else s.maxDepth }

  datatype Step =
    | Begin(r: nat)
    | GiveUp(r: nat)
    | Probe(r: nat, t: nat)
    | TrySet(r: nat)
    | WriteTag(r: nat)
    | WriteIndex(r: nat)
    | EndBegin(r: nat)
    | ClearIndex(r: nat)
    | ClearBit(r: nat)
    | Resize(depth: nat)
    | Grow(depth: nat, nrRequests: nat)

  /** A map never has more than two tags for each request the queue allows. */
  function Capped(depth: nat, nrRequests: nat): nat { if depth > nrRequests * 2 then nrRequests * 2 else depth }

  /** A map can be replaced by a larger one only by its sole user, between operations.  The contents of
      the old map are copied over, so they must fit the new one. */
  predicate Enabled(s: State, step: Step) {
    match step
    case Begin(r) => At(s, r).Free?
    case GiveUp(r) => At(s, r).Searching?
    case Probe(r, t) => At(s, r).Searching? && t < At(s, r).limit
    case TrySet(r) => At(s, r).Found?
    case WriteTag(r) => At(s, r).Owned?
    case WriteIndex(r) => At(s, r).Tagged?
    case EndBegin(r) => At(s, r).Busy?
    case ClearIndex(r) => At(s, r).Untagged?
    case ClearBit(r) => At(s, r).Unindexed?
    case Resize(depth) => depth <= s.realDepth
    case Grow(depth, nr) =>
      && depth > s.realDepth && s.realDepth <= Capped(depth, nr)
      && forall r | r in s.phase :: s.phase[r].Free? || s.phase[r].Busy?
  }

  function Moved(s: State, r: nat, p: Phase): State { s.(phase := s.phase[r := p]) }

  function Apply(s: State, step: Step): State
    requires Enabled(s, step)
  {
    match step
    case Begin(r) => Moved(s, r, Searching(Limit(s, r)))
    case GiveUp(r) => Moved(s, r, Free)
    case Probe(r, t) => Moved(s, r, Found(At(s, r).limit, t))
    case TrySet(r) =>
      var t := At(s, r).t;
      if t in s.bits then Moved(s, r, Searching(At(s, r).limit))
      else Moved(s, r, Owned(t)).(bits := s.bits + {t})
    case WriteTag(r) => Moved(s, r, Tagged(At(s, r).t)).(tags := s.tags[r := At(s, r).t])
    case WriteIndex(r) => Moved(s, r, Busy(At(s, r).t)).(index := s.index[At(s, r).t := r])
    case EndBegin(r) => Moved(s, r, Untagged(At(s, r).t)).(tags := s.tags - {r})
    case ClearIndex(r) => Moved(s, r, Unindexed(At(s, r).t)).(index := s.index - {At(s, r).t})
    case ClearBit(r) => Moved(s, r, Free).(bits := s.bits - {At(s, r).t})
    case Resize(depth) => s.(maxDepth := depth)
    case Grow(depth, nr) => s.(maxDepth := Capped(depth, nr), realDepth := Capped(depth, nr))
  }

  function Init(async: set<nat>, depth: nat): State { State({}, map[], map[], map[], async, depth, depth) }

  // ----- the invariant

  /** The tag a phase holds the bit of. */
  predicate Holds(p: Phase, t: nat) {
    (p.Owned? || p.Tagged? || p.Busy? || p.Untagged? || p.Unindexed?) && p.t == t
  }

  ghost predicate BitsHeld(s: State) {
    && (forall r: nat, t: nat | Holds(At(s, r), t) :: t in s.bits)
    && (forall t: nat | t in s.bits :: exists r: nat :: Holds(At(s, r), t))
  }

  ghost predicate Exclusive(s: State) {
    forall r: nat, q: nat, t: nat | Holds(At(s, r), t) && Holds(At(s, q), t) :: r == q
  }

  /** A request records a tag exactly while it is tagged. */
  ghost predicate TagsRight(s: State) {
    && (forall r | r in s.tags :: At(s, r) == Tagged(s.tags[r]) || At(s, r) == Busy(s.tags[r]))
    && (forall r: nat | At(s, r).Tagged? || At(s, r).Busy? :: r in s.tags)
  }

  /** The index names a request exactly from when it is in use until it is taken out. */
  ghost predicate IndexRight(s: State) {
    && (forall t | t in s.index :: At(s, s.index[t]) == Busy(t) || At(s, s.index[t]) == Untagged(t))
    && (forall r: nat | At(s, r).Busy? || At(s, r).Untagged? :: At(s, r).t in s.index && s.index[At(s, r).t] == r)
  }

  ghost predicate Recorded(s: State) { TagsRight(s) && IndexRight(s) }

  ghost predicate Bounded(s: State) {
    && s.maxDepth <= s.realDepth
    && (forall r: nat | At(s, r).Searching? || At(s, r).Found? :: At(s, r).limit <= s.realDepth)
    && (forall r: nat | At(s, r).Found? :: At(s, r).t < At(s, r).limit)
    && (forall r: nat, t: nat | Holds(At(s, r), t) :: t < s.realDepth)
  }

  ghost predicate Inv(s: State) { BitsHeld(s) && Exclusive(s) && Recorded(s) && Bounded(s) }

  /** The requests a step is about, and what happens to the phase. */
  function Who(step: Step): nat { if step.Resize? || step.Grow? then 0 else step.r }

  lemma {:induction false} OthersStay(s: State, step: Step)
    requires Enabled(s, step)
    ensures var t := Apply(s, step);
      forall q: nat :: (step.Resize? || step.Grow? || q != Who(step)) ==> At(t, q) == At(s, q)
  {
  }

  lemma {:induction false} KeepsBits(s: State, step: Step)
    requires Inv(s) && Enabled(s, step)
    ensures BitsHeld(Apply(s, step))
  {
    hide Recorded, Bounded;
    var u := Apply(s, step);
    OthersStay(s, step);
    forall t: nat | t in u.bits ensures exists r: nat :: Holds(At(u, r), t) {
      if t in s.bits {
        var r: nat :| Holds(At(s, r), t);
        assert Holds(At(u, r), t);
      } else {
        assert Holds(At(u, Who(step)), t);
      }
    }
  }

  lemma {:induction false} KeepsExclusive(s: State, step: Step)
    requires Inv(s) && Enabled(s, step)
    ensures Exclusive(Apply(s, step))
  {
    hide Recorded, Bounded;
    OthersStay(s, step);
  }

  lemma {:induction false} KeepsTags(s: State, step: Step)
    requires TagsRight(s) && Enabled(s, step)
    ensures TagsRight(Apply(s, step))
  {
    OthersStay(s, step);
  }

  predicate Indexed(p: Phase) { p.Busy? || p.Untagged? }

  lemma {:induction false} IndexWritten(s: State, u: State, w: nat, t: nat)
    requires IndexRight(s) && Exclusive(s) && At(s, w) == Tagged(t) && At(u, w) == Busy(t) && u.index == s.index[t := w]
    requires forall q: nat | q != w :: At(u, q) == At(s, q)
    ensures IndexRight(u)
  {
    HoldersApart(s);
    hide Exclusive, At;
  }

  lemma {:induction false} IndexCleared(s: State, u: State, w: nat, t: nat)
    requires IndexRight(s) && Exclusive(s) && At(s, w) == Untagged(t) && At(u, w) == Unindexed(t)
    requires u.index == s.index - {t}
    requires forall q: nat | q != w :: At(u, q) == At(s, q)
    ensures IndexRight(u)
  {
    HoldersApart(s);
    hide Exclusive, At;
  }

  lemma {:induction false} IndexKept(s: State, u: State, w: nat)
    requires IndexRight(s) && u.index == s.index
    requires (Indexed(At(s, w)) <==> Indexed(At(u, w))) && (Indexed(At(s, w)) ==> At(u, w).t == At(s, w).t)
    requires forall q: nat | q != w :: At(u, q) == At(s, q)
    ensures IndexRight(u)
  {
    hide At;
  }

  lemma {:induction false} KeepsIndex(s: State, step: Step)
    requires IndexRight(s) && Exclusive(s) && Enabled(s, step)
    ensures IndexRight(Apply(s, step))
  {
    OthersStay(s, step);
    hide IndexRight, Exclusive;
    var u, w := Apply(s, step), Who(step);
    match step
    case WriteIndex(r) => IndexWritten(s, u, w, At(s, w).t);
    case ClearIndex(r) => IndexCleared(s, u, w, At(s, w).t);
    case _ => IndexKept(s, u, w);
  }

  /** In use, at either end, means holding the bit; so no two such requests have one tag. */
  lemma {:induction false} HoldersApart(s: State)
    requires Exclusive(s)
    ensures forall r: nat, q: nat |
      && (At(s, r).Tagged? || At(s, r).Busy? || At(s, r).Untagged?)
      && (At(s, q).Busy? || At(s, q).Untagged?)
      && At(s, r).t == At(s, q).t :: r == q
  {
    forall r: nat, q: nat | (At(s, r).Tagged? || At(s, r).Busy? || At(s, r).Untagged?) && (At(s, q).Busy? || At(s,
        q).Untagged?)
      && At(s, r).t == At(s, q).t ensures r == q
    {
      assert Holds(At(s, r), At(s, r).t) && Holds(At(s, q), At(s, q).t);
    }
  }

  lemma {:induction false} KeepsBounded(s: State, step: Step)
    requires Inv(s) && Enabled(s, step)
    ensures Bounded(Apply(s, step))
  {
    hide Recorded, BitsHeld, Exclusive;
    OthersStay(s, step);
    var w := At(s, Who(step));
    assert w.Owned? || w.Tagged? || w.Busy? || w.Untagged? || w.Unindexed? ==> Holds(w, w.t);
  }

  lemma {:induction false} StepInv(s: State, step: Step)
    requires Inv(s) && Enabled(s, step)
    ensures Inv(Apply(s, step))
  {
    KeepsBits(s, step);
    KeepsExclusive(s, step);
    KeepsBounded(s, step);
    hide BitsHeld, Exclusive, TagsRight, IndexRight, Bounded, Apply, Enabled;
    KeepsTags(s, step);
    KeepsIndex(s, step);
  }

  // ----- every interleaving

  ghost predicate IsRun(async: set<nat>, depth: nat, states: seq<State>, steps: seq<Step>) {
    && |states| == |steps| + 1 && states[0] == Init(async, depth)
    && forall i | 0 <= i < |steps| :: Enabled(states[i], steps[i]) && states[i + 1] == Apply(states[i], steps[i])
  }

  lemma {:induction false} RunInv(async: set<nat>, depth: nat, states: seq<State>, steps: seq<Step>, k: nat)
    requires IsRun(async, depth, states, steps) && k < |states|
    ensures Inv(states[k])
  {
    if k > 0 {
      RunInv(async, depth, states, steps, k - 1);
      hide Inv;
      StepInv(states[k - 1], steps[k - 1]);
    }
  }

  /** Main result.  Whatever the interleaving, no two requests that hold or record a tag have the
      same one, and an index entry means that its bit is set and its request still records the tag
      unless it is just being ended. */
  lemma {:induction false} TagsExclusive(async: set<nat>, depth: nat, states: seq<State>, steps: seq<Step>, k: nat)
    requires IsRun(async, depth, states, steps) && k < |states|
    ensures var s := states[k];
      && (forall r, q | r in s.tags && q in s.tags && s.tags[r] == s.tags[q] :: r == q)
      && (forall t | t in s.index :: t in s.bits && t < s.realDepth)
      && (forall t | t in s.index ::
            (s.index[t] in s.tags && s.tags[s.index[t]] == t) <==> At(s, s.index[t]) != Untagged(t))
      && (forall r | r in s.tags :: s.tags[r] in s.bits)
  {
    RunInv(async, depth, states, steps, k);
    var s := states[k];
    forall r | r in s.tags ensures Holds(At(s, r), s.tags[r]) {}
    forall t | t in s.index ensures Holds(At(s, s.index[t]), t) {}
  }

  /** The complaints about missing tags and clear bits are never printed. */
  lemma {:induction false} ChecksSilent(async: set<nat>, depth: nat, states: seq<State>, steps: seq<Step>, k: nat)
    requires IsRun(async, depth, states, steps) && k < |steps|
    ensures var s := states[k];
      && (steps[k].EndBegin? ==> steps[k].r in s.tags && s.tags[steps[k].r] < s.realDepth)
      && (steps[k].ClearIndex? ==> At(s, steps[k].r).t in s.index && s.index[At(s, steps[k].r).t] == steps[k].r)
      && (steps[k].ClearBit? ==> At(s, steps[k].r).t in s.bits)
  {
    RunInv(async, depth, states, steps, k);
    var s := states[k];
    assert Enabled(s, steps[k]);
    var w := At(s, Who(steps[k]));
    assert w.Busy? || w.Untagged? || w.Unindexed? ==> Holds(w, w.t);
  }

  // ----- the tags kept for synchronous requests

  ghost predicate AsyncBelow(s: State, limit: nat) {
    forall r | r in s.async ::
      && (At(s, r).Searching? || At(s, r).Found? ==> At(s, r).limit <= limit)
      && (At(s, r).Found? ==> At(s, r).t < limit)
      && (forall t: nat | Holds(At(s, r), t) :: t < limit)
  }

  lemma {:induction false} StepAsync(s: State, step: Step, depth: nat)
    requires AsyncBelow(s, AsyncLimit(depth)) && Enabled(s, step) && !step.Resize? && !step.Grow? && s.maxDepth == depth
    ensures AsyncBelow(Apply(s, step), AsyncLimit(depth)) && Apply(s, step).maxDepth == depth
    ensures Apply(s, step).async == s.async
  {
    OthersStay(s, step);
    var w := At(s, Who(step));
    assert w.Owned? || w.Tagged? || w.Busy? || w.Untagged? || w.Unindexed? ==> Holds(w, w.t);
    hide AsyncLimit;
  }

  /** With a fixed depth of at least three, asynchronous requests never have one of the top two tags. */
  lemma {:induction false} AsyncSpared(async: set<nat>, depth: nat, states: seq<State>, steps: seq<Step>, k: nat)
    requires IsRun(async, depth, states, steps) && k < |states|
    requires forall i | 0 <= i < |steps| :: !steps[i].Resize? && !steps[i].Grow?
    ensures AsyncBelow(states[k], AsyncLimit(depth)) && states[k].maxDepth == depth && states[k].async == async
    ensures depth >= 3 ==> forall r | r in async && r in states[k].tags :: states[k].tags[r] < depth - 2
  {
    if k > 0 {
      AsyncSpared(async, depth, states, steps, k - 1);
      hide AsyncBelow, Apply, Enabled;
      StepAsync(states[k - 1], steps[k - 1], depth);
    }
    RunInv(async, depth, states, steps, k);
    AsyncTags(states[k], AsyncLimit(depth));
  }

  lemma {:induction false} AsyncTags(s: State, limit: nat)
    requires Inv(s) && AsyncBelow(s, limit)
    ensures forall r | r in s.async && r in s.tags :: s.tags[r] < limit
  {
    forall r | r in s.async && r in s.tags ensures s.tags[r] < limit { assert Holds(At(s, r), s.tags[r]); }
  }

  ghost predicate FixedRun(async: set<nat>, depth: nat, states: seq<State>, steps: seq<Step>) {
    IsRun(async, depth, states, steps) && forall i | 0 <= i < |steps| :: !steps[i].Resize? && !steps[i].Grow?
  }

  /** No asynchronous request has one of the top two tags. */
  ghost predicate TopSpared(s: State, depth: nat) {
    forall r | r in s.async && r in s.tags :: s.tags[r] + 2 < depth
  }

  ghost predicate AlwaysSpared(depth: nat) {
    forall async: set<nat>, states: seq<State>, steps: seq<Step>, k: nat |
      FixedRun(async, depth, states, steps) && k < |states| :: TopSpared(states[k], depth)
  }

  /** The exact depths for which the top two tags are kept for synchronous requests: not one, not two. */
  lemma {:induction false} AsyncSparedIff(depth: nat)
    ensures AlwaysSpared(depth) <==> depth == 0 || depth >= 3
  {
    hide IsRun;
    if depth == 0 || depth >= 3 {
      forall async: set<nat>, states: seq<State>, steps: seq<Step>, k: nat |
        FixedRun(async, depth, states, steps) && k < |states|
        ensures TopSpared(states[k], depth)
      {
        AsyncSpared(async, depth, states, steps, k);
        RunInv(async, depth, states, steps, k);
        AsyncTags(states[k], AsyncLimit(depth));
        hide Inv, AsyncBelow;
      }
    } else {
      var states, steps := AsyncTopTag(depth);
      assert FixedRun({0}, depth, states, steps) && !TopSpared(states[4], depth);
    }
  }

  /** Three is exact: with a depth of one or two an asynchronous request gets one of the top two. */
  lemma {:induction false} AsyncTopTag(depth: nat) returns (states: seq<State>, steps: seq<Step>)
    requires 1 <= depth <= 2
    ensures FixedRun({0}, depth, states, steps) && |states| == 5 && 0 in states[4].async
    ensures 0 in states[4].tags && states[4].tags[0] >= depth - 2
  {
    steps := [Begin(0), Probe(0, 0), TrySet(0), WriteTag(0)];
    var s0 := Init({0}, depth);
    var s1 := Apply(s0, Begin(0));
    var s2 := Apply(s1, Probe(0, 0));
    var s3 := Apply(s2, TrySet(0));
    states := [s0, s1, s2, s3, Apply(s3, WriteTag(0))];
  }

  // ----- growing the map

  /** The old map's entries have room in the map that replaces it. */
  predicate CopyFits(realDepth: nat, depth: nat, nrRequests: nat) { realDepth <= Capped(depth, nrRequests) }

  /** They do exactly when the request limit has not been lowered below half the old depth. */
  lemma {:induction false} CopyFitsIff(realDepth: nat, depth: nat, nrRequests: nat)
    requires depth > realDepth
    ensures CopyFits(realDepth, depth, nrRequests) <==> realDepth <= nrRequests * 2
    ensures !CopyFits(256, 300, 4)
  {
  }

  // ----- the same, as one queue sees it when nobody else is at work

  /** A request takes tag t, step by step. */
  function Started(s: State, r: nat, t: nat): State
    requires At(s, r).Free? && t < Limit(s, r) && t !in s.bits
  {
    var s1 := Apply(s, Begin(r));
    var s2 := Apply(s1, Probe(r, t));
    var s3 := Apply(s2, TrySet(r));
    Apply(Apply(s3, WriteTag(r)), WriteIndex(r))
  }

  function Ended(s: State, r: nat): State
    requires At(s, r).Busy?
  {
    Apply(Apply(Apply(s, EndBegin(r)), ClearIndex(r)), ClearBit(r))
  }

  /** The tags a request may have: all below the depth, but for the top two if it is asynchronous; the lowest
      tag is for everyone. */
  predicate Allowed(depth: nat, async: bool, t: nat) { t < depth && (async ==> t == 0 || t + 2 < depth) }

  /** In any state a request that looks for a tag may take just those it is allowed, and gets one that is
      free. */
  lemma {:induction false} TagsAllowed(s: State, r: nat, t: nat)
    requires At(s, r).Free?
    ensures var s1 := Apply(s, Begin(r));
      && (Enabled(s1, Probe(r, t)) <==> Allowed(s.maxDepth, r in s.async, t))
      && (Allowed(s.maxDepth, r in s.async, t) && t !in s.bits ==>
            At(Apply(Apply(s1, Probe(r, t)), TrySet(r)), r) == Owned(t))
  {
    var s1 := Apply(s, Begin(r));
    assert At(s1, r) == Searching(Limit(s, r));
    assert t < Limit(s, r) <==> Allowed(s.maxDepth, r in s.async, t);
  }

  class TagQueue {
    var bits: set<nat>
    var index: map<nat, nat>
    var tags: map<nat, nat>
    var maxDepth: nat
    var realDepth: nat
    ghost var phase: map<nat, Phase>
    ghost var async: set<nat>

    ghost function View(): State
      reads this
    {
      State(bits, index, tags, phase, async, maxDepth, realDepth)
    }

    /** The lowest clear bit below the limit, or the limit. */
    method FindFirstZero(limit: nat) returns (t: nat)
      ensures t <= limit && (forall i | 0 <= i < t :: i in bits) && (t < limit ==> t !in bits)
    {
      t := 0;
      while t < limit && t in bits
        invariant t <= limit && forall i | 0 <= i < t :: i in bits
      {
        t := t + 1;
      }
    }

    /** Takes the lowest free tag, or fails if there is none the request may have, or if too many
        asynchronous requests are in flight. */
    method StartTag(r: nat, sync: bool, asyncInFlight: nat) returns (ok: bool, ghost t: nat)
      requires Inv(View()) && At(View(), r).Free? && (sync <==> r !in async)
      modifies this`bits, this`index, this`tags, this`phase
      ensures Inv(View())
      ensures var crowded := !sync && maxDepth > 1 && asyncInFlight > AsyncLimit(maxDepth);
        ok <==> !crowded && exists i | 0 <= i < Limit(old(View()), r) :: i !in old(bits)
      ensures var crowded := !sync && maxDepth > 1 && asyncInFlight > 1 && asyncInFlight + 2 > maxDepth;
        ok <==> !crowded && exists i: nat | Allowed(maxDepth, !sync, i) :: i !in old(bits)
      ensures !ok ==> View() == old(View())
      ensures ok ==> t < Limit(old(View()), r) && t !in old(bits) && (forall i | 0 <= i < t :: i in old(bits))
      ensures ok ==> Allowed(maxDepth, !sync, t)
      ensures ok ==> bits == old(bits) + {t} && tags == old(tags)[r := t] && index == old(index)[t := r]
      ensures ok ==> View() == Started(old(View()), r, t)
    {
      ghost var s := View();
      var depth := maxDepth;
      if !sync && depth > 1 {
        depth := depth - 2;
        if depth == 0 { depth := 1; }
        if asyncInFlight > depth { return false, 0; }
      }
      var tag := FindFirstZero(depth);
      t := tag;
      if tag >= depth { return false, t; }
      ok := true;
      StartedShape(s, r, t);
      hide Inv, At, Apply;
      bits, tags, index := bits + {tag}, tags[r := tag], index[tag := r];
      phase := Started(s, r, t).phase;
    }

    /** Changes the depth.  A smaller map stays as it is; a larger one replaces it if nobody shares it. */
    method Resize(depth: nat, users: nat, nrRequests: nat) returns (busy: bool)
      requires Inv(View()) && forall r | r in phase :: phase[r].Free? || phase[r].Busy?
      requires depth <= realDepth || users != 1 || CopyFits(realDepth, depth, nrRequests)
      modifies this`maxDepth, this`realDepth
      ensures Inv(View()) && (busy <==> depth > old(realDepth) && users != 1)
      ensures View() ==
        if depth <= old(realDepth) then Apply(old(View()), Step.Resize(depth))
        else if users != 1 then old(View())
        else Apply(old(View()), Grow(depth, nrRequests))
      ensures maxDepth ==
        if depth <= old(realDepth) then depth else if users != 1 then old(maxDepth) else Min(depth, 2 * nrRequests)
      ensures realDepth == if depth <= old(realDepth) || users != 1 then old(realDepth) else maxDepth
    {
      ghost var s := View();
      if depth <= realDepth {
        StepInv(s, Step.Resize(depth));
        hide Inv;
        maxDepth := depth;
        return false;
      }
      if users != 1 { return true; }
      StepInv(s, Grow(depth, nrRequests));
      hide Inv;
      var d := Capped(depth, nrRequests);
      maxDepth, realDepth := d, d;
      busy := false;
    }

    /** Gives the tag back. */
    method EndTag(r: nat)
      requires Inv(View()) && At(View(), r).Busy?
      modifies this`bits, this`index, this`tags, this`phase
      ensures Inv(View()) && View() == Ended(old(View()), r)
      ensures r in old(tags) && tags == old(tags) - {r}
      ensures var t := old(tags)[r]; index == old(index) - {t} && bits == old(bits) - {t}
    {
      ghost var s := View();
      BusyTag(s, r);
      EndedShape(s, r);
      hide Inv, At, Apply;
      var tag := tags[r];
      tags, index, bits := tags - {r}, index - {tag}, bits - {tag};
      phase := Ended(s, r).phase;
    }
  }

  lemma {:induction false} StartedShape(s: State, r: nat, t: nat)
    requires Inv(s) && At(s, r).Free? && t < Limit(s, r) && t !in s.bits
    ensures var u := Started(s, r, t);
      && Inv(u) && u.bits == s.bits + {t} && u.index == s.index[t := r] && u.tags == s.tags[r := t]
      && u.async == s.async && u.maxDepth == s.maxDepth && u.realDepth == s.realDepth
  {
    hide Inv;
    var s1 := Apply(s, Begin(r));
    StepInv(s, Begin(r));
    var s2 := Apply(s1, Probe(r, t));
    StepInv(s1, Probe(r, t));
    var s3 := Apply(s2, TrySet(r));
    StepInv(s2, TrySet(r));
    var s4 := Apply(s3, WriteTag(r));
    StepInv(s3, WriteTag(r));
    StepInv(s4, WriteIndex(r));
  }

  lemma {:induction false} BusyTag(s: State, r: nat)
    requires Inv(s) && At(s, r).Busy?
    ensures r in s.tags && s.tags[r] == At(s, r).t
  {
  }

  lemma {:induction false} EndedShape(s: State, r: nat)
    requires Inv(s) && At(s, r).Busy?
    ensures var u, t := Ended(s, r), At(s, r).t;
      && Inv(u) && u.bits == s.bits - {t} && u.index == s.index - {t} && u.tags == s.tags - {r}
      && u.async == s.async && u.maxDepth == s.maxDepth && u.realDepth == s.realDepth
  {
    hide Inv;
    var s1 := Apply(s, EndBegin(r));
    StepInv(s, EndBegin(r));
    var s2 := Apply(s1, ClearIndex(r));
    StepInv(s1, ClearIndex(r));
    StepInv(s2, ClearBit(r));
  }
}
