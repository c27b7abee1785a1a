/** Where the cipher walk puts a block that does not lie in one piece: slots for destination, source
    and chaining value in one buffer, none of them across a page boundary. */
module BlkcipherSlots {
  import opened Multiples
  import opened Numbers

  /** Page size, required alignment of data, and the alignment the allocator gives. */
  datatype Layout = Layout(page: nat, align: nat, given: nat)

  ghost predicate Sound(l: Layout) {
    PowerOfTwo(l.page) && PowerOfTwo(l.align) && PowerOfTwo(l.given) && l.align <= l.page && l.given <= l.page
  }

  /** A spot for len bytes, from start on, that does not straddle a page. */
  function Spot(page: nat, start: nat, len: nat): nat
    requires page > 0 && len > 0
  {
    Max(start, Down(start + len - 1, page))
  }

  ghost predicate OnOnePage(page: nat, at: nat, len: nat)
    requires page > 0 && len > 0
  {
    Down(at, page) == Down(at + len - 1, page)
  }

  /** The spot is where it was asked for, or at the page boundary that lay inside. */
  lemma {:induction false} SpotFacts(page: nat, start: nat, len: nat)
    requires 0 < len <= page
    ensures var s := Spot(page, start, len);
      && start <= s < start + len && OnOnePage(page, s, len)
      && (s == start || Multiple(s, page))
      && (OnOnePage(page, start, len) ==> s == start)
  {
    DownFacts(start + len - 1, page);
    DownFacts(start, page);
    var b := Down(start + len - 1, page);
    hide Down;
    if b > start {
      DownUnique(b, b, page);
      DownUnique(b + len - 1, b, page);
    } else {
      DownUnique(start, b, page);
    }
  }

  lemma {:induction false} SpotMonotone(page: nat, start: nat, len: nat, start': nat, len': nat)
    requires 0 < len <= len' && start <= start' && page > 0
    ensures Spot(page, start, len) <= Spot(page, start', len')
  {
    var x, y := start + len - 1, start' + len' - 1;
    DownFacts(x, page);
    DownFacts(y, page);
    var d, e := Down(x, page), Down(y, page);
    hide Down;
    if e < d { MultipleGap(e, d, page); }
  }

  /** The slots in a buffer at `buffer`, for blocks of bs bytes and a chaining value of ivSize. */
  function DstSlot(l: Layout, buffer: nat, bs: nat): nat
    requires l.page > 0 && l.align > 0 && bs > 0
  {
    Spot(l.page, Up(buffer, l.align), bs)
  }

  function SrcSlot(l: Layout, buffer: nat, bs: nat): nat
    requires l.page > 0 && l.align > 0 && bs > 0
  {
    Spot(l.page, DstSlot(l, buffer, bs) + Up(bs, l.align), bs)
  }

  function IvSlot(l: Layout, buffer: nat, bs: nat, ivSize: nat): nat
    requires l.page > 0 && l.align > 0 && bs > 0 && ivSize > 0
  {
    Spot(l.page, SrcSlot(l, buffer, bs) + Up(bs, l.align), ivSize)
  }

  /** Extra room for aligning a pointer the allocator gave. */
  function Slack(l: Layout): nat
    requires l.align > 0 && l.given > 0
  {
    Down(l.align - 1, l.given)
  }

  /** Bytes allocated when the chaining value needs a slot too, and when it does not. */
  function IvBufferSize(l: Layout, bs: nat, ivSize: nat): int
    requires l.align > 0 && l.given > 0
  {
    Up(bs, l.align) * 2 + ivSize + Max(Up(bs, l.align), ivSize) - l.align + Slack(l)
  }

  function BufferSize(l: Layout, bs: nat): int
    requires l.align > 0 && l.given > 0
  {
    Up(bs, l.align) * 3 - l.align + Slack(l)
  }

  /** Aligning moves a pointer by no more than the slack. */
  lemma {:induction false} AlignWithinSlack(l: Layout, buffer: nat)
    requires Sound(l) && l.align > 0 && l.given > 0 && Multiple(buffer, l.given)
    ensures Up(buffer, l.align) <= buffer + Slack(l)
  {
    hide Down, Up, PowerOfTwo;
    UpFacts(buffer, l.align);
    DownFacts(l.align - 1, l.given);
    if l.align <= l.given {
      PowersDivide(l.align, l.given);
      MultipleTrans(buffer, l.given, l.align);
    } else {
      PowersDivide(l.given, l.align);
      var u := Up(buffer, l.align);
      MultipleTrans(u, l.align, l.given);
      if u > buffer {
        MultipleGap(buffer, u, l.given);
        assert Multiple(u - buffer, l.given) && u - buffer <= l.align - 1;
        if u - buffer > Slack(l) { MultipleGap(Slack(l), u - buffer, l.given); }
      }
    }
  }

  // ----- the slots

  lemma {:induction false} OnPageFrom(page: nat, b: nat, off: nat, len: nat)
    requires 0 < len && page > 0 && Multiple(b, page) && off + len <= page
    ensures OnOnePage(page, b + off, len) && Spot(page, b + off, len) == b + off
  {
    hide Down;
    DownUnique(b + off, b, page);
    DownUnique(b + off + len - 1, b, page);
    assert Max(b + off, b) == b + off;
  }

  /** From an aligned start the spot moves by whole alignment units, and by less than its length. */
  lemma {:induction false} SpotSkip(page: nat, align: nat, start: nat, len: nat)
    requires 0 < len <= page && 0 < align && Multiple(page, align) && Multiple(start, align)
    ensures var s := Spot(page, start, len); start <= s <= start + Down(len - 1, align) && Multiple(s, align)
  {
    hide Down, Spot;
    SpotFacts(page, start, len);
    var s := Spot(page, start, len);
    DownFacts(len - 1, align);
    if s > start {
      MultipleTrans(s, page, align);
      MultipleGap(start, s, align);
      if s - start > Down(len - 1, align) { MultipleGap(Down(len - 1, align), s - start, align); }
    }
  }

  /** Everything that is assumed of the numbers: sizes positive, and all three slots fit one page. */
  ghost predicate Fitting(l: Layout, bs: nat, ivSize: nat) {
    && Sound(l) && l.page > 0 && l.align > 0 && l.given > 0 && bs > 0 && ivSize > 0
    && 2 * Up(bs, l.align) + ivSize <= l.page
  }

  lemma {:induction false} BlockFacts(l: Layout, bs: nat)
    requires Sound(l) && l.page > 0 && l.align > 0 && bs > 0
    ensures var w := Up(bs, l.align);
      bs <= w && Multiple(w, l.align) && w >= l.align && Down(bs - 1, l.align) == w - l.align
    ensures Multiple(l.page, l.align)
  {
    hide Down, PowerOfTwo;
    PowersDivide(l.align, l.page);
    UpFacts(bs, l.align);
    var w := Up(bs, l.align);
    MultipleGap(0, w, l.align);
    MultipleAdd(w - l.align, l.align, l.align);
    DownUnique(bs - 1, w - l.align, l.align);
  }

  /** At most one of the three slots is moved to a page boundary. */
  lemma {:induction false} SlotShape(l: Layout, buffer: nat, bs: nat, ivSize: nat)
    requires Fitting(l, bs, ivSize)
    ensures var x, w := Up(buffer, l.align), Up(bs, l.align);
      var d, s, v := DstSlot(l, buffer, bs), SrcSlot(l, buffer, bs), IvSlot(l, buffer, bs, ivSize);
      && OnOnePage(l.page, d, bs) && OnOnePage(l.page, s, bs) && OnOnePage(l.page, v, ivSize)
      && x <= d && d + w <= s && s + w <= v
      && (v <= x + 2 * w + (w - l.align) ||
          (d == x && s == x + w && v < x + 2 * w + ivSize && (v == x + 2 * w || Multiple(v, l.page))))
  {
    hide Down, Up, Spot, OnOnePage, PowerOfTwo;
    BlockFacts(l, bs);
    var x, w, p := Up(buffer, l.align), Up(bs, l.align), l.page;
    var d, s, v := DstSlot(l, buffer, bs), SrcSlot(l, buffer, bs), IvSlot(l, buffer, bs, ivSize);
    UpFacts(buffer, l.align);
    SpotFacts(p, x, bs);
    SpotSkip(p, l.align, x, bs);
    SpotFacts(p, d + w, bs);
    MultipleAdd(d, w, l.align);
    SpotSkip(p, l.align, d + w, bs);
    SpotFacts(p, s + w, ivSize);
    if d > x {
      OnPageFrom(p, d, w, bs);
      OnPageFrom(p, d, w + w, ivSize);
    } else if s > d + w {
      OnPageFrom(p, s, w, ivSize);
    }
  }

  /** What the start of the slots is always a multiple of. */
  function Grain(l: Layout): nat { Max(l.align, l.given) }

  /** The furthest the chaining value's slot can be from the start is allowed for. */
  predicate Roomy(l: Layout, bs: nat, ivSize: nat)
    requires l.align > 0 && ivSize > 0
  {
    Down(2 * Up(bs, l.align) + ivSize - 1, Grain(l)) <= 2 * Up(bs, l.align) + Max(Up(bs, l.align), ivSize) - l.align
  }

  /** It is when the chaining value is no longer than an aligned block, or a whole number of
      alignment units. */
  lemma {:induction false} UsuallyRoomy(l: Layout, bs: nat, ivSize: nat)
    requires Fitting(l, bs, ivSize) && (ivSize <= Up(bs, l.align) || Multiple(ivSize, l.align))
    ensures Roomy(l, bs, ivSize)
  {
    hide Down, Up, PowerOfTwo;
    BlockFacts(l, bs);
    var w, a := Up(bs, l.align), l.align;
    DownFacts(2 * w + ivSize - 1, Grain(l));
    var k := Down(2 * w + ivSize - 1, Grain(l));
    GrainAligned(l);
    MultipleTrans(k, Grain(l), a);
    MultipleAdd(w, w, a);
    if ivSize <= w {
      MultipleAdd(2 * w, w, a);
      MultipleGap(k, 2 * w + w, a);
    } else {
      MultipleAdd(2 * w, ivSize, a);
      MultipleGap(k, 2 * w + ivSize, a);
    }
  }

  lemma {:induction false} GrainAligned(l: Layout)
    requires Sound(l) && l.page > 0 && l.align > 0 && l.given > 0
    ensures Grain(l) > 0 && Multiple(Grain(l), l.align) && Multiple(Grain(l), l.given) && Multiple(l.page, Grain(l))
  {
    hide PowerOfTwo, Multiple;
    PowersDivide(l.align, l.align);
    PowersDivide(l.given, l.given);
    if l.align > l.given { PowersDivide(l.given, l.align); } else { PowersDivide(l.align, l.given); }
    PowersDivide(l.align, l.page);
    PowersDivide(l.given, l.page);
  }

  /** The slots start at a multiple of the grain. */
  lemma {:induction false} StartGrained(l: Layout, buffer: nat)
    requires Sound(l) && l.page > 0 && l.align > 0 && l.given > 0 && Multiple(buffer, l.given)
    ensures Grain(l) > 0 && Multiple(Up(buffer, l.align), Grain(l))
  {
    hide Down, Up, PowerOfTwo;
    UpFacts(buffer, l.align);
    if l.align <= l.given {
      PowersDivide(l.align, l.given);
      MultipleTrans(buffer, l.given, l.align);
    }
  }

  /** The slots never straddle a page, do not overlap, and lie inside the allocation. */
  lemma {:induction false} SlotsSound(l: Layout, buffer: nat, bs: nat, ivSize: nat)
    requires Fitting(l, bs, ivSize) && Roomy(l, bs, ivSize) && Multiple(buffer, l.given)
    ensures var d, s, v := DstSlot(l, buffer, bs), SrcSlot(l, buffer, bs), IvSlot(l, buffer, bs, ivSize);
      && OnOnePage(l.page, d, bs) && OnOnePage(l.page, s, bs) && OnOnePage(l.page, v, ivSize)
      && buffer <= d && d + bs <= s && s + bs <= v && v + ivSize <= buffer + IvBufferSize(l, bs, ivSize)
  {
    hide Down, Up, DstSlot, SrcSlot, IvSlot, OnOnePage, PowerOfTwo, Slack;
    BlockFacts(l, bs);
    UpFacts(buffer, l.align);
    SlotShape(l, buffer, bs, ivSize);
    AlignWithinSlack(l, buffer);
    IvWithin(l, buffer, bs, ivSize);
  }

  lemma {:induction false} IvWithin(l: Layout, buffer: nat, bs: nat, ivSize: nat)
    requires Fitting(l, bs, ivSize) && Roomy(l, bs, ivSize) && Multiple(buffer, l.given)
    ensures var w := Up(bs, l.align);
      IvSlot(l, buffer, bs, ivSize) <= Up(buffer, l.align) + 2 * w + Max(w, ivSize) - l.align
  {
    hide Down, Up, DstSlot, SrcSlot, IvSlot, OnOnePage, PowerOfTwo, Slack;
    BlockFacts(l, bs);
    SlotShape(l, buffer, bs, ivSize);
    StartGrained(l, buffer);
    GrainAligned(l);
    var x, w, g, v := Up(buffer, l.align), Up(bs, l.align), Grain(l), IvSlot(l, buffer, bs, ivSize);
    var top := 2 * w + ivSize - 1;
    DownFacts(top, g);
    if v > x && Multiple(v, l.page) {
      MultipleTrans(v, l.page, g);
      MultipleGap(x, v, g);
      if v - x <= top && v - x > Down(top, g) { MultipleGap(Down(top, g), v - x, g); }
    }
  }

  /** A later, smaller block in the same buffer stays clear of the chaining value too. */
  lemma {:induction false} SmallerBlocks(l: Layout, buffer: nat, bs: nat, ivSize: nat, bs': nat)
    requires Fitting(l, bs, ivSize) && 0 < bs' <= bs
    ensures var d, s := DstSlot(l, buffer, bs'), SrcSlot(l, buffer, bs');
      && OnOnePage(l.page, d, bs') && OnOnePage(l.page, s, bs')
      && buffer <= d && d + bs' <= s && s + bs' <= IvSlot(l, buffer, bs, ivSize)
  {
    hide Down, Up, Spot, OnOnePage, PowerOfTwo, IvSlot;
    BlockFacts(l, bs);
    BlockFacts(l, bs');
    UpFacts(buffer, l.align);
    SlotShape(l, buffer, bs, ivSize);
    var x, w, w' := Up(buffer, l.align), Up(bs, l.align), Up(bs', l.align);
    assert w' <= w by { UpMonotone(bs', bs, l.align); }
    SpotMonotone(l.page, x, bs', x, bs);
    var d := DstSlot(l, buffer, bs');
    SpotMonotone(l.page, d + w', bs', DstSlot(l, buffer, bs) + w, bs);
    SpotFacts(l.page, x, bs');
    SpotFacts(l.page, d + w', bs');
  }

  lemma {:induction false} UpMonotone(x: nat, y: nat, m: nat)
    requires m > 0 && x <= y
    ensures Up(x, m) <= Up(y, m)
  {
    hide Up;
    UpFacts(x, m);
    UpFacts(y, m);
    if Up(y, m) < Up(x, m) { MultipleGap(Up(y, m), Up(x, m), m); }
  }

  /** Without a slot for the chaining value: the two slots fit the smaller allocation, for the first
      block and for any smaller one after it. */
  lemma {:induction false} TwoSlotsSound(l: Layout, buffer: nat, bs: nat, bs': nat)
    requires Sound(l) && l.page > 0 && l.align > 0 && l.given > 0 && 0 < bs' <= bs && 2 * Up(bs, l.align) <= l.page
    requires Multiple(buffer, l.given)
    ensures var d, s := DstSlot(l, buffer, bs'), SrcSlot(l, buffer, bs');
      && OnOnePage(l.page, d, bs') && OnOnePage(l.page, s, bs')
      && buffer <= d && d + bs' <= s && s + bs' <= buffer + BufferSize(l, bs)
  {
    hide Down, Up, Spot, OnOnePage, PowerOfTwo, Slack;
    BlockFacts(l, bs');
    UpFacts(buffer, l.align);
    AlignWithinSlack(l, buffer);
    UpMonotone(bs', bs, l.align);
    var x, w := Up(buffer, l.align), Up(bs', l.align);
    var d := DstSlot(l, buffer, bs');
    SpotFacts(l.page, x, bs');
    SpotSkip(l.page, l.align, x, bs');
    MultipleAdd(d, w, l.align);
    SpotFacts(l.page, d + w, bs');
    SpotSkip(l.page, l.align, d + w, bs');
    if d > x { OnPageFrom(l.page, d, w, bs'); }
  }

  /** A whole page used as the buffer holds the two slots side by side. */
  lemma {:induction false} PageBuffer(l: Layout, buffer: nat, bs: nat)
    requires Sound(l) && l.page > 0 && l.align > 0 && bs > 0 && 2 * Up(bs, l.align) <= l.page
    requires Multiple(buffer, l.page)
    ensures DstSlot(l, buffer, bs) == buffer && SrcSlot(l, buffer, bs) == buffer + Up(bs, l.align)
    ensures SrcSlot(l, buffer, bs) + bs <= buffer + l.page
  {
    hide Down, Up, Spot, PowerOfTwo;
    BlockFacts(l, bs);
    MultipleTrans(buffer, l.page, l.align);
    UpFacts(buffer, l.align);
    OnPageFrom(l.page, buffer, 0, bs);
    OnPageFrom(l.page, buffer, Up(bs, l.align), bs);
  }

  /** Otherwise it does not fit at every address: when its slot is the one that moves to a page
      boundary, it can move by more than was allowed for. */
  lemma {:induction false} NotRoomyOverflows(l: Layout, bs: nat, ivSize: nat) returns (buffer: nat)
    requires Fitting(l, bs, ivSize) && !Roomy(l, bs, ivSize)
    ensures Multiple(buffer, l.given) && IvSlot(l, buffer, bs, ivSize) + ivSize > buffer + IvBufferSize(l, bs, ivSize)
  {
    hide Down, Up, Spot, PowerOfTwo, OnOnePage, Slack;
    BlockFacts(l, bs);
    GrainAligned(l);
    var w, p, g := Up(bs, l.align), l.page, Grain(l);
    var top := 2 * w + ivSize - 1;
    DownFacts(top, g);
    var k := Down(top, g);
    MultipleAdd(p, p, p);
    MultipleAdd(p, p, g);
    var boundary := p + p;
    MultipleGap(k, boundary, g);
    var x := boundary - k;
    FarBase(l, x);
    buffer := x - Slack(l);
    WithinPage(p, boundary, x, bs);
    WithinPage(p, boundary, x + w, bs);
    AtBoundary(p, boundary, x + w + w, ivSize);
  }

  /** A base that aligning moves by the whole slack. */
  lemma {:induction false} FarBase(l: Layout, x: nat)
    requires Sound(l) && l.page > 0 && l.align > 0 && l.given > 0 && Grain(l) > 0 && Multiple(x, Grain(l))
    requires x >= Grain(l)
    ensures x >= Slack(l) && Multiple(x - Slack(l), l.given) && Up(x - Slack(l), l.align) == x
  {
    hide Down, Up, PowerOfTwo;
    GrainAligned(l);
    MultipleTrans(x, Grain(l), l.given);
    MultipleTrans(x, Grain(l), l.align);
    var d := Slack(l);
    DownFacts(l.align - 1, l.given);
    if d > 0 { MultipleGap(d, x, l.given); }
    UpUnique(x - d, x, l.align);
  }

  lemma {:induction false} UpUnique(x: nat, y: nat, m: nat)
    requires m > 0 && Multiple(y, m) && x <= y < x + m
    ensures Up(x, m) == y
  {
    hide Up;
    UpFacts(x, m);
    var u := Up(x, m);
    if u < y { MultipleGap(u, y, m); }
    if y < u { MultipleGap(y, u, m); }
  }

  lemma {:induction false} WithinPage(page: nat, boundary: nat, at: nat, len: nat)
    requires page > 0 && len > 0 && Multiple(boundary, page) && page <= boundary && boundary - page <= at
    requires at + len <= boundary
    ensures Spot(page, at, len) == at
  {
    hide Down;
    DownUnique(at + len - 1, boundary - page, page);
  }

  lemma {:induction false} AtBoundary(page: nat, boundary: nat, at: nat, len: nat)
    requires page > 0 && 0 < len <= page && Multiple(boundary, page) && at < boundary <= at + len - 1
    ensures Spot(page, at, len) == boundary
  {
    hide Down;
    DownUnique(at + len - 1, boundary, page);
  }

  /** The sizes 1 to 4096 that are powers of two. */
  lemma {:induction false} PowersListed()
    ensures PowerOfTwo(8) && PowerOfTwo(16) && PowerOfTwo(4096)
  {
    assert PowerOfTwo(1) && PowerOfTwo(2) && PowerOfTwo(4);
    assert PowerOfTwo(32) && PowerOfTwo(64) && PowerOfTwo(128) && PowerOfTwo(256);
    assert PowerOfTwo(512) && PowerOfTwo(1024) && PowerOfTwo(2048);
  }

  /** Such sizes exist: a block of 16 bytes aligned to 16, and a chaining value one byte longer. */
  lemma {:induction false} OddIvOverflows() returns (buffer: nat)
    ensures var l := Layout(4096, 16, 8);
      && Fitting(l, 16, 17) && !Roomy(l, 16, 17) && Multiple(buffer, 8)
      && IvSlot(l, buffer, 16, 17) + 17 > buffer + IvBufferSize(l, 16, 17)
  {
    var l := Layout(4096, 16, 8);
    PowersListed();
    assert Up(16, 16) == 16 && Down(48, 16) == 48;
    assert Fitting(l, 16, 17) && !Roomy(l, 16, 17);
    buffer := NotRoomyOverflows(l, 16, 17);
  }

  /** The exact rule: the chaining value's slot is inside the allocation at every address the
      allocator may give if and only if there is room for its furthest place. */
  lemma {:induction false} IvFitsIff(l: Layout, bs: nat, ivSize: nat)
    requires Fitting(l, bs, ivSize)
    ensures (forall buffer: nat | Multiple(buffer, l.given) ::
               IvSlot(l, buffer, bs, ivSize) + ivSize <= buffer + IvBufferSize(l, bs, ivSize))
            <==> Roomy(l, bs, ivSize)
  {
    hide IvSlot, IvBufferSize, Roomy;
    if Roomy(l, bs, ivSize) {
      forall buffer: nat | Multiple(buffer, l.given)
        ensures IvSlot(l, buffer, bs, ivSize) + ivSize <= buffer + IvBufferSize(l, bs, ivSize)
      {
        SlotsSound(l, buffer, bs, ivSize);
      }
    } else {
      var buffer := NotRoomyOverflows(l, bs, ivSize);
    }
  }
}
