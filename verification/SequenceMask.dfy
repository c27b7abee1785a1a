/** The sequence mask as the source keeps it: one byte of flag bits, scanned and compared as bits. */
module SequenceMask {
  import opened OrderedQueue

  datatype Bits = Bits(b: bv8)

  /** The five stage bits; nothing else is ever set in the mask. */
  type Mask = m: Bits | m.b & 0xE0 == 0 witness Bits(0)

  const NO_BITS: Mask := Bits(0)
  const SEQ_STARTED: Mask := Bits(0x01)
  const SEQ_DRAIN: Mask := Bits(0x02)
  const SEQ_PREFLUSH: Mask := Bits(0x04)
  const SEQ_BAR: Mask := Bits(0x08)
  const SEQ_POSTFLUSH: Mask := Bits(0x10)
  const SEQ_DONE := Bits(0x20)

  function Flags(m: Bits): OrdSeq {
    OrdSeq(m.b & 0x01 != 0, m.b & 0x02 != 0, m.b & 0x04 != 0, m.b & 0x08 != 0, m.b & 0x10 != 0)
  }

  /** What the named masks stand for. */
  lemma {:induction false} FlagsNamed()
    ensures Flags(NO_BITS) == IDLE && Flags(SEQ_STARTED) == OrdSeq(true, false, false, false, false)
    ensures Flags(SEQ_DRAIN) == DRAIN_BIT && Flags(SEQ_PREFLUSH) == PRE_BIT
    ensures Flags(SEQ_BAR) == BAR_BIT && Flags(SEQ_POSTFLUSH) == POST_BIT
  {
  }

  function Or(a: Mask, b: Mask): (r: Mask)
    ensures Flags(r) == Union(Flags(a), Flags(b))
  {
    Bits(a.b | b.b)
  }

  /** The masks share a bit: the condition of the fatal check. */
  predicate Meets(a: Mask, b: Mask)
    ensures Meets(a, b) <==> Overlap(Flags(a), Flags(b))
  {
    a.b & b.b != 0
  }

  lemma {:induction false} FlagsIdle(m: Mask)
    ensures Flags(m) == IDLE <==> m == NO_BITS
  {
  }

  /** The bit that stands for a stage value. */
  function Bit(stage: int): Bits {
    if stage == STARTED then SEQ_STARTED
    else if stage == DRAIN then SEQ_DRAIN
    else if stage == PREFLUSH then SEQ_PREFLUSH
    else if stage == BAR then SEQ_BAR
    else if stage == POSTFLUSH then SEQ_POSTFLUSH
    else if stage == DONE then SEQ_DONE
    else NO_BITS
  }

  predicate IsStage(n: int) { n in {0, STARTED, DRAIN, PREFLUSH, BAR, POSTFLUSH, DONE} }

  predicate Below(a: Bits, b: Bits) { a.b < b.b }

  /** Comparing bits is comparing stages. */
  lemma {:induction false} BitOrder(a: int, b: int)
    requires IsStage(a) && IsStage(b)
    ensures Below(Bit(a), Bit(b)) <==> a < b
    ensures Bit(a) == Bit(b) <==> a == b
  {
  }

  lemma {:induction false} CurSeqIsStage(o: OrdSeq)
    ensures IsStage(CurSeq(o))
  {
  }

  /** The lowest clear bit, found by scanning upward. */
  method CurSeqBits(m: Mask) returns (r: Bits)
    ensures r == Bit(CurSeq(Flags(m)))
  {
    FlagsIdle(m);
    if m == NO_BITS { return NO_BITS; }
    var i: bv8 := 0x01;
    while i != 0x20 && m.b & i != 0
      invariant i in {0x01, 0x02, 0x04, 0x08, 0x10, 0x20}
      invariant m.b & (i - 1) == i - 1
      decreases 0x20 - i
    {
      i := i << 1;
    }
    r := Bits(i);
  }
}
