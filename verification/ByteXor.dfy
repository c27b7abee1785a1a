/** Exclusive or into a buffer, a word at a time where it can be. */
module ByteXor {
  datatype Byte = Byte(bits: bv8)

  type Bytes = seq<Byte>

  // ----- exclusive or

  function Xor1(a: Byte, b: Byte): Byte { Byte(a.bits ^ b.bits) }

  function Xor(a: Bytes, b: Bytes): (r: Bytes)
    requires |a| == |b|
    ensures |r| == |a|
  {
    seq(|a|, i requires 0 <= i < |a| => Xor1(a[i], b[i]))
  }

  lemma {:induction false} XorTwice(a: Bytes, b: Bytes)
    requires |a| == |b|
    ensures Xor(Xor(a, b), b) == a && Xor(b, a) == Xor(a, b)
  {
  }

  /** A word as it lies in memory; which end comes first does not matter below. */
  function Word(a: Byte, b: Byte, c: Byte, d: Byte): bv32 {
    a.bits as bv32 | (b.bits as bv32 << 8) | (c.bits as bv32 << 16) | (d.bits as bv32 << 24)
  }

  function Unword(w: bv32): (Byte, Byte, Byte, Byte) {
    (Byte((w & 0xff) as bv8), Byte(((w >> 8) & 0xff) as bv8), Byte(((w >> 16) & 0xff) as bv8), Byte((w >> 24) as bv8))
  }

  /** A word-wide exclusive or is four byte-wide ones. */
  lemma {:induction false} WordXor(a: Byte, b: Byte, c: Byte, d: Byte, e: Byte, f: Byte, g: Byte, h: Byte)
    ensures Unword(Word(a, b, c, d) ^ Word(e, f, g, h)) == (Xor1(a, e), Xor1(b, f), Xor1(c, g), Xor1(d, h))
  {
  }

  /** Windows that may be read while the other is written. */
  predicate Apart(a: array<Byte>, i: nat, b: array<Byte>, j: nat, n: nat) {
    a != b || i + n <= j || j + n <= i
  }

  ghost predicate Wrote(was: Bytes, now: Bytes, off: nat, data: Bytes)
  {
    && |now| == |was|
    && off + |data| <= |was|
    && now[..off] == was[..off]
    && now[off..off + |data|] == data
    && now[off + |data|..] == was[off + |data|..]
  }

  /** The window at d has been combined with `src`; nothing else has changed. */
  ghost predicate Xored(was: Bytes, now: Bytes, d: nat, src: Bytes) {
    && |now| == |was| && d + |src| <= |was|
    && forall i | 0 <= i < |was| :: now[i] == if d <= i < d + |src| then Xor1(was[i], src[i - d]) else was[i]
  }

  lemma {:induction false} XoredMore(was: Bytes, mid: Bytes, now: Bytes, d: nat, a: Bytes, b: Bytes)
    requires Xored(was, mid, d, a) && Xored(mid, now, d + |a|, b)
    ensures Xored(was, now, d, a + b)
  {
    hide Xor1;
  }

  lemma {:induction false} XoredWrote(was: Bytes, now: Bytes, d: nat, src: Bytes)
    requires Xored(was, now, d, src)
    ensures Wrote(was, now, d, Xor(was[d..d + |src|], src))
  {
    XorAt(was[d..d + |src|], src);
    hide Xor1, Xor;
    var e, r := d + |src|, Xor(was[d..d + |src|], src);
    forall i | 0 <= i < |src| ensures now[d..e][i] == r[i] {
      assert now[d..e][i] == now[d + i] && was[d..e][i] == was[d + i];
    }
    assert now[..d] == was[..d] && now[e..] == was[e..];
  }

  lemma {:induction false} XorAt(a: Bytes, b: Bytes)
    requires |a| == |b|
    ensures forall i | 0 <= i < |a| :: Xor(a, b)[i] == Xor1(a[i], b[i])
  {
    hide Xor1;
  }

  /** Four bytes of the destination at once. */
  method XorWord(dst: array<Byte>, d: nat, src: array<Byte>, s: nat)
    requires d + 4 <= dst.Length && s + 4 <= src.Length
    modifies dst
    ensures forall i | 0 <= i < dst.Length ::
      dst[i] == if d <= i < d + 4 then Xor1(old(dst[i]), old(src[s + (i - d)])) else old(dst[i])
  {
    var w := Word(dst[d], dst[d + 1], dst[d + 2], dst[d + 3]) ^ Word(src[s], src[s + 1], src[s + 2], src[s + 3]);
    WordXor(dst[d], dst[d + 1], dst[d + 2], dst[d + 3], src[s], src[s + 1], src[s + 2], src[s + 3]);
    hide Word, Unword, Xor1;
    var (a, b, c, e) := Unword(w);
    dst[d], dst[d + 1], dst[d + 2], dst[d + 3] := a, b, c, e;
  }

  /** The odd bytes at the end. */
  method XorBytes(dst: array<Byte>, d: nat, src: array<Byte>, s: nat, size: nat)
    requires d + size <= dst.Length && s + size <= src.Length && Apart(dst, d, src, s, size)
    modifies dst
    ensures Xored(old(dst[..]), dst[..], d, old(src[s..s + size]))
  {
    hide Xor1;
    for k := 0 to size
      invariant forall i | 0 <= i < dst.Length :: dst[i] == if d <= i < d + k then Xor1(old(dst[i]),
          old(src[s + (i - d)])) else old(dst[i])
    {
      dst[d + k] := Xor1(dst[d + k], src[s + k]);
    }
  }

  /** As many whole words as there are. */
  method XorWords(dst: array<Byte>, d: nat, src: array<Byte>, s: nat, size: nat) returns (k: nat)
    requires d + size <= dst.Length && s + size <= src.Length && Apart(dst, d, src, s, size)
    modifies dst
    ensures k <= size && Xored(old(dst[..]), dst[..], d, old(src[s..s + k]))
  {
    hide Xor1;
    k := 0;
    while size - k >= 4
      invariant k <= size
      invariant forall i | 0 <= i < dst.Length :: dst[i] == if d <= i < d + k then Xor1(old(dst[i]),
          old(src[s + (i - d)])) else old(dst[i])
    {
      XorWord(dst, d + k, src, s + k);
      k := k + 4;
    }
  }

  /** Exclusive or into a buffer: whole words first, then the odd bytes. */
  method XorInto(dst: array<Byte>, d: nat, src: array<Byte>, s: nat, size: nat)
    requires d + size <= dst.Length && s + size <= src.Length && Apart(dst, d, src, s, size)
    modifies dst
    ensures Wrote(old(dst[..]), dst[..], d, Xor(old(dst[d..d + size]), old(src[s..s + size])))
  {
    hide Xor1, Wrote;
    var k := XorWords(dst, d, src, s, size);
    ghost var mid, from := dst[..], src[s + k..s + size];
    XorBytes(dst, d + k, src, s + k, size - k);
    assert old(src[s..s + size]) == old(src[s..s + k]) + from;
    XoredMore(old(dst[..]), mid, dst[..], d, old(src[s..s + k]), from);
    XoredWrote(old(dst[..]), dst[..], d, old(src[s..s + size]));
    assert old(dst[..])[d..d + size] == old(dst[d..d + size]);
  }
}
