/** Cipher block chaining over a chunked walk: the four loops, the driver, and the round trip. */
module Cbc {
  import opened ByteXor
  import opened Multiples

  // ----- what CBC computes

  /** A block function under its key: any table from blocks to blocks. */
  datatype Cipher = Cipher(table: map<Bytes, Bytes>)

  function Run(f: Cipher, b: Bytes): Bytes { if b in f.table then f.table[b] else b }

  /** The mode and the block function of the cipher it drives. */
  datatype Mode = Encrypt(f: Cipher) | Decrypt(f: Cipher)

  ghost predicate KeepsSize(f: Cipher, bs: nat) { forall b: Bytes | |b| == bs :: |Run(f, b)| == bs }

  ghost predicate Inverts(g: Cipher, f: Cipher, bs: nat) {
    forall b: Bytes | |b| == bs :: Run(g, Run(f, b)) == b
  }

  ghost predicate Usable(m: Mode, bs: nat) { bs > 0 && KeepsSize(m.f, bs) }

  /** One block: its output, and the chaining value for the next. */
  ghost function Out(m: Mode, bs: nat, iv: Bytes, b: Bytes): (r: Bytes)
    requires Usable(m, bs) && |iv| == bs && |b| == bs
    ensures |r| == bs
  {
    match m
    case Encrypt(f) => Run(f, Xor(b, iv))
    case Decrypt(f) => Xor(Run(f, b), iv)
  }

  ghost function Next(m: Mode, bs: nat, iv: Bytes, b: Bytes): (r: Bytes)
    requires Usable(m, bs) && |iv| == bs && |b| == bs
    ensures |r| == bs
  {
    if m.Encrypt? then Out(m, bs, iv, b) else b
  }

  /** The chained output of the whole blocks of `p`. */
  ghost function Chained(m: Mode, bs: nat, iv: Bytes, p: Bytes): (r: Bytes)
    requires Usable(m, bs) && |iv| == bs
    ensures |r| == Floor(|p|, bs)
    decreases |p|
  {
    if |p| < bs then [] else Out(m, bs, iv, p[..bs]) + Chained(m, bs, Next(m, bs, iv, p[..bs]), p[bs..])
  }

  /** The chaining value after the whole blocks of `p`. */
  ghost function IvAfter(m: Mode, bs: nat, iv: Bytes, p: Bytes): (r: Bytes)
    requires Usable(m, bs) && |iv| == bs
    ensures |r| == bs
    decreases |p|
  {
    if |p| < bs then iv else IvAfter(m, bs, Next(m, bs, iv, p[..bs]), p[bs..])
  }

  /** Whole blocks in n bytes, in bytes. */
  ghost function Floor(n: nat, bs: nat): (r: nat)
    requires bs > 0
    ensures r <= n < r + bs && Multiple(r, bs) && (r == 0 <==> n < bs) && (r == n <==> Multiple(n, bs))
    decreases n
  {
    if n < bs then 0 else bs + Floor(n - bs, bs)
  }

  /** The block size is a power of two, so masking its low bits off rounds down to whole blocks. */
  lemma {:induction false} FloorIsMod(n: nat, bs: nat)
    requires bs > 0
    ensures Floor(n, bs) == n - n % bs
    decreases n
  {
    hide Multiple;
    if n >= bs {
      FloorIsMod(n - bs, bs);
      ModStep(n, bs);
    } else {
      ModSmall(n, bs);
    }
  }

  // ----- the split does not matter

  lemma {:induction false} ChainedAppend(m: Mode, bs: nat, iv: Bytes, p: Bytes, q: Bytes)
    requires bs > 0 && Usable(m, bs) && |iv| == bs && Multiple(|p|, bs)
    ensures Chained(m, bs, iv, p + q) == Chained(m, bs, iv, p) + Chained(m, bs, IvAfter(m, bs, iv, p), q)
    ensures IvAfter(m, bs, iv, p + q) == IvAfter(m, bs, IvAfter(m, bs, iv, p), q)
    decreases |p|
  {
    hide Out, Usable;
    if p == [] {
      assert p + q == q;
    } else {
      assert (p + q)[..bs] == p[..bs] && (p + q)[bs..] == p[bs..] + q;
      ChainedAppend(m, bs, Next(m, bs, iv, p[..bs]), p[bs..], q);
    }
  }

  lemma {:induction false} ChainedFloor(m: Mode, bs: nat, iv: Bytes, p: Bytes)
    requires Usable(m, bs) && |iv| == bs
    ensures var n := Floor(|p|, bs);
      Chained(m, bs, iv, p[..n]) == Chained(m, bs, iv, p) && IvAfter(m, bs, iv, p[..n]) == IvAfter(m, bs, iv, p)
  {
    var n := Floor(|p|, bs);
    assert p == p[..n] + p[n..];
    ChainedAppend(m, bs, iv, p[..n], p[n..]);
  }

  // ----- the round trip

  lemma {:induction false} BlockUndone(e: Mode, d: Mode, bs: nat, iv: Bytes, b: Bytes)
    requires e.Encrypt? && d.Decrypt? && Usable(e, bs) && Usable(d, bs) && Inverts(d.f, e.f, bs)
    requires |iv| == bs && |b| == bs
    ensures Out(d, bs, iv, Out(e, bs, iv, b)) == b
  {
    XorTwice(b, iv);
  }

  /** Decryption undoes encryption, and both leave the last ciphertext block as the chaining value. */
  lemma {:induction false} RoundTrip(e: Mode, d: Mode, bs: nat, iv: Bytes, p: Bytes)
    requires e.Encrypt? && d.Decrypt? && Usable(e, bs) && Usable(d, bs) && Inverts(d.f, e.f, bs)
    requires |iv| == bs && Multiple(|p|, bs)
    ensures Chained(d, bs, iv, Chained(e, bs, iv, p)) == p
    ensures IvAfter(d, bs, iv, Chained(e, bs, iv, p)) == IvAfter(e, bs, iv, p)
    decreases |p|
  {
    hide Out, Inverts, KeepsSize;
    if p != [] {
      var b, c := p[..bs], Out(e, bs, iv, p[..bs]);
      var cs := Chained(e, bs, iv, p);
      assert cs[..bs] == c && cs[bs..] == Chained(e, bs, c, p[bs..]);
      BlockUndone(e, d, bs, iv, b);
      RoundTrip(e, d, bs, c, p[bs..]);
      assert b + p[bs..] == p;
    }
  }

  /** The last whole block of the ciphertext, or the initial value if there is none. */
  ghost function LastBlock(bs: nat, iv: Bytes, c: Bytes): Bytes
    requires bs > 0
  {
    var n := Floor(|c|, bs);
    if n < bs then iv else c[n - bs..n]
  }

  lemma {:induction false} LastBlockStep(bs: nat, iv: Bytes, b: Bytes, c: Bytes)
    requires bs > 0 && |b| == bs
    ensures LastBlock(bs, iv, b + c) == LastBlock(bs, b, c)
  {
    hide Multiple;
    var n := Floor(|c|, bs);
    assert n >= bs ==> (b + c)[n..n + bs] == c[n - bs..n];
  }

  lemma {:induction false} IvIsLastBlock(m: Mode, bs: nat, iv: Bytes, p: Bytes)
    requires Usable(m, bs) && |iv| == bs
    ensures IvAfter(m, bs, iv, p) == LastBlock(bs, iv, if m.Encrypt? then Chained(m, bs, iv, p) else p)
    decreases |p|
  {
    hide Out, Multiple, LastBlock;
    if |p| < bs {
      assert LastBlock(bs, iv, []) == iv && LastBlock(bs, iv, p) == iv by {
        LastBlockNone(bs, iv, p); LastBlockNone(bs, iv, []);
      }
    } else {
      var b, q := p[..bs], p[bs..];
      var nx := Next(m, bs, iv, b);
      IvIsLastBlock(m, bs, nx, q);
      assert b + q == p;
      if m.Encrypt? { LastBlockStep(bs, iv, nx, Chained(m, bs, nx, q)); } else { LastBlockStep(bs, iv, b, q); }
    }
  }

  lemma {:induction false} LastBlockNone(bs: nat, iv: Bytes, c: Bytes)
    requires |c| < bs
    ensures LastBlock(bs, iv, c) == iv
  {
  }

  // ----- windows of windows

  lemma {:induction false} SubWindow(s: Bytes, o: nat, n: nat, i: nat, k: nat)
    requires o + n <= |s| && i + k <= n
    ensures s[o + i..o + i + k] == s[o..o + n][i..i + k]
  {
    var w := s[o..o + n];
    assert forall j | 0 <= j < n :: w[j] == s[o + j];
    var u, v := s[o + i..o + i + k], w[i..i + k];
    forall j | 0 <= j < k ensures u[j] == v[j] { assert w[i + j] == s[o + (i + j)]; }
  }

  lemma {:induction false} TakeDrop(s: Bytes, i: nat, k: nat)
    requires i + k <= |s|
    ensures s[i..][..k] == s[i..i + k] && s[i..][k..] == s[i + k..]
  {
    var w := s[i..];
    assert forall j | 0 <= j < |w| :: w[j] == s[i + j];
    var u, v := w[k..], s[i + k..];
    forall j | 0 <= j < |u| ensures u[j] == v[j] { assert w[k + j] == s[i + (k + j)]; }
    var u', v' := w[..k], s[i..i + k];
    forall j | 0 <= j < k ensures u'[j] == v'[j] { assert w[j] == s[i + j]; }
  }

  lemma {:induction false} Parts(a: Bytes, x: Bytes, c: Bytes)
    ensures var t := a + (x + c); t[..|a|] == a && t[|a|..|a| + |x|] == x && t[|a| + |x|..] == c
  {
    var t := a + (x + c);
    assert t == (a + x) + c;
    assert t[..|a| + |x|] == a + x;
    var u := t[|a|..|a| + |x|];
    forall j | 0 <= j < |x| ensures u[j] == x[j] { assert t[|a| + j] == (x + c)[j]; }
  }

  // ----- progress of a loop

  /** After i bytes: `out` has been produced, `iv` is the chaining value, the rest is to come. */
  ghost predicate Progress(m: Mode, bs: nat, iv0: Bytes, p: Bytes, i: nat, out: Bytes, iv: Bytes) {
    && Usable(m, bs) && |iv0| == bs && |iv| == bs && i <= |p| && |out| == i
    && Floor(|p|, bs) == i + Floor(|p| - i, bs)
    && Chained(m, bs, iv0, p) == out + Chained(m, bs, iv, p[i..])
    && IvAfter(m, bs, iv0, p) == IvAfter(m, bs, iv, p[i..])
  }

  lemma {:induction false} ProgressStart(m: Mode, bs: nat, iv: Bytes, p: Bytes)
    requires Usable(m, bs) && |iv| == bs
    ensures Progress(m, bs, iv, p, 0, [], iv)
  {
    assert p[0..] == p;
  }

  lemma {:induction false} ProgressStep(m: Mode, bs: nat, iv0: Bytes, p: Bytes, i: nat, out: Bytes, iv: Bytes)
    requires Progress(m, bs, iv0, p, i, out, iv) && |p| - i >= bs
    ensures var b := p[i..i + bs]; Progress(m, bs, iv0, p, i + bs, out + Out(m, bs, iv, b), Next(m, bs, iv, b))
  {
    hide Out, Multiple, Usable;
    TakeDrop(p, i, bs);
  }

  lemma {:induction false} ProgressEnd(m: Mode, bs: nat, iv0: Bytes, p: Bytes, i: nat, out: Bytes, iv: Bytes)
    requires Progress(m, bs, iv0, p, i, out, iv) && |p| - i < bs
    ensures out == Chained(m, bs, iv0, p) && iv == IvAfter(m, bs, iv0, p) && i == Floor(|p|, bs)
  {
    hide Out, Multiple;
  }

  // ----- buffers

  lemma {:induction false} WroteMore(was: Bytes, mid: Bytes, now: Bytes, d: nat, a: Bytes, b: Bytes)
    requires Wrote(was, mid, d, a) && Wrote(mid, now, d + |a|, b)
    ensures Wrote(was, now, d, a + b)
  {
    var k := d + |a|;
    assert now[..d] == now[..k][..d] && mid[..k][..d] == mid[..d];
    assert now[d..k] == now[..k][d..] && mid[..k][d..] == mid[d..k];
    assert now[d..k + |b|] == now[d..k] + now[k..k + |b|];
    assert mid[k + |b|..] == mid[k..][|b|..] && was[k..][|b|..] == was[k + |b|..];
  }

  lemma {:induction false} WroteOver(was: Bytes, mid: Bytes, now: Bytes, d: nat, a: Bytes, b: Bytes)
    requires Wrote(was, mid, d, a) && Wrote(mid, now, d, b) && |a| == |b|
    ensures Wrote(was, now, d, b)
  {
  }

  /** The cipher reads one block and writes one block; the two may be the same place. */
  method CipherInto(f: Cipher, bs: nat, dst: array<Byte>, d: nat, src: array<Byte>, s: nat)
    requires KeepsSize(f, bs) && d + bs <= dst.Length && s + bs <= src.Length
    modifies dst
    ensures Wrote(old(dst[..]), dst[..], d, Run(f, old(src[s..s + bs])))
  {
    var r := Run(f, src[s..s + bs]);
    forall i | 0 <= i < bs { dst[d + i] := r[i]; }
    assert dst[d..d + bs] == r;
  }

  method Copy(dst: array<Byte>, d: nat, src: array<Byte>, s: nat, n: nat)
    requires d + n <= dst.Length && s + n <= src.Length
    modifies dst
    ensures Wrote(old(dst[..]), dst[..], d, old(src[s..s + n]))
  {
    forall i | 0 <= i < n { dst[d + i] := src[s + i]; }
  }

  // ----- the four loops

  /** What a loop has done to its destination: `out` is written at d, and it is the chain so far. */
  ghost predicate Going(m: Mode, bs: nat, iv0: Bytes, p: Bytes, was: Bytes, now: Bytes, d: nat, i: nat, iv: Bytes) {
    && d + i <= |now|
    && Progress(m, bs, iv0, p, i, now[d..d + i], iv)
    && Wrote(was, now, d, now[d..d + i])
  }

  lemma {:induction false} GoingStart(m: Mode, bs: nat, iv: Bytes, p: Bytes, was: Bytes, d: nat)
    requires Usable(m, bs) && |iv| == bs && d <= |was|
    ensures Going(m, bs, iv, p, was, was, d, 0, iv)
  {
    ProgressStart(m, bs, iv, p);
    assert was[d..d] == [];
  }

  lemma {:induction false} GoingStep(m: Mode, bs: nat, iv0: Bytes, p: Bytes, was: Bytes, mid: Bytes, now: Bytes,
                                     d: nat, i: nat, iv: Bytes)
    requires Going(m, bs, iv0, p, was, mid, d, i, iv) && |p| - i >= bs && Usable(m, bs) && |iv| == bs
    requires Wrote(mid, now, d + i, Out(m, bs, iv, p[i..i + bs]))
    ensures Going(m, bs, iv0, p, was, now, d, i + bs, Next(m, bs, iv, p[i..i + bs]))
  {
    hide Out, Next, Progress, Usable;
    var b := Out(m, bs, iv, p[i..i + bs]);
    ProgressStep(m, bs, iv0, p, i, mid[d..d + i], iv);
    WroteMore(was, mid, now, d, mid[d..d + i], b);
    assert now[d..d + (i + bs)] == mid[d..d + i] + b;
  }

  /** The next chaining value is where the ciphertext of the block lies. */
  lemma {:induction false} GoingOn(m: Mode, bs: nat, iv0: Bytes, p: Bytes, was: Bytes, mid: Bytes, now: Bytes,
                                   d: nat, i: nat, iv: Bytes)
    requires Going(m, bs, iv0, p, was, mid, d, i, iv) && |p| - i >= bs && Usable(m, bs) && |iv| == bs
    requires Wrote(mid, now, d + i, Out(m, bs, iv, p[i..i + bs]))
    ensures d + i + bs <= |now|
    ensures Going(m, bs, iv0, p, was, now, d, i + bs, if m.Encrypt? then now[d + i..d + i + bs] else p[i..i + bs])
  {
    hide Out, Going, Usable;
    GoingStep(m, bs, iv0, p, was, mid, now, d, i, iv);
  }

  /** In place, what is still to be done has not been touched. */
  lemma {:induction false} GoingRest(m: Mode, bs: nat, iv0: Bytes, p: Bytes, was: Bytes, now: Bytes, d: nat, i: nat,
                                     iv: Bytes)
    requires Going(m, bs, iv0, p, was, now, d, i, iv) && d + |p| <= |was| && was[d..d + |p|] == p
    ensures i <= |p| && |now| == |was| && now[d + i..d + |p|] == p[i..]
  {
    hide Chained, IvAfter, Floor, Usable;
    TakeDrop(was, d + i, |p| - i);
    TakeDrop(now, d + i, |p| - i);
    SubWindow(was, d, |p|, i, |p| - i);
  }

  lemma {:induction false} GoingEnd(m: Mode, bs: nat, iv0: Bytes, p: Bytes, was: Bytes, now: Bytes, d: nat, i: nat,
                                    iv: Bytes)
    requires Going(m, bs, iv0, p, was, now, d, i, iv) && |p| - i < bs && Usable(m, bs) && |iv0| == bs
    ensures Wrote(was, now, d, Chained(m, bs, iv0, p)) && iv == IvAfter(m, bs, iv0, p) && i == Floor(|p|, bs)
  {
    ProgressEnd(m, bs, iv0, p, i, now[d..d + i], iv);
  }

  method EncryptBlock(f: Cipher, bs: nat, src: array<Byte>, s: nat, dst: array<Byte>, d: nat, iv: array<Byte>)
    requires Usable(Encrypt(f), bs) && iv.Length == bs && s + bs <= src.Length && d + bs <= dst.Length
    requires src != dst && iv != src && iv != dst
    modifies dst, iv
    ensures Wrote(old(dst[..]), dst[..], d, Out(Encrypt(f), bs, old(iv[..]), src[s..s + bs]))
    ensures iv[..] == Next(Encrypt(f), bs, old(iv[..]), src[s..s + bs])
  {
    ghost var b, v, was := src[s..s + bs], iv[..], dst[..];
    XorTwice(b, v);
    hide Wrote, Xor, Run;
    assert iv[0..bs] == v;
    XorInto(iv, 0, src, s, bs);
    ghost var x := iv[..];
    WroteAll(v, x, Xor(v, b));
    assert iv[0..bs] == x;
    CipherInto(f, bs, dst, d, iv, 0);
    WroteHere(was, dst[..], d, Run(f, x));
    assert dst[d..d + bs] == dst[..][d..d + bs];
    Copy(iv, 0, dst, d, bs);
    WroteAll(x, iv[..], Run(f, x));
  }

  method EncryptSegment(f: Cipher, bs: nat, src: array<Byte>, s: nat, dst: array<Byte>, d: nat, n: nat, iv: array<Byte>)
    returns (left: nat)
    requires bs > 0 && Usable(Encrypt(f), bs) && iv.Length == bs && s + n <= src.Length && d + n <= dst.Length
    requires src != dst && iv != src && iv != dst
    modifies dst, iv
    ensures left == n - Floor(n, bs)
    ensures Wrote(old(dst[..]), dst[..], d, Chained(Encrypt(f), bs, old(iv[..]), src[s..s + n]))
    ensures iv[..] == IvAfter(Encrypt(f), bs, old(iv[..]), src[s..s + n])
  {
    hide *;
    left := n;
    ghost var m, whole := Encrypt(f), src[..];
    ghost var p := whole[s..s + n];
    assert p == src[s..s + n];
    GoingStart(m, bs, iv[..], p, dst[..], d);
    while left >= bs
      invariant left <= n && src[..] == whole
      invariant Going(m, bs, old(iv[..]), p, old(dst[..]), dst[..], d, n - left, iv[..])
    {
      ghost var mid, v := dst[..], iv[..];
      SubWindow(whole, s, n, n - left, bs);
      assert src[s + (n - left)..s + (n - left) + bs] == whole[s + (n - left)..s + (n - left) + bs];
      EncryptBlock(f, bs, src, s + (n - left), dst, d + (n - left), iv);
      GoingStep(m, bs, old(iv[..]), p, old(dst[..]), mid, dst[..], d, n - left, v);
      left := left - bs;
    }
    GoingEnd(m, bs, old(iv[..]), p, old(dst[..]), dst[..], d, n - left, iv[..]);
  }

  /** In place: the chaining value of all blocks but the first is the block before it. */
  method EncryptBlockInPlace(f: Cipher, bs: nat, buf: array<Byte>, o: nat, iv: array<Byte>, v: nat)
    requires Usable(Encrypt(f), bs) && o + bs <= buf.Length && v + bs <= iv.Length && Apart(buf, o, iv, v, bs)
    modifies buf
    ensures Wrote(old(buf[..]), buf[..], o, Out(Encrypt(f), bs, old(iv[v..v + bs]), old(buf[o..o + bs])))
  {
    hide Wrote, Xor, Run;
    ghost var x := Xor(buf[o..o + bs], iv[v..v + bs]);
    XorInto(buf, o, iv, v, bs);
    ghost var mid := buf[..];
    WroteHere(old(buf[..]), mid, o, x);
    assert buf[o..o + bs] == mid[o..o + bs];
    CipherInto(f, bs, buf, o, buf, o);
    WroteOver(old(buf[..]), mid, buf[..], o, x, Run(f, x));
  }

  method EncryptStepInPlace(f: Cipher, bs: nat, buf: array<Byte>, o: nat, i: nat, iv: array<Byte>, v: nat,
                            ghost p: Bytes, ghost iv0: Bytes, ghost was: Bytes)
    requires bs > 0 && Usable(Encrypt(f), bs) && i + bs <= |p| && o + |p| <= buf.Length && v + bs <= iv.Length
    requires Apart(buf, o + i, iv, v, bs) && |was| == buf.Length && was[o..o + |p|] == p
    requires Going(Encrypt(f), bs, iv0, p, was, buf[..], o, i, iv[v..v + bs])
    modifies buf
    ensures Going(Encrypt(f), bs, iv0, p, was, buf[..], o, i + bs, buf[o + i..o + i + bs])
  {
    hide Going, Wrote, Out, Next, Usable, Chained, IvAfter, Floor;
    ghost var mid, u := buf[..], iv[v..v + bs];
    GoingRest(Encrypt(f), bs, iv0, p, was, mid, o, i, u);
    SubWindow(mid, o + i, |p| - i, 0, bs);
    TakeDrop(p, i, bs);
    assert buf[o + i..o + i + bs] == mid[o + i..o + i + bs];
    EncryptBlockInPlace(f, bs, buf, o + i, iv, v);
    GoingOn(Encrypt(f), bs, iv0, p, was, mid, buf[..], o, i, u);
  }

  method EncryptInPlace(f: Cipher, bs: nat, buf: array<Byte>, o: nat, n: nat, iv: array<Byte>) returns (left: nat)
    requires bs > 0 && Usable(Encrypt(f), bs) && iv.Length == bs && o + n <= buf.Length && iv != buf && n >= bs
    modifies buf, iv
    ensures left == n - Floor(n, bs)
    ensures Wrote(old(buf[..]), buf[..], o, Chained(Encrypt(f), bs, old(iv[..]), old(buf[o..o + n])))
    ensures iv[..] == IvAfter(Encrypt(f), bs, old(iv[..]), old(buf[o..o + n]))
  {
    hide Going, Wrote, Out, Next, Usable, Chained, IvAfter, Floor;
    left := n;
    ghost var m, p := Encrypt(f), buf[o..o + n];
    var ivBuf, ivAt: nat := iv, 0;
    GoingStart(m, bs, iv[..], p, buf[..], o);
    assert iv[0..bs] == iv[..];
    while left >= bs
      invariant left <= n && (if ivBuf == buf then o + bs <= ivAt + bs == o + (n - left) else ivBuf == iv && ivAt == 0)
      invariant Going(m, bs, old(iv[..]), p, old(buf[..]), buf[..], o, n - left, ivBuf[ivAt..ivAt + bs])
    {
      EncryptStepInPlace(f, bs, buf, o, n - left, ivBuf, ivAt, p, old(iv[..]), old(buf[..]));
      ivBuf, ivAt := buf, o + (n - left);
      left := left - bs;
    }
    GoingEnd(m, bs, old(iv[..]), p, old(buf[..]), buf[..], o, n - left, ivBuf[ivAt..ivAt + bs]);
    Copy(iv, 0, ivBuf, ivAt, bs);
    assert iv[0..bs] == iv[..];
  }

  method DecryptBlock(f: Cipher, bs: nat, src: array<Byte>, s: nat, dst: array<Byte>, d: nat, iv: array<Byte>, v: nat)
    requires Usable(Decrypt(f), bs) && s + bs <= src.Length && d + bs <= dst.Length && v + bs <= iv.Length
    requires src != dst && iv != dst
    modifies dst
    ensures Wrote(old(dst[..]), dst[..], d, Out(Decrypt(f), bs, iv[v..v + bs], src[s..s + bs]))
  {
    hide Wrote, Xor, Run;
    ghost var x := Run(f, src[s..s + bs]);
    CipherInto(f, bs, dst, d, src, s);
    ghost var mid := dst[..];
    WroteHere(old(dst[..]), mid, d, x);
    assert dst[d..d + bs] == mid[d..d + bs];
    XorInto(dst, d, iv, v, bs);
    WroteOver(old(dst[..]), mid, dst[..], d, x, Xor(x, iv[v..v + bs]));
  }

  method DecryptStep(f: Cipher, bs: nat, src: array<Byte>, s: nat, dst: array<Byte>, d: nat, i: nat, iv: array<Byte>,
                     v: nat, ghost p: Bytes, ghost iv0: Bytes, ghost was: Bytes)
    requires bs > 0 && Usable(Decrypt(f), bs) && i + bs <= |p| && s + |p| <= src.Length && d + |p| <= dst.Length
    requires v + bs <= iv.Length
    requires src != dst && iv != dst && src[s..s + |p|] == p
    requires Going(Decrypt(f), bs, iv0, p, was, dst[..], d, i, iv[v..v + bs])
    modifies dst
    ensures Going(Decrypt(f), bs, iv0, p, was, dst[..], d, i + bs, src[s + i..s + i + bs])
  {
    hide *;
    ghost var mid := dst[..];
    SubWindow(src[..], s, |p|, i, bs);
    assert src[s..s + |p|] == src[..][s..s + |p|] && src[s + i..s + i + bs] == src[..][s + i..s + i + bs];
    DecryptBlock(f, bs, src, s + i, dst, d + i, iv, v);
    GoingOn(Decrypt(f), bs, iv0, p, was, mid, dst[..], d, i, iv[v..v + bs]);
  }

  method DecryptSegment(f: Cipher, bs: nat, src: array<Byte>, s: nat, dst: array<Byte>, d: nat, n: nat, iv: array<Byte>)
    returns (left: nat)
    requires bs > 0 && Usable(Decrypt(f), bs) && iv.Length == bs && s + n <= src.Length && d + n <= dst.Length
    requires n >= bs
    requires src != dst && iv != src && iv != dst
    modifies dst, iv
    ensures left == n - Floor(n, bs)
    ensures Wrote(old(dst[..]), dst[..], d, Chained(Decrypt(f), bs, old(iv[..]), src[s..s + n]))
    ensures iv[..] == IvAfter(Decrypt(f), bs, old(iv[..]), src[s..s + n])
  {
    hide *;
    left := n;
    ghost var m, p := Decrypt(f), src[s..s + n];
    var ivBuf, ivAt: nat := iv, 0;
    GoingStart(m, bs, iv[..], p, dst[..], d);
    assert iv[0..bs] == iv[..];
    while left >= bs
      invariant left <= n && (if ivBuf == src then ivAt + bs == s + (n - left) else ivBuf == iv && ivAt == 0)
      invariant Going(m, bs, old(iv[..]), p, old(dst[..]), dst[..], d, n - left, ivBuf[ivAt..ivAt + bs])
    {
      DecryptStep(f, bs, src, s, dst, d, n - left, ivBuf, ivAt, p, old(iv[..]), old(dst[..]));
      ivBuf, ivAt := src, s + (n - left);
      left := left - bs;
    }
    GoingEnd(m, bs, old(iv[..]), p, old(dst[..]), dst[..], d, n - left, ivBuf[ivAt..ivAt + bs]);
    Copy(iv, 0, ivBuf, ivAt, bs);
    assert iv[0..bs] == iv[..];
  }

  // ----- decryption in place runs backwards, so that each block still finds the one before it

  /** The blocks before q are as they were, the one at q is `x`, and those behind it are done. */
  ghost predicate Back(f: Cipher, bs: nat, p: Bytes, was: Bytes, now: Bytes, o: nat, q: nat, x: Bytes) {
    && bs > 0 && Usable(Decrypt(f), bs) && |x| == bs
    && q + bs <= Floor(|p|, bs) && Multiple(q, bs)
    && o + |p| <= |was| == |now| && was[o..o + |p|] == p
    && now == was[..o + q] +
              (x + (Chained(Decrypt(f), bs, p[q..q + bs], p[q + bs..Floor(|p|, bs)]) + was[o + Floor(|p|, bs)..]))
  }

  lemma {:induction false} WroteConcat(a: Bytes, x: Bytes, c: Bytes, now: Bytes, x': Bytes)
    requires Wrote(a + (x + c), now, |a|, x') && |x'| == |x|
    ensures now == a + (x' + c)
  {
    var k := |a| + |x|;
    Parts(a, x, c);
    assert now == now[..|a|] + (now[|a|..k] + now[k..]);
  }

  lemma {:induction false} BackStart(f: Cipher, bs: nat, p: Bytes, was: Bytes, o: nat)
    requires bs > 0 && Usable(Decrypt(f), bs) && |p| >= bs && o + |p| <= |was| && was[o..o + |p|] == p
    ensures var q := Floor(|p|, bs) - bs; q >= 0 && Back(f, bs, p, was, was, o, q, p[q..q + bs])
  {
    var q: nat := Floor(|p|, bs) - bs;
    assert Multiple(q, bs);
    hide Multiple, Usable, Floor, Chained, Back;
    BackParts(was, o, p, q, bs);
    BackHere(f, bs, p, was, o, q);
  }

  lemma {:induction false} BackHere(f: Cipher, bs: nat, p: Bytes, was: Bytes, o: nat, q: nat)
    requires bs > 0 && Usable(Decrypt(f), bs) && q + bs == Floor(|p|, bs) && Multiple(q, bs)
    requires o + |p| <= |was| && was[o..o + |p|] == p
    requires was == was[..o + q] + (p[q..q + bs] + ([] + was[o + q + bs..]))
    ensures Back(f, bs, p, was, was, o, q, p[q..q + bs])
  {
    ChainedNone(Decrypt(f), bs, p[q..q + bs], p, q + bs);
    hide Multiple, Usable, Floor, Chained;
  }

  lemma {:induction false} ChainedNone(m: Mode, bs: nat, iv: Bytes, p: Bytes, n: nat)
    requires Usable(m, bs) && |iv| == bs && n <= |p|
    ensures Chained(m, bs, iv, p[n..n]) == []
  {
  }

  lemma {:induction false} BackParts(was: Bytes, o: nat, p: Bytes, q: nat, bs: nat)
    requires o + |p| <= |was| && was[o..o + |p|] == p && q + bs <= |p|
    ensures was == was[..o + q] + (p[q..q + bs] + ([] + was[o + q + bs..]))
  {
    SubWindow(was, o, |p|, q, bs);
    ThreeParts(was, o + q, bs);
    var x := was[o + q..o + q + bs];
    Assemble(was, was[..o + q], x, was[o + q + bs..], p[q..q + bs]);
  }

  lemma {:induction false} Assemble(s: Bytes, a: Bytes, x: Bytes, c: Bytes, y: Bytes)
    requires s == a + (x + c) && x == y
    ensures s == a + (y + ([] + c))
  {
    assert [] + c == c;
  }

  lemma {:induction false} ThreeParts(s: Bytes, i: nat, k: nat)
    requires i + k <= |s|
    ensures s == s[..i] + (s[i..i + k] + s[i + k..])
  {
  }

  /** The block at q is replaced. */
  lemma {:induction false} BackWrite(f: Cipher, bs: nat, p: Bytes, was: Bytes, now: Bytes, now': Bytes, o: nat,
                                     q: nat, x: Bytes, x': Bytes)
    requires Back(f, bs, p, was, now, o, q, x) && Wrote(now, now', o + q, x') && |x'| == bs
    ensures Back(f, bs, p, was, now', o, q, x')
  {
    hide Floor, Multiple, Chained, Usable;
    WroteConcat(was[..o + q], x, Chained(Decrypt(f), bs, p[q..q + bs], p[q + bs..Floor(|p|, bs)]) + was[o + Floor(|p|,
        bs)..], now', x');
  }

  /** The block at q is done; the one before it is next. */
  lemma {:induction false} BackMove(f: Cipher, bs: nat, p: Bytes, was: Bytes, now: Bytes, o: nat, q: nat, x: Bytes)
    requires Back(f, bs, p, was, now, o, q, x) && q >= bs && x == Out(Decrypt(f), bs, p[q - bs..q], p[q..q + bs])
    ensures Back(f, bs, p, was, now, o, q - bs, p[q - bs..q])
  {
    hide Usable, Out, Floor;
    var n := Floor(|p|, bs);
    var c, b := p[q..n], p[q - bs..q];
    assert c[..bs] == p[q..q + bs] && c[bs..] == p[q + bs..n];
    var y := Chained(Decrypt(f), bs, p[q..q + bs], p[q + bs..n]);
    assert Chained(Decrypt(f), bs, b, c) == x + y;
    SubWindow(was, o, |p|, q - bs, bs);
    assert was[..o + q] == was[..o + (q - bs)] + b;
    Regroup(was[..o + (q - bs)], b, x, y, was[o + n..]);
  }

  lemma {:induction false} Regroup(a: Bytes, b: Bytes, x: Bytes, y: Bytes, z: Bytes)
    ensures a + b + (x + (y + z)) == a + (b + ((x + y) + z))
  {
  }

  lemma {:induction false} BackEnd(f: Cipher, bs: nat, p: Bytes, was: Bytes, now: Bytes, o: nat, x: Bytes, iv: Bytes)
    requires |iv| == bs && Back(f, bs, p, was, now, o, 0, x) && x == Out(Decrypt(f), bs, iv, p[0..bs])
    ensures Wrote(was, now, o, Chained(Decrypt(f), bs, iv, p))
  {
    hide Usable, Out;
    var n := Floor(|p|, bs);
    var c := p[..n];
    assert c[..bs] == p[0..bs] && c[bs..] == p[bs..n];
    ChainedFloor(Decrypt(f), bs, iv, p);
    var r := Chained(Decrypt(f), bs, iv, p);
    assert now == was[..o] + (r + was[o + n..]) by {
      Regroup(was[..o], [], x, Chained(Decrypt(f), bs, p[0..bs], p[bs..n]), was[o + n..]);
    }
    Parts(was[..o], r, was[o + n..]);
  }

  method CipherAt(f: Cipher, bs: nat, buf: array<Byte>, o: nat, q: nat, ghost p: Bytes, ghost was: Bytes)
    requires bs > 0 && Usable(Decrypt(f), bs) && q + bs <= |p| && o + |p| <= buf.Length
    requires Back(f, bs, p, was, buf[..], o, q, p[q..q + bs])
    modifies buf
    ensures Back(f, bs, p, was, buf[..], o, q, Run(f, p[q..q + bs]))
  {
    hide Back, Wrote, Run;
    BackAt(f, bs, p, was, buf[..], o, q, p[q..q + bs]);
    ghost var mid := buf[..];
    assert buf[o + q..o + q + bs] == mid[o + q..o + q + bs];
    CipherInto(f, bs, buf, o + q, buf, o + q);
    BackWrite(f, bs, p, was, mid, buf[..], o, q, p[q..q + bs], Run(f, p[q..q + bs]));
  }

  lemma {:induction false} BackAt(f: Cipher, bs: nat, p: Bytes, was: Bytes, now: Bytes, o: nat, q: nat, x: Bytes)
    requires Back(f, bs, p, was, now, o, q, x)
    ensures |now| == |was| && q + bs <= |p| && o + |p| <= |was| && now[o + q..o + q + bs] == x
    ensures q >= bs ==> now[o + q - bs..o + q] == p[q - bs..q]
  {
    hide Usable, Multiple, Chained;
    var c := Chained(Decrypt(f), bs, p[q..q + bs], p[q + bs..Floor(|p|, bs)]) + was[o + Floor(|p|, bs)..];
    Parts(was[..o + q], x, c);
    if q >= bs {
      SubWindow(was, o, |p|, q - bs, bs);
      assert now[o + q - bs..o + q] == now[..o + q][o + q - bs..]
        && was[o + q - bs..o + q] == was[..o + q][o + q - bs..];
    }
  }

  /** The block at q, through the cipher already, meets the ciphertext block before it. */
  method XorBack(f: Cipher, bs: nat, buf: array<Byte>, o: nat, q: nat, ghost p: Bytes, ghost was: Bytes)
    requires bs > 0 && Usable(Decrypt(f), bs) && bs <= q && q + bs <= |p| && o + |p| <= buf.Length
    requires Back(f, bs, p, was, buf[..], o, q, Run(f, p[q..q + bs]))
    modifies buf
    ensures Back(f, bs, p, was, buf[..], o, q - bs, p[q - bs..q])
  {
    ghost var mid, x := buf[..], Run(f, p[q..q + bs]);
    BackAt(f, bs, p, was, mid, o, q, x);
    assert buf[o + q..o + q + bs] == mid[o + q..o + q + bs] && buf[o + q - bs..o + q] == mid[o + q - bs..o + q];
    XorInto(buf, o + q, buf, o + q - bs, bs);
    hide Usable, Wrote, Back, Chained;
    ghost var y := Xor(x, p[q - bs..q]);
    BackWrite(f, bs, p, was, mid, buf[..], o, q, x, y);
    BackMove(f, bs, p, was, buf[..], o, q, y);
  }

  /** The first block meets the initial value. */
  method XorFirst(f: Cipher, bs: nat, buf: array<Byte>, o: nat, iv: array<Byte>, ghost p: Bytes, ghost was: Bytes)
    requires bs > 0 && Usable(Decrypt(f), bs) && iv.Length == bs && iv != buf && bs <= |p| && o + |p| <= buf.Length
    requires Back(f, bs, p, was, buf[..], o, 0, Run(f, p[0..bs]))
    modifies buf
    ensures Wrote(was, buf[..], o, Chained(Decrypt(f), bs, iv[..], p))
  {
    ghost var mid, x := buf[..], Run(f, p[0..bs]);
    BackAt(f, bs, p, was, mid, o, 0, x);
    assert buf[o..o + bs] == mid[o..o + bs] && iv[0..bs] == iv[..];
    XorInto(buf, o, iv, 0, bs);
    hide Usable, Wrote, Back, Chained;
    ghost var y := Xor(x, iv[..]);
    BackWrite(f, bs, p, was, mid, buf[..], o, 0, x, y);
    BackEnd(f, bs, p, was, buf[..], o, y, iv[..]);
  }

  /** From the last block at `last` down to the first, which is left without its exclusive or. */
  method DecryptBackwards(f: Cipher, bs: nat, buf: array<Byte>, o: nat, n: nat, last: nat, ghost p: Bytes,
                          ghost was: Bytes)
    returns (left: nat)
    requires bs > 0 && Usable(Decrypt(f), bs) && |p| == n && o + n <= buf.Length
    requires last + bs <= n < last + bs + bs && Multiple(last, bs)
    requires Back(f, bs, p, was, buf[..], o, last, p[last..last + bs])
    modifies buf
    ensures left == n - (last + bs) && Back(f, bs, p, was, buf[..], o, 0, Run(f, p[0..bs]))
  {
    hide Usable, Back, Run;
    left := n;
    var q := last;
    while true
      invariant 0 <= q <= last && left == q + (n - last) && Multiple(q, bs)
      invariant Back(f, bs, p, was, buf[..], o, q, p[q..q + bs])
      decreases q
    {
      CipherAt(f, bs, buf, o, q, p, was);
      left := left - bs;
      if left < bs { break; }
      XorBack(f, bs, buf, o, q, p, was);
      q := q - bs;
    }
  }

  /** Start of the last whole block. */
  method LastStart(bs: nat, n: nat) returns (last: nat)
    requires 0 < bs <= n
    ensures last == Floor(n, bs) - bs && Multiple(last, bs) && last + bs <= n < last + bs + bs
  {
    FloorIsMod(n, bs);
    last := n - n % bs - bs;
  }

  lemma {:induction false} DecryptIv(f: Cipher, bs: nat, iv: Bytes, p: Bytes)
    requires Usable(Decrypt(f), bs) && |iv| == bs <= |p|
    ensures var n := Floor(|p|, bs); n >= bs && IvAfter(Decrypt(f), bs, iv, p) == p[n - bs..n]
  {
    IvIsLastBlock(Decrypt(f), bs, iv, p);
  }

  method DecryptInPlace(f: Cipher, bs: nat, buf: array<Byte>, o: nat, n: nat, iv: array<Byte>) returns (left: nat)
    requires bs > 0 && Usable(Decrypt(f), bs) && iv.Length == bs && o + n <= buf.Length && iv != buf && n >= bs
    modifies buf, iv
    ensures left == n - Floor(n, bs)
    ensures Wrote(old(buf[..]), buf[..], o, Chained(Decrypt(f), bs, old(iv[..]), old(buf[o..o + n])))
    ensures iv[..] == IvAfter(Decrypt(f), bs, old(iv[..]), old(buf[o..o + n]))
  {
    hide *;
    ghost var p, was := buf[o..o + n], buf[..];
    BackStart(f, bs, p, was, o);
    DecryptIv(f, bs, iv[..], p);
    var last := LastStart(bs, n);
    var lastIv := buf[o + last..o + last + bs];
    SubWindow(was, o, n, last, bs);
    assert p == was[o..o + n] && lastIv == was[o + last..o + last + bs];
    left := DecryptBackwards(f, bs, buf, o, n, last, p, was);
    XorFirst(f, bs, buf, o, iv, p, was);
    ghost var now := buf[..];
    forall i | 0 <= i < bs { iv[i] := lastIv[i]; }
    assert iv[..] == lastIv && buf[..] == now;
  }

  // ----- the driver and the walk

  /** How the walk serves a chunk of n bytes: straight from the pages, through a bounce page, or a
      single block gathered into a buffer of its own. */
  datatype Via = Fast | Bounce | Slow

  datatype Chunk = Chunk(n: nat, via: Via)

  /** The walk's chunks for `total` bytes: at least a block each, and no more than remain after the
      whole blocks of the earlier ones.  With less than a block left it gives up. */
  ghost predicate Fits(chunks: seq<Chunk>, total: nat, bs: nat)
    requires bs > 0
  {
    if total < bs then
      chunks == []
    else
      && chunks != [] && bs <= chunks[0].n <= total && (chunks[0].via == Slow ==> chunks[0].n == bs)
      && Fits(chunks[1..], total - Floor(chunks[0].n, bs), bs)
  }

  /** The same without the end: a walk may stop early. */
  ghost predicate Legal(chunks: seq<Chunk>, total: nat, bs: nat)
    requires bs > 0
  {
    chunks == [] ||
    (&& bs <= chunks[0].n <= total && (chunks[0].via == Slow ==> chunks[0].n == bs)
     && Legal(chunks[1..], total - Floor(chunks[0].n, bs), bs))
  }

  /** Bytes in the whole blocks of the chunks. */
  ghost function Served(chunks: seq<Chunk>, bs: nat): nat
    requires bs > 0
  {
    if chunks == [] then 0 else Floor(chunks[0].n, bs) + Served(chunks[1..], bs)
  }

  lemma {:induction false} LegalServes(chunks: seq<Chunk>, total: nat, bs: nat)
    requires bs > 0 && Legal(chunks, total, bs)
    ensures Served(chunks, bs) <= total && Multiple(Served(chunks, bs), bs)
  {
    hide Floor;
    if chunks != [] {
      LegalServes(chunks[1..], total - Floor(chunks[0].n, bs), bs);
      MultipleAdd(Floor(chunks[0].n, bs), Served(chunks[1..], bs), bs);
    }
  }

  lemma {:induction false} FitsServes(chunks: seq<Chunk>, total: nat, bs: nat)
    requires bs > 0 && Fits(chunks, total, bs)
    ensures Legal(chunks, total, bs) && Served(chunks, bs) == Floor(total, bs)
    decreases |chunks|
  {
    if total >= bs {
      var w := Floor(chunks[0].n, bs);
      FitsServes(chunks[1..], total - w, bs);
      FloorPlus(total - w, w, bs);
    }
    hide Floor, Multiple;
  }

  method InPlace(m: Mode, bs: nat, buf: array<Byte>, o: nat, n: nat, iv: array<Byte>) returns (left: nat)
    requires bs > 0 && Usable(m, bs) && iv.Length == bs && o + n <= buf.Length && iv != buf && n >= bs
    modifies buf, iv
    ensures left == n - Floor(n, bs)
    ensures Wrote(old(buf[..]), buf[..], o, Chained(m, bs, old(iv[..]), old(buf[o..o + n])))
    ensures iv[..] == IvAfter(m, bs, old(iv[..]), old(buf[o..o + n]))
  {
    hide *;
    match m
    case Encrypt(f) => left := EncryptInPlace(f, bs, buf, o, n, iv);
    case Decrypt(f) => left := DecryptInPlace(f, bs, buf, o, n, iv);
  }

  method Segment(m: Mode, bs: nat, src: array<Byte>, s: nat, dst: array<Byte>, d: nat, n: nat,
                 iv: array<Byte>) returns (left: nat)
    requires bs > 0 && Usable(m, bs) && iv.Length == bs && s + n <= src.Length && d + n <= dst.Length && n >= bs
    requires src != dst && iv != src && iv != dst
    modifies dst, iv
    ensures left == n - Floor(n, bs)
    ensures Wrote(old(dst[..]), dst[..], d, Chained(m, bs, old(iv[..]), src[s..s + n]))
    ensures iv[..] == IvAfter(m, bs, old(iv[..]), src[s..s + n])
  {
    hide *;
    match m
    case Encrypt(f) => left := EncryptSegment(f, bs, src, s, dst, d, n, iv);
    case Decrypt(f) => left := DecryptSegment(f, bs, src, s, dst, d, n, iv);
  }

  /** A chunk copied to a bounce page, worked on there, and its whole blocks copied out. */
  method ViaBounce(m: Mode, bs: nat, src: array<Byte>, dst: array<Byte>, at: nat, n: nat,
                   iv: array<Byte>) returns (left: nat)
    requires bs > 0 && Usable(m, bs) && iv.Length == bs && at + n <= src.Length && at + n <= dst.Length && n >= bs
    requires iv != src && iv != dst
    modifies dst, iv
    ensures left == n - Floor(n, bs)
    ensures Wrote(old(dst[..]), dst[..], at, Chained(m, bs, old(iv[..]), old(src[at..at + n])))
    ensures iv[..] == IvAfter(m, bs, old(iv[..]), old(src[at..at + n]))
  {
    hide *;
    var page := new Byte[n](_ => Byte(0));
    ghost var blank, data := page[..], src[at..at + n];
    Copy(page, 0, src, at, n);
    WroteHere(blank, page[..], 0, data);
    ghost var filled, out := page[..], Chained(m, bs, iv[..], data);
    assert page[0..n] == filled[0..n];
    left := InPlace(m, bs, page, 0, n, iv);
    WroteHere(filled, page[..], 0, out);
    assert page[0..n - left] == page[..][0..n - left];
    Copy(dst, at, page, 0, n - left);
  }

  lemma {:induction false} WroteHere(was: Bytes, now: Bytes, off: nat, data: Bytes)
    requires Wrote(was, now, off, data)
    ensures |now| == |was| && off + |data| <= |was| && now[off..off + |data|] == data
  {
  }

  /** One block gathered into its own source and destination slots. */
  method ViaSlots(m: Mode, bs: nat, src: array<Byte>, dst: array<Byte>, at: nat, iv: array<Byte>) returns (left: nat)
    requires bs > 0 && Usable(m, bs) && iv.Length == bs && at + bs <= src.Length && at + bs <= dst.Length
    requires iv != src && iv != dst
    modifies dst, iv
    ensures left == bs - Floor(bs, bs)
    ensures Wrote(old(dst[..]), dst[..], at, Chained(m, bs, old(iv[..]), old(src[at..at + bs])))
    ensures iv[..] == IvAfter(m, bs, old(iv[..]), old(src[at..at + bs]))
  {
    var from := new Byte[bs](_ => Byte(0));
    var to := new Byte[bs](_ => Byte(0));
    Copy(from, 0, src, at, bs);
    assert from[0..bs] == src[at..at + bs];
    ghost var was, out := to[..], Chained(m, bs, iv[..], from[0..bs]);
    assert |out| == bs == Floor(bs, bs);
    hide *;
    left := Segment(m, bs, from, 0, to, 0, bs, iv);
    WroteHere(was, to[..], 0, out);
    assert to[0..bs] == to[..][0..bs];
    Copy(dst, at, to, 0, bs);
  }

  /** One round of the driver: in place exactly when source and destination are the same memory. */
  method DoChunk(m: Mode, bs: nat, src: array<Byte>, dst: array<Byte>, at: nat, c: Chunk,
                 iv: array<Byte>) returns (left: nat)
    requires bs > 0 && Usable(m, bs) && iv.Length == bs && at + c.n <= src.Length && at + c.n <= dst.Length
    requires bs <= c.n && (c.via == Slow ==> c.n == bs) && iv != src && iv != dst
    modifies dst, iv
    ensures left == c.n - Floor(c.n, bs)
    ensures Wrote(old(dst[..]), dst[..], at, Chained(m, bs, old(iv[..]), old(src[at..at + c.n])))
    ensures iv[..] == IvAfter(m, bs, old(iv[..]), old(src[at..at + c.n]))
  {
    hide *;
    match c.via
    case Bounce => left := ViaBounce(m, bs, src, dst, at, c.n, iv);
    case Slow => left := ViaSlots(m, bs, src, dst, at, iv);
    case Fast =>
      if src == dst {
        left := InPlace(m, bs, dst, at, c.n, iv);
      } else {
        left := Segment(m, bs, src, at, dst, at, c.n, iv);
      }
  }

  lemma {:induction false} FloorPlus(n: nat, w: nat, bs: nat)
    requires bs > 0 && Multiple(w, bs)
    ensures Floor(w + n, bs) == w + Floor(n, bs)
    decreases w
  {
    if w > 0 { FloorPlus(n, w - bs, bs); }
  }

  /** A chunk's whole blocks can be done on their own. */
  lemma {:induction false} ChunkSplit(m: Mode, bs: nat, iv: Bytes, q: Bytes, n: nat)
    requires bs > 0 && Usable(m, bs) && |iv| == bs && n <= |q|
    ensures var w, v := Floor(n, bs), IvAfter(m, bs, iv, q[..n]);
      && Chained(m, bs, iv, q) == Chained(m, bs, iv, q[..n]) + Chained(m, bs, v, q[w..])
      && IvAfter(m, bs, iv, q) == IvAfter(m, bs, v, q[w..])
      && Floor(|q|, bs) == w + Floor(|q| - w, bs)
  {
    hide Usable, Chained, IvAfter, Floor, Multiple;
    var w := Floor(n, bs);
    ChainedFloor(m, bs, iv, q[..n]);
    assert q == q[..n][..w] + q[w..];
    ChainedAppend(m, bs, iv, q[..n][..w], q[w..]);
    FloorPlus(|q| - w, w, bs);
  }

  lemma {:induction false} ProgressChunk(m: Mode, bs: nat, iv0: Bytes, p: Bytes, i: nat, out: Bytes, iv: Bytes, n: nat)
    requires bs > 0 && Usable(m, bs) && |iv| == bs && Progress(m, bs, iv0, p, i, out, iv) && i + n <= |p|
    ensures var c := p[i..i + n];
      Progress(m, bs, iv0, p, i + Floor(n, bs), out + Chained(m, bs, iv, c), IvAfter(m, bs, iv, c))
  {
    hide Usable, Chained, IvAfter, Floor, Multiple;
    ChunkSplit(m, bs, iv, p[i..], n);
    TakeDrop(p, i, n);
    TakeDrop(p, i, Floor(n, bs));
  }

  lemma {:induction false} GoingChunk(m: Mode, bs: nat, iv0: Bytes, p: Bytes, was: Bytes, mid: Bytes, now: Bytes,
                                      i: nat, iv: Bytes, n: nat)
    requires bs > 0 && Usable(m, bs) && |iv| == bs && i + n <= |p| && Going(m, bs, iv0, p, was, mid, 0, i, iv)
    requires Wrote(mid, now, i, Chained(m, bs, iv, p[i..i + n]))
    ensures Going(m, bs, iv0, p, was, now, 0, i + Floor(n, bs), IvAfter(m, bs, iv, p[i..i + n]))
  {
    hide Usable, Chained, IvAfter, Progress;
    var b, j := Chained(m, bs, iv, p[i..i + n]), i + Floor(n, bs);
    ProgressChunk(m, bs, iv0, p, i, mid[0..i], iv, n);
    WroteMore(was, mid, now, 0, mid[0..i], b);
    assert now[0..j] == mid[0..i] + b;
  }

  /** One round of the driver keeps the books. */
  method NextChunk(m: Mode, bs: nat, src: array<Byte>, dst: array<Byte>, at: nat, c: Chunk, iv: array<Byte>,
                   ghost iv0: Bytes, ghost p: Bytes, ghost was: Bytes) returns (left: nat)
    requires bs > 0 && Usable(m, bs) && iv.Length == bs && |p| == src.Length == dst.Length && at + c.n <= src.Length
    requires bs <= c.n && (c.via == Slow ==> c.n == bs) && iv != src && iv != dst
    requires |was| == |p| && if src == dst then was == p else src[..] == p
    requires Going(m, bs, iv0, p, was, dst[..], 0, at, iv[..])
    modifies dst, iv
    ensures left == c.n - Floor(c.n, bs)
    ensures Going(m, bs, iv0, p, was, dst[..], 0, at + (c.n - left), iv[..])
    ensures iv[..] == IvAfter(m, bs, old(iv[..]), p[at..at + c.n])
  {
    hide *;
    ghost var mid, v := dst[..], iv[..];
    if src == dst {
      assert was[0..0 + |p|] == p;
      GoingRest(m, bs, iv0, p, was, mid, 0, at, v);
      SubWindow(mid, at, |p| - at, 0, c.n);
      TakeDrop(p, at, c.n);
      assert src[at..at + c.n] == mid[at..at + c.n];
    } else {
      assert src[at..at + c.n] == src[..][at..at + c.n];
    }
    left := DoChunk(m, bs, src, dst, at, c, iv);
    GoingChunk(m, bs, iv0, p, was, mid, dst[..], at, v, c.n);
  }

  /** The chaining value after the first i bytes, which are whole blocks. */
  ghost predicate Upto(m: Mode, bs: nat, iv0: Bytes, p: Bytes, i: nat, iv: Bytes)
    requires Usable(m, bs) && |iv0| == bs
  {
    bs > 0 && i <= |p| && Multiple(i, bs) && iv == IvAfter(m, bs, iv0, p[..i])
  }

  lemma {:induction false} UptoStart(m: Mode, bs: nat, iv0: Bytes, p: Bytes)
    requires Usable(m, bs) && |iv0| == bs
    ensures Upto(m, bs, iv0, p, 0, iv0)
  {
  }

  lemma {:induction false} UptoChunk(m: Mode, bs: nat, iv0: Bytes, p: Bytes, i: nat, iv: Bytes, n: nat)
    requires Usable(m, bs) && |iv0| == bs && |iv| == bs && Upto(m, bs, iv0, p, i, iv) && i + n <= |p|
    ensures Upto(m, bs, iv0, p, i + Floor(n, bs), IvAfter(m, bs, iv, p[i..i + n]))
  {
    hide Usable, Chained, IvAfter, Floor, Multiple;
    var w := Floor(n, bs);
    ChainedFloor(m, bs, iv, p[i..i + n]);
    assert p[i..i + n][..w] == p[i..i + w] && p[..i + w] == p[..i] + p[i..i + w];
    ChainedAppend(m, bs, iv0, p[..i], p[i..i + w]);
    MultipleAdd(i, w, bs);
  }

  /** What has been written is the chain over the first i bytes. */
  lemma {:induction false} GoingUpto(m: Mode, bs: nat, iv0: Bytes, p: Bytes, was: Bytes, now: Bytes, i: nat, iv: Bytes)
    requires Usable(m, bs) && |iv0| == bs && Going(m, bs, iv0, p, was, now, 0, i, iv) && Multiple(i, bs) && i <= |p|
    ensures Wrote(was, now, 0, Chained(m, bs, iv0, p[..i]))
  {
    hide Usable, Chained, IvAfter, Floor, Wrote;
    assert p == p[..i] + p[i..];
    ChainedAppend(m, bs, iv0, p[..i], p[i..]);
    var out, c := now[0..i], Chained(m, bs, iv0, p[..i]);
    assert Chained(m, bs, iv0, p)[..i] == out && |c| == i;
    assert (c + Chained(m, bs, IvAfter(m, bs, iv0, p[..i]), p[i..]))[..i] == c;
  }

  /** Works through a list of chunks.  Whatever the chunks, the result is the chain over the whole
      blocks they cover. */
  method CryptChunks(m: Mode, bs: nat, src: array<Byte>, dst: array<Byte>, iv: array<Byte>,
                     chunks: seq<Chunk>) returns (at: nat)
    requires bs > 0 && Usable(m, bs) && iv.Length == bs && src.Length == dst.Length && iv != src && iv != dst
    requires Legal(chunks, src.Length, bs)
    modifies dst, iv
    ensures at == Served(chunks, bs) <= src.Length
    ensures Wrote(old(dst[..]), dst[..], 0, Chained(m, bs, old(iv[..]), old(src[..at])))
    ensures iv[..] == IvAfter(m, bs, old(iv[..]), old(src[..at]))
  {
    hide Usable, Wrote, Chained, IvAfter, Going, Progress, Floor, Upto, Multiple;
    ghost var p, was := src[..], dst[..];
    GoingStart(m, bs, iv[..], p, was, 0);
    UptoStart(m, bs, iv[..], p);
    at := 0;
    var k := 0;
    assert chunks[0..] == chunks;
    while k < |chunks|
      invariant 0 <= at <= src.Length && 0 <= k <= |chunks| && Legal(chunks[k..], src.Length - at, bs)
      invariant at + Served(chunks[k..], bs) == Served(chunks, bs)
      invariant if src == dst then was == p else src[..] == p
      invariant Going(m, bs, old(iv[..]), p, was, dst[..], 0, at, iv[..])
      invariant Upto(m, bs, old(iv[..]), p, at, iv[..])
    {
      assert chunks[k..][0] == chunks[k] && chunks[k..][1..] == chunks[k + 1..];
      ghost var v := iv[..];
      var left := NextChunk(m, bs, src, dst, at, chunks[k], iv, old(iv[..]), p, was);
      UptoChunk(m, bs, old(iv[..]), p, at, v, chunks[k].n);
      at, k := at + (chunks[k].n - left), k + 1;
    }
    UptoParts(m, bs, old(iv[..]), p, at, iv[..]);
    GoingUpto(m, bs, old(iv[..]), p, was, dst[..], at, iv[..]);
    assert p[..at] == old(src[..at]);
  }

  lemma {:induction false} UptoParts(m: Mode, bs: nat, iv0: Bytes, p: Bytes, i: nat, iv: Bytes)
    requires Usable(m, bs) && |iv0| == bs && Upto(m, bs, iv0, p, i, iv)
    ensures i <= |p| && Multiple(i, bs) && iv == IvAfter(m, bs, iv0, p[..i])
  {
  }

  /** Encrypts or decrypts a request.  Whatever the chunks, the result is the chain over its whole
      blocks; a tail shorter than a block is left alone and reported. */
  method Crypt(m: Mode, bs: nat, src: array<Byte>, dst: array<Byte>, iv: array<Byte>,
               chunks: seq<Chunk>) returns (ok: bool)
    requires bs > 0 && Usable(m, bs) && iv.Length == bs && src.Length == dst.Length && iv != src && iv != dst
    requires Fits(chunks, src.Length, bs)
    modifies dst, iv
    ensures ok <==> Multiple(src.Length, bs)
    ensures Wrote(old(dst[..]), dst[..], 0, Chained(m, bs, old(iv[..]), old(src[..])))
    ensures iv[..] == IvAfter(m, bs, old(iv[..]), old(src[..]))
  {
    hide Usable, Wrote, Chained, IvAfter, Multiple, Legal, Fits, Served;
    ghost var p := src[..];
    FitsServes(chunks, src.Length, bs);
    ChainedFloor(m, bs, iv[..], p);
    var at := CryptChunks(m, bs, src, dst, iv, chunks);
    assert p[..at] == old(src[..at]);
    ok := at == src.Length;
  }

  /** Encrypts under one list of chunks and decrypts under another: the plaintext comes back, and both
      sides end with the same chaining value.  Any of the three buffers may be the same memory. */
  method EncryptThenDecrypt(e: Cipher, d: Cipher, bs: nat, plain: array<Byte>, cipher: array<Byte>, clear: array<Byte>,
                            iv: array<Byte>, iv2: array<Byte>, chunks: seq<Chunk>, chunks2: seq<Chunk>)
    requires bs > 0 && Usable(Encrypt(e), bs) && Usable(Decrypt(d), bs) && Inverts(d, e, bs)
    requires plain.Length == cipher.Length == clear.Length && Multiple(plain.Length, bs)
    requires iv.Length == iv2.Length == bs && iv != iv2 && iv[..] == iv2[..]
    requires {iv, iv2} !! {plain, cipher, clear}
    requires Fits(chunks, plain.Length, bs) && Fits(chunks2, plain.Length, bs)
    modifies cipher, clear, iv, iv2
    ensures clear[..] == old(plain[..]) && iv[..] == iv2[..]
  {
    hide Usable, Inverts, Chained, IvAfter, Wrote, Fits, Floor, Multiple;
    ghost var p, v, was := plain[..], iv[..], cipher[..];
    var _ := Crypt(Encrypt(e), bs, plain, cipher, iv, chunks);
    ghost var c := Chained(Encrypt(e), bs, v, p);
    WroteAll(was, cipher[..], c);
    assert iv2[..] == v;
    ghost var was2 := clear[..];
    var _ := Crypt(Decrypt(d), bs, cipher, clear, iv2, chunks2);
    RoundTrip(Encrypt(e), Decrypt(d), bs, v, p);
    WroteAll(was2, clear[..], p);
  }

  lemma {:induction false} WroteAll(was: Bytes, now: Bytes, data: Bytes)
    requires Wrote(was, now, 0, data) && |data| == |was|
    ensures now == data
  {
    assert now == now[0..|data|];
  }
}
