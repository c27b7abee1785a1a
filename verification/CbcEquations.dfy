/** The equations of cipher block chaining, block by block, for what the loops compute. */
module CbcEquations {
  import opened ByteXor
  import opened Cbc
  import opened Multiples

  ghost predicate IsXor(a: Bytes, b: Bytes, r: Bytes) {
    |a| == |b| == |r| && forall j | 0 <= j < |r| :: r[j].bits == a[j].bits ^ b[j].bits
  }

  /** The block at `o` of the ciphertext, or the initial value before the first. */
  ghost function Before(bs: nat, iv: Bytes, cipher: Bytes, o: nat): Bytes
    requires o <= |cipher| && (o == 0 || bs <= o)
  {
    if o == 0 then iv else cipher[o - bs..o]
  }

  /** Encryption: the ciphertext block is the cipher of the plaintext block combined with the ciphertext block
      before it. */
  ghost predicate Encrypted(f: Cipher, bs: nat, iv: Bytes, plain: Bytes, cipher: Bytes, o: nat)
    requires o + bs <= |plain| && o + bs <= |cipher| && (o == 0 || bs <= o)
  {
    exists x: Bytes :: IsXor(plain[o..o + bs], Before(bs, iv, cipher, o), x) && cipher[o..o + bs] == Run(f, x)
  }

  /** Decryption: the plaintext block is the inverse cipher of the ciphertext block, combined with the ciphertext
      block before it. */
  ghost predicate Decrypted(f: Cipher, bs: nat, iv: Bytes, cipher: Bytes, plain: Bytes, o: nat)
    requires o + bs <= |plain| && o + bs <= |cipher| && (o == 0 || bs <= o)
  {
    IsXor(Run(f, cipher[o..o + bs]), Before(bs, iv, cipher, o), plain[o..o + bs])
  }

  lemma {:induction false} XorIs(a: Bytes, b: Bytes)
    requires |a| == |b|
    ensures IsXor(a, b, Xor(a, b))
  {
  }

  lemma {:induction false} FirstBlock(m: Mode, bs: nat, iv: Bytes, p: Bytes)
    requires Usable(m, bs) && |iv| == bs <= |p|
    ensures var c := Chained(m, bs, iv, p);
      && |c| >= bs
      && if m.Encrypt? then Encrypted(m.f, bs, iv, p, c, 0) else Decrypted(m.f, bs, iv, p, c, 0)
  {
    var c := Chained(m, bs, iv, p);
    assert c[0..bs] == Out(m, bs, iv, p[..bs]) && p[0..bs] == p[..bs];
    hide Chained, IsXor;
    match m
    case Encrypt(f) =>
      XorIs(p[..bs], iv);
      assert IsXor(p[0..bs], Before(bs, iv, c, 0), Xor(p[..bs], iv));
    case Decrypt(f) => XorIs(Run(f, p[..bs]), iv);
  }

  lemma {:induction false} WindowOfRest(s: Bytes, bs: nat, o: nat)
    requires bs <= o && o + bs <= |s|
    ensures s[bs..][o - bs..o - bs + bs] == s[o..o + bs]
  {
    SubWindow(s, bs, |s| - bs, o - bs, bs);
    assert s[bs..|s|] == s[bs..];
  }

  lemma {:induction false} BeforeInRest(bs: nat, iv: Bytes, s: Bytes, o: nat)
    requires 0 < bs <= o <= |s| && (o == bs || bs + bs <= o)
    ensures Before(bs, s[..bs], s[bs..], o - bs) == Before(bs, iv, s, o)
  {
    if o > bs {
      WindowOfRest(s, bs, o - bs);
    } else {
      assert s[o - bs..o] == s[..bs];
    }
  }

  /** A block further on is a block of the rest. */
  lemma {:induction false} LaterEncrypted(f: Cipher, bs: nat, iv: Bytes, plain: Bytes, cipher: Bytes, o: nat)
    requires 0 < bs <= o && o + bs <= |plain| && o + bs <= |cipher| && (o == bs || bs + bs <= o)
    requires Encrypted(f, bs, cipher[..bs], plain[bs..], cipher[bs..], o - bs)
    ensures Encrypted(f, bs, iv, plain, cipher, o)
  {
    hide IsXor, Before;
    WindowOfRest(plain, bs, o);
    WindowOfRest(cipher, bs, o);
    BeforeInRest(bs, iv, cipher, o);
  }

  lemma {:induction false} LaterDecrypted(f: Cipher, bs: nat, iv: Bytes, cipher: Bytes, plain: Bytes, o: nat)
    requires 0 < bs <= o && o + bs <= |plain| && o + bs <= |cipher| && (o == bs || bs + bs <= o)
    requires Decrypted(f, bs, cipher[..bs], cipher[bs..], plain[bs..], o - bs)
    ensures Decrypted(f, bs, iv, cipher, plain, o)
  {
    hide IsXor, Before;
    WindowOfRest(plain, bs, o);
    WindowOfRest(cipher, bs, o);
    BeforeInRest(bs, iv, cipher, o);
  }

  /** The main result: every whole block of the output satisfies the equation of its mode. */
  lemma {:induction false} CbcHolds(m: Mode, bs: nat, iv: Bytes, p: Bytes, o: nat)
    requires Usable(m, bs) && |iv| == bs && Multiple(o, bs) && o + bs <= |p|
    ensures var c := Chained(m, bs, iv, p);
      && o + bs <= |c| && (o == 0 || bs <= o)
      && if m.Encrypt? then Encrypted(m.f, bs, iv, p, c, o) else Decrypted(m.f, bs, iv, p, c, o)
    decreases o
  {
    var c := Chained(m, bs, iv, p);
    FirstBlock(m, bs, iv, p);
    if o > 0 {
      var iv', p' := Next(m, bs, iv, p[..bs]), p[bs..];
      assert c[..bs] == Out(m, bs, iv, p[..bs]) && c[bs..] == Chained(m, bs, iv', p');
      assert bs <= o && Multiple(o - bs, bs) && (o == bs || bs + bs <= o);
      hide Chained, Encrypted, Decrypted, Out, Multiple;
      CbcHolds(m, bs, iv', p', o - bs);
      if m.Encrypt? { LaterEncrypted(m.f, bs, iv, p, c, o); } else { LaterDecrypted(m.f, bs, iv, p, c, o); }
    }
  }
}
