/** Arithmetic of multiples, for block sizes, alignments and pages. */
module Multiples {

  lemma {:induction false} MulMono(a: nat, b: nat, c: nat)
    requires a <= b
    ensures a * c <= b * c
  {
    if a < b { MulMono(a, b - 1, c); assert b * c == (b - 1) * c + c; }
  }

  lemma {:induction false} ModStep(n: nat, m: nat)
    requires 0 < m <= n
    ensures n % m == (n - m) % m
  {
    var q, r, q' := (n - m) / m, (n - m) % m, n / m;
    assert (q + 1) * m == q * m + m && (q' + 1) * m == q' * m + m && (q + 2) * m == q * m + m + m;
    if q + 2 <= q' { MulMono(q + 2, q', m); }
    if q' <= q { MulMono(q' + 1, q + 1, m); }
    assert q' == q + 1;
  }

  lemma {:induction false} ModSmall(n: nat, m: nat)
    requires n < m
    ensures n % m == n
  {
  }

  /** x is a multiple of m. */
  ghost predicate Multiple(x: nat, m: nat)
    requires m > 0
  {
    x == 0 || (x >= m && Multiple(x - m, m))
  }

  lemma {:induction false} MultipleMod(x: nat, m: nat)
    requires m > 0
    ensures Multiple(x, m) <==> x % m == 0
  {
    if x >= m { ModStep(x, m); MultipleMod(x - m, m); } else { ModSmall(x, m); }
  }

  lemma {:induction false} MultipleAdd(x: nat, y: nat, m: nat)
    requires m > 0 && Multiple(y, m)
    ensures Multiple(x + y, m) <==> Multiple(x, m)
    decreases y
  {
    if y > 0 { MultipleAdd(x, y - m, m); }
  }

  lemma {:induction false} MultipleGap(x: nat, y: nat, m: nat)
    requires m > 0 && Multiple(x, m) && Multiple(y, m) && x < y
    ensures x + m <= y && Multiple(y - x, m)
    decreases x
  {
    if x > 0 { MultipleGap(x - m, y - m, m); }
  }

  lemma {:induction false} MultipleTrans(x: nat, p: nat, m: nat)
    requires m > 0 && p > 0 && Multiple(x, p) && Multiple(p, m)
    ensures Multiple(x, m)
    decreases x
  {
    if x > 0 { MultipleTrans(x - p, p, m); MultipleAdd(x - p, p, m); }
  }

  /** The largest multiple of m up to x. */
  function Down(x: nat, m: nat): (r: nat)
    requires m > 0
  {
    x - x % m
  }

  lemma {:induction false} DownFacts(x: nat, m: nat)
    requires m > 0
    ensures Multiple(Down(x, m), m) && Down(x, m) <= x < Down(x, m) + m
  {
    if x >= m {
      DownFacts(x - m, m);
      ModStep(x, m);
      assert Down(x, m) == Down(x - m, m) + m;
    } else {
      ModSmall(x, m);
    }
  }

  lemma {:induction false} DownUnique(x: nat, y: nat, m: nat)
    requires m > 0 && Multiple(y, m) && y <= x < y + m
    ensures Down(x, m) == y
  {
    hide Down;
    DownFacts(x, m);
    var d := Down(x, m);
    if d < y { MultipleGap(d, y, m); }
    if y < d { MultipleGap(y, d, m); }
  }

  /** The smallest multiple of m from x on. */
  function Up(x: nat, m: nat): (r: nat)
    requires m > 0
  {
    Down(x + m - 1, m)
  }

  lemma {:induction false} UpFacts(x: nat, m: nat)
    requires m > 0
    ensures Multiple(Up(x, m), m) && x <= Up(x, m) < x + m && (Multiple(x, m) ==> Up(x, m) == x)
  {
    hide Down;
    DownFacts(x + m - 1, m);
    if Multiple(x, m) { DownUnique(x + m - 1, x, m); }
  }

  predicate PowerOfTwo(n: nat) { n == 1 || (n > 1 && n % 2 == 0 && PowerOfTwo(n / 2)) }

  lemma {:induction false} MultipleDouble(x: nat, m: nat)
    requires m > 0 && Multiple(x, m)
    ensures Multiple(2 * x, 2 * m)
  {
    if x > 0 { MultipleDouble(x - m, m); }
  }

  /** Of two powers of two, the smaller divides the larger. */
  lemma {:induction false} PowersDivide(a: nat, b: nat)
    requires PowerOfTwo(a) && PowerOfTwo(b) && a <= b
    ensures Multiple(b, a)
  {
    if a == 1 { MultipleMod(b, 1); } else { PowersDivide(a / 2, b / 2); MultipleDouble(b / 2, a / 2); }
  }
}
