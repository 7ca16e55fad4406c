/**
 * Rounding a byte count or an address to a multiple of an alignment, shared
 * by the descriptor layouts (member offsets) and by the userfaultfd range
 * computation (page boundaries). The facts about `/` and `%` with a symbolic
 * divisor are proved here once, from the division identity.
 */
module Alignment {

  type pos = n: nat | n > 0 witness 1

  lemma DivMod(x: nat, a: pos)
    ensures x == (x / a) * a + x % a
    ensures 0 <= x % a < a
  {
  }

  lemma MulMono(i: nat, j: nat, a: nat)
    requires i <= j
    ensures i * a <= j * a
  {
    assert j * a == i * a + (j - i) * a;
  }

  /** Quotient and remainder are the only ones that satisfy the division identity. */
  lemma DivModUnique(x: nat, a: pos, q: nat, r: nat)
    requires x == q * a + r && r < a
    ensures x / a == q && x % a == r
  {
    DivMod(x, a);
    var q' := x / a;
    if q' > q {
      MulMono(q + 1, q', a);
    } else if q' < q {
      MulMono(q' + 1, q, a);
    }
  }

  lemma MulDiv(k: nat, a: pos)
    ensures (k * a) / a == k
    ensures (k * a) % a == 0
  {
    DivModUnique(k * a, a, k, 0);
  }

  lemma DivMono(x: nat, y: nat, a: pos)
    requires x <= y
    ensures x / a <= y / a
  {
    DivMod(x, a);
    DivMod(y, a);
    if y / a < x / a {
      MulMono(y / a + 1, x / a, a);
    }
  }

  /** The greatest multiple of `a` that is at most `x`. */
  function AlignDown(x: nat, a: pos): (r: nat)
    ensures r % a == 0
    ensures r <= x < r + a
  {
    DivMod(x, a);
    MulDiv(x / a, a);
    (x / a) * a
  }

  /** The least multiple of `a` that is at least `x`. */
  function AlignUp(x: nat, a: pos): (r: nat)
    ensures r % a == 0
    ensures x <= r < x + a
  {
    DivMod(x, a);
    MulDiv(x / a + 1, a);
    if x % a == 0 then x else (x / a + 1) * a
  }

  /** No multiple of `a` lies strictly between `AlignDown(x, a)` and `x`. */
  lemma AlignDownIsGreatest(x: nat, a: pos, m: nat)
    requires m % a == 0 && m <= x
    ensures m <= AlignDown(x, a)
  {
    DivMod(m, a);
    DivMono(m, x, a);
    MulMono(m / a, x / a, a);
  }

  /** No multiple of `a` lies at or above `x` and below `AlignUp(x, a)`. */
  lemma AlignUpIsLeast(x: nat, a: pos, m: nat)
    requires m % a == 0 && x <= m
    ensures AlignUp(x, a) <= m
  {
    DivMod(x, a);
    DivMod(m, a);
    DivMono(x, m, a);
    if x % a != 0 {
      if x / a == m / a {
        assert false;
      }
      MulMono(x / a + 1, m / a, a);
    }
  }

  /** A value that is already a multiple is left alone by both roundings. */
  lemma AlignIdempotent(x: nat, a: pos)
    requires x % a == 0
    ensures AlignDown(x, a) == x && AlignUp(x, a) == x
  {
    AlignDownIsGreatest(x, a, x);
  }
}
