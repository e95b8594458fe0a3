/** Monotonicity of multiplication by a non-negative factor, proved by induction so that callers need no nonlinear reasoning. */
module Arith {
  lemma {:induction false} MulMono(a: int, b: int, l: nat)
    requires a <= b
    ensures a * l <= b * l
    decreases l
  {
    if l > 0 {
      MulMono(a, b, l - 1);
      assert a * l == a * (l - 1) + a && b * l == b * (l - 1) + b;
    }
  }

  lemma {:induction false} MulStrict(a: int, b: int, l: nat)
    requires a < b && l > 0
    ensures a * l < b * l
  {
    MulMono(a + 1, b, l);
    assert (a + 1) * l == a * l + l;
  }
}
