/** Division facts that the models share. */
module Arithmetic {

  lemma ProductGrows(a: nat, b: nat, d: nat)
    requires a <= b
    ensures a * d <= b * d
  {
  }

  lemma DivideExactly(q: nat, d: nat, r: nat)
    requires r < d
    ensures (q * d + r) / d == q && (q * d + r) % d == r
  {
    var got := (q * d + r) / d;
    if got < q {
      ProductGrows(got + 1, q, d);
    } else if got > q {
      ProductGrows(q + 1, got, d);
    }
  }
}
