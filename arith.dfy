/** A fact about real multiplication that the bound proofs share. */
module RealArith {

  /** Multiplying by a non-negative factor keeps an order. */
  lemma MulLe(x: real, y: real, k: real)
    requires x <= y && k >= 0.0
    ensures x * k <= y * k
  {
  }
}
