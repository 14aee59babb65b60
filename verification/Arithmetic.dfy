/** Products, one law at a time. */
module Arithmetic {
  lemma Associates(a: int, b: int, c: int)
    ensures (a * b) * c == a * (b * c)
  {
  }

  lemma Distributes(a: int, b: int, c: int)
    ensures (a + b) * c == a * c + b * c
  {
  }

  lemma Grows(a: int, b: int, p: nat)
    requires a <= b
    ensures a * p <= b * p
  {
  }

  lemma QuotientIsNatural(a: nat, p: nat)
    requires 0 < p
    ensures 0 <= a / p
  {
  }
}
