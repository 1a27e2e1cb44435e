/** A fact about products that the solver needs spelled out. */
module Arithmetic {

  lemma {:induction false} OneMoreTimes(a: int, n: int, m: int)
    requires m == n + 1
    ensures a * m == a * n + a
    ensures m * a == n * a + a
  {
  }
}
