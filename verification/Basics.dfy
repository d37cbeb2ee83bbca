/** Bytes, and facts about sets and products that several proofs use. */
module Basics {
  newtype byte = x: int | 0 <= x < 256

  lemma SubsetSize<T>(a: set<T>, b: set<T>)
    requires a <= b
    ensures |a| <= |b|
  {
    assert b == a + (b - a);
  }

  lemma Scale(m: int, n: int, b: int)
    requires m <= n && b >= 0
    ensures m * b <= n * b
  {
    assert n * b == m * b + (n - m) * b;
  }
}
