/** Order facts about products of reals with a positive factor, which the
    solver does not always find on its own. */
module RealArith {

  lemma MulLeq(a: real, b: real, c: real)
    requires a <= b && 0.0 < c
    ensures a * c <= b * c
  {
  }

  lemma MulLess(a: real, b: real, c: real)
    requires a < b && 0.0 < c
    ensures a * c < b * c
  {
  }

  lemma CancelLess(a: real, b: real, c: real)
    requires a * c < b * c && 0.0 < c
    ensures a < b
  {
  }

  lemma CancelLeq(a: real, b: real, c: real)
    requires a * c <= b * c && 0.0 < c
    ensures a <= b
  {
  }
}
