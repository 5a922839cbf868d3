/** The JavaScript `Math` functions the model needs, over exact reals. */
module JsMath {

  /** `Math.round`: the nearest integer, halves rounded up. */
  function Round(x: real): (r: int)
    ensures r as real - 0.5 <= x < r as real + 0.5
  {
    (x + 0.5).Floor
  }

  /** Only one integer lies within half a unit below-or-at and strictly above `x`. */
  lemma RoundUnique(x: real, q: int)
    requires q as real - 0.5 <= x < q as real + 0.5
    ensures Round(x) == q
  {
  }
}
