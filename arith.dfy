/**
 * A fact of integer arithmetic that the draw landing and the luck score
 * both rest on.
 */
module Arithmetic {
  /** The only multiple of `c` strictly between `-c` and `c` is zero. */
  lemma SmallMultiple(d: int, c: int)
    requires c > 0 && -c < d * c < c
    ensures d == 0
  {
    if d > 0 {
      assert false;
    } else if d < 0 {
      assert false;
    }
  }
}
