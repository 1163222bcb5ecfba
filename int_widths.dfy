/** The machine integer widths of the Rust model, and the `as i32` cast. */
module IntWidths {

  const TwoTo31: int := 0x8000_0000
  const TwoTo32: int := 0x1_0000_0000
  const TwoTo63: int := 0x8000_0000_0000_0000

  type i32 = x: int | -0x8000_0000 <= x < 0x8000_0000
  type i64 = x: int | -0x8000_0000_0000_0000 <= x < 0x8000_0000_0000_0000
  type u64 = x: int | 0 <= x < 0x1_0000_0000_0000_0000

  predicate InI32(x: int) {
    -TwoTo31 <= x < TwoTo31
  }

  /**
   * Rust's `x as i32` on an integer: keep the low 32 bits and read them as
   * two's complement. The result is the i32 congruent to `x` modulo 2^32.
   */
  function WrapI32(x: int): (r: i32)
    ensures (r - x) % TwoTo32 == 0
  {
    (x + TwoTo31) % TwoTo32 - TwoTo31
  }

  /** The cast changes exactly the values outside the i32 range. */
  lemma WrapI32Identity(x: int)
    ensures WrapI32(x) == x <==> InI32(x)
  {
  }

  /** Any i32 congruent to `x` modulo 2^32 is the cast of `x`. */
  lemma {:induction false} WrapI32Unique(x: int, y: int)
    requires InI32(y) && (y - x) % TwoTo32 == 0
    ensures WrapI32(x) == y
  {
    var r := WrapI32(x);
    assert (r - y) % TwoTo32 == 0 by {
      assert r - y == (r - x) - (y - x);
    }
    assert -TwoTo32 < r - y < TwoTo32;
  }

  /** 2^31 wraps to i32::MIN, 2^32 + 5 to 5, and -1 stays -1. */
  lemma WrapI32Example()
    ensures WrapI32(TwoTo31) == -TwoTo31
    ensures WrapI32(TwoTo32 + 5) == 5
    ensures WrapI32(-1) == -1
  {
  }
}
