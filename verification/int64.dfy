/** Go and SQL amounts are signed 64-bit integers. Addition on Go's `int64` and
    on `atomic.Int64` wraps around silently; `Wrap` is that reduction. */
module Int64 {

  const MAX := 0x7FFF_FFFF_FFFF_FFFF
  const MIN := -0x8000_0000_0000_0000
  const RANGE := 0x1_0000_0000_0000_0000

  /** Go locals of type int64: every operation on them carries a proof that it does not overflow. */
  newtype int64 = x: int | -0x8000_0000_0000_0000 <= x <= 0x7FFF_FFFF_FFFF_FFFF

  predicate Fits(x: int) {
    MIN <= x <= MAX
  }

  function Wrap(x: int): (r: int)
    ensures Fits(r)
    ensures Fits(x) ==> r == x
  {
    (x - MIN) % RANGE + MIN
  }

  /** Wrapping early or late makes no difference. */
  lemma WrapAdd(x: int, y: int)
    ensures Wrap(Wrap(x) + y) == Wrap(x + y)
  {
    var q := (x - MIN) / RANGE;
    assert Wrap(x) == x - q * RANGE;
    WrapShift(x + y, -q);
  }

  lemma WrapShift(x: int, q: int)
    ensures Wrap(x + q * RANGE) == Wrap(x)
  {
    var a := x - MIN;
    var d := a / RANGE;
    var m := a % RANGE;
    assert a + q * RANGE == (d + q) * RANGE + m;
  }

  /** An estimate passes validation in every backend exactly in this range. */
  predicate ValidEstimate(x: int) {
    0 <= x <= MAX / 2
  }
}
