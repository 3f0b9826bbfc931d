/** Machine words and the arithmetic of Go and PostgreSQL where it differs from Dafny's. */
module Machine {

  datatype Option<+T> = None | Some(value: T)

  const U64: int := 0x1_0000_0000_0000_0000
  const I64: int := 0x8000_0000_0000_0000

  /** A value stored in a Go uint64. */
  predicate FitsU64(x: int) {
    0 <= x < U64
  }

  /** A value stored in a Go int64 or a PostgreSQL bigint. */
  predicate FitsI64(x: int) {
    -I64 <= x < I64
  }

  /** Unsigned 64-bit wrap-around. */
  function Wrap64(x: int): (r: int)
    ensures FitsU64(r)
    ensures FitsU64(x) ==> r == x
  {
    x % U64
  }

  /** Signed 64-bit wrap-around (two's complement). */
  function WrapI64(x: int): (r: int)
    ensures FitsI64(r)
    ensures FitsI64(x) ==> r == x
  {
    (x + I64) % U64 - I64
  }

  /** Integer division rounding toward zero, as in Go and in SQL over bigint. */
  function TruncDiv(a: int, b: int): (q: int)
    requires b > 0
    ensures a >= 0 ==> q >= 0 && q * b <= a < (q + 1) * b
    ensures a <= 0 ==> q <= 0 && (q - 1) * b < a <= q * b
  {
    if a >= 0 then a / b else -((-a) / b)
  }
}
