/** Integer widths, two's-complement conversions and the C math-library
    interface shared by the equalizer and the limiter. All arithmetic is on
    unbounded `int`; the C types are modelled by range predicates and by an
    explicit wrap where the source converts to a narrower type. */
module FixedPoint {

  const Int32Min: int := -0x8000_0000
  const Int32Max: int := 0x7FFF_FFFF
  const Int64Min: int := -0x8000_0000_0000_0000
  const Int64Max: int := 0x7FFF_FFFF_FFFF_FFFF

  /** Full-scale positive magnitude of a 32-bit sample (0x7FFFFFFF). */
  const FullScale: int := Int32Max

  predicate IsInt32(v: int) {
    Int32Min <= v <= Int32Max
  }

  predicate IsInt64(v: int) {
    Int64Min <= v <= Int64Max
  }

  /** The conversion `(int32_t) v` of a wider signed value: the value modulo
      2^32, read back as a two's-complement 32-bit number. */
  function ToInt32(v: int): (r: int)
    ensures IsInt32(r)
    ensures (v - r) % 0x1_0000_0000 == 0
    ensures IsInt32(v) ==> r == v
  {
    var w := (v - Int32Min) % 0x1_0000_0000;
    assert v - (w + Int32Min) == 0x1_0000_0000 * ((v - Int32Min) / 0x1_0000_0000);
    w + Int32Min
  }

  /** The conversion `(int32_t) d` of a double `d`: truncation toward zero. */
  function TruncToInt(d: real): (n: int)
    ensures 0.0 <= d ==> 0 <= n && n as real <= d < n as real + 1.0
    ensures d < 0.0 ==> n <= 0 && n as real - 1.0 < d <= n as real
  {
    if d >= 0.0 then d.Floor else -((-d).Floor)
  }

  /** Truncation toward zero is symmetric about zero. */
  lemma TruncIsOdd(d: real)
    ensures TruncToInt(-d) == -TruncToInt(d)
  {
    if d == 0.0 {
      assert -d == 0.0;
    }
  }

  /** The transcendental functions of the C math library that the filter
      design and the limiter set-up call (`cos`, `sin`, `pow`, `sinh`,
      `sqrt`). Their numeric values are not modelled: every design is
      stated for whatever functions are supplied here. */
  datatype MathLib = MathLib(
    cos: real -> real,
    sin: real -> real,
    pow: (real, real) -> real,
    sinh: real -> real,
    sqrt: real -> real)

  function Max(x: int, y: int): (r: int)
    ensures r >= x && r >= y && (r == x || r == y)
  {
    if x > y then x else y
  }

  function Min(x: int, y: int): (r: int)
    ensures r <= x && r <= y && (r == x || r == y)
  {
    if x < y then x else y
  }
}
