/** Small shared vocabulary: optional values, results, the fixed-width integer
    types of the Rust source, and the numeric conversions (`as i32`, `round()`)
    written out explicitly. */
module Common {

  datatype Option<T> = None | Some(value: T)

  datatype Result<T, E> = Ok(value: T) | Err(error: E)

  const U32_LIMIT: int := 0x1_0000_0000
  const U32_MAX: int := 0xffff_ffff
  const I32_MIN: int := -0x8000_0000
  const I32_MAX: int := 0x7fff_ffff

  type u8 = x: int | 0 <= x < 0x100
  type u16 = x: int | 0 <= x < 0x1_0000
  type u32 = x: int | 0 <= x < 0x1_0000_0000

  /** A window size in physical pixels. */
  datatype PhysicalSize = PhysicalSize(width: u32, height: u32)

  /** A rectangle of the UI: origin and extent. */
  datatype BoundingBox = BoundingBox(x: real, y: real, w: real, h: real)

  /** `x.max(1)` on an unsigned size: a dimension that is never zero. */
  function AtLeastOne(x: u32): (r: u32)
    ensures r >= 1
    ensures r >= x
    ensures x >= 1 ==> r == x
  {
    if x < 1 then 1 else x
  }

  function MaxReal(a: real, b: real): (r: real)
    ensures r >= a && r >= b
    ensures r == a || r == b
  {
    if a < b then b else a
  }

  /** `x as i32` for an unsigned 32-bit `x`: the bit pattern is reinterpreted,
      so values above `i32::MAX` wrap to negative numbers. */
  function U32AsI32(x: u32): (r: int)
    ensures I32_MIN <= r <= I32_MAX
    ensures r % U32_LIMIT == x
    ensures x <= I32_MAX ==> r == x
    ensures x > I32_MAX ==> r < 0
  {
    if x <= I32_MAX then x else x - U32_LIMIT
  }

  /** `x as i32` for a (finite) float: truncation toward zero, saturating at
      the bounds of `i32`. */
  function TruncateToI32(x: real): (r: int)
    ensures I32_MIN <= r <= I32_MAX
    ensures 0.0 <= x <= I32_MAX as real ==> r as real <= x < r as real + 1.0
    ensures I32_MIN as real <= x < 0.0 ==> r as real - 1.0 < x <= r as real
    ensures x >= I32_MAX as real ==> r == I32_MAX
    ensures x <= I32_MIN as real ==> r == I32_MIN
    ensures x >= 0.0 ==> r >= 0
  {
    if x >= I32_MAX as real then I32_MAX
    else if x <= I32_MIN as real then I32_MIN
    else if x >= 0.0 then x.Floor
    else -((-x).Floor)
  }

  /** `x.round() as u32`: round half away from zero, then saturate into the
      range of `u32` (negative values become 0). */
  function RoundToU32(x: real): (r: u32)
    ensures x <= 0.0 ==> r == 0
    ensures 0.0 <= x < U32_MAX as real ==> r as real - 0.5 <= x < r as real + 0.5
    ensures x >= U32_MAX as real ==> r == U32_MAX
  {
    if x <= 0.0 then 0
    else if x >= U32_MAX as real then U32_MAX
    else (x + 0.5).Floor
  }
}
