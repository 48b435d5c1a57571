/**
 * Rust's `u16` and the three kinds of arithmetic the editor applies to it:
 * `saturating_add`/`saturating_sub`, and the plain `+`/`-` operators, which
 * panic on overflow in a debug build ("attempt to add with overflow").
 */
module U16Arith {
  import opened Wrappers

  const U16Max: int := 0xFFFF

  type U16 = x: int | 0 <= x <= U16Max

  /** `u16::saturating_add`: the exact sum when it fits, otherwise the largest `u16`. */
  function SaturatingAdd(a: U16, b: U16): (r: U16)
    ensures a <= r <= a + b
    ensures r < a + b ==> r == U16Max
  {
    if a + b <= U16Max then a + b else U16Max
  }

  /** `u16::saturating_sub`: the exact difference when it is not negative, otherwise 0. */
  function SaturatingSub(a: U16, b: U16): (r: U16)
    ensures a - b <= r <= a
    ensures r > a - b ==> r == 0
  {
    if b <= a then a - b else 0
  }

  /** `a + b` in a debug build: `None` stands for the overflow panic. */
  function CheckedAdd(a: U16, b: U16): (r: Option<U16>)
    ensures r.None? <==> U16Max < a + b
    ensures r.Some? ==> r.value - b == a
  {
    if a + b <= U16Max then Some(a + b) else None
  }

  /** `a - b` in a debug build: `None` stands for the underflow panic. */
  function CheckedSub(a: U16, b: U16): (r: Option<U16>)
    ensures r.None? <==> a < b
    ensures r.Some? ==> r.value + b == a
  {
    if b <= a then Some(a - b) else None
  }
}
