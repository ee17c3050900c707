/** `simple_addition` from the Kani tutorial's kinds-of-failure chapter: a
    `u32` addition that panics on overflow, and the commented `checked_add`
    fix that reports the overflow instead. */
module Overflow {
  import opened Machine

  /** `a + b` on `u32`, with Rust's overflow check. */
  function SimpleAddition(a: u32, b: u32): (r: Outcome<u32>)
    ensures r.Returns? <==> a + b <= U32_MAX
    ensures r.Returns? ==> r.value == a + b
    ensures r.Panics? ==> r.reason == AddOverflow
  {
    if a + b <= U32_MAX then Returns(a + b) else Panics(AddOverflow)
  }

  /** The fix `a.checked_add(b)`: the sum when it fits, `None` otherwise. */
  function CheckedAdd(a: u32, b: u32): (r: Option<u32>)
    ensures r.Some? ==> r.value == a + b
    ensures r.None? ==> a + b > U32_MAX
  {
    if a + b <= U32_MAX then Some(a + b) else None
  }

  /** The fix returns a value on exactly the inputs where the original
      returns, the same value, and `None` where the original panics. */
  lemma CheckedAddReportsOverflow(a: u32, b: u32)
    ensures CheckedAdd(a, b).Some? <==> SimpleAddition(a, b).Returns?
    ensures CheckedAdd(a, b).Some? ==> CheckedAdd(a, b).value == SimpleAddition(a, b).value
  {
  }

  /** The unconstrained proptest `doesnt_crash` and Kani harness
      `add_overflow` cannot succeed: the largest `u32` plus one overflows. */
  lemma AddOverflowFails()
    ensures SimpleAddition(U32_MAX, 1) == Panics(AddOverflow)
    ensures exists a: u32, b: u32 :: SimpleAddition(a, b).Panics?
  {
    assert SimpleAddition(U32_MAX, 1).Panics?;
  }
}
