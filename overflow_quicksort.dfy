/** `find_midpoint` from the Kani tutorial's kinds-of-failure chapter: the
    classic quicksort midpoint `(low + high) / 2` on `u32`. */
module OverflowQuicksort {
  import opened Machine

  /** The midpoint of `low` and `high`; the addition panics when the sum does
      not fit in a `u32`. */
  function FindMidpoint(low: u32, high: u32): (r: Outcome<u32>)
    ensures r.Returns? <==> low + high <= U32_MAX
    ensures r.Returns? ==> 2 * r.value <= low + high <= 2 * r.value + 1
    ensures r.Panics? ==> r.reason == AddOverflow
  {
    if low + high <= U32_MAX then Returns((low + high) / 2) else Panics(AddOverflow)
  }

  /** When it returns on an ordered pair, the midpoint lies between them. */
  lemma MidpointBetween(low: u32, high: u32)
    requires low <= high && low + high <= U32_MAX
    ensures FindMidpoint(low, high).Returns?
    ensures low <= FindMidpoint(low, high).value <= high
  {
  }

  /** The unconstrained harness `midpoint_overflow` fails: two indices of
      2^31 already overflow. */
  lemma MidpointOverflowFails()
    ensures FindMidpoint(0x8000_0000, 0x8000_0000) == Panics(AddOverflow)
    ensures exists low: u32, high: u32 :: FindMidpoint(low, high).Panics?
  {
    assert FindMidpoint(0x8000_0000, 0x8000_0000).Panics?;
  }
}
