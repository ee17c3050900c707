/** The workspace's own copy of the Kani first-steps crate: the same
    `estimate_size` with the planted panic on 1023. */
module EstimateSizeWork {
  import opened Machine
  import EstimateSizeV1

  const CornerCaseMessage := "Oh no, a failing corner case!"

  /** The size class of `x`; panics on exactly one input, 1023. */
  function EstimateSize(x: u32): (r: Outcome<u32>)
    ensures r.Panics? <==> x == 1023
    ensures r.Panics? ==> r.reason == Explicit(CornerCaseMessage)
    ensures r.Returns? ==> r.value in {1, 3, 5, 7, 9}
  {
    if x < 256 then
      if x < 128 then Returns(1) else Returns(3)
    else if x < 1024 then
      if x > 1022 then Panics(Explicit(CornerCaseMessage)) else Returns(5)
    else
      if x < 2048 then Returns(7) else Returns(9)
  }

  /** This copy behaves exactly as the tutorial's first version, so the bands
      proved there hold here. */
  lemma SameAsFirstSteps(x: u32)
    ensures EstimateSize(x) == EstimateSizeV1.EstimateSize(x)
    ensures x < 128 ==> EstimateSize(x) == Returns(1)
    ensures 128 <= x < 256 ==> EstimateSize(x) == Returns(3)
    ensures 256 <= x <= 1022 ==> EstimateSize(x) == Returns(5)
    ensures 1024 <= x < 2048 ==> EstimateSize(x) == Returns(7)
    ensures 2048 <= x ==> EstimateSize(x) == Returns(9)
  {
    EstimateSizeV1.EstimateSizeBands(x);
  }

  /** The unit test `it_works`. */
  lemma ItWorks()
    ensures EstimateSize(1024) == Returns(7)
  {
  }

  /** The unconstrained harness `check_estimate_size` cannot succeed. */
  lemma CheckEstimateSizeFails()
    ensures exists x: u32 :: EstimateSize(x).Panics?
  {
    assert EstimateSize(1023).Panics?;
  }
}
