/** `estimate_size` after the first-steps fix: the corner case 1023 now
    returns 4, and the function asserts that its input is below 4096. */
module EstimateSizeV2 {
  import opened Machine
  import EstimateSizeV1

  const InputBound := "x < 4096"

  /** The size class of `x`; the opening `assert!` fails exactly when
      `x >= 4096`. */
  function EstimateSize(x: u32): (r: Outcome<u32>)
    ensures r.Panics? <==> x >= 4096
    ensures r.Panics? ==> r.reason == AssertionFailed(InputBound)
    ensures r.Returns? ==> r.value in {1, 3, 4, 5, 7, 9}
  {
    if !(x < 4096) then Panics(AssertionFailed(InputBound))
    else if x < 256 then
      if x < 128 then Returns(1) else Returns(3)
    else if x < 1024 then
      if x > 1022 then Returns(4) else Returns(5)
    else
      if x < 2048 then Returns(7) else Returns(9)
  }

  /** The value returned on each band of admitted inputs. */
  lemma EstimateSizeBands(x: u32)
    ensures x < 128 ==> EstimateSize(x) == Returns(1)
    ensures 128 <= x < 256 ==> EstimateSize(x) == Returns(3)
    ensures 256 <= x <= 1022 ==> EstimateSize(x) == Returns(5)
    ensures x == 1023 ==> EstimateSize(x) == Returns(4)
    ensures 1024 <= x < 2048 ==> EstimateSize(x) == Returns(7)
    ensures 2048 <= x < 4096 ==> EstimateSize(x) == Returns(9)
  {
  }

  /** The unit test `it_works`. */
  lemma ItWorks()
    ensures EstimateSize(1024) == Returns(7)
  {
  }

  /** The harness `verify_success`: under `kani::assume(x < 4096)` the call
      returns, and what it returns is below 10. The proptest `doesnt_crash`
      draws from `0..4095`, a subset of these inputs. */
  lemma VerifySuccess(x: u32)
    requires x < 4096
    ensures EstimateSize(x).Returns? && EstimateSize(x).value < 10
  {
  }

  /** The harness `will_fail` leaves `x` unconstrained, so the assertion can
      fail. */
  lemma WillFail()
    ensures exists x: u32 :: EstimateSize(x).Panics?
  {
    assert EstimateSize(4096).Panics?;
  }

  /** The fix changes only the corner case: below 4096 the two versions agree
      everywhere except at 1023, where the first panics and this one returns 4. */
  lemma AgreesWithFirstVersion(x: u32)
    requires x < 4096
    ensures x != 1023 ==> EstimateSize(x) == EstimateSizeV1.EstimateSize(x)
    ensures x == 1023 ==> EstimateSizeV1.EstimateSize(x).Panics? && EstimateSize(x) == Returns(4)
  {
  }
}
