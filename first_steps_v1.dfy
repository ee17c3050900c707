/** `estimate_size` as first written in the Kani tutorial's first steps:
    a size class for a `u32`, with a deliberately planted panic on one
    corner case that random testing is unlikely to hit and Kani finds. */
module EstimateSizeV1 {
  import opened Machine

  const CornerCaseMessage := "Oh no, a failing corner case!"

  /** The size class of `x`; panics on exactly one input, 1023. */
  function EstimateSize(x: u32): (r: Outcome<u32>)
    ensures r.Panics? <==> x == 1023
    ensures r.Panics? ==> r.reason == Explicit(CornerCaseMessage)
    ensures r.Returns? ==> r.value in {1, 3, 5, 7, 9}
  {
    if x < 256 then
      if x < 128 then Returns(1) else Returns(3)
    else if x < 1024 then
      if x > 1022 then Panics(Explicit(CornerCaseMessage)) else Returns(5)
    else
      if x < 2048 then Returns(7) else Returns(9)
  }

  /** The value returned on each band of inputs. */
  lemma EstimateSizeBands(x: u32)
    ensures x < 128 ==> EstimateSize(x) == Returns(1)
    ensures 128 <= x < 256 ==> EstimateSize(x) == Returns(3)
    ensures 256 <= x <= 1022 ==> EstimateSize(x) == Returns(5)
    ensures 1024 <= x < 2048 ==> EstimateSize(x) == Returns(7)
    ensures 2048 <= x ==> EstimateSize(x) == Returns(9)
  {
  }

  /** The unit test `it_works`. */
  lemma ItWorks()
    ensures EstimateSize(1024) == Returns(7)
  {
  }

  /** The harness `check_estimate_size` asks that no `u32` makes the function
      panic; some input does, so the harness cannot succeed. */
  lemma CheckEstimateSizeFails()
    ensures exists x: u32 :: EstimateSize(x).Panics?
  {
    assert EstimateSize(1023).Panics?;
  }

  /** Kani's concrete playback hands the harness its `u32` as four
      little-endian bytes. */
  function FromLittleEndian(bytes: seq<u8>): (x: u32)
    requires |bytes| == 4
    ensures x % 0x100 == bytes[0]
    ensures x / 0x100 % 0x100 == bytes[1]
    ensures x / 0x1_0000 % 0x100 == bytes[2]
    ensures x / 0x100_0000 == bytes[3]
  {
    var high := bytes[2] as int + 0x100 * bytes[3] as int;
    var mid := bytes[1] as int + 0x100 * high;
    ByteSplit(bytes[2], bytes[3]);
    ByteSplit(bytes[1], high);
    ByteSplit(bytes[0], mid);
    assert mid / 0x100 == high;
    bytes[0] as int + 0x100 * mid
  }

  /** The low byte and the rest of `low + 256 * high`. */
  lemma ByteSplit(low: u8, high: nat)
    ensures (low + 0x100 * high) % 0x100 == low
    ensures (low + 0x100 * high) / 0x100 == high
  {
  }

  /** The recorded playback `[255, 3, 0, 0]` is the panicking input 1023. */
  lemma ConcretePlaybackIsCornerCase()
    ensures FromLittleEndian([255, 3, 0, 0]) == 1023
    ensures EstimateSize(FromLittleEndian([255, 3, 0, 0])) == Panics(Explicit(CornerCaseMessage))
  {
  }
}
