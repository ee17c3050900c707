/** `initialize_prefix` from the Kani tutorial's loops-unwinding chapter:
    zero a prefix of a byte buffer in place. Its loop runs over the inclusive
    range `0..=length`, one index too far when `length` is the buffer's
    length. */
module LoopsUnwinding {
  import opened Machine

  /** The buffer after the first `n` iterations of the loop, each of which
      writes 0 at its own index. */
  function ZeroPrefix(s: seq<u8>, n: nat): (r: seq<u8>)
    requires n <= |s|
    ensures |r| == |s|
  {
    if n == 0 then s else ZeroPrefix(s, n - 1)[n - 1 := 0]
  }

  /** After `n` iterations the first `n` bytes are 0 and the rest are as
      before. */
  lemma {:induction false} ZeroPrefixAt(s: seq<u8>, n: nat)
    requires n <= |s|
    ensures forall k :: 0 <= k < n ==> ZeroPrefix(s, n)[k] == 0
    ensures forall k :: n <= k < |s| ==> ZeroPrefix(s, n)[k] == s[k]
  {
    if n > 0 {
      ZeroPrefixAt(s, n - 1);
    }
  }

  /** Zeroes `buffer[0..=length]`. A `length` beyond the buffer returns at
      once; a `length` equal to the buffer's length zeroes the whole buffer
      and then panics on the write to `buffer[length]`. */
  method InitializePrefix(length: usize, buffer: array<u8>) returns (r: Outcome<()>)
    modifies buffer
    ensures length > buffer.Length ==> r == Returns(()) && buffer[..] == old(buffer[..])
    ensures length < buffer.Length ==>
      r == Returns(()) && buffer[..] == ZeroPrefix(old(buffer[..]), length + 1)
    ensures length == buffer.Length ==>
      r == Panics(IndexOutOfBounds(buffer.Length, length))
      && buffer[..] == ZeroPrefix(old(buffer[..]), length)
  {
    if length > buffer.Length {
      return Returns(());
    }
    for i := 0 to length + 1
      invariant i <= buffer.Length
      invariant buffer[..] == ZeroPrefix(old(buffer[..]), i)
    {
      if i >= buffer.Length {
        return Panics(IndexOutOfBounds(buffer.Length, i));
      }
      buffer[i] := 0;
    }
    return Returns(());
  }

  const Limit := 10

  /** The harness `check_initialize_prefix`: a buffer of `Limit` ones and any
      `length <= Limit`. The call panics exactly for `length == Limit`; on
      every other length it zeroes `length + 1` bytes and keeps the rest. */
  method CheckInitializePrefix(length: usize) returns (r: Outcome<()>, contents: seq<u8>)
    requires length <= Limit
    ensures r.Panics? <==> length == Limit
    ensures |contents| == Limit
    ensures forall k :: 0 <= k < Limit ==> contents[k] == if k <= length then 0 else 1
  {
    var buffer := new u8[Limit](_ => 1);
    ghost var initial := buffer[..];
    assert forall k :: 0 <= k < Limit ==> initial[k] == 1;
    r := InitializePrefix(length, buffer);
    contents := buffer[..];
    ZeroPrefixAt(initial, if length < Limit then length + 1 else length);
  }
}
