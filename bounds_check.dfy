/** `get_wrapped` from the Kani tutorial's kinds-of-failure chapter: read a
    slice at an index taken modulo its length. */
module BoundsCheck {
  import opened Machine

  /** The element at `i` wrapped around `a`, or 0 for an empty slice. The
      index `i % |a|` is in bounds, so no input makes it panic. */
  function GetWrapped(i: usize, a: seq<u32>): (r: u32)
    ensures |a| == 0 ==> r == 0
    ensures |a| > 0 ==> r in a
  {
    if |a| == 0 then 0 else a[i % |a|]
  }

  /** The commented `get_unchecked` variant. An unchecked read out of bounds
      is undefined behaviour, written `None`; in bounds it is `Some` of the
      element. */
  function GetWrappedUnchecked(i: usize, a: seq<u32>): (r: Option<u32>)
    ensures |a| == 0 ==> r == Some(0)
    ensures r.None? <==> |a| > 0 && i % |a| >= |a|
    ensures r.Some? ==> |a| == 0 || r.value in a
  {
    if |a| == 0 then Some(0)
    else var k := i % |a|; if k < |a| then Some(a[k]) else None
  }

  /** The early return leaves only nonempty slices, so the unchecked read is
      always in bounds and returns what the checked read returns. */
  lemma UncheckedIsDefined(i: usize, a: seq<u32>)
    ensures GetWrappedUnchecked(i, a) == Some(GetWrapped(i, a))
  {
  }

  /** On an index already in bounds, wrapping changes nothing. */
  lemma GetWrappedInBounds(i: usize, a: seq<u32>)
    requires i < |a|
    ensures GetWrapped(i, a) == a[i]
  {
  }

  /** Advancing the index by the length reads the same element. */
  lemma {:induction false} GetWrappedPeriodic(i: usize, a: seq<u32>)
    requires |a| > 0 && i + |a| < 0x1_0000_0000_0000_0000
    ensures GetWrapped(i + |a|, a) == GetWrapped(i, a)
  {
    var n := |a|;
    var q, r := i / n, i % n;
    assert i + n == (q + 1) * n + r;
    ModUnique(i + n, n, q + 1, r);
  }

  /** Euclidean division has one quotient and remainder. */
  lemma ModUnique(x: nat, n: nat, q: nat, r: nat)
    requires 0 <= r < n && x == q * n + r
    ensures x % n == r
  {
    var q', r' := x / n, x % n;
    var d := q - q';
    assert d * n == r' - r by {
      assert x == q' * n + r';
      assert q * n - q' * n == (q - q') * n;
    }
    if d > 0 {
      MulAtLeast(d, n);
    } else if d < 0 {
      MulAtLeast(-d, n);
    }
  }

  lemma MulAtLeast(d: nat, n: nat)
    requires d >= 1
    ensures d * n >= n
  {
    assert d * n == n + (d - 1) * n;
  }

  /** The commented-out variant `a[i % a.len() + 1]`, with the bounds check
      Rust performs on it. */
  function GetWrappedOffByOne(i: usize, a: seq<u32>): (r: Outcome<u32>)
    ensures r.Panics? <==> |a| > 0 && i % |a| == |a| - 1
    ensures r.Panics? ==> r.reason == IndexOutOfBounds(|a|, |a|)
    ensures r.Returns? && |a| > 0 ==> r.value in a
  {
    if |a| == 0 then Returns(0)
    else
      var j := i % |a| + 1;
      if j < |a| then Returns(a[j]) else Panics(IndexOutOfBounds(|a|, j))
  }

  function Zeros(size: nat): (v: seq<u32>)
    ensures |v| == size && forall k :: 0 <= k < size ==> v[k] == 0
  {
    seq(size, _ => 0)
  }

  /** The harness `bound_check` calls `get_wrapped` on `vec![0; size]` for
      any `size < 4096` and any index; the call returns, and returns 0. */
  lemma BoundCheck(size: usize, index: usize)
    requires size < 4096
    ensures GetWrapped(index, Zeros(size)) == 0
  {
  }

  /** With the off-by-one variant the same harness fails: already a
      one-element vector read at index 0 is out of bounds. */
  lemma BoundCheckFailsOffByOne()
    ensures exists size: usize, index: usize ::
      size < 4096 && GetWrappedOffByOne(index, Zeros(size)).Panics?
  {
    assert GetWrappedOffByOne(0, Zeros(1)).Panics?;
  }
}
