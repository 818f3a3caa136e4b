/**
 * The activity detector inside `SocketStream.read` (server.py:309-331): a
 * root-mean-square estimate over every tenth 16-bit sample of a received
 * chunk, compared with a fixed threshold. The square root and the float
 * division are replaced by the equivalent comparison over the integers.
 */
module Activity {

  import opened Pcm

  /** Byte offset between two sampled 16-bit values (every tenth sample). */
  const Stride: nat := 20
  /** RMS above which a client counts as speaking. */
  const Threshold: nat := 150

  /** Squared samples at offsets `i`, `i + 20`, ... below `|data|`, skipping an
      offset with fewer than two bytes after it. */
  function SumSquares(data: seq<byte>, i: nat): nat
    decreases |data| - i
  {
    if i >= |data| then 0
    else (if i + 2 <= |data| then SampleAt(data, i) * SampleAt(data, i) else 0) + SumSquares(data, i + Stride)
  }

  /** How many offsets `SumSquares` samples from `i` on. */
  function Sampled(n: nat, i: nat): nat
    decreases n - i
  {
    if i >= n then 0 else (if i + 2 <= n then 1 else 0) + Sampled(n, i + Stride)
  }

  /** `sqrt(sum_squares / (count / 10)) > 150` with `count = len // 2 > 0`,
      stated over the integers as `10 * sum_squares > 150 * 150 * count`. */
  predicate IsActive(data: seq<byte>)
    requires |data| >= 2
  {
    10 * SumSquares(data, 0) > Threshold * Threshold * (|data| / 2)
  }

  /** The sampling loop: `for i in range(0, len(data), 20)`. */
  method SumOfSquares(data: seq<byte>) returns (sum: nat)
    ensures sum == SumSquares(data, 0)
  {
    sum := 0;
    var i := 0;
    while i < |data|
      invariant sum + SumSquares(data, i) == SumSquares(data, 0)
      decreases |data| - i
    {
      if i + 2 <= |data| {
        var sample := SampleAt(data, i);
        sum := sum + sample * sample;
      }
      i := i + Stride;
    }
  }

  /** A chunk of silence (all bytes zero) never counts as activity. */
  lemma SilenceIsInactive(data: seq<byte>)
    requires |data| >= 2
    requires forall k :: 0 <= k < |data| ==> data[k] == 0
    ensures !IsActive(data)
  {
    SilentSum(data, 0);
  }

  lemma {:induction false} SilentSum(data: seq<byte>, i: nat)
    requires forall k :: 0 <= k < |data| ==> data[k] == 0
    ensures SumSquares(data, i) == 0
    decreases |data| - i
  {
    if i < |data| {
      SilentSum(data, i + Stride);
    }
  }

  /** A chunk in which every sampled value is louder than the threshold
      (a full-scale tone, say) always counts as activity, even though only
      one sample in ten is looked at. */
  lemma LoudIsActive(data: seq<byte>)
    requires |data| >= 2
    requires forall i :: 0 <= i && i % 20 == 0 && i + 2 <= |data| ==>
      SampleAt(data, i) * SampleAt(data, i) > Threshold * Threshold
    ensures IsActive(data)
  {
    LoudSum(data, 0);
    SampledCount(|data|, 0);
    var n := |data|;
    var q := (n - 2) / 20;
    assert Sampled(n, 0) == q + 1;
    assert 10 * (q + 1) >= n / 2;
  }

  lemma {:induction false} LoudSum(data: seq<byte>, i: nat)
    requires i % 20 == 0
    requires forall j :: 0 <= j && j % 20 == 0 && j + 2 <= |data| ==>
      SampleAt(data, j) * SampleAt(data, j) > Threshold * Threshold
    ensures SumSquares(data, i) >= (Threshold * Threshold + 1) * Sampled(|data|, i)
    decreases |data| - i
  {
    if i < |data| {
      LoudSum(data, i + Stride);
    }
  }

  /** From an offset that is sampled, the number of sampled offsets is
      `(n - 2 - i) / 20 + 1`. */
  lemma {:induction false} SampledCount(n: nat, i: nat)
    requires i + 2 <= n
    ensures Sampled(n, i) == (n - 2 - i) / 20 + 1
    decreases n - i
  {
    if i + 22 <= n {
      SampledCount(n, i + Stride);
    } else if i + 20 < n {
      assert Sampled(n, i + 40) == 0;
    }
  }

}
