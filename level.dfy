/**
 * The microphone level the client shows while streaming (client.py:127-131):
 * the loudest sample of a frame, `np.max(np.abs(audio_data))`, scaled by
 * full scale and capped at 1. Levels are kept as the numerator over
 * `FullScale`, so the float division is not modelled.
 */
module Level {

  import opened Pcm

  /** `32768.0`, the divisor of the level. */
  const FullScale: int := 32768

  predicate InRange(samples: seq<int>) {
    forall k :: 0 <= k < |samples| ==> MinSample <= samples[k] <= MaxSample
  }

  /** `np.abs` on an `int16` element: the result is again an `int16`, so the
      magnitude of -32768 wraps round to -32768 itself. */
  function Abs16(v: int): (r: int)
    requires MinSample <= v <= MaxSample
    ensures MinSample <= r <= MaxSample
    ensures (r - (if v < 0 then -v else v)) % 65536 == 0
    ensures r >= 0 <==> v != MinSample
  {
    if v == MinSample then MinSample else if v < 0 then -v else v
  }

  /** The magnitude of a sample as a mathematical integer. */
  function Magnitude(v: int): nat {
    if v < 0 then -v else v
  }

  /** `np.max(np.abs(audio_data))` as written: the largest wrapped
      magnitude. `np.max` of an empty array raises, so a frame has at least
      one sample. */
  function PeakAsWritten(samples: seq<int>): (r: int)
    requires |samples| > 0 && InRange(samples)
    ensures forall k :: 0 <= k < |samples| ==> Abs16(samples[k]) <= r
    ensures exists k :: 0 <= k < |samples| && r == Abs16(samples[k])
  {
    if |samples| == 1 then Abs16(samples[0])
    else
      var rest := PeakAsWritten(samples[1..]);
      assert forall k :: 1 <= k < |samples| ==> samples[k] == samples[1..][k - 1];
      if Abs16(samples[0]) >= rest then Abs16(samples[0]) else rest
  }

  /** The loudest sample, with no wrap-around: it is one of the samples'
      magnitudes, at least each of them, and never above full scale. */
  function Peak(samples: seq<int>): (r: nat)
    requires |samples| > 0 && InRange(samples)
    ensures r <= FullScale
    ensures forall k :: 0 <= k < |samples| ==> Magnitude(samples[k]) <= r
    ensures exists k :: 0 <= k < |samples| && r == Magnitude(samples[k])
  {
    if |samples| == 1 then Magnitude(samples[0])
    else
      var rest := Peak(samples[1..]);
      assert forall k :: 1 <= k < |samples| ==> samples[k] == samples[1..][k - 1];
      if Magnitude(samples[0]) >= rest then Magnitude(samples[0]) else rest
  }

  /** `min(1.0, peak / 32768.0)`, as its numerator over `FullScale`. */
  function LevelNumerator(peak: int): (r: int)
    ensures r <= FullScale
    ensures peak <= FullScale ==> r == peak
  {
    if peak < FullScale then peak else FullScale
  }

  /** The level of a frame, with the corrected peak: it lies in [0, 1] and
      is the loudest sample's magnitude over full scale. */
  function LevelOf(samples: seq<int>): (r: nat)
    requires |samples| > 0 && InRange(samples)
    ensures r <= FullScale
    ensures forall k :: 0 <= k < |samples| ==> Magnitude(samples[k]) <= r
    ensures exists k :: 0 <= k < |samples| && r == Magnitude(samples[k])
  {
    LevelNumerator(Peak(samples))
  }

  /** The two peaks agree on every frame without a -32768 sample. */
  lemma {:induction false} PeakAgrees(samples: seq<int>)
    requires |samples| > 0 && InRange(samples)
    requires forall k :: 0 <= k < |samples| ==> samples[k] != MinSample
    ensures PeakAsWritten(samples) == Peak(samples)
  {
    if |samples| > 1 {
      assert forall k :: 1 <= k < |samples| ==> samples[k] == samples[1..][k - 1];
      PeakAgrees(samples[1..]);
    }
  }

  /** A frame holding the single sample -32768 (bytes 0x00 0x80) has a
      wrapped peak of -32768, so the level shown is -1.0 instead of 1.0. */
  lemma NegativeLevelAsWritten()
    ensures Samples([0x00, 0x80]) == [MinSample]
    ensures PeakAsWritten([MinSample]) == MinSample
    ensures LevelNumerator(PeakAsWritten([MinSample])) == -FullScale
    ensures LevelNumerator(Peak([MinSample])) == FullScale
  {
    var data: seq<byte> := [0x00, 0x80];
    assert data[2..] == [];
    assert SampleAt(data, 0) == MinSample;
  }

  /** A -32768 sample next to a quiet one is ignored: the frame
      `[-32768, 5]` reads as peak 5 instead of 32768. */
  lemma QuietPeakAsWritten()
    ensures PeakAsWritten([MinSample, 5]) == 5
    ensures Peak([MinSample, 5]) == FullScale
  {
    assert [MinSample, 5][1..] == [5];
  }

}
