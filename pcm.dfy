/** 16-bit signed little-endian PCM, the audio format on the wire. */
module Pcm {

  newtype byte = x: int | 0 <= x < 256

  const MinSample: int := -32768
  const MaxSample: int := 32767

  /** `int.from_bytes(data[i:i+2], byteorder='little', signed=True)`: the
      two's-complement value of the 16-bit word whose low byte is `data[i]`. */
  function SampleAt(data: seq<byte>, i: nat): (v: int)
    requires i + 2 <= |data|
    ensures MinSample <= v <= MaxSample
    ensures (v - (data[i] as int + 256 * data[i + 1] as int)) % 65536 == 0
  {
    var raw := data[i] as int + 256 * data[i + 1] as int;
    if raw >= 32768 then raw - 65536 else raw
  }

  /** `np.frombuffer(data, dtype=np.int16)` for a buffer of even length. */
  function Samples(data: seq<byte>): (s: seq<int>)
    requires |data| % 2 == 0
    ensures |s| == |data| / 2
    ensures forall k :: 0 <= k < |s| ==> s[k] == SampleAt(data, 2 * k)
  {
    if data == [] then [] else [SampleAt(data, 0)] + Samples(data[2..])
  }

}
