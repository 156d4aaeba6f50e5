/**
 * The effect of `memset(buf, 0, n)` on a buffer of floats, byte by byte.
 *
 * Floats occupy four bytes each and are laid out little-endian, so the
 * first byte of a float in memory is its lowest eight bits.
 */
module ByteClear {
  import opened SensorTable

  /** sizeof(float). */
  const FloatBytes: nat := 4

  /** sizeof(float[3]): what clearing a whole `gyr` or `acc` field takes. */
  const Vec3Bytes: nat := 3 * FloatBytes

  /** The byte count the constructor passes to memset for `gyr` and `acc`. */
  const ClearedBytesAsWritten: nat := 3

  /** The bits of a float that survive when its lowest `cleared` bytes are zeroed. */
  function KeptBits(cleared: nat): bv32
    requires 0 < cleared < FloatBytes
  {
    if cleared == 1 then 0xFFFF_FF00
    else if cleared == 2 then 0xFFFF_0000
    else 0xFF00_0000
  }

  /** The buffer after zeroing its first `count` bytes. */
  function Memset(buf: seq<Float>, count: nat): (r: seq<Float>)
    ensures |r| == |buf|
    ensures forall j :: 0 <= j < |buf| && FloatBytes * (j + 1) <= count ==> r[j] == 0
    ensures forall j :: 0 <= j < |buf| && count <= FloatBytes * j ==> r[j] == buf[j]
  {
    seq(|buf|, j requires 0 <= j < |buf| =>
      if FloatBytes * (j + 1) <= count then 0
      else if count <= FloatBytes * j then buf[j]
      else buf[j] & KeptBits(count - FloatBytes * j))
  }

  /** Clearing `gyr` or `acc` as the constructor is written: three bytes.
      Only the lowest three bytes of the first component are zeroed: its
      top byte and the other two components keep whatever the memory held. */
  function ClearVec3AsWritten(buf: Vec3): (r: Vec3)
    ensures r == [buf[0] & 0xFF00_0000, buf[1], buf[2]]
  {
    Memset(buf, ClearedBytesAsWritten)
  }

  /** The clear as written gives the intended zeros exactly when the bytes
      it misses were zero already. */
  lemma AsWrittenMissesIntent(buf: Vec3)
    ensures ClearVec3AsWritten(buf) == ClearVec3(buf) <==>
      buf[0] & 0xFF00_0000 == 0 && buf[1] == 0 && buf[2] == 0
  {
  }

  /** A field holding 2.0f (bit pattern 0x4000_0000) in every component
      still holds 2.0f in every component after the constructor's memset. */
  lemma AsWrittenLeavesTwos()
    ensures var two: Float := 0x4000_0000;
      ClearVec3AsWritten([two, two, two]) == [two, two, two]
  {
  }

  /** Clearing `gyr` or `acc` with sizeof(float[3]) bytes, as intended. */
  function ClearVec3(buf: Vec3): (r: Vec3)
    ensures r == [0, 0, 0]
  {
    Memset(buf, Vec3Bytes)
  }
}
