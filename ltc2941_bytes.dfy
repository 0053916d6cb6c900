/** How the driver moves 16-bit words over the byte-wide bus: most
    significant byte first, at the lower register address. */
module Ltc2941Bytes {
  import opened Ltc2941Header

  // On unsigned values `v >> 8` is v / 0x100,
  // `v & 0xff` is v % 0x100, and `lsb | (msb << 8)` is msb * 0x100 + lsb.

  /** The byte sent first (to the lower address) when a word is written. */
  function HighByte(v: UInt16): UInt8 {
    v / 0x100
  }

  /** The byte sent second (to the higher address) when a word is written. */
  function LowByte(v: UInt16): UInt8 {
    v % 0x100
  }

  /** The word the driver reassembles from the two bytes it reads. */
  function JoinBytes(msb: UInt8, lsb: UInt8): UInt16 {
    lsb + msb * 0x100
  }

  /** Joining two bytes and splitting the word gives the two bytes back. */
  lemma JoinThenSplit(msb: UInt8, lsb: UInt8)
    ensures HighByte(JoinBytes(msb, lsb)) == msb && LowByte(JoinBytes(msb, lsb)) == lsb
  {
  }

  /** Splitting a word into its two bytes and joining them gives the word back. */
  lemma SplitThenJoin(v: UInt16)
    ensures JoinBytes(HighByte(v), LowByte(v)) == v
  {
  }

  /** The register file after storing word v at MSB address reg. */
  function WithWord(s: seq<UInt8>, reg: nat, v: UInt16): (t: seq<UInt8>)
    requires reg + 1 < |s|
    ensures |t| == |s|
    ensures JoinBytes(t[reg], t[reg + 1]) == v
    ensures forall a :: 0 <= a < |s| && a != reg && a != reg + 1 ==> t[a] == s[a]
  {
    SplitThenJoin(v);
    s[reg := HighByte(v)][reg + 1 := LowByte(v)]
  }
}
