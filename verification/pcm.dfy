/**
 * Decoding of the speech payload (src/App.tsx:97-105): the bytes of the base64-decoded
 * string are copied into a byte buffer, then read two at a time as little-endian signed
 * 16-bit integers and scaled by 1/32768 into the mono channel of a 24000 Hz buffer.
 */
module Pcm {

  newtype byte = x: int | 0 <= x < 256

  const SampleRate: nat := 24000
  const FullScale: real := 32768.0

  /** `DataView.getInt16(offset, true)` on the pair (lo, hi): two's complement of lo + 256 * hi. */
  function Int16LE(lo: byte, hi: byte): (v: int)
    ensures -32768 <= v < 32768
    ensures (lo as int + 256 * hi as int - v) % 65536 == 0
  {
    var u := lo as int + 256 * hi as int;
    if u >= 32768 then u - 65536 else u
  }

  /** The little-endian byte pair that stores a 16-bit signed value: the inverse of `Int16LE`. */
  function EncodeInt16LE(v: int): (pair: (byte, byte))
    requires -32768 <= v < 32768
  {
    var u := if v < 0 then v + 65536 else v;
    ((u % 256) as byte, (u / 256) as byte)
  }

  /** Encoding a 16-bit value and reading it back gives the value. */
  lemma Int16RoundTrip(v: int)
    requires -32768 <= v < 32768
    ensures var (lo, hi) := EncodeInt16LE(v); Int16LE(lo, hi) == v
  {
  }

  /** Every byte pair is the encoding of the value read from it, so reading loses nothing. */
  lemma BytesRoundTrip(lo: byte, hi: byte)
    ensures EncodeInt16LE(Int16LE(lo, hi)) == (lo, hi)
  {
  }

  /** Sample `i` of the channel: the i-th byte pair read as int16 and divided by 32768. */
  function Sample(bytes: seq<byte>, i: nat): (x: real)
    requires 2 * i + 1 < |bytes|
    ensures -1.0 <= x < 1.0
    ensures x * FullScale == Int16LE(bytes[2 * i], bytes[2 * i + 1]) as real
  {
    Int16LE(bytes[2 * i], bytes[2 * i + 1]) as real / FullScale
  }

  /** The whole channel decoded from an even number of bytes. */
  function Decoded(bytes: seq<byte>): (samples: seq<real>)
    requires |bytes| % 2 == 0
    ensures |samples| == |bytes| / 2
    ensures forall i :: 0 <= i < |samples| ==> samples[i] == Sample(bytes, i)
    ensures forall i :: 0 <= i < |samples| ==> -1.0 <= samples[i] < 1.0
  {
    seq(|bytes| / 2, i requires 0 <= i < |bytes| / 2 => Sample(bytes, i))
  }

  /**
   * The two loops of the decoder: copy the char codes into a `Uint8Array`, then fill a
   * channel of `len / 2` samples from it.
   */
  method DecodePcm(binary: seq<byte>) returns (channel: array<real>)
    requires |binary| % 2 == 0
    ensures channel.Length == |binary| / 2
    ensures channel[..] == Decoded(binary)
  {
    var len := |binary|;
    var bytes := new byte[len];
    for i := 0 to len
      invariant bytes[..i] == binary[..i]
    {
      bytes[i] := binary[i];
    }
    assert bytes[..] == binary;
    channel := new real[len / 2];
    for i := 0 to len / 2
      invariant bytes[..] == binary
      invariant forall j :: 0 <= j < i ==> channel[j] == Sample(binary, j)
    {
      channel[i] := Int16LE(bytes[i * 2], bytes[i * 2 + 1]) as real / FullScale;
    }
  }

  /** Silence and the most negative sample: [0x00, 0x00, 0x00, 0x80] decodes to [0.0, -1.0]. */
  lemma DecodedExample()
    ensures Decoded([0x00, 0x00, 0x00, 0x80]) == [0.0, -1.0]
  {
    var b: seq<byte> := [0x00, 0x00, 0x00, 0x80];
    assert Sample(b, 0) == 0.0;
    assert Int16LE(0x00, 0x80) == -32768;
    assert Sample(b, 1) == -1.0;
  }

  /** Decoding is injective: different payloads of the same length give different channels. */
  lemma DecodedInjective(a: seq<byte>, b: seq<byte>)
    requires |a| % 2 == 0 && |a| == |b|
    requires Decoded(a) == Decoded(b)
    ensures a == b
  {
    forall k | 0 <= k < |a|
      ensures a[k] == b[k]
    {
      var i := k / 2;
      assert Decoded(a)[i] == Decoded(b)[i];
      assert Int16LE(a[2 * i], a[2 * i + 1]) == Int16LE(b[2 * i], b[2 * i + 1]);
      BytesRoundTrip(a[2 * i], a[2 * i + 1]);
      BytesRoundTrip(b[2 * i], b[2 * i + 1]);
    }
  }
}
