/**
 * Bytes, 16-bit samples and the little-endian layouts that the audio code
 * writes: an `Int16Array` viewed as bytes, `DataView.setUint16/32(…, true)`,
 * and the single-byte character codes of `DataView.setUint8(charCodeAt)`.
 *
 * The byte order of an `Int16Array` is the platform's; it is taken to be
 * little-endian, as on every platform the extension runs on.
 */
module Pcm {

  newtype byte = x: int | 0 <= x < 0x100
  newtype int16 = x: int | -0x8000 <= x < 0x8000

  /** The two bytes of a sample, low byte first, in two's complement. */
  function Int16Bytes(s: int16): (r: seq<byte>)
    ensures |r| == 2
  {
    var u := if s < 0 then s as int + 0x10000 else s as int;
    [(u % 0x100) as byte, (u / 0x100) as byte]
  }

  function Int16FromBytes(lo: byte, hi: byte): int16
  {
    var u := hi as int * 0x100 + lo as int;
    (if u >= 0x8000 then u - 0x10000 else u) as int16
  }

  lemma Int16RoundTrip(s: int16)
    ensures Int16FromBytes(Int16Bytes(s)[0], Int16Bytes(s)[1]) == s
  {
  }

  /** The bytes of `new Uint8Array(samples.buffer)`: each sample's two bytes, in sample order. */
  function SamplesBytes(xs: seq<int16>): (r: seq<byte>)
    ensures |r| == 2 * |xs|
  {
    if |xs| == 0 then [] else Int16Bytes(xs[0]) + SamplesBytes(xs[1..])
  }

  /** The samples a byte buffer of even length holds, two bytes each, low byte first. */
  function DecodeSamples(bs: seq<byte>): (xs: seq<int16>)
    requires |bs| % 2 == 0
    ensures |xs| == |bs| / 2
  {
    if |bs| == 0 then [] else [Int16FromBytes(bs[0], bs[1])] + DecodeSamples(bs[2..])
  }

  /** Decoding the bytes of some samples gives the same samples back. */
  lemma {:induction false} DecodeSamplesBytes(xs: seq<int16>)
    ensures DecodeSamples(SamplesBytes(xs)) == xs
  {
    if |xs| > 0 {
      var bs := SamplesBytes(xs);
      assert bs[2..] == SamplesBytes(xs[1..]);
      DecodeSamplesBytes(xs[1..]);
      Int16RoundTrip(xs[0]);
      assert [xs[0]] + xs[1..] == xs;
    }
  }

  /** Samples laid end to end have their bytes laid end to end. */
  lemma {:induction false} SamplesBytesAppend(xs: seq<int16>, ys: seq<int16>)
    ensures SamplesBytes(xs + ys) == SamplesBytes(xs) + SamplesBytes(ys)
  {
    if |xs| == 0 {
      assert xs + ys == ys;
    } else {
      assert (xs + ys)[1..] == xs[1..] + ys;
      SamplesBytesAppend(xs[1..], ys);
    }
  }

  /** One more sample appends its two bytes. */
  lemma SamplesBytesSnoc(xs: seq<int16>, s: int16)
    ensures SamplesBytes(xs + [s]) == SamplesBytes(xs) + Int16Bytes(s)
  {
    SamplesBytesAppend(xs, [s]);
    assert SamplesBytes([s]) == Int16Bytes(s) + SamplesBytes([]);
  }

  /** `setUint32(offset, v, true)`: the value is taken modulo 2^32 (`ToUint32`), low byte first. */
  function U32Le(v: int): (r: seq<byte>)
    ensures |r| == 4
  {
    var u0 := v % 0x1_0000_0000;
    var u1 := u0 / 0x100;
    var u2 := u1 / 0x100;
    [(u0 % 0x100) as byte, (u1 % 0x100) as byte, (u2 % 0x100) as byte, (u2 / 0x100) as byte]
  }

  /** `setUint16(offset, v, true)`: modulo 2^16, low byte first. */
  function U16Le(v: int): (r: seq<byte>)
    ensures |r| == 2
  {
    var u := v % 0x1_0000;
    [(u % 0x100) as byte, (u / 0x100) as byte]
  }

  function DecodeU32(b: seq<byte>): nat
    requires |b| == 4
  {
    b[0] as nat + 0x100 * (b[1] as nat + 0x100 * (b[2] as nat + 0x100 * b[3] as nat))
  }

  function DecodeU16(b: seq<byte>): nat
    requires |b| == 2
  {
    b[0] as nat + 0x100 * b[1] as nat
  }

  /** Reading back a 32-bit field gives the value written, modulo 2^32. */
  lemma U32RoundTrip(v: int)
    ensures DecodeU32(U32Le(v)) == v % 0x1_0000_0000
  {
    var u0 := v % 0x1_0000_0000;
    var u1 := u0 / 0x100;
    var u2 := u1 / 0x100;
    assert u0 == u0 % 0x100 + 0x100 * u1;
    assert u1 == u1 % 0x100 + 0x100 * u2;
    assert u2 == u2 % 0x100 + 0x100 * (u2 / 0x100);
  }

  lemma U16RoundTrip(v: int)
    ensures DecodeU16(U16Le(v)) == v % 0x1_0000
  {
  }

  /** The byte `setUint8(i, s.charCodeAt(i))` stores: the character code modulo 256. */
  function CharByte(c: char): byte
  {
    (c as int % 0x100) as byte
  }

  function Ascii(s: string): (r: seq<byte>)
    ensures |r| == |s|
    ensures forall i :: 0 <= i < |s| ==> r[i] == CharByte(s[i])
  {
    seq(|s|, i requires 0 <= i < |s| => CharByte(s[i]))
  }
}
