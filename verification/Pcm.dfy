/** Bytes, 16-bit samples and little-endian numbers. */
module Pcm {

  type byte = x: int | 0 <= x < 256
  type sample = x: int | -32768 <= x < 32768

  const TWO_16 := 0x1_0000
  const TWO_32 := 0x1_0000_0000

  function Le16(n: int): (b: seq<byte>)
    ensures |b| == 2
  {
    [n % 256, n / 256 % 256]
  }

  function Le32(n: int): (b: seq<byte>)
    ensures |b| == 4
  {
    Le16(n) + Le16(n / TWO_16)
  }

  function U16(b: seq<byte>): (n: nat)
    requires |b| >= 2
    ensures n < TWO_16
  {
    (b[0] as int) + 256 * (b[1] as int)
  }

  function U32(b: seq<byte>): (n: nat)
    requires |b| >= 4
    ensures n < TWO_32
  {
    U16(b) + TWO_16 * U16(b[2..])
  }

  /** Reading back what was written keeps the low bits. */
  lemma ReadBack(n: int)
    ensures U16(Le16(n)) == n % TWO_16
    ensures U32(Le32(n)) == n % TWO_32
  {
    assert Le32(n)[2..] == Le16(n / TWO_16);
    assert Le32(n)[..2] == Le16(n);
  }

  /** The two's complement reading of 16 bits. */
  function Signed(n: nat): sample
    requires n < TWO_16
  {
    if n < 32768 then n else n - TWO_16
  }

  function SampleBytes(s: sample): (b: seq<byte>)
    ensures |b| == 2 && Signed(U16(b)) == s
  {
    [s % 256, s / 256 % 256]
  }

  function PcmBytes(pcm: seq<sample>): (b: seq<byte>)
    ensures |b| == 2 * |pcm|
  {
    if pcm == [] then [] else SampleBytes(pcm[0]) + PcmBytes(pcm[1..])
  }

  /** A trailing odd byte is ignored. */
  function Samples(b: seq<byte>): (pcm: seq<sample>)
    ensures |pcm| == |b| / 2
  {
    if |b| < 2 then [] else [Signed(U16(b))] + Samples(b[2..])
  }

  lemma {:induction false} SamplesOfBytes(pcm: seq<sample>)
    ensures Samples(PcmBytes(pcm)) == pcm
  {
    if pcm != [] {
      var b := PcmBytes(pcm);
      assert b[..2] == SampleBytes(pcm[0]) && b[2..] == PcmBytes(pcm[1..]);
      assert b[0] == SampleBytes(pcm[0])[0] && b[1] == SampleBytes(pcm[0])[1];
      SamplesOfBytes(pcm[1..]);
    }
  }

  lemma {:induction false} SampleAt(b: seq<byte>, i: nat)
    requires 2 * i + 1 < |b|
    ensures Samples(b)[i] == Signed(U16(b[2 * i..]))
  {
    if i > 0 {
      SampleAt(b[2..], i - 1);
      assert b[2..][2 * (i - 1)..] == b[2 * i..];
    } else {
      assert b[0..] == b;
    }
  }

  lemma {:induction false} ByteAt(pcm: seq<sample>, i: nat)
    requires i < |pcm|
    ensures PcmBytes(pcm)[2 * i] == pcm[i] % 256 && PcmBytes(pcm)[2 * i + 1] == pcm[i] / 256 % 256
  {
    if i > 0 {
      ByteAt(pcm[1..], i - 1);
    }
  }

  method Int16ToBytes(pcm: seq<sample>) returns (out: array<byte>)
    ensures fresh(out) && out[..] == PcmBytes(pcm)
  {
    out := new byte[2 * |pcm|];
    for i := 0 to |pcm|
      invariant out[..2 * i] == PcmBytes(pcm)[..2 * i]
    {
      out[2 * i] := pcm[i] % 256;
      out[2 * i + 1] := pcm[i] / 256 % 256;
      ByteAt(pcm, i);
      assert out[..2 * i + 2] == out[..2 * i] + [out[2 * i], out[2 * i + 1]];
    }
    assert out[..] == out[..2 * |pcm|];
  }

  method BytesToInt16(b: seq<byte>) returns (pcm: array<sample>)
    ensures fresh(pcm) && pcm[..] == Samples(b)
  {
    pcm := new sample[|b| / 2];
    for i := 0 to pcm.Length
      invariant pcm[..i] == Samples(b)[..i]
    {
      pcm[i] := Signed(U16(b[2 * i..]));
      SampleAt(b, i);
    }
    assert pcm[..] == pcm[..pcm.Length];
  }
}
