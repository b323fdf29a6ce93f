/** Channel mixing, resampling and the tempo filter chain (orca/audio_codec.go, orca/voice_local.go), in exact
    arithmetic. */
module Dsp {
  import opened Pcm

  // ----- Channels -----

  /** Division cutting off towards zero. */
  function Trunc(x: int, d: int): int
    requires d > 0
  {
    if x >= 0 then x / d else -(-x / d)
  }

  function Average(l: sample, r: sample): sample {
    Trunc((l as int) + (r as int), 2)
  }

  function Mono(stereo: seq<sample>): (m: seq<sample>)
    ensures |m| == |stereo| / 2
  {
    seq(|stereo| / 2, i requires 0 <= i < |stereo| / 2 => Average(stereo[2 * i], stereo[2 * i + 1]))
  }

  function Stereo(mono: seq<sample>): (s: seq<sample>)
    ensures |s| == 2 * |mono|
  {
    seq(2 * |mono|, j requires 0 <= j < 2 * |mono| => mono[j / 2])
  }

  method StereoToMono(stereo: seq<sample>) returns (out: array<sample>)
    ensures fresh(out) && out[..] == Mono(stereo)
  {
    out := new sample[|stereo| / 2];
    for i := 0 to out.Length
      invariant forall k :: 0 <= k < i ==> out[k] == Average(stereo[2 * k], stereo[2 * k + 1])
    {
      out[i] := Trunc((stereo[2 * i] as int) + (stereo[2 * i + 1] as int), 2);
    }
  }

  method MonoToStereo(mono: seq<sample>) returns (out: array<sample>)
    ensures fresh(out) && out[..] == Stereo(mono)
  {
    out := new sample[2 * |mono|];
    for i := 0 to |mono|
      invariant forall j :: 0 <= j < 2 * i ==> out[j] == mono[j / 2]
    {
      out[2 * i] := mono[i];
      out[2 * i + 1] := mono[i];
    }
  }

  /** Doubling a channel and mixing it down again changes nothing. */
  lemma MonoOfStereo(mono: seq<sample>)
    ensures Mono(Stereo(mono)) == mono
  {
  }

  // ----- Resampling -----

  function TargetFrames(frames: nat, fromHz: nat, toHz: nat): nat
    requires fromHz > 0
  {
    frames * toHz / fromHz
  }

  /** Every source frame the resampler looks at exists. */
  lemma SourceFrameExists(frames: nat, fromHz: nat, toHz: nat, i: nat)
    requires fromHz > 0 && i < TargetFrames(frames, fromHz, toHz)
    ensures toHz > 0 && i * fromHz / toHz < frames
  {
    var total := frames * toHz;
    Quotient(total, fromHz);
    MulMonotone(i + 1, total / fromHz, fromHz);
    assert (i + 1) * fromHz == i * fromHz + fromHz;
    DivBelow(i * fromHz, frames, toHz);
  }

  lemma MulMonotone(a: int, b: int, c: nat)
    requires a <= b
    ensures a * c <= b * c
  {
  }

  lemma CancelLess(a: int, b: int, d: nat)
    requires a * d < b * d
    ensures a < b
  {
  }

  lemma Quotient(x: nat, d: nat)
    requires d > 0
    ensures x / d * d <= x < (x / d + 1) * d
  {
  }

  lemma DivBelow(x: nat, n: nat, d: nat)
    requires d > 0 && x < n * d
    ensures x / d < n
  {
  }

  /** Between a and b, r parts in d of the way. */
  function Blend(a: int, b: int, r: nat, d: nat): (v: int)
    requires r < d
    ensures a <= b ==> a <= v <= b
    ensures b <= a ==> b <= v <= a
    ensures r == 0 ==> v == a
  {
    BlendBetween(a, b, r, d);
    Trunc(a * d + (b - a) * r, d)
  }

  lemma BlendBetween(a: int, b: int, r: nat, d: nat)
    requires r < d
    ensures var v := Trunc(a * d + (b - a) * r, d);
            (a <= b ==> a <= v <= b) && (b <= a ==> b <= v <= a) && (r == 0 ==> v == a)
  {
    hide *;
    var x := a * d + (b - a) * r;
    if a <= b {
      Share(b - a, r, d);
      assert (b - a) * d == b * d - a * d;
      TruncBetween(x, d, a, b);
    } else {
      Share(a - b, r, d);
      assert (a - b) * d == a * d - b * d;
      assert (b - a) * r == -((a - b) * r);
      TruncBetween(x, d, b, a);
    }
    if r == 0 {
      assert (b - a) * r == 0;
      TruncBetween(x, d, a, a);
    }
  }

  lemma Share(gap: nat, r: nat, d: nat)
    requires r < d
    ensures 0 <= gap * r <= gap * d
  {
  }

  lemma TruncBetween(x: int, d: nat, lo: int, hi: int)
    requires d > 0 && lo * d <= x <= hi * d
    ensures lo <= Trunc(x, d) <= hi
  {
    if x >= 0 {
      QuotientBetween(x, d, lo, hi);
    } else {
      assert (-hi) * d == -(hi * d) && (-lo) * d == -(lo * d);
      QuotientBetween(-x, d, -hi, -lo);
    }
  }

  lemma QuotientBetween(x: nat, d: nat, lo: int, hi: int)
    requires d > 0 && lo * d <= x <= hi * d
    ensures lo <= x / d <= hi
  {
    Quotient(x, d);
    CancelLess(lo, x / d + 1, d);
    assert (hi + 1) * d == hi * d + d;
    CancelLess(x / d, hi + 1, d);
  }

  lemma InBuffer(size: nat, channels: nat, frame: nat, c: nat)
    requires c < channels && frame < size / channels
    ensures frame * channels + c < size
  {
    Quotient(size, channels);
    MulMonotone(frame + 1, size / channels, channels);
    assert (frame + 1) * channels == frame * channels + channels;
  }

  function SourceFrame(i: nat, fromHz: nat, toHz: nat): nat
    requires toHz > 0
  {
    i * fromHz / toHz
  }

  /** How far into the source frame the time of a target frame falls, in parts of toHz. */
  function Fraction(i: nat, fromHz: nat, toHz: nat): (r: nat)
    requires toHz > 0
    ensures r < toHz
  {
    i * fromHz % toHz
  }

  function NextFrame(k: nat, frames: nat): nat
    requires k < frames
  {
    if k + 1 >= frames then frames - 1 else k + 1
  }

  function Index(frame: nat, c: nat, channels: nat): nat {
    frame * channels + c
  }

  lemma IndicesExist(size: nat, channels: nat, fromHz: nat, toHz: nat, i: nat, c: nat)
    requires fromHz > 0 && c < channels && i < TargetFrames(size / channels, fromHz, toHz)
    ensures toHz > 0
    ensures var k := SourceFrame(i, fromHz, toHz);
            && k < size / channels && Index(k, c, channels) < size
            && Index(NextFrame(k, size / channels), c, channels) < size
  {
    hide TargetFrames;
    SourceFrameExists(size / channels, fromHz, toHz, i);
    var k := SourceFrame(i, fromHz, toHz);
    InBuffer(size, channels, k, c);
    InBuffer(size, channels, NextFrame(k, size / channels), c);
  }

  /** Channel c of target frame i: the source frame its time falls in, blended with the one after it if there is one. */
  function ResampledAt(pcm: seq<sample>, fromHz: nat, toHz: nat, channels: nat, i: nat, c: nat): sample
    requires fromHz > 0 && c < channels && i < TargetFrames(|pcm| / channels, fromHz, toHz)
  {
    IndicesExist(|pcm|, channels, fromHz, toHz, i, c);
    var k := SourceFrame(i, fromHz, toHz);
    Blend(pcm[Index(k, c, channels)], pcm[Index(NextFrame(k, |pcm| / channels), c, channels)],
          Fraction(i, fromHz, toHz), toHz)
  }

  lemma SplitIndex(j: nat, frames: nat, channels: nat)
    requires j < frames * channels && channels > 0
    ensures j / channels < frames && j % channels < channels
  {
  }

  function Resampled(pcm: seq<sample>, fromHz: nat, toHz: nat, channels: nat): seq<sample>
    requires fromHz > 0 && channels > 0
  {
    if fromHz == toHz || pcm == [] then pcm
    else
      var frames := TargetFrames(|pcm| / channels, fromHz, toHz);
      seq(frames * channels, j requires 0 <= j < frames * channels =>
        SplitIndex(j, frames, channels);
        ResampledAt(pcm, fromHz, toHz, channels, j / channels, j % channels))
  }

  lemma JoinIndex(i: nat, c: nat, channels: nat)
    requires c < channels
    ensures (i * channels + c) / channels == i && (i * channels + c) % channels == c
  {
    var j := i * channels + c;
    Quotient(j, channels);
    assert (i + 1) * channels == i * channels + channels;
    CancelLess(i, j / channels + 1, channels);
    CancelLess(j / channels, i + 1, channels);
  }

  method Resample(pcm: seq<sample>, fromHz: nat, toHz: nat, channels: nat) returns (out: seq<sample>)
    requires fromHz > 0 && channels > 0
    ensures out == Resampled(pcm, fromHz, toHz, channels)
  {
    if fromHz == toHz || |pcm| == 0 {
      return pcm;
    }
    var frames := |pcm| / channels;
    var target := TargetFrames(frames, fromHz, toHz);
    out := [];
    ghost var goal := Resampled(pcm, fromHz, toHz, channels);
    for i := 0 to target
      invariant |out| == i * channels && out == goal[..|out|] && |out| <= |goal|
    {
      for c := 0 to channels
        invariant |out| == i * channels + c && |out| <= |goal| && out == goal[..|out|]
      {
        JoinIndex(i, c, channels);
        assert |out| < |goal| by {
          MulMonotone(i + 1, target, channels);
          assert (i + 1) * channels == i * channels + channels;
        }
        assert goal[|out|] == ResampledAt(pcm, fromHz, toHz, channels, i, c);
        out := out + [ResampledAt(pcm, fromHz, toHz, channels, i, c)];
      }
      assert (i + 1) * channels == i * channels + channels;
    }
    assert goal[..|goal|] == goal;
  }

  function SampleOf(pcm: seq<sample>, channels: nat, frame: nat, c: nat): sample {
    if frame * channels + c < |pcm| then pcm[frame * channels + c] else 0
  }

  /** In one channel, v lies between frame k and the next, or the last one. */
  predicate BetweenFrames(pcm: seq<sample>, channels: nat, c: nat, k: nat, v: sample)
    requires channels > 0
  {
    var frames := |pcm| / channels;
    k < frames &&
    var a, b := SampleOf(pcm, channels, k, c), SampleOf(pcm, channels, if k + 1 < frames then k + 1 else k, c);
    a <= v <= b || b <= v <= a
  }

  lemma ResampledBetween(pcm: seq<sample>, fromHz: nat, toHz: nat, channels: nat, i: nat, c: nat)
    requires fromHz > 0 && toHz > 0 && c < channels && i < TargetFrames(|pcm| / channels, fromHz, toHz)
    ensures var x := ResampledAt(pcm, fromHz, toHz, channels, i, c);
            BetweenFrames(pcm, channels, c, SourceFrame(i, fromHz, toHz), x)
  {
    hide Blend, TargetFrames, SourceFrame, Fraction;
    IndicesExist(|pcm|, channels, fromHz, toHz, i, c);
  }

  lemma NothingFromNothing(channels: nat, fromHz: nat, toHz: nat)
    requires channels > 0 && fromHz > 0
    ensures TargetFrames(0 / channels, fromHz, toHz) == 0
  {
  }

  /** The result has the source's frames scaled and rounded down, and every sample of it lies between the two samples
      of its channel that surround its time in the source. */
  lemma StaysBetween(pcm: seq<sample>, fromHz: nat, toHz: nat, channels: nat, i: nat, c: nat)
    requires fromHz > 0 && toHz > 0 && fromHz != toHz && c < channels
    requires i < TargetFrames(|pcm| / channels, fromHz, toHz)
    ensures var out := Resampled(pcm, fromHz, toHz, channels);
            && |out| == TargetFrames(|pcm| / channels, fromHz, toHz) * channels
            && i * channels + c < |out|
            && BetweenFrames(pcm, channels, c, SourceFrame(i, fromHz, toHz), SampleOf(out, channels, i, c))
  {
    hide TargetFrames, BetweenFrames, ResampledAt;
    var target := TargetFrames(|pcm| / channels, fromHz, toHz);
    NothingFromNothing(channels, fromHz, toHz);
    MulMonotone(i + 1, target, channels);
    assert (i + 1) * channels == i * channels + channels;
    JoinIndex(i, c, channels);
    ResampledBetween(pcm, fromHz, toHz, channels, i, c);
  }

  /** From 48 to 16 kHz every third sample is taken as it is. */
  lemma ThirdsKept(mono: seq<sample>)
    ensures |Resampled(mono, 48000, 16000, 1)| == |mono| / 3
    ensures forall i :: 0 <= i < |mono| / 3 ==> Resampled(mono, 48000, 16000, 1)[i] == mono[3 * i]
  {
    assert |mono| / 1 == |mono|;
    if mono != [] {
      assert TargetFrames(|mono|, 48000, 16000) == |mono| / 3;
      forall i | 0 <= i < |mono| / 3 ensures Resampled(mono, 48000, 16000, 1)[i] == mono[3 * i] {
        assert i / 1 == i && i % 1 == 0;
        assert i * 48000 / 16000 == 3 * i && i * 48000 % 16000 == 0;
      }
    }
  }

  // ----- The tempo chain -----

  function Product(xs: seq<real>): real {
    if xs == [] then 1.0 else Product(xs[..|xs| - 1]) * xs[|xs| - 1]
  }

  predicate StageOk(x: real) {
    0.5 <= x <= 2.0
  }

  /** Boundary stages and a final remainder stage: each within the filter's range, their product the target. All but
      the last are all 2 or all 0.5. */
  method BuildAtempoChain(target: real) returns (parts: seq<real>)
    requires target > 0.0
    ensures Product(parts) == target
    ensures forall x :: x in parts ==> StageOk(x)
    ensures parts != []
    ensures (forall i :: 0 <= i < |parts| - 1 ==> parts[i] == 2.0)
            || (forall i :: 0 <= i < |parts| - 1 ==> parts[i] == 0.5)
  {
    parts := [];
    var remain := target;
    hide Product;
    assert Product([]) == 1.0 by { ProductOfNothing(); }
    while remain > 2.0
      invariant remain > 0.0 && Product(parts) * remain == target
      invariant forall i :: 0 <= i < |parts| ==> parts[i] == 2.0
      invariant parts != [] ==> remain > 1.0
      decreases remain.Floor
    {
      Chained(parts, 2.0, remain);
      FloorHalved(remain);
      parts := parts + [2.0];
      remain := remain / 2.0;
    }
    ghost var inverse := 1.0 / remain;
    while remain < 0.5
      invariant remain > 0.0 && remain <= 2.0 && inverse * remain == 1.0 && Product(parts) * remain == target
      invariant || (forall i :: 0 <= i < |parts| ==> parts[i] == 0.5)
                || (remain > 1.0 && forall i :: 0 <= i < |parts| ==> parts[i] == 2.0)
      decreases inverse.Floor
    {
      Chained(parts, 0.5, remain);
      InverseHalved(inverse, remain);
      FloorHalved(inverse);
      parts := parts + [0.5];
      remain := remain / 0.5;
      inverse := inverse / 2.0;
    }
    Chained(parts, remain, remain);
    parts := parts + [remain];
  }

  lemma ProductOfNothing()
    ensures Product([]) == 1.0
  {
  }

  lemma FloorHalved(x: real)
    requires x > 2.0
    ensures 0 <= (x / 2.0).Floor < x.Floor
  {
  }

  lemma InverseHalved(inverse: real, remain: real)
    requires 0.0 < remain < 0.5 && inverse * remain == 1.0
    ensures inverse > 2.0 && (inverse / 2.0) * (remain / 0.5) == 1.0
  {
  }

  lemma Chained(parts: seq<real>, x: real, remain: real)
    requires x > 0.0
    ensures Product(parts + [x]) * (remain / x) == Product(parts) * remain
    ensures x == remain ==> Product(parts + [x]) == Product(parts) * remain
  {
  }

}
