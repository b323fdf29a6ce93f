/** The WAV writer (orca/voice.go) and the forgiving WAV parser (orca/audio_codec.go). */
module Wav {
  import opened Basics
  import opened Pcm

  const RIFF: seq<byte> := [0x52, 0x49, 0x46, 0x46]
  const WAVE: seq<byte> := [0x57, 0x41, 0x56, 0x45]
  const FMT: seq<byte> := [0x66, 0x6D, 0x74, 0x20]
  const DATA: seq<byte> := [0x64, 0x61, 0x74, 0x61]

  datatype Error = TooShort | NoHeader | MissingChunk | ShortFormat | NotPcm | NotSixteenBit

  datatype Decoded = Ok(pcm: seq<sample>, rate: nat, channels: nat) | Err(error: Error)

  // ----- What a file means -----

  datatype Chunk = Chunk(id: seq<byte>, body: seq<byte>)

  function From(data: seq<byte>, off: nat): seq<byte> {
    if off <= |data| then data[off..] else []
  }

  /** The size of the first sub-chunk; one past the end means everything left. */
  function Size(b: seq<byte>): (n: nat)
    requires |b| >= 8
    ensures n < TWO_32 && 8 + n <= |b|
  {
    Min(U32(b[4..8]), |b| - 8)
  }

  function Head(b: seq<byte>): (c: Chunk)
    requires |b| >= 8
    ensures |c.body| < TWO_32
  {
    Chunk(b[..4], b[8..8 + Size(b)])
  }

  /** What follows the first sub-chunk, which is padded to an even length. */
  function Tail(b: seq<byte>): (r: seq<byte>)
    requires |b| >= 8
    ensures |r| < |b|
  {
    From(b, 8 + Size(b) + Size(b) % 2)
  }

  /** The sub-chunks of what follows the header. */
  function Chunks(b: seq<byte>): seq<Chunk>
    decreases |b|
  {
    if |b| < 8 then [] else [Head(b)] + Chunks(Tail(b))
  }

  /** The body of the last chunk of that kind, or else the one found before. */
  function Latest(cs: seq<Chunk>, id: seq<byte>, found: Option<seq<byte>>): Option<seq<byte>> {
    if cs == [] then found
    else Latest(cs[1..], id, if cs[0].id == id then Some(cs[0].body) else found)
  }

  function Interpreted(format: Option<seq<byte>>, data: Option<seq<byte>>): Decoded {
    if format.None? || data.None? then Err(MissingChunk)
    else
      var f := format.value;
      if |f| < 16 then Err(ShortFormat)
      else if U16(f) != 1 then Err(NotPcm)
      else if U16(f[14..16]) != 16 then Err(NotSixteenBit)
      else Ok(Samples(data.value), U32(f[4..8]), U16(f[2..4]))
  }

  function Parsed(file: seq<byte>): Decoded {
    if |file| < 44 then Err(TooShort)
    else if file[..4] != RIFF || file[8..12] != WAVE then Err(NoHeader)
    else
      var cs := Chunks(file[12..]);
      Interpreted(Latest(cs, FMT, None), Latest(cs, DATA, None))
  }

  // ----- The writer and the parser -----

  function Orelse(n: int, default: int): int {
    if n == 0 then default else n
  }

  function Format(rate: int, channels: int): (f: seq<byte>)
    ensures |f| == 16
  {
    Le16(1) + Le16(channels) + Le32(rate) + Le32(rate * channels * 2) + Le16(channels * 2) + Le16(16)
  }

  function Framed(id: seq<byte>, size: int, body: seq<byte>): seq<byte> {
    id + Le32(size) + body
  }

  function Wrapped(bytes: seq<byte>, rate: int, channels: int): seq<byte> {
    RIFF + Le32(36 + |bytes|) + WAVE + Framed(FMT, 16, Format(Orelse(rate, 16000), Orelse(channels, 1)))
    + Framed(DATA, |bytes|, bytes)
  }

  /** Sizes, rate and channel count are cut to their field widths. */
  method WavWrap(bytes: seq<byte>, rate: int, channels: int) returns (file: seq<byte>)
    ensures file == Wrapped(bytes, rate, channels)
  {
    var hz, ch := rate, channels;
    if hz == 0 {
      hz := 16000;
    }
    if ch == 0 {
      ch := 1;
    }
    file := RIFF;
    file := file + Le32(36 + |bytes|);
    file := file + WAVE;
    file := file + FMT;
    file := file + Le32(16);
    file := file + Le16(1);
    file := file + Le16(ch);
    file := file + Le32(hz);
    file := file + Le32(hz * ch * 2);
    file := file + Le16(ch * 2);
    file := file + Le16(16);
    file := file + DATA;
    file := file + Le32(|bytes|);
    file := file + bytes;
    WrapSteps(bytes, rate, channels, hz, ch);
  }

  lemma WrapSteps(bytes: seq<byte>, rate: int, channels: int, hz: int, ch: int)
    requires hz == Orelse(rate, 16000) && ch == Orelse(channels, 1)
    ensures RIFF + Le32(36 + |bytes|) + WAVE + FMT + Le32(16) + Le16(1) + Le16(ch) + Le32(hz) + Le32(hz * ch * 2)
            + Le16(ch * 2) + Le16(16) + DATA + Le32(|bytes|) + bytes == Wrapped(bytes, rate, channels)
  {
  }

  method DecodeWav(data: seq<byte>) returns (result: Decoded)
    ensures result == Parsed(data)
  {
    if |data| < 44 {
      return Err(TooShort);
    }
    if data[0..4] != RIFF || data[8..12] != WAVE {
      return Err(NoHeader);
    }
    var fmtChunk, dataChunk := FindChunks(data);
    result := Interpret(fmtChunk, dataChunk);
  }

  /** The scan over the sub-chunks. */
  method FindChunks(data: seq<byte>) returns (fmtChunk: Option<seq<byte>>, dataChunk: Option<seq<byte>>)
    requires |data| >= 12
    ensures fmtChunk == Latest(Chunks(data[12..]), FMT, None)
    ensures dataChunk == Latest(Chunks(data[12..]), DATA, None)
  {
    hide Chunks, Latest, U32;
    fmtChunk, dataChunk := None, None;
    var off := 12;
    while off + 8 <= |data|
      invariant 12 <= off
      invariant Latest(Chunks(data[12..]), FMT, None) == Latest(Chunks(From(data, off)), FMT, fmtChunk)
      invariant Latest(Chunks(data[12..]), DATA, None) == Latest(Chunks(From(data, off)), DATA, dataChunk)
    {
      hide From;
      var id, size := data[off..off + 4], U32(data[off + 4..off + 8]);
      var remaining := |data| - off - 8;
      if size > remaining {
        size := remaining;
      }
      var body := data[off + 8..off + 8 + size];
      ghost var rest := Chunks(From(data, off + 8 + size + size % 2));
      ChunkAt(data, off, size);
      LatestStep(Chunk(id, body), rest, FMT, fmtChunk);
      LatestStep(Chunk(id, body), rest, DATA, dataChunk);
      if id == FMT {
        fmtChunk := Some(body);
      } else if id == DATA {
        dataChunk := Some(body);
      }
      off := off + 8 + size;
      if size % 2 == 1 {
        off := off + 1;
      }
    }
    ScanDone(data, off, FMT, fmtChunk);
    ScanDone(data, off, DATA, dataChunk);
  }

  lemma ScanDone(data: seq<byte>, off: nat, id: seq<byte>, found: Option<seq<byte>>)
    requires off + 8 > |data|
    ensures Latest(Chunks(From(data, off)), id, found) == found
  {
  }

  method Interpret(fmtChunk: Option<seq<byte>>, dataChunk: Option<seq<byte>>) returns (result: Decoded)
    ensures result == Interpreted(fmtChunk, dataChunk)
  {
    if fmtChunk.None? || dataChunk.None? {
      return Err(MissingChunk);
    }
    var f := fmtChunk.value;
    if |f| < 16 {
      return Err(ShortFormat);
    }
    if U16(f[0..2]) != 1 {
      return Err(NotPcm);
    }
    if U16(f[14..16]) != 16 {
      return Err(NotSixteenBit);
    }
    var pcm := BytesToInt16(dataChunk.value);
    return Ok(pcm[..], U32(f[4..8]), U16(f[2..4]));
  }

  lemma ChunkAt(data: seq<byte>, off: nat, size: nat)
    requires off + 8 <= |data| && size == Min(U32(data[off + 4..off + 8]), |data| - off - 8)
    ensures Chunks(From(data, off)) == [Chunk(data[off..off + 4], data[off + 8..off + 8 + size])]
                                       + Chunks(From(data, off + 8 + size + size % 2))
  {
    var b := data[off..];
    assert b[4..8] == data[off + 4..off + 8] && b[..4] == data[off..off + 4];
    assert b[8..8 + size] == data[off + 8..off + 8 + size];
    hide U32, Chunks;
    FromFrom(data, off, 8 + size + size % 2);
    FirstChunk(b);
  }

  lemma FromFrom(data: seq<byte>, off: nat, more: nat)
    requires off <= |data|
    ensures From(data[off..], more) == From(data, off + more)
  {
  }

  lemma FirstChunk(b: seq<byte>)
    requires |b| >= 8
    ensures Chunks(b) == [Head(b)] + Chunks(Tail(b))
  {
  }

  lemma LatestStep(c: Chunk, cs: seq<Chunk>, id: seq<byte>, found: Option<seq<byte>>)
    ensures Latest([c] + cs, id, found) == Latest(cs, id, if c.id == id then Some(c.body) else found)
  {
  }

  // ----- Round trip -----

  /** A chunk as a writer that knows its size puts it down: exact size, padded to an even length by any byte. */
  datatype Frame = Frame(id: seq<byte>, body: seq<byte>, pad: seq<byte>)

  predicate WellFormed(f: Frame) {
    |f.id| == 4 && |f.body| < TWO_32 && |f.pad| == |f.body| % 2
  }

  function FrameBytes(f: Frame): seq<byte> {
    Framed(f.id, |f.body|, f.body) + f.pad
  }

  function AllBytes(fs: seq<Frame>): seq<byte> {
    if fs == [] then [] else FrameBytes(fs[0]) + AllBytes(fs[1..])
  }

  function AsChunks(fs: seq<Frame>): seq<Chunk> {
    if fs == [] then [] else [Chunk(fs[0].id, fs[0].body)] + AsChunks(fs[1..])
  }

  lemma FiveParts<T>(a: seq<T>, b: seq<T>, c: seq<T>, d: seq<T>, e: seq<T>)
    requires |a| == 4 && |b| == 4
    ensures var s := a + b + c + d + e;
            && s[..4] == a && s[4..8] == b && s[8..8 + |c|] == c && s[8 + |c| + |d|..] == e
  {
  }

  lemma SizeField(n: nat)
    requires n < TWO_32
    ensures U32(Le32(n)) == n
  {
  }

  lemma FrameHead(f: Frame, rest: seq<byte>)
    requires WellFormed(f)
    ensures var b := FrameBytes(f) + rest; |b| >= 8 && Head(b) == Chunk(f.id, f.body) && Tail(b) == rest
  {
    hide U32, Le32;
    var b := FrameBytes(f) + rest;
    FiveParts(f.id, Le32(|f.body|), f.body, f.pad, rest);
    SizeField(|f.body|);
    assert b == f.id + Le32(|f.body|) + f.body + f.pad + rest;
    assert Size(b) == |f.body|;
  }

  lemma FirstFrame(f: Frame, rest: seq<byte>)
    requires WellFormed(f)
    ensures Chunks(FrameBytes(f) + rest) == [Chunk(f.id, f.body)] + Chunks(rest)
  {
    hide *;
    FrameHead(f, rest);
    FirstChunk(FrameBytes(f) + rest);
  }

  /** What complete chunks say does not depend on what follows them. */
  lemma {:induction false} FramesFirst(fs: seq<Frame>, rest: seq<byte>)
    requires forall f :: f in fs ==> WellFormed(f)
    ensures Chunks(AllBytes(fs) + rest) == AsChunks(fs) + Chunks(rest)
  {
    if fs == [] {
      assert AllBytes(fs) + rest == rest;
    } else {
      assert AllBytes(fs) + rest == FrameBytes(fs[0]) + (AllBytes(fs[1..]) + rest);
      FirstFrame(fs[0], AllBytes(fs[1..]) + rest);
      FramesFirst(fs[1..], rest);
    }
  }

  lemma FormatFields(rate: int, channels: int)
    ensures var f := Format(rate, channels);
            && U16(f) == 1 && U16(f[14..16]) == 16
            && U32(f[4..8]) == rate % TWO_32 && U16(f[2..4]) == channels % TWO_16
  {
    ReadBack(1);
    ReadBack(16);
    ReadBack(rate);
    ReadBack(channels);
    var f := Format(rate, channels);
    FormatSlices(rate, channels);
    assert f[..2] == [f[0], f[1]];
  }

  lemma FormatSlices(rate: int, channels: int)
    ensures var f := Format(rate, channels);
            f[..2] == Le16(1) && f[14..16] == Le16(16) && f[4..8] == Le32(rate) && f[2..4] == Le16(channels)
  {
  }

  lemma WrappedLayout(bytes: seq<byte>, rate: int, channels: int)
    ensures var file := Wrapped(bytes, rate, channels);
            && |file| == 44 + |bytes| && file[..4] == RIFF && file[8..12] == WAVE
            && file[12..] == Framed(FMT, 16, Format(Orelse(rate, 16000), Orelse(channels, 1)))
                             + Framed(DATA, |bytes|, bytes)
  {
    hide Le32, Format;
  }

  lemma WrappedChunks(bytes: seq<byte>, rate: int, channels: int)
    requires |bytes| < TWO_32 && |bytes| % 2 == 0
    ensures Chunks(Wrapped(bytes, rate, channels)[12..])
            == [Chunk(FMT, Format(Orelse(rate, 16000), Orelse(channels, 1))), Chunk(DATA, bytes)]
  {
    hide Chunks, Format, Wrapped;
    var f := Format(Orelse(rate, 16000), Orelse(channels, 1));
    var format, data := Frame(FMT, f, []), Frame(DATA, bytes, []);
    WrappedLayout(bytes, rate, channels);
    assert FrameBytes(format) == Framed(FMT, 16, f) && FrameBytes(data) == Framed(DATA, |bytes|, bytes);
    FirstFrame(format, FrameBytes(data));
    FirstFrame(data, []);
    assert FrameBytes(data) + [] == FrameBytes(data);
    NoChunks();
  }

  lemma NoChunks()
    ensures Chunks([]) == []
  {
  }

  lemma LatestOfTwo(format: seq<byte>, data: seq<byte>)
    ensures Latest([Chunk(FMT, format), Chunk(DATA, data)], FMT, None) == Some(format)
    ensures Latest([Chunk(FMT, format), Chunk(DATA, data)], DATA, None) == Some(data)
  {
    LatestStep(Chunk(FMT, format), [Chunk(DATA, data)], FMT, None);
    LatestStep(Chunk(FMT, format), [Chunk(DATA, data)], DATA, None);
    LatestStep(Chunk(DATA, data), [], FMT, Some(format));
    LatestStep(Chunk(DATA, data), [], DATA, None);
    assert [Chunk(FMT, format)] + [Chunk(DATA, data)] == [Chunk(FMT, format), Chunk(DATA, data)];
    assert [Chunk(DATA, data)] + [] == [Chunk(DATA, data)];
  }

  lemma InterpretedFormat(rate: int, channels: int, data: seq<byte>)
    ensures Interpreted(Some(Format(rate, channels)), Some(data))
            == Ok(Samples(data), rate % TWO_32, channels % TWO_16)
  {
    FormatFields(rate, channels);
    hide Format, U16, U32, Samples;
  }

  lemma ParsedFrom(file: seq<byte>, format: seq<byte>, data: seq<byte>)
    requires |file| >= 44 && file[..4] == RIFF && file[8..12] == WAVE
    requires Chunks(file[12..]) == [Chunk(FMT, format), Chunk(DATA, data)]
    ensures Parsed(file) == Interpreted(Some(format), Some(data))
  {
    LatestOfTwo(format, data);
    hide Latest, Chunks, Interpreted;
  }

  /** Writing and then parsing samples gives them back together with the low 32 bits of the rate and the low 16 bits
      of the channel count, zero standing for 16000 and for 1. */
  lemma WrittenThenParsed(pcm: seq<sample>, rate: int, channels: int)
    requires 2 * |pcm| < TWO_32
    ensures Parsed(Wrapped(PcmBytes(pcm), rate, channels))
            == Ok(pcm, Orelse(rate, 16000) % TWO_32, Orelse(channels, 1) % TWO_16)
  {
    hide *;
    var bytes, hz, ch := PcmBytes(pcm), Orelse(rate, 16000), Orelse(channels, 1);
    WrappedLayout(bytes, rate, channels);
    WrappedChunks(bytes, rate, channels);
    ParsedFrom(Wrapped(bytes, rate, channels), Format(hz, ch), bytes);
    InterpretedFormat(hz, ch, bytes);
    SamplesOfBytes(pcm);
  }

  lemma {:induction false} BodiesFit(b: seq<byte>, id: seq<byte>, found: Option<seq<byte>>)
    requires found.Some? ==> |found.value| < TWO_32
    ensures var l := Latest(Chunks(b), id, found); l.Some? ==> |l.value| < TWO_32
    decreases |b|
  {
    if |b| >= 8 {
      hide *;
      FirstChunk(b);
      var c := Head(b);
      LatestStep(c, Chunks(Tail(b)), id, found);
      BodiesFit(Tail(b), id, if c.id == id then Some(c.body) else found);
    } else {
      ScanDone(b, 0, id, found);
      assert From(b, 0) == b;
    }
  }

  lemma ParsedFits(file: seq<byte>)
    ensures Parsed(file).Ok? ==> 2 * |Parsed(file).pcm| < TWO_32
  {
    if |file| >= 44 {
      BodiesFit(file[12..], DATA, None);
    }
    hide Chunks, Latest;
  }

  /** A recording survives the trip through a WAV file exactly when its bytes can be counted in 32 bits, its rate is
      a non-zero 32-bit number and its channel count a non-zero 16-bit number. */
  lemma RoundTrip(pcm: seq<sample>, rate: int, channels: int)
    requires rate >= 0 && channels >= 0
    ensures Parsed(Wrapped(PcmBytes(pcm), rate, channels)) == Ok(pcm, rate, channels)
            <==> 2 * |pcm| < TWO_32 && 0 < rate < TWO_32 && 0 < channels < TWO_16
  {
    hide *;
    var file := Wrapped(PcmBytes(pcm), rate, channels);
    if 2 * |pcm| < TWO_32 {
      WrittenThenParsed(pcm, rate, channels);
      FieldsExact(Parsed(file), pcm, rate, channels);
    } else {
      ParsedFits(file);
    }
  }

  lemma FieldsExact(p: Decoded, pcm: seq<sample>, rate: nat, channels: nat)
    requires p == Ok(pcm, Orelse(rate, 16000) % TWO_32, Orelse(channels, 1) % TWO_16)
    ensures p == Ok(pcm, rate, channels) <==> 0 < rate < TWO_32 && 0 < channels < TWO_16
  {
  }

  // ----- Unknown chunks -----

  lemma {:induction false} LatestOver(xs: seq<Chunk>, ys: seq<Chunk>, id: seq<byte>, found: Option<seq<byte>>)
    ensures Latest(xs + ys, id, found) == Latest(ys, id, Latest(xs, id, found))
  {
    if xs == [] {
      assert xs + ys == ys;
    } else {
      assert (xs + ys)[1..] == xs[1..] + ys;
      LatestOver(xs[1..], ys, id, if xs[0].id == id then Some(xs[0].body) else found);
    }
  }

  lemma SkipsUnknown(before: seq<Frame>, extra: Frame, after: seq<byte>, id: seq<byte>)
    requires (forall f :: f in before ==> WellFormed(f)) && WellFormed(extra) && extra.id != id
    ensures Latest(Chunks(AllBytes(before) + (FrameBytes(extra) + after)), id, None)
            == Latest(Chunks(AllBytes(before) + after), id, None)
  {
    FramesFirst(before, FrameBytes(extra) + after);
    FramesFirst(before, after);
    FirstFrame(extra, after);
    LatestOver(AsChunks(before), [Chunk(extra.id, extra.body)] + Chunks(after), id, None);
    LatestOver(AsChunks(before), Chunks(after), id, None);
    LatestStep(Chunk(extra.id, extra.body), Chunks(after), id, Latest(AsChunks(before), id, None));
  }

  /** Inserting a complete chunk of any other kind after any number of complete chunks changes nothing about the
      result, whatever the twelve header bytes are and whatever follows, unless it makes a file long enough to be
      looked at that was not. */
  lemma UnknownChunkIgnored(head: seq<byte>, before: seq<Frame>, extra: Frame, after: seq<byte>)
    requires |head| == 12 && (forall f :: f in before ==> WellFormed(f))
    requires WellFormed(extra) && extra.id != FMT && extra.id != DATA
    ensures var short := head + (AllBytes(before) + after);
            var long := head + (AllBytes(before) + (FrameBytes(extra) + after));
            Parsed(long) == Parsed(short) <==> |short| >= 44 || |long| < 44
  {
    var short, long := head + (AllBytes(before) + after), head + (AllBytes(before) + (FrameBytes(extra) + after));
    assert short[12..] == AllBytes(before) + after && long[12..] == AllBytes(before) + (FrameBytes(extra) + after);
    assert short[..4] == head[..4] == long[..4] && (|short| >= 44 ==> short[8..12] == head[8..12] == long[8..12]);
    SkipsUnknown(before, extra, after, FMT);
    SkipsUnknown(before, extra, after, DATA);
  }
}
