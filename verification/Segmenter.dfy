/** Cutting each speaker's audio into utterances (orca/voice_local.go): per-stream counters against the frames they
    stand for. */
module Segmenter {
  import opened Basics
  import opened Pcm
  import opened Dsp

  const SILENCE := 100000
  const END_SILENCE := 75
  const MIN_SPEECH := 15
  const MAX_FRAMES := 1500

  // ----- Frames -----

  /** The samples of one decoded packet. */
  type Frame = seq<sample>

  function SumOfSquares(f: Frame): nat {
    if f == [] then 0 else f[0] * f[0] + SumOfSquares(f[1..])
  }

  /** The mean square reaches the threshold. */
  predicate Loud(f: Frame) {
    f != [] && SumOfSquares(f) >= SILENCE * |f|
  }

  function LoudCount(fs: seq<Frame>): nat {
    if fs == [] then 0 else LoudCount(fs[..|fs| - 1]) + if Loud(fs[|fs| - 1]) then 1 else 0
  }

  /** How many silent frames the run ends in. */
  function TrailingSilence(fs: seq<Frame>): (n: nat)
    ensures n <= |fs|
  {
    if fs == [] || Loud(fs[|fs| - 1]) then 0 else TrailingSilence(fs[..|fs| - 1]) + 1
  }

  function Joined(fs: seq<Frame>): seq<sample> {
    if fs == [] then [] else Joined(fs[..|fs| - 1]) + fs[|fs| - 1]
  }

  // ----- What becomes of the frames -----

  datatype Verdict = Keep | Emit | Drop

  /** The buffered frames are an utterance, mere silence, or neither yet. */
  function Judge(fs: seq<Frame>): Verdict {
    if |fs| >= MAX_FRAMES then Emit
    else if TrailingSilence(fs) < END_SILENCE then Keep
    else if LoudCount(fs) >= MIN_SPEECH then Emit
    else Drop
  }

  datatype Segment = Segment(emitted: bool, frames: seq<Frame>)

  /** The segments cut so far and the frames still buffered. */
  datatype Cutting = Cutting(segments: seq<Segment>, buffered: seq<Frame>)

  function Fed(c: Cutting, f: Frame): Cutting {
    var fs := c.buffered + [f];
    match Judge(fs)
    case Keep => Cutting(c.segments, fs)
    case Emit => Cutting(c.segments + [Segment(true, fs)], [])
    case Drop => Cutting(c.segments + [Segment(false, fs)], [])
  }

  function Cut(frames: seq<Frame>): Cutting {
    if frames == [] then Cutting([], []) else Fed(Cut(frames[..|frames| - 1]), frames[|frames| - 1])
  }

  function AllFrames(segments: seq<Segment>): seq<Frame> {
    if segments == [] then [] else AllFrames(segments[..|segments| - 1]) + segments[|segments| - 1].frames
  }

  /** Emitted, dropped and buffered frames in order are everything that was fed. */
  lemma {:induction false} NothingLost(frames: seq<Frame>)
    ensures AllFrames(Cut(frames).segments) + Cut(frames).buffered == frames
  {
    if frames != [] {
      var earlier, f := frames[..|frames| - 1], frames[|frames| - 1];
      NothingLost(earlier);
      OneMoreKept(Cut(earlier), f, earlier);
      assert frames == earlier + [f];
    }
  }

  lemma OneMoreKept(c: Cutting, f: Frame, frames: seq<Frame>)
    requires AllFrames(c.segments) + c.buffered == frames
    ensures AllFrames(Fed(c, f).segments) + Fed(c, f).buffered == frames + [f]
  {
  }

  /** Neither the cap nor a closing silence was reached. */
  predicate Open(fs: seq<Frame>) {
    |fs| < MAX_FRAMES && TrailingSilence(fs) < END_SILENCE
  }

  /** A segment closes with its last frame and not before. An emitted one holds at least 15 loud frames and ends in
      exactly 75 silent ones, or is exactly 1500 frames long; a dropped one holds fewer than 15 loud frames, is
      shorter than 1500 and ends in exactly 75 silent ones. */
  ghost predicate WellCut(s: Segment) {
    && s.frames != [] && Open(s.frames[..|s.frames| - 1])
    && (s.emitted ==>
          || |s.frames| == MAX_FRAMES
          || (TrailingSilence(s.frames) == END_SILENCE && LoudCount(s.frames) >= MIN_SPEECH))
    && (!s.emitted ==>
          && |s.frames| < MAX_FRAMES && TrailingSilence(s.frames) == END_SILENCE && LoudCount(s.frames) < MIN_SPEECH)
  }

  lemma {:induction false} SegmentsWellCut(frames: seq<Frame>)
    ensures Open(Cut(frames).buffered)
    ensures forall s :: s in Cut(frames).segments ==> WellCut(s)
  {
    if frames != [] {
      SegmentsWellCut(frames[..|frames| - 1]);
      var before, f := Cut(frames[..|frames| - 1]), frames[|frames| - 1];
      var fs := before.buffered + [f];
      assert fs[..|fs| - 1] == before.buffered;
    }
  }

  // ----- The counters -----

  /** A stream as it is kept: samples and three counters. */
  datatype Stream = Stream(speaker: string, pcm: seq<sample>, silent: nat, speech: nat, frames: nat)

  /** The counters stand for the buffered frames. */
  predicate StandsFor(st: Stream, fs: seq<Frame>) {
    st.pcm == Joined(fs) && st.silent == TrailingSilence(fs) && st.speech == LoudCount(fs) && st.frames == |fs|
  }

  /** Buffered frames without a single sample are all silent. */
  lemma {:induction false} NoSamples(fs: seq<Frame>)
    requires Joined(fs) == []
    ensures TrailingSilence(fs) == |fs| && LoudCount(fs) == 0
  {
    if fs != [] {
      NoSamples(fs[..|fs| - 1]);
    }
  }

  /** So the cap is never reached without a sample to flush. */
  lemma ClosesWithSamples(fs: seq<Frame>, f: Frame)
    requires Open(fs) && Judge(fs + [f]) == Emit
    ensures Joined(fs + [f]) != []
  {
    var all := fs + [f];
    assert all[..|all| - 1] == fs;
    if Joined(all) == [] {
      NoSamples(all);
    }
  }

  /** One more frame in the counters. */
  function Noted(st: Stream, f: Frame): Stream {
    st.(pcm := st.pcm + f, frames := st.frames + 1,
        silent := if Loud(f) then 0 else st.silent + 1, speech := st.speech + if Loud(f) then 1 else 0)
  }

  lemma NotedStandsFor(st: Stream, fs: seq<Frame>, f: Frame)
    requires StandsFor(st, fs)
    ensures StandsFor(Noted(st, f), fs + [f])
  {
  }

  function JudgedByCounters(st: Stream): Verdict {
    if st.frames >= MAX_FRAMES || (st.silent >= END_SILENCE && st.speech >= MIN_SPEECH) then Emit
    else if st.silent >= END_SILENCE then Drop
    else Keep
  }

  /** The stream after the judgement. */
  function Cleared(st: Stream): Stream {
    if JudgedByCounters(st) == Keep then st else Stream(st.speaker, [], 0, 0, 0)
  }

  lemma CountersJudge(st: Stream, fs: seq<Frame>)
    requires StandsFor(st, fs)
    ensures JudgedByCounters(st) == Judge(fs) && st.pcm == Joined(fs)
  {
  }

  lemma EmptyStandsFor(speaker: string)
    ensures StandsFor(Stream(speaker, [], 0, 0, 0), [])
  {
  }

  lemma BufferedAfter(c: Cutting, f: Frame)
    ensures Fed(c, f).buffered == if Judge(c.buffered + [f]) == Keep then c.buffered + [f] else []
  {
  }

  method MeanSquareLoud(f: Frame) returns (loud: bool)
    ensures loud == Loud(f)
  {
    if |f| == 0 {
      return false;
    }
    var sum := 0;
    for i := 0 to |f|
      invariant sum + SumOfSquares(f[i..]) == SumOfSquares(f)
    {
      assert f[i..][0] == f[i] && f[i..][1..] == f[i + 1..];
      sum := sum + (f[i] as int) * (f[i] as int);
    }
    loud := sum >= SILENCE * |f|;
  }

  // ----- One demultiplexer -----

  /** An inbound packet: its source, who is speaking, and what it decodes to, if it does. ready: there is room to hand
      an utterance on. */
  datatype Packet = Packet(ssrc: nat, speaker: string, decoded: Option<Frame>, ready: bool)

  /** What goes on to speech recognition. The source is kept to tell the streams apart here. */
  datatype Utterance = Utterance(ssrc: nat, speaker: string, pcm: seq<byte>)

  /** Stereo at 48 kHz to the bytes of mono at 16 kHz. */
  function Downmixed(pcm: seq<sample>): seq<byte> {
    PcmBytes(Resampled(Mono(pcm), 48000, 16000, 1))
  }

  /** The decoded frames of one source. */
  function Heard(packets: seq<Packet>, ssrc: nat): seq<Frame> {
    if packets == [] then []
    else
      var p := packets[|packets| - 1];
      Heard(packets[..|packets| - 1], ssrc) + if p.ssrc == ssrc && p.decoded.Some? then [p.decoded.value] else []
  }

  /** The utterances handed on. */
  function Spoken(packets: seq<Packet>): seq<Utterance> {
    if packets == [] then []
    else
      var before, p := packets[..|packets| - 1], packets[|packets| - 1];
      if p.decoded.None? then Spoken(before)
      else
        var fs := Cut(Heard(before, p.ssrc)).buffered + [p.decoded.value];
        Spoken(before)
        + if Judge(fs) == Emit && p.ready then [Utterance(p.ssrc, p.speaker, Downmixed(Joined(fs)))] else []
  }

  /** Each stream stands for the buffered frames of its own source. */
  ghost predicate Tracks(streams: map<nat, Stream>, packets: seq<Packet>) {
    && (forall k :: k in streams ==> StandsFor(streams[k], Cut(Heard(packets, k)).buffered))
    && (forall k :: k !in streams ==> Heard(packets, k) == [])
  }

  /** The stream a packet is for, before it is decoded. */
  function Source(streams: map<nat, Stream>, p: Packet): Stream {
    if p.ssrc in streams then streams[p.ssrc].(speaker := p.speaker) else Stream(p.speaker, [], 0, 0, 0)
  }

  lemma SourceStandsFor(streams: map<nat, Stream>, packets: seq<Packet>, p: Packet)
    requires Tracks(streams, packets)
    ensures StandsFor(Source(streams, p), Cut(Heard(packets, p.ssrc)).buffered)
  {
  }

  /** What a packet comes to: the counters decide as the frames themselves would, and other sources are untouched. */
  lemma FeedMeans(streams: map<nat, Stream>, packets: seq<Packet>, p: Packet)
    requires Tracks(streams, packets)
    ensures p.decoded.None? ==>
              Tracks(streams[p.ssrc := Source(streams, p)], packets + [p]) && Spoken(packets + [p]) == Spoken(packets)
    ensures p.decoded.Some? ==>
              var st := Noted(Source(streams, p), p.decoded.value);
              && Tracks(streams[p.ssrc := Cleared(st)], packets + [p])
              && (JudgedByCounters(st) == Emit ==> st.pcm != [])
              && Spoken(packets + [p]) == if JudgedByCounters(st) == Emit && p.ready
                   then Spoken(packets) + [Utterance(p.ssrc, st.speaker, Downmixed(st.pcm))] else Spoken(packets)
  {
    var source, cut := Source(streams, p), Cut(Heard(packets, p.ssrc));
    SourceStandsFor(streams, packets, p);
    HeardMore(packets, p);
    if p.decoded.None? {
      TracksOne(streams, packets, p, source);
    } else {
      var f := p.decoded.value;
      var st := Noted(source, f);
      FrameMeans(source, Heard(packets, p.ssrc), f);
      hide *;
      TracksOne(streams, packets, p, Cleared(st));
    }
  }

  lemma FrameMeans(source: Stream, frames: seq<Frame>, f: Frame)
    requires StandsFor(source, Cut(frames).buffered)
    ensures var st, fs := Noted(source, f), Cut(frames).buffered + [f];
            && StandsFor(Cleared(st), Fed(Cut(frames), f).buffered)
            && JudgedByCounters(st) == Judge(fs) && st.pcm == Joined(fs) && st.speaker == source.speaker
            && (Judge(fs) == Emit ==> st.pcm != [])
  {
    var c := Cut(frames);
    NotedStandsFor(source, c.buffered, f);
    CountersJudge(Noted(source, f), c.buffered + [f]);
    SegmentsWellCut(frames);
    if Judge(c.buffered + [f]) == Emit {
      ClosesWithSamples(c.buffered, f);
    }
    BufferedAfter(c, f);
    EmptyStandsFor(source.speaker);
    hide Judge, Cut, Fed, Joined, StandsFor;
  }

  lemma TracksOne(streams: map<nat, Stream>, packets: seq<Packet>, p: Packet, st: Stream)
    requires Tracks(streams, packets) && StandsFor(st, Cut(Heard(packets + [p], p.ssrc)).buffered)
    ensures Tracks(streams[p.ssrc := st], packets + [p])
  {
    HeardMore(packets, p);
    hide Cut, StandsFor, Heard;
  }

  /** So after every packet every stream has fewer than 75 silent frames at its end and fewer than 1500 in all. */
  lemma CountersBounded(streams: map<nat, Stream>, packets: seq<Packet>, k: nat)
    requires Tracks(streams, packets) && k in streams
    ensures streams[k].silent < END_SILENCE && streams[k].frames < MAX_FRAMES && streams[k].speech <= streams[k].frames
  {
    SegmentsWellCut(Heard(packets, k));
    SpeechFits(Cut(Heard(packets, k)).buffered);
  }

  lemma {:induction false} SpeechFits(fs: seq<Frame>)
    ensures LoudCount(fs) <= |fs|
  {
    if fs != [] {
      SpeechFits(fs[..|fs| - 1]);
    }
  }

  lemma Overwritten<K, V>(m: map<K, V>, k: K, a: V, b: V)
    ensures m[k := a][k := b] == m[k := b]
  {
  }

  class SpeakerDemux {
    var streams: map<nat, Stream>
    var out: seq<Utterance>
    ghost var fed: seq<Packet>

    ghost predicate Valid()
      reads this
    {
      out == Spoken(fed) && Tracks(streams, fed)
    }

    constructor ()
      ensures Valid() && fed == [] && out == []
    {
      streams, out, fed := map[], [], [];
    }

    method Feed(p: Packet)
      requires Valid()
      modifies this
      ensures Valid() && fed == old(fed) + [p]
    {
      FeedMeans(streams, fed, p);
      var st := if p.ssrc in streams then streams[p.ssrc].(speaker := p.speaker) else Stream(p.speaker, [], 0, 0, 0);
      assert st == Source(streams, p);
      hide *;
      streams, fed := streams[p.ssrc := st], fed + [p];
      if p.decoded.Some? {
        Count(p.ssrc, p.decoded.value, p.ready);
        Overwritten(old(streams), p.ssrc, st, Cleared(Noted(st, p.decoded.value)));
      }
    }

    /** What one decoded frame does to its stream. */
    method Count(ssrc: nat, f: Frame, ready: bool)
      requires ssrc in streams
      requires JudgedByCounters(Noted(streams[ssrc], f)) == Emit ==> Noted(streams[ssrc], f).pcm != []
      modifies this`streams, this`out
      ensures var st := Noted(old(streams[ssrc]), f);
              && streams == old(streams)[ssrc := Cleared(st)]
              && out == if JudgedByCounters(st) == Emit && ready
                        then old(out) + [Utterance(ssrc, st.speaker, Downmixed(st.pcm))] else old(out)
    {
      var st := streams[ssrc];
      var loud := MeanSquareLoud(f);
      st := st.(pcm := st.pcm + f, frames := st.frames + 1);
      if !loud {
        st := st.(silent := st.silent + 1);
      } else {
        st := st.(silent := 0, speech := st.speech + 1);
      }
      assert st == Noted(old(streams)[ssrc], f);
      hide Loud, Downmixed, Noted;
      streams := streams[ssrc := st];
      Overwritten(old(streams), ssrc, st, Stream(st.speaker, [], 0, 0, 0));
      if st.frames >= MAX_FRAMES {
        Flush(ssrc, ready);
      } else if st.silent >= END_SILENCE && st.speech >= MIN_SPEECH {
        Flush(ssrc, ready);
      } else if st.silent >= END_SILENCE {
        DropBuffer(ssrc);
      }
    }

    method DropBuffer(ssrc: nat)
      modifies this`streams
      ensures streams == if ssrc in old(streams)
                         then old(streams)[ssrc := Stream(old(streams)[ssrc].speaker, [], 0, 0, 0)]
                         else old(streams)
    {
      if ssrc in streams {
        streams := streams[ssrc := Stream(streams[ssrc].speaker, [], 0, 0, 0)];
      }
    }

    /** Nothing happens to a stream without samples. */
    method Flush(ssrc: nat, ready: bool)
      requires ssrc in streams
      modifies this`streams, this`out
      ensures old(streams[ssrc].pcm) == [] ==> streams == old(streams) && out == old(out)
      ensures old(streams[ssrc].pcm) != [] ==>
                streams == old(streams)[ssrc := Stream(old(streams)[ssrc].speaker, [], 0, 0, 0)]
      ensures old(streams[ssrc].pcm) != [] ==>
                out == if ready
                       then old(out) + [Utterance(ssrc, old(streams[ssrc].speaker), Downmixed(old(streams[ssrc].pcm)))]
                       else old(out)
    {
      if |streams[ssrc].pcm| == 0 {
        return;
      }
      var pcm, speaker := streams[ssrc].pcm, streams[ssrc].speaker;
      streams := streams[ssrc := Stream(speaker, [], 0, 0, 0)];
      var stereo := StereoToMono(pcm);
      var mono := Resample(stereo[..], 48000, 16000, 1);
      var bytes := Int16ToBytes(mono);
      if ready {
        out := out + [Utterance(ssrc, speaker, bytes[..])];
      }
    }
  }

  /** One more packet is heard on its own source only. */
  lemma HeardMore(packets: seq<Packet>, p: Packet)
    ensures forall k :: Heard(packets + [p], k) ==
                        if p.ssrc == k && p.decoded.Some? then Heard(packets, k) + [p.decoded.value]
                        else Heard(packets, k)
    ensures Spoken(packets + [p]) ==
            if p.decoded.None? then Spoken(packets)
            else
              var fs := Cut(Heard(packets, p.ssrc)).buffered + [p.decoded.value];
              if Judge(fs) == Emit && p.ready
              then Spoken(packets) + [Utterance(p.ssrc, p.speaker, Downmixed(Joined(fs)))]
              else Spoken(packets)
    ensures p.decoded.Some? ==> Cut(Heard(packets + [p], p.ssrc)) == Fed(Cut(Heard(packets, p.ssrc)), p.decoded.value)
  {
  }

  // ----- What reaches speech recognition -----

  /** Whether there was room for an utterance at each decoded frame of one source. */
  function Room(packets: seq<Packet>, ssrc: nat): seq<bool> {
    if packets == [] then []
    else
      var p := packets[|packets| - 1];
      Room(packets[..|packets| - 1], ssrc) + if p.ssrc == ssrc && p.decoded.Some? then [p.ready] else []
  }

  /** The emitted segments that found room when their last frame came. */
  function Received(segments: seq<Segment>, room: seq<bool>): seq<seq<byte>> {
    if segments == [] then []
    else
      var s, n := segments[|segments| - 1], |AllFrames(segments)|;
      Received(segments[..|segments| - 1], room)
      + if s.emitted && 0 < n <= |room| && room[n - 1] then [Downmixed(Joined(s.frames))] else []
  }

  function Of(us: seq<Utterance>, ssrc: nat): seq<seq<byte>> {
    if us == [] then []
    else
      var u := us[|us| - 1];
      Of(us[..|us| - 1], ssrc) + if u.ssrc == ssrc then [u.pcm] else []
  }

  lemma OfMore(us: seq<Utterance>, u: Utterance, ssrc: nat)
    ensures Of(us + [u], ssrc) == if u.ssrc == ssrc then Of(us, ssrc) + [u.pcm] else Of(us, ssrc)
  {
  }

  lemma {:induction false} FewerFrames(segments: seq<Segment>)
    ensures segments != [] ==> |AllFrames(segments[..|segments| - 1])| <= |AllFrames(segments)|
  {
  }

  /** What comes later finds the segments already closed. */
  lemma {:induction false} RoomLater(segments: seq<Segment>, room: seq<bool>, more: bool)
    requires |AllFrames(segments)| <= |room|
    ensures Received(segments, room + [more]) == Received(segments, room)
  {
    if segments != [] {
      FewerFrames(segments);
      RoomLater(segments[..|segments| - 1], room, more);
    }
  }

  lemma ReceivedMore(c: Cutting, f: Frame, room: seq<bool>, ready: bool)
    requires |AllFrames(c.segments)| + |c.buffered| == |room|
    ensures var fs := c.buffered + [f];
            Received(Fed(c, f).segments, room + [ready])
            == if Judge(fs) == Emit && ready then Received(c.segments, room) + [Downmixed(Joined(fs))]
               else Received(c.segments, room)
    ensures |AllFrames(Fed(c, f).segments)| + |Fed(c, f).buffered| == |room + [ready]|
  {
    RoomLater(c.segments, room, ready);
    hide Judge, Joined, Downmixed;
  }

  lemma RoomMore(packets: seq<Packet>, p: Packet, ssrc: nat)
    ensures Room(packets + [p], ssrc)
            == if p.ssrc == ssrc && p.decoded.Some? then Room(packets, ssrc) + [p.ready] else Room(packets, ssrc)
  {
  }

  /** What reached the receiver from the source is what it should have. */
  ghost predicate Fits(packets: seq<Packet>, ssrc: nat) {
    var c := Cut(Heard(packets, ssrc));
    && Of(Spoken(packets), ssrc) == Received(c.segments, Room(packets, ssrc))
    && |AllFrames(c.segments)| + |c.buffered| == |Room(packets, ssrc)|
  }

  lemma OnePacketMore(before: seq<Packet>, p: Packet, ssrc: nat)
    requires Fits(before, ssrc)
    ensures Fits(before + [p], ssrc)
  {
    HeardMore(before, p);
    RoomMore(before, p, ssrc);
    hide Cut, Heard, Spoken, Of, Room, Received, AllFrames, Judge, Fed;
    if p.decoded.Some? {
      var c := Cut(Heard(before, p.ssrc));
      var fs := c.buffered + [p.decoded.value];
      OfMore(Spoken(before), Utterance(p.ssrc, p.speaker, Downmixed(Joined(fs))), ssrc);
      if p.ssrc == ssrc {
        ReceivedMore(c, p.decoded.value, Room(before, ssrc), p.ready);
      }
    }
  }

  /** Interleaved speakers do not disturb each other: what reaches the receiver from one source is exactly the
      utterances cut from that source's frames alone whose last frame found room, in order. */
  lemma {:induction false} StreamsIndependent(packets: seq<Packet>, ssrc: nat)
    ensures Of(Spoken(packets), ssrc) == Received(Cut(Heard(packets, ssrc)).segments, Room(packets, ssrc))
    ensures Fits(packets, ssrc)
  {
    if packets != [] {
      var before, p := packets[..|packets| - 1], packets[|packets| - 1];
      StreamsIndependent(before, ssrc);
      OnePacketMore(before, p, ssrc);
      assert packets == before + [p];
    }
  }

  function Emitted(segments: seq<Segment>): seq<seq<byte>> {
    if segments == [] then []
    else
      var s := segments[|segments| - 1];
      Emitted(segments[..|segments| - 1]) + if s.emitted then [Downmixed(Joined(s.frames))] else []
  }

  lemma {:induction false} AllReceived(segments: seq<Segment>, room: seq<bool>)
    requires |AllFrames(segments)| <= |room| && (forall i :: 0 <= i < |room| ==> room[i])
    requires forall i :: 0 <= i < |segments| ==> segments[i].frames != []
    ensures Received(segments, room) == Emitted(segments)
  {
    if segments != [] {
      FewerFrames(segments);
      AllReceived(segments[..|segments| - 1], room);
      hide Downmixed, Joined;
      assert |AllFrames(segments)| > 0;
    }
  }

  lemma {:induction false} AlwaysRoom(packets: seq<Packet>, ssrc: nat)
    requires forall i :: 0 <= i < |packets| ==> packets[i].ready
    ensures forall i :: 0 <= i < |Room(packets, ssrc)| ==> Room(packets, ssrc)[i]
  {
    if packets != [] {
      AlwaysRoom(packets[..|packets| - 1], ssrc);
    }
  }

  lemma NoEmptySegment(frames: seq<Frame>)
    ensures forall i :: 0 <= i < |Cut(frames).segments| ==> Cut(frames).segments[i].frames != []
  {
    SegmentsWellCut(frames);
    hide Cut, Open;
    forall i | 0 <= i < |Cut(frames).segments| ensures Cut(frames).segments[i].frames != [] {
      assert Cut(frames).segments[i] in Cut(frames).segments;
    }
  }

  lemma RoomForAll(packets: seq<Packet>, ssrc: nat)
    requires Fits(packets, ssrc)
    ensures |AllFrames(Cut(Heard(packets, ssrc)).segments)| <= |Room(packets, ssrc)|
  {
  }

  /** A receiver that keeps up gets every utterance cut from the source's frames. */
  lemma NothingMissed(packets: seq<Packet>, ssrc: nat)
    requires forall i :: 0 <= i < |packets| ==> packets[i].ready
    ensures Of(Spoken(packets), ssrc) == Emitted(Cut(Heard(packets, ssrc)).segments)
  {
    hide *;
    StreamsIndependent(packets, ssrc);
    RoomForAll(packets, ssrc);
    NoEmptySegment(Heard(packets, ssrc));
    AlwaysRoom(packets, ssrc);
    AllReceived(Cut(Heard(packets, ssrc)).segments, Room(packets, ssrc));
  }
}
