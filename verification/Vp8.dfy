/** From an IVF stream to RTP packets (orca/video_player.go): the frame reader with its size guard and the VP8
    packetizer. Payload descriptors are those of sections 4.1 and 4.2 of RFC 7741, the marker bit and the sequence
    numbers those of section 5.1 of RFC 3550. */
module Vp8 {
  import opened Basics
  import opened Pcm

  const MTU := 1200
  /** A payload less its descriptor byte. */
  const PIECE := MTU - 1
  const MAX_FRAME := 2_000_000
  const START_BIT: byte := 0x10

  datatype Packet = Packet(seqNo: nat, ts: nat, marker: bool, payload: seq<byte>)

  datatype Frame = Frame(data: seq<byte>, ts: nat)

  function Take<T>(s: seq<T>, n: nat): (r: seq<T>)
    ensures |r| == Min(n, |s|) && r == s[..|r|]
  {
    if n <= |s| then s[..n] else s
  }

  /** A 16-bit counter. */
  function Wrap16(n: nat): (r: nat)
    ensures r < TWO_16
  {
    n % TWO_16
  }

  lemma WrapPlus(n: nat, k: nat)
    ensures Wrap16(Wrap16(n) + k) == Wrap16(n + k)
  {
  }

  lemma WrapSmall(n: nat)
    requires n < TWO_16
    ensures Wrap16(n) == n
  {
  }

  // ----- The packetizer -----

  /** The packets of what is left of a frame. */
  function Fragments(data: seq<byte>, seqNo: nat, ts: nat, first: bool): seq<Packet> {
    if data == [] then []
    else
      var piece := Take(data, PIECE);
      [Packet(Wrap16(seqNo), ts, |piece| == |data|, [if first then START_BIT else 0] + piece)]
      + Fragments(data[|piece|..], seqNo + 1, ts, false)
  }

  /** The fragment at an offset. */
  function PacketFrom(frame: seq<byte>, off: nat, seqNo: nat, ts: nat): Packet
    requires off < |frame|
  {
    var end := if off + PIECE > |frame| then |frame| else off + PIECE;
    var desc := if off == 0 then START_BIT else 0;
    Packet(seqNo, ts, end == |frame|, [desc] + frame[off..end])
  }

  /** The packets for the frame from an offset on. */
  function Rest(frame: seq<byte>, off: nat, seqNo: nat, ts: nat): seq<Packet> {
    if off < |frame| then Fragments(frame[off..], seqNo, ts, off == 0) else []
  }

  /** The packets so far and those of the rest are the frame's. */
  ghost predicate SentUpTo(frame: seq<byte>, off: nat, seqNo: nat, ts: nat, out: seq<Packet>) {
    Fragments(frame, seqNo, ts, true) == out + Rest(frame, off, seqNo + |out|, ts)
  }

  lemma Append<T>(a: seq<T>, b: seq<T>, c: seq<T>)
    ensures a + (b + c) == (a + b) + c
  {
  }

  lemma RestAtStart(frame: seq<byte>, seqNo: nat, ts: nat)
    ensures SentUpTo(frame, 0, seqNo, ts, [])
  {
  }

  lemma RestAtEnd(frame: seq<byte>, off: nat, seqNo: nat, ts: nat)
    requires off >= |frame|
    ensures Rest(frame, off, seqNo, ts) == []
  {
  }

  lemma NextFragment(frame: seq<byte>, off: nat, seqNo: nat, ts: nat)
    requires off < |frame|
    ensures Rest(frame, off, seqNo, ts)
            == [PacketFrom(frame, off, Wrap16(seqNo), ts)] + Rest(frame, off + PIECE, seqNo + 1, ts)
  {
    var rest := frame[off..];
    var piece := Take(rest, PIECE);
    assert rest[|piece|..] == frame[off + |piece|..];
    assert piece == frame[off..off + |piece|];
    assert Fragments(rest, seqNo, ts, off == 0)
           == [Packet(Wrap16(seqNo), ts, |piece| == |rest|, [if off == 0 then START_BIT else 0] + piece)]
              + Fragments(rest[|piece|..], seqNo + 1, ts, false);
  }

  lemma SentStep(frame: seq<byte>, off: nat, seqNo: nat, ts: nat, out: seq<Packet>)
    requires off < |frame| && SentUpTo(frame, off, seqNo, ts, out)
    ensures var after := out + [PacketFrom(frame, off, Wrap16(seqNo + |out|), ts)];
            && SentUpTo(frame, off + PIECE, seqNo, ts, after)
            && Wrap16(Wrap16(seqNo + |out|) + 1) == Wrap16(seqNo + |after|)
  {
    hide Fragments, Rest, PacketFrom, Wrap16;
    NextFragment(frame, off, seqNo + |out|, ts);
    WrapPlus(seqNo + |out|, 1);
    Append(out, [PacketFrom(frame, off, Wrap16(seqNo + |out|), ts)], Rest(frame, off + PIECE, seqNo + |out| + 1, ts));
  }

  lemma SentAtEnd(frame: seq<byte>, off: nat, seqNo: nat, ts: nat, out: seq<Packet>)
    requires off >= |frame| && SentUpTo(frame, off, seqNo, ts, out)
    ensures out == Fragments(frame, seqNo, ts, true)
  {
    RestAtEnd(frame, off, seqNo + |out|, ts);
    hide Fragments, Rest;
  }

  class Packetizer {
    var seqNo: nat
    var ts: nat

    ghost predicate Valid()
      reads this
    {
      seqNo < TWO_16
    }

    constructor ()
      ensures Valid() && seqNo == 0
    {
      seqNo, ts := 0, 0;
    }

    method Packetize(frame: seq<byte>, payloadTs: nat) returns (out: seq<Packet>)
      requires Valid()
      modifies this
      ensures Valid() && ts == payloadTs
      ensures out == Fragments(frame, old(seqNo), payloadTs, true)
      ensures seqNo == Wrap16(old(seqNo) + |out|)
    {
      ts := payloadTs;
      out := [];
      var off := 0;
      RestAtStart(frame, seqNo, payloadTs);
      WrapSmall(seqNo);
      hide *;
      while off < |frame|
        invariant 0 <= off && Valid() && ts == payloadTs
        invariant seqNo == Wrap16(old(seqNo) + |out|)
        invariant SentUpTo(frame, off, old(seqNo), payloadTs, out)
      {
        SentStep(frame, off, old(seqNo), payloadTs, out);
        out := out + [PacketFrom(frame, off, seqNo, payloadTs)];
        seqNo := Wrap16(seqNo + 1);
        off := off + PIECE;
      }
      SentAtEnd(frame, off, old(seqNo), payloadTs, out);
    }
  }

  function Count(n: nat): nat {
    (n + PIECE - 1) / PIECE
  }

  lemma {:induction false} FragmentCount(data: seq<byte>, seqNo: nat, ts: nat, first: bool)
    ensures |Fragments(data, seqNo, ts, first)| == Count(|data|)
    decreases |data|
  {
    if data != [] {
      FragmentCount(data[|Take(data, PIECE)|..], seqNo + 1, ts, false);
    }
  }

  lemma CountStep(n: nat)
    requires n > 0
    ensures Count(n) == 1 + Count(if n > PIECE then n - PIECE else 0)
  {
  }

  lemma FirstFragment(data: seq<byte>, seqNo: nat, ts: nat, first: bool)
    requires data != []
    ensures var ps, piece := Fragments(data, seqNo, ts, first), Take(data, PIECE);
            && ps == [Packet(Wrap16(seqNo), ts, |piece| == |data|, [if first then START_BIT else 0] + piece)] + ps[1..]
            && ps[1..] == Fragments(data[|piece|..], seqNo + 1, ts, false)
  {
  }

  lemma Later<T>(s: seq<T>, k: nat, n: nat)
    requires k + n <= |s|
    ensures s[k..][n..] == s[k + n..]
  {
  }

  /** Where the i-th fragment starts. */
  function Start(i: nat): nat {
    PIECE * i
  }

  lemma StartStep(n: nat, i: nat)
    requires i < Count(n)
    ensures Start(i) < n && (i > 0 ==> n > PIECE && Start(i) == PIECE + Start(i - 1) && i - 1 < Count(n - PIECE))
  {
  }

  /** What the i-th packet of so many should be. */
  predicate FragmentOk(data: seq<byte>, seqNo: nat, ts: nat, first: bool, i: nat, p: Packet, count: nat)
    requires Start(i) <= |data|
  {
    && p.seqNo == Wrap16(seqNo + i) && p.ts == ts && (p.marker <==> i == count - 1)
    && 2 <= |p.payload| <= MTU
    && p.payload[0] == (if first && i == 0 then START_BIT else 0)
    && p.payload[1..] == Take(data[Start(i)..], PIECE)
  }

  lemma FirstOk(data: seq<byte>, seqNo: nat, ts: nat, first: bool)
    requires data != []
    ensures Start(0) == 0
    ensures FragmentOk(data, seqNo, ts, first, 0, Fragments(data, seqNo, ts, first)[0], Count(|data|))
  {
    assert data[0..] == data;
  }

  lemma LaterOk(data: seq<byte>, seqNo: nat, ts: nat, first: bool, i: nat, p: Packet, count: nat)
    requires 0 < i < count && PIECE < |data| && Start(i) <= |data| && Start(i) == PIECE + Start(i - 1)
    requires FragmentOk(data[PIECE..], seqNo + 1, ts, false, i - 1, p, count - 1)
    ensures FragmentOk(data, seqNo, ts, first, i, p, count)
  {
    hide Start;
    Later(data, PIECE, Start(i - 1));
  }

  /** The number of packets, and all about each one: consecutive numbers, one timestamp, the marker on the last and
      the start bit on the first packet only, at most 1200 bytes of payload, and its slice of the frame. */
  lemma {:induction false} FragmentAt(data: seq<byte>, seqNo: nat, ts: nat, first: bool, i: nat)
    requires i < Count(|data|)
    ensures var ps := Fragments(data, seqNo, ts, first);
            && |ps| == Count(|data|) && Start(i) < |data|
            && FragmentOk(data, seqNo, ts, first, i, ps[i], |ps|)
    decreases |data|
  {
    FragmentCount(data, seqNo, ts, first);
    StartStep(|data|, i);
    CountStep(|data|);
    FirstFragment(data, seqNo, ts, first);
    if i == 0 {
      FirstOk(data, seqNo, ts, first);
    } else {
      hide Fragments, Count, Start, FragmentOk;
      FragmentAt(data[PIECE..], seqNo + 1, ts, false, i - 1);
      var ps := Fragments(data, seqNo, ts, first);
      assert ps[i] == ps[1..][i - 1];
      LaterOk(data, seqNo, ts, first, i, ps[i], |ps|);
    }
  }

  // ----- A stream of frames -----

  /** What a packetizer sends for the frames, one after the other. */
  function Stream(frames: seq<Frame>, seqNo: nat): seq<Packet> {
    if frames == [] then []
    else
      var ps := Fragments(frames[0].data, seqNo, frames[0].ts, true);
      ps + Stream(frames[1..], seqNo + |ps|)
  }

  lemma StreamStep(f: Frame, more: seq<Frame>, seqNo: nat)
    ensures var ps := Fragments(f.data, seqNo, f.ts, true);
            Stream([f] + more, seqNo) == ps + Stream(more, seqNo + |ps|)
  {
  }

  lemma {:induction false} SeqModulo(data: seq<byte>, seqNo: nat, ts: nat, first: bool)
    ensures Fragments(data, Wrap16(seqNo), ts, first) == Fragments(data, seqNo, ts, first)
    decreases |data|
  {
    if data != [] {
      var rest := data[|Take(data, PIECE)|..];
      WrapPlus(seqNo, 0);
      WrapPlus(seqNo, 1);
      SeqModulo(rest, seqNo + 1, ts, false);
      SeqModulo(rest, Wrap16(seqNo) + 1, ts, false);
    }
  }

  /** Sequence numbers are consecutive modulo 2^16 over the whole stream, across frames. */
  lemma {:induction false} StreamNumbers(frames: seq<Frame>, seqNo: nat, i: nat)
    requires i < |Stream(frames, seqNo)|
    ensures Stream(frames, seqNo)[i].seqNo == Wrap16(seqNo + i)
  {
    var data := frames[0].data;
    var ps := Fragments(data, seqNo, frames[0].ts, true);
    if i < |ps| {
      FragmentAt(data, seqNo, frames[0].ts, true, 0);
      FragmentAt(data, seqNo, frames[0].ts, true, i);
    } else {
      StreamNumbers(frames[1..], seqNo + |ps|, i - |ps|);
    }
  }

  /** A payload without its descriptor byte. */
  function Body(p: Packet): seq<byte> {
    if |p.payload| > 0 then p.payload[1..] else []
  }

  /** The receiver: strips descriptors, joins payloads, and completes a frame at every marker. cur is what came since
      the last one. */
  function Reassembled(ps: seq<Packet>, cur: seq<byte>): seq<Frame> {
    if ps == [] then []
    else
      var data := cur + Body(ps[0]);
      if ps[0].marker then [Frame(data, ps[0].ts)] + Reassembled(ps[1..], [])
      else Reassembled(ps[1..], data)
  }

  /** What the receiver has joined since the last marker. */
  function Unfinished(ps: seq<Packet>, cur: seq<byte>): seq<byte> {
    if ps == [] then cur
    else Unfinished(ps[1..], if ps[0].marker then [] else cur + Body(ps[0]))
  }

  function NonEmpty(frames: seq<Frame>): seq<Frame> {
    if frames == [] then []
    else (if frames[0].data == [] then [] else [frames[0]]) + NonEmpty(frames[1..])
  }

  /** One frame's packets complete exactly that frame. */
  lemma {:induction false} FrameReassembled(data: seq<byte>, seqNo: nat, ts: nat, first: bool,
                                            cur: seq<byte>, more: seq<Packet>)
    requires data != []
    ensures Reassembled(Fragments(data, seqNo, ts, first) + more, cur)
            == [Frame(cur + data, ts)] + Reassembled(more, [])
    ensures Unfinished(Fragments(data, seqNo, ts, first) + more, cur) == Unfinished(more, [])
    decreases |data|
  {
    var piece := Take(data, PIECE);
    var rest := data[|piece|..];
    var ps := Fragments(data, seqNo, ts, first);
    assert (ps + more)[0] == ps[0] && Body(ps[0]) == piece;
    assert (ps + more)[1..] == ps[1..] + more;
    assert ps[1..] == Fragments(rest, seqNo + 1, ts, false);
    if rest == [] {
      assert piece == data && ps[1..] + more == more;
    } else {
      FrameReassembled(rest, seqNo + 1, ts, false, cur + piece, more);
      assert cur + piece + rest == cur + data;
    }
  }

  /** Splitting the stream at marker bits and stripping descriptors gives back the non-empty frames with their
      timestamps, in order, and leaves nothing over. */
  lemma {:induction false} StreamReassembled(frames: seq<Frame>, seqNo: nat)
    ensures Reassembled(Stream(frames, seqNo), []) == NonEmpty(frames) && Unfinished(Stream(frames, seqNo), []) == []
  {
    if frames != [] {
      var f, more := frames[0], frames[1..];
      StreamReassembled(more, seqNo + |Fragments(f.data, seqNo, f.ts, true)|);
      OneFrameMore(f, more, seqNo);
      assert frames == [f] + more;
    }
  }

  lemma OneFrameMore(f: Frame, frames: seq<Frame>, seqNo: nat)
    requires var more := Stream(frames, seqNo + |Fragments(f.data, seqNo, f.ts, true)|);
             Reassembled(more, []) == NonEmpty(frames) && Unfinished(more, []) == []
    ensures Reassembled(Stream([f] + frames, seqNo), []) == NonEmpty([f] + frames)
    ensures Unfinished(Stream([f] + frames, seqNo), []) == []
  {
    hide *;
    NonEmptyStep(f, frames);
    StreamStep(f, frames, seqNo);
    WholeFrame(f, seqNo, Stream(frames, seqNo + |Fragments(f.data, seqNo, f.ts, true)|));
  }

  lemma WholeFrame(f: Frame, seqNo: nat, more: seq<Packet>)
    ensures var ps := Fragments(f.data, seqNo, f.ts, true);
            && Reassembled(ps + more, [])
               == (if f.data == [] then Reassembled(more, []) else [f] + Reassembled(more, []))
            && Unfinished(ps + more, []) == Unfinished(more, [])
  {
    var ps := Fragments(f.data, seqNo, f.ts, true);
    NoFragments(f.data, seqNo, f.ts);
    hide *;
    if f.data == [] {
      assert ps + more == more;
    } else {
      FrameReassembled(f.data, seqNo, f.ts, true, [], more);
      assert [] + f.data == f.data;
    }
  }

  lemma NoFragments(data: seq<byte>, seqNo: nat, ts: nat)
    ensures data == [] ==> Fragments(data, seqNo, ts, true) == []
  {
  }

  lemma NonEmptyStep(f: Frame, frames: seq<Frame>)
    ensures NonEmpty([f] + frames) == if f.data == [] then NonEmpty(frames) else [f] + NonEmpty(frames)
  {
  }

  lemma {:induction false} NonEmptyIdentity(frames: seq<Frame>)
    ensures NonEmpty(frames) == frames <==> forall f :: f in frames ==> f.data != []
    ensures |NonEmpty(frames)| <= |frames|
  {
    if frames != [] {
      NonEmptyIdentity(frames[1..]);
      assert frames == [frames[0]] + frames[1..];
      assert forall f :: f in frames <==> f == frames[0] || f in frames[1..];
    }
  }

  /** The receiver recovers the frames exactly when none of them is empty. */
  lemma FramesRecovered(frames: seq<Frame>, seqNo: nat)
    ensures Reassembled(Stream(frames, seqNo), []) == frames <==> forall f :: f in frames ==> f.data != []
  {
    StreamReassembled(frames, seqNo);
    NonEmptyIdentity(frames);
  }

  // ----- The frame reader -----

  datatype Read = Got(data: seq<byte>, pts: nat, rest: seq<byte>) | Failed

  function U64(b: seq<byte>): nat
    requires |b| >= 8
  {
    U32(b) + TWO_32 * U32(b[4..])
  }

  /** A header of 12 bytes, then as many bytes as its first four say; sizes of zero or over 2000000 are refused, and
      so is a stream that ends early. */
  function ReadOne(stream: seq<byte>): (r: Read)
    ensures r.Got? ==> 0 < |r.data| <= MAX_FRAME && |r.rest| < |stream|
  {
    if |stream| < 12 then Failed
    else
      var size := U32(stream[0..4]);
      if size == 0 || size > MAX_FRAME || 12 + size > |stream| then Failed
      else Got(stream[12..12 + size], U64(stream[4..12]), stream[12 + size..])
  }

  /** Units of the timebase to ticks of 90 kHz, in 64-bit arithmetic cut to 32 bits. */
  function RtpTime(pts: nat, n: nat, d: nat): nat
    requires d > 0
  {
    pts * 90000 * n % (TWO_32 * TWO_32) / d % TWO_32
  }

  /** All frames up to the first failure. */
  function ReadAll(stream: seq<byte>, n: nat, d: nat): seq<Frame>
    requires d > 0
    decreases |stream|
  {
    match ReadOne(stream)
    case Failed => []
    case Got(data, pts, rest) => [Frame(data, RtpTime(pts, n, d))] + ReadAll(rest, n, d)
  }

  method ReadFrame(stream: seq<byte>) returns (r: Read)
    ensures r == ReadOne(stream)
  {
    if |stream| < 12 {
      return Failed;
    }
    var size := U32(stream[0..4]);
    var pts := U64(stream[4..12]);
    if size == 0 || size > MAX_FRAME {
      return Failed;
    }
    if |stream| - 12 < size {
      return Failed;
    }
    return Got(stream[12..12 + size], pts, stream[12 + size..]);
  }

  /** Why the pump stopped. */
  datatype End = StreamEnded | Cancelled | PeerRefused

  /** What is sent of a stream when the play is cancelled after so many frames. */
  function ToSend(stream: seq<byte>, n: nat, d: nat, alive: nat, seqNo: nat): seq<Packet>
    requires d > 0
  {
    Stream(Take(ReadAll(stream, n, d), alive), seqNo)
  }

  /** What a pump has sent, and why it stopped: the play was cancelled after alive frames, the peer refused a packet
      after the first accepts, or the reader failed. */
  predicate Pumped(stream: seq<byte>, n: nat, d: nat, alive: nat, accepts: nat, seqNo: nat, out: seq<Packet>, why: End)
    requires d > 0
  {
    var sent := ToSend(stream, n, d, alive, seqNo);
    && out == Take(sent, accepts)
    && (why == PeerRefused <==> |sent| > accepts)
    && (why == Cancelled <==> |sent| <= accepts && alive <= |ReadAll(stream, n, d)|)
  }

  method PumpVideo(p: Packetizer, stream: seq<byte>, timebaseN: nat, timebaseD: nat, alive: nat, accepts: nat)
    returns (out: seq<Packet>, why: End)
    requires p.Valid()
    modifies p
    ensures var n, d := if timebaseN == 0 then 1 else timebaseN, if timebaseD == 0 then 30 else timebaseD;
            Pumped(stream, n, d, alive, accepts, old(p.seqNo), out, why)
  {
    var n, d := timebaseN, timebaseD;
    if n == 0 {
      n := 1;
    }
    if d == 0 {
      d := 30;
    }
    out, why := Pump(p, stream, n, d, alive, accepts);
  }

  /** Hands on packets until one is refused. */
  method Dispatch(ps: seq<Packet>, sent: seq<Packet>, accepts: nat) returns (out: seq<Packet>, refused: bool)
    requires |sent| <= accepts
    ensures refused <==> |sent + ps| > accepts
    ensures out == if refused then Take(sent + ps, accepts) else sent + ps
  {
    out := sent;
    for i := 0 to |ps|
      invariant out == sent + ps[..i] && |out| <= accepts
    {
      if |out| == accepts {
        return out, true;
      }
      out := out + [ps[i]];
    }
    refused := false;
  }

  method SendFrame(p: Packetizer, data: seq<byte>, ts: nat, sent: seq<Packet>, accepts: nat)
    returns (out: seq<Packet>, refused: bool, ghost all: seq<Packet>)
    requires p.Valid() && |sent| <= accepts
    modifies p
    ensures all == sent + Fragments(data, old(p.seqNo), ts, true) && (refused <==> |all| > accepts)
    ensures out == if refused then Take(all, accepts) else all
    ensures p.Valid() && p.seqNo == Wrap16(old(p.seqNo) + |all| - |sent|)
  {
    hide *;
    var ps := p.Packetize(data, ts);
    out, refused := Dispatch(ps, sent, accepts);
    all := sent + ps;
  }

  /** A pump at work: the packets so far and those still to come, the frames left before the cancellation, and the next
      sequence number. */
  ghost predicate Underway(stream: seq<byte>, rest: seq<byte>, n: nat, d: nat, alive: nat, left: nat, seqNo: nat,
                           out: seq<Packet>, next: nat)
    requires d > 0
  {
    && ToSend(stream, n, d, alive, seqNo) == out + ToSend(rest, n, d, left, seqNo + |out|)
    && left <= alive && |ReadAll(stream, n, d)| == alive - left + |ReadAll(rest, n, d)|
    && next == Wrap16(seqNo + |out|)
  }

  lemma UnderwayStart(stream: seq<byte>, n: nat, d: nat, alive: nat, seqNo: nat)
    requires d > 0 && seqNo < TWO_16
    ensures Underway(stream, stream, n, d, alive, alive, seqNo, [], seqNo)
  {
    WrapSmall(seqNo);
  }

  lemma PumpEnds(stream: seq<byte>, rest: seq<byte>, n: nat, d: nat, alive: nat, left: nat, accepts: nat, seqNo: nat,
                 out: seq<Packet>, next: nat)
    requires d > 0 && Underway(stream, rest, n, d, alive, left, seqNo, out, next) && |out| <= accepts
    ensures left == 0 ==> Pumped(stream, n, d, alive, accepts, seqNo, out, Cancelled)
    ensures left > 0 && ReadOne(rest).Failed? ==> Pumped(stream, n, d, alive, accepts, seqNo, out, StreamEnded)
  {
  }

  lemma PumpRefused(stream: seq<byte>, rest: seq<byte>, n: nat, d: nat, alive: nat, left: nat, accepts: nat, seqNo: nat,
                    out: seq<Packet>, next: nat)
    requires d > 0 && Underway(stream, rest, n, d, alive, left, seqNo, out, next) && |out| > accepts
    ensures Pumped(stream, n, d, alive, accepts, seqNo, Take(out, accepts), PeerRefused)
  {
  }

  /** What is left to send is one frame's packets, and then what is left after it. */
  lemma ToSendStep(rest: seq<byte>, n: nat, d: nat, left: nat, seqNo: nat)
    requires d > 0 && left > 0 && ReadOne(rest).Got?
    ensures var r := ReadOne(rest);
            var ps := Fragments(r.data, seqNo, RtpTime(r.pts, n, d), true);
            && ToSend(rest, n, d, left, seqNo) == ps + ToSend(r.rest, n, d, left - 1, seqNo + |ps|)
            && |ReadAll(rest, n, d)| == 1 + |ReadAll(r.rest, n, d)|
  {
    hide RtpTime, Fragments, ReadOne;
    var r := ReadOne(rest);
    var f, more := Frame(r.data, RtpTime(r.pts, n, d)), ReadAll(r.rest, n, d);
    assert Take([f] + more, left) == [f] + Take(more, left - 1);
    StreamStep(f, Take(more, left - 1), seqNo);
  }

  lemma PumpStep(stream: seq<byte>, rest: seq<byte>, n: nat, d: nat, alive: nat, left: nat, seqNo: nat,
                 out: seq<Packet>, next: nat, all: seq<Packet>)
    requires d > 0 && left > 0 && ReadOne(rest).Got? && Underway(stream, rest, n, d, alive, left, seqNo, out, next)
    requires all == out + Fragments(ReadOne(rest).data, next, RtpTime(ReadOne(rest).pts, n, d), true)
    ensures Underway(stream, ReadOne(rest).rest, n, d, alive, left - 1, seqNo, all, Wrap16(next + |all| - |out|))
  {
    hide RtpTime, Fragments, ReadOne, Stream, ReadAll, Wrap16, ToSend;
    var r := ReadOne(rest);
    var ts := RtpTime(r.pts, n, d);
    var ps := Fragments(r.data, next, ts, true);
    ToSendStep(rest, n, d, left, seqNo + |out|);
    SeqModulo(r.data, seqNo + |out|, ts, true);
    WrapPlus(seqNo + |out|, |ps|);
    Append(out, ps, ToSend(r.rest, n, d, left - 1, seqNo + |out| + |ps|));
  }

  /** Reads and sends one frame. */
  method PumpOne(p: Packetizer, rest: seq<byte>, n: nat, d: nat, out: seq<Packet>, accepts: nat,
                 ghost stream: seq<byte>, ghost alive: nat, ghost left: nat, ghost start: nat)
    returns (sent: seq<Packet>, more: seq<byte>, end: Option<End>)
    requires p.Valid() && d > 0 && |out| <= accepts && left > 0
    requires Underway(stream, rest, n, d, alive, left, start, out, p.seqNo)
    modifies p
    ensures end.Some? ==> Pumped(stream, n, d, alive, accepts, start, sent, end.value)
    ensures end.None? ==> p.Valid() && |sent| <= accepts
    ensures end.None? ==> Underway(stream, more, n, d, alive, left - 1, start, sent, p.seqNo)
  {
    hide *;
    var r := ReadFrame(rest);
    if r.Failed? {
      PumpEnds(stream, rest, n, d, alive, left, accepts, start, out, p.seqNo);
      return out, rest, Some(StreamEnded);
    }
    ghost var next := p.seqNo;
    var refused;
    ghost var all;
    sent, refused, all := SendFrame(p, r.data, RtpTime(r.pts, n, d), out, accepts);
    PumpStep(stream, rest, n, d, alive, left, start, out, next, all);
    if refused {
      PumpRefused(stream, r.rest, n, d, alive, left - 1, accepts, start, all, p.seqNo);
      return sent, r.rest, Some(PeerRefused);
    }
    return sent, r.rest, None;
  }

  method Pump(p: Packetizer, stream: seq<byte>, n: nat, d: nat, alive: nat, accepts: nat)
    returns (out: seq<Packet>, why: End)
    requires p.Valid() && d > 0
    modifies p
    ensures Pumped(stream, n, d, alive, accepts, old(p.seqNo), out, why)
  {
    out := [];
    var rest, left := stream, alive;
    ghost var start := p.seqNo;
    UnderwayStart(stream, n, d, alive, start);
    hide *;
    while left > 0
      invariant p.Valid() && |out| <= accepts
      invariant Underway(stream, rest, n, d, alive, left, start, out, p.seqNo)
    {
      var end;
      out, rest, end := PumpOne(p, rest, n, d, out, accepts, stream, alive, left, start);
      if end.Some? {
        return out, end.value;
      }
      left := left - 1;
    }
    PumpEnds(stream, rest, n, d, alive, left, accepts, start, out, p.seqNo);
    why := Cancelled;
  }

  lemma {:induction false} ReadsAreFrames(stream: seq<byte>, n: nat, d: nat)
    requires d > 0
    ensures forall f :: f in ReadAll(stream, n, d) ==> 0 < |f.data| <= MAX_FRAME
    decreases |stream|
  {
    var r := ReadOne(stream);
    if r.Got? {
      ReadsAreFrames(r.rest, n, d);
    }
  }

  /** A receiver that is cut off has recovered the first of the frames. */
  lemma {:induction false} CutOff(ps: seq<Packet>, k: nat, cur: seq<byte>)
    requires k <= |ps|
    ensures Reassembled(ps[..k], cur) <= Reassembled(ps, cur)
  {
    if k > 0 {
      assert ps[..k][1..] == ps[1..][..k - 1];
      CutOff(ps[1..], k - 1, if ps[0].marker then [] else cur + Body(ps[0]));
    }
  }

  /** Whatever bytes the stream holds, the receiver recovers exactly the frames read before the play was cancelled, or
      the first of them when the peer refused a packet. */
  lemma PumpedFramesArrive(stream: seq<byte>, n: nat, d: nat, alive: nat, accepts: nat, seqNo: nat)
    requires d > 0
    ensures var sent := ToSend(stream, n, d, alive, seqNo);
            && Reassembled(sent, []) == Take(ReadAll(stream, n, d), alive)
            && Reassembled(Take(sent, accepts), []) <= Take(ReadAll(stream, n, d), alive)
  {
    ReadsAreFrames(stream, n, d);
    FramesRecovered(Take(ReadAll(stream, n, d), alive), seqNo);
    var sent := ToSend(stream, n, d, alive, seqNo);
    CutOff(sent, |Take(sent, accepts)|, []);
  }

  /** One frame as an IVF writer puts it down. */
  function IvfBytes(data: seq<byte>, pts: nat): seq<byte> {
    Le32(|data|) + Le32(pts) + Le32(pts / TWO_32) + data
  }

  lemma IvfLayout(data: seq<byte>, pts: nat, rest: seq<byte>)
    ensures var s := IvfBytes(data, pts) + rest;
            && |s| == 12 + |data| + |rest| && s[0..4] == Le32(|data|)
            && s[4..12][..4] == Le32(pts) && s[4..12][4..] == Le32(pts / TWO_32)
            && s[12..12 + |data|] == data && s[12 + |data|..] == rest
  {
    HeaderParts(Le32(|data|), Le32(pts), Le32(pts / TWO_32), data, rest);
    hide Le32;
  }

  lemma HeaderParts<T>(a: seq<T>, b: seq<T>, c: seq<T>, d: seq<T>, e: seq<T>)
    requires |a| == 4 && |b| == 4 && |c| == 4
    ensures var s := a + b + c + d + e;
            && s[0..4] == a && s[4..12][..4] == b && s[4..12][4..] == c && s[12..12 + |d|] == d && s[12 + |d|..] == e
  {
  }

  lemma U64Parts(b: seq<byte>)
    requires |b| == 8
    ensures U64(b) == U32(b[..4]) + TWO_32 * U32(b[4..])
  {
  }

  lemma SizeBack(n: nat)
    requires n < TWO_32
    ensures U32(Le32(n)) == n
  {
    ReadBack(n);
  }

  lemma PtsBack(b: seq<byte>, pts: nat)
    requires |b| == 8 && pts < TWO_32 * TWO_32 && b[..4] == Le32(pts) && b[4..] == Le32(pts / TWO_32)
    ensures U64(b) == pts
  {
    U64Parts(b);
    ReadBack(pts);
    ReadBack(pts / TWO_32);
    hide U64, U32, Le32;
  }

  /** A written frame is read back, with its time stamp, exactly when its size is acceptable. */
  lemma IvfRoundTrip(data: seq<byte>, pts: nat, rest: seq<byte>)
    requires pts < TWO_32 * TWO_32 && |data| < TWO_32
    ensures ReadOne(IvfBytes(data, pts) + rest) == Got(data, pts, rest) <==> 0 < |data| <= MAX_FRAME
  {
    IvfLayout(data, pts, rest);
    SizeBack(|data|);
    PtsBack((IvfBytes(data, pts) + rest)[4..12], pts);
    hide IvfBytes, U32, U64, Le32;
  }

  // ----- The audio packetizer -----

  datatype Audio = Audio(seqNo: nat, ts: nat, marker: bool, payload: seq<byte>)

  /** The 32-bit clock after so many packets of 960 ticks. */
  function Ticks(packets: nat): nat {
    960 * packets % TWO_32
  }

  lemma TicksPlus(packets: nat)
    ensures (Ticks(packets) + 960) % TWO_32 == Ticks(packets + 1)
  {
    var q := 960 * packets / TWO_32;
    assert 960 * (packets + 1) == Ticks(packets) + 960 + TWO_32 * q;
    WholeTurns(Ticks(packets) + 960, q);
  }

  lemma WholeTurns(x: nat, q: nat)
    ensures (x + TWO_32 * q) % TWO_32 == x % TWO_32
  {
  }

  class OpusPacketizer {
    var seqNo: nat
    var ts: nat
    ghost var sent: nat

    /** sent packets so far, 960 ticks each. */
    ghost predicate Valid()
      reads this
    {
      seqNo == Wrap16(sent) && ts == Ticks(sent)
    }

    constructor ()
      ensures Valid() && sent == 0
    {
      seqNo, ts, sent := 0, 0, 0;
    }

    /** The marker is set whenever the number is zero, so again after every 65536 packets. */
    method Wrap(payload: seq<byte>) returns (p: Audio)
      requires Valid()
      modifies this
      ensures Valid() && sent == old(sent) + 1
      ensures p == Audio(Wrap16(old(sent)), Ticks(old(sent)), Wrap16(old(sent)) == 0, payload)
    {
      p := Audio(seqNo, ts, seqNo == 0, payload);
      WrapPlus(sent, 1);
      TicksPlus(sent);
      hide Wrap16, Ticks;
      seqNo, ts, sent := Wrap16(seqNo + 1), (ts + 960) % TWO_32, sent + 1;
    }
  }
}
