/** Splitting an oversized session description into chunks (sendChunked in voice.go) and putting chunks back
    together (assembleChunk in voice_bridge.go). */
module Chunking {
  import opened Basics
  import opened Text

  const LIMIT := 2000

  datatype Track = Track(trackId: string, mid: string, member: string, kind: string)

  /** rest stands for every field chunking does not look at; a chunk carries none of them. */
  datatype Envelope = Envelope(
    kind: string, sdp: string, id: string, seq_: Option<int>, total: Option<int>, tracks: seq<Track>, rest: string)

  // ----- Splitting -----

  function Total(n: nat): nat { (n + LIMIT - 1) / LIMIT }

  /** The i-th piece of a text. */
  function Piece(full: string, i: nat): string
    requires i < Total(|full|)
  {
    full[i * LIMIT..if (i + 1) * LIMIT > |full| then |full| else (i + 1) * LIMIT]
  }

  function Pieces(full: string): seq<string> {
    seq(Total(|full|), i requires 0 <= i < Total(|full|) => Piece(full, i))
  }

  function Chunk(kind: string, id: string, parts: seq<string>, i: int, tracks: seq<Track>): Envelope
    requires 0 <= i < |parts|
  {
    Envelope(kind, parts[i], id, Some(i), Some(|parts|), tracks, "")
  }

  function ChunkAt(env: Envelope, id: string, i: int): Envelope
    requires 0 <= i < Total(|env.sdp|)
  {
    Chunk(env.kind, id, Pieces(env.sdp), i, if i == 0 then env.tracks else [])
  }

  /** The chunks of an envelope: tracks ride on the first one only. */
  function Chunks(env: Envelope, id: string): seq<Envelope> {
    seq(Total(|env.sdp|), i requires 0 <= i < Total(|env.sdp|) => ChunkAt(env, id, i))
  }

  /** Emits the chunks in order until the connection, which takes only so many more frames, refuses one. */
  method SendChunked(env: Envelope, id: string, accepts: nat) returns (out: seq<Envelope>)
    ensures out == Chunks(env, id)[..if accepts < |Chunks(env, id)| then accepts else |Chunks(env, id)|]
  {
    var full := env.sdp;
    var total := (|full| + LIMIT - 1) / LIMIT;
    out := [];
    for i := 0 to total
      invariant i <= accepts && out == Chunks(env, id)[..i]
    {
      var start := i * LIMIT;
      var end := start + LIMIT;
      if end > |full| {
        end := |full|;
      }
      var tracks := if i == 0 then env.tracks else [];
      var chunk := Envelope(env.kind, full[start..end], id, Some(i), Some(total), tracks, "");
      if i == accepts {
        return;
      }
      assert chunk.sdp == Piece(full, i);
      assert chunk == ChunkAt(env, id, i) == Chunks(env, id)[i];
      assert Chunks(env, id)[..i + 1] == Chunks(env, id)[..i] + [Chunks(env, id)[i]];
      out := out + [chunk];
    }
  }

  /** Chunks only oversized offers and answers. */
  method Send(env: Envelope, id: string, accepts: nat) returns (out: seq<Envelope>)
    ensures (env.kind == "offer" || env.kind == "answer") && |env.sdp| > LIMIT ==>
              out == Chunks(env, id)[..if accepts < |Chunks(env, id)| then accepts else |Chunks(env, id)|]
    ensures !((env.kind == "offer" || env.kind == "answer") && |env.sdp| > LIMIT) ==>
              out == if accepts > 0 then [env] else []
  {
    if (env.kind == "offer" || env.kind == "answer") && |env.sdp| > LIMIT {
      out := SendChunked(env, id, accepts);
      return;
    }
    out := if accepts > 0 then [env] else [];
  }

  function Join(parts: seq<string>): string {
    if parts == [] then "" else Join(parts[..|parts| - 1]) + parts[|parts| - 1]
  }

  lemma {:induction false} JoinPieces(full: string, k: nat)
    requires k <= Total(|full|)
    ensures Join(Pieces(full)[..k]) == full[..if k * LIMIT > |full| then |full| else k * LIMIT]
  {
    if k > 0 {
      JoinPieces(full, k - 1);
      assert Pieces(full)[..k][..k - 1] == Pieces(full)[..k - 1];
    }
  }

  /** The pieces of a text join back to it; none is empty and none is over the limit. */
  lemma PiecesExact(full: string)
    ensures Join(Pieces(full)) == full
    ensures forall i :: 0 <= i < |Pieces(full)| ==> 1 <= |Pieces(full)[i]| <= LIMIT
    ensures |full| > LIMIT ==> |Pieces(full)| >= 2
  {
    JoinPieces(full, Total(|full|));
    assert Pieces(full)[..Total(|full|)] == Pieces(full);
  }

  // ----- Reassembly -----

  datatype Buf = Buf(parts: seq<string>, received: nat, template: Envelope)

  function Key(from: string, id: string): string {
    from + "\0" + id
  }

  predicate IsChunked(env: Envelope) {
    env.id != "" && env.total.Some? && env.seq_.Some? && env.total.value > 0
  }

  function Blank(n: nat): seq<string> {
    seq(n, i => "")
  }

  function Completed(b: Buf): Envelope {
    b.template.(sdp := Join(b.parts), id := "", seq_ := None, total := None)
  }

  /** One arrival: the buffers afterwards and what is passed on. */
  function Assembled(m: map<string, Buf>, from: string, env: Envelope): (map<string, Buf>, Option<Envelope>) {
    if !IsChunked(env) then (m, Some(env))
    else
      var key := Key(from, env.id);
      var buf := if key in m then m[key] else Buf(Blank(env.total.value), 0, env);
      var i := env.seq_.value;
      if i < 0 || i >= |buf.parts| then (m - {key}, None)
      else if buf.parts[i] != "" then (m[key := buf], None)
      else
        var grown := buf.(parts := buf.parts[i := env.sdp], received := buf.received + 1);
        if grown.received < |grown.parts| then (m[key := grown], None)
        else (m - {key}, Some(Completed(grown)))
  }

  class Bridge {
    var chunkBuf: map<string, Buf>

    constructor ()
      ensures chunkBuf == map[]
    {
      chunkBuf := map[];
    }

    method AssembleChunk(from: string, env: Envelope) returns (full: Option<Envelope>)
      modifies this
      ensures (chunkBuf, full) == Assembled(old(chunkBuf), from, env)
    {
      if env.id == "" || env.total == None || env.seq_ == None || env.total.value <= 0 {
        return Some(env);
      }
      var key := from + "\0" + env.id;
      if key !in chunkBuf {
        chunkBuf := chunkBuf[key := Buf(Blank(env.total.value), 0, env)];
      }
      var buf := chunkBuf[key];
      if env.seq_.value < 0 || env.seq_.value >= |buf.parts| {
        chunkBuf := chunkBuf - {key};
        assert chunkBuf == old(chunkBuf) - {key};
        return None;
      }
      if buf.parts[env.seq_.value] != "" {
        assert chunkBuf == old(chunkBuf)[key := buf];
        return None;
      }
      buf := buf.(parts := buf.parts[env.seq_.value := env.sdp], received := buf.received + 1);
      chunkBuf := chunkBuf[key := buf];
      assert chunkBuf == old(chunkBuf)[key := buf];
      if buf.received < |buf.parts| {
        return None;
      }
      chunkBuf := chunkBuf - {key};
      assert chunkBuf == old(chunkBuf) - {key};
      full := Some(buf.template.(sdp := JoinAll(buf.parts), id := "", seq_ := None, total := None));
    }
  }

  function JoinAll(parts: seq<string>): (s: string)
    ensures s == Join(parts)
  {
    Join(parts)
  }

  /** Buffers of different senders never mix, as long as no sender's name contains the separator. */
  lemma KeysDistinct(from1: string, id1: string, from2: string, id2: string)
    requires '\0' !in from1 && '\0' !in from2
    ensures Key(from1, id1) == Key(from2, id2) <==> from1 == from2 && id1 == id2
  {
    BeforeJoined(from1, '\0', id1);
    BeforeJoined(from2, '\0', id2);
  }

  // ----- Runs of arrivals -----

  datatype Arrival = Arrival(from: string, env: Envelope)

  function Buffers(m: map<string, Buf>, ds: seq<Arrival>): map<string, Buf> {
    if ds == [] then m
    else Assembled(Buffers(m, ds[..|ds| - 1]), ds[|ds| - 1].from, ds[|ds| - 1].env).0
  }

  /** What the arrival d passes on after the arrivals ds. */
  function Output(m: map<string, Buf>, ds: seq<Arrival>, d: Arrival): Option<Envelope> {
    Assembled(Buffers(m, ds), d.from, d.env).1
  }

  /** One logical message: its sender, chunk id, type and pieces. */
  datatype Message = Message(from: string, id: string, kind: string, parts: seq<string>)

  /** The arrival touches the message's buffer. */
  predicate Touches(d: Arrival, w: Message) {
    IsChunked(d.env) && Key(d.from, d.env.id) == Key(w.from, w.id)
  }

  /** The arrival is one of the message's chunks; only the tracks are free. */
  ghost predicate IsChunkOf(d: Arrival, w: Message) {
    && d.env.seq_.Some? && 0 <= d.env.seq_.value < |w.parts|
    && d.env == Chunk(w.kind, d.env.id, w.parts, d.env.seq_.value, d.env.tracks)
  }

  /** Everything that touches the message's buffer is one of its chunks, in any order and multiplicity; anything
      may arrive in between. */
  ghost predicate OnlyChunksOf(ds: seq<Arrival>, w: Message) {
    forall i :: 0 <= i < |ds| && Touches(ds[i], w) ==> IsChunkOf(ds[i], w)
  }

  function Seen(ds: seq<Arrival>, w: Message): set<int> {
    set i | 0 <= i < |ds| && Touches(ds[i], w) && ds[i].env.seq_.Some? :: ds[i].env.seq_.value
  }

  function Range(n: nat): (s: set<int>)
    ensures forall i :: i in s <==> 0 <= i < n
    ensures |s| == n
  {
    if n == 0 then {} else Range(n - 1) + {n - 1}
  }

  function All(w: Message): set<int> {
    Range(|w.parts|)
  }

  /** The first chunk of the message to arrive, whose metadata the result keeps. */
  function First(ds: seq<Arrival>, w: Message): Option<Envelope> {
    if ds == [] then None
    else
      var earlier := First(ds[..|ds| - 1], w);
      if earlier == None && Touches(ds[|ds| - 1], w) then Some(ds[|ds| - 1].env) else earlier
  }

  /** The whole message, with the tracks of whichever chunk came first. */
  function Whole(w: Message, tracks: seq<Track>): Envelope {
    Envelope(w.kind, Join(w.parts), "", None, None, tracks, "")
  }

  /** The buffer after the chunks in seen arrived. */
  ghost predicate Holds(b: Buf, w: Message, seen: set<int>) {
    && |b.parts| == |w.parts| && b.received == |seen|
    && b.template.kind == w.kind && b.template.rest == ""
    && seen <= All(w)
    && forall i :: 0 <= i < |w.parts| ==> b.parts[i] == if i in seen then w.parts[i] else ""
  }

  /** Duplicates are recognised by their part being non-empty. */
  predicate Distinguishable(parts: seq<string>) {
    |parts| == 1 || forall i :: 0 <= i < |parts| ==> parts[i] != ""
  }

  lemma SeenAppend(ds: seq<Arrival>, d: Arrival, w: Message)
    ensures Seen(ds + [d], w) == Seen(ds, w) + if Touches(d, w) then {d.env.seq_.value} else {}
    ensures First(ds + [d], w) == if First(ds, w) == None && Touches(d, w) then Some(d.env) else First(ds, w)
  {
    var all := ds + [d];
    assert all[..|all| - 1] == ds;
    forall x ensures x in Seen(all, w) <==> x in Seen(ds, w) || (Touches(d, w) && x == d.env.seq_.value) {
      if x in Seen(ds, w) {
        var i :| 0 <= i < |ds| && Touches(ds[i], w) && ds[i].env.seq_.Some? && ds[i].env.seq_.value == x;
        assert all[i] == ds[i];
      }
      if Touches(d, w) && x == d.env.seq_.value {
        assert all[|ds|] == d;
      }
    }
  }

  /** The state of the message's buffer after any arrivals short of completion. */
  ghost predicate Progress(m: map<string, Buf>, ds: seq<Arrival>, w: Message) {
    var key, seen := Key(w.from, w.id), Seen(ds, w);
    if seen == {} then key !in m && First(ds, w) == None
    else key in m && Holds(m[key], w, seen) && First(ds, w) == Some(m[key].template)
  }

  /** Storing one more chunk in a buffer that holds the chunks seen so far. */
  lemma BufferStep(buf: Buf, w: Message, seen: set<int>, i: int)
    requires w.parts != [] && Distinguishable(w.parts) && Holds(buf, w, seen) && seen < All(w) && i in All(w)
    ensures buf.parts[i] != "" <==> i in seen
    ensures i !in seen ==>
              var grown := buf.(parts := buf.parts[i := w.parts[i]], received := buf.received + 1);
              && Holds(grown, w, seen + {i})
              && (grown.received < |grown.parts| <==> seen + {i} != All(w))
              && (seen + {i} == All(w) ==> grown.parts == w.parts)
  {
    if i in seen && |w.parts| == 1 {
      OnlyOne(w);
    }
    if i !in seen {
      SubsetSize(seen + {i}, All(w));
      assert |seen + {i}| == |seen| + 1;
      var grown := buf.(parts := buf.parts[i := w.parts[i]], received := buf.received + 1);
      assert seen + {i} == All(w) ==> forall j :: 0 <= j < |w.parts| ==> j in seen + {i};
    }
  }

  lemma OnlyOne(w: Message)
    requires |w.parts| == 1
    ensures All(w) == {0}
  {
  }

  /** The buffer a chunk finds, or the fresh one it opens. */
  function Found(m: map<string, Buf>, d: Arrival, w: Message): Buf {
    var key := Key(w.from, w.id);
    if key in m then m[key] else Buf(Blank(|w.parts|), 0, d.env)
  }

  lemma FoundHolds(m: map<string, Buf>, d: Arrival, w: Message, seen: set<int>)
    requires IsChunkOf(d, w) && w.parts != []
    requires var key := Key(w.from, w.id); if seen == {} then key !in m else key in m && Holds(m[key], w, seen)
    ensures Holds(Found(m, d, w), w, seen)
  {
  }

  lemma Stored(m: map<string, Buf>, d: Arrival, w: Message)
    requires IsChunkOf(d, w) && Touches(d, w) && |Found(m, d, w).parts| == |w.parts|
    ensures var key, buf, i := Key(w.from, w.id), Found(m, d, w), d.env.seq_.value;
            var grown := buf.(parts := buf.parts[i := w.parts[i]], received := buf.received + 1);
            Assembled(m, d.from, d.env) ==
            if buf.parts[i] != "" then (m[key := buf], None)
            else if grown.received < |grown.parts| then (m[key := grown], None)
            else (m - {key}, Some(Completed(grown)))
  {
    hide Blank, Completed;
  }

  lemma TouchStep(m: map<string, Buf>, d: Arrival, w: Message, seen: set<int>)
    requires w.parts != [] && Distinguishable(w.parts) && IsChunkOf(d, w) && Touches(d, w) && seen < All(w)
    requires var key := Key(w.from, w.id); if seen == {} then key !in m else key in m && Holds(m[key], w, seen)
    ensures var key, (after, out) := Key(w.from, w.id), Assembled(m, d.from, d.env);
            var template := if key in m then m[key].template else d.env;
            if seen + {d.env.seq_.value} == All(w) then out == Some(Whole(w, template.tracks)) && key !in after
            else out == None && key in after && Holds(after[key], w, seen + {d.env.seq_.value})
                 && after[key].template == template
  {
    FoundHolds(m, d, w, seen);
    Stored(m, d, w);
    BufferStep(Found(m, d, w), w, seen, d.env.seq_.value);
    assert d.env.seq_.value in seen ==> seen + {d.env.seq_.value} == seen;
    hide Assembled, All, Distinguishable, Touches;
  }

  /** One more arrival, short of completion or completing. */
  lemma ArrivalStep(m: map<string, Buf>, ds: seq<Arrival>, d: Arrival, w: Message)
    requires w.parts != [] && Distinguishable(w.parts)
    requires OnlyChunksOf(ds + [d], w) && Seen(ds, w) < All(w) && Progress(m, ds, w)
    ensures var (after, out) := Assembled(m, d.from, d.env);
            if !Touches(d, w) then Progress(after, ds + [d], w)
            else if Seen(ds + [d], w) == All(w) then
              && out == Some(Whole(w, First(ds + [d], w).value.tracks))
              && Key(w.from, w.id) !in after
            else out == None && Progress(after, ds + [d], w)
  {
    SeenAppend(ds, d, w);
    assert (ds + [d])[|ds|] == d;
    hide Assembled, Holds, Whole, Seen, First, OnlyChunksOf;
    if Touches(d, w) {
      TouchStep(m, d, w, Seen(ds, w));
    } else {
      OtherKeysKept(m, d, w);
    }
  }

  lemma OtherKeysKept(m: map<string, Buf>, d: Arrival, w: Message)
    requires !Touches(d, w)
    ensures var key, after := Key(w.from, w.id), Assembled(m, d.from, d.env).0;
            (key in after <==> key in m) && (key in m ==> after[key] == m[key])
  {
  }

  lemma OnlyEarlier(ds: seq<Arrival>, w: Message)
    requires ds != [] && OnlyChunksOf(ds, w)
    ensures OnlyChunksOf(ds[..|ds| - 1], w) && Seen(ds[..|ds| - 1], w) <= Seen(ds, w) <= All(w)
  {
  }

  lemma {:induction false} RunProgress(m0: map<string, Buf>, ds: seq<Arrival>, w: Message)
    requires w.parts != [] && Distinguishable(w.parts)
    requires OnlyChunksOf(ds, w) && Seen(ds, w) < All(w) && Key(w.from, w.id) !in m0
    ensures Progress(Buffers(m0, ds), ds, w)
  {
    if ds != [] {
      var b, d := ds[..|ds| - 1], ds[|ds| - 1];
      assert ds == b + [d];
      OnlyEarlier(ds, w);
      RunProgress(m0, b, w);
      ArrivalStep(Buffers(m0, b), b, d, w);
    }
  }

  /** Until every chunk has been seen, arrivals of the message's chunks, in any order, with duplicates and with
      other traffic in between, pass nothing on; the arrival of the last missing one passes on exactly the original
      type and text, with the tracks of the first chunk that came, and frees the buffer. */
  lemma ReassemblyExact(m0: map<string, Buf>, ds: seq<Arrival>, d: Arrival, w: Message)
    requires w.parts != [] && Distinguishable(w.parts)
    requires OnlyChunksOf(ds + [d], w) && Seen(ds, w) < All(w) && Key(w.from, w.id) !in m0 && Touches(d, w)
    ensures Output(m0, ds, d) ==
            if Seen(ds + [d], w) == All(w) then Some(Whole(w, First(ds + [d], w).value.tracks)) else None
    ensures Seen(ds + [d], w) == All(w) ==> Key(w.from, w.id) !in Buffers(m0, ds + [d])
  {
    assert (ds + [d])[..|ds + [d]| - 1] == ds;
    assert forall i :: 0 <= i < |ds| ==> (ds + [d])[i] == ds[i];
    RunProgress(m0, ds, w);
    ArrivalStep(Buffers(m0, ds), ds, d, w);
  }

  /** A copy that arrives after completion finds no buffer and opens a new one. */
  lemma LateCopyOpensBuffer(m: map<string, Buf>, d: Arrival, w: Message)
    requires IsChunkOf(d, w) && Touches(d, w) && Key(w.from, w.id) !in m && |w.parts| >= 2
    ensures var (after, out) := Assembled(m, d.from, d.env);
            && out == None && after.Keys == m.Keys + {Key(w.from, w.id)}
            && after[Key(w.from, w.id)].received == 1
  {
  }

  /** What reassembly promises for one more arrival. */
  ghost predicate Correct(ds: seq<Arrival>, d: Arrival, w: Message) {
    OnlyChunksOf(ds + [d], w) && Seen(ds, w) < All(w) && Touches(d, w) ==>
      Output(map[], ds, d) ==
      if Seen(ds + [d], w) == All(w) then Some(Whole(w, First(ds + [d], w).value.tracks)) else None
  }

  /** The same chunk over and over. */
  function Repeated(d: Arrival, n: nat): seq<Arrival> {
    seq(n, i => d)
  }

  lemma {:induction false} EmptyRepeats(d: Arrival, w: Message, n: nat)
    requires IsChunkOf(d, w) && Touches(d, w) && d.env.sdp == "" && n < |w.parts|
    ensures var m := Buffers(map[], Repeated(d, n));
            if n == 0 then m == map[]
            else m == map[Key(w.from, w.id) := Buf(Blank(|w.parts|), n, d.env)]
  {
    if n > 0 {
      EmptyRepeats(d, w, n - 1);
      assert Repeated(d, n)[..n - 1] == Repeated(d, n - 1);
      assert Blank(|w.parts|)[d.env.seq_.value := ""] == Blank(|w.parts|);
    }
  }

  /** Reassembly keeps its promise for every order and multiplicity of arrivals exactly when no piece is empty or
      there is only one piece: an empty part reads as not received, so its duplicates are counted again. */
  lemma CorrectIffDistinguishable(w: Message)
    requires w.parts != [] && w.id != ""
    ensures (forall ds, d :: Correct(ds, d, w)) <==> Distinguishable(w.parts)
  {
    if Distinguishable(w.parts) {
      forall ds, d ensures Correct(ds, d, w) {
        if OnlyChunksOf(ds + [d], w) && Seen(ds, w) < All(w) && Touches(d, w) {
          ReassemblyExact(map[], ds, d, w);
        }
      }
    } else {
      var i :| 0 <= i < |w.parts| && w.parts[i] == "";
      var d := Arrival(w.from, Chunk(w.kind, w.id, w.parts, i, []));
      var n := |w.parts| - 1;
      var ds := Repeated(d, n);
      EmptyRepeats(d, w, n);
      RepeatsSeen(d, w, n);
      assert Output(map[], ds, d).Some?;
      assert !Correct(ds, d, w);
    }
  }

  lemma RepeatsSeen(d: Arrival, w: Message, n: nat)
    requires IsChunkOf(d, w) && Touches(d, w) && n >= 1 && |w.parts| >= 2
    ensures OnlyChunksOf(Repeated(d, n) + [d], w)
    ensures Seen(Repeated(d, n), w) < All(w) && Seen(Repeated(d, n) + [d], w) != All(w)
  {
    var ds := Repeated(d, n);
    SeenAppend(ds, d, w);
    assert Seen(ds, w) <= {d.env.seq_.value};
    var other := if d.env.seq_.value == 0 then 1 else 0;
    assert other in All(w) && other !in Seen(ds, w);
  }

  // ----- Round trip -----

  function MessageOf(from: string, env: Envelope, id: string): Message {
    Message(from, id, env.kind, Pieces(env.sdp))
  }

  /** Whatever the delivery, the chunks of an envelope reassemble to its type and text; its tracks survive exactly
      when it had none or its first chunk is the first to arrive. */
  lemma SentIsReceived(m0: map<string, Buf>, from: string, env: Envelope, id: string, ds: seq<Arrival>, d: Arrival)
    requires id != "" && env.sdp != "" && Key(from, id) !in m0
    requires forall i :: 0 <= i < |ds + [d]| && Touches((ds + [d])[i], MessageOf(from, env, id)) ==>
               (ds + [d])[i].env in Chunks(env, id)
    requires var w := MessageOf(from, env, id);
             Touches(d, w) && Seen(ds, w) < All(w) && Seen(ds + [d], w) == All(w)
    ensures var first := First(ds + [d], MessageOf(from, env, id)).value;
            && Output(m0, ds, d) == Some(Envelope(env.kind, env.sdp, "", None, None, first.tracks, ""))
            && (first.tracks == env.tracks <==> env.tracks == [] || first.seq_ == Some(0))
  {
    var w := MessageOf(from, env, id);
    PiecesExact(env.sdp);
    var all := ds + [d];
    hide Chunks, Touches, IsChunkOf, Seen, First, Output, Piece, Pieces;
    forall i | 0 <= i < |all| && Touches(all[i], w) ensures IsChunkOf(all[i], w) {
      SentChunk(env, id, all[i], w);
    }
    assert OnlyChunksOf(all, w);
    ReassemblyExact(m0, ds, d, w);
    FirstIsAmong(all, w);
    var i :| 0 <= i < |all| && Touches(all[i], w) && all[i].env == First(all, w).value;
    SentChunk(env, id, all[i], w);
  }

  /** A sent chunk is one of its message's, and the first one alone carries the tracks. */
  lemma SentChunk(env: Envelope, id: string, d: Arrival, w: Message)
    requires d.env in Chunks(env, id) && w == MessageOf(w.from, env, w.id)
    ensures IsChunkOf(d, w)
    ensures d.env.tracks == if d.env.seq_ == Some(0) then env.tracks else []
  {
  }

  lemma {:induction false} FirstIsAmong(ds: seq<Arrival>, w: Message)
    ensures First(ds, w).Some? ==> exists i :: 0 <= i < |ds| && Touches(ds[i], w) && ds[i].env == First(ds, w).value
    ensures Seen(ds, w) != {} ==> First(ds, w).Some?
  {
    if ds != [] {
      var b := ds[..|ds| - 1];
      assert ds == b + [ds[|ds| - 1]];
      FirstIsAmong(b, w);
      SeenAppend(b, ds[|ds| - 1], w);
      if First(b, w).Some? {
        var i :| 0 <= i < |b| && Touches(b[i], w) && b[i].env == First(b, w).value;
        assert ds[i] == b[i];
      }
    }
  }
}
