/** The room handlers as they run: maps searched and updated entry by entry (voice.go, voice_local.go), each proved to
    do what Rooms says of it, and the part/quit handling of voice_bridge.go. */
module VoiceManager {
  import opened Text
  import opened TrackIds
  import opened Rooms

  // ----- Loops over a room's peers -----

  predicate JoinedBefore(peers: map<string, Peer>, n: string, m: string) {
    n in peers && m in peers && n != m && peers[n].joinedAt <= peers[m].joinedAt
  }

  /** The names are in join order. */
  predicate InJoinOrder(peers: map<string, Peer>, names: seq<string>) {
    && (forall i :: 0 <= i < |names| ==> names[i] in peers)
    && (forall i, j :: 0 <= i < j < |names| ==> JoinedBefore(peers, names[i], names[j]))
  }

  lemma InsertedOrder(peers: map<string, Peer>, names: seq<string>, i: nat, n: string)
    requires InJoinOrder(peers, names) && n in peers && n !in names && i <= |names|
    requires i > 0 ==> JoinedBefore(peers, names[i - 1], n)
    requires i < |names| ==> JoinedBefore(peers, n, names[i])
    ensures InJoinOrder(peers, names[..i] + [n] + names[i..])
  {
  }

  method Insert(peers: map<string, Peer>, names: seq<string>, n: string) returns (out: seq<string>)
    requires InJoinOrder(peers, names) && n in peers && n !in names
    ensures InJoinOrder(peers, out) && |out| == |names| + 1
    ensures forall m :: m in out <==> m in names || m == n
  {
    var i := |names|;
    while i > 0 && peers[n].joinedAt < peers[names[i - 1]].joinedAt
      invariant 0 <= i <= |names|
      invariant i < |names| ==> JoinedBefore(peers, n, names[i])
    {
      i := i - 1;
      assert names[i] in names;
    }
    assert i > 0 ==> names[i - 1] in names;
    InsertedOrder(peers, names, i, n);
    hide InJoinOrder;
    out := names[..i] + [n] + names[i..];
    assert names == names[..i] + names[i..];
  }

  lemma StreamerMeans(r: Room, n: string)
    requires n in r.peers
    ensures n in Streamers(r) <==> r.peers[n].role == Streamer
  {
  }

  lemma FirstIsOldest(r: Room, names: seq<string>)
    requires InJoinOrder(r.peers, names) && names != [] && forall n :: n in names <==> n in Streamers(r)
    ensures IsOldest(r, Streamers(r), names[0])
  {
  }

  /** The room's streamers in join order. */
  method StreamersInOrder(r: Room) returns (names: seq<string>)
    ensures InJoinOrder(r.peers, names) && |names| == |Streamers(r)|
    ensures forall n :: n in names <==> n in Streamers(r)
    ensures names != [] ==> IsOldest(r, Streamers(r), names[0])
  {
    names := [];
    var todo := r.peers.Keys;
    ghost var streamers, seen: set<string> := Streamers(r), {};
    assert forall n :: n in streamers ==> n in r.peers;
    hide InJoinOrder, Streamers;
    while todo != {}
      invariant todo <= r.peers.Keys && InJoinOrder(r.peers, names)
      invariant seen == streamers - todo && |names| == |seen|
      invariant forall n :: n in names <==> n in seen
    {
      var n :| n in todo;
      StreamerMeans(r, n);
      if r.peers[n].role == Streamer {
        names := Insert(r.peers, names, n);
        seen := seen + {n};
      }
      todo := todo - {n};
    }
    assert seen == streamers;
    if names != [] {
      FirstIsOldest(r, names);
    }
  }

  /** A longest-tenured peer. */
  method Oldest(r: Room) returns (oldest: string)
    requires r.peers != map[]
    ensures IsOldest(r, r.peers.Keys, oldest)
  {
    NoKeys(r.peers);
    var n :| n in r.peers.Keys;
    oldest := n;
    var todo := r.peers.Keys - {n};
    while todo != {}
      invariant todo <= r.peers.Keys && oldest in r.peers
      invariant forall m :: m in r.peers && m !in todo ==> r.peers[oldest].joinedAt <= r.peers[m].joinedAt
    {
      var m :| m in todo;
      if r.peers[m].joinedAt < r.peers[oldest].joinedAt {
        oldest := m;
      }
      todo := todo - {m};
    }
  }

  /** Removes the departing name's senders from one peer. */
  method DetachFrom(p: Peer, nick: string) returns (q: Peer)
    ensures q == Cut(p, nick)
  {
    var kept, todo := p.subs, p.subs;
    while todo != {}
      invariant todo <= p.subs && kept <= p.subs
      invariant forall t :: t in p.subs ==> (t in kept <==> t in todo || !HasPrefix(Id(t), nick + "-"))
    {
      var t :| t in todo;
      if HasPrefix(Id(t), nick + "-") {
        kept := kept - {t};
      }
      todo := todo - {t};
    }
    q := p.(subs := kept);
  }

  method DetachFromAll(peers: map<string, Peer>, nick: string) returns (left: map<string, Peer>)
    ensures left.Keys == peers.Keys && forall n :: n in peers ==> left[n] == Cut(peers[n], nick)
  {
    left := peers;
    var todo := peers.Keys;
    while todo != {}
      invariant todo <= peers.Keys == left.Keys
      invariant forall n :: n in peers ==> left[n] == if n in todo then peers[n] else Cut(peers[n], nick)
    {
      var n :| n in todo;
      var cut := DetachFrom(peers[n], nick);
      left := left[n := cut];
      todo := todo - {n};
    }
  }

  /** Adds a sender for the track to every peer but its publisher. */
  method SendToAll(r: Room, t: Track) returns (q: Room)
    ensures q == Fanned(r, t)
  {
    var peers, todo := r.peers, r.peers.Keys;
    while todo != {}
      invariant todo <= r.peers.Keys == peers.Keys
      invariant forall n :: n in r.peers ==> peers[n] == if n in todo then r.peers[n] else Fanned(r, t).peers[n]
    {
      var n :| n in todo;
      if n != t.owner {
        peers := peers[n := peers[n].(subs := peers[n].subs + {t})];
      }
      todo := todo - {n};
    }
    q := r.(peers := peers);
    assert q.peers == Fanned(r, t).peers;
  }

  method WithoutPeer(r: Room, nick: string) returns (q: Room)
    ensures q == r.(peers := r.peers - {nick})
  {
    q := r;
    assert nick !in r.peers ==> r.peers - {nick} == r.peers;
    if nick in r.peers {
      q := r.(peers := r.peers - {nick});
    }
  }

  /** What became of a registration. */
  datatype Registration = Attached | NoTrack | Refused | Stuck

  /** Puts an in-process participant into the place of a peer of its name. */
  method AttachLocal(r: Room, nick: string, trackOk: bool) returns (q: Room, outcome: Registration)
    ensures var fewer := r.(peers := r.peers - {nick});
            q == if trackOk && nick !in r.locals then WithLocal(fewer, nick) else fewer
    ensures outcome == if nick in r.locals then Stuck else if trackOk then Attached else NoTrack
  {
    q := WithoutPeer(r, nick);
    if nick in r.locals {
      return q, Stuck;
    }
    if !trackOk {
      return q, NoTrack;
    }
    q := SendToAll(q.(locals := q.locals[nick := Local(false)]), Track(nick, "audio", "local"));
    outcome := Attached;
  }

  /** Senders for every track published in the room by another peer or by an in-process participant. */
  method Subscribed(r: Room, nick: string) returns (subs: set<Track>)
    ensures subs == Offered(r, nick)
  {
    subs := {};
    var todo := r.peers.Keys;
    while todo != {}
      invariant todo <= r.peers.Keys
      invariant forall t :: t in subs <==>
                  exists n :: n in r.peers && n !in todo && n != nick && t in r.peers[n].published
    {
      var n :| n in todo;
      if n != nick {
        subs := subs + r.peers[n].published;
      }
      todo := todo - {n};
    }
    ghost var fromPeers := subs;
    var locals := r.locals.Keys;
    while locals != {}
      invariant locals <= r.locals.Keys
      invariant forall t :: t in subs <==>
                  t in fromPeers || exists n :: n in r.locals && n !in locals && t in LocalTracks(n, r.locals[n])
    {
      var n :| n in locals;
      subs := subs + {Track(n, "audio", "local")};
      if r.locals[n].video {
        subs := subs + {Track(n, "video", "local")};
      }
      locals := locals - {n};
    }
  }

  lemma {:induction false} SomeOldest(r: Room, among: set<string>) returns (n: string)
    requires among != {} && among <= r.peers.Keys
    ensures IsOldest(r, among, n)
  {
    n :| n in among;
    if among != {n} {
      var m := SomeOldest(r, among - {n});
      n := if r.peers[n].joinedAt <= r.peers[m].joinedAt then n else m;
    }
  }

  lemma SomeHost(s: State, ch: string) returns (host: string)
    ensures HostOk(s, ch, host)
  {
    host := "";
    if ch in s.rooms && Streamers(s.rooms[ch]) != {} {
      host := SomeOldest(s.rooms[ch], Streamers(s.rooms[ch]));
    }
  }

  // ----- The server -----

  class VoiceServer {
    var rooms: map<string, Room>
    var expected: map<string, set<string>>
    const maxPeers: nat

    ghost function View(): State
      reads this
    {
      State(rooms, expected)
    }

    constructor (maxPeers: nat)
      ensures View() == START && this.maxPeers == maxPeers
    {
      rooms, expected, this.maxPeers := map[], map[], maxPeers;
    }

    method GetOrCreateRoom(ch: string) returns (r: Room)
      modifies this`rooms
      ensures r == RoomAt(old(View()), ch) && rooms == old(rooms)[ch := r]
    {
      if ch !in rooms {
        rooms := rooms[ch := Room(HasPrefix(ch, "$"), map[], map[])];
      }
      r := rooms[ch];
    }

    method ReapEmpty(ch: string)
      modifies this`rooms
      ensures View() == Reaped(old(View()), ch)
    {
      if ch in rooms && rooms[ch].peers == map[] && rooms[ch].locals == map[] {
        rooms := rooms - {ch};
      }
    }

    method HandleJoin(nick: string, ch: string, now: int, alloc: bool)
      modifies this`rooms
      ensures View() == Joined(old(View()), maxPeers, nick, ch, now, alloc)
    {
      if !HasPrefix(ch, "^") && !HasPrefix(ch, "$") {
        return;
      }
      if ch in expected && nick in expected[ch] {
        return;
      }
      var r := GetOrCreateRoom(ch);
      if |r.peers| >= maxPeers || !alloc {
        return;
      }
      var role := Streamer;
      if r.stream {
        var streamers := StreamersInOrder(r);
        if |streamers| > 0 {
          role := Viewer;
        }
      }
      var subs := Subscribed(r, nick);
      rooms := rooms[ch := r.(peers := r.peers[nick := Peer(role, now, {}, subs)])];
    }

    /** Also reports who was promoted, if anyone. */
    method HandleLeave(nick: string, ch: string) returns (promoted: bool, heir: string)
      modifies this`rooms
      ensures HeirOk(old(View()), nick, ch, heir)
      ensures View() == Left(old(View()), nick, ch, heir)
      ensures promoted <==> old(InRoom(View(), nick, ch) && NeedsHeir(rooms[ch], nick))
    {
      promoted, heir := false, "";
      if ch !in rooms || nick !in rooms[ch].peers {
        return;
      }
      var gone := rooms[ch].peers[nick];
      var peers := DetachFromAll(rooms[ch].peers - {nick}, nick);
      ghost var without := Without(rooms[ch], nick);
      assert peers == without.peers;
      rooms := rooms[ch := rooms[ch].(peers := peers)];
      var empty := peers == map[];
      if !empty && rooms[ch].stream && gone.role == Streamer {
        var streamers := StreamersInOrder(rooms[ch]);
        if |streamers| == 0 {
          promoted := true;
          heir := Oldest(rooms[ch]);
          rooms := rooms[ch := rooms[ch].(peers := peers[heir := peers[heir].(role := Streamer)])];
          assert WithRole(without, heir, Streamer).peers != map[] by {
            assert heir in WithRole(without, heir, Streamer).peers;
          }
        }
      }
      if empty {
        ReapEmpty(ch);
      }
    }

    method HandlePromote(nick: string, ch: string, target: string)
      modifies this`rooms
      ensures View() == Promoted(old(View()), nick, ch, target)
    {
      if target == "" || ch !in rooms || nick !in rooms[ch].peers || !rooms[ch].stream {
        return;
      }
      var r := rooms[ch];
      if r.peers[nick].role != Streamer {
        return;
      }
      if target !in r.peers || r.peers[target].role == Streamer {
        return;
      }
      var streamers := StreamersInOrder(r);
      if |streamers| >= MAX_STREAMERS {
        return;
      }
      rooms := rooms[ch := r.(peers := r.peers[target := r.peers[target].(role := Streamer)])];
    }

    /** An empty target stands for the requester; the host is the oldest streamer. */
    method HandleDemote(nick: string, ch: string, target: string) returns (ghost host: string)
      modifies this`rooms
      ensures HostOk(old(View()), ch, host)
      ensures View() == Demoted(old(View()), nick, ch, if target == "" then nick else target, host)
    {
      host := SomeHost(View(), ch);
      var whom := if target == "" then nick else target;
      if ch !in rooms || nick !in rooms[ch].peers || !rooms[ch].stream {
        return;
      }
      var r := rooms[ch];
      if whom !in r.peers || r.peers[whom].role != Streamer {
        return;
      }
      assert whom in Streamers(r);
      var streamers := StreamersInOrder(r);
      host := streamers[0];
      if whom != nick && (|streamers| == 0 || nick != streamers[0]) {
        return;
      }
      rooms := rooms[ch := r.(peers := r.peers[whom := r.peers[whom].(role := Viewer)])];
    }

    /** An inbound track becomes a published one and is sent to everybody else; a viewer's is dropped. */
    method FanOutTrack(nick: string, ch: string, t: Track)
      modifies this`rooms
      ensures View() == Published(old(View()), nick, ch, t)
    {
      if ch !in rooms || nick !in rooms[ch].peers {
        return;
      }
      var r := rooms[ch];
      if r.stream && r.peers[nick].role != Streamer {
        return;
      }
      r := r.(peers := r.peers[nick := r.peers[nick].(published := r.peers[nick].published + {t})]);
      r := SendToAll(r, t);
      rooms := rooms[ch := r];
    }

    /** The same from a peer object that the room no longer holds; role is the one it had. */
    method FanOutStraggler(role: Role, nick: string, ch: string, t: Track)
      requires t.owner == nick
      modifies this`rooms
      ensures View() == if ch in old(rooms) && old(rooms)[ch].stream && role != Streamer then old(View())
                        else Straggled(old(View()), ch, t)
    {
      if ch !in rooms || (rooms[ch].stream && role != Streamer) {
        return;
      }
      var r := SendToAll(rooms[ch], t);
      rooms := rooms[ch := r];
    }

    method MarkLocalExpected(ch: string, nick: string)
      modifies this`expected
      ensures View() == MarkExpected(old(View()), nick, ch)
    {
      if ch !in expected {
        expected := expected[ch := {}];
      }
      expected := expected[ch := expected[ch] + {nick}];
    }

    method ClearLocalExpected(ch: string, nick: string)
      modifies this`expected
      ensures View() == ClearExpected(old(View()), nick, ch)
    {
      if ch in expected {
        expected := expected[ch := expected[ch] - {nick}];
        if expected[ch] == {} {
          expected := expected - {ch};
        }
      }
      assert View().expected == ClearExpected(old(View()), nick, ch).expected;
    }

    /** Takes the place of a peer of the same name. Registering a name that is in-process already waits forever for the
        room's lock, which it holds itself. */
    method RegisterLocal(nick: string, ch: string, trackOk: bool) returns (outcome: Registration)
      modifies this
      ensures View() == Registered(old(View()), nick, ch, trackOk)
      ensures outcome == if nick == "" || !ValidChannel(ch) then Refused
                         else if old(IsLocal(View(), nick, ch)) then Stuck
                         else if trackOk then Attached else NoTrack
    {
      if nick == "" || (!HasPrefix(ch, "^") && !HasPrefix(ch, "$")) {
        return Refused;
      }
      MarkLocalExpected(ch, nick);
      var r := GetOrCreateRoom(ch);
      hide RoomAt, WithLocal, MarkExpected, Expected;
      r, outcome := AttachLocal(r, nick, trackOk);
      rooms := rooms[ch := r];
    }

    /** A participant that already stopped is left alone. */
    method StopLocal(nick: string, ch: string)
      modifies this
      ensures View() == Stopped(old(View()), nick, ch)
    {
      if ch in rooms && nick in rooms[ch].locals {
        rooms := rooms[ch := rooms[ch].(locals := rooms[ch].locals - {nick})];
        ClearLocalExpected(ch, nick);
        ReapEmpty(ch);
      }
    }

    /** The video track is created with the first packet. */
    method SendVideoRtp(nick: string, ch: string, trackOk: bool) returns (ok: bool)
      modifies this`rooms
      ensures View() == VideoSent(old(View()), nick, ch, trackOk)
      ensures ok <==> old(IsLocal(View(), nick, ch)) && (trackOk || old(rooms[ch].locals[nick].video))
    {
      if ch !in rooms || nick !in rooms[ch].locals {
        return false;
      }
      if !rooms[ch].locals[nick].video {
        if !trackOk {
          return false;
        }
        var r := rooms[ch].(locals := rooms[ch].locals[nick := Local(true)]);
        r := SendToAll(r, Track(nick, "video", "local"));
        rooms := rooms[ch := r];
      }
      return true;
    }

    /** Without a channel the name leaves every room it is found in, one after the other. */
    method PartOrQuit(nick: string, ch: string) returns (ghost leaves: seq<Step>)
      modifies this`rooms
      ensures LeavesTo(old(View()), nick, leaves, View())
      ensures ch != "" ==> |leaves| == 1 && leaves[0].ch == ch
      ensures ch == "" ==> forall i :: 0 <= i < |leaves| ==> old(InRoom(View(), nick, leaves[i].ch))
      ensures ch == "" ==> forall c :: !InRoom(View(), nick, c)
    {
      leaves := [];
      if ch != "" {
        var _, heir := HandleLeave(nick, ch);
        leaves := [Leave(nick, ch, heir)];
        return;
      }
      var channels: seq<string>, todo := [], rooms.Keys;
      while todo != {}
        invariant todo <= rooms.Keys
        invariant forall c :: c in channels <==> c !in todo && InRoom(View(), nick, c)
      {
        var c :| c in todo;
        if nick in rooms[c].peers {
          channels := channels + [c];
        }
        todo := todo - {c};
      }
      for i := 0 to |channels|
        invariant LeavesTo(old(View()), nick, leaves, View())
        invariant |leaves| == i && forall j :: 0 <= j < i ==> leaves[j].ch == channels[j]
        invariant forall c :: InRoom(View(), nick, c) ==> c in channels[i..]
      {
        ghost var before := View();
        var _, heir := HandleLeave(nick, channels[i]);
        LeavesSnoc(old(View()), nick, leaves, before, Leave(nick, channels[i], heir));
        leaves := leaves + [Leave(nick, channels[i], heir)];
        LeaveFrees(before, nick, channels[i], heir);
      }
    }
  }

  // ----- Departures in a row -----

  /** The name leaves the rooms of the steps, in order. */
  ghost predicate LeavesTo(s: State, nick: string, leaves: seq<Step>, t: State)
    decreases |leaves|
  {
    if leaves == [] then t == s
    else
      && leaves[0].Leave? && leaves[0].nick == nick && Enabled(s, leaves[0])
      && LeavesTo(Next(s, 0, leaves[0]), nick, leaves[1..], t)
  }

  lemma {:induction false} LeavesSnoc(s: State, nick: string, leaves: seq<Step>, t: State, step: Step)
    requires LeavesTo(s, nick, leaves, t) && step.Leave? && step.nick == nick && Enabled(t, step)
    ensures LeavesTo(s, nick, leaves + [step], Next(t, 0, step))
    decreases |leaves|
  {
    if leaves == [] {
      assert (leaves + [step])[1..] == [];
    } else {
      LeavesSnoc(Next(s, 0, leaves[0]), nick, leaves[1..], t, step);
      assert (leaves + [step])[1..] == leaves[1..] + [step];
    }
  }

  /** A departure takes the name out of that room and no other name out of any room. */
  lemma LeaveFrees(s: State, nick: string, ch: string, heir: string)
    requires HeirOk(s, nick, ch, heir)
    ensures forall n, c :: InRoom(Left(s, nick, ch, heir), n, c) <==> InRoom(s, n, c) && !(n == nick && c == ch)
  {
    var t := Left(s, nick, ch, heir);
    if InRoom(s, nick, ch) {
      LeavePromotes(s, nick, ch, heir);
      var left := Without(s.rooms[ch], nick);
      assert left.peers.Keys == s.rooms[ch].peers.Keys - {nick};
      NoKeys(left.peers);
      assert forall n :: InRoom(t, n, ch) <==> n in left.peers;
      assert forall n, c :: c != ch ==> (InRoom(t, n, c) <==> InRoom(s, n, c));
    }
  }

  /** Departures in a row keep roles, membership and a streamer in every stream room, remove the name from exactly the
      rooms they were for, and remove no one else. */
  lemma {:induction false} DeparturesKeep(s: State, max: nat, nick: string, leaves: seq<Step>, t: State)
    requires LeavesTo(s, nick, leaves, t) && max > 0
    ensures Roles(s, max) ==> Roles(t, max)
    ensures Members(s) ==> Members(t)
    ensures Covered(s) ==> Covered(t)
    ensures forall n, c :: InRoom(t, n, c) <==>
              InRoom(s, n, c) && !(n == nick && exists i :: 0 <= i < |leaves| && leaves[i].ch == c)
    decreases |leaves|
  {
    hide Roles, Members, Covered, Left, InRoom;
    if leaves != [] {
      var u, ch, heir := Next(s, 0, leaves[0]), leaves[0].ch, leaves[0].heir;
      DeparturesKeep(u, max, nick, leaves[1..], t);
      if Roles(s, max) {
        LeaveRoles(s, max, nick, ch, heir);
      }
      if Members(s) {
        LeaveMembers(s, nick, ch, heir);
      }
      if Covered(s) {
        LeaveCovers(s, nick, ch, heir);
      }
      LeaveFrees(s, nick, ch, heir);
      forall n, c
        ensures InRoom(t, n, c) <==>
                InRoom(s, n, c) && !(n == nick && exists i :: 0 <= i < |leaves| && leaves[i].ch == c)
      {
        assert (exists i :: 0 <= i < |leaves| && leaves[i].ch == c) <==>
               c == ch || exists i :: 0 <= i < |leaves[1..]| && leaves[1..][i].ch == c by {
          if c != ch && exists i :: 0 <= i < |leaves| && leaves[i].ch == c {
            var i :| 0 <= i < |leaves| && leaves[i].ch == c;
            assert leaves[1..][i - 1].ch == c;
          }
        }
      }
    }
  }
}
