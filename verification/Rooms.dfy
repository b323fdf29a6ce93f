/** Voice and stream rooms: membership, roles, in-process participants and track bookkeeping (voice.go,
    voice_local.go, and the part/quit handling of voice_bridge.go). Each handler is one atomic step. */
module Rooms {
  import opened Basics
  import opened Text
  import opened TrackIds

  const MAX_STREAMERS := 4

  datatype Role = Streamer | Viewer

  /** published are the peer's own tracks, subs the tracks it is sent. */
  datatype Peer = Peer(role: Role, joinedAt: int, published: set<Track>, subs: set<Track>)

  /** An in-process participant: always an audio track, a video track once it sent video. */
  datatype Local = Local(video: bool)

  datatype Room = Room(stream: bool, peers: map<string, Peer>, locals: map<string, Local>)

  datatype State = State(rooms: map<string, Room>, expected: map<string, set<string>>)

  predicate ValidChannel(ch: string) {
    HasPrefix(ch, "^") || HasPrefix(ch, "$")
  }

  function Expected(s: State, ch: string): set<string> {
    if ch in s.expected then s.expected[ch] else {}
  }

  function RoomAt(s: State, ch: string): Room {
    if ch in s.rooms then s.rooms[ch] else Room(HasPrefix(ch, "$"), map[], map[])
  }

  function Streamers(r: Room): set<string> {
    set n | n in r.peers && r.peers[n].role == Streamer
  }

  ghost predicate IsOldest(r: Room, among: set<string>, n: string)
    requires among <= r.peers.Keys
  {
    n in among && forall m :: m in among ==> r.peers[n].joinedAt <= r.peers[m].joinedAt
  }

  function LocalTracks(nick: string, l: Local): set<Track> {
    {Track(nick, "audio", "local")} + if l.video then {Track(nick, "video", "local")} else {}
  }

  // ----- What each handler does -----

  /** Every track published in the room by anyone else. */
  function Offered(r: Room, nick: string): set<Track> {
    (set n, t | n in r.peers && n != nick && t in r.peers[n].published :: t)
    + (set n, t | n in r.locals && t in LocalTracks(n, r.locals[n]) :: t)
  }

  function NewPeer(r: Room, nick: string, now: int): Peer {
    Peer(if r.stream && Streamers(r) != {} then Viewer else Streamer, now, {}, Offered(r, nick))
  }

  function Joined(s: State, max: nat, nick: string, ch: string, now: int, alloc: bool): State {
    if !ValidChannel(ch) || nick in Expected(s, ch) then s
    else
      var r := RoomAt(s, ch);
      if |r.peers| >= max || !alloc then s.(rooms := s.rooms[ch := r])
      else s.(rooms := s.rooms[ch := r.(peers := r.peers[nick := NewPeer(r, nick, now)])])
  }

  /** The peer stops receiving every track whose id starts with the name and a hyphen. */
  function Cut(p: Peer, nick: string): Peer {
    p.(subs := set t | t in p.subs && !HasPrefix(Id(t), nick + "-"))
  }

  function Without(r: Room, nick: string): Room {
    r.(peers := map n | n in r.peers && n != nick :: Cut(r.peers[n], nick))
  }

  function Reaped(s: State, ch: string): State {
    if ch in s.rooms && s.rooms[ch].peers == map[] && s.rooms[ch].locals == map[] then s.(rooms := s.rooms - {ch})
    else s
  }

  function WithRole(r: Room, nick: string, role: Role): Room
    requires nick in r.peers
  {
    r.(peers := r.peers[nick := r.peers[nick].(role := role)])
  }

  /** The departure takes the last streamer from a stream room that still has peers. */
  predicate NeedsHeir(r: Room, nick: string)
    requires nick in r.peers
  {
    && Without(r, nick).peers != map[] && r.stream
    && r.peers[nick].role == Streamer && Streamers(Without(r, nick)) == {}
  }

  predicate InRoom(s: State, nick: string, ch: string) {
    ch in s.rooms && nick in s.rooms[ch].peers
  }

  ghost predicate HeirOk(s: State, nick: string, ch: string, heir: string) {
    InRoom(s, nick, ch) && NeedsHeir(s.rooms[ch], nick) ==>
      var left := Without(s.rooms[ch], nick); IsOldest(left, left.peers.Keys, heir)
  }

  function Left(s: State, nick: string, ch: string, heir: string): State
    requires HeirOk(s, nick, ch, heir)
  {
    if !InRoom(s, nick, ch) then s
    else
      var left := Without(s.rooms[ch], nick);
      var after := if NeedsHeir(s.rooms[ch], nick) then WithRole(left, heir, Streamer) else left;
      Reaped(s.(rooms := s.rooms[ch := after]), ch)
  }

  function Promoted(s: State, nick: string, ch: string, target: string): State {
    if target != "" && InRoom(s, nick, ch) && s.rooms[ch].stream
       && s.rooms[ch].peers[nick].role == Streamer
       && target in s.rooms[ch].peers && s.rooms[ch].peers[target].role != Streamer
       && |Streamers(s.rooms[ch])| < MAX_STREAMERS
    then s.(rooms := s.rooms[ch := WithRole(s.rooms[ch], target, Streamer)])
    else s
  }

  /** The demotion applies: to a streamer, by itself or by the host. */
  predicate MayDemote(s: State, nick: string, ch: string, target: string, host: string) {
    && InRoom(s, nick, ch) && s.rooms[ch].stream
    && target in Streamers(s.rooms[ch])
    && (target == nick || nick == host)
  }

  ghost predicate HostOk(s: State, ch: string, host: string) {
    ch in s.rooms && Streamers(s.rooms[ch]) != {} ==> IsOldest(s.rooms[ch], Streamers(s.rooms[ch]), host)
  }

  function Demoted(s: State, nick: string, ch: string, target: string, host: string): State {
    if MayDemote(s, nick, ch, target, host) then s.(rooms := s.rooms[ch := WithRole(s.rooms[ch], target, Viewer)])
    else s
  }

  /** Sends one more track to every peer of the room except its publisher. */
  function Fanned(r: Room, t: Track): Room {
    r.(peers := map n | n in r.peers :: if n == t.owner then r.peers[n] else r.peers[n].(subs := r.peers[n].subs + {t}))
  }

  function Published(s: State, nick: string, ch: string, t: Track): State {
    if !InRoom(s, nick, ch) || (s.rooms[ch].stream && s.rooms[ch].peers[nick].role != Streamer) then s
    else
      var r := s.rooms[ch];
      var own := r.(peers := r.peers[nick := r.peers[nick].(published := r.peers[nick].published + {t})]);
      s.(rooms := s.rooms[ch := Fanned(own, t)])
  }

  /** A peer object that was replaced or has left, but whose connection still delivers a track to the room. */
  function Straggled(s: State, ch: string, t: Track): State {
    if ch !in s.rooms then s else s.(rooms := s.rooms[ch := Fanned(s.rooms[ch], t)])
  }

  function MarkExpected(s: State, nick: string, ch: string): State {
    s.(expected := s.expected[ch := Expected(s, ch) + {nick}])
  }

  /** A registration marks its name as expected before it gets hold of the room. */
  function Awaited(s: State, nick: string, ch: string): State {
    if nick == "" || !ValidChannel(ch) then s else MarkExpected(s, nick, ch)
  }

  /** The rest of it: a peer of that name goes, and the participant comes, unless its track cannot be made or the name
      is in-process already; the latter registration never returns. */
  function Registered(s: State, nick: string, ch: string, ok: bool): State {
    if nick == "" || !ValidChannel(ch) then s
    else
      var r := RoomAt(s, ch).(peers := RoomAt(s, ch).peers - {nick});
      var after := if ok && nick !in r.locals then WithLocal(r, nick) else r;
      MarkExpected(s, nick, ch).(rooms := s.rooms[ch := after])
  }

  function WithLocal(r: Room, nick: string): Room {
    Fanned(r.(locals := r.locals[nick := Local(false)]), Track(nick, "audio", "local"))
  }

  function ClearExpected(s: State, nick: string, ch: string): State {
    if ch !in s.expected then s
    else if s.expected[ch] - {nick} == {} then s.(expected := s.expected - {ch})
    else s.(expected := s.expected[ch := s.expected[ch] - {nick}])
  }

  predicate IsLocal(s: State, nick: string, ch: string) {
    ch in s.rooms && nick in s.rooms[ch].locals
  }

  function Stopped(s: State, nick: string, ch: string): State {
    if !IsLocal(s, nick, ch) then s
    else
      var r := s.rooms[ch];
      Reaped(ClearExpected(s.(rooms := s.rooms[ch := r.(locals := r.locals - {nick})]), nick, ch), ch)
  }

  function VideoSent(s: State, nick: string, ch: string, ok: bool): State {
    if !IsLocal(s, nick, ch) || s.rooms[ch].locals[nick].video || !ok then s
    else
      var r := s.rooms[ch].(locals := s.rooms[ch].locals[nick := Local(true)]);
      s.(rooms := s.rooms[ch := Fanned(r, Track(nick, "video", "local"))])
  }

  // ----- Runs -----

  /** One handler invocation; a registration may take its two steps apart. alloc and ok say whether the media objects
      could be created; heir and host are the oldest peer, respectively oldest streamer, the handler settles on. */
  datatype Step =
    | Join(nick: string, ch: string, now: int, alloc: bool)
    | Leave(nick: string, ch: string, heir: string)
    | Promote(nick: string, ch: string, target: string)
    | Demote(nick: string, ch: string, target: string, host: string)
    | Publish(nick: string, ch: string, track: Track)
    | Straggle(nick: string, ch: string, track: Track)
    | Await(nick: string, ch: string)
    | Register(nick: string, ch: string, ok: bool)
    | Stop(nick: string, ch: string)
    | SendVideo(nick: string, ch: string, ok: bool)

  /** Published tracks are the publisher's own. */
  ghost predicate Enabled(s: State, step: Step) {
    match step
    case Leave(nick, ch, heir) => HeirOk(s, nick, ch, heir)
    case Demote(nick, ch, target, host) => HostOk(s, ch, host)
    case Publish(nick, ch, track) => track.owner == nick && Clean(track)
    case Straggle(nick, ch, track) => track.owner == nick && Clean(track)
    case _ => true
  }

  ghost function Next(s: State, max: nat, step: Step): State
    requires Enabled(s, step)
  {
    match step
    case Join(nick, ch, now, alloc) => Joined(s, max, nick, ch, now, alloc)
    case Leave(nick, ch, heir) => Left(s, nick, ch, heir)
    case Promote(nick, ch, target) => Promoted(s, nick, ch, target)
    case Demote(nick, ch, target, host) => Demoted(s, nick, ch, target, host)
    case Publish(nick, ch, track) => Published(s, nick, ch, track)
    case Straggle(nick, ch, track) => Straggled(s, ch, track)
    case Await(nick, ch) => Awaited(s, nick, ch)
    case Register(nick, ch, ok) => Registered(s, nick, ch, ok)
    case Stop(nick, ch) => Stopped(s, nick, ch)
    case SendVideo(nick, ch, ok) => VideoSent(s, nick, ch, ok)
  }

  const START := State(map[], map[])

  ghost predicate IsRun(max: nat, steps: seq<Step>, ss: seq<State>) {
    && |ss| == |steps| + 1 && ss[0] == START
    && forall i :: 0 <= i < |steps| ==> Enabled(ss[i], steps[i]) && ss[i + 1] == Next(ss[i], max, steps[i])
  }

  // ----- Roles and sizes -----

  ghost predicate RoomRoles(r: Room, max: nat) {
    && |r.peers| <= max
    && (r.stream ==> |Streamers(r)| <= MAX_STREAMERS)
    && (!r.stream ==> Streamers(r) == r.peers.Keys)
  }

  ghost predicate Roles(s: State, max: nat) {
    forall ch :: ch in s.rooms ==> s.rooms[ch].stream == HasPrefix(ch, "$") && RoomRoles(s.rooms[ch], max)
  }

  lemma AddPeerRoles(r: Room, max: nat, nick: string, p: Peer)
    requires RoomRoles(r, max) && |r.peers| < max
    requires if r.stream then p.role == Viewer || Streamers(r) == {} else p.role == Streamer
    ensures RoomRoles(r.(peers := r.peers[nick := p]), max)
  {
    var after := r.(peers := r.peers[nick := p]);
    assert after.peers.Keys == r.peers.Keys + {nick};
    assert |after.peers.Keys| <= |r.peers.Keys| + 1;
    if r.stream {
      assert Streamers(after) == if p.role == Streamer then {nick} else Streamers(r) - {nick};
      SubsetSize(Streamers(r) - {nick}, Streamers(r));
    } else {
      assert Streamers(after) == after.peers.Keys;
    }
  }

  lemma FewerPeersRoles(r: Room, after: Room, max: nat)
    requires RoomRoles(r, max) && after.stream == r.stream && after.peers.Keys <= r.peers.Keys
    requires forall n :: n in after.peers ==> after.peers[n].role == r.peers[n].role
    ensures RoomRoles(after, max) && Streamers(after) == Streamers(r) * after.peers.Keys
  {
    SubsetSize(after.peers.Keys, r.peers.Keys);
    SubsetSize(Streamers(after), Streamers(r));
  }

  lemma RoleChange(r: Room, max: nat, nick: string, role: Role)
    requires RoomRoles(r, max) && nick in r.peers && r.stream
    requires role == Streamer ==> |Streamers(r)| < MAX_STREAMERS
    ensures RoomRoles(WithRole(r, nick, role), max)
    ensures Streamers(WithRole(r, nick, role))
            == if role == Streamer then Streamers(r) + {nick} else Streamers(r) - {nick}
  {
    var after := WithRole(r, nick, role);
    assert after.peers.Keys == r.peers.Keys;
    assert Streamers(after) == if role == Streamer then Streamers(r) + {nick} else Streamers(r) - {nick};
    SubsetSize(Streamers(r) - {nick}, Streamers(r));
  }

  /** Replacing one room by one that fits keeps all rooms fitting. */
  lemma ReplaceRoom(s: State, max: nat, ch: string, r: Room)
    requires Roles(s, max) && RoomRoles(r, max) && r.stream == HasPrefix(ch, "$")
    ensures Roles(s.(rooms := s.rooms[ch := r]), max)
  {
  }

  lemma RoomAtRoles(s: State, max: nat, ch: string)
    requires Roles(s, max)
    ensures RoomRoles(RoomAt(s, ch), max) && RoomAt(s, ch).stream == HasPrefix(ch, "$")
  {
  }

  lemma JoinRoles(s: State, max: nat, nick: string, ch: string, now: int, alloc: bool)
    requires Roles(s, max)
    ensures Roles(Joined(s, max, nick, ch, now, alloc), max)
  {
    hide RoomRoles;
    var r := RoomAt(s, ch);
    RoomAtRoles(s, max, ch);
    ReplaceRoom(s, max, ch, r);
    if |r.peers| < max {
      AddPeerRoles(r, max, nick, NewPeer(r, nick, now));
      ReplaceRoom(s, max, ch, r.(peers := r.peers[nick := NewPeer(r, nick, now)]));
    }
  }

  lemma LeaveRoles(s: State, max: nat, nick: string, ch: string, heir: string)
    requires Roles(s, max) && HeirOk(s, nick, ch, heir)
    ensures Roles(Left(s, nick, ch, heir), max)
  {
    hide RoomRoles;
    if InRoom(s, nick, ch) {
      var left := Without(s.rooms[ch], nick);
      FewerPeersRoles(s.rooms[ch], left, max);
      ReplaceRoom(s, max, ch, left);
      if NeedsHeir(s.rooms[ch], nick) {
        RoleChange(left, max, heir, Streamer);
        ReplaceRoom(s, max, ch, WithRole(left, heir, Streamer));
      }
    }
  }

  lemma SwitchRoles(s: State, max: nat, nick: string, ch: string, target: string, host: string)
    requires Roles(s, max)
    ensures Roles(Promoted(s, nick, ch, target), max) && Roles(Demoted(s, nick, ch, target, host), max)
  {
    hide RoomRoles;
    if Promoted(s, nick, ch, target) != s {
      RoleChange(s.rooms[ch], max, target, Streamer);
      ReplaceRoom(s, max, ch, WithRole(s.rooms[ch], target, Streamer));
    }
    if MayDemote(s, nick, ch, target, host) {
      RoleChange(s.rooms[ch], max, target, Viewer);
      ReplaceRoom(s, max, ch, WithRole(s.rooms[ch], target, Viewer));
    }
  }

  /** A step that changes one room without adding peers or roles. */
  lemma QuietRoles(s: State, t: State, max: nat, ch: string)
    requires Roles(s, max) && ch in t.rooms && t.rooms == s.rooms[ch := t.rooms[ch]]
    requires t.rooms[ch].stream == RoomAt(s, ch).stream && t.rooms[ch].peers.Keys <= RoomAt(s, ch).peers.Keys
    requires forall n :: n in t.rooms[ch].peers ==> t.rooms[ch].peers[n].role == RoomAt(s, ch).peers[n].role
    ensures Roles(t, max)
  {
    hide RoomRoles;
    RoomAtRoles(s, max, ch);
    FewerPeersRoles(RoomAt(s, ch), t.rooms[ch], max);
    ReplaceRoom(s, max, ch, t.rooms[ch]);
  }

  lemma StopRoles(s: State, max: nat, nick: string, ch: string)
    requires Roles(s, max)
    ensures Roles(Stopped(s, nick, ch), max)
  {
    if IsLocal(s, nick, ch) {
      var r := s.rooms[ch].(locals := s.rooms[ch].locals - {nick});
      FewerPeersRoles(s.rooms[ch], r, max);
      hide RoomRoles, Streamers;
      ReplaceRoom(s, max, ch, r);
      FewerRooms(s.(rooms := s.rooms[ch := r]), Stopped(s, nick, ch), max);
    }
  }

  lemma FewerRooms(s: State, t: State, max: nat)
    requires Roles(s, max) && forall ch :: ch in t.rooms ==> ch in s.rooms && t.rooms[ch] == s.rooms[ch]
    ensures Roles(t, max)
  {
  }

  lemma NextRoles(s: State, max: nat, step: Step)
    requires Roles(s, max) && Enabled(s, step)
    ensures Roles(Next(s, max, step), max)
  {
    hide Roles, Joined, Left, Promoted, Demoted, Stopped;
    match step {
      case Join(nick, ch, now, alloc) => JoinRoles(s, max, nick, ch, now, alloc);
      case Leave(nick, ch, heir) => LeaveRoles(s, max, nick, ch, heir);
      case Promote(nick, ch, target) => SwitchRoles(s, max, nick, ch, target, "");
      case Demote(nick, ch, target, host) => SwitchRoles(s, max, nick, ch, target, host);
      case Publish(nick, ch, track) =>
        if Published(s, nick, ch, track) != s {
          QuietRoles(s, Published(s, nick, ch, track), max, ch);
        }
      case Register(nick, ch, ok) =>
        if Registered(s, nick, ch, ok) != s {
          QuietRoles(s, Registered(s, nick, ch, ok), max, ch);
        }
      case Stop(nick, ch) => StopRoles(s, max, nick, ch);
      case SendVideo(nick, ch, ok) =>
        if VideoSent(s, nick, ch, ok) != s {
          QuietRoles(s, VideoSent(s, nick, ch, ok), max, ch);
        }
      case Straggle(nick, ch, track) =>
        if ch in s.rooms {
          QuietRoles(s, Straggled(s, ch, track), max, ch);
        }
      case Await(nick, ch) => FewerRooms(s, Awaited(s, nick, ch), max);
    }
  }

  /** In every run, failed allocations included, a stream room has at most four streamers, every peer of a voice
      room is a streamer, and no room holds more peers than the limit. */
  lemma {:induction false} RunRoles(max: nat, steps: seq<Step>, ss: seq<State>, i: nat)
    requires IsRun(max, steps, ss) && i < |ss|
    ensures Roles(ss[i], max)
  {
    if i > 0 {
      RunRoles(max, steps, ss, i - 1);
      NextRoles(ss[i - 1], max, steps[i - 1]);
    }
  }

  // ----- Names of both kinds -----

  /** The two states differ at most in one channel. */
  ghost predicate SameElsewhere(s: State, t: State, ch: string) {
    forall c :: c != ch ==>
      && (c in t.rooms <==> c in s.rooms) && (c in s.rooms ==> t.rooms[c] == s.rooms[c])
      && (c in t.expected <==> c in s.expected) && (c in s.expected ==> t.expected[c] == s.expected[c])
  }

  /** No name is both a peer and in-process, and who is in-process is expected to be. */
  ghost predicate RoomApart(r: Room, expected: set<string>) {
    r.peers.Keys !! r.locals.Keys && r.locals.Keys <= expected
  }

  ghost predicate Apart(s: State) {
    forall ch :: ch in s.rooms ==> RoomApart(s.rooms[ch], Expected(s, ch))
  }

  lemma ApartAt(s: State, ch: string)
    requires Apart(s)
    ensures RoomApart(RoomAt(s, ch), Expected(s, ch))
  {
  }

  lemma ApartOne(s: State, t: State, ch: string)
    requires Apart(s) && SameElsewhere(s, t, ch)
    requires ch in t.rooms ==> RoomApart(t.rooms[ch], Expected(t, ch))
    ensures Apart(t)
  {
  }

  lemma StillExpected(s: State, nick: string, ch: string)
    ensures forall c ::
              Expected(ClearExpected(s, nick, ch), c) == if c == ch then Expected(s, c) - {nick} else Expected(s, c)
    ensures ClearExpected(s, nick, ch).rooms == s.rooms
  {
  }

  lemma StopApart(s: State, nick: string, ch: string)
    requires Apart(s)
    ensures Apart(Stopped(s, nick, ch))
  {
    if IsLocal(s, nick, ch) {
      ApartAt(s, ch);
      var r := s.rooms[ch].(locals := s.rooms[ch].locals - {nick});
      var u := s.(rooms := s.rooms[ch := r]);
      StillExpected(u, nick, ch);
      hide ClearExpected, Expected;
      FewerApart(u, Stopped(s, nick, ch), nick, ch);
    }
  }

  /** Taking a name that is in-process nowhere in the room any more off its list. */
  lemma FewerApart(s: State, t: State, nick: string, ch: string)
    requires forall c :: c in s.rooms && c != ch ==> RoomApart(s.rooms[c], Expected(s, c))
    requires ch in s.rooms && RoomApart(s.rooms[ch], Expected(s, ch) - {nick})
    requires forall c :: Expected(t, c) == if c == ch then Expected(s, c) - {nick} else Expected(s, c)
    requires forall c :: c in t.rooms ==> c in s.rooms && t.rooms[c] == s.rooms[c]
    ensures Apart(t)
  {
  }

  lemma ApartMore(s: State, nick: string, ch: string)
    requires Apart(s)
    ensures Apart(Awaited(s, nick, ch))
  {
  }

  lemma RegisterApart(s: State, nick: string, ch: string, ok: bool)
    requires Apart(s)
    ensures Apart(Registered(s, nick, ch, ok))
  {
    ApartAt(s, ch);
    hide Apart;
    ApartOne(s, Registered(s, nick, ch, ok), ch);
  }

  lemma LeaveApart(s: State, nick: string, ch: string, heir: string)
    requires Apart(s) && HeirOk(s, nick, ch, heir)
    ensures Apart(Left(s, nick, ch, heir))
  {
    ApartAt(s, ch);
    hide Apart;
    ApartOne(s, Left(s, nick, ch, heir), ch);
  }

  lemma SameApart(s: State, t: State)
    requires Apart(s) && t.expected == s.expected && t.rooms.Keys == s.rooms.Keys
    requires forall ch :: ch in s.rooms ==>
               t.rooms[ch].peers.Keys == s.rooms[ch].peers.Keys && t.rooms[ch].locals.Keys == s.rooms[ch].locals.Keys
    ensures Apart(t)
  {
  }

  lemma JoinApart(s: State, max: nat, nick: string, ch: string, now: int, alloc: bool)
    requires Apart(s)
    ensures Apart(Joined(s, max, nick, ch, now, alloc))
  {
    ApartAt(s, ch);
    hide Apart, NewPeer;
    ApartOne(s, Joined(s, max, nick, ch, now, alloc), ch);
  }

  lemma NextApart(s: State, max: nat, step: Step)
    requires Apart(s) && Enabled(s, step)
    ensures Apart(Next(s, max, step))
  {
    hide Apart, Joined, Left, Registered, Stopped;
    match step {
      case Leave(nick, ch, heir) => LeaveApart(s, nick, ch, heir);
      case Register(nick, ch, ok) => RegisterApart(s, nick, ch, ok);
      case Stop(nick, ch) => StopApart(s, nick, ch);
      case Await(nick, ch) => ApartMore(s, nick, ch);
      case Straggle(_, ch, t) => SameApart(s, Straggled(s, ch, t));
      case SendVideo(nick, ch, ok) => SameApart(s, VideoSent(s, nick, ch, ok));
      case Publish(nick, ch, t) => SameApart(s, Published(s, nick, ch, t));
      case Promote(nick, ch, target) => SameApart(s, Promoted(s, nick, ch, target));
      case Demote(nick, ch, target, host) => SameApart(s, Demoted(s, nick, ch, target, host));
      case Join(nick, ch, now, alloc) => JoinApart(s, max, nick, ch, now, alloc);
    }
  }

  /** In every run, failed allocations included, no name is both a peer and in-process in a room, and everybody
      in-process is expected there. */
  lemma {:induction false} RunApart(max: nat, steps: seq<Step>, ss: seq<State>, i: nat)
    requires IsRun(max, steps, ss) && i < |ss|
    ensures Apart(ss[i])
  {
    if i > 0 {
      RunApart(max, steps, ss, i - 1);
      NextApart(ss[i - 1], max, steps[i - 1]);
    }
  }

  // ----- Who is in the room -----

  ghost predicate RoomMembers(r: Room) {
    r.peers.Keys !! r.locals.Keys && (r.peers != map[] || r.locals != map[])
  }

  ghost predicate ChannelMembers(s: State, ch: string) {
    && (ch in s.rooms ==> RoomMembers(s.rooms[ch]) && s.rooms[ch].locals.Keys == Expected(s, ch))
    && (ch in s.expected ==> s.expected[ch] != {} && ch in s.rooms)
  }

  /** No name is both kinds of participant, no room in the table is empty, and the expected locals of a channel are
      exactly the registered ones. */
  ghost predicate Members(s: State) {
    forall ch :: ch in s.rooms || ch in s.expected ==> ChannelMembers(s, ch)
  }

  lemma OneChannel(s: State, t: State, ch: string)
    requires Members(s) && SameElsewhere(s, t, ch)
    ensures Members(t) <==> ChannelMembers(t, ch)
  {
  }

  lemma NoKeys<V>(m: map<string, V>)
    ensures m == map[] <==> m.Keys == {}
  {
  }

  /** The handler could not create its media object where that matters, or is only halfway through. */
  predicate FailsBadly(s: State, step: Step) {
    match step
    case Join(nick, ch, now, alloc) => !alloc && ValidChannel(ch) && nick !in Expected(s, ch) && ch !in s.rooms
    case Await(nick, ch) => nick != "" && ValidChannel(ch) && nick !in Expected(s, ch)
    case Register(nick, ch, ok) => !ok && nick != "" && ValidChannel(ch) && !IsLocal(s, nick, ch)
    case _ => false
  }

  lemma AwaitMembers(s: State, nick: string, ch: string)
    requires Members(s)
    ensures Members(Awaited(s, nick, ch)) <==> !FailsBadly(s, Await(nick, ch))
  {
    hide Members;
    var t := Awaited(s, nick, ch);
    ChannelAt(s, ch);
    OneChannel(s, t, ch);
    if t != s {
      assert t.expected[ch] == Expected(s, ch) + {nick};
    }
  }

  lemma JoinMembers(s: State, max: nat, nick: string, ch: string, now: int, alloc: bool)
    requires Members(s) && max > 0
    ensures Members(Joined(s, max, nick, ch, now, alloc)) <==> !FailsBadly(s, Join(nick, ch, now, alloc))
  {
    hide NewPeer, Members;
    var t := Joined(s, max, nick, ch, now, alloc);
    OneChannel(s, t, ch);
    ChannelAt(s, ch);
    if ValidChannel(ch) && nick !in Expected(s, ch) {
      assert nick in t.rooms[ch].peers || t.rooms[ch] == RoomAt(s, ch);
    } else {
      assert t == s;
    }
  }

  lemma ChannelAt(s: State, ch: string)
    requires Members(s)
    ensures ChannelMembers(s, ch) && RoomAt(s, ch).locals.Keys == Expected(s, ch)
  {
  }

  lemma LeaveMembers(s: State, nick: string, ch: string, heir: string)
    requires Members(s) && HeirOk(s, nick, ch, heir)
    ensures Members(Left(s, nick, ch, heir))
  {
    hide Members;
    var t := Left(s, nick, ch, heir);
    ChannelAt(s, ch);
    OneChannel(s, t, ch);
    if InRoom(s, nick, ch) && ch in t.rooms {
      assert t.rooms[ch].peers.Keys == Without(s.rooms[ch], nick).peers.Keys;
    }
  }

  lemma RegisterMembers(s: State, nick: string, ch: string, ok: bool)
    requires Members(s)
    ensures Members(Registered(s, nick, ch, ok)) <==> !FailsBadly(s, Register(nick, ch, ok))
  {
    hide Members;
    var t := Registered(s, nick, ch, ok);
    ChannelAt(s, ch);
    OneChannel(s, t, ch);
    if nick != "" && ValidChannel(ch) {
      assert t.expected[ch] == Expected(s, ch) + {nick};
      assert nick in t.rooms[ch].locals <==> ok || IsLocal(s, nick, ch);
    }
  }

  lemma StopMembers(s: State, nick: string, ch: string)
    requires Members(s)
    ensures Members(Stopped(s, nick, ch))
  {
    hide Members;
    var t := Stopped(s, nick, ch);
    ChannelAt(s, ch);
    OneChannel(s, t, ch);
    if IsLocal(s, nick, ch) {
      assert s.rooms[ch].locals.Keys - {nick} == s.expected[ch] - {nick};
      NoKeys(s.rooms[ch].locals - {nick});
    }
  }

  /** A handler keeps the membership invariant unless it failed to create a media object or is a registration halfway
      through: a failed join leaves an empty room behind exactly when it was the one to create the room, and a
      registration that failed, or has yet to get hold of the room, leaves its name expected but absent. */
  lemma NextMembers(s: State, max: nat, step: Step)
    requires Members(s) && Enabled(s, step) && max > 0
    ensures Members(Next(s, max, step)) <==> !FailsBadly(s, step)
  {
    hide Members, Joined, Left, Registered, Stopped;
    match step {
      case Join(nick, ch, now, alloc) => JoinMembers(s, max, nick, ch, now, alloc);
      case Leave(nick, ch, heir) => LeaveMembers(s, nick, ch, heir);
      case Register(nick, ch, ok) => RegisterMembers(s, nick, ch, ok);
      case Stop(nick, ch) => StopMembers(s, nick, ch);
      case SendVideo(nick, ch, ok) => SameMembers(s, VideoSent(s, nick, ch, ok));
      case Straggle(nick, ch, track) => SameMembers(s, Straggled(s, ch, track));
      case Await(nick, ch) => AwaitMembers(s, nick, ch);
      case Publish(nick, ch, track) => SameMembers(s, Published(s, nick, ch, track));
      case Promote(nick, ch, target) => SameMembers(s, Promoted(s, nick, ch, target));
      case Demote(nick, ch, target, host) => SameMembers(s, Demoted(s, nick, ch, target, host));
    }
  }

  lemma SameMembers(s: State, t: State)
    requires Members(s) && t.expected == s.expected && t.rooms.Keys == s.rooms.Keys
    requires forall ch :: ch in s.rooms ==>
               t.rooms[ch].peers.Keys == s.rooms[ch].peers.Keys && t.rooms[ch].locals.Keys == s.rooms[ch].locals.Keys
    ensures Members(t)
  {
    forall ch | ch in t.rooms || ch in t.expected ensures ChannelMembers(t, ch) {
      assert ChannelMembers(s, ch);
      if ch in t.rooms {
        NoKeys(s.rooms[ch].peers);
        NoKeys(s.rooms[ch].locals);
        NoKeys(t.rooms[ch].peers);
        NoKeys(t.rooms[ch].locals);
      }
    }
  }

  /** No media object fails to be created, and registrations run in one go. */
  ghost predicate Undisturbed(steps: seq<Step>) {
    forall i :: 0 <= i < |steps| ==>
      (steps[i].Join? ==> steps[i].alloc) && (steps[i].Register? ==> steps[i].ok) && !steps[i].Await?
  }

  /** In every run without such failures and interruptions, no name is both a peer and a local of a room, the locals of
      a channel are exactly its expected ones, and no room in the table is empty. */
  lemma {:induction false} RunMembers(max: nat, steps: seq<Step>, ss: seq<State>, i: nat)
    requires IsRun(max, steps, ss) && i < |ss| && max > 0 && Undisturbed(steps)
    ensures Members(ss[i])
  {
    if i > 0 {
      RunMembers(max, steps, ss, i - 1);
      NextMembers(ss[i - 1], max, steps[i - 1]);
    }
  }

  // ----- Someone is streaming -----

  predicate RoomCovered(r: Room) {
    r.stream && r.peers != map[] ==> Streamers(r) != {}
  }

  /** Every stream room with peers has a streamer. */
  ghost predicate Covered(s: State) {
    forall ch :: ch in s.rooms ==> RoomCovered(s.rooms[ch])
  }

  /** The handler takes a stream room's only streamer away while peers stay: a demotion, a rejoin that counts the
      entry it is about to replace, or a registration that displaces the streamer. */
  predicate Uncovers(s: State, max: nat, step: Step) {
    match step
    case Join(nick, ch, now, alloc) =>
      && ValidChannel(ch) && nick !in Expected(s, ch) && alloc
      && ch in s.rooms && s.rooms[ch].stream && |s.rooms[ch].peers| < max && Streamers(s.rooms[ch]) == {nick}
    case Demote(nick, ch, target, host) =>
      MayDemote(s, nick, ch, target, host) && Streamers(s.rooms[ch]) == {target}
    case Register(nick, ch, ok) =>
      && nick != "" && ValidChannel(ch)
      && ch in s.rooms && s.rooms[ch].stream && Streamers(s.rooms[ch]) == {nick} && s.rooms[ch].peers.Keys != {nick}
    case _ => false
  }

  lemma CoverOne(s: State, t: State, ch: string)
    requires Covered(s) && forall c :: c in t.rooms && c != ch ==> c in s.rooms && t.rooms[c] == s.rooms[c]
    ensures Covered(t) <==> (ch in t.rooms ==> RoomCovered(t.rooms[ch]))
  {
  }

  lemma JoinCovers(s: State, max: nat, nick: string, ch: string, now: int, alloc: bool)
    requires Covered(s)
    ensures Covered(Joined(s, max, nick, ch, now, alloc)) <==> !Uncovers(s, max, Join(nick, ch, now, alloc))
  {
    hide Covered, NewPeer, RoomCovered;
    var t, r := Joined(s, max, nick, ch, now, alloc), RoomAt(s, ch);
    CoverOne(s, t, ch);
    CoverAt(s, ch);
    if ValidChannel(ch) && nick !in Expected(s, ch) && |r.peers| < max && alloc {
      AddCovers(r, nick, now);
    }
  }

  lemma AddCovers(r: Room, nick: string, now: int)
    requires RoomCovered(r)
    ensures RoomCovered(r.(peers := r.peers[nick := NewPeer(r, nick, now)])) <==> !(r.stream && Streamers(r) == {nick})
  {
    hide Offered;
    var p := NewPeer(r, nick, now);
    var after := r.(peers := r.peers[nick := p]);
    assert nick in after.peers;
    assert Streamers(after) == if p.role == Streamer then Streamers(r) + {nick} else Streamers(r) - {nick};
  }

  lemma CoverAt(s: State, ch: string)
    requires Covered(s)
    ensures RoomCovered(RoomAt(s, ch))
  {
  }

  /** A departure that takes the last streamer promotes a longest-tenured remaining peer and no one else; any other
      departure leaves the remaining roles alone. */
  lemma LeavePromotes(s: State, nick: string, ch: string, heir: string)
    requires HeirOk(s, nick, ch, heir) && InRoom(s, nick, ch)
    ensures var r, t := s.rooms[ch], Left(s, nick, ch, heir);
            r.peers.Keys - {nick} != {} ==>
              && ch in t.rooms && t.rooms[ch].peers.Keys == r.peers.Keys - {nick}
              && (if r.stream && Streamers(r) == {nick} then
                    && Streamers(t.rooms[ch]) == {heir}
                    && heir in r.peers && heir != nick
                    && forall m :: m in r.peers && m != nick ==> r.peers[heir].joinedAt <= r.peers[m].joinedAt
                  else Streamers(t.rooms[ch]) == Streamers(r) - {nick})
  {
    var r := s.rooms[ch];
    var left := Without(r, nick);
    assert left.peers.Keys == r.peers.Keys - {nick};
    assert Streamers(left) == Streamers(r) - {nick};
    NoKeys(left.peers);
    if NeedsHeir(r, nick) {
      assert forall m :: m in left.peers ==> left.peers[m].joinedAt == r.peers[m].joinedAt;
      assert Streamers(WithRole(left, heir, Streamer)) == {heir};
    }
  }

  lemma LeaveCovers(s: State, nick: string, ch: string, heir: string)
    requires Covered(s) && HeirOk(s, nick, ch, heir)
    ensures Covered(Left(s, nick, ch, heir))
  {
    hide Covered;
    var t := Left(s, nick, ch, heir);
    CoverOne(s, t, ch);
    CoverAt(s, ch);
    if InRoom(s, nick, ch) {
      LeavePromotes(s, nick, ch, heir);
      NoKeys(Without(s.rooms[ch], nick).peers);
      if ch in t.rooms {
        NoKeys(t.rooms[ch].peers);
      }
    }
  }

  lemma SwitchCovers(s: State, max: nat, nick: string, ch: string, target: string, host: string)
    requires Covered(s)
    ensures Covered(Promoted(s, nick, ch, target))
    ensures Covered(Demoted(s, nick, ch, target, host)) <==> !Uncovers(s, max, Demote(nick, ch, target, host))
  {
    CoverOne(s, Promoted(s, nick, ch, target), ch);
    CoverOne(s, Demoted(s, nick, ch, target, host), ch);
    if ch in s.rooms && target in s.rooms[ch].peers {
      RoleSwitch(s.rooms[ch], target);
      hide Streamers, WithRole;
    }
  }

  lemma RoleSwitch(r: Room, target: string)
    requires target in r.peers
    ensures Streamers(WithRole(r, target, Streamer)) == Streamers(r) + {target}
    ensures Streamers(WithRole(r, target, Viewer)) == Streamers(r) - {target}
    ensures WithRole(r, target, Viewer).peers != map[] && WithRole(r, target, Viewer).stream == r.stream
  {
    assert target in WithRole(r, target, Viewer).peers;
  }

  lemma RegisteredRoom(s: State, nick: string, ch: string, ok: bool)
    requires nick != "" && ValidChannel(ch)
    ensures var t, r := Registered(s, nick, ch, ok), RoomAt(s, ch);
            && ch in t.rooms && t.rooms[ch].stream == r.stream
            && t.rooms[ch].peers.Keys == r.peers.Keys - {nick} && Streamers(t.rooms[ch]) == Streamers(r) - {nick}
  {
    FannedRoles(RoomAt(s, ch), nick);
  }

  lemma FannedRoles(r: Room, nick: string)
    ensures var q := r.(peers := r.peers - {nick});
            && q.peers.Keys == WithLocal(q, nick).peers.Keys == r.peers.Keys - {nick}
            && Streamers(q) == Streamers(WithLocal(q, nick)) == Streamers(r) - {nick}
  {
  }

  lemma DisplaceCovers(r: Room, q: Room, nick: string)
    requires RoomCovered(r) && q.stream == r.stream
    requires q.peers.Keys == r.peers.Keys - {nick} && Streamers(q) == Streamers(r) - {nick}
    ensures RoomCovered(q) <==> !(r.stream && Streamers(r) == {nick} && r.peers.Keys != {nick})
  {
    assert Streamers(r) <= r.peers.Keys;
    NoKeys(q.peers);
    NoKeys(r.peers);
  }

  lemma RegisterCovers(s: State, max: nat, nick: string, ch: string, ok: bool)
    requires Covered(s)
    ensures Covered(Registered(s, nick, ch, ok)) <==> !Uncovers(s, max, Register(nick, ch, ok))
  {
    var t, r := Registered(s, nick, ch, ok), RoomAt(s, ch);
    CoverOne(s, t, ch);
    CoverAt(s, ch);
    if nick != "" && ValidChannel(ch) {
      RegisteredRoom(s, nick, ch, ok);
      DisplaceCovers(r, t.rooms[ch], nick);
      hide Covered, RoomCovered, Registered, WithLocal;
      assert ch !in s.rooms ==> Streamers(r) == {};
    }
  }

  lemma PublishCovers(s: State, nick: string, ch: string, track: Track)
    requires Covered(s)
    ensures Covered(Published(s, nick, ch, track))
  {
  }

  lemma StraggleCovers(s: State, ch: string, track: Track)
    requires Covered(s)
    ensures Covered(Straggled(s, ch, track))
  {
  }

  lemma LocalCovers(s: State, nick: string, ch: string)
    requires Covered(s)
    ensures Covered(VideoSent(s, nick, ch, true)) && Covered(Stopped(s, nick, ch)) && Covered(Awaited(s, nick, ch))
  {
  }

  /** From a state where every stream room with peers has a streamer, a handler keeps it so exactly when it is not
      one of the three that take the only streamer away. */
  lemma NextCovered(s: State, max: nat, step: Step)
    requires Covered(s) && Enabled(s, step)
    ensures Covered(Next(s, max, step)) <==> !Uncovers(s, max, step)
  {
    hide Covered, Joined, Left, Promoted, Demoted, Published, Straggled, Awaited, Registered, Stopped;
    match step {
      case Join(nick, ch, now, alloc) => JoinCovers(s, max, nick, ch, now, alloc);
      case Leave(nick, ch, heir) => LeaveCovers(s, nick, ch, heir);
      case Promote(nick, ch, target) => SwitchCovers(s, max, nick, ch, target, "");
      case Demote(nick, ch, target, host) => SwitchCovers(s, max, nick, ch, target, host);
      case Publish(nick, ch, track) => PublishCovers(s, nick, ch, track);
      case Register(nick, ch, ok) => RegisterCovers(s, max, nick, ch, ok);
      case Stop(nick, ch) => LocalCovers(s, nick, ch);
      case SendVideo(nick, ch, ok) => LocalCovers(s, nick, ch);
      case Straggle(nick, ch, track) => StraggleCovers(s, ch, track);
      case Await(nick, ch) => LocalCovers(s, nick, ch);
    }
  }

  /** No demotion, no join by a name already in the room, no registration of a name that is a peer. */
  ghost predicate Gentle(steps: seq<Step>, ss: seq<State>)
    requires |ss| == |steps| + 1
  {
    forall i :: 0 <= i < |steps| ==>
      match steps[i]
      case Demote(_, _, _, _) => false
      case Join(nick, ch, _, _) => !InRoom(ss[i], nick, ch)
      case Register(nick, ch, _) => !InRoom(ss[i], nick, ch)
      case _ => true
  }

  /** In every run without demotions, rejoins and displacements, every stream room with peers has a streamer. */
  lemma {:induction false} RunCovered(max: nat, steps: seq<Step>, ss: seq<State>, i: nat)
    requires IsRun(max, steps, ss) && i < |ss| && Gentle(steps, ss)
    ensures Covered(ss[i])
  {
    if i > 0 {
      RunCovered(max, steps, ss, i - 1);
      NextCovered(ss[i - 1], max, steps[i - 1]);
      UncoversAre(ss[i - 1], max, steps[i - 1]);
    }
  }

  lemma UncoversAre(s: State, max: nat, step: Step)
    ensures Uncovers(s, max, step) ==>
              match step
              case Demote(_, _, _, _) => true
              case Join(nick, ch, _, _) => InRoom(s, nick, ch)
              case Register(nick, ch, _) => InRoom(s, nick, ch)
              case _ => false
  {
  }

  // ----- Runs that show it -----

  lemma Begin(max: nat) returns (steps: seq<Step>, ss: seq<State>)
    ensures IsRun(max, steps, ss) && steps == [] && ss == [START]
  {
    steps, ss := [], [START];
  }

  lemma Extend(max: nat, steps: seq<Step>, ss: seq<State>, step: Step) returns (more: seq<Step>, reached: seq<State>)
    requires IsRun(max, steps, ss) && Enabled(ss[|steps|], step)
    ensures more == steps + [step] && reached == ss + [Next(ss[|steps|], max, step)] && IsRun(max, more, reached)
  {
    more, reached := steps + [step], ss + [Next(ss[|steps|], max, step)];
  }

  /** A stream room with one peer. */
  function Alone(role: Role, now: int): State {
    State(map["$s" := Room(true, map["ann" := Peer(role, now, {}, {})], map[])], map[])
  }

  lemma FirstJoin()
    ensures Joined(START, 2, "ann", "$s", 0, true) == Alone(Streamer, 0)
  {
    assert "$s"[..1] == "$";
    var r := Room(true, map[], map[]);
    assert RoomAt(START, "$s") == r && Streamers(r) == {} && Offered(r, "ann") == {};
  }

  lemma SecondJoin()
    ensures Joined(Alone(Streamer, 0), 2, "ann", "$s", 1, true) == Alone(Viewer, 1)
  {
    assert "$s"[..1] == "$";
    var r := Alone(Streamer, 0).rooms["$s"];
    assert "ann" in Streamers(r) && Offered(r, "ann") == {} && |r.peers| == 1;
    assert r.peers["ann" := Peer(Viewer, 1, {}, {})] == map["ann" := Peer(Viewer, 1, {}, {})];
  }

  lemma AloneIsUncovered()
    ensures !Covered(Alone(Viewer, 1))
  {
    var r := Alone(Viewer, 1).rooms["$s"];
    assert "ann" in r.peers && Streamers(r) == {};
  }

  /** A lone streamer that joins again becomes a viewer. */
  lemma RejoinUncovers() returns (steps: seq<Step>, ss: seq<State>)
    ensures IsRun(2, steps, ss) && steps == [Join("ann", "$s", 0, true), Join("ann", "$s", 1, true)]
    ensures InRoom(ss[2], "ann", "$s") && !Covered(ss[2])
  {
    FirstJoin();
    SecondJoin();
    AloneIsUncovered();
    hide Joined, Covered, IsRun;
    steps, ss := Begin(2);
    steps, ss := Extend(2, steps, ss, Join("ann", "$s", 0, true));
    steps, ss := Extend(2, steps, ss, Join("ann", "$s", 1, true));
  }
}
