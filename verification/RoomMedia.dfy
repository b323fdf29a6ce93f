/** Everybody in a room is sent what everybody else publishes (voice.go, voice_local.go). */
module RoomMedia {
  import opened TrackIds
  import opened Rooms
  import opened RoomTracks

  /** The name, as a peer or in-process, publishes the track. */
  predicate Publishes(r: Room, n: string, t: Track) {
    (n in r.peers && t in r.peers[n].published) || (n in r.locals && t in LocalTracks(n, r.locals[n]))
  }

  /** Every peer is sent every track of every other participant. */
  ghost predicate Connected(r: Room) {
    forall n, m, t :: n in r.peers && m != n && Publishes(r, m, t) ==> t in r.peers[n].subs
  }

  /** In every room. */
  ghost predicate Heard(s: State) {
    forall ch :: ch in s.rooms ==> Connected(s.rooms[ch])
  }

  /** Some peer that stays is sent a track of someone else who stays, and its id looks like one of the leaver's. */
  ghost predicate CutsOff(r: Room, nick: string) {
    exists n, m, t :: n in r.peers && n != nick && m != n && m != nick && Publishes(r, m, t) && LooksLike(t, nick)
  }

  lemma JoinConnects(r: Room, nick: string, now: int)
    requires Connected(r) && nick !in r.locals
    ensures Connected(r.(peers := r.peers[nick := NewPeer(r, nick, now)]))
  {
    var after := r.(peers := r.peers[nick := NewPeer(r, nick, now)]);
    forall n, m, t | n in after.peers && m != n && Publishes(after, m, t) ensures t in after.peers[n].subs {
      assert Publishes(r, m, t);
      if n == nick {
        assert t in Offered(r, nick);
      }
    }
  }

  lemma FanOutConnects(r: Room, q: Room, n: string, t: Track)
    requires Connected(r) && t.owner == n && q.peers.Keys <= r.peers.Keys
    requires forall m :: m in q.peers ==> q.peers[m].subs == r.peers[m].subs
    requires forall m, u :: Publishes(q, m, u) ==> Publishes(r, m, u) || (m == n && u == t)
    ensures Connected(Fanned(q, t))
  {
    var after := Fanned(q, t);
    forall k, m, u | k in after.peers && m != k && Publishes(after, m, u) ensures u in after.peers[k].subs {
      assert Publishes(q, m, u);
    }
  }

  lemma FewerConnects(r: Room, q: Room)
    requires Connected(r) && q.peers.Keys <= r.peers.Keys
    requires forall m :: m in q.peers ==> q.peers[m].subs == r.peers[m].subs
    requires forall m, u :: Publishes(q, m, u) ==> Publishes(r, m, u)
    ensures Connected(q)
  {
  }

  lemma PublisherOwns(r: Room, n: string, t: Track)
    requires RoomLabelled(r) && Publishes(r, n, t)
    ensures t.owner == n && Clean(t)
  {
    if n in r.peers && t in r.peers[n].published {
      assert PeerLabelled(n, r.peers[n]);
    }
  }

  lemma Kept(r: Room, nick: string, m: string, t: Track, n: string)
    requires Connected(r) && RoomLabelled(r) && n in r.peers && m != n && m != nick && Publishes(r, m, t)
    ensures t in Cut(r.peers[n], nick).subs <==> !LooksLike(t, nick)
  {
    PublisherOwns(r, m, t);
    PrefixExact(t, nick);
    assert t in r.peers[n].subs;
  }

  /** A departure cuts someone who stays off from someone else who stays exactly when it is sent a track that looks like
      the leaver's. */
  lemma LeaveConnects(r: Room, nick: string)
    requires Connected(r) && RoomLabelled(r) && nick in r.peers && nick !in r.locals
    ensures Connected(Without(r, nick)) <==> !CutsOff(r, nick)
  {
    var after := Without(r, nick);
    forall n, m, t | n in r.peers && n != nick && m != n && m != nick && Publishes(r, m, t)
      ensures t in after.peers[n].subs <==> !LooksLike(t, nick)
    {
      Kept(r, nick, m, t, n);
    }
    assert forall m, t :: Publishes(after, m, t) <==> m != nick && Publishes(r, m, t);
    hide LooksLike, Publishes, RoomLabelled;
  }

  lemma RoleConnects(r: Room, nick: string, role: Role)
    requires nick in r.peers
    ensures Connected(WithRole(r, nick, role)) <==> Connected(r)
  {
    var q := WithRole(r, nick, role);
    assert forall m, u :: Publishes(q, m, u) == Publishes(r, m, u);
    assert q.peers.Keys == r.peers.Keys && forall n :: n in r.peers ==> q.peers[n].subs == r.peers[n].subs;
    hide WithRole;
    SameConnected(r, q);
  }

  lemma SameConnected(r: Room, q: Room)
    requires q.peers.Keys == r.peers.Keys && forall n :: n in r.peers ==> q.peers[n].subs == r.peers[n].subs
    requires forall m, u :: Publishes(q, m, u) == Publishes(r, m, u)
    ensures Connected(q) <==> Connected(r)
  {
    hide Publishes;
  }

  lemma HeardAt(s: State, ch: string)
    requires Heard(s)
    ensures Connected(RoomAt(s, ch))
  {
  }

  lemma HeardOne(s: State, t: State, ch: string)
    requires Heard(s) && forall c :: c in t.rooms && c != ch ==> c in s.rooms && t.rooms[c] == s.rooms[c]
    ensures Heard(t) <==> (ch in t.rooms ==> Connected(t.rooms[ch]))
  {
  }

  lemma LeaveIsHeard(s: State, nick: string, ch: string, heir: string)
    requires Heard(s) && Labelled(s) && Apart(s) && HeirOk(s, nick, ch, heir)
    ensures Heard(Left(s, nick, ch, heir)) <==> !(InRoom(s, nick, ch) && CutsOff(s.rooms[ch], nick))
  {
    HeardAt(s, ch);
    ApartAt(s, ch);
    LabelAt(s, ch);
    HeardOne(s, Left(s, nick, ch, heir), ch);
    hide Heard, Connected, Labelled, RoomLabelled, Apart, Cut, CutsOff;
    if InRoom(s, nick, ch) {
      var left := Without(s.rooms[ch], nick);
      LeaveConnects(s.rooms[ch], nick);
      EmptyIsConnected(left);
      if NeedsHeir(s.rooms[ch], nick) {
        RoleConnects(left, heir, Streamer);
      }
    }
  }

  lemma EmptyIsConnected(r: Room)
    ensures r.peers == map[] ==> Connected(r)
  {
  }

  lemma RegisterIsHeard(s: State, nick: string, ch: string, ok: bool)
    requires Heard(s)
    ensures Heard(Registered(s, nick, ch, ok))
  {
    HeardAt(s, ch);
    var r := RoomAt(s, ch);
    var fewer := r.(peers := r.peers - {nick});
    var with := fewer.(locals := r.locals[nick := Local(false)]);
    FewerConnects(r, fewer);
    FanOutConnects(r, with, nick, Track(nick, "audio", "local"));
    hide Heard, Connected;
    HeardOne(s, Registered(s, nick, ch, ok), ch);
  }

  lemma LocalIsHeard(s: State, nick: string, ch: string)
    requires Heard(s)
    ensures Heard(Stopped(s, nick, ch)) && Heard(VideoSent(s, nick, ch, true)) && Heard(Awaited(s, nick, ch))
  {
    if IsLocal(s, nick, ch) {
      var r := s.rooms[ch];
      FewerConnects(r, r.(locals := r.locals - {nick}));
      FanOutConnects(r, r.(locals := r.locals[nick := Local(true)]), nick, Track(nick, "video", "local"));
    }
    hide Connected;
    HeardOne(s, Stopped(s, nick, ch), ch);
    HeardOne(s, VideoSent(s, nick, ch, true), ch);
  }

  lemma StraggleIsHeard(s: State, ch: string, t: Track)
    requires Heard(s)
    ensures Heard(Straggled(s, ch, t))
  {
    if ch in s.rooms {
      FanOutConnects(s.rooms[ch], s.rooms[ch], t.owner, t);
    }
    hide Connected;
    HeardOne(s, Straggled(s, ch, t), ch);
  }

  lemma PublishIsHeard(s: State, nick: string, ch: string, t: Track)
    requires Heard(s) && t.owner == nick
    ensures Heard(Published(s, nick, ch, t))
  {
    if InRoom(s, nick, ch) {
      var r := s.rooms[ch];
      var own := r.(peers := r.peers[nick := r.peers[nick].(published := r.peers[nick].published + {t})]);
      FanOutConnects(r, own, nick, t);
    }
    hide Connected;
    HeardOne(s, Published(s, nick, ch, t), ch);
  }

  lemma JoinIsHeard(s: State, max: nat, nick: string, ch: string, now: int, alloc: bool)
    requires Heard(s) && Apart(s)
    ensures Heard(Joined(s, max, nick, ch, now, alloc))
  {
    HeardAt(s, ch);
    ApartAt(s, ch);
    hide Heard, Connected, Apart, NewPeer;
    if nick !in Expected(s, ch) {
      JoinConnects(RoomAt(s, ch), nick, now);
    }
    HeardOne(s, Joined(s, max, nick, ch, now, alloc), ch);
  }

  lemma SwitchIsHeard(s: State, nick: string, ch: string, target: string, host: string)
    requires Heard(s)
    ensures Heard(Promoted(s, nick, ch, target)) && Heard(Demoted(s, nick, ch, target, host))
  {
    if ch in s.rooms && target in s.rooms[ch].peers {
      RoleConnects(s.rooms[ch], target, Streamer);
      RoleConnects(s.rooms[ch], target, Viewer);
    }
    hide Connected;
    HeardOne(s, Promoted(s, nick, ch, target), ch);
    HeardOne(s, Demoted(s, nick, ch, target, host), ch);
  }

  /** From a state where everybody is sent everything, a handler keeps it so exactly when it is not a departure that
      cuts someone off. */
  lemma NextHeard(s: State, max: nat, step: Step)
    requires Heard(s) && Labelled(s) && Apart(s) && Enabled(s, step)
    ensures Heard(Next(s, max, step)) <==>
            !(step.Leave? && InRoom(s, step.nick, step.ch) && CutsOff(s.rooms[step.ch], step.nick))
  {
    hide Heard, Labelled, Apart, Joined, Left, Promoted, Demoted, Published, Straggled, Awaited, Registered, Stopped;
    hide CutsOff;
    match step {
      case Join(nick, ch, now, alloc) => JoinIsHeard(s, max, nick, ch, now, alloc);
      case Leave(nick, ch, heir) => LeaveIsHeard(s, nick, ch, heir);
      case Promote(nick, ch, target) => SwitchIsHeard(s, nick, ch, target, "");
      case Demote(nick, ch, target, host) => SwitchIsHeard(s, nick, ch, target, host);
      case Publish(nick, ch, track) => PublishIsHeard(s, nick, ch, track);
      case Register(nick, ch, ok) => RegisterIsHeard(s, nick, ch, ok);
      case Stop(nick, ch) => LocalIsHeard(s, nick, ch);
      case SendVideo(nick, ch, ok) => LocalIsHeard(s, nick, ch);
      case Straggle(nick, ch, track) => StraggleIsHeard(s, ch, track);
      case Await(nick, ch) => LocalIsHeard(s, nick, ch);
    }
  }

  /** No departure of the run so far cut anybody off. */
  ghost predicate NoneCutOff(steps: seq<Step>, ss: seq<State>, i: nat)
    requires |ss| == |steps| + 1 && i <= |steps|
  {
    forall j :: 0 <= j < i && steps[j].Leave? && InRoom(ss[j], steps[j].nick, steps[j].ch) ==>
      !CutsOff(ss[j].rooms[steps[j].ch], steps[j].nick)
  }

  /** In every run, failed allocations included, in which no departure cut anybody off, every peer of a room is sent
      every track of every other participant. */
  lemma {:induction false} RunHeard(max: nat, steps: seq<Step>, ss: seq<State>, i: nat)
    requires IsRun(max, steps, ss) && i < |ss| && NoneCutOff(steps, ss, i)
    ensures Heard(ss[i])
  {
    if i > 0 {
      RunHeard(max, steps, ss, i - 1);
      RunApart(max, steps, ss, i - 1);
      RunLabelled(max, steps, ss, i - 1);
      hide Heard, Labelled, Apart, CutsOff;
      NextHeard(ss[i - 1], max, steps[i - 1]);
    }
  }

  // ----- Names without hyphens -----

  predicate Inside(s: State, n: string, ch: string) {
    InRoom(s, n, ch) || IsLocal(s, n, ch)
  }

  ghost predicate Unhyphened(s: State) {
    forall n, ch :: Inside(s, n, ch) ==> '-' !in n
  }

  lemma OthersNames(s: State, max: nat, step: Step, n: string, c: string)
    requires Enabled(s, step) && Inside(Next(s, max, step), n, c)
    requires !step.Leave? && !step.Register? && !step.Stop? && !step.Join?
    ensures Inside(s, n, c)
  {
  }

  lemma LeaveNames(s: State, nick: string, ch: string, heir: string, n: string, c: string)
    requires HeirOk(s, nick, ch, heir) && Inside(Left(s, nick, ch, heir), n, c)
    ensures Inside(s, n, c)
  {
    hide Cut;
  }

  lemma JoinNames(s: State, max: nat, nick: string, ch: string, now: int, alloc: bool, n: string, c: string)
    requires Inside(Joined(s, max, nick, ch, now, alloc), n, c)
    ensures Inside(s, n, c) || n == nick
  {
    hide NewPeer;
  }

  lemma LocalNames(s: State, nick: string, ch: string, ok: bool, n: string, c: string)
    ensures Inside(Registered(s, nick, ch, ok), n, c) ==> Inside(s, n, c) || n == nick
    ensures Inside(Stopped(s, nick, ch), n, c) ==> Inside(s, n, c)
  {
  }

  /** The only name a handler brings into a room is the one it was called with. */
  lemma NextNames(s: State, max: nat, step: Step, n: string, c: string)
    requires Enabled(s, step) && Inside(Next(s, max, step), n, c)
    ensures Inside(s, n, c) || n == step.nick
  {
    match step {
      case Join(nick, ch, now, alloc) => JoinNames(s, max, nick, ch, now, alloc, n, c);
      case Leave(nick, ch, heir) => LeaveNames(s, nick, ch, heir, n, c);
      case Register(nick, ch, ok) => LocalNames(s, nick, ch, ok, n, c);
      case Stop(nick, ch) => LocalNames(s, nick, ch, false, n, c);
      case _ => OthersNames(s, max, step, n, c);
    }
  }

  lemma PlainNamesApart(s: State, nick: string, ch: string)
    requires Labelled(s) && Unhyphened(s) && '-' !in nick && ch in s.rooms
    ensures !CutsOff(s.rooms[ch], nick)
  {
    var r := s.rooms[ch];
    assert RoomLabelled(r);
    forall n, m, t | n in r.peers && n != nick && m != n && m != nick && Publishes(r, m, t)
      ensures !LooksLike(t, nick)
    {
      PublisherOwns(r, m, t);
      assert Inside(s, m, ch);
      if LooksLike(t, nick) {
        LookAlikeHasHyphen(t, nick);
      }
    }
  }

  /** In every run of hyphen-free names, failed allocations included, every peer of a room is sent every track of every
      other participant, whoever came, left, was displaced, promoted or demoted in between. */
  lemma {:induction false} EverybodyIsHeard(max: nat, steps: seq<Step>, ss: seq<State>, i: nat)
    requires IsRun(max, steps, ss) && i < |ss|
    requires forall j :: 0 <= j < |steps| ==> '-' !in steps[j].nick
    ensures forall ch, n, m, t ::
              ch in ss[i].rooms && n in ss[i].rooms[ch].peers && m != n && Publishes(ss[i].rooms[ch], m, t) ==>
              t in ss[i].rooms[ch].peers[n].subs
    ensures Heard(ss[i]) && Unhyphened(ss[i]) && NoneCutOff(steps, ss, i)
  {
    if i > 0 {
      var s, step := ss[i - 1], steps[i - 1];
      EverybodyIsHeard(max, steps, ss, i - 1);
      RunLabelled(max, steps, ss, i - 1);
      if step.Leave? && InRoom(s, step.nick, step.ch) {
        PlainNamesApart(s, step.nick, step.ch);
      }
      hide Heard, CutsOff, Labelled, RoomLabelled, Inside;
      forall n, ch | Inside(ss[i], n, ch) ensures '-' !in n {
        NextNames(s, max, step, n, ch);
      }
    }
    RunHeard(max, steps, ss, i);
  }

  function AnnBot(): Track {
    Track("ann-bot", "audio", "local")
  }

  function Listener(now: int): Peer {
    Peer(Streamer, now, {}, {AnnBot()})
  }

  /** A channel with "ann-bot" in-process and the given peers. */
  function Anns(peers: map<string, Peer>): State {
    State(map["^a" := Room(false, peers, map["ann-bot" := Local(false)])], map["^a" := {"ann-bot"}])
  }

  lemma AnnBotComes()
    ensures Registered(START, "ann-bot", "^a", true) == Anns(map[])
  {
    assert "^a"[..1] == "^" && "^a"[..1] != "$";
    var r := RoomAt(START, "^a");
    assert r == Room(false, map[], map[]) && r.peers - {"ann-bot"} == map[];
    var q := WithLocal(r, "ann-bot");
    assert q.peers == map[] && q.locals == map["ann-bot" := Local(false)];
    assert Expected(START, "^a") + {"ann-bot"} == {"ann-bot"};
  }

  lemma Offer(peers: map<string, Peer>, nick: string)
    requires forall n :: n in peers ==> peers[n].published == {}
    ensures Offered(Anns(peers).rooms["^a"], nick) == {AnnBot()}
  {
    var r := Anns(peers).rooms["^a"];
    assert LocalTracks("ann-bot", r.locals["ann-bot"]) == {AnnBot()};
    assert "ann-bot" in r.locals && forall n :: n in r.locals ==> n == "ann-bot";
  }

  lemma ListenerComes(peers: map<string, Peer>, nick: string, now: int)
    requires |peers| < 2 && nick != "ann-bot" && forall n :: n in peers ==> peers[n].published == {}
    ensures Joined(Anns(peers), 2, nick, "^a", now, true) == Anns(peers[nick := Listener(now)])
  {
    var s := Anns(peers);
    assert "^a"[..1] == "^";
    Offer(peers, nick);
    assert ValidChannel("^a");
    hide Offered, ValidChannel;
    assert nick !in Expected(s, "^a") && RoomAt(s, "^a") == s.rooms["^a"];
    assert NewPeer(s.rooms["^a"], nick, now) == Listener(now);
  }

  lemma BobLosesAnnBot()
    ensures var r := Anns(Pair()).rooms["^a"];
            Connected(r) && "bob" in Without(r, "ann").peers && !Connected(Without(r, "ann"))
  {
    var r := Anns(Pair()).rooms["^a"];
    assert forall m, t :: Publishes(r, m, t) ==> t == AnnBot();
    var after := Without(r, "ann");
    PrefixExact(AnnBot(), "ann");
    assert "ann-bot"[..4] == "ann-";
    assert AnnBot() !in Cut(r.peers["bob"], "ann").subs;
    assert "bob" in after.peers && Publishes(after, "ann-bot", AnnBot());
  }

  lemma AnnGoes(peers: map<string, Peer>)
    requires "ann" in peers && "bob" in peers
    ensures var s := Anns(peers);
            && HeirOk(s, "ann", "^a", "")
            && Left(s, "ann", "^a", "") == s.(rooms := s.rooms["^a" := Without(s.rooms["^a"], "ann")])
  {
    assert "bob" in Without(Anns(peers).rooms["^a"], "ann").peers;
  }

  function Pair(): map<string, Peer> {
    map["ann" := Listener(0), "bob" := Listener(1)]
  }

  lemma BothCome() returns (steps: seq<Step>, ss: seq<State>)
    ensures IsRun(2, steps, ss) && ss[|steps|] == Anns(Pair())
  {
    var one := map["ann" := Listener(0)];
    AnnBotComes();
    ListenerComes(map[], "ann", 0);
    ListenerComes(one, "bob", 1);
    assert one == map[]["ann" := Listener(0)] && Pair() == one["bob" := Listener(1)];
    hide Joined, Registered, Anns, Pair, Listener;
    steps, ss := Begin(2);
    steps, ss := Extend(2, steps, ss, Register("ann-bot", "^a", true));
    steps, ss := Extend(2, steps, ss, Join("ann", "^a", 0, true));
    steps, ss := Extend(2, steps, ss, Join("bob", "^a", 1, true));
  }

  /** Without that a departure can cut others off: a run after which "ann-bot" is still in the room, and goes unheard
      as soon as "ann" leaves. */
  lemma HyphenSilences() returns (steps: seq<Step>, ss: seq<State>)
    ensures IsRun(2, steps, ss) && |steps| > 0 && steps[|steps| - 1] == Leave("ann", "^a", "")
    ensures var s, t := ss[|steps| - 1], ss[|steps|];
            && IsLocal(s, "ann-bot", "^a") && InRoom(s, "bob", "^a") && Connected(s.rooms["^a"])
            && IsLocal(t, "ann-bot", "^a") && InRoom(t, "bob", "^a") && !Connected(t.rooms["^a"])
  {
    steps, ss := BothCome();
    AnnGoes(Pair());
    BobLosesAnnBot();
    hide Connected, Left, HeirOk, Without, Listener;
    steps, ss := Extend(2, steps, ss, Leave("ann", "^a", ""));
  }
}
