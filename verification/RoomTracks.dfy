/** Which tracks a departure detaches, and what a peer's track list says (voice.go). */
module RoomTracks {
  import opened Text
  import opened TrackIds
  import opened Rooms

  ghost predicate PeerLabelled(nick: string, p: Peer) {
    && (forall t :: t in p.published ==> t.owner == nick && Clean(t))
    && (forall t :: t in p.subs ==> t.owner != nick && Clean(t))
  }

  /** Every peer publishes only tracks of its own and is sent only tracks of others, all with clean ids. */
  ghost predicate RoomLabelled(r: Room) {
    forall n :: n in r.peers ==> PeerLabelled(n, r.peers[n])
  }

  ghost predicate Labelled(s: State) {
    forall ch :: ch in s.rooms ==> RoomLabelled(s.rooms[ch])
  }

  lemma JoinLabelled(r: Room, nick: string, now: int)
    requires RoomLabelled(r) && nick !in r.locals
    ensures RoomLabelled(r.(peers := r.peers[nick := NewPeer(r, nick, now)]))
  {
  }

  lemma FannedLabelled(r: Room, t: Track)
    requires RoomLabelled(r) && Clean(t)
    ensures RoomLabelled(Fanned(r, t))
  {
  }

  lemma WithoutLabelled(r: Room, nick: string)
    requires RoomLabelled(r)
    ensures RoomLabelled(Without(r, nick))
  {
  }

  lemma RoleLabelled(r: Room, nick: string, role: Role)
    requires RoomLabelled(r) && nick in r.peers
    ensures RoomLabelled(WithRole(r, nick, role))
  {
  }

  lemma LabelOne(s: State, t: State, ch: string)
    requires Labelled(s) && forall c :: c in t.rooms && c != ch ==> c in s.rooms && t.rooms[c] == s.rooms[c]
    requires ch in t.rooms ==> RoomLabelled(t.rooms[ch])
    ensures Labelled(t)
  {
  }

  lemma LabelAt(s: State, ch: string)
    requires Labelled(s)
    ensures RoomLabelled(RoomAt(s, ch))
  {
  }

  lemma RegisterLabelled(r: Room, nick: string)
    requires RoomLabelled(r)
    ensures RoomLabelled(r.(peers := r.peers - {nick}))
    ensures RoomLabelled(WithLocal(r.(peers := r.peers - {nick}), nick))
  {
  }

  lemma PublishLabelled(r: Room, nick: string, t: Track)
    requires RoomLabelled(r) && nick in r.peers && t.owner == nick && Clean(t)
    ensures var own := r.peers[nick].(published := r.peers[nick].published + {t});
            RoomLabelled(Fanned(r.(peers := r.peers[nick := own]), t))
  {
  }

  lemma NextLabelled(s: State, max: nat, step: Step)
    requires Labelled(s) && Apart(s) && Enabled(s, step)
    ensures Labelled(Next(s, max, step))
  {
    hide Labelled, RoomLabelled, Apart, Fanned, Without, WithRole, WithLocal, NewPeer;
    var ch := step.ch;
    LabelAt(s, ch);
    match step {
      case Join(nick, _, now, alloc) =>
        ApartAt(s, ch);
        if nick !in Expected(s, ch) {
          JoinLabelled(RoomAt(s, ch), nick, now);
        }
      case Leave(nick, _, heir) =>
        if InRoom(s, nick, ch) {
          WithoutLabelled(s.rooms[ch], nick);
          if NeedsHeir(s.rooms[ch], nick) {
            RoleLabelled(Without(s.rooms[ch], nick), heir, Streamer);
          }
        }
      case Promote(nick, _, target) =>
        if Promoted(s, nick, ch, target) != s {
          RoleLabelled(s.rooms[ch], target, Streamer);
        }
      case Demote(nick, _, target, host) =>
        if MayDemote(s, nick, ch, target, host) {
          RoleLabelled(s.rooms[ch], target, Viewer);
        }
      case Publish(nick, _, track) =>
        if InRoom(s, nick, ch) {
          PublishLabelled(s.rooms[ch], nick, track);
        }
      case Register(nick, _, ok) => RegisterLabelled(RoomAt(s, ch), nick);
      case Stop(nick, _) =>
        if IsLocal(s, nick, ch) {
          SamePeersLabelled(s.rooms[ch], s.rooms[ch].(locals := s.rooms[ch].locals - {nick}));
        }
      case Straggle(nick, _, track) => FannedLabelled(RoomAt(s, ch), track);
      case Await(nick, _) =>
      case SendVideo(nick, _, ok) =>
        if IsLocal(s, nick, ch) {
          var r := s.rooms[ch].(locals := s.rooms[ch].locals[nick := Local(true)]);
          SamePeersLabelled(s.rooms[ch], r);
          FannedLabelled(r, Track(nick, "video", "local"));
        }
    }
    LabelOne(s, Next(s, max, step), ch);
  }

  lemma SamePeersLabelled(r: Room, q: Room)
    requires RoomLabelled(r) && q.peers == r.peers
    ensures RoomLabelled(q)
  {
  }

  /** In every reachable state, failed allocations included, peers publish only tracks of their own and are sent only
      tracks of others. */
  lemma {:induction false} RunLabelled(max: nat, steps: seq<Step>, ss: seq<State>, i: nat)
    requires IsRun(max, steps, ss) && i < |ss|
    ensures Labelled(ss[i])
  {
    if i > 0 {
      RunLabelled(max, steps, ss, i - 1);
      RunApart(max, steps, ss, i - 1);
      NextLabelled(ss[i - 1], max, steps[i - 1]);
    }
  }

  // ----- What a departure detaches -----

  /** A track of someone else whose id still starts with the name and a hyphen. */
  predicate LooksLike(t: Track, nick: string) {
    t.owner != nick && (HasPrefix(t.owner, nick + "-") || nick == t.owner + "-" + t.kind)
  }

  /** A departing peer's tracks, and besides them exactly the tracks that look like its own by their prefix, are
      taken from a remaining peer; hence the departure detaches its own tracks and no one else's exactly when no
      such look-alike is being sent. */
  lemma CutExact(p: Peer, nick: string)
    requires forall t :: t in p.subs ==> Clean(t)
    ensures Cut(p, nick).subs == set t | t in p.subs && t.owner != nick && !LooksLike(t, nick)
    ensures Cut(p, nick).subs == (set t | t in p.subs && t.owner != nick) <==>
            forall t :: t in p.subs ==> !LooksLike(t, nick)
    ensures Cut(p, nick).published == p.published && Cut(p, nick).role == p.role && Cut(p, nick).joinedAt == p.joinedAt
  {
    forall t | t in p.subs ensures HasPrefix(Id(t), nick + "-") <==> t.owner == nick || LooksLike(t, nick) {
      PrefixExact(t, nick);
    }
    if Cut(p, nick).subs == set t | t in p.subs && t.owner != nick {
      forall t | t in p.subs ensures !LooksLike(t, nick) {
        assert t.owner != nick ==> t in Cut(p, nick).subs;
      }
    }
  }

  lemma LookAlikeHasHyphen(t: Track, nick: string)
    requires LooksLike(t, nick)
    ensures '-' in t.owner || '-' in nick
  {
    if HasPrefix(t.owner, nick + "-") {
      assert t.owner[..|nick| + 1][|nick|] == '-';
      assert t.owner[|nick|] in t.owner;
    } else {
      assert nick[|t.owner|] == '-';
    }
  }

  lemma LeavePeers(s: State, nick: string, ch: string, heir: string, n: string)
    requires HeirOk(s, nick, ch, heir) && InRoom(s, nick, ch) && n in s.rooms[ch].peers && n != nick
    ensures var after := Left(s, nick, ch, heir);
            && ch in after.rooms && n in after.rooms[ch].peers
            && after.rooms[ch].peers[n].subs == Cut(s.rooms[ch].peers[n], nick).subs
  {
  }

  /** In every reachable state, when neither the departing name nor any publisher of a track in the room has a
      hyphen, a departure takes from every remaining peer exactly the departing peer's tracks. */
  lemma LeaveDetaches(max: nat, steps: seq<Step>, ss: seq<State>, i: nat, nick: string, ch: string, heir: string)
    requires IsRun(max, steps, ss) && i < |ss|
    requires HeirOk(ss[i], nick, ch, heir) && InRoom(ss[i], nick, ch)
    requires '-' !in nick
    requires forall n, t :: n in ss[i].rooms[ch].peers && t in ss[i].rooms[ch].peers[n].subs ==> '-' !in t.owner
    ensures var r, after := ss[i].rooms[ch], Left(ss[i], nick, ch, heir);
            forall n :: n in r.peers && n != nick ==>
              && ch in after.rooms && n in after.rooms[ch].peers
              && after.rooms[ch].peers[n].subs == set t | t in r.peers[n].subs && t.owner != nick
  {
    RunLabelled(max, steps, ss, i);
    var r := ss[i].rooms[ch];
    forall n | n in r.peers && n != nick
      ensures Cut(r.peers[n], nick).subs == set t | t in r.peers[n].subs && t.owner != nick
      ensures ch in Left(ss[i], nick, ch, heir).rooms && n in Left(ss[i], nick, ch, heir).rooms[ch].peers
      ensures Left(ss[i], nick, ch, heir).rooms[ch].peers[n].subs == Cut(r.peers[n], nick).subs
    {
      assert PeerLabelled(n, r.peers[n]);
      CutExact(r.peers[n], nick);
      forall t | t in r.peers[n].subs && LooksLike(t, nick) ensures '-' in t.owner {
        LookAlikeHasHyphen(t, nick);
      }
      LeavePeers(ss[i], nick, ch, heir, n);
    }
  }

  /** Names that differ only past a hyphen collide: when "ann" leaves, a listener loses the tracks of "ann-bot"
      too. */
  lemma HyphenCollision()
    ensures exists p: Peer, t ::
      (forall u :: u in p.subs ==> Clean(u)) && t in p.subs && t.owner != "ann" && t !in Cut(p, "ann").subs
  {
    var t := Track("ann-bot", "audio", "local");
    var p := Peer(Streamer, 0, {}, {t});
    PrefixExact(t, "ann");
    assert "ann-bot"[..4] == "ann-";
    assert t !in Cut(p, "ann").subs;
    assert t in p.subs && t.owner != "ann";
  }

  /** The hints sent with a peer's offer name every track's publisher and kind correctly exactly when no publisher's
      name has a hyphen. */
  lemma HintsExact(p: Peer)
    requires forall t :: t in p.subs ==> Clean(t)
    ensures (forall t :: t in p.subs ==> Parse(Id(t)) == Hint(t.owner, t.kind)) <==>
            (forall t :: t in p.subs ==> '-' !in t.owner)
  {
    forall t | t in p.subs ensures Parse(Id(t)) == Hint(t.owner, t.kind) <==> '-' !in t.owner {
      ParseExact(t);
    }
  }
}
