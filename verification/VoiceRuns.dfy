/** The voice server as it is called: whatever calls come, it passes through a run of the room model. */
module VoiceRuns {
  import opened TrackIds
  import opened Rooms
  import opened RoomTracks
  import opened RoomMedia
  import opened VoiceManager

  /** What comes in from the bridge, the media library and the process itself. alloc and ok say whether the media
      objects can be created. */
  datatype Call =
    | OnJoin(nick: string, ch: string, now: int, alloc: bool)
    | OnClosed(nick: string, ch: string)
    | OnPartOrQuit(nick: string, ch: string)
    | OnPromote(nick: string, ch: string, target: string)
    | OnDemote(nick: string, ch: string, target: string)
    | OnTrack(nick: string, ch: string, track: Track)
    | OnLateTrack(nick: string, ch: string, track: Track, role: Role)
    | OnRegister(nick: string, ch: string, ok: bool)
    | OnStop(nick: string, ch: string)
    | OnVideo(nick: string, ch: string, ok: bool)

  /** A published track is its publisher's own. */
  predicate Proper(c: Call) {
    c.OnTrack? || c.OnLateTrack? ==> c.track.owner == c.nick && Clean(c.track)
  }

  /** The steps lead from the first state to the last. */
  ghost predicate Path(max: nat, steps: seq<Step>, ss: seq<State>) {
    && |ss| == |steps| + 1
    && forall i :: 0 <= i < |steps| ==> Enabled(ss[i], steps[i]) && ss[i + 1] == Next(ss[i], max, steps[i])
  }

  lemma OneStep(max: nat, s: State, step: Step)
    requires Enabled(s, step)
    ensures Path(max, [step], [s, Next(s, max, step)])
  {
  }

  lemma Joins(max: nat, steps: seq<Step>, ss: seq<State>, more: seq<Step>, reached: seq<State>)
    requires Path(max, steps, ss) && Path(max, more, reached) && reached[0] == ss[|steps|]
    ensures Path(max, steps + more, ss + reached[1..])
  {
    var all, t := steps + more, ss + reached[1..];
    forall i | 0 <= i < |all| ensures Enabled(t[i], all[i]) && t[i + 1] == Next(t[i], max, all[i]) {
      if i >= |steps| {
        assert all[i] == more[i - |steps|] && t[i] == reached[i - |steps|] && t[i + 1] == reached[i - |steps| + 1];
      }
    }
  }

  lemma {:induction false} LeavesPath(max: nat, s: State, nick: string, leaves: seq<Step>, t: State)
    returns (ss: seq<State>)
    requires LeavesTo(s, nick, leaves, t)
    ensures Path(max, leaves, ss) && ss[0] == s && ss[|leaves|] == t
    decreases |leaves|
  {
    if leaves == [] {
      ss := [s];
    } else {
      var u := Next(s, 0, leaves[0]);
      var rest := LeavesPath(max, u, nick, leaves[1..], t);
      OneStep(max, s, leaves[0]);
      Joins(max, [leaves[0]], [s, u], leaves[1..], rest);
      ss := [s, u] + rest[1..];
      assert [leaves[0]] + leaves[1..] == leaves;
    }
  }

  /** Handles one call, by no step, one, or for a quit one for each room. */
  method Serve(server: VoiceServer, c: Call) returns (ghost steps: seq<Step>, ghost ss: seq<State>)
    requires Proper(c)
    modifies server
    ensures Path(server.maxPeers, steps, ss) && ss[0] == old(server.View()) && ss[|steps|] == server.View()
    ensures forall i :: 0 <= i < |steps| ==> steps[i].nick == c.nick
  {
    hide Joined, Left, Promoted, Demoted, Published, Straggled, Registered, Stopped, VideoSent;
    hide HostOk, HeirOk, LeavesTo;
    ghost var before, max := server.View(), server.maxPeers;
    ghost var step: Step;
    match c {
      case OnPartOrQuit(nick, ch) =>
        steps := server.PartOrQuit(nick, ch);
        ss := LeavesPath(max, before, nick, steps, server.View());
        LeavesNick(before, nick, steps, server.View());
        return;
      case OnLateTrack(nick, ch, track, role) =>
        server.FanOutStraggler(role, nick, ch, track);
        step := Straggle(nick, ch, track);
      case OnJoin(nick, ch, now, alloc) =>
        server.HandleJoin(nick, ch, now, alloc);
        step := Join(nick, ch, now, alloc);
      case OnClosed(nick, ch) =>
        var _, heir := server.HandleLeave(nick, ch);
        step := Leave(nick, ch, heir);
      case OnPromote(nick, ch, target) =>
        server.HandlePromote(nick, ch, target);
        step := Promote(nick, ch, target);
      case OnDemote(nick, ch, target) =>
        ghost var host := server.HandleDemote(nick, ch, target);
        step := Demote(nick, ch, if target == "" then nick else target, host);
      case OnTrack(nick, ch, track) =>
        server.FanOutTrack(nick, ch, track);
        step := Publish(nick, ch, track);
      case OnRegister(nick, ch, ok) =>
        var _ := server.RegisterLocal(nick, ch, ok);
        step := Register(nick, ch, ok);
      case OnStop(nick, ch) =>
        server.StopLocal(nick, ch);
        step := Stop(nick, ch);
      case OnVideo(nick, ch, ok) =>
        var _ := server.SendVideoRtp(nick, ch, ok);
        step := SendVideo(nick, ch, ok);
    }
    if c.OnLateTrack? && server.View() == before {
      steps, ss := [], [before];
    } else {
      OneStep(max, before, step);
      steps, ss := [step], [before, server.View()];
    }
  }

  lemma {:induction false} LeavesNick(s: State, nick: string, leaves: seq<Step>, t: State)
    requires LeavesTo(s, nick, leaves, t)
    ensures forall i :: 0 <= i < |leaves| ==> leaves[i].nick == nick
    decreases |leaves|
  {
    if leaves != [] {
      LeavesNick(Next(s, 0, leaves[0]), nick, leaves[1..], t);
    }
  }

  /** A server that is fresh passes through a run of the model, so that all its invariants hold after any calls: in
      particular, with names free of hyphens, everybody is sent everything. */
  method ServeAll(max: nat, calls: seq<Call>)
    returns (server: VoiceServer, ghost steps: seq<Step>, ghost ss: seq<State>)
    requires forall i :: 0 <= i < |calls| ==> Proper(calls[i])
    ensures fresh(server) && server.maxPeers == max
    ensures IsRun(max, steps, ss) && ss[|steps|] == server.View()
    ensures Roles(server.View(), max) && Apart(server.View()) && Labelled(server.View())
    ensures (forall i :: 0 <= i < |calls| ==> '-' !in calls[i].nick) ==> Heard(server.View())
  {
    server := new VoiceServer(max);
    steps, ss := [], [START];
    for n := 0 to |calls|
      invariant fresh(server) && server.maxPeers == max
      invariant Path(max, steps, ss) && ss[0] == START && ss[|steps|] == server.View()
      invariant (forall i :: 0 <= i < n ==> '-' !in calls[i].nick) ==>
                  forall i :: 0 <= i < |steps| ==> '-' !in steps[i].nick
    {
      ghost var more, reached := Serve(server, calls[n]);
      Joins(max, steps, ss, more, reached);
      steps, ss := steps + more, ss + reached[1..];
    }
    RunRoles(max, steps, ss, |steps|);
    RunApart(max, steps, ss, |steps|);
    RunLabelled(max, steps, ss, |steps|);
    if forall i :: 0 <= i < |calls| ==> '-' !in calls[i].nick {
      EverybodyIsHeard(max, steps, ss, |steps|);
    }
  }
}
