/** Whole runs of the sentry pipeline: alerts, the feature cache and the anomaly baseline as statements about the input
    history. */
module SentryRuns {
  import opened Basics
  import opened Events
  import opened Windows
  import Tally
  import opened Welford
  import opened Heuristics
  import opened UserState
  import opened History
  import opened Manager
  import Anomaly

  /** An event, with the instant of an outside read that falls between its update and the rules, if there is one; an
      event whose user a collection takes out of the table between lookup and update; a read of one user's features
      from outside (an explanation, operator feedback); or a collection of the users idle since before a cutoff. */
  datatype Input =
    | Arrive(e: Event, gap: Option<int>)
    | Swept(e: Event, gap: Option<int>, cutoff: int)
    | Peek(uid: string, now: int)
    | Collect(cutoff: int)

  /** A collection can take the event's user away under it: a nick change refreshes the record with the lookup. */
  predicate Takes(users: map<string, Record>, e: Event, cutoff: int) {
    IsActivity(e) && e.uid != "" && !e.kind.Nick? && Found(users, e).lastActivity < cutoff
  }

  ghost function Step(s: State, i: Input): State {
    match i
    case Arrive(e, gap) => Ingested(s, e, gap)
    case Swept(e, gap, cutoff) =>
      if Takes(s.users, e, cutoff) then State(Collected(s.users - {e.uid}, cutoff), Taught(s, e, gap)) else s
    case Peek(uid, now) => Peeked(s, uid, now)
    case Collect(cutoff) => s.(users := Collected(s.users, cutoff))
  }

  ghost function Run(ins: seq<Input>): State {
    if ins == [] then State(map[], map f | f in FEATURES :: EMPTY)
    else Step(Run(ins[..|ins| - 1]), ins[|ins| - 1])
  }

  // ----- What the inputs say about a user -----

  /** The events of a run, in order. */
  ghost function Arrivals(ins: seq<Input>): seq<Event> {
    if ins == [] then []
    else
      var earlier, last := Arrivals(ins[..|ins| - 1]), ins[|ins| - 1];
      if last.Arrive? || last.Swept? then earlier + [last.e] else earlier
  }

  /** When a user was last active: their last event that touches or identifies them, or the one that made them
      known. */
  ghost function LastActive(ins: seq<Input>, uid: string): Option<int>
    decreases |ins|, 0
  {
    if ins == [] then None
    else
      var b, last := ins[..|ins| - 1], ins[|ins| - 1];
      var earlier := LastActive(b, uid);
      match last
      case Arrive(e, _) =>
        if e.uid != uid || e.kind.Quit? || (e.kind.Mode? && earlier.Some?) then earlier else Some(e.time)
      case Swept(e, _, cutoff) =>
        if TakenOut(b, e, cutoff) && (uid == e.uid || (earlier.Some? && earlier.value < cutoff)) then None else earlier
      case Peek(_, _) => earlier
      case Collect(cutoff) => if earlier.Some? && earlier.value < cutoff then None else earlier
  }

  ghost predicate TakenOut(ins: seq<Input>, e: Event, cutoff: int)
    decreases |ins|, 1
  {
    IsActivity(e) && e.uid != "" && !e.kind.Nick? && LastActive(ins, e.uid).GetOr(e.time) < cutoff
  }

  /** The collection that ends the run, if any, forgets the user. */
  ghost predicate Forgets(ins: seq<Input>, uid: string)
    requires ins != []
  {
    (ins[|ins| - 1].Collect? || ins[|ins| - 1].Swept?) && LastActive(ins, uid).None?
  }

  /** One user's activity, since they were last forgotten. */
  ghost function Mine(ins: seq<Input>, uid: string): seq<Event> {
    if ins == [] || Forgets(ins, uid) then []
    else
      var earlier, last := Mine(ins[..|ins| - 1], uid), ins[|ins| - 1];
      if last.Arrive? && last.e.uid == uid && IsActivity(last.e) then earlier + [last.e] else earlier
  }

  /** When a user was first heard of since they were last forgotten: their first event other than a quit. */
  ghost function FirstSeen(ins: seq<Input>, uid: string): Option<int> {
    if ins == [] || Forgets(ins, uid) then None
    else
      var earlier, last := FirstSeen(ins[..|ins| - 1], uid), ins[|ins| - 1];
      if earlier == None && last.Arrive? && last.e.uid == uid && !last.e.kind.Quit? then Some(last.e.time) else earlier
  }

  /** What is known of a user besides their activity. */
  datatype Identity = Identity(account: string, tls: bool)

  /** The account and transport of a known user, from the event that made them known and every identification since. */
  ghost function Known(ins: seq<Input>, uid: string): Identity {
    if ins == [] then Identity("", false)
    else
      var b, last := ins[..|ins| - 1], ins[|ins| - 1];
      var earlier := Known(b, uid);
      if !last.Arrive? || last.e.uid != uid || last.e.kind.Quit? then earlier
      else if FirstSeen(b, uid).None? then Identity(last.e.account, last.e.tls)
      else if IsActivity(last.e) then earlier
      else Identity(if last.e.account != "" then last.e.account else earlier.account, last.e.tls)
  }

  /** For which instant, and with which identity, a vector was computed. */
  datatype Stamp = Stamp(at: int, who: Identity)

  /** The stamp of the cached vector: of the last event that touched the user, or of the first read since the user
      became known when no event has touched them. */
  ghost function CachedFor(ins: seq<Input>, uid: string): Option<Stamp> {
    if ins == [] || Forgets(ins, uid) then None
    else
      var b, last := ins[..|ins| - 1], ins[|ins| - 1];
      var earlier := CachedFor(b, uid);
      match last
      case Arrive(e, gap) =>
        if e.uid != uid || !IsActivity(e) || (e.kind.Mode? && earlier.Some?) then earlier
        else Some(Stamp(gap.GetOr(e.time), Known(ins, uid)))
      case Peek(id, now) =>
        if id != uid || FirstSeen(b, uid).None? || earlier.Some? then earlier else Some(Stamp(now, Known(ins, uid)))
      case _ => earlier
  }

  /** The user's activity up to and including an event, and when they were first heard of by then. */
  ghost function Upto(ins: seq<Input>, e: Event): seq<Event> {
    Mine(ins, e.uid) + [e]
  }

  ghost function FirstBy(ins: seq<Input>, e: Event): int {
    FirstSeen(ins, e.uid).GetOr(e.time)
  }

  lemma StampedPrefix(h: seq<Event>, e: Event)
    requires Stamped(h + [e])
    ensures Stamped(h)
  {
    var all := h + [e];
    forall i, j | 0 <= i < j < |h| ensures Time(h[i]) <= Time(h[j]) {
      assert all[i] == h[i] && all[j] == h[j];
    }
    forall i | 0 <= i < |h| ensures h[i].time > ZERO_TIME {
      assert all[i] == h[i];
    }
  }

  lemma {:induction false} SelectedStamps(h: seq<Event>, p: Event -> bool)
    requires Stamped(h)
    ensures forall t :: t in Stamps(h, p) ==> t > ZERO_TIME
  {
    forall t | t in Stamps(h, p) ensures t > ZERO_TIME {
      SelectFrom(h, p, Time, t);
    }
  }

  lemma EarlierStamped(ins: seq<Input>)
    requires ins != [] && Stamped(Arrivals(ins))
    ensures Stamped(Arrivals(ins[..|ins| - 1]))
  {
    var b, last := ins[..|ins| - 1], ins[|ins| - 1];
    if last.Arrive? || last.Swept? {
      assert Arrivals(ins) == Arrivals(b) + [last.e];
      hide Arrivals;
      StampedPrefix(Arrivals(b), last.e);
    }
  }

  lemma {:induction false} MineArrived(ins: seq<Input>, uid: string)
    ensures forall e :: e in Mine(ins, uid) ==> e in Arrivals(ins)
  {
    if ins != [] {
      MineArrived(ins[..|ins| - 1], uid);
    }
  }

  lemma MoreStamped(h: seq<Event>, all: seq<Event>, e: Event)
    requires Stamped(all + [e]) && Stamped(h) && forall x :: x in h ==> x in all
    ensures Stamped(h + [e])
  {
    var more := all + [e];
    assert more[|all|] == e;
    forall i | 0 <= i < |h| ensures h[i].time <= e.time {
      assert h[i] in all;
      var k :| 0 <= k < |all| && all[k] == h[i];
      assert more[k] == all[k];
    }
  }

  lemma {:induction false} MineIsStamped(ins: seq<Input>, uid: string)
    requires Stamped(Arrivals(ins))
    ensures Stamped(Mine(ins, uid))
  {
    if ins != [] {
      var b, last := ins[..|ins| - 1], ins[|ins| - 1];
      EarlierStamped(ins);
      MineIsStamped(b, uid);
      MineArrived(b, uid);
      if last.Arrive? {
        assert Arrivals(ins) == Arrivals(b) + [last.e];
        hide Arrivals, Stamped, Forgets;
        MoreStamped(Mine(b, uid), Arrivals(b), last.e);
      }
    }
  }

  lemma CacheDoesNotMatter(u: Record, h: seq<Event>, c: Option<FeatureVector>)
    requires Tracks(u, h)
    ensures Tracks(u.(cached := c), h)
  {
  }

  lemma IdentityDoesNotMatter(u: Record, h: seq<Event>, e: Event)
    requires Tracks(u, h)
    ensures Tracks(Identified(u, e), h)
  {
  }

  /** A user is in the table exactly when heard of and not forgotten, and the record tracks all their activity since. */
  ghost predicate UserFits(ins: seq<Input>, uid: string) {
    var users := Run(ins).users;
    && (uid in users <==> FirstSeen(ins, uid).Some?) && (uid in users <==> LastActive(ins, uid).Some?)
    && if uid in users then
         && Tracks(users[uid], Mine(ins, uid)) && users[uid].firstSeen == FirstSeen(ins, uid).value
         && users[uid].lastActivity == LastActive(ins, uid).value
       else Mine(ins, uid) == []
  }

  lemma SweptTracks(ins: seq<Input>, i: Input, uid: string)
    requires i.Swept? && UserFits(ins, uid) && (i.e.uid != "" ==> UserFits(ins, i.e.uid))
    ensures UserFits(ins + [i], uid)
  {
    var all := ins + [i];
    assert all[..|ins|] == ins;
    assert Takes(Run(ins).users, i.e, i.cutoff) == TakenOut(ins, i.e, i.cutoff);
    hide Tracks, Taught;
  }

  /** In every run, with outside reads at any point, inside an event included, and collections likewise, the manager
      knows exactly the users heard of and not forgotten, and each record tracks its user's whole activity since
      then. */
  lemma {:induction false} RunTracks(ins: seq<Input>, uid: string)
    requires Stamped(Arrivals(ins)) && uid != ""
    ensures UserFits(ins, uid)
    decreases |ins|
  {
    hide Tracks, After, Identified, Dispatched, FeaturesSeen, SnapshotOf, AlertsOf, Anomaly.Trained, Taught;
    if ins != [] {
      var b, last := ins[..|ins| - 1], ins[|ins| - 1];
      EarlierStamped(ins);
      RunTracks(b, uid);
      match last {
        case Peek(id, now) =>
          if id == uid && uid in Run(b).users {
            CacheDoesNotMatter(Run(b).users[uid], Mine(b, uid), Some(FeaturesSeen(Run(b).users[uid], now)));
          }
        case Arrive(e, gap) =>
          if e.uid == uid && !e.kind.Quit? {
            MineIsStamped(b, uid);
            UserStep(Run(b).users, Mine(b, uid), e, gap);
          }
        case Swept(e, _, cutoff) =>
          if e.uid != "" {
            RunTracks(b, e.uid);
          }
          SweptTracks(b, last, uid);
        case Collect(cutoff) =>
      }
    }
  }

  lemma FirstSeenKept(u: Record, e: Event)
    ensures After(u, e).firstSeen == u.firstSeen && Identified(u, e).firstSeen == u.firstSeen
    ensures Touches(e) ==> After(u, e).cached == None
    ensures After(u, e).account == u.account && After(u, e).tls == u.tls
    ensures IsActivity(e) ==> After(u, e).lastActivity == if e.kind.Mode? then u.lastActivity else e.time
    ensures Identified(u, e).lastActivity == e.time
  {
  }

  lemma UserStep(users: map<string, Record>, h: seq<Event>, e: Event, gap: Option<int>)
    requires e.uid != "" && !e.kind.Quit? && Stamped(h)
    requires e.uid in users ==> Tracks(users[e.uid], h)
    requires e.uid !in users ==> h == []
    ensures Tracks(UsersAfter(users, e, gap)[e.uid], if IsActivity(e) then h + [e] else h)
    ensures UsersAfter(users, e, gap)[e.uid].firstSeen == if e.uid in users then users[e.uid].firstSeen else e.time
    ensures UsersAfter(users, e, gap)[e.uid].lastActivity
            == if e.kind.Mode? && e.uid in users then users[e.uid].lastActivity else e.time
  {
    hide Tracks, After, Identified, FeaturesSeen;
    var u := Found(users, e);
    FreshTracks(e);
    SelectedStamps(h, IsMessage);
    FirstSeenKept(u, e);
    if IsActivity(e) {
      AfterTracks(u, h, e);
      CacheDoesNotMatter(After(u, e), h + [e], Settled(u, e, gap).cached);
    } else {
      IdentityDoesNotMatter(u, h, e);
    }
  }

  /** The record an event's rules read tracks the history up to and including the event. */
  lemma EventTracks(ins: seq<Input>, e: Event, gap: Option<int>)
    requires Stamped(Arrivals(ins) + [e]) && e.uid != "" && IsActivity(e)
    ensures var u := Updated(Found(Run(ins).users, e), e, gap);
            && Tracks(u, Upto(ins, e)) && Sorted(Upto(ins, e), Time) && u.firstSeen == FirstBy(ins, e)
            && (Touches(e) ==> FeaturesSeen(u, e.time) == Features(u, gap.GetOr(e.time)))
  {
    hide Tracks, After, Features;
    var h, u := Mine(ins, e.uid), Found(Run(ins).users, e);
    StampedPrefix(Arrivals(ins), e);
    MineIsStamped(ins, e.uid);
    MineArrived(ins, e.uid);
    MoreStamped(h, Arrivals(ins), e);
    RunTracks(ins, e.uid);
    FreshTracks(e);
    SelectedStamps(h, IsMessage);
    AfterTracks(u, h, e);
    FirstSeenKept(u, e);
    CacheDoesNotMatter(After(u, e), h + [e], Updated(u, e, gap).cached);
    CacheIsNotRead(After(u, e), Updated(u, e, gap).cached);
  }

  lemma CacheIsNotRead(u: Record, c: Option<FeatureVector>)
    ensures forall now :: Features(u.(cached := c), now) == Features(u, now)
  {
  }

  // ----- Alerts -----

  /** In every run with time-ordered events, a rule raises its alert on an event exactly when the user's whole history
      warrants it, with message and join rates, links and upper-case shares taken for the instant of the outside read
      that fell between update and rules, if there was one: neither the caps, the incremental hash counts, the sticky
      burst gap nor any other read of the cached features ever changes a verdict. */
  lemma AlertsAreWarranted(ins: seq<Input>, e: Event, gap: Option<int>, r: Rule)
    requires Stamped(Arrivals(ins) + [e]) && e.uid != "" && IsActivity(e) && r in REGISTRY
    ensures Raised(ins, e, gap, r.Name()) <==>
            WarrantedAt(r, FirstBy(ins, e), Upto(ins, e), e, gap.GetOr(e.time))
  {
    hide WarrantedAt, Tracks, Updated;
    var u := Updated(Found(Run(ins).users, e), e, gap);
    DispatchMeaning(r, SnapshotOf(u, e.time), e);
    EventTracks(ins, e, gap);
    if Touches(e) {
      SnapshotIsHistorical(u, Upto(ins, e), e.time, gap.GetOr(e.time));
      VerdictsAreHistorical(r, SnapshotOf(u, e.time), Upto(ins, e), e, gap.GetOr(e.time));
    } else {
      ModeIsQuiet(r, e);
      KindMatters(r, FirstBy(ins, e), Upto(ins, e), e, gap.GetOr(e.time));
    }
  }

  ghost predicate Raised(ins: seq<Input>, e: Event, gap: Option<int>, kind: string) {
    exists a :: a in AlertsOf(Run(ins).users, e, gap) && a.kind == kind
  }

  lemma ModeIsQuiet(r: Rule, e: Event)
    requires e.kind.Mode?
    ensures e.kind !in r.Kinds()
  {
  }

  lemma KindMatters(r: Rule, firstSeen: int, h: seq<Event>, e: Event, read: int)
    ensures WarrantedAt(r, firstSeen, h, e, read) ==> e.kind in r.Kinds()
  {
  }

  /** Without such a read, or with one for the event's own time, the verdict is the history's; and five rules aside it
      is so whatever is read. */
  lemma GapsMatterToFive(ins: seq<Input>, e: Event, gap: Option<int>, r: Rule)
    requires Stamped(Arrivals(ins) + [e]) && e.uid != "" && IsActivity(e) && r in REGISTRY
    requires gap.GetOr(e.time) == e.time
             || !(r.Flood? || r.MassJoin? || r.LinkSpam? || r.IdleBurst? || r.Shouting?)
    ensures Raised(ins, e, gap, r.Name()) <==> Warranted(r, FirstBy(ins, e), Upto(ins, e), e)
  {
    AlertsAreWarranted(ins, e, gap, r);
    hide Raised, Upto, FirstBy, InMinute, Mean, MinuteMsgs, Tally.Distinct, OpensBurst;
  }

  lemma WarrantedCounts(firstSeen: int, h: seq<Event>, e: Event, read: int)
    ensures WarrantedAt(Flood(30.0), firstSeen, h, e, read) <==>
            e.kind in {ChanMsg, UserMsg} && InMinute(h, IsMessage, read) >= 30
    ensures WarrantedAt(MassJoin(10.0), firstSeen, h, e, read) <==> e.kind == Join && InMinute(h, IsJoin, read) >= 10
    ensures WarrantedAt(HopFlood(8.0), firstSeen, h, e, read) <==>
            e.kind in {Join, Part} && InMinute(h, IsHop, e.time) >= 8
    ensures WarrantedAt(NickFlip(5.0), firstSeen, h, e, read) <==> e.kind == Nick && InMinute(h, IsNick, e.time) >= 5
    ensures WarrantedAt(PmFlood(12.0), firstSeen, h, e, read) <==> e.kind == UserMsg && InMinute(h, IsPm, e.time) >= 12
    ensures WarrantedAt(Repeat(4), firstSeen, h, e, read) <==>
            && e.kind in {ChanMsg, UserMsg}
            && var w := LastN(Msgs(h), MAX_MESSAGES); |w| - |Tally.Distinct(Hashes(w))| >= 4
  {
  }

  lemma RaisedIsWarranted(ins: seq<Input>, e: Event, gap: Option<int>, r: Rule, kind: string)
    requires Stamped(Arrivals(ins) + [e]) && e.uid != "" && IsActivity(e) && r in REGISTRY && kind == r.Name()
    ensures Raised(ins, e, gap, kind) <==> WarrantedAt(r, FirstBy(ins, e), Upto(ins, e), e, gap.GetOr(e.time))
  {
    hide WarrantedAt, Raised;
    AlertsAreWarranted(ins, e, gap, r);
  }

  /** The rules on movement in plain numbers: each fires on an event of its kinds exactly when the user's history
      holds that many matching events in the last minute. */
  lemma MovementRules(ins: seq<Input>, e: Event, gap: Option<int>)
    requires Stamped(Arrivals(ins) + [e]) && e.uid != "" && IsActivity(e)
    ensures var h, read := Upto(ins, e), gap.GetOr(e.time);
            && (Raised(ins, e, gap, "mass_join") <==> e.kind == Join && InMinute(h, IsJoin, read) >= 10)
            && (Raised(ins, e, gap, "hop_flood") <==> e.kind in {Join, Part} && InMinute(h, IsHop, e.time) >= 8)
            && (Raised(ins, e, gap, "nick_flip") <==> e.kind == Nick && InMinute(h, IsNick, e.time) >= 5)
  {
    WarrantedCounts(FirstBy(ins, e), Upto(ins, e), e, gap.GetOr(e.time));
    hide Raised, Upto, FirstBy, InMinute, WarrantedAt, Stamped, Arrivals;
    RaisedIsWarranted(ins, e, gap, MassJoin(10.0), "mass_join");
    RaisedIsWarranted(ins, e, gap, HopFlood(8.0), "hop_flood");
    RaisedIsWarranted(ins, e, gap, NickFlip(5.0), "nick_flip");
  }

  /** The same for the rules on messages; repeat fires exactly when the last 32 messages hold at least four more
      messages than distinct texts. */
  lemma MessageRules(ins: seq<Input>, e: Event, gap: Option<int>)
    requires Stamped(Arrivals(ins) + [e]) && e.uid != "" && IsActivity(e)
    ensures var h, read := Upto(ins, e), gap.GetOr(e.time);
            && (Raised(ins, e, gap, "flood") <==> e.kind in {ChanMsg, UserMsg} && InMinute(h, IsMessage, read) >= 30)
            && (Raised(ins, e, gap, "pm_flood") <==> e.kind == UserMsg && InMinute(h, IsPm, e.time) >= 12)
            && (Raised(ins, e, gap, "repeat") <==>
                  && e.kind in {ChanMsg, UserMsg}
                  && var w := LastN(Msgs(h), MAX_MESSAGES); |w| - |Tally.Distinct(Hashes(w))| >= 4)
  {
    WarrantedCounts(FirstBy(ins, e), Upto(ins, e), e, gap.GetOr(e.time));
    hide Raised, Upto, FirstBy, InMinute, WarrantedAt, Stamped, Arrivals;
    hide Msgs, Hashes, LastN, Tally.Distinct;
    RaisedIsWarranted(ins, e, gap, Flood(30.0), "flood");
    RaisedIsWarranted(ins, e, gap, PmFlood(12.0), "pm_flood");
    RaisedIsWarranted(ins, e, gap, Repeat(4), "repeat");
  }

  lemma {:induction false} FirstSeenEarliest(ins: seq<Input>, uid: string)
    requires FirstSeen(ins, uid).Some?
    ensures exists x :: x in Arrivals(ins) && x.time == FirstSeen(ins, uid).value
  {
    var b := ins[..|ins| - 1];
    if FirstSeen(b, uid).Some? {
      FirstSeenEarliest(b, uid);
      var x :| x in Arrivals(b) && x.time == FirstSeen(b, uid).value;
      assert x in Arrivals(ins);
    } else {
      assert ins[|ins| - 1].e in Arrivals(ins);
    }
  }

  /** In every run with time-ordered events, every alert's confidence is in [0, 1]. */
  lemma AlertConfidences(ins: seq<Input>, e: Event, gap: Option<int>, a: Alert)
    requires Stamped(Arrivals(ins) + [e]) && e.uid != "" && IsActivity(e)
    requires a in AlertsOf(Run(ins).users, e, gap)
    ensures 0.0 <= a.confidence <= 1.0
  {
    hide WarrantedAt, Tracks, After, Updated;
    var u := Updated(Found(Run(ins).users, e), e, gap);
    var s := SnapshotOf(u, e.time);
    EventTracks(ins, e, gap);
    DispatchedFrom(REGISTRY, s, e);
    var r :| r in REGISTRY && a in Heuristics.Observe(r, s, e);
    if Touches(e) {
      SnapshotIsHistorical(u, Upto(ins, e), e.time, gap.GetOr(e.time));
      UpperBounded(MinuteMsgs(Upto(ins, e), gap.GetOr(e.time)));
      SeenBefore(ins, e);
      ConfidenceInUnit(r, s, e);
    } else {
      ModeIsQuiet(r, e);
    }
  }

  lemma SeenBefore(ins: seq<Input>, e: Event)
    requires Stamped(Arrivals(ins) + [e])
    ensures FirstBy(ins, e) <= e.time
  {
    if FirstSeen(ins, e.uid).Some? {
      FirstSeenEarliest(ins, e.uid);
      var x :| x in Arrivals(ins) && x.time == FirstSeen(ins, e.uid).value;
      var k :| 0 <= k < |Arrivals(ins)| && Arrivals(ins)[k] == x;
      var all := Arrivals(ins) + [e];
      assert all[k] == x && all[|Arrivals(ins)|] == e;
    }
  }

  lemma OneMessage(m: MessageRecord, from: int)
    requires m.at >= from
    ensures SumBy(Within([m], MessageAt, from), Urls) == m.body.urls as real
  {
    assert [m][..0] == [] && Within([m][..0], MessageAt, from) == [];
    assert Within([m], MessageAt, from) == [m];
    assert SumBy([m][..0], Urls) == 0.0;
  }

  /** What the rules see after a user's first message. */
  lemma FirstMessage(u: Record, e: Event)
    requires IsMessage(e) && u.recentMsgs == [] && u.msgCount == 0
    ensures var s := SnapshotOf(After(u, e), e.time);
            s.firstSeen == u.firstSeen && s.msgCount == 1 && s.urlCount == e.body.urls
  {
    OneMessage(MessageOf(e), e.time - MINUTE);
    hide SumBy, Within, HashesAfter, TargetSet, Spoofs, InLastMinute, HashSet, ChannelSet, Mean, Square;
    assert After(u, e).recentMsgs == [MessageOf(e)];
  }

  lemma EarlyLink(s: Snapshot, e: Event)
    requires s.msgCount == 1 && s.urlCount == 1 && e.kind == ChanMsg && e.time < s.firstSeen
    ensures exists a :: a in Dispatched(REGISTRY, s, e) && a.confidence > 1.0
  {
    var r := LinkSpam(30000);
    assert r == REGISTRY[3];
    assert ChanMsg in r.Kinds();
    DispatchedFrom(REGISTRY, s, e);
    var q := (e.time - s.firstSeen) as real / 30000.0;
    assert q < 0.0 && r.Confidence(s, e.time) == 1.0 - q;
    assert Heuristics.Observe(r, s, e)[0] in Dispatched(REGISTRY, s, e);
  }

  /** A link posted by a user whose connection was stamped later raises an alert with a confidence above 1. */
  lemma LateConnectOverrates()
    ensures var connect := Event(Connect, 1000, "u", "", false, "", "", Body(0, 0, 0.0, 0, 0, false));
            var link := Event(ChanMsg, 0, "u", "", false, "#c", "", Body(9, 0, 0.0, 1, 0, false));
            exists a :: a in AlertsOf(Run([Arrive(connect, None)]).users, link, None) && a.confidence > 1.0
  {
    var connect := Event(Connect, 1000, "u", "", false, "", "", Body(0, 0, 0.0, 0, 0, false));
    var link := Event(ChanMsg, 0, "u", "", false, "#c", "", Body(9, 0, 0.0, 1, 0, false));
    var ins := [Arrive(connect, None)];
    hide After, SnapshotOf, Dispatched;
    assert ins[..0] == [] && Run(ins).users == map["u" := Identified(Fresh(connect), connect)];
    var u := Run(ins).users["u"];
    FirstMessage(u, link);
    EarlyLink(SnapshotOf(After(u, link), 0), link);
  }

}
