/** The feature vectors of a run (sentry/state.go, sentry/manager.go): what the cache holds and for which instant, who
    reads a stale one, and what the anomaly baseline learns, as statements about the input history. */
module FeatureHistory {
  import opened Basics
  import opened Events
  import opened Windows
  import opened Welford
  import opened Heuristics
  import opened UserState
  import opened History
  import opened Manager
  import opened SentryRuns
  import Anomaly

  function HasAccount(who: Identity): bool {
    who.account != "" && who.account != "*"
  }

  /** The features at an instant, computed from the user's history, the time they were first seen and their identity. */
  ghost function Historical(firstSeen: int, who: Identity, h: seq<Event>, now: int): FeatureVector {
    var w := MinuteMsgs(h, now);
    var age := (now - firstSeen) as real / 1000.0;
    FeatureVector(
      age, Min(MAX_MESSAGES, InMinute(h, IsMessage, now)) as real, Min(MAX_JOINS, InMinute(h, IsJoin, now)) as real,
      Mean(SumBy(w, Length), |w|), Mean(Batch(Lengths(w)).m2, |w|), Mean(|HashSet(w)| as real, |w|),
      |ChannelSet(w)| as real, if HasAccount(who) then 1.0 else 0.0, if who.tls then 1.0 else 0.0,
      Mean(SumBy(w, Upper), |w|), SumBy(w, Urls), |Stamps(h, IsCtcp)| as real, IdleBurstScore(age, |w|),
      Min(MAX_EVENTS, InMinute(h, IsNick, now)) as real, Min(MAX_EVENTS, InMinute(h, IsHop, now)) as real)
  }

  function IdentityOf(u: Record): Identity {
    Identity(u.account, u.tls)
  }

  /** The vector computed from the bounded record is that of the history. */
  lemma VectorIsHistorical(u: Record, h: seq<Event>, now: int)
    requires Tracks(u, h) && Sorted(h, Time)
    ensures Features(u, now) == Historical(u.firstSeen, IdentityOf(u), h, now)
  {
    hide SumBy, Mean, Batch, Lengths, Within, MinuteMsgs, InMinute, HashSet, ChannelSet, Square;
    WindowsAreExact(u, h, now);
    LengthVariance(u, now);
    LengthSums(MinuteMsgs(h, now));
  }

  // ----- The cache -----

  /** The vector the rules and the baseline read within one Observe is the same one. */
  lemma OneVector(users: map<string, Record>, e: Event, gap: Option<int>)
    ensures VectorRead(users, e, gap) == FeaturesSeen(Updated(Found(users, e), e, gap), e.time)
    ensures IsActivity(e) && e.uid != "" ==> UsersAfter(users, e, gap)[e.uid].cached == Some(VectorRead(users, e, gap))
    ensures Touches(e) || After(Found(users, e), e).cached.None? ==>
              VectorRead(users, e, gap) == Features(Updated(Found(users, e), e, gap), gap.GetOr(e.time))
  {
    FirstSeenKept(Found(users, e), e);
    CacheIsNotRead(After(Found(users, e), e), Updated(Found(users, e), e, gap).cached);
    hide After, Features, Identified;
  }

  /** A mode event adds nothing a vector is computed from. */
  lemma ModeAddsNothing(firstSeen: int, who: Identity, h: seq<Event>, e: Event, now: int)
    requires e.kind.Mode?
    ensures Historical(firstSeen, who, h + [e], now) == Historical(firstSeen, who, h, now)
  {
    SelectsAppend(h, e);
    hide SumBy, Mean, Batch, Lengths, HashSet, ChannelSet;
  }

  /** What the cache of a known user should be. */
  ghost function CachedVector(ins: seq<Input>, uid: string): Option<FeatureVector> {
    var stamp := CachedFor(ins, uid);
    if stamp.None? then None
    else Some(Historical(FirstSeen(ins, uid).GetOr(0), stamp.value.who, Mine(ins, uid), stamp.value.at))
  }

  ghost predicate CacheFits(ins: seq<Input>, uid: string) {
    var users := Run(ins).users;
    if uid in users then users[uid].cached == CachedVector(ins, uid) && IdentityOf(users[uid]) == Known(ins, uid)
    else CachedFor(ins, uid).None?
  }

  lemma IdentityKept(u: Record, e: Event)
    ensures IsActivity(e) ==> IdentityOf(After(u, e)) == IdentityOf(u)
    ensures IdentityOf(Identified(u, e)) == Identity(if e.account != "" then e.account else u.account, e.tls)
    ensures Identified(u, e).cached == u.cached && IdentityOf(Fresh(e)) == Identity(e.account, e.tls)
    ensures e.kind.Mode? ==> After(u, e) == u
  {
  }

  ghost function KnownBy(ins: seq<Input>, e: Event): Identity {
    if FirstSeen(ins, e.uid).None? then Identity(e.account, e.tls) else Known(ins, e.uid)
  }

  lemma Arrived(ins: seq<Input>, e: Event, gap: Option<int>)
    requires e.uid != "" && IsActivity(e)
    ensures var all, uid := ins + [Arrive(e, gap)], e.uid;
            && Run(all).users == UsersAfter(Run(ins).users, e, gap)
            && Arrivals(all) == Arrivals(ins) + [e]
            && Mine(all, uid) == Upto(ins, e) && FirstSeen(all, uid) == Some(FirstBy(ins, e))
            && Known(all, uid) == KnownBy(ins, e)
            && CachedFor(all, uid) == if e.kind.Mode? && CachedFor(ins, uid).Some? then CachedFor(ins, uid)
                                      else Some(Stamp(gap.GetOr(e.time), KnownBy(ins, e)))
  {
    assert (ins + [Arrive(e, gap)])[..|ins|] == ins;
  }

  lemma EventCached(ins: seq<Input>, e: Event, gap: Option<int>)
    requires Stamped(Arrivals(ins) + [e]) && e.uid != "" && IsActivity(e) && CacheFits(ins, e.uid)
    ensures CacheFits(ins + [Arrive(e, gap)], e.uid)
  {
    var u := Found(Run(ins).users, e);
    Arrived(ins, e, gap);
    OneVector(Run(ins).users, e, gap);
    StampedPrefix(Arrivals(ins), e);
    RunTracks(ins, e.uid);
    EventTracks(ins, e, gap);
    IdentityKept(u, e);
    FirstSeenKept(u, e);
    VectorIsHistorical(Updated(u, e, gap), Upto(ins, e), gap.GetOr(e.time));
    hide Tracks, Features, After, Historical, Stamped, Run, Arrivals, Mine, FirstSeen, Known, CachedFor, VectorRead;
    if e.kind.Mode? && CachedFor(ins, e.uid).Some? {
      var stamp := CachedFor(ins, e.uid).value;
      ModeAddsNothing(FirstBy(ins, e), stamp.who, Mine(ins, e.uid), e, stamp.at);
    }
  }

  /** An event of someone else, an identification, or a quit. */
  lemma OtherCached(ins: seq<Input>, i: Input, uid: string)
    requires Stamped(Arrivals(ins + [i])) && uid != "" && CacheFits(ins, uid)
    requires i.Arrive? && !(i.e.uid == uid && IsActivity(i.e))
    ensures CacheFits(ins + [i], uid)
  {
    var all := ins + [i];
    assert all[..|ins|] == ins;
    EarlierStamped(all);
    RunTracks(ins, uid);
    IdentityKept(Found(Run(ins).users, i.e), i.e);
    hide Tracks, Historical, Identified, After, Settled, Taught;
  }

  lemma ReadFrom(ins: seq<Input>, id: string, now: int, uid: string)
    ensures var all := ins + [Peek(id, now)];
            && Run(all).users == Peeked(Run(ins), id, now).users && Arrivals(all) == Arrivals(ins)
            && Mine(all, uid) == Mine(ins, uid) && FirstSeen(all, uid) == FirstSeen(ins, uid)
            && Known(all, uid) == Known(ins, uid)
            && CachedFor(all, uid) == if id != uid || FirstSeen(ins, uid).None? || CachedFor(ins, uid).Some?
                                      then CachedFor(ins, uid) else Some(Stamp(now, Known(ins, uid)))
  {
    assert (ins + [Peek(id, now)])[..|ins|] == ins;
  }

  lemma PeekCached(ins: seq<Input>, id: string, now: int, uid: string)
    requires Stamped(Arrivals(ins + [Peek(id, now)])) && uid != "" && CacheFits(ins, uid)
    ensures CacheFits(ins + [Peek(id, now)], uid)
  {
    ReadFrom(ins, id, now, uid);
    hide Tracks, Features, Historical, Run, Arrivals, Mine, FirstSeen, Known, CachedFor, Stamped;
    RunTracks(ins, uid);
    if id == uid && uid in Run(ins).users {
      MineIsStamped(ins, uid);
      StampedIsSorted(Mine(ins, uid));
      VectorIsHistorical(Run(ins).users[uid], Mine(ins, uid), now);
    }
  }

  lemma StampedIsSorted(h: seq<Event>)
    requires Stamped(h)
    ensures Sorted(h, Time)
  {
  }

  lemma SweepCached(ins: seq<Input>, i: Input, uid: string)
    requires Stamped(Arrivals(ins + [i])) && uid != "" && CacheFits(ins, uid) && (i.Collect? || i.Swept?)
    ensures CacheFits(ins + [i], uid)
  {
    var all := ins + [i];
    assert all[..|ins|] == ins;
    EarlierStamped(all);
    RunTracks(ins, uid);
    RunTracks(all, uid);
    hide Tracks, Historical, Taught, LastActive, TakenOut;
  }

  /** In every run with time-ordered events the cache of every user is filled or empty, and filled with the very vector,
      that the input history says: it is that of the instant and the identity of its stamp. */
  lemma {:induction false} RunCached(ins: seq<Input>, uid: string)
    requires Stamped(Arrivals(ins)) && uid != ""
    ensures CacheFits(ins, uid)
  {
    if ins != [] {
      var b, last := ins[..|ins| - 1], ins[|ins| - 1];
      assert ins == b + [last];
      EarlierStamped(ins);
      RunCached(b, uid);
      hide CacheFits;
      match last {
        case Arrive(e, gap) =>
          if e.uid == uid && IsActivity(e) {
            Arrived(b, e, gap);
            EventCached(b, e, gap);
          } else {
            OtherCached(b, last, uid);
          }
        case Peek(id, now) => PeekCached(b, id, now, uid);
        case Collect(_) => SweepCached(b, last, uid);
        case Swept(_, _, _) => SweepCached(b, last, uid);
      }
    }
  }

  // ----- Who reads a stale vector -----

  predicate SameFlags(a: Identity, b: Identity) {
    HasAccount(a) == HasAccount(b) && a.tls == b.tls
  }

  /** What a reader at an instant should be given. */
  ghost function RightVector(ins: seq<Input>, uid: string, now: int): FeatureVector {
    Historical(FirstSeen(ins, uid).GetOr(0), Known(ins, uid), Mine(ins, uid), now)
  }

  lemma SameVector(firstSeen: int, a: Identity, b: Identity, h: seq<Event>, s: int, t: int)
    ensures Historical(firstSeen, a, h, s) == Historical(firstSeen, b, h, t) <==> s == t && SameFlags(a, b)
  {
    hide SumBy, Mean, Batch, Lengths, MinuteMsgs, InMinute, HashSet, ChannelSet, IdleBurstScore;
    assert Historical(firstSeen, a, h, s).age == (s - firstSeen) as real / 1000.0;
    assert Historical(firstSeen, b, h, t).age == (t - firstSeen) as real / 1000.0;
  }

  /** In every run with time-ordered events, whoever reads a known user's features is given the right ones if and only
      if nothing is cached, or what is cached was computed for the same instant and with the same account and transport
      flags. The age alone is right exactly when the instant is. */
  lemma ReaderIsRight(ins: seq<Input>, uid: string, now: int)
    requires Stamped(Arrivals(ins)) && uid != "" && FirstSeen(ins, uid).Some?
    ensures uid in Run(ins).users
    ensures var got, stamp := FeaturesSeen(Run(ins).users[uid], now), CachedFor(ins, uid);
            && (got == RightVector(ins, uid, now) <==>
                  stamp.None? || (stamp.value.at == now && SameFlags(stamp.value.who, Known(ins, uid))))
            && (got.age == RightVector(ins, uid, now).age <==> stamp.None? || stamp.value.at == now)
  {
    RunTracks(ins, uid);
    RunCached(ins, uid);
    MineIsStamped(ins, uid);
    var u, h, first := Run(ins).users[uid], Mine(ins, uid), FirstSeen(ins, uid).value;
    VectorIsHistorical(u, h, now);
    if CachedFor(ins, uid).Some? {
      var stamp := CachedFor(ins, uid).value;
      SameVector(first, stamp.who, Known(ins, uid), h, stamp.at, now);
      AgeOf(first, stamp.who, h, stamp.at);
    }
    AgeOf(first, Known(ins, uid), h, now);
    hide Historical, Features, Tracks, Known, Mine, Run, FirstSeen, CachedFor;
  }

  lemma AgeOf(firstSeen: int, who: Identity, h: seq<Event>, now: int)
    ensures Historical(firstSeen, who, h, now).age == (now - firstSeen) as real / 1000.0
  {
  }

  /** The vector read for an event is the right one for it if and only if its stamp is that of the event: so for every
      event that touches the user, unless an outside read for another instant fell in between, and for a mode event
      only when what was cached before is for its own instant and its user's flags. */
  lemma EventReadsRight(ins: seq<Input>, e: Event, gap: Option<int>)
    requires Stamped(Arrivals(ins) + [e]) && e.uid != "" && IsActivity(e)
    ensures var all, got := ins + [Arrive(e, gap)], VectorRead(Run(ins).users, e, gap);
            var right := RightVector(all, e.uid, e.time);
            if e.kind.Mode? && CachedFor(ins, e.uid).Some? then
              var stamp := CachedFor(ins, e.uid).value;
              got == right <==> stamp.at == e.time && SameFlags(stamp.who, Known(all, e.uid))
            else got == right <==> gap.GetOr(e.time) == e.time
  {
    var all := ins + [Arrive(e, gap)];
    Arrived(ins, e, gap);
    RunCached(all, e.uid);
    OneVector(Run(ins).users, e, gap);
    var stamp := CachedFor(all, e.uid).value;
    SameVector(FirstBy(ins, e), stamp.who, Known(all, e.uid), Upto(ins, e), stamp.at, e.time);
    hide Historical, Stamped, Run, Arrivals, Mine, FirstSeen, Known, CachedFor, VectorRead, FeaturesSeen;
  }

  function Said(at: int): Event {
    Event(ChanMsg, at, "u", "", false, "#c", "", Body(1, 0, 0.0, 0, 0, false))
  }

  function Moded(at: int): Event {
    Event(Mode, at, "u", "", false, "#c", "", Body(0, 0, 0.0, 0, 0, false))
  }

  lemma OneSaid(at: int)
    requires at > 0
    ensures Stamped([Said(0)]) && Stamped([Said(0)] + [Moded(at)])
    ensures Said(0).uid == Moded(at).uid == "u" && Said(0).time == 0 && Said(0).kind == ChanMsg
    ensures Moded(at).time == at && Moded(at).kind == Mode
    ensures Arrivals([]) == [] && CachedFor([], "u") == None && KnownBy([], Said(0)) == Identity("", false)
  {
  }

  lemma AfterOne(at: int)
    requires at > 0
    ensures var ins := [Arrive(Said(0), None)];
            && Stamped(Arrivals(ins) + [Moded(at)]) && Stamped(Arrivals(ins)) && FirstSeen(ins, "u").Some?
            && CachedFor(ins, "u") == Some(Stamp(0, Identity("", false)))
    ensures Moded(at).uid == "u" && Moded(at).time == at && Moded(at).kind.Mode? && IsActivity(Moded(at))
  {
    OneSaid(at);
    assert IsActivity(Said(0)) && IsActivity(Moded(at));
    hide *;
    Arrived([], Said(0), None);
    assert [] + [Arrive(Said(0), None)] == [Arrive(Said(0), None)];
    assert [] + [Said(0)] == [Said(0)];
  }

  /** After a message, the mode event a second later is given the vector of the message, and so is an outside reader. */
  lemma StaleOnMode()
    ensures var ins := [Arrive(Said(0), None)];
            && VectorRead(Run(ins).users, Moded(1000), None)
               != RightVector(ins + [Arrive(Moded(1000), None)], "u", 1000)
            && "u" in Run(ins).users && FeaturesSeen(Run(ins).users["u"], 1000) != RightVector(ins, "u", 1000)
  {
    var ins := [Arrive(Said(0), None)];
    hide *;
    AfterOne(1000);
    EventReadsRight(ins, Moded(1000), None);
    ReaderIsRight(ins, "u", 1000);
  }

  /** Many messages of one instant. */
  ghost function Messages(n: nat): seq<Event> {
    if n == 0 then [] else Messages(n - 1) + [Said(0)]
  }

  ghost function Burst(n: nat): seq<Input> {
    if n == 0 then [] else Burst(n - 1) + [Arrive(Said(0), None)]
  }

  lemma {:induction false} MessagesAre(n: nat)
    ensures forall i :: 0 <= i < |Messages(n)| ==> Messages(n)[i] == Said(0)
  {
    if n > 0 {
      MessagesAre(n - 1);
    }
  }

  lemma BurstUnfolds(n: nat)
    ensures if n == 0 then Burst(n) == [] && Messages(n) == [] && Arrivals([]) == [] && Mine([], "u") == []
            else Burst(n) == Burst(n - 1) + [Arrive(Said(0), None)] && Messages(n) == Messages(n - 1) + [Said(0)]
    ensures Said(0).uid == "u" && IsActivity(Said(0)) && Upto(Burst(n), Said(0)) == Mine(Burst(n), "u") + [Said(0)]
  {
  }

  lemma {:induction false} BurstIs(n: nat)
    ensures Arrivals(Burst(n)) == Messages(n) == Mine(Burst(n), "u")
  {
    hide *;
    BurstUnfolds(n);
    if n > 0 {
      BurstIs(n - 1);
      BurstUnfolds(n - 1);
      Arrived(Burst(n - 1), Said(0), None);
    }
  }

  lemma {:induction false} MessagesCount(n: nat)
    ensures InMinute(Messages(n), IsMessage, 0) == n && InMinute(Messages(n), IsMessage, 60001) == 0
  {
    if n > 0 {
      MessagesCount(n - 1);
      assert Messages(n)[..|Messages(n)| - 1] == Messages(n - 1);
    }
  }

  /** A user's thirtieth message of the minute raises a flood alert, unless an outside read for a minute later falls
      between its update and the rules. */
  lemma GapHidesFlood()
    ensures Raised(Burst(29), Said(0), None, "flood") && !Raised(Burst(29), Said(0), Some(60001), "flood")
  {
    BurstIs(29);
    MessagesAre(30);
    MessagesCount(30);
    assert Messages(30) == Messages(29) + [Said(0)] && Stamped(Messages(30));
    hide Raised, Burst, Messages, Stamped, Mine, Arrivals, InMinute;
    MessageRules(Burst(29), Said(0), None);
    MessageRules(Burst(29), Said(0), Some(60001));
  }

  // ----- The anomaly baseline -----

  /** The vectors of the feature-bearing events on which the history warrants no alert. */
  ghost function Unflagged(ins: seq<Input>): seq<Anomaly.FeatureMap> {
    if ins == [] then []
    else
      var b, last := ins[..|ins| - 1], ins[|ins| - 1];
      var handled := last.Arrive? || (last.Swept? && TakenOut(b, last.e, last.cutoff));
      if handled && AddsVector(b, last.e, last.gap) then Unflagged(b) + [AddedVector(b, last.e, last.gap)]
      else Unflagged(b)
  }

  /** The event adds its vector to the unflagged ones. */
  ghost predicate AddsVector(ins: seq<Input>, e: Event, gap: Option<int>) {
    && e.uid != "" && IsFeatureBearing(e.kind)
    && forall r :: r in REGISTRY ==> !WarrantedAt(r, FirstBy(ins, e), Upto(ins, e), e, gap.GetOr(e.time))
  }

  ghost function AddedVector(ins: seq<Input>, e: Event, gap: Option<int>): Anomaly.FeatureMap {
    FeatureMapOf(Historical(FirstBy(ins, e), KnownBy(ins, e), Upto(ins, e), gap.GetOr(e.time)))
  }

  lemma TeachesMeaning(ins: seq<Input>, e: Event, gap: Option<int>)
    requires Stamped(Arrivals(ins) + [e]) && e.uid != "" && IsFeatureBearing(e.kind)
    ensures Teaches(Run(ins).users, e, gap) <==> AddsVector(ins, e, gap)
  {
    hide WarrantedAt, Fires;
    var u, read := Updated(Found(Run(ins).users, e), e, gap), gap.GetOr(e.time);
    EventTracks(ins, e, gap);
    SnapshotIsHistorical(u, Upto(ins, e), e.time, read);
    DispatchedFrom(REGISTRY, SnapshotOf(u, e.time), e);
    forall r | r in REGISTRY
      ensures Fires(r, SnapshotOf(u, e.time), e) <==> WarrantedAt(r, u.firstSeen, Upto(ins, e), e, read)
    {
      VerdictsAreHistorical(r, SnapshotOf(u, e.time), Upto(ins, e), e, read);
    }
  }

  lemma TrainedAppend(fvs: seq<Anomaly.FeatureMap>, fv: Anomaly.FeatureMap)
    ensures Anomaly.TrainedAll(map f | f in FEATURES :: EMPTY, fvs + [fv])
         == Anomaly.Trained(Anomaly.TrainedAll(map f | f in FEATURES :: EMPTY, fvs), fv)
  {
  }

  lemma VectorTaught(ins: seq<Input>, e: Event, gap: Option<int>)
    requires Stamped(Arrivals(ins) + [e])
    ensures Teaches(Run(ins).users, e, gap) <==> AddsVector(ins, e, gap)
    ensures Teaches(Run(ins).users, e, gap) ==>
              FeatureMapOf(VectorRead(Run(ins).users, e, gap)) == AddedVector(ins, e, gap)
  {
    hide AlertsOf, Historical, Features, FeatureMapOf, After, Updated, Tracks, WarrantedAt, FeaturesSeen, VectorRead;
    if e.uid != "" && IsFeatureBearing(e.kind) {
      var u := Updated(Found(Run(ins).users, e), e, gap);
      TeachesMeaning(ins, e, gap);
      OneVector(Run(ins).users, e, gap);
      EventTracks(ins, e, gap);
      VectorIsHistorical(u, Upto(ins, e), gap.GetOr(e.time));
      SameMap(u.firstSeen, IdentityOf(u), KnownBy(ins, e), Upto(ins, e), gap.GetOr(e.time));
    }
  }

  /** The baseline learns nothing about account and transport. */
  lemma SameMap(firstSeen: int, a: Identity, b: Identity, h: seq<Event>, now: int)
    ensures FeatureMapOf(Historical(firstSeen, a, h, now)) == FeatureMapOf(Historical(firstSeen, b, h, now))
  {
  }

  lemma UnflaggedMore(ins: seq<Input>, i: Input)
    ensures var handled := i.Arrive? || (i.Swept? && TakenOut(ins, i.e, i.cutoff));
            Unflagged(ins + [i]) ==
            if handled && AddsVector(ins, i.e, i.gap) then Unflagged(ins) + [AddedVector(ins, i.e, i.gap)]
            else Unflagged(ins)
  {
    assert (ins + [i])[..|ins|] == ins;
  }

  lemma BaselineMore(ins: seq<Input>, i: Input)
    requires Stamped(Arrivals(ins + [i]))
    ensures i.Arrive? || i.Swept? ==> Arrivals(ins + [i]) == Arrivals(ins) + [i.e]
    ensures var handled := i.Arrive? || (i.Swept? && TakenOut(ins, i.e, i.cutoff));
            Run(ins + [i]).baseline == if handled then Taught(Run(ins), i.e, i.gap) else Run(ins).baseline
  {
    assert (ins + [i])[..|ins|] == ins;
    EarlierStamped(ins + [i]);
    hide Taught, UsersAfter, Collected;
    if i.Swept? && i.e.uid != "" {
      RunTracks(ins, i.e.uid);
    }
  }

  lemma BaselineStep(ins: seq<Input>, i: Input)
    requires Stamped(Arrivals(ins + [i]))
    requires Run(ins).baseline == Anomaly.TrainedAll(map f | f in FEATURES :: EMPTY, Unflagged(ins))
    ensures Run(ins + [i]).baseline == Anomaly.TrainedAll(map f | f in FEATURES :: EMPTY, Unflagged(ins + [i]))
  {
    BaselineMore(ins, i);
    UnflaggedMore(ins, i);
    hide Run, Unflagged, AddsVector, AddedVector, Teaches, VectorRead, UsersAfter, Arrivals, TakenOut;
    hide Anomaly.TrainedAll, Anomaly.Trained;
    if i.Arrive? || i.Swept? {
      VectorTaught(ins, i.e, i.gap);
      TrainedAppend(Unflagged(ins), AddedVector(ins, i.e, i.gap));
    }
  }

  lemma {:induction false} BaselineTrained(ins: seq<Input>)
    requires Stamped(Arrivals(ins))
    ensures Run(ins).baseline == Anomaly.TrainedAll(map f | f in FEATURES :: EMPTY, Unflagged(ins))
  {
    if ins != [] {
      var b, last := ins[..|ins| - 1], ins[|ins| - 1];
      assert ins == b + [last];
      EarlierStamped(ins);
      BaselineTrained(b);
      BaselineStep(b, last);
    } else {
      assert Unflagged(ins) == [];
    }
  }

  /** In every run, each feature's accumulator holds the two-pass statistics of exactly the feature-bearing events
      on which the history warranted no alert, each seen through its user's history alone. */
  lemma BaselineIsBatchOfUnflagged(ins: seq<Input>, f: string)
    requires Stamped(Arrivals(ins)) && f in FEATURES
    ensures f in Run(ins).baseline
    ensures Run(ins).baseline[f] == Batch(Anomaly.Column(Unflagged(ins), f))
  {
    BaselineTrained(ins);
    Anomaly.TrainedColumns(FEATURES, Unflagged(ins), f);
  }
}
