/** The bounded user record refines its full history: every rule's verdict is a statement about everything the
    user ever did. */
module History {
  import opened Basics
  import opened Events
  import opened Windows
  import opened Tally
  import opened Heuristics
  import opened UserState
  import Welford

  function Msgs(h: seq<Event>): seq<MessageRecord> { Select(h, IsMessage, MessageOf) }
  function Pms(h: seq<Event>): seq<PmRecord> { Select(h, IsPm, PmOf) }
  function Stamps(h: seq<Event>, p: Event -> bool): seq<int> { Select(h, p, Time) }

  /** Opening index of a burst still running: a message after at least five silent minutes, and since then never
      more than a minute between messages. */
  ghost predicate OpensBurst(ts: seq<int>, k: int) {
    && 1 <= k < |ts|
    && ts[k] - ts[k - 1] >= BURST_RESUME
    && forall j :: k < j < |ts| ==> ts[j] - ts[j - 1] <= BURST_HOLD
  }

  ghost predicate IsBurstGap(ts: seq<int>, gap: int) {
    if exists k :: OpensBurst(ts, k) then exists k :: OpensBurst(ts, k) && gap == ts[k] - ts[k - 1] else gap == 0
  }

  /** The record is the function of the history that it should be. */
  ghost predicate Tracks(u: Record, h: seq<Event>) {
    MessagesTrack(u, h) && TelemetryTracks(u, h) && MovesTrack(u, h) && BurstTracks(u, Stamps(h, IsMessage))
  }

  ghost predicate MessagesTrack(u: Record, h: seq<Event>) {
    && u.msgCount == |Msgs(h)|
    && u.recentMsgs == LastN(Msgs(h), MAX_MESSAGES)
    && u.msgHashes == TallyOf(Hashes(u.recentMsgs))
  }

  ghost predicate TelemetryTracks(u: Record, h: seq<Event>) {
    && u.recentPms == LastN(Pms(h), MAX_MESSAGES)
    && u.recentMentions == LastN(Stamps(h, IsMentionBomb), MAX_MESSAGES)
  }

  ghost predicate MovesTrack(u: Record, h: seq<Event>) {
    && u.ctcpCount == |Stamps(h, IsCtcp)|
    && u.recentJoins == LastN(Stamps(h, IsJoin), MAX_JOINS)
    && u.recentNicks == LastN(Stamps(h, IsNick), MAX_EVENTS)
    && u.recentHops == LastN(Stamps(h, IsHop), MAX_EVENTS)
  }

  ghost predicate BurstTracks(u: Record, ts: seq<int>) {
    && u.lastMsg == (if ts == [] then ZERO_TIME else ts[|ts| - 1])
    && IsBurstGap(ts, u.burstGap)
  }

  /** Stamps a real clock produces. */
  ghost predicate Stamped(h: seq<Event>) {
    Sorted(h, Time) && forall i :: 0 <= i < |h| ==> h[i].time > ZERO_TIME
  }

  lemma FreshTracks(e: Event)
    ensures Tracks(Fresh(e), [])
  {
  }

  lemma SameOpening(ts: seq<int>, t: int, k: int)
    requires ts != [] && t - ts[|ts| - 1] <= BURST_HOLD
    ensures OpensBurst(ts + [t], k) <==> OpensBurst(ts, k)
  {
    var after := ts + [t];
    if OpensBurst(after, k) {
      assert k < |ts|;
      forall j | k < j < |ts| ensures ts[j] - ts[j - 1] <= BURST_HOLD {
        assert after[j] - after[j - 1] <= BURST_HOLD;
      }
    }
  }

  lemma BurstKept(ts: seq<int>, gap: int, t: int)
    requires ts != [] && IsBurstGap(ts, gap) && t - ts[|ts| - 1] <= BURST_HOLD
    ensures IsBurstGap(ts + [t], gap)
  {
    var after := ts + [t];
    forall k ensures OpensBurst(after, k) <==> OpensBurst(ts, k) {
      SameOpening(ts, t, k);
    }
    if k :| OpensBurst(ts, k) && gap == ts[k] - ts[k - 1] {
      KeptGap(ts, t, k);
      hide OpensBurst;
      assert OpensBurst(after, k);
    }
  }

  lemma KeptGap(ts: seq<int>, t: int, k: int)
    requires OpensBurst(ts, k)
    ensures 1 <= k < |ts| && (ts + [t])[k] - (ts + [t])[k - 1] == ts[k] - ts[k - 1]
  {
  }

  lemma BurstOver(ts: seq<int>, t: int)
    requires ts != [] && BURST_HOLD < t - ts[|ts| - 1] < BURST_RESUME
    ensures forall k :: !OpensBurst(ts + [t], k)
  {
    var after := ts + [t];
    forall k ensures !OpensBurst(after, k) {
      assert after[|ts|] - after[|ts| - 1] == t - ts[|ts| - 1];
    }
  }

  lemma BurstStep(ts: seq<int>, lastMsg: int, gap: int, t: int)
    requires lastMsg == if ts == [] then ZERO_TIME else ts[|ts| - 1]
    requires ts != [] ==> lastMsg > ZERO_TIME
    requires IsBurstGap(ts, gap)
    ensures IsBurstGap(ts + [t], BurstGapAfter(lastMsg, gap, t))
  {
    if ts != [] {
      var step := t - lastMsg;
      if step >= BURST_RESUME {
        assert OpensBurst(ts + [t], |ts|);
      } else if step <= BURST_HOLD {
        BurstKept(ts, gap, t);
      } else {
        BurstOver(ts, t);
        assert gap >= 0;
      }
    }
  }

  lemma HashesStep(msgs: seq<MessageRecord>, m: MessageRecord)
    requires |msgs| <= MAX_MESSAGES
    ensures HashesAfter(TallyOf(Hashes(msgs)), msgs, m.body.hash) == TallyOf(Hashes(LastN(msgs + [m], MAX_MESSAGES)))
  {
    var hs := Hashes(msgs);
    BumpIsAppend(hs, m.body.hash);
    assert Hashes(msgs + [m]) == hs + [m.body.hash];
    if |msgs| == MAX_MESSAGES {
      DropIsEvict(hs + [m.body.hash]);
      assert Hashes(LastN(msgs + [m], MAX_MESSAGES)) == (hs + [m.body.hash])[1..];
    }
  }

  lemma SelectsAppend(h: seq<Event>, e: Event)
    ensures Msgs(h + [e]) == Msgs(h) + if IsMessage(e) then [MessageOf(e)] else []
    ensures Pms(h + [e]) == Pms(h) + if IsPm(e) then [PmOf(e)] else []
    ensures Stamps(h + [e], IsMessage) == Stamps(h, IsMessage) + if IsMessage(e) then [e.time] else []
    ensures Stamps(h + [e], IsCtcp) == Stamps(h, IsCtcp) + if IsCtcp(e) then [e.time] else []
    ensures Stamps(h + [e], IsJoin) == Stamps(h, IsJoin) + if IsJoin(e) then [e.time] else []
    ensures Stamps(h + [e], IsNick) == Stamps(h, IsNick) + if IsNick(e) then [e.time] else []
    ensures Stamps(h + [e], IsHop) == Stamps(h, IsHop) + if IsHop(e) then [e.time] else []
    ensures Stamps(h + [e], IsMentionBomb) == Stamps(h, IsMentionBomb) + if IsMentionBomb(e) then [e.time] else []
  {
  }

  lemma MessageWindow(u: Record, h: seq<Event>, e: Event)
    requires MessagesTrack(u, h) && IsMessage(e)
    ensures MessagesTrack(AfterMessage(u, e), h + [e])
  {
    SelectsAppend(h, e);
    LastNAppend(Msgs(h), MessageOf(e), MAX_MESSAGES);
    HashesStep(u.recentMsgs, MessageOf(e));
  }

  lemma TelemetryWindows(u: Record, h: seq<Event>, e: Event)
    requires TelemetryTracks(u, h) && IsMessage(e)
    ensures TelemetryTracks(AfterMessage(u, e), h + [e])
  {
    SelectsAppend(h, e);
    LastNAppend(Pms(h), PmOf(e), MAX_MESSAGES);
    LastNAppend(Stamps(h, IsMentionBomb), e.time, MAX_MESSAGES);
  }

  lemma MessageTracks(u: Record, h: seq<Event>, e: Event)
    requires Tracks(u, h) && IsMessage(e)
    requires forall t :: t in Stamps(h, IsMessage) ==> t > ZERO_TIME
    ensures MessagesTrack(AfterMessage(u, e), h + [e]) && TelemetryTracks(AfterMessage(u, e), h + [e])
    ensures BurstTracks(AfterMessage(u, e), Stamps(h + [e], IsMessage))
  {
    MessageWindow(u, h, e);
    TelemetryWindows(u, h, e);
    SelectsAppend(h, e);
    var ts := Stamps(h, IsMessage);
    assert ts != [] ==> ts[|ts| - 1] in ts;
    BurstStep(ts, u.lastMsg, u.burstGap, e.time);
  }

  lemma MovesStep(u: Record, h: seq<Event>, e: Event)
    requires MovesTrack(u, h)
    ensures MovesTrack(After(u, e), h + [e])
  {
    SelectsAppend(h, e);
    LastNAppend(Stamps(h, IsHop), e.time, MAX_EVENTS);
    LastNAppend(Stamps(h, IsJoin), e.time, MAX_JOINS);
    LastNAppend(Stamps(h, IsNick), e.time, MAX_EVENTS);
  }

  /** Every activity event keeps the record in step with the history. */
  lemma AfterTracks(u: Record, h: seq<Event>, e: Event)
    requires Tracks(u, h) && IsActivity(e)
    requires forall t :: t in Stamps(h, IsMessage) ==> t > ZERO_TIME
    ensures Tracks(After(u, e), h + [e])
  {
    MovesStep(u, h, e);
    if IsMessage(e) {
      MessageTracks(u, h, e);
    } else {
      SelectsAppend(h, e);
    }
  }

  // ----- What the windows count -----

  /** How many events of a sort the whole history holds in the minute before an instant. */
  ghost function InMinute(h: seq<Event>, p: Event -> bool, now: int): nat {
    CountSince(h, p, Time, now - MINUTE)
  }

  /** The messages, respectively private messages, of the minute, or the last 32 of them if there are more. */
  ghost function MinuteMsgs(h: seq<Event>, now: int): seq<MessageRecord> {
    LastN(Within(Msgs(h), MessageAt, now - MINUTE), MAX_MESSAGES)
  }
  ghost function MinutePms(h: seq<Event>, now: int): seq<PmRecord> {
    LastN(Within(Pms(h), PmAt, now - MINUTE), MAX_MESSAGES)
  }

  /** Each capped window counts exactly the smaller of its cap and the true number of matching events of the last
      minute, over the whole history; the contents are exact up to the cap as well. */
  lemma WindowsAreExact(u: Record, h: seq<Event>, now: int)
    requires Tracks(u, h) && Sorted(h, Time)
    ensures Recent(u, now) == MinuteMsgs(h, now)
    ensures RecentPms(u, now) == MinutePms(h, now)
    ensures |Recent(u, now)| == Min(MAX_MESSAGES, InMinute(h, IsMessage, now))
    ensures |RecentPms(u, now)| == Min(MAX_MESSAGES, InMinute(h, IsPm, now))
    ensures InLastMinute(u.recentJoins, now) == Min(MAX_JOINS, InMinute(h, IsJoin, now))
    ensures InLastMinute(u.recentNicks, now) == Min(MAX_EVENTS, InMinute(h, IsNick, now))
    ensures InLastMinute(u.recentHops, now) == Min(MAX_EVENTS, InMinute(h, IsHop, now))
    ensures InLastMinute(u.recentMentions, now) == Min(MAX_MESSAGES, InMinute(h, IsMentionBomb, now))
  {
    var from := now - MINUTE;
    SelectSorted(h, IsMessage, MessageOf, Time, MessageAt);
    CapThenWindow(Msgs(h), MAX_MESSAGES, MessageAt, from);
    SelectSorted(h, IsPm, PmOf, Time, PmAt);
    CapThenWindow(Pms(h), MAX_MESSAGES, PmAt, from);
    CappedCount(h, MAX_MESSAGES, IsMessage, MessageOf, Time, MessageAt, from);
    CappedCount(h, MAX_MESSAGES, IsPm, PmOf, Time, PmAt, from);
    CappedCount(h, MAX_JOINS, IsJoin, Time, Time, Same, from);
    CappedCount(h, MAX_EVENTS, IsNick, Time, Time, Same, from);
    CappedCount(h, MAX_EVENTS, IsHop, Time, Time, Same, from);
    CappedCount(h, MAX_MESSAGES, IsMentionBomb, Time, Time, Same, from);
  }

  // ----- What each rule means -----

  ghost predicate PostedLink(h: seq<Event>, now: int) {
    exists i :: 0 <= i < |h| && IsMessage(h[i]) && h[i].time >= now - MINUTE && h[i].body.urls > 0
  }

  /** The verdict of a rule, as a statement about the user's whole history up to and including the event. */
  ghost predicate Warranted(r: Rule, firstSeen: int, h: seq<Event>, e: Event) {
    WarrantedAt(r, firstSeen, h, e, e.time)
  }

  /** The same when the features were computed for another instant than that of the event: message and join rates,
      links and upper-case shares are then those of the minute before that instant. */
  ghost predicate WarrantedAt(r: Rule, firstSeen: int, h: seq<Event>, e: Event, read: int) {
    var now := e.time;
    e.kind in r.Kinds() &&
    match r
    case Flood(t) => InMinute(h, IsMessage, read) as real >= t
    case Repeat(t) => var w := LastN(Msgs(h), MAX_MESSAGES); |w| - |Distinct(Hashes(w))| >= t
    case MassJoin(t) => InMinute(h, IsJoin, read) as real >= t
    case LinkSpam(maxAge) => PostedLink(h, read) && now - firstSeen <= maxAge && |Msgs(h)| <= 3
    case IdleBurst(minAge, t, idle) =>
      && now - firstSeen >= minAge
      && InMinute(h, IsMessage, read) as real >= t
      && exists k :: OpensBurst(Stamps(h, IsMessage), k)
    case CtcpStorm(t) => |Stamps(h, IsCtcp)| >= t
    case Shouting(n, t) =>
      |Msgs(h)| >= n && Mean(SumBy(MinuteMsgs(h, read), Upper), |MinuteMsgs(h, read)|) >= t
    case NickFlip(t) => InMinute(h, IsNick, now) as real >= t
    case HopFlood(t) => InMinute(h, IsHop, now) as real >= t
    case PmFlood(t) => InMinute(h, IsPm, now) as real >= t
    case PmShotgun(t) => |TargetSet(MinutePms(h, now))| >= t
    case MentionStorm(t) => InMinute(h, IsMentionBomb, now) as real >= t
    case NickServSpoof => exists m :: m in MinutePms(h, now) && m.body.spoof
  }

  lemma {:induction false} UrlTotal(w: seq<MessageRecord>) returns (n: nat)
    ensures SumBy(w, Urls) == n as real
    ensures n > 0 <==> exists m :: m in w && m.body.urls > 0
  {
    if w == [] {
      n := 0;
    } else {
      var b, last := w[..|w| - 1], w[|w| - 1];
      assert w == b + [last];
      var k := UrlTotal(b);
      n := k + last.body.urls;
      if last.body.urls > 0 {
        assert last in w;
      }
    }
  }

  lemma {:induction false} SpoofTotal(w: seq<PmRecord>)
    ensures Spoofs(w) > 0 <==> exists m :: m in w && m.body.spoof
  {
    if w != [] {
      var b, last := w[..|w| - 1], w[|w| - 1];
      assert w == b + [last];
      SpoofTotal(b);
      SelectAppend(b, last, IsSpoof, PmAt);
    }
  }

  lemma {:induction false} WithinFrom<T>(s: seq<T>, at: T -> int, from: int, x: T)
    ensures x in Within(s, at, from) <==> x in s && at(x) >= from
  {
    if s != [] {
      assert s == s[..|s| - 1] + [s[|s| - 1]];
      WithinFrom(s[..|s| - 1], at, from, x);
    }
  }

  lemma {:induction false} MsgsFrom(h: seq<Event>, i: int)
    requires 0 <= i < |h| && IsMessage(h[i])
    ensures MessageOf(h[i]) in Msgs(h)
  {
    var b := h[..|h| - 1];
    if i < |h| - 1 {
      assert b[i] == h[i];
      MsgsFrom(b, i);
    }
  }

  lemma LinkInWindow(u: Record, h: seq<Event>, now: int)
    requires Tracks(u, h) && Sorted(h, Time) && |Msgs(h)| <= 3
    ensures SumBy(Recent(u, now), Urls).Floor != 0 <==> PostedLink(h, now)
  {
    var w := Recent(u, now);
    var n := UrlTotal(w);
    assert w == Within(Msgs(h), MessageAt, now - MINUTE);
    if m :| m in w && m.body.urls > 0 {
      WithinFrom(Msgs(h), MessageAt, now - MINUTE, m);
      SelectFrom(h, IsMessage, MessageOf, m);
      var i :| 0 <= i < |h| && IsMessage(h[i]) && MessageOf(h[i]) == m;
    }
    if PostedLink(h, now) {
      var i :| 0 <= i < |h| && IsMessage(h[i]) && h[i].time >= now - MINUTE && h[i].body.urls > 0;
      MsgsFrom(h, i);
      WithinFrom(Msgs(h), MessageAt, now - MINUTE, MessageOf(h[i]));
    }
  }

  /** The snapshot the rules read, in terms of the history; read is the instant its features were computed for. */
  ghost predicate SnapshotTracks(s: Snapshot, h: seq<Event>, now: int, read: int) {
    && s.msgCount == |Msgs(h)|
    && s.ctcpCount == |Stamps(h, IsCtcp)|
    && s.msgRate == Min(MAX_MESSAGES, InMinute(h, IsMessage, read)) as real
    && s.joinRate == Min(MAX_JOINS, InMinute(h, IsJoin, read)) as real
    && s.nickFlipRate == Min(MAX_EVENTS, InMinute(h, IsNick, now)) as real
    && s.hopRate == Min(MAX_EVENTS, InMinute(h, IsHop, now)) as real
    && s.pmRate == Min(MAX_MESSAGES, InMinute(h, IsPm, now)) as real
    && s.mentionRate == Min(MAX_MESSAGES, InMinute(h, IsMentionBomb, now)) as real
    && s.dupHashCount == |LastN(Msgs(h), MAX_MESSAGES)| - |Distinct(Hashes(LastN(Msgs(h), MAX_MESSAGES)))|
    && (|Msgs(h)| <= 3 ==> (s.urlCount != 0 <==> PostedLink(h, read)))
    && s.upperMean == Mean(SumBy(MinuteMsgs(h, read), Upper), |MinuteMsgs(h, read)|)
    && s.pmTargets == |TargetSet(MinutePms(h, now))|
    && (s.spoofs > 0 <==> exists m :: m in MinutePms(h, now) && m.body.spoof)
    && IsBurstGap(Stamps(h, IsMessage), s.burstGap)
  }

  lemma SnapshotIsHistorical(u: Record, h: seq<Event>, now: int, read: int)
    requires Tracks(u, h) && Sorted(h, Time) && FeaturesSeen(u, now) == Features(u, read)
    ensures SnapshotTracks(SnapshotOf(u, now), h, now, read)
  {
    WindowsAreExact(u, h, now);
    WindowsAreExact(u, h, read);
    ExcessIsDuplicates(Hashes(u.recentMsgs));
    SpoofTotal(RecentPms(u, now));
    if |Msgs(h)| <= 3 {
      LinkInWindow(u, h, read);
    }
  }

  lemma BurstThreshold(ts: seq<int>, gap: int)
    requires IsBurstGap(ts, gap)
    ensures gap >= BURST_RESUME <==> exists k :: OpensBurst(ts, k)
  {
  }

  /** The bounded record gives the same verdict as the full history, for every rule of the registry. */
  lemma VerdictsAreHistorical(r: Rule, s: Snapshot, h: seq<Event>, e: Event, read: int)
    requires r in REGISTRY && SnapshotTracks(s, h, e.time, read)
    ensures Fires(r, s, e) <==> WarrantedAt(r, s.firstSeen, h, e, read)
  {
    BurstThreshold(Stamps(h, IsMessage), s.burstGap);
  }

  /** The mean upper-case share of a window is a share. */
  lemma {:induction false} UpperBounded(w: seq<MessageRecord>)
    ensures 0.0 <= SumBy(w, Upper) <= |w| as real
    ensures 0.0 <= Mean(SumBy(w, Upper), |w|) <= 1.0
  {
    if w != [] {
      UpperBounded(w[..|w| - 1]);
    }
  }

  ghost function Lengths(w: seq<MessageRecord>): seq<real> {
    if w == [] then [] else Lengths(w[..|w| - 1]) + [Length(w[|w| - 1])]
  }

  lemma {:induction false} LengthSums(w: seq<MessageRecord>)
    ensures |Lengths(w)| == |w|
    ensures SumBy(w, Length) == Welford.Sum(Lengths(w)) && SumBy(w, LengthSq) == Welford.SumSq(Lengths(w))
  {
    if w != [] {
      LengthSums(w[..|w| - 1]);
      assert Lengths(w)[..|w| - 1] == Lengths(w[..|w| - 1]);
    }
  }

  lemma VarianceFormula(xs: seq<real>)
    ensures Mean(Welford.SumSq(xs), |xs|) - Square(Mean(Welford.Sum(xs), |xs|))
            == Mean(Welford.Batch(xs).m2, |xs|) >= 0.0
  {
    Welford.BatchMeaning(xs);
    if xs != [] {
      Welford.BatchPowers(xs);
      hide Welford.Batch, Welford.Spread, Welford.Sum, Welford.SumSq;
      var b := Welford.Batch(xs);
      PopulationVariance(|xs| as real, Welford.Sum(xs), Welford.SumSq(xs), b.mean, b.m2);
    }
  }

  lemma PopulationVariance(n: real, sum: real, q: real, mean: real, m2: real)
    requires n > 0.0 && mean * n == sum && m2 == q - mean * mean * n && m2 >= 0.0
    ensures q / n - Square(sum / n) == m2 / n >= 0.0
  {
  }

  /** The one-pass message-length variance is the two-pass population variance of the window, hence never
      negative. */
  lemma LengthVariance(u: Record, now: int)
    ensures var xs := Lengths(Recent(u, now));
            Features(u, now).lenVar == Mean(Welford.Batch(xs).m2, |xs|) >= 0.0
  {
    hide Mean, Square, Welford.Batch, SumBy;
    LengthSums(Recent(u, now));
    VarianceFormula(Lengths(Recent(u, now)));
  }

  // ----- Where the cap shows -----

  /** All private messages of the minute, however many. */
  ghost function AllMinutePms(h: seq<Event>, now: int): seq<PmRecord> {
    Within(Pms(h), PmAt, now - MINUTE)
  }

  /** What the two rules on private messages state of the whole minute. */
  ghost predicate WholeMinute(r: Rule, h: seq<Event>, e: Event)
    requires r.PmShotgun? || r.NickServSpoof?
  {
    && e.kind == UserMsg
    && if r.PmShotgun? then |TargetSet(AllMinutePms(h, e.time))| >= r.targets
       else exists m :: m in AllMinutePms(h, e.time) && m.body.spoof
  }

  /** The rule judges the history's last event as the whole minute demands. */
  ghost predicate Agrees(r: Rule, h: seq<Event>)
    requires h != [] && (r.PmShotgun? || r.NickServSpoof?)
  {
    var e := h[|h| - 1];
    Warranted(r, 0, h, e) <==> WholeMinute(r, h, e)
  }

  /** A history whose last minute holds n private messages. */
  ghost predicate Holds(h: seq<Event>, n: nat) {
    h != [] && Sorted(h, Time) && InMinute(h, IsPm, h[|h| - 1].time) == n
  }

  ghost predicate Exact(r: Rule, n: nat)
    requires r.PmShotgun? || r.NickServSpoof?
  {
    forall h :: Holds(h, n) ==> Agrees(r, h)
  }

  lemma UpToTheCap(h: seq<Event>, now: int)
    requires Sorted(h, Time)
    ensures MinutePms(h, now) == LastN(AllMinutePms(h, now), MAX_MESSAGES)
    ensures InMinute(h, IsPm, now) <= MAX_MESSAGES ==> MinutePms(h, now) == AllMinutePms(h, now)
  {
    SelectWithin(h, IsPm, PmOf, Time, PmAt, now - MINUTE);
  }

  lemma {:induction false} SuffixTargets(w: seq<PmRecord>, n: nat)
    ensures TargetSet(LastN(w, n)) <= TargetSet(w)
  {
  }

  /** Neither rule ever fires without the whole minute warranting it. */
  lemma NeverTooMuch(r: Rule, h: seq<Event>, e: Event)
    requires Sorted(h, Time) && (r.PmShotgun? || r.NickServSpoof?)
    ensures Warranted(r, 0, h, e) ==> WholeMinute(r, h, e)
  {
    var w := AllMinutePms(h, e.time);
    UpToTheCap(h, e.time);
    SuffixTargets(w, MAX_MESSAGES);
    SubsetSize(TargetSet(LastN(w, MAX_MESSAGES)), TargetSet(w));
  }

  function Pm(target: string, spoof: bool): (e: Event)
    ensures e.kind == UserMsg && e.time == 0 && e.target == target && e.body.spoof == spoof
    ensures target != "" ==> IsPm(e)
  {
    Event(UserMsg, 0, "u", "", false, "", target, Body(1, 0, 0.0, 0, 0, spoof))
  }

  /** Whom the i-th of n messages goes to: the first n - 32 to one recipient, the last 32 to four others. */
  function Recipient(n: nat, i: int): (t: string)
    ensures t != ""
  {
    if i < n - 32 then "a"
    else if i == n - 32 then "b"
    else if i == n - 31 then "c"
    else if i == n - 30 then "d"
    else "e"
  }

  function ManyRecipients(n: nat): (h: seq<Event>)
    ensures |h| == n && forall i :: 0 <= i < n ==> h[i] == Pm(Recipient(n, i), false)
  {
    seq(n, i => Pm(Recipient(n, i), false))
  }

  /** The first n - 32 messages quote NickServ, the last 32 do not. */
  function SpoofThenPlain(n: nat): (h: seq<Event>)
    ensures |h| == n && forall i :: 0 <= i < n ==> h[i] == Pm("a", i < n - 32)
  {
    seq(n, i => Pm("a", i < n - 32))
  }

  lemma {:induction false} AllPms(h: seq<Event>, from: int)
    requires forall i :: 0 <= i < |h| ==> IsPm(h[i]) && h[i].time >= from
    ensures |Within(Pms(h), PmAt, from)| == |h| == CountSince(h, IsPm, Time, from)
    ensures forall i :: 0 <= i < |h| ==> Within(Pms(h), PmAt, from)[i] == PmOf(h[i])
  {
    if h != [] {
      AllPms(h[..|h| - 1], from);
    }
  }

  lemma InOneMinute(h: seq<Event>)
    requires |h| > MAX_MESSAGES && forall i :: 0 <= i < |h| ==> IsPm(h[i]) && h[i].time == 0
    ensures Holds(h, |h|)
    ensures var w := AllMinutePms(h, 0);
            && |w| == |h| && MinutePms(h, 0) == w[|h| - 32..]
            && forall i :: 0 <= i < |h| ==> w[i] == PmOf(h[i])
  {
    AllPms(h, -MINUTE);
  }

  lemma FiveRecipients(w: seq<PmRecord>, k: nat)
    requires k + 4 < |w| && w[0].target == "a"
    requires w[k + 1].target == "b" && w[k + 2].target == "c" && w[k + 3].target == "d" && w[k + 4].target == "e"
    ensures |TargetSet(w)| >= 5
  {
    assert w[0] in w && w[k + 1] in w && w[k + 2] in w && w[k + 3] in w && w[k + 4] in w;
    assert {"a", "b", "c", "d", "e"} <= TargetSet(w);
    SubsetSize({"a", "b", "c", "d", "e"}, TargetSet(w));
  }

  lemma FourRecipients(w: seq<PmRecord>)
    requires forall i :: 0 <= i < |w| ==> w[i].target in {"b", "c", "d", "e"}
    ensures |TargetSet(w)| < 5
  {
    assert TargetSet(w) <= {"b", "c", "d", "e"};
    SubsetSize(TargetSet(w), {"b", "c", "d", "e"});
  }

  lemma RecipientsShown(w: seq<PmRecord>, n: nat)
    requires n > MAX_MESSAGES && |w| == n
    requires forall i :: 0 <= i < n ==> w[i] == PmOf(ManyRecipients(n)[i])
    ensures |TargetSet(w)| >= 5 && |TargetSet(w[n - 32..])| < 5
  {
    hide TargetSet, ManyRecipients;
    FiveRecipients(w, n - 33);
    FourRecipients(w[n - 32..]);
  }

  lemma ShotgunDisagrees(h: seq<Event>, now: int)
    requires h != [] && h[|h| - 1].kind == UserMsg && h[|h| - 1].time == now
    requires |TargetSet(AllMinutePms(h, now))| >= 5 && |TargetSet(MinutePms(h, now))| < 5
    ensures !Agrees(PmShotgun(5), h)
  {
  }

  lemma HiddenRecipients(n: nat)
    requires n > MAX_MESSAGES
    ensures Holds(ManyRecipients(n), n) && !Agrees(PmShotgun(5), ManyRecipients(n))
  {
    var h := ManyRecipients(n);
    hide *;
    InOneMinute(h);
    RecipientsShown(AllMinutePms(h, 0), n);
    ShotgunDisagrees(h, 0);
  }

  lemma HiddenSpoof(n: nat)
    requires n > MAX_MESSAGES
    ensures Holds(SpoofThenPlain(n), n) && !Agrees(NickServSpoof, SpoofThenPlain(n))
  {
    var h := SpoofThenPlain(n);
    InOneMinute(h);
    var w := AllMinutePms(h, 0);
    assert w[0] in w && w[0].body.spoof;
    forall m | m in w[n - 32..] ensures !m.body.spoof {
      var i :| 0 <= i < 32 && w[n - 32..][i] == m;
      assert m == w[n - 32 + i];
    }
  }

  /** pm_shotgun and nickserv_spoof look at the last 32 private messages of the minute at most: every history with n
      of them in its last minute is judged by the whole minute if and only if n is at most 32. */
  lemma MinuteRulesExact(n: nat)
    ensures Exact(PmShotgun(5), n) <==> n <= MAX_MESSAGES
    ensures Exact(NickServSpoof, n) <==> n <= MAX_MESSAGES
  {
    if n > MAX_MESSAGES {
      HiddenRecipients(n);
      HiddenSpoof(n);
    } else {
      forall h: seq<Event> | Holds(h, n) ensures Agrees(PmShotgun(5), h) && Agrees(NickServSpoof, h) {
        UpToTheCap(h, h[|h| - 1].time);
      }
    }
  }
}
