/** One user's bounded behavioural record (sentry/state.go) and the snapshot the rules read from it
    (snapshotFor and its helpers in sentry/manager.go). */
module UserState {
  import opened Basics
  import opened Events
  import opened Windows
  import opened Tally
  import opened Heuristics

  const MAX_MESSAGES := 32
  const MAX_JOINS := 16
  const MAX_EVENTS := 64
  const BURST_RESUME := 300000
  const BURST_HOLD := 60000
  /** The Unix millisecond of Go's zero time, which stands for "no message yet". */
  const ZERO_TIME := -62135596800000

  datatype MessageRecord = MessageRecord(at: int, channel: string, body: Body)
  datatype PmRecord = PmRecord(at: int, target: string, body: Body)

  datatype FeatureVector = FeatureVector(
    age: real, msgRate: Rate, joinRate: Rate, lenMean: real, lenVar: real, distinct: real, channels: real,
    hasAccount: real, isTls: real, upperMean: real, urls: real, ctcp: real, idleBurst: real,
    nickFlip: real, hopRate: real)

  datatype Record = Record(
    firstSeen: int, account: string, tls: bool,
    msgCount: nat, joinCount: nat, partCount: nat, ctcpCount: nat,
    lastMsg: int, lastActivity: int, burstGap: int,
    recentEvents: seq<int>, recentMsgs: seq<MessageRecord>, recentJoins: seq<int>, recentNicks: seq<int>,
    recentHops: seq<int>, recentPms: seq<PmRecord>, recentMentions: seq<int>,
    msgHashes: map<int, nat>, cached: Option<FeatureVector>)

  function MessageAt(m: MessageRecord): int { m.at }
  function PmAt(m: PmRecord): int { m.at }
  function Same(t: int): int { t }
  function HashOf(m: MessageRecord): int { m.body.hash }
  function Hashes(ms: seq<MessageRecord>): seq<int> {
    seq(|ms|, i requires 0 <= i < |ms| => HashOf(ms[i]))
  }
  function MessageOf(e: Event): MessageRecord { MessageRecord(e.time, e.channel, e.body) }
  function PmOf(e: Event): PmRecord { PmRecord(e.time, e.target, e.body) }

  /** A record just created for a user first heard of in event e. */
  function Fresh(e: Event): Record {
    Record(e.time, e.account, e.tls, 0, 0, 0, 0, ZERO_TIME, e.time, 0, [], [], [], [], [], [], [], map[], None)
  }

  // ----- What each event does to the record -----

  function Touched(u: Record, at: int): Record {
    u.(lastActivity := at, recentEvents := LastN(u.recentEvents + [at], MAX_EVENTS), cached := None)
  }

  /** The idle gap that preceded the current burst, zero outside a burst. */
  function BurstGapAfter(lastMsg: int, burstGap: int, at: int): int {
    if lastMsg == ZERO_TIME then burstGap
    else
      var gap := at - lastMsg;
      if gap >= BURST_RESUME then gap
      else if burstGap > 0 && gap > BURST_HOLD then 0
      else burstGap
  }

  function HashesAfter(m: map<int, nat>, msgs: seq<MessageRecord>, h: int): map<int, nat> {
    var bumped := Bump(m, h);
    if |msgs| < MAX_MESSAGES then bumped
    else Drop(bumped, msgs[0].body.hash)
  }

  function AfterMessage(u: Record, e: Event): Record {
    Touched(u, e.time).(
      burstGap := BurstGapAfter(u.lastMsg, u.burstGap, e.time),
      msgCount := u.msgCount + 1,
      lastMsg := e.time,
      msgHashes := HashesAfter(u.msgHashes, u.recentMsgs, e.body.hash),
      recentPms := if IsPm(e) then LastN(u.recentPms + [PmOf(e)], MAX_MESSAGES) else u.recentPms,
      recentMentions := if IsMentionBomb(e) then LastN(u.recentMentions + [e.time], MAX_MESSAGES) else u.recentMentions,
      recentMsgs := LastN(u.recentMsgs + [MessageOf(e)], MAX_MESSAGES))
  }

  function AfterJoin(u: Record, e: Event): Record {
    Touched(u, e.time).(
      joinCount := u.joinCount + 1,
      recentJoins := LastN(u.recentJoins + [e.time], MAX_JOINS),
      recentHops := LastN(u.recentHops + [e.time], MAX_EVENTS))
  }

  function AfterPart(u: Record, e: Event): Record {
    Touched(u, e.time).(partCount := u.partCount + 1, recentHops := LastN(u.recentHops + [e.time], MAX_EVENTS))
  }

  function AfterNick(u: Record, e: Event): Record {
    Touched(u, e.time).(recentNicks := LastN(u.recentNicks + [e.time], MAX_EVENTS))
  }

  function AfterCtcp(u: Record, e: Event): Record {
    Touched(u, e.time).(ctcpCount := u.ctcpCount + 1)
  }

  /** The record after an activity event. */
  function After(u: Record, e: Event): Record {
    if IsMessage(e) then AfterMessage(u, e)
    else if IsJoin(e) then AfterJoin(u, e)
    else if IsHop(e) then AfterPart(u, e)
    else if IsCtcp(e) then AfterCtcp(u, e)
    else if IsNick(e) then AfterNick(u, e)
    else u
  }

  /** The record after a connect or register event: identity only, the cached features stay. */
  function Identified(u: Record, e: Event): Record {
    u.(account := if e.account != "" then e.account else u.account, tls := e.tls, lastActivity := e.time)
  }

  // ----- The feature vector -----

  function SumBy<T>(s: seq<T>, f: T -> real): real {
    if s == [] then 0.0 else SumBy(s[..|s| - 1], f) + f(s[|s| - 1])
  }

  function Length(m: MessageRecord): real { m.body.length as real }
  function LengthSq(m: MessageRecord): real { Square(Length(m)) }
  function Upper(m: MessageRecord): real { m.body.upper }
  function Urls(m: MessageRecord): real { m.body.urls as real }

  ghost function HashSet(w: seq<MessageRecord>): set<int> { set m | m in w :: m.body.hash }
  ghost function ChannelSet(w: seq<MessageRecord>): set<string> { set m | m in w :: m.channel }

  ghost function Recent(u: Record, now: int): seq<MessageRecord> {
    Within(u.recentMsgs, MessageAt, now - MINUTE)
  }

  function Square(x: real): real { x * x }

  function Mean(sum: real, n: nat): real {
    if n == 0 then 0.0 else sum / n as real
  }

  /** High for a user long on the network who just produced a burst. */
  function IdleBurstScore(age: real, n: nat): real {
    if age > 600.0 && n >= 5 then age / 600.0 * n as real / 5.0 else 0.0
  }

  datatype Totals = Totals(n: nat, lenSum: real, lenSumSq: real, upperSum: real, urls: real)

  ghost function TotalsOf(w: seq<MessageRecord>): Totals {
    Totals(|w|, SumBy(w, Length), SumBy(w, LengthSq), SumBy(w, Upper), SumBy(w, Urls))
  }

  function Counted(t: Totals, m: MessageRecord): Totals {
    Totals(t.n + 1, t.lenSum + Length(m), t.lenSumSq + LengthSq(m), t.upperSum + Upper(m), t.urls + Urls(m))
  }

  /** The vector built from the totals of a window of n messages. */
  function Assemble(u: Record, now: int, t: Totals, hashes: nat, channels: nat,
                    joins: nat, nicks: nat, hops: nat): FeatureVector {
    var age := (now - u.firstSeen) as real / 1000.0;
    var mean := Mean(t.lenSum, t.n);
    FeatureVector(
      age, t.n as real, joins as real,
      mean, Mean(t.lenSumSq, t.n) - Square(mean), Mean(hashes as real, t.n), channels as real,
      if u.account != "" && u.account != "*" then 1.0 else 0.0, if u.tls then 1.0 else 0.0,
      Mean(t.upperSum, t.n), t.urls, u.ctcpCount as real,
      IdleBurstScore(age, t.n), nicks as real, hops as real)
  }

  ghost function InLastMinute(ts: seq<int>, now: int): nat {
    |Within(ts, Same, now - MINUTE)|
  }

  /** The features of a record at an instant, from the messages, joins, nick changes and hops of its last
      minute. */
  ghost function Features(u: Record, now: int): FeatureVector {
    var w := Recent(u, now);
    Assemble(u, now, TotalsOf(w), |HashSet(w)|, |ChannelSet(w)|,
             InLastMinute(u.recentJoins, now), InLastMinute(u.recentNicks, now), InLastMinute(u.recentHops, now))
  }

  /** The features a reader is given: whatever is cached, otherwise a fresh computation. */
  ghost function FeaturesSeen(u: Record, now: int): FeatureVector {
    if u.cached.Some? then u.cached.value else Features(u, now)
  }

  ghost function TargetSet(w: seq<PmRecord>): set<string> { set m | m in w && m.target != "" :: m.target }
  predicate IsSpoof(m: PmRecord) { m.body.spoof }
  ghost function RecentPms(u: Record, now: int): seq<PmRecord> {
    Within(u.recentPms, PmAt, now - MINUTE)
  }
  ghost function Spoofs(w: seq<PmRecord>): nat { |Select(w, IsSpoof, PmAt)| }

  /** What the rules see of a record. */
  ghost function SnapshotOf(u: Record, now: int): Snapshot {
    var fv := FeaturesSeen(u, now);
    Snapshot(u.firstSeen, u.msgCount, u.ctcpCount, fv.msgRate, fv.joinRate, Excess(u.msgHashes), fv.urls.Floor,
             fv.upperMean, u.burstGap,
             InLastMinute(u.recentNicks, now) as real, InLastMinute(u.recentHops, now) as real,
             |RecentPms(u, now)| as real, |TargetSet(RecentPms(u, now))|,
             InLastMinute(u.recentMentions, now) as real, Spoofs(RecentPms(u, now)))
  }

  // ----- The record as the program holds it -----

  class User {
    var firstSeen: int
    var account: string
    var tls: bool
    var msgCount: nat
    var joinCount: nat
    var partCount: nat
    var ctcpCount: nat
    var lastMsg: int
    var lastActivity: int
    var burstGap: int
    var recentEvents: seq<int>
    var recentMsgs: seq<MessageRecord>
    var recentJoins: seq<int>
    var recentNicks: seq<int>
    var recentHops: seq<int>
    var recentPms: seq<PmRecord>
    var recentMentions: seq<int>
    var msgHashes: map<int, nat>
    var cached: Option<FeatureVector>

    function Value(): Record
      reads this
    {
      Record(firstSeen, account, tls, msgCount, joinCount, partCount, ctcpCount, lastMsg, lastActivity, burstGap,
             recentEvents, recentMsgs, recentJoins, recentNicks, recentHops, recentPms, recentMentions,
             msgHashes, cached)
    }

    /** Window sizes the record keeps. */
    predicate Bounded()
      reads this
    {
      |recentMsgs| <= MAX_MESSAGES && |recentJoins| <= MAX_JOINS
    }

    constructor (e: Event)
      ensures Value() == Fresh(e) && Bounded()
    {
      firstSeen, account, tls := e.time, e.account, e.tls;
      msgCount, joinCount, partCount, ctcpCount := 0, 0, 0, 0;
      lastMsg, lastActivity, burstGap := ZERO_TIME, e.time, 0;
      recentEvents, recentMsgs, recentJoins, recentNicks := [], [], [], [];
      recentHops, recentPms, recentMentions := [], [], [];
      msgHashes, cached := map[], None;
    }

    method Identify(e: Event)
      modifies this
      ensures Value() == Identified(old(Value()), e) && Bounded() == old(Bounded())
    {
      if e.account != "" {
        account := e.account;
      }
      tls := e.tls;
      lastActivity := e.time;
    }

    method Touch(at: int)
      modifies this
      ensures Value() == Touched(old(Value()), at)
    {
      lastActivity := at;
      recentEvents := recentEvents + [at];
      if |recentEvents| > MAX_EVENTS {
        recentEvents := recentEvents[|recentEvents| - MAX_EVENTS..];
      }
      cached := None;
    }

    method OnMessage(e: Event)
      requires |recentMsgs| <= MAX_MESSAGES
      modifies this
      ensures Value() == AfterMessage(old(Value()), e)
    {
      hide LastN, TallyOf, Bump, Drop, BurstGapAfter;
      NoteGap(e.time);
      Touch(e.time);
      msgCount := msgCount + 1;
      lastMsg := e.time;
      CountHash(e.body.hash);
      TrackTelemetry(e);
      PushMessage(MessageRecord(e.time, e.channel, e.body));
    }

    /** Opens, keeps or closes the current burst; runs before the last message time is overwritten. */
    method NoteGap(at: int)
      modifies this
      ensures Value() == old(Value()).(burstGap := BurstGapAfter(old(lastMsg), old(burstGap), at))
    {
      if lastMsg != ZERO_TIME {
        var gap := at - lastMsg;
        if gap >= BURST_RESUME {
          burstGap := gap;
        } else if burstGap > 0 && gap > BURST_HOLD {
          burstGap := 0;
        }
      }
    }

    method CountHash(h: int)
      modifies this
      ensures Value() == old(Value()).(msgHashes := Bump(old(msgHashes), h))
    {
      msgHashes := msgHashes[h := (if h in msgHashes then msgHashes[h] else 0) + 1];
    }

    /** Keeps private messages and mention bombs in windows of their own. */
    method TrackTelemetry(e: Event)
      modifies this
      ensures Value() == old(Value()).(
                recentPms := if IsPm(e) then LastN(old(recentPms) + [PmOf(e)], MAX_MESSAGES) else old(recentPms),
                recentMentions := if IsMentionBomb(e) then LastN(old(recentMentions) + [e.time], MAX_MESSAGES)
                                  else old(recentMentions))
    {
      if e.kind == UserMsg && e.target != "" {
        recentPms := recentPms + [PmRecord(e.time, e.target, e.body)];
        if |recentPms| > MAX_MESSAGES {
          recentPms := recentPms[|recentPms| - MAX_MESSAGES..];
        }
      }
      if e.kind == ChanMsg && e.body.mentions >= 3 {
        recentMentions := AppendTimeBounded(recentMentions, e.time, MAX_MESSAGES);
      }
    }

    /** Appends a message whose hash is already counted, evicting the oldest one beyond the cap. */
    method PushMessage(m: MessageRecord)
      requires |recentMsgs| <= MAX_MESSAGES
      modifies this
      ensures Value() == old(Value()).(
                recentMsgs := LastN(old(recentMsgs) + [m], MAX_MESSAGES),
                msgHashes := if |old(recentMsgs)| < MAX_MESSAGES then old(msgHashes)
                             else Drop(old(msgHashes), old(recentMsgs)[0].body.hash))
    {
      recentMsgs := recentMsgs + [m];
      if |recentMsgs| > MAX_MESSAGES {
        var evicted := recentMsgs[0].body.hash;
        if evicted in msgHashes {
          var c := msgHashes[evicted];
          if c <= 1 {
            msgHashes := msgHashes - {evicted};
          } else {
            msgHashes := msgHashes[evicted := c - 1];
          }
        }
        recentMsgs := recentMsgs[1..];
      }
    }

    method OnJoin(e: Event)
      requires |recentJoins| <= MAX_JOINS
      modifies this
      ensures Value() == AfterJoin(old(Value()), e)
    {
      Touch(e.time);
      joinCount := joinCount + 1;
      recentJoins := recentJoins + [e.time];
      if |recentJoins| > MAX_JOINS {
        recentJoins := recentJoins[1..];
      }
      recentHops := AppendTimeBounded(recentHops, e.time, MAX_EVENTS);
    }

    method OnPart(e: Event)
      modifies this
      ensures Value() == AfterPart(old(Value()), e)
    {
      Touch(e.time);
      partCount := partCount + 1;
      recentHops := AppendTimeBounded(recentHops, e.time, MAX_EVENTS);
    }

    method OnNick(e: Event)
      modifies this
      ensures Value() == AfterNick(old(Value()), e)
    {
      Touch(e.time);
      recentNicks := AppendTimeBounded(recentNicks, e.time, MAX_EVENTS);
    }

    method OnCtcp(e: Event)
      modifies this
      ensures Value() == AfterCtcp(old(Value()), e)
    {
      Touch(e.time);
      ctcpCount := ctcpCount + 1;
    }

    /** Routes an activity event to its handler. */
    method OnEvent(e: Event)
      requires Bounded()
      modifies this
      ensures Value() == After(old(Value()), e) && Bounded()
    {
      match e.kind {
        case ChanMsg => OnMessage(e);
        case UserMsg => OnMessage(e);
        case ChanNotice => OnMessage(e);
        case Join => OnJoin(e);
        case Part => OnPart(e);
        case Kick => OnPart(e);
        case Ctcp => OnCtcp(e);
        case Nick => OnNick(e);
        case _ =>
      }
    }

    /** Accumulates the features of the last minute in one pass over each window. */
    method ComputeFeatures(now: int) returns (fv: FeatureVector)
      ensures fv == Features(Value(), now)
    {
      var from := now - MINUTE;
      var t, hashes, channels := SumWindow(recentMsgs, from);
      var joins := CountWithin(recentJoins, from);
      var nicks := CountWithin(recentNicks, from);
      var hops := CountWithin(recentHops, from);
      fv := Assemble(Value(), now, t, hashes, channels, joins, nicks, hops);
    }

    /** The current features, computed once and cached until the next touching event. */
    method SnapshotFeatures(now: int) returns (fv: FeatureVector)
      modifies this
      ensures fv == FeaturesSeen(old(Value()), now)
      ensures Value() == old(Value()).(cached := Some(fv)) && Bounded() == old(Bounded())
    {
      if cached.Some? {
        return cached.value;
      }
      fv := ComputeFeatures(now);
      cached := Some(fv);
    }

    /** The snapshot handed to the rules. */
    method SnapshotFor(now: int) returns (s: Snapshot)
      modifies this
      ensures s == SnapshotOf(old(Value()), now)
      ensures Value() == old(Value()).(cached := Some(FeaturesSeen(old(Value()), now)))
      ensures Bounded() == old(Bounded())
    {
      var fv := SnapshotFeatures(now);
      var dup := CountExcess(msgHashes);
      var nicks := CountWithin(recentNicks, now - MINUTE);
      var hops := CountWithin(recentHops, now - MINUTE);
      var mentions := CountWithin(recentMentions, now - MINUTE);
      var pms, targets, spoofs := PmTelemetry(recentPms, now - MINUTE);
      s := Snapshot(firstSeen, msgCount, ctcpCount, fv.msgRate, fv.joinRate, dup, fv.urls.Floor, fv.upperMean,
                    burstGap, nicks as real, hops as real, pms as real, targets, mentions as real, spoofs);
    }
  }

  lemma WindowStep(w: seq<MessageRecord>, m: MessageRecord)
    ensures TotalsOf(w + [m]) == Counted(TotalsOf(w), m)
    ensures HashSet(w + [m]) == HashSet(w) + {m.body.hash}
    ensures ChannelSet(w + [m]) == ChannelSet(w) + {m.channel}
  {
  }

  /** One pass over the message window. */
  method SumWindow(msgs: seq<MessageRecord>, from: int) returns (t: Totals, hashes: nat, channels: nat)
    ensures var w := Within(msgs, MessageAt, from);
            t == TotalsOf(w) && hashes == |HashSet(w)| && channels == |ChannelSet(w)|
  {
    t := Totals(0, 0.0, 0.0, 0.0, 0.0);
    var distinctHashes: set<int>, channelSet: set<string> := {}, {};
    ghost var w: seq<MessageRecord> := [];
    for i := 0 to |msgs|
      invariant w == Within(msgs[..i], MessageAt, from)
      invariant t == TotalsOf(w) && distinctHashes == HashSet(w) && channelSet == ChannelSet(w)
    {
      var m := msgs[i];
      assert msgs[..i + 1] == msgs[..i] + [m];
      WithinAppend(msgs[..i], m, MessageAt, from);
      if m.at >= from {
        WindowStep(w, m);
        t := Counted(t, m);
        distinctHashes := distinctHashes + {m.body.hash};
        channelSet := channelSet + {m.channel};
        w := w + [m];
      }
    }
    assert msgs[..|msgs|] == msgs;
    hashes, channels := |distinctHashes|, |channelSet|;
  }

  method AppendTimeBounded(s: seq<int>, t: int, max: nat) returns (r: seq<int>)
    ensures r == LastN(s + [t], max)
  {
    r := s + [t];
    if |r| > max {
      r := r[|r| - max..];
    }
  }

  method CountWithin(ts: seq<int>, from: int) returns (n: nat)
    ensures n == |Within(ts, Same, from)|
  {
    n := 0;
    for i := 0 to |ts|
      invariant n == |Within(ts[..i], Same, from)|
    {
      assert ts[..i + 1] == ts[..i] + [ts[i]];
      WithinAppend(ts[..i], ts[i], Same, from);
      if ts[i] >= from {
        n := n + 1;
      }
    }
    assert ts[..|ts|] == ts;
  }

  /** How many private messages, distinct recipients and phishing bodies a window holds. */
  method PmTelemetry(rs: seq<PmRecord>, from: int) returns (n: nat, targets: nat, spoofs: nat)
    ensures n == |Within(rs, PmAt, from)|
    ensures targets == |TargetSet(Within(rs, PmAt, from))|
    ensures spoofs == Spoofs(Within(rs, PmAt, from))
  {
    n, spoofs := 0, 0;
    var seen: set<string> := {};
    for i := 0 to |rs|
      invariant var w := Within(rs[..i], PmAt, from);
                n == |w| && seen == TargetSet(w) && spoofs == Spoofs(w)
    {
      var r := rs[i];
      ghost var w := Within(rs[..i], PmAt, from);
      assert rs[..i + 1] == rs[..i] + [r];
      WithinAppend(rs[..i], r, PmAt, from);
      if r.at >= from {
        SelectAppend(w, r, IsSpoof, PmAt);
        n := n + 1;
        if r.target != "" {
          seen := seen + {r.target};
        }
        if r.body.spoof {
          spoofs := spoofs + 1;
        }
      }
    }
    assert rs[..|rs|] == rs;
    targets := |seen|;
  }
}
