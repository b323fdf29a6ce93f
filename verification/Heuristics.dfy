/** The L1 rules (sentry/heuristics/l1.go): threshold tests over one user's snapshot. */
module Heuristics {
  import opened Events

  const MINUTE := 60000
  const EPSILON := 0.000001

  /** What a rule is shown of a user. Rates are per minute over the last minute. */
  datatype Snapshot = Snapshot(
    firstSeen: int,
    msgCount: nat,
    ctcpCount: nat,
    msgRate: Rate,
    joinRate: Rate,
    dupHashCount: nat,
    urlCount: int,
    upperMean: real,
    burstGap: int,
    nickFlipRate: Rate,
    hopRate: Rate,
    pmRate: Rate,
    pmTargets: nat,
    mentionRate: Rate,
    spoofs: nat)

  datatype Alert = Alert(kind: string, channel: string, confidence: real, at: int)

  datatype Rule =
    | Flood(perMin: real)
    | Repeat(hits: nat)
    | MassJoin(perMin: real)
    | LinkSpam(maxAge: int)
    | IdleBurst(minAge: int, perMin: real, idleBefore: int)
    | CtcpStorm(count: nat)
    | Shouting(minMessages: nat, upper: real)
    | NickFlip(perMin: real)
    | HopFlood(perMin: real)
    | PmFlood(perMin: real)
    | PmShotgun(targets: nat)
    | MentionStorm(perMin: real)
    | NickServSpoof
  {
    function Name(): string {
      match this
      case Flood(_) => "flood"
      case Repeat(_) => "repeat"
      case MassJoin(_) => "mass_join"
      case LinkSpam(_) => "link_spam"
      case IdleBurst(_, _, _) => "idle_burst"
      case CtcpStorm(_) => "ctcp_storm"
      case Shouting(_, _) => "shouting"
      case NickFlip(_) => "nick_flip"
      case HopFlood(_) => "hop_flood"
      case PmFlood(_) => "pm_flood"
      case PmShotgun(_) => "pm_shotgun"
      case MentionStorm(_) => "mention_storm"
      case NickServSpoof => "nickserv_spoof"
    }

    /** The event kinds the rule reacts to. */
    function Kinds(): set<Kind> {
      match this
      case Flood(_) => {ChanMsg, UserMsg}
      case Repeat(_) => {ChanMsg, UserMsg}
      case MassJoin(_) => {Join}
      case LinkSpam(_) => {ChanMsg}
      case IdleBurst(_, _, _) => {ChanMsg, UserMsg}
      case CtcpStorm(_) => {Ctcp}
      case Shouting(_, _) => {ChanMsg}
      case NickFlip(_) => {Nick}
      case HopFlood(_) => {Join, Part}
      case PmFlood(_) => {UserMsg}
      case PmShotgun(_) => {UserMsg}
      case MentionStorm(_) => {ChanMsg}
      case NickServSpoof => {UserMsg}
    }

    /** The threshold test. */
    predicate Exceeded(u: Snapshot, at: int) {
      match this
      case Flood(t) => u.msgRate >= t
      case Repeat(t) => u.dupHashCount >= t
      case MassJoin(t) => u.joinRate >= t
      case LinkSpam(maxAge) => u.urlCount != 0 && at - u.firstSeen <= maxAge && u.msgCount <= 3
      case IdleBurst(minAge, t, idle) => at - u.firstSeen >= minAge && u.msgRate >= t && u.burstGap >= idle
      case CtcpStorm(t) => u.ctcpCount >= t
      case Shouting(n, t) => u.msgCount >= n && u.upperMean >= t
      case NickFlip(t) => u.nickFlipRate >= t
      case HopFlood(t) => u.hopRate >= t
      case PmFlood(t) => u.pmRate >= t
      case PmShotgun(t) => u.pmTargets >= t
      case MentionStorm(t) => u.mentionRate >= t
      case NickServSpoof => u.spoofs >= 1
    }

    function Confidence(u: Snapshot, at: int): real
      requires this.LinkSpam? ==> maxAge > 0
      requires this.IdleBurst? ==> perMin > 0.0
      requires this.CtcpStorm? ==> count > 0
      requires this.Shouting? ==> upper <= 1.0
    {
      match this
      case Flood(t) => Clamp(1.0 - t / (u.msgRate + EPSILON))
      case Repeat(t) => AtMostOne(1.0 - t as real / (u.dupHashCount + 1) as real)
      case MassJoin(t) => AtMostOne(1.0 - t / (u.joinRate + EPSILON))
      case LinkSpam(maxAge) => 1.0 - (at - u.firstSeen) as real / maxAge as real
      case IdleBurst(_, t, _) => u.msgRate / (u.msgRate + t)
      case CtcpStorm(t) => u.ctcpCount as real / (u.ctcpCount + t) as real
      case Shouting(_, t) => (u.upperMean - t) / (1.0 - t + EPSILON)
      case NickFlip(t) => Clamp(1.0 - t / (u.nickFlipRate + EPSILON))
      case HopFlood(t) => Clamp(1.0 - t / (u.hopRate + EPSILON))
      case PmFlood(t) => Clamp(1.0 - t / (u.pmRate + EPSILON))
      case PmShotgun(t) => AtLeastThird((u.pmTargets - t) as real / (u.pmTargets + 1) as real)
      case MentionStorm(t) => Clamp(1.0 - t / (u.mentionRate + EPSILON))
      case NickServSpoof => AtMostOne(0.7 + 0.05 * u.spoofs as real)
    }
  }

  function AtMostOne(c: real): real { if c > 1.0 then 1.0 else c }
  function Clamp(c: real): real { AtMostOne(if c < 0.0 then 0.0 else c) }
  function AtLeastThird(c: real): real { if c < 0.3 then 0.3 else c }

  const REGISTRY: seq<Rule> := [
    Flood(30.0), Repeat(4), MassJoin(10.0), LinkSpam(30000), IdleBurst(600000, 10.0, 300000), CtcpStorm(6),
    Shouting(4, 0.85), NickFlip(5.0), HopFlood(8.0), PmFlood(12.0), PmShotgun(5), MentionStorm(3.0), NickServSpoof]

  predicate Fires(r: Rule, u: Snapshot, e: Event) {
    e.kind in r.Kinds() && r.Exceeded(u, e.time)
  }

  /** The channel a rule's alert names; rules about private messages and nicks name none. */
  function AlertChannel(r: Rule, e: Event): string {
    if r.PmFlood? || r.PmShotgun? || r.NickServSpoof? || r.NickFlip? then "" else e.channel
  }

  function Observe(r: Rule, u: Snapshot, e: Event): seq<Alert>
    requires r in REGISTRY
  {
    if Fires(r, u, e) then [Alert(r.Name(), AlertChannel(r, e), r.Confidence(u, e.time), e.time)] else []
  }

  function Dispatched(rules: seq<Rule>, u: Snapshot, e: Event): seq<Alert>
    requires forall r :: r in rules ==> r in REGISTRY
  {
    if rules == [] then [] else Dispatched(rules[..|rules| - 1], u, e) + Observe(rules[|rules| - 1], u, e)
  }

  /** Runs every rule in registration order and collects what fired. */
  method Dispatch(u: Snapshot, e: Event) returns (out: seq<Alert>)
    ensures out == Dispatched(REGISTRY, u, e)
  {
    out := [];
    for i := 0 to |REGISTRY|
      invariant out == Dispatched(REGISTRY[..i], u, e)
    {
      assert REGISTRY[..i + 1][..i] == REGISTRY[..i];
      out := out + Observe(REGISTRY[i], u, e);
    }
    assert REGISTRY[..|REGISTRY|] == REGISTRY;
  }

  lemma {:induction false} DispatchedFrom(rules: seq<Rule>, u: Snapshot, e: Event)
    requires forall r :: r in rules ==> r in REGISTRY
    ensures forall a :: a in Dispatched(rules, u, e) <==> exists r :: r in rules && a in Observe(r, u, e)
    ensures Dispatched(rules, u, e) == [] <==> forall r :: r in rules ==> !Fires(r, u, e)
  {
    if rules != [] {
      var b, last := rules[..|rules| - 1], rules[|rules| - 1];
      assert rules == b + [last];
      DispatchedFrom(b, u, e);
    }
  }

  /** An event raises an alert of a kind exactly when the rule of that name fires. */
  lemma DispatchMeaning(r: Rule, u: Snapshot, e: Event)
    requires r in REGISTRY
    ensures (exists a :: a in Dispatched(REGISTRY, u, e) && a.kind == r.Name()) <==> Fires(r, u, e)
  {
    DispatchedFrom(REGISTRY, u, e);
    if Fires(r, u, e) {
      assert Observe(r, u, e)[0] in Dispatched(REGISTRY, u, e);
    }
    if a :| a in Dispatched(REGISTRY, u, e) && a.kind == r.Name() {
      var q :| q in REGISTRY && a in Observe(q, u, e);
      NamesDistinct(q, r);
    }
  }

  lemma NamesDistinct(q: Rule, r: Rule)
    requires q in REGISTRY && r in REGISTRY && q.Name() == r.Name()
    ensures q == r
  {
    assert q.Name()[..2] == r.Name()[..2];
  }

  lemma RampInUnit(t: real, rate: real)
    requires t > 0.0 && rate >= t
    ensures 0.0 <= 1.0 - t / (rate + EPSILON) <= 1.0
  {
  }

  lemma ShareInUnit(a: real, b: real)
    requires a >= 0.0 && b > 0.0 && a <= b
    ensures 0.0 <= a / b <= 1.0
  {
  }

  /** A fired rule's confidence lies in [0, 1], with one exception: link_spam on an event stamped before the
      user was first seen, where it exceeds 1. */
  lemma ConfidenceInUnit(r: Rule, u: Snapshot, e: Event)
    requires r in REGISTRY && u.upperMean <= 1.0 && Fires(r, u, e)
    ensures 0.0 <= r.Confidence(u, e.time) <= 1.0 <==> !(r.LinkSpam? && e.time < u.firstSeen)
  {
    match r {
      case Flood(t) => RampInUnit(t, u.msgRate);
      case Repeat(t) => ShareInUnit(t as real, (u.dupHashCount + 1) as real);
      case MassJoin(t) => RampInUnit(t, u.joinRate);
      case LinkSpam(maxAge) =>
        var q := (e.time - u.firstSeen) as real / maxAge as real;
        assert q * maxAge as real == (e.time - u.firstSeen) as real;
      case IdleBurst(_, t, _) => ShareInUnit(u.msgRate, u.msgRate + t);
      case CtcpStorm(t) => ShareInUnit(u.ctcpCount as real, (u.ctcpCount + t) as real);
      case Shouting(_, t) => ShareInUnit(u.upperMean - t, 1.0 - t + EPSILON);
      case NickFlip(t) => RampInUnit(t, u.nickFlipRate);
      case HopFlood(t) => RampInUnit(t, u.hopRate);
      case PmFlood(t) => RampInUnit(t, u.pmRate);
      case PmShotgun(t) => ShareInUnit((u.pmTargets - t) as real, (u.pmTargets + 1) as real);
      case MentionStorm(t) => RampInUnit(t, u.mentionRate);
      case NickServSpoof =>
    }
  }
}
