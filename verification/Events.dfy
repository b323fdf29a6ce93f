/** The behavioural events the sentry pipeline consumes (sentry/events/event.go). */
module Events {

  datatype Kind =
    | Connect | Register | Quit
    | Join | Part | Kick | Nick
    | ChanMsg | ChanNotice | UserMsg
    | Ctcp | Mode

  type Ratio = r: real | 0.0 <= r <= 1.0
  type Rate = r: real | 0.0 <= r

  /** What the pipeline extracts from a message text: its length, its normalised hash, its share of upper-case
      letters, and how many links, addressed nicks and NickServ phrases it holds. */
  datatype Body = Body(length: nat, hash: int, upper: Ratio, urls: nat, mentions: nat, spoof: bool)

  /** time is in milliseconds since the Unix epoch. */
  datatype Event = Event(
    kind: Kind, time: int, uid: string, account: string, tls: bool, channel: string, target: string, body: Body)

  predicate IsMessage(e: Event) { e.kind.ChanMsg? || e.kind.UserMsg? || e.kind.ChanNotice? }
  predicate IsJoin(e: Event) { e.kind == Join }
  predicate IsHop(e: Event) { e.kind.Join? || e.kind.Part? || e.kind.Kick? }
  predicate IsNick(e: Event) { e.kind == Nick }
  predicate IsCtcp(e: Event) { e.kind == Ctcp }
  predicate IsPm(e: Event) { e.kind == UserMsg && e.target != "" }
  predicate IsMentionBomb(e: Event) { e.kind == ChanMsg && e.body.mentions >= 3 }

  function Time(e: Event): int { e.time }

  /** Event kinds that reach the per-user record; the rest only touch identity. */
  predicate IsActivity(e: Event) { !e.kind.Connect? && !e.kind.Register? && !e.kind.Quit? }

  /** Event kinds that update the record's windows. */
  predicate Touches(e: Event) { IsActivity(e) && e.kind != Mode }

  /** Event kinds whose feature vector is offered to the anomaly baseline. */
  predicate IsFeatureBearing(k: Kind) { k in {ChanMsg, UserMsg, ChanNotice, Ctcp, Join, Part, Nick} }
}
