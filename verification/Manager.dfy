/** The event entry point (Observe in sentry/manager.go): per-user records, the L1 rules, and the anomaly baseline
    trained on events no rule flagged. */
module Manager {
  import opened Basics
  import opened Events
  import opened Welford
  import opened Heuristics
  import opened UserState
  import Anomaly

  datatype State = State(users: map<string, Record>, baseline: map<string, Stats>)

  const FEATURES: set<string> := {
    "msg_rate_per_min", "join_rate_per_min", "msg_len_mean", "msg_len_var", "distinct_hashes_ratio", "unique_channels",
    "upper_ratio_mean", "url_count", "ctcp_count", "idle_burst_score", "nick_flip_rate", "hop_rate"}

  function FeatureMapOf(fv: FeatureVector): Anomaly.FeatureMap {
    map["msg_rate_per_min" := fv.msgRate, "join_rate_per_min" := fv.joinRate, "msg_len_mean" := fv.lenMean,
        "msg_len_var" := fv.lenVar, "distinct_hashes_ratio" := fv.distinct, "unique_channels" := fv.channels,
        "upper_ratio_mean" := fv.upperMean, "url_count" := fv.urls, "ctcp_count" := fv.ctcp,
        "idle_burst_score" := fv.idleBurst, "nick_flip_rate" := fv.nickFlip, "hop_rate" := fv.hopRate]
  }

  /** The record an event finds, created on the spot for an unknown user. */
  function Found(users: map<string, Record>, e: Event): Record {
    if e.uid in users then users[e.uid] else Fresh(e)
  }

  /** The record after its own update. The lock is released then, and a read from outside, for an instant of its own,
      may come before those of the rules: gap is that instant, if there is such a read. */
  ghost function Updated(u: Record, e: Event, gap: Option<int>): Record {
    if gap.None? then After(u, e) else After(u, e).(cached := Some(FeaturesSeen(After(u, e), gap.value)))
  }

  /** The record after the reads of one Observe. */
  ghost function Settled(u: Record, e: Event, gap: Option<int>): Record {
    Updated(u, e, gap).(cached := Some(FeaturesSeen(Updated(u, e, gap), e.time)))
  }

  ghost function AlertsOf(users: map<string, Record>, e: Event, gap: Option<int>): seq<Alert> {
    if !IsActivity(e) || e.uid == "" then []
    else Dispatched(REGISTRY, SnapshotOf(Updated(Found(users, e), e, gap), e.time), e)
  }

  ghost function UsersAfter(users: map<string, Record>, e: Event, gap: Option<int>): map<string, Record> {
    if e.uid == "" || e.kind.Quit? then users
    else
      var u := Found(users, e);
      users[e.uid := if IsActivity(e) then Settled(u, e, gap) else Identified(u, e)]
  }

  /** The vector offered to the baseline: read after the rules ran. */
  ghost function VectorRead(users: map<string, Record>, e: Event, gap: Option<int>): FeatureVector {
    FeaturesSeen(Settled(Found(users, e), e, gap), e.time)
  }

  ghost predicate Teaches(users: map<string, Record>, e: Event, gap: Option<int>) {
    e.uid != "" && IsFeatureBearing(e.kind) && AlertsOf(users, e, gap) == []
  }

  ghost function Taught(s: State, e: Event, gap: Option<int>): map<string, Stats> {
    if Teaches(s.users, e, gap) then Anomaly.Trained(s.baseline, FeatureMapOf(VectorRead(s.users, e, gap)))
    else s.baseline
  }

  ghost function Ingested(s: State, e: Event, gap: Option<int>): State {
    State(UsersAfter(s.users, e, gap), Taught(s, e, gap))
  }

  /** A read of a user's features from outside Observe, at any time: it may fill the cache. */
  ghost function Peeked(s: State, uid: string, now: int): State {
    if uid !in s.users then s
    else s.(users := s.users[uid := s.users[uid].(cached := Some(FeaturesSeen(s.users[uid], now)))])
  }

  /** The collection of idle users: only records active since the cutoff stay. */
  function Collected(users: map<string, Record>, cutoff: int): map<string, Record> {
    map uid | uid in users && users[uid].lastActivity >= cutoff :: users[uid]
  }

  /** One user's share of an Observe: the update, the rules' verdicts, and the vector read after them. */
  method React(u: User, e: Event, gap: Option<int>) returns (alerts: seq<Alert>, fv: FeatureVector)
    requires u.Bounded() && IsActivity(e)
    modifies u
    ensures u.Value() == Settled(old(u.Value()), e, gap) && u.Bounded()
    ensures alerts == Dispatched(REGISTRY, SnapshotOf(Updated(old(u.Value()), e, gap), e.time), e)
    ensures fv == FeaturesSeen(u.Value(), e.time)
  {
    u.OnEvent(e);
    if gap.Some? {
      var _ := u.SnapshotFeatures(gap.value);
    }
    var snapshot := u.SnapshotFor(e.time);
    alerts := Dispatch(snapshot, e);
    fv := u.SnapshotFeatures(e.time);
  }

  class Manager {
    var users: map<string, User>
    const baseline: Anomaly.Model

    ghost function Owned(): set<User>
      reads this
    {
      set uid | uid in users :: users[uid]
    }

    ghost predicate Separate()
      reads this
    {
      forall i, j :: i in users && j in users && i != j ==> users[i] != users[j]
    }

    ghost function Records(): map<string, Record>
      reads this, Owned()
    {
      map uid | uid in users :: users[uid].Value()
    }

    ghost predicate UsersValid()
      reads this, Owned()
    {
      Separate() && forall i :: i in users ==> users[i].Bounded()
    }

    ghost predicate Valid()
      reads this, Owned(), baseline
    {
      baseline.Valid() && UsersValid()
    }

    ghost function Value(): State
      reads this, Owned(), baseline, baseline.Cells()
    {
      State(Records(), baseline.Value())
    }

    constructor ()
      ensures Valid() && fresh(baseline) && fresh(baseline.Cells())
      ensures Value() == State(map[], map f | f in FEATURES :: EMPTY)
    {
      users := map[];
      baseline := new Anomaly.Model(FEATURES);
    }

    /** Locates the user, creating a minimal record if there is none. */
    method GetOrCreate(e: Event) returns (u: User)
      requires UsersValid()
      modifies this`users
      ensures UsersValid() && fresh(Owned() - old(Owned()))
      ensures e.uid in users && users[e.uid] == u
      ensures Records() == old(Records())[e.uid := Found(old(Records()), e)]
    {
      if e.uid in users {
        u := users[e.uid];
      } else {
        u := new User(e);
        users := users[e.uid := u];
      }
    }

    /** When only one user's record moved, the others are as they were. */
    twostate lemma OneMoved(uid: string)
      requires old(UsersValid()) && users == old(users) && uid in users && users[uid].Bounded()
      requires forall u: User :: u in old(Owned()) && u != users[uid] ==>
                 u.Value() == old(u.Value()) && u.Bounded() == old(u.Bounded())
      ensures UsersValid() && Owned() == old(Owned())
      ensures Records() == old(Records())[uid := users[uid].Value()]
    {
    }

    method IdentifyUser(e: Event)
      requires UsersValid()
      modifies this`users, Owned()
      ensures UsersValid() && fresh(Owned() - old(Owned()))
      ensures Records() == old(Records())[e.uid := Identified(Found(old(Records()), e), e)]
    {
      hide Found, Identified;
      var u := GetOrCreate(e);
      assert u.Value() == Records()[e.uid];
      label Found:
      u.Identify(e);
      OneMoved@Found(e.uid);
    }

    method ReactUser(e: Event, gap: Option<int>) returns (alerts: seq<Alert>, fv: FeatureVector)
      requires UsersValid() && IsActivity(e)
      modifies this`users, Owned()
      ensures UsersValid() && fresh(Owned() - old(Owned()))
      ensures Records() == old(Records())[e.uid := Settled(Found(old(Records()), e), e, gap)]
      ensures alerts == Dispatched(REGISTRY, SnapshotOf(Updated(Found(old(Records()), e), e, gap), e.time), e)
      ensures fv == FeaturesSeen(Settled(Found(old(Records()), e), e, gap), e.time)
    {
      hide Dispatched, SnapshotOf, After, Updated, FeaturesSeen, Settled, Found;
      var u := GetOrCreate(e);
      assert u.Value() == Records()[e.uid];
      label Found:
      alerts, fv := React(u, e, gap);
      OneMoved@Found(e.uid);
    }

    /** Updates the event's user and runs the rules. */
    method Route(e: Event, gap: Option<int>) returns (alerts: seq<Alert>, teach: bool, fv: Anomaly.FeatureMap)
      requires UsersValid()
      modifies this`users, Owned()
      ensures UsersValid() && fresh(Owned() - old(Owned()))
      ensures Records() == UsersAfter(old(Records()), e, gap)
      ensures alerts == AlertsOf(old(Records()), e, gap)
      ensures teach == Teaches(old(Records()), e, gap)
      ensures teach ==> fv == FeatureMapOf(VectorRead(old(Records()), e, gap))
    {
      hide Dispatched, SnapshotOf, After, Updated, FeaturesSeen, Settled, FeatureMapOf, Identified, Found;
      alerts, teach, fv := [], false, map[];
      if e.uid == "" || e.kind.Quit? {
        return;
      }
      if e.kind.Connect? || e.kind.Register? {
        IdentifyUser(e);
      } else {
        var v;
        alerts, v := ReactUser(e, gap);
        teach, fv := IsFeatureBearing(e.kind) && alerts == [], FeatureMapOf(v);
      }
    }

    method Teach(fv: Anomaly.FeatureMap)
      requires Valid()
      modifies baseline, baseline.Cells()
      ensures Valid() && fresh(baseline.Cells() - old(baseline.Cells()))
      ensures Records() == old(Records()) && baseline.Value() == Anomaly.Trained(old(baseline.Value()), fv)
    {
      hide Anomaly.Trained;
      baseline.Observe(fv);
      assert forall i :: i in users ==> users[i].Value() == old(users[i].Value());
    }

    method Observe(e: Event, gap: Option<int>) returns (alerts: seq<Alert>)
      requires Valid()
      modifies this`users, Owned(), baseline, baseline.Cells()
      ensures Valid() && fresh(Owned() - old(Owned())) && fresh(baseline.Cells() - old(baseline.Cells()))
      ensures alerts == AlertsOf(old(Records()), e, gap)
      ensures Value() == Ingested(old(Value()), e, gap)
    {
      hide AlertsOf, UsersAfter, VectorRead, Teaches, FeatureMapOf, Anomaly.Trained;
      var teach, fv;
      alerts, teach, fv := Route(e, gap);
      if teach {
        Teach(fv);
      }
    }

    /** What an explanation or an operator's feedback reads of a user. */
    method ReadFeatures(uid: string, now: int) returns (fv: Option<FeatureVector>)
      requires UsersValid()
      modifies Owned()
      ensures UsersValid() && baseline.Value() == old(baseline.Value()) && Value() == Peeked(old(Value()), uid, now)
      ensures fv == if uid in old(Records()) then Some(FeaturesSeen(old(Records())[uid], now)) else None
    {
      if uid !in users {
        return None;
      }
      hide FeaturesSeen;
      assert users[uid].Value() == Records()[uid];
      label Known:
      var seen := users[uid].SnapshotFeatures(now);
      OneMoved@Known(uid);
      fv := Some(seen);
    }

    /** Forgets every user whose last activity lies before the cutoff. */
    method Gc(cutoff: int)
      requires UsersValid()
      modifies this`users
      ensures UsersValid() && Owned() <= old(Owned())
      ensures Records() == Collected(old(Records()), cutoff)
    {
      ghost var was := users;
      var todo := users.Keys;
      while todo != {}
        invariant todo <= users.Keys <= was.Keys
        invariant forall i :: i in users ==> users[i] == was[i]
        invariant forall i :: i in was ==> (i in users <==> i in todo || was[i].lastActivity >= cutoff)
      {
        var uid :| uid in todo;
        if users[uid].lastActivity < cutoff {
          users := users - {uid};
        }
        todo := todo - {uid};
      }
    }
  }
}
