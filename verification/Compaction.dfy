/** What compactions do to a conversation (orca/memory.go), over every run and however many of them are under way at
    once. */
module Compaction {
  import opened Basics
  import opened Conversation
  import opened Exchanges
  import opened SingleExchange

  /** Every turn ever appended is either covered by the stored summary or still held, in order. */
  predicate NothingLost(c: Conv) {
    c.log == c.folded + c.turns
  }

  // ----- What a compaction knows -----

  predicate JobFits(c: Conv, j: Job) {
    && j.since <= c.commits
    && (if j.since == c.commits then j.already == c.folded else |j.already| < c.dropped)
    && (j.Taken? ==>
          && j.cutoff > 0 && j.base <= c.dropped
          && j.base + j.cutoff + MAX_TURNS == j.at <= |c.log|
          && j.older == c.log[j.base..][..j.cutoff]
          && (j.since == c.commits ==> j.base == c.dropped))
  }

  ghost predicate Fits(c: Conv) {
    && Suffix(c)
    && |c.folded| <= c.dropped && c.told <= c.dropped
    && (|c.folded| == c.dropped ==> c.folded == c.log[..c.dropped])
    && forall id :: id in c.jobs ==> JobFits(c, c.jobs[id])
  }

  lemma LostByCount(c: Conv)
    requires Fits(c)
    ensures NothingLost(c) <==> |c.folded| == c.dropped
  {
    if |c.folded| == c.dropped {
      assert c.log == c.log[..c.dropped] + c.log[c.dropped..];
    } else {
      assert |c.folded + c.turns| < |c.log|;
    }
  }

  lemma GrowKeepsFits(c: Conv, d: Conv, more: seq<Turn>)
    requires Fits(c) && d.log == c.log + more && d.turns == c.turns + more
    requires d.folded == c.folded && d.dropped == c.dropped && d.commits == c.commits && d.told == c.told
    requires d.jobs == c.jobs
    ensures Fits(d)
  {
    assert d.log[..d.dropped] == c.log[..c.dropped];
    forall id | id in d.jobs ensures JobFits(d, d.jobs[id]) {
      var j := d.jobs[id];
      assert JobFits(c, j);
      if j.Taken? {
        assert d.log[j.base..][..j.cutoff] == c.log[j.base..][..j.cutoff];
      }
    }
  }

  lemma CommitKeepsFits(c: Conv, id: nat, text: string)
    requires Fits(c) && Enabled(c, CompactDone(id, text))
    ensures Fits(Committed(c, id, text))
  {
    var d, j := Committed(c, id, text), c.jobs[id];
    assert JobFits(c, j);
    assert d.turns == c.log[c.dropped..][j.cutoff..] == d.log[d.dropped..];
    if |d.folded| == d.dropped {
      assert j.since == c.commits;
      assert d.folded == c.log[..c.dropped] + c.log[c.dropped..][..j.cutoff] == d.log[..d.dropped];
    }
    forall k | k in d.jobs ensures JobFits(d, d.jobs[k]) {
      assert JobFits(c, c.jobs[k]);
    }
  }

  lemma StepKeepsFits(c: Conv, s: Step)
    requires Fits(c) && Enabled(c, s)
    ensures Fits(Next(c, s))
  {
    var d := Next(c, s);
    match s {
      case Ask(_, nick, account, query, _) => GrowKeepsFits(c, d, [UserTurn(nick, account, query)]);
      case Reply(_, content, calls) => GrowKeepsFits(c, d, [ReplyTurn(content, calls)]);
      case ToolResult(id, result) => GrowKeepsFits(c, d, [ResultTurn(result, c.asks[id].calls[c.asks[id].done])]);
      case Compose(_, _, _) =>
      case ChatFails(_) =>
      case CompactLook(_) =>
      case CompactTake(id) => assert JobFits(c, c.jobs[id]);
      case CompactFails(_) =>
      case CompactDone(id, text) => CommitKeepsFits(c, id, text);
    }
  }

  lemma {:induction false} RunFits(steps: seq<Step>, cs: seq<Conv>, i: nat)
    requires IsRun(steps, cs) && i < |cs|
    ensures Fits(cs[i])
  {
    if i > 0 {
      RunFits(steps, cs, i - 1);
      StepKeepsFits(cs[i - 1], steps[i - 1]);
    }
  }

  // ----- When a commit loses turns -----

  /** A commit keeps everything exactly when everything was there before it and no other compaction has committed
      since this one looked. */
  lemma CommitKeeps(steps: seq<Step>, cs: seq<Conv>, i: nat)
    requires IsRun(steps, cs) && i < |steps| && steps[i].CompactDone?
    ensures NothingLost(cs[i + 1]) <==> NothingLost(cs[i]) && cs[i].jobs[steps[i].id].since == cs[i].commits
  {
    RunFits(steps, cs, i);
    RunFits(steps, cs, i + 1);
    LostByCount(cs[i]);
    LostByCount(cs[i + 1]);
    assert JobFits(cs[i], cs[i].jobs[steps[i].id]);
  }

  /** No other step loses or finds a turn. */
  lemma OthersKeep(steps: seq<Step>, cs: seq<Conv>, i: nat)
    requires IsRun(steps, cs) && i < |steps| && !steps[i].CompactDone?
    ensures NothingLost(cs[i + 1]) <==> NothingLost(cs[i])
  {
    RunFits(steps, cs, i);
    RunFits(steps, cs, i + 1);
    LostByCount(cs[i]);
    LostByCount(cs[i + 1]);
  }

  /** The compaction committed by step j looked at step k. */
  ghost predicate LookedAt(steps: seq<Step>, k: nat, j: nat) {
    && k < j < |steps| && steps[j].CompactDone? && steps[k] == CompactLook(steps[j].id)
    && forall n :: k < n < j ==> steps[n] != CompactLook(steps[j].id)
  }

  /** Step j commits a compaction although another one, at m, committed after j's had looked, at k. */
  ghost predicate Overlaps(steps: seq<Step>, k: nat, m: nat, j: nat) {
    LookedAt(steps, k, j) && k < m < j && steps[m].CompactDone?
  }

  ghost predicate Overtaken(steps: seq<Step>, j: nat) {
    exists k, m :: Overlaps(steps, k, m, j)
  }

  /** A compaction under way looked at some step, and has since kept what it saw there. */
  lemma {:induction false} LookOf(steps: seq<Step>, cs: seq<Conv>, i: nat, id: nat) returns (k: nat)
    requires IsRun(steps, cs) && i < |cs| && id in cs[i].jobs
    ensures k < i && steps[k] == CompactLook(id) && forall n :: k < n < i ==> steps[n] != CompactLook(id)
    ensures cs[i].jobs[id].since == cs[k].commits
  {
    if steps[i - 1] == CompactLook(id) {
      k := i - 1;
    } else {
      k := LookOf(steps, cs, i - 1, id);
    }
  }

  /** commits counts the commits: it stands still exactly while there are none. */
  lemma {:induction false} CommitsCount(steps: seq<Step>, cs: seq<Conv>, k: nat, i: nat)
    requires IsRun(steps, cs) && k <= i < |cs|
    ensures cs[k].commits <= cs[i].commits
    ensures cs[k].commits == cs[i].commits <==> forall m :: k <= m < i ==> !steps[m].CompactDone?
    decreases i - k
  {
    if k < i {
      CommitsCount(steps, cs, k, i - 1);
    }
  }

  /** Step j's compaction was overtaken exactly when its summary is older than the last commit. */
  lemma OvertakenMeaning(steps: seq<Step>, cs: seq<Conv>, j: nat)
    requires IsRun(steps, cs) && j < |steps| && steps[j].CompactDone?
    ensures cs[j].jobs[steps[j].id].since == cs[j].commits <==> !Overtaken(steps, j)
  {
    var k := LookOf(steps, cs, j, steps[j].id);
    CommitsCount(steps, cs, k, j);
    if exists m :: k <= m < j && steps[m].CompactDone? {
      var m :| k <= m < j && steps[m].CompactDone?;
      assert Overlaps(steps, k, m, j);
    }
    if Overtaken(steps, j) {
      var l, m :| Overlaps(steps, l, m, j);
      assert l == k;
    }
  }

  lemma StepLoses(steps: seq<Step>, cs: seq<Conv>, i: nat)
    requires IsRun(steps, cs) && i < |steps|
    ensures NothingLost(cs[i + 1]) <==> NothingLost(cs[i]) && !Overtaken(steps, i)
  {
    if steps[i].CompactDone? {
      CommitKeeps(steps, cs, i);
      OvertakenMeaning(steps, cs, i);
    } else {
      OthersKeep(steps, cs, i);
    }
  }

  /** Compaction is safe exactly as long as no commit is overtaken: at any point of any run the stored summary and
      the held turns together cover the whole conversation if and only if no compaction so far committed after
      another one that had committed since it looked. */
  lemma {:induction false} NothingLostIff(steps: seq<Step>, cs: seq<Conv>, i: nat)
    requires IsRun(steps, cs) && i < |cs|
    ensures NothingLost(cs[i]) <==> forall j :: 0 <= j < i ==> !Overtaken(steps, j)
  {
    if i > 0 {
      NothingLostIff(steps, cs, i - 1);
      StepLoses(steps, cs, i - 1);
    }
  }

  /** A compaction under way was under way ever since its look. */
  lemma {:induction false} UnderWay(steps: seq<Step>, cs: seq<Conv>, m: nat, j: nat, id: nat)
    requires IsRun(steps, cs) && m <= j < |cs| && id in cs[j].jobs
    requires forall n :: m <= n < j ==> steps[n] != CompactLook(id)
    ensures id in cs[m].jobs
    decreases j - m
  {
    if m < j {
      UnderWay(steps, cs, m, j - 1, id);
    }
  }

  /** Every compaction of the run so far started while no other was under way. */
  predicate OneAtATime(steps: seq<Step>, cs: seq<Conv>, i: nat)
    requires IsRun(steps, cs) && i < |cs|
  {
    forall k :: 0 <= k < i && steps[k].CompactLook? ==> cs[k].jobs == map[]
  }

  lemma {:induction false} OneJob(steps: seq<Step>, cs: seq<Conv>, i: nat)
    requires IsRun(steps, cs) && i < |cs| && OneAtATime(steps, cs, i)
    ensures forall a, b :: a in cs[i].jobs && b in cs[i].jobs ==> a == b
  {
    if i > 0 {
      OneJob(steps, cs, i - 1);
      assert steps[i - 1].CompactLook? ==> cs[i - 1].jobs == map[];
      assert forall a :: a in cs[i].jobs ==> a in cs[i - 1].jobs || steps[i - 1] == CompactLook(a);
    }
  }

  /** In particular, nothing is ever lost when no compaction starts while another is under way. */
  lemma OneAtATimeLosesNothing(steps: seq<Step>, cs: seq<Conv>, i: nat)
    requires IsRun(steps, cs) && i < |cs| && OneAtATime(steps, cs, i)
    ensures NothingLost(cs[i])
  {
    forall j | 0 <= j < i ensures !Overtaken(steps, j) {
      if Overtaken(steps, j) {
        var k: nat, m: nat :| Overlaps(steps, k, m, j);
        UnderWay(steps, cs, m, j, steps[j].id);
        UnderWay(steps, cs, m + 1, j, steps[j].id);
        OneJob(steps, cs, m);
        assert false;
      }
    }
    NothingLostIff(steps, cs, i);
  }

  // ----- What a commit does -----

  /** A commit that was not overtaken cuts the held turns exactly into those its summary was given and the rest, and
      the stored summary grows by the former; older losses aside, nothing is lost. */
  lemma CompactionLosesNothing(steps: seq<Step>, cs: seq<Conv>, i: nat)
    requires IsRun(steps, cs) && i < |steps| && steps[i].CompactDone?
    requires cs[i].jobs[steps[i].id].since == cs[i].commits
    ensures var c, d := cs[i], cs[i + 1];
            && c.turns == c.jobs[steps[i].id].older + d.turns
            && d.folded == c.folded + c.jobs[steps[i].id].older
            && d.log == c.log && d.summary == steps[i].text && |d.turns| >= MAX_TURNS
  {
    RunFits(steps, cs, i);
    assert JobFits(cs[i], cs[i].jobs[steps[i].id]);
  }

  /** All turns any stored summary was given come before told. */
  lemma {:induction false} ToldCovers(steps: seq<Step>, cs: seq<Conv>, j: nat, i: nat)
    requires IsRun(steps, cs) && j < i < |cs| && steps[j].CompactDone?
    ensures var job := cs[j].jobs[steps[j].id]; job.Taken? && job.base + job.cutoff <= cs[i].told
    decreases i
  {
    if j + 1 < i {
      ToldCovers(steps, cs, j, i - 1);
    }
  }

  /** A commit drops turns that no stored summary, its own included, was ever given exactly when another compaction
      committed after it had taken its turns, as the cut is made at the front of what is held by then. */
  lemma OvertakenCommitDrops(steps: seq<Step>, cs: seq<Conv>, i: nat)
    requires IsRun(steps, cs) && i < |steps| && steps[i].CompactDone?
    ensures var c, d, j := cs[i], cs[i + 1], cs[i].jobs[steps[i].id];
            && d.told <= d.dropped == c.dropped + j.cutoff <= |d.log| && d.turns == d.log[d.dropped..]
            && (d.told < d.dropped <==> j.base < c.dropped)
            && (c.told == c.dropped ==> d.dropped - d.told == Min(j.cutoff, c.dropped - j.base))
  {
    RunFits(steps, cs, i);
    RunFits(steps, cs, i + 1);
    assert JobFits(cs[i], cs[i].jobs[steps[i].id]);
  }

  /** A compaction that was not overtaken finds all the turns it took, and 24 more; one that was cuts beyond the held
      turns exactly when the others dropped more since its taking than 24 and the turns that arrived since. */
  lemma OverrunExact(steps: seq<Step>, cs: seq<Conv>, i: nat, id: nat)
    requires IsRun(steps, cs) && i < |cs| && id in cs[i].jobs && cs[i].jobs[id].Taken?
    ensures var c, j := cs[i], cs[i].jobs[id];
            && (j.since == c.commits ==> j.cutoff + MAX_TURNS <= |c.turns|)
            && (j.cutoff > |c.turns| <==> c.dropped - j.base > MAX_TURNS + (|c.log| - j.at))
  {
    RunFits(steps, cs, i);
    assert JobFits(cs[i], cs[i].jobs[id]);
  }

  // ----- The question of an exchange -----

  /** A commit between the asking of a question and the composing of its request hides the question exactly when it cuts
      past it, so, with nothing appended since, exactly when it cuts all that is held; one that was not overtaken
      never does. */
  lemma CommitInGap(steps: seq<Step>, cs: seq<Conv>, i: nat, id: nat)
    requires IsRun(steps, cs) && i < |steps| && steps[i].CompactDone? && id in cs[i].asks && cs[i].asks[id].Asked?
    ensures var c, d := cs[i], cs[i + 1];
            var at, j := c.asks[id].at, c.jobs[steps[i].id];
            && d.asks == c.asks
            && (Shows(d, at) <==> Shows(c, at) && c.dropped + j.cutoff <= at)
            && (at + 1 == |c.log| ==> (Shows(d, at) <==> j.cutoff < |c.turns|))
            && (!Overtaken(steps, i) ==> (Shows(d, at) <==> Shows(c, at)))
  {
    RunFits(steps, cs, i);
    RunKeeps(steps, cs, i);
    OvertakenMeaning(steps, cs, i);
    OverrunExact(steps, cs, i, steps[i].id);
    assert ExchangeFits(cs[i].log, cs[i].asks[id]);
  }

  predicate ShownInTime(c: Conv, at: nat) {
    Shows(c, at) <==> |c.log| - at <= MAX_TURNS
  }

  /** Whatever else happens, only the number of turns after the question counts. */
  lemma QuestionKept(c: Conv, s: Step, id: nat)
    requires Inv(c) && Enabled(c, s) && !s.CompactDone?
    requires id in Next(c, s).asks && Next(c, s).asks[id].Asked?
    requires id in c.asks && c.asks[id].Asked? ==> ShownInTime(c, c.asks[id].at)
    ensures ShownInTime(Next(c, s), Next(c, s).asks[id].at)
  {
    hide Sound, HalfSound, Composed, Rendered;
    assert id in c.asks ==> ExchangeFits(c.log, c.asks[id]);
  }

  /** In every run, as long as no overtaken commit came after a question, its request shows it exactly when fewer than
      24 turns came after it. */
  lemma {:induction false} QuestionShown(steps: seq<Step>, cs: seq<Conv>, i: nat, id: nat)
    requires IsRun(steps, cs) && i < |cs| && id in cs[i].asks && cs[i].asks[id].Asked?
    requires forall j :: 0 <= j < i && Overtaken(steps, j) ==> |cs[j].log| <= cs[i].asks[id].at
    ensures Shows(cs[i], cs[i].asks[id].at) <==> |cs[i].log| - cs[i].asks[id].at <= MAX_TURNS
  {
    if i > 0 {
      var c, s := cs[i - 1], steps[i - 1];
      RunKeeps(steps, cs, i - 1);
      AskedBefore(c, s, id);
      hide Inv, Next;
      if id in c.asks && c.asks[id].Asked? {
        QuestionShown(steps, cs, i - 1, id);
      }
      if s.CompactDone? {
        CommitInGap(steps, cs, i - 1, id);
      } else {
        QuestionKept(c, s, id);
      }
    }
  }

  lemma AskedBefore(c: Conv, s: Step, id: nat)
    requires Inv(c) && Enabled(c, s) && id in Next(c, s).asks && Next(c, s).asks[id].Asked?
    ensures id in c.asks && c.asks[id].Asked? ==> Next(c, s).asks[id] == c.asks[id] && c.asks[id].at < |c.log|
    ensures s.CompactDone? ==> id in c.asks && c.asks[id].Asked?
  {
    hide Sound, HalfSound, Composed, Rendered;
    assert id in c.asks ==> ExchangeFits(c.log, c.asks[id]);
  }

  /** A request composed now shows 1 to 24 turns, from a user turn to the newest one. */
  ghost predicate ShowsLast(c: Conv) {
    var w := Window(c.turns);
    1 <= |w| <= MAX_TURNS && IsUserTurn(w[0]) && c.log != [] && w[|w| - 1] == c.log[|c.log| - 1]
  }

  lemma LastShown(c: Conv)
    requires Inv(c) && c.log != [] && IsUserTurn(c.log[|c.log| - 1])
    ensures Shows(c, |c.log| - 1) <==> ShowsLast(c)
  {
    ShowsMeaning(c, |c.log| - 1);
    WindowIsSuffix(c.turns);
  }

  /** Hence always, when exchanges do not overlap. */
  lemma QuestionAlwaysShown(steps: seq<Step>, cs: seq<Conv>, i: nat)
    requires IsRun(steps, cs) && i < |steps| && steps[i].Compose? && NoOverlap(steps, cs, i)
    requires forall j :: 0 <= j < i ==> !Overtaken(steps, j)
    ensures cs[i].asks[steps[i].id].at + 1 == |cs[i].log| && ShowsLast(cs[i])
  {
    ComposedRequestIsClean(steps, cs, i);
    RunKeeps(steps, cs, i);
    QuestionShown(steps, cs, i, steps[i].id);
    hide Inv, IsRun, NoOverlap, Overtaken;
    LastShown(cs[i]);
  }
}
