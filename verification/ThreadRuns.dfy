/** Runs of a conversation that go wrong. */
module ThreadRuns {
  import opened ToolRepair
  import opened Conversation
  import opened Exchanges
  import opened SingleExchange
  import opened Compaction

  lemma Begin() returns (steps: seq<Step>, cs: seq<Conv>)
    ensures steps == [] && cs == [START] && IsRun(steps, cs)
  {
    steps, cs := [], [START];
  }

  /** One more step, which begins no exchange while another is under way. */
  lemma Go(steps: seq<Step>, cs: seq<Conv>, s: Step) returns (more: seq<Step>, reached: seq<Conv>)
    requires IsRun(steps, cs) && Enabled(cs[|steps|], s)
    requires NoOverlap(steps, cs, |steps|) && (s.Ask? ==> cs[|steps|].asks == map[])
    ensures more == steps + [s] && reached == cs + [Next(cs[|steps|], s)]
    ensures IsRun(more, reached) && NoOverlap(more, reached, |more|)
  {
    more, reached := Extend(steps, cs, s);
    hide Next, Enabled;
    forall k | 0 <= k < |more| && more[k].Ask? ensures reached[k].asks == map[] {
      assert k < |steps| ==> more[k] == steps[k] && reached[k] == cs[k];
    }
  }

  predicate Untouched(c: Conv) {
    c.asks == map[] && c.jobs == map[] && c.turns == c.log && c.folded == [] && c.dropped == c.commits == c.told == 0
  }

  /** A question that is answered at once, or fails. */
  lemma Exchanged(steps: seq<Step>, cs: seq<Conv>, answered: bool) returns (more: seq<Step>, reached: seq<Conv>)
    requires IsRun(steps, cs) && NoOverlap(steps, cs, |steps|) && Untouched(cs[|steps|])
    ensures IsRun(more, reached) && NoOverlap(more, reached, |more|) && Untouched(reached[|more|])
    ensures |reached[|more|].log| == |cs[|steps|].log| + if answered then 2 else 1
  {
    more, reached := Go(steps, cs, Ask(1, "ann", "", "why?", 1));
    hide Composed, Repair, IsRun, NoOverlap;
    more, reached := Go(more, reached, Compose(1, "", ""));
    if answered {
      more, reached := Go(more, reached, Reply(1, "because", []));
    } else {
      more, reached := Go(more, reached, ChatFails(1));
    }
    assert reached[|more|].asks == map[];
  }

  /** A conversation of n questions that were answered without tools. */
  lemma {:induction false} Conversed(n: nat) returns (steps: seq<Step>, cs: seq<Conv>)
    ensures IsRun(steps, cs) && NoOverlap(steps, cs, |steps|) && Untouched(cs[|steps|])
    ensures |cs[|steps|].log| == 2 * n
  {
    if n == 0 {
      steps, cs := Begin();
    } else {
      steps, cs := Conversed(n - 1);
      steps, cs := Exchanged(steps, cs, true);
    }
  }

  /** Two compactions that both take the same older turns before either commits. */
  lemma TakenTwice(steps: seq<Step>, cs: seq<Conv>) returns (more: seq<Step>, reached: seq<Conv>)
    requires IsRun(steps, cs) && NoOverlap(steps, cs, |steps|)
    requires Untouched(cs[|steps|]) && |cs[|steps|].log| >= COMPACTION_TRIGGER
    ensures IsRun(more, reached) && NoOverlap(more, reached, |more|)
    ensures var c, d := cs[|steps|], reached[|more|];
            var n := |c.log|;
            && d == c.(jobs := d.jobs) && d.jobs.Keys == {1, 2}
            && forall id :: id in d.jobs ==> d.jobs[id] == Taken([], 0, 0, n, n - 24, c.log[..n - 24])
  {
    more, reached := steps, cs;
    var c, n := cs[|steps|], |cs[|steps|].log|;
    var t := [CompactLook(1), CompactTake(1), CompactLook(2), CompactTake(2)];
    for i := 0 to |t|
      invariant IsRun(more, reached) && NoOverlap(more, reached, |more|)
      invariant var d := reached[|more|];
                && d == c.(jobs := d.jobs) && d.jobs.Keys == if i == 0 then {} else if i <= 2 then {1} else {1, 2}
      invariant forall id :: id in reached[|more|].jobs ==>
        reached[|more|].jobs[id] ==
        if i == 2 * id - 1 then Looking([], 0) else Taken([], 0, 0, n, n - 24, c.log[..n - 24])
    {
      more, reached := Go(more, reached, t[i]);
    }
  }

  /** After 20 exchanges, two overlapping compactions leave a summary of the first 16 turns and the last 8 held. */
  lemma TwoJobsLoseTurns() returns (steps: seq<Step>, cs: seq<Conv>)
    ensures IsRun(steps, cs) && NoOverlap(steps, cs, |steps|)
    ensures var c := cs[|steps|];
            && |c.log| == 40 && c.folded == c.log[..16] && c.turns == c.log[32..]
            && c.told < c.dropped && !NothingLost(c)
  {
    steps, cs := Conversed(20);
    steps, cs := TakenTwice(steps, cs);
    for id: nat := 1 to 3
      invariant IsRun(steps, cs) && NoOverlap(steps, cs, |steps|)
      invariant var c := cs[|steps|];
                && |c.log| == 40 && c.dropped == 16 * (id - 1) && c.turns == c.log[16 * (id - 1)..]
                && c.folded == (if id == 1 then [] else c.log[..16])
                && c.told == (if id == 1 then 0 else 16)
                && forall k: nat :: id <= k < 3 ==> k in c.jobs && c.jobs[k] == Taken([], 0, 0, 40, 16, c.log[..16])
    {
      steps, cs := Go(steps, cs, CompactDone(id, ""));
    }
  }

  /** After 25 exchanges, the second of two overlapping compactions is left with more turns to cut than are held. */
  lemma TwoJobsOverrun() returns (steps: seq<Step>, cs: seq<Conv>)
    ensures IsRun(steps, cs) && NoOverlap(steps, cs, |steps|)
    ensures var c := cs[|steps|]; 2 in c.jobs && c.jobs[2].Taken? && c.jobs[2].cutoff == 26 && |c.turns| == 24
  {
    steps, cs := Conversed(25);
    steps, cs := TakenTwice(steps, cs);
    steps, cs := Go(steps, cs, CompactDone(1, ""));
  }

  /** A question asked when 24 turns are held and a compaction is about to cut 25. */
  lemma AskedAndCut(steps: seq<Step>, cs: seq<Conv>) returns (more: seq<Step>, reached: seq<Conv>)
    requires IsRun(steps, cs) && NoOverlap(steps, cs, |steps|)
    requires var c := cs[|steps|];
             c.asks == map[] && |c.turns| == 24 && 2 in c.jobs && c.jobs[2].Taken? && c.jobs[2].cutoff == 25
    ensures IsRun(more, reached) && NoOverlap(more, reached, |more|)
    ensures |more| > 0 && more[|more| - 1].Compose? && Window(reached[|more| - 1].turns) == []
  {
    assert Window([]) == [];
    hide IsRun, NoOverlap, Window, Composed, Repair;
    more, reached := Go(steps, cs, Ask(1, "ann", "", "why?", 1));
    more, reached := Go(more, reached, CompactDone(2, ""));
    assert reached[|more|].turns == [];
    more, reached := Go(more, reached, Compose(1, "", ""));
  }

  /** After 24 exchanges and a failed one, two compactions take 25 turns each; one commits before, the other after the
      next question is asked, and the request composed for that shows no turn at all. */
  lemma QuestionLost() returns (steps: seq<Step>, cs: seq<Conv>)
    ensures IsRun(steps, cs) && NoOverlap(steps, cs, |steps|)
    ensures |steps| > 0 && steps[|steps| - 1].Compose? && Window(cs[|steps| - 1].turns) == []
  {
    hide IsRun, NoOverlap, Window;
    steps, cs := Conversed(24);
    steps, cs := Exchanged(steps, cs, false);
    steps, cs := TakenTwice(steps, cs);
    steps, cs := Go(steps, cs, CompactDone(1, ""));
    steps, cs := AskedAndCut(steps, cs);
  }

  lemma OrphanShown(turns: seq<Turn>)
    requires |turns| == 4 && IsUserTurn(turns[0]) && IsUserTurn(turns[2]) && IsToolTurn(turns[3])
    ensures !OrphansAreDropped(Composed(turns, "", "", "", ""))
  {
    assert Window(turns) == turns;
    var ms := Composed(turns, "", "", "", "");
    assert ms == [SystemNote("")] + RenderedAll(turns);
    assert ms[3] == Rendered(turns[2]) && ms[4] == Rendered(turns[3]);
    assert OwnerAt(ms, 4) == Nobody;
  }

  /** Two exchanges that overlap: a question asked between a call of the other and its result cuts the result off from
      the call, and the request of the second question has an orphan. */
  lemma OverlapOrphans() returns (steps: seq<Step>, cs: seq<Conv>)
    ensures IsRun(steps, cs) && 2 in cs[|steps|].asks && cs[|steps|].asks[2].Thinking?
    ensures !NoOrphans(cs[|steps|].asks[2].request)
  {
    var call := ToolCall("c", "who", "");
    hide IsRun, Repair, Composed, Rendered;
    steps, cs := Begin();
    steps, cs := Extend(steps, cs, Ask(1, "ann", "", "who is here?", 2));
    steps, cs := Extend(steps, cs, Compose(1, "", ""));
    steps, cs := Extend(steps, cs, Reply(1, "", [call]));
    steps, cs := Extend(steps, cs, Ask(2, "bob", "", "and why?", 2));
    steps, cs := Extend(steps, cs, ToolResult(1, "nobody"));
    OrphanShown(cs[|steps|].turns);
    steps, cs := Extend(steps, cs, Compose(2, "", ""));
    EveryRequestIsPaired(steps, cs, |steps|, 2);
  }
}
