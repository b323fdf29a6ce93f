/** Runs in which exchanges do not overlap: every request is clean, whatever the compactions do meanwhile. */
module SingleExchange {
  import opened ToolRepair
  import opened Conversation
  import opened Exchanges

  /** Every exchange of the run so far began while no other was under way. */
  ghost predicate NoOverlap(steps: seq<Step>, cs: seq<Conv>, i: nat)
    requires IsRun(steps, cs) && i < |cs|
  {
    forall k :: 0 <= k < i && steps[k].Ask? ==> cs[k].asks == map[]
  }

  // ----- The shape of the log -----

  /** Each assistant turn with calls is followed by one tool turn per call, in order, except that the last one may
      still wait for its last few; and no tool turn stands anywhere else. */
  ghost predicate WellFormed(log: seq<Turn>, waiting: int) {
    && (forall k :: 0 <= k < |log| && IsCallerTurn(log[k]) ==>
          k + 1 + |log[k].calls| <= |log| || k + 1 + |log[k].calls| == |log| + waiting)
    && (forall k, j :: 0 <= k < |log| && IsCallerTurn(log[k]) && 0 <= j < |log[k].calls| && k + 1 + j < |log| ==>
          HasResult(log, k, j))
    && (forall k :: 0 <= k < |log| && IsToolTurn(log[k]) ==> exists h :: Owns(log, h, k))
  }

  /** The j-th call of the turn at k is answered in place. */
  ghost predicate HasResult(log: seq<Turn>, k: int, j: int) {
    && 0 <= k && 0 <= j && k + 1 + j < |log| && j < |log[k].calls|
    && IsToolTurn(log[k + 1 + j]) && log[k + 1 + j].call == log[k].calls[j]
  }

  ghost predicate Owns(log: seq<Turn>, h: int, k: int) {
    && 0 <= h < k < |log|
    && IsCallerTurn(log[h]) && k <= h + |log[h].calls|
  }

  /** How many results the caller at the end of the log still waits for. */
  function Waiting(x: Exchange): int {
    if x.Tooling? then |x.calls| - x.done else 0
  }

  /** The log is as the exchange left it: its question last, or its caller and the results so far; and what was composed
      for it is paired and clean. */
  ghost predicate Last(log: seq<Turn>, x: Exchange) {
    match x
    case Asked(at, _) => at + 1 == |log|
    case Thinking(_, base, _) => WellPaired(base) && NoOrphans(base)
    case Tooling(_, base, _, calls, done) =>
      && WellPaired(base) && NoOrphans(base)
      && done < |calls| && done + 1 <= |log|
      && var k := |log| - 1 - done; IsCallerTurn(log[k]) && log[k].calls == calls
  }

  ghost predicate Solo(c: Conv) {
    && (forall a, b :: a in c.asks && b in c.asks ==> a == b)
    && (c.asks == map[] ==> WellFormed(c.log, 0))
    && (forall id :: id in c.asks ==> WellFormed(c.log, Waiting(c.asks[id])) && Last(c.log, c.asks[id]))
  }

  lemma AppendKeepsForm(log: seq<Turn>, t: Turn)
    requires WellFormed(log, 0) && !IsToolTurn(t)
    ensures WellFormed(log + [t], if IsCallerTurn(t) then |t.calls| else 0)
  {
    var all := log + [t];
    forall k | 0 <= k < |all| && IsToolTurn(all[k]) ensures exists h :: Owns(all, h, k) {
      assert all[k] == log[k];
      var h :| Owns(log, h, k);
      assert Owns(all, h, k);
    }
    forall k, j | 0 <= k < |all| && IsCallerTurn(all[k]) && 0 <= j < |all[k].calls| && k + 1 + j < |all|
      ensures HasResult(all, k, j)
    {
      assert HasResult(log, k, j);
    }
  }

  lemma ToolKeepsForm(log: seq<Turn>, t: Turn, h: nat, done: nat)
    requires h + 1 + done == |log| && IsCallerTurn(log[h]) && done < |log[h].calls|
    requires WellFormed(log, |log[h].calls| - done)
    requires IsToolTurn(t) && t.call == log[h].calls[done]
    ensures WellFormed(log + [t], |log[h].calls| - done - 1)
  {
    var all := log + [t];
    forall k | 0 <= k < |all| && IsToolTurn(all[k]) ensures exists g :: Owns(all, g, k) {
      if k < |log| {
        var g :| Owns(log, g, k);
        assert Owns(all, g, k);
      } else {
        assert Owns(all, h, k);
      }
    }
    forall k | 0 <= k < |log| && IsCallerTurn(log[k]) && k != h
      ensures k + 1 + |log[k].calls| <= |log|
    {
      assert k < h < k + 1 + |log[k].calls| ==> HasResult(log, k, h - k - 1);
      assert h < k ==> HasResult(log, h, k - h - 1);
    }
    forall k, j | 0 <= k < |all| && IsCallerTurn(all[k]) && 0 <= j < |all[k].calls| && k + 1 + j < |all|
      ensures HasResult(all, k, j)
    {
      if k + 1 + j < |log| {
        assert HasResult(log, k, j);
      }
    }
  }

  lemma CallerIsAnswered(log: seq<Turn>, k: nat)
    requires WellFormed(log, 0) && k < |log| && IsCallerTurn(log[k])
    ensures Answered(Rendered(log[k]), RenderedAll(log[k + 1..]))
  {
    var calls, after := log[k].calls, RenderedAll(log[k + 1..]);
    forall j | 0 <= j < |calls| ensures IsResult(after[j], calls[j]) {
      assert HasResult(log, k, j);
    }
    forall id | id in Ids(Rendered(log[k]))
      ensures exists n :: 0 <= n < |after| && after[n].callId == id && forall j :: 0 <= j <= n ==> IsTool(after[j])
    {
      var n :| 0 <= n < |calls| && calls[n].id == id;
      assert IsResult(after[n], calls[n]);
      assert forall j :: 0 <= j <= n ==> IsResult(after[j], calls[j]);
    }
  }

  /** A tool turn after a user turn was asked for after that user turn, with only tool turns in between. */
  lemma ResultOwner(log: seq<Turn>, w: nat, k: nat) returns (h: nat)
    requires WellFormed(log, 0) && w < k < |log| && IsUserTurn(log[w]) && IsToolTurn(log[k])
    ensures w < h < k && IsCallerTurn(log[h]) && k <= h + |log[h].calls|
    ensures log[k].call == log[h].calls[k - h - 1]
    ensures forall g :: h < g < k ==> IsToolTurn(log[g])
  {
    h :| Owns(log, h, k);
    assert HasResult(log, h, k - h - 1);
    assert h < w ==> HasResult(log, h, w - h - 1);
    forall g | h < g < k ensures IsToolTurn(log[g]) {
      assert HasResult(log, h, g - h - 1);
    }
  }

  lemma WindowIsPaired(log: seq<Turn>, w: nat)
    requires WellFormed(log, 0) && w <= |log|
    ensures WellPaired(RenderedAll(log[w..]))
  {
    var ms := RenderedAll(log[w..]);
    forall i | 0 <= i < |ms| && IsCaller(ms[i]) ensures Answered(ms[i], ms[i + 1..]) {
      hide WellFormed, Answered;
      CallerIsAnswered(log, w + i);
      assert ms[i + 1..] == RenderedAll(log[w + i + 1..]);
    }
  }

  /** A window of a complete log that starts on a user turn shows only whole tool sequences. */
  lemma WindowIsClean(log: seq<Turn>, w: nat)
    requires WellFormed(log, 0) && w < |log| && IsUserTurn(log[w])
    ensures WellPaired(RenderedAll(log[w..])) && NoOrphans(RenderedAll(log[w..]))
  {
    WindowIsPaired(log, w);
    var ms := RenderedAll(log[w..]);
    hide WellFormed, WellPaired, Answered;
    forall i | 0 <= i < |ms| && IsTool(ms[i]) ensures Claims(OwnerAt(ms, i), ms[i]) {
      var h := ResultOwner(log, w, w + i);
      assert forall g :: h - w < g < i ==> ms[g] == Rendered(log[w + g]);
      OwnerIs(ms, h - w, i);
      assert log[h].calls[w + i - h - 1] in ms[h - w].calls;
    }
  }

  /** System notes and user text never disturb pairing. */
  lemma PlainIsClean(ms: seq<Message>)
    requires forall m :: m in ms ==> m.role == System || m.role == User
    ensures WellPaired(ms) && NoOrphans(ms)
  {
  }

  lemma ComposedIsClean(log: seq<Turn>, from: nat, summary: string, sysPrompt: string, note: string)
    requires WellFormed(log, 0) && from <= |log|
    ensures var ms := Composed(log[from..], summary, sysPrompt, note, "");
            WellPaired(ms) && NoOrphans(ms)
  {
    var turns := log[from..];
    WindowIsSuffix(turns);
    var w := |log| - |Window(turns)|;
    assert Window(turns) == log[w..];
    if w < |log| {
      assert log[w] == Window(turns)[0];
      WindowIsClean(log, w);
    } else {
      PlainIsClean(RenderedAll(log[w..]));
    }
    var pre, mid, post := Preamble(sysPrompt, summary), RenderedAll(Window(turns)), Coda(note, "");
    PlainIsClean(pre);
    PlainIsClean(post);
    PairedAppend(pre, mid);
    CleanAppend(pre, mid);
    PairedAppend(pre + mid, post);
    CleanAppend(pre + mid, post);
  }

  // ----- Every step keeps it -----

  lemma ComposeSolo(c: Conv, s: Step)
    requires Inv(c) && Solo(c) && s.Compose? && Enabled(c, s)
    ensures Solo(Next(c, s))
    ensures var x := Next(c, s).asks[s.id]; x.request == x.base && WellPaired(x.base) && NoOrphans(x.base)
  {
    hide WellFormed, WellPaired, NoOrphans, Composed;
    ComposedIsClean(c.log, c.dropped, c.summary, s.sysPrompt, s.note);
    RepairIdentity(Composed(c.turns, c.summary, s.sysPrompt, s.note, ""));
  }

  lemma AskSolo(c: Conv, s: Step)
    requires Solo(c) && s.Ask? && Enabled(c, s) && c.asks == map[]
    ensures Solo(Next(c, s))
  {
    AppendKeepsForm(c.log, UserTurn(s.nick, s.account, s.query));
    hide WellFormed;
  }

  lemma ReplySolo(c: Conv, s: Step)
    requires Solo(c) && s.Reply? && Enabled(c, s)
    ensures Solo(Next(c, s))
  {
    var t := ReplyTurn(s.content, s.calls);
    AppendKeepsForm(c.log, t);
    hide WellFormed, WellPaired, NoOrphans;
    var d := Next(c, s);
    assert WellFormed(d.log, |s.calls|) && (s.id in d.asks ==> |s.calls| == Waiting(d.asks[s.id]));
    assert s.id in d.asks ==> Last(d.log, d.asks[s.id]);
  }

  lemma ResultSolo(c: Conv, s: Step)
    requires Solo(c) && s.ToolResult? && Enabled(c, s)
    ensures Solo(Next(c, s))
  {
    hide WellFormed, WellPaired, NoOrphans;
    var x := c.asks[s.id];
    ToolKeepsForm(c.log, ResultTurn(s.result, x.calls[x.done]), |c.log| - 1 - x.done, x.done);
    var d := Next(c, s);
    assert d.asks == map[] ==> WellFormed(d.log, 0);
    assert s.id in d.asks ==> WellFormed(d.log, Waiting(d.asks[s.id])) && Last(d.log, d.asks[s.id]);
  }

  lemma StepSolo(c: Conv, s: Step)
    requires Inv(c) && Solo(c) && Enabled(c, s) && (s.Ask? ==> c.asks == map[])
    ensures Solo(Next(c, s))
  {
    match s {
      case Ask(_, _, _, _, _) => AskSolo(c, s);
      case Compose(_, _, _) => ComposeSolo(c, s);
      case Reply(_, _, _) => ReplySolo(c, s);
      case ToolResult(_, _) => ResultSolo(c, s);
      case _ => hide WellFormed, WellPaired, NoOrphans;
    }
  }

  lemma {:induction false} RunSolo(steps: seq<Step>, cs: seq<Conv>, i: nat)
    requires IsRun(steps, cs) && i < |cs| && NoOverlap(steps, cs, i)
    ensures Inv(cs[i]) && Solo(cs[i])
  {
    RunKeeps(steps, cs, i);
    if i > 0 {
      RunSolo(steps, cs, i - 1);
      StepSolo(cs[i - 1], steps[i - 1]);
    } else {
      hide WellPaired, NoOrphans;
    }
  }

  /** In every run of exchanges that do not overlap, with any number of compactions that commit at any point, the
      composed request is fully paired and has no orphan, so that the repair pass changes nothing; and when it shows
      its question, that is the last turn it shows. */
  lemma ComposedRequestIsClean(steps: seq<Step>, cs: seq<Conv>, i: nat)
    requires IsRun(steps, cs) && i < |steps| && steps[i].Compose? && NoOverlap(steps, cs, i)
    ensures var c, x := cs[i], cs[i + 1].asks[steps[i].id];
            && x.request == x.base && WellPaired(x.request) && NoOrphans(x.request)
            && c.asks[steps[i].id].at + 1 == |c.log|
            && (Shows(c, |c.log| - 1) <==> c.turns != [])
  {
    RunSolo(steps, cs, i);
    ComposeSolo(cs[i], steps[i]);
  }

  /** So is every request the model is sent, those of later tool rounds included. */
  lemma EveryRequestIsClean(steps: seq<Step>, cs: seq<Conv>, i: nat, id: nat)
    requires IsRun(steps, cs) && i < |cs| && id in cs[i].asks && cs[i].asks[id].Thinking? && NoOverlap(steps, cs, i)
    ensures WellPaired(cs[i].asks[id].request) && NoOrphans(cs[i].asks[id].request)
  {
    RunSolo(steps, cs, i);
    EveryRequestIsPaired(steps, cs, i, id);
  }
}
