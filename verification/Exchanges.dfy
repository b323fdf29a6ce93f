/** The exchanges of a conversation (orca/ask.go, and the same loop in orca/chat_listen.go and orca/voice.go) and its
    compactions as a state machine. Any number of exchanges may be under way on one conversation, and so may any number
    of compactions; an exchange appends its question and composes its request in two steps, as the lock is released in
    between. */
module Exchanges {
  import opened ToolRepair
  import opened Conversation

  /** An exchange that has appended its question, as the log's turn at; that waits for the model; or that runs its tool
      calls. base is what was composed for it, before the repair pass. */
  datatype Exchange =
    | Asked(at: nat, budget: nat)
    | Thinking(left: nat, base: seq<Message>, request: seq<Message>)
    | Tooling(left: nat, base: seq<Message>, request: seq<Message>, calls: seq<ToolCall>, done: nat)

  /** A compaction that has looked, or that has taken its turns. already is what the summary stood for at the look,
      since how many compactions had committed by then; base and at are how many turns had been dropped and logged
      when the older ones were taken. */
  datatype Job =
    | Looking(already: seq<Turn>, since: nat)
    | Taken(already: seq<Turn>, since: nat, base: nat, at: nat, cutoff: nat, older: seq<Turn>)

  /** log is every turn ever appended, folded what the stored summary stands for, dropped and commits how many turns
      were dropped by how many compactions; all turns any stored summary was ever given come before told. */
  datatype Conv = Conv(
    turns: seq<Turn>, summary: string, lastSpeaker: string,
    asks: map<nat, Exchange>, jobs: map<nat, Job>,
    log: seq<Turn>, folded: seq<Turn>, dropped: nat, commits: nat, told: nat)

  datatype Step =
    | Ask(id: nat, nick: string, account: string, query: string, budget: nat)
    | Compose(id: nat, sysPrompt: string, note: string)
    | ChatFails(id: nat)
    | Reply(id: nat, content: string, calls: seq<ToolCall>)
    | ToolResult(id: nat, result: string)
    | CompactLook(id: nat)
    | CompactTake(id: nat)
    | CompactFails(id: nat)
    | CompactDone(id: nat, text: string)

  const START := Conv([], "", "", map[], map[], [], [], 0, 0, 0)

  function UserTurn(nick: string, account: string, query: string): Turn {
    Turn(FromUser, nick, account, query, [], NO_CALL)
  }

  function ReplyTurn(content: string, calls: seq<ToolCall>): Turn {
    Turn(FromAssistant, "", "", content, calls, NO_CALL)
  }

  function ResultTurn(result: string, call: ToolCall): Turn {
    Turn(FromTool, "", "", result, [], call)
  }

  function Appended(c: Conv, t: Turn): Conv {
    c.(turns := c.turns + [t], log := c.log + [t],
       lastSpeaker := if IsUserTurn(t) then t.nick else c.lastSpeaker)
  }

  predicate Enabled(c: Conv, s: Step) {
    match s
    case Ask(id, _, _, query, budget) => id !in c.asks && query != "" && budget > 0
    case Compose(id, _, _) => id in c.asks && c.asks[id].Asked?
    case ChatFails(id) => id in c.asks && c.asks[id].Thinking?
    case Reply(id, _, _) => id in c.asks && c.asks[id].Thinking?
    case ToolResult(id, _) => id in c.asks && c.asks[id].Tooling? && c.asks[id].done < |c.asks[id].calls|
    case CompactLook(id) => id !in c.jobs && |c.turns| >= COMPACTION_TRIGGER
    case CompactTake(id) => id in c.jobs && c.jobs[id].Looking?
    case CompactFails(id) => id in c.jobs && c.jobs[id].Taken?
    case CompactDone(id, _) => id in c.jobs && c.jobs[id].Taken? && c.jobs[id].cutoff <= |c.turns|
  }

  /** An exchange after one more tool result. */
  function WithResult(x: Exchange, m: Message): Exchange
    requires x.Tooling? && (x.done + 1 < |x.calls| || x.left > 1)
  {
    if x.done + 1 < |x.calls| then x.(request := x.request + [m], done := x.done + 1)
    else Thinking(x.left - 1, x.base, x.request + [m])
  }

  function Next(c: Conv, s: Step): Conv
    requires Enabled(c, s)
  {
    match s
    case Ask(id, nick, account, query, budget) =>
      Appended(c, UserTurn(nick, account, query)).(asks := c.asks[id := Asked(|c.log|, budget)])
    case Compose(id, sysPrompt, note) =>
      var base := Composed(c.turns, c.summary, sysPrompt, note, "");
      c.(asks := c.asks[id := Thinking(c.asks[id].budget, base, Repair(base))])
    case ChatFails(id) => c.(asks := c.asks - {id})
    case Reply(id, content, calls) =>
      var x, t := c.asks[id], ReplyTurn(content, calls);
      Appended(c, t).(asks :=
        if calls == [] then c.asks - {id}
        else c.asks[id := Tooling(x.left, x.base, x.request + [Rendered(t)], calls, 0)])
    case ToolResult(id, result) =>
      var x := c.asks[id];
      var t := ResultTurn(result, x.calls[x.done]);
      Appended(c, t).(asks :=
        if x.done + 1 == |x.calls| && x.left <= 1 then c.asks - {id} else c.asks[id := WithResult(x, Rendered(t))])
    case CompactLook(id) => c.(jobs := c.jobs[id := Looking(c.folded, c.commits)])
    case CompactTake(id) =>
      var j, cutoff := c.jobs[id], Cutoff(c.turns);
      c.(jobs := if cutoff == 0 then c.jobs - {id}
                 else c.jobs[id := Taken(j.already, j.since, c.dropped, |c.log|, cutoff, c.turns[..cutoff])])
    case CompactFails(id) => c.(jobs := c.jobs - {id})
    case CompactDone(id, text) => Committed(c, id, text)
  }

  /** The summary now stands for what it was built on and what it was given. */
  function Committed(c: Conv, id: nat, text: string): Conv
    requires id in c.jobs && c.jobs[id].Taken? && c.jobs[id].cutoff <= |c.turns|
  {
    var j := c.jobs[id];
    c.(turns := c.turns[j.cutoff..], summary := text, jobs := c.jobs - {id},
       folded := j.already + j.older, dropped := c.dropped + j.cutoff, commits := c.commits + 1,
       told := if j.base + j.cutoff > c.told then j.base + j.cutoff else c.told)
  }

  /** cs is the list of states a legal list of steps passes through. */
  ghost predicate IsRun(steps: seq<Step>, cs: seq<Conv>) {
    && |cs| == |steps| + 1
    && cs[0] == START
    && forall i :: 0 <= i < |steps| ==> Enabled(cs[i], steps[i]) && cs[i + 1] == Next(cs[i], steps[i])
  }

  lemma Extend(steps: seq<Step>, cs: seq<Conv>, s: Step) returns (more: seq<Step>, reached: seq<Conv>)
    requires IsRun(steps, cs) && Enabled(cs[|steps|], s)
    ensures more == steps + [s] && reached == cs + [Next(cs[|steps|], s)] && IsRun(more, reached)
  {
    more, reached := steps + [s], cs + [Next(cs[|steps|], s)];
  }

  // ----- Pairing and orphans of a request -----

  predicate IsResult(m: Message, call: ToolCall) {
    IsTool(m) && m.callId == call.id
  }

  /** Everything the request asks for is answered, and it has an orphan exactly when the repair pass left one in what
      was composed. */
  ghost predicate Sound(base: seq<Message>, request: seq<Message>) {
    WellPaired(request) && (NoOrphans(request) <==> OrphansAreDropped(base))
  }

  /** A request that waits for the results of its last message, the first done of which have come. */
  ghost predicate HalfSound(base: seq<Message>, request: seq<Message>, calls: seq<ToolCall>, done: nat) {
    && done < |calls| && done + 1 <= |request|
    && var b := |request| - 1 - done;
       && Sound(base, request[..b]) && IsCaller(request[b]) && request[b].calls == calls
       && forall j :: 0 <= j < done ==> IsResult(request[b + 1..][j], calls[j])
  }

  ghost predicate ExchangeFits(log: seq<Turn>, x: Exchange) {
    match x
    case Asked(at, budget) => at < |log| && IsUserTurn(log[at]) && budget > 0
    case Thinking(left, base, request) => Sound(base, request) && left > 0
    case Tooling(left, base, request, calls, done) => HalfSound(base, request, calls, done) && left > 0
  }

  /** What is held is the log less what was dropped. */
  ghost predicate Suffix(c: Conv) {
    c.dropped <= |c.log| && c.turns == c.log[c.dropped..]
  }

  ghost predicate Inv(c: Conv) {
    Suffix(c) && forall id :: id in c.asks ==> ExchangeFits(c.log, c.asks[id])
  }

  lemma AnsweredMore(m: Message, after: seq<Message>, more: seq<Message>)
    requires Answered(m, after)
    ensures Answered(m, after + more)
  {
    forall id | id in Ids(m)
      ensures exists k :: 0 <= k < |after + more| && (after + more)[k].callId == id
                && forall j :: 0 <= j <= k ==> IsTool((after + more)[j])
    {
      var k :| 0 <= k < |after| && after[k].callId == id && forall j :: 0 <= j <= k ==> IsTool(after[j]);
      assert (after + more)[k].callId == id;
    }
  }

  lemma PairedAppend(a: seq<Message>, b: seq<Message>)
    requires WellPaired(a) && WellPaired(b)
    ensures WellPaired(a + b)
  {
    var all := a + b;
    forall i | 0 <= i < |all| && IsCaller(all[i]) ensures Answered(all[i], all[i + 1..]) {
      if i < |a| {
        AnsweredMore(a[i], a[i + 1..], b);
        assert all[i + 1..] == a[i + 1..] + b;
      } else {
        assert all[i + 1..] == b[i - |a| + 1..];
      }
    }
  }

  lemma {:induction false} OwnerIs(ms: seq<Message>, h: nat, i: nat)
    requires h < i <= |ms| && !IsTool(ms[h])
    requires forall k :: h < k < i ==> IsTool(ms[k])
    ensures OwnerAt(ms, i) == OwnerOf(ms[h], ms[h + 1..])
    decreases i - h
  {
    if i > h + 1 {
      OwnerIs(ms, h, i - 1);
    }
  }

  /** Appending to a request whatever starts afresh and is clean neither adds nor removes an orphan. */
  lemma {:induction false} ScanAppend(o: Owner, p: Owner, a: seq<Message>, b: seq<Message>)
    requires o == p || (o.Caller? && p.Caller? && o.ids == p.ids)
    requires Scan(Nobody, b, true) && (b != [] ==> !IsTool(b[0]))
    ensures Scan(o, a, true) <==> Scan(p, a + b, true)
    decreases |a|
  {
    if a == [] {
      assert a + b == b;
      ScanForgets(p, Nobody, b, true);
    } else {
      assert (a + b)[1..] == a[1..] + b;
      if IsTool(a[0]) {
        ScanAppend(o, p, a[1..], b);
      } else {
        ScanAppend(OwnerOf(a[0], a[1..]), OwnerOf(a[0], a[1..] + b), a[1..], b);
      }
    }
  }

  lemma CleanAppend(a: seq<Message>, b: seq<Message>)
    requires NoOrphans(b) && (b != [] ==> !IsTool(b[0]))
    ensures NoOrphans(a + b) <==> NoOrphans(a)
  {
    ScanMeaning(a);
    ScanMeaning(b);
    ScanAppend(Nobody, Nobody, a, b);
    ScanMeaning(a + b);
  }

  /** A caller followed by one result per call is a closed block. */
  lemma BlockIsClean(m: Message, results: seq<Message>)
    requires IsCaller(m) && |results| == |m.calls|
    requires forall j :: 0 <= j < |results| ==> IsResult(results[j], m.calls[j])
    ensures WellPaired([m] + results) && NoOrphans([m] + results)
  {
    var ms := [m] + results;
    forall i | 0 <= i < |ms| && IsCaller(ms[i]) ensures Answered(ms[i], ms[i + 1..]) {
      assert i == 0 && ms[1..] == results;
      forall id | id in Ids(m)
        ensures exists k :: 0 <= k < |results| && results[k].callId == id
                  && forall j :: 0 <= j <= k ==> IsTool(results[j])
      {
        var k :| 0 <= k < |m.calls| && m.calls[k].id == id;
        assert results[k].callId == id;
      }
    }
    forall i | 0 <= i < |ms| && IsTool(ms[i]) ensures Claims(OwnerAt(ms, i), ms[i]) {
      assert forall k :: 0 < k < i ==> ms[k] == results[k - 1];
      OwnerIs(ms, 0, i);
      assert m.calls[i - 1] in m.calls;
    }
  }

  /** A caller and one result per call, appended to a sound request. */
  lemma ClosedRequest(base: seq<Message>, before: seq<Message>, m: Message, results: seq<Message>)
    requires Sound(base, before) && IsCaller(m) && |results| == |m.calls|
    requires forall j :: 0 <= j < |results| ==> IsResult(results[j], m.calls[j])
    ensures Sound(base, before + ([m] + results))
  {
    BlockIsClean(m, results);
    hide WellPaired, NoOrphans, OrphansAreDropped;
    PairedAppend(before, [m] + results);
    CleanAppend(before, [m] + results);
  }

  /** One more result on the request being built. */
  lemma RequestGrows(base: seq<Message>, request: seq<Message>, calls: seq<ToolCall>, done: nat, m: Message)
    requires HalfSound(base, request, calls, done) && IsResult(m, calls[done])
    ensures if done + 1 < |calls| then HalfSound(base, request + [m], calls, done + 1) else Sound(base, request + [m])
  {
    var b := |request| - 1 - done;
    var results := request[b + 1..] + [m];
    hide Sound;
    assert (request + [m])[b + 1..] == results && (request + [m])[..b] == request[..b];
    if done + 1 == |calls| {
      ClosedRequest(base, request[..b], request[b], results);
      assert request + [m] == request[..b] + ([request[b]] + results);
    }
  }

  lemma LogGrows(c: Conv, t: Turn)
    requires Inv(c)
    ensures Inv(Appended(c, t))
  {
    var d := Appended(c, t);
    assert d.turns == d.log[d.dropped..];
    forall id | id in d.asks ensures ExchangeFits(d.log, d.asks[id]) {
      assert ExchangeFits(c.log, c.asks[id]);
    }
  }

  lemma OneAsk(c: Conv, d: Conv, id: nat)
    requires Inv(c) && d.log == c.log && d.turns == c.turns && d.dropped == c.dropped
    requires forall k :: k in d.asks && k != id ==> k in c.asks && d.asks[k] == c.asks[k]
    requires id in d.asks ==> ExchangeFits(d.log, d.asks[id])
    ensures Inv(d)
  {
  }

  lemma ComposeKeeps(c: Conv, s: Step)
    requires Inv(c) && s.Compose? && Enabled(c, s)
    ensures Inv(Next(c, s))
  {
    assert ExchangeFits(c.log, c.asks[s.id]);
    var base := Composed(c.turns, c.summary, s.sysPrompt, s.note, "");
    RepairPairs(base);
    OrphansAfterRepair(base);
    hide WellPaired, NoOrphans, OrphansAreDropped, Composed, Repair;
    OneAsk(c, Next(c, s), s.id);
  }

  lemma ReplyKeeps(c: Conv, s: Step)
    requires Inv(c) && s.Reply? && Enabled(c, s)
    ensures Inv(Next(c, s))
  {
    hide Sound, Suffix;
    var x, t, d := c.asks[s.id], ReplyTurn(s.content, s.calls), Next(c, s);
    assert ExchangeFits(c.log, x);
    LogGrows(c, t);
    if s.calls != [] {
      assert (x.request + [Rendered(t)])[..|x.request|] == x.request;
      assert HalfSound(x.base, x.request + [Rendered(t)], s.calls, 0);
    }
    OneAsk(Appended(c, t), d, s.id);
  }

  lemma ResultKeeps(c: Conv, s: Step)
    requires Inv(c) && s.ToolResult? && Enabled(c, s)
    ensures Inv(Next(c, s))
  {
    hide Sound, HalfSound, Suffix;
    var x := c.asks[s.id];
    assert ExchangeFits(c.log, x);
    var t := ResultTurn(s.result, x.calls[x.done]);
    LogGrows(c, t);
    RequestGrows(x.base, x.request, x.calls, x.done, Rendered(t));
    OneAsk(Appended(c, t), Next(c, s), s.id);
  }

  lemma AskKeeps(c: Conv, s: Step)
    requires Inv(c) && s.Ask? && Enabled(c, s)
    ensures Inv(Next(c, s))
  {
    hide Sound, HalfSound, Suffix;
    var t := UserTurn(s.nick, s.account, s.query);
    LogGrows(c, t);
    OneAsk(Appended(c, t), Next(c, s), s.id);
  }

  lemma CommitKeeps(c: Conv, id: nat, text: string)
    requires Inv(c) && Enabled(c, CompactDone(id, text))
    ensures Inv(Committed(c, id, text))
  {
    hide ExchangeFits;
    var cutoff := c.jobs[id].cutoff;
    assert c.log[c.dropped..][cutoff..] == c.log[c.dropped + cutoff..];
  }

  lemma StepKeeps(c: Conv, s: Step)
    requires Inv(c) && Enabled(c, s)
    ensures Inv(Next(c, s))
  {
    match s {
      case Ask(_, _, _, _, _) => AskKeeps(c, s);
      case Compose(_, _, _) => ComposeKeeps(c, s);
      case Reply(_, _, _) => ReplyKeeps(c, s);
      case ToolResult(_, _) => ResultKeeps(c, s);
      case CompactDone(id, text) => CommitKeeps(c, id, text);
      case _ => hide ExchangeFits;
    }
  }

  lemma {:induction false} RunKeeps(steps: seq<Step>, cs: seq<Conv>, i: nat)
    requires IsRun(steps, cs) && i < |cs|
    ensures Inv(cs[i])
  {
    if i > 0 {
      RunKeeps(steps, cs, i - 1);
      StepKeeps(cs[i - 1], steps[i - 1]);
    }
  }

  /** In every run, however many exchanges and compactions overlap, every request the model is sent, those of later tool
      rounds included, answers all its calls in place, and it has an orphan exactly when what was composed had one
      outside the run of an incomplete caller. */
  lemma EveryRequestIsPaired(steps: seq<Step>, cs: seq<Conv>, i: nat, id: nat)
    requires IsRun(steps, cs) && i < |cs| && id in cs[i].asks && cs[i].asks[id].Thinking?
    ensures var x := cs[i].asks[id];
            WellPaired(x.request) && (NoOrphans(x.request) <==> OrphansAreDropped(x.base))
  {
    RunKeeps(steps, cs, i);
    assert ExchangeFits(cs[i].log, cs[i].asks[id]);
  }

  // ----- What a request shows -----

  /** The window is the end of the log from some index on. */
  lemma WindowIsSuffix(turns: seq<Turn>)
    ensures var w := Window(turns);
            && |w| <= MAX_TURNS && |w| <= |turns| && w == turns[|turns| - |w|..]
            && (w != [] ==> IsUserTurn(w[0]))
  {
  }

  /** The question of an exchange would be shown if its request were composed now. */
  predicate Shows(c: Conv, at: nat) {
    c.dropped <= at < |c.log| && |c.log| - at <= MAX_TURNS
  }

  lemma ShowsMeaning(c: Conv, at: nat)
    requires Suffix(c) && at < |c.log| && IsUserTurn(c.log[at])
    ensures var w := Window(c.turns);
            && |w| <= |c.log| && w == c.log[|c.log| - |w|..]
            && (at >= |c.log| - |w| <==> Shows(c, at))
  {
    WindowIsSuffix(c.turns);
    if c.dropped <= at {
      assert c.turns[at - c.dropped] == c.log[at];
    }
  }

  /** In every run, a composed request shows at most the last 24 turns of the log, from a user turn on, and its own
      question among them exactly when that was not dropped meanwhile and fewer than 24 turns came after it. */
  lemma ComposedRequest(steps: seq<Step>, cs: seq<Conv>, i: nat)
    requires IsRun(steps, cs) && i < |steps| && steps[i].Compose?
    ensures var c, s := cs[i], steps[i];
            var w, at, x := Window(c.turns), c.asks[s.id].at, cs[i + 1].asks[s.id];
            && |w| <= MAX_TURNS && |w| <= |c.log| && w == c.log[|c.log| - |w|..] && (w != [] ==> IsUserTurn(w[0]))
            && (at >= |c.log| - |w| <==> Shows(c, at))
            && x.base == Composed(c.turns, c.summary, s.sysPrompt, s.note, "") && x.request == Repair(x.base)
  {
    RunKeeps(steps, cs, i);
    var c := cs[i];
    assert ExchangeFits(c.log, c.asks[steps[i].id]);
    WindowIsSuffix(c.turns);
    ShowsMeaning(c, c.asks[steps[i].id].at);
    hide Window, Composed, Repair;
  }
}
