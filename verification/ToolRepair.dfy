/** The pass that restores tool-call pairing before a request is sent (repairToolCallSequences in
    orca/memory.go). */
module ToolRepair {
  import opened Basics

  datatype Role = System | User | Assistant | Tool

  datatype ToolCall = ToolCall(id: string, name: string, arguments: string)

  datatype Message = Message(role: Role, content: string, name: string, callId: string, calls: seq<ToolCall>)

  const PLACEHOLDER := "(tool call attempted; result unavailable)"

  predicate IsTool(m: Message) { m.role == Tool }

  predicate IsCaller(m: Message) { m.role == Assistant && m.calls != [] }

  function Ids(m: Message): set<string> {
    set c | c in m.calls :: c.id
  }

  /** The calls of a message are all answered by the run of tool messages directly after it. */
  ghost predicate Answered(m: Message, after: seq<Message>) {
    forall id :: id in Ids(m) ==>
      exists k :: 0 <= k < |after| && after[k].callId == id && forall j :: 0 <= j <= k ==> IsTool(after[j])
  }

  /** Every assistant message with tool calls is directly followed by a run of tool messages answering all of
      them. */
  ghost predicate WellPaired(ms: seq<Message>) {
    forall i :: 0 <= i < |ms| && IsCaller(ms[i]) ==> Answered(ms[i], ms[i + 1..])
  }

  /** Who a tool message belongs to: the nearest earlier message that is not a tool message. */
  datatype Owner = Nobody | Caller(ids: set<string>, answered: bool)

  ghost function OwnerOf(m: Message, after: seq<Message>): Owner {
    if IsCaller(m) then Caller(Ids(m), Answered(m, after)) else Nobody
  }

  ghost function OwnerAt(ms: seq<Message>, i: nat): Owner
    requires i <= |ms|
  {
    if i == 0 then Nobody
    else if IsTool(ms[i - 1]) then OwnerAt(ms, i - 1)
    else OwnerOf(ms[i - 1], ms[i..])
  }

  /** The owner of a tool message asked for it. */
  ghost predicate Claims(o: Owner, m: Message) {
    o.Caller? && m.callId in o.ids
  }

  ghost predicate NoOrphans(ms: seq<Message>) {
    forall i :: 0 <= i < |ms| && IsTool(ms[i]) ==> Claims(OwnerAt(ms, i), ms[i])
  }

  // ----- The pass -----

  /** The leading run of tool messages. */
  function RunLen(ms: seq<Message>): (n: nat)
    ensures n <= |ms|
    ensures forall i :: 0 <= i < n ==> IsTool(ms[i])
    ensures n < |ms| ==> !IsTool(ms[n])
  {
    if ms == [] || !IsTool(ms[0]) then 0 else 1 + RunLen(ms[1..])
  }

  function Sanitized(m: Message): Message {
    m.(calls := [], content := if m.content == "" then PLACEHOLDER else m.content)
  }

  function Answers(run: seq<Message>): set<string> {
    set t | t in run :: t.callId
  }

  predicate AnsweredBy(m: Message, run: seq<Message>) {
    Ids(m) <= Answers(run)
  }

  /** What the pass makes of a caller and its run. */
  function Flattened(m: Message, run: seq<Message>): seq<Message> {
    if AnsweredBy(m, run) then [m] + run else [Sanitized(m)]
  }

  function Repair(ms: seq<Message>): seq<Message>
    decreases |ms|
  {
    if ms == [] then []
    else if !IsCaller(ms[0]) then [ms[0]] + Repair(ms[1..])
    else
      var n := RunLen(ms[1..]);
      Flattened(ms[0], ms[1..][..n]) + Repair(ms[1..][n..])
  }

  /** What stands for the message at i and, for a caller, its run up to j. */
  function KeptAt(ms: seq<Message>, i: nat, j: nat): seq<Message>
    requires i < j <= |ms|
  {
    if IsCaller(ms[i]) then Flattened(ms[i], ms[i + 1..j]) else [ms[i]]
  }

  /** The output so far is right up to the message at i. */
  predicate Done(ms: seq<Message>, out: seq<Message>, i: nat)
    requires i <= |ms|
  {
    Repair(ms) == out + Repair(ms[i..])
  }

  lemma DoneAtStart(ms: seq<Message>)
    ensures Done(ms, [], 0)
  {
  }

  lemma DoneAtEnd(ms: seq<Message>, out: seq<Message>)
    requires Done(ms, out, |ms|)
    ensures out == Repair(ms)
  {
  }

  lemma RunIsEnough(m: Message, after: seq<Message>)
    ensures AnsweredBy(m, after[..RunLen(after)]) <==> Answered(m, after)
  {
  }

  lemma RunSplit(tail: seq<Message>)
    ensures var run, rest := tail[..RunLen(tail)], tail[RunLen(tail)..];
            tail == run + rest && (forall t :: t in run ==> IsTool(t)) && (rest != [] ==> !IsTool(rest[0]))
  {
  }

  lemma UnfoldCons(m: Message, tail: seq<Message>)
    requires IsCaller(m)
    ensures Repair([m] + tail) == Flattened(m, tail[..RunLen(tail)]) + Repair(tail[RunLen(tail)..])
  {
  }

  lemma PlainUnfold(m: Message, tail: seq<Message>)
    requires !IsCaller(m)
    ensures Repair([m] + tail) == [m] + Repair(tail)
  {
  }

  /** A caller is repaired together with the run after it; the run answers it or nothing does. */
  lemma CallerUnfold(m: Message, tail: seq<Message>)
    requires IsCaller(m)
    ensures var run, rest := tail[..RunLen(tail)], tail[RunLen(tail)..];
            && Repair([m] + tail) == Flattened(m, run) + Repair(rest)
            && tail == run + rest && (forall t :: t in run ==> IsTool(t)) && (rest != [] ==> !IsTool(rest[0]))
            && (AnsweredBy(m, run) <==> Answered(m, tail))
  {
    RunSplit(tail);
    UnfoldCons(m, tail);
    RunIsEnough(m, tail);
    hide *;
  }

  /** One step of the pass: a plain message alone, or a caller with its run. */
  lemma RepairStep(ms: seq<Message>, i: nat, j: nat)
    requires i < j <= |ms|
    requires j == if IsCaller(ms[i]) then i + 1 + RunLen(ms[i + 1..]) else i + 1
    ensures Repair(ms[i..]) == KeptAt(ms, i, j) + Repair(ms[j..])
  {
    var m, tail := ms[i], ms[i + 1..];
    assert ms[i..] == [m] + tail;
    if IsCaller(m) {
      assert tail[..j - i - 1] == ms[i + 1..j] && tail[j - i - 1..] == ms[j..];
      hide Repair, RunLen, Flattened;
      CallerUnfold(m, tail);
    } else {
      PlainUnfold(m, tail);
    }
  }

  lemma RunEnds(ms: seq<Message>, j: nat)
    requires j <= |ms| && (j < |ms| ==> ms[j].role != Tool)
    ensures RunLen(ms[j..]) == 0
  {
  }

  lemma SeenStep(want: set<string>, answered: set<string>, id: string)
    ensures want * (answered + {id}) == if id in want then want * answered + {id} else want * answered
  {
  }

  lemma RunStep(ms: seq<Message>, j0: nat, j: nat)
    requires j0 <= j < |ms| && ms[j].role == Tool
    ensures RunLen(ms[j..]) == 1 + RunLen(ms[j + 1..])
    ensures Answers(ms[j0..j + 1]) == Answers(ms[j0..j]) + {ms[j].callId}
  {
  }

  /** Collects which of the wanted ids the contiguous run of tool messages starting at j0 answers. */
  method ScanRun(ms: seq<Message>, j0: nat, want: set<string>) returns (seen: set<string>, j: nat)
    requires j0 <= |ms|
    ensures j == j0 + RunLen(ms[j0..]) && j <= |ms|
    ensures seen == want * Answers(ms[j0..j])
  {
    seen, j := {}, j0;
    assert Answers(ms[j0..j0]) == {};
    hide *;
    while j < |ms| && ms[j].role == Tool
      invariant j0 <= j <= |ms|
      invariant RunLen(ms[j0..]) == j - j0 + RunLen(ms[j..])
      invariant seen == want * Answers(ms[j0..j])
    {
      RunStep(ms, j0, j);
      SeenStep(want, Answers(ms[j0..j]), ms[j].callId);
      if ms[j].callId in want {
        seen := seen + {ms[j].callId};
      }
      j := j + 1;
    }
    RunEnds(ms, j);
  }

  /** Passes a caller and its run through, or flattens them. */
  method RepairCaller(ms: seq<Message>, i: nat) returns (kept: seq<Message>, j: nat)
    requires i < |ms| && ms[i].role == Assistant && ms[i].calls != []
    ensures IsCaller(ms[i]) && j == i + 1 + RunLen(ms[i + 1..]) && i < j <= |ms|
    ensures kept == KeptAt(ms, i, j)
  {
    var m := ms[i];
    var want := set c | c in m.calls :: c.id;
    var seen;
    seen, j := ScanRun(ms, i + 1, want);
    SubsetSize(seen, want);
    assert want <= Answers(ms[i + 1..j]) ==> seen == want;
    hide RunLen, Answers;
    if |seen| == |want| {
      kept := ms[i..j];
      assert ms[i..j] == [m] + ms[i + 1..j];
    } else {
      var san := m.(calls := []);
      if san.content == "" {
        san := san.(content := PLACEHOLDER);
      }
      kept := [san];
    }
  }

  lemma CallerStep(ms: seq<Message>, out: seq<Message>, i: nat, j: nat)
    requires i < j <= |ms| && Done(ms, out, i)
    requires j == if IsCaller(ms[i]) then i + 1 + RunLen(ms[i + 1..]) else i + 1
    ensures Done(ms, out + KeptAt(ms, i, j), j)
  {
    RepairStep(ms, i, j);
    hide Repair, KeptAt, RunLen, IsCaller;
    assert (out + KeptAt(ms, i, j)) + Repair(ms[j..]) == out + (KeptAt(ms, i, j) + Repair(ms[j..]));
  }

  lemma PlainStep(ms: seq<Message>, out: seq<Message>, i: nat)
    requires i < |ms| && Done(ms, out, i) && (ms[i].role != Assistant || ms[i].calls == [])
    ensures Done(ms, out + [ms[i]], i + 1)
  {
  }

  /** Walks the messages with two indices, passing complete sequences through verbatim and flattening the
      rest. */
  method RepairToolCallSequences(ms: seq<Message>) returns (out: seq<Message>)
    ensures out == Repair(ms)
  {
    out := [];
    var i := 0;
    DoneAtStart(ms);
    hide *;
    while i < |ms|
      invariant 0 <= i <= |ms| && Done(ms, out, i)
    {
      var j := i + 1;
      if ms[i].role != Assistant || |ms[i].calls| == 0 {
        PlainStep(ms, out, i);
        out := out + [ms[i]];
      } else {
        var kept;
        kept, j := RepairCaller(ms, i);
        CallerStep(ms, out, i, j);
        out := out + kept;
      }
      i := j;
    }
    DoneAtEnd(ms, out);
  }

  // ----- Pairing -----

  lemma {:induction false} RunLenAppend(run: seq<Message>, rest: seq<Message>)
    requires forall t :: t in run ==> IsTool(t)
    requires rest != [] ==> !IsTool(rest[0])
    ensures RunLen(run + rest) == |run|
  {
    if run == [] {
      assert run + rest == rest;
    } else {
      assert run[0] in run;
      assert (run + rest)[1..] == run[1..] + rest;
      RunLenAppend(run[1..], rest);
    }
  }

  lemma PairedCons(m: Message, ms: seq<Message>)
    ensures WellPaired([m] + ms) <==> (IsCaller(m) ==> Answered(m, ms)) && WellPaired(ms)
  {
    var all := [m] + ms;
    hide Answered;
    assert all[1..] == ms;
    forall i | 0 <= i < |ms| ensures all[i + 1] == ms[i] && all[i + 1 + 1..] == ms[i + 1..] {
    }
    if WellPaired(all) {
      forall i | 0 <= i < |ms| && IsCaller(ms[i]) ensures Answered(ms[i], ms[i + 1..]) {
        assert Answered(all[i + 1], all[i + 1 + 1..]);
      }
      if IsCaller(m) {
        assert Answered(all[0], all[0 + 1..]);
      }
    }
    if (IsCaller(m) ==> Answered(m, ms)) && WellPaired(ms) {
      forall i | 0 <= i < |all| && IsCaller(all[i]) ensures Answered(all[i], all[i + 1..]) {
        if i > 0 {
          assert Answered(ms[i - 1], ms[i - 1 + 1..]);
        }
      }
    }
  }

  lemma {:induction false} PairedRun(run: seq<Message>, ms: seq<Message>)
    requires forall t :: t in run ==> IsTool(t)
    ensures WellPaired(run + ms) <==> WellPaired(ms)
  {
    if run == [] {
      assert run + ms == ms;
    } else {
      assert run[0] in run;
      assert run + ms == [run[0]] + (run[1..] + ms);
      PairedCons(run[0], run[1..] + ms);
      PairedRun(run[1..], ms);
    }
  }

  lemma {:induction false} RepairStart(ms: seq<Message>)
    requires ms != [] ==> !IsTool(ms[0])
    ensures Repair(ms) != [] ==> !IsTool(Repair(ms)[0])
    ensures Repair(ms) == [] <==> ms == []
  {
  }

  /** What the pass lets out is well paired, whatever went in. */
  lemma {:induction false} RepairPairs(ms: seq<Message>)
    ensures WellPaired(Repair(ms))
    decreases |ms|
  {
    if ms != [] {
      var m, tail := ms[0], ms[1..];
      assert ms == [m] + tail;
      hide Repair, RunLen, WellPaired, Flattened;
      if !IsCaller(m) {
        RepairPairs(tail);
        PlainUnfold(m, tail);
        PairedCons(m, Repair(tail));
      } else {
        var n := RunLen(tail);
        CallerUnfold(m, tail);
        RepairPairs(tail[n..]);
        RepairStart(tail[n..]);
        PairedBlock(m, tail[..n], Repair(tail[n..]));
      }
    }
  }

  lemma PairedBlock(m: Message, run: seq<Message>, rest: seq<Message>)
    requires IsCaller(m) && (forall t :: t in run ==> IsTool(t)) && WellPaired(rest)
    requires rest != [] ==> !IsTool(rest[0])
    ensures WellPaired(Flattened(m, run) + rest)
  {
    if AnsweredBy(m, run) {
      AnsweredBlock(m, run, rest);
      assert [m] + run + rest == [m] + (run + rest);
    } else {
      PairedCons(Sanitized(m), rest);
    }
  }

  lemma AnsweredBlock(m: Message, run: seq<Message>, rest: seq<Message>)
    requires AnsweredBy(m, run) && (forall t :: t in run ==> IsTool(t)) && WellPaired(rest)
    requires rest != [] ==> !IsTool(rest[0])
    ensures WellPaired([m] + (run + rest))
  {
    RunLenAppend(run, rest);
    assert (run + rest)[..|run|] == run;
    RunIsEnough(m, run + rest);
    hide WellPaired, Answered;
    PairedRun(run, rest);
    PairedCons(m, run + rest);
  }

  /** The pass is the identity on exactly the well-paired lists. */
  lemma {:induction false} RepairIdentity(ms: seq<Message>)
    ensures Repair(ms) == ms <==> WellPaired(ms)
    decreases |ms|
  {
    if ms == [] {
      assert WellPaired([]);
    } else {
      var m, tail := ms[0], ms[1..];
      assert ms == [m] + tail;
      hide Repair, RunLen, WellPaired, Flattened, Answered, AnsweredBy;
      PairedCons(m, tail);
      if !IsCaller(m) {
        RepairIdentity(tail);
        PlainUnfold(m, tail);
        SameTail([m], Repair(tail), tail);
      } else {
        var n := RunLen(tail);
        CallerUnfold(m, tail);
        PairedRun(tail[..n], tail[n..]);
        RepairIdentity(tail[n..]);
        IdentityBlock(m, tail[..n], Repair(tail[n..]), tail[n..]);
      }
    }
  }

  lemma SameTail(a: seq<Message>, b: seq<Message>, c: seq<Message>)
    ensures a + b == a + c <==> b == c
  {
    assert (a + b)[|a|..] == b && (a + c)[|a|..] == c;
  }

  lemma IdentityBlock(m: Message, run: seq<Message>, repaired: seq<Message>, rest: seq<Message>)
    requires IsCaller(m)
    ensures Flattened(m, run) + repaired == [m] + (run + rest) <==> AnsweredBy(m, run) && repaired == rest
  {
    hide AnsweredBy;
    if AnsweredBy(m, run) {
      assert [m] + (run + rest) == ([m] + run) + rest;
      SameTail([m] + run, repaired, rest);
    } else {
      assert (Flattened(m, run) + repaired)[0] == Sanitized(m) != m;
    }
  }

  lemma RepairIdempotent(ms: seq<Message>)
    ensures Repair(Repair(ms)) == Repair(ms)
  {
    RepairPairs(ms);
    RepairIdentity(Repair(ms));
  }

  // ----- What is kept -----

  function NonTools(ms: seq<Message>): seq<Message> {
    if ms == [] then [] else (if IsTool(ms[0]) then [] else [ms[0]]) + NonTools(ms[1..])
  }

  /** The messages other than tool messages, each as the pass should leave it. */
  ghost function Outcomes(ms: seq<Message>): seq<Message> {
    if ms == [] then []
    else (if IsTool(ms[0]) then []
          else if IsCaller(ms[0]) && !Answered(ms[0], ms[1..]) then [Sanitized(ms[0])]
          else [ms[0]]) + Outcomes(ms[1..])
  }

  lemma NonToolsCons(m: Message, ms: seq<Message>)
    ensures NonTools([m] + ms) == if IsTool(m) then NonTools(ms) else [m] + NonTools(ms)
  {
  }

  lemma {:induction false} NonToolsAppend(a: seq<Message>, b: seq<Message>)
    ensures NonTools(a + b) == NonTools(a) + NonTools(b)
  {
    if a == [] {
      assert a + b == b;
    } else {
      assert (a + b)[1..] == a[1..] + b;
      NonToolsAppend(a[1..], b);
    }
  }

  lemma {:induction false} RunHasNoNonTools(run: seq<Message>, rest: seq<Message>)
    requires forall t :: t in run ==> IsTool(t)
    ensures NonTools(run) == [] && Outcomes(run + rest) == Outcomes(rest)
  {
    if run == [] {
      assert run + rest == rest;
    } else {
      assert run[0] in run;
      assert (run + rest)[1..] == run[1..] + rest;
      RunHasNoNonTools(run[1..], rest);
    }
  }

  /** Every message other than a tool message survives, in order: unchanged unless it is an assistant message whose
      calls are not all answered, which loses its calls and keeps its content, or gets the placeholder. */
  lemma {:induction false} RepairKeeps(ms: seq<Message>)
    ensures NonTools(Repair(ms)) == Outcomes(ms)
    decreases |ms|
  {
    if ms != [] {
      var m, tail := ms[0], ms[1..];
      assert ms == [m] + tail;
      OutcomesCons(m, tail);
      hide Repair, RunLen, Flattened, Answered, AnsweredBy, NonTools, Outcomes;
      if !IsCaller(m) {
        RepairKeeps(tail);
        PlainUnfold(m, tail);
        NonToolsCons(m, Repair(tail));
      } else {
        var n := RunLen(tail);
        CallerUnfold(m, tail);
        RepairKeeps(tail[n..]);
        RunHasNoNonTools(tail[..n], tail[n..]);
        KeptBlock(m, tail[..n], Repair(tail[n..]));
      }
    }
  }

  lemma OutcomesCons(m: Message, ms: seq<Message>)
    ensures Outcomes([m] + ms) == if IsTool(m) then Outcomes(ms)
                                  else [if IsCaller(m) && !Answered(m, ms) then Sanitized(m) else m] + Outcomes(ms)
  {
  }

  lemma KeptBlock(m: Message, run: seq<Message>, rest: seq<Message>)
    requires IsCaller(m) && NonTools(run) == []
    ensures NonTools(Flattened(m, run) + rest) == [if AnsweredBy(m, run) then m else Sanitized(m)] + NonTools(rest)
  {
    hide NonTools, AnsweredBy;
    if AnsweredBy(m, run) {
      assert ([m] + run) + rest == [m] + (run + rest);
      NonToolsAppend(run, rest);
      NonToolsCons(m, run + rest);
    } else {
      NonToolsCons(Sanitized(m), rest);
    }
  }

  lemma {:induction false} OutcomesMatch(ms: seq<Message>)
    ensures |Outcomes(ms)| == |NonTools(ms)|
    ensures forall i :: 0 <= i < |Outcomes(ms)| ==>
              || Outcomes(ms)[i] == NonTools(ms)[i]
              || (IsCaller(NonTools(ms)[i]) && Outcomes(ms)[i] == Sanitized(NonTools(ms)[i]))
  {
    if ms != [] {
      OutcomesMatch(ms[1..]);
    }
  }

  // ----- Orphans -----

  /** Every tool message is either claimed by its owner or owned by a caller whose sequence is incomplete. */
  ghost predicate OrphansAreDropped(ms: seq<Message>) {
    forall i :: 0 <= i < |ms| && IsTool(ms[i]) ==>
      Claims(OwnerAt(ms, i), ms[i]) || (OwnerAt(ms, i).Caller? && !OwnerAt(ms, i).answered)
  }

  /** A front-to-back scan that remembers the current owner; strict asks for a claim from every owner, lenient only
      from owners whose sequence is complete. */
  ghost predicate Scan(o: Owner, ms: seq<Message>, strict: bool)
    decreases |ms|
  {
    if ms == [] then true
    else if IsTool(ms[0]) then
      (Claims(o, ms[0]) || (!strict && o.Caller? && !o.answered)) && Scan(o, ms[1..], strict)
    else Scan(OwnerOf(ms[0], ms[1..]), ms[1..], strict)
  }

  lemma {:induction false} ScanFrom(ms: seq<Message>, i: nat, strict: bool)
    requires i <= |ms|
    ensures Scan(OwnerAt(ms, i), ms[i..], strict) <==>
            forall k :: i <= k < |ms| && IsTool(ms[k]) ==>
              Claims(OwnerAt(ms, k), ms[k]) || (!strict && OwnerAt(ms, k).Caller? && !OwnerAt(ms, k).answered)
    decreases |ms| - i
  {
    if i < |ms| {
      ScanFrom(ms, i + 1, strict);
      assert ms[i..][1..] == ms[i + 1..];
    }
  }

  lemma ScanMeaning(ms: seq<Message>)
    ensures Scan(Nobody, ms, true) <==> NoOrphans(ms)
    ensures Scan(Nobody, ms, false) <==> OrphansAreDropped(ms)
  {
    assert ms[0..] == ms;
    ScanFrom(ms, 0, true);
    ScanFrom(ms, 0, false);
  }

  lemma {:induction false} ScanRunOf(o: Owner, run: seq<Message>, rest: seq<Message>, strict: bool)
    requires forall t :: t in run ==> IsTool(t)
    ensures Scan(o, run + rest, strict) <==>
            (forall t :: t in run ==> Claims(o, t) || (!strict && o.Caller? && !o.answered)) && Scan(o, rest, strict)
  {
    if run == [] {
      assert run + rest == rest;
    } else {
      assert (run + rest)[1..] == run[1..] + rest;
      assert run == [run[0]] + run[1..];
      ScanRunOf(o, run[1..], rest, strict);
    }
  }

  /** At a message that is not a tool message, the remembered owner no longer matters. */
  lemma ScanForgets(o: Owner, p: Owner, ms: seq<Message>, strict: bool)
    requires ms != [] ==> !IsTool(ms[0])
    ensures Scan(o, ms, strict) == Scan(p, ms, strict)
  {
  }

  predicate AllAsked(m: Message, run: seq<Message>) {
    forall t :: t in run ==> t.callId in Ids(m)
  }

  /** Scanning a caller and its run comes down to the ids the run carries, then to the rest. */
  lemma CallerScan(m: Message, run: seq<Message>, rest: seq<Message>, strict: bool)
    requires IsCaller(m) && (forall t :: t in run ==> IsTool(t)) && (rest != [] ==> !IsTool(rest[0]))
    ensures Scan(Nobody, [m] + (run + rest), strict) <==>
            (AllAsked(m, run) || (!strict && !AnsweredBy(m, run))) && Scan(Nobody, rest, strict)
  {
    var tail := run + rest;
    assert ([m] + tail)[1..] == tail;
    RunLenAppend(run, rest);
    assert tail[..|run|] == run;
    RunIsEnough(m, tail);
    var o := OwnerOf(m, tail);
    ScanRunOf(o, run, rest, strict);
    ScanForgets(o, Nobody, rest, strict);
  }

  lemma {:induction false} RepairScan(ms: seq<Message>)
    ensures Scan(Nobody, Repair(ms), true) <==> Scan(Nobody, ms, false)
    decreases |ms|
  {
    if ms != [] {
      var m, tail := ms[0], ms[1..];
      assert ms == [m] + tail;
      hide Repair, RunLen, Flattened, Answered, AnsweredBy, Scan;
      if !IsCaller(m) {
        RepairScan(tail);
        PlainUnfold(m, tail);
        PlainScan(m, tail, false);
        PlainScan(m, Repair(tail), true);
      } else {
        var n := RunLen(tail);
        RepairScan(tail[n..]);
        CallerUnfold(m, tail);
        BlockScan(m, tail[..n], tail[n..]);
      }
    }
  }

  /** A message that asks for nothing: a tool message there is an orphan, anything else starts afresh. */
  lemma PlainScan(m: Message, ms: seq<Message>, strict: bool)
    requires !IsCaller(m)
    ensures Scan(Nobody, [m] + ms, strict) <==> !IsTool(m) && Scan(Nobody, ms, strict)
  {
  }

  lemma BlockScan(m: Message, run: seq<Message>, rest: seq<Message>)
    requires IsCaller(m) && (forall t :: t in run ==> IsTool(t)) && (rest != [] ==> !IsTool(rest[0]))
    requires Scan(Nobody, Repair(rest), true) <==> Scan(Nobody, rest, false)
    ensures Scan(Nobody, Flattened(m, run) + Repair(rest), true) <==> Scan(Nobody, [m] + (run + rest), false)
  {
    RepairStart(rest);
    CallerScan(m, run, rest, false);
    FlattenedScan(m, run, Repair(rest));
    hide *;
  }

  lemma FlattenedScan(m: Message, run: seq<Message>, rest: seq<Message>)
    requires IsCaller(m) && (forall t :: t in run ==> IsTool(t)) && (rest != [] ==> !IsTool(rest[0]))
    ensures Scan(Nobody, Flattened(m, run) + rest, true) <==>
            (AnsweredBy(m, run) ==> AllAsked(m, run)) && Scan(Nobody, rest, true)
  {
    hide Scan, AnsweredBy, AllAsked;
    if AnsweredBy(m, run) {
      CallerScan(m, run, rest, true);
      assert [m] + run + rest == [m] + (run + rest);
    } else {
      PlainScan(Sanitized(m), rest, true);
    }
  }

  /** The repaired list is free of orphaned tool messages exactly when every orphan of the input sits in the run of
      a caller that is not fully answered: such runs are dropped whole, all other orphans pass through. */
  lemma OrphansAfterRepair(ms: seq<Message>)
    ensures NoOrphans(Repair(ms)) <==> OrphansAreDropped(ms)
  {
    ScanMeaning(ms);
    ScanMeaning(Repair(ms));
    RepairScan(ms);
  }

  /** A leading tool message with no assistant before it survives the pass. */
  lemma LeadingOrphanSurvives(t: Message, ms: seq<Message>)
    requires IsTool(t)
    ensures !NoOrphans(Repair([t] + ms))
  {
  }

}
