/** Conversation memory (orca/memory.go): turns, the window of them a request shows, and what a compaction does to
    them. */
module Conversation {
  import opened ToolRepair

  const MAX_TURNS := 24
  const COMPACTION_TRIGGER := 40

  datatype Speaker = FromUser | FromAssistant | FromTool

  datatype Turn = Turn(
    role: Speaker, nick: string, account: string, content: string, calls: seq<ToolCall>, call: ToolCall)

  const NO_CALL := ToolCall("", "", "")

  predicate IsUserTurn(t: Turn) { t.role == FromUser }
  predicate IsToolTurn(t: Turn) { t.role == FromTool }
  predicate IsCallerTurn(t: Turn) { t.role == FromAssistant && t.calls != [] }

  // ----- Composing a request -----

  /** The first user turn at or after an index, or the end. */
  function NextUser(turns: seq<Turn>, i: nat): (s: nat)
    requires i <= |turns|
    ensures i <= s <= |turns|
    ensures forall k :: i <= k < s ==> !IsUserTurn(turns[k])
    ensures s < |turns| ==> IsUserTurn(turns[s])
    decreases |turns| - i
  {
    if i == |turns| || IsUserTurn(turns[i]) then i else NextUser(turns, i + 1)
  }

  lemma NextUserLater(turns: seq<Turn>, i: nat)
    requires i < |turns| && !IsUserTurn(turns[i])
    ensures NextUser(turns, i) == NextUser(turns, i + 1)
  {
  }

  /** The turns a request shows: the last 24, less whatever precedes their first user turn. */
  function Window(turns: seq<Turn>): seq<Turn> {
    turns[NextUser(turns, if |turns| > MAX_TURNS then |turns| - MAX_TURNS else 0)..]
  }

  function Label(t: Turn): string {
    if t.account != "" && t.account != "*" then "[" + t.nick + " @ " + t.account + "]" else "[" + t.nick + "]"
  }

  function Rendered(t: Turn): Message {
    match t.role
    case FromUser => Message(User, Label(t) + " " + t.content, "", "", [])
    case FromAssistant => Message(Assistant, t.content, "", "", t.calls)
    case FromTool => Message(Tool, t.content, t.call.name, t.call.id, [])
  }

  function RenderedAll(turns: seq<Turn>): seq<Message> {
    seq(|turns|, i requires 0 <= i < |turns| => Rendered(turns[i]))
  }

  function SystemNote(text: string): Message {
    Message(System, text, "", "", [])
  }

  function Preamble(sysPrompt: string, summary: string): seq<Message> {
    [SystemNote(sysPrompt)] +
    if summary != "" then [SystemNote("Earlier in this conversation (summary):\n" + summary)] else []
  }

  function Coda(note: string, query: string): seq<Message> {
    (if note != "" then [SystemNote(note)] else []) +
    if query != "" then [Message(User, query, "", "", [])] else []
  }

  function Composed(turns: seq<Turn>, summary: string, sysPrompt: string, note: string, query: string): seq<Message> {
    Preamble(sysPrompt, summary) + RenderedAll(Window(turns)) + Coda(note, query)
  }

  /** How many of the oldest turns a compaction takes. */
  function Cutoff(turns: seq<Turn>): (c: nat)
    ensures c <= |turns|
  {
    if |turns| <= MAX_TURNS then 0 else |turns| - MAX_TURNS
  }

  method RenderTurns(turns: seq<Turn>) returns (out: seq<Message>)
    ensures out == RenderedAll(turns)
  {
    out := [];
    hide Rendered;
    for i := 0 to |turns|
      invariant |out| == i && forall k :: 0 <= k < i ==> out[k] == Rendered(turns[k])
    {
      out := out + [Rendered(turns[i])];
    }
  }

  class Thread {
    var turns: seq<Turn>
    var lastSpeaker: string
    var summary: string

    constructor ()
      ensures turns == [] && lastSpeaker == "" && summary == ""
    {
      turns, lastSpeaker, summary := [], "", "";
    }

    method Append(t: Turn)
      modifies this
      ensures turns == old(turns) + [t] && summary == old(summary)
      ensures lastSpeaker == if IsUserTurn(t) then t.nick else old(lastSpeaker)
    {
      turns := turns + [t];
      if t.role == FromUser {
        lastSpeaker := t.nick;
      }
    }

    /** Composes one request and repairs it. */
    method BuildMessages(sysPrompt: string, note: string, query: string) returns (out: seq<Message>)
      ensures out == Repair(Composed(turns, summary, sysPrompt, note, query))
    {
      out := [SystemNote(sysPrompt)];
      if summary != "" {
        out := out + [SystemNote("Earlier in this conversation (summary):\n" + summary)];
      }
      assert out == Preamble(sysPrompt, summary);
      var shown := RecentTurns();
      out := out + shown;
      var coda := [];
      if note != "" {
        coda := coda + [SystemNote(note)];
      }
      if query != "" {
        coda := coda + [Message(User, query, "", "", [])];
      }
      assert coda == Coda(note, query);
      out := RepairToolCallSequences(out + coda);
    }

    /** Renders the window a request shows. */
    method RecentTurns() returns (shown: seq<Message>)
      ensures shown == RenderedAll(Window(turns))
    {
      var start: nat := 0;
      if |turns| > MAX_TURNS {
        start := |turns| - MAX_TURNS;
      }
      assert Window(turns) == turns[NextUser(turns, start)..];
      hide Window, Rendered, RenderedAll, NextUser;
      while start < |turns| && turns[start].role != FromUser
        invariant start <= |turns| && Window(turns) == turns[NextUser(turns, start)..]
      {
        NextUserLater(turns, start);
        start := start + 1;
      }
      shown := RenderTurns(turns[start..]);
    }

    /** The first look of a compaction: whether there are enough turns, and the summary to build on. */
    method BeginCompaction() returns (enough: bool, already: string)
      ensures enough <==> |turns| >= COMPACTION_TRIGGER
      ensures already == summary
    {
      enough, already := true, summary;
      if |turns| < COMPACTION_TRIGGER {
        enough := false;
      }
    }

    /** The second: takes all but the last 24 turns, if there are more by now. */
    method TakeOlder() returns (cutoff: nat, older: seq<Turn>)
      ensures cutoff == Cutoff(turns) && older == turns[..cutoff]
    {
      cutoff, older := 0, [];
      if |turns| - MAX_TURNS <= 0 {
        return;
      }
      cutoff := |turns| - MAX_TURNS;
      older := turns[..cutoff];
    }

    /** Stores the summary and drops the turns it replaces; a cut beyond the turns held is a run-time fault, which
        comes after the summary was stored. */
    method CommitCompaction(cutoff: nat, text: string) returns (overran: bool)
      modifies this
      ensures summary == text && lastSpeaker == old(lastSpeaker)
      ensures overran <==> cutoff > |old(turns)|
      ensures turns == if overran then old(turns) else old(turns)[cutoff..]
    {
      summary := text;
      if cutoff > |turns| {
        return true;
      }
      turns := turns[cutoff..];
      return false;
    }
  }
}
