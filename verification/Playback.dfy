/** The one playback a channel may have in flight (orca/voice.go): arming preempts, disarming must not take a newer
    playback away. A context is a number; it is live until it is cancelled. */
module Playback {

  /** owner says which channel each context so far was made for. */
  datatype State = State(active: map<string, nat>, live: set<nat>, owner: seq<string>)

  datatype Step =
    | Arm(ch: string)
    | Disarm(ch: string, ctx: nat)
    | Cancel(ch: string)
    | ParentGone(ctxs: set<nat>)

  const START := State(map[], {}, [])

  /** A context is given back for the channel it was made for. */
  predicate Enabled(s: State, step: Step) {
    step.Disarm? ==> step.ctx < |s.owner| && s.owner[step.ctx] == step.ch
  }

  function Armed(s: State, ch: string): State {
    var number := |s.owner|;
    var others := if ch in s.active then s.live - {s.active[ch]} else s.live;
    State(s.active[ch := number], others + {number}, s.owner + [ch])
  }

  function Cancelled(s: State, ch: string): State {
    if ch in s.active then State(s.active - {ch}, s.live - {s.active[ch]}, s.owner) else s
  }

  function Disarmed(s: State, ch: string, ctx: nat): State {
    if ch in s.active && ctx in s.live then Cancelled(s, ch) else s
  }

  function Next(s: State, step: Step): State {
    match step
    case Arm(ch) => Armed(s, ch)
    case Disarm(ch, ctx) => Disarmed(s, ch, ctx)
    case Cancel(ch) => Cancelled(s, ch)
    case ParentGone(ctxs) => s.(live := s.live - ctxs)
  }

  /** A live context is the active one of the channel it was made for. */
  ghost predicate Valid(s: State) {
    && (forall ctx :: ctx in s.live ==> ctx < |s.owner| && s.owner[ctx] in s.active && s.active[s.owner[ctx]] == ctx)
    && (forall ch :: ch in s.active ==> s.active[ch] < |s.owner| && s.owner[s.active[ch]] == ch)
  }

  ghost predicate IsRun(steps: seq<Step>, ss: seq<State>) {
    && |ss| == |steps| + 1 && ss[0] == START
    && forall i :: 0 <= i < |steps| ==> Enabled(ss[i], steps[i]) && ss[i + 1] == Next(ss[i], steps[i])
  }

  lemma NextValid(s: State, step: Step)
    requires Valid(s) && Enabled(s, step)
    ensures Valid(Next(s, step))
  {
  }

  /** In every reachable state a channel has at most one live playback, the active one. */
  lemma {:induction false} OneAtATime(steps: seq<Step>, ss: seq<State>, i: nat)
    requires IsRun(steps, ss) && i < |ss|
    ensures Valid(ss[i])
    ensures forall a, b :: a in ss[i].live && b in ss[i].live && ss[i].owner[a] == ss[i].owner[b] ==> a == b
  {
    if i > 0 {
      OneAtATime(steps, ss, i - 1);
      NextValid(ss[i - 1], steps[i - 1]);
    }
  }

  /** Disarming ends exactly the given playback if it is still live, and otherwise changes nothing: a newer playback
      of the channel and those of all other channels stay as they are. */
  lemma DisarmKeepsNewer(s: State, ch: string, ctx: nat)
    requires Valid(s) && Enabled(s, Disarm(ch, ctx))
    ensures var t := Disarmed(s, ch, ctx);
            && t.live == s.live - {ctx}
            && t.active == if ctx in s.live then s.active - {ch} else s.active
  {
  }

  /** Arming silences the channel's earlier playbacks and no other channel's. */
  lemma ArmPreempts(s: State, ch: string)
    requires Valid(s)
    ensures var t := Armed(s, ch);
            forall c :: c in t.live <==> c == |s.owner| || (c in s.live && s.owner[c] != ch)
  {
  }

  class VoiceSubsystem {
    var activeTts: map<string, nat>
    var live: set<nat>
    ghost var owner: seq<string>
    var made: nat

    ghost function View(): State
      reads this
    {
      State(activeTts, live, owner)
    }

    ghost predicate Sound()
      reads this
    {
      made == |owner|
    }

    constructor ()
      ensures View() == START && Sound()
    {
      activeTts, live, owner, made := map[], {}, [], 0;
    }

    method ArmTts(ch: string) returns (ctx: nat)
      requires Sound()
      modifies this
      ensures Sound() && View() == Armed(old(View()), ch) && ctx == |old(owner)|
    {
      if ch in activeTts {
        live := live - {activeTts[ch]};
      }
      ctx := made;
      live, made, owner := live + {ctx}, made + 1, owner + [ch];
      activeTts := activeTts[ch := ctx];
    }

    method DisarmTts(ch: string, ctx: nat)
      requires Sound()
      modifies this
      ensures Sound() && View() == Disarmed(old(View()), ch, ctx)
    {
      if ch in activeTts {
        if ctx in live {
          live := live - {activeTts[ch]};
          activeTts := activeTts - {ch};
        }
      }
    }

    method CancelTts(ch: string)
      requires Sound()
      modifies this
      ensures Sound() && View() == Cancelled(old(View()), ch)
    {
      if ch in activeTts {
        live := live - {activeTts[ch]};
        activeTts := activeTts - {ch};
      }
    }
  }
}
