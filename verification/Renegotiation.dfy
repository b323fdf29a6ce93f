/** Keeping a peer's session description in step with its senders (voice.go): server offers, client answers and the
    flag that remembers a renegotiation which came too early. Signalling states are those of section 3.2 of RFC 8829;
    each handler is one atomic step. */
module Renegotiation {
  import opened TrackIds

  datatype Signal = Stable | HaveLocalOffer | HaveRemoteOffer

  /** One peer's connection. negotiated are the senders of a completed exchange, offered those only the outstanding
      server offer describes, waiting those attached at the join that no description covers yet; queued counts the
      renegotiations that were called for and have not run; greeted says that an offer of the client was answered. */
  datatype Link = Link(signal: Signal, pending: bool, senders: set<Track>, negotiated: set<Track>, offered: set<Track>,
                       queued: nat, waiting: set<Track>, greeted: bool)

  function Uncovered(p: Link): set<Track> {
    p.senders - p.negotiated - p.offered
  }

  // ----- What each handler does to one peer -----

  function Opened(initial: set<Track>): Link {
    Link(Stable, false, initial, {}, {}, 0, initial, false)
  }

  /** A new sender and a call for renegotiation. A track attached a second time has a sender no exchange covered. */
  function Added(p: Link, t: Track): Link {
    p.(senders := p.senders + {t}, negotiated := p.negotiated - {t}, offered := p.offered - {t},
       waiting := p.waiting - {t}, queued := p.queued + 1)
  }

  /** A departure removes senders without renegotiating. */
  function Removed(p: Link, ts: set<Track>): Link {
    p.(senders := p.senders - ts, negotiated := p.negotiated - ts, offered := p.offered - ts, waiting := p.waiting - ts)
  }

  function Renegotiated(p: Link, offerOk: bool): Link {
    if p.signal != Stable then p.(pending := true)
    else if !offerOk then p
    else p.(signal := HaveLocalOffer, offered := p.senders - p.negotiated, waiting := {})
  }

  /** good: the answer can be applied. The remembered renegotiation runs at once. */
  function Answered(p: Link, good: bool, offerOk: bool): Link {
    if p.signal != HaveLocalOffer || !good then p
    else
      var q := p.(signal := Stable, negotiated := p.negotiated + p.offered, offered := {}, pending := false);
      if p.pending then Renegotiated(q, offerOk) else q
  }

  /** good: the offer can be applied, unless a server offer is outstanding; fit are the senders its media sections have
      room for. What is left over calls for a renegotiation. */
  function ClientOffered(p: Link, good: bool, answerOk: bool, fit: set<Track>): Link {
    if p.signal == HaveLocalOffer || !good then p
    else if !answerOk then p.(signal := HaveRemoteOffer)
    else
      var q := p.(signal := Stable, negotiated := p.negotiated + fit * p.senders, waiting := {}, greeted := true);
      if q.negotiated != q.senders then q.(queued := q.queued + 1) else q
  }

  // ----- Runs -----

  datatype Step =
    | Add(t: Track)
    | Remove(ts: set<Track>)
    | RunQueued(offerOk: bool)
    | Answer(good: bool, offerOk: bool)
    | Offer(good: bool, answerOk: bool, fit: set<Track>)

  predicate Enabled(p: Link, step: Step) {
    step.RunQueued? ==> p.queued > 0
  }

  function Next(p: Link, step: Step): Link
    requires Enabled(p, step)
  {
    match step
    case Add(t) => Added(p, t)
    case Remove(ts) => Removed(p, ts)
    case RunQueued(offerOk) => Renegotiated(p.(queued := p.queued - 1), offerOk)
    case Answer(good, offerOk) => Answered(p, good, offerOk)
    case Offer(good, answerOk, fit) => ClientOffered(p, good, answerOk, fit)
  }

  ghost predicate IsRun(steps: seq<Step>, ps: seq<Link>) {
    && |ps| == |steps| + 1 && (exists initial :: ps[0] == Opened(initial))
    && forall i :: 0 <= i < |steps| ==> Enabled(ps[i], steps[i]) && ps[i + 1] == Next(ps[i], steps[i])
  }

  // ----- What every step keeps -----

  /** Coverage only speaks of attached senders; an offer is outstanding only in its state; nothing waits for the
      client's first offer once a server offer or an answered client offer came. */
  ghost predicate Sound(p: Link) {
    && p.negotiated + p.offered + p.waiting <= p.senders
    && p.negotiated !! p.offered && p.waiting !! p.negotiated
    && (p.offered != {} ==> p.signal == HaveLocalOffer)
    && (p.waiting != {} ==> p.signal != HaveLocalOffer && !p.greeted)
  }

  /** A sender that neither a completed exchange nor the outstanding offer covers was there at the join and still waits
      for the client's first offer, or a renegotiation is queued, or it is remembered while an exchange is in flight.
      A flag on a stable peer remembers nothing. */
  ghost predicate Remembered(p: Link) {
    Uncovered(p) <= p.waiting || (p.pending && p.signal != Stable) || p.queued > 0
  }

  /** The flag is only up while an exchange is in flight. */
  predicate FlagHonest(p: Link) {
    p.pending ==> p.signal != Stable
  }

  /** The last renegotiation called for is dropped because the server's offer could not be created. */
  predicate Loses(p: Link, step: Step) {
    match step
    case RunQueued(offerOk) =>
      !offerOk && p.signal == Stable && p.queued == 1 && !(Uncovered(p) <= p.waiting)
    case Answer(good, offerOk) =>
      !offerOk && p.signal == HaveLocalOffer && good && p.pending && p.queued == 0 && Uncovered(p) != {}
    case _ => false
  }

  lemma NextSound(p: Link, step: Step)
    requires Sound(p) && Enabled(p, step)
    ensures Sound(Next(p, step))
  {
  }

  /** A step forgets an uncovered sender exactly when it fails to create the offer that was the last one called for. */
  lemma NextRemembered(p: Link, step: Step)
    requires Sound(p) && Remembered(p) && Enabled(p, step)
    ensures Remembered(Next(p, step)) <==> !Loses(p, step)
  {
  }

  /** The flag goes up with no exchange in flight exactly when an offer is answered after an answer to an earlier one
      could not be produced and a renegotiation came in between: answering an offer does not take the flag down. */
  lemma NextFlag(p: Link, step: Step)
    requires FlagHonest(p) && Enabled(p, step)
    ensures FlagHonest(Next(p, step)) <==>
            !(step.Offer? && step.good && step.answerOk && p.signal == HaveRemoteOffer && p.pending)
  {
  }

  lemma NextSignal(p: Link, step: Step)
    requires Enabled(p, step) && p.signal != HaveRemoteOffer && (step.Offer? ==> step.answerOk)
    ensures Next(p, step).signal != HaveRemoteOffer
  {
  }

  /** Renegotiation is never lost: in every run in which server offers can be created, whatever the client sends and
      whether or not it can be answered, every sender is covered, waits for the first offer, or is remembered. */
  lemma {:induction false} NeverLost(steps: seq<Step>, ps: seq<Link>, i: nat)
    requires IsRun(steps, ps) && i < |ps|
    requires forall j :: 0 <= j < |steps| ==>
               (steps[j].RunQueued? ==> steps[j].offerOk) && (steps[j].Answer? ==> steps[j].offerOk)
    ensures Sound(ps[i]) && Remembered(ps[i])
  {
    if i == 0 {
      var initial :| ps[0] == Opened(initial);
      assert Uncovered(ps[0]) == initial;
    } else {
      NeverLost(steps, ps, i - 1);
      NextSound(ps[i - 1], steps[i - 1]);
      NextRemembered(ps[i - 1], steps[i - 1]);
    }
  }

  /** In every run in which answers can be produced, even if offers cannot, the flag is only up while the peer is not
      stable. */
  lemma {:induction false} FlagMeansBusy(steps: seq<Step>, ps: seq<Link>, i: nat)
    requires IsRun(steps, ps) && i < |ps|
    requires forall j :: 0 <= j < |steps| ==> (steps[j].Offer? ==> steps[j].answerOk)
    ensures FlagHonest(ps[i]) && ps[i].signal != HaveRemoteOffer
  {
    if i > 0 {
      FlagMeansBusy(steps, ps, i - 1);
      NextFlag(ps[i - 1], steps[i - 1]);
      NextSignal(ps[i - 1], steps[i - 1]);
    }
  }

  // ----- Catching up -----

  /** All queued renegotiations run. */
  function Drained(p: Link): Link
    decreases p.queued
  {
    if p.queued == 0 then p else Drained(Next(p, RunQueued(true)))
  }

  lemma {:induction false} DrainedKeeps(p: Link)
    requires Sound(p) && Remembered(p) && p.signal != HaveRemoteOffer && p.waiting == {}
    ensures var d := Drained(p);
            && Sound(d) && Remembered(d) && (FlagHonest(p) ==> FlagHonest(d)) && d.signal != HaveRemoteOffer
            && d.waiting == {} && d.queued == 0 && d.senders == p.senders
    decreases p.queued
  {
    if p.queued > 0 {
      var q := Next(p, RunQueued(true));
      NextSound(p, RunQueued(true));
      NextRemembered(p, RunQueued(true));
      DrainedKeeps(q);
    }
  }

  /** Once the queued renegotiations have run, at most two answers by the client bring every sender into a completed
      exchange, however many tracks piled up meanwhile, and a flag that was honest is down. */
  lemma TwoAnswersSettle(p: Link)
    requires Sound(p) && Remembered(p) && p.signal != HaveRemoteOffer && p.waiting == {}
    ensures var q := Answered(Answered(Drained(p), true, true), true, true);
            && q.negotiated == q.senders == p.senders && q.signal == Stable && q.queued == 0
            && (FlagHonest(p) ==> !q.pending)
  {
    DrainedKeeps(p);
    var d := Drained(p);
    if d.pending && d.signal == HaveLocalOffer {
      assert Answered(d, true, true).senders == d.senders;
    } else {
      assert d.negotiated + d.offered == d.senders;
    }
  }

  /** A client that offers again after its offer could not be answered gets there too. */
  lemma SecondOfferSettles(p: Link, fit: set<Track>)
    requires Sound(p) && Remembered(p) && p.signal == HaveRemoteOffer
    ensures var q := Answered(Answered(Drained(ClientOffered(p, true, true, fit)), true, true), true, true);
            q.negotiated == q.senders == p.senders && q.signal == Stable && q.queued == 0
  {
    NextSound(p, Offer(true, true, fit));
    NextRemembered(p, Offer(true, true, fit));
    TwoAnswersSettle(ClientOffered(p, true, true, fit));
  }

  // ----- The two halves of the postponement -----

  /** The test of the signalling state and the raising of the flag are not one step in the code: in a state a run
      reaches, when the answer is applied between them, the flag is raised on a stable peer, the new sender is not
      covered, nothing is queued, and no later answer takes the flag down. The renegotiation is lost. */
  lemma LateFlagStrands()
    ensures exists steps, ps: seq<Link> ::
      && IsRun(steps, ps)
      && var p := ps[|ps| - 1];
         && p.queued == 1 && p.signal != Stable
         && var late := Answered(p.(queued := 0), true, true).(pending := true);
            && late.signal == Stable && late.queued == 0 && !Remembered(late)
            && forall good, offerOk :: Answered(late, good, offerOk) == late
  {
    var a, b := Track("ann", "audio", "x"), Track("bob", "audio", "y");
    var steps := [Offer(true, true, {}), Add(a), RunQueued(true), Add(b)];
    var p0 := Opened({});
    var p1 := Next(p0, steps[0]);
    var p2 := Next(p1, steps[1]);
    var p3 := Next(p2, steps[2]);
    var p4 := Next(p3, steps[3]);
    assert IsRun(steps, [p0, p1, p2, p3, p4]);
    assert p4 == Link(HaveLocalOffer, false, {a, b}, {}, {a}, 1, {}, true);
    var late := Answered(p4.(queued := 0), true, true).(pending := true);
    assert b in Uncovered(late) && late.waiting == {};
    assert [p0, p1, p2, p3, p4][4] == p4;
  }

  /** A run that ends with the flag up on a stable peer: an offer that could not be answered, a new sender, its
      renegotiation, and the offer again. */
  lemma FlagOnStablePeer()
    ensures exists steps, ps: seq<Link> :: IsRun(steps, ps) && !FlagHonest(ps[|ps| - 1])
  {
    var steps := [Offer(true, false, {}), Add(Track("ann", "audio", "x")), RunQueued(true), Offer(true, true, {})];
    var p0 := Opened({});
    var p1 := Next(p0, steps[0]);
    var p2 := Next(p1, steps[1]);
    var p3 := Next(p2, steps[2]);
    var p4 := Next(p3, steps[3]);
    assert IsRun(steps, [p0, p1, p2, p3, p4]);
    assert [p0, p1, p2, p3, p4][4] == p4;
  }

  // ----- The peer as an object -----

  class VoicePeer {
    var signal: Signal
    var pendingRenegotiate: bool
    var senders: set<Track>
    var negotiated: set<Track>
    var offered: set<Track>
    ghost var queued: nat
    ghost var waiting: set<Track>
    ghost var greeted: bool

    ghost function View(): Link
      reads this
    {
      Link(signal, pendingRenegotiate, senders, negotiated, offered, queued, waiting, greeted)
    }

    constructor (initial: set<Track>)
      ensures View() == Opened(initial)
    {
      signal, pendingRenegotiate, senders, negotiated, offered := Stable, false, initial, {}, {};
      queued, waiting, greeted := 0, initial, false;
    }

    method AddTrack(t: Track)
      modifies this
      ensures View() == Added(old(View()), t)
    {
      senders, negotiated, offered := senders + {t}, negotiated - {t}, offered - {t};
      waiting, queued := waiting - {t}, queued + 1;
    }

    method RemoveTracks(ts: set<Track>)
      modifies this
      ensures View() == Removed(old(View()), ts)
    {
      senders, negotiated, offered := senders - ts, negotiated - ts, offered - ts;
      waiting := waiting - ts;
    }

    /** Sends a server offer, or remembers that one is due. */
    method RenegotiateFor(offerOk: bool) returns (sent: bool)
      modifies this
      ensures View() == Renegotiated(old(View()), offerOk)
      ensures sent <==> old(signal) == Stable && offerOk
    {
      if signal != Stable {
        pendingRenegotiate := true;
        return false;
      }
      if !offerOk {
        return false;
      }
      signal, offered := HaveLocalOffer, senders - negotiated;
      waiting := {};
      return true;
    }

    method RunQueued(offerOk: bool)
      requires queued > 0
      modifies this
      ensures View() == Next(old(View()), Step.RunQueued(offerOk))
    {
      queued := queued - 1;
      var _ := RenegotiateFor(offerOk);
    }

    method HandleClientAnswer(good: bool, offerOk: bool)
      modifies this
      ensures View() == Answered(old(View()), good, offerOk)
    {
      if signal != HaveLocalOffer || !good {
        return;
      }
      signal, negotiated, offered := Stable, negotiated + offered, {};
      var pending := pendingRenegotiate;
      pendingRenegotiate := false;
      if pending {
        var _ := RenegotiateFor(offerOk);
      }
    }

    method HasUnnegotiatedSenders() returns (some: bool)
      ensures some <==> exists t :: t in senders && t !in negotiated
    {
      some := false;
      var todo := senders;
      while todo != {}
        invariant todo <= senders
        invariant some <==> exists t :: t in senders && t !in todo && t !in negotiated
      {
        var t :| t in todo;
        if t !in negotiated {
          some := true;
        }
        todo := todo - {t};
      }
    }

    /** Answers the client's offer, or reports an error and stays in whatever state the failure left. */
    method HandleOffer(good: bool, answerOk: bool, fit: set<Track>) returns (answered: bool)
      requires Sound(View())
      modifies this
      ensures View() == ClientOffered(old(View()), good, answerOk, fit)
      ensures answered <==> old(signal) != HaveLocalOffer && good && answerOk
    {
      if signal == HaveLocalOffer || !good {
        return false;
      }
      signal := HaveRemoteOffer;
      if !answerOk {
        return false;
      }
      signal, negotiated := Stable, negotiated + fit * senders;
      waiting, greeted := {}, true;
      var more := HasUnnegotiatedSenders();
      if more {
        queued := queued + 1;
      }
      assert more <==> negotiated != senders;
      return true;
    }
  }
}
