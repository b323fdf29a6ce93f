/** Local track identifiers of the form nick-kind-suffix (voice.go): building, parsing and prefix matching. */
module TrackIds {
  import opened Text

  /** A published track: who publishes it, its kind, and a suffix cleaned of everything but letters and digits. */
  datatype Track = Track(owner: string, kind: string, suffix: string)

  predicate Clean(t: Track) {
    (t.kind == "audio" || t.kind == "video") && '-' !in t.suffix
  }

  function Id(t: Track): string {
    t.owner + "-" + t.kind + "-" + t.suffix
  }

  datatype Hint = NoHint | Hint(member: string, kind: string)

  /** Splits at the first two hyphens. */
  function Parse(id: string): Hint {
    if '-' !in id then NoHint
    else
      var rest := After(id, '-');
      if '-' !in rest then NoHint else Hint(Before(id, '-'), Before(rest, '-'))
  }

  lemma IdParts(t: Track)
    ensures Id(t) == t.owner + ['-'] + (t.kind + ['-'] + t.suffix)
  {
  }

  /** Parsing a track's id gives back its owner and kind exactly when the owner's name has no hyphen. */
  lemma ParseExact(t: Track)
    requires Clean(t)
    ensures Parse(Id(t)) == Hint(t.owner, t.kind) <==> '-' !in t.owner
  {
    IdParts(t);
    assert Id(t)[|t.owner|] == '-';
    if '-' !in t.owner {
      BeforeJoined(t.owner, '-', t.kind + ['-'] + t.suffix);
      BeforeJoined(t.kind, '-', t.suffix);
      assert (t.kind + ['-'] + t.suffix)[|t.kind|] == '-';
    }
  }

  /** Where the hyphens of an id are. */
  lemma HyphenAt(t: Track, p: nat)
    requires Clean(t) && p < |Id(t)| && Id(t)[p] == '-'
    ensures p < |t.owner| || p == |t.owner| || p == |t.owner| + 1 + |t.kind|
  {
  }

  /** An id starts with nick and a hyphen exactly when the track is nick's own, or its owner's name itself starts
      with nick and a hyphen, or nick is the owner's name followed by a hyphen and the kind. */
  lemma PrefixExact(t: Track, nick: string)
    requires Clean(t)
    ensures HasPrefix(Id(t), nick + "-") <==>
            t.owner == nick || HasPrefix(t.owner, nick + "-") || nick == t.owner + "-" + t.kind
  {
    var id := Id(t);
    if HasPrefix(id, nick + "-") {
      assert id[..|nick|] == (nick + "-")[..|nick|] == nick;
      assert id[|nick|] == (nick + "-")[|nick|] == '-';
      HyphenAt(t, |nick|);
      if |nick| < |t.owner| {
        assert t.owner[..|nick| + 1] == id[..|nick| + 1];
      } else if |nick| == |t.owner| {
        assert t.owner == id[..|nick|];
      } else {
        assert id[..|nick|] == t.owner + "-" + t.kind;
      }
    }
    if HasPrefix(t.owner, nick + "-") {
      assert id[..|nick| + 1] == t.owner[..|nick| + 1];
    }
    if nick == t.owner + "-" + t.kind {
      assert id == nick + "-" + t.suffix;
    }
  }

  /** Distinct tracks never share an id, whatever the owners' names. */
  lemma IdInjective(t: Track, u: Track)
    requires Clean(t) && Clean(u) && Id(t) == Id(u)
    ensures t == u
  {
    var id := Id(t);
    var p, q := |t.owner| + 1 + |t.kind|, |u.owner| + 1 + |u.kind|;
    IdSlices(t);
    IdSlices(u);
    hide Id;
    HyphenAt(t, q);
    HyphenAt(u, p);
    HyphenAt(t, |u.owner|);
    HyphenAt(u, |t.owner|);
    assert |t.owner| == |u.owner| && p == q;
  }

  lemma IdSlices(t: Track)
    ensures var id, n, p := Id(t), |t.owner|, |t.owner| + 1 + |t.kind|;
            && |id| == p + 1 + |t.suffix| && id[n] == '-' && id[p] == '-'
            && id[..n] == t.owner && id[n + 1..p] == t.kind && id[p + 1..] == t.suffix
  {
  }
}
