/** The mask matcher (globMatch and doGlob in orca/mask.go) against the declarative meaning of `*` and `?`. */
module Glob {

  function Join(parts: seq<string>): string {
    if parts == [] then "" else parts[0] + Join(parts[1..])
  }

  /** What one pattern character may stand for. */
  predicate Fits(c: char, part: string) {
    if c == '*' then true
    else if c == '?' then |part| == 1
    else part == [c]
  }

  ghost predicate Splits(p: string, s: string, parts: seq<string>) {
    && |parts| == |p|
    && Join(parts) == s
    && forall i :: 0 <= i < |p| ==> Fits(p[i], parts[i])
  }

  /** The text can be cut into one piece per pattern character, each piece fitting its character. */
  ghost predicate InLanguage(p: string, s: string) {
    exists parts :: Splits(p, s, parts)
  }

  lemma EmptyPattern(s: string)
    ensures InLanguage("", s) <==> s == ""
  {
    assert Splits("", "", []);
  }

  lemma Prepend(c: char, p: string, s: string, k: nat)
    requires k <= |s| && Fits(c, s[..k]) && InLanguage(p, s[k..])
    ensures InLanguage([c] + p, s)
  {
    var parts :| Splits(p, s[k..], parts);
    assert ([s[..k]] + parts)[1..] == parts;
    assert Splits([c] + p, s, [s[..k]] + parts);
  }

  lemma Detach(c: char, p: string, s: string) returns (k: nat)
    requires InLanguage([c] + p, s)
    ensures k <= |s| && Fits(c, s[..k]) && InLanguage(p, s[k..])
  {
    var parts :| Splits([c] + p, s, parts);
    k := |parts[0]|;
    assert s[..k] == parts[0] && s[k..] == Join(parts[1..]);
    forall i | 0 <= i < |p| ensures Fits(p[i], parts[1..][i]) {
      assert ([c] + p)[i + 1] == p[i];
    }
    assert Splits(p, s[k..], parts[1..]);
  }

  /** A pattern matches through its first character. */
  lemma Unfold(c: char, p: string, s: string)
    ensures InLanguage([c] + p, s) <==> exists k :: 0 <= k <= |s| && Fits(c, s[..k]) && InLanguage(p, s[k..])
  {
    if InLanguage([c] + p, s) {
      var k := Detach(c, p, s);
    }
    if k :| 0 <= k <= |s| && Fits(c, s[..k]) && InLanguage(p, s[k..]) {
      Prepend(c, p, s, k);
    }
  }

  lemma Literal(c: char, p: string, s: string)
    requires c != '*'
    ensures InLanguage([c] + p, s) <==> s != "" && (c == '?' || c == s[0]) && InLanguage(p, s[1..])
  {
    Unfold(c, p, s);
    if s != "" && (c == '?' || c == s[0]) && InLanguage(p, s[1..]) {
      assert s[..1] == [s[0]];
      Prepend(c, p, s, 1);
    }
  }

  /** A second star adds nothing. */
  lemma DoubleStar(p: string, s: string)
    ensures InLanguage("*" + ("*" + p), s) <==> InLanguage("*" + p, s)
  {
    if InLanguage("*" + ("*" + p), s) {
      var k := Detach('*', "*" + p, s);
      var j := Detach('*', p, s[k..]);
      assert s[k..][j..] == s[k + j..];
      Prepend('*', p, s, k + j);
    }
    if InLanguage("*" + p, s) {
      Prepend('*', "*" + p, s, 0);
    }
  }

  lemma Star(p: string, s: string)
    ensures InLanguage("*" + p, s) <==> exists k :: 0 <= k <= |s| && InLanguage(p, s[k..])
  {
    Unfold('*', p, s);
  }

  /** Backtracking over p from pi and s from si decides membership, for every pattern and text. */
  method DoGlob(p: string, s: string, pi0: nat, si0: nat) returns (matched: bool)
    requires pi0 <= |p| && si0 <= |s|
    ensures matched <==> InLanguage(p[pi0..], s[si0..])
    decreases |p| - pi0
  {
    var pi: nat, si: nat := pi0, si0;
    while pi < |p|
      invariant pi0 <= pi <= |p| && si <= |s|
      invariant InLanguage(p[pi..], s[si..]) <==> InLanguage(p[pi0..], s[si0..])
    {
      assert p[pi..] == [p[pi]] + p[pi + 1..];
      if p[pi] == '*' {
        pi := pi + 1;
        while pi < |p| && p[pi] == '*'
          invariant pi0 < pi <= |p| && p[pi - 1..] == "*" + p[pi..]
          invariant InLanguage("*" + p[pi..], s[si..]) <==> InLanguage(p[pi0..], s[si0..])
        {
          assert p[pi..] == "*" + p[pi + 1..];
          DoubleStar(p[pi + 1..], s[si..]);
          pi := pi + 1;
        }
        Star(p[pi..], s[si..]);
        if pi == |p| {
          EmptyPattern(s[si..][|s| - si..]);
          return true;
        }
        for k := si to |s| + 1
          invariant forall j :: 0 <= j < k - si ==> !InLanguage(p[pi..], s[si..][j..])
        {
          assert s[si..][k - si..] == s[k..];
          var found := DoGlob(p, s, pi, k);
          if found {
            return true;
          }
        }
        return false;
      }
      Literal(p[pi], p[pi + 1..], s[si..]);
      if si >= |s| {
        return false;
      }
      if p[pi] != '?' && p[pi] != s[si] {
        return false;
      }
      assert s[si..][1..] == s[si + 1..];
      pi, si := pi + 1, si + 1;
    }
    EmptyPattern(s[si..]);
    return si == |s|;
  }

  function LowerChar(c: char): char {
    if 'A' <= c <= 'Z' then (c as int + 32) as char else c
  }

  function Lower(s: string): string {
    seq(|s|, i requires 0 <= i < |s| => LowerChar(s[i]))
  }

  /** A mask matches when its lower-cased pattern does, except that the empty mask matches everything. */
  method GlobMatch(pattern: string, s: string) returns (matched: bool)
    ensures matched <==> pattern == "" || InLanguage(Lower(pattern), Lower(s))
  {
    if pattern == "" || pattern == "*" {
      if pattern == "*" {
        assert Lower(pattern) == "*" + "";
        Star("", Lower(s));
        EmptyPattern(Lower(s)[|s|..]);
      }
      return true;
    }
    matched := DoGlob(Lower(pattern), Lower(s), 0, 0);
    assert Lower(pattern)[0..] == Lower(pattern) && Lower(s)[0..] == Lower(s);
  }
}
