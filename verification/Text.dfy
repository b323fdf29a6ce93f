/** Cutting a string at the first occurrence of a separator. */
module Text {

  /** What stands before the first c, or everything. */
  function Before(s: string, c: char): (r: string)
    ensures |r| <= |s| && c !in r && r == s[..|r|]
    ensures |r| < |s| ==> s[|r|] == c
  {
    if s == "" || s[0] == c then "" else [s[0]] + Before(s[1..], c)
  }

  /** What stands after the first c, if there is one. */
  function After(s: string, c: char): string {
    var n := |Before(s, c)|;
    if n < |s| then s[n + 1..] else ""
  }

  lemma {:induction false} BeforeJoined(a: string, c: char, b: string)
    requires c !in a
    ensures Before(a + [c] + b, c) == a && After(a + [c] + b, c) == b
  {
    var s := a + [c] + b;
    if a != "" {
      assert s[0] == a[0];
      assert s[1..] == a[1..] + [c] + b;
      BeforeJoined(a[1..], c, b);
    }
  }

  predicate HasPrefix(s: string, p: string) {
    |p| <= |s| && s[..|p|] == p
  }
}
