/** Deciding whether a channel message addresses the bot (orca/chat_listen.go): two separately written word
    scanners that must agree. Letter, digit, whitespace and case tables are parameters. */
module Addressing {

  /** The character tables: word characters are letters and digits. */
  datatype Tables = Tables(word: char -> bool, space: char -> bool, lower: char -> char)

  /** The separators trimmed right after the addressed name. */
  predicate TrailingSep(c: char) {
    c in " \t\r\n,.:;!?-\U{2014}\U{2013}"
  }

  /** No separator and no whitespace is a word character, and case folding keeps word characters apart. */
  ghost predicate Sound(t: Tables) {
    && t.space(' ')
    && (forall c :: TrailingSep(c) || t.space(c) ==> !t.word(c))
    && (forall c :: t.word(t.lower(c)) == t.word(c))
  }

  const PING := "(Acknowledge briefly that you're here.)"

  // ----- The words of a text -----

  /** The length of the leading run of word characters. */
  function Run(word: char -> bool, s: string): (n: nat)
    ensures n <= |s|
  {
    if s == "" || !word(s[0]) then 0 else 1 + Run(word, s[1..])
  }

  /** The maximal runs of word characters, in order. */
  function Words(word: char -> bool, s: string): seq<string>
    decreases |s|
  {
    if s == "" then []
    else if !word(s[0]) then Words(word, s[1..])
    else [s[..Run(word, s)]] + Words(word, s[Run(word, s)..])
  }

  /** What follows the n-th word. */
  function AfterWords(word: char -> bool, s: string, n: nat): string
    decreases |s|
  {
    if n == 0 then s
    else if s == "" then ""
    else if !word(s[0]) then AfterWords(word, s[1..], n)
    else AfterWords(word, s[Run(word, s)..], n - 1)
  }

  function Drop<T>(s: seq<T>, n: nat): seq<T> {
    if n <= |s| then s[n..] else []
  }

  lemma {:induction false} WordsAfter(word: char -> bool, s: string, n: nat)
    ensures Words(word, AfterWords(word, s, n)) == Drop(Words(word, s), n)
    decreases |s|
  {
    if n > 0 && s != "" {
      if !word(s[0]) {
        WordsAfter(word, s[1..], n);
      } else {
        WordsAfter(word, s[Run(word, s)..], n - 1);
      }
    }
  }

  function TrimLeft(p: char -> bool, s: string): string {
    if s != "" && p(s[0]) then TrimLeft(p, s[1..]) else s
  }

  function TrimRight(p: char -> bool, s: string): string {
    if s != "" && p(s[|s| - 1]) then TrimRight(p, s[..|s| - 1]) else s
  }

  function Trim(p: char -> bool, s: string): string {
    TrimRight(p, TrimLeft(p, s))
  }

  lemma {:induction false} WordsTrimLeft(word: char -> bool, p: char -> bool, s: string)
    requires forall c :: p(c) ==> !word(c)
    ensures Words(word, TrimLeft(p, s)) == Words(word, s)
  {
    if s != "" && p(s[0]) {
      WordsTrimLeft(word, p, s[1..]);
    }
  }

  lemma {:induction false} RunAppend(word: char -> bool, s: string, c: char)
    requires !word(c)
    ensures Run(word, s + [c]) == Run(word, s)
  {
    if s != "" && word(s[0]) {
      assert (s + [c])[1..] == s[1..] + [c];
      RunAppend(word, s[1..], c);
    }
  }

  lemma {:induction false} WordsAppend(word: char -> bool, s: string, c: char)
    requires !word(c)
    ensures Words(word, s + [c]) == Words(word, s)
    decreases |s|
  {
    if s == "" {
      assert (s + [c])[1..] == "";
    } else if !word(s[0]) {
      assert (s + [c])[1..] == s[1..] + [c];
      WordsAppend(word, s[1..], c);
    } else {
      RunAppend(word, s, c);
      var n := Run(word, s);
      assert (s + [c])[n..] == s[n..] + [c] && (s + [c])[..n] == s[..n];
      WordsAppend(word, s[n..], c);
    }
  }

  lemma {:induction false} WordsTrimRight(word: char -> bool, p: char -> bool, s: string)
    requires forall c :: p(c) ==> !word(c)
    ensures Words(word, TrimRight(p, s)) == Words(word, s)
  {
    if s != "" && p(s[|s| - 1]) {
      WordsTrimRight(word, p, s[..|s| - 1]);
      WordsAppend(word, s[..|s| - 1], s[|s| - 1]);
      assert s == s[..|s| - 1] + [s[|s| - 1]];
    }
  }

  lemma WordsTrim(word: char -> bool, p: char -> bool, s: string)
    requires forall c :: p(c) ==> !word(c)
    ensures Words(word, Trim(p, s)) == Words(word, s)
  {
    WordsTrimLeft(word, p, s);
    WordsTrimRight(word, p, TrimLeft(p, s));
  }

  // ----- The first scanner: blank out, then split -----

  predicate NotBlank(c: char) { c != ' ' }

  function Blanked(word: char -> bool, s: string): string {
    seq(|s|, i requires 0 <= i < |s| => if word(s[i]) then s[i] else ' ')
  }

  lemma {:induction false} BlankedWords(word: char -> bool, s: string)
    requires !word(' ')
    ensures Words(NotBlank, Blanked(word, s)) == Words(word, s)
    decreases |s|
  {
    if s != "" {
      BlankedRun(word, s);
      var b, n := Blanked(word, s), Run(word, s);
      if !word(s[0]) {
        assert b[1..] == Blanked(word, s[1..]);
        BlankedWords(word, s[1..]);
      } else {
        assert b[n..] == Blanked(word, s[n..]);
        assert b[..n] == s[..n];
        BlankedWords(word, s[n..]);
      }
    }
  }

  lemma {:induction false} BlankedRun(word: char -> bool, s: string)
    requires !word(' ')
    ensures Run(NotBlank, Blanked(word, s)) == Run(word, s)
    ensures forall i :: 0 <= i < Run(word, s) ==> word(s[i])
  {
    if s != "" && word(s[0]) {
      assert Blanked(word, s)[1..] == Blanked(word, s[1..]);
      BlankedRun(word, s[1..]);
    }
  }

  /** Reads one token off the front. */
  method TakeToken(s: string) returns (piece: string)
    ensures |piece| == Run(NotBlank, s) && piece == s[..|piece|]
  {
    piece := "";
    while |piece| < |s| && s[|piece|] != ' '
      invariant |piece| <= |s| && piece == s[..|piece|]
      invariant Run(NotBlank, s) == |piece| + Run(NotBlank, s[|piece|..])
    {
      assert s[|piece|..][1..] == s[|piece| + 1..];
      piece := piece + [s[|piece|]];
    }
  }

  /** Splits around blanks. */
  method Fields(s: string) returns (out: seq<string>)
    ensures out == Words(NotBlank, s)
  {
    out := [];
    var rest := s;
    while rest != ""
      invariant out + Words(NotBlank, rest) == Words(NotBlank, s)
      decreases |rest|
    {
      if rest[0] == ' ' {
        rest := rest[1..];
      } else {
        var piece := TakeToken(rest);
        out := out + [piece];
        rest := rest[|piece|..];
      }
    }
  }

  /** Turns every non-word character into a blank, then splits: the tokens are exactly the words. */
  method Tokenize(t: Tables, s: string) returns (tokens: seq<string>)
    requires Sound(t)
    ensures tokens == Words(t.word, s)
  {
    var b := "";
    for i := 0 to |s|
      invariant b == Blanked(t.word, s)[..i]
    {
      b := b + [if t.word(s[i]) then s[i] else ' '];
    }
    assert b == Blanked(t.word, s);
    BlankedWords(t.word, s);
    tokens := Fields(b);
  }

  // ----- The second scanner: walk the original text -----

  function Rest(t: Tables, s: string, n: int): string {
    if n <= 0 then s else TrimLeft(TrailingSep, AfterWords(t.word, s, n))
  }

  /** Whatever follows the n-th word of the original text, with addressing punctuation trimmed. */
  method SliceAfterNWords(t: Tables, s: string, n: int) returns (rest: string)
    requires Sound(t)
    ensures rest == Rest(t, s, n)
  {
    if n <= 0 {
      return s;
    }
    var seen, inWord, i := 0, false, 0;
    assert s[0..] == s;
    while i < |s|
      invariant 0 <= i <= |s| && 0 <= seen < n
      invariant AfterWords(t.word, s, n) == Ahead(t.word, s, i, n - seen, inWord)
    {
      hide AfterWords, Ahead, Run, TrimLeft;
      AheadStep(t.word, s, i, n - seen, inWord);
      if t.word(s[i]) {
        inWord := true;
      } else if inWord {
        inWord := false;
        seen := seen + 1;
        if seen >= n {
          return TrimLeft(TrailingSep, s[i..]);
        }
      }
      i := i + 1;
    }
    return "";
  }

  /** What follows the remaining words, seen from position i, inside a word or between words. */
  function Ahead(word: char -> bool, s: string, i: nat, left: nat, inWord: bool): string
    requires i <= |s| && left > 0
  {
    var tail := s[i..];
    if inWord then AfterWords(word, tail[Run(word, tail)..], left - 1) else AfterWords(word, tail, left)
  }

  lemma AheadStep(word: char -> bool, s: string, i: nat, left: nat, inWord: bool)
    requires i < |s| && left > 0
    ensures word(s[i]) ==> Ahead(word, s, i, left, inWord) == Ahead(word, s, i + 1, left, true)
    ensures !word(s[i]) && !inWord ==> Ahead(word, s, i, left, inWord) == Ahead(word, s, i + 1, left, false)
    ensures !word(s[i]) && inWord && left > 1 ==>
              Ahead(word, s, i, left, inWord) == Ahead(word, s, i + 1, left - 1, false)
    ensures !word(s[i]) && inWord && left == 1 ==> Ahead(word, s, i, left, inWord) == s[i..]
  {
  }

  /** The two scanners agree: the words of what the second leaves over are exactly the first's tokens from index n
      on, for every text and every n, however the words are separated. */
  lemma ScannersAgree(t: Tables, s: string, n: int)
    requires Sound(t)
    ensures Words(t.word, Rest(t, s, n)) == Drop(Words(t.word, s), if n <= 0 then 0 else n)
  {
    if n > 0 {
      WordsAfter(t.word, s, n);
      WordsTrimLeft(t.word, TrailingSep, AfterWords(t.word, s, n));
    }
  }

  // ----- Matching -----

  function Fold(t: Tables, s: string): string {
    seq(|s|, i requires 0 <= i < |s| => t.lower(s[i]))
  }

  /** Which of the first two words, if any, is the name. */
  function AddressIndex(t: Tables, nick: string, words: seq<string>): int {
    if |words| > 0 && Fold(t, words[0]) == Fold(t, nick) then 0
    else if |words| > 1 && Fold(t, words[1]) == Fold(t, nick) then 1
    else -1
  }

  /** A message is addressed exactly when one of its first two words is the name. The query is then the original
      text after that word, trimmed: it keeps every later word of the message, in order, and only an empty
      remainder becomes the ping text. */
  method Match(t: Tables, nick: string, text: string) returns (addressed: bool, query: string)
    requires Sound(t)
    ensures addressed <==> nick != "" && AddressIndex(t, nick, Words(t.word, text)) >= 0
    ensures !addressed ==> query == ""
    ensures addressed ==>
              var rest := Trim(t.space, Rest(t, Trim(t.space, text), AddressIndex(t, nick, Words(t.word, text)) + 1));
              query == if rest == "" then PING else rest
    ensures addressed ==>
              var later := Words(t.word, text)[AddressIndex(t, nick, Words(t.word, text)) + 1..];
              Words(t.word, query) == later || (query == PING && later == [])
  {
    addressed, query := false, "";
    if nick == "" {
      return;
    }
    var s := Trim(t.space, text);
    WordsTrim(t.word, t.space, text);
    if s == "" {
      return;
    }
    var tokens := Tokenize(t, s);
    if |tokens| == 0 {
      return;
    }
    var idx := AddressIndex(t, nick, tokens);
    if idx == -1 {
      return;
    }
    var rest := SliceAfterNWords(t, s, idx + 1);
    ScannersAgree(t, s, idx + 1);
    WordsTrim(t.word, t.space, rest);
    rest := Trim(t.space, rest);
    addressed, query := true, if rest == "" then PING else rest;
  }

  lemma {:induction false} WordsAreWords(word: char -> bool, s: string)
    ensures forall x :: x in Words(word, s) ==> x != "" && forall i :: 0 <= i < |x| ==> word(x[i])
    decreases |s|
  {
    if s != "" {
      if !word(s[0]) {
        WordsAreWords(word, s[1..]);
      } else {
        RunIsWord(word, s);
        WordsAreWords(word, s[Run(word, s)..]);
      }
    }
  }

  lemma {:induction false} RunIsWord(word: char -> bool, s: string)
    ensures forall i :: 0 <= i < Run(word, s) ==> word(s[i])
    ensures (forall i :: 0 <= i < |s| ==> word(s[i])) ==> Run(word, s) == |s|
  {
    if s != "" && word(s[0]) {
      RunIsWord(word, s[1..]);
      assert forall i :: 1 <= i < |s| ==> s[i] == s[1..][i - 1];
      assert (forall i :: 0 <= i < |s| ==> word(s[i])) ==> forall i :: 0 <= i < |s[1..]| ==> word(s[1..][i]);
    }
  }

  /** A bot can be addressed at all exactly when its name is made of word characters only: a name with a hyphen,
      underscore or bracket never matches any text. */
  lemma ReachableNames(t: Tables, nick: string)
    requires Sound(t) && nick != ""
    ensures (exists text :: AddressIndex(t, nick, Words(t.word, text)) >= 0)
       <==> forall i :: 0 <= i < |nick| ==> t.word(nick[i])
  {
    if forall i :: 0 <= i < |nick| ==> t.word(nick[i]) {
      RunIsWord(t.word, nick);
      assert nick[..|nick|] == nick;
      assert Words(t.word, nick)[0] == nick;
      assert AddressIndex(t, nick, Words(t.word, nick)) >= 0;
    }
    if text :| AddressIndex(t, nick, Words(t.word, text)) >= 0 {
      var words := Words(t.word, text);
      var x := words[AddressIndex(t, nick, words)];
      WordsAreWords(t.word, text);
      assert x in words;
      assert |x| == |Fold(t, x)| == |Fold(t, nick)| == |nick|;
      forall i | 0 <= i < |nick| ensures t.word(nick[i]) {
        assert Fold(t, x)[i] == Fold(t, nick)[i];
        assert t.lower(x[i]) == t.lower(nick[i]);
      }
    }
  }
}
