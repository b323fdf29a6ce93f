/** Capped windows over an append-only history: the bounded suffix a user record keeps, against a query over
    everything that ever happened. */
module Windows {

  import opened Basics

  /** The last n elements, or all of them. */
  function LastN<T>(s: seq<T>, n: nat): seq<T> {
    if |s| <= n then s else s[|s| - n..]
  }

  /** The elements stamped no earlier than the given instant. */
  function Within<T>(s: seq<T>, at: T -> int, from: int): seq<T> {
    if s == [] then []
    else
      var earlier, last := Within(s[..|s| - 1], at, from), s[|s| - 1];
      if at(last) >= from then earlier + [last] else earlier
  }

  ghost predicate Sorted<T>(s: seq<T>, at: T -> int) {
    forall i, j :: 0 <= i < j < |s| ==> at(s[i]) <= at(s[j])
  }

  lemma LastNAppend<T>(s: seq<T>, x: T, n: nat)
    requires n > 0
    ensures LastN(s + [x], n) == LastN(s, n - 1) + [x]
    ensures LastN(s + [x], n) == LastN(LastN(s, n) + [x], n)
  {
  }

  lemma {:induction false} WithinNothing<T>(s: seq<T>, at: T -> int, from: int)
    requires forall i :: 0 <= i < |s| ==> at(s[i]) < from
    ensures Within(s, at, from) == []
  {
    if s != [] {
      WithinNothing(s[..|s| - 1], at, from);
    }
  }

  lemma WithinAppend<T>(s: seq<T>, x: T, at: T -> int, from: int)
    ensures Within(s + [x], at, from) == if at(x) >= from then Within(s, at, from) + [x] else Within(s, at, from)
  {
  }

  /** Reading a time window out of a capped suffix gives the capped suffix of the time window: nothing inside
      the window is missing unless the window itself holds more than the cap. */
  lemma {:induction false} CapThenWindow<T>(s: seq<T>, n: nat, at: T -> int, from: int)
    requires Sorted(s, at)
    ensures Within(LastN(s, n), at, from) == LastN(Within(s, at, from), n)
    ensures |Within(LastN(s, n), at, from)| == Min(n, |Within(s, at, from)|)
  {
    LastNSize(Within(s, at, from), n);
    if s != [] && n > 0 {
      var b, x := s[..|s| - 1], s[|s| - 1];
      assert s == b + [x];
      CapThenWindow(b, n - 1, at, from);
      CapStep(b, x, n, at, from);
    } else {
      LastNSize(s, n);
    }
  }

  lemma CapStep<T>(b: seq<T>, x: T, n: nat, at: T -> int, from: int)
    requires Sorted(b + [x], at) && n > 0
    requires Within(LastN(b, n - 1), at, from) == LastN(Within(b, at, from), n - 1)
    ensures Within(LastN(b + [x], n), at, from) == LastN(Within(b + [x], at, from), n)
  {
    OlderBefore(b, x, at);
    hide *;
    LastNAppend(b, x, n);
    WithinAppend(LastN(b, n - 1), x, at, from);
    WithinAppend(b, x, at, from);
    if at(x) >= from {
      LastNAppend(Within(b, at, from), x, n);
    } else {
      WithinNothing(b, at, from);
      LastNSize(Within(b, at, from), n - 1);
      LastNSize(Within(b, at, from), n);
    }
  }

  lemma OlderBefore<T>(b: seq<T>, x: T, at: T -> int)
    requires Sorted(b + [x], at)
    ensures forall i :: 0 <= i < |b| ==> at(b[i]) <= at(x)
  {
    forall i | 0 <= i < |b| ensures at(b[i]) <= at(x) {
      assert (b + [x])[i] == b[i] && (b + [x])[|b|] == x;
    }
  }

  lemma LastNSize<T>(s: seq<T>, n: nat)
    ensures |LastN(s, n)| == Min(n, |s|)
    ensures s == [] ==> LastN(s, n) == []
  {
  }

  // ----- Selecting from a history -----

  /** The image of the history's elements that satisfy p, in order. */
  function Select<E, T>(h: seq<E>, p: E -> bool, f: E -> T): seq<T> {
    if h == [] then []
    else
      var earlier, last := Select(h[..|h| - 1], p, f), h[|h| - 1];
      if p(last) then earlier + [f(last)] else earlier
  }

  /** How many elements of the history satisfy p and are stamped no earlier than the given instant. */
  function CountSince<E>(h: seq<E>, p: E -> bool, when: E -> int, from: int): nat {
    if h == [] then 0
    else
      var last := h[|h| - 1];
      CountSince(h[..|h| - 1], p, when, from) + if p(last) && when(last) >= from then 1 else 0
  }

  lemma SelectAppend<E, T>(h: seq<E>, e: E, p: E -> bool, f: E -> T)
    ensures Select(h + [e], p, f) == Select(h, p, f) + if p(e) then [f(e)] else []
  {
  }

  lemma {:induction false} SelectFrom<E, T>(h: seq<E>, p: E -> bool, f: E -> T, x: T)
    requires x in Select(h, p, f)
    ensures exists i :: 0 <= i < |h| && p(h[i]) && f(h[i]) == x
  {
    var last := h[|h| - 1];
    if !(p(last) && f(last) == x) {
      SelectFrom(h[..|h| - 1], p, f, x);
      var i :| 0 <= i < |h[..|h| - 1]| && p(h[..|h| - 1][i]) && f(h[..|h| - 1][i]) == x;
      assert h[i] == h[..|h| - 1][i];
    }
  }

  lemma {:induction false} SelectSorted<E, T>(h: seq<E>, p: E -> bool, f: E -> T, when: E -> int, at: T -> int)
    requires Sorted(h, when)
    requires forall e :: p(e) ==> at(f(e)) == when(e)
    ensures Sorted(Select(h, p, f), at)
    ensures h != [] ==> forall i :: 0 <= i < |Select(h, p, f)| ==> at(Select(h, p, f)[i]) <= when(h[|h| - 1])
  {
    if h != [] {
      var b := h[..|h| - 1];
      SelectSorted(b, p, f, when, at);
      if b != [] {
        assert when(b[|b| - 1]) <= when(h[|h| - 1]);
      }
    }
  }

  lemma {:induction false} SelectWithin<E, T>(
    h: seq<E>, p: E -> bool, f: E -> T, when: E -> int, at: T -> int, from: int)
    requires forall e :: p(e) ==> at(f(e)) == when(e)
    ensures |Within(Select(h, p, f), at, from)| == CountSince(h, p, when, from)
  {
    if h != [] {
      var b, last := h[..|h| - 1], h[|h| - 1];
      SelectWithin(b, p, f, when, at, from);
      if p(last) {
        WithinAppend(Select(b, p, f), f(last), at, from);
      }
    }
  }

  /** A capped window of a time-ordered history counts the matching events exactly, up to its cap. */
  lemma CappedCount<E(!new), T>(h: seq<E>, n: nat, p: E -> bool, f: E -> T, when: E -> int, at: T -> int, from: int)
    requires Sorted(h, when)
    requires forall e :: p(e) ==> at(f(e)) == when(e)
    ensures |Within(LastN(Select(h, p, f), n), at, from)| == Min(n, CountSince(h, p, when, from))
  {
    SelectSorted(h, p, f, when, at);
    SelectWithin(h, p, f, when, at, from);
    CapThenWindow(Select(h, p, f), n, at, from);
  }
}
