/** The incrementally maintained hash counts (msgHashes in sentry/state.go) against the list they index. */
module Tally {

  /** The count of each value in a list. */
  function TallyOf<T(==)>(hs: seq<T>): map<T, nat> {
    map h | h in hs :: multiset(hs)[h]
  }

  function Bump<T(==)>(m: map<T, nat>, h: T): map<T, nat> {
    m[h := (if h in m then m[h] else 0) + 1]
  }

  function Drop<T(==)>(m: map<T, nat>, h: T): map<T, nat> {
    if h !in m then m
    else if m[h] <= 1 then m - {h}
    else m[h := m[h] - 1]
  }

  lemma BumpIsAppend<T>(hs: seq<T>, h: T)
    ensures Bump(TallyOf(hs), h) == TallyOf(hs + [h])
  {
  }

  lemma DropIsEvict<T>(hs: seq<T>)
    requires hs != []
    ensures Drop(TallyOf(hs), hs[0]) == TallyOf(hs[1..])
  {
    assert hs == [hs[0]] + hs[1..];
    assert multiset(hs) == multiset{hs[0]} + multiset(hs[1..]);
    forall h ensures h in hs[1..] <==> h in TallyOf(hs) && multiset(hs[1..])[h] > 0 {
    }
  }

  function Surplus(c: nat): nat {
    if c > 1 then c - 1 else 0
  }

  /** The total, over the values in ks, of count minus one for every value counted more than once. */
  ghost function ExcessOver<T>(m: map<T, nat>, ks: set<T>): nat
    requires ks <= m.Keys
  {
    if ks == {} then 0
    else var h :| h in ks; Surplus(m[h]) + ExcessOver(m, ks - {h})
  }

  ghost function Excess<T>(m: map<T, nat>): nat {
    ExcessOver(m, m.Keys)
  }

  lemma {:induction false} ExcessWithout<T>(m: map<T, nat>, ks: set<T>, h: T)
    requires h in ks && ks <= m.Keys
    ensures ExcessOver(m, ks) == Surplus(m[h]) + ExcessOver(m, ks - {h})
  {
    var g :| g in ks && ExcessOver(m, ks) == Surplus(m[g]) + ExcessOver(m, ks - {g});
    if g != h {
      ExcessWithout(m, ks - {g}, h);
      ExcessWithout(m, ks - {h}, g);
      assert ks - {g} - {h} == ks - {h} - {g};
    }
  }

  lemma {:induction false} ExcessAgrees<T>(m: map<T, nat>, n: map<T, nat>, ks: set<T>)
    requires ks <= m.Keys && ks <= n.Keys
    requires forall k :: k in ks ==> m[k] == n[k]
    ensures ExcessOver(m, ks) == ExcessOver(n, ks)
  {
    if ks != {} {
      var h :| h in ks;
      ExcessWithout(m, ks, h);
      ExcessWithout(n, ks, h);
      ExcessAgrees(m, n, ks - {h});
    }
  }

  ghost function Distinct<T>(hs: seq<T>): set<T> {
    set h | h in hs
  }

  lemma ExcessAppend<T>(hs: seq<T>, h: T)
    ensures Excess(TallyOf(hs + [h])) == Excess(TallyOf(hs)) + if h in hs then 1 else 0
  {
    BumpIsAppend(hs, h);
    var m, after := TallyOf(hs), TallyOf(hs + [h]);
    ExcessWithout(after, after.Keys, h);
    assert after.Keys - {h} == m.Keys - {h};
    ExcessAgrees(m, after, m.Keys - {h});
    if h in hs {
      ExcessWithout(m, m.Keys, h);
    } else {
      assert m.Keys - {h} == m.Keys;
    }
  }

  /** The duplicate score of a list is its length minus the number of distinct values. */
  lemma {:induction false} ExcessIsDuplicates<T>(hs: seq<T>)
    ensures Excess(TallyOf(hs)) == |hs| - |Distinct(hs)|
  {
    if hs == [] {
      assert TallyOf(hs).Keys == {};
    } else {
      var b, h := hs[..|hs| - 1], hs[|hs| - 1];
      assert hs == b + [h];
      ExcessIsDuplicates(b);
      ExcessAppend(b, h);
      assert Distinct(hs) == Distinct(b) + {h};
    }
  }

  /** The running total of surplus counts, visiting the map's entries in any order. */
  method CountExcess<T(==)>(m: map<T, nat>) returns (hits: nat)
    ensures hits == Excess(m)
  {
    hits := 0;
    var todo := m.Keys;
    while todo != {}
      invariant todo <= m.Keys
      invariant hits + ExcessOver(m, todo) == Excess(m)
    {
      var h :| h in todo;
      ExcessWithout(m, todo, h);
      if m[h] > 1 {
        hits := hits + m[h] - 1;
      }
      todo := todo - {h};
    }
  }
}
