/** The total of the amounts held in a map. */
module Totals {
  ghost function Total(m: map<nat, nat>): nat
    decreases |m|
  {
    if m == map[] then 0
    else
      var k :| k in m;
      m[k] + Total(m - {k})
  }

  lemma {:induction false} TotalWithout(m: map<nat, nat>, k: nat)
    requires k in m
    ensures Total(m) == m[k] + Total(m - {k})
    decreases |m|
  {
    var j :| j in m && Total(m) == m[j] + Total(m - {j});
    if j != k {
      TotalWithout(m - {j}, k);
      TotalWithout(m - {k}, j);
      assert m - {j} - {k} == m - {k} - {j};
    }
  }

  lemma TotalWith(m: map<nat, nat>, k: nat, v: nat)
    requires k !in m
    ensures Total(m[k := v]) == Total(m) + v
  {
    TotalWithout(m[k := v], k);
    assert m[k := v] - {k} == m;
  }

  /** What is held under some keys only is part of what is held under all. */
  lemma {:induction false} TotalOfAgreeing(m: map<nat, nat>, n: map<nat, nat>)
    requires forall k :: k in m && k in n ==> m[k] == n[k]
    ensures Total(m) <= Total(n) + Total(m - n.Keys)
    decreases |m|
  {
    if m == map[] {
      assert m - n.Keys == m;
    } else {
      var k :| k in m;
      TotalWithout(m, k);
      if k in n {
        TotalWithout(n, k);
        TotalOfAgreeing(m - {k}, n - {k});
        assert m - {k} - (n - {k}).Keys == m - n.Keys;
      } else {
        TotalOfAgreeing(m - {k}, n);
        TotalWithout(m - n.Keys, k);
        assert m - {k} - n.Keys == m - n.Keys - {k};
      }
    }
  }

  /** `f` renames the keys of `n`, one to one, to those of `m`. */
  predicate Renames(m: map<nat, nat>, n: map<nat, nat>, f: map<nat, nat>) {
    && f.Keys == n.Keys
    && (forall i :: i in f ==> f[i] in m && n[i] == m[f[i]])
    && (forall k :: k in m ==> k in f.Values)
    && (forall i, j :: i in f && j in f && f[i] == f[j] ==> i == j)
  }

  lemma RenamesFewer(m: map<nat, nat>, n: map<nat, nat>, f: map<nat, nat>, i: nat)
    requires Renames(m, n, f) && i in n
    ensures i in f && f[i] in m && n[i] == m[f[i]] && Renames(m - {f[i]}, n - {i}, f - {i})
  {
    var rest := f - {i};
    forall k | k in m - {f[i]} ensures k in rest.Values {
      var j :| j in f && f[j] == k;
      assert rest[j] == k;
    }
  }

  lemma RenamesSomething(m: map<nat, nat>, n: map<nat, nat>, f: map<nat, nat>)
    requires Renames(m, n, f) && m != map[]
    ensures n != map[]
  {
    var k :| k in m;
    var j :| j in f && f[j] == k;
    assert j in n;
  }

  /** A renaming of the keys, one to one, leaves the total. */
  lemma {:induction false} TotalOfRenamed(m: map<nat, nat>, n: map<nat, nat>, f: map<nat, nat>)
    requires Renames(m, n, f)
    ensures Total(n) == Total(m)
    decreases |n|
  {
    hide Total, Renames;
    if n == map[] {
      if m != map[] { RenamesSomething(m, n, f); }
    } else {
      var i :| i in n;
      RenamesFewer(m, n, f, i);
      TotalWithout(n, i);
      TotalWithout(m, f[i]);
      TotalOfRenamed(m - {f[i]}, n - {i}, f - {i});
    }
  }
}
