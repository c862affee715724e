/** Sums over the finite collections that a broker's state is made of. */
module Sums {

  ghost function Sum<T>(q: multiset<T>, f: T -> nat): nat
    decreases |q|
  {
    if q == multiset{} then 0
    else
      var m :| m in q;
      f(m) + Sum(q - multiset{m}, f)
  }

  lemma {:induction false} SumSplit<T>(q: multiset<T>, f: T -> nat, m: T)
    requires m in q
    ensures Sum(q, f) == f(m) + Sum(q - multiset{m}, f)
    decreases |q|
  {
    var x :| x in q && Sum(q, f) == f(x) + Sum(q - multiset{x}, f);
    if x == m {
    } else {
      SumSplit(q - multiset{x}, f, m);
      SumSplit(q - multiset{m}, f, x);
      assert q - multiset{x} - multiset{m} == q - multiset{m} - multiset{x};
    }
  }

  lemma SumAdd<T>(q: multiset<T>, f: T -> nat, m: T)
    ensures Sum(q + multiset{m}, f) == Sum(q, f) + f(m)
  {
    SumSplit(q + multiset{m}, f, m);
    assert q + multiset{m} - multiset{m} == q;
  }

  ghost function SumValues<K, V>(ws: map<K, V>, f: V -> nat): nat
    decreases |ws|
  {
    if ws == map[] then 0
    else
      var k :| k in ws;
      f(ws[k]) + SumValues(ws - {k}, f)
  }

  lemma {:induction false} SumValuesSplit<K, V>(ws: map<K, V>, f: V -> nat, k: K)
    requires k in ws
    ensures SumValues(ws, f) == f(ws[k]) + SumValues(ws - {k}, f)
    decreases |ws|
  {
    var x :| x in ws && SumValues(ws, f) == f(ws[x]) + SumValues(ws - {x}, f);
    if x == k {
    } else {
      SumValuesSplit(ws - {x}, f, k);
      SumValuesSplit(ws - {k}, f, x);
      assert ws - {x} - {k} == ws - {k} - {x};
    }
  }

  lemma SumValuesUpdate<K, V>(ws: map<K, V>, f: V -> nat, k: K, v: V)
    ensures SumValues(ws[k := v], f) == f(v) + SumValues(ws - {k}, f)
  {
    SumValuesSplit(ws[k := v], f, k);
    assert ws[k := v] - {k} == ws - {k};
  }
}
