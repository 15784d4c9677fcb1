/** Sums of the integers stored in a finite map, taken in any order. */
module Totals {

  ghost function Total(m: map<nat, int>): int
    decreases |m|
  {
    if m == map[] then 0
    else
      var k :| k in m;
      m[k] + Total(m - {k})
  }

  /** The order in which keys are taken out does not matter. */
  lemma {:induction false} TotalTakeOut(m: map<nat, int>, k: nat)
    requires k in m
    ensures Total(m) == m[k] + Total(m - {k})
    decreases |m|
  {
    var j :| j in m && Total(m) == m[j] + Total(m - {j});
    if j != k {
      TotalTakeOut(m - {j}, k);
      TotalTakeOut(m - {k}, j);
      assert m - {j} - {k} == m - {k} - {j};
    }
  }

  /** A fresh key adds its value. */
  lemma TotalInsert(m: map<nat, int>, k: nat, v: int)
    requires k !in m
    ensures Total(m[k := v]) == Total(m) + v
  {
    TotalTakeOut(m[k := v], k);
    assert m[k := v] - {k} == m;
  }

  /** A map is a part of it and the rest. */
  lemma {:induction false} TotalParts(whole: map<nat, int>, part: map<nat, int>, rest: map<nat, int>)
    requires forall k :: k in part ==> k in whole && whole[k] == part[k]
    requires rest == whole - part.Keys
    ensures Total(whole) == Total(part) + Total(rest)
    decreases |part|
  {
    if part == map[] {
      assert rest == whole;
    } else {
      var k :| k in part;
      TotalTakeOut(whole, k);
      TotalTakeOut(part, k);
      assert rest == (whole - {k}) - (part - {k}).Keys;
      TotalParts(whole - {k}, part - {k}, rest);
    }
  }
}
