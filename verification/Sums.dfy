/** The sum of a table's column. */
module Sums {
  ghost function SomeKey(keys: set<int>): (d: int)
    requires keys != {}
    ensures d in keys
  {
    assert exists d :: d in keys by {
      if forall d :: d !in keys {
        assert false;
      }
    }
    var d :| d in keys; d
  }

  ghost function Total(m: map<int, int>): int {
    if m.Keys == {} then 0
    else
      var d := SomeKey(m.Keys);
      m[d] + Total(m - {d})
  }

  lemma {:induction false} TotalSplits(m: map<int, int>, k: int)
    requires k in m
    ensures Total(m) == m[k] + Total(m - {k})
    decreases |m|
  {
    var d := SomeKey(m.Keys);
    if d != k {
      TotalSplits(m - {d}, k);
      TotalSplits(m - {k}, d);
      assert m - {d} - {k} == m - {k} - {d};
    }
  }
}
