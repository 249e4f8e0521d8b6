/** What the friendship streak and the course streak share: runs of consecutive days, and milestones. */
module StreakRules {
  const MILESTONES: seq<nat> := [2, 3, 7, 14, 30, 50, 100, 365]

  /** The number of consecutive days of `days` that end at `d`. */
  ghost function RunLength(days: set<int>, d: int): nat
    decreases days
  {
    if d !in days then 0 else 1 + RunLength(days - {d}, d - 1)
  }

  lemma {:induction false} RunLengthIgnoresLater(days: set<int>, x: int, d: int)
    requires d < x
    ensures RunLength(days - {x}, d) == RunLength(days, d) == RunLength(days + {x}, d)
    decreases days
  {
    if d in days {
      RunLengthIgnoresLater(days - {d}, x, d - 1);
      assert days - {x} - {d} == days - {d} - {x};
      assert days + {x} - {d} == days - {d} + {x};
    }
  }

  /** It is the length of the maximal run: every day of it is in the set, the day before it is not. */
  lemma {:induction false} RunLengthIsMaximal(days: set<int>, d: int)
    ensures forall k :: d - RunLength(days, d) < k <= d ==> k in days
    ensures d - RunLength(days, d) !in days
    decreases days
  {
    if d in days {
      RunLengthIsMaximal(days - {d}, d - 1);
    }
  }

  /** The last milestone in the list that is reached and above `last`; 0 if there is none. */
  function Crossed(ms: seq<nat>, streak: nat, last: nat): nat {
    if ms == [] then 0
    else
      var m := ms[|ms| - 1];
      if streak >= m && m > last then m else Crossed(ms[..|ms| - 1], streak, last)
  }

  ghost predicate Increasing(ms: seq<nat>) { forall i, j :: 0 <= i < j < |ms| ==> ms[i] < ms[j] }

  /** The milestone announced is the greatest one reached, if that is above the last one announced. */
  lemma {:induction false} CrossedIsGreatest(ms: seq<nat>, streak: nat, last: nat)
    requires Increasing(ms)
    ensures var m := Crossed(ms, streak, last);
            && (m > 0 ==> m in ms && last < m <= streak)
            && (forall x :: x in ms && x <= streak ==> x <= m || x <= last)
  {
    if ms != [] {
      CrossedIsGreatest(ms[..|ms| - 1], streak, last);
      assert ms == ms[..|ms| - 1] + [ms[|ms| - 1]];
    }
  }
}
