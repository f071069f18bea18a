/**
 * Small shared vocabulary: optional values and facts about duplicate-free sequences.
 */
module Basics {
  datatype Option<+T> = None | Some(value: T)

  ghost predicate Distinct<T>(s: seq<T>) {
    forall i, j :: 0 <= i < j < |s| ==> s[i] != s[j]
  }

  ghost function Elements<T>(s: seq<T>): set<T> {
    set x | x in s
  }

  lemma ElementsConcat<T>(a: seq<T>, b: seq<T>)
    ensures Elements(a + b) == Elements(a) + Elements(b)
  {
    forall x | x in Elements(a) + Elements(b) ensures x in a + b {
      if x in a {
        var i :| 0 <= i < |a| && a[i] == x;
        assert (a + b)[i] == x;
      } else {
        var i :| 0 <= i < |b| && b[i] == x;
        assert (a + b)[|a| + i] == x;
      }
    }
  }

  /** A duplicate-free sequence has as many elements as positions. */
  lemma {:induction false} DistinctCount<T>(s: seq<T>)
    requires Distinct(s)
    ensures |Elements(s)| == |s|
  {
    if s != [] {
      var front, last := s[..|s| - 1], s[|s| - 1];
      DistinctCount(front);
      assert last !in front;
      ElementsConcat(front, [last]);
      assert s == front + [last];
      assert Elements([last]) == {last};
    }
  }

  function Min(a: int, b: int): int {
    if a <= b then a else b
  }

  function Max(a: int, b: int): int {
    if a >= b then a else b
  }
}
