/** The last element of a sequence and what comes before it: most records here grow at the end. */
module Sequences {
  function Init<T>(s: seq<T>): seq<T>
    requires s != []
  {
    s[..|s| - 1]
  }

  function Last<T>(s: seq<T>): T
    requires s != []
  {
    s[|s| - 1]
  }

  /** Values are distinct when there are as many of them as entries. */
  lemma {:induction false} DistinctCounted<T>(s: seq<T>)
    ensures |set x | x in s| <= |s|
    ensures (forall i, j :: 0 <= i < j < |s| ==> s[i] != s[j]) <==> |set x | x in s| == |s|
  {
    if s != [] {
      var before, last := Init(s), Last(s);
      DistinctCounted(before);
      assert forall x :: x in s <==> x in before || x == last;
      assert (set x | x in s) == (set x | x in before) + {last};
      if last in before {
        var i :| 0 <= i < |before| && before[i] == last;
        assert s[i] == s[|before|];
      } else {
        assert forall i :: 0 <= i < |before| ==> s[i] == before[i] && before[i] in before;
      }
    }
  }
}
