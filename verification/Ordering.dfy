/** Sorting a list of values into the strictly increasing list of the same values, and why that list
    is unique. */
module Ordering {
  ghost predicate StrictTotal<T(!new)>(less: (T, T) -> bool) {
    && (forall a, b :: less(a, b) ==> !less(b, a))
    && (forall a, b :: a == b || less(a, b) || less(b, a))
    && (forall a, b, c :: less(a, b) && less(b, c) ==> less(a, c))
  }

  predicate Increasing<T>(less: (T, T) -> bool, s: seq<T>) {
    forall i, j :: 0 <= i < j < |s| ==> less(s[i], s[j])
  }

  function InsertDistinct<T(==)>(less: (T, T) -> bool, x: T, s: seq<T>): seq<T> {
    if s == [] then [x]
    else if x == s[0] then s
    else if less(x, s[0]) then [x] + s
    else [s[0]] + InsertDistinct(less, x, s[1..])
  }

  /** `sorted(set(s))`. */
  function SortDistinct<T(==)>(less: (T, T) -> bool, s: seq<T>): seq<T> {
    if s == [] then [] else InsertDistinct(less, s[0], SortDistinct(less, s[1..]))
  }

  lemma {:induction false} InsertDistinctOk<T(!new)>(less: (T, T) -> bool, x: T, s: seq<T>)
    requires StrictTotal(less) && Increasing(less, s)
    ensures Increasing(less, InsertDistinct(less, x, s))
    ensures forall y :: y in InsertDistinct(less, x, s) <==> y == x || y in s
  {
    if s != [] && x != s[0] {
      if less(x, s[0]) {
        assert forall j :: 0 < j < |s| ==> less(s[0], s[j]);
      } else {
        InsertDistinctOk(less, x, s[1..]);
        var rest := InsertDistinct(less, x, s[1..]);
        forall j | 0 <= j < |rest| ensures less(s[0], rest[j]) {
          assert rest[j] in rest;
        }
      }
    }
  }

  lemma {:induction false} SortDistinctOk<T(!new)>(less: (T, T) -> bool, s: seq<T>)
    requires StrictTotal(less)
    ensures Increasing(less, SortDistinct(less, s))
    ensures forall y :: y in SortDistinct(less, s) <==> y in s
  {
    if s != [] {
      SortDistinctOk(less, s[1..]);
      InsertDistinctOk(less, s[0], SortDistinct(less, s[1..]));
    }
  }

  /** Two strictly increasing lists of the same values are the same list. */
  lemma {:induction false} IncreasingUnique<T(!new)>(less: (T, T) -> bool, a: seq<T>, b: seq<T>)
    requires StrictTotal(less) && Increasing(less, a) && Increasing(less, b)
    requires forall y :: y in a <==> y in b
    ensures a == b
    decreases |a|
  {
    if a == [] {
      HasMember(b);
    } else {
      assert a[0] in a && a[0] in b;
      assert b[0] in b && b[0] in a;
      SameHead(less, a, b);
      forall y ensures y in a[1..] <==> y in b[1..] {
        TailMembers(less, a, y);
        TailMembers(less, b, y);
      }
      IncreasingUnique(less, a[1..], b[1..]);
      assert a == [a[0]] + a[1..] && b == [b[0]] + b[1..];
    }
  }

  lemma HasMember<T>(s: seq<T>)
    ensures s != [] ==> exists y :: y in s
  {
    assert s != [] ==> s[0] in s;
  }

  lemma SameHead<T(!new)>(less: (T, T) -> bool, a: seq<T>, b: seq<T>)
    requires StrictTotal(less) && Increasing(less, a) && Increasing(less, b)
    requires a != [] && b != [] && a[0] in b && b[0] in a
    ensures a[0] == b[0]
  {
    var i :| 0 <= i < |b| && b[i] == a[0];
    var j :| 0 <= j < |a| && a[j] == b[0];
    assert i > 0 ==> less(b[0], b[i]);
    assert j > 0 ==> less(a[0], a[j]);
  }

  lemma TailMembers<T(!new)>(less: (T, T) -> bool, a: seq<T>, y: T)
    requires StrictTotal(less) && Increasing(less, a) && a != []
    ensures y in a[1..] <==> y in a && y != a[0]
  {
    if y in a[1..] {
      var j :| 0 <= j < |a[1..]| && a[1..][j] == y;
      assert less(a[0], a[j + 1]);
    }
    if y in a && y != a[0] {
      var j :| 0 <= j < |a| && a[j] == y;
      assert a[1..][j - 1] == y;
    }
  }
}
