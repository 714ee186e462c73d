/** The pure rules of an optimization: its status graph, its candidate grid, its partitions and the
    choice of the winner. */
module Optimization {
  import opened Wrappers
  import opened Sequences
  import opened Ordering

  type Id = nat

  // ---- Status graph ----

  datatype Status = Created | Validating | RunningTrainValidation | Selecting | RunningHoldout
                  | Completed | Failed | Cancelled

  predicate TransitionAllowed(current: Status, next: Status) {
    match current
    case Created => next in {Validating, Cancelled, Failed}
    case Validating => next in {RunningTrainValidation, Failed}
    case RunningTrainValidation => next in {Selecting, Failed}
    case Selecting => next in {RunningHoldout, Failed}
    case RunningHoldout => next in {Completed, Failed}
    case _ => false
  }

  function Rank(s: Status): nat {
    match s
    case Created => 0
    case Validating => 1
    case RunningTrainValidation => 2
    case Selecting => 3
    case RunningHoldout => 4
    case _ => 5
  }

  predicate Terminal(s: Status) {
    s in {Completed, Failed, Cancelled}
  }

  /** Every allowed edge goes up in rank, so a path has at most five; the terminal statuses have none. */
  lemma EdgesClimb(a: Status, b: Status)
    ensures TransitionAllowed(a, b) ==> Rank(a) < Rank(b) <= 5
    ensures Terminal(a) <==> forall s: Status :: !TransitionAllowed(a, s)
    ensures TransitionAllowed(a, b) <==>
      || (b == Failed && !Terminal(a))
      || (a, b) in {(Created, Validating), (Created, Cancelled), (Validating, RunningTrainValidation),
                    (RunningTrainValidation, Selecting), (Selecting, RunningHoldout), (RunningHoldout, Completed)}
  {
    assert TransitionAllowed(Created, Failed) && TransitionAllowed(Validating, Failed)
           && TransitionAllowed(RunningTrainValidation, Failed) && TransitionAllowed(Selecting, Failed)
           && TransitionAllowed(RunningHoldout, Failed);
  }

  // ---- Grid ----

  datatype Windows = Windows(fast: int, slow: int)

  predicate IntLess(a: int, b: int) {
    a < b
  }

  predicate WindowsLess(a: Windows, b: Windows) {
    a.fast < b.fast || (a.fast == b.fast && a.slow < b.slow)
  }

  function Pairs(fast: int, slows: seq<int>): seq<Windows> {
    if slows == [] then [] else [Windows(fast, slows[0])] + Pairs(fast, slows[1..])
  }

  function Product(fasts: seq<int>, slows: seq<int>): seq<Windows> {
    if fasts == [] then [] else Pairs(fasts[0], slows) + Product(fasts[1..], slows)
  }

  function CanonicalizeGrid(fasts: seq<int>, slows: seq<int>): seq<Windows> {
    SortDistinct(WindowsLess, Product(SortDistinct(IntLess, fasts), SortDistinct(IntLess, slows)))
  }

  lemma {:induction false} PairsExactly(fast: int, slows: seq<int>)
    ensures forall w :: w in Pairs(fast, slows) <==> w.fast == fast && w.slow in slows
  {
    if slows != [] {
      PairsExactly(fast, slows[1..]);
    }
  }

  lemma {:induction false} ProductExactly(fasts: seq<int>, slows: seq<int>)
    ensures forall w :: w in Product(fasts, slows) <==> w.fast in fasts && w.slow in slows
  {
    if fasts != [] {
      PairsExactly(fasts[0], slows);
      ProductExactly(fasts[1..], slows);
      forall w ensures w in Product(fasts, slows) <==> w.fast in fasts && w.slow in slows {
        assert w.fast in fasts <==> w.fast == fasts[0] || w.fast in fasts[1..];
      }
    }
  }

  lemma WindowsTotal()
    ensures StrictTotal(WindowsLess) && StrictTotal(IntLess)
  {}

  /** The grid is the full product of the declared windows, each pair once, in lexicographic order. */
  lemma GridIsSortedProduct(fasts: seq<int>, slows: seq<int>)
    ensures Increasing(WindowsLess, CanonicalizeGrid(fasts, slows))
    ensures forall w :: w in CanonicalizeGrid(fasts, slows) <==> w.fast in fasts && w.slow in slows
  {
    WindowsTotal();
    SortDistinctOk(IntLess, fasts);
    SortDistinctOk(IntLess, slows);
    ProductExactly(SortDistinct(IntLess, fasts), SortDistinct(IntLess, slows));
    SortDistinctOk(WindowsLess, Product(SortDistinct(IntLess, fasts), SortDistinct(IntLess, slows)));
  }

  /** So neither the order in which windows are declared nor repeats matter. */
  lemma GridIgnoresOrder(f1: seq<int>, s1: seq<int>, f2: seq<int>, s2: seq<int>)
    requires (forall x :: x in f1 <==> x in f2) && (forall x :: x in s1 <==> x in s2)
    ensures CanonicalizeGrid(f1, s1) == CanonicalizeGrid(f2, s2)
  {
    GridIsSortedProduct(f1, s1);
    GridIsSortedProduct(f2, s2);
    WindowsTotal();
    IncreasingUnique(WindowsLess, CanonicalizeGrid(f1, s1), CanonicalizeGrid(f2, s2));
  }

  predicate ValidPair(w: Windows) {
    w.fast < w.slow
  }

  // ---- Partitions ----

  datatype Partitions = Partitions(trainStart: int, trainEnd: int, validationStart: int, validationEnd: int,
                                   holdoutStart: int, holdoutEnd: int)

  predicate OrderedPartitions(p: Partitions) {
    p.trainStart <= p.trainEnd < p.validationStart <= p.validationEnd < p.holdoutStart <= p.holdoutEnd
  }

  // ---- Selection ----

  datatype Scored = Scored(candidateId: Id, windows: Windows, value: Option<real>)

  /** `a` ranks strictly before `b`: higher value, then lower slow window, then lower fast window,
      then lower id. */
  predicate Better(a: Scored, b: Scored)
    requires a.value.Some? && b.value.Some?
  {
    || b.value.value < a.value.value
    || (a.value == b.value
        && (|| a.windows.slow < b.windows.slow
            || (a.windows.slow == b.windows.slow
                && (|| a.windows.fast < b.windows.fast
                    || (a.windows.fast == b.windows.fast && a.candidateId < b.candidateId)))))
  }

  /** The minimum under the ranking key among the candidates with a value; the first one of equals. */
  function SelectCandidate(candidates: seq<Scored>): (r: Option<Scored>)
    ensures r.Some? ==> r.value.value.Some?
  {
    if candidates == [] then None
    else
      var before, last := SelectCandidate(Init(candidates)), Last(candidates);
      if last.value.None? then before
      else if before.None? || Better(last, before.value) then Some(last)
      else before
  }

  predicate IsBest(candidates: seq<Scored>, best: Scored) {
    && best in candidates && best.value.Some?
    && forall c :: c in candidates && c.value.Some? ==> c == best || Better(best, c)
  }

  /** The winner exists exactly when some candidate has a value, and beats every other one. */
  lemma {:induction false} SelectedIsBest(candidates: seq<Scored>)
    ensures SelectCandidate(candidates).Some? <==> exists c :: c in candidates && c.value.Some?
    ensures SelectCandidate(candidates).Some? ==> IsBest(candidates, SelectCandidate(candidates).value)
  {
    if candidates != [] {
      var before, last := Init(candidates), Last(candidates);
      SelectedIsBest(before);
      assert candidates == before + [last];
      assert forall c :: c in candidates <==> c in before || c == last;
      if last.value.Some? {
        assert last in candidates;
      }
    }
  }

  lemma BestIsUnique(candidates: seq<Scored>, a: Scored, b: Scored)
    requires IsBest(candidates, a) && IsBest(candidates, b)
    ensures a == b
  {}

  /** Selection looks only at which candidates there are, not at how they are listed. */
  lemma SelectionIgnoresOrder(a: seq<Scored>, b: seq<Scored>)
    requires forall c :: c in a <==> c in b
    ensures SelectCandidate(a) == SelectCandidate(b)
  {
    SelectedIsBest(a);
    SelectedIsBest(b);
    if SelectCandidate(a).Some? && SelectCandidate(b).Some? {
      BestIsUnique(a, SelectCandidate(a).value, SelectCandidate(b).value);
    }
  }

  predicate DistinctWindows(a: seq<Scored>) {
    forall i, j :: 0 <= i < j < |a| ==> a[i].windows != a[j].windows
  }

  predicate SameButIds(a: seq<Scored>, b: seq<Scored>) {
    && |a| == |b|
    && forall i :: 0 <= i < |a| ==> a[i].windows == b[i].windows && a[i].value == b[i].value
  }

  /** As no two candidates share both windows, the ids never decide: the winning windows and value
      are the same whatever ids the candidates were given. */
  lemma SelectionIgnoresIds(a: seq<Scored>, b: seq<Scored>)
    requires SameButIds(a, b) && DistinctWindows(a)
    ensures SelectCandidate(a).Some? <==> SelectCandidate(b).Some?
    ensures SelectCandidate(a).Some? ==>
      SelectCandidate(a).value.windows == SelectCandidate(b).value.windows
          && SelectCandidate(a).value.value == SelectCandidate(b).value.value
  {
    hide SelectCandidate, Better;
    SelectedIsBest(a);
    SelectedIsBest(b);
    ValuesMatch(a, b);
    ValuesMatch(b, a);
    if SelectCandidate(a).Some? {
      var i := BestMatches(a, b, SelectCandidate(a).value);
      BestIsUnique(b, b[i], SelectCandidate(b).value);
    }
  }

  lemma ValuesMatch(a: seq<Scored>, b: seq<Scored>)
    requires SameButIds(a, b)
    ensures (exists c :: c in a && c.value.Some?) ==> (exists c :: c in b && c.value.Some?)
  {
    if c :| c in a && c.value.Some? {
      var i :| 0 <= i < |a| && a[i] == c;
      assert b[i] in b && b[i].value.Some?;
    }
  }

  lemma BestMatches(a: seq<Scored>, b: seq<Scored>, best: Scored) returns (i: nat)
    requires SameButIds(a, b) && DistinctWindows(a) && IsBest(a, best)
    ensures i < |a| && a[i] == best && IsBest(b, b[i])
  {
    i :| 0 <= i < |a| && a[i] == best;
    forall c | c in b && c.value.Some?
      ensures c == b[i] || Better(b[i], c)
    {
      var j :| 0 <= j < |b| && b[j] == c;
      assert a[j] in a;
      assert j != i ==> a[j].windows != a[i].windows;
    }
  }
}
