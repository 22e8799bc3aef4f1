/** A stable sort: what `Array.prototype.sort` and `slice::sort_by` promise. */
module Sorting {

  ghost predicate Total<T(!new)>(leq: (T, T) -> bool) {
    forall a, b :: leq(a, b) || leq(b, a)
  }

  ghost predicate Transitive<T(!new)>(leq: (T, T) -> bool) {
    forall a, b, c :: leq(a, b) && leq(b, c) ==> leq(a, c)
  }

  ghost predicate Sorted<T>(s: seq<T>, leq: (T, T) -> bool) {
    forall i, j :: 0 <= i < j < |s| ==> leq(s[i], s[j])
  }

  /** `x` goes behind the last element that is not greater. */
  function Insert<T>(s: seq<T>, x: T, leq: (T, T) -> bool): (r: seq<T>)
    ensures |r| == |s| + 1
  {
    if s == [] || leq(s[|s| - 1], x) then s + [x]
    else Insert(s[..|s| - 1], x, leq) + [s[|s| - 1]]
  }

  function Sort<T>(s: seq<T>, leq: (T, T) -> bool): (r: seq<T>)
    ensures |r| == |s|
  {
    if s == [] then [] else Insert(Sort(s[..|s| - 1], leq), s[|s| - 1], leq)
  }

  lemma InsertPermutes<T>(s: seq<T>, x: T, leq: (T, T) -> bool)
    ensures multiset(Insert(s, x, leq)) == multiset(s) + multiset{x}
  {
    if s != [] && !leq(s[|s| - 1], x) {
      InsertPermutes(s[..|s| - 1], x, leq);
      assert s == s[..|s| - 1] + [s[|s| - 1]];
    }
  }

  lemma SortPermutes<T>(s: seq<T>, leq: (T, T) -> bool)
    ensures multiset(Sort(s, leq)) == multiset(s)
  {
    if s != [] {
      SortPermutes(s[..|s| - 1], leq);
      InsertPermutes(Sort(s[..|s| - 1], leq), s[|s| - 1], leq);
      assert s == s[..|s| - 1] + [s[|s| - 1]];
    }
  }

  lemma InsertSorted<T(!new)>(s: seq<T>, x: T, leq: (T, T) -> bool)
    requires Total(leq) && Transitive(leq) && Sorted(s, leq)
    ensures Sorted(Insert(s, x, leq), leq)
    ensures forall y | y in Insert(s, x, leq) :: y == x || y in s
  {
    if s != [] {
      var last := s[|s| - 1];
      if leq(last, x) {
        assert forall i :: 0 <= i < |s| - 1 ==> leq(s[i], last);
      } else {
        var front := s[..|s| - 1];
        InsertSorted(front, x, leq);
        forall y | y in Insert(front, x, leq)
          ensures leq(y, last)
        {
          assert y == x || y in front;
        }
      }
    }
  }

  lemma SortSorted<T(!new)>(s: seq<T>, leq: (T, T) -> bool)
    requires Total(leq) && Transitive(leq)
    ensures Sorted(Sort(s, leq), leq)
  {
    if s != [] {
      SortSorted(s[..|s| - 1], leq);
      InsertSorted(Sort(s[..|s| - 1], leq), s[|s| - 1], leq);
    }
  }

  function Select<T>(s: seq<T>, p: T -> bool): seq<T> {
    if s == [] then [] else Select(s[..|s| - 1], p) + if p(s[|s| - 1]) then [s[|s| - 1]] else []
  }

  lemma SelectLast<T>(s: seq<T>, x: T, p: T -> bool)
    ensures Select(s + [x], p) == Select(s, p) + if p(x) then [x] else []
  {
  }

  lemma {:induction false} InsertStable<T(!new)>(s: seq<T>, x: T, leq: (T, T) -> bool, p: T -> bool)
    requires forall a, b :: p(a) && p(b) ==> leq(a, b)
    ensures Select(Insert(s, x, leq), p) == Select(s, p) + if p(x) then [x] else []
  {
    if s == [] || leq(s[|s| - 1], x) {
      SelectLast(s, x, p);
    } else {
      var front, last := s[..|s| - 1], s[|s| - 1];
      InsertStable(front, x, leq, p);
      SelectLast(Insert(front, x, leq), last, p);
    }
  }

  /** Elements that rank alike keep their order. */
  lemma {:induction false} SortStable<T(!new)>(s: seq<T>, leq: (T, T) -> bool, p: T -> bool)
    requires forall a, b :: p(a) && p(b) ==> leq(a, b)
    ensures Select(Sort(s, leq), p) == Select(s, p)
  {
    if s != [] {
      SortStable(s[..|s| - 1], leq, p);
      InsertStable(Sort(s[..|s| - 1], leq), s[|s| - 1], leq, p);
    }
  }

  ghost predicate Ranks<T(!new)>(leq: (T, T) -> bool, key: T -> int) {
    forall a, b :: leq(a, b) <==> key(a) <= key(b)
  }

  /** Element `i` is the first of the least ones. */
  ghost predicate FirstLeast<T>(s: seq<T>, key: T -> int, i: nat) {
    && i < |s|
    && (forall j :: 0 <= j < |s| ==> key(s[i]) <= key(s[j]))
    && (forall j :: 0 <= j < i ==> key(s[i]) < key(s[j]))
  }

  lemma FirstLeastOfMore<T>(s: seq<T>, key: T -> int, i: nat)
    requires s != [] && FirstLeast(s[..|s| - 1], key, i)
    ensures FirstLeast(s, key, if key(s[i]) <= key(s[|s| - 1]) then i else |s| - 1)
  {
  }

  /** Sorting by a number puts the first of the least elements at the head. */
  lemma {:induction false} SortHead<T(!new)>(s: seq<T>, leq: (T, T) -> bool, key: T -> int) returns (i: nat)
    requires s != [] && Ranks(leq, key)
    ensures FirstLeast(s, key, i) && s[i] == Sort(s, leq)[0]
  {
    var n := |s| - 1;
    if n == 0 {
      i := 0;
      assert Sort(s[..n], leq) == [];
    } else {
      i := SortHead(s[..n], leq, key);
      RanksOrder(leq, key);
      SortSorted(s[..n], leq);
      hide Ranks, Sorted, FirstLeast, Insert, Sort;
      InsertHead(Sort(s[..n], leq), s[n], leq, key);
      FirstLeastOfMore(s, key, i);
      SortLast(s, leq);
      i := if key(s[i]) <= key(s[n]) then i else n;
    }
  }

  lemma SortLast<T>(s: seq<T>, leq: (T, T) -> bool)
    requires s != []
    ensures Sort(s, leq) == Insert(Sort(s[..|s| - 1], leq), s[|s| - 1], leq)
  {
  }

  lemma RanksOrder<T(!new)>(leq: (T, T) -> bool, key: T -> int)
    requires Ranks(leq, key)
    ensures Total(leq) && Transitive(leq)
  {
  }

  /** Inserting keeps the head unless the newcomer is strictly smaller: ties go to the earlier element. */
  lemma {:induction false} InsertHead<T(!new)>(s: seq<T>, x: T, leq: (T, T) -> bool, key: T -> int)
    requires s != [] && Ranks(leq, key) && Sorted(s, leq)
    ensures Insert(s, x, leq)[0] == if key(s[0]) <= key(x) then s[0] else x
  {
    if !leq(s[|s| - 1], x) && |s| > 1 {
      InsertHead(s[..|s| - 1], x, leq, key);
    }
  }
}
