/** A stable sort by a comparator, the model of `stream().sorted(comparator)`.
    With a comparator that is total on the elements, Java's stable merge sort
    and this insertion sort put the elements in the same order. */
module Sorting {

  /** `le(a, b)`: `a` may be placed before `b`. */
  predicate SortedBy<T>(s: seq<T>, le: (T, T) -> bool)
  {
    forall i :: 0 < i < |s| ==> le(s[i - 1], s[i])
  }

  /** The comparator orders every two elements of `s` one way or the other. */
  predicate TotalOn<T>(s: seq<T>, le: (T, T) -> bool)
  {
    forall i, j :: 0 <= i < |s| && 0 <= j < |s| ==> le(s[i], s[j]) || le(s[j], s[i])
  }

  /** Puts `x` in front of the first element it may precede. */
  function Insert<T>(x: T, s: seq<T>, le: (T, T) -> bool): (r: seq<T>)
    ensures multiset(r) == multiset(s) + multiset{x}
    ensures |r| == |s| + 1
  {
    if s == [] then [x]
    else if le(x, s[0]) then [x] + s
    else
      assert s == [s[0]] + s[1..];
      [s[0]] + Insert(x, s[1..], le)
  }

  function Sort<T>(s: seq<T>, le: (T, T) -> bool): (r: seq<T>)
    ensures multiset(r) == multiset(s)
    ensures |r| == |s|
  {
    if s == [] then []
    else
      assert s == [s[0]] + s[1..];
      Insert(s[0], Sort(s[1..], le), le)
  }

  lemma {:induction false} InsertSorted<T>(x: T, s: seq<T>, le: (T, T) -> bool)
    requires SortedBy(s, le)
    requires forall k :: 0 <= k < |s| ==> le(x, s[k]) || le(s[k], x)
    ensures SortedBy(Insert(x, s, le), le)
  {
    if s != [] && !le(x, s[0]) {
      InsertSorted(x, s[1..], le);
      var t := Insert(x, s[1..], le);
      assert t[0] == x || t[0] == s[1];
    }
  }

  lemma {:induction false} TotalOnTail<T>(s: seq<T>, le: (T, T) -> bool)
    requires s != [] && TotalOn(s, le)
    ensures TotalOn(s[1..], le)
  {
    forall i, j | 0 <= i < |s| - 1 && 0 <= j < |s| - 1
      ensures le(s[1..][i], s[1..][j]) || le(s[1..][j], s[1..][i])
    {
      assert s[1..][i] == s[i + 1] && s[1..][j] == s[j + 1];
    }
  }

  /** The sorted listing holds every element exactly as often as the input
      and, for a comparator total on the elements, is in order. */
  lemma {:induction false} SortSorted<T>(s: seq<T>, le: (T, T) -> bool)
    requires TotalOn(s, le)
    ensures SortedBy(Sort(s, le), le)
    ensures multiset(Sort(s, le)) == multiset(s)
  {
    if s != [] {
      TotalOnTail(s, le);
      SortSorted(s[1..], le);
      var t := Sort(s[1..], le);
      forall k | 0 <= k < |t| ensures le(s[0], t[k]) || le(t[k], s[0]) {
        assert t[k] in multiset(s[1..]);
        var j :| 0 <= j < |s[1..]| && s[1..][j] == t[k];
        assert s[j + 1] == t[k];
      }
      InsertSorted(s[0], t, le);
    }
  }

  function MapSeq<T, U>(s: seq<T>, f: T -> U): (r: seq<U>)
    ensures |r| == |s|
    ensures forall i :: 0 <= i < |s| ==> r[i] == f(s[i])
  {
    if s == [] then [] else [f(s[0])] + MapSeq(s[1..], f)
  }

  lemma {:induction false} MapInsert<T, U>(x: T, s: seq<T>, le: (T, T) -> bool, f: T -> U)
    ensures multiset(MapSeq(Insert(x, s, le), f)) == multiset(MapSeq(s, f)) + multiset{f(x)}
  {
    if s != [] && !le(x, s[0]) {
      MapInsert(x, s[1..], le, f);
      assert MapSeq(s, f) == [f(s[0])] + MapSeq(s[1..], f);
    }
  }

  /** Sorting and then mapping gives, counted with multiplicity, what
      mapping alone gives: every element's image is listed exactly once. */
  lemma {:induction false} MapSort<T, U>(s: seq<T>, le: (T, T) -> bool, f: T -> U)
    ensures multiset(MapSeq(Sort(s, le), f)) == multiset(MapSeq(s, f))
  {
    if s != [] {
      MapSort(s[1..], le, f);
      MapInsert(s[0], Sort(s[1..], le), le, f);
    }
  }
}
