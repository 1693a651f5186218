/** `Array.prototype.sort` with a comparator, and SQL `ORDER BY`, both seen as
    a stable sort by a total preorder `le`. It is specified by insertion: the
    last element is placed after every element it is not below. */
module Sorting {

  ghost predicate Total<T(!new)>(le: (T, T) -> bool) {
    forall a, b :: le(a, b) || le(b, a)
  }

  ghost predicate Transitive<T(!new)>(le: (T, T) -> bool) {
    forall a, b, c :: le(a, b) && le(b, c) ==> le(a, c)
  }

  predicate Sorted<T>(le: (T, T) -> bool, s: seq<T>) {
    forall i, j :: 0 <= i < j < |s| ==> le(s[i], s[j])
  }

  /** `s` with `x` placed before its first element that is not `le` `x`. */
  function Insert<T>(le: (T, T) -> bool, x: T, s: seq<T>): seq<T> {
    if s == [] then [x]
    else if le(s[0], x) then [s[0]] + Insert(le, x, s[1..])
    else [x] + s
  }

  function Sort<T>(le: (T, T) -> bool, s: seq<T>): seq<T> {
    if s == [] then [] else Insert(le, s[|s| - 1], Sort(le, s[..|s| - 1]))
  }

  lemma {:induction false} InsertPermutes<T>(le: (T, T) -> bool, x: T, s: seq<T>)
    ensures multiset(Insert(le, x, s)) == multiset(s) + multiset{x}
  {
    if s != [] && le(s[0], x) {
      InsertPermutes(le, x, s[1..]);
      assert s == [s[0]] + s[1..];
    }
  }

  lemma SortedTail<T>(le: (T, T) -> bool, s: seq<T>)
    requires s != [] && Sorted(le, s)
    ensures Sorted(le, s[1..])
  {
    var t := s[1..];
    forall i, j | 0 <= i < j < |t| ensures le(t[i], t[j]) {
      assert t[i] == s[i + 1] && t[j] == s[j + 1];
    }
  }

  /** An element below every element of a sorted sequence can be put in front of it. */
  lemma SortedCons<T>(le: (T, T) -> bool, a: T, r: seq<T>)
    requires Sorted(le, r)
    requires forall j :: 0 <= j < |r| ==> le(a, r[j])
    ensures Sorted(le, [a] + r)
  {
    var w := [a] + r;
    forall i, j | 0 <= i < j < |w| ensures le(w[i], w[j]) {
      assert w[j] == r[j - 1];
      if i > 0 {
        assert w[i] == r[i - 1];
      }
    }
  }

  /** What `s[0]` is below stays below it after inserting into the tail `x`, which it is below too. */
  lemma HeadBelowInsert<T>(le: (T, T) -> bool, x: T, s: seq<T>)
    requires s != [] && Sorted(le, s) && le(s[0], x)
    ensures forall j :: 0 <= j < |Insert(le, x, s[1..])| ==> le(s[0], Insert(le, x, s[1..])[j])
  {
    var t := s[1..];
    InsertPermutes(le, x, t);
    var r := Insert(le, x, t);
    forall j | 0 <= j < |r| ensures le(s[0], r[j]) {
      assert r[j] in multiset(r);
      if r[j] != x {
        assert r[j] in multiset(t);
        var k :| 0 <= k < |t| && t[k] == r[j];
        assert s[k + 1] == t[k];
      }
    }
  }

  lemma {:induction false} InsertSorted<T(!new)>(le: (T, T) -> bool, x: T, s: seq<T>)
    requires Total(le) && Transitive(le) && Sorted(le, s)
    ensures Sorted(le, Insert(le, x, s))
  {
    if s == [] {
    } else if le(s[0], x) {
      SortedTail(le, s);
      InsertSorted(le, x, s[1..]);
      HeadBelowInsert(le, x, s);
      SortedCons(le, s[0], Insert(le, x, s[1..]));
    } else {
      assert le(x, s[0]);
      forall j | 0 <= j < |s| ensures le(x, s[j]) {
        if j > 0 {
          assert le(s[0], s[j]);
        }
      }
      SortedCons(le, x, s);
    }
  }

  /** The sort returns its input, rearranged, in non-decreasing order. */
  lemma {:induction false} SortCorrect<T(!new)>(le: (T, T) -> bool, s: seq<T>)
    requires Total(le) && Transitive(le)
    ensures Sorted(le, Sort(le, s))
    ensures multiset(Sort(le, s)) == multiset(s)
  {
    if s != [] {
      var init := s[..|s| - 1];
      SortCorrect(le, init);
      InsertSorted(le, s[|s| - 1], Sort(le, init));
      InsertPermutes(le, s[|s| - 1], Sort(le, init));
      assert s == init + [s[|s| - 1]];
    }
  }

  lemma SortLength<T(!new)>(le: (T, T) -> bool, s: seq<T>)
    requires Total(le) && Transitive(le)
    ensures |Sort(le, s)| == |s|
  {
    SortCorrect(le, s);
    assert |multiset(Sort(le, s))| == |multiset(s)|;
  }
}
