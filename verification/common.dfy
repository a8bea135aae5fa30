/**
 * Sequence helpers shared by the view-models: the optional value used for
 * `T | null` cells, JavaScript's order-preserving `Array.prototype.filter`,
 * and the "subsequence" and "no duplicates" relations the lemmas speak of.
 */
module Common {

  /** A value that may be absent (`null` in the dashboard's state cells). */
  datatype Option<+T> = None | Some(value: T)

  /** `Array.prototype.filter`: keeps the elements satisfying `p`, in order. */
  function Filter<T(==,!new)>(p: T -> bool, s: seq<T>): (r: seq<T>)
    ensures |r| <= |s|
    ensures forall x :: x in r <==> x in s && p(x)
  {
    if s == [] then [] else (if p(s[0]) then [s[0]] else []) + Filter(p, s[1..])
  }

  /** The predicate of `s => s !== x`. */
  function NotEqualTo<T(==)>(x: T): T -> bool
  {
    y => y != x
  }

  /** `r` can be obtained from `s` by deleting elements (order is kept). */
  predicate IsSubsequence<T(==)>(r: seq<T>, s: seq<T>)
    decreases |s|
  {
    r == [] ||
    (s != [] && ((r[0] == s[0] && IsSubsequence(r[1..], s[1..])) || IsSubsequence(r, s[1..])))
  }

  predicate NoDuplicates<T(==)>(s: seq<T>)
  {
    forall i, j :: 0 <= i < j < |s| ==> s[i] != s[j]
  }

  /** Filtering distributes over concatenation. */
  lemma {:induction false} FilterAppend<T(!new)>(p: T -> bool, a: seq<T>, b: seq<T>)
    ensures Filter(p, a + b) == Filter(p, a) + Filter(p, b)
  {
    if a == [] {
      assert a + b == b;
    } else {
      assert (a + b)[1..] == a[1..] + b;
      FilterAppend(p, a[1..], b);
    }
  }

  /** One step of the filter: the head is kept exactly when it satisfies `p`. */
  lemma FilterCons<T(!new)>(p: T -> bool, x: T, s: seq<T>)
    ensures Filter(p, [x] + s) == (if p(x) then [x] else []) + Filter(p, s)
  {
    assert ([x] + s)[1..] == s;
  }

  /** Moving `x` past `y` does not change a filter that keeps at most one
      of the two. */
  lemma FilterSwap<T(!new)>(p: T -> bool, x: T, y: T, s: seq<T>, t: seq<T>)
    requires !(p(x) && p(y))
    requires Filter(p, t) == Filter(p, [x] + s)
    ensures Filter(p, [y] + t) == Filter(p, [x] + ([y] + s))
  {
    FilterCons(p, y, t);
    FilterCons(p, x, s);
    FilterCons(p, y, s);
    FilterCons(p, x, [y] + s);
  }

  /** Each value occurs in the result as often as in the input when it
      satisfies `p`, and not at all otherwise. */
  lemma {:induction false} FilterCount<T(!new)>(p: T -> bool, s: seq<T>)
    ensures forall x :: multiset(Filter(p, s))[x] == if p(x) then multiset(s)[x] else 0
  {
    if s != [] {
      FilterCount(p, s[1..]);
      assert s == [s[0]] + s[1..];
    }
  }

  /** A filter whose predicate holds of every element returns its input. */
  lemma {:induction false} FilterKeepsAll<T(!new)>(p: T -> bool, s: seq<T>)
    requires forall x :: x in s ==> p(x)
    ensures Filter(p, s) == s
  {
    if s != [] {
      FilterKeepsAll(p, s[1..]);
    }
  }

  /** Nothing passes: the filter is empty. */
  lemma {:induction false} FilterKeepsNone<T(!new)>(p: T -> bool, s: seq<T>)
    requires forall i :: 0 <= i < |s| ==> !p(s[i])
    ensures Filter(p, s) == []
  {
    if s != [] {
      FilterKeepsNone(p, s[1..]);
    }
  }

  /** Filtering twice with the same predicate changes nothing more. */
  lemma FilterIdempotent<T(!new)>(p: T -> bool, s: seq<T>)
    ensures Filter(p, Filter(p, s)) == Filter(p, s)
  {
    FilterKeepsAll(p, Filter(p, s));
  }

  /** The filtered sequence keeps the relative order of the input. */
  lemma {:induction false} FilterIsSubsequence<T(!new)>(p: T -> bool, s: seq<T>)
    ensures IsSubsequence(Filter(p, s), s)
  {
    if s != [] {
      FilterIsSubsequence(p, s[1..]);
      var r := Filter(p, s[1..]);
      if p(s[0]) {
        assert Filter(p, s) == [s[0]] + r;
      } else {
        assert Filter(p, s) == r;
      }
    }
  }

  /** Removing every copy of `x` from a sequence that has none is the identity. */
  lemma RemoveAbsent<T(!new)>(x: T, s: seq<T>)
    requires x !in s
    ensures Filter(NotEqualTo(x), s) == s
  {
    FilterKeepsAll(NotEqualTo(x), s);
  }
}
