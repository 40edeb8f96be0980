/** `Array.prototype.filter` on sequences, with the facts the comment view
    relies on: the result keeps exactly the selected elements, in order. */
module Seqs {

  /** `sub` is obtained from `s` by deleting elements, keeping the rest in order. */
  predicate IsSubsequence<T(==)>(sub: seq<T>, s: seq<T>)
    decreases |s|
  {
    if sub == [] then true
    else if s == [] then false
    else (sub[0] == s[0] && IsSubsequence(sub[1..], s[1..])) || IsSubsequence(sub, s[1..])
  }

  /** `s.filter(p)`. FilterCounts and FilterIsSubsequence together pin the
      result down. */
  function Filter<T>(p: T -> bool, s: seq<T>): seq<T>
  {
    if s == [] then []
    else (if p(s[0]) then [s[0]] else []) + Filter(p, s[1..])
  }

  /** The result holds every element that satisfies `p`, as often as `s`
      holds it, and nothing else. */
  lemma {:induction false} FilterCounts<T(!new)>(p: T -> bool, s: seq<T>)
    ensures forall x :: multiset(Filter(p, s))[x] == if p(x) then multiset(s)[x] else 0
  {
    if s != [] {
      FilterCounts(p, s[1..]);
      assert s == [s[0]] + s[1..];
    }
  }

  /** The filtered elements keep their relative order. */
  lemma {:induction false} FilterIsSubsequence<T(!new)>(p: T -> bool, s: seq<T>)
    ensures IsSubsequence(Filter(p, s), s)
  {
    if s != [] {
      FilterIsSubsequence(p, s[1..]);
      var r := Filter(p, s);
      if p(s[0]) {
        assert r[0] == s[0] && r[1..] == Filter(p, s[1..]);
      } else {
        assert r == Filter(p, s[1..]);
      }
    }
  }

  /** Filtering a concatenation filters each part. */
  lemma {:induction false} FilterAppend<T(!new)>(p: T -> bool, a: seq<T>, b: seq<T>)
    ensures Filter(p, a + b) == Filter(p, a) + Filter(p, b)
  {
    if a == [] {
      assert a + b == b;
    } else {
      var ab := a + b;
      assert ab[0] == a[0] && ab[1..] == a[1..] + b;
      FilterAppend(p, a[1..], b);
      var head := if p(a[0]) then [a[0]] else [];
      assert Filter(p, ab) == head + Filter(p, a[1..] + b);
      assert Filter(p, a) == head + Filter(p, a[1..]);
    }
  }

  /** Filtering by a test that no element of `s` satisfies leaves nothing. */
  lemma {:induction false} FilterNone<T(!new)>(p: T -> bool, s: seq<T>)
    requires forall i :: 0 <= i < |s| ==> !p(s[i])
    ensures Filter(p, s) == []
  {
    if s != [] {
      FilterNone(p, s[1..]);
    }
  }

  /** Filtering by a test that every element of `s` satisfies keeps all of it. */
  lemma {:induction false} FilterAll<T(!new)>(p: T -> bool, s: seq<T>)
    requires forall i :: 0 <= i < |s| ==> p(s[i])
    ensures Filter(p, s) == s
  {
    if s != [] {
      FilterAll(p, s[1..]);
      assert s == [s[0]] + s[1..];
    }
  }
}
