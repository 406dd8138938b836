/** The array operations the pages use (`filter`, `find`, `slice(0, n)`), over
    sequences, with the facts the page-level properties rest on. */
module Lists {
  import opened Wrappers

  /** `s.filter(p)`: the elements satisfying `p`, in their original order. */
  function Filter<T>(s: seq<T>, p: T -> bool): (r: seq<T>)
    ensures |r| <= |s|
    ensures forall x :: x in r ==> x in s && p(x)
    decreases s
  {
    if s == [] then [] else (if p(s[0]) then [s[0]] else []) + Filter(s[1..], p)
  }

  /** `r` can be obtained from `s` by deleting elements (order is kept). */
  predicate IsSubsequence<T(==)>(r: seq<T>, s: seq<T>)
    decreases s
  {
    if r == [] then true
    else if s == [] then false
    else (r[0] == s[0] && IsSubsequence(r[1..], s[1..])) || IsSubsequence(r, s[1..])
  }

  /** `s.filter(p).length`. */
  function Count<T>(s: seq<T>, p: T -> bool): nat {
    |Filter(s, p)|
  }

  /** The index of the first element satisfying `p`, if any. */
  function FindIndex<T>(s: seq<T>, p: T -> bool): (r: Option<nat>)
    ensures r.None? <==> forall i :: 0 <= i < |s| ==> !p(s[i])
    ensures r.Some? ==> r.value < |s| && p(s[r.value]) && FirstSatisfying(s, p, r.value)
    decreases s
  {
    if s == [] then None
    else if p(s[0]) then Some(0)
    else
      match FindIndex(s[1..], p)
      case None => None
      case Some(i) => Some(i + 1)
  }

  /** `s.find(p)`: the first element satisfying `p`, if any. */
  function Find<T>(s: seq<T>, p: T -> bool): (r: Option<T>)
    ensures r.None? <==> forall i :: 0 <= i < |s| ==> !p(s[i])
    ensures r.Some? ==> exists i :: 0 <= i < |s| && s[i] == r.value && p(s[i]) && FirstSatisfying(s, p, i)
  {
    match FindIndex(s, p)
    case None => None
    case Some(i) => Some(s[i])
  }

  /** No element before index `i` satisfies `p`. */
  predicate FirstSatisfying<T>(s: seq<T>, p: T -> bool, i: nat)
    requires i <= |s|
  {
    forall j :: 0 <= j < i ==> !p(s[j])
  }

  /** `xs?.length || 0`: the length of a list that may not have loaded yet. */
  function Length<T>(xs: Option<seq<T>>): nat {
    if xs.Some? then |xs.value| else 0
  }

  /** `s.slice(0, n)`. */
  function Take<T>(s: seq<T>, n: nat): (r: seq<T>)
    ensures |r| == if n < |s| then n else |s|
    ensures r <= s
  {
    if n < |s| then s[..n] else s
  }

  /** `filter` keeps order: its result is a subsequence of its input. */
  lemma {:induction false} FilterIsSubsequence<T>(s: seq<T>, p: T -> bool)
    ensures IsSubsequence(Filter(s, p), s)
    decreases s
  {
    if s != [] {
      FilterIsSubsequence(s[1..], p);
      var r := Filter(s, p);
      if p(s[0]) {
        assert r[0] == s[0] && r[1..] == Filter(s[1..], p);
      } else {
        assert r == Filter(s[1..], p);
      }
    }
  }

  /** An element of `s` is kept by `filter` exactly when it satisfies `p`. */
  lemma {:induction false} FilterMembership<T>(s: seq<T>, p: T -> bool, x: T)
    ensures x in Filter(s, p) <==> x in s && p(x)
    decreases s
  {
    if s != [] {
      FilterMembership(s[1..], p, x);
      assert s == [s[0]] + s[1..];
    }
  }

  /** Filtering with a predicate every element satisfies changes nothing. */
  lemma {:induction false} FilterKeepsAll<T>(s: seq<T>, p: T -> bool)
    requires forall i :: 0 <= i < |s| ==> p(s[i])
    ensures Filter(s, p) == s
    decreases s
  {
    if s != [] {
      FilterKeepsAll(s[1..], p);
      assert s == [s[0]] + s[1..];
    }
  }

  lemma {:induction false} FilterAppend<T>(a: seq<T>, b: seq<T>, p: T -> bool)
    ensures Filter(a + b, p) == Filter(a, p) + Filter(b, p)
    decreases a
  {
    if a != [] {
      assert (a + b)[1..] == a[1..] + b;
      FilterAppend(a[1..], b, p);
    } else {
      assert a + b == b;
    }
  }

  /** Filtering with a predicate no element satisfies leaves nothing. */
  lemma {:induction false} FilterNone<T>(s: seq<T>, p: T -> bool)
    requires forall i :: 0 <= i < |s| ==> !p(s[i])
    ensures Filter(s, p) == []
    decreases |s|
  {
    if s != [] {
      assert forall i :: 0 <= i < |s[1..]| ==> s[1..][i] == s[i + 1];
      FilterNone(s[1..], p);
    }
  }

  /** The last element of a filtered sequence is the last element of the original
      that satisfies the predicate. */
  lemma {:induction false} FilterLast<T>(s: seq<T>, p: T -> bool)
    requires Filter(s, p) != []
    ensures exists i :: 0 <= i < |s| && s[i] == Filter(s, p)[|Filter(s, p)| - 1] && p(s[i]) &&
                        forall j :: i < j < |s| ==> !p(s[j])
    decreases |s|
  {
    var r := Filter(s, p);
    var tail := Filter(s[1..], p);
    if tail != [] {
      FilterLast(s[1..], p);
      var i :| 0 <= i < |s[1..]| && s[1..][i] == tail[|tail| - 1] && p(s[1..][i]) &&
        forall j :: i < j < |s[1..]| ==> !p(s[1..][j]);
      assert r[|r| - 1] == tail[|tail| - 1];
      assert s[i + 1] == r[|r| - 1];
      forall j | i + 1 < j < |s| ensures !p(s[j]) {
        assert s[j] == s[1..][j - 1];
      }
    } else {
      assert r == [s[0]] && p(s[0]);
      forall j | 0 < j < |s| ensures !p(s[j]) {
        assert s[j] == s[1..][j - 1];
        FilterMembership(s[1..], p, s[j]);
      }
    }
  }

  /** `filter(p).length` is zero exactly when no element satisfies `p`. */
  lemma CountZero<T>(s: seq<T>, p: T -> bool)
    ensures Count(s, p) == 0 <==> forall i :: 0 <= i < |s| ==> !p(s[i])
  {
    if forall i :: 0 <= i < |s| ==> !p(s[i]) {
      FilterNone(s, p);
    } else {
      var i :| 0 <= i < |s| && p(s[i]);
      FilterMembership(s, p, s[i]);
    }
  }

  /** Two predicates no element satisfies at once count at most `|s|` together. */
  lemma {:induction false} DisjointCounts<T>(s: seq<T>, p: T -> bool, q: T -> bool)
    requires forall i :: 0 <= i < |s| ==> !(p(s[i]) && q(s[i]))
    ensures Count(s, p) + Count(s, q) <= |s|
    decreases s
  {
    if s != [] {
      DisjointCounts(s[1..], p, q);
    }
  }
}
