/** JavaScript's `Array.prototype.filter` as the client uses it on its todo lists:
    what a filter keeps, in which order, and how many. */
module ListOps {

  /** `s.filter(p)`: every passing element as often as `s` holds it, and nothing else. */
  function Keep<T(==)>(s: seq<T>, p: T -> bool): (r: seq<T>)
    ensures |r| <= |s|
    ensures forall i | 0 <= i < |r| :: p(r[i]) && r[i] in s
    ensures forall i | 0 <= i < |s| && p(s[i]) :: s[i] in r
  {
    if |s| == 0 then []
    else (if p(s[0]) then [s[0]] else []) + Keep(s[1..], p)
  }

  /** A filter keeps every passing element exactly as often as `s` holds it. */
  lemma {:induction false} KeepMultiplicity<T(!new)>(s: seq<T>, p: T -> bool)
    ensures forall x :: multiset(Keep(s, p))[x] == if p(x) then multiset(s)[x] else 0
  {
    if |s| > 0 {
      KeepMultiplicity(s[1..], p);
      assert s == [s[0]] + s[1..];
      assert multiset(s) == multiset([s[0]]) + multiset(s[1..]);
      var head := if p(s[0]) then [s[0]] else [];
      assert Keep(s, p) == head + Keep(s[1..], p);
      assert multiset(Keep(s, p)) == multiset(head) + multiset(Keep(s[1..], p));
    }
  }

  /** The positions of `s` from `lo` on whose element passes `p`. */
  function PassingFrom<T>(s: seq<T>, p: T -> bool, lo: nat): set<int> {
    set i | lo <= i < |s| && p(s[i])
  }

  lemma {:induction false} KeepCountsFrom<T>(s: seq<T>, p: T -> bool, lo: nat)
    requires lo <= |s|
    ensures |Keep(s[lo..], p)| == |PassingFrom(s, p, lo)|
    decreases |s| - lo
  {
    if lo == |s| {
      assert PassingFrom(s, p, lo) == {};
    } else {
      KeepCountsFrom(s, p, lo + 1);
      assert s[lo..][1..] == s[lo + 1..];
      var here: set<int> := if p(s[lo]) then {lo} else {};
      assert PassingFrom(s, p, lo) == here + PassingFrom(s, p, lo + 1);
      assert here !! PassingFrom(s, p, lo + 1);
    }
  }

  /** `s.filter(p).length` counts the positions whose element passes. */
  lemma KeepCountsPositions<T>(s: seq<T>, p: T -> bool)
    ensures |Keep(s, p)| == |PassingFrom(s, p, 0)|
  {
    KeepCountsFrom(s, p, 0);
    assert s[0..] == s;
  }

  /** `r` is `s` with some elements left out and the rest in their order. */
  predicate IsSubsequence<T(==)>(r: seq<T>, s: seq<T>)
    decreases |s|
  {
    |r| == 0 ||
    (|s| > 0 && ((r[0] == s[0] && IsSubsequence(r[1..], s[1..])) || IsSubsequence(r, s[1..])))
  }

  /** A filter keeps the order of what it keeps. */
  lemma {:induction false} KeepIsSubsequence<T>(s: seq<T>, p: T -> bool)
    ensures IsSubsequence(Keep(s, p), s)
  {
    if |s| > 0 {
      KeepIsSubsequence(s[1..], p);
      if p(s[0]) {
        assert Keep(s, p) == [s[0]] + Keep(s[1..], p);
        assert Keep(s, p)[1..] == Keep(s[1..], p);
      } else {
        assert Keep(s, p) == Keep(s[1..], p);
      }
    }
  }

  /** A filter that passes every element changes nothing. */
  lemma {:induction false} KeepEverything<T>(s: seq<T>, p: T -> bool)
    requires forall x | x in s :: p(x)
    ensures Keep(s, p) == s
  {
    if |s| > 0 {
      assert forall x | x in s[1..] :: x in s;
      KeepEverything(s[1..], p);
    }
  }

  /** Two filters that never both pass an element keep at most `|s|` elements between them. */
  lemma {:induction false} KeepDisjointBound<T>(s: seq<T>, p: T -> bool, q: T -> bool)
    requires forall x | x in s :: !(p(x) && q(x))
    ensures |Keep(s, p)| + |Keep(s, q)| <= |s|
  {
    if |s| > 0 {
      assert forall x | x in s[1..] :: x in s;
      KeepDisjointBound(s[1..], p, q);
    }
  }

  /** Two filters of which each element passes exactly one split the list between them. */
  lemma {:induction false} KeepPartition<T>(s: seq<T>, p: T -> bool, q: T -> bool)
    requires forall x | x in s :: p(x) <==> !q(x)
    ensures |Keep(s, p)| + |Keep(s, q)| == |s|
  {
    if |s| > 0 {
      assert forall x | x in s[1..] :: x in s;
      KeepPartition(s[1..], p, q);
    }
  }
}
