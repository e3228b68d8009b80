/** Sequence utilities: a list comprehension `[f(x) for x in s]` and the fact that
    reordering its input only reorders its output. */
module Sequences {

  /** `[f(x) for x in s]`. */
  function Map<T, U>(s: seq<T>, f: T -> U): (r: seq<U>)
    ensures |r| == |s|
    ensures forall k :: 0 <= k < |s| ==> r[k] == f(s[k])
  {
    seq(|s|, k requires 0 <= k < |s| => f(s[k]))
  }

  /** If t is a permutation of s and t[p] is the head of s, then the tail of s is a
      permutation of t with position p taken out. */
  lemma RemoveMatch<T>(s: seq<T>, t: seq<T>, p: nat)
    requires multiset(s) == multiset(t) && s != [] && p < |t| && t[p] == s[0]
    ensures multiset(s[1..]) == multiset(t[..p] + t[p + 1..])
  {
    var x, rest := s[0], t[..p] + t[p + 1..];
    assert multiset(t) == multiset(rest) + multiset{x} by {
      assert t == t[..p] + [x] + t[p + 1..];
    }
    assert multiset(s) == multiset(s[1..]) + multiset{x} by {
      assert s == [x] + s[1..];
    }
    assert multiset(s[1..]) == multiset(s) - multiset{x};
    assert multiset(rest) == multiset(t) - multiset{x};
  }

  /** Mapping t is, as a multiset, mapping t without position p plus the image of t[p]. */
  lemma MapRemoved<T, U>(t: seq<T>, p: nat, f: T -> U)
    requires p < |t|
    ensures multiset(Map(t, f)) == multiset(Map(t[..p] + t[p + 1..], f)) + multiset{f(t[p])}
  {
    var before, after := t[..p], t[p + 1..];
    assert t == before + [t[p]] + after;
    assert Map(t, f) == Map(before, f) + [f(t[p])] + Map(after, f);
    assert Map(before + after, f) == Map(before, f) + Map(after, f);
  }

  /** The head of s occurs somewhere in any permutation t of s. */
  lemma FindHead<T>(s: seq<T>, t: seq<T>) returns (p: nat)
    requires multiset(s) == multiset(t) && s != []
    ensures p < |t| && t[p] == s[0]
  {
    assert s[0] in multiset(t);
    p :| 0 <= p < |t| && t[p] == s[0];
  }

  /** Mapping a permutation of s gives a permutation of the mapped s. */
  lemma {:induction false} MapPermutation<T, U>(s: seq<T>, t: seq<T>, f: T -> U)
    requires multiset(s) == multiset(t)
    ensures multiset(Map(s, f)) == multiset(Map(t, f))
    decreases |s|
  {
    if s == [] {
      assert |t| == |multiset(t)| == 0;
    } else {
      var p := FindHead(s, t);
      RemoveMatch(s, t, p);
      MapPermutation(s[1..], t[..p] + t[p + 1..], f);
      MapRemoved(t, p, f);
      ghost var m1, m2 := multiset(Map(s[1..], f)), multiset(Map(t[..p] + t[p + 1..], f));
      assert m1 == m2;
      assert multiset(Map(t, f)) == m2 + multiset{f(s[0])};
      assert Map(s, f) == [f(s[0])] + Map(s[1..], f);
    }
  }
}
