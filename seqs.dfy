/** Generic facts about sequences: `Array.prototype.filter`, order-preserving
    subsequences and duplicate-free lists. */
module Seqs {

  /** `s.filter(p)`: the elements of `s` that satisfy `p`, in their original order. */
  function Filter<T(!new)>(s: seq<T>, p: T -> bool): (r: seq<T>)
    ensures |r| <= |s|
    ensures forall k :: 0 <= k < |r| ==> r[k] in s && p(r[k])
    ensures forall i :: 0 <= i < |s| && p(s[i]) ==> s[i] in r
    ensures forall x :: multiset(r)[x] == if p(x) then multiset(s)[x] else 0
  {
    if s == [] then []
    else
      assert s == [s[0]] + s[1..];
      (if p(s[0]) then [s[0]] else []) + Filter(s[1..], p)
  }

  /** `r` is the list of the elements of `s` at the strictly increasing positions `f`. */
  ghost predicate EmbedsAt<T>(r: seq<T>, s: seq<T>, f: seq<int>) {
    && |f| == |r|
    && (forall k :: 0 <= k < |f| ==> 0 <= f[k] < |s| && r[k] == s[f[k]])
    && (forall k, l :: 0 <= k < l < |f| ==> f[k] < f[l])
  }

  /** `r` is an order-preserving subsequence of `s`. */
  ghost predicate IsSubsequence<T>(r: seq<T>, s: seq<T>) {
    exists f :: EmbedsAt(r, s, f)
  }

  /** Every position of `f`, moved one to the right. */
  function Shifted(f: seq<int>): (g: seq<int>)
    ensures |g| == |f| && forall k :: 0 <= k < |f| ==> g[k] == f[k] + 1
  {
    seq(|f|, k requires 0 <= k < |f| => f[k] + 1)
  }

  /** An embedding into `t`, shifted, is an embedding into `[x] + t`. */
  lemma EmbedsAtShifted<T>(r: seq<T>, t: seq<T>, f: seq<int>, x: T)
    requires EmbedsAt(r, t, f)
    ensures EmbedsAt(r, [x] + t, Shifted(f))
  {
    var g := Shifted(f);
    forall k | 0 <= k < |g| ensures 0 <= g[k] < |t| + 1 && r[k] == ([x] + t)[g[k]] {
      assert ([x] + t)[g[k]] == t[f[k]];
    }
  }

  /** An embedding into `[x] + t` that avoids position 0 extends, with position 0 in front,
      to an embedding of `[x] + r`. */
  lemma EmbedsAtCons<T>(r: seq<T>, t: seq<T>, g: seq<int>, x: T)
    requires EmbedsAt(r, [x] + t, g)
    requires forall k :: 0 <= k < |g| ==> g[k] > 0
    ensures EmbedsAt([x] + r, [x] + t, [0] + g)
  {
    var h := [0] + g;
    assert forall k :: 1 <= k < |h| ==> h[k] == g[k - 1];
  }

  /** `filter` keeps the satisfying elements in their original order: its result is an
      order-preserving subsequence of its input. */
  lemma {:induction false} FilterIsSubsequence<T(!new)>(s: seq<T>, p: T -> bool)
    ensures IsSubsequence(Filter(s, p), s)
  {
    if s == [] {
      assert EmbedsAt([], s, []);
    } else {
      var t := s[1..];
      assert s == [s[0]] + t;
      var r0 := Filter(t, p);
      FilterIsSubsequence(t, p);
      var f0 :| EmbedsAt(r0, t, f0);
      EmbedsAtShifted(r0, t, f0, s[0]);
      var g := Shifted(f0);
      if p(s[0]) {
        EmbedsAtCons(r0, t, g, s[0]);
        assert Filter(s, p) == [s[0]] + r0;
        assert EmbedsAt(Filter(s, p), s, [0] + g);
      } else {
        assert Filter(s, p) == r0;
        assert EmbedsAt(Filter(s, p), s, g);
      }
    }
  }

  /** Filtering by two predicates that agree everywhere gives the same list. */
  lemma {:induction false} FilterAgrees<T(!new)>(s: seq<T>, p: T -> bool, q: T -> bool)
    requires forall x :: p(x) == q(x)
    ensures Filter(s, p) == Filter(s, q)
  {
    if s != [] {
      FilterAgrees(s[1..], p, q);
    }
  }

  /** A predicate every element satisfies filters nothing out. */
  lemma {:induction false} FilterAll<T(!new)>(s: seq<T>, p: T -> bool)
    requires forall i :: 0 <= i < |s| ==> p(s[i])
    ensures Filter(s, p) == s
  {
    if s != [] {
      FilterAll(s[1..], p);
      assert s == [s[0]] + s[1..];
    }
  }

  /** A predicate no element satisfies filters everything out. */
  lemma {:induction false} FilterNone<T(!new)>(s: seq<T>, p: T -> bool)
    requires forall i :: 0 <= i < |s| ==> !p(s[i])
    ensures Filter(s, p) == []
  {
    if s != [] {
      FilterNone(s[1..], p);
    }
  }

  /** When only position `k` satisfies the predicate, the filter yields just that element. */
  lemma {:induction false} FilterSingle<T(!new)>(s: seq<T>, p: T -> bool, k: int)
    requires 0 <= k < |s| && p(s[k])
    requires forall i :: 0 <= i < |s| && i != k ==> !p(s[i])
    ensures Filter(s, p) == [s[k]]
  {
    if k == 0 {
      FilterNone(s[1..], p);
    } else {
      FilterSingle(s[1..], p, k - 1);
    }
  }

  /** No element occurs twice (what `!list.includes(x)` before every append keeps). */
  predicate NoDup<T(==)>(s: seq<T>) {
    forall i, j :: 0 <= i < j < |s| ==> s[i] != s[j]
  }

  /** An order-preserving subsequence of a duplicate-free list is duplicate-free. */
  lemma SubsequenceNoDup<T>(r: seq<T>, s: seq<T>)
    requires IsSubsequence(r, s) && NoDup(s)
    ensures NoDup(r)
  {
    var f :| EmbedsAt(r, s, f);
    forall i, j | 0 <= i < j < |r| ensures r[i] != r[j] {
      assert f[i] < f[j];
    }
  }
}
