/** Sequence helpers that stand for the array methods the storefront uses:
    `filter` (Where), `findIndex`, `find`, order-preserving subsequences and
    `slice(0, n)`. */
module Seqs {
  import opened Wrappers

  /** `xs.filter(keep)`: the elements satisfying `keep`, in their original order. */
  function Where<T>(xs: seq<T>, keep: T -> bool): (r: seq<T>)
    ensures |r| <= |xs|
    ensures forall i :: 0 <= i < |r| ==> r[i] in xs && keep(r[i])
    ensures forall i :: 0 <= i < |xs| && keep(xs[i]) ==> xs[i] in r
  {
    if xs == [] then []
    else if keep(xs[0]) then [xs[0]] + Where(xs[1..], keep)
    else Where(xs[1..], keep)
  }

  /** `a` is `b` with some elements dropped and the rest kept in order. */
  ghost predicate IsSubseq<T>(a: seq<T>, b: seq<T>)
    decreases |b|
  {
    if a == [] then true
    else if b == [] then false
    else (a[0] == b[0] && IsSubseq(a[1..], b[1..])) || IsSubseq(a, b[1..])
  }

  lemma {:induction false} WhereIsSubseq<T>(xs: seq<T>, keep: T -> bool)
    ensures IsSubseq(Where(xs, keep), xs)
  {
    if xs != [] {
      WhereIsSubseq(xs[1..], keep);
      if !keep(xs[0]) {
        var r := Where(xs[1..], keep);
        if r != [] { assert IsSubseq(r, xs) by { assert xs[1..] == xs[1..]; } }
      }
    }
  }

  /** Every sequence is a subsequence of itself. */
  lemma {:induction false} IsSubseqRefl<T>(s: seq<T>)
    ensures IsSubseq(s, s)
    decreases |s|
  {
    if s != [] {
      IsSubseqRefl(s[1..]);
    }
  }

  /** Filtering keeps each kept value as many times as it occurs, and no other. */
  lemma {:induction false} WhereMultiset<T>(xs: seq<T>, keep: T -> bool)
    ensures forall x :: multiset(Where(xs, keep))[x] == if keep(x) then multiset(xs)[x] else 0
  {
    if xs != [] {
      WhereMultiset(xs[1..], keep);
      assert xs == [xs[0]] + xs[1..];
      assert multiset(xs) == multiset([xs[0]]) + multiset(xs[1..]);
      if keep(xs[0]) {
        assert Where(xs, keep) == [xs[0]] + Where(xs[1..], keep);
        assert multiset(Where(xs, keep)) == multiset([xs[0]]) + multiset(Where(xs[1..], keep));
      }
    }
  }

  /** Filtering twice by the same predicate is the same as filtering once. */
  lemma {:induction false} WhereIdempotent<T>(xs: seq<T>, keep: T -> bool)
    ensures Where(Where(xs, keep), keep) == Where(xs, keep)
  {
    if xs != [] {
      WhereIdempotent(xs[1..], keep);
    }
  }

  /** Two successive filters are one filter by the conjunction. */
  lemma {:induction false} WhereWhere<T>(xs: seq<T>, a: T -> bool, b: T -> bool, ab: T -> bool)
    requires forall x :: ab(x) == (a(x) && b(x))
    ensures Where(Where(xs, a), b) == Where(xs, ab)
  {
    if xs != [] {
      WhereWhere(xs[1..], a, b, ab);
    }
  }

  /** Filters by pointwise-equal predicates give the same result. */
  lemma {:induction false} WhereCongruent<T>(xs: seq<T>, a: T -> bool, b: T -> bool)
    requires forall i :: 0 <= i < |xs| ==> a(xs[i]) == b(xs[i])
    ensures Where(xs, a) == Where(xs, b)
  {
    if xs != [] {
      WhereCongruent(xs[1..], a, b);
    }
  }

  /** A filter whose predicate holds of every element keeps the whole sequence. */
  lemma {:induction false} WhereAll<T>(xs: seq<T>, keep: T -> bool)
    requires forall i :: 0 <= i < |xs| ==> keep(xs[i])
    ensures Where(xs, keep) == xs
  {
    if xs != [] {
      WhereAll(xs[1..], keep);
    }
  }

  /** A filter whose predicate every element fails keeps nothing. */
  lemma {:induction false} WhereNone<T>(xs: seq<T>, keep: T -> bool)
    requires forall i :: 0 <= i < |xs| ==> !keep(xs[i])
    ensures Where(xs, keep) == []
  {
    if xs != [] {
      WhereNone(xs[1..], keep);
    }
  }

  /** Filtering distributes over concatenation. */
  lemma {:induction false} WhereAppend<T>(xs: seq<T>, ys: seq<T>, keep: T -> bool)
    ensures Where(xs + ys, keep) == Where(xs, keep) + Where(ys, keep)
  {
    if xs == [] {
      assert xs + ys == ys;
    } else {
      assert (xs + ys)[1..] == xs[1..] + ys;
      WhereAppend(xs[1..], ys, keep);
    }
  }

  /** `xs.slice(0, n)`: the first min(n, |xs|) elements. */
  function Take<T>(xs: seq<T>, n: nat): (r: seq<T>)
    ensures |r| == if n < |xs| then n else |xs|
    ensures forall i :: 0 <= i < |r| ==> r[i] == xs[i]
  {
    if n < |xs| then xs[..n] else xs
  }

  /** `xs.findIndex(p)`: the first index satisfying `p`, or -1. */
  function FindIndex<T>(xs: seq<T>, p: T -> bool): (r: int)
    ensures -1 <= r < |xs|
    ensures r == -1 <==> forall i :: 0 <= i < |xs| ==> !p(xs[i])
    ensures r >= 0 ==> p(xs[r]) && forall j :: 0 <= j < r ==> !p(xs[j])
  {
    if xs == [] then -1
    else if p(xs[0]) then 0
    else
      var k := FindIndex(xs[1..], p);
      if k == -1 then -1 else k + 1
  }

  /** Any index that is the first to satisfy `p` is the one `FindIndex` returns. */
  lemma FirstIndex<T>(xs: seq<T>, p: T -> bool, i: nat)
    requires i < |xs| && p(xs[i])
    requires forall j :: 0 <= j < i ==> !p(xs[j])
    ensures FindIndex(xs, p) == i
  {
  }

  /** `xs.find(p)`: the first element satisfying `p`, if any. */
  function Find<T>(xs: seq<T>, p: T -> bool): (r: Option<T>)
    ensures r.None? <==> forall i :: 0 <= i < |xs| ==> !p(xs[i])
    ensures r.Some? ==> FindIndex(xs, p) >= 0 && r.value == xs[FindIndex(xs, p)] && p(r.value)
  {
    var k := FindIndex(xs, p);
    if k < 0 then None else Some(xs[k])
  }

  /** Appending never changes an existing first match, and a new element is found
      only when nothing before it matched. */
  lemma FindIndexAppend<T>(xs: seq<T>, x: T, p: T -> bool)
    ensures FindIndex(xs + [x], p) ==
      if FindIndex(xs, p) >= 0 then FindIndex(xs, p) else if p(x) then |xs| else -1
  {
    var s := xs + [x];
    var k := FindIndex(xs, p);
    if k >= 0 {
      FirstIndex(s, p, k);
    } else if p(x) {
      FirstIndex(s, p, |xs|);
    } else {
      assert forall i :: 0 <= i < |s| ==> !p(s[i]) by {
        forall i | 0 <= i < |s| ensures !p(s[i]) {
          if i < |xs| { assert s[i] == xs[i]; }
        }
      }
    }
  }
}
