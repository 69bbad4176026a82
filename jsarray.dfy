/** The three `Array.prototype` operations the screen's transforms are built
    from (`map`, `filter`, `find`), as functions on sequences, and the
    statement that a filter and its complement split a sequence in order. */
module JsArray {
  import opened Options

  /** `s.map(f)`: one result per element, in the same order. */
  function Map<A, B>(s: seq<A>, f: A -> B): (r: seq<B>)
    ensures |r| == |s|
    ensures forall i :: 0 <= i < |s| ==> r[i] == f(s[i])
  {
    if s == [] then [] else [f(s[0])] + Map(s[1..], f)
  }

  /** `s.filter(p)`: the elements that satisfy `p`, each of them, and no other. */
  function Filter<T(==)>(s: seq<T>, p: T -> bool): (r: seq<T>)
    ensures |r| <= |s|
    ensures forall x :: x in r ==> x in s && p(x)
    ensures forall x :: x in s && p(x) ==> x in r
  {
    if s == [] then []
    else if p(s[0]) then [s[0]] + Filter(s[1..], p)
    else Filter(s[1..], p)
  }

  /** `s.find(p)`: nothing when no element satisfies `p`, and otherwise the
      first element `filter` would keep. */
  function Find<T(==)>(s: seq<T>, p: T -> bool): (r: Option<T>)
    ensures r.None? <==> forall i :: 0 <= i < |s| ==> !p(s[i])
    ensures r.Some? ==> r.value in s && p(r.value)
    ensures r.Some? ==> Filter(s, p) != [] && r.value == Filter(s, p)[0]
  {
    if s == [] then None
    else if p(s[0]) then Some(s[0])
    else Find(s[1..], p)
  }

  /** `s` is an interleaving of `a` and `b`: every position of `s` is taken,
      in order, from exactly one of the two. */
  ghost predicate IsMerge<T>(s: seq<T>, a: seq<T>, b: seq<T>)
    decreases |s|
  {
    if s == [] then a == [] && b == []
    else
      || (a != [] && a[0] == s[0] && IsMerge(s[1..], a[1..], b))
      || (b != [] && b[0] == s[0] && IsMerge(s[1..], a, b[1..]))
  }

  /** Two sequences merged into `s` hold exactly the elements of `s` between them. */
  lemma {:induction false} MergeCounts<T>(s: seq<T>, a: seq<T>, b: seq<T>)
    requires IsMerge(s, a, b)
    ensures |a| + |b| == |s|
    ensures multiset(a) + multiset(b) == multiset(s)
    decreases |s|
  {
    if s != [] {
      if a != [] && a[0] == s[0] && IsMerge(s[1..], a[1..], b) {
        MergeCounts(s[1..], a[1..], b);
        assert a == [a[0]] + a[1..];
      } else {
        MergeCounts(s[1..], a, b[1..]);
        assert b == [b[0]] + b[1..];
      }
      assert s == [s[0]] + s[1..];
    }
  }

  /** Filtering by a predicate and by its complement splits `s` in order. */
  lemma {:induction false} FilterSplits<T>(s: seq<T>, p: T -> bool, q: T -> bool)
    requires forall x :: q(x) == !p(x)
    ensures IsMerge(s, Filter(s, p), Filter(s, q))
  {
    if s != [] {
      FilterSplits(s[1..], p, q);
    }
  }

  /** Filtering twice by the same predicate is filtering once. */
  lemma {:induction false} FilterIdempotent<T>(s: seq<T>, p: T -> bool)
    ensures Filter(Filter(s, p), p) == Filter(s, p)
  {
    if s != [] {
      FilterIdempotent(s[1..], p);
      if p(s[0]) {
        assert ([s[0]] + Filter(s[1..], p))[1..] == Filter(s[1..], p);
      }
    }
  }

  /** A filter that every element passes returns its input unchanged. */
  lemma {:induction false} FilterKeepsAll<T>(s: seq<T>, p: T -> bool)
    requires forall i :: 0 <= i < |s| ==> p(s[i])
    ensures Filter(s, p) == s
  {
    if s != [] {
      FilterKeepsAll(s[1..], p);
    }
  }
}
