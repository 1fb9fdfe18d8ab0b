/**
 * The array combinators the store's updaters are built from: `map` with a
 * conditional record rewrite, `filter`, and counting records by key.
 */
module Seqs {

  /** `xs.map(x => p(x) ? f(x) : x)`, element by element from the front. */
  function MapWhere<T>(xs: seq<T>, p: T -> bool, f: T -> T): (r: seq<T>)
    ensures |r| == |xs|
    ensures forall k :: 0 <= k < |xs| ==> r[k] == if p(xs[k]) then f(xs[k]) else xs[k]
  {
    if xs == [] then [] else [if p(xs[0]) then f(xs[0]) else xs[0]] + MapWhere(xs[1..], p, f)
  }

  /** When no element satisfies `p`, the mapped sequence is the input itself. */
  lemma MapWhereNoMatch<T>(xs: seq<T>, p: T -> bool, f: T -> T)
    requires forall k :: 0 <= k < |xs| ==> !p(xs[k])
    ensures MapWhere(xs, p, f) == xs
  {
  }

  /** `a` is `b` with some elements removed, the rest in their original order. */
  predicate IsSubsequence<T(==)>(a: seq<T>, b: seq<T>)
  {
    a == [] || (b != [] && ((a[0] == b[0] && IsSubsequence(a[1..], b[1..])) || IsSubsequence(a, b[1..])))
  }

  /** `xs.filter(keep)`. */
  function Filter<T(==,!new)>(xs: seq<T>, keep: T -> bool): (r: seq<T>)
    ensures |r| <= |xs|
    ensures forall x :: x in r <==> x in xs && keep(x)
    ensures forall x :: multiset(r)[x] == if keep(x) then multiset(xs)[x] else 0
    ensures IsSubsequence(r, xs)
  {
    if xs == [] then []
    else
      var rest := Filter(xs[1..], keep);
      assert xs == [xs[0]] + xs[1..];
      if keep(xs[0]) then
        assert ([xs[0]] + rest)[1..] == rest;
        [xs[0]] + rest
      else
        rest
  }

  /** Keeping every element changes nothing. */
  lemma {:induction false} FilterKeepsAll<T(!new)>(xs: seq<T>, keep: T -> bool)
    requires forall k :: 0 <= k < |xs| ==> keep(xs[k])
    ensures Filter(xs, keep) == xs
  {
    if xs != [] {
      FilterKeepsAll(xs[1..], keep);
      assert xs == [xs[0]] + xs[1..];
    }
  }

  /** How many elements carry the key `id`. */
  function Occurrences<T>(xs: seq<T>, key: T -> string, id: string): nat
  {
    if xs == [] then 0 else (if key(xs[0]) == id then 1 else 0) + Occurrences(xs[1..], key, id)
  }

  /** Counting by key distributes over concatenation. */
  lemma {:induction false} OccurrencesConcat<T>(xs: seq<T>, ys: seq<T>, key: T -> string, id: string)
    ensures Occurrences(xs + ys, key, id) == Occurrences(xs, key, id) + Occurrences(ys, key, id)
  {
    if xs == [] {
      assert xs + ys == ys;
    } else {
      assert (xs + ys)[1..] == xs[1..] + ys;
      OccurrencesConcat(xs[1..], ys, key, id);
    }
  }

  /** An element is present exactly when its key is counted at least once. */
  lemma {:induction false} OccurrencesPositive<T>(xs: seq<T>, key: T -> string, id: string)
    ensures Occurrences(xs, key, id) > 0 <==> exists k :: 0 <= k < |xs| && key(xs[k]) == id
  {
    if xs != [] {
      OccurrencesPositive(xs[1..], key, id);
      if Occurrences(xs[1..], key, id) > 0 {
        var k :| 0 <= k < |xs[1..]| && key(xs[1..][k]) == id;
        assert key(xs[k + 1]) == id;
      }
      if exists k :: 0 <= k < |xs| && key(xs[k]) == id {
        var k :| 0 <= k < |xs| && key(xs[k]) == id;
        if k > 0 {
          assert key(xs[1..][k - 1]) == id;
        }
      }
    }
  }
}
