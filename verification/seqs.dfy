/** Order-preserving selection and projection over sequences: the list
    comprehensions `[x for x in s if keep(x)]` and `[f(x) for x in s]`.
 */
module Seqs {
  import opened Values

  /** `a` can be obtained from `b` by deleting elements, keeping the order
      of what remains. */
  predicate IsSubsequence<T(==)>(a: seq<T>, b: seq<T>)
    decreases |b|
  {
    a == [] || (b != [] && ((a[0] == b[0] && IsSubsequence(a[1..], b[1..])) || IsSubsequence(a, b[1..])))
  }

  /** `out` is what an order-preserving filter with `keep` makes of `s`:
      a subsequence of `s` holding every kept value exactly as often as `s`
      does and no dropped value at all. */
  ghost predicate FilteredFrom<T(!new)>(out: seq<T>, s: seq<T>, keep: T -> bool) {
    && IsSubsequence(out, s)
    && forall x :: multiset(out)[x] == if keep(x) then multiset(s)[x] else 0
  }

  /** `[x for x in s if keep(x)]`. */
  function Filter<T(==,!new)>(s: seq<T>, keep: T -> bool): (r: seq<T>)
    ensures FilteredFrom(r, s, keep)
    ensures |r| <= |s|
    ensures forall x :: x in r <==> x in s && keep(x)
  {
    if s == [] then []
    else
      assert s == [s[0]] + s[1..];
      if keep(s[0]) then [s[0]] + Filter(s[1..], keep) else Filter(s[1..], keep)
  }

  /** The last element of a non-empty sequence. */
  function Last<T>(s: seq<T>): T
    requires s != []
  {
    s[|s| - 1]
  }

  /** Everything but the last element. */
  function Init<T>(s: seq<T>): seq<T>
    requires s != []
  {
    s[..|s| - 1]
  }

  /** `[f(x) for x in s]`. */
  function Map<T, U>(s: seq<T>, f: T -> U): (r: seq<U>)
    ensures |r| == |s|
    ensures forall i :: 0 <= i < |s| ==> r[i] == f(s[i])
  {
    seq(|s|, i requires 0 <= i < |s| => f(s[i]))
  }

  /** The error of the first element, in order, that `check` rejects: how a
      Python loop or comprehension over `s` ends when evaluating an element
      may raise. */
  function FirstError<T>(s: seq<T>, check: T -> Option<Error>): (r: Option<Error>)
    ensures r.None? <==> forall i :: 0 <= i < |s| ==> check(s[i]).None?
    ensures r.Some? ==> exists i :: 0 <= i < |s| && check(s[i]) == r && forall j :: 0 <= j < i ==> check(s[j]).None?
  {
    if s == [] then None
    else if check(s[0]).Some? then check(s[0])
    else
      var rest := FirstError(s[1..], check);
      assert forall i :: 0 < i < |s| ==> s[i] == s[1..][i - 1];
      if rest.Some? then
        var k :| 0 <= k < |s[1..]| && check(s[1..][k]) == rest && forall j :: 0 <= j < k ==> check(s[1..][j]).None?;
        assert check(s[k + 1]) == rest;
        rest
      else rest
  }

  /** Mapping a concatenation maps each part. */
  lemma MapConcat<T, U>(a: seq<T>, b: seq<T>, f: T -> U)
    ensures Map(a + b, f) == Map(a, f) + Map(b, f)
  {
    assert forall i :: 0 <= i < |a| + |b| ==> Map(a + b, f)[i] == (Map(a, f) + Map(b, f))[i];
  }

  /** Deleting elements never adds occurrences. */
  lemma {:induction false} SubsequenceMultiset<T>(a: seq<T>, b: seq<T>)
    requires IsSubsequence(a, b)
    ensures multiset(a) <= multiset(b)
    decreases |b|
  {
    if a == [] {
    } else {
      assert b == [b[0]] + b[1..];
      if a[0] == b[0] && IsSubsequence(a[1..], b[1..]) {
        SubsequenceMultiset(a[1..], b[1..]);
        assert a == [a[0]] + a[1..];
      } else {
        SubsequenceMultiset(a, b[1..]);
      }
    }
  }

  /** A filter keeps everything when everything is kept. */
  lemma {:induction false} FilterKeepsAll<T(!new)>(s: seq<T>, keep: T -> bool)
    requires forall x :: x in s ==> keep(x)
    ensures Filter(s, keep) == s
  {
    if s != [] {
      FilterKeepsAll(s[1..], keep);
    }
  }

  /** Filtering a concatenation filters each part. */
  lemma {:induction false} FilterConcat<T(!new)>(a: seq<T>, b: seq<T>, keep: T -> bool)
    ensures Filter(a + b, keep) == Filter(a, keep) + Filter(b, keep)
  {
    if a == [] {
      assert a + b == b;
    } else {
      assert (a + b)[0] == a[0];
      assert (a + b)[1..] == a[1..] + b;
      FilterConcat(a[1..], b, keep);
    }
  }

  /** `FilteredFrom` pins the result down: the only sequence that is an
      order-preserving filter of `s` by `keep` is `Filter(s, keep)`. */
  lemma {:induction false} FilteredFromIsFilter<T(!new)>(out: seq<T>, s: seq<T>, keep: T -> bool)
    requires FilteredFrom(out, s, keep)
    ensures out == Filter(s, keep)
    decreases |s|
  {
    if s == [] {
      assert out == [];
    } else {
      var x, t := s[0], s[1..];
      assert s == [x] + t;
      if keep(x) {
        assert multiset(out)[x] == multiset(s)[x] == multiset(t)[x] + 1;
        if !(out != [] && out[0] == x && IsSubsequence(out[1..], t)) {
          assert IsSubsequence(out, t);
          SubsequenceMultiset(out, t);
          assert false;
        }
        assert out == [x] + out[1..];
        forall y
          ensures multiset(out[1..])[y] == if keep(y) then multiset(t)[y] else 0
        {
        }
        FilteredFromIsFilter(out[1..], t, keep);
      } else {
        assert x !in out;
        assert IsSubsequence(out, t);
        forall y
          ensures multiset(out)[y] == if keep(y) then multiset(t)[y] else 0
        {
        }
        FilteredFromIsFilter(out, t, keep);
      }
    }
  }
}
