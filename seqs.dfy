/** `Array.prototype.filter` over sequences, with the facts the storefront relies on. */
module Seqs {

  /** The elements of `s` that satisfy `p`, in their original order. */
  function Filter<T>(s: seq<T>, p: T -> bool): (r: seq<T>)
    ensures |r| <= |s|
    ensures forall k :: 0 <= k < |r| ==> p(r[k])
  {
    if s == [] then [] else (if p(s[0]) then [s[0]] else []) + Filter(s[1..], p)
  }

  /** Filtering a concatenation filters each half and keeps their order. */
  lemma {:induction false} FilterAppend<T>(a: seq<T>, b: seq<T>, p: T -> bool)
    ensures Filter(a + b, p) == Filter(a, p) + Filter(b, p)
  {
    if a == [] {
      assert a + b == b;
    } else {
      assert (a + b)[0] == a[0] && (a + b)[1..] == a[1..] + b;
      FilterAppend(a[1..], b, p);
    }
  }

  /** An element survives the filter exactly when it occurs in the input and satisfies `p`. */
  lemma {:induction false} FilterMembership<T>(s: seq<T>, p: T -> bool, x: T)
    ensures x in Filter(s, p) <==> x in s && p(x)
  {
    if s != [] {
      FilterMembership(s[1..], p, x);
      assert s == [s[0]] + s[1..];
    }
  }

  /** When every element satisfies `p`, the filter returns its input unchanged. */
  lemma {:induction false} FilterKeepsAll<T>(s: seq<T>, p: T -> bool)
    requires forall k :: 0 <= k < |s| ==> p(s[k])
    ensures Filter(s, p) == s
  {
    if s != [] {
      FilterKeepsAll(s[1..], p);
    }
  }

  /** When exactly element `k` fails `p`, the filter drops just that element. */
  lemma {:induction false} FilterOmitsOne<T>(s: seq<T>, k: nat, p: T -> bool)
    requires k < |s| && !p(s[k])
    requires forall j :: 0 <= j < |s| && j != k ==> p(s[j])
    ensures Filter(s, p) == s[..k] + s[k + 1..]
  {
    var tail := s[1..];
    if k == 0 {
      forall j | 0 <= j < |tail| ensures p(tail[j]) {
        assert tail[j] == s[j + 1];
      }
      FilterKeepsAll(tail, p);
    } else {
      forall j | 0 <= j < |tail| && j != k - 1 ensures p(tail[j]) {
        assert tail[j] == s[j + 1];
      }
      FilterOmitsOne(tail, k - 1, p);
      assert s[..k] == [s[0]] + tail[..k - 1];
      assert s[k + 1..] == tail[k..];
    }
  }

  /** When no element satisfies `p`, the filter returns the empty sequence. */
  lemma {:induction false} FilterDropsAll<T>(s: seq<T>, p: T -> bool)
    requires forall k :: 0 <= k < |s| ==> !p(s[k])
    ensures Filter(s, p) == []
  {
    if s != [] {
      FilterDropsAll(s[1..], p);
    }
  }

  /** The pieces `f` gives for each element of `s`, concatenated in order (a loop pushing each element's pieces). */
  function FlatMap<T, U>(s: seq<T>, f: T -> seq<U>): seq<U> {
    FlatMapPrefix(s, |s|, f)
  }

  /** The pieces of the first `n` elements of `s`. */
  function FlatMapPrefix<T, U>(s: seq<T>, n: nat, f: T -> seq<U>): seq<U>
    requires n <= |s|
  {
    if n == 0 then [] else FlatMapPrefix(s, n - 1, f) + f(s[n - 1])
  }

  /** Two sequences that agree on their first `n` elements have the same first `n` pieces. */
  lemma {:induction false} FlatMapPrefixAgree<T, U>(s: seq<T>, t: seq<T>, n: nat, f: T -> seq<U>)
    requires n <= |s| && n <= |t|
    requires forall i :: 0 <= i < n ==> s[i] == t[i]
    ensures FlatMapPrefix(s, n, f) == FlatMapPrefix(t, n, f)
  {
    if n > 0 {
      FlatMapPrefixAgree(s, t, n - 1, f);
    }
  }

  /** The pieces of `a + b` up to `|a| + m` are all of `a`'s pieces, then `b`'s first `m`. */
  lemma {:induction false} FlatMapPrefixAppend<T, U>(a: seq<T>, b: seq<T>, m: nat, f: T -> seq<U>)
    requires m <= |b|
    ensures FlatMapPrefix(a + b, |a| + m, f) == FlatMap(a, f) + FlatMapPrefix(b, m, f)
  {
    if m == 0 {
      FlatMapPrefixAgree(a + b, a, |a|, f);
    } else {
      FlatMapPrefixAppend(a, b, m - 1, f);
      assert (a + b)[|a| + m - 1] == b[m - 1];
    }
  }

  /** Flat-mapping a concatenation flat-maps each half, in order. */
  lemma FlatMapAppend<T, U>(a: seq<T>, b: seq<T>, f: T -> seq<U>)
    ensures FlatMap(a + b, f) == FlatMap(a, f) + FlatMap(b, f)
  {
    FlatMapPrefixAppend(a, b, |b|, f);
  }

  /** The first `n` elements give no pieces exactly when each of them gives none. */
  lemma {:induction false} FlatMapPrefixEmptyIff<T, U>(s: seq<T>, n: nat, f: T -> seq<U>)
    requires n <= |s|
    ensures FlatMapPrefix(s, n, f) == [] <==> forall k :: 0 <= k < n ==> f(s[k]) == []
  {
    if n > 0 {
      FlatMapPrefixEmptyIff(s, n - 1, f);
    }
  }

  /** The result is empty exactly when every element gives no pieces. */
  lemma FlatMapEmptyIff<T, U>(s: seq<T>, f: T -> seq<U>)
    ensures FlatMap(s, f) == [] <==> forall k :: 0 <= k < |s| ==> f(s[k]) == []
  {
    FlatMapPrefixEmptyIff(s, |s|, f);
  }

  /** A property of every piece of the first `n` elements holds of every piece of their flat map. */
  lemma {:induction false} FlatMapPrefixAll<T, U>(s: seq<T>, n: nat, f: T -> seq<U>, p: U -> bool)
    requires n <= |s|
    requires forall k :: 0 <= k < n ==> forall j :: 0 <= j < |f(s[k])| ==> p(f(s[k])[j])
    ensures forall j :: 0 <= j < |FlatMapPrefix(s, n, f)| ==> p(FlatMapPrefix(s, n, f)[j])
  {
    if n > 0 {
      FlatMapPrefixAll(s, n - 1, f, p);
    }
  }

  /** A property of every piece of every element holds of every piece of the result. */
  lemma FlatMapAll<T, U>(s: seq<T>, f: T -> seq<U>, p: U -> bool)
    requires forall k :: 0 <= k < |s| ==> forall j :: 0 <= j < |f(s[k])| ==> p(f(s[k])[j])
    ensures forall j :: 0 <= j < |FlatMap(s, f)| ==> p(FlatMap(s, f)[j])
  {
    FlatMapPrefixAll(s, |s|, f, p);
  }
}
