/** Order-preserving filtering and truncation of lists (`Array.filter`, `Array.slice(0, n)`). */
module Seqs {
  import opened Js

  /** `s.filter(p)`: the elements of `s` that satisfy `p`, in their original order. */
  function Filter<T>(s: seq<T>, p: T -> bool): (r: seq<T>)
    ensures |r| <= |s|
    ensures forall k :: 0 <= k < |r| ==> p(r[k])
  {
    if s == [] then [] else if p(s[0]) then [s[0]] + Filter(s[1..], p) else Filter(s[1..], p)
  }

  /** Filtering distributes over concatenation: together with the singleton
      case this pins the result down, order and multiplicity included. */
  lemma {:induction false} FilterConcat<T>(a: seq<T>, b: seq<T>, p: T -> bool)
    ensures Filter(a + b, p) == Filter(a, p) + Filter(b, p)
  {
    if a == [] {
      assert a + b == b;
    } else {
      assert (a + b)[1..] == a[1..] + b;
      FilterConcat(a[1..], b, p);
    }
  }

  /** An element is kept exactly when it is in the list and satisfies `p`. */
  lemma {:induction false} FilterMembership<T>(s: seq<T>, p: T -> bool, x: T)
    ensures x in Filter(s, p) <==> x in s && p(x)
  {
    if s != [] {
      FilterMembership(s[1..], p, x);
      assert s == [s[0]] + s[1..];
    }
  }

  /** A filter that keeps everything is the identity. */
  lemma {:induction false} FilterAll<T>(s: seq<T>, p: T -> bool)
    requires forall k :: 0 <= k < |s| ==> p(s[k])
    ensures Filter(s, p) == s
  {
    if s != [] {
      FilterAll(s[1..], p);
    }
  }

  /** `s.forEach(x => { if (p(x)) out.push(f(x)) })`: the images of the
      elements that satisfy `p`, in order. */
  function MapFilter<T, U>(s: seq<T>, p: T -> bool, f: T -> U): (r: seq<U>)
    ensures |r| <= |s|
  {
    if s == [] then []
    else if p(s[0]) then [f(s[0])] + MapFilter(s[1..], p, f)
    else MapFilter(s[1..], p, f)
  }

  lemma {:induction false} MapFilterConcat<T, U>(a: seq<T>, b: seq<T>, p: T -> bool, f: T -> U)
    ensures MapFilter(a + b, p, f) == MapFilter(a, p, f) + MapFilter(b, p, f)
  {
    if a == [] {
      assert a + b == b;
    } else {
      assert (a + b)[1..] == a[1..] + b;
      MapFilterConcat(a[1..], b, p, f);
    }
  }

  /** Collecting over one more element adds its image when it is kept. */
  lemma MapFilterSnoc<T, U>(s: seq<T>, x: T, p: T -> bool, f: T -> U)
    ensures MapFilter(s + [x], p, f) == MapFilter(s, p, f) + (if p(x) then [f(x)] else [])
  {
    MapFilterConcat(s, [x], p, f);
    assert [x][1..] == [];
  }

  /** Collecting is mapping over the filtered list: one image per kept
      element, in the same order. */
  lemma {:induction false} MapFilterIsMapOfFilter<T, U>(s: seq<T>, p: T -> bool, f: T -> U)
    ensures var kept := Filter(s, p);
      |MapFilter(s, p, f)| == |kept| && forall i :: 0 <= i < |kept| ==> MapFilter(s, p, f)[i] == f(kept[i])
  {
    if s != [] {
      MapFilterIsMapOfFilter(s[1..], p, f);
      var kept, rest := Filter(s, p), Filter(s[1..], p);
      if p(s[0]) {
        assert kept == [s[0]] + rest;
        forall i | 1 <= i < |kept| ensures MapFilter(s, p, f)[i] == f(kept[i]) {
          assert kept[i] == rest[i - 1];
        }
      }
    }
  }

  /** `s.slice(0, n)`. */
  function Take<T>(s: seq<T>, n: nat): (r: seq<T>)
    ensures |r| <= n && |r| <= |s|
    ensures |r| == if n < |s| then n else |s|
    ensures r <= s
  {
    if n < |s| then s[..n] else s
  }

  /** `s.find(p)`: the first element satisfying `p`, if any. */
  function Find<T>(s: seq<T>, p: T -> bool): (r: Option<T>)
    ensures r.Some? ==> r.value in s && p(r.value)
    ensures r.None? <==> forall k :: 0 <= k < |s| ==> !p(s[k])
    ensures r.Some? ==> exists i :: 0 <= i < |s| && s[i] == r.value && forall k :: 0 <= k < i ==> !p(s[k])
  {
    if s == [] then None
    else if p(s[0]) then Some(s[0])
    else
      var r := Find(s[1..], p);
      assert r.Some? ==> exists i :: 0 <= i < |s| - 1 && s[1..][i] == r.value && forall k :: 0 <= k < i ==> !p(s[1..][k]);
      assert r.Some? ==> exists i :: 1 <= i < |s| && s[i] == r.value && forall k :: 1 <= k < i ==> !p(s[k]) by {
        if r.Some? {
          var i :| 0 <= i < |s| - 1 && s[1..][i] == r.value && forall k :: 0 <= k < i ==> !p(s[1..][k]);
          assert s[i + 1] == r.value;
          forall k | 1 <= k < i + 1 ensures !p(s[k]) {
            assert s[k] == s[1..][k - 1];
          }
        }
      }
      r
  }
}
