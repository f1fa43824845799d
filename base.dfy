/** The JavaScript array and optional-value idioms the helpdesk code is built
    from: `undefined`-able values, `filter`, `find`, `findIndex` and `some`. */
module Base {

  /** A value that may be `undefined`. */
  datatype Option<T> = None | Some(value: T) {
    /** `x ?? d` / `x || d` for a value whose defined form is never falsy. */
    function GetOr(default: T): T {
      match this
      case Some(v) => v
      case None => default
    }
  }

  /** `c || fallback` for an optional string: `undefined` and "" are falsy. */
  function OrElse(c: Option<string>, fallback: string): (r: string)
    ensures c.Some? && c.value != "" ==> r == c.value
    ensures c.None? || c.value == "" ==> r == fallback
  {
    if c.Some? && c.value != "" then c.value else fallback
  }

  /** `s || fallback` for a string. */
  function StrOr(s: string, fallback: string): (r: string)
    ensures s != "" ==> r == s
    ensures s == "" ==> r == fallback
  {
    if s != "" then s else fallback
  }

  /** `xs.filter(p)`: the elements of `xs` that satisfy `p`, in their order. */
  function Filter<T>(xs: seq<T>, p: T -> bool): (r: seq<T>)
    ensures |r| <= |xs|
    ensures forall i :: 0 <= i < |r| ==> r[i] in xs && p(r[i])
    ensures forall i :: 0 <= i < |xs| && p(xs[i]) ==> xs[i] in r
  {
    if xs == [] then []
    else (if p(xs[0]) then [xs[0]] else []) + Filter(xs[1..], p)
  }

  /** Filtering distributes over concatenation: the filter keeps the relative
      order of the elements it keeps. */
  lemma {:induction false} FilterConcat<T>(a: seq<T>, b: seq<T>, p: T -> bool)
    ensures Filter(a + b, p) == Filter(a, p) + Filter(b, p)
  {
    if a == [] {
      assert a + b == b;
    } else {
      assert (a + b)[0] == a[0];
      assert (a + b)[1..] == a[1..] + b;
      FilterConcat(a[1..], b, p);
    }
  }

  /** A filter whose predicate holds everywhere returns its input unchanged. */
  lemma {:induction false} FilterKeepsAll<T>(xs: seq<T>, p: T -> bool)
    requires forall i :: 0 <= i < |xs| ==> p(xs[i])
    ensures Filter(xs, p) == xs
  {
    if xs != [] {
      FilterKeepsAll(xs[1..], p);
    }
  }

  /** A filter whose predicate holds nowhere returns the empty list. */
  lemma {:induction false} FilterKeepsNone<T>(xs: seq<T>, p: T -> bool)
    requires forall i :: 0 <= i < |xs| ==> !p(xs[i])
    ensures Filter(xs, p) == []
  {
    if xs != [] {
      FilterKeepsNone(xs[1..], p);
    }
  }

  /** The filter starts with the first element that satisfies `p`. */
  lemma {:induction false} FilterStartsAtFirst<T>(xs: seq<T>, p: T -> bool, k: nat)
    requires k < |xs| && p(xs[k])
    requires forall j :: 0 <= j < k ==> !p(xs[j])
    ensures Filter(xs, p) != [] && Filter(xs, p)[0] == xs[k]
  {
    if k > 0 {
      assert Filter(xs, p) == Filter(xs[1..], p);
      FilterStartsAtFirst(xs[1..], p, k - 1);
    }
  }

  /** The length of a filter is the number of positions whose element
      satisfies `p`. */
  /** The positions of `xs` whose element satisfies `p`. */
  function Positions<T>(xs: seq<T>, p: T -> bool): set<int> {
    set i | 0 <= i < |xs| && p(xs[i])
  }

  lemma {:induction false} FilterCount<T>(xs: seq<T>, p: T -> bool)
    ensures |Filter(xs, p)| == |Positions(xs, p)|
    decreases |xs|
  {
    if xs != [] {
      var n := |xs| - 1;
      var init := xs[..n];
      FilterCount(init, p);
      assert xs == init + [xs[n]];
      FilterConcat(init, [xs[n]], p);
      var before := Positions(init, p);
      var all := Positions(xs, p);
      assert Filter([xs[n]], p) == (if p(xs[n]) then [xs[n]] else []) by {
        assert [xs[n]][1..] == [];
      }
      if p(xs[n]) {
        assert all == before + {n};
      } else {
        assert all == before;
      }
    }
  }

  /** `xs.findIndex(p)`: the index of the first element satisfying `p`, or -1. */
  function FindIndex<T>(xs: seq<T>, p: T -> bool): (r: int)
    ensures -1 <= r < |xs|
    ensures r >= 0 ==> p(xs[r]) && forall j :: 0 <= j < r ==> !p(xs[j])
    ensures r == -1 <==> forall j :: 0 <= j < |xs| ==> !p(xs[j])
  {
    if xs == [] then -1
    else if p(xs[0]) then 0
    else var k := FindIndex(xs[1..], p); if k < 0 then -1 else k + 1
  }

  /** `xs.find(p)`: the first element satisfying `p`, or `undefined`. */
  function Find<T>(xs: seq<T>, p: T -> bool): (r: Option<T>)
    ensures r.Some? ==> r.value in xs && p(r.value)
    ensures r.None? <==> forall j :: 0 <= j < |xs| ==> !p(xs[j])
  {
    var k := FindIndex(xs, p);
    if k < 0 then None else Some(xs[k])
  }

  /** The element `find` returns is the first one that satisfies `p`. */
  lemma FindIsFirst<T>(xs: seq<T>, p: T -> bool, i: nat)
    requires i < |xs| && p(xs[i])
    requires forall j :: 0 <= j < i ==> !p(xs[j])
    ensures FindIndex(xs, p) == i
    ensures Find(xs, p) == Some(xs[i])
  {
    var k := FindIndex(xs, p);
    assert k != -1;
  }

  /** Appending elements never moves a match that was already found. */
  lemma FindIndexAppend<T>(xs: seq<T>, ys: seq<T>, p: T -> bool)
    requires FindIndex(xs, p) >= 0
    ensures FindIndex(xs + ys, p) == FindIndex(xs, p)
  {
    var k := FindIndex(xs, p);
    assert (xs + ys)[k] == xs[k];
    assert forall j :: 0 <= j < k ==> (xs + ys)[j] == xs[j];
    FindIsFirst(xs + ys, p, k);
  }

  /** `xs.some(p)`. */
  function Any<T>(xs: seq<T>, p: T -> bool): (r: bool)
    ensures r <==> exists i :: 0 <= i < |xs| && p(xs[i])
    ensures r <==> Find(xs, p).Some?
  {
    FindIndex(xs, p) >= 0
  }

  /** `xs.map(f)`. */
  function Map<T, U>(xs: seq<T>, f: T -> U): (r: seq<U>)
    ensures |r| == |xs|
    ensures forall i :: 0 <= i < |xs| ==> r[i] == f(xs[i])
  {
    seq(|xs|, i requires 0 <= i < |xs| => f(xs[i]))
  }

  /** Mapping distributes over concatenation. */
  lemma MapConcat<T, U>(a: seq<T>, b: seq<T>, f: T -> U)
    ensures Map(a + b, f) == Map(a, f) + Map(b, f)
  {
    assert forall i :: 0 <= i < |a + b| ==> Map(a + b, f)[i] == (Map(a, f) + Map(b, f))[i];
  }

  /** `xs` is `ys` with some elements left out, the rest kept in order. */
  predicate Subseq<T(==)>(xs: seq<T>, ys: seq<T>)
    decreases |ys|
  {
    xs == [] || (ys != [] && ((xs[0] == ys[0] && Subseq(xs[1..], ys[1..])) || Subseq(xs, ys[1..])))
  }

  /** Mapping keeps an ordered selection an ordered selection. */
  lemma {:induction false} MapSubseq<T, U>(xs: seq<T>, ys: seq<T>, f: T -> U)
    requires Subseq(xs, ys)
    ensures Subseq(Map(xs, f), Map(ys, f))
    decreases |ys|
  {
    if xs != [] {
      var mx := Map(xs, f);
      var my := Map(ys, f);
      assert my[1..] == Map(ys[1..], f);
      if xs[0] == ys[0] && Subseq(xs[1..], ys[1..]) {
        MapSubseq(xs[1..], ys[1..], f);
        assert mx[1..] == Map(xs[1..], f);
        assert mx[0] == my[0];
      } else {
        MapSubseq(xs, ys[1..], f);
      }
    }
  }

  /** A filter result is an ordered selection of its input. */
  lemma {:induction false} FilterSubseq<T>(xs: seq<T>, p: T -> bool)
    ensures Subseq(Filter(xs, p), xs)
  {
    if xs != [] {
      FilterSubseq(xs[1..], p);
      var f := Filter(xs, p);
      if p(xs[0]) {
        assert f == [xs[0]] + Filter(xs[1..], p);
        assert f[0] == xs[0] && f[1..] == Filter(xs[1..], p);
      } else {
        assert f == Filter(xs[1..], p);
      }
    }
  }
}
