/**
 * The JavaScript array built-ins the core relies on (`find`, `findIndex`,
 * `filter`, `map`), as functions over sequences with their meaning stated.
 */
module ArrayOps {
  import opened Wrappers

  /** `s.find(p)`: the first element satisfying `p`, or nothing. */
  function Find<T>(s: seq<T>, p: T -> bool): (r: Option<T>)
    ensures r.Some? <==> exists i :: 0 <= i < |s| && p(s[i])
    ensures r.Some? ==> r.value in s && p(r.value)
    ensures r.Some? ==> r == Some(s[FindIndex(s, p)])
  {
    if s == [] then None
    else if p(s[0]) then Some(s[0])
    else Find(s[1..], p)
  }

  /** `s.findIndex(p)`: the index of the first element satisfying `p`, or -1. */
  function FindIndex<T>(s: seq<T>, p: T -> bool): (i: int)
    ensures -1 <= i < |s|
    ensures i == -1 <==> forall k :: 0 <= k < |s| ==> !p(s[k])
    ensures 0 <= i ==> p(s[i]) && forall k :: 0 <= k < i ==> !p(s[k])
  {
    if s == [] then -1
    else if p(s[0]) then 0
    else
      var j := FindIndex(s[1..], p);
      if j == -1 then -1 else j + 1
  }

  /** `s.filter(p)`: the elements satisfying `p`, in their original order. */
  function Filter<T>(s: seq<T>, p: T -> bool): (r: seq<T>)
    ensures |r| <= |s|
    ensures forall i :: 0 <= i < |r| ==> r[i] in s && p(r[i])
    ensures forall i :: 0 <= i < |s| && p(s[i]) ==> s[i] in r
  {
    if s == [] then []
    else if p(s[0]) then [s[0]] + Filter(s[1..], p)
    else Filter(s[1..], p)
  }

  /** Filtering a concatenation filters each part in turn: the order is kept. */
  lemma {:induction false} FilterAppend<T>(a: seq<T>, b: seq<T>, p: T -> bool)
    ensures Filter(a + b, p) == Filter(a, p) + Filter(b, p)
  {
    if a == [] {
      assert a + b == b;
    } else {
      assert (a + b)[1..] == a[1..] + b;
      FilterAppend(a[1..], b, p);
    }
  }

  /** The positions of `s` whose element satisfies `p`. */
  function Positions<T>(s: seq<T>, p: T -> bool): set<int> {
    set k | 0 <= k < |s| && p(s[k])
  }

  /** `filter(p).length` counts the positions whose element satisfies `p`. */
  lemma {:induction false} FilterCountsPositions<T>(s: seq<T>, p: T -> bool)
    ensures |Filter(s, p)| == |Positions(s, p)|
  {
    if s == [] {
      assert Positions(s, p) == {};
    } else {
      var n := |s| - 1;
      assert s == s[..n] + [s[n]];
      FilterAppend(s[..n], [s[n]], p);
      FilterCountsPositions(s[..n], p);
      if p(s[n]) {
        assert Positions(s, p) == Positions(s[..n], p) + {n};
      } else {
        assert Positions(s, p) == Positions(s[..n], p);
      }
    }
  }

  /** `s.map(f)`. */
  function Map<T, U>(s: seq<T>, f: T -> U): (r: seq<U>)
    ensures |r| == |s|
    ensures forall i :: 0 <= i < |s| ==> r[i] == f(s[i])
  {
    if s == [] then [] else [f(s[0])] + Map(s[1..], f)
  }
}
