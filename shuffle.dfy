/**
 * The in-place Fisher–Yates shuffle and the shuffled number range. The random
 * swap partner of each step is supplied by the caller as `picks`.
 */
module Shuffle {

  /**
   * The swap partners `Math.random` may produce for an array of length `n`:
   * `picks[i]` is the `j` chosen when the loop counter is `i`, so `0 <= j <= i`.
   */
  predicate ValidPicks(picks: seq<nat>, n: nat) {
    |picks| == n && forall i :: 0 <= i < n ==> picks[i] <= i
  }

  function Swap<T>(s: seq<T>, i: nat, j: nat): (r: seq<T>)
    requires i < |s| && j < |s|
    ensures |r| == |s|
  {
    s[i := s[j]][j := s[i]]
  }

  /** What the loop still does once its counter is `i`: swap cell `i` with `picks[i]`, then go on with `i - 1`. */
  function ShuffleFrom<T>(s: seq<T>, picks: seq<nat>, i: int): seq<T>
    requires ValidPicks(picks, |s|) && -1 <= i < |s|
    decreases i + 1
  {
    if i <= 0 then s else ShuffleFrom(Swap(s, i, picks[i]), picks, i - 1)
  }

  /** The whole shuffle: the counter starts at the last index. */
  function Shuffled<T>(s: seq<T>, picks: seq<nat>): seq<T>
    requires ValidPicks(picks, |s|)
  {
    ShuffleFrom(s, picks, |s| - 1)
  }

  lemma {:induction false} ShuffleFromPermutes<T>(s: seq<T>, picks: seq<nat>, i: int)
    requires ValidPicks(picks, |s|) && -1 <= i < |s|
    ensures |ShuffleFrom(s, picks, i)| == |s|
    ensures multiset(ShuffleFrom(s, picks, i)) == multiset(s)
    decreases i + 1
  {
    if i > 0 {
      ShuffleFromPermutes(Swap(s, i, picks[i]), picks, i - 1);
    }
  }

  /** The shuffle keeps the length and the multiset of elements: it is a permutation. */
  lemma ShuffledPermutes<T>(s: seq<T>, picks: seq<nat>)
    requires ValidPicks(picks, |s|)
    ensures |Shuffled(s, picks)| == |s|
    ensures multiset(Shuffled(s, picks)) == multiset(s)
  {
    ShuffleFromPermutes(s, picks, |s| - 1);
  }

  /** Arrays of length 0 or 1 are left as they are. */
  lemma ShortUnchanged<T>(s: seq<T>, picks: seq<nat>)
    requires ValidPicks(picks, |s|) && |s| <= 1
    ensures Shuffled(s, picks) == s
  {
  }

  /** `shuffleArray(array)`: the loop runs its counter from the last index down to 1. */
  method ShuffleArray<T>(a: array<T>, picks: seq<nat>)
    requires ValidPicks(picks, a.Length)
    modifies a
    ensures a[..] == Shuffled(old(a[..]), picks)
    ensures multiset(a[..]) == multiset(old(a[..]))
  {
    var i := a.Length - 1;
    while i > 0
      invariant -1 <= i < a.Length
      invariant ShuffleFrom(a[..], picks, i) == Shuffled(old(a[..]), picks)
      invariant multiset(a[..]) == multiset(old(a[..]))
    {
      var j := picks[i];
      ghost var before := a[..];
      var temp := a[i];
      a[i] := a[j];
      a[j] := temp;
      assert a[..] == Swap(before, i, j);
      i := i - 1;
    }
  }

  /** The number of integers from `start` to `end` inclusive. */
  function RangeLength(start: int, end: int): nat {
    if end < start then 0 else end - start + 1
  }

  /** The integers `start..end` in increasing order. */
  function Range(start: int, end: int): (r: seq<int>)
    ensures |r| == RangeLength(start, end)
    ensures forall k :: 0 <= k < |r| ==> r[k] == start + k
    decreases RangeLength(start, end)
  {
    if end < start then [] else Range(start, end - 1) + [end]
  }

  /** No value occurs twice. */
  ghost predicate Distinct<T>(s: seq<T>) {
    forall p, q :: 0 <= p < q < |s| ==> s[p] != s[q]
  }

  lemma {:induction false} DistinctCountsOnce<T>(s: seq<T>, x: T)
    requires Distinct(s)
    ensures multiset(s)[x] <= 1
  {
    if s != [] {
      assert s == [s[0]] + s[1..];
      assert Distinct(s[1..]) by {
        forall p, q | 0 <= p < q < |s[1..]| ensures s[1..][p] != s[1..][q] {
          assert s[1..][p] == s[p + 1] && s[1..][q] == s[q + 1];
        }
      }
      DistinctCountsOnce(s[1..], x);
      if s[0] == x {
        assert x !in s[1..] by {
          forall k | 0 <= k < |s[1..]| ensures s[1..][k] != x {
            assert s[1..][k] == s[k + 1];
          }
        }
      }
    }
  }

  lemma RepeatCountsTwice<T>(s: seq<T>, p: nat, q: nat)
    requires p < q < |s| && s[p] == s[q]
    ensures multiset(s)[s[p]] >= 2
  {
    assert s == s[..q] + s[q..];
    assert s[p] in s[..q];
    assert s[q..][0] == s[q];
  }

  /** A permutation of a sequence without repetitions has none either. */
  lemma PermutationKeepsDistinct<T>(a: seq<T>, b: seq<T>)
    requires multiset(a) == multiset(b) && Distinct(b)
    ensures Distinct(a)
  {
    forall p, q | 0 <= p < q < |a| ensures a[p] != a[q] {
      if a[p] == a[q] {
        RepeatCountsTwice(a, p, q);
        DistinctCountsOnce(b, a[p]);
      }
    }
  }

  /** The range holds exactly the integers from `start` to `end`, each once. */
  lemma RangeMembers(start: int, end: int)
    ensures forall x :: x in Range(start, end) <==> start <= x <= end
    ensures Distinct(Range(start, end))
  {
    var r := Range(start, end);
    forall x | start <= x <= end ensures x in r {
      assert r[x - start] == x;
    }
  }

  /** A shuffled range is a permutation of `start..end`: every value in range, none twice. */
  lemma ShuffledRange(start: int, end: int, picks: seq<nat>)
    requires ValidPicks(picks, RangeLength(start, end))
    ensures |Shuffled(Range(start, end), picks)| == RangeLength(start, end)
    ensures forall x :: x in Shuffled(Range(start, end), picks) <==> start <= x <= end
    ensures Distinct(Shuffled(Range(start, end), picks))
  {
    var s := Range(start, end);
    var r := Shuffled(s, picks);
    ShuffledPermutes(s, picks);
    RangeMembers(start, end);
    assert forall x :: x in r <==> x in multiset(r);
    assert forall x :: x in s <==> x in multiset(s);
    PermutationKeepsDistinct(r, s);
  }

  /**
   * `shuffleNumberRange(start, end)`: the integers `start..end` pushed in
   * order, then shuffled in place.
   */
  method ShuffleNumberRange(start: int, end: int, picks: seq<nat>) returns (r: seq<int>)
    requires ValidPicks(picks, RangeLength(start, end))
    ensures r == Shuffled(Range(start, end), picks)
    ensures |r| == RangeLength(start, end)
    ensures end < start ==> r == []
    ensures multiset(r) == multiset(Range(start, end))
    ensures forall x :: x in r <==> start <= x <= end
    ensures Distinct(r)
  {
    var arr: seq<int> := [];
    var i := start;
    while i <= end
      invariant i == start + |arr|
      invariant end < start ==> i == start
      invariant start <= end ==> i <= end + 1
      invariant arr == Range(start, i - 1)
    {
      arr := arr + [i];
      i := i + 1;
    }
    var a := new int[|arr|](k => if 0 <= k < |arr| then arr[k] else 0);
    assert a[..] == arr;
    ShuffleArray(a, picks);
    r := a[..];
    ShuffledRange(start, end, picks);
  }
}
