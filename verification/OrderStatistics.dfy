/** Sorting and ranks: what "the sample at a rank" means. */
module OrderStatistics {
  predicate Sorted(s: seq<int>) {
    forall i, j :: 0 <= i < j < |s| ==> s[i] <= s[j]
  }

  /** How many samples are at most `x`. */
  function AtMost(s: seq<int>, x: int): (n: nat)
    ensures n <= |s|
  {
    if s == [] then 0
    else AtMost(s[..|s| - 1], x) + if s[|s| - 1] <= x then 1 else 0
  }

  /** Where `bisect` would put `x`: after everything that is at most `x`. */
  function Insert(s: seq<int>, x: int): seq<int> {
    s[..AtMost(s, x)] + [x] + s[AtMost(s, x)..]
  }

  function Sort(s: seq<int>): (r: seq<int>)
    ensures |r| == |s|
  {
    if s == [] then [] else Insert(Sort(s[..|s| - 1]), s[|s| - 1])
  }

  /** In a sorted sequence the elements at most `x` are a prefix. */
  lemma {:induction false} AtMostIsPrefix(s: seq<int>, x: int)
    requires Sorted(s)
    ensures forall k :: 0 <= k < |s| ==> (s[k] <= x <==> k < AtMost(s, x))
  {
    if s == [] {
    } else {
      AtMostIsPrefix(s[..|s| - 1], x);
    }
  }

  lemma InsertSorted(s: seq<int>, x: int)
    requires Sorted(s)
    ensures Sorted(Insert(s, x)) && multiset(Insert(s, x)) == multiset(s) + multiset{x}
  {
    AtMostIsPrefix(s, x);
    hide AtMost;
    var k := AtMost(s, x);
    assert s == s[..k] + s[k..];
    assert Insert(s, x) == s[..k] + [x] + s[k..];
    assert forall i :: 0 <= i < |s| ==> s[i] == Insert(s, x)[if i < k then i else i + 1];
  }

  lemma {:induction false} SortSorts(s: seq<int>)
    ensures Sorted(Sort(s)) && multiset(Sort(s)) == multiset(s)
  {
    if s == [] {
    } else {
      hide Insert, Sorted;
      var rest, last := s[..|s| - 1], s[|s| - 1];
      SortSorts(rest);
      InsertSorted(Sort(rest), last);
      assert s == rest + [last];
      assert multiset(s) == multiset(rest) + multiset{last};
    }
  }

  lemma {:induction false} AtMostJoin(s: seq<int>, t: seq<int>, x: int)
    ensures AtMost(s + t, x) == AtMost(s, x) + AtMost(t, x)
  {
    if t == [] {
      assert s + t == s;
    } else {
      AtMostJoin(s, t[..|t| - 1], x);
      assert (s + t)[..|s + t| - 1] == s + t[..|t| - 1];
    }
  }

  /** A list and its sorted form count the same. */
  lemma {:induction false} SortCounts(s: seq<int>, x: int)
    ensures AtMost(Sort(s), x) == AtMost(s, x)
  {
    if s == [] {
    } else {
      var t, y := Sort(s[..|s| - 1]), s[|s| - 1];
      SortCounts(s[..|s| - 1], x);
      var k := AtMost(t, y);
      AtMostJoin(t[..k] + [y], t[k..], x);
      AtMostJoin(t[..k], [y], x);
      AtMostJoin(t[..k], t[k..], x);
      assert t[..k] + t[k..] == t;
    }
  }

  /** At least `rank` samples are at most `x` exactly when the sample at that rank is. */
  lemma RankAtMost(s: seq<int>, rank: nat, x: int)
    requires 1 <= rank <= |s|
    ensures rank <= AtMost(s, x) <==> Sort(s)[rank - 1] <= x
  {
    SortSorts(s);
    SortCounts(s, x);
    AtMostIsPrefix(Sort(s), x);
  }

  /** So large a part of a count. */
  function Share(fraction: real, count: nat): real {
    fraction * count as real
  }

  lemma ShareGrows(p: real, q: real, count: nat)
    requires p <= q
    ensures Share(p, count) <= Share(q, count)
  {
    var d, n := q - p, count as real;
    assert d * n >= 0.0;
    assert q * n == p * n + d * n;
  }

  /** A fraction of a count, rounded down, is between zero and the count. */
  lemma ShareWithin(fraction: real, count: nat)
    requires 0.0 <= fraction <= 1.0
    ensures 0.0 <= Share(fraction, count) <= count as real && 0 <= Share(fraction, count).Floor <= count
  {
    ShareGrows(0.0, fraction, count);
    ShareGrows(fraction, 1.0, count);
    var x := Share(fraction, count);
    assert x.Floor as real <= x <= count as real;
  }
}
