/** The exact histogram of the Python runtime: a sorted list of the most recent samples,
    kept beside the order they came in. */
module SlidingHistogram {
  import opened Common
  import opened OrderStatistics

  /** Where `bisect_left` finds room for `x`: how many elements are below it. */
  function Below(s: seq<int>, x: int): (n: nat)
    ensures n <= |s|
  {
    AtMost(s, x - 1)
  }

  /** The last `capacity` samples recorded, or all while there are fewer. */
  function Window(recorded: seq<int>, capacity: nat): (w: seq<int>)
    ensures |w| == if |recorded| < capacity then |recorded| else capacity
  {
    if |recorded| < capacity then recorded else recorded[|recorded| - capacity..]
  }

  /** Counts determine a sorted sequence. */
  lemma SortedOnce(a: seq<int>, b: seq<int>)
    requires Sorted(a) && Sorted(b) && |a| == |b| && forall x :: AtMost(a, x) == AtMost(b, x)
    ensures a == b
  {
    forall k | 0 <= k < |a| ensures a[k] == b[k] {
      hide AtMost;
      AtMostIsPrefix(a, a[k]);
      AtMostIsPrefix(b, a[k]);
      AtMostIsPrefix(a, b[k]);
      AtMostIsPrefix(b, b[k]);
    }
  }

  /** In a sorted list the lookup lands on the value whenever it is there. */
  lemma LookupFinds(s: seq<int>, x: int)
    requires Sorted(s) && x in s
    ensures Below(s, x) < |s| && s[Below(s, x)] == x
  {
    AtMostIsPrefix(s, x - 1);
    var k :| 0 <= k < |s| && s[k] == x;
  }

  /** The window slides: its oldest element goes, the new one comes. */
  lemma WindowSlides(recorded: seq<int>, capacity: nat, x: int)
    requires capacity > 0
    ensures Window(recorded + [x], capacity) ==
      (if |recorded| < capacity then Window(recorded, capacity) else Window(recorded, capacity)[1..]) + [x]
  {
  }

  /** Taking an element out of a sorted list and putting another in sorts the new contents. */
  lemma SortReplaces(order: seq<int>, x: int)
    requires order != []
    ensures order[0] in Sort(order)
    ensures var s, i := Sort(order), Below(Sort(order), order[0]);
      i < |s| && s[i] == order[0] && Sort(order[1..] + [x]) == Insert(Without(s, i), x)
  {
    var s := Sort(order);
    SortSorts(order);
    assert order[0] in multiset(order);
    LookupFinds(s, order[0]);
    TakenOut(order, Below(s, order[0]));
    SortAppends(order[1..], x);
  }

  function Without(s: seq<int>, i: nat): seq<int>
    requires i < |s|
  {
    s[..i] + s[i + 1..]
  }

  lemma WithoutSorted(s: seq<int>, i: nat)
    requires Sorted(s) && i < |s|
    ensures Sorted(Without(s, i))
  {
  }

  lemma WithoutCounts(s: seq<int>, i: nat, x: int)
    requires i < |s|
    ensures AtMost(s, x) == AtMost(Without(s, i), x) + if s[i] <= x then 1 else 0
  {
    AtMostJoin(s[..i] + [s[i]], s[i + 1..], x);
    AtMostJoin(s[..i], [s[i]], x);
    AtMostJoin(s[..i], s[i + 1..], x);
    assert s == s[..i] + [s[i]] + s[i + 1..];
  }

  /** Taking the oldest sample out of the sorted list leaves the others sorted. */
  lemma TakenOut(order: seq<int>, i: nat)
    requires order != [] && i < |order| && Sort(order)[i] == order[0]
    ensures Without(Sort(order), i) == Sort(order[1..])
  {
    hide Sort, AtMost, Without, Sorted;
    var rest, others := Without(Sort(order), i), Sort(order[1..]);
    SortSorts(order);
    SortSorts(order[1..]);
    WithoutSorted(Sort(order), i);
    forall x ensures AtMost(rest, x) == AtMost(others, x) {
      SortCounts(order, x);
      SortCounts(order[1..], x);
      WithoutCounts(Sort(order), i, x);
      WithoutCounts(order, 0, x);
      assert Without(order, 0) == order[1..] by { WithoutFirst(order); }
    }
    assert |rest| == |others| by { WithoutLength(Sort(order), i); }
    SortedOnce(rest, others);
  }

  lemma WithoutFirst(s: seq<int>)
    requires s != []
    ensures Without(s, 0) == s[1..]
  {
  }

  lemma WithoutLength(s: seq<int>, i: nat)
    requires i < |s|
    ensures |Without(s, i)| == |s| - 1
  {
  }

  lemma SortAppends(order: seq<int>, x: int)
    ensures Sort(order + [x]) == Insert(Sort(order), x)
  {
    assert (order + [x])[..|order|] == order;
  }

  /** The index a quantile asks for among `count` sorted samples. */
  function Picked(quantile: real, count: nat): (index: nat)
    requires count > 0
    ensures index < count
    ensures quantile <= 0.0 ==> index == 0
    ensures quantile >= 1.0 ==> index == count - 1
    ensures 0.0 <= quantile <= 1.0 ==> index as real <= Share(quantile, count - 1) < index as real + 1.0
  {
    var clamped := if quantile < 0.0 then 0.0 else if quantile > 1.0 then 1.0 else quantile;
    ShareWithin(clamped, count - 1);
    Share(clamped, count - 1).Floor
  }

  class LatencyHistogram {
    const capacity: nat
    var samples: seq<int>
    var order: seq<int>
    var count: nat
    var total: int
    ghost var recorded: seq<int>

    /** The sorted list is the window, sorted. */
    ghost predicate Valid()
      reads this
    {
      && capacity > 0 && order == Window(recorded, capacity) && samples == Sort(order)
      && count == |recorded| && total == Sum(recorded)
    }

    static function Sum(s: seq<int>): int {
      if s == [] then 0 else Sum(s[..|s| - 1]) + s[|s| - 1]
    }

    constructor Sized(capacity: nat)
      requires capacity > 0
      ensures Valid() && recorded == [] && this.capacity == capacity
    {
      this.capacity, samples, order, count, total, recorded := capacity, [], [], 0, 0, [];
    }

    /** A capacity that is not positive is refused. */
    static method Make(capacity: int) returns (made: Option<LatencyHistogram>)
      ensures made.Some? <==> capacity > 0
      ensures made.Some? ==> fresh(made.value) && made.value.Valid() && made.value.recorded == [] &&
                             made.value.capacity == capacity
    {
      if capacity <= 0 {
        return None;
      }
      var h := new LatencyHistogram.Sized(capacity);
      return Some(h);
    }

    method Record(value: int)
      requires Valid()
      modifies this
      ensures Valid() && recorded == old(recorded) + [value]
    {
      hide Sort, Insert, Below, Window;
      WindowSlides(recorded, capacity, value);
      SortAppends(order, value);
      assert (recorded + [value])[..|recorded|] == recorded;
      count := count + 1;
      total := total + value;
      if |samples| >= capacity {
        SortReplaces(order, value);
        var oldest := order[0];
        order := order[1..];
        var index := Below(samples, oldest);
        if index < |samples| && samples[index] == oldest {
          samples := Without(samples, index);
        }
      }
      samples := Insert(samples, value);
      order := order + [value];
      recorded := recorded + [value];
    }

    /** The order statistic of the window the quantile picks. */
    method Percentile(quantile: real) returns (value: int)
      requires Valid()
      ensures recorded == [] ==> value == 0
      ensures recorded != [] ==>
        value == Sort(Window(recorded, capacity))[Picked(quantile, |Window(recorded, capacity)|)]
    {
      hide Sort, Window, Picked;
      if samples == [] {
        return 0;
      }
      return samples[Picked(quantile, |samples|)];
    }

    method Maximum() returns (value: int)
      requires Valid()
      ensures recorded == [] ==> value == 0
      ensures recorded != [] ==> value in Window(recorded, capacity)
      ensures forall i :: 0 <= i < |Window(recorded, capacity)| ==> Window(recorded, capacity)[i] <= value
    {
      SortSorts(order);
      if samples == [] {
        return 0;
      }
      forall i | 0 <= i < |order| ensures order[i] <= samples[|samples| - 1] {
        assert order[i] in multiset(samples);
        var k :| 0 <= k < |samples| && samples[k] == order[i];
      }
      assert samples[|samples| - 1] in multiset(order);
      return samples[|samples| - 1];
    }
  }

  /** Every percentile is one of the window's own samples; a larger quantile never picks a smaller one. */
  lemma PercentileInWindow(window: seq<int>, p: real, q: real)
    requires window != [] && p <= q
    ensures Sort(window)[Picked(p, |window|)] in window
    ensures Sort(window)[Picked(p, |window|)] <= Sort(window)[Picked(q, |window|)]
  {
    hide Sort, Picked;
    SortSorts(window);
    var i, j := Picked(p, |window|), Picked(q, |window|);
    assert Sort(window)[i] in multiset(window);
    PickedGrows(p, q, |window|);
    assert i == j || i < j;
  }

  lemma PickedGrows(p: real, q: real, count: nat)
    requires p <= q && count > 0
    ensures Picked(p, count) <= Picked(q, count)
  {
    var a := if p < 0.0 then 0.0 else if p > 1.0 then 1.0 else p;
    var b := if q < 0.0 then 0.0 else if q > 1.0 then 1.0 else q;
    ShareGrows(a, b, count - 1);
    FloorGrows(Share(a, count - 1), Share(b, count - 1));
  }

  lemma FloorGrows(x: real, y: real)
    requires x <= y
    ensures x.Floor <= y.Floor
  {
  }
}
