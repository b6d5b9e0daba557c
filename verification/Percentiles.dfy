/** The three 95th percentiles the reports use, over exact reals, and how they relate. */
module Percentiles {
  import opened Common
  import opened Sorting

  predicate AtMost(a: real, b: real) { a <= b }

  function Sorted(values: seq<real>): (t: seq<real>)
    ensures |t| == |values|
  {
    Sort(AtMost, values)
  }

  function Ceiling(x: real): int { -((-x).Floor) }

  /** AI value: an integer index into the sorted values, of which there is at least one. */
  function IntegerRank(values: seq<real>): real
    requires values != []
  {
    var at := (95 * |values| + 99) / 100 - 1;
    Sorted(values)[if at < 0 then 0 else at]
  }

  /** AI service scores: the ceiling of 95% of the count. */
  function NearestRank(values: seq<real>): Option<real> {
    if values == [] then None
    else
      RanksAgree(|values|);
      Some(Sorted(values)[Ceiling(0.95 * |values| as real) - 1])
  }

  /** Managed AI: between the two values around position 0.95 * (count - 1), before rounding. */
  function Interpolated(values: seq<real>): Option<real> {
    if values == [] then None
    else
      var position := (|values| - 1) as real * 0.95;
      BracketInRange(|values|);
      Some(Blend(Sorted(values)[position.Floor], Sorted(values)[Ceiling(position)], position - position.Floor as real))
  }

  function Blend(low: real, high: real, part: real): real { low + (high - low) * part }

  lemma RanksAgree(n: nat)
    requires n > 0
    ensures Ceiling(0.95 * n as real) - 1 == (95 * n + 99) / 100 - 1
    ensures 0 <= (95 * n + 99) / 100 - 1 < n
  {
    var k := (95 * n + 99) / 100;
    assert 100 * (k - 1) < 95 * n <= 100 * k;
    assert (k - 1) as real < 0.95 * n as real <= k as real;
  }

  lemma BracketInRange(n: nat)
    requires n > 0
    ensures var p := (n - 1) as real * 0.95;
            && 0 <= p.Floor <= (95 * n + 99) / 100 - 1 <= Ceiling(p) < n
            && Ceiling(p) <= p.Floor + 1
  {
    var p := (n - 1) as real * 0.95;
    var k := (95 * n + 99) / 100;
    assert 100 * (k - 1) < 95 * n <= 100 * k;
    assert 100.0 * p == 95.0 * (n - 1) as real;
    assert 100 * p.Floor <= 95 * (n - 1);
    assert 95 * (n - 1) <= 100 * Ceiling(p) < 95 * (n - 1) + 100;
  }

  // ---------------------------------------------------------------- what the rank means

  /** How many values are at most `v`. */
  function CountUpTo(values: seq<real>, v: real): nat {
    if values == [] then 0 else (if values[0] <= v then 1 else 0) + CountUpTo(values[1..], v)
  }

  lemma {:induction false} InsertCounts(x: real, s: seq<real>, v: real)
    ensures CountUpTo(Insert(AtMost, x, s), v) == CountUpTo(s, v) + if x <= v then 1 else 0
  {
    if s != [] && !AtMost(x, s[0]) {
      InsertCounts(x, s[1..], v);
    } else {
      assert ([x] + s)[1..] == s;
    }
  }

  lemma {:induction false} SortedCounts(s: seq<real>, v: real)
    ensures CountUpTo(Sorted(s), v) == CountUpTo(s, v)
  {
    if s != [] {
      SortedCounts(s[1..], v);
      InsertCounts(s[0], Sorted(s[1..]), v);
    }
  }

  lemma {:induction false} AtLeast(t: seq<real>, k: nat, v: real)
    requires k <= |t| && forall i :: 0 <= i < k ==> t[i] <= v
    ensures CountUpTo(t, v) >= k
  {
    if k > 0 { AtLeast(t[1..], k - 1, v); }
  }

  lemma {:induction false} NoMoreThan(t: seq<real>, k: nat, v: real)
    requires k <= |t| && forall i :: k <= i < |t| ==> v < t[i]
    ensures CountUpTo(t, v) <= k
  {
    if t != [] { NoMoreThan(t[1..], if k > 0 then k - 1 else 0, v); }
  }

  /** `v` is the least of the values with at least 95% of the values at or below it. */
  ghost predicate LeastCovering(values: seq<real>, v: real) {
    && v in values && 100 * CountUpTo(values, v) >= 95 * |values|
    && forall w: real :: 100 * CountUpTo(values, w) >= 95 * |values| ==> v <= w
  }

  lemma SortedIsOrdered(values: seq<real>)
    ensures forall i, j :: 0 <= i <= j < |values| ==> Sorted(values)[i] <= Sorted(values)[j]
    ensures forall v :: v in Sorted(values) <==> v in values
  {
    SortOrdered(AtMost, values);
    SortKeepsElements(AtMost, values);
    hide Sort;
    forall i, j | 0 <= i <= j < |values| ensures Sorted(values)[i] <= Sorted(values)[j] {
      if i < j { assert AtMost(Sorted(values)[i], Sorted(values)[j]); }
    }
  }

  /** Nothing below position `k` of the sorted values covers more than `k` values. */
  lemma CoversFrom(values: seq<real>, k: nat, w: real)
    requires k < |values| && CountUpTo(values, w) > k
    ensures Sorted(values)[k] <= w
  {
    hide Sorted;
    SortedIsOrdered(values);
    SortedCounts(values, w);
    if w < Sorted(values)[k] { NoMoreThan(Sorted(values), k, w); }
  }

  lemma CoversUpTo(values: seq<real>, k: nat)
    requires k < |values|
    ensures CountUpTo(values, Sorted(values)[k]) >= k + 1
  {
    hide Sorted;
    SortedIsOrdered(values);
    SortedCounts(values, Sorted(values)[k]);
    AtLeast(Sorted(values), k + 1, Sorted(values)[k]);
  }

  /** Both rank forms give the same value, and it is what a 95th percentile should be. */
  lemma RankIsLeastCovering(values: seq<real>)
    requires values != []
    ensures NearestRank(values) == Some(IntegerRank(values))
    ensures LeastCovering(values, IntegerRank(values))
  {
    hide Sorted, Ceiling, CountUpTo;
    RanksAgree(|values|);
    SortedIsOrdered(values);
    var k := (95 * |values| + 99) / 100 - 1;
    var v := Sorted(values)[k];
    assert v in values by { assert v in Sorted(values); }
    CoversUpTo(values, k);
    forall w: real | 100 * CountUpTo(values, w) >= 95 * |values| ensures v <= w {
      CoversFrom(values, k, w);
    }
  }

  lemma Between(low: real, high: real, part: real)
    requires low <= high && 0.0 <= part <= 1.0
    ensures low <= Blend(low, high, part) <= high
  {
    var gap := high - low;
    assert gap * part >= 0.0 && gap * (1.0 - part) >= 0.0;
    assert gap * (1.0 - part) == gap - gap * part;
  }

  /** The interpolated percentile and the ranked one lie between the same two neighbours of the
      sorted values. */
  lemma SameBracket(values: seq<real>)
    requires values != []
    ensures var p := (|values| - 1) as real * 0.95;
            && 0 <= p.Floor <= Ceiling(p) < |values| && Ceiling(p) <= p.Floor + 1
            && Sorted(values)[p.Floor] <= Interpolated(values).value <= Sorted(values)[Ceiling(p)]
            && Sorted(values)[p.Floor] <= IntegerRank(values) <= Sorted(values)[Ceiling(p)]
  {
    hide Sorted, Ceiling, Blend;
    BracketInRange(|values|);
    RanksAgree(|values|);
    var p := (|values| - 1) as real * 0.95;
    var low, high := p.Floor, Ceiling(p);
    SortedIsOrdered(values);
    assert Sorted(values)[low] <= IntegerRank(values) <= Sorted(values)[high];
    Between(Sorted(values)[low], Sorted(values)[high], p - low as real);
  }

  ghost function Weighted(a: real, v: real, b: real, w: real): real { a * v + b * w }

  /** Where it lies: at the value in its place when the place is whole, else between its neighbours, each
      weighing more the nearer it is. */
  lemma InterpolatedExactly(values: seq<real>)
    requires values != []
    ensures var at := (|values| - 1) as real * 0.95; var low := at.Floor;
            && 0 <= low < |values|
            && (at == low as real ==> Interpolated(values) == Some(Sorted(values)[low]))
            && (at != low as real ==>
                  && low + 1 < |values|
                  && Interpolated(values)
                     == Some(Weighted(Sorted(values)[low], (low + 1) as real - at,
                                      Sorted(values)[low + 1], at - low as real)))
  {
    hide Sorted, Blend, Ceiling, Interpolated, Weighted;
    BracketInRange(|values|);
    InterpolatedIs(values);
    var at := (|values| - 1) as real * 0.95;
    var low := at.Floor;
    CeilingIs(at);
    if at == low as real {
      Weighed(Sorted(values)[low], Sorted(values)[low], 0.0, 1.0);
    } else {
      var part, other := at - low as real, (low + 1) as real - at;
      var t, u := Sorted(values)[low], Sorted(values)[low + 1];
      assert Interpolated(values) == Some(Blend(t, u, part));
      Weighed(t, u, part, other);
    }
  }

  lemma InterpolatedIs(values: seq<real>)
    requires values != []
    ensures var at := (|values| - 1) as real * 0.95;
            && 0 <= at.Floor <= Ceiling(at) < |values|
            && Interpolated(values) == Some(Blend(Sorted(values)[at.Floor], Sorted(values)[Ceiling(at)],
                                                  at - at.Floor as real))
  {
    hide Sorted, Blend, Ceiling;
    BracketInRange(|values|);
  }

  lemma CeilingIs(x: real)
    ensures Ceiling(x) == if x == x.Floor as real then x.Floor else x.Floor + 1
  {}

  lemma Weighed(low: real, high: real, part: real, other: real)
    requires part + other == 1.0
    ensures Blend(low, high, part) == Weighted(low, other, high, part)
    ensures part == 0.0 ==> Blend(low, high, part) == low
  {}
}
