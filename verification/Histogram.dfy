/** The numeric histogram: the bucket expression of the MySQL dialect (internal/adapters/adapter.go) and
    addNumericHistogram (internal/adapters/profile.go), in exact arithmetic. */
module Histogram {
  import opened Domain

  datatype Bin = Bin(lower: real, upper: real, count: int, percentage: real)

  /** CASE WHEN min = max THEN 0 ELSE LEAST(9, FLOOR((v - min) / (max - min) * 10)) END */
  function Bucket(v: real, min: real, max: real): (b: int)
    ensures min == max ==> b == 0
  {
    if min == max then 0 else Min(9, ((v - min) / (max - min) * 10.0).Floor)
  }

  /** How many values fall into bucket `b`. */
  function Count(values: seq<real>, min: real, max: real, b: int): nat {
    if values == [] then 0
    else Count(values[1..], min, max, b) + (if Bucket(values[0], min, max) == b then 1 else 0)
  }

  /** The rows of the histogram query: GROUP BY the bucket, in any order. */
  ghost predicate Grouped(values: seq<real>, min: real, max: real, rows: seq<(int, int)>) {
    && (forall i, j | 0 <= i < j < |rows| :: rows[i].0 != rows[j].0)
    && (forall i | 0 <= i < |rows| :: rows[i].1 == Count(values, min, max, rows[i].0) > 0)
    && (forall b | Count(values, min, max, b) > 0 :: exists i :: 0 <= i < |rows| && rows[i].0 == b)
  }

  /** The array of counts the rows are scanned into; a row for no bucket is skipped. */
  function Scanned(rows: seq<(int, int)>): (c: seq<int>)
    ensures |c| == 10
  {
    if rows == [] then seq(10, i => 0)
    else
      var c, r := Scanned(rows[..|rows| - 1]), rows[|rows| - 1];
      if 0 <= r.0 < 10 then c[r.0 := r.1] else c
  }

  function Lower(min: real, max: real, i: int): real {
    min + i as real * ((max - min) / 10.0)
  }

  function Upper(min: real, max: real, i: int): real {
    if i == 9 then max else min + (i + 1) as real * ((max - min) / 10.0)
  }

  /** The bins of the first `k` buckets; empty buckets have none. */
  function Bins(min: real, max: real, nonNull: int, counts: seq<int>, k: nat): seq<Bin>
    requires nonNull > 0 && k <= |counts|
  {
    if k == 0 then []
    else
      Bins(min, max, nonNull, counts, k - 1)
      + (if counts[k - 1] == 0 then []
         else [Bin(Lower(min, max, k - 1), Upper(min, max, k - 1), counts[k - 1],
                   counts[k - 1] as real * 100.0 / nonNull as real)])
  }

  /** What addNumericHistogram adds to a column profile whose extremes are `min` and `max` (None if there
      are none or they are no numbers), when the query returns `rows` (None if it fails). */
  function Added(min: Option<real>, max: Option<real>, nonNull: int, rows: Option<seq<(int, int)>>): seq<Bin> {
    if min.None? || max.None? || nonNull <= 0 then []
    else if min.value == max.value then [Bin(min.value, max.value, nonNull, 100.0)]
    else if rows.None? then []
    else Bins(min.value, max.value, nonNull, Scanned(rows.value), 10)
  }

  method AddNumericHistogram(min: Option<real>, max: Option<real>, nonNull: int, rows: Option<seq<(int, int)>>)
    returns (bins: seq<Bin>)
    ensures bins == Added(min, max, nonNull, rows)
    ensures min.None? || max.None? || nonNull <= 0 ==> bins == []
    ensures min.Some? && max.Some? && nonNull > 0 ==>
              if min.value == max.value then bins == [Bin(min.value, min.value, nonNull, 100.0)]
              else rows.None? ==> bins == []
  {
    bins := [];
    if min.None? || max.None? || nonNull <= 0 { return; }
    if min.value == max.value {
      return [Bin(min.value, max.value, nonNull, 100.0)];
    }
    var counts := new int[10](i => 0);
    if rows.None? { return; }
    var rs := rows.value;
    for k := 0 to |rs|
      invariant counts[..] == Scanned(rs[..k])
    {
      assert rs[..k + 1][..k] == rs[..k];
      var bucket, count := rs[k].0, rs[k].1;
      if bucket >= 0 && bucket < 10 { counts[bucket] := count; }
    }
    assert rs[..|rs|] == rs;
    var width := (max.value - min.value) / 10.0;
    for i := 0 to 10
      invariant bins == Bins(min.value, max.value, nonNull, counts[..], i)
    {
      if counts[i] != 0 {
        var lower := min.value + i as real * width;
        var upper := min.value + (i + 1) as real * width;
        if i == 9 { upper := max.value; }
        bins := bins + [Bin(lower, upper, counts[i], counts[i] as real * 100.0 / nonNull as real)];
      }
    }
  }

  // ----- buckets and their bounds -----

  /** Half-open, except that the last bin contains its upper end, the maximum. */
  predicate InBin(v: real, min: real, max: real, i: int) {
    Lower(min, max, i) <= v && (if i == 9 then v <= Upper(min, max, i) else v < Upper(min, max, i))
  }

  /** Where a value lies on the scale from 0 to 10. */
  lemma Scale(v: real, min: real, max: real, x: real, t: real)
    requires min < max && x == (v - min) / (max - min) * 10.0
    ensures t <= x <==> min + t * ((max - min) / 10.0) <= v
    ensures x <= t <==> v <= min + t * ((max - min) / 10.0)
  {
    var d := max - min;
    var w := d / 10.0;
    var q := (v - min) / d;
    assert q * d == v - min;
    assert x * w == q * 10.0 * w == q * d;
    Ordered(t, x, w);
    Ordered(x, t, w);
  }

  lemma Ordered(a: real, b: real, w: real)
    requires w > 0.0
    ensures a <= b <==> a * w <= b * w
  {
    if a <= b {
      assert (b - a) * w >= 0.0;
    } else {
      assert (a - b) * w > 0.0;
    }
  }

  /** Each value between the extremes falls into a bucket from 0 to 9, and the bucket is the only bin the
      value lies in. */
  lemma BucketIsBin(v: real, min: real, max: real, i: int)
    requires min < max && min <= v <= max && 0 <= i <= 9
    ensures 0 <= Bucket(v, min, max) <= 9
    ensures Bucket(v, min, max) == i <==> InBin(v, min, max, i)
  {
    var x := (v - min) / (max - min) * 10.0;
    var w := (max - min) / 10.0;
    Scale(v, min, max, x, 0.0);
    Scale(v, min, max, x, 10.0);
    Scale(v, min, max, x, i as real);
    Scale(v, min, max, x, (i + 1) as real);
    assert min + 0.0 * w == min && min + 10.0 * w == max;
    assert 0.0 <= x <= 10.0;
    FloorBelow(x, i);
    FloorBelow(x, i + 1);
    FloorBelow(x, 0);
    assert Lower(min, max, i) <= v <==> i <= x.Floor;
    assert i < 9 ==> (v < Upper(min, max, i) <==> x.Floor < i + 1);
  }

  lemma FloorBelow(x: real, n: int)
    ensures n as real <= x <==> n <= x.Floor
  {
  }

  // ----- conservation -----

  lemma {:induction false} CountsAddUp(values: seq<real>, min: real, max: real)
    requires min < max && forall k | 0 <= k < |values| :: min <= values[k] <= max
    ensures Total(values, min, max, 10) == |values|
  {
    if values == [] {
      TotalEmpty(min, max, 10);
    } else {
      var rest := values[1..];
      assert forall k | 0 <= k < |rest| :: rest[k] == values[k + 1];
      CountsAddUp(rest, min, max);
      BucketIsBin(values[0], min, max, 0);
      TotalStep(values, min, max, 10);
    }
  }

  /** The sum of the counts of the first `k` buckets. */
  function Total(values: seq<real>, min: real, max: real, k: nat): nat {
    if k == 0 then 0 else Total(values, min, max, k - 1) + Count(values, min, max, k - 1)
  }

  lemma {:induction false} TotalEmpty(min: real, max: real, k: nat)
    ensures Total([], min, max, k) == 0
  {
    if k > 0 { TotalEmpty(min, max, k - 1); }
  }

  lemma {:induction false} TotalStep(values: seq<real>, min: real, max: real, k: nat)
    requires values != []
    ensures Total(values, min, max, k) ==
            Total(values[1..], min, max, k) + (if 0 <= Bucket(values[0], min, max) < k then 1 else 0)
  {
    if k > 0 { TotalStep(values, min, max, k - 1); }
  }

  lemma {:induction false} ScannedAt(rows: seq<(int, int)>, b: int)
    requires 0 <= b < 10 && forall i, j | 0 <= i < j < |rows| :: rows[i].0 != rows[j].0
    ensures forall i | 0 <= i < |rows| && rows[i].0 == b :: Scanned(rows)[b] == rows[i].1
    ensures (forall i | 0 <= i < |rows| :: rows[i].0 != b) ==> Scanned(rows)[b] == 0
  {
    if rows != [] {
      var init := rows[..|rows| - 1];
      assert forall i | 0 <= i < |init| :: init[i] == rows[i];
      ScannedAt(init, b);
    }
  }

  lemma ScannedCounts(values: seq<real>, min: real, max: real, rows: seq<(int, int)>, b: int)
    requires Grouped(values, min, max, rows) && 0 <= b < 10
    ensures Scanned(rows)[b] == Count(values, min, max, b)
  {
    ScannedAt(rows, b);
    if Count(values, min, max, b) > 0 {
      var i :| 0 <= i < |rows| && rows[i].0 == b;
    } else {
      assert forall i | 0 <= i < |rows| :: rows[i].0 != b;
    }
  }

  function CountSum(bins: seq<Bin>): int {
    if bins == [] then 0 else CountSum(bins[..|bins| - 1]) + bins[|bins| - 1].count
  }

  function PercentageSum(bins: seq<Bin>): real {
    if bins == [] then 0.0 else PercentageSum(bins[..|bins| - 1]) + bins[|bins| - 1].percentage
  }

  lemma {:induction false} SumOfBins(values: seq<real>, min: real, max: real, counts: seq<int>, k: nat)
    requires values != [] && k <= 10 == |counts|
    requires forall b | 0 <= b < 10 :: counts[b] == Count(values, min, max, b)
    ensures var bins := Bins(min, max, |values|, counts, k);
            && CountSum(bins) == Total(values, min, max, k)
            && PercentageSum(bins) == CountSum(bins) as real * 100.0 / |values| as real
  {
    if k > 0 {
      SumOfBins(values, min, max, counts, k - 1);
      var bins, init := Bins(min, max, |values|, counts, k), Bins(min, max, |values|, counts, k - 1);
      if counts[k - 1] == 0 {
        assert bins == init;
      } else {
        assert bins[..|bins| - 1] == init;
        var n := |values| as real;
        AddQuotients(CountSum(init) as real * 100.0, counts[k - 1] as real * 100.0, n);
      }
    }
  }

  lemma AddQuotients(a: real, b: real, n: real)
    requires n > 0.0
    ensures a / n + b / n == (a + b) / n
  {
  }

  function BinAt(min: real, max: real, b: int, count: int, n: int): Bin
    requires n > 0
  {
    Bin(Lower(min, max, b), Upper(min, max, b), count, count as real * 100.0 / n as real)
  }

  lemma {:induction false} BinOf(n: int, min: real, max: real, counts: seq<int>, k: nat, b: nat)
    requires n > 0 && b < k <= |counts| && counts[b] != 0
    ensures BinAt(min, max, b, counts[b], n) in Bins(min, max, n, counts, k)
  {
    if b < k - 1 {
      BinOf(n, min, max, counts, k - 1, b);
    } else {
      var bins := Bins(min, max, n, counts, k);
      assert bins[|bins| - 1] == BinAt(min, max, b, counts[b], n);
    }
  }

  ghost predicate Extremes(values: seq<real>, min: real, max: real) {
    && (forall k | 0 <= k < |values| :: min <= values[k] <= max)
    && min in values && max in values
  }

  /** Conservation. For every non-empty column the counts of the bins add up to the number of values and
      the percentages to 100. */
  lemma HistogramConserves(values: seq<real>, min: real, max: real, rows: seq<(int, int)>)
    requires values != [] && Extremes(values, min, max) && Grouped(values, min, max, rows)
    ensures var bins := Added(Some(min), Some(max), |values|, Some(rows));
            CountSum(bins) == |values| && PercentageSum(bins) == 100.0
  {
    var bins := Added(Some(min), Some(max), |values|, Some(rows));
    if min == max {
      OneBin(bins[0]);
    } else {
      forall b | 0 <= b < 10 ensures Scanned(rows)[b] == Count(values, min, max, b) {
        ScannedCounts(values, min, max, rows, b);
      }
      SumOfBins(values, min, max, Scanned(rows), 10);
      CountsAddUp(values, min, max);
      Hundred(|values| as real);
    }
  }

  lemma OneBin(b: Bin)
    ensures CountSum([b]) == b.count && PercentageSum([b]) == b.percentage
  {
    assert [b][..0] == [];
  }

  lemma Hundred(n: real)
    requires n > 0.0
    ensures n * 100.0 / n == 100.0
  {
  }

  /** How many values lie within the bounds of bin `i`. */
  function Within(values: seq<real>, min: real, max: real, i: int): nat {
    if values == [] then 0
    else Within(values[1..], min, max, i) + (if InBin(values[0], min, max, i) then 1 else 0)
  }

  lemma {:induction false} CountIsWithin(values: seq<real>, min: real, max: real, i: int)
    requires min < max && 0 <= i <= 9 && forall k | 0 <= k < |values| :: min <= values[k] <= max
    ensures Count(values, min, max, i) == Within(values, min, max, i)
  {
    if values != [] {
      var rest := values[1..];
      assert forall k | 0 <= k < |rest| :: rest[k] == values[k + 1];
      CountIsWithin(rest, min, max, i);
      BucketIsBin(values[0], min, max, i);
    }
  }

  /** Each value lies within the bounds of a bin of the histogram, and that bin's count is the number of
      values within its bounds. */
  lemma EveryValueIsBinned(values: seq<real>, min: real, max: real, rows: seq<(int, int)>, k: nat)
    requires k < |values| && min < max && Extremes(values, min, max) && Grouped(values, min, max, rows)
    ensures var b := Bucket(values[k], min, max);
            && 0 <= b <= 9 && InBin(values[k], min, max, b)
            && BinAt(min, max, b, Within(values, min, max, b), |values|)
               in Added(Some(min), Some(max), |values|, Some(rows))
  {
    var b := Bucket(values[k], min, max);
    BucketIsBin(values[k], min, max, 0);
    BucketIsBin(values[k], min, max, b);
    CountIsWithin(values, min, max, b);
    ScannedCounts(values, min, max, rows, b);
    Counted(values, min, max, k);
    BinOf(|values|, min, max, Scanned(rows), 10, b);
  }

  lemma {:induction false} Counted(values: seq<real>, min: real, max: real, k: nat)
    requires k < |values|
    ensures Count(values, min, max, Bucket(values[k], min, max)) > 0
  {
    if k > 0 { Counted(values[1..], min, max, k - 1); }
  }

  // ----- the histogram in terms of the values -----

  /** The value lies in the i-th tenth of the range; the last one includes the maximum. */
  predicate InTenth(v: real, min: real, max: real, i: int) {
    && min + i as real * (max - min) / 10.0 <= v
    && (if i == 9 then v <= max else v < min + (i + 1) as real * (max - min) / 10.0)
  }

  function Inhabitants(values: seq<real>, min: real, max: real, i: int): nat {
    if values == [] then 0
    else Inhabitants(values[1..], min, max, i) + (if InTenth(values[0], min, max, i) then 1 else 0)
  }

  /** The inhabited ones of the first `k` tenths, in ascending order, each with its bounds, the number of its
      inhabitants and their share of all values. */
  function Tenths(values: seq<real>, min: real, max: real, k: nat): seq<Bin>
    requires values != []
  {
    if k == 0 then []
    else
      var i, n := k - 1, Inhabitants(values, min, max, k - 1);
      Tenths(values, min, max, k - 1)
      + (if n == 0 then []
         else [Bin(min + i as real * (max - min) / 10.0,
                   if i == 9 then max else min + (i + 1) as real * (max - min) / 10.0,
                   n, n as real * 100.0 / |values| as real)])
  }

  lemma TenthBounds(min: real, max: real, i: int)
    ensures Lower(min, max, i) == min + i as real * (max - min) / 10.0
    ensures Upper(min, max, i) == if i == 9 then max else min + (i + 1) as real * (max - min) / 10.0
  {
    Tenth(i as real, max - min);
    Tenth((i + 1) as real, max - min);
  }

  lemma Tenth(a: real, w: real)
    ensures a * (w / 10.0) == a * w / 10.0
  {
  }

  lemma {:induction false} WithinIsInhabitants(values: seq<real>, min: real, max: real, i: int)
    ensures Within(values, min, max, i) == Inhabitants(values, min, max, i)
  {
    if values != [] {
      WithinIsInhabitants(values[1..], min, max, i);
      TenthBounds(min, max, i);
    }
  }

  lemma {:induction false} BinsAreTenths(values: seq<real>, min: real, max: real, counts: seq<int>, k: nat)
    requires values != [] && k <= 10 == |counts|
    requires forall b | 0 <= b < 10 :: counts[b] == Inhabitants(values, min, max, b)
    ensures Bins(min, max, |values|, counts, k) == Tenths(values, min, max, k)
  {
    if k > 0 {
      BinsAreTenths(values, min, max, counts, k - 1);
      var i, n := k - 1, Inhabitants(values, min, max, k - 1);
      TenthBounds(min, max, i);
      assert counts[i] == n;
      assert Bin(Lower(min, max, i), Upper(min, max, i), n, n as real * 100.0 / |values| as real) ==
             Bin(min + i as real * (max - min) / 10.0,
                 if i == 9 then max else min + (i + 1) as real * (max - min) / 10.0,
                 n, n as real * 100.0 / |values| as real);
    }
  }

  /** The histogram of every non-empty column is exactly its inhabited tenths, or one full bin if all values are
      equal. */
  lemma HistogramIsTenths(values: seq<real>, min: real, max: real, rows: seq<(int, int)>)
    requires values != [] && Extremes(values, min, max) && Grouped(values, min, max, rows)
    ensures Added(Some(min), Some(max), |values|, Some(rows)) ==
            if min == max then [Bin(min, min, |values|, 100.0)] else Tenths(values, min, max, 10)
  {
    if min != max {
      assert min < max;
      forall b | 0 <= b < 10 ensures Scanned(rows)[b] == Inhabitants(values, min, max, b) {
        ScannedCounts(values, min, max, rows, b);
        CountIsWithin(values, min, max, b);
        WithinIsInhabitants(values, min, max, b);
      }
      BinsAreTenths(values, min, max, Scanned(rows), 10);
    }
  }
}
