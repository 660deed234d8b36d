/**
 What the page computes from the positions before drawing (app.js): the kink markers,
 the y-axis bounds of the payoff chart, and the price grid of the P&L table.
 */
module Chart {
  import opened Wrappers
  import opened Payoff

  // ---------------------------------------------------------------------------
  // Kink points
  // ---------------------------------------------------------------------------

  /** Options, underlyings and forwards mark their strike; risk-free blocks mark nothing. */
  predicate MakesKink(k: Kind)
  {
    k.IsOption() || k.IsLinear()
  }

  ghost predicate IsKinkStrike(ps: seq<Position>, x: real)
  {
    exists i :: 0 <= i < |ps| && MakesKink(ps[i].kind) && ps[i].strike == x
  }

  /** The insertion order of the `strikes` set that `findKinkPoints` fills in its `forEach`. */
  function KinkStrikes(ps: seq<Position>): (r: seq<real>)
    ensures forall i, j :: 0 <= i < j < |r| ==> r[i] != r[j]
    ensures forall x :: x in r <==> IsKinkStrike(ps, x)
    decreases |ps|
  {
    if ps == [] then []
    else
      var init := ps[..|ps| - 1];
      var last := ps[|ps| - 1];
      var r := KinkStrikes(init);
      assert forall i :: 0 <= i < |init| ==> init[i] == ps[i];
      if MakesKink(last.kind) && last.strike !in r then r + [last.strike] else r
  }

  /** Index of the first position that marks the kink at `x`. */
  function FirstKinkIndex(ps: seq<Position>, x: real): (i: nat)
    requires x in KinkStrikes(ps)
    ensures i < |ps| && MakesKink(ps[i].kind) && ps[i].strike == x
    ensures forall j :: 0 <= j < i ==> !(MakesKink(ps[j].kind) && ps[j].strike == x)
    decreases |ps|
  {
    var init := ps[..|ps| - 1];
    if x in KinkStrikes(init) then
      var i := FirstKinkIndex(init, x);
      assert forall j :: 0 <= j < i ==> init[j] == ps[j];
      i
    else
      assert !IsKinkStrike(init, x);
      assert forall j :: 0 <= j < |init| ==> init[j] == ps[j];
      |ps| - 1
  }

  /** Kink strikes appear in the order of their first occurrence in the position list. */
  lemma {:induction false} KinkStrikesInFirstOccurrenceOrder(ps: seq<Position>)
    ensures forall a, b :: 0 <= a < b < |KinkStrikes(ps)| ==>
      FirstKinkIndex(ps, KinkStrikes(ps)[a]) < FirstKinkIndex(ps, KinkStrikes(ps)[b])
    decreases |ps|
  {
    if ps != [] {
      var init := ps[..|ps| - 1];
      var r, r' := KinkStrikes(init), KinkStrikes(ps);
      KinkStrikesInFirstOccurrenceOrder(init);
      assert forall a :: 0 <= a < |r| ==> r'[a] == r[a] && FirstKinkIndex(ps, r[a]) == FirstKinkIndex(init, r[a]);
      forall a, b | 0 <= a < b < |r'|
        ensures FirstKinkIndex(ps, r'[a]) < FirstKinkIndex(ps, r'[b])
      {
        if b == |r| {
          assert FirstKinkIndex(ps, r'[b]) == |ps| - 1;
          assert FirstKinkIndex(init, r[a]) < |init|;
        }
      }
    }
  }

  /** The `forEach` of `findKinkPoints` that adds each kink strike to a `Set`, in insertion order. */
  method CollectKinkStrikes(ps: seq<Position>) returns (strikes: seq<real>)
    ensures strikes == KinkStrikes(ps)
  {
    strikes := [];
    var seen: set<real> := {};
    var i := 0;
    while i < |ps|
      invariant 0 <= i <= |ps|
      invariant strikes == KinkStrikes(ps[..i])
      invariant seen == set x | x in strikes
    {
      assert ps[..i + 1][..i] == ps[..i];
      var pos := ps[i];
      if MakesKink(pos.kind) && pos.strike !in seen {
        strikes := strikes + [pos.strike];
        seen := seen + {pos.strike};
      }
      i := i + 1;
    }
    assert ps[..|ps|] == ps;
  }

  /**
   `findKinkPoints`: one point per distinct kink strike inside `[range.min, range.max]`, in
   first-occurrence order, valued by the full total payoff.
   */
  method FindKinkPoints(ps: seq<Position>, range: PriceRange) returns (points: seq<PayoffPoint>)
    requires AllValued(ps)
    ensures forall k :: 0 <= k < |points| ==>
      range.min <= points[k].x <= range.max && points[k].y == TotalPayoff(ps, points[k].x)
    ensures forall x :: (exists k :: 0 <= k < |points| && points[k].x == x) <==>
      IsKinkStrike(ps, x) && range.min <= x <= range.max
    ensures forall a, b :: 0 <= a < b < |points| ==>
      points[a].x in KinkStrikes(ps) && points[b].x in KinkStrikes(ps) &&
      FirstKinkIndex(ps, points[a].x) < FirstKinkIndex(ps, points[b].x)
  {
    var strikes := CollectKinkStrikes(ps);
    KinkStrikesInFirstOccurrenceOrder(ps);

    // .filter(in range).map(strike => point)
    var xs := InRange(strikes, range);
    points := seq(|xs|, k requires 0 <= k < |xs| => PayoffPoint(xs[k], TotalPayoff(ps, xs[k])));
    InRangeKeepsKinkOrder(ps, strikes, range);
    InRangeMembers(strikes, range);
    assert forall k :: 0 <= k < |points| ==> points[k].x == xs[k] && xs[k] in xs;
    forall x | x in xs ensures exists k :: 0 <= k < |points| && points[k].x == x {
      var k :| 0 <= k < |xs| && xs[k] == x;
      assert points[k].x == x;
    }
  }

  /** The values of `xs` inside `[range.min, range.max]`, in their order in `xs`. */
  function InRange(xs: seq<real>, range: PriceRange): (r: seq<real>)
    ensures |r| <= |xs|
    decreases |xs|
  {
    if xs == [] then []
    else
      var init := xs[..|xs| - 1];
      var x := xs[|xs| - 1];
      if range.min <= x <= range.max then InRange(init, range) + [x] else InRange(init, range)
  }

  /** `InRange` keeps exactly the values of `xs` that lie in the range. */
  lemma {:induction false} InRangeMembers(xs: seq<real>, range: PriceRange)
    ensures forall x :: x in InRange(xs, range) <==> x in xs && range.min <= x <= range.max
    decreases |xs|
  {
    if xs != [] {
      var init := xs[..|xs| - 1];
      assert xs == init + [xs[|xs| - 1]];
      InRangeMembers(init, range);
    }
  }

  /** `xs` holds kink strikes of `ps`, strictly in order of their first occurrence. */
  predicate InKinkOrder(ps: seq<Position>, xs: seq<real>)
  {
    && (forall x :: x in xs ==> x in KinkStrikes(ps))
    && (forall a, b :: 0 <= a < b < |xs| ==> FirstKinkIndex(ps, xs[a]) < FirstKinkIndex(ps, xs[b]))
  }

  /** Filtering to a price range keeps values in increasing order of first occurrence. */
  lemma {:induction false} InRangeKeepsKinkOrder(ps: seq<Position>, xs: seq<real>, range: PriceRange)
    requires InKinkOrder(ps, xs)
    ensures InKinkOrder(ps, InRange(xs, range))
  {
    if xs != [] {
      var init := xs[..|xs| - 1];
      var x := xs[|xs| - 1];
      assert xs == init + [x];
      InRangeKeepsKinkOrder(ps, init, range);
      var r0 := InRange(init, range);
      if range.min <= x <= range.max {
        var r := r0 + [x];
        forall a, b | 0 <= a < b < |r|
          ensures FirstKinkIndex(ps, r[a]) < FirstKinkIndex(ps, r[b])
        {
          if b == |r0| {
            InRangeMembers(init, range);
            assert r[a] == r0[a] && r0[a] in r0;
            var i :| 0 <= i < |init| && init[i] == r[a];
            assert xs[i] == r[a];
          }
        }
      }
    }
  }

  // ---------------------------------------------------------------------------
  // Y-axis bounds
  // ---------------------------------------------------------------------------

  datatype YAxis = YAxis(min: real, max: real)

  /** The values the axis must show: every sample, every kink value, and zero for the break-even line. */
  function AllYValues(ys: seq<real>, kinkYs: seq<real>): seq<real>
  {
    ys + kinkYs + [0.0]
  }

  /** The curve counts as flat when all those values lie within 0.01 of each other. */
  predicate IsFlat(ys: seq<real>, kinkYs: seq<real>)
  {
    var all := AllYValues(ys, kinkYs);
    SeqMax(all) - SeqMin(all) < 0.01
  }

  /** The y-axis bounds `updateChart` computes from the sample values `ys` and the kink values. */
  function ChartYBounds(ys: seq<real>, kinkYs: seq<real>): (b: YAxis)
    requires |ys| > 0
    ensures b.min < b.max
    ensures b.min <= 0.0 <= b.max
    ensures forall y :: y in ys + kinkYs ==> b.min <= y <= b.max
    ensures IsFlat(ys, kinkYs) ==>
      && -0.01 < ys[0] < 0.01
      && b.min <= -5.0 && 5.0 <= b.max
      && b.min <= ys[0] - 5.0 && ys[0] + 5.0 <= b.max
    ensures !IsFlat(ys, kinkYs) ==> forall y :: y in ys + kinkYs ==> b.min < y < b.max
  {
    var all := AllYValues(ys, kinkYs);
    var yMin := SeqMin(all);
    var yMax := SeqMax(all);
    var yRange := yMax - yMin;
    assert 0.0 in all && ys[0] in all;
    assert forall y :: y in ys + kinkYs ==> y in all;
    if yRange < 0.01 then
      var flatValue := ys[0];
      var lo := flatValue - 5.0;
      var hi := flatValue + 5.0;
      YAxis(if lo > -5.0 then -5.0 else lo, if hi < 5.0 then 5.0 else hi)
    else
      var padding := yRange * 0.15;
      var lo := yMin - padding;
      var hi := yMax + padding;
      YAxis(if lo > 0.0 then -padding else lo, if hi < 0.0 then padding else hi)
  }

  /**
   In the flat case the value `f` lies within 0.01 of zero, and the axis runs from
   `min(f - 5, -5)` to `max(f + 5, 5)`: the side `f` lies on is shifted by `f`, the other
   stays at 5.
   */
  lemma FlatAxis(ys: seq<real>, kinkYs: seq<real>)
    requires |ys| > 0 && IsFlat(ys, kinkYs)
    ensures -0.01 < ys[0] < 0.01
    ensures ys[0] >= 0.0 ==> ChartYBounds(ys, kinkYs) == YAxis(-5.0, ys[0] + 5.0)
    ensures ys[0] < 0.0 ==> ChartYBounds(ys, kinkYs) == YAxis(ys[0] - 5.0, 5.0)
  {
    var all := AllYValues(ys, kinkYs);
    assert 0.0 in all && ys[0] in all;
  }

  /**
   Outside the flat case the axis is the value interval widened by 15% of its length on
   each side: because zero is among the values, the code's two zero-visibility guards
   never change anything.
   */
  lemma NonFlatAxisIsPaddedRange(ys: seq<real>, kinkYs: seq<real>)
    requires |ys| > 0 && !IsFlat(ys, kinkYs)
    ensures
      var all := AllYValues(ys, kinkYs);
      var yRange := SeqMax(all) - SeqMin(all);
      ChartYBounds(ys, kinkYs) == YAxis(SeqMin(all) - 0.15 * yRange, SeqMax(all) + 0.15 * yRange)
  {
    assert 0.0 in AllYValues(ys, kinkYs);
  }

  /**
   The y-axis of `updateChart` for a non-empty list: the bounds of the 100-point full-payoff
   curve over the default range together with the kink values. An empty list leaves the
   axis unset (None).
   */
  method ChartScale(ps: seq<Position>) returns (axis: Option<YAxis>)
    requires AllValued(ps)
    ensures ps == [] <==> axis.None?
    ensures axis.Some? ==>
      var range := DefaultPriceRange(ps);
      && axis.value.min < axis.value.max
      && axis.value.min <= 0.0 <= axis.value.max
      && axis.value.min <= TotalPayoff(ps, range.min) <= axis.value.max
      && axis.value.min <= TotalPayoff(ps, range.max) <= axis.value.max
      && forall i :: 0 <= i < |ps| && MakesKink(ps[i].kind) && range.min <= ps[i].strike <= range.max ==>
           axis.value.min <= TotalPayoff(ps, ps[i].strike) <= axis.value.max
  {
    if |ps| == 0 {
      return None;
    }
    var range := DefaultPriceRange(ps);
    var payoffData := GeneratePayoffData(ps, range.min, range.max, 100, false);
    var kinkPoints := FindKinkPoints(ps, range);
    var ys := seq(|payoffData|, k requires 0 <= k < |payoffData| => payoffData[k].y);
    var kinkYs := seq(|kinkPoints|, k requires 0 <= k < |kinkPoints| => kinkPoints[k].y);
    var b := ChartYBounds(ys, kinkYs);
    assert ys[0] in ys + kinkYs && ys[99] in ys + kinkYs;
    forall i | 0 <= i < |ps| && MakesKink(ps[i].kind) && range.min <= ps[i].strike <= range.max
      ensures b.min <= TotalPayoff(ps, ps[i].strike) <= b.max
    {
      assert IsKinkStrike(ps, ps[i].strike);
      var k :| 0 <= k < |kinkPoints| && kinkPoints[k].x == ps[i].strike;
      assert kinkYs[k] in ys + kinkYs;
    }
    axis := Some(b);
  }

  // ---------------------------------------------------------------------------
  // P&L table
  // ---------------------------------------------------------------------------

  /**
   `rows` is the P&L grid over `[lo, hi]`: eleven prices from `lo` to `hi` in steps of a
   tenth of the interval, each with the full total payoff at that price.
   */
  predicate IsPriceGrid(rows: seq<PayoffPoint>, ps: seq<Position>, lo: real, hi: real)
    requires AllValued(ps)
  {
    && |rows| == 11
    && rows[0].x == lo && rows[10].x == hi
    && (forall i :: 0 <= i < 11 ==> rows[i].x == lo + i as real * ((hi - lo) / 10.0))
    && (forall i :: 0 <= i < 11 ==> rows[i].y == TotalPayoff(ps, rows[i].x))
    && (hi > lo ==> forall i, j :: 0 <= i < j < 11 ==> rows[i].x < rows[j].x)
  }

  /**
   The rows of `updatePnLTable`: the price grid over the default range, whose prices then
   strictly increase; no rows for an empty list.
   */
  method PnLTable(ps: seq<Position>) returns (rows: seq<PayoffPoint>)
    requires AllValued(ps)
    ensures ps == [] ==> rows == []
    ensures ps != [] ==> IsPriceGrid(rows, ps, DefaultPriceRange(ps).min, DefaultPriceRange(ps).max)
    ensures ps != [] ==> forall i, j :: 0 <= i < j < |rows| ==> rows[i].x < rows[j].x
  {
    if |ps| == 0 {
      return [];
    }
    var range := DefaultPriceRange(ps);
    rows := PriceGrid(ps, range.min, range.max);
  }

  /** The row for the `k`-th price of a grid starting at `lo` with spacing `step`. */
  function GridPoint(ps: seq<Position>, lo: real, step: real, k: nat): PayoffPoint
    requires AllValued(ps)
  {
    var price := lo + k as real * step;
    PayoffPoint(price, TotalPayoff(ps, price))
  }

  /** The loop of `updatePnLTable` over a given price interval `[lo, hi]`. */
  method PriceGrid(ps: seq<Position>, lo: real, hi: real) returns (rows: seq<PayoffPoint>)
    requires AllValued(ps)
    ensures IsPriceGrid(rows, ps, lo, hi)
  {
    rows := [];
    var step := (hi - lo) / 10.0;
    var i := 0;
    while i <= 10
      invariant 0 <= i <= 11
      invariant |rows| == i
      invariant forall k :: 0 <= k < i ==> rows[k] == GridPoint(ps, lo, step, k)
    {
      rows := rows + [GridPoint(ps, lo, step, i)];
      i := i + 1;
    }
    GridRowsArePriceGrid(rows, ps, lo, hi);
  }

  /** Eleven grid rows with a step of a tenth of `[lo, hi]` form the P&L price grid. */
  lemma GridRowsArePriceGrid(rows: seq<PayoffPoint>, ps: seq<Position>, lo: real, hi: real)
    requires AllValued(ps)
    requires |rows| == 11
    requires forall k :: 0 <= k < 11 ==> rows[k] == GridPoint(ps, lo, (hi - lo) / 10.0, k)
    ensures IsPriceGrid(rows, ps, lo, hi)
  {
    var step := (hi - lo) / 10.0;
    GridSpacing(lo, hi, 11);
    assert rows[10].x == lo + 10.0 * step;
    if hi > lo {
      GridPointsIncrease(rows, lo, step);
    }
  }
}
