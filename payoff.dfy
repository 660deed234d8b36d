/**
 Valuation engine of the payoff builder (payoff.js): the two per-instrument payoff tables,
 their aggregation over a list of positions, the sampling of the aggregate over a price
 interval, and the default price interval inferred from the positions' strikes.
 All prices and payoffs are exact reals.
 */
module Payoff {
  import opened Wrappers

  /** The ten building blocks, keyed in the source by their `type` string. */
  datatype Kind =
    | LongRiskFree | ShortRiskFree
    | LongUnderlying | ShortUnderlying
    | LongForward | ShortForward
    | LongCall | ShortCall
    | LongPut | ShortPut
  {
    predicate IsRiskFree() { LongRiskFree? || ShortRiskFree? }
    predicate IsLinear() { LongUnderlying? || ShortUnderlying? || LongForward? || ShortForward? }
    predicate IsOption() { LongCall? || ShortCall? || LongPut? || ShortPut? }
    predicate IsLong() { LongRiskFree? || LongUnderlying? || LongForward? || LongCall? || LongPut? }
  }

  /** The same instrument on the other side of the trade. */
  function Opposite(k: Kind): (o: Kind)
    ensures o.IsLong() != k.IsLong()
    ensures o.IsRiskFree() == k.IsRiskFree() && o.IsLinear() == k.IsLinear() && o.IsOption() == k.IsOption()
  {
    match k
    case LongRiskFree => ShortRiskFree
    case ShortRiskFree => LongRiskFree
    case LongUnderlying => ShortUnderlying
    case ShortUnderlying => LongUnderlying
    case LongForward => ShortForward
    case ShortForward => LongForward
    case LongCall => ShortCall
    case ShortCall => LongCall
    case LongPut => ShortPut
    case ShortPut => LongPut
  }

  /**
   One portfolio entry. `desiredPayoff` is the field the risk-free rows of the payoff table
   read; the position store never sets it, hence the `Option`.
   */
  datatype Position = Position(
    id: int,
    kind: Kind,
    strike: real,
    cost: real,
    principal: real,
    quantity: real,
    desiredPayoff: Option<real>)

  /** The valuation context. */
  datatype Settings = Settings(spotPrice: real, riskFreeRate: real, timeToMaturity: real, volatility: real)

  datatype PayoffPoint = PayoffPoint(x: real, y: real)

  datatype PriceRange = PriceRange(min: real, max: real)

  function Max(a: real, b: real): (m: real)
    ensures m >= a && m >= b && (m == a || m == b)
  {
    if a >= b then a else b
  }

  /** Smallest element of a non-empty sequence (`Math.min(...s)`). */
  function SeqMin(s: seq<real>): (m: real)
    requires |s| > 0
    ensures m in s
    ensures forall x :: x in s ==> m <= x
  {
    if |s| == 1 then s[0]
    else
      var rest := SeqMin(s[1..]);
      assert forall x :: x in s ==> x == s[0] || x in s[1..];
      if s[0] <= rest then s[0] else rest
  }

  /** Largest element of a non-empty sequence (`Math.max(...s)`). */
  function SeqMax(s: seq<real>): (m: real)
    requires |s| > 0
    ensures m in s
    ensures forall x :: x in s ==> x <= m
  {
    if |s| == 1 then s[0]
    else
      var rest := SeqMax(s[1..]);
      assert forall x :: x in s ==> x == s[0] || x in s[1..];
      if s[0] >= rest then s[0] else rest
  }

  // ---------------------------------------------------------------------------
  // The two payoff tables
  // ---------------------------------------------------------------------------

  /** A position the tables can value: a risk-free block must carry `desiredPayoff`. */
  predicate Valued(p: Position)
  {
    p.kind.IsRiskFree() ==> p.desiredPayoff.Some?
  }

  predicate AllValued(ps: seq<Position>)
  {
    forall i :: 0 <= i < |ps| ==> Valued(ps[i])
  }

  /** `PayoffCalculator`: per-unit payoff at underlying price `S`, premium included. */
  function FullPayoff(p: Position, S: real): real
    requires Valued(p)
  {
    match p.kind
    case LongRiskFree => p.desiredPayoff.value
    case ShortRiskFree => -p.desiredPayoff.value
    case LongUnderlying => S - p.strike
    case ShortUnderlying => p.strike - S
    case LongForward => S - p.strike
    case ShortForward => p.strike - S
    case LongCall => Max(S - p.strike, 0.0) - p.cost
    case ShortCall => p.cost - Max(S - p.strike, 0.0)
    case LongPut => Max(p.strike - S, 0.0) - p.cost
    case ShortPut => p.cost - Max(p.strike - S, 0.0)
  }

  /** `PayoffOnlyCalculator`: the same table with option premiums left out. */
  function PayoffOnly(p: Position, S: real): real
    requires Valued(p)
  {
    match p.kind
    case LongCall => Max(S - p.strike, 0.0)
    case ShortCall => -Max(S - p.strike, 0.0)
    case LongPut => Max(p.strike - S, 0.0)
    case ShortPut => -Max(p.strike - S, 0.0)
    case _ => FullPayoff(p, S)
  }

  /** Premium cash flow of a position: paid for a long option, received for a short one. */
  function NetPremium(p: Position): real
  {
    if !p.kind.IsOption() then 0.0
    else if p.kind.IsLong() then -p.cost
    else p.cost
  }

  /** Each short kind pays exactly the negation of its long counterpart with the same fields. */
  lemma ShortNegatesLong(p: Position, S: real)
    requires Valued(p)
    ensures Valued(p.(kind := Opposite(p.kind)))
    ensures FullPayoff(p.(kind := Opposite(p.kind)), S) == -FullPayoff(p, S)
    ensures PayoffOnly(p.(kind := Opposite(p.kind)), S) == -PayoffOnly(p, S)
  {
  }

  /** The two tables differ by the premium on options and agree on every other kind. */
  lemma FullIsPayoffOnlyPlusPremium(p: Position, S: real)
    requires Valued(p)
    ensures FullPayoff(p, S) == PayoffOnly(p, S) + NetPremium(p)
    ensures !p.kind.IsOption() ==> FullPayoff(p, S) == PayoffOnly(p, S)
    ensures p.kind.IsOption() && p.kind.IsLong() ==> FullPayoff(p, S) == PayoffOnly(p, S) - p.cost
    ensures p.kind.IsOption() && !p.kind.IsLong() ==> FullPayoff(p, S) == PayoffOnly(p, S) + p.cost
  {
  }

  /** A bought option loses at most its premium; a written one gains at most its premium. */
  lemma OptionPayoffBounds(p: Position, S: real)
    requires p.kind.IsOption()
    ensures p.kind.IsLong() ==> FullPayoff(p, S) >= -p.cost
    ensures !p.kind.IsLong() ==> FullPayoff(p, S) <= p.cost
  {
  }

  /** A long call gains as the underlying rises, a long put as it falls. */
  lemma OptionPayoffMonotone(p: Position, S1: real, S2: real)
    requires S1 <= S2
    ensures p.kind == LongCall ==> FullPayoff(p, S1) <= FullPayoff(p, S2)
    ensures p.kind == LongPut ==> FullPayoff(p, S1) >= FullPayoff(p, S2)
  {
  }

  // ---------------------------------------------------------------------------
  // Aggregation
  // ---------------------------------------------------------------------------

  /** `position.quantity || 1`: a zero quantity counts as one unit. */
  function EffectiveQuantity(p: Position): (q: real)
    ensures q != 0.0
    ensures p.quantity != 0.0 ==> q == p.quantity
    ensures p.quantity == 0.0 ==> q == 1.0
  {
    if p.quantity == 0.0 then 1.0 else p.quantity
  }

  /** One position's contribution to the full total: its payoff times its quantity. */
  function PositionPayoff(p: Position, S: real): real
    requires Valued(p)
  {
    FullPayoff(p, S) * EffectiveQuantity(p)
  }

  /** One position's contribution to the premium-free total. */
  function PositionPayoffOnly(p: Position, S: real): real
    requires Valued(p)
  {
    PayoffOnly(p, S) * EffectiveQuantity(p)
  }

  /** One position's premium cash flow, times its quantity. */
  function PositionPremium(p: Position): real
  {
    NetPremium(p) * EffectiveQuantity(p)
  }

  /** `calculateTotalPayoff`: the left fold of payoff times quantity, starting from 0. */
  function TotalPayoff(ps: seq<Position>, S: real): real
    requires AllValued(ps)
    decreases |ps|
  {
    if ps == [] then 0.0
    else
      var last := ps[|ps| - 1];
      TotalPayoff(ps[..|ps| - 1], S) + PositionPayoff(last, S)
  }

  /** `calculateTotalPayoffOnly`: the same fold over the premium-free table. */
  function TotalPayoffOnly(ps: seq<Position>, S: real): real
    requires AllValued(ps)
    decreases |ps|
  {
    if ps == [] then 0.0
    else
      var last := ps[|ps| - 1];
      TotalPayoffOnly(ps[..|ps| - 1], S) + PositionPayoffOnly(last, S)
  }

  /** Total premium cash flow of a list of positions. */
  function TotalPremium(ps: seq<Position>): real
    decreases |ps|
  {
    if ps == [] then 0.0
    else
      var last := ps[|ps| - 1];
      TotalPremium(ps[..|ps| - 1]) + PositionPremium(last)
  }

  /** The total of the variant the caller selects (`payoffOnly ? … : …`). */
  function SelectedTotal(payoffOnly: bool, ps: seq<Position>, S: real): real
    requires AllValued(ps)
  {
    if payoffOnly then TotalPayoffOnly(ps, S) else TotalPayoff(ps, S)
  }

  /** Folding one more position onto a list adds its weighted payoff. */
  lemma TotalSnoc(ps: seq<Position>, p: Position, S: real)
    requires AllValued(ps) && Valued(p)
    ensures AllValued(ps + [p])
    ensures TotalPayoff([], S) == 0.0 && TotalPayoffOnly([], S) == 0.0
    ensures TotalPayoff(ps + [p], S) == TotalPayoff(ps, S) + PositionPayoff(p, S)
    ensures TotalPayoffOnly(ps + [p], S) == TotalPayoffOnly(ps, S) + PositionPayoffOnly(p, S)
  {
    assert (ps + [p])[..|ps|] == ps;
  }

  /** The total of a concatenation is the sum of the totals: the fold does not depend on grouping. */
  lemma {:induction false} TotalAppend(a: seq<Position>, b: seq<Position>, S: real)
    requires AllValued(a) && AllValued(b)
    ensures AllValued(a + b)
    ensures TotalPayoff(a + b, S) == TotalPayoff(a, S) + TotalPayoff(b, S)
    ensures TotalPayoffOnly(a + b, S) == TotalPayoffOnly(a, S) + TotalPayoffOnly(b, S)
    decreases |b|
  {
    if b == [] {
      assert a + b == a;
    } else {
      var init, last := b[..|b| - 1], b[|b| - 1];
      assert AllValued(init) && Valued(last);
      assert init + [last] == b;
      assert (a + init) + [last] == a + b;
      TotalAppend(a, init, S);
      TotalSnoc(a + init, last, S);
      TotalSnoc(init, last, S);
    }
  }

  /** The full total is the premium-free total plus the net premium of the whole list. */
  lemma {:induction false} TotalIsPayoffOnlyPlusPremium(ps: seq<Position>, S: real)
    requires AllValued(ps)
    ensures TotalPayoff(ps, S) == TotalPayoffOnly(ps, S) + TotalPremium(ps)
    decreases |ps|
  {
    if ps != [] {
      var init, last := ps[..|ps| - 1], ps[|ps| - 1];
      assert AllValued(init);
      TotalIsPayoffOnlyPlusPremium(init, S);
      WeightedSplit(last, S);
    }
  }

  /** FullIsPayoffOnlyPlusPremium, scaled by the position's quantity. */
  lemma WeightedSplit(p: Position, S: real)
    requires Valued(p)
    ensures PositionPayoff(p, S) == PositionPayoffOnly(p, S) + PositionPremium(p)
  {
    FullIsPayoffOnlyPlusPremium(p, S);
    ScaleSum(FullPayoff(p, S), PayoffOnly(p, S), NetPremium(p), EffectiveQuantity(p));
  }

  lemma ScaleSum(a: real, b: real, c: real, q: real)
    requires a == b + c
    ensures a * q == b * q + c * q
  {
  }

  // ---------------------------------------------------------------------------
  // Sampling
  // ---------------------------------------------------------------------------

  /**
   `generatePayoffData`: `numPoints` equally spaced prices from `minPrice` to `maxPrice`,
   each paired with the selected total at that price.
   */
  method GeneratePayoffData(ps: seq<Position>, minPrice: real, maxPrice: real, numPoints: int, payoffOnly: bool)
    returns (data: seq<PayoffPoint>)
    requires AllValued(ps)
    requires numPoints >= 2
    ensures |data| == numPoints
    ensures data[0].x == minPrice && data[numPoints - 1].x == maxPrice
    ensures forall i :: 0 <= i < numPoints ==>
      data[i].x == minPrice + i as real * ((maxPrice - minPrice) / (numPoints - 1) as real)
    ensures forall i :: 0 <= i < numPoints ==> data[i].y == SelectedTotal(payoffOnly, ps, data[i].x)
    ensures maxPrice > minPrice ==> forall i, j :: 0 <= i < j < numPoints ==> data[i].x < data[j].x
  {
    data := [];
    var step := (maxPrice - minPrice) / (numPoints - 1) as real;
    GridSpacing(minPrice, maxPrice, numPoints);
    var i := 0;
    while i < numPoints
      invariant 0 <= i <= numPoints
      invariant |data| == i
      invariant forall k :: 0 <= k < i ==> data[k].x == minPrice + k as real * step
      invariant forall k :: 0 <= k < i ==> data[k].y == SelectedTotal(payoffOnly, ps, data[k].x)
    {
      var price := minPrice + i as real * step;
      var payoff := SelectedTotal(payoffOnly, ps, price);
      data := data + [PayoffPoint(price, payoff)];
      i := i + 1;
    }
    if maxPrice > minPrice {
      GridPointsIncrease(data, minPrice, step);
    }
  }

  /** The grid step is positive exactly when the interval is, and `n - 1` steps span it. */
  lemma GridSpacing(lo: real, hi: real, n: int)
    requires n >= 2
    ensures (hi - lo) / (n - 1) as real > 0.0 <==> hi > lo
    ensures lo + (n - 1) as real * ((hi - lo) / (n - 1) as real) == hi
  {
  }

  /** Points placed at `lo + k * step` for a positive step have strictly increasing x. */
  lemma GridPointsIncrease(points: seq<PayoffPoint>, lo: real, step: real)
    requires step > 0.0
    requires forall k :: 0 <= k < |points| ==> points[k].x == lo + k as real * step
    ensures forall a, b :: 0 <= a < b < |points| ==> points[a].x < points[b].x
  {
    forall a, b | 0 <= a < b < |points| ensures points[a].x < points[b].x {
      GridIncreasing(lo, step, a, b);
    }
  }

  lemma GridIncreasing(lo: real, step: real, a: int, b: int)
    requires step > 0.0 && a < b
    ensures lo + a as real * step < lo + b as real * step
  {
    assert b as real * step - a as real * step == (b - a) as real * step;
  }

  // ---------------------------------------------------------------------------
  // Default price range
  // ---------------------------------------------------------------------------

  /** The strikes that pass the `strike > 0` filter, in list order. */
  function PositiveStrikes(ps: seq<Position>): (ks: seq<real>)
    ensures forall k :: k in ks ==> k > 0.0
    ensures forall k :: k in ks <==> exists i :: 0 <= i < |ps| && ps[i].strike > 0.0 && ps[i].strike == k
  {
    if ps == [] then []
    else
      var rest := PositiveStrikes(ps[1..]);
      assert forall i :: 0 < i < |ps| ==> ps[i] == ps[1..][i - 1];
      (if ps[0].strike > 0.0 then [ps[0].strike] else []) + rest
  }

  /** `determineDefaultPriceRange`. */
  function DefaultPriceRange(ps: seq<Position>): (r: PriceRange)
    ensures 0.0 <= r.min < r.max
    ensures PositiveStrikes(ps) == [] ==> r == PriceRange(0.0, 200.0)
    ensures forall i :: 0 <= i < |ps| && ps[i].strike > 0.0 ==> r.min < ps[i].strike < r.max
  {
    if |ps| == 0 then PriceRange(0.0, 200.0)
    else
      var strikes := PositiveStrikes(ps);
      assert forall i :: 0 <= i < |ps| && ps[i].strike > 0.0 ==> ps[i].strike in strikes;
      if |strikes| == 0 then PriceRange(0.0, 200.0)
      else
        var minStrike := SeqMin(strikes);
        var maxStrike := SeqMax(strikes);
        var range := maxStrike - minStrike;
        var padding := if range > 0.0 then range * 0.5 else 50.0;
        PriceRange(Max(0.0, minStrike - padding), maxStrike + padding)
  }

  /** PositiveStrikes distributes over concatenation. */
  lemma {:induction false} PositiveStrikesAppend(a: seq<Position>, b: seq<Position>)
    ensures PositiveStrikes(a + b) == PositiveStrikes(a) + PositiveStrikes(b)
    decreases |a|
  {
    if a == [] {
      assert a + b == b;
    } else {
      assert (a + b)[1..] == a[1..] + b;
      PositiveStrikesAppend(a[1..], b);
    }
  }

  /** When every positive strike is the same `K`, the range is `K` padded by 50 on each side. */
  lemma DefaultRangeSingleStrike(ps: seq<Position>, K: real)
    requires K > 0.0
    requires exists i :: 0 <= i < |ps| && ps[i].strike == K
    requires forall i :: 0 <= i < |ps| && ps[i].strike > 0.0 ==> ps[i].strike == K
    ensures DefaultPriceRange(ps) == PriceRange(Max(0.0, K - 50.0), K + 50.0)
  {
    var strikes := PositiveStrikes(ps);
    assert K in strikes;
    assert SeqMin(strikes) == K && SeqMax(strikes) == K;
  }

  /**
   With distinct positive strikes ranging from `lo` to `hi`, the range is that interval
   padded by half its length on each side, clipped at zero below.
   */
  lemma DefaultRangeSpread(ps: seq<Position>, lo: real, hi: real)
    requires 0.0 < lo < hi
    requires exists i :: 0 <= i < |ps| && ps[i].strike == lo
    requires exists i :: 0 <= i < |ps| && ps[i].strike == hi
    requires forall i :: 0 <= i < |ps| && ps[i].strike > 0.0 ==> lo <= ps[i].strike <= hi
    ensures DefaultPriceRange(ps) == PriceRange(Max(0.0, lo - (hi - lo) * 0.5), hi + (hi - lo) * 0.5)
  {
    var strikes := PositiveStrikes(ps);
    assert lo in strikes && hi in strikes;
    assert SeqMin(strikes) == lo && SeqMax(strikes) == hi;
  }

  /** Strikes 90 and 110 (spread 20) give the range 80 to 120. */
  lemma DefaultRangeSpreadExample(ps: seq<Position>)
    requires |ps| == 2 && ps[0].strike == 90.0 && ps[1].strike == 110.0
    ensures DefaultPriceRange(ps) == PriceRange(80.0, 120.0)
  {
    DefaultRangeSpread(ps, 90.0, 110.0);
  }

  /** The range depends only on the set of positive strikes, not on their order, multiplicity or the other positions. */
  lemma DefaultRangeDependsOnPositiveStrikes(ps: seq<Position>, qs: seq<Position>)
    requires (set k | k in PositiveStrikes(ps)) == (set k | k in PositiveStrikes(qs))
    ensures DefaultPriceRange(ps) == DefaultPriceRange(qs)
  {
    var a, b := PositiveStrikes(ps), PositiveStrikes(qs);
    var A, B := set k | k in a, set k | k in b;
    forall x ensures x in a <==> x in b {
      assert x in a <==> x in A;
      assert x in b <==> x in B;
    }
    if a != [] {
      assert a[0] in b;
      SameElementsSameBounds(a, b);
    }
  }

  /** Sequences with the same elements have the same minimum and maximum. */
  lemma SameElementsSameBounds(a: seq<real>, b: seq<real>)
    requires |a| > 0 && |b| > 0
    requires forall x :: x in a <==> x in b
    ensures SeqMin(a) == SeqMin(b) && SeqMax(a) == SeqMax(b)
  {
    assert SeqMin(a) in b && SeqMin(b) in a;
    assert SeqMax(a) in b && SeqMax(b) in a;
  }

  /** Inserting a position whose strike is not positive leaves the range unchanged. */
  lemma DefaultRangeIgnoresNonPositiveStrikes(a: seq<Position>, p: Position, b: seq<Position>)
    requires p.strike <= 0.0
    ensures DefaultPriceRange(a + [p] + b) == DefaultPriceRange(a + b)
  {
    PositiveStrikesAppend(a + [p], b);
    PositiveStrikesAppend(a, [p]);
    PositiveStrikesAppend(a, b);
    assert PositiveStrikes([p]) == [];
    assert PositiveStrikes(a + [p] + b) == PositiveStrikes(a + b);
    DefaultRangeDependsOnPositiveStrikes(a + [p] + b, a + b);
  }
}
