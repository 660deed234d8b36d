/** The preset strategy templates (strategies.js): constant data read by the loader of the position store. */
module Strategies {
  import opened Wrappers
  import opened Payoff

  /**
   One partial position record of a template. `principal` and `quantity` override the
   loader's defaults when present; no template in the table sets them.
   */
  datatype Leg = Leg(kind: Kind, strike: real, cost: real, principal: Option<real>, quantity: Option<real>)

  datatype Strategy = Strategy(name: string, description: string, legs: seq<Leg>)

  /** A leg that gives only type, strike and cost, as every template entry does. */
  function Plain(kind: Kind, strike: real, cost: real): Leg
  {
    Leg(kind, strike, cost, None, None)
  }

  const Straddle := Strategy("Long Straddle", "Buy call and put at same strike",
    [Plain(LongCall, 100.0, 5.0), Plain(LongPut, 100.0, 5.0)])

  const Strangle := Strategy("Long Strangle", "Buy OTM call and OTM put",
    [Plain(LongCall, 110.0, 3.0), Plain(LongPut, 90.0, 3.0)])

  const Butterfly := Strategy("Butterfly Spread", "Limited risk/reward symmetric strategy",
    [Plain(LongCall, 90.0, 12.0), Plain(ShortCall, 100.0, 6.0), Plain(ShortCall, 100.0, 6.0), Plain(LongCall, 110.0, 3.0)])

  const Collar := Strategy("Collar", "Long stock, long put, short call",
    [Plain(LongUnderlying, 100.0, 100.0), Plain(LongPut, 95.0, 2.0), Plain(ShortCall, 105.0, 2.0)])

  const CoveredCall := Strategy("Covered Call", "Long stock + short call",
    [Plain(LongUnderlying, 100.0, 100.0), Plain(ShortCall, 110.0, 5.0)])

  const ProtectivePut := Strategy("Protective Put", "Long stock + long put",
    [Plain(LongUnderlying, 100.0, 100.0), Plain(LongPut, 95.0, 4.0)])

  const BullSpread := Strategy("Bull Call Spread", "Buy low strike call, sell high strike call",
    [Plain(LongCall, 95.0, 8.0), Plain(ShortCall, 105.0, 3.0)])

  const BearSpread := Strategy("Bear Put Spread", "Buy high strike put, sell low strike put",
    [Plain(LongPut, 105.0, 8.0), Plain(ShortPut, 95.0, 3.0)])

  /** `Strategies`, keyed as the strategy buttons name them. */
  const Table: map<string, Strategy> := map[
    "straddle" := Straddle,
    "strangle" := Strangle,
    "butterfly" := Butterfly,
    "collar" := Collar,
    "covered_call" := CoveredCall,
    "protective_put" := ProtectivePut,
    "bull_spread" := BullSpread,
    "bear_spread" := BearSpread]

  /** `Strategies[key]`, with an unknown key giving None. */
  function Lookup(key: string): (s: Option<Strategy>)
    ensures s.Some? <==> key in {"straddle", "strangle", "butterfly", "collar",
                                 "covered_call", "protective_put", "bull_spread", "bear_spread"}
    ensures key == "straddle" ==> s == Some(Straddle)
    ensures key == "strangle" ==> s == Some(Strangle)
    ensures key == "butterfly" ==> s == Some(Butterfly)
    ensures key == "collar" ==> s == Some(Collar)
    ensures key == "covered_call" ==> s == Some(CoveredCall)
    ensures key == "protective_put" ==> s == Some(ProtectivePut)
    ensures key == "bull_spread" ==> s == Some(BullSpread)
    ensures key == "bear_spread" ==> s == Some(BearSpread)
  {
    if key in Table then Some(Table[key]) else None
  }
}
