/**
 Black-Scholes premium used to auto-price options (payoff.js). Only the dispatch and the
 boundary branches are exact arithmetic; the exponential and the closed form built on the
 normal distribution are supplied by the caller as an `Analytic`.
 */
module Pricing {
  import opened Payoff

  datatype Right = Call | Put

  /**
   The transcendental part of the pricer: `exp` stands for `Math.exp`, and `closedForm`
   for the standard Black-Scholes formula evaluated with the normal-distribution
   approximation, taking the right and (S, K, T, r, sigma).
   */
  datatype Analytic = Analytic(exp: real -> real, closedForm: (Right, real, real, real, real, real) -> real)

  /** `bsCallPrice`: intrinsic value at or past maturity, discounted intrinsic value without volatility. */
  function BsCallPrice(S: real, K: real, T: real, r: real, sigma: real, an: Analytic): (price: real)
    ensures T <= 0.0 || sigma <= 0.0 ==> price >= 0.0 && price >= S - K * (if T <= 0.0 then 1.0 else an.exp(-r * T))
  {
    if T <= 0.0 then Max(S - K, 0.0)
    else if sigma <= 0.0 then Max(S - K * an.exp(-r * T), 0.0)
    else an.closedForm(Call, S, K, T, r, sigma)
  }

  /** `bsPutPrice`: the put counterpart of BsCallPrice. */
  function BsPutPrice(S: real, K: real, T: real, r: real, sigma: real, an: Analytic): (price: real)
    ensures T <= 0.0 || sigma <= 0.0 ==> price >= 0.0 && price >= K * (if T <= 0.0 then 1.0 else an.exp(-r * T)) - S
  {
    if T <= 0.0 then Max(K - S, 0.0)
    else if sigma <= 0.0 then Max(K * an.exp(-r * T) - S, 0.0)
    else an.closedForm(Put, S, K, T, r, sigma)
  }

  /** `getBSPrice`: routes calls and puts (long or short) to their pricer with the current settings; 0 for every other kind. */
  function GetBSPrice(kind: Kind, strike: real, settings: Settings, an: Analytic): (price: real)
    ensures !kind.IsOption() ==> price == 0.0
  {
    var S, K, T, r, sigma :=
      settings.spotPrice, strike, settings.timeToMaturity, settings.riskFreeRate, settings.volatility;
    if kind == LongCall || kind == ShortCall then BsCallPrice(S, K, T, r, sigma, an)
    else if kind == LongPut || kind == ShortPut then BsPutPrice(S, K, T, r, sigma, an)
    else 0.0
  }

  /** The premium does not depend on the side of the trade. */
  lemma PriceIgnoresSide(strike: real, settings: Settings, an: Analytic)
    ensures GetBSPrice(LongCall, strike, settings, an) == GetBSPrice(ShortCall, strike, settings, an)
    ensures GetBSPrice(LongPut, strike, settings, an) == GetBSPrice(ShortPut, strike, settings, an)
    ensures GetBSPrice(LongCall, strike, settings, an)
         == BsCallPrice(settings.spotPrice, strike, settings.timeToMaturity, settings.riskFreeRate, settings.volatility, an)
    ensures GetBSPrice(LongPut, strike, settings, an)
         == BsPutPrice(settings.spotPrice, strike, settings.timeToMaturity, settings.riskFreeRate, settings.volatility, an)
  {
  }

  /** At or past maturity an option is worth exactly its intrinsic value, which is never negative. */
  lemma ExpiredPriceIsIntrinsic(kind: Kind, strike: real, settings: Settings, an: Analytic)
    requires settings.timeToMaturity <= 0.0
    ensures kind == LongCall || kind == ShortCall ==>
      GetBSPrice(kind, strike, settings, an) == Max(settings.spotPrice - strike, 0.0)
    ensures kind == LongPut || kind == ShortPut ==>
      GetBSPrice(kind, strike, settings, an) == Max(strike - settings.spotPrice, 0.0)
    ensures GetBSPrice(kind, strike, settings, an) >= 0.0
  {
  }

  /**
   Without volatility (and before maturity) an option is worth its intrinsic value against
   the discounted strike `K·exp(-rT)`.
   */
  lemma ZeroVolatilityPriceIsDiscountedIntrinsic(S: real, K: real, T: real, r: real, sigma: real, an: Analytic)
    requires T > 0.0 && sigma <= 0.0
    ensures BsCallPrice(S, K, T, r, sigma, an) == Max(S - K * an.exp(-r * T), 0.0)
    ensures BsPutPrice(S, K, T, r, sigma, an) == Max(K * an.exp(-r * T) - S, 0.0)
  {
  }

  /**
   Put-call parity holds exactly on both boundary branches: at maturity the difference
   is S - K, without volatility it is S minus the discounted strike.
   */
  lemma BoundaryPutCallParity(S: real, K: real, T: real, r: real, sigma: real, an: Analytic)
    ensures T <= 0.0 ==> BsCallPrice(S, K, T, r, sigma, an) - BsPutPrice(S, K, T, r, sigma, an) == S - K
    ensures T > 0.0 && sigma <= 0.0 ==>
      BsCallPrice(S, K, T, r, sigma, an) - BsPutPrice(S, K, T, r, sigma, an) == S - K * an.exp(-r * T)
    ensures T <= 0.0 || sigma <= 0.0 ==>
      BsCallPrice(S, K, T, r, sigma, an) >= 0.0 && BsPutPrice(S, K, T, r, sigma, an) >= 0.0
  {
  }
}
