/**
 What each template's name and description claim, checked against the payoff model:
 the legs the description names, the strike ordering it implies, and the bounds of the
 full total payoff of the positions `loadStrategy` creates from it (auto-pricing off, so
 the template's premiums stand).
 */
module StrategyClaims {
  import opened Payoff
  import opened Strategies
  import opened App

  lemma Total2(ps: seq<Position>, S: real)
    requires |ps| == 2 && AllValued(ps)
    ensures TotalPayoff(ps, S) == PositionPayoff(ps[0], S) + PositionPayoff(ps[1], S)
  {
    var first := ps[..1];
    assert first[..0] == [];
    assert TotalPayoff(first, S) == PositionPayoff(ps[0], S);
  }

  lemma Total3(ps: seq<Position>, S: real)
    requires |ps| == 3 && AllValued(ps)
    ensures TotalPayoff(ps, S) == PositionPayoff(ps[0], S) + PositionPayoff(ps[1], S) + PositionPayoff(ps[2], S)
  {
    Total2(ps[..2], S);
  }

  lemma Total4(ps: seq<Position>, S: real)
    requires |ps| == 4 && AllValued(ps)
    ensures TotalPayoff(ps, S) == PositionPayoff(ps[0], S) + PositionPayoff(ps[1], S) + PositionPayoff(ps[2], S) + PositionPayoff(ps[3], S)
  {
    Total3(ps[..3], S);
  }

  /** Long straddle: a call and a put bought at the same strike; the worst case is -10, at that strike, with break-evens at 90 and 110. */
  lemma StraddleClaims(firstId: int, S: real)
    ensures |Straddle.legs| == 2
    ensures Straddle.legs[0].kind == LongCall && Straddle.legs[1].kind == LongPut
    ensures Straddle.legs[0].strike == Straddle.legs[1].strike == 100.0
    ensures AllValued(Instantiate(Straddle.legs, firstId))
    ensures TotalPayoff(Instantiate(Straddle.legs, firstId), S) >= -10.0
    ensures TotalPayoff(Instantiate(Straddle.legs, firstId), 100.0) == -10.0
    ensures TotalPayoff(Instantiate(Straddle.legs, firstId), 90.0) == 0.0 && TotalPayoff(Instantiate(Straddle.legs, firstId), 110.0) == 0.0
  {
    var ps := Instantiate(Straddle.legs, firstId);
    Total2(ps, S);
    Total2(ps, 100.0);
    Total2(ps, 90.0);
    Total2(ps, 110.0);
  }

  /** Long strangle: both legs bought, the put strike below the call strike; the loss is capped at the premiums paid, 6. */
  lemma StrangleClaims(firstId: int, S: real)
    ensures |Strangle.legs| == 2
    ensures Strangle.legs[0].kind == LongCall && Strangle.legs[1].kind == LongPut
    ensures Strangle.legs[1].strike < Strangle.legs[0].strike
    ensures AllValued(Instantiate(Strangle.legs, firstId))
    ensures TotalPayoff(Instantiate(Strangle.legs, firstId), S) >= -6.0
    ensures TotalPayoff(Instantiate(Strangle.legs, firstId), 100.0) == -6.0
  {
    var ps := Instantiate(Strangle.legs, firstId);
    Total2(ps, S);
    Total2(ps, 100.0);
  }

  /** Butterfly: limited risk and reward, between -3 and 7, and symmetric about the middle strike 100. */
  lemma ButterflyClaims(firstId: int, S: real, d: real)
    ensures |Butterfly.legs| == 4
    ensures AllValued(Instantiate(Butterfly.legs, firstId))
    ensures -3.0 <= TotalPayoff(Instantiate(Butterfly.legs, firstId), S) <= 7.0
    ensures TotalPayoff(Instantiate(Butterfly.legs, firstId), 100.0) == 7.0
    ensures TotalPayoff(Instantiate(Butterfly.legs, firstId), 100.0 + d) == TotalPayoff(Instantiate(Butterfly.legs, firstId), 100.0 - d)
  {
    var ps := Instantiate(Butterfly.legs, firstId);
    Total4(ps, S);
    Total4(ps, 100.0);
    Total4(ps, 100.0 + d);
    Total4(ps, 100.0 - d);
  }

  /** Collar: long stock, long put, short call, exactly; the outcome stays within 5 of zero. */
  lemma CollarClaims(firstId: int, S: real)
    ensures [Collar.legs[0].kind, Collar.legs[1].kind, Collar.legs[2].kind] == [LongUnderlying, LongPut, ShortCall]
    ensures |Collar.legs| == 3
    ensures AllValued(Instantiate(Collar.legs, firstId))
    ensures -5.0 <= TotalPayoff(Instantiate(Collar.legs, firstId), S) <= 5.0
  {
    var ps := Instantiate(Collar.legs, firstId);
    Total3(ps, S);
  }

  /** Covered call: long stock plus a short call; the upside is capped at 15. */
  lemma CoveredCallClaims(firstId: int, S: real)
    ensures |CoveredCall.legs| == 2
    ensures CoveredCall.legs[0].kind == LongUnderlying && CoveredCall.legs[1].kind == ShortCall
    ensures AllValued(Instantiate(CoveredCall.legs, firstId))
    ensures TotalPayoff(Instantiate(CoveredCall.legs, firstId), S) <= 15.0
  {
    var ps := Instantiate(CoveredCall.legs, firstId);
    Total2(ps, S);
  }

  /** Protective put: long stock plus a long put; the downside is floored at -9. */
  lemma ProtectivePutClaims(firstId: int, S: real)
    ensures |ProtectivePut.legs| == 2
    ensures ProtectivePut.legs[0].kind == LongUnderlying && ProtectivePut.legs[1].kind == LongPut
    ensures AllValued(Instantiate(ProtectivePut.legs, firstId))
    ensures TotalPayoff(Instantiate(ProtectivePut.legs, firstId), S) >= -9.0
  {
    var ps := Instantiate(ProtectivePut.legs, firstId);
    Total2(ps, S);
  }

  /** Bull call spread: buys the lower-strike call and sells the higher; the outcome stays within 5 of zero. */
  lemma BullSpreadClaims(firstId: int, S: real)
    ensures |BullSpread.legs| == 2
    ensures BullSpread.legs[0].kind == LongCall && BullSpread.legs[1].kind == ShortCall
    ensures BullSpread.legs[0].strike < BullSpread.legs[1].strike
    ensures AllValued(Instantiate(BullSpread.legs, firstId))
    ensures -5.0 <= TotalPayoff(Instantiate(BullSpread.legs, firstId), S) <= 5.0
  {
    var ps := Instantiate(BullSpread.legs, firstId);
    Total2(ps, S);
  }

  /** Bear put spread: buys the higher-strike put and sells the lower; the outcome stays within 5 of zero. */
  lemma BearSpreadClaims(firstId: int, S: real)
    ensures |BearSpread.legs| == 2
    ensures BearSpread.legs[0].kind == LongPut && BearSpread.legs[1].kind == ShortPut
    ensures BearSpread.legs[1].strike < BearSpread.legs[0].strike
    ensures AllValued(Instantiate(BearSpread.legs, firstId))
    ensures -5.0 <= TotalPayoff(Instantiate(BearSpread.legs, firstId), S) <= 5.0
  {
    var ps := Instantiate(BearSpread.legs, firstId);
    Total2(ps, S);
  }
}
