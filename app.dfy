/**
 The position store of the payoff builder (app.js): the list of positions, the id counter,
 the auto-pricing switch and the valuation settings, with the operations the page's
 buttons and inputs trigger. Rendering and chart refreshes that follow each operation
 are not part of this model.
 */
module App {
  import opened Wrappers
  import opened Payoff
  import opened Pricing
  import Strategies

  // ---------------------------------------------------------------------------
  // Parsing inputs
  // ---------------------------------------------------------------------------

  /**
   JavaScript's `x || d` applied to a parsed number: an unparsable input (None) and
   a zero both fall back to `d`.
   */
  function Or(x: Option<real>, d: real): real
  {
    if x.Some? && x.value != 0.0 then x.value else d
  }

  /** A percentage input converted to a decimal; an unparsable input stays unparsable. */
  function Percent(x: Option<real>): Option<real>
  {
    if x.Some? then Some(x.value / 100.0) else None
  }

  const DefaultSettings := Settings(100.0, 0.05, 1.0, 0.20)

  /**
   The settings `updateSettings` reads from the valuation form: spot price, rate in percent,
   maturity in years and volatility in percent. No field can end up zero.
   */
  function ParsedSettings(spot: Option<real>, ratePercent: Option<real>, maturity: Option<real>, volPercent: Option<real>)
    : (s: Settings)
    ensures s.spotPrice != 0.0 && s.riskFreeRate != 0.0 && s.timeToMaturity != 0.0 && s.volatility != 0.0
    ensures spot.Some? && spot.value != 0.0 ==> s.spotPrice == spot.value
    ensures spot.None? || spot.value == 0.0 ==> s.spotPrice == 100.0
    ensures ratePercent.Some? && ratePercent.value != 0.0 ==> s.riskFreeRate == ratePercent.value / 100.0
    ensures ratePercent.None? || ratePercent.value == 0.0 ==> s.riskFreeRate == 0.05
    ensures maturity.Some? && maturity.value != 0.0 ==> s.timeToMaturity == maturity.value
    ensures maturity.None? || maturity.value == 0.0 ==> s.timeToMaturity == 1.0
    ensures volPercent.Some? && volPercent.value != 0.0 ==> s.volatility == volPercent.value / 100.0
    ensures volPercent.None? || volPercent.value == 0.0 ==> s.volatility == 0.20
  {
    Settings(Or(spot, 100.0), Or(Percent(ratePercent), 0.05), Or(maturity, 1.0), Or(Percent(volPercent), 0.20))
  }

  // ---------------------------------------------------------------------------
  // Records the store creates and rewrites
  // ---------------------------------------------------------------------------

  /** The record `addBlock` creates for a block of the given kind. */
  function NewBlock(kind: Kind, id: int, settings: Settings, bsMode: bool, an: Analytic): Position
  {
    var cost := if bsMode && kind.IsOption() then GetBSPrice(kind, settings.spotPrice, settings, an) else 5.0;
    Position(id, kind, settings.spotPrice, cost, 100.0, 1.0, None)
  }

  /**
   A block added by `addBlock` can be valued exactly when it is not risk-free: the record
   carries `principal` but not the `desiredPayoff` the risk-free rows of the table read.
   Its strike is the spot price, so with a positive spot every new block, risk-free ones
   included, lies strictly inside the default price range.
   */
  lemma NewBlockValuation(ps: seq<Position>, kind: Kind, id: int, settings: Settings, bsMode: bool, an: Analytic)
    ensures Valued(NewBlock(kind, id, settings, bsMode, an)) <==> !kind.IsRiskFree()
    ensures settings.spotPrice > 0.0 ==>
      var r := DefaultPriceRange(ps + [NewBlock(kind, id, settings, bsMode, an)]);
      r.min < settings.spotPrice < r.max
  {
    var p := NewBlock(kind, id, settings, bsMode, an);
    assert (ps + [p])[|ps|] == p;
  }

  /** The fields the position editor writes (`position[field] = …`). */
  datatype Field = StrikeField | CostField | PrincipalField | QuantityField

  function FieldValue(p: Position, f: Field): real
  {
    match f
    case StrikeField => p.strike
    case CostField => p.cost
    case PrincipalField => p.principal
    case QuantityField => p.quantity
  }

  function WithField(p: Position, f: Field, v: real): Position
  {
    match f
    case StrikeField => p.(strike := v)
    case CostField => p.(cost := v)
    case PrincipalField => p.(principal := v)
    case QuantityField => p.(quantity := v)
  }

  /** Editing the strike of an option while auto-pricing is on also recomputes its premium. */
  predicate RepricesOnEdit(bsMode: bool, f: Field, k: Kind)
  {
    bsMode && f == StrikeField && k.IsOption()
  }

  /** The record after `updatePosition` has written `field` with the parsed input. */
  function UpdatedPosition(p: Position, f: Field, input: Option<real>, bsMode: bool, settings: Settings, an: Analytic)
    : (q: Position)
    ensures q.id == p.id && q.kind == p.kind && q.desiredPayoff == p.desiredPayoff
    ensures FieldValue(q, f) == Or(input, 0.0)
    ensures forall g :: g != f && !(g == CostField && RepricesOnEdit(bsMode, f, p.kind)) ==>
      FieldValue(q, g) == FieldValue(p, g)
    ensures RepricesOnEdit(bsMode, f, p.kind) ==> q.cost == GetBSPrice(p.kind, q.strike, settings, an)
  {
    var written := WithField(p, f, Or(input, 0.0));
    if RepricesOnEdit(bsMode, f, p.kind) then written.(cost := GetBSPrice(p.kind, written.strike, settings, an))
    else written
  }

  /** The record after `recalculateBSPrices` has visited it. */
  function Repriced(p: Position, settings: Settings, an: Analytic): Position
  {
    if p.kind.IsOption() then p.(cost := GetBSPrice(p.kind, p.strike, settings, an)) else p
  }

  /** Re-pricing a list changes only the premium, and only of options; length and order are kept. */
  function RepriceAll(ps: seq<Position>, settings: Settings, an: Analytic): (r: seq<Position>)
    ensures |r| == |ps|
    ensures forall i :: 0 <= i < |ps| ==> r[i].(cost := ps[i].cost) == ps[i]
    ensures forall i :: 0 <= i < |ps| && ps[i].kind.IsOption() ==>
      r[i].cost == GetBSPrice(ps[i].kind, ps[i].strike, settings, an)
    ensures forall i :: 0 <= i < |ps| && !ps[i].kind.IsOption() ==> r[i] == ps[i]
  {
    seq(|ps|, i requires 0 <= i < |ps| => Repriced(ps[i], settings, an))
  }

  /** The record `loadStrategy` builds from one template leg: defaults, then the leg's own fields. */
  function FromLeg(leg: Strategies.Leg, id: int): Position
  {
    var principal := if leg.principal.Some? then leg.principal.value else 100.0;
    var quantity := if leg.quantity.Some? then leg.quantity.value else 1.0;
    Position(id, leg.kind, leg.strike, leg.cost, principal, quantity, None)
  }

  /** One position per leg, in order, with consecutive ids from `firstId`. */
  function Instantiate(legs: seq<Strategies.Leg>, firstId: int): (r: seq<Position>)
    ensures |r| == |legs|
    ensures forall i :: 0 <= i < |legs| ==>
      r[i].id == firstId + i && r[i].kind == legs[i].kind && r[i].strike == legs[i].strike && r[i].cost == legs[i].cost
    ensures forall i :: 0 <= i < |legs| ==>
      r[i].principal == (if legs[i].principal.Some? then legs[i].principal.value else 100.0) &&
      r[i].quantity == (if legs[i].quantity.Some? then legs[i].quantity.value else 1.0)
  {
    seq(|legs|, i requires 0 <= i < |legs| => FromLeg(legs[i], firstId + i))
  }

  // ---------------------------------------------------------------------------
  // Lookup and removal by id
  // ---------------------------------------------------------------------------

  /** `positions.find(p => p.id === id)`, as the index of the first match. */
  function FirstIndex(ps: seq<Position>, id: int): (r: Option<nat>)
    ensures r.Some? ==> r.value < |ps| && ps[r.value].id == id
    ensures r.Some? ==> forall j :: 0 <= j < r.value ==> ps[j].id != id
    ensures r.None? ==> forall j :: 0 <= j < |ps| ==> ps[j].id != id
  {
    if ps == [] then None
    else if ps[0].id == id then Some(0)
    else
      match FirstIndex(ps[1..], id)
      case None => None
      case Some(i) => Some(i + 1)
  }

  /** `positions.filter(p => p.id !== id)`. */
  function Without(ps: seq<Position>, id: int): (r: seq<Position>)
    ensures |r| <= |ps|
    ensures forall p :: p in r <==> p in ps && p.id != id
  {
    if ps == [] then []
    else (if ps[0].id == id then [] else [ps[0]]) + Without(ps[1..], id)
  }

  /** Removal works piece by piece, so the survivors keep their relative order. */
  lemma {:induction false} WithoutAppend(a: seq<Position>, b: seq<Position>, id: int)
    ensures Without(a + b, id) == Without(a, id) + Without(b, id)
    decreases |a|
  {
    if a == [] {
      assert a + b == b;
    } else {
      assert (a + b)[1..] == a[1..] + b;
      WithoutAppend(a[1..], b, id);
    }
  }

  /** Removing an id nobody carries changes nothing. */
  lemma {:induction false} WithoutAbsent(ps: seq<Position>, id: int)
    requires forall i :: 0 <= i < |ps| ==> ps[i].id != id
    ensures Without(ps, id) == ps
    decreases |ps|
  {
    if ps != [] {
      WithoutAbsent(ps[1..], id);
    }
  }

  /** Ids are handed out in increasing order (which makes them distinct). */
  predicate IdsIncreasing(ps: seq<Position>)
  {
    forall i, j :: 0 <= i < j < |ps| ==> ps[i].id < ps[j].id
  }

  lemma {:induction false} WithoutKeepsIdsIncreasing(ps: seq<Position>, id: int)
    requires IdsIncreasing(ps)
    ensures IdsIncreasing(Without(ps, id))
    decreases |ps|
  {
    if ps != [] {
      var rest := Without(ps[1..], id);
      WithoutKeepsIdsIncreasing(ps[1..], id);
      forall q | q in rest ensures ps[0].id < q.id {
        var k :| 0 <= k < |ps[1..]| && ps[1..][k] == q;
        assert ps[k + 1] == q;
      }
    }
  }

  /** With increasing ids, an id that is present is removed from exactly one position. */
  lemma {:induction false} WithoutRemovesOne(ps: seq<Position>, id: int)
    requires IdsIncreasing(ps)
    requires exists i :: 0 <= i < |ps| && ps[i].id == id
    ensures |Without(ps, id)| == |ps| - 1
    decreases |ps|
  {
    if ps[0].id == id {
      WithoutAbsent(ps[1..], id);
    } else {
      var i :| 0 <= i < |ps| && ps[i].id == id;
      assert ps[1..][i - 1].id == id;
      WithoutRemovesOne(ps[1..], id);
    }
  }

  // ---------------------------------------------------------------------------
  // The store
  // ---------------------------------------------------------------------------

  /** The page's global state: `positions`, `nextId`, `bsMode` and `settings`. */
  class AppState {
    var positions: seq<Position>
    var nextId: int
    var bsMode: bool
    var settings: Settings
    /** The transcendental functions the Black-Scholes pricer uses. */
    const an: Analytic

    /** Every id is positive, below the counter, and ids increase along the list. */
    ghost predicate Valid()
      reads this
    {
      && nextId >= 1
      && IdsIncreasing(positions)
      && forall i :: 0 <= i < |positions| ==> 1 <= positions[i].id < nextId
    }

    /** The initial state of the page. */
    constructor (an: Analytic)
      ensures Valid()
      ensures positions == [] && nextId == 1 && !bsMode && settings == DefaultSettings && this.an == an
    {
      positions := [];
      nextId := 1;
      bsMode := false;
      settings := DefaultSettings;
      this.an := an;
    }

    /** `addBlock`: appends a new block of the chosen kind with the next id. */
    method AddBlock(kind: Kind)
      requires Valid()
      modifies this
      ensures Valid()
      ensures positions == old(positions) + [NewBlock(kind, old(nextId), settings, bsMode, an)]
      ensures nextId == old(nextId) + 1
      ensures bsMode == old(bsMode) && settings == old(settings)
    {
      var p := NewBlock(kind, nextId, settings, bsMode, an);
      nextId := nextId + 1;
      positions := positions + [p];
    }

    /** `recalculateBSPrices`: re-prices every option in place. */
    method RecalculateBSPrices()
      requires Valid()
      modifies this
      ensures Valid()
      ensures positions == RepriceAll(old(positions), settings, an)
      ensures nextId == old(nextId) && bsMode == old(bsMode) && settings == old(settings)
    {
      var i := 0;
      while i < |positions|
        invariant 0 <= i <= |positions| == |old(positions)|
        invariant forall k :: 0 <= k < i ==> positions[k] == Repriced(old(positions)[k], settings, an)
        invariant forall k :: i <= k < |positions| ==> positions[k] == old(positions)[k]
        invariant nextId == old(nextId) && bsMode == old(bsMode) && settings == old(settings)
      {
        if positions[i].kind.IsOption() {
          var p := positions[i];
          positions := positions[i := p.(cost := GetBSPrice(p.kind, p.strike, settings, an))];
        }
        i := i + 1;
      }
      assert forall k :: 0 <= k < |positions| ==> positions[k].id == old(positions)[k].id;
    }

    /** `updateSettings`: reads the form, then re-prices options when auto-pricing is on. */
    method UpdateSettings(spot: Option<real>, ratePercent: Option<real>, maturity: Option<real>, volPercent: Option<real>)
      requires Valid()
      modifies this
      ensures Valid()
      ensures settings == ParsedSettings(spot, ratePercent, maturity, volPercent)
      ensures positions == if bsMode then RepriceAll(old(positions), settings, an) else old(positions)
      ensures nextId == old(nextId) && bsMode == old(bsMode)
    {
      settings := ParsedSettings(spot, ratePercent, maturity, volPercent);
      if bsMode {
        RecalculateBSPrices();
      }
    }

    /** `toggleBSMode`: switching auto-pricing on re-prices every option at once. */
    method ToggleBSMode(on: bool)
      requires Valid()
      modifies this
      ensures Valid()
      ensures bsMode == on
      ensures positions == if on then RepriceAll(old(positions), settings, an) else old(positions)
      ensures nextId == old(nextId) && settings == old(settings)
    {
      bsMode := on;
      if bsMode {
        RecalculateBSPrices();
      }
    }

    /** `removeBlock`: drops every position with the id, keeping the others in order. */
    method RemoveBlock(id: int)
      requires Valid()
      modifies this
      ensures Valid()
      ensures positions == Without(old(positions), id)
      ensures (exists i :: 0 <= i < |old(positions)| && old(positions)[i].id == id) ==>
        |positions| == |old(positions)| - 1
      ensures nextId == old(nextId) && bsMode == old(bsMode) && settings == old(settings)
    {
      WithoutKeepsIdsIncreasing(positions, id);
      if exists i :: 0 <= i < |positions| && positions[i].id == id {
        WithoutRemovesOne(positions, id);
      }
      positions := Without(positions, id);
    }

    /** `updatePosition`: rewrites one field of the first position with the id; an unknown id changes nothing. */
    method UpdatePosition(id: int, field: Field, input: Option<real>)
      requires Valid()
      modifies this
      ensures Valid()
      ensures FirstIndex(old(positions), id).None? ==> positions == old(positions)
      ensures FirstIndex(old(positions), id).Some? ==>
        var i := FirstIndex(old(positions), id).value;
        positions == old(positions)[i := UpdatedPosition(old(positions)[i], field, input, bsMode, settings, an)]
      ensures nextId == old(nextId) && bsMode == old(bsMode) && settings == old(settings)
    {
      var found := FirstIndex(positions, id);
      if found.Some? {
        var i := found.value;
        positions := positions[i := UpdatedPosition(positions[i], field, input, bsMode, settings, an)];
      }
    }

    /**
     `loadStrategy`: replaces the list by the template's legs with fresh consecutive ids,
     re-priced when auto-pricing is on; an unknown key changes nothing.
     */
    method LoadStrategy(key: string)
      requires Valid()
      modifies this
      ensures Valid()
      ensures bsMode == old(bsMode) && settings == old(settings)
      ensures Strategies.Lookup(key).None? ==> positions == old(positions) && nextId == old(nextId)
      ensures Strategies.Lookup(key).Some? ==>
        var legs := Strategies.Lookup(key).value.legs;
        && nextId == old(nextId) + |legs|
        && positions == (if bsMode then RepriceAll(Instantiate(legs, old(nextId)), settings, an)
                         else Instantiate(legs, old(nextId)))
    {
      var strategy := Strategies.Lookup(key);
      if strategy.None? {
        return;
      }
      LoadLegs(strategy.value.legs);
      if bsMode {
        RecalculateBSPrices();
      }
    }

    /** The `map` of `loadStrategy`: one position per leg, each taking the next id. */
    method LoadLegs(legs: seq<Strategies.Leg>)
      requires Valid()
      modifies this
      ensures Valid()
      ensures positions == Instantiate(legs, old(nextId))
      ensures nextId == old(nextId) + |legs|
      ensures bsMode == old(bsMode) && settings == old(settings)
    {
      ghost var firstId := nextId;
      var loaded: seq<Position> := [];
      var i := 0;
      while i < |legs|
        invariant 0 <= i <= |legs|
        invariant nextId == firstId + i
        invariant |loaded| == i
        invariant forall k :: 0 <= k < i ==> loaded[k] == FromLeg(legs[k], firstId + k)
        invariant bsMode == old(bsMode) && settings == old(settings)
      {
        loaded := loaded + [FromLeg(legs[i], nextId)];
        nextId := nextId + 1;
        i := i + 1;
      }
      assert loaded == Instantiate(legs, firstId);
      positions := loaded;
    }

    /** `clearAll`: empties the list once the user has confirmed (or when it is already empty). */
    method ClearAll(confirmed: bool)
      requires Valid()
      modifies this
      ensures Valid()
      ensures positions == if old(positions) != [] && !confirmed then old(positions) else []
      ensures nextId == old(nextId) && bsMode == old(bsMode) && settings == old(settings)
    {
      if |positions| > 0 && !confirmed {
        return;
      }
      positions := [];
    }
  }
}
