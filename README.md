# Payoff builder: valuation engine and position store in Dafny

This project models the core of a single-page options "payoff builder". A user assembles a
portfolio from ten building blocks: risk-free lending and borrowing, underlying, forward,
call and put, each long or short. The page shows the portfolio's payoff at maturity as a chart
and as a table.

The model has these modules:

- `Payoff`: payoff.js.
  - The two per-instrument payoff tables. `PayoffCalculator` includes option premiums and
    `PayoffOnlyCalculator` leaves them out.
  - Their aggregation over a list of positions: `calculateTotalPayoff` and
    `calculateTotalPayoffOnly`.
  - The sampling of the aggregate over a price interval: `generatePayoffData`.
  - The default price interval: `determineDefaultPriceRange`.
- `Pricing`: the Black-Scholes dispatch of payoff.js (`getBSPrice`) and the exact boundary
  branches of `bsCallPrice` and `bsPutPrice`. The exponential and the closed form are passed
  in as the `Analytic` value.
- `Strategies`: the template table of strategies.js.
- `App`: the page state of app.js as the class `AppState`. It holds `positions`, `nextId`,
  `bsMode` and `settings`. It has one method per state-changing handler: `addBlock`,
  `recalculateBSPrices`, `updateSettings`, `toggleBSMode`, `removeBlock`, `updatePosition`,
  `loadStrategy` and `clearAll`.
- `Chart`: what app.js computes before drawing.
  - The kink markers: `findKinkPoints`.
  - The y-axis bounds of `updateChart`.
  - The eleven-row price grid of `updatePnLTable`.
- `StrategyClaims`: each template's name and description checked against the payoff model.

Prices and payoffs are exact reals.

The default price range pads the spread of the positive strikes by half its length on
each side (strikes 90 and 110 give `{80, 120}`, `Payoff.DefaultRangeSpread`). A single
positive strike `K` has no spread and is padded by 50 on each side instead, so `K = 100`
gives `{50, 150}` (`Payoff.DefaultRangeSingleStrike`).

In the y-axis code of `updateChart`, zero is always one of the values. So:

- The flat case (spread under 0.01) only arises when every value is within 0.01 of zero. The
  flat interval is then `[min(f-5, -5), max(f+5, 5)]` (`Chart.FlatAxis`).
- The two "ensure zero is visible" guards of the non-flat case never fire
  (`Chart.NonFlatAxisIsPaddedRange`).

## Model

| member | source | states |
|---|---|---|
| Payoff.FullPayoff | payoff.js:3-62 | the `PayoffCalculator` table, one case per kind; what it promises is stated by ShortNegatesLong, FullIsPayoffOnlyPlusPremium, OptionPayoffBounds and OptionPayoffMonotone |
| Payoff.PayoffOnly | payoff.js:142-153 | the `PayoffOnlyCalculator` table; related to the full table by FullIsPayoffOnlyPlusPremium and to its own short kinds by ShortNegatesLong |
| Payoff.NetPremium | payoff.js:40-61 | the premium term of the option rows (`-cost` bought, `+cost` written, 0 otherwise); FullIsPayoffOnlyPlusPremium states it is exactly the difference of the two tables |
| Payoff.Opposite | payoff.js:3-62 | each long kind is paired with the short kind of the same instrument: the side flips, the instrument group is kept |
| Payoff.ShortNegatesLong | payoff.js:3-62 | with the same fields, a short position's payoff is the exact negation of the long one, in both the full and the premium-free table |
| Payoff.FullIsPayoffOnlyPlusPremium | payoff.js:40-61 | the full table is the premium-free table minus the premium for long options, plus it for short options, and equal to it for every other kind |
| Payoff.OptionPayoffBounds | payoff.js:40-61 | a bought option never loses more than its premium; a written option never gains more than its premium |
| Payoff.OptionPayoffMonotone | payoff.js:40-56 | the long call payoff never falls as the price rises; the long put payoff never rises |
| Payoff.EffectiveQuantity | payoff.js:130 | `quantity \|\| 1`: the weight is the quantity when that is non-zero and exactly 1 when it is zero, so never zero |
| Payoff.TotalPayoff | payoff.js:128-139 | `calculateTotalPayoff` as a fold from 0; its steps are stated by TotalSnoc, its independence of grouping by TotalAppend |
| Payoff.TotalPayoffOnly | payoff.js:156-167 | `calculateTotalPayoffOnly`, the same fold over the premium-free table; TotalSnoc, TotalAppend and TotalIsPayoffOnlyPlusPremium state it |
| Payoff.SelectedTotal | payoff.js:173 | the `payoffOnly ? … : …` choice of total; GeneratePayoffData states each sample's y with it |
| Payoff.TotalSnoc | payoff.js:128-139 | an empty list totals 0, and appending a position adds its payoff times its effective quantity, in both totals |
| Payoff.TotalAppend | payoff.js:128-166 | the total of a concatenation is the sum of the totals of its parts, in both totals |
| Payoff.TotalIsPayoffOnlyPlusPremium | payoff.js:128-166 | the full total equals the premium-free total plus the net premium of the whole list |
| Payoff.WeightedSplit | payoff.js:128-166 | one position's weighted payoff splits into its weighted premium-free payoff plus its weighted premium |
| Payoff.GeneratePayoffData | payoff.js:170-182 | returns `numPoints` points, the first at `minPrice` and the last at `maxPrice`, spaced `(max-min)/(numPoints-1)` apart, strictly increasing when `max > min`; each y is the selected total (premium-free iff `payoffOnly`) at its x |
| Payoff.GridSpacing | payoff.js:172-176 | the grid step is positive iff the interval is, and `numPoints - 1` steps reach exactly `maxPrice` |
| Payoff.GridPointsIncrease | payoff.js:175-176 | prices placed at `min + i * step` with a positive step strictly increase |
| Payoff.SeqMin | payoff.js:198 | `Math.min` of a non-empty list is one of its elements and below all of them |
| Payoff.SeqMax | payoff.js:199 | `Math.max` of a non-empty list is one of its elements and above all of them |
| Payoff.PositiveStrikes | payoff.js:190-192 | keeps exactly the strikes above zero |
| Payoff.PositiveStrikesAppend | payoff.js:190-192 | the strike filter distributes over concatenation |
| Payoff.DefaultPriceRange | payoff.js:185-208 | `0 <= min < max`; `{0, 200}` when no strike is positive (the empty list included); every positive strike lies strictly between min and max |
| Payoff.DefaultRangeSpread | payoff.js:198-207 | with distinct positive strikes from `lo` to `hi`, the range is `{max(0, lo - (hi-lo)/2), hi + (hi-lo)/2}` |
| Payoff.DefaultRangeSpreadExample | payoff.js:198-207 | two positions with strikes 90 and 110 get the range `{80, 120}` |
| Payoff.DefaultRangeSingleStrike | payoff.js:198-207 | when every positive strike equals `K`, the range is `{max(0, K-50), K+50}` |
| Payoff.DefaultRangeDependsOnPositiveStrikes | payoff.js:190-207 | the range depends only on the set of positive strikes, not on their order, multiplicity or the other positions |
| Payoff.SameElementsSameBounds | payoff.js:198-199 | lists with the same elements have the same minimum and maximum |
| Payoff.DefaultRangeIgnoresNonPositiveStrikes | payoff.js:190-192 | inserting a position whose strike is at most zero anywhere in the list leaves the range unchanged |
| Pricing.BsCallPrice | payoff.js:88-96 | on the expired and zero-volatility branches the call price is never negative and never below `S - K` (discounted by `exp(-rT)` without volatility); ExpiredPriceIsIntrinsic and ZeroVolatilityPriceIsDiscountedIntrinsic give both branches' exact values |
| Pricing.BsPutPrice | payoff.js:99-107 | on the expired and zero-volatility branches the put price is never negative and never below `K - S` (strike discounted without volatility); ExpiredPriceIsIntrinsic and ZeroVolatilityPriceIsDiscountedIntrinsic give both branches' exact values |
| Pricing.ZeroVolatilityPriceIsDiscountedIntrinsic | payoff.js:90-101 | before maturity and without volatility the call costs `max(S - K·exp(-rT), 0)` and the put `max(K·exp(-rT) - S, 0)` |
| Pricing.GetBSPrice | payoff.js:110-123 | the price of a non-option kind is 0 |
| Pricing.PriceIgnoresSide | payoff.js:110-121 | long and short calls (and puts) get the same price, the one of the call (put) pricer with the current settings |
| Pricing.ExpiredPriceIsIntrinsic | payoff.js:89-100 | at or past maturity a call costs `max(S-K, 0)` and a put `max(K-S, 0)`, so the price is never negative |
| Pricing.BoundaryPutCallParity | payoff.js:88-101 | on the boundary branches call minus put is `S - K` (expired) or `S - K·exp(-rT)` (no volatility), and both prices are non-negative |
| Strategies.Lookup | strategies.js:3-78 | a key yields a template iff it is one of the eight names `straddle`, `strangle`, `butterfly`, `collar`, `covered_call`, `protective_put`, `bull_spread`, `bear_spread`, and each name yields its own template |
| App.Or | app.js:78-81 | JavaScript's `x \|\| d` on a parsed number; ParsedSettings and UpdatedPosition state its fallbacks (zero or unparsable gives the default) |
| App.Percent | app.js:79-81 | the division of a percentage input by 100, unparsable staying unparsable; stated through ParsedSettings |
| App.ParsedSettings | app.js:78-81 | no setting ends up zero; a zero or unparsable input falls back to 100, 5 %, 1 year and 20 %, any other input is taken as is (percentages divided by 100) |
| App.NewBlock | app.js:56-68 | the record `addBlock` builds (strike = spot, cost 5 or the Black-Scholes price, principal 100, quantity 1); AddBlock appends it and NewBlockValuation states what it can be valued as and where it lies in the range |
| App.NewBlockValuation | app.js:54-68 | a block from `addBlock` can be valued iff it is not risk-free (it carries no `desiredPayoff`), and with a positive spot price its strike lies strictly inside the default range of the enlarged list |
| App.UpdatedPosition | app.js:121-129 | the edited field becomes the parsed input or 0; id, kind and every other field are kept, except that the premium is re-priced exactly when auto-pricing is on, the field is the strike and the position is an option |
| App.Repriced | app.js:106-110 | one visit of `recalculateBSPrices`; RepriceAll states that it changes only the premium, only of options |
| App.RepriceAll | app.js:105-111 | same length and order; only the premium changes, only on options, where it becomes the Black-Scholes price |
| App.FromLeg | app.js:563-568 | the record `loadStrategy` builds from one leg over the defaults; Instantiate states its fields |
| App.Instantiate | app.js:563-568 | one position per template leg, in order, with consecutive ids from the given start; kind, strike and premium from the leg, principal 100 and quantity 1 unless the leg overrides them |
| App.FirstIndex | app.js:122 | the index of the first position with the id, or None when no position has it |
| App.Without | app.js:114 | the survivors are exactly the positions with another id, never more than before |
| App.WithoutAppend | app.js:114 | the filter works piecewise on a concatenation, so survivors keep their relative order |
| App.WithoutAbsent | app.js:114 | removing an id nobody carries changes nothing |
| App.WithoutKeepsIdsIncreasing | app.js:114 | removal keeps ids increasing along the list |
| App.WithoutRemovesOne | app.js:114 | with increasing ids, removing a present id removes exactly one position |
| App.AppState.constructor | app.js:3-12 | the initial page state is an empty list, counter 1, auto-pricing off and the default settings |
| App.AppState.AddBlock | app.js:54-70 | appends exactly the new block with the old counter as id; the counter goes up by one; ids stay increasing and below the counter |
| App.AppState.RecalculateBSPrices | app.js:105-111 | the list becomes its re-priced version; nothing else changes |
| App.AppState.UpdateSettings | app.js:77-86 | the settings become the parsed ones; the list is re-priced with them iff auto-pricing is on |
| App.AppState.ToggleBSMode | app.js:93-98 | the switch takes the new value; switching on re-prices the list, switching off changes nothing else |
| App.AppState.RemoveBlock | app.js:113-114 | the list loses every position with the id and keeps the others in order; since ids are distinct, a present id shrinks the list by exactly one |
| App.AppState.UpdatePosition | app.js:121-130 | an unknown id changes nothing; otherwise only the first matching position is replaced by its updated record |
| App.AppState.LoadStrategy | app.js:559-572 | an unknown key (Lookup gives None) changes nothing; otherwise the list becomes the template's positions with ids from the old counter, re-priced iff auto-pricing is on, and the counter advances by the number of legs |
| App.AppState.LoadLegs | app.js:563-568 | the list becomes one position per leg with consecutive ids from the old counter, the counter advances by the number of legs, and ids stay increasing and below it |
| App.AppState.ClearAll | app.js:581-586 | the list is emptied unless it is non-empty and the user declines; nothing else changes |
| Chart.MakesKink | app.js:510-516 | option, underlying and forward positions mark a kink, risk-free ones do not; KinkStrikes and FindKinkPoints state the strikes it selects |
| Chart.KinkStrikes | app.js:506-517 | the distinct strikes of the option, underlying and forward positions, each exactly once |
| Chart.FirstKinkIndex | app.js:506-517 | the index of the first position that marks a kink strike |
| Chart.KinkStrikesInFirstOccurrenceOrder | app.js:506-520 | the strike set iterates in order of first occurrence |
| Chart.CollectKinkStrikes | app.js:506-517 | the `forEach` over the list that fills the strike set yields exactly KinkStrikes |
| Chart.FindKinkPoints | app.js:504-526 | a point's x is a kink strike in `[min, max]` iff such a strike exists; points come in first-occurrence order and each y is the full total payoff at x |
| Chart.InRange | app.js:521 | the range filter keeps at most as many values as it is given |
| Chart.InRangeMembers | app.js:521 | the range filter keeps exactly the values inside the inclusive range |
| Chart.InRangeKeepsKinkOrder | app.js:520-521 | filtering keeps the first-occurrence order of kink strikes |
| Chart.ChartYBounds | app.js:454-485 | `min < max`, zero lies inside, every value lies inside (strictly when not flat); a flat curve sits within 0.01 of zero and the axis covers both `[-5, 5]` and `[f-5, f+5]` |
| Chart.FlatAxis | app.js:468-475 | in the flat case the flat value lies within 0.01 of zero and the axis is `[-5, f+5]` for `f >= 0` and `[f-5, 5]` for `f < 0`, i.e. `[min(f-5, -5), max(f+5, 5)]` |
| Chart.NonFlatAxisIsPaddedRange | app.js:476-485 | outside the flat case the axis is exactly the value interval padded by 15 % of its length on each side |
| Chart.ChartScale | app.js:435-485 | for an empty list no axis is set; otherwise the axis contains zero, the total at both ends of the default range and the total at every in-range kink strike |
| Chart.PnLTable | app.js:528-543 | no rows for an empty list; otherwise eleven rows from the range minimum to its maximum in steps of a tenth, strictly increasing, each with the full total at its price |
| Chart.PriceGrid | app.js:536-543 | the eleven-row grid over any interval, with prices `lo + i·(hi-lo)/10` |
| Chart.GridRowsArePriceGrid | app.js:536-543 | eleven such rows start at `lo`, end at `hi`, and increase when `hi > lo` |
| StrategyClaims.StraddleClaims | strategies.js:4-10 | a long call and a long put at strike 100; the total is never below -10, is -10 at 100 and 0 at 90 and 110 |
| StrategyClaims.StrangleClaims | strategies.js:13-19 | both legs bought, the put strike below the call strike; the total is never below -6 and is -6 at 100 |
| StrategyClaims.ButterflyClaims | strategies.js:22-30 | limited risk and reward: the total always lies in `[-3, 7]`, reaches 7 at 100 and is symmetric about 100 |
| StrategyClaims.CollarClaims | strategies.js:33-40 | exactly long underlying, long put, short call; the total always lies in `[-5, 5]` |
| StrategyClaims.CoveredCallClaims | strategies.js:43-49 | long underlying plus short call; the total is never above 15 |
| StrategyClaims.ProtectivePutClaims | strategies.js:52-58 | long underlying plus long put; the total is never below -9 |
| StrategyClaims.BullSpreadClaims | strategies.js:61-67 | buys the lower-strike call and sells the higher; the total always lies in `[-5, 5]` |
| StrategyClaims.BearSpreadClaims | strategies.js:70-76 | buys the higher-strike put and sells the lower; the total always lies in `[-5, 5]` |

## Left out

- `normalCDF` and the closed-form branches of `bsCallPrice` and `bsPutPrice` are not modelled as arithmetic. They are floating-point approximations built on `exp`, `log` and `sqrt`. `Math.exp` and the closed form are the caller-supplied functions of `Pricing.Analytic`. Only the dispatch and the boundary branches are exact.
- `updateRiskFreeSummary` is not modelled. It is HTML output built on `Math.exp`, and it changes no state.
- DOM, Chart.js and rendering are not modelled: `setupEventListeners`, `renderPositions`, `initializeChart`, the axis-break plugin, the chart dataset assignments, the HTML and `toFixed` of the P&L table, and `exportChart`. The handlers' calls to the redraw functions are dropped too.
- The `confirm` dialog of `clearAll` is the `confirmed` parameter of `App.AppState.ClearAll`. Reading the form fields is likewise a parameter.
- `parseFloat` is not modelled. An input is an `Option<real>`, and None stands for an unparsable string.
- JavaScript `undefined` and `NaN` propagation is not modelled. The payoff tables require a risk-free position to carry `desiredPayoff` (`Payoff.Valued`). Blocks created by `addBlock` and `loadStrategy` never carry it, so their risk-free blocks are outside what the totals value (`App.NewBlockValuation`). Sampling requires at least two points, because one point divides by zero.
- A missing `quantity` is not modelled. The store always sets a quantity, so `quantity` is a real. A zero quantity counts as one.
- The `settings` argument of the payoff functions is left out, because no payoff formula reads it.
- Position records are values, so an in-place field write is modelled as replacing the list element. Aliasing of position objects outside the list is not modelled.
- Fields a template could add beyond `type`, `strike`, `cost`, `principal` and `quantity` are not modelled. No template in the table has any.
- Prototype-chain keys of the `Strategies` object (such as `toString`) are not modelled. A key counts only if it names one of the eight templates.
- Floating-point rounding is not modelled: prices and payoffs are exact reals. In the source the last sample of `generatePayoffData` (payoff.js:176) and the last P&L row (app.js:542) land exactly on the range maximum only up to rounding, and the `yRange < 0.01` flatness test (app.js:463) runs on rounded values.
- Chart.ChartScale: states what the axis contains, rather than repeating the whole computation. The exact bounds are those of `Chart.ChartYBounds` applied to the 100 sampled values and the kink values.
- Chart.InRange: its own contract gives only the length bound. What it keeps is stated by `Chart.InRangeMembers` and `Chart.InRangeKeepsKinkOrder`.
