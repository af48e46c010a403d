# Option strategy engine, modelled in Dafny

This project models the core of an options-strategy analyser. The analyser prices European calls and puts with the Black-Scholes closed form. It builds 84 catalogued strategies from codes:

- long calls C1-C15 and long puts P1-P15;
- short calls SC1-SC15 and short puts SP1-SP15;
- spreads S1-S24, of which S19-S21 are iron condors.

It computes each strategy's initial cost and its profit and loss over a range of spot prices. A separate hedge solver finds how many reference (QQQ) options offset the delta of a position in options on a 3x leveraged fund (TQQQ).

The modules follow the source files:

- `Analytic` (`analytic.dfy`): `norm.cdf`, `math.exp`, `math.log`, `math.sqrt`, carried as the fields of a `MathLib` value; the predicate `Sound` lists the facts about them that proofs assume
- `BlackScholes` (`black_scholes.dfy`): the pricing kernel
- `Models` (`strategy_config.dfy`): the configuration record
- `Base` (`base.dfy`): what every strategy sets up: rate, volatility, expiry from the time frame, strike from the moneyness
- `Payoffs` (`payoffs.dfy`): the pre-expiry loop all strategies share
- `LongCall`, `LongPut`, `ShortCall`, `ShortPut` (one file each): the single-option strategies
- `Spread` (`spread.dfy`): the vertical spreads
- `IronCondor` (`iron_condor.dfy`): the four-leg iron condor
- `Factory` (`factory.dfy`): the catalog and the factory
- `DeltaCalculator` (`delta_calculator.dfy`): the hedge solver
- `Text` (`text.dfy`): the Python string operations used: `in` on strings, `lower()`, `f"{n}"`, string ordering, `sorted`

Modelling choices:

- **Numbers.** Prices are exact `real`s.
- **Errors.** A Python exception is a `Result` error:
  - `ZeroDivisionError` for `S / K` with `K == 0`, or a zero `sigma * sqrt(T)`;
  - `MathDomainError` for `math.log` of a non-positive ratio (Python's `ValueError`).
- **Strategies.** Strategy objects only set their fields in `__init__`, so they are datatypes, and each constructor is a function. A strategy's `IsSetUp` predicate says it is what its constructor builds.
- **Pre-expiry payoff loop.** `Payoffs.CollectPayoffs` models it as a method with a loop. That method is proved equal to the recursive `Payoffs.MapSpots`, which stops at the first spot whose pricing raises.
- **Catalog.** The factory's `_initialize_strategies` runs five loops, modelled as five loop methods. Each is proved against the function `Fill`; together they give the map `Catalog()`. The lemmas about `Catalog()` give its keys, its size (84), its entries, their strikes, and how each code is dispatched.

Behaviour of the source that the model keeps:

- **Short-leg costs.** The initial cost of a short call or short put is the same non-negative premium as the long one's. The source comment speaks of a "negative cost = credit", which the code does not do.
- **"OTM" call strikes.** The moneyness table strikes "Deep OTM" and "Shallow OTM" calls at 0.90 and 0.95 of the base price (`Base.CallMultipliersAscend`). Such calls start in the money.
- **Spread sign conventions.** The spread's `calculate_payoff` decides its sign by the words "Call" and "Bull" (`Spread.DebitShaped`). Its `get_initial_cost` decides by "Bull Call" and "Bear Put" (`Spread.IsDebit`).
  - The four named spreads agree (`Spread.NamedSpreadsConsistent`).
  - Every other name disagrees: calendar, ratio, back-ratio and butterfly. These become put credit spreads whose premium is counted against the position, so they never recover their cost (`Spread.PremiumCountedReversed`, `Factory.CatalogDefaultSpreadsLose`).
- **Spread time to expiry.** A spread's payoff ignores the time to expiry it is given (`Spread.PayoffIgnoresTime`).
- **Put delta direction.** The put delta is the call delta less one (delta_calculator.py:18-21). Like the call delta, it therefore rises with the spot (`DeltaCalculator.PutDeltaMonotone`).

## Model

| member | source | states |
|---|---|---|
| BlackScholes.D1D2 | src/option_analyzer/pricing/black_scholes.py:17-18 | d1 and d2 exist exactly on the kernel's domain, with d2 = d1 - sigma sqrt(T); a zero strike raises ZeroDivisionError and a non-positive S/K raises the log's domain error |
| BlackScholes.CallPrice | src/option_analyzer/pricing/black_scholes.py:12-21 | at or past expiry the intrinsic value max(S-K, 0); before it, defined exactly on the domain; never negative |
| BlackScholes.PutPrice | src/option_analyzer/pricing/black_scholes.py:23-32 | at or past expiry max(K-S, 0); before it, defined exactly on the domain; never negative |
| BlackScholes.NegativeSpotRaises | src/option_analyzer/pricing/black_scholes.py:17 | a negative spot with a positive strike raises the log's domain error in both pricers before expiry |
| BlackScholes.SameFailures | src/option_analyzer/pricing/black_scholes.py:12-32 | the call and put pricers raise on exactly the same inputs, with the same error |
| BlackScholes.DefinedOnSameSignInputs | src/option_analyzer/pricing/black_scholes.py:17 | spot and strike of the same sign, positive T and sigma: the closed form is defined |
| BlackScholes.DefinedOnPositiveSpots | src/option_analyzer/pricing/black_scholes.py:17 | with a positive strike, T and sigma, every positive spot is in the domain |
| BlackScholes.CallAtMostSpot | src/option_analyzer/pricing/black_scholes.py:12-21 | a call is never priced above the spot |
| BlackScholes.PutAtMostStrike | src/option_analyzer/pricing/black_scholes.py:23-32 | a put is never priced above the strike, nor before expiry above the discounted strike K e^{-rT} |
| BlackScholes.ClosedFormParity | src/option_analyzer/pricing/black_scholes.py:20-31 | before the floors, call minus put is exactly S - K e^{-rT} |
| BlackScholes.PutCallParity | src/option_analyzer/pricing/black_scholes.py:12-32 | put-call parity of the prices whenever neither floor at zero is active |
| Base.TimeToExpiration | src/option_analyzer/strategies/base.py:29-36 | always in (0, 120/365]; Near and any unknown time frame give 30 days over 365 |
| Base.TimeFramesOrdered | src/option_analyzer/strategies/base.py:31-35 | Near < Medium < Long |
| Base.StrikeMultiplier | src/option_analyzer/strategies/base.py:38-47 | between 0.90 and 1.10; 1.00 for a moneyness outside the table |
| Base.MultipliersMirrored | src/option_analyzer/strategies/base.py:40-46 | for any moneyness, a call type's and a put type's multipliers add to 2 |
| Base.CallMultipliersAscend | src/option_analyzer/strategies/base.py:40-46 | the call multiplier rises strictly from Deep OTM to Deep ITM |
| Base.StrikePrice | src/option_analyzer/strategies/base.py:38-48 | the strike lies within 10% of a non-negative base price, equals it off the table, and is positive or zero exactly as the base price is |
| Base.NewOptionStrategy | src/option_analyzer/strategies/base.py:16-27 | rate 0.05, volatility 0.25, positive expiry, strike within 10% of the base price and of its sign |
| Base.InceptionInDomain | src/option_analyzer/strategies/base.py:16-27 | a set-up strategy has positive expiry, and its inception pricing is in the domain exactly when its base price is not zero |
| Payoffs.MapSpots | src/option_analyzer/strategies/long_call.py:18-24 | all payoffs in spot order when every spot prices, else the error of the first spot that fails |
| Payoffs.CollectPayoffs | src/option_analyzer/strategies/long_call.py:18-24 | the append loop computes MapSpots |
| LongCall.InitialCost | src/option_analyzer/strategies/long_call.py:26-30 | the premium is non-negative; a set-up strategy on a zero base price raises ZeroDivisionError, on any other it is priced |
| LongCall.PremiumAtMostBasePrice | src/option_analyzer/strategies/long_call.py:26-30 | the premium never exceeds the base price |
| LongCall.ExpiryPayoff | src/option_analyzer/strategies/long_call.py:13-15 | loss limited to the premium; non-decreasing in the spot |
| LongCall.LiveValue | src/option_analyzer/strategies/long_call.py:19-23 | never below minus the premium |
| LongCall.Payoff | src/option_analyzer/strategies/long_call.py:12-24 | one payoff per spot, none below minus the premium |
| LongCall.CalculatePayoff | src/option_analyzer/strategies/long_call.py:12-24 | the method returns Payoff |
| LongCall.PayoffIsPriceLessPremium | src/option_analyzer/strategies/long_call.py:12-24 | both branches give the kernel's call price at the remaining time less the premium |
| LongCall.PayoffDefined | src/option_analyzer/strategies/long_call.py:12-24 | a set-up strategy with positive base price values every positive spot |
| LongPut.InitialCost | src/option_analyzer/strategies/long_put.py:26-30 | the premium is non-negative; zero base price raises ZeroDivisionError, any other is priced |
| LongPut.PremiumAtMostDiscountedStrike | src/option_analyzer/strategies/long_put.py:26-30 | the premium never exceeds the discounted strike |
| LongPut.ExpiryPayoff | src/option_analyzer/strategies/long_put.py:13-15 | loss limited to the premium, gain to strike less premium; non-increasing in the spot |
| LongPut.LiveValue | src/option_analyzer/strategies/long_put.py:19-23 | never below minus the premium |
| LongPut.Payoff | src/option_analyzer/strategies/long_put.py:12-24 | one payoff per spot, none below minus the premium |
| LongPut.CalculatePayoff | src/option_analyzer/strategies/long_put.py:12-24 | the method returns Payoff |
| LongPut.PayoffIsPriceLessPremium | src/option_analyzer/strategies/long_put.py:12-24 | both branches give the kernel's put price at the remaining time less the premium |
| LongPut.PayoffDefined | src/option_analyzer/strategies/long_put.py:12-24 | a set-up strategy with positive base price values every positive spot |
| ShortCall.InitialCost | src/option_analyzer/strategies/short_call.py:26-31 | the same non-negative premium as the long call's |
| ShortCall.ExpiryPayoff | src/option_analyzer/strategies/short_call.py:13-15 | gain limited to the premium, kept in full at or below the strike; non-increasing in the spot |
| ShortCall.LiveValue | src/option_analyzer/strategies/short_call.py:19-23 | never above the premium |
| ShortCall.Payoff | src/option_analyzer/strategies/short_call.py:12-24 | one payoff per spot, none above the premium |
| ShortCall.CalculatePayoff | src/option_analyzer/strategies/short_call.py:12-24 | the method returns Payoff |
| ShortCall.MirrorsLongCall | src/option_analyzer/strategies/short_call.py:12-24 | the short call's payoff is the long call's negated, spot by spot, errors included |
| ShortCall.PayoffDefined | src/option_analyzer/strategies/short_call.py:12-24 | a set-up strategy with positive base price values every positive spot |
| ShortPut.InitialCost | src/option_analyzer/strategies/short_put.py:26-31 | the same non-negative premium as the long put's |
| ShortPut.ExpiryPayoff | src/option_analyzer/strategies/short_put.py:13-15 | gain limited to the premium, kept at or above the strike; loss limited to strike less premium; profit above the break-even point; non-decreasing in the spot |
| ShortPut.LiveValue | src/option_analyzer/strategies/short_put.py:19-23 | never above the premium |
| ShortPut.Payoff | src/option_analyzer/strategies/short_put.py:12-24 | one payoff per spot, none above the premium |
| ShortPut.CalculatePayoff | src/option_analyzer/strategies/short_put.py:12-24 | the method returns Payoff |
| ShortPut.MirrorsLongPut | src/option_analyzer/strategies/short_put.py:12-24 | the short put's payoff is the long put's negated |
| ShortPut.PayoffDefined | src/option_analyzer/strategies/short_put.py:12-24 | a set-up strategy with positive base price values every positive spot |
| Spread.SpreadStrikes | src/option_analyzer/strategies/spread.py:43-66 | strikes centred on the base price and 4% of it apart; the long one is the higher exactly in the bear layout |
| Spread.NewSpread | src/option_analyzer/strategies/spread.py:16-27 | rate, volatility, expiry from the time frame, strikes from the name |
| Spread.LegPremium | src/option_analyzer/strategies/spread.py:98-115 | each leg's premium is non-negative |
| Spread.NetPremiumPaid | src/option_analyzer/strategies/spread.py:98-115 | defined when both legs are priced; the long leg's error comes first |
| Spread.LegsPricedAtInception | src/option_analyzer/strategies/spread.py:96-115 | a set-up spread prices both legs exactly when its base price is not zero, else ZeroDivisionError |
| Spread.InitialCost | src/option_analyzer/strategies/spread.py:96-120 | the net premium as paid for Bull Call / Bear Put names, as received for all others |
| Spread.LegsValue | src/option_analyzer/strategies/spread.py:73-93 | the legs' value is bounded by the strike distance and its sign follows the layout |
| Spread.Payoff | src/option_analyzer/strategies/spread.py:68-94 | legs' value minus the cost in debit-shaped branches, plus it otherwise; defined exactly when the cost is |
| Spread.PayoffIgnoresTime | src/option_analyzer/strategies/spread.py:68-94 | the payoff does not depend on the time to expiry given |
| Spread.PremiumCountedOnce | src/option_analyzer/strategies/spread.py:68-120 | when both sign rules agree, the payoff is the legs' value less the net premium paid |
| Spread.PremiumCountedReversed | src/option_analyzer/strategies/spread.py:68-120 | when they disagree, the payoff is the legs' value plus the net premium paid |
| Spread.NamedSpreadsConsistent | src/option_analyzer/strategies/spread.py:70-120 | for the four named spreads the payoff's and the cost's sign rules agree |
| Spread.DefaultSpreadNeverRecoversCost | src/option_analyzer/strategies/spread.py:61-94 | a name without Call, Bull or Bear Put is a credit put spread with long strike below short, whose payoff never exceeds minus its cost |
| Spread.CallSpreadsMirror | src/option_analyzer/strategies/spread.py:70-80 | bear call payoff is the bull call payoff negated |
| Spread.PutSpreadsMirror | src/option_analyzer/strategies/spread.py:82-94 | bull put payoff is the bear put payoff negated |
| Spread.MirroredLegs | src/option_analyzer/strategies/spread.py:68-120 | a debit spread and the credit spread on swapped strikes pay opposite amounts |
| IronCondor.CondorStrikes | src/option_analyzer/strategies/iron_condor.py:43-59 | wings 5% wide, written strikes at 95% and 105%, four strikes ascending around a positive base price |
| IronCondor.NewIronCondor | src/option_analyzer/strategies/iron_condor.py:16-27 | rate, volatility, expiry, and the four strikes |
| IronCondor.PositionValue | src/option_analyzer/strategies/iron_condor.py:81-97 | defined exactly when all four legs price; the first leg's error comes first |
| IronCondor.InitialCost | src/option_analyzer/strategies/iron_condor.py:105-129 | the credit is the position's inception value negated; zero base price raises ZeroDivisionError, any other is priced |
| IronCondor.CondorInDomain | src/option_analyzer/strategies/iron_condor.py:105-129 | all four inception prices are in the domain for a non-zero base price |
| IronCondor.Owed | src/option_analyzer/strategies/iron_condor.py:64-76 | between 0 and one wing's width; 0 between the written strikes |
| IronCondor.ExpiryPayoff | src/option_analyzer/strategies/iron_condor.py:62-77 | between credit minus wing width and the credit; the full credit between the written strikes |
| IronCondor.LiveValue | src/option_analyzer/strategies/iron_condor.py:80-101 | defined exactly when the legs and the credit are; leg errors first |
| IronCondor.Payoff | src/option_analyzer/strategies/iron_condor.py:61-103 | one payoff per spot; at expiry it is defined exactly when the credit is, never above the credit, never below the credit less a wing's width, and the full credit between the written strikes |
| IronCondor.PayoffIsCreditPlusPosition | src/option_analyzer/strategies/iron_condor.py:61-103 | in both branches each payoff is the credit plus the four legs' value at that spot and the remaining time |
| IronCondor.CalculatePayoff | src/option_analyzer/strategies/iron_condor.py:61-103 | the method returns Payoff |
| IronCondor.FlatAtInception | src/option_analyzer/strategies/iron_condor.py:97-100 | at the base price with the full term left the profit is exactly zero |
| IronCondor.LiveValueAtExpiry | src/option_analyzer/strategies/iron_condor.py:61-103 | with no time left the pre-expiry formula gives the expiry payoff |
| IronCondor.PayoffDefined | src/option_analyzer/strategies/iron_condor.py:61-103 | a set-up condor with positive base price values every positive spot |
| Text.Lower | src/option_analyzer/strategies/base.py:41 | same length, each character lower-cased |
| Text.NatToString | src/option_analyzer/factory/strategy_factory.py:31 | non-empty, all decimal digits |
| Text.NatToStringInjective | src/option_analyzer/factory/strategy_factory.py:31 | different numbers render differently |
| Text.Sorted | src/option_analyzer/factory/strategy_factory.py:128 | every key exactly once, in ascending string order |
| Factory.Repeat | src/option_analyzer/factory/strategy_factory.py:28 | the list repeated n times: element i is element i mod length |
| Factory.InitializeStrategies | src/option_analyzer/factory/strategy_factory.py:20-100 | the five loops build Catalog() |
| Factory.AddLongCalls | src/option_analyzer/factory/strategy_factory.py:30-39 | the loop adds the 15 long call entries |
| Factory.AddLongPuts | src/option_analyzer/factory/strategy_factory.py:42-51 | the loop adds the 15 long put entries |
| Factory.AddShortCalls | src/option_analyzer/factory/strategy_factory.py:54-63 | the loop adds the 15 short call entries |
| Factory.AddShortPuts | src/option_analyzer/factory/strategy_factory.py:66-75 | the loop adds the 15 short put entries |
| Factory.AddSpreads | src/option_analyzer/factory/strategy_factory.py:88-98 | the loop adds the 24 spread entries |
| Factory.CodeInjective | src/option_analyzer/factory/strategy_factory.py:31-89 | no two entries share a code |
| Factory.CatalogKeys | src/option_analyzer/factory/strategy_factory.py:20-100 | a key is in the catalog exactly when it is some family's code |
| Factory.CatalogLookup | src/option_analyzer/factory/strategy_factory.py:20-100 | each code maps to its own entry, none overwritten |
| Factory.CatalogSize | src/option_analyzer/factory/strategy_factory.py:21 | the catalog has 84 entries |
| Factory.EntryFields | src/option_analyzer/factory/strategy_factory.py:25-98 | each entry's code, type, time frame cycling Near/Medium/Long, moneyness in groups of three, spread names |
| Factory.CatalogStrikes | src/option_analyzer/factory/strategy_factory.py:25-75 | short legs are struck as the long ones; the n-th call and put strikes are symmetric about the base price |
| Factory.CallStrikesAscend | src/option_analyzer/factory/strategy_factory.py:25-39 | along C1-C15 the strike never falls and rises between moneyness groups |
| Factory.SpreadEntryWords | src/option_analyzer/factory/strategy_factory.py:78-98 | which of Call, Put, Bull, Bear each spread name contains |
| Factory.CatalogSpreadKinds | src/option_analyzer/factory/strategy_factory.py:78-98 | S1-S6 use calls; S1-S3, S10-S12 are debits; S4-S6, S10-S12 are bear layouts; S13-S24 fall to the default |
| Factory.CatalogSpreadStrikes | src/option_analyzer/factory/strategy_factory.py:78-98 | bear spreads buy the higher strike, the others the lower |
| Factory.CatalogCallSpreadsMirror | src/option_analyzer/factory/strategy_factory.py:78-98 | S4-S6 pay the payoff of S1-S3 negated |
| Factory.CatalogPutSpreadsMirror | src/option_analyzer/factory/strategy_factory.py:78-98 | S7-S9 pay the payoff of S10-S12 negated |
| Factory.CatalogDefaultSpreadsLose | src/option_analyzer/factory/strategy_factory.py:83-85 | calendar, ratio, back-ratio and butterfly spreads never recover their cost |
| Factory.StrategyFactory.CreateStrategy | src/option_analyzer/factory/strategy_factory.py:102-124 | None for an unknown code or type; otherwise a set-up strategy of the stored type on the stored config, an iron condor exactly for S19-S21 |
| Factory.StrategyFactory.ListStrategies | src/option_analyzer/factory/strategy_factory.py:126-128 | every code once, ascending |
| Factory.StrategyFactory.GetStrategyInfo | src/option_analyzer/factory/strategy_factory.py:130-132 | the stored config, or None for an unknown code |
| Factory.NewStrategyFactory | src/option_analyzer/factory/strategy_factory.py:17-18 | the factory holds Catalog() |
| Factory.CondorCodes | src/option_analyzer/factory/strategy_factory.py:118-122 | among spread codes, exactly S19-S21 are condor codes |
| Factory.CatalogDispatch | src/option_analyzer/factory/strategy_factory.py:102-124 | every catalog code builds a strategy of its family's class on its entry |
| Factory.UnknownCodes | src/option_analyzer/factory/strategy_factory.py:102-132 | a code that is no family's code builds nothing and has no info |
| Factory.ForeignHeadIsNoCode | src/option_analyzer/factory/strategy_factory.py:31-89 | a code not starting with C, P or S, such as "INVALID", is no family's code |
| Factory.PastEndIsNoCode | src/option_analyzer/factory/strategy_factory.py:31-89 | a code numbered past its family's last entry, such as "C16" or "S25", is no family's code |
| Factory.CatalogListing | src/option_analyzer/factory/strategy_factory.py:126-128 | the listing has 84 codes and contains every family code |
| Factory.CatalogInfo | src/option_analyzer/factory/strategy_factory.py:130-132 | the info for a catalog code is its entry |
| DeltaCalculator.CallDelta | delta_calculator.py:8-16 | at expiry 1 above the strike and 0 otherwise; before it, defined exactly on the domain; in [0,1] |
| DeltaCalculator.PutDelta | delta_calculator.py:18-21 | fails exactly where the call delta does; call minus put delta is 1; in [-1,0] |
| DeltaCalculator.LegDelta | delta_calculator.py:27-37 | the call delta when the type lower-cases to "call", the put delta for anything else |
| DeltaCalculator.Neutralise | delta_calculator.py:46-52 | 0 inside the guard; otherwise the quantity that zeroes the combined exposure |
| DeltaCalculator.HedgeQuantity | delta_calculator.py:23-54 | defined when both deltas are; the leveraged leg's error first; the neutralising quantity for the leveraged exposure |
| DeltaCalculator.DeltaDefinedWherePriced | delta_calculator.py:8-21 | deltas are defined exactly where the kernel prices |
| DeltaCalculator.CallDeltaMonotone | delta_calculator.py:8-16 | the call delta is non-decreasing in the spot |
| DeltaCalculator.PutDeltaMonotone | delta_calculator.py:18-21 | the put delta is non-decreasing in the spot |
| DeltaCalculator.NeutraliseUnique | delta_calculator.py:46-52 | away from the guard, the hedge is the only delta-neutral quantity |
| DeltaCalculator.NeutraliseLinear | delta_calculator.py:44-52 | k times the exposure takes k times the quantity |
| DeltaCalculator.NeutraliseSign | delta_calculator.py:44-52 | a short exposure against a non-negative delta gives a non-negative hedge, positive when both are non-zero |
| DeltaCalculator.HedgeLinearInQuantity | delta_calculator.py:23-54 | the hedge scales linearly with the leveraged quantity |
| DeltaCalculator.ShortCallsHedgedByBuyingCalls | delta_calculator.py:23-54 | short leveraged calls hedged with calls buy them: non-negative, positive once the leveraged delta is |

## Left out

- Floating point: prices, multipliers and the 1e-10 guard are exact reals. Rounding, overflow, NaN and infinities are not modelled.
- `norm.cdf`, `math.exp`, `math.log` and `math.sqrt` are not computed. Proofs assume only the properties in `Analytic.Sound`, so numeric reference values (a price near 4.615, a delta near 0.569) cannot be stated.
- numpy arrays are sequences of reals, and `np.maximum` is taken element by element. A result that is a list or an array is the same sequence.
- The `strike_price` string properties of the spread and the iron condor (`f"{...:.0f}/..."`) are not part of this model. They only format numbers for display.
- `OptionStrategy.calculate_greeks` is a stub returning zeros for every Greek, and is left out.
- The `calculator` field and object identity are not modelled. `create_strategy` returns a fresh value, and the default `base_price = 100.0` is passed explicitly.
- Text.Lower lower-cases only ASCII letters, where Python's `str.lower` covers all of Unicode. Every type string in the catalog is ASCII.
- IronCondor.InitialCost: does not state that the credit is positive. That needs more of the normal distribution than `Analytic.Sound` assumes.
- DeltaCalculator.CallDeltaMonotone: states monotonicity only for a positive strike and volatility. For other inputs the closed form's sign conventions differ.
- The command-line interface, plotting, report generation, demos and setup scripts are not part of this model. The same goes for `hedge_calculator_cli.py` and its use of the current date.
