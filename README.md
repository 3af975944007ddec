# Options payoff model

A Dafny model of the pricing core of an options payoff-diagram tool
written in Python. The model covers:

- a single plain vanilla option leg (`PlainVanillaOptions`): its price at its own spot, its payoff at any underlying price and its closed-form breakeven;
- an ordered collection of legs (`OrderOptions`): per-leg prices, the total, the summed payoff curve over a sampled domain and the breakevens found on it by a sign-change scan;
- the two-leg strategies `DebitSpread`, `CallSpread` and `TwoOptions`, which add two leg prices (and, for the debit spread, also sample and scan a two-leg payoff curve).

Modules, one per source file, plus two shared ones:

- `Results`: the `Result` type. An operation either returns a value or raises. The exceptions the code raises are:
  - `ValueError` for an unknown option type;
  - `ValueError` for an unknown direction;
  - `UnboundLocalError` when `calculate_payoff` assigns nothing;
  - `ValueError` for `min` of no strikes.

  `AddResults` is Python's `a + b` of two calls that may raise. The left operand is evaluated first, so its exception wins.
- `Vanilla` (plain_vanilla_options.py): the datatype `Leg` keeps direction and type as the caller's strings. They are matched exactly and case-sensitively, as the code does. Its members are:
  - the four price and payoff formulas;
  - the breakeven K+P or K-P;
  - the payoff curve over a domain.
- `BreakevenScan`: the scan that `OrderOptions.plot` and `DebitSpread.plot` both run.
  - A pair of adjacent samples is flagged when the product of their payoffs is strictly negative.
  - The crossing is then placed by linear interpolation.
  - The loop is the method `FindBreakevens`, proved equal to the function `Breakevens`.
- `Orders` (order_options.py):
  - the class `OrderOptions`, whose `options` field holds the legs;
  - the loop methods `CalculatePrices`, `TotalPrices` and `Plot`, each proved equal to a function of the legs (`Prices`, `Total`, `DiagramOf`).
- `Debit` (debit_spread.py), `CallSpreads` (call_spread.py) and `TwoOrders` (two_order_options.py): the two-leg strategies. Each is proved to agree with the N-leg computation on the same two legs. two_order_options.py repeats the `CallSpread` class of call_spread.py (its lines 6-16 are the same constructor and `calculate_price`), so `CallSpreads.CallSpread` models both copies.

The plotted domain (`np.linspace(...)`) is a parameter: any sequence of
reals. The bracket and ordering facts about breakevens assume it is strictly
increasing, as `linspace` with a positive step is. The plot's own range
endpoints (0.6 times the smallest strike, 1.3 times the largest) are kept as
the `lo`/`hi` fields of the `Diagram` a plot returns.

Behaviour of the code that the model keeps:

- `calculate_payoff` has no `else` branches. An unknown direction or type therefore fails with an unbound local (`UnboundPayoff`), not a `ValueError`.
- A payoff that is exactly 0 at a sample flags neither neighbouring pair (`ExactZeroNotFlagged`). Take the call spread long 95 / short 105 sampled at 90, 95, 100, 105, 110: it sums to -5, -5, 0, 5, 5, so the code reports no breakeven at all (`Debit.ZeroAtSampleScenario`). Reading the curve by linear interpolation would put a crossing in (95, 100), but the strict test of order_options.py:57 reports none, and the model follows the code.
- A domain of a single sample (or none) is not an error in the code. The scan simply visits no pair and returns no breakevens, and the model does the same.

## Model

| member | source | states |
|---|---|---|
| Results.AddResults | call_spread.py:15 | the sum is defined exactly when both prices are; it is then their sum; otherwise the left operand's exception, else the right one's |
| Vanilla.Leg.FromTuple | plain_vanilla_options.py:5-10 | each of S, K, P, LorS, option_type is stored unchanged in its field |
| Vanilla.Leg.CalculatePrice | plain_vanilla_options.py:12-31 | a price exists iff type is exactly 'call'/'put' and direction exactly 'long'/'short'; a bad type raises the type error even when the direction is also bad; a bad direction on a good type raises the direction error; long price >= -P, short price <= P |
| Vanilla.Leg.CalculatePayoff | plain_vanilla_options.py:33-46 | a payoff exists iff type and direction are both recognised, otherwise the unbound-local failure; long payoff >= -P, short payoff <= P at every underlying price |
| Vanilla.Leg.BreakevenPoint | plain_vanilla_options.py:48-93 | defined iff the leg is valid, since the sampled payoffs of line 50 fail first (unbound local) for a bad type or direction; K+P for a call, K-P for a put; for P >= 0 the payoff there is exactly 0, long or short |
| Vanilla.Leg.PayoffCurve | order_options.py:39 | one payoff per sample, same length as the domain, entry i is the payoff at domain[i]; fails iff the domain is non-empty and the leg is invalid |
| Vanilla.PriceIsPayoffAtSpot | plain_vanilla_options.py:12-46 | calculate_price succeeds iff calculate_payoff(S) does, and then they are equal |
| Vanilla.ShortNegatesLong | plain_vanilla_options.py:34-44 | for a call or put, the short payoff at any x is the exact negation of the long payoff with the same K and P |
| Vanilla.PayoffMonotone | plain_vanilla_options.py:36-44 | long call and short put payoffs are nondecreasing in x; long put and short call payoffs are nonincreasing |
| Vanilla.PayoffAffine | plain_vanilla_options.py:33-46 | on an interval with the strike not strictly inside, the payoff changes by a fixed slope (-1, 0 or 1) times the step |
| Vanilla.MainScenario | plain_vanilla_options.py:101-114 | S=7000, K=5300, P=90: long call 1610, reported as 80500 and 161000; short call -1610; long put -90; 'Long' is rejected as a direction, 'Call' as a type |
| BreakevenScan.CrossingIndices | order_options.py:56-57 | the flagged pair indices are exactly the strict sign changes among the first n pairs, each once, ascending, at most n of them |
| BreakevenScan.InterpolateOnChord | order_options.py:58-61 | the interpolated point is where the straight line through the two samples is zero |
| BreakevenScan.InterpolateInBracket | order_options.py:58-61 | for x1 < x2 and a strict sign change the interpolant lies strictly between x1 and x2 |
| BreakevenScan.FindBreakevens | order_options.py:55-62 | the scan loop returns exactly the breakevens of the sampled curve, at most one per adjacent pair |
| BreakevenScan.BreakevenBracketed | order_options.py:56-62 | every breakeven comes from a strictly sign-changing pair and lies strictly inside that pair's interval |
| BreakevenScan.BreakevenOnChord | order_options.py:58-62 | the chord through the producing pair's samples is zero at the breakeven |
| BreakevenScan.BreakevensAscending | order_options.py:55-62 | over an increasing domain the breakevens are strictly ascending |
| BreakevenScan.BreakevenForEverySignChange | order_options.py:56-62 | a pair is flagged iff it strictly changes sign, and every such pair's interpolant is among the breakevens |
| BreakevenScan.ExactZeroNotFlagged | order_options.py:57 | a sample that is exactly zero flags neither the pair before nor the pair after it |
| Orders.Prices | order_options.py:11-15 | prices exist iff every leg is valid; then one per leg, in leg order, each the leg's calculate_price; otherwise the exception of the first invalid leg |
| Orders.SumPayoffs | order_options.py:38-43 | the summed payoff at x exists iff every leg is valid; the failure is the unbound local |
| Orders.TotalCurve | order_options.py:37-43 | the summed curve has the domain's length and entry i is the summed payoff at domain[i]; fails iff the domain is non-empty and some leg is invalid |
| Orders.MinStrike | order_options.py:28-31 | a strike of some leg, no larger than any leg's strike |
| Orders.MaxStrike | order_options.py:28-32 | a strike of some leg, no smaller than any leg's strike |
| Orders.StrikeRange | order_options.py:27-35 | fails (min of an empty list) iff there are no legs; otherwise lo is 0.6 times the smallest strike and hi 1.3 times the largest |
| Orders.DiagramOf | order_options.py:23-62 | plot succeeds iff there is a leg and (the domain is empty or all legs are valid); no legs raise the `min` ValueError, otherwise a failure is the unbound local; lo/hi are the strike range; its curve is the summed payoff sample by sample and its breakevens those of that curve |
| Orders.OrderOptions.constructor | order_options.py:6-9 | one leg per argument tuple, in argument order, built field for field |
| Orders.OrderOptions.CalculatePrices | order_options.py:11-15 | the loop returns Prices of the stored legs |
| Orders.OrderOptions.TotalPrices | order_options.py:17-21 | the accumulation loop returns the sum of calculate_prices, or its exception |
| Orders.OrderOptions.Plot | order_options.py:23-62 | range, summed curve and scan loop together return DiagramOf of the stored legs |
| Orders.TotalPermutation | order_options.py:17-21 | reordering the legs does not change whether the total exists, nor its value |
| Orders.SumPayoffsAffine | order_options.py:38-43 | between two points with no strike strictly inside, the summed payoff moves by the legs' combined slope times the step |
| Orders.BreakevenIsExactZero | order_options.py:55-62 | when no strike lies strictly inside the interval that produced a breakeven, the strategy's summed payoff is exactly zero at that breakeven |
| Orders.TwoLegTotal | order_options.py:17-21 | the total of two legs is leg 1's price plus leg 2's, with leg 1's exception first |
| Orders.TwoLegStrikeRange | order_options.py:27-35 | for two legs the range is 0.6 times the smaller strike to 1.3 times the larger |
| Orders.ExampleOrder | order_options.py:108-113 | the listed four legs at spot 4000 price -150, 80, 380, -120, total 190 |
| Debit.DebitSpread.New | debit_spread.py:6-12 | each tuple's five fields become its leg's fields unchanged |
| Debit.DebitSpread.CalculatePrice | debit_spread.py:14-16 | a price exists iff both legs are valid and is then the sum of the two leg prices; otherwise leg 1's exception, else leg 2's |
| Debit.DebitSpread.Range | debit_spread.py:20 | lo is 0.6 times the smaller of K1, K2 and hi 1.3 times the larger |
| Debit.DebitSpread.Curve | debit_spread.py:21-23 | same length as the domain; entry i is payoff1 at domain[i] plus payoff2 at domain[i]; fails iff the domain is non-empty and a leg is invalid |
| Debit.DebitSpread.DiagramOf | debit_spread.py:18-46 | plot succeeds iff the domain is empty or both legs are valid; range, zip-summed curve and the breakevens of that curve |
| Debit.DebitSpread.Plot | debit_spread.py:18-46 | the curve plus the scan loop return DiagramOf |
| Debit.PriceIsOrderTotal | debit_spread.py:14-16 | the spread's price is the N-leg total of the same two legs, exceptions included |
| Debit.CurveIsOrderCurve | debit_spread.py:21-23 | the zip-summed curve equals the N-leg summed curve of the same two legs |
| Debit.DiagramIsOrderDiagram | debit_spread.py:39-46 | the debit-spread plot and the N-leg plot of the same two legs agree on range, curve and breakevens |
| Debit.BreakevensBracketed | debit_spread.py:39-46 | over an increasing domain each breakeven comes from a strict sign change and lies strictly inside its pair; they ascend and are fewer than the samples |
| Debit.ZeroAtSampleScenario | order_options.py:55-62 | long 95 / short 105 call spread at spot 100: price 0; curve -5, -5, 0, 5, 5 over 90..110; no breakeven, in the two-leg plot and in the N-leg plot alike, because the zero falls on a sample |
| Debit.PutSpreadScenario | debit_spread.py:14-46 | long put 110 for 7 and short put 100 for 3 at spot 105: price 1; curve 6, 6, 1, -4, -4 over 90..120; one breakeven, 106 |
| CallSpreads.CallSpread.New | call_spread.py:6-12 | each tuple's five fields become its leg's fields unchanged |
| CallSpreads.CallSpread.CalculatePrice | call_spread.py:14-16 | a price exists iff both legs are valid and is then leg 1's price plus leg 2's; otherwise leg 1's exception, else leg 2's |
| CallSpreads.CallSpread.SamplingRange | call_spread.py:18-19 | lo is 0.6 times the smaller strike and hi 1.3 times the larger |
| CallSpreads.SwapSymmetric | call_spread.py:15 | swapping the legs keeps whether a price exists and its value |
| CallSpreads.InvalidLegRaises | call_spread.py:15 | a bad direction or type on either leg makes the price raise a ValueError, leg 1's when leg 1 is bad |
| CallSpreads.PriceIsOrderTotal | call_spread.py:14-16 | the spread's price is the N-leg total of the same two legs |
| CallSpreads.SamplingRangeIsStrikeRange | call_spread.py:19 | the sampling range is the N-leg plot range of the same two legs |
| TwoOrders.TwoOptions.New | two_order_options.py:72-78 | each tuple's five fields become its leg's fields unchanged |
| TwoOrders.TwoOptions.CallSpread | two_order_options.py:81-83 | a price exists iff both legs are valid and is then the sum of the leg prices; otherwise leg 1's exception, else leg 2's |
| TwoOrders.CallSpreadAgrees | two_order_options.py:81-83 | call_spread of two tuples equals CallSpread.calculate_price of the same tuples, exceptions included |
| TwoOrders.SwapSymmetric | two_order_options.py:82 | passing the tuples the other way round keeps whether a price exists and its value |
| TwoOrders.BullCallSpreadBounds | two_order_options.py:80-83 | a long K1 call plus a short K2 call, K1 <= K2, same spot, is priced between P2 - P1 and (K2 - K1) + P2 - P1 |
| TwoOrders.MainScenario | two_order_options.py:87-91 | (7000, 5100, 200, long, call) + (7000, 5300, 90, short, call): 1700 + (-1610) = 90, printed as 4500 |

## Left out

- Drawing: every matplotlib call is left out. This covers the payoff lines, axes, markers, labels, the market-price line and the profit/loss shading, whose labels are swapped relative to the colours. None of it affects a computed value.
- Sampling: `np.linspace` point generation is left out. The domain is a parameter, and only the range endpoints are kept.
- `PlainVanillaOptions.plot_payoff` is left out, apart from its breakeven formula and the failure of its sampled payoffs (`BreakevenPoint`). Its own sampling range (0.5 S to 1.1 S) is drawing only; the model evaluates its first sample, which is where an invalid leg fails. The `ValueError` of plain_vanilla_options.py:93 can therefore never be raised, and the model has no path for it.
- `CallSpread.plot_payoff` (call_spread.py:21-69, two_order_options.py:21-69) is left out. It reads `self.K`, `self.S`, `self.P` and `self.calculate_payoff`, which the class never defines, so any call fails.
- `CallSpread.plot_call_spread` in two_order_options.py:18-19 is left out. It builds the range 0.8 K1 to 1.2 K1 and discards it. The call_spread.py version is kept as `SamplingRange`.
- Interactive `__main__` blocks are left out: the `input()` loops and `print` calls. Their literal examples are kept as scenario lemmas.
- Floating point: prices and payoffs are exact reals. Rounding, and Python's mixing of `int` and `float`, are not modelled.
- Malformed constructor arguments: tuples of the wrong length or with non-numeric fields (a `TypeError` or unpacking error in Python) are excluded by the tuple type. `OrderOptions.__init__`'s unused `**kwargs` is dropped.
- Empty orders: `np.sum` over zero payoff curves cannot be reached, because `plot` fails at `min` of the empty strike list first. `TotalCurve` gives zeros there, and `DiagramOf` reports the `min` failure.
- Orders.TotalPermutation: it states that Ok-ness and the value are preserved, but not which exception is raised. With several invalid legs, a reordering can change which leg fails first.
- CallSpreads.SwapSymmetric: for the same reason, it leaves the exception out when both legs are invalid.
- TwoOrders.SwapSymmetric: for the same reason, it leaves the exception out when both legs are invalid.
