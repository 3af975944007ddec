/** An ordered collection of option legs (order_options.py): per-leg and
    total prices, the summed payoff curve over a sampled domain and the
    breakevens found on it. */
module Orders {
  import opened Results
  import opened Vanilla
  import opened BreakevenScan

  predicate AllValid(legs: seq<Leg>)
  {
    forall i :: 0 <= i < |legs| ==> legs[i].IsValid()
  }

  /** The position of the first leg whose direction or type is not recognised. */
  function FirstInvalid(legs: seq<Leg>): (k: nat)
    requires !AllValid(legs)
    ensures k < |legs| && !legs[k].IsValid() && AllValid(legs[..k])
  {
    if !legs[0].IsValid() then 0
    else
      var k := FirstInvalid(legs[1..]);
      assert legs[..k + 1] == [legs[0]] + legs[1..][..k];
      k + 1
  }

  /** What `calculate_prices` returns: one price per leg, in leg order, or
      the exception of the first leg that cannot be priced. */
  function Prices(legs: seq<Leg>): (r: Result<seq<real>>)
    ensures r.Ok? <==> AllValid(legs)
    ensures r.Ok? ==> |r.value| == |legs|
    ensures r.Ok? ==> forall i :: 0 <= i < |legs| ==> legs[i].CalculatePrice() == Ok(r.value[i])
    ensures r.Err? ==> legs[FirstInvalid(legs)].CalculatePrice() == Err(r.error)
  {
    if legs == [] then Ok([])
    else
      match legs[0].CalculatePrice()
      case Err(e) => Err(e)
      case Ok(p) =>
        match Prices(legs[1..])
        case Err(e) => Err(e)
        case Ok(ps) => Ok([p] + ps)
  }

  /** The running total `total += price`, from the first element on. */
  function Sum(xs: seq<real>): real
  {
    if xs == [] then 0.0 else Sum(xs[..|xs| - 1]) + xs[|xs| - 1]
  }

  /** What `total_prices` returns: the sum of the leg prices. */
  function Total(legs: seq<Leg>): Result<real>
  {
    match Prices(legs)
    case Err(e) => Err(e)
    case Ok(ps) => Ok(Sum(ps))
  }

  /** The combined payoff of all legs at one underlying price. */
  function SumPayoffs(legs: seq<Leg>, x: real): (r: Result<real>)
    ensures r.Ok? <==> AllValid(legs)
    ensures r.Err? ==> r.error == UnboundPayoff
  {
    if legs == [] then Ok(0.0)
    else AddResults(legs[0].CalculatePayoff(x), SumPayoffs(legs[1..], x))
  }

  /** One payoff curve per leg, summed sample by sample
      (`np.sum(all_payoffs, axis=0)`). */
  function TotalCurve(legs: seq<Leg>, domain: seq<real>): (r: Result<seq<real>>)
    ensures r.Ok? <==> |domain| == 0 || AllValid(legs)
    ensures r.Err? ==> r.error == UnboundPayoff
    ensures r.Ok? ==> |r.value| == |domain|
    ensures r.Ok? ==> forall i :: 0 <= i < |domain| ==> SumPayoffs(legs, domain[i]) == Ok(r.value[i])
  {
    if legs == [] then Ok(seq(|domain|, _ => 0.0))
    else
      match legs[0].PayoffCurve(domain)
      case Err(e) => Err(e)
      case Ok(c) =>
        match TotalCurve(legs[1..], domain)
        case Err(e) => Err(e)
        case Ok(t) => Ok(seq(|domain|, i requires 0 <= i < |domain| => c[i] + t[i]))
  }

  function MinStrike(legs: seq<Leg>): (k: real)
    requires |legs| > 0
    ensures forall i :: 0 <= i < |legs| ==> k <= legs[i].strike
    ensures exists i :: 0 <= i < |legs| && k == legs[i].strike
  {
    if |legs| == 1 then legs[0].strike
    else
      var rest := MinStrike(legs[1..]);
      assert forall i :: 1 <= i < |legs| ==> legs[i] == legs[1..][i - 1];
      if legs[0].strike <= rest then legs[0].strike else rest
  }

  function MaxStrike(legs: seq<Leg>): (k: real)
    requires |legs| > 0
    ensures forall i :: 0 <= i < |legs| ==> legs[i].strike <= k
    ensures exists i :: 0 <= i < |legs| && k == legs[i].strike
  {
    if |legs| == 1 then legs[0].strike
    else
      var rest := MaxStrike(legs[1..]);
      assert forall i :: 1 <= i < |legs| ==> legs[i] == legs[1..][i - 1];
      if legs[0].strike >= rest then legs[0].strike else rest
  }

  /** The plotting range: from 0.6 times the smallest strike to 1.3 times
      the largest; `min` of no strikes raises. */
  function StrikeRange(legs: seq<Leg>): (r: Result<(real, real)>)
    ensures r.Ok? <==> |legs| > 0
    ensures r.Err? ==> r.error == EmptyStrikeList
    ensures r.Ok? ==> forall i :: 0 <= i < |legs| ==> r.value.0 <= 0.6 * legs[i].strike && 1.3 * legs[i].strike <= r.value.1
    ensures r.Ok? ==> exists i :: 0 <= i < |legs| && r.value.0 == 0.6 * legs[i].strike
    ensures r.Ok? ==> exists i :: 0 <= i < |legs| && r.value.1 == 1.3 * legs[i].strike
  {
    if |legs| == 0 then Err(EmptyStrikeList)
    else Ok((0.6 * MinStrike(legs), 1.3 * MaxStrike(legs)))
  }

  /** What `plot` computes over a given domain: the strike range, then the
      summed payoff at every sample, then the breakevens of that curve. */
  function DiagramOf(legs: seq<Leg>, domain: seq<real>): (r: Result<Diagram>)
    ensures r.Ok? <==> |legs| > 0 && (|domain| == 0 || AllValid(legs))
    ensures |legs| == 0 ==> r == Err(EmptyStrikeList)
    ensures r.Err? && |legs| > 0 ==> r.error == UnboundPayoff
    ensures r.Ok? ==> StrikeRange(legs) == Ok((r.value.lo, r.value.hi))
    ensures r.Ok? ==> |r.value.payoff| == |domain|
    ensures r.Ok? ==> forall i :: 0 <= i < |domain| ==> SumPayoffs(legs, domain[i]) == Ok(r.value.payoff[i])
    ensures r.Ok? ==> r.value.breakevens == Breakevens(domain, r.value.payoff)
  {
    match StrikeRange(legs)
    case Err(e) => Err(e)
    case Ok(range) =>
      match TotalCurve(legs, domain)
      case Err(e) => Err(e)
      case Ok(curve) => Ok(Diagram(range.0, range.1, curve, Breakevens(domain, curve)))
  }

  /** The `OrderOptions` object: the legs built from the constructor's
      argument tuples, in argument order. The legs are only appended to
      while the object is constructed, so they are fixed from then on. */
  class OrderOptions {
    const options: seq<Leg>

    constructor (args: seq<LegTuple>)
      ensures |options| == |args|
      ensures forall i :: 0 <= i < |args| ==> options[i] == Leg.FromTuple(args[i])
    {
      var legs: seq<Leg> := [];
      var i := 0;
      while i < |args|
        invariant 0 <= i <= |args|
        invariant |legs| == i
        invariant forall k :: 0 <= k < i ==> legs[k] == Leg.FromTuple(args[k])
      {
        legs := legs + [Leg.FromTuple(args[i])];
        i := i + 1;
      }
      options := legs;
    }

    /** `calculate_prices`: append each leg's price in turn; the first leg
        that cannot be priced raises. */
    method CalculatePrices() returns (r: Result<seq<real>>)
      ensures r == Prices(options)
    {
      var prices: seq<real> := [];
      var i := 0;
      while i < |options|
        invariant 0 <= i <= |options|
        invariant AllValid(options[..i])
        invariant |prices| == i
        invariant forall k :: 0 <= k < i ==> options[k].CalculatePrice() == Ok(prices[k])
      {
        var price := options[i].CalculatePrice();
        if price.Err? {
          var f := FirstInvalid(options);
          forall k | 0 <= k < i ensures options[k].IsValid() {
            assert options[..i][k] == options[k];
          }
          forall k | 0 <= k < f ensures options[k].IsValid() {
            assert options[..f][k] == options[k];
          }
          assert f == i;
          return Err(price.error);
        }
        prices := prices + [price.value];
        assert options[..i + 1] == options[..i] + [options[i]];
        i := i + 1;
      }
      assert options[..i] == options;
      r := Ok(prices);
      assert Prices(options).value == prices;
    }

    /** `total_prices`: add up the list `calculate_prices` returns. */
    method TotalPrices() returns (r: Result<real>)
      ensures r == Total(options)
    {
      var prices := CalculatePrices();
      if prices.Err? {
        return Err(prices.error);
      }
      var ps := prices.value;
      var total := 0.0;
      var i := 0;
      while i < |ps|
        invariant 0 <= i <= |ps|
        invariant total == Sum(ps[..i])
      {
        assert ps[..i + 1][..i] == ps[..i];
        total := total + ps[i];
        i := i + 1;
      }
      assert ps[..i] == ps;
      r := Ok(total);
    }

    /** `plot` without its drawing: the strike range, the summed payoff at
        each sample of `domain` and the breakevens found by the scan. */
    method Plot(domain: seq<real>) returns (r: Result<Diagram>)
      ensures r == DiagramOf(options, domain)
    {
      var range := StrikeRange(options);
      if range.Err? {
        return Err(range.error);
      }
      var curve := TotalCurve(options, domain);
      if curve.Err? {
        return Err(curve.error);
      }
      var breakevens := FindBreakevens(domain, curve.value);
      r := Ok(Diagram(range.value.0, range.value.1, curve.value, breakevens));
    }
  }

  lemma {:induction false} SumConcat(a: seq<real>, b: seq<real>)
    ensures Sum(a + b) == Sum(a) + Sum(b)
  {
    if b != [] {
      assert (a + b)[..|a + b| - 1] == a + b[..|b| - 1];
      SumConcat(a, b[..|b| - 1]);
    } else {
      assert a + b == a;
    }
  }

  lemma PricesConcat(a: seq<Leg>, b: seq<Leg>)
    requires AllValid(a + b)
    ensures AllValid(a) && AllValid(b)
    ensures Prices(a + b).value == Prices(a).value + Prices(b).value
  {
    assert forall i :: 0 <= i < |a| ==> (a + b)[i] == a[i];
    assert forall i :: 0 <= i < |b| ==> (a + b)[|a| + i] == b[i];
  }

  lemma SplitAt(b: seq<Leg>, k: nat)
    requires k < |b|
    ensures b == b[..k] + ([b[k]] + b[k + 1..])
  {
  }

  /** Prices of the legs other than leg k, summed. */
  lemma TotalWithout(b: seq<Leg>, k: nat)
    requires k < |b| && AllValid(b)
    ensures AllValid(b[..k] + b[k + 1..])
    ensures Sum(Prices(b).value) == Sum(Prices(b[..k] + b[k + 1..]).value) + b[k].CalculatePrice().value
  {
    SplitAt(b, k);
    PricesConcat(b[..k], [b[k]] + b[k + 1..]);
    PricesConcat([b[k]], b[k + 1..]);
    var c := b[..k] + b[k + 1..];
    forall i | 0 <= i < |c| ensures c[i].IsValid() {
      if i < k { assert c[i] == b[i]; }
      else { assert c[i] == b[i + 1]; }
    }
    PricesConcat(b[..k], b[k + 1..]);
    var p1, p2 := Prices(b[..k]).value, Prices(b[k + 1..]).value;
    var pk := b[k].CalculatePrice().value;
    assert Prices([b[k]]).value == [pk];
    SumConcat(p1, [pk] + p2);
    SumConcat([pk], p2);
    SumConcat(p1, p2);
    assert Sum([pk]) == Sum([]) + pk;
  }

  /** Legs with the same multiset are all valid or both not. */
  lemma AllValidPermutation(a: seq<Leg>, b: seq<Leg>)
    requires multiset(a) == multiset(b)
    ensures AllValid(a) <==> AllValid(b)
  {
    if AllValid(a) {
      forall i | 0 <= i < |b| ensures b[i].IsValid() {
        assert b[i] in multiset(a);
      }
    }
    if AllValid(b) {
      forall i | 0 <= i < |a| ensures a[i].IsValid() {
        assert a[i] in multiset(b);
      }
    }
  }

  lemma {:induction false} SumOfPricesPermutation(a: seq<Leg>, b: seq<Leg>)
    requires multiset(a) == multiset(b) && AllValid(a) && AllValid(b)
    ensures Sum(Prices(a).value) == Sum(Prices(b).value)
    decreases |a|
  {
    if a == [] {
      assert |b| == |multiset(b)| == 0;
    } else {
      var n := |a| - 1;
      var x := a[n];
      assert x in multiset(b);
      var k :| 0 <= k < |b| && b[k] == x;
      var a', b' := a[..n], b[..k] + b[k + 1..];
      assert a[..n] + a[n + 1..] == a';
      assert a == a' + [x];
      assert b == b[..k] + [x] + b[k + 1..];
      assert multiset(a) == multiset(a') + multiset{x};
      assert multiset(b) == multiset(b[..k]) + multiset{x} + multiset(b[k + 1..]);
      assert multiset(b') == multiset(b[..k]) + multiset(b[k + 1..]);
      assert multiset(a') == multiset(a) - multiset{x};
      assert multiset(b') == multiset(b) - multiset{x};
      TotalWithout(a, n);
      TotalWithout(b, k);
      SumOfPricesPermutation(a', b');
    }
  }

  /** The total does not depend on the order of the legs: a reordering
      prices exactly when the original does, to the same total. */
  lemma TotalPermutation(a: seq<Leg>, b: seq<Leg>)
    requires multiset(a) == multiset(b)
    ensures Total(a).Ok? <==> Total(b).Ok?
    ensures Total(a).Ok? ==> Total(a).value == Total(b).value
  {
    AllValidPermutation(a, b);
    if AllValid(a) {
      SumOfPricesPermutation(a, b);
    }
  }

  /** How much the total payoff changes over a step `d` from `a` when no
      strike is strictly inside [a, a + d], and the slope of that change. */
  function TotalShift(legs: seq<Leg>, a: real, d: real): real
  {
    if legs == [] then 0.0 else legs[0].Shift(a, d) + TotalShift(legs[1..], a, d)
  }

  function TotalSlope(legs: seq<Leg>, a: real): real
  {
    if legs == [] then 0.0 else legs[0].Slope(a) + TotalSlope(legs[1..], a)
  }

  predicate NoStrikeInside(legs: seq<Leg>, a: real, b: real)
  {
    forall i :: 0 <= i < |legs| ==> !(a < legs[i].strike < b)
  }

  lemma Distribute(s0: real, s1: real, d: real)
    ensures (s0 + s1) * d == s0 * d + s1 * d
  {
  }

  lemma {:induction false} TotalShiftIsSlopeTimesStep(legs: seq<Leg>, a: real, d: real)
    ensures TotalShift(legs, a, d) == TotalSlope(legs, a) * d
  {
    if legs != [] {
      ShiftIsSlopeTimesStep(legs[0], a, d);
      TotalShiftIsSlopeTimesStep(legs[1..], a, d);
      Distribute(legs[0].Slope(a), TotalSlope(legs[1..], a), d);
    }
  }

  lemma SumPayoffsCons(legs: seq<Leg>, x: real)
    requires legs != [] && AllValid(legs)
    ensures AllValid(legs[1..])
    ensures SumPayoffs(legs, x).value == legs[0].CalculatePayoff(x).value + SumPayoffs(legs[1..], x).value
  {
    assert forall i :: 0 <= i < |legs| - 1 ==> legs[1..][i] == legs[i + 1];
  }

  /** Between two points with no strike strictly between them the total
      payoff moves by `TotalShift`. */
  lemma {:induction false} SumPayoffsAffine(legs: seq<Leg>, a: real, b: real, x: real)
    requires AllValid(legs) && a <= x <= b && NoStrikeInside(legs, a, b)
    ensures SumPayoffs(legs, x).value == SumPayoffs(legs, a).value + TotalShift(legs, a, x - a)
  {
    if legs != [] {
      var rest := legs[1..];
      SumPayoffsCons(legs, x);
      SumPayoffsCons(legs, a);
      assert NoStrikeInside(rest, a, b) by {
        assert forall i :: 0 <= i < |rest| ==> rest[i] == legs[i + 1];
      }
      PayoffAffine(legs[0], a, b, x);
      SumPayoffsAffine(rest, a, b, x);
    }
  }

  /** Where a straight line of slope s through (x1, y1) and (x2, y2) meets
      its chord's zero, the line itself is zero. */
  lemma ChordZero(x1: real, x2: real, y1: real, y2: real, s: real, t2: real, b: real, tb: real)
    requires x1 < x2
    requires y2 == y1 + t2 && t2 == s * (x2 - x1)
    requires tb == s * (b - x1)
    requires OnChord(x1, x2, y1, y2, b)
    ensures y1 + tb == 0.0
  {
    var u, w := b - x1, x2 - x1;
    assert u * (s * w) == -y1 * w;
    assert (u * s + y1) * w == u * (s * w) + y1 * w;
  }

  /** The same, with the line given by the legs' combined change of payoff
      from x1. */
  lemma ShiftChordZero(legs: seq<Leg>, x1: real, x2: real, y1: real, y2: real, b: real)
    requires x1 < x2
    requires y2 == y1 + TotalShift(legs, x1, x2 - x1)
    requires OnChord(x1, x2, y1, y2, b)
    ensures y1 + TotalShift(legs, x1, b - x1) == 0.0
  {
    TotalShiftIsSlopeTimesStep(legs, x1, x2 - x1);
    TotalShiftIsSlopeTimesStep(legs, x1, b - x1);
    ChordZero(x1, x2, y1, y2, TotalSlope(legs, x1), TotalShift(legs, x1, x2 - x1), b, TotalShift(legs, x1, b - x1));
  }

  /** A point on the chord's zero between two points with no strike strictly
      between them is a zero of the total payoff. */
  lemma ZeroOnStraightStretch(legs: seq<Leg>, x1: real, x2: real, y1: real, y2: real, b: real)
    requires AllValid(legs) && x1 < b < x2 && NoStrikeInside(legs, x1, x2)
    requires SumPayoffs(legs, x1) == Ok(y1) && SumPayoffs(legs, x2) == Ok(y2)
    requires OnChord(x1, x2, y1, y2, b)
    ensures SumPayoffs(legs, b) == Ok(0.0)
  {
    SumPayoffsAffine(legs, x1, x2, x2);
    SumPayoffsAffine(legs, x1, x2, b);
    ShiftChordZero(legs, x1, x2, y1, y2, b);
  }

  /** When no strike lies strictly inside the sample interval that produced
      a breakeven, the total payoff is a straight line there and the
      breakeven is an exact zero of the strategy's payoff, not only of the
      chord. */
  lemma BreakevenIsExactZero(legs: seq<Leg>, domain: seq<real>, j: nat)
    requires AllValid(legs) && StrictlyIncreasing(domain)
    requires j < |Breakevens(domain, TotalCurve(legs, domain).value)|
    requires var curve := TotalCurve(legs, domain).value;
      var i := CrossingIndices(curve, Pairs(curve))[j];
      NoStrikeInside(legs, domain[i], domain[i + 1])
    ensures SumPayoffs(legs, Breakevens(domain, TotalCurve(legs, domain).value)[j]) == Ok(0.0)
  {
    var curve := TotalCurve(legs, domain).value;
    var i := CrossingIndices(curve, Pairs(curve))[j];
    BreakevenBracketed(domain, curve, j);
    BreakevenOnChord(domain, curve, j);
    ZeroOnStraightStretch(legs, domain[i], domain[i + 1], curve[i], curve[i + 1], Breakevens(domain, curve)[j]);
  }

  /** A two-leg order totals leg 1's price plus leg 2's, failing exactly as
      that sum fails. */
  lemma TwoLegTotal(l1: Leg, l2: Leg)
    ensures Total([l1, l2]) == AddResults(l1.CalculatePrice(), l2.CalculatePrice())
  {
    var legs := [l1, l2];
    var r := Prices(legs);
    if r.Ok? {
      assert legs[0].CalculatePrice() == Ok(r.value[0]);
      assert legs[1].CalculatePrice() == Ok(r.value[1]);
      var ps := r.value;
      assert Sum(ps[..1]) == ps[0] by {
        assert ps[..1][..0] == [];
      }
      assert Sum(ps) == ps[0] + ps[1] by {
        assert ps[..|ps| - 1] == ps[..1];
      }
    } else {
      var f := FirstInvalid(legs);
      assert f == 0 || f == 1;
    }
  }

  /** The strike range of a two-leg order. */
  lemma TwoLegStrikeRange(l1: Leg, l2: Leg)
    ensures StrikeRange([l1, l2]) == Ok((0.6 * Min(l1.strike, l2.strike), 1.3 * Max(l1.strike, l2.strike)))
  {
    var legs := [l1, l2];
    assert legs[1..] == [l2];
    assert MinStrike(legs) == Min(l1.strike, l2.strike);
    assert MaxStrike(legs) == Max(l1.strike, l2.strike);
  }

  /** The example legs listed at the end of the script (spot 4000): prices
      -150, 80, 380 and -120, total 190. */
  lemma ExampleOrder()
    ensures Prices([Leg(4000.0, 3600.0, 150.0, "long", "put"), Leg(4000.0, 3800.0, 120.0, "long", "call"),
                    Leg(4000.0, 3500.0, 120.0, "long", "call"), Leg(4000.0, 3700.0, 120.0, "long", "put")])
            == Ok([-150.0, 80.0, 380.0, -120.0])
    ensures Total([Leg(4000.0, 3600.0, 150.0, "long", "put"), Leg(4000.0, 3800.0, 120.0, "long", "call"),
                   Leg(4000.0, 3500.0, 120.0, "long", "call"), Leg(4000.0, 3700.0, 120.0, "long", "put")])
            == Ok(190.0)
  {
    var legs := [Leg(4000.0, 3600.0, 150.0, "long", "put"), Leg(4000.0, 3800.0, 120.0, "long", "call"),
                 Leg(4000.0, 3500.0, 120.0, "long", "call"), Leg(4000.0, 3700.0, 120.0, "long", "put")];
    var ps := [-150.0, 80.0, 380.0, -120.0];
    assert Prices(legs) == Ok(ps) by {
      assert Prices(legs).value == ps;
    }
    assert Sum(ps) == 190.0 by {
      assert Sum([-150.0]) == -150.0 by { assert [-150.0][..0] == []; }
      assert Sum([-150.0, 80.0]) == -70.0 by { assert [-150.0, 80.0][..1] == [-150.0]; }
      assert Sum([-150.0, 80.0, 380.0]) == 310.0 by { assert [-150.0, 80.0, 380.0][..2] == [-150.0, 80.0]; }
      assert ps[..3] == [-150.0, 80.0, 380.0];
    }
  }
}
