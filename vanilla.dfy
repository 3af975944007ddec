/** A single plain vanilla option position (plain_vanilla_options.py): its
    price at its own spot, its payoff at any underlying price and its
    closed-form breakeven. */
module Vanilla {
  import opened Results

  /** The positional arguments of the constructor: (S, K, P, LorS, option_type). */
  type LegTuple = (real, real, real, string, string)

  function Max(a: real, b: real): real { if a >= b then a else b }

  function Min(a: real, b: real): real { if a <= b then a else b }

  /** One option position. Direction and type are kept as the strings the
      caller supplied; they are only matched (exactly, case-sensitively)
      when a price or payoff is asked for. */
  datatype Leg = Leg(spot: real, strike: real, premium: real, direction: string, optionType: string)
  {
    /** `PlainVanillaOptions(*option_data)`: every field is stored unchanged. */
    static function FromTuple(t: LegTuple): (leg: Leg)
      ensures leg.spot == t.0 && leg.strike == t.1 && leg.premium == t.2
      ensures leg.direction == t.3 && leg.optionType == t.4
    {
      Leg(t.0, t.1, t.2, t.3, t.4)
    }

    predicate ValidType() { optionType == "call" || optionType == "put" }

    predicate ValidDirection() { direction == "long" || direction == "short" }

    /** The leg names one of the four formulas. */
    predicate IsValid() { ValidType() && ValidDirection() }

    /** `calculate_price`: the payoff formula evaluated at the leg's own spot.
        The type is inspected before the direction, so a leg with both
        fields wrong reports the type. */
    function CalculatePrice(): (r: Result<real>)
      ensures r.Ok? <==> IsValid()
      ensures !ValidType() ==> r == Err(InvalidOptionType)
      ensures ValidType() && !ValidDirection() ==> r == Err(InvalidDirection)
      ensures r.Ok? && direction == "long" ==> r.value >= -premium
      ensures r.Ok? && direction == "short" ==> r.value <= premium
    {
      if optionType == "call" then
        if direction == "long" then Ok(Max(0.0, spot - strike) - premium)
        else if direction == "short" then Ok(Min(0.0, strike - spot) + premium)
        else Err(InvalidDirection)
      else if optionType == "put" then
        if direction == "long" then Ok(Max(0.0, strike - spot) - premium)
        else if direction == "short" then Ok(Min(0.0, spot - strike) + premium)
        else Err(InvalidDirection)
      else
        Err(InvalidOptionType)
    }

    /** `calculate_payoff`: the four formulas at the underlying price `x`.
        It has no `else` branches, so an unrecognised direction or type
        leaves `payoff` unbound and the `return` fails. */
    function CalculatePayoff(x: real): (r: Result<real>)
      ensures r.Ok? <==> IsValid()
      ensures r.Err? ==> r.error == UnboundPayoff
      ensures r.Ok? && direction == "long" ==> r.value >= -premium
      ensures r.Ok? && direction == "short" ==> r.value <= premium
    {
      if optionType == "call" then
        if direction == "long" then Ok(Max(0.0, x - strike) - premium)
        else if direction == "short" then Ok(Min(0.0, strike - x) + premium)
        else Err(UnboundPayoff)
      else if optionType == "put" then
        if direction == "long" then Ok(Max(0.0, strike - x) - premium)
        else if direction == "short" then Ok(Min(0.0, x - strike) + premium)
        else Err(UnboundPayoff)
      else
        Err(UnboundPayoff)
    }

    /** The breakeven drawn by `plot_payoff`: K+P for a call, K-P for a put.
        The plot samples `calculate_payoff` over a non-empty range (its first
        sample is 0.5 S) before it reaches the breakeven, so an unrecognised
        type or direction fails there with the unbound local, and the type
        check after the breakeven branches is never reached. With a
        non-negative premium the payoff is exactly zero at the breakeven,
        whichever the direction. */
    function BreakevenPoint(): (r: Result<real>)
      ensures r.Ok? <==> IsValid()
      ensures r.Err? ==> r.error == UnboundPayoff
      ensures r.Ok? && optionType == "call" ==> r.value == strike + premium
      ensures r.Ok? && optionType == "put" ==> r.value == strike - premium
      ensures r.Ok? && premium >= 0.0 ==> CalculatePayoff(r.value) == Ok(0.0)
    {
      match CalculatePayoff(0.5 * spot)
      case Err(e) => Err(e)
      case Ok(_) =>
        // The payoff was computed, so the type is 'call' or 'put'.
        if optionType == "call" then Ok(strike + premium) else Ok(strike - premium)
    }

    /** The same leg with its direction replaced. */
    function WithDirection(d: string): (leg: Leg)
      ensures leg.direction == d
      ensures leg.spot == spot && leg.strike == strike && leg.premium == premium && leg.optionType == optionType
    {
      Leg(spot, strike, premium, d, optionType)
    }

    /** How much the payoff changes over a step `d >= 0` from `a` when the
        strike is not strictly inside [a, a + d]: the step lies right of the
        strike when `strike <= a`, left of it otherwise. */
    function Shift(a: real, d: real): real
    {
      if strike <= a then
        (if optionType == "call" then (if direction == "long" then d else -d) else 0.0)
      else
        (if optionType == "put" then (if direction == "long" then -d else d) else 0.0)
    }

    /** The slope that `Shift` applies: -1, 0 or 1. */
    function Slope(a: real): (s: real)
      ensures s == -1.0 || s == 0.0 || s == 1.0
    {
      Shift(a, 1.0)
    }

    /** `[leg.calculate_payoff(x) for x in domain]`: one payoff per sample.
        An empty domain never calls calculate_payoff, so it cannot fail. */
    function PayoffCurve(domain: seq<real>): (r: Result<seq<real>>)
      ensures r.Ok? <==> |domain| == 0 || IsValid()
      ensures r.Err? ==> r.error == UnboundPayoff
      ensures r.Ok? ==> |r.value| == |domain|
      ensures r.Ok? ==> forall i :: 0 <= i < |domain| ==> CalculatePayoff(domain[i]) == Ok(r.value[i])
    {
      if |domain| == 0 then Ok([])
      else
        match CalculatePayoff(domain[0])
        case Err(e) => Err(e)
        case Ok(y) =>
          match PayoffCurve(domain[1..])
          case Err(e) => Err(e)
          case Ok(ys) => Ok([y] + ys)
    }
  }

  /** The price is the payoff evaluated at the leg's own spot, and both fail
      on the same legs. */
  lemma PriceIsPayoffAtSpot(leg: Leg)
    ensures leg.CalculatePrice().Ok? <==> leg.CalculatePayoff(leg.spot).Ok?
    ensures leg.CalculatePrice().Ok? ==> leg.CalculatePrice() == leg.CalculatePayoff(leg.spot)
  {
  }

  /** A short leg's payoff is the exact negation of the matching long leg's. */
  lemma ShortNegatesLong(leg: Leg, x: real)
    requires leg.ValidType()
    ensures leg.WithDirection("short").CalculatePayoff(x).value == -leg.WithDirection("long").CalculatePayoff(x).value
  {
  }

  /** Long calls and short puts gain as the underlying rises; long puts and
      short calls lose. */
  lemma PayoffMonotone(leg: Leg, x: real, y: real)
    requires leg.IsValid() && x <= y
    ensures leg.optionType == "call" && leg.direction == "long" ==> leg.CalculatePayoff(x).value <= leg.CalculatePayoff(y).value
    ensures leg.optionType == "put" && leg.direction == "long" ==> leg.CalculatePayoff(x).value >= leg.CalculatePayoff(y).value
    ensures leg.optionType == "call" && leg.direction == "short" ==> leg.CalculatePayoff(x).value >= leg.CalculatePayoff(y).value
    ensures leg.optionType == "put" && leg.direction == "short" ==> leg.CalculatePayoff(x).value <= leg.CalculatePayoff(y).value
  {
  }

  /** Between two points with the strike nowhere strictly between them the
      payoff is a straight line: it moves by `Shift`, which is a fixed
      slope times the step. */
  lemma PayoffAffine(leg: Leg, a: real, b: real, x: real)
    requires leg.IsValid() && a <= x <= b
    requires !(a < leg.strike < b)
    ensures leg.CalculatePayoff(x).value == leg.CalculatePayoff(a).value + leg.Shift(a, x - a)
  {
  }

  lemma ShiftIsSlopeTimesStep(leg: Leg, a: real, d: real)
    ensures leg.Shift(a, d) == leg.Slope(a) * d
  {
  }

  /** The `__main__` example: S=7000, K=5300, P=90. A long call is worth
      1700 - 90 = 1610, reported as 80500 (x50) and 161000 (x1 lot x100 shares);
      a short call is worth -1610; the capitalised 'Long' the comment suggests
      is rejected. */
  lemma MainScenario()
    ensures Leg(7000.0, 5300.0, 90.0, "long", "call").CalculatePrice() == Ok(1610.0)
    ensures Leg(7000.0, 5300.0, 90.0, "long", "call").CalculatePrice().value * 50.0 == 80500.0
    ensures Leg(7000.0, 5300.0, 90.0, "long", "call").CalculatePrice().value * 1.0 * 100.0 == 161000.0
    ensures Leg(7000.0, 5300.0, 90.0, "short", "call").CalculatePrice() == Ok(-1610.0)
    ensures Leg(7000.0, 5300.0, 90.0, "long", "put").CalculatePrice() == Ok(-90.0)
    ensures Leg(7000.0, 5300.0, 90.0, "Long", "call").CalculatePrice() == Err(InvalidDirection)
    ensures Leg(7000.0, 5300.0, 90.0, "Long", "Call").CalculatePrice() == Err(InvalidOptionType)
    ensures Leg(7000.0, 5300.0, 90.0, "Long", "call").CalculatePayoff(7000.0) == Err(UnboundPayoff)
  {
  }
}
