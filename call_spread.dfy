/** A two-leg call spread (call_spread.py): its price, and the sampling
    range its plotting stub computes. */
module CallSpreads {
  import opened Results
  import opened Vanilla
  import Orders

  /** The two legs built, field for field, from the constructor's tuples. */
  datatype CallSpread = CallSpread(leg1: Leg, leg2: Leg)
  {
    /** `CallSpread(option1, option2)`: each tuple is unpacked as
        (S, K, P, LorS, option_type) into its own leg. */
    static function New(o1: LegTuple, o2: LegTuple): (s: CallSpread)
      ensures s.leg1.spot == o1.0 && s.leg1.strike == o1.1 && s.leg1.premium == o1.2
      ensures s.leg1.direction == o1.3 && s.leg1.optionType == o1.4
      ensures s.leg2.spot == o2.0 && s.leg2.strike == o2.1 && s.leg2.premium == o2.2
      ensures s.leg2.direction == o2.3 && s.leg2.optionType == o2.4
    {
      CallSpread(Leg.FromTuple(o1), Leg.FromTuple(o2))
    }

    /** `calculate_price`: leg 1's price plus leg 2's. Leg 1 is priced
        first, so when both legs are bad its exception is the one raised. */
    function CalculatePrice(): (r: Result<real>)
      ensures r.Ok? <==> leg1.IsValid() && leg2.IsValid()
      ensures r.Ok? ==> r.value == leg1.CalculatePrice().value + leg2.CalculatePrice().value
      ensures !leg1.IsValid() ==> r == leg1.CalculatePrice()
      ensures leg1.IsValid() && !leg2.IsValid() ==> r == leg2.CalculatePrice()
    {
      AddResults(leg1.CalculatePrice(), leg2.CalculatePrice())
    }

    /** The `linspace` endpoints `plot_call_spread` builds (and then
        discards): 0.6 times the smaller strike to 1.3 times the larger. */
    function SamplingRange(): (r: (real, real))
      ensures r.0 <= 0.6 * leg1.strike && r.0 <= 0.6 * leg2.strike
      ensures r.0 == 0.6 * leg1.strike || r.0 == 0.6 * leg2.strike
      ensures 1.3 * leg1.strike <= r.1 && 1.3 * leg2.strike <= r.1
      ensures r.1 == 1.3 * leg1.strike || r.1 == 1.3 * leg2.strike
    {
      (0.6 * Min(leg1.strike, leg2.strike), 1.3 * Max(leg1.strike, leg2.strike))
    }

    /** The spread with its legs in the other order. */
    function Swapped(): (s: CallSpread)
      ensures s.leg1 == leg2 && s.leg2 == leg1
    {
      CallSpread(leg2, leg1)
    }
  }

  /** Swapping the two legs does not change whether the spread can be
      priced, nor its price. (When both legs are bad, the exception raised
      is the new first leg's, so it may differ.) */
  lemma SwapSymmetric(s: CallSpread)
    ensures s.Swapped().CalculatePrice().Ok? <==> s.CalculatePrice().Ok?
    ensures s.CalculatePrice().Ok? ==> s.Swapped().CalculatePrice().value == s.CalculatePrice().value
  {
  }

  /** An unrecognised direction or type on either leg makes the price fail
      with that leg's ValueError. */
  lemma InvalidLegRaises(s: CallSpread)
    requires !s.leg1.IsValid() || !s.leg2.IsValid()
    ensures s.CalculatePrice().Err?
    ensures s.CalculatePrice().error == InvalidOptionType || s.CalculatePrice().error == InvalidDirection
    ensures !s.leg1.ValidType() ==> s.CalculatePrice() == Err(InvalidOptionType)
    ensures s.leg1.ValidType() && !s.leg1.ValidDirection() ==> s.CalculatePrice() == Err(InvalidDirection)
  {
  }

  /** The spread's price is the N-leg total of the same two legs. */
  lemma PriceIsOrderTotal(s: CallSpread)
    ensures s.CalculatePrice() == Orders.Total([s.leg1, s.leg2])
  {
    Orders.TwoLegTotal(s.leg1, s.leg2);
  }

  /** The sampling range is the N-leg plot's strike range for the same two
      legs. */
  lemma SamplingRangeIsStrikeRange(s: CallSpread)
    ensures Orders.StrikeRange([s.leg1, s.leg2]) == Ok(s.SamplingRange())
  {
    Orders.TwoLegStrikeRange(s.leg1, s.leg2);
  }
}
