/** Two-leg positions (two_order_options.py). The file repeats the
    `CallSpread` class of call_spread.py, whose price is modelled by
    `CallSpreads.CallSpread`, and adds `TwoOptions`, whose `call_spread`
    prices the same sum. */
module TwoOrders {
  import opened Results
  import opened Vanilla
  import CallSpreads

  /** The two legs built, field for field, from the constructor's tuples. */
  datatype TwoOptions = TwoOptions(leg1: Leg, leg2: Leg)
  {
    /** `TwoOptions(option1, option2)`: each tuple is unpacked as
        (S, K, P, LorS, option_type) into its own leg. */
    static function New(o1: LegTuple, o2: LegTuple): (t: TwoOptions)
      ensures t.leg1.spot == o1.0 && t.leg1.strike == o1.1 && t.leg1.premium == o1.2
      ensures t.leg1.direction == o1.3 && t.leg1.optionType == o1.4
      ensures t.leg2.spot == o2.0 && t.leg2.strike == o2.1 && t.leg2.premium == o2.2
      ensures t.leg2.direction == o2.3 && t.leg2.optionType == o2.4
    {
      TwoOptions(Leg.FromTuple(o1), Leg.FromTuple(o2))
    }

    /** `call_spread`: leg 1's price plus leg 2's, meant for a long call
        and a short call but computed for any pair; leg 1 is priced first. */
    function CallSpread(): (r: Result<real>)
      ensures r.Ok? <==> leg1.IsValid() && leg2.IsValid()
      ensures r.Ok? ==> r.value == leg1.CalculatePrice().value + leg2.CalculatePrice().value
      ensures !leg1.IsValid() ==> r == leg1.CalculatePrice()
      ensures leg1.IsValid() && !leg2.IsValid() ==> r == leg2.CalculatePrice()
    {
      AddResults(leg1.CalculatePrice(), leg2.CalculatePrice())
    }
  }

  /** `TwoOptions(o1, o2).call_spread()` and `CallSpread(o1, o2).calculate_price()`
      agree on every pair of tuples, exceptions included. */
  lemma CallSpreadAgrees(o1: LegTuple, o2: LegTuple)
    ensures TwoOptions.New(o1, o2).CallSpread() == CallSpreads.CallSpread.New(o1, o2).CalculatePrice()
  {
    var t := TwoOptions.New(o1, o2);
    var c := CallSpreads.CallSpread.New(o1, o2);
    assert t.leg1 == c.leg1 && t.leg2 == c.leg2;
  }

  /** Passing the two tuples the other way round does not change whether the
      spread can be priced, nor its price. */
  lemma SwapSymmetric(o1: LegTuple, o2: LegTuple)
    ensures TwoOptions.New(o2, o1).CallSpread().Ok? <==> TwoOptions.New(o1, o2).CallSpread().Ok?
    ensures TwoOptions.New(o1, o2).CallSpread().Ok? ==>
      TwoOptions.New(o2, o1).CallSpread().value == TwoOptions.New(o1, o2).CallSpread().value
  {
    var t := TwoOptions.New(o1, o2);
    var u := TwoOptions.New(o2, o1);
    assert u.leg1 == t.leg2 && u.leg2 == t.leg1;
  }

  /** A bull call spread (long call at K1, short call at K2 >= K1, same
      spot) costs at least the premium difference P2 - P1 and at most that
      plus the strike width K2 - K1. */
  lemma BullCallSpreadBounds(spot: real, k1: real, p1: real, k2: real, p2: real)
    requires k1 <= k2
    ensures var r := TwoOptions.New((spot, k1, p1, "long", "call"), (spot, k2, p2, "short", "call")).CallSpread();
      && r.Ok?
      && p2 - p1 <= r.value <= (k2 - k1) + p2 - p1
  {
  }

  /** The `__main__` example: a long 5100 call for 200 and a short 5300 call
      for 90, spot 7000, price 1700 + (-1610) = 90, printed as 4500. */
  lemma MainScenario()
    ensures var t := TwoOptions.New((7000.0, 5100.0, 200.0, "long", "call"), (7000.0, 5300.0, 90.0, "short", "call"));
      && t.leg1.CalculatePrice() == Ok(1700.0)
      && t.leg2.CalculatePrice() == Ok(-1610.0)
      && t.CallSpread() == Ok(90.0)
      && t.CallSpread().value * 50.0 == 4500.0
  {
  }
}
