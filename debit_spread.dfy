/** A two-leg debit spread (debit_spread.py): its price, and the summed
    payoff curve and breakevens its `plot` computes. */
module Debit {
  import opened Results
  import opened Vanilla
  import opened BreakevenScan
  import Orders

  /** The two legs built, field for field, from the constructor's tuples. */
  datatype DebitSpread = DebitSpread(leg1: Leg, leg2: Leg)
  {
    /** `DebitSpread(option1, option2)`: each tuple is unpacked as
        (S, K, P, LorS, option_type) into its own leg. */
    static function New(o1: LegTuple, o2: LegTuple): (s: DebitSpread)
      ensures s.leg1.spot == o1.0 && s.leg1.strike == o1.1 && s.leg1.premium == o1.2
      ensures s.leg1.direction == o1.3 && s.leg1.optionType == o1.4
      ensures s.leg2.spot == o2.0 && s.leg2.strike == o2.1 && s.leg2.premium == o2.2
      ensures s.leg2.direction == o2.3 && s.leg2.optionType == o2.4
    {
      DebitSpread(Leg.FromTuple(o1), Leg.FromTuple(o2))
    }

    /** `calculate_price`: leg 1's price plus leg 2's; leg 1 is priced
        first, so its exception is the one seen when both legs are bad. */
    function CalculatePrice(): (r: Result<real>)
      ensures r.Ok? <==> leg1.IsValid() && leg2.IsValid()
      ensures r.Ok? ==> r.value == leg1.CalculatePrice().value + leg2.CalculatePrice().value
      ensures !leg1.IsValid() ==> r == leg1.CalculatePrice()
      ensures leg1.IsValid() && !leg2.IsValid() ==> r == leg2.CalculatePrice()
    {
      AddResults(leg1.CalculatePrice(), leg2.CalculatePrice())
    }

    /** The `linspace` endpoints: 0.6 times the smaller strike and 1.3
        times the larger. Two strikes are always there, so it cannot fail. */
    function Range(): (r: (real, real))
      ensures r.0 <= 0.6 * leg1.strike && r.0 <= 0.6 * leg2.strike
      ensures r.0 == 0.6 * leg1.strike || r.0 == 0.6 * leg2.strike
      ensures 1.3 * leg1.strike <= r.1 && 1.3 * leg2.strike <= r.1
      ensures r.1 == 1.3 * leg1.strike || r.1 == 1.3 * leg2.strike
    {
      (0.6 * Min(leg1.strike, leg2.strike), 1.3 * Max(leg1.strike, leg2.strike))
    }

    /** `payoffs1`, then `payoffs2`, then their pointwise sum over `zip`. */
    function Curve(domain: seq<real>): (r: Result<seq<real>>)
      ensures r.Ok? <==> |domain| == 0 || (leg1.IsValid() && leg2.IsValid())
      ensures r.Err? ==> r.error == UnboundPayoff
      ensures r.Ok? ==> |r.value| == |domain|
      ensures r.Ok? ==> forall i :: 0 <= i < |domain| ==>
        r.value[i] == leg1.CalculatePayoff(domain[i]).value + leg2.CalculatePayoff(domain[i]).value
    {
      match leg1.PayoffCurve(domain)
      case Err(e) => Err(e)
      case Ok(payoffs1) =>
        match leg2.PayoffCurve(domain)
        case Err(e) => Err(e)
        case Ok(payoffs2) =>
          Ok(seq(|domain|, i requires 0 <= i < |domain| => payoffs1[i] + payoffs2[i]))
    }

    /** What `plot` computes over `domain`: the range, the summed payoff
        curve and the breakevens the scan finds on it. */
    function DiagramOf(domain: seq<real>): (r: Result<Diagram>)
      ensures r.Ok? <==> |domain| == 0 || (leg1.IsValid() && leg2.IsValid())
      ensures r.Ok? ==> (r.value.lo, r.value.hi) == Range()
      ensures r.Ok? ==> Curve(domain) == Ok(r.value.payoff)
      ensures r.Ok? ==> r.value.breakevens == Breakevens(domain, r.value.payoff)
    {
      match Curve(domain)
      case Err(e) => Err(e)
      case Ok(payoffs) => Ok(Diagram(Range().0, Range().1, payoffs, Breakevens(domain, payoffs)))
    }

    /** `plot` without its drawing: the curve, then the index scan that
        appends one interpolated breakeven per strict sign change. */
    method Plot(domain: seq<real>) returns (r: Result<Diagram>)
      ensures r == DiagramOf(domain)
    {
      var range := Range();
      var payoffs := Curve(domain);
      if payoffs.Err? {
        return Err(payoffs.error);
      }
      var breakevens := FindBreakevens(domain, payoffs.value);
      r := Ok(Diagram(range.0, range.1, payoffs.value, breakevens));
    }
  }

  /** The spread's price is the N-leg total of the same two legs. */
  lemma PriceIsOrderTotal(s: DebitSpread)
    ensures s.CalculatePrice() == Orders.Total([s.leg1, s.leg2])
  {
    Orders.TwoLegTotal(s.leg1, s.leg2);
  }

  /** The two-leg curve is the N-leg summed curve of the same legs. */
  lemma CurveIsOrderCurve(s: DebitSpread, domain: seq<real>)
    ensures s.Curve(domain) == Orders.TotalCurve([s.leg1, s.leg2], domain)
  {
    var legs := [s.leg1, s.leg2];
    assert legs[1..] == [s.leg2];
    assert legs[1..][1..] == [];
    var a := s.Curve(domain);
    var b := Orders.TotalCurve(legs, domain);
    assert a.Ok? <==> b.Ok?;
    if a.Ok? {
      forall i | 0 <= i < |domain|
        ensures a.value[i] == b.value[i]
      {
        assert Orders.SumPayoffs(legs, domain[i]) == Ok(b.value[i]);
        assert Orders.SumPayoffs([s.leg2], domain[i])
          == AddResults(s.leg2.CalculatePayoff(domain[i]), Orders.SumPayoffs([], domain[i]));
      }
      assert a.value == b.value;
    } else {
      assert a.error == b.error;
    }
  }

  /** Over the same domain the debit spread's plot and the N-leg plot of its
      two legs agree on the range, the curve and the breakevens. */
  lemma DiagramIsOrderDiagram(s: DebitSpread, domain: seq<real>)
    ensures s.DiagramOf(domain) == Orders.DiagramOf([s.leg1, s.leg2], domain)
  {
    var legs := [s.leg1, s.leg2];
    CurveIsOrderCurve(s, domain);
    Orders.TwoLegStrikeRange(s.leg1, s.leg2);
    var c := s.Curve(domain);
    if c.Ok? {
      var d := Diagram(s.Range().0, s.Range().1, c.value, Breakevens(domain, c.value));
      assert s.DiagramOf(domain) == Ok(d);
      assert Orders.DiagramOf(legs, domain) == Ok(d);
    } else {
      assert s.DiagramOf(domain) == Err(c.error);
      assert Orders.DiagramOf(legs, domain) == Err(c.error);
    }
  }

  /** The scan's guarantees for the spread over an increasing domain: each
      breakeven comes from a strictly sign-changing pair of samples and lies
      strictly between them, the breakevens ascend, and there are fewer of
      them than samples. */
  lemma BreakevensBracketed(s: DebitSpread, domain: seq<real>, d: Diagram, j: nat)
    requires StrictlyIncreasing(domain) && s.DiagramOf(domain) == Ok(d)
    requires j < |d.breakevens|
    ensures exists i :: 0 <= i < |domain| - 1 && SignChange(d.payoff, i) && domain[i] < d.breakevens[j] < domain[i + 1]
    ensures |d.breakevens| < |domain| && forall k :: j < k < |d.breakevens| ==> d.breakevens[j] < d.breakevens[k]
  {
    assert |d.payoff| == |domain| && d.breakevens == Breakevens(domain, d.payoff);
    BreakevenFacts(domain, d.payoff, j);
  }

  /** A put spread at spot 105: long put K=110 for 7, short put K=100 for 3.
      It is priced -2 + 3 = 1; over the samples 90, 100, 105, 110, 120 its
      payoff is 6, 6, 1, -4, -4, and the one sign change, between 105 and
      110, is placed at 106, where the payoff 110 - x - 4 is zero. */
  lemma PutSpreadScenario()
    ensures var s := DebitSpread(Leg(105.0, 110.0, 7.0, "long", "put"), Leg(105.0, 100.0, 3.0, "short", "put"));
      && s.CalculatePrice() == Ok(1.0)
      && s.DiagramOf([90.0, 100.0, 105.0, 110.0, 120.0])
         == Ok(Diagram(60.0, 143.0, [6.0, 6.0, 1.0, -4.0, -4.0], [106.0]))
  {
    var s := DebitSpread(Leg(105.0, 110.0, 7.0, "long", "put"), Leg(105.0, 100.0, 3.0, "short", "put"));
    var domain := [90.0, 100.0, 105.0, 110.0, 120.0];
    var ys := [6.0, 6.0, 1.0, -4.0, -4.0];
    assert s.Curve(domain).value == ys;
    assert CrossingIndices(ys, 4) == [2];
    assert Breakevens(domain, ys) == [106.0];
  }

  /** A call spread (long 95 call for 8, short 105 call for 3, spot 100)
      costs -3 + 3 = 0. Sampled at 90, 95, 100, 105, 110 it sums to
      -5, -5, 0, 5, 5: the curve reaches zero exactly at the sample 100,
      which the strict sign-change rule does not flag, so neither this plot
      nor the N-leg plot of the same legs reports a breakeven. */
  lemma ZeroAtSampleScenario()
    ensures var l1, l2 := Leg(100.0, 95.0, 8.0, "long", "call"), Leg(100.0, 105.0, 3.0, "short", "call");
      var domain := [90.0, 95.0, 100.0, 105.0, 110.0];
      && DebitSpread(l1, l2).CalculatePrice() == Ok(0.0)
      && DebitSpread(l1, l2).DiagramOf(domain) == Ok(Diagram(57.0, 136.5, [-5.0, -5.0, 0.0, 5.0, 5.0], []))
      && Orders.DiagramOf([l1, l2], domain) == Ok(Diagram(57.0, 136.5, [-5.0, -5.0, 0.0, 5.0, 5.0], []))
  {
    var s := DebitSpread(Leg(100.0, 95.0, 8.0, "long", "call"), Leg(100.0, 105.0, 3.0, "short", "call"));
    var domain := [90.0, 95.0, 100.0, 105.0, 110.0];
    var ys := [-5.0, -5.0, 0.0, 5.0, 5.0];
    assert s.Curve(domain).value == ys;
    assert CrossingIndices(ys, 4) == [];
    DiagramIsOrderDiagram(s, domain);
  }
}
