/** Breakeven detection on a sampled payoff curve, shared by
    `OrderOptions.plot` and `DebitSpread.plot`: adjacent samples whose
    payoffs strictly change sign bracket a crossing, placed by linear
    interpolation between the two samples. */
module BreakevenScan {

  /** What a plot computes: the range its samples are meant to span, the
      summed payoff at each sample and the breakevens found on it. */
  datatype Diagram = Diagram(lo: real, hi: real, payoff: seq<real>, breakevens: seq<real>)

  predicate StrictlyIncreasing(xs: seq<real>)
  {
    forall i, j :: 0 <= i < j < |xs| ==> xs[i] < xs[j]
  }

  /** How many adjacent pairs `range(len(ys) - 1)` visits. */
  function Pairs(ys: seq<real>): nat
  {
    if |ys| == 0 then 0 else |ys| - 1
  }

  /** The scan's test for pair i: the two payoffs have strictly opposite signs. */
  predicate SignChange(ys: seq<real>, i: nat)
    requires i + 1 < |ys|
  {
    ys[i] * ys[i + 1] < 0.0
  }

  lemma SignChangeDistinct(y1: real, y2: real)
    requires y1 * y2 < 0.0
    ensures y1 != y2
  {
  }

  /** `x1 - y1 * (x2 - x1) / (y2 - y1)`. */
  function Interpolate(x1: real, x2: real, y1: real, y2: real): real
    requires y1 != y2
  {
    x1 - y1 * (x2 - x1) / (y2 - y1)
  }

  /** b is where the straight line through (x1, y1) and (x2, y2) has
      height zero. */
  predicate OnChord(x1: real, x2: real, y1: real, y2: real, b: real)
  {
    (b - x1) * (y2 - y1) == -y1 * (x2 - x1)
  }

  /** The interpolated point lies on the straight line through (x1, y1) and
      (x2, y2), at height zero. */
  lemma InterpolateOnChord(x1: real, x2: real, y1: real, y2: real)
    requires y1 != y2
    ensures OnChord(x1, x2, y1, y2, Interpolate(x1, x2, y1, y2))
  {
    var d := y2 - y1;
    var q := y1 * (x2 - x1) / d;
    assert q * d == y1 * (x2 - x1);
    assert Interpolate(x1, x2, y1, y2) - x1 == -q;
  }

  // Small steps of real arithmetic, kept apart so that each goal stays
  // within what the solver's nonlinear reasoning decides.

  lemma Quotient(a: real, e: real)
    requires e != 0.0
    ensures (a / e) * e == a
  {
  }

  lemma BelowOne(f: real, a: real, e: real)
    requires e > 0.0 && f * e == a && a < e
    ensures f < 1.0
  {
  }

  lemma AboveZero(f: real, a: real, e: real)
    requires e > 0.0 && f * e == a && a > 0.0
    ensures f > 0.0
  {
  }

  lemma ScaleInside(t: real, w: real)
    requires 0.0 < t < 1.0 && w > 0.0
    ensures 0.0 < t * w < w
  {
  }

  lemma OppositeSigns(y1: real, y2: real)
    requires y1 * y2 < 0.0
    ensures (y1 < 0.0 && 0.0 < y2) || (y2 < 0.0 && 0.0 < y1)
  {
  }

  /** The interpolated point is x1 moved by the fraction -y1/(y2-y1) of the
      way to x2. */
  lemma InterpolateAsFraction(x1: real, x2: real, y1: real, y2: real)
    requires y1 != y2
    ensures Interpolate(x1, x2, y1, y2) == x1 + (-y1 / (y2 - y1)) * (x2 - x1)
  {
  }

  /** On a strict sign change that fraction lies strictly between 0 and 1. */
  lemma FractionInUnit(y1: real, y2: real)
    requires y1 * y2 < 0.0
    ensures y1 != y2 && 0.0 < -y1 / (y2 - y1) < 1.0
  {
    OppositeSigns(y1, y2);
    var d := y2 - y1;
    var t := -y1 / d;
    Quotient(-y1, d);
    if y1 < 0.0 {
      BelowOne(t, -y1, d);
      AboveZero(t, -y1, d);
    } else {
      assert t * (-d) == y1;
      BelowOne(t, y1, -d);
      AboveZero(t, y1, -d);
    }
  }

  /** With the samples in increasing order, a strict sign change puts the
      interpolated point strictly between them. */
  lemma InterpolateInBracket(x1: real, x2: real, y1: real, y2: real)
    requires x1 < x2 && y1 * y2 < 0.0
    ensures y1 != y2
    ensures x1 < Interpolate(x1, x2, y1, y2) < x2
  {
    FractionInUnit(y1, y2);
    InterpolateAsFraction(x1, x2, y1, y2);
    ScaleInside(-y1 / (y2 - y1), x2 - x1);
  }

  /** The indices i < n of the pairs the scan flags, in scan order: exactly
      the strict sign changes, each once, ascending. */
  function CrossingIndices(ys: seq<real>, n: nat): (r: seq<nat>)
    requires n <= Pairs(ys)
    ensures |r| <= n
    ensures forall j :: 0 <= j < |r| ==> r[j] < n && SignChange(ys, r[j])
    ensures forall j, k :: 0 <= j < k < |r| ==> r[j] < r[k]
    ensures forall i :: 0 <= i < n && SignChange(ys, i) ==> i in r
  {
    if n == 0 then []
    else CrossingIndices(ys, n - 1) + (if SignChange(ys, n - 1) then [n - 1] else [])
  }

  /** The breakeven for a flagged pair i. */
  function BreakevenAt(xs: seq<real>, ys: seq<real>, i: nat): real
    requires |xs| == |ys| && i + 1 < |ys| && SignChange(ys, i)
  {
    SignChangeDistinct(ys[i], ys[i + 1]);
    Interpolate(xs[i], xs[i + 1], ys[i], ys[i + 1])
  }

  /** The breakevens for a list of flagged pairs, in the same order. */
  function BreakevensAt(xs: seq<real>, ys: seq<real>, idx: seq<nat>): (r: seq<real>)
    requires |xs| == |ys|
    requires forall j :: 0 <= j < |idx| ==> idx[j] + 1 < |ys| && SignChange(ys, idx[j])
    ensures |r| == |idx|
  {
    seq(|idx|, j requires 0 <= j < |idx| => BreakevenAt(xs, ys, idx[j]))
  }

  /** All breakevens of the sampled curve (xs, ys). */
  function Breakevens(xs: seq<real>, ys: seq<real>): seq<real>
    requires |xs| == |ys|
  {
    BreakevensAt(xs, ys, CrossingIndices(ys, Pairs(ys)))
  }

  /** Flagging one more pair appends its breakeven. */
  lemma BreakevensAtSnoc(xs: seq<real>, ys: seq<real>, idx: seq<nat>, i: nat)
    requires |xs| == |ys| && i + 1 < |ys| && SignChange(ys, i)
    requires forall j :: 0 <= j < |idx| ==> idx[j] + 1 < |ys| && SignChange(ys, idx[j])
    ensures BreakevensAt(xs, ys, idx + [i]) == BreakevensAt(xs, ys, idx) + [BreakevenAt(xs, ys, i)]
  {
    var l, r := BreakevensAt(xs, ys, idx + [i]), BreakevensAt(xs, ys, idx) + [BreakevenAt(xs, ys, i)];
    forall j | 0 <= j < |l| ensures l[j] == r[j] {
      if j < |idx| {
        assert (idx + [i])[j] == idx[j];
      }
    }
  }

  /** One step of the scan: pair i extends the breakevens found on the
      pairs before it by its interpolant exactly when it strictly changes
      sign. */
  lemma ScanStep(xs: seq<real>, ys: seq<real>, i: nat)
    requires |xs| == |ys| && i + 1 < |ys|
    ensures SignChange(ys, i) ==> ys[i] != ys[i + 1]
    ensures SignChange(ys, i) ==>
      BreakevensAt(xs, ys, CrossingIndices(ys, i + 1))
        == BreakevensAt(xs, ys, CrossingIndices(ys, i)) + [Interpolate(xs[i], xs[i + 1], ys[i], ys[i + 1])]
    ensures !SignChange(ys, i) ==>
      BreakevensAt(xs, ys, CrossingIndices(ys, i + 1)) == BreakevensAt(xs, ys, CrossingIndices(ys, i))
  {
    if SignChange(ys, i) {
      SignChangeDistinct(ys[i], ys[i + 1]);
      BreakevensAtSnoc(xs, ys, CrossingIndices(ys, i), i);
    }
  }

  /** The scan loop of `plot`: walk the adjacent pairs in order and append
      the interpolated crossing of every pair whose payoffs strictly change
      sign. At most one breakeven per pair. */
  method FindBreakevens(xs: seq<real>, ys: seq<real>) returns (bs: seq<real>)
    requires |xs| == |ys|
    ensures bs == Breakevens(xs, ys)
    ensures |bs| <= Pairs(ys)
  {
    bs := [];
    var i := 0;
    while i < |ys| - 1
      invariant 0 <= i <= Pairs(ys)
      invariant bs == BreakevensAt(xs, ys, CrossingIndices(ys, i))
    {
      ScanStep(xs, ys, i);
      if ys[i] * ys[i + 1] < 0.0 {
        var breakeven := Interpolate(xs[i], xs[i + 1], ys[i], ys[i + 1]);
        bs := bs + [breakeven];
      }
      i := i + 1;
    }
  }

  /** The breakeven of one flagged pair lies strictly inside the pair's
      sample interval. */
  lemma BreakevenAtInBracket(xs: seq<real>, ys: seq<real>, i: nat)
    requires |xs| == |ys| && i + 1 < |ys| && SignChange(ys, i)
    requires xs[i] < xs[i + 1]
    ensures xs[i] < BreakevenAt(xs, ys, i) < xs[i + 1]
  {
    InterpolateInBracket(xs[i], xs[i + 1], ys[i], ys[i + 1]);
  }

  /** Each breakeven lies strictly inside the sample interval of the pair
      that produced it, and that pair strictly changes sign. */
  lemma BreakevenBracketed(xs: seq<real>, ys: seq<real>, j: nat)
    requires |xs| == |ys| && StrictlyIncreasing(xs)
    requires j < |Breakevens(xs, ys)|
    ensures var i := CrossingIndices(ys, Pairs(ys))[j];
      && i + 1 < |ys|
      && SignChange(ys, i)
      && Breakevens(xs, ys)[j] == BreakevenAt(xs, ys, i)
      && xs[i] < Breakevens(xs, ys)[j] < xs[i + 1]
  {
    var i := CrossingIndices(ys, Pairs(ys))[j];
    assert Breakevens(xs, ys)[j] == BreakevenAt(xs, ys, i);
    BreakevenAtInBracket(xs, ys, i);
  }

  /** The straight line through the two samples of the pair that produced a
      breakeven is zero at that breakeven. */
  lemma BreakevenOnChord(xs: seq<real>, ys: seq<real>, j: nat)
    requires |xs| == |ys|
    requires j < |Breakevens(xs, ys)|
    ensures var i := CrossingIndices(ys, Pairs(ys))[j];
      OnChord(xs[i], xs[i + 1], ys[i], ys[i + 1], Breakevens(xs, ys)[j])
  {
    var i := CrossingIndices(ys, Pairs(ys))[j];
    assert Breakevens(xs, ys)[j] == BreakevenAt(xs, ys, i);
    InterpolateOnChord(xs[i], xs[i + 1], ys[i], ys[i + 1]);
  }

  /** Over an increasing domain the breakevens come out strictly ascending. */
  lemma BreakevensAscending(xs: seq<real>, ys: seq<real>)
    requires |xs| == |ys| && StrictlyIncreasing(xs)
    ensures forall j, k :: 0 <= j < k < |Breakevens(xs, ys)| ==> Breakevens(xs, ys)[j] < Breakevens(xs, ys)[k]
  {
    var bs := Breakevens(xs, ys);
    var idx := CrossingIndices(ys, Pairs(ys));
    forall j, k | 0 <= j < k < |bs|
      ensures bs[j] < bs[k]
    {
      BreakevenBracketed(xs, ys, j);
      BreakevenBracketed(xs, ys, k);
      assert idx[j] + 1 <= idx[k];
      assert xs[idx[j] + 1] <= xs[idx[k]];
    }
  }

  /** The guarantees of the scan over an increasing domain, for the j-th
      breakeven: it comes from a strictly sign-changing pair and lies
      strictly inside it, the later ones are larger, and there are fewer
      breakevens than samples. */
  lemma BreakevenFacts(xs: seq<real>, ys: seq<real>, j: nat)
    requires |xs| == |ys| && StrictlyIncreasing(xs)
    requires j < |Breakevens(xs, ys)|
    ensures exists i :: 0 <= i < |xs| - 1 && SignChange(ys, i) && xs[i] < Breakevens(xs, ys)[j] < xs[i + 1]
    ensures |Breakevens(xs, ys)| < |xs|
    ensures forall k :: j < k < |Breakevens(xs, ys)| ==> Breakevens(xs, ys)[j] < Breakevens(xs, ys)[k]
  {
    BreakevenBracketed(xs, ys, j);
    BreakevensAscending(xs, ys);
  }

  /** Every strictly sign-changing pair yields a breakeven, and no other
      pair does. */
  lemma BreakevenForEverySignChange(xs: seq<real>, ys: seq<real>, i: nat)
    requires |xs| == |ys| && i + 1 < |ys|
    ensures SignChange(ys, i) <==> i in CrossingIndices(ys, Pairs(ys))
    ensures SignChange(ys, i) ==>
      exists j :: 0 <= j < |Breakevens(xs, ys)| && Breakevens(xs, ys)[j] == BreakevenAt(xs, ys, i)
  {
    var idx := CrossingIndices(ys, Pairs(ys));
    if SignChange(ys, i) {
      var j :| 0 <= j < |idx| && idx[j] == i;
      assert Breakevens(xs, ys)[j] == BreakevenAt(xs, ys, i);
    }
  }

  /** A sample that is exactly zero flags neither of its two pairs: a curve
      that touches or runs along zero there yields no breakeven unless some
      other pair strictly changes sign. */
  lemma ExactZeroNotFlagged(ys: seq<real>, i: nat)
    requires i < |ys| && ys[i] == 0.0
    ensures i + 1 < |ys| ==> i !in CrossingIndices(ys, Pairs(ys))
    ensures 0 < i ==> i - 1 !in CrossingIndices(ys, Pairs(ys))
  {
  }
}
