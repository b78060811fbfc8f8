/** Position sizing: a raw size from the mode, clipped by four caps and a minimum. */
module Sizing {
  import opened Domain

  datatype SizingMode =
    | FixedNotional(amount: real)
    | PercentOfEquity(pct: real)
    | CappedKelly(fraction: real, maxNotional: real)

  datatype SizingInput = SizingInput(
    mode: SizingMode,
    equity: real,
    fairValueProb: real,
    marketPrice: real,
    maxNotionalPerOrder: real,
    maxPositionPerMarket: real,
    currentPositionNotional: real,
    bookDepthUsdc: real)

  datatype ClipReason = MaxNotionalPerOrder | MaxPositionPerMarket | LiquidityLimit | EquityConstraint | MinimumSize

  datatype SizingOutput = SizingOutput(notional: real, rawNotional: real, clips: seq<ClipReason>)

  const MIN_NOTIONAL := 1.0
  const MAX_DEPTH_FRACTION := 0.25

  function KellyNotional(equity: real, p: real, m: real, fraction: real): real {
    if m <= 0.0 || m >= 1.0 then 0.0
    else
      var b := 1.0 / m - 1.0;
      if b <= 0.0 then 0.0
      else
        var kellyF := (p * b - (1.0 - p)) / b;
        if kellyF <= 0.0 then 0.0 else Max(equity * (kellyF * fraction), 0.0)
  }

  function RawSize(input: SizingInput): real {
    match input.mode
    case FixedNotional(amount) => amount
    case PercentOfEquity(pct) => input.equity * pct
    case CappedKelly(fraction, maxNotional) =>
      Min(KellyNotional(input.equity, input.fairValueProb, input.marketPrice, fraction), maxNotional)
  }

  // ----- The four caps ----------------------------------------------------------

  const ALL_CAPS: seq<ClipReason> := [MaxNotionalPerOrder, MaxPositionPerMarket, LiquidityLimit, EquityConstraint]

  function Cap(r: ClipReason, input: SizingInput): real {
    match r
    case MaxNotionalPerOrder => input.maxNotionalPerOrder
    case MaxPositionPerMarket => Max(input.maxPositionPerMarket - input.currentPositionNotional, 0.0)
    case LiquidityLimit => input.bookDepthUsdc * MAX_DEPTH_FRACTION
    case EquityConstraint => input.equity * 0.5
    case MinimumSize => 0.0
  }

  /** The least of the raw size and the first k caps. */
  function Capped(input: SizingInput, k: nat): (s: real)
    requires k <= |ALL_CAPS|
    ensures s <= RawSize(input)
    ensures forall i :: 0 <= i < k ==> s <= Cap(ALL_CAPS[i], input)
    ensures s == RawSize(input) || exists i :: 0 <= i < k && s == Cap(ALL_CAPS[i], input)
  {
    if k == 0 then RawSize(input) else Min(Capped(input, k - 1), Cap(ALL_CAPS[k - 1], input))
  }

  /** The caps among the first k that lowered the size, in order. */
  function ClipsUpTo(input: SizingInput, k: nat): (cs: seq<ClipReason>)
    requires k <= |ALL_CAPS|
    ensures cs == [] <==> Capped(input, k) == RawSize(input)
  {
    if k == 0 then []
    else ClipsUpTo(input, k - 1) + if Capped(input, k - 1) > Cap(ALL_CAPS[k - 1], input) then [ALL_CAPS[k - 1]] else []
  }

  /** The size is the minimum of the raw size and all caps, or nothing if that is
      below the minimum trade. */
  function Sized(input: SizingInput): SizingOutput {
    var capped := Capped(input, 4);
    SizingOutput(
      if capped < MIN_NOTIONAL then 0.0 else capped,
      RawSize(input),
      ClipsUpTo(input, 4) + if 0.0 < capped < MIN_NOTIONAL then [MinimumSize] else [])
  }

  /** The source's chain of clips computes exactly that. */
  method Compute(input: SizingInput) returns (r: SizingOutput)
    ensures r == Sized(input)
  {
    hide KellyNotional;
    var raw := RawSize(input);
    var size := raw;
    var clips: seq<ClipReason> := [];

    if size > input.maxNotionalPerOrder {
      size := input.maxNotionalPerOrder;
      clips := clips + [MaxNotionalPerOrder];
    }
    assert size == Capped(input, 1) && clips == ClipsUpTo(input, 1);

    var remaining := Max(input.maxPositionPerMarket - input.currentPositionNotional, 0.0);
    if size > remaining {
      size := remaining;
      clips := clips + [MaxPositionPerMarket];
    }
    assert size == Capped(input, 2) && clips == ClipsUpTo(input, 2);

    var liquidityLimit := input.bookDepthUsdc * MAX_DEPTH_FRACTION;
    if size > liquidityLimit {
      size := liquidityLimit;
      clips := clips + [LiquidityLimit];
    }
    assert size == Capped(input, 3) && clips == ClipsUpTo(input, 3);

    var equityLimit := input.equity * 0.5;
    if size > equityLimit {
      size := equityLimit;
      clips := clips + [EquityConstraint];
    }
    assert size == Capped(input, 4) && clips == ClipsUpTo(input, 4);

    if size < MIN_NOTIONAL {
      if size > 0.0 {
        clips := clips + [MinimumSize];
      }
      size := 0.0;
    }
    r := SizingOutput(size, raw, clips);
  }

  /** A size that is traded respects every cap and is worth trading. */
  lemma TradedSizeRespectsCaps(input: SizingInput)
    ensures var n := Sized(input).notional;
            n != 0.0 ==>
              && MIN_NOTIONAL <= n <= RawSize(input)
              && n <= input.maxNotionalPerOrder
              && n <= input.maxPositionPerMarket - input.currentPositionNotional
              && n <= input.bookDepthUsdc * MAX_DEPTH_FRACTION
              && n <= input.equity * 0.5
  {
    hide KellyNotional;
    var n := Capped(input, 4);
    assert n <= Cap(ALL_CAPS[0], input) && n <= Cap(ALL_CAPS[1], input) && n <= Cap(ALL_CAPS[2], input)
        && n <= Cap(ALL_CAPS[3], input);
  }

  /** For nonnegative inputs no reason is given exactly when nothing was reduced. */
  lemma ClipsExplainReductions(input: SizingInput)
    requires RawSize(input) >= 0.0 && input.maxNotionalPerOrder >= 0.0 && input.bookDepthUsdc >= 0.0
        && input.equity >= 0.0
    ensures Sized(input).notional <= RawSize(input)
    ensures Sized(input).clips == [] <==> Sized(input).notional == RawSize(input)
  {
    hide KellyNotional;
    assert Capped(input, 4) >= 0.0;
  }

  // ----- Kelly --------------------------------------------------------------------

  /** The Kelly fraction written with odds is (p - m) / (1 - m). */
  lemma OddsForm(p: real, m: real)
    requires 0.0 < m < 1.0
    ensures var b := 1.0 / m - 1.0; b > 0.0 && (p * b - (1.0 - p)) / b == (p - m) / (1.0 - m)
  {
    var w := 1.0 / m;
    assert w * m == 1.0;
    var b := w - 1.0;
    assert b * m == 1.0 - m;
    assert b > 0.0 by {
      MulMonotone(b, 0.0, m);
      assert Mul(b, m) == b * m && Mul(0.0, m) == 0.0;
    }
    var f := (p - m) / (1.0 - m);
    assert f * (1.0 - m) == p - m;
    OddsQuotient(p, m, b, f);
  }

  lemma OddsQuotient(p: real, m: real, b: real, f: real)
    requires 0.0 < m < 1.0 && b > 0.0 && b * m == 1.0 - m && f * (1.0 - m) == p - m
    ensures (p * b - (1.0 - p)) / b == f
  {
    assert (f * b) * m == f * (b * m) == p - m;
    assert (p * b - (1.0 - p)) * m == p * (b * m) - (1.0 - p) * m;
    assert p * (1.0 - m) - (1.0 - p) * m == p - m;
    assert (p * b - (1.0 - p) - f * b) * m == 0.0;
    assert p * b - (1.0 - p) == f * b;
  }

  /** The staked amount is equity times fraction times (p - m) / (1 - m) when the fair
      value is above a market price inside (0, 1), and nothing otherwise. */
  lemma KellyClosedForm(equity: real, p: real, m: real, fraction: real)
    requires equity >= 0.0 && fraction >= 0.0
    ensures KellyNotional(equity, p, m, fraction) ==
            if 0.0 < m < 1.0 && p > m then equity * ((p - m) / (1.0 - m) * fraction) else 0.0
  {
    if 0.0 < m < 1.0 {
      OddsForm(p, m);
      QuotientSign(p - m, 1.0 - m);
      var f := (p - m) / (1.0 - m);
      if p > m {
        MulSign(f, fraction);
        MulSign(equity, f * fraction);
        assert Mul(f, fraction) == f * fraction && Mul(equity, f * fraction) == equity * (f * fraction);
      }
    }
  }

  /** Whatever the equity and the fraction, a stake means a market price inside (0, 1) and a
      fair value above it. */
  lemma KellyStakesOnlyAbove(equity: real, p: real, m: real, fraction: real)
    requires KellyNotional(equity, p, m, fraction) > 0.0
    ensures 0.0 < m < 1.0 && p > m
  {
    if 0.0 < m < 1.0 {
      OddsForm(p, m);
      QuotientSign(p - m, 1.0 - m);
    }
  }

  /** The stake never exceeds the Kelly share of equity, and vanishes as the edge does. */
  lemma KellyIsBounded(equity: real, p: real, m: real, fraction: real)
    requires equity >= 0.0 && 0.0 <= fraction <= 1.0 && p <= 1.0
    ensures 0.0 <= KellyNotional(equity, p, m, fraction) <= equity * fraction
  {
    KellyClosedForm(equity, p, m, fraction);
    if 0.0 < m < 1.0 && p > m {
      var f := (p - m) / (1.0 - m);
      QuotientSign(p - m, 1.0 - m);
      assert f <= 1.0 by {
        assert f * (1.0 - m) == p - m;
        MulMonotone(1.0, f, 1.0 - m);
        assert Mul(1.0, 1.0 - m) == 1.0 - m && Mul(f, 1.0 - m) == f * (1.0 - m);
      }
      MulMonotone(f, 1.0, fraction);
      MulSign(f, fraction);
      assert Mul(f, fraction) == f * fraction && Mul(1.0, fraction) == fraction;
      MulMonotone(f * fraction, fraction, equity);
      MulSign(equity, f * fraction);
      assert Mul(f * fraction, equity) == equity * (f * fraction) == Mul(equity, f * fraction);
      assert Mul(fraction, equity) == equity * fraction;
    } else {
      MulSign(equity, fraction);
      assert Mul(equity, fraction) == equity * fraction;
    }
  }

  // ----- The size in numbers --------------------------------------------------------

  /** What each mode asks for before any clip. */
  lemma ModeAsks(input: SizingInput)
    ensures input.mode.FixedNotional? ==> RawSize(input) == input.mode.amount
    ensures input.mode.PercentOfEquity? ==> RawSize(input) == Mul(input.mode.pct, input.equity)
    ensures input.mode.CappedKelly? && input.equity >= 0.0 && input.mode.fraction >= 0.0 ==>
              var p, m := input.fairValueProb, input.marketPrice;
              var stake := if 0.0 < m < 1.0 && p > m
                           then input.equity * ((p - m) / (1.0 - m) * input.mode.fraction)
                           else 0.0;
              RawSize(input) == if stake < input.mode.maxNotional then stake else input.mode.maxNotional
  {
    if input.mode.CappedKelly? && input.equity >= 0.0 && input.mode.fraction >= 0.0 {
      hide KellyNotional;
      KellyClosedForm(input.equity, input.fairValueProb, input.marketPrice, input.mode.fraction);
    }
  }

  /** A traded size is the least of what the mode asks for, the order limit, what the market's
      position limit leaves, a quarter of the depth, and half of the equity; nothing is traded
      exactly when that is below 1. */
  lemma SizeInNumbers(input: SizingInput)
    ensures var least := Min(Min(RawSize(input), input.maxNotionalPerOrder),
                             Min(Max(input.maxPositionPerMarket - input.currentPositionNotional, 0.0),
                                 Min(input.bookDepthUsdc / 4.0, input.equity / 2.0)));
            Sized(input).notional == if least >= 1.0 then least else 0.0
  {
    hide RawSize;
    var raw := RawSize(input);
    assert Capped(input, 1) == Min(raw, input.maxNotionalPerOrder);
    assert Capped(input, 2) ==
      Min(Capped(input, 1), Max(input.maxPositionPerMarket - input.currentPositionNotional, 0.0));
    assert Capped(input, 3) == Min(Capped(input, 2), input.bookDepthUsdc / 4.0);
    assert Capped(input, 4) == Min(Capped(input, 3), input.equity / 2.0);
  }
}
