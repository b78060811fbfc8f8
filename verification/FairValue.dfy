/** Rule-based fair value: the implied probability of a contract and a confidence. */
module FairValue {
  import opened Domain

  datatype FairValueInput = FairValueInput(
    outcome: Outcome,
    duration: MarketDuration,
    spotPrice: real,
    windowOpenPrice: real,
    shortDelta: real,
    momentum: Option<real>,
    volatility: Option<real>,
    secondaryPrice: Option<real>)

  datatype FairValueEstimate = FairValueEstimate(probability: real, confidence: real)

  function GetOr(o: Option<real>, default: real): real {
    match o case Some(v) => v case None => default
  }

  function MovePct(input: FairValueInput): real {
    if input.windowOpenPrice == 0.0 then 0.0
    else (input.spotPrice - input.windowOpenPrice) / input.windowOpenPrice
  }

  /** The move divided by the volatility expected over the contract window. */
  function NormalisedMove(input: FairValueInput): real {
    if input.volatility.Some? && input.volatility.value > 0.0 then
      var windowMinutes := if input.duration == FiveMin then 5.0 else 15.0;
      var windowVol := input.volatility.value * (windowMinutes / 525600.0);
      if windowVol > 0.0 then MovePct(input) / windowVol else MovePct(input)
    else MovePct(input)
  }

  function DirectionSign(o: Outcome): real {
    if o == Up then 1.0 else -1.0
  }

  function DurationScale(d: MarketDuration): real {
    if d == FiveMin then 1.5 else 1.0
  }

  function RawShift(input: FairValueInput): real {
    var momentumAdj := input.shortDelta * GetOr(input.momentum, 1.0);
    (NormalisedMove(input) + momentumAdj) * DurationScale(input.duration) * DirectionSign(input.outcome)
  }

  function ConsensusPenalty(input: FairValueInput): (r: real)
    ensures 0.0 <= r <= 0.3
  {
    if input.secondaryPrice.Some? && input.spotPrice > 0.0 then
      var diff := Abs((input.secondaryPrice.value - input.spotPrice) / input.spotPrice);
      if diff > 0.001 then Min(diff * 100.0, 0.3) else 0.0
    else 0.0
  }

  function Compute(input: FairValueInput): (r: FairValueEstimate)
    ensures 0.01 <= r.probability <= 0.99
    ensures 0.1 <= r.confidence <= 1.0
  {
    var rawProb := 0.5 + RawShift(input) * 10.0;
    var confidence := 1.0
                      - (if input.momentum.None? then 0.05 else 0.0)
                      - (if input.volatility.None? then 0.1 else 0.0)
                      - (if input.secondaryPrice.None? then 0.05 else 0.0)
                      - ConsensusPenalty(input);
    FairValueEstimate(Min(Max(rawProb, 0.01), 0.99), Max(confidence, 0.1))
  }

  function Flip(o: Outcome): Outcome {
    if o == Up then Down else Up
  }

  /** The two outcomes of a market get complementary probabilities and the same
      confidence from the same price data. */
  lemma OutcomesAreComplementary(input: FairValueInput)
    ensures var twin := Compute(input.(outcome := Flip(input.outcome)));
            twin.probability == 1.0 - Compute(input).probability && twin.confidence == Compute(input).confidence
  {
    var twin := input.(outcome := Flip(input.outcome));
    assert MovePct(twin) == MovePct(input);
    assert NormalisedMove(twin) == NormalisedMove(input);
    var momentumAdj := input.shortDelta * GetOr(input.momentum, 1.0);
    Antisymmetric((NormalisedMove(input) + momentumAdj) * DurationScale(input.duration));
    assert RawShift(twin) == -RawShift(input);
  }

  lemma Antisymmetric(x: real)
    ensures x * DirectionSign(Up) == -(x * DirectionSign(Down))
  {
  }

  /** The estimate is monotone: a higher spot price never lowers the Up probability. */
  lemma HigherSpotFavoursUp(input: FairValueInput, spot: real)
    requires input.outcome == Up && input.windowOpenPrice > 0.0 && spot >= input.spotPrice
    ensures Compute(input.(spotPrice := spot)).probability >= Compute(input).probability
  {
    hide NormalisedMove;
    var higher := input.(spotPrice := spot);
    MoveGrowsWithSpot(input, spot);
    var momentumAdj := input.shortDelta * GetOr(input.momentum, 1.0);
    var scale := DurationScale(input.duration);
    hide DurationScale;
    assert scale > 0.0 by {
      ScaleIsPositive(input.duration);
    }
    MulMonotone(NormalisedMove(input) + momentumAdj, NormalisedMove(higher) + momentumAdj, scale);
    assert RawShift(input) == Mul(NormalisedMove(input) + momentumAdj, scale);
    assert RawShift(higher) == Mul(NormalisedMove(higher) + momentumAdj, scale);
    hide RawShift, Mul, ConsensusPenalty;
  }

  lemma ScaleIsPositive(d: MarketDuration)
    ensures DurationScale(d) > 0.0
  {
  }

  lemma MoveGrowsWithSpot(input: FairValueInput, spot: real)
    requires input.windowOpenPrice > 0.0 && spot >= input.spotPrice
    ensures NormalisedMove(input.(spotPrice := spot)) >= NormalisedMove(input)
  {
    var higher := input.(spotPrice := spot);
    QuotientOrder(input.spotPrice - input.windowOpenPrice, spot - input.windowOpenPrice, input.windowOpenPrice);
    assert MovePct(higher) >= MovePct(input);
    hide MovePct;
    if input.volatility.Some? && input.volatility.value > 0.0 {
      var windowVol := input.volatility.value * ((if input.duration == FiveMin then 5.0 else 15.0) / 525600.0);
      if windowVol > 0.0 {
        QuotientOrder(MovePct(input), MovePct(higher), windowVol);
      }
    }
  }

  /** Without volatility data the five-minute window reacts half as much again. */
  lemma ShorterWindowReactsMore(input: FairValueInput)
    requires input.volatility.None?
    ensures RawShift(input.(duration := FiveMin)) == 1.5 * RawShift(input.(duration := FifteenMin))
  {
    var five, fifteen := input.(duration := FiveMin), input.(duration := FifteenMin);
    assert NormalisedMove(five) == NormalisedMove(fifteen) == MovePct(input);
    var move := MovePct(input) + input.shortDelta * GetOr(input.momentum, 1.0);
    assert RawShift(five) == move * 1.5 * DirectionSign(input.outcome);
    assert RawShift(fifteen) == move * DirectionSign(input.outcome);
  }

  /** So its estimate lies on the same side of even odds and at least as far out. */
  lemma ShorterWindowIsBolder(input: FairValueInput)
    requires input.volatility.None?
    ensures var five, fifteen := Compute(input.(duration := FiveMin)), Compute(input.(duration := FifteenMin));
            && (fifteen.probability >= 0.5 ==> five.probability >= fifteen.probability)
            && (fifteen.probability <= 0.5 ==> five.probability <= fifteen.probability)
            && (five.probability == fifteen.probability <==>
                  fifteen.probability == 0.5 || fifteen.probability == 0.01 || fifteen.probability == 0.99)
  {
    ShorterWindowReactsMore(input);
    hide RawShift, ConsensusPenalty;
  }

  predicate SourcesAgree(input: FairValueInput) {
    && input.secondaryPrice.Some?
    && (input.spotPrice <= 0.0 || Abs((input.secondaryPrice.value - input.spotPrice) / input.spotPrice) <= 0.001)
  }

  /** Full confidence is given exactly with complete data on which the sources agree. */
  lemma FullConfidenceIff(input: FairValueInput)
    ensures Compute(input).confidence == 1.0 <==> input.momentum.Some? && input.volatility.Some? && SourcesAgree(input)
  {
    hide RawShift;
  }

  // ----- The estimate in numbers --------------------------------------------------------

  /** What missing or disagreeing data cost: 0.05 without momentum, 0.1 without volatility,
      0.05 without a second source, and for one that is off by more than a thousandth of the
      spot price a hundred times the relative gap, up to 0.3. The floor of 0.1 is never
      needed. */
  lemma ConfidenceInNumbers(input: FairValueInput)
    ensures var incomplete := (if input.momentum.None? then 0.05 else 0.0)
                              + (if input.volatility.None? then 0.1 else 0.0);
            var left := 1.0 - incomplete - Compute(input).confidence;
            match input.secondaryPrice
            case None => left == 0.05
            case Some(second) =>
              var gap := if second < input.spotPrice then input.spotPrice - second else second - input.spotPrice;
              if input.spotPrice <= 0.0 || 1000.0 * gap <= input.spotPrice then left == 0.0
              else if 1000.0 * gap <= 3.0 * input.spotPrice then Mul(left, input.spotPrice) == 100.0 * gap
              else left == 0.3
    ensures Compute(input).confidence >= 0.55
  {
    hide RawShift;
    if input.secondaryPrice.Some? && input.spotPrice > 0.0 {
      var d := input.secondaryPrice.value - input.spotPrice;
      QuotientSign(d, input.spotPrice);
      var q := d / input.spotPrice;
      assert q * input.spotPrice == d;
      MulMonotone(Abs(q), 0.001, input.spotPrice);
      MulMonotone(0.001, Abs(q), input.spotPrice);
      MulMonotone(Abs(q), 0.003, input.spotPrice);
      MulMonotone(0.003, Abs(q), input.spotPrice);
      assert Mul(Abs(q), input.spotPrice) == Abs(d);
      assert Mul(0.001, input.spotPrice) == input.spotPrice / 1000.0;
      assert Mul(0.003, input.spotPrice) == 3.0 * input.spotPrice / 1000.0;
    }
  }

  /** What a move is measured in: the volatility of the window, or 1 if it is unknown. */
  function MoveUnit(input: FairValueInput): real {
    if input.volatility.Some? && input.volatility.value > 0.0
    then input.volatility.value * (if input.duration == FiveMin then 5.0 else 15.0) / 525600.0
    else 1.0
  }

  lemma MoveInUnits(input: FairValueInput)
    ensures input.windowOpenPrice == 0.0 ==> NormalisedMove(input) == 0.0
    ensures Mul(Mul(NormalisedMove(input), MoveUnit(input)), input.windowOpenPrice) ==
            if input.windowOpenPrice == 0.0 then 0.0 else input.spotPrice - input.windowOpenPrice
  {
    assert Mul(NormalisedMove(input), MoveUnit(input)) == MovePct(input);
    if input.windowOpenPrice != 0.0 {
      assert Mul(MovePct(input), input.windowOpenPrice) == input.spotPrice - input.windowOpenPrice;
    }
  }

  /** The move in those units, read off an estimate inside its bounds. */
  function MoveRead(input: FairValueInput): real {
    var p := Compute(input).probability;
    var tilt := if input.outcome == Up then p - 0.5 else 0.5 - p;
    var momentum := if input.momentum.Some? then input.momentum.value else 1.0;
    tilt / (if input.duration == FiveMin then 15.0 else 10.0) - input.shortDelta * momentum
  }

  lemma MoveReadIsTheMove(input: FairValueInput)
    requires 0.01 < Compute(input).probability < 0.99
    ensures MoveRead(input) == NormalisedMove(input)
  {
    hide ConsensusPenalty, NormalisedMove;
    var momentum := if input.momentum.Some? then input.momentum.value else 1.0;
    var sum := NormalisedMove(input) + input.shortDelta * momentum;
    assert RawShift(input) * 10.0 == Compute(input).probability - 0.5;
    assert RawShift(input) == sum * DurationScale(input.duration) * DirectionSign(input.outcome);
  }

  /** An estimate inside its bounds can be read backwards: it gives back the move of the spot
      price since the window opened, once the short-term delta is taken out in proportion to
      the momentum (1 if unknown). Without an opening price there is no move. */
  lemma EstimateGivesBackTheMove(input: FairValueInput)
    requires 0.01 < Compute(input).probability < 0.99
    ensures if input.windowOpenPrice == 0.0 then MoveRead(input) == 0.0
            else input.spotPrice ==
                 input.windowOpenPrice + Mul(Mul(MoveRead(input), MoveUnit(input)), input.windowOpenPrice)
  {
    hide NormalisedMove, MoveRead, MoveUnit, Mul, Compute;
    MoveReadIsTheMove(input);
    MoveInUnits(input);
  }
}
