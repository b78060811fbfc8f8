/** Official outcomes: verifying a position against the market's resolution. */
module Resolution {
  import opened Domain
  import opened Ledger

  datatype ResolutionData = ResolutionData(winningToken: Option<TokenId>, payoutPrice: real)

  datatype VerificationInput = VerificationInput(
    contract: ContractKey,
    side: Side,
    entryPrice: real,
    size: real,
    feesPaid: real)

  datatype VerificationResult = VerificationResult(
    contract: ContractKey,
    outcome: ResolutionOutcome,
    payoutPrice: real,
    realizedPnl: real)

  function OutcomeFor(c: ContractKey, data: ResolutionData): ResolutionOutcome {
    match data.winningToken
    case Some(winner) => if winner == c.tokenId then Yes else No
    case None => Unknown
  }

  function PayoutFor(c: ContractKey, data: ResolutionData): real {
    match OutcomeFor(c, data)
    case Yes => 1.0
    case No => 0.0
    case Unknown => data.payoutPrice
  }

  function Verify(input: VerificationInput, data: ResolutionData): VerificationResult {
    var payout := PayoutFor(input.contract, data);
    VerificationResult(
      input.contract, OutcomeFor(input.contract, data), payout,
      match input.side
      case Buy => (payout - input.entryPrice) * input.size - input.feesPaid
      case Sell => (input.entryPrice - payout) * input.size - input.feesPaid)
  }

  /** The outcome read off the resolution: the winning token pays 1, any other token of a
      resolved market nothing, and without a winner the stated price is paid. A buy earns
      what the payout is above the entry price, a sell what it is below, less fees. */
  lemma VerifiedOutcome(input: VerificationInput, data: ResolutionData)
    ensures var r := Verify(input, data);
            && (data.winningToken == Some(input.contract.tokenId) ==> r.outcome == Yes && r.payoutPrice == 1.0)
            && (data.winningToken.Some? && data.winningToken.value != input.contract.tokenId ==>
                  r.outcome == No && r.payoutPrice == 0.0)
            && (data.winningToken.None? ==> r.outcome == Unknown && r.payoutPrice == data.payoutPrice)
            && (input.side == Buy ==>
                  r.realizedPnl == Mul(r.payoutPrice - input.entryPrice, input.size) - input.feesPaid)
            && (input.side == Sell ==>
                  r.realizedPnl == Mul(input.entryPrice - r.payoutPrice, input.size) - input.feesPaid)
            && r.contract == input.contract
  {
  }

  function VerifyBatch(inputs: seq<VerificationInput>, data: ResolutionData): (rs: seq<VerificationResult>)
    ensures |rs| == |inputs| && forall i :: 0 <= i < |rs| ==> rs[i] == Verify(inputs[i], data)
  {
    if inputs == [] then [] else VerifyBatch(inputs[..|inputs| - 1], data) + [Verify(inputs[|inputs| - 1], data)]
  }

  function InputFrom(e: LedgerEntry): VerificationInput {
    VerificationInput(e.contract, e.side, e.entryPrice, e.size, e.feesPaid)
  }

  lemma VerifyIsPnlAt(e: LedgerEntry, data: ResolutionData)
    ensures Verify(InputFrom(e), data).payoutPrice == PayoutFor(e.contract, data)
    ensures Verify(InputFrom(e), data).realizedPnl == PnlAt(e, PayoutFor(e.contract, data))
  {
    hide OutcomeFor, PayoutFor;
  }

  lemma ExitPnlLessFees(e: LedgerEntry, price: real, fees: real, now: int)
    ensures ClosedEntry(e, price, fees, now).realizedPnl == Some(PnlAt(e, price) - fees)
  {
    var gross := if e.side == Buy then (price - e.entryPrice) * e.size else (e.entryPrice - price) * e.size;
    assert PnlAt(e, price) == gross - e.feesPaid;
    var paid := e.(exitPrice := Some(price), feesPaid := e.feesPaid + fees, closedAt := Some(now));
    assert PnlAt(paid, price) == gross - (e.feesPaid + fees);
  }

  /** The verified P&L of an entry is what the ledger itself books when the entry is
      closed at the payout, less whatever fee the exit adds; with no exit fee they agree. */
  lemma VerifiedPnlIsExitPnl(b: Books, id: nat, data: ResolutionData, fees: real, now: int)
    requires Find(b.entries, id).Some?
    ensures var result := Verify(InputFrom(b.entries[Find(b.entries, id).value]), data);
            var booked := ExitRecorded(b, id, result.payoutPrice, fees, now).1;
            && booked == Some(result.realizedPnl - fees)
            && (booked == Some(result.realizedPnl) <==> fees == 0.0)
  {
    var e := b.entries[Find(b.entries, id).value];
    hide ClosedEntry, Verify, PnlAt, PayoutFor;
    VerifyIsPnlAt(e, data);
    ExitPnlLessFees(e, PayoutFor(e.contract, data), fees, now);
  }

  /** Both sides of one position, held in the two tokens of a resolved market: a buy of
      one token at p and of the other at 1 - p nets exactly minus the fees. */
  lemma HedgedPairOnlyPaysFees(a: ContractKey, b: ContractKey, p: real, size: real, feesA: real, feesB: real,
          data: ResolutionData)
    requires a.tokenId != b.tokenId
    requires data.winningToken == Some(a.tokenId) || data.winningToken == Some(b.tokenId)
    ensures Verify(VerificationInput(a, Buy, p, size, feesA), data).realizedPnl
            + Verify(VerificationInput(b, Buy, 1.0 - p, size, feesB), data).realizedPnl == -(feesA + feesB)
  {
  }
}
