/** The values of a position and the arithmetic of coordinator/src/position/models.rs. */
module Positions {
  import opened Wrappers
  import opened Cfd

  datatype Position = Position(
    contracts: Positive,
    traderDirection: Direction,
    averageEntryPrice: Positive,
    traderMargin: nat,
    coordinatorMargin: nat,
    traderLeverage: Positive,
    coordinatorLeverage: Positive,
    orderMatchingFees: nat
  ) {
    function MarginLong(): nat
    {
      if traderDirection.Long? then traderMargin else coordinatorMargin
    }

    function MarginShort(): nat
    {
      if traderDirection.Long? then coordinatorMargin else traderMargin
    }

    function SignedContracts(): real
    {
      RelativeContracts(contracts, traderDirection)
    }

    /** The margins that the entry price and the leverages stand for. */
    function RecomputedTraderMargin(): nat
    {
      CalculateMargin(averageEntryPrice, contracts, traderLeverage)
    }

    function RecomputedCoordinatorMargin(): nat
    {
      CalculateMargin(averageEntryPrice, contracts, coordinatorLeverage)
    }

    predicate TraderMarginConsistent()
    {
      traderMargin == RecomputedTraderMargin()
    }

    predicate CoordinatorMarginConsistent()
    {
      coordinatorMargin == RecomputedCoordinatorMargin()
    }

    /** The margin of the side that owes a funding fee. */
    function PayerMargin(fee: FundingFee): nat
    {
      match fee
      case Zero => 0
      case CoordinatorPays(_) => coordinatorMargin
      case TraderPays(_) => traderMargin
    }
  }

  datatype FundingFee = Zero | CoordinatorPays(amount: nat) | TraderPays(amount: nat)

  function RelativeContracts(contracts: real, direction: Direction): real
  {
    match direction
    case Long => contracts
    case Short => -contracts
  }

  /** What the paying side loses: the fee is taken out of its margin, which saturates at zero. */
  function FromMargin(margin: nat, fee: nat): (rest: nat)
    ensures rest + Min(fee, margin) == margin
  {
    if fee <= margin then margin - fee else 0
  }

  function ApplyFundingFee(position: Position, fee: FundingFee): Position
  {
    match fee
    case Zero => position
    case CoordinatorPays(amount) =>
      var margin := FromMargin(position.coordinatorMargin, amount);
      position.(
        coordinatorMargin := margin,
        coordinatorLeverage := CalculateLeverage(position.contracts, margin, position.averageEntryPrice))
    case TraderPays(amount) =>
      var margin := FromMargin(position.traderMargin, amount);
      position.(
        traderMargin := margin,
        traderLeverage := CalculateLeverage(position.contracts, margin, position.averageEntryPrice))
  }

  /** The leverage written next to a reduced margin reproduces that margin to the satoshi, unless nothing
      is left of it: then the leverage cap stands for a margin that is usually not zero. */
  lemma FundingFeeKeepsMarginsConsistent(position: Position, fee: FundingFee)
    requires !fee.Zero? && fee.amount > 0
    ensures var after := ApplyFundingFee(position, fee);
            var capMargin := CalculateMargin(position.averageEntryPrice, position.contracts, MAX_LEVERAGE);
            var payerStaysConsistent := fee.amount < position.PayerMargin(fee) || capMargin == 0;
            && (fee.TraderPays? ==>
                  && (after.TraderMarginConsistent() <==> payerStaysConsistent)
                  && (after.CoordinatorMarginConsistent() <==> position.CoordinatorMarginConsistent()))
            && (fee.CoordinatorPays? ==>
                  && (after.CoordinatorMarginConsistent() <==> payerStaysConsistent)
                  && (after.TraderMarginConsistent() <==> position.TraderMarginConsistent()))
  {
    var after := ApplyFundingFee(position, fee);
    var margin := if fee.TraderPays? then after.traderMargin else after.coordinatorMargin;
    RoundingKeepsIntegers(margin);
  }

  /** What the coordinator takes out of the margins when the whole position is closed. */
  function CoordinatorSettlementAmount(position: Position, closingPrice: Quantity, matchingFee: nat): (amount: nat)
    ensures amount <= position.RecomputedTraderMargin() + position.RecomputedCoordinatorMargin()
    ensures amount >= Min(matchingFee, position.RecomputedTraderMargin() + position.RecomputedCoordinatorMargin())
  {
    var total := position.RecomputedTraderMargin() + position.RecomputedCoordinatorMargin();
    var amount := Max(position.RecomputedCoordinatorMargin() + CoordinatorPnl(position, closingPrice), 0);
    Min(amount + matchingFee, total)
  }

  /** The coordinator's profit on the whole position, capped by the margins that the leverages stand for. */
  function CoordinatorPnl(position: Position, closingPrice: Quantity): (pnl: int)
    ensures 0 - position.RecomputedCoordinatorMargin() <= pnl <= position.RecomputedTraderMargin()
  {
    var trader := position.RecomputedTraderMargin();
    var coordinator := position.RecomputedCoordinatorMargin();
    CalculatePnl(position.averageEntryPrice, closingPrice, position.contracts,
                 position.traderDirection.Opposite(),
                 if position.traderDirection.Long? then trader else coordinator,
                 if position.traderDirection.Long? then coordinator else trader)
  }

  /** The coordinator's profit is the trader's loss: of all contracts from the entry price to the closing price, in
      the trader's direction. */
  lemma CoordinatorPnlIsTradersLoss(position: Position, closingPrice: Positive)
    ensures IsPnl(0 - CoordinatorPnl(position, closingPrice), position.traderDirection, position.averageEntryPrice,
                  closingPrice, position.contracts,
                  position.RecomputedTraderMargin(), position.RecomputedCoordinatorMargin())
  {
    var (trader, coordinator) := (position.RecomputedTraderMargin(), position.RecomputedCoordinatorMargin());
    var (long, short) := if position.traderDirection.Long? then (trader, coordinator) else (coordinator, trader);
    PnlIsZeroSum(position.averageEntryPrice, closingPrice, position.contracts, position.traderDirection, long, short);
    PnlIsCapped(position.averageEntryPrice, closingPrice, position.contracts, position.traderDirection, long, short);
  }

  /** The settlement is the margin plus the profit plus the closing fee, of which only as much is collected
      as the trader's side of the bet still holds. */
  lemma SettlementCollectsFee(position: Position, closingPrice: Quantity, matchingFee: nat)
    ensures var pnl := CoordinatorPnl(position, closingPrice);
            CoordinatorSettlementAmount(position, closingPrice, matchingFee)
            == position.RecomputedCoordinatorMargin() + pnl
               + Min(matchingFee, position.RecomputedTraderMargin() - pnl)
  {
  }
}
