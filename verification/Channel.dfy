/** One DLC channel over its whole life: opening, funding fees, resizes, rollovers, settlements and reopenings. */
module Channel {
  import opened Wrappers
  import opened Cfd
  import opened Positions
  import opened Trade

  datatype ChannelState =
    | Established(position: Position, reserveCoordinator: nat, reserveTrader: nat)
    | Settled(ownPayout: nat, counterPayout: nat)

  /** `total` is the collateral that both parties locked up when the channel was funded. */
  datatype Channel = Channel(total: nat, state: ChannelState) {

    function Pots(): Pots
      requires state.Established?
    {
      Trade.Pots(state.position.coordinatorMargin, state.position.traderMargin,
                 state.reserveCoordinator, state.reserveTrader)
    }

    function TraderHoldings(): nat
    {
      if state.Established? then Pots().Trader() else state.counterPayout
    }

    function CoordinatorHoldings(): nat
    {
      if state.Established? then Pots().Coordinator() else state.ownPayout
    }

    /** What the two parties hold beyond the coins that are really in the channel. */
    function Excess(): int
    {
      TraderHoldings() + CoordinatorHoldings() - total
    }

    function SignedContracts(): real
    {
      if state.Established? then state.position.SignedContracts() else 0.0
    }

    /** The part of the coordinator's reserve that is not accrued order-matching fees. */
    function Surplus(): int
    {
      if state.Established? then state.reserveCoordinator - state.position.orderMatchingFees else 0
    }
  }

  // ---------------------------------------------------------------- opening

  datatype ChannelFunding =
    | ForTradeCostAndTxFees(reserveTrader: nat)
    | ExternalFunding(amount: nat, fundingTxFee: nat, channelFeeReserve: nat)

  datatype OpenedChannel = OpenedChannel(channel: Channel, offerCollateral: nat, acceptCollateral: nat)

  function OpenDlcChannel(trade: TradeParams, reserveCoordinator: nat, funding: ChannelFunding):
    Result<OpenedChannel, TradeError>
  {
    var fee := trade.matchingFee;
    match funding
    case ForTradeCostAndTxFees(reserveTrader) =>
      var offer := trade.CoordinatorMargin() + reserveCoordinator;
      var accept := trade.TraderMargin() + reserveTrader + fee;
      Ok(OpenedChannel(
           Channel(offer + accept, Established(trade.NewPosition(), reserveCoordinator + fee, reserveTrader)),
           offer, accept))
    case ExternalFunding(amount, fundingTxFee, channelFeeReserve) =>
      var cost := trade.TraderMargin() + fee + fundingTxFee + channelFeeReserve;
      if amount < cost then Err(NotEnoughExternalFunds)
      else
        var reserveTrader := amount - cost;
        var offer := trade.CoordinatorMargin() + reserveCoordinator + trade.TraderMargin() + reserveTrader + fee;
        Ok(OpenedChannel(
             Channel(offer, Established(trade.NewPosition(), reserveCoordinator + fee, reserveTrader)),
             offer, 0))
  }

  /** Who locks up what: a trader with own funds pays its margin, its reserve and the order-matching fee, which goes
      into the coordinator's reserve, and the coordinator the rest; a trader who pays outside the channel locks up
      nothing. However the channel is funded, the four pots are exactly the coins locked up, the coordinator's reserve
      already holds the order-matching fee, and an external payment is used up to the last satoshi. */
  lemma OpeningSplitsCollateral(trade: TradeParams, reserveCoordinator: nat, funding: ChannelFunding)
    ensures var result := OpenDlcChannel(trade, reserveCoordinator, funding);
            && (result.Err? <==>
                  && funding.ExternalFunding?
                  && funding.amount
                     < trade.TraderMargin() + trade.matchingFee + funding.fundingTxFee + funding.channelFeeReserve)
            && (result.Ok? ==>
                  var OpenedChannel(channel, offer, accept) := result.value;
                  && channel.Excess() == 0
                  && channel.total == offer + accept
                  && channel.Surplus() == reserveCoordinator
                  && channel.SignedContracts() == trade.SignedContracts()
                  && channel.state.position.traderMargin == CalculateMargin(trade.price, trade.quantity, trade.leverage)
                  && channel.state.position.coordinatorMargin
                     == CalculateMargin(trade.price, trade.quantity, COORDINATOR_LEVERAGE)
                  && channel.CoordinatorHoldings()
                     == channel.state.position.coordinatorMargin + reserveCoordinator + trade.matchingFee
                  && (funding.ForTradeCostAndTxFees? ==>
                        && channel.TraderHoldings() == channel.state.position.traderMargin + funding.reserveTrader
                        && offer == channel.CoordinatorHoldings() - trade.matchingFee
                        && accept == channel.TraderHoldings() + trade.matchingFee)
                  && (funding.ExternalFunding? ==>
                        && accept == 0
                        && offer == channel.CoordinatorHoldings() + channel.TraderHoldings())
                  && (funding.ExternalFunding? ==>
                        funding.amount == channel.TraderHoldings() + trade.matchingFee
                                          + funding.fundingTxFee + funding.channelFeeReserve))
  {
  }

  // ---------------------------------------------------------------- funding fees

  function Sum(amounts: seq<int>): int
  {
    if |amounts| == 0 then 0 else amounts[0] + Sum(amounts[1..])
  }

  /** `funding_fee_from_funding_fee_events`: positive events are owed by the trader. */
  function NetFundingFee(events: seq<int>): FundingFee
  {
    var amount := Sum(events);
    if amount == 0 then Zero
    else if amount > 0 then TraderPays(amount)
    else CoordinatorPays(-amount)
  }

  /** `apply_funding_fee_to_channel`: the earning party adds the whole fee to its reserve. */
  function ApplyFundingFeeToChannel(reserveCoordinator: nat, reserveTrader: nat, fee: FundingFee): (nat, nat)
  {
    match fee
    case Zero => (reserveCoordinator, reserveTrader)
    case CoordinatorPays(amount) => (reserveCoordinator, reserveTrader + amount)
    case TraderPays(amount) => (reserveCoordinator + amount, reserveTrader)
  }

  function FundChannel(channel: Channel, fee: FundingFee): Channel
    requires channel.state.Established?
  {
    var (reserveCoordinator, reserveTrader) :=
      ApplyFundingFeeToChannel(channel.state.reserveCoordinator, channel.state.reserveTrader, fee);
    channel.(state := Established(ApplyFundingFee(channel.state.position, fee), reserveCoordinator, reserveTrader))
  }

  /** The part of a net funding fee that the payer's margin cannot cover. */
  function Overpaid(position: Position, fee: FundingFee): nat
  {
    if fee.Zero? then 0 else fee.amount - Min(fee.amount, position.PayerMargin(fee))
  }

  /** A funding fee conserves the collateral exactly when the payer's margin covers it: the payer's side
      saturates, while the earner is always credited in full. */
  lemma FundingFeeLedger(channel: Channel, fee: FundingFee)
    requires channel.state.Established?
    ensures var after := FundChannel(channel, fee);
            var overpaid := Overpaid(channel.state.position, fee);
            && after.Excess() == channel.Excess() + overpaid
            && (overpaid == 0 <==> fee.Zero? || fee.amount <= channel.state.position.PayerMargin(fee))
            && after.TraderHoldings() == channel.TraderHoldings()
               + (if fee.CoordinatorPays? then fee.amount
                  else if fee.TraderPays? then overpaid - fee.amount else 0)
            && after.CoordinatorHoldings() == channel.CoordinatorHoldings()
               + (if fee.TraderPays? then fee.amount
                  else if fee.CoordinatorPays? then overpaid - fee.amount else 0)
            && after.Surplus() == channel.Surplus() + (if fee.TraderPays? then fee.amount else 0)
            && after.SignedContracts() == channel.SignedContracts()
  {
  }

  // ---------------------------------------------------------------- closing and reopening

  /** `start_closing_position`, once the trader has agreed. The trader gets what is left of the channel. */
  function ClosePositionIn(channel: Channel, price: Positive, matchingFee: nat): Channel
    requires channel.state.Established?
  {
    var coordinator := CoordinatorSettlementAmount(channel.state.position, price, matchingFee)
                       + channel.state.reserveCoordinator;
    var trader := if coordinator <= channel.total then channel.total - coordinator else 0;
    channel.(state := Settled(channel.total - trader, trader))
  }

  /** By how much the coordinator's side asks for more than the whole channel. */
  function SettlementShortfall(channel: Channel, price: Positive, matchingFee: nat): nat
    requires channel.state.Established?
  {
    Max(0, CoordinatorSettlementAmount(channel.state.position, price, matchingFee)
           + channel.state.reserveCoordinator - channel.total)
  }

  /** `open_position` in a settled channel. */
  function OpenPositionIn(channel: Channel, trade: TradeParams): Result<Channel, TradeError>
    requires channel.state.Settled?
  {
    var fee := trade.matchingFee;
    if channel.state.ownPayout + fee < trade.CoordinatorMargin() then Err(CoordinatorCannotCoverMargin)
    else if channel.state.counterPayout < fee || channel.state.counterPayout - fee < trade.TraderMargin() then
      Err(TraderCannotCoverMargin)
    else
      Ok(channel.(state := Established(
                    trade.NewPosition(),
                    channel.state.ownPayout + fee - trade.CoordinatorMargin(),
                    channel.state.counterPayout - fee - trade.TraderMargin())))
  }

  /** Reopening goes through exactly when both parties can cover their margins, the trader after paying the fee, and
      then splits each party's payout into the margin of the trade and a reserve. */
  lemma ReopeningSplitsPayouts(channel: Channel, trade: TradeParams)
    requires channel.state.Settled?
    ensures var result := OpenPositionIn(channel, trade);
            var (own, counter) := (channel.state.ownPayout, channel.state.counterPayout);
            var coordinatorMargin := CalculateMargin(trade.price, trade.quantity, COORDINATOR_LEVERAGE);
            var traderMargin := CalculateMargin(trade.price, trade.quantity, trade.leverage);
            && (result.Ok?
                <==> coordinatorMargin <= own + trade.matchingFee && traderMargin + trade.matchingFee <= counter)
            && (result == Err(CoordinatorCannotCoverMargin) <==> own + trade.matchingFee < coordinatorMargin)
            && (result.Ok? ==>
                  var after := result.value;
                  && after.total == channel.total && after.state.Established?
                  && after.SignedContracts() == trade.SignedContracts()
                  && after.state.position.averageEntryPrice == trade.price
                  && after.Pots() == Trade.Pots(coordinatorMargin, traderMargin,
                                                own + trade.matchingFee - coordinatorMargin,
                                                counter - trade.matchingFee - traderMargin))
  {
  }

  /** Reopening may lend the coordinator the fee it just earned as margin: the fee stays in its reserve exactly
      when its payout alone covered the margin. */
  lemma ReopeningProtectsFee(channel: Channel, trade: TradeParams)
    requires channel.state.Settled? && OpenPositionIn(channel, trade).Ok?
    ensures var after := OpenPositionIn(channel, trade).value;
            && (after.Surplus() >= 0 <==> trade.CoordinatorMargin() <= channel.state.ownPayout)
            && after.Excess() == channel.Excess()
            && after.TraderHoldings() == channel.TraderHoldings() - trade.matchingFee
  {
  }

  /** Closing pays out the whole channel. When the margins are those that the leverages stand for and the pots
      add up, the trader gets back the reserve plus whatever the trader's profit or loss and the fee leave of the
      margin, and the coordinator its reserve and margin less that profit plus as much of the fee as is left, which is
      the fee or all that was at stake. */
  lemma ClosingSplitsChannel(channel: Channel, price: Positive, matchingFee: nat)
    requires channel.state.Established? && channel.Excess() == 0
    requires channel.state.position.TraderMarginConsistent() && channel.state.position.CoordinatorMarginConsistent()
    ensures var position := channel.state.position;
            var after := ClosePositionIn(channel, price, matchingFee).state;
            var pnl := DecreasePnl(position, position.contracts, price);
            && SettlementShortfall(channel, price, matchingFee) == 0
            && IsPnl(pnl, position.traderDirection, position.averageEntryPrice, price, position.contracts,
                     position.traderMargin, position.coordinatorMargin)
            && after.ownPayout + after.counterPayout == channel.total
            && after.counterPayout == channel.state.reserveTrader + Max(0, position.traderMargin + pnl - matchingFee)
            && after.ownPayout == channel.state.reserveCoordinator + position.coordinatorMargin - pnl
                                  + Min(matchingFee, position.traderMargin + pnl)
            && after.ownPayout >= channel.state.reserveCoordinator
               + Min(matchingFee, position.traderMargin + position.coordinatorMargin)
  {
    var position := channel.state.position;
    SettlementCollectsFee(position, price, matchingFee);
    DecreasePnlIsTraders(position, position.contracts, price);
    CoordinatorPnlIsTradersLoss(position, price);
    PnlIsUnique(DecreasePnl(position, position.contracts, price), 0 - CoordinatorPnl(position, price),
                position.traderDirection, position.averageEntryPrice, price, position.contracts,
                position.traderMargin, position.coordinatorMargin);
  }

  // ---------------------------------------------------------------- steps

  datatype Op =
    | OrderMatched(trade: TradeParams, fundingEvents: seq<int>)
    | RolloverDue(fundingEvents: seq<int>)

  function ActionFor(channel: Channel, trade: TradeParams): TradeAction
    requires channel.state.Established?
  {
    DetermineTradeAction(channel.SignedContracts(), trade.SignedContracts(), trade.price)
  }

  /** The row after a resize. `set_position_to_resizing` leaves the leverage columns as they were before the
      funding fee, although the margins were computed with the leverages after it. */
  function ResizedRow(row: Position, resized: ResizedPosition, fee: nat): Position
  {
    Position(resized.contracts, resized.coordinatorDirection.Opposite(), resized.averagePrice,
             resized.pots.marginTrader, resized.pots.marginCoordinator,
             row.traderLeverage, row.coordinatorLeverage, row.orderMatchingFees + fee)
  }

  /** One completed protocol. An error leaves the channel as it is. */
  function Step(channel: Channel, op: Op): Result<Channel, TradeError>
  {
    match channel.state
    case Settled(_, _) =>
      if op.OrderMatched? then OpenPositionIn(channel, op.trade) else Ok(channel)
    case Established(row, _, _) =>
      var funded := FundChannel(channel, NetFundingFee(op.fundingEvents));
      match op
      case RolloverDue(_) => Ok(funded)
      case OrderMatched(trade, _) =>
        match ActionFor(channel, trade)
        case ClosePosition => Ok(ClosePositionIn(funded, trade.price, trade.matchingFee))
        case ResizePosition(action) =>
          DeterminedActionsApply(funded.state.position, trade);
          match ApplyResize(action, funded.state.position, funded.state.reserveCoordinator,
                            funded.state.reserveTrader, trade.matchingFee)
          case Err(e) => Err(e)
          case Ok(resized) =>
            Ok(channel.(state := Established(ResizedRow(row, resized, trade.matchingFee),
                                             resized.pots.reserveCoordinator, resized.pots.reserveTrader)))
  }

  function Next(channel: Channel, op: Op): Channel
  {
    match Step(channel, op)
    case Ok(after) => after
    case Err(_) => channel
  }

  function Run(channel: Channel, ops: seq<Op>): Channel
    decreases |ops|
  {
    if |ops| == 0 then channel else Run(Next(channel, ops[0]), ops[1..])
  }
}
