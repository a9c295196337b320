/** The trade arithmetic of coordinator/src/trade/mod.rs: which action a matched order leads to, and how that
    action splits the collateral of the channel. */
module Trade {
  import opened Wrappers
  import opened Cfd
  import opened Positions
  import Reals

  const COORDINATOR_LEVERAGE: Positive := 2.0

  /** A matched order. */
  datatype TradeParams = TradeParams(
    direction: Direction, quantity: Positive, price: Positive, leverage: Positive, matchingFee: nat
  ) {
    function SignedContracts(): real
    {
      RelativeContracts(quantity, direction)
    }

    function TraderMargin(): nat
    {
      CalculateMargin(price, quantity, leverage)
    }

    function CoordinatorMargin(): nat
    {
      CalculateMargin(price, quantity, COORDINATOR_LEVERAGE)
    }

    /** The row that `persist_position` inserts. */
    function NewPosition(): Position
    {
      Position(quantity, direction, price, TraderMargin(), CoordinatorMargin(),
               leverage, COORDINATOR_LEVERAGE, matchingFee)
    }
  }

  datatype ResizeAction =
    | Increase(contracts: Quantity, price: Positive)
    | Decrease(contracts: Quantity, price: Positive)
    | ChangeDirection(contractsNewDirection: Quantity, price: Positive)

  datatype TradeAction =
    | ClosePosition
    | ResizePosition(action: ResizeAction)

  datatype TradeError =
    | AccruedFeesExceedReserve
    | CoordinatorCannotCoverMargin
    | TraderCannotCoverMargin
    | NonsenseMarginChange
    | NegativeCoordinatorReserve
    | NegativeTraderReserve
    | NotEnoughExternalFunds

  /** How a channel's collateral is split. */
  datatype Pots = Pots(
    marginCoordinator: nat, marginTrader: nat, reserveCoordinator: nat, reserveTrader: nat
  ) {
    function Total(): nat
    {
      marginCoordinator + marginTrader + reserveCoordinator + reserveTrader
    }

    function Trader(): nat
    {
      marginTrader + reserveTrader
    }

    function Coordinator(): nat
    {
      marginCoordinator + reserveCoordinator
    }
  }

  datatype ResizedPosition = ResizedPosition(
    contracts: Positive, coordinatorDirection: Direction, averagePrice: Positive, pots: Pots,
    realizedPnl: Option<int>
  )

  function Abs(x: real): Quantity
  {
    if x < 0.0 then -x else x
  }

  /** The established-channel part of `determine_trade_action`, on signed numbers of contracts. */
  function DetermineTradeAction(positionContracts: real, tradeContracts: real, price: Positive): TradeAction
  {
    if positionContracts + tradeContracts == 0.0 then ClosePosition
    // A product of zero carries a positive sign.
    else if positionContracts * tradeContracts >= 0.0 then
      ResizePosition(Increase(Abs(tradeContracts), price))
    else if Abs(tradeContracts) < Abs(positionContracts) then
      ResizePosition(Decrease(Abs(tradeContracts), price))
    else
      ResizePosition(ChangeDirection(Abs(Abs(tradeContracts) - Abs(positionContracts)), price))
  }

  /** The signed contracts that an action leaves a trader with, who held `contracts` in `direction`. */
  function ContractsAfter(action: TradeAction, contracts: real, direction: Direction): real
  {
    match action
    case ClosePosition => 0.0
    case ResizePosition(Increase(extra, _)) => RelativeContracts(contracts + extra, direction)
    case ResizePosition(Decrease(fewer, _)) => RelativeContracts(contracts - fewer, direction)
    case ResizePosition(ChangeDirection(newContracts, _)) => RelativeContracts(newContracts, direction.Opposite())
  }

  lemma ProductSign(p: real, t: real)
    ensures p * t > 0.0 <==> (p > 0.0 && t > 0.0) || (p < 0.0 && t < 0.0)
    ensures p * t < 0.0 <==> (p > 0.0 && t < 0.0) || (p < 0.0 && t > 0.0)
  {
    if p > 0.0 && t > 0.0 { Reals.MulPositive(p, t); }
    if p < 0.0 && t < 0.0 { Reals.MulPositive(-p, -t); }
    if p > 0.0 && t < 0.0 { Reals.MulPositive(p, -t); }
    if p < 0.0 && t > 0.0 { Reals.MulPositive(-p, t); }
  }

  /** The chosen action adds the signed trade to the signed position. The one exception is a row holding zero
      contracts: any trade increases it in the direction the row happens to store. */
  lemma TradeActionAddsContracts(contracts: Quantity, direction: Direction, tradeContracts: real, price: Positive)
    ensures var position := RelativeContracts(contracts, direction);
            var action := DetermineTradeAction(position, tradeContracts, price);
            ContractsAfter(action, contracts, direction) == position + tradeContracts
            <==> contracts > 0.0 || RelativeContracts(Abs(tradeContracts), direction) == tradeContracts
  {
    ProductSign(RelativeContracts(contracts, direction), tradeContracts);
  }

  /** The quantity-weighted harmonic mean of two entry prices. */
  function AveragePrice(contracts: Positive, price: Positive, extra: Quantity, extraPrice: Positive):
    (average: Positive)
    ensures (contracts + extra) / average == contracts / price + extra / extraPrice
  {
    Reals.DivPositive(contracts, price);
    Reals.DivNonNegative(extra, extraPrice);
    var value := contracts / price + extra / extraPrice;
    Reals.DivPositive(contracts + extra, value);
    Reals.DivCancel(contracts + extra, value);
    Reals.DivUnique(contracts + extra, (contracts + extra) / value, value);
    (contracts + extra) / value
  }

  /** The increase branch of `apply_resize_to_position`. */
  function Increased(
    position: Position, extra: Quantity, price: Positive, reserveCoordinator: nat, reserveTrader: nat, fee: nat
  ): Result<ResizedPosition, TradeError>
  {
    var extraCoordinator := CalculateMargin(price, extra, position.coordinatorLeverage);
    var extraTrader := CalculateMargin(price, extra, position.traderLeverage);
    // Accrued order-matching fees are not put up as margin.
    if reserveCoordinator < position.orderMatchingFees then Err(AccruedFeesExceedReserve)
    else if reserveCoordinator - position.orderMatchingFees < extraCoordinator then Err(CoordinatorCannotCoverMargin)
    else if reserveTrader < fee || reserveTrader - fee < extraTrader then Err(TraderCannotCoverMargin)
    else
      Ok(ResizedPosition(
           position.contracts + extra,
           position.traderDirection.Opposite(),
           AveragePrice(position.contracts, position.averageEntryPrice, extra, price),
           Pots(position.coordinatorMargin + extraCoordinator,
                position.traderMargin + extraTrader,
                reserveCoordinator - position.orderMatchingFees - extraCoordinator
                + position.orderMatchingFees + fee,
                reserveTrader - fee - extraTrader),
           None))
  }

  /** The profit that a decrease realises: the whole margins cap it, not the part being released. */
  function DecreasePnl(position: Position, fewer: Quantity, price: Positive): int
  {
    CalculatePnl(position.averageEntryPrice, price, fewer, position.traderDirection,
                 position.MarginLong(), position.MarginShort())
  }

  /** The decrease branch of `apply_resize_to_position`. */
  function Decreased(
    position: Position, fewer: Quantity, price: Positive, reserveCoordinator: nat, reserveTrader: nat, fee: nat
  ): Result<ResizedPosition, TradeError>
    requires fewer < position.contracts
  {
    var contracts := position.contracts - fewer;
    var marginCoordinator := CalculateMargin(position.averageEntryPrice, contracts, position.coordinatorLeverage);
    var marginTrader := CalculateMargin(position.averageEntryPrice, contracts, position.traderLeverage);
    var pnl := DecreasePnl(position, fewer, price);
    if position.coordinatorMargin < marginCoordinator then Err(NonsenseMarginChange)
    else if reserveCoordinator + (position.coordinatorMargin - marginCoordinator) - pnl < 0 then
      Err(NegativeCoordinatorReserve)
    else if position.traderMargin < marginTrader then Err(NonsenseMarginChange)
    else if reserveTrader + (position.traderMargin - marginTrader) + pnl - fee < 0 then
      Err(NegativeTraderReserve)
    else
      Ok(ResizedPosition(
           contracts,
           position.traderDirection.Opposite(),
           position.averageEntryPrice,
           Pots(marginCoordinator,
                marginTrader,
                reserveCoordinator + (position.coordinatorMargin - marginCoordinator) - pnl + fee,
                reserveTrader + (position.traderMargin - marginTrader) + pnl - fee),
           Some(pnl)))
  }

  /** The change-direction branch of `apply_resize_to_position`. */
  function Flipped(
    position: Position, newContracts: Positive, price: Positive, reserveCoordinator: nat, reserveTrader: nat, fee: nat
  ): Result<ResizedPosition, TradeError>
  {
    var marginCoordinator := CalculateMargin(price, newContracts, position.coordinatorLeverage);
    var marginTrader := CalculateMargin(price, newContracts, position.traderLeverage);
    var pnl := DecreasePnl(position, position.contracts, price);
    var closedMargin := position.RecomputedTraderMargin();
    var newReserveTrader := reserveTrader + closedMargin - marginTrader + pnl - fee;
    var total := position.traderMargin + position.coordinatorMargin + reserveCoordinator + reserveTrader;
    if newReserveTrader < 0 then Err(NegativeTraderReserve)
    else if total < newReserveTrader + marginTrader + marginCoordinator then Err(NegativeCoordinatorReserve)
    else
      Ok(ResizedPosition(
           newContracts,
           position.traderDirection,
           price,
           Pots(marginCoordinator,
                marginTrader,
                total - (newReserveTrader + marginTrader + marginCoordinator),
                newReserveTrader),
           Some(pnl)))
  }

  /** In the trader's direction, from the entry price to the price of the trade, between the two stored margins. */
  lemma DecreasePnlIsTraders(position: Position, fewer: Quantity, price: Positive)
    ensures IsPnl(DecreasePnl(position, fewer, price), position.traderDirection, position.averageEntryPrice, price,
                  fewer, position.traderMargin, position.coordinatorMargin)
  {
    PnlIsCapped(position.averageEntryPrice, price, fewer, position.traderDirection,
                position.MarginLong(), position.MarginShort());
  }

  /** The actions that `DetermineTradeAction` can ask of a position. */
  predicate Applicable(action: ResizeAction, position: Position)
  {
    match action
    case Increase(_, _) => true
    case Decrease(fewer, _) => fewer < position.contracts
    case ChangeDirection(newContracts, _) => newContracts > 0.0
  }

  function ApplyResize(action: ResizeAction, position: Position, reserveCoordinator: nat, reserveTrader: nat, fee: nat):
    Result<ResizedPosition, TradeError>
    requires Applicable(action, position)
  {
    match action
    case Increase(extra, price) => Increased(position, extra, price, reserveCoordinator, reserveTrader, fee)
    case Decrease(fewer, price) => Decreased(position, fewer, price, reserveCoordinator, reserveTrader, fee)
    case ChangeDirection(newContracts, price) =>
      Flipped(position, newContracts, price, reserveCoordinator, reserveTrader, fee)
  }

  lemma DeterminedActionsApply(position: Position, trade: TradeParams)
    ensures var action := DetermineTradeAction(position.SignedContracts(), trade.SignedContracts(), trade.price);
            action.ResizePosition? ==> Applicable(action.action, position)
  {
    ProductSign(position.SignedContracts(), trade.SignedContracts());
  }

  /** For each action, exactly which funds must be there for the resize to go through. */
  predicate ResizeIsFunded(
    action: ResizeAction, position: Position, reserveCoordinator: nat, reserveTrader: nat, fee: nat
  )
    requires Applicable(action, position)
  {
    match action
    case Increase(extra, price) =>
      && position.orderMatchingFees + CalculateMargin(price, extra, position.coordinatorLeverage) <= reserveCoordinator
      && fee + CalculateMargin(price, extra, position.traderLeverage) <= reserveTrader
    case Decrease(fewer, price) =>
      var (entry, rest) := (position.averageEntryPrice, position.contracts - fewer);
      var marginCoordinator := CalculateMargin(entry, rest, position.coordinatorLeverage);
      var marginTrader := CalculateMargin(entry, rest, position.traderLeverage);
      var pnl := DecreasePnl(position, fewer, price);
      && marginCoordinator <= position.coordinatorMargin
      && marginTrader <= position.traderMargin
      && marginCoordinator + pnl <= position.coordinatorMargin + reserveCoordinator
      && marginTrader + fee <= position.traderMargin + reserveTrader + pnl
    case ChangeDirection(newContracts, price) =>
      var pnl := DecreasePnl(position, position.contracts, price);
      var keeps := reserveTrader + position.RecomputedTraderMargin() + pnl - fee;
      && CalculateMargin(price, newContracts, position.traderLeverage) <= keeps
      && keeps + CalculateMargin(price, newContracts, position.coordinatorLeverage)
         <= position.traderMargin + position.coordinatorMargin + reserveCoordinator + reserveTrader
  }

  /** What the trader realises, beside the fee. A change of direction additionally pays out the margin that the
      leverage stands for instead of the margin that is stored. */
  function RealizedPnl(action: ResizeAction, position: Position): int
  {
    match action
    case Increase(_, _) => 0
    case Decrease(fewer, price) => DecreasePnl(position, fewer, price)
    case ChangeDirection(_, price) => DecreasePnl(position, position.contracts, price)
  }

  function MarginDrift(action: ResizeAction, position: Position): int
  {
    if action.ChangeDirection? then position.RecomputedTraderMargin() - position.traderMargin else 0
  }

  /** A resize goes through exactly when it is funded, and then moves between the two parties exactly the
      realised profit, the order-matching fee and the margin drift. */
  lemma ResizeLedger(action: ResizeAction, position: Position, reserveCoordinator: nat, reserveTrader: nat, fee: nat)
    requires Applicable(action, position)
    ensures var result := ApplyResize(action, position, reserveCoordinator, reserveTrader, fee);
            && (result.Ok? <==> ResizeIsFunded(action, position, reserveCoordinator, reserveTrader, fee))
            && (result.Ok? ==>
                  var moved := RealizedPnl(action, position) - fee + MarginDrift(action, position);
                  && result.value.pots.Trader() == position.traderMargin + reserveTrader + moved
                  && result.value.pots.Coordinator() == position.coordinatorMargin + reserveCoordinator - moved)
  {
  }

  /** The price and the profit that go with the resized row: an increase averages its value and realises nothing, a
      decrease keeps the entry price and a change of direction takes that of the trade, and both report the trader's
      profit on the contracts that they close. */
  lemma ResizedPriceAndPnl(
    action: ResizeAction, position: Position, reserveCoordinator: nat, reserveTrader: nat, fee: nat
  )
    requires Applicable(action, position)
    requires ApplyResize(action, position, reserveCoordinator, reserveTrader, fee).Ok?
    ensures var resized := ApplyResize(action, position, reserveCoordinator, reserveTrader, fee).value;
            match action
            case Increase(extra, price) =>
              && resized.realizedPnl.None?
              && resized.contracts / resized.averagePrice
                 == position.contracts / position.averageEntryPrice + extra / price
            case Decrease(fewer, price) =>
              && resized.averagePrice == position.averageEntryPrice
              && resized.realizedPnl.Some?
              && IsPnl(resized.realizedPnl.value, position.traderDirection, position.averageEntryPrice, price, fewer,
                       position.traderMargin, position.coordinatorMargin)
            case ChangeDirection(_, price) =>
              && resized.averagePrice == price
              && resized.realizedPnl.Some?
              && IsPnl(resized.realizedPnl.value, position.traderDirection, position.averageEntryPrice, price,
                       position.contracts, position.traderMargin, position.coordinatorMargin)
  {
    match action
    case Increase(_, _) =>
    case Decrease(fewer, price) => DecreasePnlIsTraders(position, fewer, price);
    case ChangeDirection(_, price) => DecreasePnlIsTraders(position, position.contracts, price);
  }

  /** Which margins go with it: those of the new size at the leverages of the position; an increase adds the margins
      of the contracts that come to it. */
  lemma ResizedMargins(
    action: ResizeAction, position: Position, reserveCoordinator: nat, reserveTrader: nat, fee: nat
  )
    requires Applicable(action, position)
    requires ApplyResize(action, position, reserveCoordinator, reserveTrader, fee).Ok?
    ensures var resized := ApplyResize(action, position, reserveCoordinator, reserveTrader, fee).value;
            var pots := resized.pots;
            match action
            case Increase(extra, price) =>
              && pots.marginTrader
                 == position.traderMargin + CalculateMargin(price, extra, position.traderLeverage)
              && pots.marginCoordinator
                 == position.coordinatorMargin + CalculateMargin(price, extra, position.coordinatorLeverage)
            case _ =>
              && pots.marginTrader
                 == CalculateMargin(resized.averagePrice, resized.contracts, position.traderLeverage)
              && pots.marginCoordinator
                 == CalculateMargin(resized.averagePrice, resized.contracts, position.coordinatorLeverage)
  {
  }

  /** A refusal names what is missing. */
  lemma ResizeRefusals(
    action: ResizeAction, position: Position, reserveCoordinator: nat, reserveTrader: nat, fee: nat
  )
    requires Applicable(action, position)
    requires ApplyResize(action, position, reserveCoordinator, reserveTrader, fee).Err?
    ensures var (entry, trader, coordinator) :=
              (position.averageEntryPrice, position.traderLeverage, position.coordinatorLeverage);
            match ApplyResize(action, position, reserveCoordinator, reserveTrader, fee).error
            case AccruedFeesExceedReserve => action.Increase? && reserveCoordinator < position.orderMatchingFees
            case CoordinatorCannotCoverMargin =>
              && action.Increase? && position.orderMatchingFees <= reserveCoordinator
              && reserveCoordinator
                 < position.orderMatchingFees + CalculateMargin(action.price, action.contracts, coordinator)
            case TraderCannotCoverMargin =>
              && action.Increase?
              && reserveTrader < fee + CalculateMargin(action.price, action.contracts, trader)
            case NonsenseMarginChange =>
              && action.Decrease?
              && var rest := position.contracts - action.contracts;
                 || position.coordinatorMargin < CalculateMargin(entry, rest, coordinator)
                 || position.traderMargin < CalculateMargin(entry, rest, trader)
            case NegativeCoordinatorReserve =>
              !action.Increase? && (action.Decrease? ==>
                position.coordinatorMargin + reserveCoordinator
                < CalculateMargin(entry, position.contracts - action.contracts, coordinator)
                  + DecreasePnl(position, action.contracts, action.price))
            case NegativeTraderReserve =>
              && (action.Decrease? ==>
                    position.traderMargin + reserveTrader + DecreasePnl(position, action.contracts, action.price)
                    < CalculateMargin(entry, position.contracts - action.contracts, trader) + fee)
              && (action.ChangeDirection? ==>
                    position.RecomputedTraderMargin() + reserveTrader
                    + DecreasePnl(position, position.contracts, action.price)
                    < CalculateMargin(action.price, action.contractsNewDirection, trader) + fee)
              && !action.Increase?
            case NotEnoughExternalFunds => false
  {
  }

  lemma ResizedContracts(
    action: ResizeAction, position: Position, reserveCoordinator: nat, reserveTrader: nat, fee: nat
  )
    requires Applicable(action, position)
    requires ApplyResize(action, position, reserveCoordinator, reserveTrader, fee).Ok?
    ensures var resized := ApplyResize(action, position, reserveCoordinator, reserveTrader, fee).value;
            RelativeContracts(resized.contracts, resized.coordinatorDirection.Opposite())
            == ContractsAfter(ResizePosition(action), position.contracts, position.traderDirection)
  {
  }
}
