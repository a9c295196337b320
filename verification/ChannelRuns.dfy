/** What every run of a channel keeps: the collateral, the ledger of each party, the accrued fees and the
    number of contracts. */
module ChannelRuns {
  import opened Wrappers
  import opened Cfd
  import opened Positions
  import opened Trade
  import opened Channel
  import Reals

  // ---------------------------------------------------------------- the two ledgers

  /** The position and the reserves once the outstanding funding fees are netted into them. */
  function Funded(channel: Channel, op: Op): Channel
    requires channel.state.Established?
  {
    FundChannel(channel, NetFundingFee(op.fundingEvents))
  }

  function OverpaidBy(channel: Channel, op: Op): nat
    requires channel.state.Established?
  {
    Overpaid(channel.state.position, NetFundingFee(op.fundingEvents))
  }

  /** What the coordinator collects of the closing fee: no more than the trader's side still holds. */
  function CollectedFee(channel: Channel, price: Positive, matchingFee: nat): int
    requires channel.state.Established?
  {
    var position := channel.state.position;
    Min(matchingFee, position.RecomputedTraderMargin() - CoordinatorPnl(position, price))
  }

  /** What closing moves to the trader beside profit and fee: how far the coordinator's stored margin is from the one
      its leverage stands for, corrected by what the channel cannot pay and by coins that do not exist. */
  function CloseDrift(channel: Channel, price: Positive, matchingFee: nat): int
    requires channel.state.Established?
  {
    var position := channel.state.position;
    position.coordinatorMargin - position.RecomputedCoordinatorMargin()
    + SettlementShortfall(channel, price, matchingFee) - channel.Excess()
  }

  function TraderCloseGain(channel: Channel, price: Positive, matchingFee: nat): int
    requires channel.state.Established?
  {
    CloseDrift(channel, price, matchingFee)
    - CoordinatorPnl(channel.state.position, price) - CollectedFee(channel, price, matchingFee)
  }

  function CoordinatorCloseGain(channel: Channel, price: Positive, matchingFee: nat): int
    requires channel.state.Established?
  {
    CoordinatorPnl(channel.state.position, price) + CollectedFee(channel, price, matchingFee)
    - CloseDrift(channel, price, matchingFee) - channel.Excess()
  }

  /** What a successful trade moves from the coordinator to the trader in an established channel. */
  function ResizeGain(channel: Channel, action: ResizeAction, matchingFee: nat): int
    requires channel.state.Established?
  {
    RealizedPnl(action, channel.state.position) - matchingFee + MarginDrift(action, channel.state.position)
  }

  function TraderGain(channel: Channel, op: Op): int
  {
    if Step(channel, op).Err? then 0
    else if channel.state.Settled? then (if op.OrderMatched? then 0 - op.trade.matchingFee else 0)
    else
      var fee := NetFundingFee(op.fundingEvents);
      var funding := if fee.CoordinatorPays? then fee.amount
                     else if fee.TraderPays? then OverpaidBy(channel, op) - fee.amount else 0;
      if op.RolloverDue? then funding
      else
        match ActionFor(channel, op.trade)
        case ClosePosition => funding + TraderCloseGain(Funded(channel, op), op.trade.price, op.trade.matchingFee)
        case ResizePosition(action) => funding + ResizeGain(Funded(channel, op), action, op.trade.matchingFee)
  }

  function CoordinatorGain(channel: Channel, op: Op): int
  {
    if Step(channel, op).Err? then 0
    else if channel.state.Settled? then (if op.OrderMatched? then op.trade.matchingFee else 0)
    else
      var fee := NetFundingFee(op.fundingEvents);
      var funding := if fee.TraderPays? then fee.amount
                     else if fee.CoordinatorPays? then OverpaidBy(channel, op) - fee.amount else 0;
      if op.RolloverDue? then funding
      else
        match ActionFor(channel, op.trade)
        case ClosePosition => funding + CoordinatorCloseGain(Funded(channel, op), op.trade.price, op.trade.matchingFee)
        case ResizePosition(action) => funding - ResizeGain(Funded(channel, op), action, op.trade.matchingFee)
  }

  lemma CloseLedger(channel: Channel, price: Positive, matchingFee: nat)
    requires channel.state.Established?
    ensures var after := ClosePositionIn(channel, price, matchingFee);
            && after.TraderHoldings() == channel.TraderHoldings() + TraderCloseGain(channel, price, matchingFee)
            && after.CoordinatorHoldings()
               == channel.CoordinatorHoldings() + CoordinatorCloseGain(channel, price, matchingFee)
            && after.Excess() == 0
  {
    SettlementCollectsFee(channel.state.position, price, matchingFee);
  }

  lemma StepLedger(channel: Channel, op: Op)
    ensures var after := Next(channel, op);
            && after.total == channel.total
            && after.TraderHoldings() == channel.TraderHoldings() + TraderGain(channel, op)
            && after.CoordinatorHoldings() == channel.CoordinatorHoldings() + CoordinatorGain(channel, op)
  {
    if channel.state.Established? {
      FundingFeeLedger(channel, NetFundingFee(op.fundingEvents));
      if op.OrderMatched? {
        var funded := Funded(channel, op);
        if ActionFor(channel, op.trade).ClosePosition? {
          CloseLedger(funded, op.trade.price, op.trade.matchingFee);
        } else {
          ResizeStepLedger(channel, op);
        }
      }
    }
  }

  /** A resize moves its gain on top of what the funding fee has moved. */
  lemma ResizeStepLedger(channel: Channel, op: Op)
    requires channel.state.Established? && op.OrderMatched? && ActionFor(channel, op.trade).ResizePosition?
    ensures var (funded, after) := (Funded(channel, op), Next(channel, op));
            var gain := ResizeGain(funded, ActionFor(channel, op.trade).action, op.trade.matchingFee);
            && after.total == channel.total
            && (if Step(channel, op).Err? then after == channel
                else && after.TraderHoldings() == funded.TraderHoldings() + gain
                     && after.CoordinatorHoldings() == funded.CoordinatorHoldings() - gain)
  {
    var funded := Funded(channel, op);
    DeterminedActionsApply(funded.state.position, op.trade);
    ResizeLedger(ActionFor(channel, op.trade).action, funded.state.position, funded.state.reserveCoordinator,
                 funded.state.reserveTrader, op.trade.matchingFee);
  }

  /** The sum over a run of what each of its steps contributes. */
  function TotalOver(channel: Channel, ops: seq<Op>, of: (Channel, Op) -> int): int
    decreases |ops|
  {
    if |ops| == 0 then 0 else of(channel, ops[0]) + TotalOver(Next(channel, ops[0]), ops[1..], of)
  }

  /** Over any run each party holds what it started with plus its ledger; the locked collateral never changes. */
  lemma {:induction false} RunLedger(channel: Channel, ops: seq<Op>)
    ensures var after := Run(channel, ops);
            && after.total == channel.total
            && after.TraderHoldings() == channel.TraderHoldings() + TotalOver(channel, ops, TraderGain)
            && after.CoordinatorHoldings() == channel.CoordinatorHoldings() + TotalOver(channel, ops, CoordinatorGain)
    decreases |ops|
  {
    if |ops| == 0 {
    } else {
      StepLedger(channel, ops[0]);
      RunLedger(Next(channel, ops[0]), ops[1..]);
    }
  }

  // ---------------------------------------------------------------- the entries of the ledger

  /** The profit that a step realises for the trader. */
  function Profit(channel: Channel, op: Op): int
  {
    if Step(channel, op).Err? || channel.state.Settled? || op.RolloverDue? then 0
    else
      var position := Funded(channel, op).state.position;
      match ActionFor(channel, op.trade)
      case ClosePosition => 0 - CoordinatorPnl(position, op.trade.price)
      case ResizePosition(action) => RealizedPnl(action, position)
  }

  /** The order-matching fee that a step collects from the trader. */
  function FeePaid(channel: Channel, op: Op): int
  {
    if Step(channel, op).Err? || op.RolloverDue? then 0
    else if channel.state.Settled? then op.trade.matchingFee
    else if ActionFor(channel, op.trade).ClosePosition? then
      CollectedFee(Funded(channel, op), op.trade.price, op.trade.matchingFee)
    else op.trade.matchingFee
  }

  /** Profit and fee, to the last satoshi: the profit is that of the contracts that the step closes, in the trader's
      direction, between the margins recomputed from the leverages when everything is closed and between the stored
      ones otherwise. The fee is collected in full, but when everything is closed only as far as the trader's margin and
      profit go. */
  lemma StepProfitAndFee(channel: Channel, op: Op)
    requires channel.state.Established? && op.OrderMatched? && Step(channel, op).Ok?
    ensures var position := Funded(channel, op).state.position;
            var (direction, entry, price) := (position.traderDirection, position.averageEntryPrice, op.trade.price);
            match ActionFor(channel, op.trade)
            case ClosePosition =>
              && IsPnl(Profit(channel, op), direction, entry, price, position.contracts,
                       position.RecomputedTraderMargin(), position.RecomputedCoordinatorMargin())
              && FeePaid(channel, op)
                 == Min(op.trade.matchingFee, position.RecomputedTraderMargin() + Profit(channel, op))
            case ResizePosition(Increase(_, _)) =>
              Profit(channel, op) == 0 && FeePaid(channel, op) == op.trade.matchingFee
            case ResizePosition(Decrease(fewer, _)) =>
              && fewer == op.trade.quantity && FeePaid(channel, op) == op.trade.matchingFee
              && IsPnl(Profit(channel, op), direction, entry, price, fewer,
                       position.traderMargin, position.coordinatorMargin)
            case ResizePosition(ChangeDirection(_, _)) =>
              && FeePaid(channel, op) == op.trade.matchingFee
              && IsPnl(Profit(channel, op), direction, entry, price, position.contracts,
                       position.traderMargin, position.coordinatorMargin)
  {
    var position := Funded(channel, op).state.position;
    match ActionFor(channel, op.trade)
    case ClosePosition => CoordinatorPnlIsTradersLoss(position, op.trade.price);
    case ResizePosition(Increase(_, _)) =>
    case ResizePosition(Decrease(fewer, price)) => DecreasePnlIsTraders(position, fewer, price);
    case ResizePosition(ChangeDirection(_, price)) => DecreasePnlIsTraders(position, position.contracts, price);
  }

  /** The funding that a step pays to the trader, or if negative takes from its margin. */
  function FundingReceived(channel: Channel, op: Op): int
  {
    if Step(channel, op).Err? || channel.state.Settled? then 0
    else
      match NetFundingFee(op.fundingEvents)
      case Zero => 0
      case CoordinatorPays(amount) => amount
      case TraderPays(amount) => OverpaidBy(channel, op) - amount
  }

  /** The funding, from the events: a negative sum is paid to the trader in full, a positive one is taken from the
      trader's margin as far as that goes. */
  lemma StepFunding(channel: Channel, op: Op)
    requires channel.state.Established? && Step(channel, op).Ok?
    ensures var owed := Sum(op.fundingEvents);
            && FundingReceived(channel, op)
               == (if owed <= 0 then -owed else -Min(owed, channel.state.position.traderMargin))
            && Funded(channel, op).TraderHoldings() == channel.TraderHoldings() + FundingReceived(channel, op)
  {
  }

  /** The margin that a step moves to the trader only because stored and recomputed margins differ. */
  function Drift(channel: Channel, op: Op): int
  {
    if Step(channel, op).Err? || channel.state.Settled? || op.RolloverDue? then 0
    else
      var funded := Funded(channel, op);
      match ActionFor(channel, op.trade)
      case ClosePosition => CloseDrift(funded, op.trade.price, op.trade.matchingFee)
      case ResizePosition(action) => MarginDrift(action, funded.state.position)
  }

  /** The coins by which a step changes what both parties hold together. */
  function Minted(channel: Channel, op: Op): int
  {
    if Closes(channel, op) then 0 - channel.Excess() else Created(channel, op)
  }

  lemma StepEntries(channel: Channel, op: Op)
    ensures TraderGain(channel, op)
            == Profit(channel, op) - FeePaid(channel, op) + FundingReceived(channel, op) + Drift(channel, op)
    ensures TraderGain(channel, op) + CoordinatorGain(channel, op) == Minted(channel, op)
  {
    EntriesAddUp(channel, op);
    GainsAreMinted(channel, op);
  }

  lemma EntriesAddUp(channel: Channel, op: Op)
    ensures TraderGain(channel, op)
            == Profit(channel, op) - FeePaid(channel, op) + FundingReceived(channel, op) + Drift(channel, op)
  {
  }

  lemma GainsAreMinted(channel: Channel, op: Op)
    ensures TraderGain(channel, op) + CoordinatorGain(channel, op) == Minted(channel, op)
  {
    StepLedger(channel, op);
    StepExcess(channel, op);
  }

  /** Over any run the trader's ledger is profits less fees plus funding and drifts, summed separately, and the
      coordinator's is its mirror image but for coins that funding fees created and closes removed. */
  lemma {:induction false} RunEntries(channel: Channel, ops: seq<Op>)
    ensures TotalOver(channel, ops, TraderGain)
            == TotalOver(channel, ops, Profit) - TotalOver(channel, ops, FeePaid)
               + TotalOver(channel, ops, FundingReceived) + TotalOver(channel, ops, Drift)
    ensures TotalOver(channel, ops, CoordinatorGain)
            == TotalOver(channel, ops, Minted) - TotalOver(channel, ops, TraderGain)
    decreases |ops|
  {
    if |ops| > 0 {
      StepEntries(channel, ops[0]);
      RunEntries(Next(channel, ops[0]), ops[1..]);
    }
  }

  /** Along a covered run nothing is created or removed: what one party gains the other loses. */
  lemma {:induction false} CoveredRunsMirror(channel: Channel, ops: seq<Op>)
    requires channel.Excess() == 0 && Covered(channel, ops)
    ensures TotalOver(channel, ops, CoordinatorGain) == 0 - TotalOver(channel, ops, TraderGain)
  {
    RunLedger(channel, ops);
    CoveredRunsConserve(channel, ops);
  }

  // ---------------------------------------------------------------- conservation

  predicate Closes(channel: Channel, op: Op)
  {
    channel.state.Established? && op.OrderMatched? && ActionFor(channel, op.trade).ClosePosition?
  }

  /** The coins that a step conjures up. */
  function Created(channel: Channel, op: Op): nat
  {
    if channel.state.Settled? || Step(channel, op).Err? then 0 else OverpaidBy(channel, op)
  }

  lemma StepExcess(channel: Channel, op: Op)
    ensures Next(channel, op).Excess() == if Closes(channel, op) then 0 else channel.Excess() + Created(channel, op)
  {
    StepLedger(channel, op);
    if channel.state.Established? {
      FundingFeeLedger(channel, NetFundingFee(op.fundingEvents));
      if Closes(channel, op) {
        CloseLedger(Funded(channel, op), op.trade.price, op.trade.matchingFee);
      }
    }
  }

  /** No step of the run nets a funding fee larger than the payer's margin, unless it closes the position. */
  predicate Covered(channel: Channel, ops: seq<Op>)
    decreases |ops|
  {
    |ops| == 0 || ((Closes(channel, ops[0]) || Created(channel, ops[0]) == 0)
                   && Covered(Next(channel, ops[0]), ops[1..]))
  }

  predicate NeverCloses(channel: Channel, ops: seq<Op>)
    decreases |ops|
  {
    |ops| == 0 || (!Closes(channel, ops[0]) && NeverCloses(Next(channel, ops[0]), ops[1..]))
  }

  /** Margins and reserves add up to the locked collateral along every covered run. */
  lemma {:induction false} CoveredRunsConserve(channel: Channel, ops: seq<Op>)
    requires channel.Excess() == 0 && Covered(channel, ops)
    ensures Run(channel, ops).Excess() == 0
    decreases |ops|
  {
    if |ops| == 0 {
    } else {
      StepExcess(channel, ops[0]);
      CoveredRunsConserve(Next(channel, ops[0]), ops[1..]);
    }
  }

  lemma {:induction false} ExcessOnlyGrows(channel: Channel, ops: seq<Op>)
    requires NeverCloses(channel, ops)
    ensures Run(channel, ops).Excess() >= channel.Excess()
    decreases |ops|
  {
    if |ops| == 0 {
    } else {
      StepExcess(channel, ops[0]);
      ExcessOnlyGrows(Next(channel, ops[0]), ops[1..]);
    }
  }

  /** Between two closes the collateral is conserved exactly when every funding fee was covered. */
  lemma {:induction false} ConservedIffCovered(channel: Channel, ops: seq<Op>)
    requires channel.Excess() == 0 && NeverCloses(channel, ops)
    ensures Run(channel, ops).Excess() == 0 <==> Covered(channel, ops)
    decreases |ops|
  {
    if |ops| == 0 {
    } else {
      var next := Next(channel, ops[0]);
      StepExcess(channel, ops[0]);
      if next.Excess() == 0 {
        ConservedIffCovered(next, ops[1..]);
      } else {
        ExcessOnlyGrows(next, ops[1..]);
      }
    }
  }

  // ---------------------------------------------------------------- accrued fees

  /** The margin, at a given leverage, of the contracts that a decrease or a change of direction leaves. */
  function RestMargin(action: ResizeAction, position: Position, leverage: Positive): nat
    requires Applicable(action, position) && !action.Increase?
  {
    match action
    case Decrease(fewer, _) => CalculateMargin(position.averageEntryPrice, position.contracts - fewer, leverage)
    case ChangeDirection(newContracts, price) => CalculateMargin(price, newContracts, leverage)
  }

  /** A matched order that makes a position smaller or turns it. */
  predicate Reduces(channel: Channel, op: Op)
  {
    && channel.state.Established? && op.OrderMatched?
    && ActionFor(channel, op.trade).ResizePosition? && !ActionFor(channel, op.trade).action.Increase?
  }

  /** What a decrease or a change of direction would draw from the coordinator's reserve beyond the coordinator
      margin that it releases, from the channel before the step. */
  function ReserveDrawn(channel: Channel, op: Op): int
    requires Reduces(channel, op)
  {
    var action := ActionFor(channel, op.trade).action;
    var position := Funded(channel, op).state.position;
    DeterminedActionsApply(position, op.trade);
    RealizedPnl(action, position) + MarginDrift(action, position)
    + RestMargin(action, position, position.coordinatorLeverage) - position.coordinatorMargin
  }

  /** The step draws nothing from the accrued order-matching fees. A reopening does not if it need not borrow
      the fee it earns. */
  predicate LeavesFees(channel: Channel, op: Op)
  {
    if Step(channel, op).Err? || op.RolloverDue? then true
    else if channel.state.Settled? then op.trade.CoordinatorMargin() <= channel.state.ownPayout
    else
      match ActionFor(channel, op.trade)
      case ClosePosition => true
      case ResizePosition(action) => action.Increase? || ReserveDrawn(channel, op) <= 0
  }

  lemma StepSurplus(channel: Channel, op: Op)
    requires channel.Surplus() >= 0 && LeavesFees(channel, op)
    ensures Next(channel, op).Surplus() >= 0
  {
    if channel.state.Established? && op.OrderMatched? && ActionFor(channel, op.trade).ResizePosition? {
      ResizeSurplus(channel, op);
    }
  }

  lemma ResizeSurplus(channel: Channel, op: Op)
    requires channel.Surplus() >= 0 && LeavesFees(channel, op)
    requires channel.state.Established? && op.OrderMatched? && ActionFor(channel, op.trade).ResizePosition?
    ensures Next(channel, op).Surplus() >= 0
  {
    var funded := Funded(channel, op);
    FundingFeeLedger(channel, NetFundingFee(op.fundingEvents));
    DeterminedActionsApply(funded.state.position, op.trade);
    assert funded.Surplus() >= channel.Surplus();
    if !ActionFor(channel, op.trade).action.Increase? && Step(channel, op).Ok? {
      FeesSurviveResizeIff(channel, op);
    }
  }

  /** The accrued fees survive a decrease or a change of direction exactly when the uncommitted part of the
      reserve, as it is before the step, covers what is drawn. */
  lemma FeesSurviveResizeIff(channel: Channel, op: Op)
    requires Reduces(channel, op) && Step(channel, op).Ok?
    ensures Next(channel, op).Surplus() >= 0 <==> ReserveDrawn(channel, op) <= Funded(channel, op).Surplus()
  {
    DeterminedActionsApply(Funded(channel, op).state.position, op.trade);
  }

  predicate RunLeavesFees(channel: Channel, ops: seq<Op>)
    decreases |ops|
  {
    |ops| == 0 || (LeavesFees(channel, ops[0]) && RunLeavesFees(Next(channel, ops[0]), ops[1..]))
  }

  lemma {:induction false} AccruedFeesStayProtected(channel: Channel, ops: seq<Op>)
    requires channel.Surplus() >= 0 && RunLeavesFees(channel, ops)
    ensures Run(channel, ops).Surplus() >= 0
    decreases |ops|
  {
    if |ops| == 0 {
    } else {
      StepSurplus(channel, ops[0]);
      AccruedFeesStayProtected(Next(channel, ops[0]), ops[1..]);
    }
  }

  // ---------------------------------------------------------------- contracts

  /** The signed sum of the orders of a run that went through. */
  function TradedContracts(channel: Channel, ops: seq<Op>): real
    decreases |ops|
  {
    if |ops| == 0 then 0.0
    else
      (if ops[0].OrderMatched? && Step(channel, ops[0]).Ok? then ops[0].trade.SignedContracts() else 0.0)
      + TradedContracts(Next(channel, ops[0]), ops[1..])
  }

  lemma StepContracts(channel: Channel, op: Op)
    ensures Next(channel, op).SignedContracts()
            == channel.SignedContracts()
               + if op.OrderMatched? && Step(channel, op).Ok? then op.trade.SignedContracts() else 0.0
  {
    if channel.state.Established? && op.OrderMatched? {
      var funded := Funded(channel, op);
      var position := channel.state.position;
      TradeActionAddsContracts(position.contracts, position.traderDirection, op.trade.SignedContracts(),
                               op.trade.price);
      match ActionFor(channel, op.trade)
      case ClosePosition =>
      case ResizePosition(action) =>
        DeterminedActionsApply(funded.state.position, op.trade);
        if Step(channel, op).Ok? {
          ResizedContracts(action, funded.state.position, funded.state.reserveCoordinator,
                           funded.state.reserveTrader, op.trade.matchingFee);
        }
    }
  }

  /** Closing, increasing, decreasing, flipping and reopening together keep one running sum. */
  lemma {:induction false} PositionIsRunningSum(channel: Channel, ops: seq<Op>)
    ensures Run(channel, ops).SignedContracts() == channel.SignedContracts() + TradedContracts(channel, ops)
    decreases |ops|
  {
    if |ops| == 0 {
    } else {
      StepContracts(channel, ops[0]);
      PositionIsRunningSum(Next(channel, ops[0]), ops[1..]);
    }
  }

  // ---------------------------------------------------------------- what the code does not keep

  /** A long position of 100 contracts entered at 10,000 with leverage two on both sides. */
  function ExamplePosition(fees: nat): Position
  {
    Position(100.0, Long, 10_000.0, 500_000, 500_000, 2.0, 2.0, fees)
  }

  lemma ExampleMargins(fees: nat)
    ensures ExamplePosition(fees).TraderMarginConsistent() && ExamplePosition(fees).CoordinatorMarginConsistent()
    ensures CalculateMargin(10_000.0, 50.0, 2.0) == 250_000
    ensures CalculateMargin(10_000.0, 50.0, 2.5) == 200_000
  {
    assert ExactMargin(10_000.0, 100.0, 2.0) == 500_000.0;
    assert ExactMargin(10_000.0, 50.0, 2.0) == 250_000.0;
    assert ExactMargin(10_000.0, 50.0, 2.5) == 200_000.0;
  }

  /** The profit of a decrease is capped by the whole margin, not by the part released, so a trade beyond the
      bankruptcy price can pay the trader out of the accrued order-matching fees. */
  lemma DecreaseCanSpendAccruedFees()
    ensures var channel := Channel(1_400_000, Established(ExamplePosition(100_000), 300_000, 100_000));
            var op := OrderMatched(TradeParams(Short, 50.0, 1_000_000.0, 2.0, 0), []);
            && channel.Excess() == 0 && channel.Surplus() >= 0
            && Step(channel, op).Ok?
            && Next(channel, op).Surplus() < 0
  {
    ExampleMargins(100_000);
    var position := ExamplePosition(100_000);
    assert ExactPnlLong(10_000.0, 1_000_000.0, 50.0) == 495_000.0;
    assert DecreasePnl(position, 50.0, 1_000_000.0) == 495_000;
    assert ActionFor(Channel(1_400_000, Established(position, 300_000, 100_000)),
                     TradeParams(Short, 50.0, 1_000_000.0, 2.0, 0))
           == ResizePosition(Decrease(50.0, 1_000_000.0)) by {
      assert (100.0 * -50.0) < 0.0;
    }
  }

  /** The margins stored after a decrease or a change of direction, and those that the stored leverages stand for. */
  lemma ReducedMargins(channel: Channel, op: Op)
    requires Reduces(channel, op) && Step(channel, op).Ok?
    ensures var action := ActionFor(channel, op.trade).action;
            var before := channel.state.position;
            var funded := Funded(channel, op).state.position;
            var after := Next(channel, op).state.position;
            && Applicable(action, funded)
            && after.coordinatorMargin == RestMargin(action, funded, funded.coordinatorLeverage)
            && after.RecomputedCoordinatorMargin() == RestMargin(action, funded, before.coordinatorLeverage)
            && after.traderMargin == RestMargin(action, funded, funded.traderLeverage)
            && after.RecomputedTraderMargin() == RestMargin(action, funded, before.traderLeverage)
  {
    DeterminedActionsApply(Funded(channel, op).state.position, op.trade);
  }

  /** A decrease or a change of direction stores margins that its stored leverages stand for exactly when the
      leverages before and after the funding fee give the same margin to what is left of the position. */
  lemma ResizeKeepsMarginsConsistentIff(channel: Channel, op: Op)
    requires Reduces(channel, op) && Step(channel, op).Ok?
    ensures var action := ActionFor(channel, op.trade).action;
            var before := channel.state.position;
            var funded := Funded(channel, op).state.position;
            var after := Next(channel, op).state.position;
            && Applicable(action, funded)
            && (after.CoordinatorMarginConsistent()
                <==> RestMargin(action, funded, funded.coordinatorLeverage)
                     == RestMargin(action, funded, before.coordinatorLeverage))
            && (after.TraderMarginConsistent()
                <==> RestMargin(action, funded, funded.traderLeverage)
                     == RestMargin(action, funded, before.traderLeverage))
            && (NetFundingFee(op.fundingEvents).Zero?
                ==> after.CoordinatorMarginConsistent() && after.TraderMarginConsistent())
  {
    ReducedMargins(channel, op);
  }

  /** When the pots add up, what a close moves beside profit and fee is the distance of the coordinator's margin from
      its leverage, unless the trader's whole holdings cannot bear it. */
  lemma CloseDriftIs(channel: Channel, price: Positive, matchingFee: nat)
    requires channel.state.Established? && channel.Excess() == 0
    ensures CloseDrift(channel, price, matchingFee)
            == Max(channel.state.position.coordinatorMargin - channel.state.position.RecomputedCoordinatorMargin(),
                   CoordinatorPnl(channel.state.position, price) + CollectedFee(channel, price, matchingFee)
                   - channel.TraderHoldings())
  {
    SettlementCollectsFee(channel.state.position, price, matchingFee);
  }

  /** The close after a decrease or a change of direction moves, beside profit and fee, what the stale coordinator
      leverage mistakes the remaining margin for: nothing when neither leverage changes the remaining margins, and
      in general nothing exactly when the larger of the mistake and of the trader's overdraft is zero. */
  lemma NextCloseTakesNothingBackIff(channel: Channel, op: Op, price: Positive, matchingFee: nat)
    requires Reduces(channel, op) && Step(channel, op).Ok?
    requires channel.Excess() == 0 && OverpaidBy(channel, op) == 0
    ensures var action := ActionFor(channel, op.trade).action;
            var before := channel.state.position;
            var funded := Funded(channel, op).state.position;
            var after := Next(channel, op);
            && Applicable(action, funded)
            && var mistake := RestMargin(action, funded, funded.coordinatorLeverage)
                              - RestMargin(action, funded, before.coordinatorLeverage);
               var overdraft := CoordinatorPnl(after.state.position, price) + CollectedFee(after, price, matchingFee)
                                - after.TraderHoldings();
               && (CloseDrift(after, price, matchingFee) == 0 <==> Max(mistake, overdraft) == 0)
               && (mistake == 0 && RestMargin(action, funded, funded.traderLeverage)
                                   == RestMargin(action, funded, before.traderLeverage)
                   ==> CloseDrift(after, price, matchingFee) == 0)
  {
    ReducedMargins(channel, op);
    StepExcess(channel, op);
    CloseDriftIs(Next(channel, op), price, matchingFee);
  }

  /** A resize stores margins computed with the leverage after the funding fee next to the leverage before it.
      Here the coordinator owes 100,000 sats of funding, half the position is closed at the entry price, then
      the other half: the trader ends up with half of the fee only. */
  lemma StaleLeverageTakesBackFundingFee()
    ensures var channel := Channel(1_200_000, Established(ExamplePosition(0), 100_000, 100_000));
            var half := TradeParams(Short, 50.0, 10_000.0, 2.0, 0);
            var end := Run(channel, [OrderMatched(half, [-100_000]), OrderMatched(half, [])]);
            && end.state.Settled?
            && end.TraderHoldings() == channel.TraderHoldings() + 50_000
  {
    ExampleMargins(0);
    var channel := Channel(1_200_000, Established(ExamplePosition(0), 100_000, 100_000));
    var half := TradeParams(Short, 50.0, 10_000.0, 2.0, 0);
    var first := OrderMatched(half, [-100_000]);
    assert first.fundingEvents == [-100_000] && Sum([-100_000]) == -100_000 + Sum([][..]);
    var funded := Funded(channel, first).state.position;
    assert funded.coordinatorMargin == 400_000 && funded.coordinatorLeverage == 2.5;
    assert DecreasePnl(funded, 50.0, 10_000.0) == 0;
    assert ActionFor(channel, half) == ResizePosition(Decrease(50.0, 10_000.0));
    var middle := Next(channel, first);
    assert middle == Channel(1_200_000, Established(
      Position(50.0, Long, 10_000.0, 250_000, 200_000, 2.0, 2.0, 0), 300_000, 450_000));
    var second := OrderMatched(half, []);
    assert Sum(second.fundingEvents) == 0;
    assert ActionFor(middle, half).ClosePosition?;
    assert CoordinatorPnl(middle.state.position, 10_000.0) == 0;
    assert CoordinatorSettlementAmount(middle.state.position, 10_000.0, 0) == 250_000;
    assert Next(middle, second).state == Settled(550_000, 650_000);
    assert Run(channel, [first, second]) == Run(middle, [second]) == Run(Next(middle, second), []);
  }

  lemma EqualPricesAverage(contracts: Positive, extra: Positive, price: Positive)
    ensures AveragePrice(contracts, price, extra, price) == price
  {
    var average := AveragePrice(contracts, price, extra, price);
    Reals.DivAdd(contracts, extra, price);
    Reals.QuotientOfQuotient(contracts + extra, average);
    Reals.QuotientOfQuotient(contracts + extra, price);
  }

  /** An increase at the entry price, without order-matching fees. */
  lemma IncreaseAtEntryPrice(channel: Channel, op: Op)
    requires channel.state.Established? && op.OrderMatched? && op.trade.matchingFee == 0
    requires ActionFor(channel, op.trade).ResizePosition? && ActionFor(channel, op.trade).action.Increase?
    requires op.trade.price == channel.state.position.averageEntryPrice && channel.state.position.orderMatchingFees == 0
    ensures var row := channel.state.position;
            var funded := Funded(channel, op).state;
            var extraCoordinator :=
              CalculateMargin(op.trade.price, op.trade.quantity, funded.position.coordinatorLeverage);
            var extraTrader := CalculateMargin(op.trade.price, op.trade.quantity, funded.position.traderLeverage);
            extraCoordinator <= funded.reserveCoordinator && extraTrader <= funded.reserveTrader ==>
              Next(channel, op)
              == Channel(channel.total,
                         Established(row.(contracts := row.contracts + op.trade.quantity,
                                          coordinatorMargin := funded.position.coordinatorMargin + extraCoordinator,
                                          traderMargin := funded.position.traderMargin + extraTrader),
                                     funded.reserveCoordinator - extraCoordinator, funded.reserveTrader - extraTrader))
  {
    EqualPricesAverage(channel.state.position.contracts, op.trade.quantity, op.trade.price);
  }

  /** What the coordinator's funding fee of 100,000 sats leaves of the example, and the margins of doubling it. */
  lemma DoublingMargins(channel: Channel, op: Op)
    requires channel == Channel(1_800_000, Established(ExamplePosition(0), 400_000, 400_000))
    requires op == OrderMatched(TradeParams(Long, 100.0, 10_000.0, 2.0, 0), [-100_000])
    ensures ActionFor(channel, op.trade) == ResizePosition(Increase(100.0, 10_000.0))
    ensures var funded := Funded(channel, op).state;
            && funded.position.coordinatorMargin == 400_000 && funded.position.traderMargin == 500_000
            && funded.reserveCoordinator == 400_000 && funded.reserveTrader == 500_000
            && CalculateMargin(10_000.0, 100.0, funded.position.coordinatorLeverage) == 400_000
            && CalculateMargin(10_000.0, 100.0, funded.position.traderLeverage) == 500_000
  {
    ExampleMargins(0);
    assert op.fundingEvents == [-100_000] && Sum([-100_000]) == -100_000 + Sum([][..]);
    var funded := Funded(channel, op).state;
    assert funded.position.coordinatorMargin == 400_000 && funded.position.coordinatorLeverage == 2.5;
    assert ExactMargin(10_000.0, 100.0, 2.5) == 400_000.0;
    assert (100.0 * 100.0) >= 0.0;
  }

  /** The position is doubled at its entry price with the leverage after the fee, which is not stored. */
  lemma DoubledWithFee(channel: Channel, op: Op)
    requires channel == Channel(1_800_000, Established(ExamplePosition(0), 400_000, 400_000))
    requires op == OrderMatched(TradeParams(Long, 100.0, 10_000.0, 2.0, 0), [-100_000])
    ensures Next(channel, op)
            == Channel(1_800_000, Established(Position(200.0, Long, 10_000.0, 1_000_000, 800_000, 2.0, 2.0, 0), 0, 0))
  {
    DoublingMargins(channel, op);
    IncreaseAtEntryPrice(channel, op);
  }

  /** After an increase it takes back more than the fee. Here the coordinator owes 100,000 sats of funding, the position
      is doubled at the entry price and then closed at it: the trader ends up 100,000 sats worse off. */
  lemma IncreaseTakesBackFundingFeeTwice()
    ensures var channel := Channel(1_800_000, Established(ExamplePosition(0), 400_000, 400_000));
            var double := TradeParams(Long, 100.0, 10_000.0, 2.0, 0);
            var close := TradeParams(Short, 200.0, 10_000.0, 2.0, 0);
            var end := Run(channel, [OrderMatched(double, [-100_000]), OrderMatched(close, [])]);
            && end.state.Settled?
            && end.TraderHoldings() == channel.TraderHoldings() - 100_000
  {
    var channel := Channel(1_800_000, Established(ExamplePosition(0), 400_000, 400_000));
    var double := TradeParams(Long, 100.0, 10_000.0, 2.0, 0);
    var close := TradeParams(Short, 200.0, 10_000.0, 2.0, 0);
    var first, second := OrderMatched(double, [-100_000]), OrderMatched(close, []);
    var middle := Next(channel, first);
    DoubledWithFee(channel, first);
    assert ExactMargin(10_000.0, 200.0, 2.0) == 1_000_000.0;
    assert ActionFor(middle, close).ClosePosition?;
    assert CoordinatorPnl(middle.state.position, 10_000.0) == 0;
    assert Next(middle, second).state == Settled(1_000_000, 800_000);
    assert Run(channel, [first, second]) == Run(middle, [second]) == Run(Next(middle, second), []);
  }

  /** Reopening can spend the fee: the coordinator's payout does not cover its margin, the fee that it earns does. */
  lemma ReopeningCanSpendFee()
    ensures var channel := Channel(1_000_000, Settled(499_950, 500_050));
            var op := OrderMatched(TradeParams(Long, 100.0, 10_000.0, 4.0, 100), []);
            Step(channel, op).Ok? && Next(channel, op).Surplus() < 0
  {
    assert ExactMargin(10_000.0, 100.0, 2.0) == 500_000.0;
    assert ExactMargin(10_000.0, 100.0, 4.0) == 250_000.0;
  }

  /** A funding fee above the payer's margin creates the difference. */
  lemma FundingFeeCanCreateCoins()
    ensures var channel := Channel(1_200_000, Established(ExamplePosition(0), 100_000, 100_000));
            channel.Excess() == 0 && Next(channel, RolloverDue([-600_000])).Excess() == 100_000
  {
    assert Sum([-600_000]) == -600_000 + Sum([][..]);
  }
}
