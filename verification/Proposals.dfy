/** What a proposal writes, column by column, when the coordinator makes it, and what it leaves out when it stops. */
module Proposals {
  import opened Wrappers
  import opened Cfd
  import opened Positions
  import opened Schema
  import opened ProtocolRuns
  import opened ProtocolSteps
  import C = Channel
  import T = Trade

  // ---------------------------------------------------------------- the outstanding funding fee

  /** What the unpaid events of a position add up to. */
  function OutstandingAmount(events: seq<FundingFeeEvent>, trader: TraderId, positionId: nat): int
  {
    if |events| == 0 then 0
    else
      var last := events[|events| - 1];
      OutstandingAmount(events[..|events| - 1], trader, positionId)
      + if last.trader == trader && last.positionId == positionId && !last.paid then last.amount else 0
  }

  lemma {:induction false} SumAppends(amounts: seq<int>, amount: int)
    ensures C.Sum(amounts + [amount]) == C.Sum(amounts) + amount
  {
    if |amounts| == 0 {
      assert [amount][1..] == [];
    } else {
      assert (amounts + [amount])[1..] == amounts[1..] + [amount];
      SumAppends(amounts[1..], amount);
    }
  }

  predicate AreIds(ids: seq<nat>, n: nat)
  {
    forall k :: 0 <= k < |ids| ==> ids[k] < n
  }

  lemma OutstandingAreIds(events: seq<FundingFeeEvent>, trader: TraderId, positionId: nat)
    ensures AreIds(OutstandingEvents(events, trader, positionId), |events|)
  {
    var ids := OutstandingEvents(events, trader, positionId);
    assert forall k :: 0 <= k < |ids| ==> ids[k] in ids;
  }

  /** The sum over the ids of a shorter table and one more event. */
  lemma SumOfOneMore(events: seq<FundingFeeEvent>, ids: seq<nat>)
    requires |events| > 0 && AreIds(ids, |events| - 1)
    ensures C.Sum(AmountsOf(events, ids)) == C.Sum(AmountsOf(events[..|events| - 1], ids))
    ensures C.Sum(AmountsOf(events, ids + [|events| - 1]))
            == C.Sum(AmountsOf(events[..|events| - 1], ids)) + events[|events| - 1].amount
  {
    var last := |events| - 1;
    assert AmountsOf(events, ids) == AmountsOf(events[..last], ids);
    assert AmountsOf(events, ids + [last]) == AmountsOf(events, ids) + [events[last].amount];
    SumAppends(AmountsOf(events, ids), events[last].amount);
  }

  lemma {:induction false} OutstandingAddUp(events: seq<FundingFeeEvent>, trader: TraderId, positionId: nat)
    ensures AreIds(OutstandingEvents(events, trader, positionId), |events|)
    ensures C.Sum(AmountsOf(events, OutstandingEvents(events, trader, positionId)))
            == OutstandingAmount(events, trader, positionId)
  {
    OutstandingAreIds(events, trader, positionId);
    if |events| > 0 {
      var last := |events| - 1;
      OutstandingAddUp(events[..last], trader, positionId);
      SumOfOneMore(events, OutstandingEvents(events[..last], trader, positionId));
      var before := OutstandingEvents(events[..last], trader, positionId);
      assert before + [] == before;
    }
  }

  /** Every unpaid event of the position is netted once: a positive sum is owed by the trader, a negative one by the
      coordinator. */
  lemma FeeDueIsOutstanding(tables: Tables, i: nat)
    requires i < |tables.positions|
    ensures var owed := OutstandingAmount(tables.fundingFeeEvents, tables.positions[i].trader, i);
            FeeDue(tables, i)
            == if owed == 0 then Zero else if owed > 0 then TraderPays(owed) else CoordinatorPays(-owed)
  {
    OutstandingAddUp(tables.fundingFeeEvents, tables.positions[i].trader, i);
  }

  // ---------------------------------------------------------------- rows

  /** Up to the offer nothing is written, then the protocol with all that belongs to it, and the position last. */
  predicate StopsInOrder(tables: Tables, offered: Tables, started: Tables, completed: Tables)
  {
    offered == tables && started == completed.(positions := tables.positions)
  }

  /** Nothing but positions, protocols, parameters and links. */
  predicate KeepsHistory(tables: Tables, after: Tables)
  {
    after.trades == tables.trades && after.fundingFeeEvents == tables.fundingFeeEvents
  }

  /** The trade parameters of an order. */
  function ParametersOf(trader: TraderId, trade: T.TradeParams, pnl: Option<int>): TradeRecord
  {
    TradeRecord(trader := trader, quantity := trade.quantity, leverage := trade.leverage, averagePrice := trade.price,
                direction := trade.direction, matchingFee := trade.matchingFee, traderPnl := pnl)
  }

  function PendingProtocol(
    trader: TraderId, proposal: Proposal, previous: Option<ProtocolId>, kind: ProtocolType
  ): ProtocolRow
  {
    ProtocolRow(previous := previous, channel := proposal.channel, contract := Some(proposal.contract),
                state := Pending, trader := trader, protocolType := kind)
  }

  /** A new position has the price, size, direction and leverage of the order, the coordinator's fixed leverage, the
      margins that go with them, and owes the order-matching fee. The first protocol of a channel follows none. */
  lemma OpenWrites(tables: Tables, trader: TraderId, trade: T.TradeParams, kind: ProtocolType, proposal: Proposal)
    requires kind.OpenChannel? || kind.OpenPosition?
    requires CanCreate(tables, proposal.id, if kind.OpenChannel? then None else proposal.previous)
    ensures var after := ProposeOpen(tables, trader, trade, kind, proposal, Completed);
            && StopsInOrder(tables, ProposeOpen(tables, trader, trade, kind, proposal, AfterOffer),
                            ProposeOpen(tables, trader, trade, kind, proposal, AfterStart), after)
            && after == tables.(
                 positions := tables.positions + [PositionRow(
                   trader := trader, state := Proposed, createdAt := proposal.now, contract := proposal.contract,
                   closingPrice := None, realizedPnl := None,
                   position := Position(
                     contracts := trade.quantity, traderDirection := trade.direction, averageEntryPrice := trade.price,
                     traderLeverage := trade.leverage, coordinatorLeverage := T.COORDINATOR_LEVERAGE,
                     traderMargin := CalculateMargin(trade.price, trade.quantity, trade.leverage),
                     coordinatorMargin := CalculateMargin(trade.price, trade.quantity, T.COORDINATOR_LEVERAGE),
                     orderMatchingFees := trade.matchingFee))],
                 protocols := tables.protocols[
                   proposal.id := PendingProtocol(trader, proposal,
                                                  if kind.OpenChannel? then None else proposal.previous, kind)],
                 tradeParams := tables.tradeParams[proposal.id := ParametersOf(trader, trade, None)])
  {
  }

  /** A settlement marks the trader's open rows as closing at the price of the trade; the profit is not known yet. */
  lemma SettleWrites(tables: Tables, i: nat, trade: T.TradeParams, proposal: Proposal)
    requires i < |tables.positions| && CanCreate(tables, proposal.id, proposal.previous)
    ensures var trader := tables.positions[i].trader;
            var after := ProposeSettle(tables, i, trade, proposal, Completed);
            && StopsInOrder(tables, ProposeSettle(tables, i, trade, proposal, AfterOffer),
                            ProposeSettle(tables, i, trade, proposal, AfterStart), after)
            && KeepsHistory(tables, after)
            && after.protocols
               == tables.protocols[proposal.id := PendingProtocol(trader, proposal, proposal.previous, Settle)]
            && after.tradeParams == tables.tradeParams[proposal.id := ParametersOf(trader, trade, None)]
            && after.rolloverParams == tables.rolloverParams
            && |after.positions| == |tables.positions|
            && (forall j :: 0 <= j < |tables.positions| ==>
                  var row := tables.positions[j];
                  after.positions[j] == if row.trader == trader && row.state.Open? then
                                          row.(state := Closing, closingPrice := Some(trade.price))
                                        else row)
  {
    StartedTrade(tables, proposal.id, ProtocolOf(tables.positions[i].trader, proposal, Settle),
                 RecordOf(tables.positions[i].trader, trade, None), EventsDue(tables, i));
  }

  /** A resize writes the size, price, direction and margins of the resized position, but neither leverage, adds the
      order-matching fee, and adds the profit to one that is there; the trade parameters keep the profit. */
  lemma ResizeWrites(tables: Tables, i: nat, trade: T.TradeParams, resized: T.ResizedPosition, proposal: Proposal)
    requires i < |tables.positions| && CanCreate(tables, proposal.id, proposal.previous)
    ensures var trader := tables.positions[i].trader;
            var after := ProposeResize(tables, i, trade, resized, proposal, Completed);
            && StopsInOrder(tables, ProposeResize(tables, i, trade, resized, proposal, AfterOffer),
                            ProposeResize(tables, i, trade, resized, proposal, AfterStart), after)
            && KeepsHistory(tables, after)
            && after.protocols
               == tables.protocols[proposal.id := PendingProtocol(trader, proposal, proposal.previous, ResizePosition)]
            && after.tradeParams == tables.tradeParams[proposal.id := ParametersOf(trader, trade, resized.realizedPnl)]
            && after.rolloverParams == tables.rolloverParams
            && |after.positions| == |tables.positions|
            && (forall j :: 0 <= j < |tables.positions| ==>
                  var row := tables.positions[j];
                  if row.trader == trader && row.state.Open? then
                    && after.positions[j].realizedPnl
                       == (if row.realizedPnl.None? then None
                           else if resized.realizedPnl.None? then row.realizedPnl
                           else Some(row.realizedPnl.value + resized.realizedPnl.value))
                    && after.positions[j]
                       == row.(state := Resizing, contract := proposal.contract,
                               realizedPnl := after.positions[j].realizedPnl,
                               position := Position(
                                 contracts := resized.contracts,
                                 traderDirection := resized.coordinatorDirection.Opposite(),
                                 averageEntryPrice := resized.averagePrice,
                                 traderMargin := resized.pots.marginTrader,
                                 coordinatorMargin := resized.pots.marginCoordinator,
                                 traderLeverage := row.position.traderLeverage,
                                 coordinatorLeverage := row.position.coordinatorLeverage,
                                 orderMatchingFees := row.position.orderMatchingFees + trade.matchingFee))
                  else after.positions[j] == row)
  {
    StartedTrade(tables, proposal.id, ProtocolOf(tables.positions[i].trader, proposal, ResizePosition),
                 RecordOf(tables.positions[i].trader, trade, resized.realizedPnl), EventsDue(tables, i));
  }

  /** A rollover marks the trader's open rows as rolling over and keeps the margins and leverages after the outstanding
      funding fee as its parameters. */
  lemma RolloverWrites(tables: Tables, trader: TraderId, proposal: Proposal)
    requires CanCreate(tables, proposal.id, proposal.previous)
    requires LatestRow(tables.positions, trader, {Open, Rollover}).Some?
    ensures var i := LatestRow(tables.positions, trader, {Open, Rollover}).value;
            var funded := ApplyFundingFee(tables.positions[i].position, FeeDue(tables, i));
            var (after, next) := ProposeRollover(tables, Established, trader, proposal, Completed);
            && next == RenewOffered(proposal.id, false)
            && StopsInOrder(tables, ProposeRollover(tables, Established, trader, proposal, AfterOffer).0,
                            ProposeRollover(tables, Established, trader, proposal, AfterStart).0, after)
            && KeepsHistory(tables, after)
            && after.protocols == tables.protocols[
                 proposal.id := PendingProtocol(trader, proposal, proposal.previous, RolloverProtocol)]
            && after.tradeParams == tables.tradeParams
            && after.rolloverParams == tables.rolloverParams[
                 proposal.id := RolloverParams(
                   trader := trader,
                   marginCoordinator := funded.coordinatorMargin, marginTrader := funded.traderMargin,
                   leverageCoordinator := funded.coordinatorLeverage, leverageTrader := funded.traderLeverage)]
            && |after.positions| == |tables.positions|
            && (forall j :: 0 <= j < |tables.positions| ==>
                  var row := tables.positions[j];
                  after.positions[j] == if row.trader == trader && row.state.Open? then row.(state := Rollover)
                                        else row)
  {
    var i := LatestRow(tables.positions, trader, {Open, Rollover}).value;
    StartedRollover(tables, proposal.id, ProtocolOf(trader, proposal, RolloverProtocol), RolloverParamsFor(tables, i),
                    EventsDue(tables, i));
  }

  /** A proposal whose protocol cannot be created writes nothing, wherever it stops. */
  lemma RefusedProposalWritesNothing(
    tables: Tables, i: nat, trade: T.TradeParams, resized: T.ResizedPosition, proposal: Proposal, stop: Stop
  )
    requires i < |tables.positions| && !CanCreate(tables, proposal.id, proposal.previous)
    ensures ProposeOpen(tables, tables.positions[i].trader, trade, OpenPosition, proposal, stop) == tables
    ensures ProposeSettle(tables, i, trade, proposal, stop) == tables
    ensures ProposeResize(tables, i, trade, resized, proposal, stop) == tables
    ensures ProposeRollover(tables, Established, tables.positions[i].trader, proposal, stop).0 == tables
  {
  }

  // ---------------------------------------------------------------- answers

  /** A rejection fails the protocol whether or not the coordinator stops after it; without a stop it also takes the
      trader's rows back. The channel is what it was before the offer. */
  lemma RejectionWrites(tables: Tables, phase: Phase, trader: TraderId, crash: bool)
    requires phase.IsPending() && phase.protocol in tables.protocols
    ensures var (after, next) := NextForTrader(tables, phase, Rejected(trader, crash));
            var protocol := tables.protocols[phase.protocol];
            && next == (match phase
                        case Offered(_) => NoChannel
                        case RenewOffered(_, true) => Settled
                        case _ => Established)
            && after == tables.(positions := after.positions,
                                protocols := tables.protocols[phase.protocol := protocol.(state := Failure)])
            && |after.positions| == |tables.positions|
            && (forall j :: 0 <= j < |tables.positions| ==>
                  var row := tables.positions[j];
                  after.positions[j] == if crash || row.trader != trader then row
                                        else if next.Established? && row.state in {Closing, Rollover} then
                                          row.(state := Open)
                                        else if !next.Established? && row.state.Proposed? then row.(state := Failed)
                                        else row)
  {
  }

  /** The last message of which the coordinator records nothing moves the channel alone; one whose effects are an error
      fails the protocol and changes nothing else. */
  lemma FailedAnswerWrites(
    tables: Tables, phase: Phase, trader: TraderId, contract: Option<ContractId>, channel: ChannelId
  )
    requires phase.IsPending()
    ensures var accepted := if phase.SettleOffered? then Settled else Established;
            && NextForTrader(tables, phase, Finalized(trader, contract, channel, true)) == (tables, accepted)
            && (FinishDlcProtocol(tables, phase.protocol, trader, contract, channel).None? ==>
                  NextForTrader(tables, phase, Finalized(trader, contract, channel, false))
                  == (if phase.protocol !in tables.protocols then tables
                      else tables.(protocols := tables.protocols[
                        phase.protocol := tables.protocols[phase.protocol].(state := Failure)]),
                      accepted))
  {
  }

  // ---------------------------------------------------------------- the end of a channel

  /** Starting to close a channel writes a pending protocol without a contract, if it can be created, and leaves the
      channel and everything else alone. */
  lemma CloseStartWrites(tables: Tables, phase: Phase, trader: TraderId, proposal: Proposal)
    ensures NextForTrader(tables, phase, CloseStarted(trader, proposal))
            == (if proposal.id !in tables.protocols
                   && (proposal.previous.Some? ==> proposal.previous.value in tables.protocols)
                then
                  tables.(protocols := tables.protocols[
                    proposal.id := ProtocolRow(previous := proposal.previous, channel := proposal.channel,
                                               contract := None, state := Pending, trader := trader,
                                               protocolType := Close)])
                else tables,
                phase)
  {
  }

  /** When a collaborative close is through, the protocol that closed the channel succeeds, without a contract; another
      protocol is left alone. */
  lemma ClosedChannelFinishes(tables: Tables, trader: TraderId, protocol: ProtocolId, channel: ChannelId)
    ensures var (after, next) := NextForTrader(tables, Settled, ChannelClosed(trader, protocol, channel));
            && next == NoChannel
            && (protocol in tables.protocols && tables.protocols[protocol].protocolType.Close? ==>
                  after == tables.(protocols := tables.protocols[
                    protocol := ProtocolRow(previous := tables.protocols[protocol].previous, channel := channel,
                                            contract := None, state := Success,
                                            trader := tables.protocols[protocol].trader, protocolType := Close)]))
            && (protocol in tables.protocols && !tables.protocols[protocol].protocolType.Close? ==> after == tables)
  {
  }
}
