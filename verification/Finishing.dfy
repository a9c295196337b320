/** What `finish_dlc_protocol` guarantees: one protocol, one position, one trade and its funding fee events move
    together, and a second delivery finds nothing left to move. */
module Finishing {
  import opened Wrappers
  import opened Cfd
  import opened Positions
  import opened Schema

  /** The state in which a protocol expects the trader's position to be. */
  function GuardState(protocolType: ProtocolType): PositionState
    requires CarriesTrade(protocolType)
  {
    match protocolType
    case OpenChannel | OpenPosition => Proposed
    case ResizePosition => Resizing
    case Settle => Closing
  }

  function TargetState(protocolType: ProtocolType): PositionState
  {
    if protocolType.Settle? then Closed else Open
  }

  predicate NeedsContract(protocolType: ProtocolType)
  {
    protocolType in {OpenChannel, OpenPosition, ResizePosition, RolloverProtocol}
  }

  predicate IsGuarded(tables: Tables, id: ProtocolId, i: nat)
    requires HasProtocol(tables, id) && CarriesTrade(tables.protocols[id].protocolType)
  {
    i < |tables.positions|
    && Selects(tables.positions[i], tables.tradeParams[id].trader, {GuardState(tables.protocols[id].protocolType)})
  }

  /** The protocol and its parameters exist, a contract is given where one is needed, and a position is in the guard
      state; a rollover is not guarded by the state of any position. */
  ghost predicate CanFinish(tables: Tables, id: ProtocolId, contract: Option<ContractId>)
  {
    && HasProtocol(tables, id)
    && (NeedsContract(tables.protocols[id].protocolType) ==> contract.Some?)
    && (CarriesTrade(tables.protocols[id].protocolType) ==> exists i: nat :: IsGuarded(tables, id, i))
  }

  /** Exactly when finishing goes through. */
  lemma FinishSucceedsIff(
    tables: Tables, id: ProtocolId, trader: TraderId, contract: Option<ContractId>, channel: ChannelId
  )
    ensures FinishDlcProtocol(tables, id, trader, contract, channel).Some? <==> CanFinish(tables, id, contract)
  {
    if HasProtocol(tables, id) && CarriesTrade(tables.protocols[id].protocolType) {
      var trader := tables.tradeParams[id].trader;
      var guard := {GuardState(tables.protocols[id].protocolType)};
      var i := if guard == {Closing} then LatestRow(tables.positions, trader, guard)
               else FirstRow(tables.positions, trader, guard);
      assert i.Some? ==> IsGuarded(tables, id, i.value);
    }
  }

  /** The events that a finished protocol resolves; opening a position resolves none. */
  function PaidBy(tables: Tables, id: ProtocolId): set<nat>
    requires id in tables.protocols
  {
    if tables.protocols[id].protocolType in {ResizePosition, Settle, RolloverProtocol} then EventsOf(tables.links, id)
    else {}
  }

  /** The protocol is a success and no other protocol changes. */
  predicate SucceedsAlone(tables: Tables, after: Tables, id: ProtocolId)
    requires id in tables.protocols
  {
    && after.protocols.Keys == tables.protocols.Keys
    && after.protocols[id].state == Success
    && after.protocols[id].protocolType == tables.protocols[id].protocolType
    && after.protocols[id].trader == tables.protocols[id].trader
    && (forall other :: other in tables.protocols && other != id ==> after.protocols[other] == tables.protocols[other])
    && after.tradeParams == tables.tradeParams
    && after.rolloverParams == tables.rolloverParams
  }

  /** Position `moved` leaves the guard state, no position changes anything but its state, and no position that
      was not guarded changes at all. */
  predicate MovesPosition(tables: Tables, after: Tables, id: ProtocolId, moved: nat)
    requires HasProtocol(tables, id) && CarriesTrade(tables.protocols[id].protocolType)
  {
    && IsGuarded(tables, id, moved)
    && |after.positions| == |tables.positions|
    && after.positions[moved].state == TargetState(tables.protocols[id].protocolType)
    && (forall i :: 0 <= i < |tables.positions| ==>
          && after.positions[i].position == tables.positions[i].position
          && after.positions[i].trader == tables.positions[i].trader
          && (!IsGuarded(tables, id, i) ==> after.positions[i] == tables.positions[i])
          && (IsGuarded(tables, id, i) ==>
                after.positions[i].state ==
                if tables.protocols[id].protocolType.Settle? && i != moved then Closing
                else TargetState(tables.protocols[id].protocolType)))
  }

  /** One trade is appended: the one that the protocol was started with, carrying the profit realised. */
  predicate RecordsTrade(tables: Tables, after: Tables, id: ProtocolId, moved: nat)
    requires HasProtocol(tables, id) && CarriesTrade(tables.protocols[id].protocolType)
    requires moved < |tables.positions|
  {
    var trade := tables.tradeParams[id];
    var kind := tables.protocols[id].protocolType;
    var pnl := if kind.ResizePosition? then trade.traderPnl
               else if kind.Settle? then Some(SettledPnl(tables.positions[moved], trade))
               else None;
    after.trades == tables.trades + [TradeRow(moved, trade.(traderPnl := pnl))]
  }

  /** The linked events are paid and nothing else happens to any event. */
  predicate PaysEvents(tables: Tables, after: Tables, ids: set<nat>)
  {
    && |after.fundingFeeEvents| == |tables.fundingFeeEvents|
    && (forall e :: 0 <= e < |tables.fundingFeeEvents| ==>
          after.fundingFeeEvents[e] == if e in ids then tables.fundingFeeEvents[e].(paid := true)
                                       else tables.fundingFeeEvents[e])
  }

  /** An update of the guarded positions to `Open` moves them and nothing else. */
  lemma UpdateMovesPosition(tables: Tables, after: Tables, id: ProtocolId, moved: nat)
    requires HasProtocol(tables, id) && tables.protocols[id].protocolType in {OpenChannel, OpenPosition, ResizePosition}
    requires IsGuarded(tables, id, moved)
    requires after.positions == SetState(tables.positions, tables.tradeParams[id].trader,
                                         {GuardState(tables.protocols[id].protocolType)}, Open)
    ensures MovesPosition(tables, after, id, moved)
  {
  }

  lemma OpeningMovesEverything(tables: Tables, id: ProtocolId, contract: ContractId, channel: ChannelId, moved: nat)
    requires HasProtocol(tables, id) && tables.protocols[id].protocolType in {OpenChannel, OpenPosition}
    requires FirstRow(tables.positions, tables.tradeParams[id].trader, {Proposed}) == Some(moved)
    ensures var after := FinishOpenPosition(tables, id, tables.tradeParams[id], contract, channel).value;
            && SucceedsAlone(tables, after, id)
            && MovesPosition(tables, after, id, moved)
            && RecordsTrade(tables, after, id, moved)
            && PaysEvents(tables, after, {})
  {
    var after := FinishOpenPosition(tables, id, tables.tradeParams[id], contract, channel).value;
    UpdateMovesPosition(tables, after, id, moved);
  }

  lemma ResizingMovesEverything(tables: Tables, id: ProtocolId, contract: ContractId, channel: ChannelId, moved: nat)
    requires HasProtocol(tables, id) && tables.protocols[id].protocolType == ResizePosition
    requires FirstRow(tables.positions, tables.tradeParams[id].trader, {Resizing}) == Some(moved)
    ensures var after := FinishResizePosition(tables, id, tables.tradeParams[id], contract, channel).value;
            && SucceedsAlone(tables, after, id)
            && MovesPosition(tables, after, id, moved)
            && RecordsTrade(tables, after, id, moved)
            && PaysEvents(tables, after, EventsOf(tables.links, id))
  {
    var trade := tables.tradeParams[id];
    assert trade == trade.(traderPnl := trade.traderPnl);
    UpdateMovesPosition(tables, FinishResizePosition(tables, id, trade, contract, channel).value, id, moved);
  }

  lemma SettlingMovesEverything(tables: Tables, id: ProtocolId, channel: ChannelId, moved: nat)
    requires HasProtocol(tables, id) && tables.protocols[id].protocolType == Settle
    requires LatestRow(tables.positions, tables.tradeParams[id].trader, {Closing}) == Some(moved)
    ensures var after := FinishSettle(tables, id, tables.tradeParams[id], channel).value;
            && SucceedsAlone(tables, after, id)
            && MovesPosition(tables, after, id, moved)
            && RecordsTrade(tables, after, id, moved)
            && PaysEvents(tables, after, EventsOf(tables.links, id))
  {
  }

  /** The position that finishing the protocol moves. */
  function MovedPosition(tables: Tables, id: ProtocolId): (moved: Option<nat>)
    requires HasProtocol(tables, id) && CarriesTrade(tables.protocols[id].protocolType)
    ensures moved.Some? ==> IsGuarded(tables, id, moved.value)
    ensures moved.None? ==> forall i: nat :: !IsGuarded(tables, id, i)
  {
    var trader := tables.tradeParams[id].trader;
    match tables.protocols[id].protocolType
    case OpenChannel | OpenPosition => FirstRow(tables.positions, trader, {Proposed})
    case ResizePosition => FirstRow(tables.positions, trader, {Resizing})
    case Settle => LatestRow(tables.positions, trader, {Closing})
  }

  /** All or nothing: a protocol succeeds together with its position, its trade and its funding fee events, and
      touches no other protocol, no other trader's position and no other event. */
  lemma FinishMovesEverythingTogether(
    tables: Tables, id: ProtocolId, trader: TraderId, contract: Option<ContractId>, channel: ChannelId
  )
    requires FinishDlcProtocol(tables, id, trader, contract, channel).Some?
    requires CarriesTrade(tables.protocols[id].protocolType)
    ensures var after := FinishDlcProtocol(tables, id, trader, contract, channel).value;
            var moved := MovedPosition(tables, id);
            && moved.Some?
            && SucceedsAlone(tables, after, id)
            && MovesPosition(tables, after, id, moved.value)
            && RecordsTrade(tables, after, id, moved.value)
            && PaysEvents(tables, after, PaidBy(tables, id))
  {
    FinishSucceedsIff(tables, id, trader, contract, channel);
    var moved := MovedPosition(tables, id).value;
    match tables.protocols[id].protocolType
    case OpenChannel | OpenPosition => OpeningMovesEverything(tables, id, contract.value, channel, moved);
    case ResizePosition => ResizingMovesEverything(tables, id, contract.value, channel, moved);
    case Settle => SettlingMovesEverything(tables, id, channel, moved);
  }

  /** The protocol's row takes the channel and the contract that the library reports; a settlement keeps the contract of
      the position, and a closed channel has none. */
  lemma FinishedProtocolRow(
    tables: Tables, id: ProtocolId, trader: TraderId, contract: Option<ContractId>, channel: ChannelId
  )
    requires FinishDlcProtocol(tables, id, trader, contract, channel).Some?
    ensures var row := tables.protocols[id];
            FinishDlcProtocol(tables, id, trader, contract, channel).value.protocols
            == tables.protocols[
              id := ProtocolRow(previous := row.previous, channel := channel,
                                contract := if row.protocolType.Settle? then row.contract
                                            else if row.protocolType.Close? then None else contract,
                                state := Success, trader := row.trader, protocolType := row.protocolType)]
  {
  }

  /** The row that a settlement moves, and the trade it records: closed at the price of the trade, with the trader's
      profit on the contracts traded, from the row's entry price and between the row's stored margins. */
  lemma SettledRow(
    tables: Tables, id: ProtocolId, trader: TraderId, contract: Option<ContractId>, channel: ChannelId
  )
    requires FinishDlcProtocol(tables, id, trader, contract, channel).Some?
    requires tables.protocols[id].protocolType.Settle?
    ensures var after := FinishDlcProtocol(tables, id, trader, contract, channel).value;
            var trade := tables.tradeParams[id];
            var moved := MovedPosition(tables, id);
            && moved.Some? && |after.positions| == |tables.positions| && |after.trades| == |tables.trades| + 1
            && var before := tables.positions[moved.value];
               var row := after.positions[moved.value];
               var position := before.position;
               && row == before.(state := Closed, closingPrice := row.closingPrice, realizedPnl := row.realizedPnl)
               && row.closingPrice == Some(trade.averagePrice)
               && row.realizedPnl.Some?
               && IsPnl(row.realizedPnl.value, position.traderDirection, position.averageEntryPrice,
                        trade.averagePrice, trade.quantity, position.traderMargin, position.coordinatorMargin)
               && after.trades[|tables.trades|].trade.traderPnl == row.realizedPnl
  {
    FinishSucceedsIff(tables, id, trader, contract, channel);
    var position := tables.positions[MovedPosition(tables, id).value].position;
    var trade := tables.tradeParams[id];
    PnlIsCapped(position.averageEntryPrice, trade.averagePrice, trade.quantity, position.traderDirection,
                position.MarginLong(), position.MarginShort());
  }

  /** A finished opening or resize changes nothing of the rows it moves but their state. */
  lemma ReopenedRows(
    tables: Tables, id: ProtocolId, trader: TraderId, contract: Option<ContractId>, channel: ChannelId, i: nat
  )
    requires FinishDlcProtocol(tables, id, trader, contract, channel).Some? && i < |tables.positions|
    requires tables.protocols[id].protocolType in {OpenChannel, OpenPosition, ResizePosition}
    ensures var after := FinishDlcProtocol(tables, id, trader, contract, channel).value;
            && |after.positions| == |tables.positions|
            && after.positions[i] == if IsGuarded(tables, id, i) then tables.positions[i].(state := Open)
                                     else tables.positions[i]
  {
  }

  /** A second delivery of the last message of an open or resize protocol is always rejected; of a settle
      protocol exactly when a single position of the trader was closing. */
  lemma ReplayIsRejected(
    tables: Tables, id: ProtocolId, trader: TraderId, contract: Option<ContractId>, channel: ChannelId
  )
    requires FinishDlcProtocol(tables, id, trader, contract, channel).Some?
    requires CarriesTrade(tables.protocols[id].protocolType)
    ensures var after := FinishDlcProtocol(tables, id, trader, contract, channel).value;
            && HasProtocol(after, id)
            && var replay := FinishDlcProtocol(after, id, trader, contract, channel);
               if tables.protocols[id].protocolType.Settle? then
                 replay.None?
                 <==> forall i: nat, j: nat :: IsGuarded(tables, id, i) && IsGuarded(tables, id, j) ==> i == j
               else replay.None?
  {
    var after := FinishDlcProtocol(tables, id, trader, contract, channel).value;
    FinishMovesEverythingTogether(tables, id, trader, contract, channel);
    var moved := MovedPosition(tables, id).value;
    GuardsAfterFinish(tables, after, id, moved);
    FinishSucceedsIff(after, id, trader, contract, channel);
  }

  /** Finishing clears the guard state, except for the older closing positions of a settle protocol. */
  lemma GuardsAfterFinish(tables: Tables, after: Tables, id: ProtocolId, moved: nat)
    requires HasProtocol(tables, id) && CarriesTrade(tables.protocols[id].protocolType)
    requires SucceedsAlone(tables, after, id) && MovesPosition(tables, after, id, moved)
    ensures HasProtocol(after, id)
    ensures forall i: nat :: IsGuarded(after, id, i)
                             <==> tables.protocols[id].protocolType.Settle? && IsGuarded(tables, id, i) && i != moved
  {
    forall i: nat
      ensures IsGuarded(after, id, i)
              <==> tables.protocols[id].protocolType.Settle? && IsGuarded(tables, id, i) && i != moved
    {
      if i < |tables.positions| {
        assert after.positions[i].trader == tables.positions[i].trader;
      }
    }
  }

  /** The last message of a rollover can be delivered again and again: it rewrites the margins of whichever
      position of the trader is rolling over at that time, and of no other. */
  lemma RolloverIsNotGuarded(
    tables: Tables, id: ProtocolId, trader: TraderId, contract: ContractId, channel: ChannelId
  )
    requires HasProtocol(tables, id) && tables.protocols[id].protocolType.RolloverProtocol?
    ensures var after := FinishDlcProtocol(tables, id, trader, Some(contract), channel);
            var params := tables.rolloverParams[id];
            && after.Some?
            && after.value.protocols[id].state == Success
            && after.value.trades == tables.trades
            && |after.value.positions| == |tables.positions|
            && (forall i :: 0 <= i < |tables.positions| ==>
                  if Selects(tables.positions[i], trader, {Rollover}) then
                    && after.value.positions[i].state == Open
                    && after.value.positions[i].contract == contract
                    && after.value.positions[i].position == tables.positions[i].position.(
                         traderMargin := params.marginTrader, coordinatorMargin := params.marginCoordinator,
                         traderLeverage := params.leverageTrader, coordinatorLeverage := params.leverageCoordinator)
                  else after.value.positions[i] == tables.positions[i])
            && FinishDlcProtocol(after.value, id, trader, Some(contract), channel).Some?
            && FinishDlcProtocol(after.value, id, trader, Some(contract), channel).value.positions
               == after.value.positions
  {
    var after := FinishDlcProtocol(tables, id, trader, Some(contract), channel).value;
    var again := FinishDlcProtocol(after, id, trader, Some(contract), channel).value;
    assert again.positions == after.positions;
  }

  /** Whatever its kind, finishing makes its own protocol a success and leaves every other protocol as it is. */
  lemma FinishSucceedsAlone(
    tables: Tables, id: ProtocolId, trader: TraderId, contract: Option<ContractId>, channel: ChannelId
  )
    requires FinishDlcProtocol(tables, id, trader, contract, channel).Some?
    ensures SucceedsAlone(tables, FinishDlcProtocol(tables, id, trader, contract, channel).value, id)
  {
    if CarriesTrade(tables.protocols[id].protocolType) {
      FinishMovesEverythingTogether(tables, id, trader, contract, channel);
    }
  }

  // ---------------------------------------------------------------- the links of other protocols

  /** Paying the events of one protocol keeps the links of another exactly when none of them has a row id that
      happens to be the id of a paid event: the delete compares the wrong column. */
  lemma LinksSurviveIff(tables: Tables, id: ProtocolId, other: ProtocolId)
    ensures (forall l :: l in tables.links && tables.links[l].protocol == other
                         ==> l in MarkPaid(tables, id).links && MarkPaid(tables, id).links[l] == tables.links[l])
            <==> (forall l :: l in tables.links && tables.links[l].protocol == other
                              ==> l !in EventsOf(tables.links, id))
  {
    var after := MarkPaid(tables, id);
    if EventsOf(tables.links, id) == {} {
      assert after.links == tables.links;
    }
  }

  lemma SingleLink(links: map<nat, Link>, protocol: ProtocolId, l: nat)
    requires l in links && links[l].protocol == protocol
    requires forall k :: k in links && links[k].protocol == protocol ==> k == l
    ensures EventsOf(links, protocol) == {links[l].event}
  {
    assert links[l].event in EventsOf(links, protocol);
  }

  /** Two rollovers are started: `q` of trader `b`, who owes event 1, and then `p` of trader `a`, who owes event 0. */
  function TwoStarted(
    tables: Tables, p: ProtocolId, a: TraderId, q: ProtocolId, b: TraderId,
    paramsP: RolloverParams, paramsQ: RolloverParams
  ): Option<Tables>
  {
    match StartRollover(tables, q, ProtocolRow(None, 1, Some(1), Pending, b, RolloverProtocol), paramsQ, [1])
    case None => None
    case Some(once) => StartRollover(once, p, ProtocolRow(None, 0, Some(0), Pending, a, RolloverProtocol), paramsP, [0])
  }

  lemma TwoStartedLinks(
    tables: Tables, p: ProtocolId, a: TraderId, q: ProtocolId, b: TraderId,
    paramsP: RolloverParams, paramsQ: RolloverParams
  )
    requires p != q && p !in tables.protocols && q !in tables.protocols
    requires |tables.fundingFeeEvents| == 2 && tables.links == map[] && tables.nextLink == 0
    ensures var started := TwoStarted(tables, p, a, q, b, paramsP, paramsQ);
            && started.Some?
            && started.value.links == map[0 := Link(q, 1), 1 := Link(p, 0)]
            && started.value.fundingFeeEvents == tables.fundingFeeEvents
            && HasProtocol(started.value, p) && started.value.protocols[p].protocolType.RolloverProtocol?
            && HasProtocol(started.value, q) && started.value.protocols[q].protocolType.RolloverProtocol?
  {
  }

  /** What a finished rollover does to links and events. */
  lemma RolloverPays(tables: Tables, id: ProtocolId, trader: TraderId, contract: ContractId, channel: ChannelId)
    requires HasProtocol(tables, id) && tables.protocols[id].protocolType.RolloverProtocol?
    ensures var after := FinishDlcProtocol(tables, id, trader, Some(contract), channel);
            && after.Some?
            && after.value.links == MarkPaid(tables, id).links
            && after.value.fundingFeeEvents == MarkPaid(tables, id).fundingFeeEvents
            && after.value.protocols[id].state == Success
            && after.value.rolloverParams == tables.rolloverParams
            && (forall other :: other in tables.protocols && other != id ==>
                  other in after.value.protocols && after.value.protocols[other] == tables.protocols[other])
  {
    var params := tables.rolloverParams[id];
    var succeeded := SetSuccess(tables, id, Some(contract), channel)
                       .(positions := SetRolledOver(tables.positions, trader, contract, params));
    assert FinishDlcProtocol(tables, id, trader, Some(contract), channel) == Some(MarkPaid(succeeded, id));
  }

  /** Finishing `p` and then `q`, both with success, leaves the event that `q` charged outstanding, so that the next
      protocol of that position charges it again: the link of `q` had row id 0, and `p` paid the event with id 0. */
  lemma FinishingCanLoseAnotherLink(
    tables: Tables, p: ProtocolId, a: TraderId, q: ProtocolId, b: TraderId,
    paramsP: RolloverParams, paramsQ: RolloverParams, contract: ContractId, channel: ChannelId
  )
    requires p != q && p !in tables.protocols && q !in tables.protocols
    requires |tables.fundingFeeEvents| == 2 && tables.links == map[] && tables.nextLink == 0
    requires Outstanding(tables.fundingFeeEvents[1], b, tables.fundingFeeEvents[1].positionId)
    ensures var started := TwoStarted(tables, p, a, q, b, paramsP, paramsQ);
            && started.Some? && EventsOf(started.value.links, q) == {1}
            && var first := FinishDlcProtocol(started.value, p, a, Some(contract), channel);
               && first.Some?
               && var second := FinishDlcProtocol(first.value, q, b, Some(contract), channel);
                  && second.Some?
                  && second.value.protocols[p].state == Success && second.value.protocols[q].state == Success
                  && 1 in OutstandingEvents(second.value.fundingFeeEvents, b, tables.fundingFeeEvents[1].positionId)
  {
    TwoStartedLinks(tables, p, a, q, b, paramsP, paramsQ);
    var started := TwoStarted(tables, p, a, q, b, paramsP, paramsQ).value;
    SingleLink(started.links, q, 0);
    SingleLink(started.links, p, 1);
    RolloverPays(started, p, a, contract, channel);
    var first := FinishDlcProtocol(started, p, a, Some(contract), channel).value;
    assert EventsOf(first.links, q) == {} by {
      assert first.links == started.links - {0};
    }
    RolloverPays(first, q, b, contract, channel);
  }
}
