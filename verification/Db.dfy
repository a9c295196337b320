/** The coordinator's database and the executor that moves a DLC protocol through it, statement by statement. */
module Db {
  import opened Wrappers
  import opened Positions
  import opened Schema

  /** The tables in place. Every statement is one assignment; `Rollback` ends a failed transaction. */
  class Database {
    var positions: seq<PositionRow>
    var protocols: map<ProtocolId, ProtocolRow>
    var tradeParams: map<ProtocolId, TradeRecord>
    var rolloverParams: map<ProtocolId, RolloverParams>
    var trades: seq<TradeRow>
    var fundingFeeEvents: seq<FundingFeeEvent>
    var links: map<nat, Link>
    var nextLink: nat

    constructor ()
      ensures State() == Tables([], map[], map[], map[], [], [], map[], 0)
    {
      positions, protocols, tradeParams, rolloverParams := [], map[], map[], map[];
      trades, fundingFeeEvents, links, nextLink := [], [], map[], 0;
    }

    function State(): Tables
      reads this
    {
      Tables(positions, protocols, tradeParams, rolloverParams, trades, fundingFeeEvents, links, nextLink)
    }

    method Rollback(tables: Tables)
      modifies this
      ensures State() == tables
    {
      positions, protocols, tradeParams := tables.positions, tables.protocols, tables.tradeParams;
      rolloverParams, trades := tables.rolloverParams, tables.trades;
      fundingFeeEvents, links, nextLink := tables.fundingFeeEvents, tables.links, tables.nextLink;
    }

    method CreateProtocol(id: ProtocolId, row: ProtocolRow) returns (ok: bool)
      modifies `protocols
      ensures ok == old(CanCreate(State(), id, row.previous))
      ensures ok ==> id in protocols && protocols[id].state == Pending
      ensures State() == if ok then old(Create(State(), id, row)) else old(State())
    {
      ok := id !in protocols && (row.previous.Some? ==> row.previous.value in protocols);
      if ok { protocols := protocols[id := row.(state := Pending)]; }
    }

    /** One statement that inserts a link per event, or none if one of the events does not exist. */
    method InsertProtocolFundingFeeEvents(protocol: ProtocolId, events: seq<nat>) returns (ok: bool)
      modifies `links, `nextLink
      ensures ok == old(CanLink(State(), events))
      ensures State() == if ok then old(AddLinks(State(), protocol, events)) else old(State())
    {
      ghost var before := State();
      var i, values, next := 0, links, nextLink;
      while i < |events|
        invariant 0 <= i <= |events|
        invariant State() == before
        invariant CanLink(before, events[..i])
        invariant AddLinks(before.(links := values, nextLink := next), protocol, events[i..])
                  == AddLinks(before, protocol, events)
      {
        if events[i] >= |fundingFeeEvents| { return false; }
        assert events[i..][0] == events[i] && events[i..][1..] == events[i + 1..];
        values, next := values[next := Link(protocol, events[i])], next + 1;
        i := i + 1;
      }
      links, nextLink := values, next;
      return true;
    }

    method SetProtocolToSuccess(id: ProtocolId, contract: Option<ContractId>, channel: ChannelId) returns (ok: bool)
      modifies `protocols
      ensures ok == (id in old(protocols))
      ensures State() == if ok then old(SetSuccess(State(), id, contract, channel)) else old(State())
    {
      ok := id in protocols;
      if ok {
        protocols := protocols[id := protocols[id].(state := Success, contract := contract, channel := channel)];
      }
    }

    method SetProtocolToFailed(id: ProtocolId) returns (ok: bool)
      modifies `protocols
      ensures ok == old(FailProtocol(State(), id)).Some?
      ensures State() == if ok then old(FailProtocol(State(), id)).value else old(State())
    {
      ok := id in protocols;
      if ok { protocols := protocols[id := protocols[id].(state := Failure)]; }
    }

    /** Fails without a row to update, and then changes nothing. */
    method UpdatePositionState(trader: TraderId, from: set<PositionState>, to: PositionState) returns (id: Option<nat>)
      modifies `positions
      ensures id == old(FirstRow(positions, trader, from))
      ensures positions == old(SetState(positions, trader, from, to))
      ensures id.None? ==> positions == old(positions)
    {
      id := FirstRow(positions, trader, from);
      positions := SetState(positions, trader, from, to);
    }

    method InsertTrade(positionId: nat, trade: TradeRecord)
      modifies `trades
      ensures State() == old(AddTrade(State(), positionId, trade))
    {
      trades := trades + [TradeRow(positionId, trade)];
    }

    method MarkFundingFeeEventsAsPaid(protocol: ProtocolId)
      modifies `fundingFeeEvents, `links
      ensures State() == old(MarkPaid(State(), protocol))
    {
      var ids := EventsOf(links, protocol);
      if ids == {} { return; }
      fundingFeeEvents := PayEvents(fundingFeeEvents, ids);
      links := links - ids;
    }
  }

  class DlcProtocolExecutor {
    const db: Database

    constructor (database: Database)
      ensures db == database
    {
      db := database;
    }

    /** `start_open_channel_protocol` and `start_open_position_protocol` without events,
        `start_resize_protocol` and `start_settle_protocol` with them. */
    method StartTradeProtocol(id: ProtocolId, row: ProtocolRow, trade: TradeRecord, events: seq<nat>)
      returns (ok: bool)
      modifies db
      ensures ok == old(Schema.StartTradeProtocol(db.State(), id, row, trade, events)).Some?
      ensures db.State() == if ok then old(Schema.StartTradeProtocol(db.State(), id, row, trade, events)).value
                            else old(db.State())
    {
      var before := db.State();
      ok := db.CreateProtocol(id, row);
      if ok { ok := db.InsertProtocolFundingFeeEvents(id, events); }
      if !ok { db.Rollback(before); return; }
      db.tradeParams := db.tradeParams[id := trade];
    }

    method StartRollover(id: ProtocolId, row: ProtocolRow, params: RolloverParams, events: seq<nat>)
      returns (ok: bool)
      modifies db
      ensures ok == old(Schema.StartRollover(db.State(), id, row, params, events)).Some?
      ensures db.State() == if ok then old(Schema.StartRollover(db.State(), id, row, params, events)).value
                            else old(db.State())
    {
      var before := db.State();
      ok := db.CreateProtocol(id, row);
      if ok { ok := db.InsertProtocolFundingFeeEvents(id, events); }
      if !ok { db.Rollback(before); return; }
      db.rolloverParams := db.rolloverParams[id := params];
    }

    method FailDlcProtocol(id: ProtocolId) returns (ok: bool)
      modifies db
      ensures ok == old(FailProtocol(db.State(), id)).Some?
      ensures db.State() == if ok then old(FailProtocol(db.State(), id)).value else old(db.State())
    {
      ok := db.SetProtocolToFailed(id);
    }

    /** One transaction: all the statements of the protocol's kind, or none of them. */
    method FinishDlcProtocol(id: ProtocolId, trader: TraderId, contract: Option<ContractId>, channel: ChannelId)
      returns (ok: bool)
      modifies db
      ensures ok == old(Schema.FinishDlcProtocol(db.State(), id, trader, contract, channel)).Some?
      ensures db.State() == if ok then old(Schema.FinishDlcProtocol(db.State(), id, trader, contract, channel)).value
                            else old(db.State())
    {
      var before := db.State();
      if !HasProtocol(before, id) { return false; }
      match before.protocols[id].protocolType {
        case OpenChannel | OpenPosition =>
          ok := contract.Some?;
          if ok { ok := FinishOpenPosition(id, before.tradeParams[id], contract.value, channel); }
        case ResizePosition =>
          ok := contract.Some?;
          if ok { ok := FinishResizePosition(id, before.tradeParams[id], contract.value, channel); }
        case Settle =>
          ok := FinishSettle(id, before.tradeParams[id], before.protocols[id].contract, channel);
        case RolloverProtocol =>
          ok := contract.Some?;
          if ok { ok := FinishRollover(id, trader, before.rolloverParams[id], contract.value, channel); }
        case Close =>
          ok := db.SetProtocolToSuccess(id, None, channel);
      }
      if !ok { db.Rollback(before); }
    }

    method FinishOpenPosition(id: ProtocolId, trade: TradeRecord, contract: ContractId, channel: ChannelId)
      returns (ok: bool)
      requires id in db.protocols
      modifies db
      ensures ok == old(Schema.FinishOpenPosition(db.State(), id, trade, contract, channel)).Some?
      ensures ok ==> db.State() == old(Schema.FinishOpenPosition(db.State(), id, trade, contract, channel)).value
    {
      var _ := db.SetProtocolToSuccess(id, Some(contract), channel);
      var position := db.UpdatePositionState(trade.trader, {Proposed}, Open);
      if position.None? { return false; }
      db.InsertTrade(position.value, trade.(traderPnl := None));
      return true;
    }

    method FinishResizePosition(id: ProtocolId, trade: TradeRecord, contract: ContractId, channel: ChannelId)
      returns (ok: bool)
      requires id in db.protocols
      modifies db
      ensures ok == old(Schema.FinishResizePosition(db.State(), id, trade, contract, channel)).Some?
      ensures ok ==> db.State() == old(Schema.FinishResizePosition(db.State(), id, trade, contract, channel)).value
    {
      var _ := db.SetProtocolToSuccess(id, Some(contract), channel);
      var position := db.UpdatePositionState(trade.trader, {Resizing}, Open);
      if position.None? { return false; }
      db.InsertTrade(position.value, trade);
      db.MarkFundingFeeEventsAsPaid(id);
      return true;
    }

    method FinishSettle(id: ProtocolId, trade: TradeRecord, settled: Option<ContractId>, channel: ChannelId)
      returns (ok: bool)
      requires id in db.protocols && settled == db.protocols[id].contract
      modifies db
      ensures ok == old(Schema.FinishSettle(db.State(), id, trade, channel)).Some?
      ensures ok ==> db.State() == old(Schema.FinishSettle(db.State(), id, trade, channel)).value
    {
      var _ := db.SetProtocolToSuccess(id, settled, channel);
      var position := LatestRow(db.positions, trade.trader, {Closing});
      if position.None? { return false; }
      var row := db.positions[position.value];
      var pnl := SettledPnl(row, trade);
      db.positions := db.positions[position.value :=
        row.(state := Closed, realizedPnl := Some(pnl), closingPrice := Some(trade.averagePrice))];
      db.InsertTrade(position.value, trade.(traderPnl := Some(pnl)));
      db.MarkFundingFeeEventsAsPaid(id);
      return true;
    }

    method FinishRollover(
      id: ProtocolId, trader: TraderId, params: RolloverParams, contract: ContractId, channel: ChannelId
    ) returns (ok: bool)
      requires id in db.protocols
      modifies db
      ensures ok && db.State() == old(Schema.FinishRollover(db.State(), id, trader, params, contract, channel))
    {
      ok := db.SetProtocolToSuccess(id, Some(contract), channel);
      db.positions := SetRolledOver(db.positions, trader, contract, params);
      db.MarkFundingFeeEventsAsPaid(id);
    }
  }
}
