/** The coordinator's tables as values, and what each statement of coordinator/src/db and
    coordinator/src/funding_fee/db does to them. Rows of `positions`, `trades` and `funding_fee_events` are in
    order of creation and are never deleted, so a row's index is its id. */
module Schema {
  import opened Wrappers
  import opened Cfd
  import opened Positions
  import Trade

  type TraderId = nat
  type ProtocolId = nat
  type ContractId = nat
  type ChannelId = nat

  datatype PositionState = Proposed | Open | Closing | Closed | Failed | Rollover | Resizing

  datatype PositionRow = PositionRow(
    trader: TraderId, state: PositionState, position: Position, createdAt: int,
    contract: ContractId, closingPrice: Option<Positive>, realizedPnl: Option<int>
  )

  datatype ProtocolState = Pending | Success | Failure

  datatype ProtocolType = OpenChannel | OpenPosition | ResizePosition | Settle | RolloverProtocol | Close

  datatype ProtocolRow = ProtocolRow(
    previous: Option<ProtocolId>, channel: ChannelId, contract: Option<ContractId>, state: ProtocolState,
    trader: TraderId, protocolType: ProtocolType
  )

  /** A row of `trade_params`, and the part of a row of `trades` that is copied from it. */
  datatype TradeRecord = TradeRecord(
    trader: TraderId, quantity: Positive, leverage: Positive, averagePrice: Positive, direction: Direction,
    matchingFee: nat, traderPnl: Option<int>
  ) {
    function SignedContracts(): real
    {
      RelativeContracts(quantity, direction)
    }
  }

  datatype RolloverParams = RolloverParams(
    trader: TraderId, marginCoordinator: nat, marginTrader: nat,
    leverageCoordinator: Positive, leverageTrader: Positive
  )

  datatype TradeRow = TradeRow(positionId: nat, trade: TradeRecord)

  datatype FundingFeeEvent = FundingFeeEvent(
    amount: int, trader: TraderId, positionId: nat, dueDate: int, price: real, rate: real, paid: bool
  )

  /** A row of `protocol_funding_fee_events`: `protocol` will resolve the funding fee event with id `event`. */
  datatype Link = Link(protocol: ProtocolId, event: nat)

  datatype Tables = Tables(
    positions: seq<PositionRow>,
    protocols: map<ProtocolId, ProtocolRow>,
    tradeParams: map<ProtocolId, TradeRecord>,
    rolloverParams: map<ProtocolId, RolloverParams>,
    trades: seq<TradeRow>,
    fundingFeeEvents: seq<FundingFeeEvent>,
    links: map<nat, Link>,
    nextLink: nat
  )

  // ---------------------------------------------------------------- positions

  predicate Selects(row: PositionRow, trader: TraderId, states: set<PositionState>)
  {
    row.trader == trader && row.state in states
  }

  /** An `UPDATE` of all the rows of a trader in one of the given states. */
  function UpdateRows(
    rows: seq<PositionRow>, trader: TraderId, states: set<PositionState>, set_: PositionRow -> PositionRow
  ): (updated: seq<PositionRow>)
    ensures |updated| == |rows|
    ensures forall i :: 0 <= i < |rows| ==>
              updated[i] == if Selects(rows[i], trader, states) then set_(rows[i]) else rows[i]
  {
    seq(|rows|, i requires 0 <= i < |rows| => if Selects(rows[i], trader, states) then set_(rows[i]) else rows[i])
  }

  /** The first row that an `UPDATE` would return. */
  function FirstRow(rows: seq<PositionRow>, trader: TraderId, states: set<PositionState>): (id: Option<nat>)
    ensures id.Some? ==> id.value < |rows| && Selects(rows[id.value], trader, states)
    ensures id.Some? ==> forall i :: 0 <= i < id.value ==> !Selects(rows[i], trader, states)
    ensures id.None? ==> forall i :: 0 <= i < |rows| ==> !Selects(rows[i], trader, states)
  {
    if |rows| == 0 then None
    else if Selects(rows[0], trader, states) then Some(0)
    else
      match FirstRow(rows[1..], trader, states)
      case None =>
        assert forall i :: 1 <= i < |rows| ==> rows[i] == rows[1..][i - 1];
        None
      case Some(i) =>
        assert forall j :: 1 <= j < |rows| ==> rows[j] == rows[1..][j - 1];
        Some(i + 1)
  }

  /** `get_position_by_trader`: the most recently created row. */
  function LatestRow(rows: seq<PositionRow>, trader: TraderId, states: set<PositionState>): (id: Option<nat>)
    ensures id.Some? ==> id.value < |rows| && Selects(rows[id.value], trader, states)
    ensures id.Some? ==> forall i :: id.value < i < |rows| ==> !Selects(rows[i], trader, states)
    ensures id.None? ==> forall i :: 0 <= i < |rows| ==> !Selects(rows[i], trader, states)
  {
    if |rows| == 0 then None
    else
      var last := |rows| - 1;
      if Selects(rows[last], trader, states) then Some(last)
      else LatestRow(rows[..last], trader, states)
  }

  function SetState(rows: seq<PositionRow>, trader: TraderId, from: set<PositionState>, to: PositionState):
    seq<PositionRow>
  {
    UpdateRows(rows, trader, from, (row: PositionRow) => row.(state := to))
  }

  function SetClosing(rows: seq<PositionRow>, trader: TraderId, price: Option<Positive>): seq<PositionRow>
  {
    UpdateRows(rows, trader, {Open}, (row: PositionRow) => row.(state := Closing, closingPrice := price))
  }

  /** `set_position_to_resizing`. A realised profit is added to a column that starts unset, and adding to an
      unset column leaves it unset. The leverage columns are not written. */
  function SetResizing(
    rows: seq<PositionRow>, trader: TraderId, contract: ContractId, resized: Trade.ResizedPosition, fee: nat
  ): seq<PositionRow>
  {
    UpdateRows(rows, trader, {Open}, (row: PositionRow) => ResizingRow(row, contract, resized, fee))
  }

  function ResizingRow(row: PositionRow, contract: ContractId, resized: Trade.ResizedPosition, fee: nat): PositionRow
  {
    var pnl := if resized.realizedPnl.Some? then resized.realizedPnl.value else 0;
    row.(
      state := Resizing,
      contract := contract,
      realizedPnl := if row.realizedPnl.Some? then Some(row.realizedPnl.value + pnl) else None,
      position := row.position.(
        contracts := resized.contracts,
        traderDirection := resized.coordinatorDirection.Opposite(),
        averageEntryPrice := resized.averagePrice,
        traderMargin := resized.pots.marginTrader,
        coordinatorMargin := resized.pots.marginCoordinator,
        orderMatchingFees := row.position.orderMatchingFees + fee))
  }

  /** `finish_rollover_protocol` of the positions table. */
  function SetRolledOver(rows: seq<PositionRow>, trader: TraderId, contract: ContractId, params: RolloverParams):
    seq<PositionRow>
  {
    UpdateRows(rows, trader, {Rollover}, (row: PositionRow) => RolledOver(row, contract, params))
  }

  function RolledOver(row: PositionRow, contract: ContractId, params: RolloverParams): PositionRow
  {
    row.(state := Open,
         contract := contract,
         position := row.position.(
           coordinatorMargin := params.marginCoordinator,
           coordinatorLeverage := params.leverageCoordinator,
           traderMargin := params.marginTrader,
           traderLeverage := params.leverageTrader))
  }

  // ---------------------------------------------------------------- funding fee events

  predicate Outstanding(event: FundingFeeEvent, trader: TraderId, positionId: nat)
  {
    event.trader == trader && event.positionId == positionId && !event.paid
  }

  /** The ids of the unpaid events of a position, oldest first. */
  function OutstandingEvents(events: seq<FundingFeeEvent>, trader: TraderId, positionId: nat): (ids: seq<nat>)
    ensures forall i: nat :: i in ids <==> i < |events| && Outstanding(events[i], trader, positionId)
    ensures forall j, k :: 0 <= j < k < |ids| ==> ids[j] < ids[k]
  {
    if |events| == 0 then []
    else
      var last := |events| - 1;
      var ids := OutstandingEvents(events[..last], trader, positionId);
      assert forall k :: 0 <= k < |ids| ==> ids[k] in ids;
      ids + if Outstanding(events[last], trader, positionId) then [last] else []
  }

  function AmountsOf(events: seq<FundingFeeEvent>, ids: seq<nat>): seq<int>
    requires forall k :: 0 <= k < |ids| ==> ids[k] < |events|
  {
    seq(|ids|, k requires 0 <= k < |ids| => events[ids[k]].amount)
  }

  /** The events that a protocol resolves. */
  function EventsOf(links: map<nat, Link>, protocol: ProtocolId): set<nat>
  {
    set id | id in links && links[id].protocol == protocol :: links[id].event
  }

  function PayEvents(events: seq<FundingFeeEvent>, ids: set<nat>): (paid: seq<FundingFeeEvent>)
    ensures |paid| == |events|
    ensures forall i :: 0 <= i < |events| ==> paid[i] == if i in ids then events[i].(paid := true) else events[i]
  {
    seq(|events|, i requires 0 <= i < |events| => if i in ids then events[i].(paid := true) else events[i])
  }

  /** `mark_funding_fee_event_as_paid`. The final delete filters the link table by its own row id, but with the
      ids of the funding fee events. */
  function MarkPaid(tables: Tables, protocol: ProtocolId): (after: Tables)
    ensures after.fundingFeeEvents == PayEvents(tables.fundingFeeEvents, EventsOf(tables.links, protocol))
    ensures after == tables.(fundingFeeEvents := after.fundingFeeEvents, links := after.links)
  {
    var ids := EventsOf(tables.links, protocol);
    if ids == {} then
      assert PayEvents(tables.fundingFeeEvents, ids) == tables.fundingFeeEvents;
      tables
    else tables.(fundingFeeEvents := PayEvents(tables.fundingFeeEvents, ids),
                 links := tables.links - ids)
  }

  /** `insert_protocol_funding_fee_event`: one row per event, with consecutive ids. */
  function AddLinks(tables: Tables, protocol: ProtocolId, events: seq<nat>): (after: Tables)
    ensures after == tables.(links := after.links, nextLink := after.nextLink)
    decreases |events|
  {
    if |events| == 0 then tables
    else
      var one := tables.(links := tables.links[tables.nextLink := Link(protocol, events[0])],
                         nextLink := tables.nextLink + 1);
      AddLinks(one, protocol, events[1..])
  }

  // ---------------------------------------------------------------- starting a protocol

  /** Whether `create` accepts the row: the protocol id is unique and the previous one must exist. */
  predicate CanCreate(tables: Tables, id: ProtocolId, previous: Option<ProtocolId>)
  {
    id !in tables.protocols && (previous.Some? ==> previous.value in tables.protocols)
  }

  /** A new protocol is pending, whatever state the given row names. */
  function Create(tables: Tables, id: ProtocolId, row: ProtocolRow): Tables
  {
    tables.(protocols := tables.protocols[id := row.(state := Pending)])
  }

  /** Every linked funding fee event must exist. */
  predicate CanLink(tables: Tables, events: seq<nat>)
  {
    forall i :: 0 <= i < |events| ==> events[i] < |tables.fundingFeeEvents|
  }

  /** The start of a protocol that carries trade parameters. `None` is a rolled-back transaction. */
  function StartTradeProtocol(
    tables: Tables, id: ProtocolId, row: ProtocolRow, trade: TradeRecord, events: seq<nat>
  ): Option<Tables>
  {
    if !CanCreate(tables, id, row.previous) || !CanLink(tables, events) then None
    else
      var linked := AddLinks(Create(tables, id, row), id, events);
      Some(linked.(tradeParams := linked.tradeParams[id := trade]))
  }

  function StartRollover(
    tables: Tables, id: ProtocolId, row: ProtocolRow, params: RolloverParams, events: seq<nat>
  ): Option<Tables>
  {
    if !CanCreate(tables, id, row.previous) || !CanLink(tables, events) then None
    else
      var linked := AddLinks(Create(tables, id, row), id, events);
      Some(linked.(rolloverParams := linked.rolloverParams[id := params]))
  }

  // ---------------------------------------------------------------- finishing a protocol

  function SetSuccess(tables: Tables, id: ProtocolId, contract: Option<ContractId>, channel: ChannelId): Tables
    requires id in tables.protocols
  {
    tables.(protocols :=
      tables.protocols[id := tables.protocols[id].(state := Success, contract := contract, channel := channel)])
  }

  /** `set_dlc_protocol_state_to_failed`. */
  function FailProtocol(tables: Tables, id: ProtocolId): Option<Tables>
  {
    if id !in tables.protocols then None
    else Some(tables.(protocols := tables.protocols[id := tables.protocols[id].(state := Failure)]))
  }

  function AddTrade(tables: Tables, positionId: nat, trade: TradeRecord): Tables
  {
    tables.(trades := tables.trades + [TradeRow(positionId, trade)])
  }

  function FinishOpenPosition(
    tables: Tables, id: ProtocolId, trade: TradeRecord, contract: ContractId, channel: ChannelId
  ): Option<Tables>
    requires id in tables.protocols
  {
    var succeeded := SetSuccess(tables, id, Some(contract), channel);
    match FirstRow(tables.positions, trade.trader, {Proposed})
    case None => None
    case Some(i) =>
      Some(AddTrade(succeeded.(positions := SetState(tables.positions, trade.trader, {Proposed}, Open)),
                    i, trade.(traderPnl := None)))
  }

  function FinishResizePosition(
    tables: Tables, id: ProtocolId, trade: TradeRecord, contract: ContractId, channel: ChannelId
  ): Option<Tables>
    requires id in tables.protocols
  {
    var succeeded := SetSuccess(tables, id, Some(contract), channel);
    match FirstRow(tables.positions, trade.trader, {Resizing})
    case None => None
    case Some(i) =>
      Some(MarkPaid(AddTrade(succeeded.(positions := SetState(tables.positions, trade.trader, {Resizing}, Open)),
                             i, trade),
                    id))
  }

  /** The profit of a settled position, from the margins in its row. */
  function SettledPnl(row: PositionRow, trade: TradeRecord): int
  {
    CalculatePnl(row.position.averageEntryPrice, trade.averagePrice, trade.quantity, row.position.traderDirection,
                 row.position.MarginLong(), row.position.MarginShort())
  }

  function FinishSettle(tables: Tables, id: ProtocolId, trade: TradeRecord, channel: ChannelId): Option<Tables>
    requires id in tables.protocols
  {
    var succeeded := SetSuccess(tables, id, tables.protocols[id].contract, channel);
    match LatestRow(tables.positions, trade.trader, {Closing})
    case None => None
    case Some(i) =>
      var pnl := SettledPnl(tables.positions[i], trade);
      var row := tables.positions[i].(state := Closed, realizedPnl := Some(pnl),
                                      closingPrice := Some(trade.averagePrice));
      Some(MarkPaid(AddTrade(succeeded.(positions := tables.positions[i := row]), i, trade.(traderPnl := Some(pnl))),
                    id))
  }

  /** A rollover is finished whether or not a row is in state `Rollover`. */
  function FinishRollover(
    tables: Tables, id: ProtocolId, trader: TraderId, params: RolloverParams, contract: ContractId, channel: ChannelId
  ): Tables
    requires id in tables.protocols
  {
    MarkPaid(SetSuccess(tables, id, Some(contract), channel)
               .(positions := SetRolledOver(tables.positions, trader, contract, params)),
             id)
  }

  predicate CarriesTrade(protocolType: ProtocolType)
  {
    protocolType in {OpenChannel, OpenPosition, ResizePosition, Settle}
  }

  /** `get_dlc_protocol` finds the row and its parameters. */
  predicate HasProtocol(tables: Tables, id: ProtocolId)
  {
    && id in tables.protocols
    && (CarriesTrade(tables.protocols[id].protocolType) ==> id in tables.tradeParams)
    && (tables.protocols[id].protocolType.RolloverProtocol? ==> id in tables.rolloverParams)
  }

  /** `finish_dlc_protocol`. `None` is an error, after which every table is as before. */
  function FinishDlcProtocol(
    tables: Tables, id: ProtocolId, trader: TraderId, contract: Option<ContractId>, channel: ChannelId
  ): Option<Tables>
  {
    if !HasProtocol(tables, id) then None
    else
      match tables.protocols[id].protocolType
      case OpenChannel | OpenPosition =>
        if contract.None? then None
        else FinishOpenPosition(tables, id, tables.tradeParams[id], contract.value, channel)
      case ResizePosition =>
        if contract.None? then None
        else FinishResizePosition(tables, id, tables.tradeParams[id], contract.value, channel)
      case Settle => FinishSettle(tables, id, tables.tradeParams[id], channel)
      case RolloverProtocol =>
        if contract.None? then None
        else Some(FinishRollover(tables, id, trader, tables.rolloverParams[id], contract.value, channel))
      case Close => Some(SetSuccess(tables, id, None, channel))
  }
}
