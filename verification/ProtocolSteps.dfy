/** Every step keeps the invariant of the trader it is about, and touches no other trader. */
module ProtocolSteps {
  import opened Wrappers
  import opened Cfd
  import opened Positions
  import opened Schema
  import opened ProtocolRuns
  import opened ProtocolInvariant
  import opened Finishing
  import C = Channel
  import T = Trade

  ghost predicate Keeps(tables: Tables, after: Tables, trader: TraderId, phase: Phase, created: set<ProtocolId>)
  {
    TraderOk(after, trader, phase) && Leaves(tables, after, trader, created) && ReferencesOk(after)
  }

  lemma StartedTrade(tables: Tables, id: ProtocolId, row: ProtocolRow, trade: TradeRecord, events: seq<nat>)
    requires row.state == Pending
    requires StartTradeProtocol(tables, id, row, trade, events).Some?
    ensures var started := StartTradeProtocol(tables, id, row, trade, events).value;
            started == tables.(protocols := tables.protocols[id := row], tradeParams := tables.tradeParams[id := trade],
                               links := started.links, nextLink := started.nextLink)
  {
  }

  lemma StartedRollover(tables: Tables, id: ProtocolId, row: ProtocolRow, params: RolloverParams, events: seq<nat>)
    requires row.state == Pending
    requires StartRollover(tables, id, row, params, events).Some?
    ensures var started := StartRollover(tables, id, row, params, events).value;
            started == tables.(protocols := tables.protocols[id := row],
                               rolloverParams := tables.rolloverParams[id := params],
                               links := started.links, nextLink := started.nextLink)
  {
  }

  // ---------------------------------------------------------------- proposals

  /** What a proposal that carries a trade may have written: nothing, the protocol, or the protocol and the rows. */
  ghost predicate Wrote(
    tables: Tables, after: Tables, id: ProtocolId, row: ProtocolRow, trade: TradeRecord, rows: seq<PositionRow>
  )
  {
    || after == tables
    || (&& after.protocols == tables.protocols[id := row]
        && after.tradeParams == tables.tradeParams[id := trade]
        && after.rolloverParams == tables.rolloverParams
        && after.trades == tables.trades
        && (after.positions == tables.positions || after.positions == rows))
  }

  lemma WritesProposal(
    tables: Tables, id: ProtocolId, row: ProtocolRow, trade: TradeRecord, events: seq<nat>,
    rows: seq<PositionRow>, stop: Stop
  )
    requires row.state == Pending
    ensures var started := StartTradeProtocol(tables, id, row, trade, events);
            var after := WriteProposal(tables, started, rows, stop);
            && Wrote(tables, after, id, row, trade, rows)
            && (CanCreate(tables, id, row.previous) && CanLink(tables, events) && stop.Completed?
                ==> id in after.protocols && after.positions == rows)
  {
    if StartTradeProtocol(tables, id, row, trade, events).Some? {
      StartedTrade(tables, id, row, trade, events);
    }
  }

  lemma WroteLeavesProtocols(
    tables: Tables, after: Tables, id: ProtocolId, row: ProtocolRow, trade: TradeRecord, rows: seq<PositionRow>
  )
    requires Wrote(tables, after, id, row, trade, rows) && ReferencesOk(tables)
    requires id !in tables.protocols && |rows| >= |tables.positions|
    ensures LeavesProtocols(tables, after, {id}) && ReferencesOk(after)
  {
  }

  /** Rows that are not active add up in every phase. */
  lemma InactiveRowsAddUp(tables: Tables, after: Tables, phase: Phase, next: Phase, i: nat)
    requires i < |tables.positions| && i < |after.positions|
    requires RowAddsUp(tables, phase, i) && after.positions[i] == tables.positions[i]
    requires Recorded(after.trades, i) == Recorded(tables.trades, i)
    requires tables.positions[i].state in {Closed, Failed}
    ensures RowAddsUp(after, next, i)
  {
  }

  lemma AppendLeavesRows(tables: Tables, after: Tables, trader: TraderId, row: PositionRow)
    requires after.trades == tables.trades && row.trader == trader
    requires after.positions == tables.positions || after.positions == tables.positions + [row]
    ensures LeavesRows(tables, after, trader)
  {
  }

  /** Without an active position, the rows of a trader add up in every phase. */
  lemma InactiveTraderAddsUp(tables: Tables, after: Tables, phase: Phase, next: Phase, trader: TraderId, i: nat)
    requires RowsOk(tables, trader, phase) && (phase.NoChannel? || phase.Settled?)
    requires i < |tables.positions| <= |after.positions| && tables.positions[i].trader == trader
    requires after.trades == tables.trades && after.positions[i] == tables.positions[i]
    ensures !IsActive(after.positions[i], trader) && RowAddsUp(after, next, i)
  {
    assert RowAddsUp(tables, phase, i);
    assert !IsActive(tables.positions[i], trader);
  }

  lemma NewRowAddsUp(tables: Tables, phase: Phase, i: nat)
    requires ReferencesOk(tables) && i < |tables.positions| && tables.positions[i].state.Proposed?
    requires forall k :: 0 <= k < |tables.trades| ==> tables.trades[k].positionId < i
    requires PendingTrade(tables, phase) == Some(PositionTally(tables.positions[i].position))
    requires phase.IsPending() && phase.protocol in tables.protocols
    ensures RowAddsUp(tables, phase, i)
  {
    RecordedNothing(tables.trades, i);
  }

  /** A trader without an active position gets one, in the state and with the tally that `pending` asks for. */
  lemma AppendKeepsTrader(
    tables: Tables, after: Tables, phase: Phase, pending: Phase, trader: TraderId, row: PositionRow
  )
    requires RowsOk(tables, trader, phase) && (phase.NoChannel? || phase.Settled?)
    requires ReferencesOk(tables) && ReferencesOk(after) && after.trades == tables.trades
    requires after.positions == tables.positions || after.positions == tables.positions + [row]
    requires row.trader == trader && row.state.Proposed? && StateFits(Proposed, pending)
    requires after.positions != tables.positions ==>
               && pending.IsPending() && pending.protocol in after.protocols
               && PendingTrade(after, pending) == Some(PositionTally(row.position))
    ensures RowsOk(after, trader, pending)
  {
    forall i | 0 <= i < |after.positions| && after.positions[i].trader == trader
      ensures IsActive(after.positions[i], trader) ==> i == |tables.positions|
      ensures RowAddsUp(after, pending, i)
    {
      if i < |tables.positions| {
        InactiveTraderAddsUp(tables, after, phase, pending, trader, i);
      } else {
        NewRowAddsUp(after, pending, i);
      }
    }
  }

  lemma OpenKeeps(
    tables: Tables, after: Tables, phase: Phase, pending: Phase, trader: TraderId,
    protocol: ProtocolRow, trade: TradeRecord, row: PositionRow
  )
    requires ReferencesOk(tables) && TraderOk(tables, trader, phase)
    requires || (phase.NoChannel? && pending.Offered? && protocol.protocolType.OpenChannel?)
             || (phase.Settled? && pending.RenewOffered? && pending.reopening && protocol.protocolType.OpenPosition?)
    requires pending.protocol !in tables.protocols
    requires row.trader == trade.trader == trader && row.state.Proposed?
    requires PositionTally(row.position) == TradeTally(trade)
    requires Wrote(tables, after, pending.protocol, protocol, trade, tables.positions + [row])
    ensures Keeps(tables, after, trader, pending, {pending.protocol})
  {
    WroteLeavesProtocols(tables, after, pending.protocol, protocol, trade, tables.positions + [row]);
    AppendLeavesRows(tables, after, trader, row);
    AppendKeepsTrader(tables, after, phase, pending, trader, row);
  }

  // ---------------------------------------------------------------- the active position

  const ACTIVE: set<PositionState> := {Proposed, Open, Closing, Rollover, Resizing}

  /** At most position `i` changes or gets a trade. */
  ghost predicate OnlyRow(tables: Tables, after: Tables, i: nat)
    requires i < |tables.positions|
  {
    && |after.positions| == |tables.positions|
    && after.positions[i].trader == tables.positions[i].trader
    && (forall j :: 0 <= j < |tables.positions| && j != i ==>
          after.positions[j] == tables.positions[j] && Recorded(after.trades, j) == Recorded(tables.trades, j))
  }

  /** An update of a trader with one active position reaches that position only. */
  lemma UpdateReachesOnly(
    tables: Tables, after: Tables, trader: TraderId, phase: Phase, i: nat, states: set<PositionState>,
    update: PositionRow -> PositionRow
  )
    requires RowsOk(tables, trader, phase) && states <= ACTIVE
    requires i < |tables.positions| && IsActive(tables.positions[i], trader)
    requires update(tables.positions[i]).trader == trader
    requires after.positions == UpdateRows(tables.positions, trader, states, update) && after.trades == tables.trades
    ensures OnlyRow(tables, after, i)
  {
    forall j | 0 <= j < |tables.positions| && j != i
      ensures after.positions[j] == tables.positions[j]
    {
      assert !IsActive(tables.positions[j], trader);
    }
  }

  /** It is enough to look at the active position. */
  lemma ActiveRowKeeps(tables: Tables, after: Tables, trader: TraderId, phase: Phase, next: Phase, i: nat)
    requires RowsOk(tables, trader, phase)
    requires i < |tables.positions| && IsActive(tables.positions[i], trader) && OnlyRow(tables, after, i)
    requires after.positions[i].state in ACTIVE ==> StateFits(after.positions[i].state, next)
    requires RowAddsUp(after, next, i)
    ensures RowsOk(after, trader, next) && LeavesRows(tables, after, trader)
  {
    forall j | 0 <= j < |after.positions| && after.positions[j].trader == trader
      ensures IsActive(after.positions[j], trader) ==> j == i
      ensures RowAddsUp(after, next, j)
    {
      if j != i {
        assert RowAddsUp(tables, phase, j) && !IsActive(tables.positions[j], trader);
        InactiveRowsAddUp(tables, after, phase, next, j);
      }
    }
  }

  lemma NoActiveRowKeeps(tables: Tables, after: Tables, trader: TraderId, phase: Phase, next: Phase)
    requires RowsOk(tables, trader, phase)
    requires forall i :: 0 <= i < |tables.positions| ==> !IsActive(tables.positions[i], trader)
    requires after.positions == tables.positions && after.trades == tables.trades
    ensures RowsOk(after, trader, next) && LeavesRows(tables, after, trader)
  {
    forall j | 0 <= j < |after.positions| && after.positions[j].trader == trader
      ensures RowAddsUp(after, next, j)
    {
      assert RowAddsUp(tables, phase, j);
      InactiveRowsAddUp(tables, after, phase, next, j);
    }
  }

  // ---------------------------------------------------------------- proposals in an established channel

  lemma SettleKeeps(
    tables: Tables, after: Tables, id: ProtocolId, trader: TraderId, protocol: ProtocolRow, trade: TradeRecord,
    price: Option<Positive>, i: nat
  )
    requires ReferencesOk(tables) && TraderOk(tables, trader, Established)
    requires i < |tables.positions| && Selects(tables.positions[i], trader, {Open})
    requires id !in tables.protocols && id in after.protocols
    requires protocol.protocolType.Settle? && trade.trader == trader
    requires tables.positions[i].position.SignedContracts() + trade.SignedContracts() == 0.0
    requires Wrote(tables, after, id, protocol, trade, SetClosing(tables.positions, trader, price))
    requires after.positions == SetClosing(tables.positions, trader, price)
    ensures Keeps(tables, after, trader, SettleOffered(id), {id})
  {
    WroteLeavesProtocols(tables, after, id, protocol, trade, SetClosing(tables.positions, trader, price));
    UpdateReachesOnly(tables, after, trader, Established, i, {Open},
                      (row: PositionRow) => row.(state := Closing, closingPrice := price));
    assert RowAddsUp(tables, Established, i);
    ActiveRowKeeps(tables, after, trader, Established, SettleOffered(id), i);
  }

  lemma ResizeKeeps(
    tables: Tables, after: Tables, id: ProtocolId, trader: TraderId, protocol: ProtocolRow, trade: TradeRecord,
    contract: ContractId, resized: T.ResizedPosition, i: nat
  )
    requires ReferencesOk(tables) && TraderOk(tables, trader, Established)
    requires i < |tables.positions| && Selects(tables.positions[i], trader, {Open})
    requires id !in tables.protocols
    requires protocol.protocolType.ResizePosition? && trade.trader == trader
    requires tables.positions[i].position.SignedContracts() + trade.SignedContracts()
             == RelativeContracts(resized.contracts, resized.coordinatorDirection.Opposite())
    requires Wrote(tables, after, id, protocol, trade,
                   SetResizing(tables.positions, trader, contract, resized, trade.matchingFee))
    ensures Keeps(tables, after, trader, RenewOffered(id, false), {id})
  {
    var rows := SetResizing(tables.positions, trader, contract, resized, trade.matchingFee);
    WroteLeavesProtocols(tables, after, id, protocol, trade, rows);
    if after.positions == rows {
      UpdateReachesOnly(tables, after, trader, Established, i, {Open},
                        (row: PositionRow) => ResizingRow(row, contract, resized, trade.matchingFee));
    }
    assert RowAddsUp(tables, Established, i);
    ActiveRowKeeps(tables, after, trader, Established, RenewOffered(id, false), i);
  }

  /** A rollover writes its own parameters instead of a trade. */
  ghost predicate WroteRollover(
    tables: Tables, after: Tables, id: ProtocolId, row: ProtocolRow, params: RolloverParams, rows: seq<PositionRow>
  )
  {
    || after == tables
    || (&& after.protocols == tables.protocols[id := row]
        && after.tradeParams == tables.tradeParams
        && after.rolloverParams == tables.rolloverParams[id := params]
        && after.trades == tables.trades
        && (after.positions == tables.positions || after.positions == rows))
  }

  lemma WroteRolloverLeavesProtocols(
    tables: Tables, after: Tables, id: ProtocolId, row: ProtocolRow, params: RolloverParams, rows: seq<PositionRow>
  )
    requires WroteRollover(tables, after, id, row, params, rows) && ReferencesOk(tables)
    requires id !in tables.protocols && |rows| >= |tables.positions|
    ensures LeavesProtocols(tables, after, {id}) && ReferencesOk(after)
  {
  }

  lemma RolloverKeeps(
    tables: Tables, after: Tables, id: ProtocolId, trader: TraderId, protocol: ProtocolRow,
    params: RolloverParams, i: nat
  )
    requires ReferencesOk(tables) && TraderOk(tables, trader, Established)
    requires i < |tables.positions| && Selects(tables.positions[i], trader, {Open, Rollover})
    requires id !in tables.protocols && protocol.protocolType.RolloverProtocol?
    requires WroteRollover(tables, after, id, protocol, params, SetState(tables.positions, trader, {Open}, Rollover))
    ensures Keeps(tables, after, trader, RenewOffered(id, false), {id})
  {
    var rows := SetState(tables.positions, trader, {Open}, Rollover);
    WroteRolloverLeavesProtocols(tables, after, id, protocol, params, rows);
    RolloverRowsKeep(tables, after, id, trader, i);
  }

  lemma RolloverRowsKeep(tables: Tables, after: Tables, id: ProtocolId, trader: TraderId, i: nat)
    requires RowsOk(tables, trader, Established)
    requires i < |tables.positions| && Selects(tables.positions[i], trader, {Open, Rollover})
    requires after.trades == tables.trades
    requires || after.positions == tables.positions
             || after.positions == SetState(tables.positions, trader, {Open}, Rollover)
    ensures RowsOk(after, trader, RenewOffered(id, false)) && LeavesRows(tables, after, trader)
  {
    if after.positions != tables.positions {
      UpdateReachesOnly(tables, after, trader, Established, i, {Open}, (row: PositionRow) => row.(state := Rollover));
    }
    assert RowAddsUp(tables, Established, i);
    assert RowAddsUp(after, RenewOffered(id, false), i);
    ActiveRowKeeps(tables, after, trader, Established, RenewOffered(id, false), i);
  }

  // ---------------------------------------------------------------- answers

  lemma AcceptedAddsUp(tables: Tables, phase: Phase, row: PositionRow, recorded: Tally)
    requires phase.IsPending() && !phase.SettleOffered? && StateFits(row.state, phase)
    requires AddsUp(tables, phase, row, recorded)
    ensures AddsUp(tables, phase.Accepted(), row, recorded) && StateFits(row.state, phase.Accepted())
  {
  }

  /** The channel moves on, but nothing is recorded: harmless unless a position was closing. */
  lemma AcceptedUnrecorded(tables: Tables, after: Tables, trader: TraderId, phase: Phase)
    requires RowsOk(tables, trader, phase) && phase.IsPending()
    requires after == tables.(protocols := after.protocols) && LeavesProtocols(tables, after, {})
    requires phase.SettleOffered? ==> forall i :: 0 <= i < |tables.positions| ==> !IsActive(tables.positions[i], trader)
    ensures RowsOk(after, trader, phase.Accepted()) && LeavesRows(tables, after, trader)
  {
    match LatestRow(tables.positions, trader, ACTIVE)
    case None => NoActiveRowKeeps(tables, after, trader, phase, phase.Accepted());
    case Some(i) =>
      assert IsActive(tables.positions[i], trader) && RowAddsUp(tables, phase, i);
      AcceptedAddsUp(tables, phase, tables.positions[i], Recorded(tables.trades, i));
      AddsUpStays(tables, after, {}, phase.Accepted(), tables.positions[i], Recorded(tables.trades, i));
      assert RowAddsUp(after, phase.Accepted(), i);
      ActiveRowKeeps(tables, after, trader, phase, phase.Accepted(), i);
  }

  /** The trade of a finished protocol is exactly what its position still missed. */
  lemma FinishedAddsUp(tables: Tables, phase: Phase, row: PositionRow, recorded: Tally, moved: PositionRow)
    requires phase.IsPending() && HasProtocol(tables, phase.protocol)
    requires CarriesTrade(tables.protocols[phase.protocol].protocolType)
    requires row.state == GuardState(tables.protocols[phase.protocol].protocolType)
    requires moved.state == TargetState(tables.protocols[phase.protocol].protocolType) && moved.position == row.position
    requires AddsUp(tables, phase, row, recorded)
    ensures var all := recorded.Plus(TradeTally(tables.tradeParams[phase.protocol]));
            if moved.state.Closed? then all.contracts == 0.0 else all == PositionTally(moved.position)
  {
    var trade := TradeTally(tables.tradeParams[phase.protocol]);
    assert PendingTrade(tables, phase) == Some(trade);
    match row.state
    case Proposed => assert recorded == NOTHING && trade == PositionTally(row.position);
    case Resizing => assert recorded.Plus(trade) == PositionTally(row.position);
    case Closing => assert recorded.contracts + trade.contracts == 0.0;
  }

  lemma FinishedRowAddsUp(tables: Tables, after: Tables, phase: Phase, moved: nat)
    requires phase.IsPending() && HasProtocol(tables, phase.protocol)
    requires CarriesTrade(tables.protocols[phase.protocol].protocolType)
    requires IsGuarded(tables, phase.protocol, moved) && moved < |after.positions|
    requires after.positions[moved].state == TargetState(tables.protocols[phase.protocol].protocolType)
    requires after.positions[moved].position == tables.positions[moved].position
    requires Recorded(after.trades, moved)
             == Recorded(tables.trades, moved).Plus(TradeTally(tables.tradeParams[phase.protocol]))
    requires RowAddsUp(tables, phase, moved)
    ensures RowAddsUp(after, phase.Accepted(), moved)
  {
    var recorded := Recorded(tables.trades, moved);
    FinishedAddsUp(tables, phase, tables.positions[moved], recorded, after.positions[moved]);
  }

  lemma FinishedReachesOnly(tables: Tables, after: Tables, trader: TraderId, phase: Phase, moved: nat)
    requires TraderOk(tables, trader, phase) && phase.IsPending()
    requires HasProtocol(tables, phase.protocol) && CarriesTrade(tables.protocols[phase.protocol].protocolType)
    requires MovesPosition(tables, after, phase.protocol, moved)
    requires RecordsTrade(tables, after, phase.protocol, moved)
    ensures IsActive(tables.positions[moved], trader) && OnlyRow(tables, after, moved)
    ensures Recorded(after.trades, moved)
            == Recorded(tables.trades, moved).Plus(TradeTally(tables.tradeParams[phase.protocol]))
  {
    var row := after.trades[|tables.trades|];
    assert after.trades == tables.trades + [row];
    assert IsActive(tables.positions[moved], trader);
    forall j | 0 <= j < |tables.positions| && j != moved
      ensures after.positions[j] == tables.positions[j] && Recorded(after.trades, j) == Recorded(tables.trades, j)
    {
      assert IsGuarded(tables, phase.protocol, j) ==> IsActive(tables.positions[j], trader);
      RecordedAppend(tables.trades, row, j);
    }
    RecordedAppend(tables.trades, row, moved);
  }

  lemma FinishedTradeRows(tables: Tables, after: Tables, trader: TraderId, phase: Phase, moved: nat)
    requires TraderOk(tables, trader, phase) && phase.IsPending()
    requires HasProtocol(tables, phase.protocol) && CarriesTrade(tables.protocols[phase.protocol].protocolType)
    requires MovesPosition(tables, after, phase.protocol, moved)
    requires RecordsTrade(tables, after, phase.protocol, moved)
    ensures RowsOk(after, trader, phase.Accepted()) && LeavesRows(tables, after, trader)
  {
    FinishedReachesOnly(tables, after, trader, phase, moved);
    assert RowAddsUp(tables, phase, moved);
    FinishedRowAddsUp(tables, after, phase, moved);
    ActiveRowKeeps(tables, after, trader, phase, phase.Accepted(), moved);
  }

  lemma FinishedTradeKeeps(
    tables: Tables, trader: TraderId, phase: Phase, contract: Option<ContractId>, channel: ChannelId
  )
    requires TraderOk(tables, trader, phase) && phase.IsPending()
    requires FinishDlcProtocol(tables, phase.protocol, trader, contract, channel).Some?
    requires CarriesTrade(tables.protocols[phase.protocol].protocolType)
    ensures var after := FinishDlcProtocol(tables, phase.protocol, trader, contract, channel).value;
            RowsOk(after, trader, phase.Accepted()) && LeavesRows(tables, after, trader)
  {
    var after := FinishDlcProtocol(tables, phase.protocol, trader, contract, channel).value;
    FinishMovesEverythingTogether(tables, phase.protocol, trader, contract, channel);
    FinishedTradeRows(tables, after, trader, phase, MovedPosition(tables, phase.protocol).value);
  }

  /** A success keeps every protocol's kind and parameters, and its trade refers to an existing position. */
  lemma SuccessLeavesProtocols(tables: Tables, after: Tables, id: ProtocolId)
    requires ReferencesOk(tables) && id in tables.protocols
    requires SucceedsAlone(tables, after, id) && |after.positions| == |tables.positions|
    requires forall k :: |tables.trades| <= k < |after.trades| ==> after.trades[k].positionId < |after.positions|
    requires tables.trades <= after.trades
    ensures LeavesProtocols(tables, after, {}) && ReferencesOk(after)
  {
  }

  /** Finishing changes no protocol's kind. */
  lemma FinishedLeavesProtocols(
    tables: Tables, id: ProtocolId, trader: TraderId, contract: Option<ContractId>, channel: ChannelId
  )
    requires ReferencesOk(tables) && FinishDlcProtocol(tables, id, trader, contract, channel).Some?
    ensures var after := FinishDlcProtocol(tables, id, trader, contract, channel).value;
            LeavesProtocols(tables, after, {}) && ReferencesOk(after)
  {
    var after := FinishDlcProtocol(tables, id, trader, contract, channel).value;
    if CarriesTrade(tables.protocols[id].protocolType) {
      FinishMovesEverythingTogether(tables, id, trader, contract, channel);
    }
    SuccessLeavesProtocols(tables, after, id);
  }

  lemma NoActiveRowReached(
    rows: seq<PositionRow>, trader: TraderId, states: set<PositionState>, update: PositionRow -> PositionRow
  )
    requires states <= ACTIVE
    requires forall i :: 0 <= i < |rows| ==> !IsActive(rows[i], trader)
    ensures UpdateRows(rows, trader, states, update) == rows
  {
  }

  lemma FinishedRolloverRows(
    tables: Tables, after: Tables, trader: TraderId, phase: Phase, params: RolloverParams, contract: ContractId
  )
    requires RowsOk(tables, trader, phase) && phase.RenewOffered? && !phase.reopening
    requires phase.protocol in tables.protocols && tables.protocols[phase.protocol].protocolType.RolloverProtocol?
    requires after.positions == SetRolledOver(tables.positions, trader, contract, params)
    requires after.trades == tables.trades
    ensures RowsOk(after, trader, Established) && LeavesRows(tables, after, trader)
    ensures forall i :: 0 <= i < |tables.positions| ==>
              if Selects(tables.positions[i], trader, {Rollover})
              then after.positions[i].state == Open
                   && PositionTally(after.positions[i].position) == PositionTally(tables.positions[i].position)
              else after.positions[i] == tables.positions[i]
  {
    var update := (row: PositionRow) => RolledOver(row, contract, params);
    assert after.positions == UpdateRows(tables.positions, trader, {Rollover}, update);
    match LatestRow(tables.positions, trader, ACTIVE)
    case None =>
      NoActiveRowReached(tables.positions, trader, {Rollover}, update);
      NoActiveRowKeeps(tables, after, trader, phase, Established);
    case Some(i) =>
      assert IsActive(tables.positions[i], trader);
      assert RowAddsUp(tables, phase, i);
      UpdateReachesOnly(tables, after, trader, phase, i, {Rollover}, update);
      ActiveRowKeeps(tables, after, trader, phase, Established, i);
  }

  /** A settlement that cannot be recorded has no active position to close. */
  lemma UnrecordedSettlement(
    tables: Tables, trader: TraderId, phase: Phase, contract: Option<ContractId>, channel: ChannelId
  )
    requires TraderOk(tables, trader, phase) && phase.SettleOffered?
    requires FinishDlcProtocol(tables, phase.protocol, trader, contract, channel).None?
    ensures forall i :: 0 <= i < |tables.positions| ==> !IsActive(tables.positions[i], trader)
  {
    FinishSucceedsIff(tables, phase.protocol, trader, contract, channel);
    forall i | 0 <= i < |tables.positions| ensures !IsActive(tables.positions[i], trader) {
      assert !IsGuarded(tables, phase.protocol, i);
    }
  }

  lemma FinalizeKeepsRows(
    tables: Tables, trader: TraderId, phase: Phase, contract: Option<ContractId>, channel: ChannelId
  )
    requires TraderOk(tables, trader, phase) && phase.IsPending()
    ensures var after := FinalizeTables(tables, phase, trader, contract, channel);
            RowsOk(after, trader, phase.Accepted()) && LeavesRows(tables, after, trader)
  {
    var id := phase.protocol;
    match FinishDlcProtocol(tables, id, trader, contract, channel)
    case None =>
      if phase.SettleOffered? { UnrecordedSettlement(tables, trader, phase, contract, channel); }
      AcceptedUnrecorded(tables, FailOrKeep(tables, id), trader, phase);
    case Some(after) =>
      if CarriesTrade(tables.protocols[id].protocolType) {
        FinishedTradeKeeps(tables, trader, phase, contract, channel);
      } else {
        FinishedRolloverRows(tables, after, trader, phase, tables.rolloverParams[id], contract.value);
      }
  }

  lemma FinalizeLeavesProtocols(
    tables: Tables, trader: TraderId, phase: Phase, contract: Option<ContractId>, channel: ChannelId
  )
    requires ReferencesOk(tables) && phase.IsPending()
    ensures var after := FinalizeTables(tables, phase, trader, contract, channel);
            LeavesProtocols(tables, after, {}) && ReferencesOk(after)
  {
    if FinishDlcProtocol(tables, phase.protocol, trader, contract, channel).Some? {
      FinishedLeavesProtocols(tables, phase.protocol, trader, contract, channel);
    }
  }

  lemma FinalizeKeeps(
    tables: Tables, trader: TraderId, phase: Phase, contract: Option<ContractId>, channel: ChannelId
  )
    requires ReferencesOk(tables) && TraderOk(tables, trader, phase) && phase.IsPending()
    ensures Keeps(tables, FinalizeTables(tables, phase, trader, contract, channel), trader, phase.Accepted(), {})
  {
    FinalizeKeepsRows(tables, trader, phase, contract, channel);
    FinalizeLeavesProtocols(tables, trader, phase, contract, channel);
  }

  /** The state in which a rejection leaves the active position: a proposed one fails, a closing or rolling over
      one is open again, and a resizing one stays as it is. */
  function RefusedState(phase: Phase, state: PositionState): PositionState
  {
    if phase.Refused().Established? then if state in {Closing, Rollover} then Open else state
    else if state.Proposed? then Failed else state
  }

  lemma RefusedAddsUp(tables: Tables, phase: Phase, row: PositionRow, recorded: Tally, state: PositionState)
    requires phase.IsPending() && row.state in ACTIVE && StateFits(row.state, phase)
    requires state == RefusedState(phase, row.state) || (state == row.state && phase.Refused().Established?)
    requires AddsUp(tables, phase, row, recorded)
    ensures AddsUp(tables, phase.Refused(), row.(state := state), recorded)
    ensures state in ACTIVE ==> StateFits(state, phase.Refused())
  {
  }

  lemma RefusedRowsReachOnly(tables: Tables, trader: TraderId, phase: Phase)
    requires RowsOk(tables, trader, phase)
    ensures var rows := RefusedRows(tables.positions, phase, trader);
            match LatestRow(tables.positions, trader, ACTIVE)
            case None => rows == tables.positions
            case Some(i) =>
              && OnlyRow(tables, tables.(positions := rows), i)
              && rows[i] == tables.positions[i].(state := RefusedState(phase, tables.positions[i].state))
  {
    var states := if phase.Refused().Established? then {Closing, Rollover} else {Proposed};
    var to := if phase.Refused().Established? then Open else Failed;
    var update := (row: PositionRow) => row.(state := to);
    var after := tables.(positions := RefusedRows(tables.positions, phase, trader));
    match LatestRow(tables.positions, trader, ACTIVE)
    case None => NoActiveRowReached(tables.positions, trader, states, update);
    case Some(i) => UpdateReachesOnly(tables, after, trader, phase, i, states, update);
  }

  /** The rows after a rejection that reached the positions, or stopped before them. */
  lemma RefusedRowsKeep(tables: Tables, after: Tables, trader: TraderId, phase: Phase, crash: bool)
    requires RowsOk(tables, trader, phase) && phase.IsPending()
    requires after == tables.(
                        positions := if crash then tables.positions else RefusedRows(tables.positions, phase, trader),
                        protocols := after.protocols)
    requires LeavesProtocols(tables, after, {})
    requires var active := LatestRow(tables.positions, trader, ACTIVE);
             crash && active.Some? && tables.positions[active.value].state.Proposed? ==> phase.Refused().Established?
    ensures RowsOk(after, trader, phase.Refused()) && LeavesRows(tables, after, trader)
  {
    RefusedRowsReachOnly(tables, trader, phase);
    match LatestRow(tables.positions, trader, ACTIVE)
    case None => NoActiveRowKeeps(tables, after, trader, phase, phase.Refused());
    case Some(i) =>
      assert IsActive(tables.positions[i], trader) && RowAddsUp(tables, phase, i);
      RefusedAddsUp(tables, phase, tables.positions[i], Recorded(tables.trades, i), after.positions[i].state);
      AddsUpStays(tables, after, {}, phase.Refused(), after.positions[i], Recorded(tables.trades, i));
      assert RowAddsUp(after, phase.Refused(), i);
      ActiveRowKeeps(tables, after, trader, phase, phase.Refused(), i);
  }

  lemma RejectKeepsRows(tables: Tables, trader: TraderId, phase: Phase, crash: bool)
    requires TraderOk(tables, trader, phase) && phase.IsPending()
    requires crash ==> phase.Refused().Established? || LatestRow(tables.positions, trader, ACTIVE).None?
    ensures var after := RejectTables(tables, phase, trader, crash);
            RowsOk(after, trader, phase.Refused()) && LeavesRows(tables, after, trader)
  {
    var active := LatestRow(tables.positions, trader, ACTIVE);
    if active.Some? {
      // A proposed position comes with its protocol.
      assert RowAddsUp(tables, phase, active.value);
    }
    RefusedRowsKeep(tables, RejectTables(tables, phase, trader, crash), trader, phase,
                    crash || phase.protocol !in tables.protocols);
  }

  lemma RejectKeeps(tables: Tables, trader: TraderId, phase: Phase, crash: bool)
    requires ReferencesOk(tables) && TraderOk(tables, trader, phase) && phase.IsPending()
    requires crash ==> phase.Refused().Established? || LatestRow(tables.positions, trader, ACTIVE).None?
    ensures Keeps(tables, RejectTables(tables, phase, trader, crash), trader, phase.Refused(), {})
  {
    RejectKeepsRows(tables, trader, phase, crash);
    var after := RejectTables(tables, phase, trader, crash);
    assert |after.positions| == |tables.positions| && after.trades == tables.trades;
  }
}
