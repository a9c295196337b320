/** Over every run: one active position per trader, and a position always is the sum of its recorded trades. */
module ProtocolInvariant {
  import opened Wrappers
  import opened Cfd
  import opened Positions
  import opened Schema
  import opened ProtocolRuns
  import opened Finishing
  import C = Channel
  import T = Trade

  /** Signed contracts and order-matching fees. */
  datatype Tally = Tally(contracts: real, fees: int) {
    function Plus(other: Tally): Tally
    {
      Tally(contracts + other.contracts, fees + other.fees)
    }
  }

  const NOTHING: Tally := Tally(0.0, 0)

  function TradeTally(trade: TradeRecord): Tally
  {
    Tally(trade.SignedContracts(), trade.matchingFee)
  }

  function PositionTally(position: Position): Tally
  {
    Tally(position.SignedContracts(), position.orderMatchingFees)
  }

  /** The sum of the rows of `trades` that belong to position `i`. */
  function Recorded(trades: seq<TradeRow>, i: nat): Tally
  {
    if |trades| == 0 then NOTHING
    else
      var last := trades[|trades| - 1];
      Recorded(trades[..|trades| - 1], i).Plus(if last.positionId == i then TradeTally(last.trade) else NOTHING)
  }

  lemma RecordedAppend(trades: seq<TradeRow>, row: TradeRow, i: nat)
    ensures Recorded(trades + [row], i)
            == if row.positionId == i then Recorded(trades, i).Plus(TradeTally(row.trade)) else Recorded(trades, i)
  {
    assert (trades + [row])[..|trades|] == trades;
  }

  lemma {:induction false} RecordedNothing(trades: seq<TradeRow>, i: nat)
    requires forall k :: 0 <= k < |trades| ==> trades[k].positionId < i
    ensures Recorded(trades, i) == NOTHING
  {
    if |trades| > 0 {
      RecordedNothing(trades[..|trades| - 1], i);
    }
  }

  // ---------------------------------------------------------------- the invariant

  predicate IsActive(row: PositionRow, trader: TraderId)
  {
    row.trader == trader && row.state !in {Closed, Failed}
  }

  /** The states in which a trader's active position can be while the channel is in a given phase. */
  predicate StateFits(state: PositionState, phase: Phase)
  {
    match phase
    case NoChannel | Settled => false
    case Offered(_) => state == Proposed
    case SettleOffered(_) => state == Closing
    case RenewOffered(_, reopening) => if reopening then state == Proposed else state in {Open, Rollover, Resizing}
    case Established => state in {Proposed, Open, Rollover, Resizing, Closing}
  }

  /** The protocol that a phase waits for is of the matching kind and carries the trader's trade. */
  predicate ProtocolFits(tables: Tables, trader: TraderId, phase: Phase)
  {
    && (phase.SettleOffered? ==> phase.protocol in tables.protocols)
    && (phase.IsPending() && phase.protocol in tables.protocols ==>
          var kind := tables.protocols[phase.protocol].protocolType;
          && (match phase
              case Offered(_) => kind.OpenChannel?
              case SettleOffered(_) => kind.Settle?
              case RenewOffered(_, reopening) =>
                if reopening then kind.OpenPosition? else kind.ResizePosition? || kind.RolloverProtocol?)
          && (CarriesTrade(kind) ==>
                phase.protocol in tables.tradeParams && tables.tradeParams[phase.protocol].trader == trader)
          && (kind.RolloverProtocol? ==> phase.protocol in tables.rolloverParams))
  }

  /** The trade that a phase waits for, once it is written. */
  function PendingTrade(tables: Tables, phase: Phase): Option<Tally>
  {
    if phase.IsPending() && phase.protocol in tables.tradeParams then
      Some(TradeTally(tables.tradeParams[phase.protocol]))
    else None
  }

  /** The recorded trades of a position become its row by adding the trade of one of its trader's resizes. */
  predicate MissesTrade(tables: Tables, row: PositionRow, recorded: Tally, id: ProtocolId)
  {
    && id in tables.protocols && tables.protocols[id].protocolType.ResizePosition?
    && id in tables.tradeParams && tables.tradeParams[id].trader == row.trader
    && recorded.Plus(TradeTally(tables.tradeParams[id])) == PositionTally(row.position)
  }

  /** How the recorded trades of a position relate to its row: already equal when open, still missing the
      pending trade when resizing, nothing yet when proposed, and back to zero contracts when closed. */
  ghost predicate AddsUp(tables: Tables, phase: Phase, row: PositionRow, recorded: Tally)
  {
    var pending := PendingTrade(tables, phase);
    match row.state
    case Proposed =>
      && recorded == NOTHING
      && (phase.IsPending() ==> phase.protocol in tables.protocols && pending == Some(PositionTally(row.position)))
    case Open => recorded == PositionTally(row.position)
    case Rollover => recorded == PositionTally(row.position)
    case Closing =>
      && recorded == PositionTally(row.position)
      && (pending.Some? ==> recorded.contracts + pending.value.contracts == 0.0)
    case Resizing =>
      if phase.IsPending() then MissesTrade(tables, row, recorded, phase.protocol)
      else exists id :: MissesTrade(tables, row, recorded, id)
    case Closed => recorded.contracts == 0.0
    case Failed => recorded == NOTHING
  }

  ghost predicate RowAddsUp(tables: Tables, phase: Phase, i: nat)
    requires i < |tables.positions|
  {
    AddsUp(tables, phase, tables.positions[i], Recorded(tables.trades, i))
  }

  ghost predicate RowsOk(tables: Tables, trader: TraderId, phase: Phase)
  {
    && (forall i, j ::
          (0 <= i < |tables.positions| && 0 <= j < |tables.positions|
           && IsActive(tables.positions[i], trader) && IsActive(tables.positions[j], trader)) ==> i == j)
    && (forall i :: 0 <= i < |tables.positions| && IsActive(tables.positions[i], trader) ==>
          StateFits(tables.positions[i].state, phase))
    && (forall i {:trigger RowAddsUp(tables, phase, i)} ::
          0 <= i < |tables.positions| && tables.positions[i].trader == trader ==> RowAddsUp(tables, phase, i))
  }

  ghost predicate TraderOk(tables: Tables, trader: TraderId, phase: Phase)
  {
    ProtocolFits(tables, trader, phase) && RowsOk(tables, trader, phase)
  }

  /** Foreign keys. */
  predicate ReferencesOk(tables: Tables)
  {
    && (forall k :: 0 <= k < |tables.trades| ==> tables.trades[k].positionId < |tables.positions|)
    && tables.tradeParams.Keys <= tables.protocols.Keys
  }

  ghost predicate WorldOk(world: World)
  {
    && ReferencesOk(world.tables)
    && world.AwaitedApart()
    && (forall trader :: TraderOk(world.tables, trader, world.PhaseOf(trader)))
  }

  // ---------------------------------------------------------------- other traders

  /** No position of anyone but `trader` changes, is added or gets a trade. */
  ghost predicate LeavesRows(tables: Tables, after: Tables, trader: TraderId)
  {
    && |tables.positions| <= |after.positions|
    && (forall i :: 0 <= i < |tables.positions| ==>
          && after.positions[i].trader == tables.positions[i].trader
          && (tables.positions[i].trader != trader ==>
                && after.positions[i] == tables.positions[i]
                && Recorded(after.trades, i) == Recorded(tables.trades, i)))
    && (forall i :: |tables.positions| <= i < |after.positions| ==> after.positions[i].trader == trader)
  }

  /** The only new protocols are those in `created`, and no protocol changes its kind or its parameters. */
  ghost predicate LeavesProtocols(tables: Tables, after: Tables, created: set<ProtocolId>)
  {
    && (forall id :: id in tables.protocols ==>
          id in after.protocols && after.protocols[id].protocolType == tables.protocols[id].protocolType)
    && (forall id :: id in after.protocols ==> id in tables.protocols || id in created)
    && (forall id :: id in tables.tradeParams ==>
          id in after.tradeParams && after.tradeParams[id] == tables.tradeParams[id])
    && (forall id :: id in after.tradeParams ==> id in tables.tradeParams || id in created)
    && (forall id :: id in tables.rolloverParams ==>
          id in after.rolloverParams
          && (id !in created ==> after.rolloverParams[id] == tables.rolloverParams[id]))
  }

  ghost predicate Leaves(tables: Tables, after: Tables, trader: TraderId, created: set<ProtocolId>)
  {
    LeavesRows(tables, after, trader) && LeavesProtocols(tables, after, created)
  }

  /** New protocols and changes of their states do not matter to a row. */
  lemma AddsUpStays(
    tables: Tables, after: Tables, created: set<ProtocolId>, phase: Phase, row: PositionRow, recorded: Tally
  )
    requires LeavesProtocols(tables, after, created) && AddsUp(tables, phase, row, recorded)
    requires phase.IsPending() ==> phase.protocol !in created
    ensures AddsUp(after, phase, row, recorded)
  {
    if row.state.Resizing? && !phase.IsPending() {
      var id :| MissesTrade(tables, row, recorded, id);
      assert MissesTrade(after, row, recorded, id);
    }
  }

  lemma OthersStayOk(
    tables: Tables, after: Tables, trader: TraderId, created: set<ProtocolId>, other: TraderId, phase: Phase
  )
    requires Leaves(tables, after, trader, created) && other != trader
    requires TraderOk(tables, other, phase)
    requires phase.IsPending() ==> phase.protocol !in created
    ensures TraderOk(after, other, phase)
  {
    assert forall i :: 0 <= i < |after.positions| && after.positions[i].trader == other ==> i < |tables.positions|;
    forall i | 0 <= i < |after.positions| && after.positions[i].trader == other
      ensures RowAddsUp(after, phase, i)
    {
      assert RowAddsUp(tables, phase, i);
      AddsUpStays(tables, after, created, phase, tables.positions[i], Recorded(tables.trades, i));
    }
  }
}
