/** Runs of DLC protocols: what the coordinator proposes and writes for a trade or a rollover, what the trader's
    last message or rejection does, and where the coordinator may stop in between. */
module ProtocolRuns {
  import opened Wrappers
  import opened Cfd
  import opened Positions
  import opened Schema
  import C = Channel
  import T = Trade

  /** The trader's DLC channel. A cancelled or closed channel is no channel. */
  datatype Phase =
    | NoChannel
    | Offered(protocol: ProtocolId)
    | Established
    | Settled
    | SettleOffered(protocol: ProtocolId)
    | RenewOffered(protocol: ProtocolId, reopening: bool)
  {
    predicate IsPending()
    {
      Offered? || SettleOffered? || RenewOffered?
    }

    predicate Awaits(id: ProtocolId)
    {
      IsPending() && protocol == id
    }

    /** After the trader's last message. */
    function Accepted(): Phase
    {
      if !IsPending() then this else if SettleOffered? then Settled else Established
    }

    /** After the trader's rejection. */
    function Refused(): Phase
    {
      match this
      case Offered(_) => NoChannel
      case SettleOffered(_) => Established
      case RenewOffered(_, reopening) => if reopening then Settled else Established
      case _ => this
    }
  }

  /** What the DLC library chooses for a proposal. */
  datatype Proposal = Proposal(
    id: ProtocolId, previous: Option<ProtocolId>, contract: ContractId, channel: ChannelId, now: int
  )

  /** How far the coordinator gets after the offer is made: the offer, the protocol and the position are written
      one after the other and not in one transaction. */
  datatype Stop = AfterOffer | AfterStart | Completed

  // ---------------------------------------------------------------- proposing

  function RecordOf(trader: TraderId, trade: T.TradeParams, pnl: Option<int>): TradeRecord
  {
    TradeRecord(trader, trade.quantity, trade.leverage, trade.price, trade.direction, trade.matchingFee, pnl)
  }

  function NewRow(trader: TraderId, trade: T.TradeParams, proposal: Proposal): PositionRow
  {
    PositionRow(trader, Proposed, trade.NewPosition(), proposal.now, proposal.contract, None, None)
  }

  function ProtocolOf(trader: TraderId, proposal: Proposal, kind: ProtocolType): ProtocolRow
  {
    ProtocolRow(if kind.OpenChannel? then None else proposal.previous, proposal.channel, Some(proposal.contract),
                Pending, trader, kind)
  }

  function WriteProposal(tables: Tables, started: Option<Tables>, rows: seq<PositionRow>, stop: Stop): Tables
  {
    if stop.AfterOffer? || started.None? then tables
    else if stop.AfterStart? then started.value
    else started.value.(positions := rows)
  }

  function ProposeOpen(
    tables: Tables, trader: TraderId, trade: T.TradeParams, kind: ProtocolType, proposal: Proposal, stop: Stop
  ): Tables
  {
    WriteProposal(
      tables,
      StartTradeProtocol(tables, proposal.id, ProtocolOf(trader, proposal, kind), RecordOf(trader, trade, None), []),
      tables.positions + [NewRow(trader, trade, proposal)],
      stop)
  }

  function EventsDue(tables: Tables, i: nat): (ids: seq<nat>)
    requires i < |tables.positions|
    ensures CanLink(tables, ids)
  {
    var ids := OutstandingEvents(tables.fundingFeeEvents, tables.positions[i].trader, i);
    assert forall k :: 0 <= k < |ids| ==> ids[k] in ids;
    ids
  }

  function FeeDue(tables: Tables, i: nat): FundingFee
    requires i < |tables.positions|
  {
    C.NetFundingFee(AmountsOf(tables.fundingFeeEvents, EventsDue(tables, i)))
  }

  function ProposeSettle(tables: Tables, i: nat, trade: T.TradeParams, proposal: Proposal, stop: Stop): Tables
    requires i < |tables.positions|
  {
    var trader := tables.positions[i].trader;
    WriteProposal(
      tables,
      StartTradeProtocol(tables, proposal.id, ProtocolOf(trader, proposal, Settle), RecordOf(trader, trade, None),
                         EventsDue(tables, i)),
      SetClosing(tables.positions, trader, Some(trade.price)),
      stop)
  }

  function ProposeResize(
    tables: Tables, i: nat, trade: T.TradeParams, resized: T.ResizedPosition, proposal: Proposal, stop: Stop
  ): Tables
    requires i < |tables.positions|
  {
    var trader := tables.positions[i].trader;
    WriteProposal(
      tables,
      StartTradeProtocol(tables, proposal.id, ProtocolOf(trader, proposal, ResizePosition),
                         RecordOf(trader, trade, resized.realizedPnl), EventsDue(tables, i)),
      SetResizing(tables.positions, trader, proposal.contract, resized, trade.matchingFee),
      stop)
  }

  function ActionFor(tables: Tables, i: nat, trade: T.TradeParams): T.TradeAction
    requires i < |tables.positions|
  {
    T.DetermineTradeAction(tables.positions[i].position.SignedContracts(), trade.SignedContracts(), trade.price)
  }

  /** `apply_resize_to_position`, after the outstanding funding fee. */
  function ResizeFor(tables: Tables, i: nat, trade: T.TradeParams, coordinatorFunds: nat, traderFunds: nat):
    Result<T.ResizedPosition, T.TradeError>
    requires i < |tables.positions| && ActionFor(tables, i, trade).ResizePosition?
  {
    var fee := FeeDue(tables, i);
    var funded := ApplyFundingFee(tables.positions[i].position, fee);
    var (coordinator, trader) := C.ApplyFundingFeeToChannel(coordinatorFunds, traderFunds, fee);
    T.DeterminedActionsApply(funded, trade);
    T.ApplyResize(ActionFor(tables, i, trade).action, funded, coordinator, trader, trade.matchingFee)
  }

  /** A matched order. The funds are the two reserves of an established channel or the two payouts of a settled
      one. */
  function ProposeTrade(
    tables: Tables, phase: Phase, trader: TraderId, trade: T.TradeParams, proposal: Proposal,
    coordinatorFunds: nat, traderFunds: nat, stop: Stop
  ): (Tables, Phase)
  {
    match phase
    case NoChannel =>
      (ProposeOpen(tables, trader, trade, OpenChannel, proposal, stop), Offered(proposal.id))
    case Settled =>
      var channel := C.Channel(coordinatorFunds + traderFunds, C.Settled(coordinatorFunds, traderFunds));
      if C.OpenPositionIn(channel, trade).Err? then (tables, phase)
      else (ProposeOpen(tables, trader, trade, OpenPosition, proposal, stop), RenewOffered(proposal.id, true))
    case Established =>
      (match LatestRow(tables.positions, trader, {Open})
       case None => (tables, phase)
       case Some(i) =>
         if ActionFor(tables, i, trade).ClosePosition? then
           (ProposeSettle(tables, i, trade, proposal, stop), SettleOffered(proposal.id))
         else
           match ResizeFor(tables, i, trade, coordinatorFunds, traderFunds)
           case Err(_) => (tables, phase)
           case Ok(resized) =>
             (ProposeResize(tables, i, trade, resized, proposal, stop), RenewOffered(proposal.id, false)))
    case _ => (tables, phase)
  }

  function RolloverParamsFor(tables: Tables, i: nat): RolloverParams
    requires i < |tables.positions|
  {
    var funded := ApplyFundingFee(tables.positions[i].position, FeeDue(tables, i));
    RolloverParams(tables.positions[i].trader, funded.coordinatorMargin, funded.traderMargin,
                   funded.coordinatorLeverage, funded.traderLeverage)
  }

  function ProposeRollover(tables: Tables, phase: Phase, trader: TraderId, proposal: Proposal, stop: Stop):
    (Tables, Phase)
  {
    match LatestRow(tables.positions, trader, {Open, Rollover})
    case None => (tables, phase)
    case Some(i) =>
      if !phase.Established? then (tables, phase)
      else
        (WriteProposal(
           tables,
           StartRollover(tables, proposal.id, ProtocolOf(trader, proposal, RolloverProtocol),
                         RolloverParamsFor(tables, i), EventsDue(tables, i)),
           SetState(tables.positions, trader, {Open}, Rollover),
           stop),
         RenewOffered(proposal.id, false))
  }

  // ---------------------------------------------------------------- answers

  function FailOrKeep(tables: Tables, id: ProtocolId): Tables
  {
    match FailProtocol(tables, id)
    case None => tables
    case Some(failed) => failed
  }

  /** The trader's last message: finishing the protocol, or setting it to failed when that is an error. */
  function FinalizeTables(
    tables: Tables, phase: Phase, trader: TraderId, contract: Option<ContractId>, channel: ChannelId
  ): Tables
    requires phase.IsPending()
  {
    match FinishDlcProtocol(tables, phase.protocol, trader, contract, channel)
    case Some(finished) => finished
    case None => FailOrKeep(tables, phase.protocol)
  }

  /** The rows after a rejection; a rejected resize matches none of the states. */
  function RefusedRows(rows: seq<PositionRow>, phase: Phase, trader: TraderId): seq<PositionRow>
  {
    if phase.Refused().Established? then SetState(rows, trader, {Closing, Rollover}, Open)
    else SetState(rows, trader, {Proposed}, Failed)
  }

  /** A rejection fails the protocol and then moves the position, in two separate statements. */
  function RejectTables(tables: Tables, phase: Phase, trader: TraderId, crash: bool): Tables
    requires phase.IsPending()
  {
    match FailProtocol(tables, phase.protocol)
    case None => tables
    case Some(failed) =>
      if crash then failed else failed.(positions := RefusedRows(failed.positions, phase, trader))
  }

  // ---------------------------------------------------------------- runs

  datatype World = World(tables: Tables, phases: map<TraderId, Phase>) {
    function PhaseOf(trader: TraderId): Phase
    {
      if trader in phases then phases[trader] else NoChannel
    }

    /** No two traders wait for the same protocol. */
    predicate AwaitedApart()
    {
      forall a, b :: a in phases && b in phases && a != b && phases[a].IsPending()
                     ==> !phases[b].Awaits(phases[a].protocol)
    }

    /** Protocol ids are random and never repeat. */
    predicate IsFresh(id: ProtocolId)
    {
      id !in tables.protocols && forall trader :: trader in phases ==> !phases[trader].Awaits(id)
    }
  }

  datatype Step =
    | TradeMatched(trader: TraderId, trade: T.TradeParams, proposal: Proposal, coordinatorFunds: nat,
                   traderFunds: nat, stop: Stop)
    | RolloverDue(trader: TraderId, proposal: Proposal, stop: Stop)
    | Finalized(trader: TraderId, contract: Option<ContractId>, channel: ChannelId, crash: bool)
    | Rejected(trader: TraderId, crash: bool)
    | CloseStarted(trader: TraderId, proposal: Proposal)
    | ChannelClosed(trader: TraderId, protocol: ProtocolId, channel: ChannelId)
    | FundingFeeDue(trader: TraderId, event: FundingFeeEvent)
    | MessageFailed(trader: TraderId, protocol: ProtocolId)
  {
    predicate IsProposal()
    {
      TradeMatched? || RolloverDue? || CloseStarted?
    }
  }

  /** The end of a collaboratively closed channel finishes the protocol that closed it. */
  function FinishClose(tables: Tables, id: ProtocolId, channel: ChannelId): Tables
  {
    if id in tables.protocols && tables.protocols[id].protocolType.Close? then SetSuccess(tables, id, None, channel)
    else tables
  }

  /** What a step does to the tables and to the channel of its trader. An error of a received message fails the
      protocol that the message names, whichever that is and whatever state it is in. */
  function NextForTrader(tables: Tables, phase: Phase, step: Step): (Tables, Phase)
  {
    match step
    case TradeMatched(trader, trade, proposal, coordinatorFunds, traderFunds, stop) =>
      ProposeTrade(tables, phase, trader, trade, proposal, coordinatorFunds, traderFunds, stop)
    case RolloverDue(trader, proposal, stop) =>
      ProposeRollover(tables, phase, trader, proposal, stop)
    case Finalized(trader, contract, channel, crash) =>
      if !phase.IsPending() then (tables, phase)
      else (if crash then tables else FinalizeTables(tables, phase, trader, contract, channel), phase.Accepted())
    case Rejected(trader, crash) =>
      if !phase.IsPending() then (tables, phase)
      else (RejectTables(tables, phase, trader, crash), phase.Refused())
    case CloseStarted(trader, proposal) =>
      (if CanCreate(tables, proposal.id, proposal.previous)
       then Create(tables, proposal.id, ProtocolOf(trader, proposal, Close).(contract := None))
       else tables,
       phase)
    case ChannelClosed(trader, protocol, channel) =>
      if !phase.Settled? then (tables, phase) else (FinishClose(tables, protocol, channel), NoChannel)
    case FundingFeeDue(_, event) =>
      (tables.(fundingFeeEvents := tables.fundingFeeEvents + [event]), phase)
    case MessageFailed(_, protocol) => (FailOrKeep(tables, protocol), phase)
  }

  function Next(world: World, step: Step): World
  {
    if step.IsProposal() && !world.IsFresh(step.proposal.id) then world
    else
      var (tables, phase) := NextForTrader(world.tables, world.PhaseOf(step.trader), step);
      World(tables, world.phases[step.trader := phase])
  }

  function Run(world: World, steps: seq<Step>): World
    decreases |steps|
  {
    if |steps| == 0 then world else Run(Next(world, steps[0]), steps[1..])
  }
}
