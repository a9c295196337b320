/** Safety over all runs of all traders, and the three places where a stop of the coordinator breaks it. */
module ProtocolSafety {
  import opened Wrappers
  import opened Cfd
  import opened Positions
  import opened Schema
  import opened ProtocolRuns
  import opened ProtocolInvariant
  import opened ProtocolSteps
  import C = Channel
  import T = Trade

  // ---------------------------------------------------------------- one step of one trader

  lemma ResizeAddsTrade(tables: Tables, i: nat, trade: T.TradeParams, coordinatorFunds: nat, traderFunds: nat)
    requires i < |tables.positions| && ActionFor(tables, i, trade).ResizePosition?
    requires ResizeFor(tables, i, trade, coordinatorFunds, traderFunds).Ok?
    ensures var resized := ResizeFor(tables, i, trade, coordinatorFunds, traderFunds).value;
            tables.positions[i].position.SignedContracts() + trade.SignedContracts()
            == RelativeContracts(resized.contracts, resized.coordinatorDirection.Opposite())
  {
    var position := tables.positions[i].position;
    var fee := FeeDue(tables, i);
    var funded := ApplyFundingFee(position, fee);
    var (coordinator, trader) := C.ApplyFundingFeeToChannel(coordinatorFunds, traderFunds, fee);
    T.DeterminedActionsApply(funded, trade);
    T.TradeActionAddsContracts(position.contracts, position.traderDirection, trade.SignedContracts(), trade.price);
    T.ResizedContracts(ActionFor(tables, i, trade).action, funded, coordinator, trader, trade.matchingFee);
  }

  /** A new channel or a new position in a settled one. */
  lemma ProposeOpenKeeps(
    tables: Tables, phase: Phase, pending: Phase, trader: TraderId, trade: T.TradeParams, kind: ProtocolType,
    proposal: Proposal, stop: Stop
  )
    requires ReferencesOk(tables) && TraderOk(tables, trader, phase) && proposal.id !in tables.protocols
    requires || (phase.NoChannel? && pending == Offered(proposal.id) && kind.OpenChannel?)
             || (phase.Settled? && pending == RenewOffered(proposal.id, true) && kind.OpenPosition?)
    ensures Keeps(tables, ProposeOpen(tables, trader, trade, kind, proposal, stop), trader, pending, {proposal.id})
  {
    var row := NewRow(trader, trade, proposal);
    var protocol := ProtocolOf(trader, proposal, kind);
    WritesProposal(tables, proposal.id, protocol, RecordOf(trader, trade, None), [], tables.positions + [row], stop);
    OpenKeeps(tables, ProposeOpen(tables, trader, trade, kind, proposal, stop), phase, pending, trader, protocol,
              RecordOf(trader, trade, None), row);
  }

  lemma ProposeSettleKeeps(tables: Tables, i: nat, trade: T.TradeParams, proposal: Proposal)
    requires i < |tables.positions| && tables.positions[i].state.Open?
    requires ReferencesOk(tables) && TraderOk(tables, tables.positions[i].trader, Established)
    requires CanCreate(tables, proposal.id, proposal.previous) && ActionFor(tables, i, trade).ClosePosition?
    ensures Keeps(tables, ProposeSettle(tables, i, trade, proposal, Completed), tables.positions[i].trader,
                  SettleOffered(proposal.id), {proposal.id})
  {
    var trader := tables.positions[i].trader;
    var protocol := ProtocolOf(trader, proposal, Settle);
    var record := RecordOf(trader, trade, None);
    WritesProposal(tables, proposal.id, protocol, record, EventsDue(tables, i),
                   SetClosing(tables.positions, trader, Some(trade.price)), Completed);
    SettleKeeps(tables, ProposeSettle(tables, i, trade, proposal, Completed), proposal.id, trader, protocol, record,
                Some(trade.price), i);
  }

  lemma ProposeResizeKeeps(
    tables: Tables, i: nat, trade: T.TradeParams, coordinatorFunds: nat, traderFunds: nat,
    proposal: Proposal, stop: Stop
  )
    requires i < |tables.positions| && tables.positions[i].state.Open?
    requires ReferencesOk(tables) && TraderOk(tables, tables.positions[i].trader, Established)
    requires proposal.id !in tables.protocols && ActionFor(tables, i, trade).ResizePosition?
    requires ResizeFor(tables, i, trade, coordinatorFunds, traderFunds).Ok?
    ensures var resized := ResizeFor(tables, i, trade, coordinatorFunds, traderFunds).value;
            Keeps(tables, ProposeResize(tables, i, trade, resized, proposal, stop), tables.positions[i].trader,
                  RenewOffered(proposal.id, false), {proposal.id})
  {
    var trader := tables.positions[i].trader;
    var resized := ResizeFor(tables, i, trade, coordinatorFunds, traderFunds).value;
    var protocol := ProtocolOf(trader, proposal, ResizePosition);
    var record := RecordOf(trader, trade, resized.realizedPnl);
    WritesProposal(tables, proposal.id, protocol, record, EventsDue(tables, i),
                   SetResizing(tables.positions, trader, proposal.contract, resized, trade.matchingFee), stop);
    ResizeAddsTrade(tables, i, trade, coordinatorFunds, traderFunds);
    ResizeKeeps(tables, ProposeResize(tables, i, trade, resized, proposal, stop), proposal.id, trader, protocol, record,
                proposal.contract, resized, i);
  }

  lemma ProposeRolloverKeeps(tables: Tables, phase: Phase, trader: TraderId, proposal: Proposal, stop: Stop)
    requires ReferencesOk(tables) && TraderOk(tables, trader, phase) && proposal.id !in tables.protocols
    ensures var (after, next) := ProposeRollover(tables, phase, trader, proposal, stop);
            Keeps(tables, after, trader, next, {proposal.id})
  {
    var latest := LatestRow(tables.positions, trader, {Open, Rollover});
    if latest.Some? && phase.Established? {
      var i := latest.value;
      var protocol := ProtocolOf(trader, proposal, RolloverProtocol);
      var params := RolloverParamsFor(tables, i);
      if StartRollover(tables, proposal.id, protocol, params, EventsDue(tables, i)).Some? {
        StartedRollover(tables, proposal.id, protocol, params, EventsDue(tables, i));
      }
      var (after, next) := ProposeRollover(tables, phase, trader, proposal, stop);
      RolloverKeeps(tables, after, proposal.id, trader, protocol, params, i);
    }
  }

  predicate HasActiveRow(tables: Tables, trader: TraderId)
  {
    LatestRow(tables.positions, trader, ACTIVE).Some?
  }

  /** The stops that the invariant survives. Closing a position must be written completely once it is offered, and
      recorded once it is settled; the rejection of an opening must reach the position. Where there is no position to
      reach, a stop does no harm. */
  predicate Tolerated(tables: Tables, phase: Phase, step: Step)
  {
    match step
    case TradeMatched(trader, trade, proposal, _, _, stop) =>
      var latest := LatestRow(tables.positions, trader, {Open});
      phase.Established? && latest.Some? && ActionFor(tables, latest.value, trade).ClosePosition?
      ==> stop.Completed? && CanCreate(tables, proposal.id, proposal.previous)
    case Finalized(trader, _, _, crash) => crash && phase.SettleOffered? ==> !HasActiveRow(tables, trader)
    case Rejected(trader, crash) =>
      crash && phase.IsPending() && !phase.Refused().Established? ==> !HasActiveRow(tables, trader)
    case _ => true
  }

  lemma ProposeTradeKeeps(tables: Tables, phase: Phase, step: Step)
    requires step.TradeMatched? && Tolerated(tables, phase, step)
    requires ReferencesOk(tables) && TraderOk(tables, step.trader, phase) && step.proposal.id !in tables.protocols
    ensures var (after, next) := NextForTrader(tables, phase, step);
            Keeps(tables, after, step.trader, next, {step.proposal.id})
  {
    var TradeMatched(trader, trade, proposal, coordinatorFunds, traderFunds, stop) := step;
    match phase
    case NoChannel =>
      ProposeOpenKeeps(tables, phase, Offered(proposal.id), trader, trade, OpenChannel, proposal, stop);
    case Settled =>
      ProposeOpenKeeps(tables, phase, RenewOffered(proposal.id, true), trader, trade, OpenPosition, proposal, stop);
    case Established =>
      var latest := LatestRow(tables.positions, trader, {Open});
      if latest.Some? {
        var i := latest.value;
        if ActionFor(tables, i, trade).ClosePosition? {
          ProposeSettleKeeps(tables, i, trade, proposal);
        } else if ResizeFor(tables, i, trade, coordinatorFunds, traderFunds).Ok? {
          ProposeResizeKeeps(tables, i, trade, coordinatorFunds, traderFunds, proposal, stop);
        }
      }
    case _ =>
  }

  function NewProtocols(step: Step): set<ProtocolId>
  {
    if step.IsProposal() then {step.proposal.id} else {}
  }

  /** A proposal has a new id: neither written nor the one that the trader's channel waits for. */
  predicate IsNew(tables: Tables, phase: Phase, step: Step)
  {
    step.IsProposal() ==> step.proposal.id !in tables.protocols && !phase.Awaits(step.proposal.id)
  }

  lemma StepKeepsTrader(tables: Tables, phase: Phase, step: Step)
    requires Tolerated(tables, phase, step)
    requires ReferencesOk(tables) && TraderOk(tables, step.trader, phase)
    requires IsNew(tables, phase, step)
    ensures var (after, next) := NextForTrader(tables, phase, step);
            Keeps(tables, after, step.trader, next, NewProtocols(step))
  {
    match step
    case TradeMatched(_, _, _, _, _, _) =>
      assert step.proposal.id in NewProtocols(step);
      ProposeTradeKeeps(tables, phase, step);
    case RolloverDue(trader, proposal, stop) =>
      assert proposal.id in NewProtocols(step);
      ProposeRolloverKeeps(tables, phase, trader, proposal, stop);
    case Finalized(_, _, _, _) => AnswerKeeps(tables, phase, step);
    case Rejected(_, _) => AnswerKeeps(tables, phase, step);
    case CloseStarted(_, _) => CloseKeeps(tables, phase, step);
    case ChannelClosed(_, _, _) => CloseKeeps(tables, phase, step);
    case FundingFeeDue(trader, event) => FundingEventKeeps(tables, trader, phase, event);
    case MessageFailed(trader, protocol) =>
      ProtocolChangeKeeps(tables, FailOrKeep(tables, protocol), trader, phase, {});
  }

  lemma AnswerKeeps(tables: Tables, phase: Phase, step: Step)
    requires (step.Finalized? || step.Rejected?) && Tolerated(tables, phase, step)
    requires ReferencesOk(tables) && TraderOk(tables, step.trader, phase)
    ensures var (after, next) := NextForTrader(tables, phase, step);
            Keeps(tables, after, step.trader, next, {})
  {
    if phase.IsPending() {
      match step
      case Finalized(trader, contract, channel, crash) =>
        if crash { AcceptedUnrecorded(tables, tables, trader, phase); }
        else { FinalizeKeeps(tables, trader, phase, contract, channel); }
      case Rejected(trader, crash) => RejectKeeps(tables, trader, phase, crash);
    }
  }

  lemma CloseKeeps(tables: Tables, phase: Phase, step: Step)
    requires (step.CloseStarted? || step.ChannelClosed?) && IsNew(tables, phase, step)
    requires ReferencesOk(tables) && TraderOk(tables, step.trader, phase)
    ensures var (after, next) := NextForTrader(tables, phase, step);
            Keeps(tables, after, step.trader, next, NewProtocols(step))
  {
    var (after, next) := NextForTrader(tables, phase, step);
    if step.CloseStarted? {
      assert step.proposal.id in NewProtocols(step);
      assert after == tables.(protocols := after.protocols) && LeavesProtocols(tables, after, NewProtocols(step));
      ProtocolChangeKeeps(tables, after, step.trader, phase, NewProtocols(step));
    } else if phase.Settled? {
      NoActiveRowKeeps(tables, after, step.trader, phase, NoChannel);
    }
  }

  /** New protocols, and changes of the states of existing ones, keep the invariant. */
  lemma ProtocolChangeKeeps(
    tables: Tables, after: Tables, trader: TraderId, phase: Phase, created: set<ProtocolId>
  )
    requires ReferencesOk(tables) && TraderOk(tables, trader, phase)
    requires after == tables.(protocols := after.protocols) && LeavesProtocols(tables, after, created)
    requires phase.IsPending() ==> phase.protocol !in created
    ensures Keeps(tables, after, trader, phase, created)
  {
    forall i | 0 <= i < |after.positions| && after.positions[i].trader == trader
      ensures RowAddsUp(after, phase, i)
    {
      assert RowAddsUp(tables, phase, i);
      AddsUpStays(tables, after, created, phase, tables.positions[i], Recorded(tables.trades, i));
    }
  }

  lemma FundingEventKeeps(tables: Tables, trader: TraderId, phase: Phase, event: FundingFeeEvent)
    requires ReferencesOk(tables) && TraderOk(tables, trader, phase)
    ensures Keeps(tables, tables.(fundingFeeEvents := tables.fundingFeeEvents + [event]), trader, phase, {})
  {
    var after := tables.(fundingFeeEvents := tables.fundingFeeEvents + [event]);
    assert LeavesProtocols(tables, after, {});
    forall i | 0 <= i < |after.positions| && after.positions[i].trader == trader
      ensures RowAddsUp(after, phase, i)
    {
      assert RowAddsUp(tables, phase, i);
      AddsUpStays(tables, after, {}, phase, tables.positions[i], Recorded(tables.trades, i));
    }
  }

  // ---------------------------------------------------------------- all traders, all runs

  const EMPTY: World := World(Tables([], map[], map[], map[], [], [], map[], 0), map[])

  predicate StepTolerated(world: World, step: Step)
  {
    Tolerated(world.tables, world.PhaseOf(step.trader), step)
  }

  predicate RunTolerated(world: World, steps: seq<Step>)
    decreases |steps|
  {
    |steps| == 0 || (StepTolerated(world, steps[0]) && RunTolerated(Next(world, steps[0]), steps[1..]))
  }

  lemma NextAwaits(tables: Tables, phase: Phase, step: Step)
    ensures var (after, next) := NextForTrader(tables, phase, step);
            next.IsPending() ==> next == phase || (step.IsProposal() && next.protocol == step.proposal.id)
  {
  }

  lemma AwaitedStayApart(world: World, step: Step)
    requires world.AwaitedApart()
    ensures Next(world, step).AwaitedApart()
  {
    NextAwaits(world.tables, world.PhaseOf(step.trader), step);
  }

  lemma StepKeepsWorld(world: World, step: Step)
    requires WorldOk(world) && StepTolerated(world, step)
    ensures WorldOk(Next(world, step))
  {
    AwaitedStayApart(world, step);
    if !step.IsProposal() || world.IsFresh(step.proposal.id) {
      var phase := world.PhaseOf(step.trader);
      var after := Next(world, step);
      assert TraderOk(world.tables, step.trader, phase);
      StepKeepsTrader(world.tables, phase, step);
      forall trader: TraderId ensures TraderOk(after.tables, trader, after.PhaseOf(trader)) {
        if trader != step.trader {
          assert TraderOk(world.tables, trader, world.PhaseOf(trader));
          OthersStayOk(world.tables, after.tables, step.trader, NewProtocols(step), trader, world.PhaseOf(trader));
        }
      }
    }
  }

  lemma {:induction false} RunKeepsWorld(world: World, steps: seq<Step>)
    requires WorldOk(world) && RunTolerated(world, steps)
    ensures WorldOk(Run(world, steps))
    decreases |steps|
  {
    if |steps| > 0 {
      StepKeepsWorld(world, steps[0]);
      RunKeepsWorld(Next(world, steps[0]), steps[1..]);
    }
  }

  /** What the invariant says of a row, without its channel: an open, rolling over or closing position is the sum of
      its recorded trades, a resizing one misses exactly the trade of one of its trader's resizes, one that was
      never agreed on has no trades, and those of a closed one cancel out. */
  ghost predicate IsSumOfTrades(tables: Tables, i: nat)
    requires i < |tables.positions|
  {
    var row := tables.positions[i];
    var recorded := Recorded(tables.trades, i);
    match row.state
    case Open | Rollover | Closing => recorded == PositionTally(row.position)
    case Resizing => exists id :: MissesTrade(tables, row, recorded, id)
    case Proposed | Failed => recorded == NOTHING
    case Closed => recorded.contracts == 0.0
  }

  lemma AddingUpIsSum(tables: Tables, phase: Phase, i: nat)
    requires i < |tables.positions| && RowAddsUp(tables, phase, i)
    ensures IsSumOfTrades(tables, i)
  {
    if tables.positions[i].state.Resizing? && phase.IsPending() {
      assert MissesTrade(tables, tables.positions[i], Recorded(tables.trades, i), phase.protocol);
    }
  }

  /** Whatever the traders and the coordinator do: every position is the sum of its recorded trades, and two active
      positions never belong to the same trader. */
  lemma PositionsAddUp(steps: seq<Step>, i: nat, j: nat)
    requires RunTolerated(EMPTY, steps)
    requires var rows := Run(EMPTY, steps).tables.positions; i < |rows| && j < |rows|
    ensures var tables := Run(EMPTY, steps).tables;
            && IsSumOfTrades(tables, i)
            && ((IsActive(tables.positions[i], tables.positions[j].trader)
                 && IsActive(tables.positions[j], tables.positions[j].trader)) ==> i == j)
  {
    RunKeepsWorld(EMPTY, steps);
    var world := Run(EMPTY, steps);
    var trader := world.tables.positions[i].trader;
    assert TraderOk(world.tables, trader, world.PhaseOf(trader));
    assert RowAddsUp(world.tables, world.PhaseOf(trader), i);
    AddingUpIsSum(world.tables, world.PhaseOf(trader), i);
  }

  // ---------------------------------------------------------------- the stops that are not tolerated

  /** The step, and the trader's last message if it was an offer to settle. */
  function StopAndAnswer(tables: Tables, phase: Phase, step: Step): (Tables, Phase)
  {
    var (after, next) := NextForTrader(tables, phase, step);
    if step.TradeMatched? then NextForTrader(after, next, Finalized(step.trader, None, step.proposal.channel, false))
    else (after, next)
  }

  /** An offer to settle that is not written completely does not reach the positions. */
  lemma UnwrittenOffer(tables: Tables, i: nat, trade: T.TradeParams, proposal: Proposal, stop: Stop)
    requires i < |tables.positions|
    requires !stop.Completed? || !CanCreate(tables, proposal.id, proposal.previous)
    ensures var after := ProposeSettle(tables, i, trade, proposal, stop);
            after.positions == tables.positions && after.protocols.Keys <= tables.protocols.Keys + {proposal.id}
  {
    var trader := tables.positions[i].trader;
    if StartTradeProtocol(tables, proposal.id, ProtocolOf(trader, proposal, Settle), RecordOf(trader, trade, None),
                          EventsDue(tables, i)).Some? {
      StartedTrade(tables, proposal.id, ProtocolOf(trader, proposal, Settle), RecordOf(trader, trade, None),
                   EventsDue(tables, i));
    }
  }

  /** A settlement without a closing position leaves the positions alone. */
  lemma SettledWithoutClosing(tables: Tables, trader: TraderId, id: ProtocolId, channel: ChannelId)
    requires id in tables.protocols ==>
               && tables.protocols[id].protocolType.Settle?
               && (id in tables.tradeParams ==> tables.tradeParams[id].trader == trader)
    requires LatestRow(tables.positions, trader, {Closing}).None?
    ensures var after := FinalizeTables(tables, SettleOffered(id), trader, None, channel);
            after.positions == tables.positions && after.protocols.Keys == tables.protocols.Keys
  {
  }

  /** Neither an offer to settle that is not written completely nor the settlement reaches the positions. */
  lemma UnwrittenSettlement(tables: Tables, step: Step)
    requires TraderOk(tables, step.trader, Established) && ReferencesOk(tables)
    requires step.TradeMatched? && !Tolerated(tables, Established, step) && step.proposal.id !in tables.protocols
    ensures var (after, next) := StopAndAnswer(tables, Established, step);
            next.Settled? && after.positions == tables.positions
            && after.protocols.Keys <= tables.protocols.Keys + {step.proposal.id}
    ensures var (offered, next) := NextForTrader(tables, Established, step);
            next.SettleOffered? && offered.positions == tables.positions
    ensures HasActiveRow(tables, step.trader)
            && tables.positions[LatestRow(tables.positions, step.trader, ACTIVE).value].state.Open?
  {
    var open := LatestRow(tables.positions, step.trader, {Open}).value;
    var (trader, trade, proposal) := (step.trader, step.trade, step.proposal);
    assert IsActive(tables.positions[open], trader);
    var written := ProposeSettle(tables, open, trade, proposal, step.stop);
    UnwrittenOffer(tables, open, trade, proposal, step.stop);
    WritesProposal(tables, proposal.id, ProtocolOf(trader, proposal, Settle), RecordOf(trader, trade, None),
                   EventsDue(tables, open), SetClosing(tables.positions, trader, Some(trade.price)), step.stop);
    assert LatestRow(tables.positions, trader, {Closing}).None?;
    SettledWithoutClosing(written, trader, proposal.id, proposal.channel);
    assert NextForTrader(tables, Established, step) == (written, SettleOffered(proposal.id));
  }

  /** After a stop that is not tolerated and the trader's answer, the channel is free again while the trader's
      position is still active. */
  lemma UntoleratedStopLeavesPosition(tables: Tables, phase: Phase, step: Step)
    requires TraderOk(tables, step.trader, phase) && ReferencesOk(tables)
    requires !Tolerated(tables, phase, step) && IsNew(tables, phase, step)
    ensures HasActiveRow(tables, step.trader)
    ensures var (after, next) := StopAndAnswer(tables, phase, step);
            && (next.NoChannel? || next.Settled?)
            && after.positions == tables.positions
            && after.protocols.Keys <= tables.protocols.Keys + NewProtocols(step)
  {
    if step.TradeMatched? {
      assert step.proposal.id in NewProtocols(step);
      UnwrittenSettlement(tables, step);
    }
  }

  /** The tolerated stops are exactly those that keep the trader's invariant. */
  lemma ToleratedIffKept(tables: Tables, phase: Phase, step: Step)
    requires TraderOk(tables, step.trader, phase) && ReferencesOk(tables)
    requires IsNew(tables, phase, step)
    ensures var (after, next) := NextForTrader(tables, phase, step);
            TraderOk(after, step.trader, next) <==> Tolerated(tables, phase, step)
  {
    if Tolerated(tables, phase, step) {
      StepKeepsTrader(tables, phase, step);
    } else {
      UntoleratedStepBreaks(tables, phase, step);
    }
  }

  lemma UntoleratedStepBreaks(tables: Tables, phase: Phase, step: Step)
    requires TraderOk(tables, step.trader, phase) && ReferencesOk(tables)
    requires !Tolerated(tables, phase, step) && IsNew(tables, phase, step)
    ensures var (after, next) := NextForTrader(tables, phase, step);
            !RowsOk(after, step.trader, next)
  {
    var (after, next) := NextForTrader(tables, phase, step);
    UntoleratedStopLeavesPosition(tables, phase, step);
    if step.TradeMatched? {
      assert step.proposal.id in NewProtocols(step);
      UnwrittenSettlement(tables, step);
    }
    var i := LatestRow(tables.positions, step.trader, ACTIVE).value;
    assert after.positions == tables.positions;
    assert IsActive(after.positions[i], step.trader) && !StateFits(after.positions[i].state, next);
  }

  /** And the others do real harm: the trader's next trade goes through and opens a second active position. */
  lemma UntoleratedStopBreaksSafety(
    tables: Tables, phase: Phase, step: Step, trade: T.TradeParams, proposal: Proposal,
    coordinatorFunds: nat, traderFunds: nat
  )
    requires TraderOk(tables, step.trader, phase) && ReferencesOk(tables)
    requires !Tolerated(tables, phase, step) && IsNew(tables, phase, step)
    requires proposal.id !in tables.protocols && proposal.id !in NewProtocols(step) && proposal.previous.None?
    requires C.OpenPositionIn(
               C.Channel(coordinatorFunds + traderFunds, C.Settled(coordinatorFunds, traderFunds)), trade).Ok?
    ensures var (stopped, free) := StopAndAnswer(tables, phase, step);
            var (after, _) := NextForTrader(stopped, free,
              TradeMatched(step.trader, trade, proposal, coordinatorFunds, traderFunds, Completed));
            && |after.positions| == |tables.positions| + 1
            && HasActiveRow(tables, step.trader)
            && IsActive(after.positions[LatestRow(tables.positions, step.trader, ACTIVE).value], step.trader)
            && IsActive(after.positions[|tables.positions|], step.trader)
  {
    UntoleratedStopLeavesPosition(tables, phase, step);
    var (stopped, free) := StopAndAnswer(tables, phase, step);
    NextTradeAddsRow(stopped, free, step.trader, trade, proposal, coordinatorFunds, traderFunds);
  }

  /** A trade in a free channel that is completely written adds an active position. */
  lemma NextTradeAddsRow(
    tables: Tables, phase: Phase, trader: TraderId, trade: T.TradeParams, proposal: Proposal,
    coordinatorFunds: nat, traderFunds: nat
  )
    requires phase.NoChannel? || phase.Settled?
    requires proposal.id !in tables.protocols && proposal.previous.None?
    requires C.OpenPositionIn(
               C.Channel(coordinatorFunds + traderFunds, C.Settled(coordinatorFunds, traderFunds)), trade).Ok?
    ensures var (after, _) := NextForTrader(tables, phase,
              TradeMatched(trader, trade, proposal, coordinatorFunds, traderFunds, Completed));
            after.positions == tables.positions + [NewRow(trader, trade, proposal)]
  {
    var kind := if phase.NoChannel? then OpenChannel else OpenPosition;
    WritesProposal(tables, proposal.id, ProtocolOf(trader, proposal, kind), RecordOf(trader, trade, None), [],
                   tables.positions + [NewRow(trader, trade, proposal)], Completed);
  }
}
