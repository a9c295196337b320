/** Over every run, with whatever stops and errors: the recorded trades are exactly those of the protocols that have
    finished. Whether those protocols still are in `Success` is another matter. */
module ProtocolRecords {
  import opened Wrappers
  import opened Schema
  import opened ProtocolRuns
  import opened Finishing
  import opened ProtocolInvariant
  import ProtocolSafety

  predicate SucceededTrade(row: ProtocolRow)
  {
    row.state == Success && CarriesTrade(row.protocolType)
  }

  /** Trade row `row` is the trade that protocol `id` was started with. Only the profit is filled in when it is
      recorded. */
  predicate OwnsTrade(tables: Tables, id: ProtocolId, row: TradeRow)
  {
    && id in tables.protocols && CarriesTrade(tables.protocols[id].protocolType)
    && id in tables.tradeParams
    && row.trade.(traderPnl := None) == tables.tradeParams[id].(traderPnl := None)
  }

  /** `owners` pairs the rows of `trades` one to one with protocols, among them all that are in `Success`. */
  ghost predicate OwnTrades(tables: Tables, owners: seq<ProtocolId>)
  {
    && |owners| == |tables.trades|
    && (forall k :: 0 <= k < |owners| ==> OwnsTrade(tables, owners[k], tables.trades[k]))
    && (forall j, k :: 0 <= j < k < |owners| ==> owners[j] != owners[k])
    && (forall id :: id in tables.protocols && SucceededTrade(tables.protocols[id]) ==> id in owners)
  }

  /** Moreover no channel waits for a protocol that owns a trade. */
  ghost predicate RecordsOk(world: World, owners: seq<ProtocolId>)
  {
    && OwnTrades(world.tables, owners)
    && world.AwaitedApart()
    && (forall trader, id :: trader in world.phases && id in owners ==> !world.phases[trader].Awaits(id))
  }

  /** Whether the step finishes the awaited protocol. */
  predicate Finishes(tables: Tables, phase: Phase, step: Step)
  {
    && step.Finalized? && phase.IsPending() && !step.crash
    && FinishDlcProtocol(tables, phase.protocol, step.trader, step.contract, step.channel).Some?
  }

  /** The protocols with a trade that have finished, in order. This is history: it does not look at the state that a
      protocol is in. */
  function NextOwners(world: World, step: Step, owners: seq<ProtocolId>): seq<ProtocolId>
  {
    var phase := world.PhaseOf(step.trader);
    if Finishes(world.tables, phase, step) && CarriesTrade(world.tables.protocols[phase.protocol].protocolType) then
      owners + [phase.protocol]
    else owners
  }

  function RunOwners(world: World, steps: seq<Step>, owners: seq<ProtocolId>): seq<ProtocolId>
    decreases |steps|
  {
    if |steps| == 0 then owners else RunOwners(Next(world, steps[0]), steps[1..], NextOwners(world, steps[0], owners))
  }

  // ---------------------------------------------------------------- what steps do to protocols and trades

  /** Existing protocols and trades stay as they are; new protocols are pending. */
  predicate Extends(tables: Tables, after: Tables)
  {
    && after.trades == tables.trades
    && (forall id :: id in tables.protocols ==>
          && id in after.protocols && after.protocols[id] == tables.protocols[id]
          && (id in tables.tradeParams ==> id in after.tradeParams && after.tradeParams[id] == tables.tradeParams[id]))
    && (forall id :: id in after.protocols && id !in tables.protocols ==> after.protocols[id].state == Pending)
  }

  predicate StartsNoClose(tables: Tables, after: Tables)
  {
    forall id :: id in after.protocols && id !in tables.protocols ==> !after.protocols[id].protocolType.Close?
  }

  lemma StartingExtends(
    tables: Tables, id: ProtocolId, row: ProtocolRow, trade: TradeRecord, events: seq<nat>,
    rows: seq<PositionRow>, stop: Stop
  )
    requires !row.protocolType.Close?
    ensures var after := WriteProposal(tables, StartTradeProtocol(tables, id, row, trade, events), rows, stop);
            Extends(tables, after) && StartsNoClose(tables, after)
  {
  }

  lemma StartingRolloverExtends(
    tables: Tables, id: ProtocolId, row: ProtocolRow, params: RolloverParams, events: seq<nat>,
    rows: seq<PositionRow>, stop: Stop
  )
    requires !row.protocolType.Close?
    ensures var after := WriteProposal(tables, StartRollover(tables, id, row, params, events), rows, stop);
            Extends(tables, after) && StartsNoClose(tables, after)
  {
  }

  lemma ProposalExtends(tables: Tables, phase: Phase, step: Step)
    requires step.IsProposal() || step.FundingFeeDue?
    ensures Extends(tables, NextForTrader(tables, phase, step).0)
    ensures step.CloseStarted? || StartsNoClose(tables, NextForTrader(tables, phase, step).0)
  {
    match step
    case TradeMatched(trader, trade, proposal, coordinatorFunds, traderFunds, stop) =>
      TradeExtends(tables, phase, step);
    case RolloverDue(trader, proposal, stop) => RolloverExtends(tables, phase, trader, proposal, stop);
    case _ =>
  }

  lemma RolloverExtends(tables: Tables, phase: Phase, trader: TraderId, proposal: Proposal, stop: Stop)
    ensures var after := ProposeRollover(tables, phase, trader, proposal, stop).0;
            Extends(tables, after) && StartsNoClose(tables, after)
  {
    var latest := LatestRow(tables.positions, trader, {Open, Rollover});
    if latest.Some? {
      StartingRolloverExtends(tables, proposal.id, ProtocolOf(trader, proposal, RolloverProtocol),
                              RolloverParamsFor(tables, latest.value), EventsDue(tables, latest.value),
                              SetState(tables.positions, trader, {Open}, Rollover), stop);
    }
  }

  lemma TradeExtends(tables: Tables, phase: Phase, step: Step)
    requires step.TradeMatched?
    ensures var after := NextForTrader(tables, phase, step).0;
            Extends(tables, after) && StartsNoClose(tables, after)
  {
    var TradeMatched(trader, trade, proposal, coordinatorFunds, traderFunds, stop) := step;
    match phase
    case NoChannel =>
      StartingExtends(tables, proposal.id, ProtocolOf(trader, proposal, OpenChannel), RecordOf(trader, trade, None), [],
                      tables.positions + [NewRow(trader, trade, proposal)], stop);
    case Settled =>
      StartingExtends(tables, proposal.id, ProtocolOf(trader, proposal, OpenPosition), RecordOf(trader, trade, None),
                      [], tables.positions + [NewRow(trader, trade, proposal)], stop);
    case Established =>
      var latest := LatestRow(tables.positions, trader, {Open});
      if latest.Some? {
        var i := latest.value;
        if ActionFor(tables, i, trade).ClosePosition? {
          StartingExtends(tables, proposal.id, ProtocolOf(trader, proposal, Settle), RecordOf(trader, trade, None),
                          EventsDue(tables, i), SetClosing(tables.positions, trader, Some(trade.price)), stop);
        } else if ResizeFor(tables, i, trade, coordinatorFunds, traderFunds).Ok? {
          var resized := ResizeFor(tables, i, trade, coordinatorFunds, traderFunds).value;
          StartingExtends(tables, proposal.id, ProtocolOf(trader, proposal, ResizePosition),
                          RecordOf(trader, trade, resized.realizedPnl), EventsDue(tables, i),
                          SetResizing(tables.positions, trader, proposal.contract, resized, trade.matchingFee), stop);
        }
      }
    case _ =>
  }

  /** Trades stay, no protocol with a trade becomes a success, and no protocol changes its kind or parameters. */
  predicate KeepsTrades(tables: Tables, after: Tables)
  {
    && after.trades == tables.trades
    && (forall id :: id in tables.protocols ==>
          && id in after.protocols && after.protocols[id].protocolType == tables.protocols[id].protocolType
          && (id in tables.tradeParams ==> id in after.tradeParams && after.tradeParams[id] == tables.tradeParams[id]))
    && (forall id :: id in after.protocols && SucceededTrade(after.protocols[id]) ==>
          id in tables.protocols && SucceededTrade(tables.protocols[id]))
  }

  lemma FailKeepsTrades(tables: Tables, id: ProtocolId)
    ensures KeepsTrades(tables, FailOrKeep(tables, id))
  {
  }

  lemma RejectKeepsTrades(tables: Tables, phase: Phase, trader: TraderId, crash: bool)
    requires phase.IsPending()
    ensures KeepsTrades(tables, RejectTables(tables, phase, trader, crash))
  {
    FailKeepsTrades(tables, phase.protocol);
  }

  lemma CloseKeepsTrades(tables: Tables, id: ProtocolId, channel: ChannelId)
    ensures KeepsTrades(tables, FinishClose(tables, id, channel))
  {
  }

  lemma UnfinishedKeepsTrades(tables: Tables, phase: Phase, step: Step)
    requires !Finishes(tables, phase, step)
    ensures KeepsTrades(tables, NextForTrader(tables, phase, step).0)
  {
    match step
    case TradeMatched(_, _, _, _, _, _) => ProposalExtends(tables, phase, step);
    case RolloverDue(_, _, _) => ProposalExtends(tables, phase, step);
    case CloseStarted(_, _) => ProposalExtends(tables, phase, step);
    case FundingFeeDue(_, _) => ProposalExtends(tables, phase, step);
    case Finalized(_, _, _, _) => if phase.IsPending() { FailKeepsTrades(tables, phase.protocol); }
    case Rejected(trader, crash) => if phase.IsPending() { RejectKeepsTrades(tables, phase, trader, crash); }
    case ChannelClosed(_, protocol, channel) => CloseKeepsTrades(tables, protocol, channel);
    case MessageFailed(_, protocol) => FailKeepsTrades(tables, protocol);
  }

  lemma KeepsTradesKeepsOwners(tables: Tables, after: Tables, owners: seq<ProtocolId>)
    requires KeepsTrades(tables, after) && OwnTrades(tables, owners)
    ensures OwnTrades(after, owners)
  {
    forall k | 0 <= k < |owners| ensures OwnsTrade(after, owners[k], after.trades[k]) {
      assert OwnsTrade(tables, owners[k], tables.trades[k]);
    }
  }

  /** A finished protocol with a trade becomes the owner of the trade that it appends. */
  lemma FinishAddsOwner(
    tables: Tables, id: ProtocolId, trader: TraderId, contract: Option<ContractId>, channel: ChannelId,
    owners: seq<ProtocolId>
  )
    requires OwnTrades(tables, owners) && FinishDlcProtocol(tables, id, trader, contract, channel).Some?
    requires id !in owners
    ensures OwnTrades(FinishDlcProtocol(tables, id, trader, contract, channel).value,
                      if CarriesTrade(tables.protocols[id].protocolType) then owners + [id] else owners)
  {
    var after := FinishDlcProtocol(tables, id, trader, contract, channel).value;
    FinishSucceedsAlone(tables, id, trader, contract, channel);
    if CarriesTrade(tables.protocols[id].protocolType) {
      FinishMovesEverythingTogether(tables, id, trader, contract, channel);
      AppendedOwner(tables, after, id, MovedPosition(tables, id).value, owners);
    } else {
      assert after.trades == tables.trades;
      KeepsTradesKeepsOwners(tables, after, owners);
    }
  }

  lemma AppendedOwner(tables: Tables, after: Tables, id: ProtocolId, moved: nat, owners: seq<ProtocolId>)
    requires OwnTrades(tables, owners) && HasProtocol(tables, id) && id !in owners
    requires CarriesTrade(tables.protocols[id].protocolType) && moved < |tables.positions|
    requires SucceedsAlone(tables, after, id) && RecordsTrade(tables, after, id, moved)
    ensures OwnTrades(after, owners + [id])
  {
    var all := owners + [id];
    forall k | 0 <= k < |all| ensures OwnsTrade(after, all[k], after.trades[k]) {
      if k < |owners| {
        assert OwnsTrade(tables, owners[k], tables.trades[k]);
      }
    }
    forall other | other in after.protocols && SucceededTrade(after.protocols[other]) ensures other in all {
      if other != id {
        assert other in owners;
      }
    }
  }

  // ---------------------------------------------------------------- every run

  lemma StepKeepsOwners(world: World, step: Step, owners: seq<ProtocolId>)
    requires RecordsOk(world, owners)
    ensures OwnTrades(Next(world, step).tables, NextOwners(world, step, owners))
  {
    var phase := world.PhaseOf(step.trader);
    if Finishes(world.tables, phase, step) {
      FinishAddsOwner(world.tables, phase.protocol, step.trader, step.contract, step.channel, owners);
    } else {
      UnfinishedKeepsTrades(world.tables, phase, step);
      KeepsTradesKeepsOwners(world.tables, NextForTrader(world.tables, phase, step).0, owners);
    }
  }

  lemma StepKeepsRecords(world: World, step: Step, owners: seq<ProtocolId>)
    requires RecordsOk(world, owners)
    ensures RecordsOk(Next(world, step), NextOwners(world, step, owners))
  {
    StepKeepsOwners(world, step, owners);
    ProtocolSafety.AwaitedStayApart(world, step);
    ProtocolSafety.NextAwaits(world.tables, world.PhaseOf(step.trader), step);
    var after := Next(world, step);
    forall trader, id | trader in after.phases && id in NextOwners(world, step, owners)
      ensures !after.phases[trader].Awaits(id)
    {
      OwnerIsNotAwaited(world, step, owners, trader, id);
    }
  }

  lemma OwnerIsNotAwaited(world: World, step: Step, owners: seq<ProtocolId>, trader: TraderId, id: ProtocolId)
    requires RecordsOk(world, owners) && trader in Next(world, step).phases && id in NextOwners(world, step, owners)
    ensures !Next(world, step).phases[trader].Awaits(id)
  {
    var phase := world.PhaseOf(step.trader);
    ProtocolSafety.NextAwaits(world.tables, phase, step);
    if id in owners {
      var k :| 0 <= k < |owners| && owners[k] == id;
      assert OwnsTrade(world.tables, owners[k], world.tables.trades[k]);
    } else {
      assert id == phase.protocol && step.Finalized?;
    }
  }

  lemma {:induction false} RunKeepsRecords(world: World, steps: seq<Step>, owners: seq<ProtocolId>)
    requires RecordsOk(world, owners)
    ensures RecordsOk(Run(world, steps), RunOwners(world, steps, owners))
    decreases |steps|
  {
    if |steps| > 0 {
      StepKeepsRecords(world, steps[0], owners);
      RunKeepsRecords(Next(world, steps[0]), steps[1..], NextOwners(world, steps[0], owners));
    }
  }

  /** In every run from an empty database, whatever stops and errors occur, the rows of `trades` are in bijection with
      the protocols with a trade that have finished, in that order, and each row is its protocol's trade. Every
      protocol with a trade that is in `Success` is among them, and none of them is ever awaited again. */
  lemma TradesAreFinishedProtocols(steps: seq<Step>)
    ensures RecordsOk(Run(ProtocolSafety.EMPTY, steps), RunOwners(ProtocolSafety.EMPTY, steps, []))
  {
    RunKeepsRecords(ProtocolSafety.EMPTY, steps, []);
  }

  // ---------------------------------------------------------------- staying in success

  /** Together with `OwnTrades`: the rows of `trades` are in bijection with the protocols with a trade in `Success`. */
  predicate AllSucceed(tables: Tables, owners: seq<ProtocolId>)
  {
    forall k :: 0 <= k < |owners| ==> owners[k] in tables.protocols && SucceededTrade(tables.protocols[owners[k]])
  }

  /** A step leaves every protocol alone that it neither answers nor fails. */
  lemma StepLeaves(tables: Tables, phase: Phase, step: Step, id: ProtocolId)
    requires id in tables.protocols && !tables.protocols[id].protocolType.Close?
    requires !phase.Awaits(id) || !(step.Finalized? || step.Rejected?)
    requires !(step.MessageFailed? && step.protocol == id)
    requires step.IsProposal() ==> step.proposal.id != id
    ensures var after := NextForTrader(tables, phase, step).0;
            id in after.protocols && after.protocols[id] == tables.protocols[id]
  {
    if step.IsProposal() || step.FundingFeeDue? {
      ProposalExtends(tables, phase, step);
    } else if Finishes(tables, phase, step) {
      FinishSucceedsAlone(tables, phase.protocol, step.trader, step.contract, step.channel);
    } else if step.Rejected? && phase.IsPending() {
      RejectLeaves(tables, phase, step.trader, step.crash, id);
    }
  }

  lemma RejectLeaves(tables: Tables, phase: Phase, trader: TraderId, crash: bool, id: ProtocolId)
    requires phase.IsPending() && id in tables.protocols && !phase.Awaits(id)
    ensures var after := RejectTables(tables, phase, trader, crash);
            id in after.protocols && after.protocols[id] == tables.protocols[id]
  {
  }

  /** The bijection with the protocols in `Success` survives a step if and only if the step is not a failing message
      that names one of them. */
  lemma SuccessSurvivesIff(world: World, step: Step, owners: seq<ProtocolId>)
    requires RecordsOk(world, owners) && AllSucceed(world.tables, owners)
    ensures AllSucceed(Next(world, step).tables, NextOwners(world, step, owners))
            <==> !(step.MessageFailed? && step.protocol in owners)
  {
    var phase := world.PhaseOf(step.trader);
    var after := Next(world, step);
    if step.MessageFailed? {
      if step.protocol in owners {
        assert !SucceededTrade(after.tables.protocols[step.protocol]);
      }
    } else if !step.IsProposal() || world.IsFresh(step.proposal.id) {
      forall k | 0 <= k < |owners|
        ensures owners[k] in after.tables.protocols && SucceededTrade(after.tables.protocols[owners[k]])
      {
        assert owners[k] in owners;
        StepLeaves(world.tables, phase, step, owners[k]);
      }
      if Finishes(world.tables, phase, step) {
        FinishSucceedsAlone(world.tables, phase.protocol, step.trader, step.contract, step.channel);
      }
    }
  }

  // ---------------------------------------------------------------- staying pending

  predicate AwaitsPending(tables: Tables, phase: Phase)
  {
    phase.IsPending() && phase.protocol in tables.protocols ==>
      tables.protocols[phase.protocol].state == Pending && !tables.protocols[phase.protocol].protocolType.Close?
  }

  /** Every protocol that a channel waits for is pending, if it is written. */
  predicate AwaitedPending(world: World)
  {
    forall trader :: trader in world.phases ==> AwaitsPending(world.tables, world.phases[trader])
  }

  predicate IsAwaited(world: World, id: ProtocolId)
  {
    exists trader :: trader in world.phases && world.phases[trader].Awaits(id)
  }

  lemma NewlyAwaitedIsPending(tables: Tables, phase: Phase, step: Step)
    requires step.IsProposal() && step.proposal.id !in tables.protocols && !phase.Awaits(step.proposal.id)
    ensures var (after, next) := NextForTrader(tables, phase, step);
            next.Awaits(step.proposal.id) ==> AwaitsPending(after, next)
  {
    ProposalExtends(tables, phase, step);
  }

  lemma StillPending(world: World, step: Step, trader: TraderId)
    requires AwaitedPending(world) && world.AwaitedApart() && trader in Next(world, step).phases
    requires !(step.MessageFailed? && step.protocol in world.tables.protocols && IsAwaited(world, step.protocol))
    requires step.IsProposal() ==> world.IsFresh(step.proposal.id)
    ensures AwaitsPending(Next(world, step).tables, Next(world, step).phases[trader])
  {
    var phase := world.PhaseOf(step.trader);
    var next := Next(world, step).phases[trader];
    ProtocolSafety.NextAwaits(world.tables, phase, step);
    if step.Finalized? || step.Rejected? { AnsweredAwaitsNothing(world.tables, phase, step); }
    if step.IsProposal() && next.Awaits(step.proposal.id) {
      assert trader == step.trader;
      NewlyAwaitedIsPending(world.tables, phase, step);
    } else if next.IsPending() && next.protocol in world.tables.protocols {
      StepLeaves(world.tables, phase, step, next.protocol);
    } else if next.IsPending() {
      if step.IsProposal() { ProposalExtends(world.tables, phase, step); }
      else { NothingIsCreated(world.tables, phase, step); }
    }
  }

  lemma AnsweredAwaitsNothing(tables: Tables, phase: Phase, step: Step)
    requires step.Finalized? || step.Rejected?
    ensures !NextForTrader(tables, phase, step).1.IsPending()
  {
  }

  lemma NothingIsCreated(tables: Tables, phase: Phase, step: Step)
    requires !step.IsProposal()
    ensures NextForTrader(tables, phase, step).0.protocols.Keys == tables.protocols.Keys
  {
    if Finishes(tables, phase, step) {
      FinishSucceedsAlone(tables, phase.protocol, step.trader, step.contract, step.channel);
    }
  }

  /** Awaited protocols stay pending in a step if and only if it is not a failing message that names one of them. */
  lemma PendingSurvivesIff(world: World, step: Step)
    requires AwaitedPending(world) && world.AwaitedApart()
    ensures AwaitedPending(Next(world, step))
            <==> !(step.MessageFailed? && step.protocol in world.tables.protocols && IsAwaited(world, step.protocol))
  {
    if step.MessageFailed? && step.protocol in world.tables.protocols && IsAwaited(world, step.protocol) {
      var trader :| trader in world.phases && world.phases[trader].Awaits(step.protocol);
      assert !AwaitsPending(Next(world, step).tables, Next(world, step).phases[trader]);
    } else if !step.IsProposal() || world.IsFresh(step.proposal.id) {
      forall trader | trader in Next(world, step).phases
        ensures AwaitsPending(Next(world, step).tables, Next(world, step).phases[trader])
      {
        StillPending(world, step, trader);
      }
    }
  }

  // ---------------------------------------------------------------- what a resizing position misses

  /** A resizing position misses the trade of a resize of its trader that has not finished. */
  ghost predicate MissesUnfinished(tables: Tables, owners: seq<ProtocolId>, i: nat)
    requires i < |tables.positions|
  {
    tables.positions[i].state.Resizing? ==>
      exists id :: MissesTrade(tables, tables.positions[i], Recorded(tables.trades, i), id) && id !in owners
  }

  ghost predicate AllMissUnfinished(tables: Tables, owners: seq<ProtocolId>)
  {
    forall i: nat :: i < |tables.positions| ==> MissesUnfinished(tables, owners, i)
  }

  /** Finishing a trade leaves no resizing position of the trader. */
  lemma FinishedTradeEndsResizing(tables: Tables, phase: Phase, step: Step, i: nat)
    requires TraderOk(tables, step.trader, phase) && Finishes(tables, phase, step)
    requires CarriesTrade(tables.protocols[phase.protocol].protocolType)
    requires i < |tables.positions| && tables.positions[i].trader == step.trader
    ensures var after := NextForTrader(tables, phase, step).0;
            |after.positions| == |tables.positions| && !after.positions[i].state.Resizing?
  {
    var after := NextForTrader(tables, phase, step).0;
    FinishMovesEverythingTogether(tables, phase.protocol, step.trader, step.contract, step.channel);
    var moved := MovedPosition(tables, phase.protocol).value;
    assert tables.tradeParams[phase.protocol].trader == step.trader;
    MovedEndsResizing(tables, after, step.trader, phase, moved, i);
  }

  lemma MovedEndsResizing(tables: Tables, after: Tables, trader: TraderId, phase: Phase, moved: nat, i: nat)
    requires phase.IsPending() && RowsOk(tables, trader, phase)
    requires HasProtocol(tables, phase.protocol) && CarriesTrade(tables.protocols[phase.protocol].protocolType)
    requires MovesPosition(tables, after, phase.protocol, moved)
    requires tables.tradeParams[phase.protocol].trader == trader
    requires i < |tables.positions| && tables.positions[i].trader == trader
    ensures !after.positions[i].state.Resizing?
  {
    assert IsActive(tables.positions[moved], trader);
    if i != moved {
      assert !IsActive(tables.positions[i], trader);
    }
  }

  /** Answers that do not finish a trade never make a position resize, and touch no resizing one. */
  lemma AnswerKeepsResizing(tables: Tables, phase: Phase, step: Step, i: nat)
    requires (step.Finalized? || step.Rejected?) && phase.IsPending()
    requires Finishes(tables, phase, step) ==> !CarriesTrade(tables.protocols[phase.protocol].protocolType)
    ensures var after := NextForTrader(tables, phase, step).0;
            && |after.positions| == |tables.positions| && after.trades == tables.trades
            && (i < |tables.positions| && after.positions[i].state.Resizing?
                ==> after.positions[i] == tables.positions[i])
  {
  }

  /** So do all the other steps that leave the channel at rest. */
  lemma RestKeepsRows(tables: Tables, phase: Phase, step: Step)
    requires !step.Finalized? && !step.Rejected? && !phase.IsPending()
    requires !NextForTrader(tables, phase, step).1.IsPending()
    ensures var after := NextForTrader(tables, phase, step).0;
            after.positions == tables.positions && after.trades == tables.trades
  {
  }

  lemma StillMisses(
    tables: Tables, after: Tables, created: set<ProtocolId>, owners: seq<ProtocolId>, finished: seq<ProtocolId>, i: nat
  )
    requires i < |tables.positions| && i < |after.positions| && MissesUnfinished(tables, owners, i)
    requires after.positions[i] == tables.positions[i] && Recorded(after.trades, i) == Recorded(tables.trades, i)
    requires LeavesProtocols(tables, after, created)
    requires forall id :: id in finished && id !in owners ==>
               id in tables.tradeParams && tables.tradeParams[id].trader != tables.positions[i].trader
    ensures MissesUnfinished(after, finished, i)
  {
    if tables.positions[i].state.Resizing? {
      var row := tables.positions[i];
      var id :| MissesTrade(tables, row, Recorded(tables.trades, i), id) && id !in owners;
      assert MissesTrade(after, row, Recorded(after.trades, i), id);
    }
  }

  /** The trader whose channel waits misses the trade that it waits for. */
  lemma AwaitedIsMissed(world: World, owners: seq<ProtocolId>, i: nat)
    requires WorldOk(world) && RecordsOk(world, owners) && i < |world.tables.positions|
    requires world.PhaseOf(world.tables.positions[i].trader).IsPending()
    ensures MissesUnfinished(world.tables, owners, i)
  {
    var trader := world.tables.positions[i].trader;
    var phase := world.PhaseOf(trader);
    assert TraderOk(world.tables, trader, phase) && RowAddsUp(world.tables, phase, i);
    if world.tables.positions[i].state.Resizing? {
      assert MissesTrade(world.tables, world.tables.positions[i], Recorded(world.tables.trades, i), phase.protocol);
      assert phase.Awaits(phase.protocol);
    }
  }

  lemma OwnRowMisses(world: World, step: Step, owners: seq<ProtocolId>, i: nat)
    requires WorldOk(world) && ProtocolSafety.StepTolerated(world, step) && RecordsOk(world, owners)
    requires AllMissUnfinished(world.tables, owners)
    requires step.IsProposal() ==> world.IsFresh(step.proposal.id)
    requires i < |Next(world, step).tables.positions| && Next(world, step).tables.positions[i].trader == step.trader
    requires !Next(world, step).PhaseOf(step.trader).IsPending()
    ensures MissesUnfinished(Next(world, step).tables, NextOwners(world, step, owners), i)
  {
    var phase := world.PhaseOf(step.trader);
    var after := Next(world, step).tables;
    assert TraderOk(world.tables, step.trader, phase);
    ProtocolSafety.StepKeepsTrader(world.tables, phase, step);
    if step.Finalized? || step.Rejected? {
      if phase.IsPending() {
        if Finishes(world.tables, phase, step) && CarriesTrade(world.tables.protocols[phase.protocol].protocolType) {
          FinishedTradeKeepsLength(world.tables, phase, step);
          FinishedTradeEndsResizing(world.tables, phase, step, i);
        } else {
          AnswerKeepsResizing(world.tables, phase, step, i);
          if after.positions[i].state.Resizing? {
            assert MissesUnfinished(world.tables, owners, i);
            StillMisses(world.tables, after, ProtocolSafety.NewProtocols(step), owners, owners, i);
          }
        }
      } else {
        assert MissesUnfinished(world.tables, owners, i);
      }
    } else {
      RestKeepsRows(world.tables, phase, step);
      assert MissesUnfinished(world.tables, owners, i);
      StillMisses(world.tables, after, ProtocolSafety.NewProtocols(step), owners, owners, i);
    }
  }

  lemma FinishedTradeKeepsLength(tables: Tables, phase: Phase, step: Step)
    requires Finishes(tables, phase, step) && CarriesTrade(tables.protocols[phase.protocol].protocolType)
    ensures |NextForTrader(tables, phase, step).0.positions| == |tables.positions|
  {
    FinishMovesEverythingTogether(tables, phase.protocol, step.trader, step.contract, step.channel);
  }

  /** A protocol that another trader finishes is not one that this position could miss. */
  lemma OtherRowMisses(world: World, step: Step, owners: seq<ProtocolId>, i: nat)
    requires WorldOk(world) && ProtocolSafety.StepTolerated(world, step)
    requires AllMissUnfinished(world.tables, owners)
    requires step.IsProposal() ==> world.IsFresh(step.proposal.id)
    requires i < |Next(world, step).tables.positions| && Next(world, step).tables.positions[i].trader != step.trader
    ensures MissesUnfinished(Next(world, step).tables, NextOwners(world, step, owners), i)
  {
    var phase := world.PhaseOf(step.trader);
    assert TraderOk(world.tables, step.trader, phase);
    ProtocolSafety.StepKeepsTrader(world.tables, phase, step);
    assert i < |world.tables.positions|;
    assert MissesUnfinished(world.tables, owners, i);
    StillMisses(world.tables, Next(world, step).tables, ProtocolSafety.NewProtocols(step), owners,
                NextOwners(world, step, owners), i);
  }

  lemma StepKeepsMissing(world: World, step: Step, owners: seq<ProtocolId>)
    requires WorldOk(world) && ProtocolSafety.StepTolerated(world, step) && RecordsOk(world, owners)
    requires AllMissUnfinished(world.tables, owners)
    ensures AllMissUnfinished(Next(world, step).tables, NextOwners(world, step, owners))
  {
    if !step.IsProposal() || world.IsFresh(step.proposal.id) {
      var after := Next(world, step);
      ProtocolSafety.StepKeepsWorld(world, step);
      StepKeepsRecords(world, step, owners);
      forall i: nat | i < |after.tables.positions|
        ensures MissesUnfinished(after.tables, NextOwners(world, step, owners), i)
      {
        if after.PhaseOf(after.tables.positions[i].trader).IsPending() {
          AwaitedIsMissed(after, NextOwners(world, step, owners), i);
        } else if after.tables.positions[i].trader == step.trader {
          OwnRowMisses(world, step, owners, i);
        } else {
          OtherRowMisses(world, step, owners, i);
        }
      }
    }
  }

  lemma {:induction false} RunKeepsMissing(world: World, steps: seq<Step>, owners: seq<ProtocolId>)
    requires WorldOk(world) && ProtocolSafety.RunTolerated(world, steps) && RecordsOk(world, owners)
    requires AllMissUnfinished(world.tables, owners)
    ensures AllMissUnfinished(Run(world, steps).tables, RunOwners(world, steps, owners))
    decreases |steps|
  {
    if |steps| > 0 {
      StepKeepsMissing(world, steps[0], owners);
      ProtocolSafety.StepKeepsWorld(world, steps[0]);
      StepKeepsRecords(world, steps[0], owners);
      RunKeepsMissing(Next(world, steps[0]), steps[1..], NextOwners(world, steps[0], owners));
    }
  }

  /** Whatever the traders and the coordinator do in a tolerated run: every position is the sum of its recorded trades,
      but for a resizing one, which misses exactly the trade of a resize of its own trader that is not recorded yet;
      and two active positions never belong to the same trader. */
  lemma PositionsAreTheirTrades(steps: seq<Step>, i: nat, j: nat)
    requires ProtocolSafety.RunTolerated(ProtocolSafety.EMPTY, steps)
    requires var rows := Run(ProtocolSafety.EMPTY, steps).tables.positions; i < |rows| && j < |rows|
    ensures var tables := Run(ProtocolSafety.EMPTY, steps).tables;
            && ProtocolSafety.IsSumOfTrades(tables, i)
            && MissesUnfinished(tables, RunOwners(ProtocolSafety.EMPTY, steps, []), i)
            && ((IsActive(tables.positions[i], tables.positions[j].trader)
                 && IsActive(tables.positions[j], tables.positions[j].trader)) ==> i == j)
  {
    ProtocolSafety.PositionsAddUp(steps, i, j);
    RunKeepsMissing(ProtocolSafety.EMPTY, steps, []);
  }
}
