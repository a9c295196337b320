/** The database follows the channel: in every run without a fault, whatever the traders interleave, a position row
    holds exactly what the channel's own arithmetic says. */
module Bookkeeping {
  import opened Wrappers
  import opened Cfd
  import opened Positions
  import opened Schema
  import opened ProtocolRuns
  import opened ProtocolInvariant
  import opened ProtocolSteps
  import opened ProtocolSafety
  import opened Finishing
  import C = Channel
  import T = Trade
  import ChannelRuns

  /** A trader's channel as money: none, at rest, or with a proposal that leads from one channel to another. */
  datatype Book =
    | NoBook
    | Idle(channel: C.Channel)
    | Awaiting(before: Option<C.Channel>, target: C.Channel)

  function ActiveRow(tables: Tables, trader: TraderId): Option<nat>
  {
    LatestRow(tables.positions, trader, ACTIVE)
  }

  function AmountsDue(tables: Tables, trader: TraderId): seq<int>
  {
    match ActiveRow(tables, trader)
    case None => []
    case Some(i) => AmountsOf(tables.fundingFeeEvents, EventsDue(tables, i))
  }

  /** What a step means for the money alone: the channel arithmetic never looks at a row. */
  function NextBook(book: Book, step: Step, due: seq<int>): Book
  {
    match step
    case TradeMatched(_, trade, _, coordinatorFunds, traderFunds, _) =>
      (match book
       case NoBook =>
         var offer := C.OpenDlcChannel(trade, coordinatorFunds, C.ForTradeCostAndTxFees(traderFunds));
         if offer.Ok? then Awaiting(None, offer.value.channel) else book
       case Idle(channel) =>
         var stepped := C.Step(channel, C.OrderMatched(trade, due));
         if stepped.Ok? then Awaiting(Some(channel), stepped.value) else book
       case Awaiting(_, _) => book)
    case RolloverDue(_, _, _) =>
      if book.Idle? && book.channel.state.Established? then
        Awaiting(Some(book.channel), C.Next(book.channel, C.RolloverDue(due)))
      else book
    case Finalized(_, _, _, _) => if book.Awaiting? then Idle(book.target) else book
    case Rejected(_, _) =>
      if !book.Awaiting? then book else if book.before.None? then NoBook else Idle(book.before.value)
    case ChannelClosed(_, _, _) => if book.Idle? && book.channel.state.Settled? then NoBook else book
    case _ => book
  }

  /** The funds that a trade finds are those of the channel. */
  predicate FundsAgree(book: Book, step: Step)
    requires step.TradeMatched?
  {
    book.Idle? ==>
      match book.channel.state
      case Established(_, reserveCoordinator, reserveTrader) =>
        step.coordinatorFunds == reserveCoordinator && step.traderFunds == reserveTrader
      case Settled(ownPayout, counterPayout) =>
        step.coordinatorFunds == ownPayout && step.traderFunds == counterPayout
  }

  /** Whether a pending proposal resizes a position. */
  predicate IsResizing(tables: Tables, trader: TraderId)
  {
    var active := ActiveRow(tables, trader);
    active.Some? && tables.positions[active.value].state.Resizing?
  }

  /** Nothing stops half way, the last message brings its contract unless it settles, and no resize is rejected. */
  predicate Faultless(tables: Tables, book: Book, step: Step)
  {
    match step
    case TradeMatched(_, _, proposal, _, _, stop) =>
      stop.Completed? && CanCreate(tables, proposal.id, proposal.previous) && FundsAgree(book, step)
    case RolloverDue(_, proposal, stop) => stop.Completed? && CanCreate(tables, proposal.id, proposal.previous)
    case Finalized(_, contract, _, crash) =>
      !crash && (contract.Some? || (book.Awaiting? && book.target.state.Settled?))
    case Rejected(trader, crash) => !crash && !IsResizing(tables, trader)
    case _ => true
  }

  // ---------------------------------------------------------------- what following means

  predicate IdleFollows(tables: Tables, trader: TraderId, phase: Phase, channel: C.Channel)
  {
    var active := ActiveRow(tables, trader);
    if channel.state.Established? then
      && phase.Established? && active.Some?
      && tables.positions[active.value].state.Open?
      && tables.positions[active.value].position == channel.state.position
    else phase.Settled?
  }

  /** While a proposal is pending, the row already is in the state that the last message will find it in. */
  predicate AwaitingFollows(
    tables: Tables, trader: TraderId, phase: Phase, before: Option<C.Channel>, target: C.Channel
  )
  {
    var active := ActiveRow(tables, trader);
    && active.Some? && phase.IsPending() && phase.protocol in tables.protocols
    && var row := tables.positions[active.value];
       var kind := tables.protocols[phase.protocol].protocolType;
       match row.state
       case Proposed =>
         && (phase.Offered? || (phase.RenewOffered? && phase.reopening))
         && target.state.Established? && row.position == target.state.position
         && (if phase.Offered? then before.None? else before.Some? && before.value.state.Settled?)
       case Closing =>
         && phase.SettleOffered? && target.state.Settled?
         && before.Some? && before.value.state.Established? && row.position == before.value.state.position
       case Resizing =>
         && phase.RenewOffered? && !phase.reopening && kind.ResizePosition?
         && target.state.Established? && row.position == target.state.position
         && before.Some? && before.value.state.Established?
       case Rollover =>
         && phase.RenewOffered? && !phase.reopening && kind.RolloverProtocol?
         && phase.protocol in tables.rolloverParams
         && before.Some? && before.value.state.Established? && row.position == before.value.state.position
         && target.state.Established?
         && target.state.position == row.position.(
              coordinatorMargin := tables.rolloverParams[phase.protocol].marginCoordinator,
              coordinatorLeverage := tables.rolloverParams[phase.protocol].leverageCoordinator,
              traderMargin := tables.rolloverParams[phase.protocol].marginTrader,
              traderLeverage := tables.rolloverParams[phase.protocol].leverageTrader)
       case _ => false
  }

  predicate Follows(tables: Tables, trader: TraderId, phase: Phase, book: Book)
  {
    match book
    case NoBook => phase.NoChannel?
    case Idle(channel) => IdleFollows(tables, trader, phase, channel)
    case Awaiting(before, target) => AwaitingFollows(tables, trader, phase, before, target)
  }

  lemma ActiveRowIs(tables: Tables, trader: TraderId, phase: Phase, i: nat)
    requires RowsOk(tables, trader, phase)
    requires i < |tables.positions| && IsActive(tables.positions[i], trader)
    ensures ActiveRow(tables, trader) == Some(i)
  {
    var active := ActiveRow(tables, trader);
    assert active.Some?;
    assert IsActive(tables.positions[active.value], trader);
  }

  /** The latest row in some of the active states is the active row, if that is in one of them. */
  lemma LatestIsActive(tables: Tables, trader: TraderId, phase: Phase, states: set<PositionState>)
    requires RowsOk(tables, trader, phase) && states <= ACTIVE
    requires ActiveRow(tables, trader).Some?
    requires tables.positions[ActiveRow(tables, trader).value].state in states
    ensures LatestRow(tables.positions, trader, states) == ActiveRow(tables, trader)
  {
    var latest := LatestRow(tables.positions, trader, states);
    assert latest.Some?;
    ActiveRowIs(tables, trader, phase, latest.value);
  }

  // ---------------------------------------------------------------- proposals

  lemma OpenFollows(
    tables: Tables, phase: Phase, pending: Phase, trader: TraderId, trade: T.TradeParams, kind: ProtocolType,
    proposal: Proposal, before: Option<C.Channel>, target: C.Channel
  )
    requires || (phase.NoChannel? && pending == Offered(proposal.id) && kind.OpenChannel? && before.None?)
             || (phase.Settled? && pending == RenewOffered(proposal.id, true) && kind.OpenPosition?
                 && before.Some? && before.value.state.Settled?)
    requires ReferencesOk(tables) && TraderOk(tables, trader, phase)
    requires CanCreate(tables, proposal.id, proposal.previous)
    requires target.state.Established? && target.state.position == trade.NewPosition()
    ensures AwaitingFollows(ProposeOpen(tables, trader, trade, kind, proposal, Completed), trader, pending,
                            before, target)
  {
    var after := ProposeOpen(tables, trader, trade, kind, proposal, Completed);
    var rows := tables.positions + [NewRow(trader, trade, proposal)];
    WritesProposal(tables, proposal.id, ProtocolOf(trader, proposal, kind), RecordOf(trader, trade, None), [],
                   rows, Completed);
    ProposeOpenKeeps(tables, phase, pending, trader, trade, kind, proposal, Completed);
    ActiveRowIs(after, trader, pending, |tables.positions|);
  }

  lemma SettleFollows(
    tables: Tables, trader: TraderId, i: nat, trade: T.TradeParams, proposal: Proposal,
    before: C.Channel, target: C.Channel
  )
    requires ReferencesOk(tables) && TraderOk(tables, trader, Established)
    requires CanCreate(tables, proposal.id, proposal.previous)
    requires i < |tables.positions| && Selects(tables.positions[i], trader, {Open})
    requires ActionFor(tables, i, trade).ClosePosition?
    requires before.state.Established? && before.state.position == tables.positions[i].position && target.state.Settled?
    ensures AwaitingFollows(ProposeSettle(tables, i, trade, proposal, Completed), trader, SettleOffered(proposal.id),
                            Some(before), target)
  {
    var after := ProposeSettle(tables, i, trade, proposal, Completed);
    WritesProposal(tables, proposal.id, ProtocolOf(trader, proposal, Settle), RecordOf(trader, trade, None),
                   EventsDue(tables, i), SetClosing(tables.positions, trader, Some(trade.price)), Completed);
    ProposeSettleKeeps(tables, i, trade, proposal);
    ActiveRowIs(after, trader, SettleOffered(proposal.id), i);
  }

  lemma ResizeFollows(
    tables: Tables, trader: TraderId, i: nat, trade: T.TradeParams, coordinatorFunds: nat, traderFunds: nat,
    proposal: Proposal, before: C.Channel, target: C.Channel
  )
    requires ReferencesOk(tables) && TraderOk(tables, trader, Established)
    requires CanCreate(tables, proposal.id, proposal.previous)
    requires i < |tables.positions| && Selects(tables.positions[i], trader, {Open})
    requires ActionFor(tables, i, trade).ResizePosition?
    requires ResizeFor(tables, i, trade, coordinatorFunds, traderFunds).Ok?
    requires before.state.Established? && target.state.Established?
    requires target.state.position
             == C.ResizedRow(tables.positions[i].position,
                             ResizeFor(tables, i, trade, coordinatorFunds, traderFunds).value,
                             trade.matchingFee)
    ensures var resized := ResizeFor(tables, i, trade, coordinatorFunds, traderFunds).value;
            AwaitingFollows(ProposeResize(tables, i, trade, resized, proposal, Completed), trader,
                            RenewOffered(proposal.id, false), Some(before), target)
  {
    var resized := ResizeFor(tables, i, trade, coordinatorFunds, traderFunds).value;
    var after := ProposeResize(tables, i, trade, resized, proposal, Completed);
    WritesProposal(tables, proposal.id, ProtocolOf(trader, proposal, ResizePosition),
                   RecordOf(trader, trade, resized.realizedPnl), EventsDue(tables, i),
                   SetResizing(tables.positions, trader, proposal.contract, resized, trade.matchingFee), Completed);
    ProposeResizeKeeps(tables, i, trade, coordinatorFunds, traderFunds, proposal, Completed);
    ActiveRowIs(after, trader, RenewOffered(proposal.id, false), i);
  }

  /** The coordinator resizes the row exactly as the channel's arithmetic resizes the channel. */
  lemma ResizesAgree(tables: Tables, i: nat, trade: T.TradeParams, channel: C.Channel, due: seq<int>)
    requires i < |tables.positions| && channel.state.Established?
    requires tables.positions[i].position == channel.state.position
    requires due == AmountsOf(tables.fundingFeeEvents, EventsDue(tables, i))
    requires ActionFor(tables, i, trade).ResizePosition?
    ensures var resized := ResizeFor(tables, i, trade, channel.state.reserveCoordinator, channel.state.reserveTrader);
            var stepped := C.Step(channel, C.OrderMatched(trade, due));
            && (stepped.Ok? <==> resized.Ok?)
            && (stepped.Ok? ==>
                  && stepped.value.state.Established?
                  && stepped.value.state.position
                     == C.ResizedRow(tables.positions[i].position, resized.value, trade.matchingFee))
  {
  }

  lemma EstablishedTradeFollows(tables: Tables, step: Step, channel: C.Channel)
    requires step.TradeMatched? && channel.state.Established? && Faultless(tables, Idle(channel), step)
    requires ReferencesOk(tables) && TraderOk(tables, step.trader, Established)
    requires IdleFollows(tables, step.trader, Established, channel)
    ensures var (after, next) := NextForTrader(tables, Established, step);
            Follows(after, step.trader, next, NextBook(Idle(channel), step, AmountsDue(tables, step.trader)))
  {
    var TradeMatched(trader, trade, proposal, coordinatorFunds, traderFunds, _) := step;
    var i := ActiveRow(tables, trader).value;
    var due := AmountsDue(tables, trader);
    LatestIsActive(tables, trader, Established, {Open});
    var stepped := C.Step(channel, C.OrderMatched(trade, due));
    if ActionFor(tables, i, trade).ClosePosition? {
      SettleFollows(tables, trader, i, trade, proposal, channel, stepped.value);
    } else {
      ResizesAgree(tables, i, trade, channel, due);
      if stepped.Ok? {
        ResizeFollows(tables, trader, i, trade, coordinatorFunds, traderFunds, proposal, channel, stepped.value);
      }
    }
  }

  lemma TradeFollows(tables: Tables, phase: Phase, book: Book, step: Step)
    requires step.TradeMatched? && Faultless(tables, book, step)
    requires ReferencesOk(tables) && TraderOk(tables, step.trader, phase) && Follows(tables, step.trader, phase, book)
    ensures var (after, next) := NextForTrader(tables, phase, step);
            Follows(after, step.trader, next, NextBook(book, step, AmountsDue(tables, step.trader)))
  {
    var TradeMatched(trader, trade, proposal, coordinatorFunds, traderFunds, stop) := step;
    var target := NextBook(book, step, AmountsDue(tables, trader));
    match book
    case NoBook =>
      OpenFollows(tables, phase, Offered(proposal.id), trader, trade, OpenChannel, proposal, None, target.target);
    case Idle(channel) =>
      if channel.state.Established? {
        EstablishedTradeFollows(tables, step, channel);
      } else if target.Awaiting? {
        OpenFollows(tables, phase, RenewOffered(proposal.id, true), trader, trade, OpenPosition, proposal,
                    Some(channel), target.target);
      }
    case Awaiting(_, _) =>
  }

  lemma RolloverFollows(tables: Tables, trader: TraderId, channel: C.Channel, proposal: Proposal)
    requires channel.state.Established? && CanCreate(tables, proposal.id, proposal.previous)
    requires ReferencesOk(tables) && TraderOk(tables, trader, Established)
    requires IdleFollows(tables, trader, Established, channel)
    ensures var (after, next) := ProposeRollover(tables, Established, trader, proposal, Completed);
            AwaitingFollows(after, trader, next, Some(channel),
                            C.Next(channel, C.RolloverDue(AmountsDue(tables, trader))))
  {
    var i := ActiveRow(tables, trader).value;
    LatestIsActive(tables, trader, Established, {Open, Rollover});
    StartedRollover(tables, proposal.id, ProtocolOf(trader, proposal, RolloverProtocol), RolloverParamsFor(tables, i),
                    EventsDue(tables, i));
    var (after, next) := ProposeRollover(tables, Established, trader, proposal, Completed);
    assert next == RenewOffered(proposal.id, false);
    assert after.positions == SetState(tables.positions, trader, {Open}, Rollover);
    RolloverActive(tables, trader, proposal);
  }

  lemma RolloverActive(tables: Tables, trader: TraderId, proposal: Proposal)
    requires ReferencesOk(tables) && TraderOk(tables, trader, Established) && proposal.id !in tables.protocols
    requires ActiveRow(tables, trader).Some?
    ensures var (after, next) := ProposeRollover(tables, Established, trader, proposal, Completed);
            |after.positions| == |tables.positions|
            && (IsActive(after.positions[ActiveRow(tables, trader).value], trader)
                ==> ActiveRow(after, trader) == ActiveRow(tables, trader))
  {
    var (after, next) := ProposeRollover(tables, Established, trader, proposal, Completed);
    ProposeRolloverKeeps(tables, Established, trader, proposal, Completed);
    var i := ActiveRow(tables, trader).value;
    if LatestRow(tables.positions, trader, {Open, Rollover}).Some? {
      var latest := LatestRow(tables.positions, trader, {Open, Rollover}).value;
      if StartRollover(tables, proposal.id, ProtocolOf(trader, proposal, RolloverProtocol),
                       RolloverParamsFor(tables, latest), EventsDue(tables, latest)).Some? {
        StartedRollover(tables, proposal.id, ProtocolOf(trader, proposal, RolloverProtocol),
                        RolloverParamsFor(tables, latest), EventsDue(tables, latest));
      }
    }
    if IsActive(after.positions[i], trader) {
      ActiveRowIs(after, trader, next, i);
    }
  }

  // ---------------------------------------------------------------- answers

  /** Finishing a trade moves the active row to its target state and leaves its values alone. */
  lemma FinishedTradeMovesActive(
    tables: Tables, phase: Phase, trader: TraderId, contract: Option<ContractId>, channel: ChannelId
  )
    requires TraderOk(tables, trader, phase) && phase.IsPending() && phase.protocol in tables.protocols
    requires NeedsContract(tables.protocols[phase.protocol].protocolType) ==> contract.Some?
    requires CarriesTrade(tables.protocols[phase.protocol].protocolType) && ActiveRow(tables, trader).Some?
    requires tables.positions[ActiveRow(tables, trader).value].state
             == GuardState(tables.protocols[phase.protocol].protocolType)
    ensures var after := FinalizeTables(tables, phase, trader, contract, channel);
            var i := ActiveRow(tables, trader).value;
            && |after.positions| == |tables.positions|
            && after.positions[i].trader == trader
            && after.positions[i].state == TargetState(tables.protocols[phase.protocol].protocolType)
            && after.positions[i].position == tables.positions[i].position
  {
    var id := phase.protocol;
    assert IsGuarded(tables, id, ActiveRow(tables, trader).value);
    FinishSucceedsIff(tables, id, trader, contract, channel);
    FinishMovesEverythingTogether(tables, id, trader, contract, channel);
    ActiveRowIs(tables, trader, phase, MovedPosition(tables, id).value);
  }

  lemma FinalizedTradeFollows(
    tables: Tables, phase: Phase, trader: TraderId, before: Option<C.Channel>, target: C.Channel,
    contract: Option<ContractId>, channel: ChannelId
  )
    requires TraderOk(tables, trader, phase) && AwaitingFollows(tables, trader, phase, before, target)
    requires contract.Some? || target.state.Settled?
    requires CarriesTrade(tables.protocols[phase.protocol].protocolType)
    ensures IdleFollows(FinalizeTables(tables, phase, trader, contract, channel), trader, phase.Accepted(), target)
  {
    var i := ActiveRow(tables, trader).value;
    FinishedTradeMovesActive(tables, phase, trader, contract, channel);
    if target.state.Established? {
      FinalizeKeepsRows(tables, trader, phase, contract, channel);
      ActiveRowIs(FinalizeTables(tables, phase, trader, contract, channel), trader, phase.Accepted(), i);
    }
  }

  lemma FinalizedRolloverFollows(
    tables: Tables, phase: Phase, trader: TraderId, before: Option<C.Channel>, target: C.Channel,
    contract: Option<ContractId>, channel: ChannelId
  )
    requires TraderOk(tables, trader, phase) && AwaitingFollows(tables, trader, phase, before, target)
    requires contract.Some? || target.state.Settled?
    requires tables.protocols[phase.protocol].protocolType.RolloverProtocol?
    ensures IdleFollows(FinalizeTables(tables, phase, trader, contract, channel), trader, phase.Accepted(), target)
  {
    var i := ActiveRow(tables, trader).value;
    assert RowAddsUp(tables, phase, i);
    RolloverIsNotGuarded(tables, phase.protocol, trader, contract.value, channel);
    FinalizeKeepsRows(tables, trader, phase, contract, channel);
    ActiveRowIs(FinalizeTables(tables, phase, trader, contract, channel), trader, phase.Accepted(), i);
  }

  /** The last message moves the row to the target of the proposal. */
  lemma FinalizedFollows(
    tables: Tables, phase: Phase, trader: TraderId, before: Option<C.Channel>, target: C.Channel,
    contract: Option<ContractId>, channel: ChannelId
  )
    requires TraderOk(tables, trader, phase) && AwaitingFollows(tables, trader, phase, before, target)
    requires contract.Some? || target.state.Settled?
    ensures IdleFollows(FinalizeTables(tables, phase, trader, contract, channel), trader, phase.Accepted(), target)
  {
    if CarriesTrade(tables.protocols[phase.protocol].protocolType) {
      FinalizedTradeFollows(tables, phase, trader, before, target, contract, channel);
    } else {
      FinalizedRolloverFollows(tables, phase, trader, before, target, contract, channel);
    }
  }

  /** A rejection restores the row to what the channel is again, unless the proposal was to resize: then the row
      keeps the size that was never agreed on. */
  lemma RejectedFollowsIff(tables: Tables, phase: Phase, trader: TraderId, before: Option<C.Channel>, target: C.Channel)
    requires ReferencesOk(tables) && TraderOk(tables, trader, phase)
    requires AwaitingFollows(tables, trader, phase, before, target)
    ensures Follows(RejectTables(tables, phase, trader, false), trader, phase.Refused(),
                    if before.None? then NoBook else Idle(before.value))
            <==> !IsResizing(tables, trader)
  {
    var i := ActiveRow(tables, trader).value;
    assert IsActive(tables.positions[i], trader);
    var after := RejectTables(tables, phase, trader, false);
    RejectKeepsRows(tables, trader, phase, false);
    RefusedRowsReachOnly(tables, trader, phase);
    if after.positions[i].state in ACTIVE {
      ActiveRowIs(after, trader, phase.Refused(), i);
    }
  }

  /** The tables once a trader's first trade has opened a position. */
  function OpenedTables(trader: TraderId, trade: T.TradeParams, opening: Proposal): Tables
  {
    Tables([NewRow(trader, trade, opening).(state := Open)],
           map[opening.id := ProtocolOf(trader, opening, OpenChannel).(state := Success)],
           map[opening.id := RecordOf(trader, trade, None)], map[],
           [TradeRow(0, RecordOf(trader, trade, None))], [], map[], 0)
  }

  /** And before it is agreed on. */
  function ProposedTables(trader: TraderId, trade: T.TradeParams, opening: Proposal): Tables
  {
    Tables([NewRow(trader, trade, opening)], map[opening.id := ProtocolOf(trader, opening, OpenChannel)],
           map[opening.id := RecordOf(trader, trade, None)], map[], [], [], map[], 0)
  }

  lemma FirstTradeProposes(trader: TraderId, trade: T.TradeParams, opening: Proposal)
    requires opening.previous.None?
    ensures Next(EMPTY, TradeMatched(trader, trade, opening, 0, 0, Completed))
            == World(ProposedTables(trader, trade, opening), map[trader := Offered(opening.id)])
  {
    var world := Next(EMPTY, TradeMatched(trader, trade, opening, 0, 0, Completed));
    StartedTrade(EMPTY.tables, opening.id, ProtocolOf(trader, opening, OpenChannel), RecordOf(trader, trade, None), []);
    assert world.tables.positions == [NewRow(trader, trade, opening)];
  }

  lemma ProposedFinishes(trader: TraderId, trade: T.TradeParams, opening: Proposal)
    requires opening.previous.None?
    ensures FinishDlcProtocol(ProposedTables(trader, trade, opening), opening.id, trader, Some(opening.contract),
                              opening.channel)
            == Some(OpenedTables(trader, trade, opening))
  {
    var tables := ProposedTables(trader, trade, opening);
    var row := NewRow(trader, trade, opening);
    assert FirstRow(tables.positions, trader, {Proposed}) == Some(0);
    assert SetState(tables.positions, trader, {Proposed}, Open) == [row.(state := Open)];
    assert SetSuccess(tables, opening.id, Some(opening.contract), opening.channel)
           == tables.(protocols := OpenedTables(trader, trade, opening).protocols);
    var record := RecordOf(trader, trade, None);
    assert tables.trades + [TradeRow(0, record)] == [TradeRow(0, record)];
  }

  lemma OfferIsFinalized(tables: Tables, finished: Tables, trader: TraderId, opening: Proposal)
    requires FinishDlcProtocol(tables, opening.id, trader, Some(opening.contract), opening.channel) == Some(finished)
    ensures NextForTrader(tables, Offered(opening.id),
                          Finalized(trader, Some(opening.contract), opening.channel, false))
            == (finished, Established)
  {
  }

  lemma OnlyTraderAnswers(world: World, step: Step, phase: Phase, after: Tables, next: Phase)
    requires !step.IsProposal() && world.phases == map[step.trader := phase]
    requires NextForTrader(world.tables, phase, step) == (after, next)
    ensures Next(world, step) == World(after, map[step.trader := next])
  {
    assert world.phases[step.trader := next] == map[step.trader := next];
  }

  lemma FirstTradeOpens(trader: TraderId, trade: T.TradeParams, opening: Proposal)
    requires opening.previous.None?
    ensures Next(Next(EMPTY, TradeMatched(trader, trade, opening, 0, 0, Completed)),
                 Finalized(trader, Some(opening.contract), opening.channel, false))
            == World(OpenedTables(trader, trade, opening), map[trader := Established])
  {
    FirstTradeProposes(trader, trade, opening);
    ProposedFinishes(trader, trade, opening);
    var (proposed, agreed) := (ProposedTables(trader, trade, opening), OpenedTables(trader, trade, opening));
    OfferIsFinalized(proposed, agreed, trader, opening);
    OnlyTraderAnswers(World(proposed, map[trader := Offered(opening.id)]),
                      Finalized(trader, Some(opening.contract), opening.channel, false),
                      Offered(opening.id), agreed, Established);
  }

  /** The funds cover another trade like the one that opened the position. */
  predicate CanDouble(trade: T.TradeParams, coordinatorFunds: nat, traderFunds: nat)
  {
    && trade.CoordinatorMargin() + trade.matchingFee <= coordinatorFunds
    && trade.TraderMargin() + trade.matchingFee <= traderFunds
  }

  lemma SameTradeDoubles(
    trader: TraderId, trade: T.TradeParams, opening: Proposal, doubling: Proposal,
    coordinatorFunds: nat, traderFunds: nat
  )
    requires doubling.id != opening.id && doubling.previous == Some(opening.id)
    requires CanDouble(trade, coordinatorFunds, traderFunds)
    ensures var world := World(OpenedTables(trader, trade, opening), map[trader := Established]);
            var next := Next(world, TradeMatched(trader, trade, doubling, coordinatorFunds, traderFunds, Completed));
            && next.PhaseOf(trader) == RenewOffered(doubling.id, false)
            && doubling.id in next.tables.protocols
            && |next.tables.positions| == 1 && next.tables.positions[0].trader == trader
            && next.tables.positions[0].state.Resizing?
            && next.tables.positions[0].position.contracts == 2.0 * trade.quantity
            && next.tables.trades == world.tables.trades
  {
    var tables := OpenedTables(trader, trade, opening);
    SameTradeIncreases(trader, trade, opening, coordinatorFunds, traderFunds);
    ResizesOnlyRow(tables, trader, trade, doubling, coordinatorFunds, traderFunds);
  }

  /** The resize of a trader's only row. */
  lemma ResizesOnlyRow(
    tables: Tables, trader: TraderId, trade: T.TradeParams, proposal: Proposal, coordinatorFunds: nat, traderFunds: nat
  )
    requires |tables.positions| == 1 && Selects(tables.positions[0], trader, {Open})
    requires CanCreate(tables, proposal.id, proposal.previous) && ActionFor(tables, 0, trade).ResizePosition?
    requires ResizeFor(tables, 0, trade, coordinatorFunds, traderFunds).Ok?
    ensures var (after, next) := ProposeTrade(tables, Established, trader, trade, proposal,
                                              coordinatorFunds, traderFunds, Completed);
            && next == RenewOffered(proposal.id, false)
            && proposal.id in after.protocols && after.trades == tables.trades
            && after.positions == [ResizingRow(tables.positions[0], proposal.contract,
                                               ResizeFor(tables, 0, trade, coordinatorFunds, traderFunds).value,
                                               trade.matchingFee)]
  {
    assert LatestRow(tables.positions, trader, {Open}) == Some(0);
    var resized := ResizeFor(tables, 0, trade, coordinatorFunds, traderFunds).value;
    StartedTrade(tables, proposal.id, ProtocolOf(trader, proposal, ResizePosition),
                 RecordOf(trader, trade, resized.realizedPnl), EventsDue(tables, 0));
  }

  lemma SameTradeIncreases(
    trader: TraderId, trade: T.TradeParams, opening: Proposal, coordinatorFunds: nat, traderFunds: nat
  )
    requires CanDouble(trade, coordinatorFunds, traderFunds)
    ensures var tables := OpenedTables(trader, trade, opening);
            && ActionFor(tables, 0, trade) == T.ResizePosition(T.Increase(trade.quantity, trade.price))
            && var resized := ResizeFor(tables, 0, trade, coordinatorFunds, traderFunds);
               resized.Ok? && resized.value.contracts == 2.0 * trade.quantity
  {
    var tables := OpenedTables(trader, trade, opening);
    T.ProductSign(trade.SignedContracts(), trade.SignedContracts());
    assert EventsDue(tables, 0) == [] && FeeDue(tables, 0).Zero?;
    FundedIncreaseGoesThrough(tables.positions[0].position, trade.quantity, trade.price, coordinatorFunds, traderFunds,
                              trade.matchingFee);
  }

  lemma FundedIncreaseGoesThrough(
    position: Position, extra: Positive, price: Positive, coordinator: nat, trader: nat, fee: nat
  )
    requires CalculateMargin(price, extra, position.coordinatorLeverage) + position.orderMatchingFees <= coordinator
    requires CalculateMargin(price, extra, position.traderLeverage) + fee <= trader
    ensures var resized := T.ApplyResize(T.Increase(extra, price), position, coordinator, trader, fee);
            resized.Ok? && resized.value.contracts == position.contracts + extra
  {
  }

  /** It does happen: a trader's first trade opens a position and is agreed on, the same trade again is to double it,
      and the doubling is rejected. The channel is free again, and the row stays resizing with twice the contracts of
      its one recorded trade. */
  lemma RejectedResizeStays(
    trader: TraderId, trade: T.TradeParams, opening: Proposal, doubling: Proposal,
    coordinatorFunds: nat, traderFunds: nat
  )
    requires opening.previous.None? && doubling.id != opening.id && doubling.previous == Some(opening.id)
    requires CanDouble(trade, coordinatorFunds, traderFunds)
    ensures var steps := [TradeMatched(trader, trade, opening, 0, 0, Completed),
                          Finalized(trader, Some(opening.contract), opening.channel, false),
                          TradeMatched(trader, trade, doubling, coordinatorFunds, traderFunds, Completed),
                          Rejected(trader, false)];
            var world := Run(EMPTY, steps);
            && world.PhaseOf(trader).Established?
            && IsResizing(world.tables, trader)
            && |world.tables.positions| == 1
            && world.tables.positions[0].position.contracts == 2.0 * trade.quantity
            && world.tables.trades == [TradeRow(0, RecordOf(trader, trade, None))]
  {
    var first := TradeMatched(trader, trade, opening, 0, 0, Completed);
    var second := Finalized(trader, Some(opening.contract), opening.channel, false);
    var third := TradeMatched(trader, trade, doubling, coordinatorFunds, traderFunds, Completed);
    FirstTradeOpens(trader, trade, opening);
    SameTradeDoubles(trader, trade, opening, doubling, coordinatorFunds, traderFunds);
    RunOfFour(EMPTY, first, second, third, Rejected(trader, false));
    RejectedResizeRow(Next(Next(Next(EMPTY, first), second), third), trader);
  }

  lemma RunOfFour(world: World, first: Step, second: Step, third: Step, fourth: Step)
    ensures Run(world, [first, second, third, fourth]) == Next(Next(Next(Next(world, first), second), third), fourth)
  {
    var steps := [first, second, third, fourth];
    var one := Next(world, first);
    var two := Next(one, second);
    assert steps[1..] == [second, third, fourth];
    assert steps[1..][1..] == [third, fourth];
    assert steps[1..][1..][1..] == [fourth];
    assert Run(world, steps) == Run(one, [second, third, fourth]) == Run(two, [third, fourth]);
    assert Run(two, [third, fourth]) == Run(Next(two, third), [fourth]);
    assert [fourth][1..] == [];
  }

  lemma RejectedResizeRow(world: World, trader: TraderId)
    requires world.PhaseOf(trader).RenewOffered? && !world.PhaseOf(trader).reopening
    requires |world.tables.positions| == 1 && world.tables.positions[0].trader == trader
    requires world.tables.positions[0].state.Resizing?
    ensures var after := Next(world, Rejected(trader, false));
            && after.PhaseOf(trader).Established? && IsResizing(after.tables, trader)
            && after.tables.positions == world.tables.positions && after.tables.trades == world.tables.trades
  {
    var after := Next(world, Rejected(trader, false)).tables;
    assert after.positions == world.tables.positions;
    assert LatestRow(after.positions, trader, ACTIVE) == Some(0);
  }

  // ---------------------------------------------------------------- every step, every trader

  lemma StepFollows(tables: Tables, phase: Phase, book: Book, step: Step)
    requires Faultless(tables, book, step) && ReferencesOk(tables)
    requires TraderOk(tables, step.trader, phase) && Follows(tables, step.trader, phase, book)
    ensures var (after, next) := NextForTrader(tables, phase, step);
            Follows(after, step.trader, next, NextBook(book, step, AmountsDue(tables, step.trader)))
  {
    var trader := step.trader;
    match step
    case TradeMatched(_, _, _, _, _, _) => TradeFollows(tables, phase, book, step);
    case RolloverDue(_, proposal, _) =>
      if book.Idle? && book.channel.state.Established? {
        RolloverFollows(tables, trader, book.channel, proposal);
      } else if phase.Established? {
        assert false;
      }
    case Finalized(_, contract, channel, _) =>
      if book.Awaiting? {
        FinalizedFollows(tables, phase, trader, book.before, book.target, contract, channel);
      }
    case Rejected(_, _) =>
      if book.Awaiting? {
        RejectedFollowsIff(tables, phase, trader, book.before, book.target);
      }
    case _ => RestFollows(tables, phase, book, step);
  }

  /** Closing a channel, a funding fee event and a failing message leave the positions alone. */
  lemma RestFollows(tables: Tables, phase: Phase, book: Book, step: Step)
    requires step.CloseStarted? || step.ChannelClosed? || step.FundingFeeDue? || step.MessageFailed?
    requires TraderOk(tables, step.trader, phase) && Follows(tables, step.trader, phase, book)
    ensures var (after, next) := NextForTrader(tables, phase, step);
            Follows(after, step.trader, next, NextBook(book, step, AmountsDue(tables, step.trader)))
  {
    var (after, next) := NextForTrader(tables, phase, step);
    RestKeepsRows(tables, phase, step);
    if book.Awaiting? {
      SameRowsFollow(tables, after, step.trader, phase, book);
    }
  }

  lemma RestKeepsRows(tables: Tables, phase: Phase, step: Step)
    requires step.CloseStarted? || step.ChannelClosed? || step.FundingFeeDue? || step.MessageFailed?
    ensures var after := NextForTrader(tables, phase, step).0;
            && after.positions == tables.positions && after.rolloverParams == tables.rolloverParams
            && (forall id :: id in tables.protocols ==>
                  id in after.protocols && after.protocols[id].protocolType == tables.protocols[id].protocolType)
  {
  }

  lemma SameRowsFollow(tables: Tables, after: Tables, trader: TraderId, phase: Phase, book: Book)
    requires after.positions == tables.positions && after.rolloverParams == tables.rolloverParams
    requires forall id :: id in tables.protocols ==>
               id in after.protocols && after.protocols[id].protocolType == tables.protocols[id].protocolType
    requires Follows(tables, trader, phase, book)
    ensures Follows(after, trader, phase, book)
  {
  }

  /** Without a fault, every stop is one that safety tolerates. */
  lemma FaultlessIsTolerated(tables: Tables, phase: Phase, book: Book, step: Step)
    requires Faultless(tables, book, step)
    ensures Tolerated(tables, phase, step)
  {
  }

  lemma OthersFollow(
    tables: Tables, after: Tables, trader: TraderId, created: set<ProtocolId>, other: TraderId, phase: Phase, book: Book
  )
    requires Leaves(tables, after, trader, created) && other != trader
    requires TraderOk(tables, other, phase) && TraderOk(after, other, phase)
    requires phase.IsPending() ==> phase.protocol !in created
    requires Follows(tables, other, phase, book)
    ensures Follows(after, other, phase, book)
  {
    if !book.NoBook? && ActiveRow(tables, other).Some? {
      ActiveRowIs(after, other, phase, ActiveRow(tables, other).value);
    }
  }

  /** The tables and channels beside the money of every trader. */
  datatype Ledger = Ledger(world: World, books: map<TraderId, Book>) {
    function BookOf(trader: TraderId): Book
    {
      if trader in books then books[trader] else NoBook
    }
  }

  function NextBooks(ledger: Ledger, step: Step): Ledger
  {
    if step.IsProposal() && !ledger.world.IsFresh(step.proposal.id) then ledger
    else
      var book := NextBook(ledger.BookOf(step.trader), step, AmountsDue(ledger.world.tables, step.trader));
      Ledger(Next(ledger.world, step), ledger.books[step.trader := book])
  }

  function RunBooks(ledger: Ledger, steps: seq<Step>): Ledger
    decreases |steps|
  {
    if |steps| == 0 then ledger else RunBooks(NextBooks(ledger, steps[0]), steps[1..])
  }

  predicate FaultlessRun(ledger: Ledger, steps: seq<Step>)
    decreases |steps|
  {
    || |steps| == 0
    || (&& Faultless(ledger.world.tables, ledger.BookOf(steps[0].trader), steps[0])
        && FaultlessRun(NextBooks(ledger, steps[0]), steps[1..]))
  }

  ghost predicate AllFollow(ledger: Ledger)
  {
    && WorldOk(ledger.world)
    && (forall trader :: Follows(ledger.world.tables, trader, ledger.world.PhaseOf(trader), ledger.BookOf(trader)))
  }

  lemma OtherFollowsStep(tables: Tables, phase: Phase, step: Step, other: TraderId, otherPhase: Phase, book: Book)
    requires ReferencesOk(tables) && Tolerated(tables, phase, step) && other != step.trader
    requires TraderOk(tables, step.trader, phase) && TraderOk(tables, other, otherPhase)
    requires IsNew(tables, phase, step)
    requires otherPhase.IsPending() ==> otherPhase.protocol !in NewProtocols(step)
    requires Follows(tables, other, otherPhase, book)
    ensures Follows(NextForTrader(tables, phase, step).0, other, otherPhase, book)
  {
    var after := NextForTrader(tables, phase, step).0;
    StepKeepsTrader(tables, phase, step);
    OthersStayOk(tables, after, step.trader, NewProtocols(step), other, otherPhase);
    OthersFollow(tables, after, step.trader, NewProtocols(step), other, otherPhase, book);
  }

  lemma OtherKeepsFollowing(ledger: Ledger, step: Step, trader: TraderId)
    requires AllFollow(ledger) && trader != step.trader
    requires StepTolerated(ledger.world, step)
    requires step.IsProposal() ==> ledger.world.IsFresh(step.proposal.id)
    ensures var after := NextBooks(ledger, step);
            Follows(after.world.tables, trader, after.world.PhaseOf(trader), after.BookOf(trader))
  {
    var world := ledger.world;
    assert TraderOk(world.tables, step.trader, world.PhaseOf(step.trader));
    assert TraderOk(world.tables, trader, world.PhaseOf(trader));
    OtherFollowsStep(world.tables, world.PhaseOf(step.trader), step, trader, world.PhaseOf(trader),
                     ledger.BookOf(trader));
  }

  lemma StepKeepsFollowing(ledger: Ledger, step: Step)
    requires AllFollow(ledger) && Faultless(ledger.world.tables, ledger.BookOf(step.trader), step)
    ensures AllFollow(NextBooks(ledger, step))
  {
    var world := ledger.world;
    var phase := world.PhaseOf(step.trader);
    FaultlessIsTolerated(world.tables, phase, ledger.BookOf(step.trader), step);
    StepKeepsWorld(world, step);
    if !step.IsProposal() || world.IsFresh(step.proposal.id) {
      var after := NextBooks(ledger, step);
      assert TraderOk(world.tables, step.trader, phase);
      StepFollows(world.tables, phase, ledger.BookOf(step.trader), step);
      forall trader: TraderId
        ensures Follows(after.world.tables, trader, after.world.PhaseOf(trader), after.BookOf(trader))
      {
        if trader != step.trader { OtherKeepsFollowing(ledger, step, trader); }
      }
    }
  }

  lemma {:induction false} RunKeepsFollowing(ledger: Ledger, steps: seq<Step>)
    requires AllFollow(ledger) && FaultlessRun(ledger, steps)
    ensures AllFollow(RunBooks(ledger, steps))
    ensures RunBooks(ledger, steps).world == Run(ledger.world, steps)
    decreases |steps|
  {
    if |steps| > 0 {
      StepKeepsFollowing(ledger, steps[0]);
      RunKeepsFollowing(NextBooks(ledger, steps[0]), steps[1..]);
    }
  }

  /** What following means for a trader whose channel is at rest: with a position, exactly one active row, which is
      open, holds the channel's position and is the sum of its trades; without one, no active row. */
  ghost predicate RestsOn(tables: Tables, trader: TraderId, book: Book)
  {
    var active := ActiveRow(tables, trader);
    match book
    case NoBook => active.None?
    case Awaiting(_, _) => true
    case Idle(channel) =>
      if channel.state.Settled? then active.None?
      else
        && active.Some?
        && tables.positions[active.value].state.Open?
        && tables.positions[active.value].position == channel.state.position
        && Recorded(tables.trades, active.value) == PositionTally(channel.state.position)
        && (forall j :: 0 <= j < |tables.positions| && IsActive(tables.positions[j], trader) ==> j == active.value)
  }

  lemma FollowingRests(tables: Tables, trader: TraderId, phase: Phase, book: Book)
    requires TraderOk(tables, trader, phase) && Follows(tables, trader, phase, book)
    ensures RestsOn(tables, trader, book)
  {
    var active := ActiveRow(tables, trader);
    if active.Some? {
      assert IsActive(tables.positions[active.value], trader) && RowAddsUp(tables, phase, active.value);
    }
  }

  /** In every run without a fault, of any number of traders, the database rests on the channels. */
  lemma DatabaseFollowsChannels(steps: seq<Step>, trader: TraderId)
    requires FaultlessRun(Ledger(EMPTY, map[]), steps)
    ensures var ledger := RunBooks(Ledger(EMPTY, map[]), steps);
            && ledger.world == Run(EMPTY, steps)
            && RestsOn(ledger.world.tables, trader, ledger.BookOf(trader))
  {
    var start := Ledger(EMPTY, map[]);
    RunKeepsFollowing(start, steps);
    var ledger := RunBooks(start, steps);
    var phase := ledger.world.PhaseOf(trader);
    assert TraderOk(ledger.world.tables, trader, phase);
    assert Follows(ledger.world.tables, trader, phase, ledger.BookOf(trader));
    FollowingRests(ledger.world.tables, trader, phase, ledger.BookOf(trader));
  }

  // ---------------------------------------------------------------- collateral

  /** The step charges no funding fee beyond the payer's margin, or closes the position. */
  predicate StepCovered(book: Book, step: Step, due: seq<int>)
  {
    book.Idle? ==>
      match step
      case TradeMatched(_, trade, _, _, _, _) =>
        var op := C.OrderMatched(trade, due);
        ChannelRuns.Closes(book.channel, op) || ChannelRuns.Created(book.channel, op) == 0
      case RolloverDue(_, _, _) => ChannelRuns.Created(book.channel, C.RolloverDue(due)) == 0
      case _ => true
  }

  predicate CoveredRun(ledger: Ledger, steps: seq<Step>)
    decreases |steps|
  {
    || |steps| == 0
    || (&& StepCovered(ledger.BookOf(steps[0].trader), steps[0], AmountsDue(ledger.world.tables, steps[0].trader))
        && CoveredRun(NextBooks(ledger, steps[0]), steps[1..]))
  }

  /** The pots of a book, and of the books it may turn into, are exactly the coins locked in the channel. */
  predicate Conserved(book: Book)
  {
    match book
    case NoBook => true
    case Idle(channel) => channel.Excess() == 0
    case Awaiting(before, target) => target.Excess() == 0 && (before.Some? ==> before.value.Excess() == 0)
  }

  lemma StepConserves(book: Book, step: Step, due: seq<int>)
    requires Conserved(book) && StepCovered(book, step, due)
    ensures Conserved(NextBook(book, step, due))
  {
    match step
    case TradeMatched(_, trade, _, coordinatorFunds, traderFunds, _) =>
      if book.NoBook? {
        C.OpeningSplitsCollateral(trade, coordinatorFunds, C.ForTradeCostAndTxFees(traderFunds));
      } else if book.Idle? {
        ChannelRuns.StepExcess(book.channel, C.OrderMatched(trade, due));
      }
    case RolloverDue(_, _, _) =>
      if book.Idle? { ChannelRuns.StepExcess(book.channel, C.RolloverDue(due)); }
    case _ =>
  }

  lemma {:induction false} RunConserves(ledger: Ledger, steps: seq<Step>)
    requires CoveredRun(ledger, steps)
    requires forall trader :: trader in ledger.books ==> Conserved(ledger.books[trader])
    ensures forall trader :: trader in RunBooks(ledger, steps).books
                             ==> Conserved(RunBooks(ledger, steps).books[trader])
    decreases |steps|
  {
    if |steps| > 0 {
      var due := AmountsDue(ledger.world.tables, steps[0].trader);
      StepConserves(ledger.BookOf(steps[0].trader), steps[0], due);
      RunConserves(NextBooks(ledger, steps[0]), steps[1..]);
    }
  }

  /** The margins in the database and the reserves in the channel are, at rest, exactly the coins that both parties
      locked up, if no funding fee ever exceeded its payer's margin. */
  lemma DatabaseConservesCollateral(steps: seq<Step>, trader: TraderId)
    requires FaultlessRun(Ledger(EMPTY, map[]), steps) && CoveredRun(Ledger(EMPTY, map[]), steps)
    ensures var ledger := RunBooks(Ledger(EMPTY, map[]), steps);
            var book := ledger.BookOf(trader);
            book.Idle? && book.channel.state.Established? ==>
              var active := ActiveRow(ledger.world.tables, trader);
              && active.Some?
              && var position := ledger.world.tables.positions[active.value].position;
                 position.traderMargin + position.coordinatorMargin
                 + book.channel.state.reserveTrader + book.channel.state.reserveCoordinator == book.channel.total
  {
    DatabaseFollowsChannels(steps, trader);
    RunConserves(Ledger(EMPTY, map[]), steps);
  }
}
