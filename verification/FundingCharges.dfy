/** Over every run: an event is charged by at most one protocol that finishes, unless a link to it is lost. */
module FundingCharges {
  import opened Wrappers
  import opened Schema
  import opened ProtocolRuns
  import opened Finishing
  import opened ProtocolRecords
  import ProtocolSafety

  /** The events that each protocol was started with. */
  type Charges = map<ProtocolId, set<nat>>

  function ToSet(events: seq<nat>): set<nat>
  {
    set e | e in events
  }

  /** The events that a step nets into its proposal, read off the tables before it. */
  function ChargedBy(tables: Tables, phase: Phase, step: Step): set<nat>
  {
    match step
    case TradeMatched(trader, _, _, _, _, _) =>
      var latest := LatestRow(tables.positions, trader, {Open});
      if phase.Established? && latest.Some? then ToSet(EventsDue(tables, latest.value)) else {}
    case RolloverDue(trader, _, _) =>
      var latest := LatestRow(tables.positions, trader, {Open, Rollover});
      if latest.Some? then ToSet(EventsDue(tables, latest.value)) else {}
    case _ => {}
  }

  function NextCharges(world: World, step: Step, charges: Charges): Charges
  {
    if step.IsProposal() && world.IsFresh(step.proposal.id)
       && step.proposal.id in Next(world, step).tables.protocols
    then
      charges[step.proposal.id := ChargedBy(world.tables, world.PhaseOf(step.trader), step)]
    else charges
  }

  function RunCharges(world: World, steps: seq<Step>, charges: Charges): Charges
    decreases |steps|
  {
    if |steps| == 0 then charges
    else RunCharges(Next(world, steps[0]), steps[1..], NextCharges(world, steps[0], charges))
  }

  // ---------------------------------------------------------------- the invariant

  /** Link ids come from a counter, and links refer to existing protocols. */
  predicate LinksOk(tables: Tables)
  {
    forall l :: l in tables.links ==> l < tables.nextLink && tables.links[l].protocol in tables.protocols
  }

  predicate PaysLinks(kind: ProtocolType)
  {
    kind in {ResizePosition, Settle, RolloverProtocol}
  }

  /** Every protocol has its charges; those of a kind that does not pay are empty. */
  predicate KeysOk(tables: Tables, charges: Charges)
  {
    && charges.Keys == tables.protocols.Keys
    && (forall p :: p in tables.protocols && !PaysLinks(tables.protocols[p].protocolType) ==> charges[p] == {})
  }

  /** The events are the trader's and not paid. */
  predicate AreDue(events: seq<FundingFeeEvent>, ids: set<nat>, trader: TraderId)
  {
    forall e :: e in ids ==> e < |events| && events[e].trader == trader && !events[e].paid
  }

  /** What an awaited protocol charges is still due, and it has links to nothing else. */
  ghost predicate AwaitedOk(tables: Tables, charges: Charges, trader: TraderId, phase: Phase)
  {
    phase.IsPending() && phase.protocol in tables.protocols ==>
      && phase.protocol in charges
      && EventsOf(tables.links, phase.protocol) <= charges[phase.protocol]
      && AreDue(tables.fundingFeeEvents, charges[phase.protocol], trader)
  }

  /** An awaited protocol that charges event `e` has a link to it. */
  predicate KeepsLink(tables: Tables, charges: Charges, phase: Phase, e: nat)
  {
    phase.IsPending() && phase.protocol in tables.protocols && phase.protocol in charges && e in charges[phase.protocol]
    ==> e in EventsOf(tables.links, phase.protocol)
  }

  predicate HasCharged(charges: Charges, p: ProtocolId, e: nat)
  {
    p in charges && e in charges[p]
  }

  /** Event `e` is paid if a finished protocol charged it, and no two of them did. */
  ghost predicate FinishedOk(tables: Tables, charges: Charges, finished: set<ProtocolId>, e: nat)
  {
    && finished <= tables.protocols.Keys
    && (forall p :: p in finished && HasCharged(charges, p, e) ==>
          e < |tables.fundingFeeEvents| && tables.fundingFeeEvents[e].paid)
    && (forall p, q :: p in finished && q in finished && HasCharged(charges, p, e) && HasCharged(charges, q, e)
                       ==> p == q)
  }

  ghost predicate ChargesOk(world: World, charges: Charges, finished: set<ProtocolId>, e: nat)
  {
    && LinksOk(world.tables) && KeysOk(world.tables, charges) && world.AwaitedApart()
    && FinishedOk(world.tables, charges, finished, e)
    && (forall trader :: trader in world.phases ==>
          && AwaitedOk(world.tables, charges, trader, world.phases[trader])
          && KeepsLink(world.tables, charges, world.phases[trader], e))
  }

  /** The protocols of any kind that have finished. */
  function NextFinished(world: World, step: Step, finished: set<ProtocolId>): set<ProtocolId>
  {
    var phase := world.PhaseOf(step.trader);
    if Finishes(world.tables, phase, step) then finished + {phase.protocol} else finished
  }

  function RunFinished(world: World, steps: seq<Step>, finished: set<ProtocolId>): set<ProtocolId>
    decreases |steps|
  {
    if |steps| == 0 then finished
    else RunFinished(Next(world, steps[0]), steps[1..], NextFinished(world, steps[0], finished))
  }

  /** The step does not delete a link to event `e` of a protocol that another trader still has to answer. */
  ghost predicate KeepsLinksTo(world: World, step: Step, e: nat)
  {
    var phase := world.PhaseOf(step.trader);
    step.Finalized? && phase.IsPending() ==>
      forall other, l :: other in world.phases && other != step.trader && l in world.tables.links
                         && world.phases[other].Awaits(world.tables.links[l].protocol)
                         && world.tables.links[l].event == e
                         ==> l !in EventsOf(world.tables.links, phase.protocol)
  }

  ghost predicate RunKeepsLinksTo(world: World, steps: seq<Step>, e: nat)
    decreases |steps|
  {
    |steps| == 0 || (KeepsLinksTo(world, steps[0], e) && RunKeepsLinksTo(Next(world, steps[0]), steps[1..], e))
  }

  // ---------------------------------------------------------------- proposals

  /** Linking adds the events to their protocol and to no other. */
  lemma {:induction false} LinkingAddsEvents(tables: Tables, protocol: ProtocolId, events: seq<nat>)
    requires LinksOk(tables) && protocol in tables.protocols
    ensures var after := AddLinks(tables, protocol, events);
            && LinksOk(after)
            && EventsOf(after.links, protocol) == EventsOf(tables.links, protocol) + ToSet(events)
            && (forall other :: other != protocol ==> EventsOf(after.links, other) == EventsOf(tables.links, other))
    decreases |events|
  {
    if |events| == 0 {
      assert ToSet(events) == {};
    } else {
      var one := tables.(links := tables.links[tables.nextLink := Link(protocol, events[0])],
                         nextLink := tables.nextLink + 1);
      OneLinkAddsEvent(tables, one, protocol, events[0]);
      LinkingAddsEvents(one, protocol, events[1..]);
      assert ToSet(events) == {events[0]} + ToSet(events[1..]);
    }
  }

  lemma OneLinkAddsEvent(tables: Tables, one: Tables, protocol: ProtocolId, event: nat)
    requires LinksOk(tables) && protocol in tables.protocols
    requires one == tables.(links := tables.links[tables.nextLink := Link(protocol, event)],
                            nextLink := tables.nextLink + 1)
    ensures LinksOk(one)
    ensures EventsOf(one.links, protocol) == EventsOf(tables.links, protocol) + {event}
    ensures forall other :: other != protocol ==> EventsOf(one.links, other) == EventsOf(tables.links, other)
  {
    assert tables.nextLink !in tables.links;
    assert forall l :: l in tables.links ==> one.links[l] == tables.links[l];
    assert one.links[tables.nextLink].event == event;
    forall e | e in EventsOf(tables.links, protocol) + {event} ensures e in EventsOf(one.links, protocol) {
      if e != event {
        var l :| l in tables.links && tables.links[l].protocol == protocol && tables.links[l].event == e;
        assert l in one.links;
      } else {
        assert tables.nextLink in one.links;
      }
    }
    forall other | other != protocol ensures EventsOf(one.links, other) == EventsOf(tables.links, other) {
      forall e | e in EventsOf(tables.links, other) ensures e in EventsOf(one.links, other) {
        var l :| l in tables.links && tables.links[l].protocol == other && tables.links[l].event == e;
        assert l in one.links;
      }
    }
  }

  /** What a proposal with these events does, if it is written at all. */
  ghost predicate Charged(tables: Tables, after: Tables, id: ProtocolId, events: set<nat>)
  {
    && Extends(tables, after) && LinksOk(after)
    && after.fundingFeeEvents == tables.fundingFeeEvents
    && after.protocols.Keys <= tables.protocols.Keys + {id}
    && (id in after.protocols ==>
          EventsOf(after.links, id) == events && (PaysLinks(after.protocols[id].protocolType) || events == {}))
    && (forall other :: other != id ==> EventsOf(after.links, other) == EventsOf(tables.links, other))
  }

  lemma NoLinksYet(tables: Tables, id: ProtocolId)
    requires LinksOk(tables) && id !in tables.protocols
    ensures EventsOf(tables.links, id) == {}
  {
  }

  lemma StartingCharges(
    tables: Tables, id: ProtocolId, row: ProtocolRow, trade: TradeRecord, events: seq<nat>,
    rows: seq<PositionRow>, stop: Stop
  )
    requires LinksOk(tables) && id !in tables.protocols
    requires PaysLinks(row.protocolType) || events == []
    requires !row.protocolType.Close?
    ensures Charged(tables, WriteProposal(tables, StartTradeProtocol(tables, id, row, trade, events), rows, stop),
                    id, ToSet(events))
  {
    StartingExtends(tables, id, row, trade, events, rows, stop);
    NoLinksYet(tables, id);
    LinkingAddsEvents(Create(tables, id, row), id, events);
  }

  lemma StartingRolloverCharges(
    tables: Tables, id: ProtocolId, row: ProtocolRow, params: RolloverParams, events: seq<nat>,
    rows: seq<PositionRow>, stop: Stop
  )
    requires LinksOk(tables) && id !in tables.protocols && row.protocolType.RolloverProtocol?
    ensures Charged(tables, WriteProposal(tables, StartRollover(tables, id, row, params, events), rows, stop),
                    id, ToSet(events))
  {
    StartingRolloverExtends(tables, id, row, params, events, rows, stop);
    NoLinksYet(tables, id);
    LinkingAddsEvents(Create(tables, id, row), id, events);
  }

  lemma TradeCharges(tables: Tables, phase: Phase, step: Step)
    requires step.TradeMatched? && LinksOk(tables) && step.proposal.id !in tables.protocols
    ensures Charged(tables, NextForTrader(tables, phase, step).0, step.proposal.id, ChargedBy(tables, phase, step))
  {
    var TradeMatched(trader, trade, proposal, coordinatorFunds, traderFunds, stop) := step;
    assert ToSet([]) == {};
    match phase
    case NoChannel =>
      StartingCharges(tables, proposal.id, ProtocolOf(trader, proposal, OpenChannel), RecordOf(trader, trade, None), [],
                      tables.positions + [NewRow(trader, trade, proposal)], stop);
    case Settled =>
      StartingCharges(tables, proposal.id, ProtocolOf(trader, proposal, OpenPosition), RecordOf(trader, trade, None),
                      [], tables.positions + [NewRow(trader, trade, proposal)], stop);
    case Established =>
      var latest := LatestRow(tables.positions, trader, {Open});
      if latest.Some? {
        EstablishedTradeCharges(tables, step, latest.value);
      }
    case _ =>
  }

  lemma EstablishedTradeCharges(tables: Tables, step: Step, i: nat)
    requires step.TradeMatched? && LinksOk(tables) && step.proposal.id !in tables.protocols
    requires LatestRow(tables.positions, step.trader, {Open}) == Some(i)
    ensures Charged(tables, NextForTrader(tables, Established, step).0, step.proposal.id, ToSet(EventsDue(tables, i)))
  {
    var TradeMatched(trader, trade, proposal, coordinatorFunds, traderFunds, stop) := step;
    if ActionFor(tables, i, trade).ClosePosition? {
      StartingCharges(tables, proposal.id, ProtocolOf(trader, proposal, Settle), RecordOf(trader, trade, None),
                      EventsDue(tables, i), SetClosing(tables.positions, trader, Some(trade.price)), stop);
    } else if ResizeFor(tables, i, trade, coordinatorFunds, traderFunds).Ok? {
      var resized := ResizeFor(tables, i, trade, coordinatorFunds, traderFunds).value;
      StartingCharges(tables, proposal.id, ProtocolOf(trader, proposal, ResizePosition),
                      RecordOf(trader, trade, resized.realizedPnl), EventsDue(tables, i),
                      SetResizing(tables.positions, trader, proposal.contract, resized, trade.matchingFee), stop);
    }
  }

  lemma ProposalCharges(tables: Tables, phase: Phase, step: Step)
    requires step.IsProposal() && LinksOk(tables) && step.proposal.id !in tables.protocols
    ensures Charged(tables, NextForTrader(tables, phase, step).0, step.proposal.id, ChargedBy(tables, phase, step))
  {
    match step
    case TradeMatched(_, _, _, _, _, _) => TradeCharges(tables, phase, step);
    case RolloverDue(_, _, _) => RolloverCharges(tables, phase, step);
    case CloseStarted(_, proposal) =>
      ProposalExtends(tables, phase, step);
      NoLinksYet(tables, proposal.id);
  }

  lemma RolloverCharges(tables: Tables, phase: Phase, step: Step)
    requires step.RolloverDue? && LinksOk(tables) && step.proposal.id !in tables.protocols
    ensures Charged(tables, NextForTrader(tables, phase, step).0, step.proposal.id, ChargedBy(tables, phase, step))
  {
    var RolloverDue(trader, proposal, stop) := step;
    var latest := LatestRow(tables.positions, trader, {Open, Rollover});
    if latest.Some? {
      StartingRolloverCharges(tables, proposal.id, ProtocolOf(trader, proposal, RolloverProtocol),
                              RolloverParamsFor(tables, latest.value), EventsDue(tables, latest.value),
                              SetState(tables.positions, trader, {Open}, Rollover), stop);
    }
  }

  /** What is charged is the trader's own and not paid. */
  lemma ChargesAreDue(tables: Tables, phase: Phase, step: Step)
    ensures AreDue(tables.fundingFeeEvents, ChargedBy(tables, phase, step), step.trader)
  {
  }

  lemma ChargedKeepsFinished(
    tables: Tables, after: Tables, id: ProtocolId, events: set<nat>, charges: Charges, finished: set<ProtocolId>, e: nat
  )
    requires Charged(tables, after, id, events) && id !in tables.protocols
    requires KeysOk(tables, charges) && FinishedOk(tables, charges, finished, e)
    ensures var next := if id in after.protocols then charges[id := events] else charges;
            KeysOk(after, next) && FinishedOk(after, next, finished, e)
  {
    var next := if id in after.protocols then charges[id := events] else charges;
    assert next.Keys == after.protocols.Keys;
    assert forall p :: p in finished ==> HasCharged(next, p, e) == HasCharged(charges, p, e);
  }

  lemma ChargedKeepsAwaited(
    tables: Tables, after: Tables, id: ProtocolId, events: set<nat>, charges: Charges, trader: TraderId, phase: Phase,
    e: nat
  )
    requires Charged(tables, after, id, events) && !phase.Awaits(id)
    requires AwaitedOk(tables, charges, trader, phase) && KeepsLink(tables, charges, phase, e)
    ensures var next := if id in after.protocols then charges[id := events] else charges;
            AwaitedOk(after, next, trader, phase) && KeepsLink(after, next, phase, e)
  {
  }

  // ---------------------------------------------------------------- answers

  predicate Pays(tables: Tables, after: Tables, paid: set<nat>)
  {
    && after.fundingFeeEvents == PayEvents(tables.fundingFeeEvents, paid)
    && after.links == tables.links - paid
    && after.nextLink == tables.nextLink
  }

  lemma MarkingPays(tables: Tables, unpaid: Tables, id: ProtocolId)
    requires unpaid.links == tables.links && unpaid.nextLink == tables.nextLink
    requires unpaid.fundingFeeEvents == tables.fundingFeeEvents
    ensures Pays(tables, MarkPaid(unpaid, id), EventsOf(tables.links, id))
  {
    assert tables.links - {} == tables.links;
  }

  lemma PayingNothing(tables: Tables, after: Tables)
    requires after.links == tables.links && after.nextLink == tables.nextLink
    requires after.fundingFeeEvents == tables.fundingFeeEvents
    ensures Pays(tables, after, {})
  {
    assert tables.links - {} == tables.links;
    assert PayEvents(tables.fundingFeeEvents, {}) == tables.fundingFeeEvents;
  }

  /** Finishing pays the protocol's linked events; opening a position and closing a channel pay none. */
  lemma FinishPays(
    tables: Tables, id: ProtocolId, trader: TraderId, contract: Option<ContractId>, channel: ChannelId
  )
    requires FinishDlcProtocol(tables, id, trader, contract, channel).Some?
    ensures Pays(tables, FinishDlcProtocol(tables, id, trader, contract, channel).value, PaidBy(tables, id))
  {
    var after := FinishDlcProtocol(tables, id, trader, contract, channel).value;
    match tables.protocols[id].protocolType
    case ResizePosition => ResizePays(tables, id, contract.value, channel);
    case Settle => SettlePays(tables, id, channel);
    case RolloverProtocol =>
      MarkingPays(tables,
                  SetSuccess(tables, id, contract, channel)
                    .(positions := SetRolledOver(tables.positions, trader, contract.value, tables.rolloverParams[id])),
                  id);
    case _ => PayingNothing(tables, after);
  }

  lemma ResizePays(tables: Tables, id: ProtocolId, contract: ContractId, channel: ChannelId)
    requires id in tables.protocols && id in tables.tradeParams
    requires FinishResizePosition(tables, id, tables.tradeParams[id], contract, channel).Some?
    ensures Pays(tables, FinishResizePosition(tables, id, tables.tradeParams[id], contract, channel).value,
                 EventsOf(tables.links, id))
  {
    var trade := tables.tradeParams[id];
    var i := FirstRow(tables.positions, trade.trader, {Resizing}).value;
    MarkingPays(tables,
                AddTrade(SetSuccess(tables, id, Some(contract), channel)
                           .(positions := SetState(tables.positions, trade.trader, {Resizing}, Open)), i, trade),
                id);
  }

  lemma SettlePays(tables: Tables, id: ProtocolId, channel: ChannelId)
    requires id in tables.protocols && id in tables.tradeParams
    requires FinishSettle(tables, id, tables.tradeParams[id], channel).Some?
    ensures Pays(tables, FinishSettle(tables, id, tables.tradeParams[id], channel).value, EventsOf(tables.links, id))
  {
    var trade := tables.tradeParams[id];
    var i := LatestRow(tables.positions, trade.trader, {Closing}).value;
    var pnl := SettledPnl(tables.positions[i], trade);
    var row := tables.positions[i].(state := Closed, realizedPnl := Some(pnl),
                                    closingPrice := Some(trade.averagePrice));
    MarkingPays(tables,
                AddTrade(SetSuccess(tables, id, tables.protocols[id].contract, channel)
                           .(positions := tables.positions[i := row]), i, trade.(traderPnl := Some(pnl))),
                id);
  }

  /** A protocol keeps its link to an event if none of its links to the event has the id of a paid one. */
  lemma PaymentKeepsEvent(links: map<nat, Link>, ids: set<nat>, other: ProtocolId, e: nat)
    requires forall l :: l in links && links[l].protocol == other && links[l].event == e ==> l !in ids
    ensures EventsOf(links - ids, other) <= EventsOf(links, other)
    ensures e in EventsOf(links, other) ==> e in EventsOf(links - ids, other)
  {
    if e in EventsOf(links, other) {
      var l :| l in links && links[l].protocol == other && links[l].event == e;
      assert l in links - ids;
    }
  }

  /** The event of a protocol that finishes was due, so no finished protocol had charged it; now it is paid. */
  lemma FinishKeepsFinished(
    tables: Tables, after: Tables, charges: Charges, finished: set<ProtocolId>, trader: TraderId, phase: Phase, e: nat
  )
    requires KeysOk(tables, charges) && FinishedOk(tables, charges, finished, e)
    requires phase.IsPending() && phase.protocol in tables.protocols && SucceedsAlone(tables, after, phase.protocol)
    requires AwaitedOk(tables, charges, trader, phase) && KeepsLink(tables, charges, phase, e)
    requires after.fundingFeeEvents == PayEvents(tables.fundingFeeEvents, PaidBy(tables, phase.protocol))
    ensures KeysOk(after, charges) && FinishedOk(after, charges, finished + {phase.protocol}, e)
  {
    SuccessKeepsKeys(tables, after, charges, phase.protocol);
    if HasCharged(charges, phase.protocol, e) {
      assert e in PaidBy(tables, phase.protocol);
    }
    OneMoreFinished(tables, after, charges, finished, phase.protocol, PaidBy(tables, phase.protocol), e);
  }

  lemma SuccessKeepsKeys(tables: Tables, after: Tables, charges: Charges, id: ProtocolId)
    requires KeysOk(tables, charges) && id in tables.protocols && SucceedsAlone(tables, after, id)
    ensures KeysOk(after, charges)
  {
    assert forall p :: p in tables.protocols ==> after.protocols[p].protocolType == tables.protocols[p].protocolType;
  }

  lemma OneMoreFinished(
    tables: Tables, after: Tables, charges: Charges, finished: set<ProtocolId>, id: ProtocolId, paid: set<nat>, e: nat
  )
    requires FinishedOk(tables, charges, finished, e)
    requires after.protocols.Keys == tables.protocols.Keys && id in tables.protocols
    requires after.fundingFeeEvents == PayEvents(tables.fundingFeeEvents, paid)
    requires HasCharged(charges, id, e) ==>
               e in paid && e < |tables.fundingFeeEvents| && !tables.fundingFeeEvents[e].paid
    ensures FinishedOk(after, charges, finished + {id}, e)
  {
    if HasCharged(charges, id, e) {
      DueIsNotCharged(tables, charges, finished, e);
    }
  }

  /** No finished protocol has charged an event that is not paid. */
  lemma DueIsNotCharged(tables: Tables, charges: Charges, finished: set<ProtocolId>, e: nat)
    requires FinishedOk(tables, charges, finished, e)
    requires e < |tables.fundingFeeEvents| && !tables.fundingFeeEvents[e].paid
    ensures forall p :: p in finished ==> !HasCharged(charges, p, e)
  {
  }

  /** Another trader's events are not paid by it. */
  lemma FinishKeepsAwaited(
    tables: Tables, after: Tables, charges: Charges, trader: TraderId, phase: Phase, other: TraderId, otherPhase: Phase,
    e: nat
  )
    requires AwaitedOk(tables, charges, trader, phase) && phase.IsPending() && phase.protocol in tables.protocols
    requires AwaitedOk(tables, charges, other, otherPhase) && other != trader && !otherPhase.Awaits(phase.protocol)
    requires KeepsLink(tables, charges, otherPhase, e)
    requires SucceedsAlone(tables, after, phase.protocol)
    requires after.fundingFeeEvents == PayEvents(tables.fundingFeeEvents, PaidBy(tables, phase.protocol))
    requires after.links == tables.links - PaidBy(tables, phase.protocol)
    requires forall l :: l in tables.links && otherPhase.Awaits(tables.links[l].protocol) && tables.links[l].event == e
                         ==> l !in EventsOf(tables.links, phase.protocol)
    ensures AwaitedOk(after, charges, other, otherPhase) && KeepsLink(after, charges, otherPhase, e)
  {
    if otherPhase.IsPending() && otherPhase.protocol in tables.protocols {
      PaymentKeepsEvent(tables.links, PaidBy(tables, phase.protocol), otherPhase.protocol, e);
      assert PaidBy(tables, phase.protocol) <= charges[phase.protocol];
      DueStaysDue(tables.fundingFeeEvents, charges[phase.protocol], trader, PaidBy(tables, phase.protocol),
                  charges[otherPhase.protocol], other);
    }
  }

  lemma DueStaysDue(
    events: seq<FundingFeeEvent>, charged: set<nat>, trader: TraderId, paid: set<nat>, due: set<nat>, other: TraderId
  )
    requires AreDue(events, charged, trader) && paid <= charged && AreDue(events, due, other) && trader != other
    ensures AreDue(PayEvents(events, paid), due, other)
  {
  }

  /** Links are as before, and no event is paid. */
  predicate PaysNothing(tables: Tables, after: Tables)
  {
    && after.links == tables.links && after.nextLink == tables.nextLink
    && tables.fundingFeeEvents <= after.fundingFeeEvents
    && after.protocols.Keys == tables.protocols.Keys
    && (forall id :: id in tables.protocols ==>
          after.protocols[id].protocolType == tables.protocols[id].protocolType)
  }

  lemma PayingNothingKeeps(tables: Tables, after: Tables, charges: Charges, finished: set<ProtocolId>, e: nat)
    requires PaysNothing(tables, after) && LinksOk(tables) && KeysOk(tables, charges)
    requires FinishedOk(tables, charges, finished, e)
    ensures LinksOk(after) && KeysOk(after, charges) && FinishedOk(after, charges, finished, e)
  {
  }

  lemma PayingNothingKeepsAwaited(
    tables: Tables, after: Tables, charges: Charges, trader: TraderId, phase: Phase, e: nat
  )
    requires PaysNothing(tables, after)
    requires AwaitedOk(tables, charges, trader, phase) && KeepsLink(tables, charges, phase, e)
    ensures AwaitedOk(after, charges, trader, phase) && KeepsLink(after, charges, phase, e)
  {
  }

  lemma FailingPaysNothing(tables: Tables, id: ProtocolId)
    ensures PaysNothing(tables, FailOrKeep(tables, id))
  {
  }

  lemma RejectingPaysNothing(tables: Tables, phase: Phase, trader: TraderId, crash: bool)
    requires phase.IsPending()
    ensures PaysNothing(tables, RejectTables(tables, phase, trader, crash))
  {
    FailingPaysNothing(tables, phase.protocol);
  }

  lemma UnfinishedPaysNothing(tables: Tables, phase: Phase, step: Step)
    requires !step.IsProposal() && !Finishes(tables, phase, step)
    ensures PaysNothing(tables, NextForTrader(tables, phase, step).0)
  {
    match step
    case Finalized(_, _, _, crash) => if phase.IsPending() { FailingPaysNothing(tables, phase.protocol); }
    case Rejected(trader, crash) => if phase.IsPending() { RejectingPaysNothing(tables, phase, trader, crash); }
    case MessageFailed(_, protocol) => FailingPaysNothing(tables, protocol);
    case _ =>
  }

  // ---------------------------------------------------------------- every run

  lemma FinishingStepKeeps(world: World, step: Step, charges: Charges, finished: set<ProtocolId>, e: nat)
    requires ChargesOk(world, charges, finished, e) && KeepsLinksTo(world, step, e)
    requires Finishes(world.tables, world.PhaseOf(step.trader), step)
    ensures ChargesOk(Next(world, step), charges, NextFinished(world, step, finished), e)
  {
    var phase := world.PhaseOf(step.trader);
    var after := Next(world, step);
    FinishSucceedsAlone(world.tables, phase.protocol, step.trader, step.contract, step.channel);
    FinishPays(world.tables, phase.protocol, step.trader, step.contract, step.channel);
    FinishKeepsFinished(world.tables, after.tables, charges, finished, step.trader, phase, e);
    ProtocolSafety.AwaitedStayApart(world, step);
    forall trader | trader in after.phases
      ensures AwaitedOk(after.tables, charges, trader, after.phases[trader])
              && KeepsLink(after.tables, charges, after.phases[trader], e)
    {
      FinishingKeepsTrader(world, step, charges, finished, trader, e);
    }
  }

  lemma FinishingKeepsTrader(
    world: World, step: Step, charges: Charges, finished: set<ProtocolId>, trader: TraderId, e: nat
  )
    requires ChargesOk(world, charges, finished, e) && KeepsLinksTo(world, step, e)
    requires Finishes(world.tables, world.PhaseOf(step.trader), step) && trader in Next(world, step).phases
    ensures var after := Next(world, step);
            && AwaitedOk(after.tables, charges, trader, after.phases[trader])
            && KeepsLink(after.tables, charges, after.phases[trader], e)
  {
    var phase := world.PhaseOf(step.trader);
    if trader != step.trader {
      FinishSucceedsAlone(world.tables, phase.protocol, step.trader, step.contract, step.channel);
      FinishPays(world.tables, phase.protocol, step.trader, step.contract, step.channel);
      FinishKeepsAwaited(world.tables, Next(world, step).tables, charges, step.trader, phase, trader,
                         world.phases[trader], e);
    }
  }

  lemma UnfinishedStepKeeps(world: World, step: Step, charges: Charges, finished: set<ProtocolId>, e: nat)
    requires ChargesOk(world, charges, finished, e) && !step.IsProposal()
    requires !Finishes(world.tables, world.PhaseOf(step.trader), step)
    ensures ChargesOk(Next(world, step), charges, finished, e)
  {
    var phase := world.PhaseOf(step.trader);
    var after := Next(world, step);
    UnfinishedPaysNothing(world.tables, phase, step);
    PayingNothingKeeps(world.tables, after.tables, charges, finished, e);
    ProtocolSafety.AwaitedStayApart(world, step);
    ProtocolSafety.NextAwaits(world.tables, phase, step);
    forall trader | trader in after.phases
      ensures AwaitedOk(after.tables, charges, trader, after.phases[trader])
              && KeepsLink(after.tables, charges, after.phases[trader], e)
    {
      if after.phases[trader].IsPending() {
        PayingNothingKeepsAwaited(world.tables, after.tables, charges, trader, after.phases[trader], e);
      }
    }
  }

  lemma ProposalKeepsAwaited(
    world: World, step: Step, charges: Charges, finished: set<ProtocolId>, trader: TraderId, e: nat
  )
    requires ChargesOk(world, charges, finished, e) && step.IsProposal() && trader in Next(world, step).phases
    requires world.IsFresh(step.proposal.id)
    ensures var after := Next(world, step);
            && AwaitedOk(after.tables, NextCharges(world, step, charges), trader, after.phases[trader])
            && KeepsLink(after.tables, NextCharges(world, step, charges), after.phases[trader], e)
  {
    var phase := world.PhaseOf(step.trader);
    var after := Next(world, step);
    var charged := ChargedBy(world.tables, phase, step);
    ProposalCharges(world.tables, phase, step);
    ChargesAreDue(world.tables, phase, step);
    ProtocolSafety.NextAwaits(world.tables, phase, step);
    if after.phases[trader].Awaits(step.proposal.id) {
      ProposalNeverAwaitsOthers(world, step, trader);
    } else if after.phases[trader].IsPending() {
      ChargedKeepsAwaited(world.tables, after.tables, step.proposal.id, charged, charges, trader,
                          after.phases[trader], e);
    }
  }

  /** Only the proposing trader can come to wait for the new protocol. */
  lemma ProposalNeverAwaitsOthers(world: World, step: Step, trader: TraderId)
    requires step.IsProposal() && world.IsFresh(step.proposal.id) && trader in Next(world, step).phases
    requires Next(world, step).phases[trader].Awaits(step.proposal.id)
    ensures trader == step.trader
  {
  }

  lemma ProposalStepKeeps(world: World, step: Step, charges: Charges, finished: set<ProtocolId>, e: nat)
    requires ChargesOk(world, charges, finished, e) && step.IsProposal() && world.IsFresh(step.proposal.id)
    ensures ChargesOk(Next(world, step), NextCharges(world, step, charges), finished, e)
  {
    var phase := world.PhaseOf(step.trader);
    var after := Next(world, step);
    ProposalCharges(world.tables, phase, step);
    ChargedKeepsFinished(world.tables, after.tables, step.proposal.id, ChargedBy(world.tables, phase, step), charges,
                         finished, e);
    ProtocolSafety.AwaitedStayApart(world, step);
    forall trader | trader in after.phases
      ensures AwaitedOk(after.tables, NextCharges(world, step, charges), trader, after.phases[trader])
              && KeepsLink(after.tables, NextCharges(world, step, charges), after.phases[trader], e)
    {
      ProposalKeepsAwaited(world, step, charges, finished, trader, e);
    }
  }

  lemma StepKeepsCharges(world: World, step: Step, charges: Charges, finished: set<ProtocolId>, e: nat)
    requires ChargesOk(world, charges, finished, e) && KeepsLinksTo(world, step, e)
    ensures ChargesOk(Next(world, step), NextCharges(world, step, charges), NextFinished(world, step, finished), e)
  {
    if step.IsProposal() {
      if world.IsFresh(step.proposal.id) {
        ProposalStepKeeps(world, step, charges, finished, e);
      }
    } else if Finishes(world.tables, world.PhaseOf(step.trader), step) {
      FinishingStepKeeps(world, step, charges, finished, e);
    } else {
      UnfinishedStepKeeps(world, step, charges, finished, e);
    }
  }

  lemma {:induction false} RunKeepsCharges(
    world: World, steps: seq<Step>, charges: Charges, finished: set<ProtocolId>, e: nat
  )
    requires ChargesOk(world, charges, finished, e) && RunKeepsLinksTo(world, steps, e)
    ensures ChargesOk(Run(world, steps), RunCharges(world, steps, charges), RunFinished(world, steps, finished), e)
    decreases |steps|
  {
    if |steps| > 0 {
      StepKeepsCharges(world, steps[0], charges, finished, e);
      RunKeepsCharges(Next(world, steps[0]), steps[1..], NextCharges(world, steps[0], charges),
                      NextFinished(world, steps[0], finished), e);
    }
  }

  /** In every run, with whatever stops and errors: an event to which no awaited protocol loses its link is paid when
      a protocol that charged it has finished, and no two protocols that finished charged it. */
  lemma EventIsChargedOnce(steps: seq<Step>, e: nat, p: ProtocolId, q: ProtocolId)
    requires RunKeepsLinksTo(ProtocolSafety.EMPTY, steps, e)
    requires p in RunFinished(ProtocolSafety.EMPTY, steps, {}) && q in RunFinished(ProtocolSafety.EMPTY, steps, {})
    requires HasCharged(RunCharges(ProtocolSafety.EMPTY, steps, map[]), p, e)
    requires HasCharged(RunCharges(ProtocolSafety.EMPTY, steps, map[]), q, e)
    ensures p == q
    ensures var events := Run(ProtocolSafety.EMPTY, steps).tables.fundingFeeEvents;
            e < |events| && events[e].paid
  {
    RunKeepsCharges(ProtocolSafety.EMPTY, steps, map[], {}, e);
  }

  /** Losing the link is the only way: when a protocol finishes, an event that was due before is still due, and so
      goes into the next proposal for the position, exactly when the protocol has no link to it (any more). */
  lemma ChargedEventStaysDueIff(
    tables: Tables, id: ProtocolId, trader: TraderId, contract: Option<ContractId>, channel: ChannelId,
    i: nat, e: nat
  )
    requires FinishDlcProtocol(tables, id, trader, contract, channel).Some?
    requires PaysLinks(tables.protocols[id].protocolType)
    requires i < |tables.positions| && e in EventsDue(tables, i)
    ensures var after := FinishDlcProtocol(tables, id, trader, contract, channel).value;
            && i < |after.positions|
            && (e in EventsDue(after, i) <==> e !in EventsOf(tables.links, id))
  {
    FinishPays(tables, id, trader, contract, channel);
    FinishKeepsTraders(tables, id, trader, contract, channel);
  }

  lemma FinishKeepsTraders(
    tables: Tables, id: ProtocolId, trader: TraderId, contract: Option<ContractId>, channel: ChannelId
  )
    requires FinishDlcProtocol(tables, id, trader, contract, channel).Some?
    ensures var after := FinishDlcProtocol(tables, id, trader, contract, channel).value;
            && |after.positions| == |tables.positions|
            && (forall i :: 0 <= i < |tables.positions| ==> after.positions[i].trader == tables.positions[i].trader)
  {
    if CarriesTrade(tables.protocols[id].protocolType) {
      FinishMovesEverythingTogether(tables, id, trader, contract, channel);
    }
  }
}
