/** The coordinator as it runs: its mailbox and its traders' channels. Whatever is received, refused, lost or delivered
    again, its tables go through a run of protocol steps. */
module Refinement {
  import opened Wrappers
  import opened Schema
  import opened Messages
  import opened Inbound
  import opened ProtocolInvariant
  import opened ProtocolSafety
  import opened ProtocolRecords
  import P = ProtocolRuns
  import Finishing

  datatype System = System(box: Mailbox, phases: map<TraderId, P.Phase>) {
    function World(): P.World
    {
      P.World(box.tables, phases)
    }

    function PhaseOf(trader: TraderId): P.Phase
    {
      World().PhaseOf(trader)
    }
  }

  const START: System := System(Mailbox(EMPTY_OUTBOX, EMPTY.tables, []), map[])

  /** A step of the coordinator's own, a delivery, or an action on the outgoing messages. */
  datatype Occurrence =
    | Own(step: P.Step)
    | Arrived(received: Received, around: Surroundings)
    | Outgoing(action: Action)

  /** The trader's channel after a delivery: the DLC library moves it when it accepts a last message or a rejection,
      whether or not the coordinator then records the message. */
  function ChannelAfter(box: Mailbox, phase: P.Phase, received: Received, around: Surroundings): P.Phase
  {
    if IsKnown(box, received) || !around.accepted then phase
    else if IsLastMessage(received.message.kind) then phase.Accepted()
    else if received.message.kind.Reject? then phase.Refused()
    else phase
  }

  function Next(system: System, occurrence: Occurrence): System
  {
    match occurrence
    case Own(step) =>
      var world := P.Next(system.World(), step);
      System(system.box.(tables := world.tables), world.phases)
    case Arrived(received, around) =>
      var next := ChannelAfter(system.box, system.PhaseOf(received.peer), received, around);
      System(Deliver(system.box, received, around), system.phases[received.peer := next])
    case Outgoing(action) => system.(box := system.box.(outbox := Act(system.box.outbox, action)))
  }

  function Run(system: System, occurrences: seq<Occurrence>): System
    decreases |occurrences|
  {
    if |occurrences| == 0 then system else Run(Next(system, occurrences[0]), occurrences[1..])
  }

  // ---------------------------------------------------------------- the steps of a delivery

  predicate IsAnswer(kind: MessageKind)
  {
    IsLastMessage(kind) || kind.Reject?
  }

  predicate StartsClosing(tables: Tables, received: Received, around: Surroundings)
  {
    received.message.kind.CollaborativeCloseOffer? && VerifyCloseOffer(tables, received, around).Some?
  }

  /** What the DLC library and the app see to: the library accepts a last message or a rejection only for the protocol
      that the channel waits for, the app names that protocol, and an offer to close has a new id. */
  predicate IsPlausible(system: System, received: Received, around: Surroundings)
  {
    var phase := system.PhaseOf(received.peer);
    && (!IsKnown(system.box, received) && around.accepted && IsAnswer(received.message.kind) ==>
          && phase.IsPending() && received.reference == Some(phase.protocol)
          && (received.message.kind.Reject? ==> around.state == RefusedChannelState(phase)))
    && (!IsKnown(system.box, received) && StartsClosing(system.box.tables, received, around) ==>
          system.World().IsFresh(received.reference.value))
  }

  function Failing(received: Received): seq<P.Step>
  {
    if received.reference.Some? then [P.MessageFailed(received.peer, received.reference.value)] else []
  }

  function ClosingStep(received: Received, around: Surroundings): P.Step
    requires received.reference.Some?
  {
    P.CloseStarted(received.peer, P.Proposal(received.reference.value, around.previous, 0, around.channel, 0))
  }

  function AnswerStep(received: Received, around: Surroundings): P.Step
  {
    if received.message.kind.Reject? then P.Rejected(received.peer, around.insertFails)
    else P.Finalized(received.peer, ContractFor(received, around), around.channel, around.insertFails)
  }

  /** The step that comes before an error, if there is one. A message that the channel has moved on but that cannot be
      recorded answers its protocol like a stop of the coordinator does. */
  function FirstStep(box: Mailbox, received: Received, around: Surroundings): seq<P.Step>
  {
    if StartsClosing(box.tables, received, around) then [ClosingStep(received, around)]
    else if around.accepted && IsAnswer(received.message.kind) then [AnswerStep(received, around)]
    else []
  }

  /** The protocol steps that a delivery takes. */
  function StepsOf(box: Mailbox, received: Received, around: Surroundings): seq<P.Step>
  {
    if IsKnown(box, received) then []
    else FirstStep(box, received, around) + if Process(box, received, around).1 then [] else Failing(received)
  }

  // ---------------------------------------------------------------- one delivery

  /** The same tables, and the same phase of every trader's channel. */
  ghost predicate SameWorld(a: P.World, b: P.World)
  {
    a.tables == b.tables && forall trader: TraderId :: a.PhaseOf(trader) == b.PhaseOf(trader)
  }

  lemma NextIsSame(a: P.World, b: P.World, step: P.Step)
    requires SameWorld(a, b)
    ensures SameWorld(P.Next(a, step), P.Next(b, step))
  {
    if step.IsProposal() {
      FreshIff(a, step.proposal.id);
      FreshIff(b, step.proposal.id);
    }
    assert a.PhaseOf(step.trader) == b.PhaseOf(step.trader);
    forall trader: TraderId ensures P.Next(a, step).PhaseOf(trader) == P.Next(b, step).PhaseOf(trader) {
      assert a.PhaseOf(trader) == b.PhaseOf(trader);
    }
  }

  lemma FreshIff(world: P.World, id: ProtocolId)
    ensures world.IsFresh(id)
            <==> id !in world.tables.protocols && forall trader: TraderId :: !world.PhaseOf(trader).Awaits(id)
  {
    if forall trader: TraderId :: !world.PhaseOf(trader).Awaits(id) {
      forall trader | trader in world.phases ensures !world.phases[trader].Awaits(id) {
        assert !world.PhaseOf(trader).Awaits(id);
      }
    }
  }

  lemma {:induction false} RunIsSame(a: P.World, b: P.World, steps: seq<P.Step>)
    requires SameWorld(a, b)
    ensures SameWorld(P.Run(a, steps), P.Run(b, steps))
    decreases |steps|
  {
    if |steps| > 0 {
      NextIsSame(a, b, steps[0]);
      RunIsSame(P.Next(a, steps[0]), P.Next(b, steps[0]), steps[1..]);
    }
  }

  lemma {:induction false} RunAppends(world: P.World, first: seq<P.Step>, rest: seq<P.Step>)
    ensures P.Run(world, first + rest) == P.Run(P.Run(world, first), rest)
    decreases |first|
  {
    if |first| == 0 {
      assert first + rest == rest;
    } else {
      assert (first + rest)[1..] == first[1..] + rest;
      RunAppends(P.Next(world, first[0]), first[1..], rest);
    }
  }

  /** The world after the error of a message. */
  lemma FailingRun(world: P.World, received: Received)
    ensures SameWorld(P.Run(world, Failing(received)),
                      world.(tables := if received.reference.Some?
                                       then P.FailOrKeep(world.tables, received.reference.value)
                                       else world.tables))
  {
    if received.reference.Some? {
      OneStep(world, P.MessageFailed(received.peer, received.reference.value));
    }
  }

  lemma OneStep(world: P.World, step: P.Step)
    ensures P.Run(world, [step]) == P.Next(world, step)
  {
  }

  lemma FailingAgainChangesNothing(tables: Tables, id: ProtocolId)
    ensures P.FailOrKeep(P.FailOrKeep(tables, id), id) == P.FailOrKeep(tables, id)
  {
    if id in tables.protocols {
      var failed := P.FailOrKeep(tables, id);
      assert failed.protocols[id := failed.protocols[id].(state := Failure)] == failed.protocols;
    }
  }

  /** The first step of a delivery of a last message, without the error that may follow. */
  lemma AnswerStepAgrees(system: System, received: Received, around: Surroundings)
    requires IsPlausible(system, received, around) && !IsKnown(system.box, received)
    requires around.accepted && IsAnswer(received.message.kind)
    ensures var world := P.Next(system.World(), AnswerStep(received, around));
            var (after, ok) := Process(system.box, received, around);
            && world.phases == Next(system, Arrived(received, around)).phases
            && Next(system, Arrived(received, around)).box.tables
               == if ok then world.tables else P.FailOrKeep(world.tables, received.reference.value)
  {
    var phase := system.PhaseOf(received.peer);
    var tables := system.box.tables;
    if around.insertFails {
      FailingAgainChangesNothing(tables, phase.protocol);
    } else if received.message.kind.Reject? {
      RejectMessageAgrees(system.box, received, around, phase);
      RejectedHasFailed(tables, phase, received.peer);
    } else {
      FinalizeMessageAgrees(system.box, received, around, phase);
      FinalizingFailed(system.box, received, around, phase);
    }
  }

  lemma RejectedHasFailed(tables: Tables, phase: P.Phase, trader: TraderId)
    requires phase.IsPending()
    ensures var rejected := P.RejectTables(tables, phase, trader, false);
            P.FailOrKeep(rejected, phase.protocol) == rejected
  {
    FailingAgainChangesNothing(tables, phase.protocol);
    var rejected := P.RejectTables(tables, phase, trader, false);
    if phase.protocol in tables.protocols {
      assert rejected.protocols[phase.protocol := rejected.protocols[phase.protocol].(state := Failure)]
             == rejected.protocols;
    }
  }

  lemma FinalizingFailed(box: Mailbox, received: Received, around: Surroundings, phase: P.Phase)
    requires phase.IsPending() && received.reference == Some(phase.protocol)
    requires IsDispatched(box, received, around) && IsLastMessage(received.message.kind)
    ensures var finalized :=
              P.FinalizeTables(box.tables, phase, received.peer, ContractFor(received, around), around.channel);
            Process(box, received, around).1 || P.FailOrKeep(finalized, phase.protocol) == finalized
  {
    LastMessageFinishes(box.tables, received, around);
    FailingAgainChangesNothing(box.tables, phase.protocol);
  }

  lemma ClosingStepAgrees(system: System, received: Received, around: Surroundings)
    requires IsPlausible(system, received, around) && !IsKnown(system.box, received)
    requires StartsClosing(system.box.tables, received, around)
    ensures var world := P.Next(system.World(), ClosingStep(received, around));
            var (after, ok) := Process(system.box, received, around);
            && SameWorld(world, system.World().(tables := world.tables))
            && Next(system, Arrived(received, around)).box.tables
               == if ok then world.tables else P.FailOrKeep(world.tables, received.reference.value)
  {
  }

  lemma FirstStepAgrees(system: System, received: Received, around: Surroundings)
    requires IsPlausible(system, received, around) && !IsKnown(system.box, received)
    ensures var world := P.Run(system.World(), FirstStep(system.box, received, around));
            var next := Next(system, Arrived(received, around));
            && SameWorld(world, next.World().(tables := world.tables))
            && next.box.tables
               == if Process(system.box, received, around).1 || received.reference.None? then world.tables
                  else P.FailOrKeep(world.tables, received.reference.value)
  {
    if StartsClosing(system.box.tables, received, around) {
      OneStep(system.World(), ClosingStep(received, around));
      ClosingStepAgrees(system, received, around);
    } else if around.accepted && IsAnswer(received.message.kind) {
      OneStep(system.World(), AnswerStep(received, around));
      AnswerStepAgrees(system, received, around);
    }
  }

  lemma StepsInTurn(system: System, received: Received, around: Surroundings)
    requires !IsKnown(system.box, received)
    ensures var first := P.Run(system.World(), FirstStep(system.box, received, around));
            P.Run(system.World(), StepsOf(system.box, received, around))
            == if Process(system.box, received, around).1 then first else P.Run(first, Failing(received))
  {
    var rest := if Process(system.box, received, around).1 then [] else Failing(received);
    RunAppends(system.World(), FirstStep(system.box, received, around), rest);
  }

  /** A delivery does to the tables and to the channels what its steps do. */
  lemma DeliveryIsSteps(system: System, received: Received, around: Surroundings)
    requires IsPlausible(system, received, around)
    ensures SameWorld(Next(system, Arrived(received, around)).World(),
                      P.Run(system.World(), StepsOf(system.box, received, around)))
  {
    if !IsKnown(system.box, received) {
      StepsInTurn(system, received, around);
      FirstStepAgrees(system, received, around);
      FailingRun(P.Run(system.World(), FirstStep(system.box, received, around)), received);
    }
  }

  // ---------------------------------------------------------------- every run

  predicate ArePlausible(system: System, occurrences: seq<Occurrence>)
    decreases |occurrences|
  {
    |occurrences| == 0
    || (&& (occurrences[0].Arrived? ==> IsPlausible(system, occurrences[0].received, occurrences[0].around))
        && ArePlausible(Next(system, occurrences[0]), occurrences[1..]))
  }

  function StepsFor(system: System, occurrence: Occurrence): seq<P.Step>
  {
    match occurrence
    case Own(step) => [step]
    case Arrived(received, around) => StepsOf(system.box, received, around)
    case Outgoing(_) => []
  }

  function RunSteps(system: System, occurrences: seq<Occurrence>): seq<P.Step>
    decreases |occurrences|
  {
    if |occurrences| == 0 then []
    else StepsFor(system, occurrences[0]) + RunSteps(Next(system, occurrences[0]), occurrences[1..])
  }

  lemma OccurrenceIsSteps(system: System, occurrence: Occurrence)
    requires occurrence.Arrived? ==> IsPlausible(system, occurrence.received, occurrence.around)
    ensures SameWorld(Next(system, occurrence).World(), P.Run(system.World(), StepsFor(system, occurrence)))
  {
    match occurrence
    case Own(step) => OneStep(system.World(), step);
    case Arrived(received, around) => DeliveryIsSteps(system, received, around);
    case Outgoing(_) =>
  }

  /** A run of the coordinator with its mailbox ends in the tables and channels in which its protocol steps end. */
  lemma {:induction false} RunIsSteps(system: System, occurrences: seq<Occurrence>)
    requires ArePlausible(system, occurrences)
    ensures SameWorld(Run(system, occurrences).World(), P.Run(system.World(), RunSteps(system, occurrences)))
    decreases |occurrences|
  {
    if |occurrences| > 0 {
      var next := Next(system, occurrences[0]);
      var first := StepsFor(system, occurrences[0]);
      var rest := RunSteps(next, occurrences[1..]);
      OccurrenceIsSteps(system, occurrences[0]);
      RunIsSteps(next, occurrences[1..]);
      RunAppends(system.World(), first, rest);
      RunIsSame(next.World(), P.Run(system.World(), first), rest);
    }
  }

  /** Whatever is received, in whatever order and however often: the trades are those of the finished protocols. */
  lemma ReceivedTradesAreFinishedProtocols(occurrences: seq<Occurrence>)
    requires ArePlausible(START, occurrences)
    ensures OwnTrades(Run(START, occurrences).box.tables, RunOwners(EMPTY, RunSteps(START, occurrences), []))
  {
    RunIsSteps(START, occurrences);
    TradesAreFinishedProtocols(RunSteps(START, occurrences));
  }

  /** And with tolerated stops, positions are the sum of their trades, a resizing one misses the trade of an unfinished
      resize, and no trader has two active ones. */
  lemma ReceivedPositionsAreTheirTrades(occurrences: seq<Occurrence>, i: nat, j: nat)
    requires ArePlausible(START, occurrences) && RunTolerated(EMPTY, RunSteps(START, occurrences))
    requires var rows := Run(START, occurrences).box.tables.positions; i < |rows| && j < |rows|
    ensures var tables := Run(START, occurrences).box.tables;
            && IsSumOfTrades(tables, i)
            && MissesUnfinished(tables, RunOwners(EMPTY, RunSteps(START, occurrences), []), i)
            && ((IsActive(tables.positions[i], tables.positions[j].trader)
                 && IsActive(tables.positions[j], tables.positions[j].trader)) ==> i == j)
  {
    RunIsSteps(START, occurrences);
    PositionsAreTheirTrades(RunSteps(START, occurrences), i, j);
  }

  /** A delivery is tolerated unless it is of a message that cannot be recorded although the channel has moved on, and
      the message either ends a settlement or rejects an opening of a trader with an active position. */
  lemma DeliveryToleratedIff(system: System, received: Received, around: Surroundings)
    requires IsPlausible(system, received, around)
    ensures var phase := system.PhaseOf(received.peer);
            RunTolerated(system.World(), StepsOf(system.box, received, around))
            <==> !(&& !IsKnown(system.box, received) && around.accepted && around.insertFails
                   && HasActiveRow(system.box.tables, received.peer)
                   && (|| (IsLastMessage(received.message.kind) && phase.SettleOffered?)
                       || (received.message.kind.Reject? && !phase.Refused().Established?)))
  {
    if !IsKnown(system.box, received) {
      var first := FirstStep(system.box, received, around);
      var rest := if Process(system.box, received, around).1 then [] else Failing(received);
      if |first| > 0 {
        assert (first + rest)[1..] == rest;
        FailingIsTolerated(P.Next(system.World(), first[0]), received);
      } else {
        assert first + rest == rest;
        FailingIsTolerated(system.World(), received);
      }
    }
  }

  lemma FailingIsTolerated(world: P.World, received: Received)
    ensures RunTolerated(world, Failing(received))
  {
    if received.reference.Some? {
      assert Failing(received)[1..] == [];
    }
  }

  // ---------------------------------------------------------------- staying in success

  /** The bijection between the trades and the protocols in `Success` survives a delivery exactly when the delivery is
      not an error of a message that names one of these protocols. */
  lemma DeliveryKeepsSuccessIff(system: System, received: Received, around: Surroundings, owners: seq<ProtocolId>)
    requires IsPlausible(system, received, around)
    requires RecordsOk(system.World(), owners) && AllSucceed(system.box.tables, owners)
    ensures var after := Next(system, Arrived(received, around)).box.tables;
            var finished := RunOwners(system.World(), StepsOf(system.box, received, around), owners);
            && OwnTrades(after, finished)
            && (AllSucceed(after, finished)
                <==> !(FailsProtocol(system.box, received, around) && received.reference.value in owners))
  {
    var after := Next(system, Arrived(received, around)).box.tables;
    var finished := RunOwners(system.World(), StepsOf(system.box, received, around), owners);
    RecordsAfterDelivery(system, received, around, owners);
    OwnersOfDelivery(system, received, around, owners);
    var named := if FailsProtocol(system.box, received, around) then received.reference else None;
    forall p | p in owners ensures p in after.protocols && (after.protocols[p].state == Success <==> named != Some(p)) {
      var k :| 0 <= k < |owners| && owners[k] == p;
      OwnerStaysInSuccessIff(system, received, around, owners, p);
    }
    AllSucceedIff(after, owners, finished, named);
  }

  lemma RecordsAfterDelivery(system: System, received: Received, around: Surroundings, owners: seq<ProtocolId>)
    requires IsPlausible(system, received, around) && RecordsOk(system.World(), owners)
    ensures OwnTrades(Next(system, Arrived(received, around)).box.tables,
                      RunOwners(system.World(), StepsOf(system.box, received, around), owners))
  {
    DeliveryIsSteps(system, received, around);
    RunKeepsRecords(system.World(), StepsOf(system.box, received, around), owners);
  }

  lemma AllSucceedIff(
    tables: Tables, owners: seq<ProtocolId>, finished: seq<ProtocolId>, named: Option<ProtocolId>
  )
    requires OwnTrades(tables, finished) && owners <= finished
    requires forall p :: p in finished[|owners|..] ==> p in tables.protocols && tables.protocols[p].state == Success
    requires forall p :: p in owners ==>
               p in tables.protocols && (tables.protocols[p].state == Success <==> named != Some(p))
    ensures AllSucceed(tables, finished) <==> !(named.Some? && named.value in owners)
  {
    forall k | 0 <= k < |finished|
      ensures OwnsTrade(tables, finished[k], tables.trades[k])
              && (SucceededTrade(tables.protocols[finished[k]])
                  <==> !(k < |owners| && named == Some(finished[k])))
    {
      if k >= |owners| {
        assert finished[k] == finished[|owners|..][k - |owners|];
      } else {
        assert finished[k] == owners[k];
      }
    }
    if named.Some? && named.value in owners {
      var k :| 0 <= k < |owners| && owners[k] == named.value;
      assert finished[k] == named.value;
    }
  }

  lemma OwnerStaysInSuccessIff(
    system: System, received: Received, around: Surroundings, owners: seq<ProtocolId>, p: ProtocolId
  )
    requires IsPlausible(system, received, around) && RecordsOk(system.World(), owners) && p in owners
    requires p in system.box.tables.protocols && system.box.tables.protocols[p].state == Success
    ensures var after := Next(system, Arrived(received, around)).box.tables;
            && p in after.protocols
            && (after.protocols[p].state == Success
                <==> !(FailsProtocol(system.box, received, around) && received.reference.value == p))
  {
    DeliveryTakesSuccessIff(system.box, received, around, p);
    assert !system.PhaseOf(received.peer).Awaits(p);
  }

  /** At most one protocol finishes in a delivery, and then it succeeds. */
  lemma OwnersOfDelivery(system: System, received: Received, around: Surroundings, owners: seq<ProtocolId>)
    requires IsPlausible(system, received, around) && RecordsOk(system.World(), owners)
    ensures var after := Next(system, Arrived(received, around)).box.tables;
            var finished := RunOwners(system.World(), StepsOf(system.box, received, around), owners);
            || finished == owners
            || (&& received.reference.Some? && finished == owners + [received.reference.value]
                && received.reference.value in after.protocols
                && after.protocols[received.reference.value].state == Success)
  {
    if !IsKnown(system.box, received) {
      var first := FirstStep(system.box, received, around);
      var rest := if Process(system.box, received, around).1 then [] else Failing(received);
      if |first| > 0 {
        assert (first + rest)[1..] == rest;
        FailingFinishesNothing(P.Next(system.World(), first[0]), received,
                               NextOwners(system.World(), first[0], owners));
        if Finishes(system.box.tables, system.PhaseOf(received.peer), first[0]) {
          FinishingDeliverySucceeds(system, received, around);
        }
      } else {
        assert first + rest == rest;
        FailingFinishesNothing(system.World(), received, owners);
      }
    }
  }

  lemma FailingFinishesNothing(world: P.World, received: Received, owners: seq<ProtocolId>)
    ensures RunOwners(world, Failing(received), owners) == owners
  {
    if received.reference.Some? {
      assert Failing(received)[1..] == [];
    }
  }

  lemma FinishingDeliverySucceeds(system: System, received: Received, around: Surroundings)
    requires IsPlausible(system, received, around) && !IsKnown(system.box, received)
    requires around.accepted && IsAnswer(received.message.kind)
    requires Finishes(system.box.tables, system.PhaseOf(received.peer), AnswerStep(received, around))
    ensures var after := Next(system, Arrived(received, around)).box.tables;
            && Process(system.box, received, around).1
            && received.reference.value in after.protocols
            && after.protocols[received.reference.value].state == Success
  {
    var phase := system.PhaseOf(received.peer);
    LastMessageFinishes(system.box.tables, received, around);
    DispatchedDelivery(system.box, received, around);
    Finishing.FinishSucceedsAlone(system.box.tables, phase.protocol, received.peer, ContractFor(received, around),
                                  around.channel);
  }
}
