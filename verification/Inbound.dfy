/** Processing received messages: each is recorded by its hash before it takes effect, so it takes effect at most
    once, and possibly never. */
module Inbound {
  import opened Wrappers
  import opened Schema
  import opened Messages
  import opened Db
  import Finishing
  import P = ProtocolRuns
  import T = Trade

  /** A received message. The reference id names the protocol, unless the app is too old to send it. */
  datatype Received = Received(peer: Peer, message: Message, reference: Option<ProtocolId>)

  datatype ChannelState = Cancelled | Established | Settled | Other

  /** The channel of an offer to close, before the offer is processed. */
  datatype ClosingChannel =
    | NoSuchChannel
    | EstablishedChannel
    | SettledChannel(expectedPayout: nat, offeredPayout: nat)
    | OtherChannel

  /** What lies outside the tables: the channel before the message, and the DLC library's answer and channel after
      it. */
  datatype Surroundings = Surroundings(
    closing: ClosingChannel, previous: Option<ProtocolId>,
    accepted: bool, response: Option<Message>, insertFails: bool,
    fallback: Option<ProtocolId>, contract: Option<ContractId>, channel: ChannelId, state: ChannelState,
    closeAccepted: bool
  )

  datatype Mailbox = Mailbox(outbox: Outbox, tables: Tables, published: seq<Event>)

  function ReferenceOf(received: Received, around: Surroundings): Option<ProtocolId>
  {
    if received.reference.Some? then received.reference else around.fallback
  }

  /** A settled channel has no contract to report. */
  function ContractFor(received: Received, around: Surroundings): Option<ContractId>
  {
    if received.message.kind.SettleFinalize? then None else around.contract
  }

  /** `verify_collab_close_offer`, which also starts the protocol. */
  function VerifyCloseOffer(tables: Tables, received: Received, around: Surroundings): Option<Tables>
  {
    if !received.message.kind.CollaborativeCloseOffer? then Some(tables)
    else if around.closing.NoSuchChannel? || around.closing.EstablishedChannel? then None
    else if around.closing.SettledChannel? && around.closing.expectedPayout != around.closing.offeredPayout then None
    else if received.reference.None? || !CanCreate(tables, received.reference.value, around.previous) then None
    else
      Some(Create(tables, received.reference.value,
                  ProtocolRow(around.previous, around.channel, None, Pending, received.peer, Close)))
  }

  function UpdatePositions(tables: Tables, trader: TraderId, from: set<PositionState>, to: PositionState):
    (Tables, bool)
  {
    (tables.(positions := SetState(tables.positions, trader, from, to)), FirstRow(tables.positions, trader, from).Some?)
  }

  /** A rejection fails the protocol and then moves the position, depending on what the channel is back to. */
  function AfterReject(tables: Tables, trader: TraderId, id: ProtocolId, state: ChannelState): (Tables, bool)
  {
    match FailProtocol(tables, id)
    case None => (tables, false)
    case Some(failed) =>
      match state
      case Cancelled => UpdatePositions(failed, trader, {Proposed}, Failed)
      case Established => UpdatePositions(failed, trader, {Closing, Rollover}, Open)
      case Settled => UpdatePositions(failed, trader, {Proposed}, Failed)
      case Other => (failed, true)
  }

  function AfterFinish(
    tables: Tables, id: Option<ProtocolId>, trader: TraderId, contract: Option<ContractId>, channel: ChannelId
  ): (Tables, bool)
  {
    if id.None? then (tables, false)
    else
      match FinishDlcProtocol(tables, id.value, trader, contract, channel)
      case None => (tables, false)
      case Some(finished) => (finished, true)
  }

  /** The effects of a message once it is recorded. */
  function Dispatch(tables: Tables, received: Received, around: Surroundings): (Tables, bool)
  {
    var id := ReferenceOf(received, around);
    match received.message.kind
    case RenewFinalize | RolloverFinalize | Accept =>
      AfterFinish(tables, id, received.peer, around.contract, around.channel)
    case SettleFinalize => AfterFinish(tables, id, received.peer, None, around.channel)
    case CollaborativeCloseOffer => (tables, around.closeAccepted)
    case Reject => if id.None? then (tables, false) else AfterReject(tables, received.peer, id.value, around.state)
    case _ => (tables, true)
  }

  function Responses(peer: Peer, response: Option<Message>): seq<Event>
  {
    if response.Some? then [StoreDlcMessage(peer, response.value)] else []
  }

  predicate IsKnown(box: Mailbox, received: Received)
  {
    received.message.text in box.outbox.messages
  }

  /** Whether the message gets as far as being recorded and taking effect. */
  predicate IsDispatched(box: Mailbox, received: Received, around: Surroundings)
  {
    && !IsKnown(box, received)
    && VerifyCloseOffer(box.tables, received, around).Some?
    && around.accepted && !around.insertFails
  }

  /** `process_dlc_message`. */
  function Process(box: Mailbox, received: Received, around: Surroundings): (Mailbox, bool)
  {
    if IsKnown(box, received) then (box, true)
    else
      match VerifyCloseOffer(box.tables, received, around)
      case None => (box, false)
      case Some(verified) =>
        if !around.accepted then (box.(tables := verified), false)
        else
          var stored := box.published + Responses(received.peer, around.response);
          if around.insertFails then (box.(tables := verified, published := stored), false)
          else
            var recorded := Insert(box.outbox, received.peer, received.message, true);
            var (tables, ok) := Dispatch(verified, received, around);
            var sent := if ok && around.response.Some? then [SendLastDlcMessage(received.peer)] else [];
            (Mailbox(recorded, tables, stored + sent), ok)
  }

  /** One turn of `process_incoming_dlc_messages`: an error sets the message's protocol to failed. */
  function Deliver(box: Mailbox, received: Received, around: Surroundings): Mailbox
  {
    var (after, ok) := Process(box, received, around);
    if ok || received.reference.None? then after
    else after.(tables := P.FailOrKeep(after.tables, received.reference.value))
  }

  class MessageProcessor {
    const db: Database
    const executor: DlcProtocolExecutor
    var messages: map<Text, MessageRow>
    var published: seq<Event>

    ghost predicate Valid()
      reads this
    {
      executor.db == db
    }

    constructor (database: Database, protocols: DlcProtocolExecutor)
      requires protocols.db == database
      ensures Valid() && db == database && messages == map[] && published == []
    {
      db, executor, messages, published := database, protocols, map[], [];
    }

    /** The tables that processing a message touches; the last outbound messages are not among them. */
    function State(last: map<Peer, LastOutbound>): Mailbox
      reads this, db
    {
      Mailbox(Outbox(messages, last), db.State(), published)
    }

    method DispatchMessage(received: Received, around: Surroundings) returns (ok: bool)
      requires Valid()
      modifies db
      ensures (db.State(), ok) == old(Dispatch(db.State(), received, around))
    {
      var id := ReferenceOf(received, around);
      match received.message.kind {
        case RenewFinalize | RolloverFinalize | Accept =>
          if id.None? { return false; }
          ok := executor.FinishDlcProtocol(id.value, received.peer, around.contract, around.channel);
        case SettleFinalize =>
          if id.None? { return false; }
          ok := executor.FinishDlcProtocol(id.value, received.peer, None, around.channel);
        case CollaborativeCloseOffer => return around.closeAccepted;
        case Reject =>
          if id.None? { return false; }
          ok := executor.FailDlcProtocol(id.value);
          if !ok { return false; }
          var updated := Some(0);
          match around.state {
            case Cancelled => updated := db.UpdatePositionState(received.peer, {Proposed}, Failed);
            case Established => updated := db.UpdatePositionState(received.peer, {Closing, Rollover}, Open);
            case Settled => updated := db.UpdatePositionState(received.peer, {Proposed}, Failed);
            case Other =>
          }
          ok := updated.Some?;
        case _ => return true;
      }
    }

    method ProcessDlcMessage(received: Received, around: Surroundings, ghost last: map<Peer, LastOutbound>)
      returns (ok: bool)
      requires Valid()
      modifies this`messages, this`published, db
      ensures Valid()
      ensures (State(last), ok) == old(Process(State(last), received, around))
    {
      if received.message.text in messages { return true; }
      var verified := VerifyCloseOffer(db.State(), received, around);
      if verified.None? { return false; }
      if received.message.kind.CollaborativeCloseOffer? { db.protocols := verified.value.protocols; }
      if !around.accepted { return false; }
      published := published + Responses(received.peer, around.response);
      if around.insertFails { return false; }
      messages := messages[received.message.text := MessageRow(true, received.peer, received.message.kind)];
      ok := DispatchMessage(received, around);
      assert published + [] == published;
      if ok && around.response.Some? { published := published + [SendLastDlcMessage(received.peer)]; }
    }

    /** The loop over the received messages. */
    method ProcessIncomingDlcMessages(inbox: seq<(Received, Surroundings)>, ghost last: map<Peer, LastOutbound>)
      requires Valid()
      modifies this`messages, this`published, db
      ensures Valid() && State(last) == old(DeliverAll(State(last), inbox))
    {
      ghost var before := State(last);
      var k := 0;
      while k < |inbox|
        invariant 0 <= k <= |inbox| && Valid()
        invariant DeliverAll(State(last), inbox[k..]) == DeliverAll(before, inbox)
      {
        var (received, around) := inbox[k];
        assert inbox[k..][0] == inbox[k] && inbox[k..][1..] == inbox[k + 1..];
        var ok := ProcessDlcMessage(received, around, last);
        if !ok && received.reference.Some? { var _ := executor.FailDlcProtocol(received.reference.value); }
        k := k + 1;
      }
    }
  }

  function DeliverAll(box: Mailbox, inbox: seq<(Received, Surroundings)>): Mailbox
    decreases |inbox|
  {
    if |inbox| == 0 then box else DeliverAll(Deliver(box, inbox[0].0, inbox[0].1), inbox[1..])
  }

  // ---------------------------------------------------------------- at most once

  /** What can happen to the mailbox: a delivery, an action on the outgoing messages, or any other change of the
      tables by the coordinator. */
  datatype Happening =
    | Delivered(received: Received, around: Surroundings)
    | Outgoing(action: Action)
    | TablesChanged(tables: Tables)

  function After(box: Mailbox, happening: Happening): Mailbox
  {
    match happening
    case Delivered(received, around) => Deliver(box, received, around)
    case Outgoing(action) => box.(outbox := Act(box.outbox, action))
    case TablesChanged(tables) => box.(tables := tables)
  }

  function RunBox(box: Mailbox, happenings: seq<Happening>): Mailbox
    decreases |happenings|
  {
    if |happenings| == 0 then box else RunBox(After(box, happenings[0]), happenings[1..])
  }

  /** How often a message with this text takes effect. */
  function TimesDispatched(box: Mailbox, happenings: seq<Happening>, text: Text): nat
    decreases |happenings|
  {
    if |happenings| == 0 then 0
    else
      (if happenings[0].Delivered? && happenings[0].received.message.text == text
          && IsDispatched(box, happenings[0].received, happenings[0].around)
       then 1 else 0)
      + TimesDispatched(After(box, happenings[0]), happenings[1..], text)
  }

  /** Whether an error of the delivery sets the message's protocol to failed. */
  predicate FailsProtocol(box: Mailbox, received: Received, around: Surroundings)
  {
    !Process(box, received, around).1 && received.reference.Some?
  }

  /** How often an error with this text sets a protocol to failed. */
  function TimesFailed(box: Mailbox, happenings: seq<Happening>, text: Text): nat
    decreases |happenings|
  {
    if |happenings| == 0 then 0
    else
      (if happenings[0].Delivered? && happenings[0].received.message.text == text
          && FailsProtocol(box, happenings[0].received, happenings[0].around)
       then 1 else 0)
      + TimesFailed(After(box, happenings[0]), happenings[1..], text)
  }

  /** A known message stays known. */
  lemma KnownStaysKnown(box: Mailbox, happening: Happening)
    ensures box.outbox.messages.Keys <= After(box, happening).outbox.messages.Keys
    ensures happening.Delivered? && IsDispatched(box, happening.received, happening.around)
            ==> happening.received.message.text in After(box, happening).outbox.messages
  {
  }

  /** From its recording onwards a message neither takes effect nor fails a protocol. */
  lemma {:induction false} KnownHasNoEffect(box: Mailbox, happenings: seq<Happening>, text: Text)
    requires text in box.outbox.messages
    ensures TimesDispatched(box, happenings, text) == 0 && TimesFailed(box, happenings, text) == 0
    decreases |happenings|
  {
    if |happenings| > 0 {
      KnownStaysKnown(box, happenings[0]);
      KnownHasNoEffect(After(box, happenings[0]), happenings[1..], text);
    }
  }

  /** Over any run of deliveries, duplicates, failures and everything else that happens, a message is dispatched at
      most once. An error before that can fail its protocol any number of times. */
  lemma {:induction false} DispatchedAtMostOnce(box: Mailbox, happenings: seq<Happening>, text: Text)
    ensures TimesDispatched(box, happenings, text) <= 1
    decreases |happenings|
  {
    if |happenings| > 0 {
      var next := After(box, happenings[0]);
      KnownStaysKnown(box, happenings[0]);
      if text in next.outbox.messages {
        KnownHasNoEffect(next, happenings[1..], text);
      } else {
        DispatchedAtMostOnce(next, happenings[1..], text);
      }
    }
  }

  /** Once recorded, a redelivery changes nothing at all, whatever happened in between; that includes a message that
      was recorded but whose effects failed. */
  lemma {:induction false} RedeliveryChangesNothing(
    box: Mailbox, happenings: seq<Happening>, received: Received, around: Surroundings
  )
    requires IsKnown(box, received)
    ensures Deliver(RunBox(box, happenings), received, around) == RunBox(box, happenings)
    decreases |happenings|
  {
    if |happenings| > 0 {
      KnownStaysKnown(box, happenings[0]);
      RedeliveryChangesNothing(After(box, happenings[0]), happenings[1..], received, around);
    }
  }

  /** Deliveries that are not redeliveries, in order. */
  function FirstDeliveries(box: Mailbox, happenings: seq<Happening>): seq<Happening>
    decreases |happenings|
  {
    if |happenings| == 0 then []
    else
      (if happenings[0].Delivered? && IsKnown(box, happenings[0].received) then [] else [happenings[0]])
      + FirstDeliveries(After(box, happenings[0]), happenings[1..])
  }

  /** A run ends where the run without its redeliveries ends. */
  lemma {:induction false} RedeliveriesDoNotMatter(box: Mailbox, happenings: seq<Happening>)
    ensures RunBox(box, FirstDeliveries(box, happenings)) == RunBox(box, happenings)
    decreases |happenings|
  {
    if |happenings| > 0 {
      var rest := FirstDeliveries(After(box, happenings[0]), happenings[1..]);
      RedeliveriesDoNotMatter(After(box, happenings[0]), happenings[1..]);
      if happenings[0].Delivered? && IsKnown(box, happenings[0].received) {
        assert FirstDeliveries(box, happenings) == rest;
        assert After(box, happenings[0]) == box;
      } else {
        assert FirstDeliveries(box, happenings)[1..] == rest;
      }
    }
  }

  // ---------------------------------------------------------------- offers to close

  /** The channel exists, has no position, and if it is settled the offer pays the coordinator what it expects; and the
      protocol that the offer names can be started. */
  predicate IsAcceptableClose(tables: Tables, received: Received, around: Surroundings)
  {
    && !around.closing.NoSuchChannel? && !around.closing.EstablishedChannel?
    && (around.closing.SettledChannel? ==> around.closing.offeredPayout == around.closing.expectedPayout)
    && received.reference.Some? && received.reference.value !in tables.protocols
    && (around.previous.Some? ==> around.previous.value in tables.protocols)
  }

  /** A new offer to close starts its protocol exactly when it is acceptable; no other protocol appears or changes,
      except that an error sets the one it names to failed. It is recorded exactly when, besides, the library accepts
      it and the insert works. */
  lemma CloseOfferIsRecordedIff(box: Mailbox, received: Received, around: Surroundings)
    requires received.message.kind.CollaborativeCloseOffer? && !IsKnown(box, received)
    ensures var after := Deliver(box, received, around);
            var acceptable := IsAcceptableClose(box.tables, received, around);
            var recorded := acceptable && around.accepted && !around.insertFails;
            && (IsKnown(after, received) <==> recorded)
            && after.tables == box.tables.(protocols := after.tables.protocols)
            && (acceptable ==>
                  after.tables.protocols
                  == box.tables.protocols[
                    received.reference.value :=
                      ProtocolRow(around.previous, around.channel, None,
                                  if recorded && around.closeAccepted then Pending else Failure, received.peer, Close)])
            && (!acceptable ==>
                  after.tables == if received.reference.None? then box.tables
                                  else P.FailOrKeep(box.tables, received.reference.value))
  {
    VerifiedIff(box.tables, received, around);
  }

  lemma VerifiedIff(tables: Tables, received: Received, around: Surroundings)
    requires received.message.kind.CollaborativeCloseOffer?
    ensures VerifyCloseOffer(tables, received, around)
            == if IsAcceptableClose(tables, received, around) then
                 Some(tables.(protocols := tables.protocols[
                                received.reference.value :=
                                  ProtocolRow(around.previous, around.channel, None, Pending, received.peer, Close)]))
               else None
  {
  }

  // ---------------------------------------------------------------- answers that are published

  /** An answer of the library is published to be stored as soon as the library has accepted the message, and to be sent
      exactly when the message then is recorded and takes effect. A known or refused message publishes nothing. */
  lemma AnswerIsPublished(box: Mailbox, received: Received, around: Surroundings)
    ensures var (after, ok) := Process(box, received, around);
            var first := !IsKnown(box, received);
            var verified := !received.message.kind.CollaborativeCloseOffer?
                            || IsAcceptableClose(box.tables, received, around);
            Deliver(box, received, around).published
            == box.published
               + (if first && verified && around.accepted && around.response.Some?
                  then [StoreDlcMessage(received.peer, around.response.value)] else [])
               + (if first && IsKnown(after, received) && ok && around.response.Some?
                  then [SendLastDlcMessage(received.peer)] else [])
  {
  }

  // ---------------------------------------------------------------- deliveries that fail

  /** Nothing changes but the protocol that the message refers to, which may be created or fail, and cannot succeed. */
  predicate OnlyReferenceMayFail(tables: Tables, after: Tables, reference: Option<ProtocolId>)
  {
    && after == tables.(protocols := after.protocols)
    && tables.protocols.Keys <= after.protocols.Keys
    && (forall id :: id in after.protocols && reference != Some(id) ==>
          id in tables.protocols && after.protocols[id] == tables.protocols[id])
    && (forall id :: id in tables.protocols && after.protocols[id] != tables.protocols[id] ==>
          after.protocols[id] == tables.protocols[id].(state := Failure))
    && (forall id :: id in after.protocols && id !in tables.protocols ==> after.protocols[id].state != Success)
  }

  /** A delivery that is not recorded moves no position, records no trade, pays no event and lets no protocol
      succeed. All it can do is to fail the protocol that it refers to, even one that had succeeded. */
  lemma UndispatchedMovesNothing(box: Mailbox, received: Received, around: Surroundings)
    requires !IsDispatched(box, received, around)
    ensures OnlyReferenceMayFail(box.tables, Deliver(box, received, around).tables, received.reference)
  {
    var (processed, ok) := Process(box, received, around);
    assert processed.tables == box.tables
           || (received.reference.Some? && received.reference.value !in box.tables.protocols);
  }

  /** A dispatched message changes the tables by its effects, and by failing its protocol if they are an error. */
  lemma DispatchedDelivery(box: Mailbox, received: Received, around: Surroundings)
    requires IsDispatched(box, received, around) && !received.message.kind.CollaborativeCloseOffer?
    ensures var (after, ok) := Dispatch(box.tables, received, around);
            var delivered := Deliver(box, received, around);
            && delivered.outbox == Insert(box.outbox, received.peer, received.message, true)
            && delivered.tables == if ok || received.reference.None? then after
                                   else P.FailOrKeep(after, received.reference.value)
  {
  }

  lemma DispatchTakesSuccessIff(tables: Tables, received: Received, around: Surroundings, p: ProtocolId)
    requires p in tables.protocols && tables.protocols[p].state == Success
    ensures var after := Dispatch(tables, received, around).0;
            && p in after.protocols
            && (after.protocols[p].state != Success
                <==> received.message.kind.Reject? && ReferenceOf(received, around) == Some(p))
  {
    var id := ReferenceOf(received, around);
    if IsLastMessage(received.message.kind) && id.Some? {
      var contract := ContractFor(received, around);
      if FinishDlcProtocol(tables, id.value, received.peer, contract, around.channel).Some? {
        Finishing.FinishSucceedsAlone(tables, id.value, received.peer, contract, around.channel);
      }
    }
  }

  /** Exactly when a delivery takes a protocol out of `Success`: by an error of a message that refers to it, or by a
      recorded rejection that names it. Neither asks for the protocol's state. */
  lemma DeliveryTakesSuccessIff(box: Mailbox, received: Received, around: Surroundings, p: ProtocolId)
    requires p in box.tables.protocols && box.tables.protocols[p].state == Success
    ensures var after := Deliver(box, received, around).tables;
            && p in after.protocols
            && (after.protocols[p].state != Success
                <==> || (FailsProtocol(box, received, around) && received.reference == Some(p))
                     || (IsDispatched(box, received, around) && received.message.kind.Reject?
                         && ReferenceOf(received, around) == Some(p)))
  {
    var verified := VerifyCloseOffer(box.tables, received, around);
    if IsDispatched(box, received, around) {
      assert p in verified.value.protocols && verified.value.protocols[p] == box.tables.protocols[p];
      DispatchTakesSuccessIff(verified.value, received, around, p);
    } else {
      UndispatchedMovesNothing(box, received, around);
    }
  }

  lemma RefusedDelivery(box: Mailbox, received: Received, around: Surroundings, p: ProtocolId)
    requires !IsKnown(box, received) && !received.message.kind.CollaborativeCloseOffer?
    requires received.reference == Some(p) && !around.accepted
    ensures Deliver(box, received, around) == box.(tables := P.FailOrKeep(box.tables, p))
  {
  }

  lemma FinishingDispatch(tables: Tables, last: Received, around: Surroundings, p: ProtocolId)
    requires last.message.kind.RenewFinalize? && last.reference == Some(p)
    requires p in tables.protocols && CarriesTrade(tables.protocols[p].protocolType)
    requires FinishDlcProtocol(tables, p, last.peer, around.contract, around.channel).Some?
    ensures var (after, ok) := Dispatch(tables, last, around);
            && ok && p in after.protocols && after.protocols[p].state == Success
            && |after.trades| == |tables.trades| + 1
  {
    LastMessageFinishes(tables, last, around);
    Finishing.FinishMovesEverythingTogether(tables, p, last.peer, around.contract, around.channel);
  }

  lemma FinishingDelivery(box: Mailbox, last: Received, around: Surroundings, p: ProtocolId)
    requires IsDispatched(box, last, around) && last.message.kind.RenewFinalize? && last.reference == Some(p)
    requires p in box.tables.protocols && CarriesTrade(box.tables.protocols[p].protocolType)
    requires FinishDlcProtocol(box.tables, p, last.peer, around.contract, around.channel).Some?
    ensures var finished := Deliver(box, last, around);
            && finished.outbox == Insert(box.outbox, last.peer, last.message, true)
            && p in finished.tables.protocols && finished.tables.protocols[p].state == Success
            && |finished.tables.trades| == |box.tables.trades| + 1
  {
    DispatchedDelivery(box, last, around);
    FinishingDispatch(box.tables, last, around, p);
  }

  /** It does happen: a message is refused, another one finishes the protocol, and a redelivery of the first, refused
      again, sets it back to failed. The position stays moved and the trade stays recorded. */
  lemma RefusedRedeliveryTakesSuccess(
    box: Mailbox, first: Received, refused: Surroundings, last: Received, finishing: Surroundings, p: ProtocolId
  )
    requires !IsKnown(box, first) && !first.message.kind.CollaborativeCloseOffer? && first.reference == Some(p)
    requires !refused.accepted
    requires !IsKnown(box, last) && last.message.text != first.message.text
    requires last.message.kind.RenewFinalize? && last.reference == Some(p)
    requires finishing.accepted && !finishing.insertFails
    requires p in box.tables.protocols && CarriesTrade(box.tables.protocols[p].protocolType)
    requires FinishDlcProtocol(P.FailOrKeep(box.tables, p), p, last.peer, finishing.contract, finishing.channel).Some?
    ensures var finished := Deliver(Deliver(box, first, refused), last, finishing);
            && p in finished.tables.protocols && finished.tables.protocols[p].state == Success
            && |finished.tables.trades| == |box.tables.trades| + 1
            && Deliver(finished, first, refused).tables
               == finished.tables.(protocols := finished.tables.protocols[
                                     p := finished.tables.protocols[p].(state := Failure)])
  {
    var once := box.(tables := P.FailOrKeep(box.tables, p));
    RefusedDelivery(box, first, refused, p);
    FinishingDelivery(once, last, finishing, p);
    RefusedDelivery(Deliver(once, last, finishing), first, refused, p);
  }

  // ---------------------------------------------------------------- effects that are lost

  /** Exactly what each kind of message needs to take effect. */
  ghost predicate CanTakeEffect(tables: Tables, received: Received, around: Surroundings)
  {
    var id := ReferenceOf(received, around);
    match received.message.kind
    case RenewFinalize | RolloverFinalize | Accept =>
      id.Some? && Finishing.CanFinish(tables, id.value, around.contract)
    case SettleFinalize => id.Some? && Finishing.CanFinish(tables, id.value, None)
    case CollaborativeCloseOffer => around.closeAccepted
    case Reject => id.Some? && CanReject(tables, received.peer, id.value, around.state)
    case _ => true
  }

  lemma DispatchSucceedsIff(tables: Tables, received: Received, around: Surroundings)
    ensures Dispatch(tables, received, around).1 <==> CanTakeEffect(tables, received, around)
  {
    var id := ReferenceOf(received, around);
    if IsLastMessage(received.message.kind) && id.Some? {
      var contract := ContractFor(received, around);
      Finishing.FinishSucceedsIff(tables, id.value, received.peer, contract, around.channel);
    }
  }

  /** A message is recorded while its effect is an error, and so is lost for good, exactly when it is dispatched into
      tables and surroundings in which it cannot take effect. */
  lemma EffectIsLostIff(box: Mailbox, received: Received, around: Surroundings)
    requires !IsKnown(box, received)
    ensures var (after, ok) := Process(box, received, around);
            (IsKnown(after, received) && !ok)
            <==> IsDispatched(box, received, around)
                 && !CanTakeEffect(VerifyCloseOffer(box.tables, received, around).value, received, around)
  {
    if IsDispatched(box, received, around) {
      DispatchSucceedsIff(VerifyCloseOffer(box.tables, received, around).value, received, around);
    }
  }

  /** The last message of a proposal is delivered while the channel has no contract to report. The protocol fails, the
      position and the trades stay as they were, and no later delivery changes that, although finishing the
      protocol would go through now. */
  lemma LastMessageCanBeLost(
    box: Mailbox, last: Received, around: Surroundings, happenings: seq<Happening>, later: Surroundings, p: ProtocolId
  )
    requires !IsKnown(box, last) && last.message.kind in {MessageKind.Accept, MessageKind.RenewFinalize}
    requires last.reference == Some(p) && around.accepted && !around.insertFails && around.contract.None?
    requires p in box.tables.protocols && Finishing.NeedsContract(box.tables.protocols[p].protocolType)
    requires Finishing.CanFinish(box.tables, p, later.contract)
    ensures var after := Deliver(box, last, around);
            && !CanTakeEffect(box.tables, last, around)
            && after.tables == P.FailOrKeep(box.tables, p)
            && FinishDlcProtocol(after.tables, p, last.peer, later.contract, later.channel).Some?
            && Deliver(RunBox(after, happenings), last, later) == RunBox(after, happenings)
  {
    var after := Deliver(box, last, around);
    Finishing.FinishSucceedsIff(box.tables, p, last.peer, None, around.channel);
    DispatchedDelivery(box, last, around);
    FailedCanStillFinish(box.tables, p, later.contract);
    Finishing.FinishSucceedsIff(after.tables, p, last.peer, later.contract, later.channel);
    RedeliveryChangesNothing(after, happenings, last, later);
  }

  /** A resize whose coordinator stops before it marks the position: the protocol is there, the position is not
      resizing. */
  lemma StoppedResizeCannotFinish(
    tables: Tables, i: nat, trade: T.TradeParams, resized: T.ResizedPosition, proposal: P.Proposal,
    contract: Option<ContractId>
  )
    requires i < |tables.positions| && CanCreate(tables, proposal.id, proposal.previous)
    requires FirstRow(tables.positions, tables.positions[i].trader, {Resizing}).None?
    ensures var after := P.ProposeResize(tables, i, trade, resized, proposal, P.AfterStart);
            && after.positions == tables.positions && after.trades == tables.trades
            && HasProtocol(after, proposal.id)
            && after.protocols[proposal.id].state == Pending
            && !Finishing.CanFinish(after, proposal.id, contract)
  {
    var after := P.ProposeResize(tables, i, trade, resized, proposal, P.AfterStart);
    var trader := tables.positions[i].trader;
    assert proposal.id in after.protocols && proposal.id in after.tradeParams;
  }

  /** The other way to lose a message: the trader finalizes that resize with a contract, as it should. The message is
      recorded, the protocol fails, the position and the trades stay as they were before the proposal, and no later
      delivery changes that. */
  lemma StoppedResizeLosesMessage(
    box: Mailbox, before: Tables, i: nat, trade: T.TradeParams, resized: T.ResizedPosition, proposal: P.Proposal,
    last: Received, around: Surroundings, happenings: seq<Happening>, later: Surroundings
  )
    requires i < |before.positions| && CanCreate(before, proposal.id, proposal.previous)
    requires FirstRow(before.positions, before.positions[i].trader, {Resizing}).None?
    requires box.tables == P.ProposeResize(before, i, trade, resized, proposal, P.AfterStart)
    requires !IsKnown(box, last) && last.message.kind.RenewFinalize? && last.reference == Some(proposal.id)
    requires around.accepted && !around.insertFails && around.contract.Some?
    ensures var after := Deliver(box, last, around);
            && IsKnown(after, last)
            && after.tables == P.FailOrKeep(box.tables, proposal.id)
            && after.tables.protocols[proposal.id].state == Failure
            && after.tables.positions == before.positions && after.tables.trades == before.trades
            && Deliver(RunBox(after, happenings), last, later) == RunBox(after, happenings)
  {
    var after := Deliver(box, last, around);
    StoppedResizeCannotFinish(before, i, trade, resized, proposal, around.contract);
    Finishing.FinishSucceedsIff(box.tables, proposal.id, last.peer, around.contract, around.channel);
    DispatchedDelivery(box, last, around);
    RedeliveryChangesNothing(after, happenings, last, later);
  }

  /** Finishing does not ask whether the protocol has failed. */
  lemma FailedCanStillFinish(tables: Tables, p: ProtocolId, contract: Option<ContractId>)
    requires Finishing.CanFinish(tables, p, contract)
    ensures Finishing.CanFinish(P.FailOrKeep(tables, p), p, contract)
  {
    if CarriesTrade(tables.protocols[p].protocolType) {
      var i: nat :| Finishing.IsGuarded(tables, p, i);
      assert Finishing.IsGuarded(P.FailOrKeep(tables, p), p, i);
    }
  }

  // ---------------------------------------------------------------- the protocol's answers

  lemma FinishAgrees(
    tables: Tables, phase: P.Phase, trader: TraderId, contract: Option<ContractId>, channel: ChannelId
  )
    requires phase.IsPending()
    ensures var (after, ok) := AfterFinish(tables, Some(phase.protocol), trader, contract, channel);
            (if ok then after else P.FailOrKeep(after, phase.protocol))
            == P.FinalizeTables(tables, phase, trader, contract, channel)
  {
  }

  predicate IsLastMessage(kind: MessageKind)
  {
    kind.RenewFinalize? || kind.RolloverFinalize? || kind.Accept? || kind.SettleFinalize?
  }

  lemma LastMessageFinishes(tables: Tables, received: Received, around: Surroundings)
    requires IsLastMessage(received.message.kind)
    ensures Dispatch(tables, received, around)
            == AfterFinish(tables, ReferenceOf(received, around), received.peer, ContractFor(received, around),
                           around.channel)
  {
  }

  /** The first delivery of a last message does to the tables what the protocol's step says. */
  lemma FinalizeMessageAgrees(box: Mailbox, received: Received, around: Surroundings, phase: P.Phase)
    requires phase.IsPending() && received.reference == Some(phase.protocol)
    requires IsDispatched(box, received, around) && IsLastMessage(received.message.kind)
    ensures Deliver(box, received, around).tables
            == P.FinalizeTables(box.tables, phase, received.peer, ContractFor(received, around), around.channel)
  {
    DispatchedDelivery(box, received, around);
    LastMessageFinishes(box.tables, received, around);
    FinishAgrees(box.tables, phase, received.peer, ContractFor(received, around), around.channel);
  }

  function RefusedChannelState(phase: P.Phase): ChannelState
  {
    match phase.Refused()
    case NoChannel => Cancelled
    case Established => ChannelState.Established
    case Settled => ChannelState.Settled
    case _ => Other
  }

  /** So does the first delivery of a rejection: the second failing of the protocol changes nothing more. */
  lemma RejectMessageAgrees(box: Mailbox, received: Received, around: Surroundings, phase: P.Phase)
    requires phase.IsPending() && received.reference == Some(phase.protocol)
    requires IsDispatched(box, received, around) && received.message.kind.Reject?
    requires around.state == RefusedChannelState(phase)
    ensures Deliver(box, received, around).tables == P.RejectTables(box.tables, phase, received.peer, false)
  {
    var rejected := P.RejectTables(box.tables, phase, received.peer, false);
    if phase.protocol in box.tables.protocols {
      assert rejected.protocols[phase.protocol := rejected.protocols[phase.protocol].(state := Failure)]
             == rejected.protocols;
    }
  }

  // ---------------------------------------------------------------- cancelling an offer

  /** `cancel_offer` of an existing channel: the coordinator processes its own rejection, and only then deletes what
      it would resend. An error of the rejection is returned and not turned into a failed protocol. */
  function CancelOffer(box: Mailbox, rejection: Received, around: Surroundings): Mailbox
  {
    var (after, ok) := Process(box, rejection, around);
    if ok then after.(outbox := Delete(after.outbox, rejection.peer)) else after
  }

  /** Whether a rejection finds the protocol, and the position that it is to move. */
  predicate CanReject(tables: Tables, peer: Peer, id: ProtocolId, state: ChannelState)
  {
    && id in tables.protocols
    && match state
       case Cancelled => FirstRow(tables.positions, peer, {Proposed}).Some?
       case Established => FirstRow(tables.positions, peer, {Closing, Rollover}).Some?
       case Settled => FirstRow(tables.positions, peer, {Proposed}).Some?
       case Other => true
  }

  /** Cancelling deletes the last outbound message exactly when its rejection goes through. A rejection that finds no
      protocol, because starting it is what failed, or no proposed position leaves the offer to be resent. */
  lemma CancelDeletesIff(box: Mailbox, rejection: Received, around: Surroundings)
    requires Lookup(box.outbox, rejection.peer).Some?
    requires rejection.message.kind.Reject? && rejection.reference.None?
    ensures Lookup(CancelOffer(box, rejection, around).outbox, rejection.peer).None?
            <==> || IsKnown(box, rejection)
                 || (&& IsDispatched(box, rejection, around) && around.fallback.Some?
                     && CanReject(box.tables, rejection.peer, around.fallback.value, around.state))
  {
  }
}
