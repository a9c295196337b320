/** The message tables: every processed or stored message by its hash, and per peer the last one to resend. The hash
    covers the text of a message but not its kind; equal hashes mean equal texts here. */
module Messages {
  import opened Wrappers

  type Peer = nat
  type Text = nat

  datatype MessageKind =
    | Offer | Accept | Sign | SettleOffer | SettleAccept | SettleConfirm | SettleFinalize
    | RenewOffer | RenewAccept | RenewConfirm | RenewFinalize | RenewRevoke
    | RolloverOffer | RolloverAccept | RolloverConfirm | RolloverFinalize | RolloverRevoke
    | CollaborativeCloseOffer | Reject

  datatype Message = Message(text: Text, kind: MessageKind)

  /** A row of `dlc_messages`, keyed by hash. */
  datatype MessageRow = MessageRow(inbound: bool, peer: Peer, kind: MessageKind)

  /** A row of `last_outbound_dlc_messages`, keyed by peer. */
  datatype LastOutbound = LastOutbound(hash: Text, text: Text)

  datatype Outbox = Outbox(messages: map<Text, MessageRow>, last: map<Peer, LastOutbound>)

  const EMPTY_OUTBOX: Outbox := Outbox(map[], map[])

  /** The join of the two tables. */
  function Lookup(outbox: Outbox, peer: Peer): Option<Message>
  {
    if peer in outbox.last && outbox.last[peer].hash in outbox.messages then
      Some(Message(outbox.last[peer].text, outbox.messages[outbox.last[peer].hash].kind))
    else None
  }

  function Insert(outbox: Outbox, peer: Peer, message: Message, inbound: bool): Outbox
  {
    if message.text in outbox.messages then outbox
    else outbox.(messages := outbox.messages[message.text := MessageRow(inbound, peer, message.kind)])
  }

  /** `store_dlc_message`: a message that is already known is an error, and so is an upsert that fails after the
      message was inserted; neither changes what will be resent. */
  function Store(outbox: Outbox, peer: Peer, message: Message, upsertFails: bool): (Outbox, bool)
  {
    if message.text in outbox.messages then (outbox, false)
    else
      var inserted := Insert(outbox, peer, message, false);
      if upsertFails then (inserted, false)
      else (inserted.(last := inserted.last[peer := LastOutbound(message.text, message.text)]), true)
  }

  datatype Event =
    | Connected(peer: Peer, closing: bool)
    | StoreDlcMessage(peer: Peer, message: Message)
    | SendDlcMessage(peer: Peer, message: Message)
    | SendLastDlcMessage(peer: Peer)

  /** What the handler does with one event: the new tables, and the message that goes out. */
  function Handle(outbox: Outbox, event: Event, upsertFails: bool): (Outbox, Option<Message>)
  {
    match event
    case Connected(peer, closing) => (outbox, if closing then None else Lookup(outbox, peer))
    case StoreDlcMessage(peer, message) => (Store(outbox, peer, message, upsertFails).0, None)
    case SendDlcMessage(peer, message) =>
      var (after, ok) := Store(outbox, peer, message, upsertFails);
      (after, if ok then Some(message) else None)
    case SendLastDlcMessage(peer) => (outbox, Lookup(outbox, peer))
  }

  function Delete(outbox: Outbox, peer: Peer): Outbox
  {
    outbox.(last := outbox.last - {peer})
  }

  class DlcHandler {
    var messages: map<Text, MessageRow>
    var last: map<Peer, LastOutbound>
    var wire: seq<(Peer, Message)>

    constructor ()
      ensures State() == EMPTY_OUTBOX && wire == []
    {
      messages, last, wire := map[], map[], [];
    }

    function State(): Outbox
      reads this
    {
      Outbox(messages, last)
    }

    method StoreDlcMessage(peer: Peer, message: Message, upsertFails: bool) returns (ok: bool)
      modifies `messages, `last
      ensures (State(), ok) == old(Store(State(), peer, message, upsertFails))
    {
      if message.text in messages { return false; }
      messages := messages[message.text := MessageRow(false, peer, message.kind)];
      if upsertFails { return false; }
      last := last[peer := LastOutbound(message.text, message.text)];
      return true;
    }

    method SendDlcMessage(peer: Peer, message: Message, upsertFails: bool)
      modifies this
      ensures var (after, sent) := old(Handle(State(), Event.SendDlcMessage(peer, message), upsertFails));
              State() == after && wire == old(wire) + if sent.Some? then [(peer, sent.value)] else []
    {
      var ok := StoreDlcMessage(peer, message, upsertFails);
      if ok { wire := wire + [(peer, message)]; }
    }

    method SendLastDlcMessage(peer: Peer)
      modifies `wire
      ensures wire == old(wire) + if Lookup(State(), peer).Some? then [(peer, Lookup(State(), peer).value)] else []
    {
      if peer in last && last[peer].hash in messages {
        wire := wire + [(peer, Message(last[peer].text, messages[last[peer].hash].kind))];
      }
    }

    /** `closing` says whether a pending offer of the peer to close the channel is accepted instead. */
    method OnConnect(peer: Peer, closing: bool)
      modifies `wire
      ensures var sent := old(Handle(State(), Connected(peer, closing), false)).1;
              wire == old(wire) + if sent.Some? then [(peer, sent.value)] else []
    {
      if closing { return; }
      SendLastDlcMessage(peer);
    }

    method DeleteLast(peer: Peer)
      modifies `last
      ensures State() == old(Delete(State(), peer))
    {
      last := last - {peer};
    }
  }

  // ---------------------------------------------------------------- any interleaving

  /** The handler takes events from its queue, while received messages are recorded and cancelled offers are deleted
      beside it. */
  datatype Action =
    | Handled(event: Event, upsertFails: bool)
    | Deleted(peer: Peer)
    | Recorded(peer: Peer, message: Message)

  function Act(outbox: Outbox, action: Action): Outbox
  {
    match action
    case Handled(event, upsertFails) => Handle(outbox, event, upsertFails).0
    case Deleted(peer) => Delete(outbox, peer)
    case Recorded(peer, message) => Insert(outbox, peer, message, true)
  }

  function Run(actions: seq<Action>): Outbox
  {
    if |actions| == 0 then EMPTY_OUTBOX else Act(Run(actions[..|actions| - 1]), actions[|actions| - 1])
  }

  predicate Stores(action: Action)
  {
    action.Handled? && (action.event.StoreDlcMessage? || action.event.SendDlcMessage?)
  }

  /** The texts that the history mentions. */
  function Mentioned(actions: seq<Action>): set<Text>
  {
    set k | 0 <= k < |actions| && (Stores(actions[k]) || actions[k].Recorded?) ::
      if actions[k].Recorded? then actions[k].message.text else actions[k].event.message.text
  }

  /** Action `k` stores a message for the peer: the first mention of its text, without a fault. */
  predicate StoredAt(actions: seq<Action>, k: nat, peer: Peer)
  {
    && k < |actions| && Stores(actions[k]) && !actions[k].upsertFails
    && actions[k].event.peer == peer && actions[k].event.message.text !in Mentioned(actions[..k])
  }

  /** The most recent successfully stored message of the peer, read off the history alone. */
  function LastStored(actions: seq<Action>, peer: Peer): Option<Message>
  {
    if |actions| == 0 then None
    else
      var k := |actions| - 1;
      if StoredAt(actions, k, peer) then Some(actions[k].event.message)
      else if actions[k] == Deleted(peer) then None
      else LastStored(actions[..k], peer)
  }

  lemma MentionedStep(actions: seq<Action>, k: nat)
    requires |actions| == k + 1
    ensures Mentioned(actions) == Mentioned(actions[..k])
            + (if Stores(actions[k]) then {actions[k].event.message.text}
               else if actions[k].Recorded? then {actions[k].message.text} else {})
  {
    assert forall j :: 0 <= j < k ==> actions[..k][j] == actions[j];
    forall t | t in Mentioned(actions[..k]) ensures t in Mentioned(actions) {
      var j :| 0 <= j < k && (Stores(actions[..k][j]) || actions[..k][j].Recorded?)
               && t == if actions[..k][j].Recorded? then actions[..k][j].message.text
                       else actions[..k][j].event.message.text;
      assert actions[j] == actions[..k][j];
    }
  }

  /** `dlc_messages` holds exactly the texts mentioned so far, and every last outbound message is among them. */
  lemma {:induction false} MessagesAreMentioned(actions: seq<Action>)
    ensures Run(actions).messages.Keys == Mentioned(actions)
    ensures forall peer :: peer in Run(actions).last ==> Run(actions).last[peer].hash in Run(actions).messages
  {
    if |actions| > 0 {
      var k := |actions| - 1;
      MessagesAreMentioned(actions[..k]);
      MentionedStep(actions, k);
    }
  }

  /** Under any interleaving the lookup is the most recent successfully stored message since the last delete. */
  lemma {:induction false} LookupIsLastStored(actions: seq<Action>, peer: Peer)
    ensures Lookup(Run(actions), peer) == LastStored(actions, peer)
  {
    if |actions| > 0 {
      var k := |actions| - 1;
      LookupIsLastStored(actions[..k], peer);
      MessagesAreMentioned(actions[..k]);
    }
  }

  /** The row that an action writes for a text that is new. */
  function RowBy(action: Action): MessageRow
    requires Stores(action) || action.Recorded?
  {
    if action.Recorded? then MessageRow(true, action.peer, action.message.kind)
    else MessageRow(false, action.event.peer, action.event.message.kind)
  }

  predicate MentionsAt(actions: seq<Action>, k: nat, text: Text)
  {
    && k < |actions| && (Stores(actions[k]) || actions[k].Recorded?)
    && text == if actions[k].Recorded? then actions[k].message.text else actions[k].event.message.text
  }

  /** A row of `dlc_messages` is what the first mention of its text says: inbound if it was received, and never
      changed by a later mention, a failing upsert or a delete. */
  lemma {:induction false} RowsAreFirstMentions(actions: seq<Action>, k: nat, text: Text)
    requires MentionsAt(actions, k, text) && text !in Mentioned(actions[..k])
    ensures text in Run(actions).messages && Run(actions).messages[text] == RowBy(actions[k])
  {
    var last := |actions| - 1;
    MessagesAreMentioned(actions[..last]);
    if k == last {
    } else {
      assert actions[..last][..k] == actions[..k] && actions[..last][k] == actions[k];
      RowsAreFirstMentions(actions[..last], k, text);
    }
  }

  /** What is to go out when the handler takes an event, read off the history alone. A message to send goes out exactly
      when it is new and stored without a fault; a reconnect and an explicit request send the last stored message again,
      and nothing if there is none or an offer to close is accepted instead; storing sends nothing. */
  function DueToSend(actions: seq<Action>, event: Event, upsertFails: bool): Option<Message>
  {
    match event
    case Connected(peer, closing) => if closing then None else LastStored(actions, peer)
    case StoreDlcMessage(_, _) => None
    case SendDlcMessage(_, message) =>
      if message.text in Mentioned(actions) || upsertFails then None else Some(message)
    case SendLastDlcMessage(peer) => LastStored(actions, peer)
  }

  lemma SentFollowsHistory(actions: seq<Action>, event: Event, upsertFails: bool)
    ensures Handle(Run(actions), event, upsertFails).1 == DueToSend(actions, event, upsertFails)
  {
    LookupIsLastStored(actions, event.peer);
    MessagesAreMentioned(actions);
  }

  /** Everything that goes out to a peer is its most recent successfully stored message at that moment. */
  lemma SentIsLastStored(actions: seq<Action>, event: Event, upsertFails: bool)
    ensures var sent := Handle(Run(actions), event, upsertFails).1;
            sent.Some? ==> sent == LastStored(actions + [Handled(event, upsertFails)], event.peer)
  {
    var after := actions + [Handled(event, upsertFails)];
    assert after[..|actions|] == actions;
    LookupIsLastStored(after, event.peer);
    MessagesAreMentioned(actions);
  }

  // ---------------------------------------------------------------- cancelled offers

  lemma {:induction false} NothingStoredSince(before: seq<Action>, peer: Peer, after: seq<Action>)
    requires forall k :: 0 <= k < |after| ==> after[k] != Deleted(peer)
    ensures var actions := before + [Deleted(peer)] + after;
            LastStored(actions, peer).None?
            <==> forall k: nat :: |before| < k < |actions| ==> !StoredAt(actions, k, peer)
    decreases |after|
  {
    var actions := before + [Deleted(peer)] + after;
    var last := |actions| - 1;
    if |after| == 0 {
      assert actions[last] == Deleted(peer);
    } else {
      var shorter := after[..|after| - 1];
      assert actions[..last] == before + [Deleted(peer)] + shorter;
      NothingStoredSince(before, peer, shorter);
      forall k: nat | |before| < k < last
        ensures StoredAt(actions, k, peer) <==> StoredAt(actions[..last], k, peer)
      {
        assert actions[..last][k] == actions[k] && actions[..last][..k] == actions[..k];
      }
    }
  }

  /** After the delete of a cancelled offer a later reconnect sends nothing exactly when no message for the peer is
      stored after the delete, be it one that was published before and still waited in the queue. */
  lemma CancelledPeerGetsNothingIff(before: seq<Action>, peer: Peer, after: seq<Action>)
    requires forall k :: 0 <= k < |after| ==> after[k] != Deleted(peer)
    ensures var actions := before + [Deleted(peer)] + after;
            Handle(Run(actions), Connected(peer, false), false).1.None?
            <==> forall k: nat :: |before| < k < |actions| ==> !StoredAt(actions, k, peer)
  {
    LookupIsLastStored(before + [Deleted(peer)] + after, peer);
    NothingStoredSince(before, peer, after);
  }

  /** An offer whose event is handled only after the delete is sent at the next reconnect all the same. */
  lemma QueuedOfferSurvivesCancel(before: seq<Action>, peer: Peer, offer: Message)
    requires offer.text !in Mentioned(before)
    ensures var actions := before + [Deleted(peer), Handled(StoreDlcMessage(peer, offer), false)];
            Handle(Run(actions), Connected(peer, false), false).1 == Some(offer)
  {
    var actions := before + [Deleted(peer), Handled(StoreDlcMessage(peer, offer), false)];
    var k := |before| + 1;
    assert actions[..k] == before + [Deleted(peer)];
    assert actions[..k][..k - 1] == before;
    MentionedStep(actions[..k], k - 1);
    LookupIsLastStored(actions, peer);
  }
}
