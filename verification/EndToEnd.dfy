// From a committed message to both participants: the message store, the relay
// of its outbox and the delivery of the stream, all running at once.

module EndToEnd {
  import opened Common
  import opened Timeline
  import opened Documents
  import opened Outbox
  import MessageStore
  import Relay
  import D = Delivery
  import Chats
  import Instants
  import Ordering
  import Text

  datatype World = World(store: MessageStore.World, relay: Relay.State, desk: D.Desk)

  datatype Event =
    | Storing(s: MessageStore.Event)
    | Relaying(r: Relay.Event)
    | Delivering(d: D.Event)

  function RelayWorld(w: World): Relay.World {
    Relay.World(w.store.db.outbox, w.relay)
  }

  /** The three parts share the outbox and the stream. New outbox documents come
      from the store only, and failure records from the dispatchers only. */
  function Step(size: Relay.Envelope -> nat, w: World, e: Event): World {
    match e
    case Storing(s) => if s.RelayOutbox? then w else w.(store := MessageStore.Step(w.store, s))
    case Relaying(r) =>
      if r.Insert? || r.Append? then w
      else
        var after := Relay.Step(RelayWorld(w), r);
        w.(store := MessageStore.Step(w.store, MessageStore.RelayOutbox(after.outbox)), relay := after.state)
    case Delivering(d) =>
      var record := D.NewRecord(w.desk, w.relay.stream, d);
      w.(relay := if record == None then w.relay else Relay.Step(RelayWorld(w), Relay.Append(record.value)).state,
         desk := D.Step(w.store.db.chats, size, w.relay.stream, w.desk, d))
  }

  function Run(size: Relay.Envelope -> nat, w: World, events: seq<Event>): World {
    if events == [] then w else Step(size, Run(size, w, events[..|events| - 1]), events[|events| - 1])
  }

  // ----- What a stored message looks like on its way -------------------------------

  function EnvelopeFor(d: ItemDocument, eventID: string): Relay.Envelope {
    Relay.Envelope(eventID, MESSAGE_CREATED, AGGREGATE_CHAT, d.chatID, d.createdAt,
                   Payload(d.id, d.message.clientMessageID, d.chatID, d.sequence, d.message.senderID, d.message.content, d.createdAt))
  }

  function NotificationFor(d: ItemDocument, eventID: string): D.RealtimeEvent {
    D.RealtimeEvent(D.PROTOCOL_VERSION, D.REALTIME_MESSAGE_CREATED, eventID, d.createdAt,
                    d.id, d.message.clientMessageID, d.chatID, d.sequence, d.message.senderID, d.message.content, d.createdAt)
  }

  ghost predicate EventsNamed(outbox: Collection) {
    forall id :: id in outbox ==> !Text.Blank(id)
  }

  /** A readable item whose sender participates in its chat. */
  ghost predicate GoodItem(d: ItemDocument, chats: map<string, ChatDocument>) {
    && ToDomain(d) == Ok(AsItem(d))
    && ValidContent(d.message.content)
    && d.chatID in chats && MessageStore.Participates(chats[d.chatID], d.message.senderID)
  }

  /** What makes an envelope acceptable to everyone but the subject check. */
  predicate GoodEnvelope(e: Relay.Envelope, chats: map<string, ChatDocument>) {
    && D.ValidEnvelope(e)
    && ParseID(e.payload.chatID) == Ok(e.payload.chatID) && ParseID(e.payload.senderID) == Ok(e.payload.senderID)
    && e.payload.chatID in chats && MessageStore.Participates(chats[e.payload.chatID], e.payload.senderID)
  }

  /** A stored message passes the JetStream publisher's validation and the
      dispatcher's, with every field as stored. */
  lemma GoodItemPassesValidation(d: ItemDocument, chats: map<string, ChatDocument>, e: OutboxDocument)
    requires GoodItem(d, chats) && MessageStore.Describes(e, d) && !Text.Blank(e.id)
    ensures Relay.ValidOutboxEvent(ToPort(e))
    ensures Relay.EnvelopeOf(ToPort(e)) == EnvelopeFor(d, e.id)
    ensures GoodEnvelope(EnvelopeFor(d, e.id), chats)
    ensures D.PublicEvent(EnvelopeFor(d, e.id)) == NotificationFor(d, e.id)
  {
    ReadableFields(d);
  }

  lemma ReadableFields(d: ItemDocument)
    requires ToDomain(d) == Ok(AsItem(d))
    ensures ParseID(d.id) == Ok(d.id) && ParseID(d.chatID) == Ok(d.chatID)
    ensures ParseID(d.message.senderID) == Ok(d.message.senderID)
    ensures ParseClientMessageID(d.message.clientMessageID).Ok?
    ensures 0 < d.sequence <= MAX_SEQUENCE && d.createdAt != 0
  {
    hide ParseID;
    hide ParseKind;
    hide ParseContentType;
    hide ParseClientMessageID;
    hide RestoreContent;
    hide ValidContent;
  }

  // ----- The desk's invariant ---------------------------------------------------------

  /** The other participant, once the chat is found. */
  function Counterpart(chats: map<string, ChatDocument>, e: Relay.Envelope): Option<string> {
    if e.payload.chatID in chats && Chats.ToChat(chats[e.payload.chatID]).Ok?
    then Chats.RelatedUserID(Chats.ToChat(chats[e.payload.chatID]).value, e.payload.senderID)
    else None
  }

  /** An envelope that is too large, or addressed to a user whose identifier is
      not a subject token. */
  predicate Undeliverable(size: Relay.Envelope -> nat, chats: map<string, ChatDocument>, e: Relay.Envelope) {
    || size(e) > D.MAX_EVENT_BYTES
    || (Counterpart(chats, e).Some?
        && (!D.ValidRealtimeUserID(e.payload.senderID) || !D.ValidRealtimeUserID(Counterpart(chats, e).value)))
  }

  predicate Told(delivered: set<(string, D.RealtimeEvent)>, e: Relay.Envelope, user: string) {
    (user, D.PublicEvent(e)) in delivered
  }

  ghost predicate StageHolds(size: Relay.Envelope -> nat, chats: map<string, ChatDocument>, stream: seq<Relay.StreamMessage>,
                             delivered: set<(string, D.RealtimeEvent)>, x: D.Dispatcher)
  {
    && x.index < |stream| && stream[x.index].Created?
    && var e := stream[x.index].envelope;
    match x.stage
    case Received => true
    case Resolved(r) => Counterpart(chats, e) == Some(r)
    case Notified(r) => Counterpart(chats, e) == Some(r) && Told(delivered, e, r)
    case Dispatched(r) => Counterpart(chats, e) == Some(r) && Told(delivered, e, r) && Told(delivered, e, e.payload.senderID)
    case Rejected(_) => Undeliverable(size, chats, e)
    case Recorded => Undeliverable(size, chats, e) && D.HasRecord(stream, x.index)
  }

  ghost predicate SettlementHolds(size: Relay.Envelope -> nat, chats: map<string, ChatDocument>, stream: seq<Relay.StreamMessage>,
                                  delivered: set<(string, D.RealtimeEvent)>, i: nat, s: D.Settlement)
  {
    && i < |stream| && stream[i].Created?
    && var e := stream[i].envelope;
    match s
    case Acked => Counterpart(chats, e).Some? && Told(delivered, e, Counterpart(chats, e).value) && Told(delivered, e, e.payload.senderID)
    case Terminated => Undeliverable(size, chats, e) && D.HasRecord(stream, i)
  }

  /** A delivery that some envelope in the stream accounts for. */
  ghost predicate Sent(chats: map<string, ChatDocument>, stream: seq<Relay.StreamMessage>, user: string, n: D.RealtimeEvent) {
    exists i :: 0 <= i < |stream| && stream[i].Created? && D.PublicEvent(stream[i].envelope) == n
                && (user == stream[i].envelope.payload.senderID || Counterpart(chats, stream[i].envelope) == Some(user))
  }

  ghost predicate DispatchersHold(size: Relay.Envelope -> nat, chats: map<string, ChatDocument>, stream: seq<Relay.StreamMessage>, k: D.Desk) {
    forall id :: id in k.dispatchers ==> StageHolds(size, chats, stream, k.delivered, k.dispatchers[id])
  }

  ghost predicate SettlementsHold(size: Relay.Envelope -> nat, chats: map<string, ChatDocument>, stream: seq<Relay.StreamMessage>, k: D.Desk) {
    forall i :: i in k.settled ==> SettlementHolds(size, chats, stream, k.delivered, i, k.settled[i])
  }

  ghost predicate DeliveriesHold(chats: map<string, ChatDocument>, stream: seq<Relay.StreamMessage>, delivered: set<(string, D.RealtimeEvent)>) {
    forall x :: x in delivered ==> Sent(chats, stream, x.0, x.1)
  }

  ghost predicate DeskHolds(size: Relay.Envelope -> nat, chats: map<string, ChatDocument>, stream: seq<Relay.StreamMessage>, k: D.Desk) {
    && DispatchersHold(size, chats, stream, k)
    && SettlementsHold(size, chats, stream, k)
    && DeliveriesHold(chats, stream, k.delivered)
  }

  /** Chats keep their participants and streams their entries. */
  ghost predicate Grows(chats: map<string, ChatDocument>, chats': map<string, ChatDocument>,
                        stream: seq<Relay.StreamMessage>, stream': seq<Relay.StreamMessage>)
  {
    && (forall c :: c in chats ==> c in chats' && Chats.ToChat(chats'[c]) == Chats.ToChat(chats[c]))
    && stream <= stream'
  }

  lemma GrowthKeepsRecords(stream: seq<Relay.StreamMessage>, stream': seq<Relay.StreamMessage>, index: nat)
    requires stream <= stream' && D.HasRecord(stream, index)
    ensures D.HasRecord(stream', index)
  {
    var i :| 0 <= i < |stream| && stream[i].FailureRecord? && stream[i].source == index + 1;
    assert stream'[i] == stream[i];
  }

  lemma GrowthKeepsCounterpart(chats: map<string, ChatDocument>, chats': map<string, ChatDocument>, e: Relay.Envelope)
    requires Grows(chats, chats', [], [])
    ensures Counterpart(chats, e).Some? ==> Counterpart(chats', e) == Counterpart(chats, e)
  {
  }

  lemma GrowthKeepsStage(size: Relay.Envelope -> nat, chats: map<string, ChatDocument>, chats': map<string, ChatDocument>,
                         stream: seq<Relay.StreamMessage>, stream': seq<Relay.StreamMessage>,
                         delivered: set<(string, D.RealtimeEvent)>, delivered': set<(string, D.RealtimeEvent)>, x: D.Dispatcher)
    requires Grows(chats, chats', stream, stream') && delivered <= delivered'
    requires StageHolds(size, chats, stream, delivered, x)
    ensures StageHolds(size, chats', stream', delivered', x)
  {
    hide Counterpart;
    var e := stream[x.index].envelope;
    assert stream'[x.index] == stream[x.index];
    GrowthKeepsCounterpart(chats, chats', e);
    if x.stage.Recorded? { GrowthKeepsRecords(stream, stream', x.index); }
  }

  lemma GrowthKeepsSettlement(size: Relay.Envelope -> nat, chats: map<string, ChatDocument>, chats': map<string, ChatDocument>,
                              stream: seq<Relay.StreamMessage>, stream': seq<Relay.StreamMessage>,
                              delivered: set<(string, D.RealtimeEvent)>, delivered': set<(string, D.RealtimeEvent)>, i: nat, s: D.Settlement)
    requires Grows(chats, chats', stream, stream') && delivered <= delivered'
    requires SettlementHolds(size, chats, stream, delivered, i, s)
    ensures SettlementHolds(size, chats', stream', delivered', i, s)
  {
    hide Counterpart;
    var e := stream[i].envelope;
    assert stream'[i] == stream[i];
    GrowthKeepsCounterpart(chats, chats', e);
    if s.Terminated? { GrowthKeepsRecords(stream, stream', i); }
  }

  lemma GrowthKeepsSent(chats: map<string, ChatDocument>, chats': map<string, ChatDocument>,
                        stream: seq<Relay.StreamMessage>, stream': seq<Relay.StreamMessage>, user: string, n: D.RealtimeEvent)
    requires Grows(chats, chats', stream, stream') && Sent(chats, stream, user, n)
    ensures Sent(chats', stream', user, n)
  {
    hide Counterpart;
    var i :| 0 <= i < |stream| && stream[i].Created? && D.PublicEvent(stream[i].envelope) == n
             && (user == stream[i].envelope.payload.senderID || Counterpart(chats, stream[i].envelope) == Some(user));
    assert stream'[i] == stream[i];
    GrowthKeepsCounterpart(chats, chats', stream[i].envelope);
  }

  lemma GrowthKeepsDesk(size: Relay.Envelope -> nat, chats: map<string, ChatDocument>, chats': map<string, ChatDocument>,
                        stream: seq<Relay.StreamMessage>, stream': seq<Relay.StreamMessage>, k: D.Desk)
    requires DeskHolds(size, chats, stream, k) && Grows(chats, chats', stream, stream')
    ensures DeskHolds(size, chats', stream', k)
  {
    hide StageHolds;
    hide SettlementHolds;
    hide Sent;
    hide Grows;
    forall id | id in k.dispatchers ensures StageHolds(size, chats', stream', k.delivered, k.dispatchers[id]) {
      GrowthKeepsStage(size, chats, chats', stream, stream', k.delivered, k.delivered, k.dispatchers[id]);
    }
    forall i | i in k.settled ensures SettlementHolds(size, chats', stream', k.delivered, i, k.settled[i]) {
      GrowthKeepsSettlement(size, chats, chats', stream, stream', k.delivered, k.delivered, i, k.settled[i]);
    }
    forall x | x in k.delivered ensures Sent(chats', stream', x.0, x.1) {
      GrowthKeepsSent(chats, chats', stream, stream', x.0, x.1);
    }
  }

  // ----- The desk's steps ----------------------------------------------------------------

  ghost predicate GoodStream(chats: map<string, ChatDocument>, stream: seq<Relay.StreamMessage>) {
    forall i :: 0 <= i < |stream| && stream[i].Created? ==> GoodEnvelope(stream[i].envelope, chats)
  }

  /** What Examined can answer for a good envelope. */
  lemma ExaminedHolds(size: Relay.Envelope -> nat, chats: map<string, ChatDocument>, e: Relay.Envelope)
    requires GoodEnvelope(e, chats)
    ensures match D.Examined(chats, size, e)
      case None => true
      case Some(Resolved(r)) => Counterpart(chats, e) == Some(r)
      case Some(Rejected(_)) => Undeliverable(size, chats, e)
      case _ => false
  {
    hide D.ValidEnvelope;
  }

  lemma NotifyRefusalIsUndeliverable(size: Relay.Envelope -> nat, chats: map<string, ChatDocument>, e: Relay.Envelope, r: string, user: string)
    requires GoodEnvelope(e, chats) && Counterpart(chats, e) == Some(r) && (user == r || user == e.payload.senderID)
    requires !D.ValidRealtimeUserID(user) || !D.ValidRealtimeMessage(D.PublicEvent(e))
    ensures Undeliverable(size, chats, e)
  {
    D.PublisherRefusesOnlyTheSender(e);
  }

  /** A step of one dispatcher keeps the desk in order if what it adds is. */
  lemma DeskMoves(size: Relay.Envelope -> nat, chats: map<string, ChatDocument>,
                  stream: seq<Relay.StreamMessage>, stream': seq<Relay.StreamMessage>, k: D.Desk, k': D.Desk, id: nat)
    requires DeskHolds(size, chats, stream, k) && stream <= stream' && k.delivered <= k'.delivered
    requires forall j :: j in k'.dispatchers && j != id ==> j in k.dispatchers && k'.dispatchers[j] == k.dispatchers[j]
    requires id in k'.dispatchers ==> StageHolds(size, chats, stream', k'.delivered, k'.dispatchers[id])
    requires forall x :: x in k'.delivered ==> x in k.delivered || Sent(chats, stream', x.0, x.1)
    requires forall i :: i in k'.settled ==>
      (i in k.settled && k'.settled[i] == k.settled[i]) || SettlementHolds(size, chats, stream', k'.delivered, i, k'.settled[i])
    ensures DeskHolds(size, chats, stream', k')
  {
    assert Grows(chats, chats, stream, stream');
    hide StageHolds;
    hide SettlementHolds;
    hide Sent;
    hide Grows;
    forall j | j in k'.dispatchers ensures StageHolds(size, chats, stream', k'.delivered, k'.dispatchers[j]) {
      if j != id { GrowthKeepsStage(size, chats, chats, stream, stream', k.delivered, k'.delivered, k.dispatchers[j]); }
    }
    forall i | i in k'.settled ensures SettlementHolds(size, chats, stream', k'.delivered, i, k'.settled[i]) {
      if !SettlementHolds(size, chats, stream', k'.delivered, i, k'.settled[i]) {
        GrowthKeepsSettlement(size, chats, chats, stream, stream', k.delivered, k'.delivered, i, k.settled[i]);
      }
    }
    forall x | x in k'.delivered ensures Sent(chats, stream', x.0, x.1) {
      if x in k.delivered { GrowthKeepsSent(chats, chats, stream, stream', x.0, x.1); }
    }
  }

  lemma ExaminedStageHolds(size: Relay.Envelope -> nat, chats: map<string, ChatDocument>, stream: seq<Relay.StreamMessage>,
                           delivered: set<(string, D.RealtimeEvent)>, index: nat)
    requires index < |stream| && stream[index].Created? && GoodEnvelope(stream[index].envelope, chats)
    ensures
      var stage := D.Examined(chats, size, stream[index].envelope);
      stage.Some? ==> StageHolds(size, chats, stream, delivered, D.Dispatcher(index, stage.value))
  {
    ExaminedHolds(size, chats, stream[index].envelope);
    hide D.Examined;
    hide Counterpart;
    hide Undeliverable;
    hide GoodEnvelope;
  }

  lemma ExamineKeepsDesk(size: Relay.Envelope -> nat, chats: map<string, ChatDocument>, stream: seq<Relay.StreamMessage>,
                         k: D.Desk, id: nat)
    requires DeskHolds(size, chats, stream, k) && GoodStream(chats, stream)
    ensures DeskHolds(size, chats, stream, D.Step(chats, size, stream, k, D.Examine(id)))
  {
    hide D.Examined;
    hide GoodEnvelope;
    var k' := D.Step(chats, size, stream, k, D.Examine(id));
    if id in k.dispatchers {
      assert StageHolds(size, chats, stream, k.delivered, k.dispatchers[id]);
      ExaminedStageHolds(size, chats, stream, k.delivered, k.dispatchers[id].index);
    }
    hide StageHolds;
    hide SettlementHolds;
    hide Sent;
    DeskMoves(size, chats, stream, stream, k, k', id);
  }

  /** One publication, for any user and event. */
  lemma NotifyingKeepsDesk(size: Relay.Envelope -> nat, chats: map<string, ChatDocument>, stream: seq<Relay.StreamMessage>,
                           k: D.Desk, id: nat, user: string, n: D.RealtimeEvent, sending: D.Sending, done: D.Stage)
    requires DeskHolds(size, chats, stream, k) && id in k.dispatchers
    requires Sent(chats, stream, user, n)
    requires !D.ValidRealtimeUserID(user) || !D.ValidRealtimeMessage(n) ==>
      StageHolds(size, chats, stream, k.delivered, D.Dispatcher(k.dispatchers[id].index, D.Rejected(D.INVALID_EVENT)))
    requires StageHolds(size, chats, stream, k.delivered + {(user, n)}, D.Dispatcher(k.dispatchers[id].index, done))
    ensures DeskHolds(size, chats, stream, D.Notifying(k, id, user, n, sending, done))
  {
    hide DeskHolds;
    hide StageHolds;
    hide Sent;
    hide SettlementHolds;
    hide D.ValidRealtimeUserID;
    hide D.ValidRealtimeMessage;
    DeskMoves(size, chats, stream, stream, k, D.Notifying(k, id, user, n, sending, done), id);
  }

  /** Telling a participant of a good envelope's chat is accounted for, and refused
      only if an identifier is unusable. */
  lemma TellingParticipant(size: Relay.Envelope -> nat, chats: map<string, ChatDocument>, stream: seq<Relay.StreamMessage>,
                           index: nat, e: Relay.Envelope, r: string, user: string)
    requires index < |stream| && stream[index] == Relay.Created(e)
    requires GoodEnvelope(e, chats) && Counterpart(chats, e) == Some(r) && (user == r || user == e.payload.senderID)
    ensures Sent(chats, stream, user, D.PublicEvent(e))
    ensures !D.ValidRealtimeUserID(user) || !D.ValidRealtimeMessage(D.PublicEvent(e)) ==> Undeliverable(size, chats, e)
  {
    assert stream[index].Created?;
    hide GoodEnvelope;
    hide Counterpart;
    hide Undeliverable;
    hide D.PublicEvent;
    hide D.ValidRealtimeMessage;
    hide D.ValidRealtimeUserID;
    if !D.ValidRealtimeUserID(user) || !D.ValidRealtimeMessage(D.PublicEvent(e)) {
      NotifyRefusalIsUndeliverable(size, chats, e, r, user);
    }
  }

  /** The publication a dispatcher makes next: to the recipient, then to the sender. */
  lemma NextNotificationKeepsDesk(size: Relay.Envelope -> nat, chats: map<string, ChatDocument>, stream: seq<Relay.StreamMessage>,
                                  k: D.Desk, id: nat, e: Relay.Envelope, r: string, sending: D.Sending)
    requires DeskHolds(size, chats, stream, k) && id in k.dispatchers
    requires k.dispatchers[id].index < |stream| && stream[k.dispatchers[id].index] == Relay.Created(e)
    requires GoodEnvelope(e, chats) && Counterpart(chats, e) == Some(r)
    ensures DeskHolds(size, chats, stream, D.Notifying(k, id, r, D.PublicEvent(e), sending, D.Notified(r)))
    ensures Told(k.delivered, e, r) ==>
      DeskHolds(size, chats, stream, D.Notifying(k, id, e.payload.senderID, D.PublicEvent(e), sending, D.Dispatched(r)))
  {
    hide Sent;
    hide Counterpart;
    hide Undeliverable;
    hide GoodEnvelope;
    hide DeskHolds;
    hide D.PublicEvent;
    hide D.ValidRealtimeUserID;
    hide D.ValidRealtimeMessage;
    hide D.Notifying;
    TellingParticipant(size, chats, stream, k.dispatchers[id].index, e, r, r);
    TellingParticipant(size, chats, stream, k.dispatchers[id].index, e, r, e.payload.senderID);
    NotifyingKeepsDesk(size, chats, stream, k, id, r, D.PublicEvent(e), sending, D.Notified(r));
    if Told(k.delivered, e, r) {
      NotifyingKeepsDesk(size, chats, stream, k, id, e.payload.senderID, D.PublicEvent(e), sending, D.Dispatched(r));
    }
  }

  lemma NotifyKeepsDesk(size: Relay.Envelope -> nat, chats: map<string, ChatDocument>, stream: seq<Relay.StreamMessage>,
                        k: D.Desk, id: nat, sending: D.Sending)
    requires DeskHolds(size, chats, stream, k) && GoodStream(chats, stream)
    ensures DeskHolds(size, chats, stream, D.Step(chats, size, stream, k, D.Notify(id, sending)))
  {
    if id in k.dispatchers && (k.dispatchers[id].stage.Resolved? || k.dispatchers[id].stage.Notified?) {
      var x := k.dispatchers[id];
      assert StageHolds(size, chats, stream, k.delivered, x);
      var e := stream[x.index].envelope;
      assert GoodEnvelope(e, chats);
      assert D.Sender(e) == e.payload.senderID;
      hide GoodEnvelope;
      hide Counterpart;
      hide DeskHolds;
      hide D.Notifying;
      hide D.PublicEvent;
      NextNotificationKeepsDesk(size, chats, stream, k, id, e, x.stage.recipient, sending);
    }
  }

  lemma OthersKeepDesk(size: Relay.Envelope -> nat, chats: map<string, ChatDocument>, stream: seq<Relay.StreamMessage>,
                       k: D.Desk, d: D.Event)
    requires DeskHolds(size, chats, stream, k) && GoodStream(chats, stream) && !d.Examine? && !d.Notify? && !d.RecordFailure?
    ensures DeskHolds(size, chats, stream, D.Step(chats, size, stream, k, d))
  {
    hide Counterpart;
    hide Undeliverable;
    hide GoodEnvelope;
    if d.id in k.dispatchers {
      assert StageHolds(size, chats, stream, k.delivered, k.dispatchers[d.id]);
    }
    DeskMoves(size, chats, stream, stream, k, D.Step(chats, size, stream, k, d), d.id);
  }

  lemma RecordKeepsDesk(size: Relay.Envelope -> nat, chats: map<string, ChatDocument>, stream: seq<Relay.StreamMessage>,
                        k: D.Desk, id: nat, sending: D.Sending, stream': seq<Relay.StreamMessage>)
    requires DeskHolds(size, chats, stream, k)
    requires
      var record := D.NewRecord(k, stream, D.RecordFailure(id, sending));
      stream' == if record == None then stream else stream + [record.value]
    ensures DeskHolds(size, chats, stream', D.Step(chats, size, stream, k, D.RecordFailure(id, sending)))
  {
    hide Counterpart;
    hide Undeliverable;
    var k' := D.Step(chats, size, stream, k, D.RecordFailure(id, sending));
    if id in k.dispatchers && k.dispatchers[id].stage.Rejected? {
      assert StageHolds(size, chats, stream, k.delivered, k.dispatchers[id]);
      if stream' != stream {
        assert stream'[|stream|].FailureRecord? && stream'[|stream|].source == k.dispatchers[id].index + 1;
      }
    }
    DeskMoves(size, chats, stream, stream', k, k', id);
  }

  // ----- The composed invariant ----------------------------------------------------------

  ghost predicate Inv(size: Relay.Envelope -> nat, w: World) {
    && MessageStore.Inv(w.store)
    && EventsNamed(w.store.db.outbox)
    && Relay.Inv(RelayWorld(w))
    && DeskHolds(size, w.store.db.chats, w.relay.stream, w.desk)
  }

  /** A store step leaves the outbox alone or inserts one fresh, named event. */
  ghost predicate Inserts(before: Collection, after: Collection) {
    || after == before
    || exists d :: Inserted(before, after, d)
  }

  ghost predicate Inserted(before: Collection, after: Collection, d: OutboxDocument) {
    d.id !in before && Relay.NewDocument(d) && !Text.Blank(d.id) && after == before[d.id := d]
  }

  lemma StoreStepInserts(store: MessageStore.World, s: MessageStore.Event)
    requires MessageStore.CallsHold(store) && !s.RelayOutbox?
    ensures Inserts(store.db.outbox, MessageStore.Step(store, s).db.outbox)
  {
    hide MessageStore.TrueAnswer;
    if (s.Advance? || s.CommitUnseen?) && s.call in store.calls && store.calls[s.call].stage.Transact? {
      CommitInserts(store.db, store.calls[s.call].params);
    }
  }

  lemma CommitInserts(db: MessageStore.Database, p: CreateParams)
    requires ValidParams(p)
    ensures Inserts(db.outbox, MessageStore.CreateTransaction(db, p).0.outbox)
  {
    var (db', r) := MessageStore.CreateTransaction(db, p);
    if r.Ok? {
      assert Inserted(db.outbox, db'.outbox, NewOutboxDocument(p, r.value));
    }
  }

  /** A chat's counter advances within its range, so the chat reads as before. */
  lemma TransactionGrowsChats(db: MessageStore.Database, p: CreateParams)
    requires MessageStore.GapFree(db.chats, db.bySequence)
    ensures Grows(db.chats, MessageStore.CreateTransaction(db, p).0.chats, [], [])
  {
    hide ParseID;
    hide MessageStore.AttachedImages;
    hide Ordering.TextLess;
    var chats' := MessageStore.CreateTransaction(db, p).0.chats;
    forall c | c in db.chats ensures c in chats' && Chats.ToChat(chats'[c]) == Chats.ToChat(db.chats[c]) {
      assert 0 <= db.chats[c].lastSequence <= MAX_SEQUENCE;
      if chats'[c] != db.chats[c] {
        assert chats'[c] == MessageStore.Advanced(db.chats[c], p.createdAt);
      }
    }
  }

  lemma StoreStepGrowsChats(store: MessageStore.World, s: MessageStore.Event)
    requires MessageStore.GapFree(store.db.chats, store.db.bySequence)
    ensures Grows(store.db.chats, MessageStore.Step(store, s).db.chats, [], [])
  {
    hide MessageStore.GapFree;
    hide MessageStore.FindExisting;
    hide MessageStore.CreateTransaction;
    hide MessageStore.CreatedAnswer;
    hide Chats.ToChat;
    if (s.Advance? || s.CommitUnseen?) && s.call in store.calls {
      TransactionGrowsChats(store.db, store.calls[s.call].params);
    }
  }

  lemma RelayStepKeepsPayloads(w: Relay.World, r: Relay.Event)
    requires Relay.Inv(w) && !r.Insert?
    ensures MessageStore.SamePayloads(w.outbox, Relay.Step(w, r).outbox)
  {
    hide Relay.Inv;
    forall id | id in w.outbox
      ensures id in Relay.Step(w, r).outbox && SameMessage(w.outbox[id], Relay.Step(w, r).outbox[id])
    {
      Relay.StepMoves(w, r, id);
    }
    RelayStepAddsNothing(w, r);
  }

  lemma RelayStepAddsNothing(w: Relay.World, r: Relay.Event)
    requires !r.Insert? && Relay.Inv(w)
    ensures Relay.Step(w, r).outbox.Keys <= w.outbox.Keys
  {
    if r.Claim? && ClaimKeys(w.outbox, r.now) != {} {
      var key := Ordering.Least(ClaimKeys(w.outbox, r.now));
      assert key in ClaimKeys(w.outbox, r.now);
    }
  }

  lemma RelayStepGrowsStream(w: Relay.World, r: Relay.Event)
    ensures w.state.stream <= Relay.Step(w, r).state.stream
  {
    hide Relay.ValidOutboxEvent;
  }

  lemma StreamIsGood(size: Relay.Envelope -> nat, w: World)
    requires Inv(size, w)
    ensures GoodStream(w.store.db.chats, w.relay.stream)
  {
    forall i | 0 <= i < |w.relay.stream| && w.relay.stream[i].Created?
      ensures GoodEnvelope(w.relay.stream[i].envelope, w.store.db.chats)
    {
      StreamEntryIsItem(size, w, i);
    }
  }

  /** The stored item behind an entry of the stream. */
  lemma StreamEntryIsItem(size: Relay.Envelope -> nat, w: World, i: nat)
    requires Inv(size, w) && i < |w.relay.stream| && w.relay.stream[i].Created?
    ensures
      var e := w.relay.stream[i].envelope;
      && e.payload.messageID in w.store.db.timeline && e.eventID in w.store.db.outbox
      && e == EnvelopeFor(w.store.db.timeline[e.payload.messageID], e.eventID)
      && GoodItem(w.store.db.timeline[e.payload.messageID], w.store.db.chats)
      && GoodEnvelope(e, w.store.db.chats)
  {
    var e := w.relay.stream[i].envelope;
    assert e.eventID in w.store.db.outbox && e == Relay.EnvelopeOf(ToPort(w.store.db.outbox[e.eventID])) by {
      assert Relay.StreamHolds(w.store.db.outbox, w.relay.stream);
    }
    EventIsItem(w.store, e.eventID);
  }

  /** The stored item behind an outbox event. */
  lemma EventIsItem(store: MessageStore.World, id: string)
    requires MessageStore.Consistent(store.db, store.eventOf) && EventsNamed(store.db.outbox) && id in store.db.outbox
    ensures
      var e := store.db.outbox[id];
      && e.payload.messageID in store.db.timeline && store.eventOf[e.payload.messageID] == id
      && var d := store.db.timeline[e.payload.messageID];
      && GoodItem(d, store.db.chats)
      && Relay.ValidOutboxEvent(ToPort(e))
      && Relay.EnvelopeOf(ToPort(e)) == EnvelopeFor(d, id)
      && GoodEnvelope(EnvelopeFor(d, id), store.db.chats)
      && D.PublicEvent(EnvelopeFor(d, id)) == NotificationFor(d, id)
  {
    var e := store.db.outbox[id];
    var d := store.db.timeline[e.payload.messageID];
    assert GoodItem(d, store.db.chats) && MessageStore.Describes(e, d) by {
      hide ToDomain;
      hide ValidContent;
    }
    hide MessageStore.Consistent;
    hide GoodItem;
    hide GoodEnvelope;
    GoodItemPassesValidation(d, store.db.chats, e);
  }

  lemma StoreStep(store: MessageStore.World, s: MessageStore.Event)
    requires MessageStore.Inv(store) && !s.RelayOutbox?
    ensures MessageStore.Inv(MessageStore.Step(store, s))
    ensures Inserts(store.db.outbox, MessageStore.Step(store, s).db.outbox)
    ensures Grows(store.db.chats, MessageStore.Step(store, s).db.chats, [], [])
  {
    hide MessageStore.Step;
    hide MessageStore.CallsHold;
    hide MessageStore.Indexed;
    hide MessageStore.GapFree;
    hide MessageStore.Readable;
    hide MessageStore.Paired;
    hide Grows;
    hide Inserts;
    MessageStore.StepKeepsInv(store, s);
    StoreStepInserts(store, s);
    StoreStepGrowsChats(store, s);
  }

  lemma StoringKeepsInv(size: Relay.Envelope -> nat, w: World, s: MessageStore.Event)
    requires Inv(size, w) && !s.RelayOutbox?
    ensures Inv(size, Step(size, w, Storing(s)))
  {
    hide MessageStore.Inv;
    hide MessageStore.Step;
    hide Relay.Inv;
    hide Relay.Step;
    hide D.Step;
    hide D.NewRecord;
    hide DeskHolds;
    var w' := w.(store := MessageStore.Step(w.store, s));
    StoreStep(w.store, s);
    GrowthKeepsDesk(size, w.store.db.chats, w'.store.db.chats, w.relay.stream, w.relay.stream, w.desk);
    if w'.store.db.outbox != w.store.db.outbox {
      var d :| Inserted(w.store.db.outbox, w'.store.db.outbox, d);
      InsertedKeepsRelay(w.store.db.outbox, w.relay, d);
    }
  }

  lemma InsertedKeepsRelay(outbox: Collection, relay: Relay.State, d: OutboxDocument)
    requires Relay.Inv(Relay.World(outbox, relay)) && d.id !in outbox && Relay.NewDocument(d)
    ensures Relay.Inv(Relay.World(outbox[d.id := d], relay))
  {
    hide Relay.Inv;
    Relay.InsertKeepsInv(Relay.World(outbox, relay), d);
  }

  lemma RelayingKeepsInv(size: Relay.Envelope -> nat, w: World, r: Relay.Event)
    requires Inv(size, w) && !r.Insert? && !r.Append?
    ensures Inv(size, Step(size, w, Relaying(r)))
  {
    hide MessageStore.Inv;
    hide Relay.Inv;
    hide Relay.Step;
    hide D.Step;
    hide D.NewRecord;
    hide DeskHolds;
    var after := Relay.Step(RelayWorld(w), r);
    Relay.StepKeepsInv(RelayWorld(w), r);
    RelayStepKeepsPayloads(RelayWorld(w), r);
    RelayStepGrowsStream(RelayWorld(w), r);
    MessageStore.StepKeepsInv(w.store, MessageStore.RelayOutbox(after.outbox));
    OutboxReplaced(w.store, after.outbox);
    GrowthKeepsDesk(size, w.store.db.chats, w.store.db.chats, w.relay.stream, after.state.stream, w.desk);
    assert RelayWorld(w.(store := w.store.(db := w.store.db.(outbox := after.outbox)), relay := after.state)) == after;
  }

  lemma OutboxReplaced(store: MessageStore.World, outbox: Collection)
    requires MessageStore.SamePayloads(store.db.outbox, outbox) && EventsNamed(store.db.outbox)
    ensures MessageStore.Step(store, MessageStore.RelayOutbox(outbox)) == store.(db := store.db.(outbox := outbox))
    ensures EventsNamed(outbox)
  {
  }

  /** A desk step with the record it adds to the stream. */
  lemma DeskStep(size: Relay.Envelope -> nat, chats: map<string, ChatDocument>, stream: seq<Relay.StreamMessage>, k: D.Desk, d: D.Event)
    requires DeskHolds(size, chats, stream, k) && GoodStream(chats, stream)
    ensures
      var record := D.NewRecord(k, stream, d);
      DeskHolds(size, chats, if record == None then stream else stream + [record.value], D.Step(chats, size, stream, k, d))
    ensures D.NewRecord(k, stream, d) != None ==> D.NewRecord(k, stream, d).value.FailureRecord?
  {
    hide DeskHolds;
    hide D.Step;
    hide GoodStream;
    match d
    case Examine(id) => ExamineKeepsDesk(size, chats, stream, k, id);
    case Notify(id, sending) => NotifyKeepsDesk(size, chats, stream, k, id, sending);
    case RecordFailure(id, sending) =>
      var record := D.NewRecord(k, stream, d);
      RecordKeepsDesk(size, chats, stream, k, id, sending, if record == None then stream else stream + [record.value]);
    case _ => OthersKeepDesk(size, chats, stream, k, d);
  }

  lemma DeliveringKeepsInv(size: Relay.Envelope -> nat, w: World, d: D.Event)
    requires Inv(size, w)
    ensures Inv(size, Step(size, w, Delivering(d)))
  {
    hide MessageStore.Inv;
    hide Relay.Inv;
    hide DeskHolds;
    hide D.Step;
    hide D.NewRecord;
    hide GoodStream;
    StreamIsGood(size, w);
    var record := D.NewRecord(w.desk, w.relay.stream, d);
    DeskStep(size, w.store.db.chats, w.relay.stream, w.desk, d);
    if record != None {
      Relay.AppendKeepsInv(RelayWorld(w), record.value);
    }
  }

  lemma {:induction false} RunKeepsInv(size: Relay.Envelope -> nat, w: World, events: seq<Event>)
    requires Inv(size, w)
    ensures Inv(size, Run(size, w, events))
  {
    hide Inv;
    hide Step;
    if events != [] {
      var before, e := Run(size, w, events[..|events| - 1]), events[|events| - 1];
      RunKeepsInv(size, w, events[..|events| - 1]);
      match e
      case Storing(s) => if s.RelayOutbox? { StutterKeepsInv(size, before, e); } else { StoringKeepsInv(size, before, s); }
      case Relaying(r) => if r.Insert? || r.Append? { StutterKeepsInv(size, before, e); } else { RelayingKeepsInv(size, before, r); }
      case Delivering(d) => DeliveringKeepsInv(size, before, d);
    }
  }

  lemma StutterKeepsInv(size: Relay.Envelope -> nat, w: World, e: Event)
    requires Inv(size, w)
    requires (e.Storing? && e.s.RelayOutbox?) || (e.Relaying? && (e.r.Insert? || e.r.Append?))
    ensures Inv(size, Step(size, w, e))
  {
    hide Inv;
  }

  // ----- Main results ----------------------------------------------------------------------

  /** Consistent data whose events are still undelivered, and nothing started. */
  ghost predicate Initial(w: World) {
    && MessageStore.Initial(w.store) && EventsNamed(w.store.db.outbox)
    && Relay.Initial(RelayWorld(w))
    && w.desk == D.Desk(map[], {}, map[])
  }

  lemma InitialInv(size: Relay.Envelope -> nat, w: World)
    requires Initial(w)
    ensures Inv(size, w)
  {
    Relay.InitialInv(RelayWorld(w));
  }

  /** No committed message is lost or refused by the relay: its event is waiting,
      being worked on, or in the stream with every field as stored. It never fails. */
  lemma CommittedMessageIsAccountedFor(size: Relay.Envelope -> nat, w: World, events: seq<Event>, id: string)
    requires Initial(w) && id in Run(size, w, events).store.db.timeline
    ensures
      var end := Run(size, w, events);
      && id in end.store.eventOf && end.store.eventOf[id] in end.store.db.outbox
      && var e := end.store.db.outbox[end.store.eventOf[id]];
      match e.status
      case Pending => e.leaseID == None
      case Processing => e.leaseID.Some?
      case Failed => false
      case Published =>
        && e.receipt.Some?
        && Relay.EntryAt(end.relay.stream, e.receipt.value.sequence, EnvelopeFor(end.store.db.timeline[id], e.id))
  {
    InitialInv(size, w);
    RunKeepsInv(size, w, events);
    var end := Run(size, w, events);
    assert id in end.store.eventOf && end.store.eventOf[id] in end.store.db.outbox
        && end.store.db.outbox[end.store.eventOf[id]].payload.messageID == id;
    EventIsItem(end.store, end.store.eventOf[id]);
  }

  /** Events of messages that are not among the old ones are unattempted until a
      finishing update for them succeeds. */
  ghost predicate NewEventsHold(outbox: Collection, relay: Relay.State, known: set<string>) {
    forall id :: id in outbox && outbox[id].payload.messageID !in known ==>
      Relay.HasFinished(relay, id) || Relay.Unattempted(outbox[id])
  }

  lemma RelayKeepsNewEvents(w: Relay.World, r: Relay.Event, known: set<string>)
    requires Relay.Inv(w) && !r.Insert? && NewEventsHold(w.outbox, w.state, known)
    ensures NewEventsHold(Relay.Step(w, r).outbox, Relay.Step(w, r).state, known)
  {
    hide Relay.Inv;
    hide Relay.Step;
    hide Relay.HasFinished;
    hide Relay.Unattempted;
    RelayStepKeepsPayloads(w, r);
    forall id | id in Relay.Step(w, r).outbox && Relay.Step(w, r).outbox[id].payload.messageID !in known
      ensures Relay.HasFinished(Relay.Step(w, r).state, id) || Relay.Unattempted(Relay.Step(w, r).outbox[id])
    {
      Relay.StepKeepsUnattempted(w, r, id);
    }
  }

  lemma CommitKeepsNewEvents(db: MessageStore.Database, p: CreateParams, relay: Relay.State, known: set<string>)
    requires NewEventsHold(db.outbox, relay, known)
    ensures NewEventsHold(MessageStore.CreateTransaction(db, p).0.outbox, relay, known)
  {
    hide Relay.HasFinished;
    var (db', r) := MessageStore.CreateTransaction(db, p);
    if r.Ok? {
      assert Relay.Unattempted(NewOutboxDocument(p, r.value));
      hide MessageStore.AttachedImages;
      hide MessageStore.Advanced;
      assert db'.outbox == db.outbox[p.eventID := NewOutboxDocument(p, r.value)];
      hide NewOutboxDocument;
      hide MessageStore.CreateTransaction;
      hide Relay.Unattempted;
    }
  }

  lemma StoreKeepsNewEvents(store: MessageStore.World, s: MessageStore.Event, relay: Relay.State, known: set<string>)
    requires NewEventsHold(store.db.outbox, relay, known) && !s.RelayOutbox?
    ensures NewEventsHold(MessageStore.Step(store, s).db.outbox, relay, known)
  {
    hide NewEventsHold;
    hide MessageStore.FindExisting;
    hide MessageStore.CreateTransaction;
    hide MessageStore.CreatedAnswer;
    if (s.Advance? || s.CommitUnseen?) && s.call in store.calls {
      CommitKeepsNewEvents(store.db, store.calls[s.call].params, relay, known);
    }
  }

  /** Failure records leave the leases alone. */
  lemma AppendKeepsNewEvents(w: Relay.World, m: Relay.StreamMessage, known: set<string>)
    requires NewEventsHold(w.outbox, w.state, known)
    ensures NewEventsHold(w.outbox, Relay.Step(w, Relay.Append(m)).state, known)
  {
  }

  lemma {:induction false} RunKeepsNewEvents(size: Relay.Envelope -> nat, w: World, events: seq<Event>, known: set<string>)
    requires Inv(size, w) && NewEventsHold(w.store.db.outbox, w.relay, known)
    ensures NewEventsHold(Run(size, w, events).store.db.outbox, Run(size, w, events).relay, known)
  {
    hide NewEventsHold;
    if events != [] {
      var before, e := Run(size, w, events[..|events| - 1]), events[|events| - 1];
      RunKeepsNewEvents(size, w, events[..|events| - 1], known);
      RunKeepsInv(size, w, events[..|events| - 1]);
      StepKeepsNewEvents(size, before, e, known);
    }
  }

  lemma StepKeepsNewEvents(size: Relay.Envelope -> nat, w: World, e: Event, known: set<string>)
    requires Inv(size, w) && NewEventsHold(w.store.db.outbox, w.relay, known)
    ensures NewEventsHold(Step(size, w, e).store.db.outbox, Step(size, w, e).relay, known)
  {
    hide NewEventsHold;
    hide MessageStore.Inv;
    hide MessageStore.Step;
    hide Relay.Inv;
    hide Relay.Step;
    hide DeskHolds;
    hide D.Step;
    match e
    case Storing(s) => if !s.RelayOutbox? { StoreKeepsNewEvents(w.store, s, w.relay, known); }
    case Relaying(r) =>
      if !r.Insert? && !r.Append? {
        RelayKeepsNewEvents(RelayWorld(w), r, known);
        RelayStepKeepsPayloads(RelayWorld(w), r);
        OutboxReplaced(w.store, Relay.Step(RelayWorld(w), r).outbox);
      }
    case Delivering(d) =>
      var record := D.NewRecord(w.desk, w.relay.stream, d);
      if record != None { AppendKeepsNewEvents(RelayWorld(w), record.value, known); }
  }

  /** No committed message waits longer than it has to: until a finishing update for its
      event succeeds, the event is leased, or can be claimed by anybody from the message's
      creation time on. */
  lemma CommittedMessageIsDueAtOnce(size: Relay.Envelope -> nat, w: World, events: seq<Event>, id: string)
    requires Initial(w)
    requires var end := Run(size, w, events); id in end.store.db.timeline && id !in w.store.db.timeline && id in end.store.eventOf
    requires var end := Run(size, w, events); !Relay.HasFinished(end.relay, end.store.eventOf[id])
    ensures
      var end := Run(size, w, events);
      && end.store.eventOf[id] in end.store.db.outbox
      && var d := end.store.db.outbox[end.store.eventOf[id]];
      && d.attempts == 0
      && ((d.status == Processing && d.leaseID.Some?)
          || (d.status == Pending
              && forall now :: Claimable(d, now) <==> end.store.db.timeline[id].createdAt <= Instants.Stored(now)))
  {
    hide *;
    NoNewEventsYet(w);
    InitialInv(size, w);
    RunKeepsNewEvents(size, w, events, w.store.db.timeline.Keys);
    RunKeepsInv(size, w, events);
    InvIsConsistent(size, Run(size, w, events));
    NewEventIsDue(Run(size, w, events), id, w.store.db.timeline.Keys);
  }

  lemma InvIsConsistent(size: Relay.Envelope -> nat, w: World)
    requires Inv(size, w)
    ensures MessageStore.Consistent(w.store.db, w.store.eventOf)
  {
    hide MessageStore.Consistent;
    hide Relay.Inv;
    hide DeskHolds;
  }

  lemma NewEventIsDue(w: World, id: string, known: set<string>)
    requires MessageStore.Consistent(w.store.db, w.store.eventOf) && NewEventsHold(w.store.db.outbox, w.relay, known)
    requires id in w.store.db.timeline && id !in known && id in w.store.eventOf
    requires !Relay.HasFinished(w.relay, w.store.eventOf[id])
    ensures
      && w.store.eventOf[id] in w.store.db.outbox
      && var d := w.store.db.outbox[w.store.eventOf[id]];
      && d.attempts == 0
      && ((d.status == Processing && d.leaseID.Some?)
          || (d.status == Pending
              && forall now :: Claimable(d, now) <==> w.store.db.timeline[id].createdAt <= Instants.Stored(now)))
  {
    EventDescribes(w.store, id);
    hide MessageStore.Consistent;
    hide Relay.HasFinished;
    assert Relay.Unattempted(w.store.db.outbox[w.store.eventOf[id]]);
  }

  lemma NoNewEventsYet(w: World)
    requires Initial(w)
    ensures NewEventsHold(w.store.db.outbox, w.relay, w.store.db.timeline.Keys)
  {
    hide MessageStore.Readable;
    hide MessageStore.Indexed;
    hide MessageStore.GapFree;
    hide Relay.Initial;
    hide EventsNamed;
  }

  lemma EventDescribes(store: MessageStore.World, id: string)
    requires MessageStore.Consistent(store.db, store.eventOf) && id in store.eventOf
    ensures store.eventOf[id] in store.db.outbox && id in store.db.timeline
    ensures store.db.outbox[store.eventOf[id]].payload.messageID == id
    ensures store.db.outbox[store.eventOf[id]].payload.createdAt == store.db.timeline[id].createdAt
  {
    hide MessageStore.Readable;
    hide MessageStore.GapFree;
  }

  /** The stored message behind an entry of the stream. */
  function MessageOf(w: World, i: nat): Option<ItemDocument> {
    if i < |w.relay.stream| && w.relay.stream[i].Created?
       && w.relay.stream[i].envelope.payload.messageID in w.store.db.timeline
    then Some(w.store.db.timeline[w.relay.stream[i].envelope.payload.messageID])
    else None
  }

  /** The participants of a message's chat, as the chat repository reads them. */
  function Participants(w: World, d: ItemDocument): set<string> {
    if d.chatID in w.store.db.chats && Chats.ToChat(w.store.db.chats[d.chatID]).Ok?
    then
      var chat := Chats.ToChat(w.store.db.chats[d.chatID]).value;
      {chat.participantOne, chat.participantTwo}
    else {}
  }

  /** Sender and counterpart are the two participants. */
  lemma CounterpartIsTheOther(w: World, d: ItemDocument, eventID: string)
    requires Counterpart(w.store.db.chats, EnvelopeFor(d, eventID)).Some?
    ensures Participants(w, d) == {d.message.senderID, Counterpart(w.store.db.chats, EnvelopeFor(d, eventID)).value}
  {
  }

  /** An acknowledged message, in a world that meets the invariant. */
  ghost predicate Delivered(w: World, i: nat) {
    && MessageOf(w, i).Some?
    && var d := MessageOf(w, i).value;
    && d.message.senderID in Participants(w, d)
    && forall user :: user in Participants(w, d) ==>
         (user, NotificationFor(d, w.relay.stream[i].envelope.eventID)) in w.desk.delivered
  }

  /** A message that was given up for good: recorded, and for cause. */
  ghost predicate Refused(size: Relay.Envelope -> nat, w: World, i: nat) {
    && MessageOf(w, i).Some? && D.HasRecord(w.relay.stream, i)
    && var d := MessageOf(w, i).value;
    || size(EnvelopeFor(d, w.relay.stream[i].envelope.eventID)) > D.MAX_EVENT_BYTES
    || exists user :: user in Participants(w, d) && !D.ValidRealtimeUserID(user)
  }

  lemma SettledHolds(size: Relay.Envelope -> nat, w: World, i: nat)
    requires Inv(size, w) && i in w.desk.settled
    ensures if w.desk.settled[i].Acked? then Delivered(w, i) else Refused(size, w, i)
  {
    hide Delivered;
    hide Refused;
    hide MessageStore.Inv;
    hide Relay.Inv;
    assert SettlementHolds(size, w.store.db.chats, w.relay.stream, w.desk.delivered, i, w.desk.settled[i]);
    SettledEntry(size, w, i);
    hide Inv;
    hide SettlementHolds;
    var e := w.relay.stream[i].envelope;
    SettlementMeans(size, w, i, w.store.db.timeline[e.payload.messageID], e);
  }

  lemma SettledEntry(size: Relay.Envelope -> nat, w: World, i: nat)
    requires Inv(size, w) && i < |w.relay.stream| && w.relay.stream[i].Created?
    ensures
      var e := w.relay.stream[i].envelope;
      && e.payload.messageID in w.store.db.timeline
      && var d := w.store.db.timeline[e.payload.messageID];
      && MessageOf(w, i) == Some(d) && e == EnvelopeFor(d, e.eventID) && D.PublicEvent(e) == NotificationFor(d, e.eventID)
  {
    StreamEntryIsItem(size, w, i);
    hide Inv;
    hide GoodItem;
    hide GoodEnvelope;
  }

  lemma SettlementMeans(size: Relay.Envelope -> nat, w: World, i: nat, d: ItemDocument, e: Relay.Envelope)
    requires i in w.desk.settled
    requires SettlementHolds(size, w.store.db.chats, w.relay.stream, w.desk.delivered, i, w.desk.settled[i])
    requires e == w.relay.stream[i].envelope && e == EnvelopeFor(d, e.eventID) && MessageOf(w, i) == Some(d)
    requires D.PublicEvent(e) == NotificationFor(d, e.eventID)
    ensures if w.desk.settled[i].Acked? then Delivered(w, i) else Refused(size, w, i)
  {
    assert e.payload.senderID == d.message.senderID;
    hide D.PublicEvent;
    hide NotificationFor;
    hide EnvelopeFor;
    hide MessageOf;
    hide D.ValidRealtimeUserID;
    if Counterpart(w.store.db.chats, e).Some? {
      CounterpartIsTheOther(w, d, e.eventID);
    }
  }

  /** A message acknowledged to the stream has been delivered, field by field as it
      is stored, to the subjects of both participants of its chat. */
  lemma AcknowledgedMeansDelivered(size: Relay.Envelope -> nat, w: World, events: seq<Event>, i: nat)
    requires Initial(w)
    requires var end := Run(size, w, events); i in end.desk.settled && end.desk.settled[i].Acked?
    ensures Delivered(Run(size, w, events), i)
  {
    hide Delivered;
    hide Inv;
    InitialInv(size, w);
    RunKeepsInv(size, w, events);
    SettledHolds(size, Run(size, w, events), i);
  }

  /** A message terminated has its failure record in the stream, and is too large
      or goes to a participant whose identifier is not a subject token. So within
      64 KiB and between such participants no message is ever given up. */
  lemma TerminatedMeansRefused(size: Relay.Envelope -> nat, w: World, events: seq<Event>, i: nat)
    requires Initial(w)
    requires var end := Run(size, w, events); i in end.desk.settled && end.desk.settled[i].Terminated?
    ensures Refused(size, Run(size, w, events), i)
  {
    hide Refused;
    hide Inv;
    InitialInv(size, w);
    RunKeepsInv(size, w, events);
    SettledHolds(size, Run(size, w, events), i);
  }

  /** A delivery of some stored message to one of its chat's participants. */
  ghost predicate Genuine(w: World, user: string, n: D.RealtimeEvent) {
    && n.messageID in w.store.db.timeline
    && n == NotificationFor(w.store.db.timeline[n.messageID], n.eventID)
    && n.eventID in w.store.db.outbox
    && var d := w.store.db.timeline[n.messageID];
    && d.chatID in w.store.db.chats && MessageStore.Participates(w.store.db.chats[d.chatID], d.message.senderID)
    && (user == d.message.senderID || (user in Participants(w, d) && d.message.senderID in Participants(w, d)))
  }

  /** Nobody is told anything but stored messages of a chat they take part in. */
  lemma OnlyStoredMessagesAreDelivered(size: Relay.Envelope -> nat, w: World, events: seq<Event>, user: string, n: D.RealtimeEvent)
    requires Initial(w) && (user, n) in Run(size, w, events).desk.delivered
    ensures Genuine(Run(size, w, events), user, n)
  {
    hide Genuine;
    hide Inv;
    InitialInv(size, w);
    RunKeepsInv(size, w, events);
    DeliveryIsGenuine(size, Run(size, w, events), user, n);
  }

  lemma DeliveryIsGenuine(size: Relay.Envelope -> nat, w: World, user: string, n: D.RealtimeEvent)
    requires Inv(size, w) && (user, n) in w.desk.delivered
    ensures Genuine(w, user, n)
  {
    hide MessageStore.Inv;
    hide Relay.Inv;
    hide Counterpart;
    hide Genuine;
    var chats, stream := w.store.db.chats, w.relay.stream;
    assert Sent(chats, stream, (user, n).0, (user, n).1);
    var i :| 0 <= i < |stream| && stream[i].Created? && D.PublicEvent(stream[i].envelope) == n
             && (user == stream[i].envelope.payload.senderID || Counterpart(chats, stream[i].envelope) == Some(user));
    StreamEntryIsItem(size, w, i);
    SettledEntry(size, w, i);
    hide Inv;
    EntryIsGenuine(w, stream[i].envelope, user);
  }

  lemma EntryIsGenuine(w: World, e: Relay.Envelope, user: string)
    requires e.payload.messageID in w.store.db.timeline && e.eventID in w.store.db.outbox
    requires
      var d := w.store.db.timeline[e.payload.messageID];
      e == EnvelopeFor(d, e.eventID) && D.PublicEvent(e) == NotificationFor(d, e.eventID) && GoodItem(d, w.store.db.chats)
    requires user == e.payload.senderID || Counterpart(w.store.db.chats, e) == Some(user)
    ensures Genuine(w, user, D.PublicEvent(e))
  {
    var d := w.store.db.timeline[e.payload.messageID];
    if Counterpart(w.store.db.chats, e).Some? {
      CounterpartIsTheOther(w, d, e.eventID);
    }
    hide ToDomain;
    hide ValidContent;
    hide Counterpart;
    hide Participants;
  }

  // ----- Nothing in the way ------------------------------------------------------------------

  /** The dispatch of one stream entry, with the steps it takes. */
  function Dispatching(id: nat, i: nat): seq<D.Event> {
    [D.Receive(id, i), D.Examine(id), D.Notify(id, D.Confirmed), D.Notify(id, D.Confirmed), D.Acknowledge(id)]
  }

  function Deliveries(steps: seq<D.Event>): seq<Event> {
    seq(|steps|, i requires 0 <= i < |steps| => Delivering(steps[i]))
  }

  /** Dispatching without a failure record moves the desk alone. */
  lemma {:induction false} DeliveriesMoveTheDesk(size: Relay.Envelope -> nat, w: World, events: seq<Event>, steps: seq<D.Event>)
    requires forall j :: 0 <= j < |steps| ==> !steps[j].RecordFailure?
    ensures
      var end := Run(size, w, events);
      var played := D.Play(end.store.db.chats, size, (end.relay.stream, end.desk), steps);
      Run(size, w, events + Deliveries(steps)) == end.(desk := played.1) && played.0 == end.relay.stream
    decreases |steps|
  {
    hide D.Step;
    if steps == [] {
      assert events + Deliveries(steps) == events;
    } else {
      var more := events + [Delivering(steps[0])];
      assert more[..|more| - 1] == events && more[|more| - 1] == Delivering(steps[0]);
      assert more + Deliveries(steps[1..]) == events + Deliveries(steps);
      DeliveriesMoveTheDesk(size, w, more, steps[1..]);
    }
  }

  /** The desk's part of it. */
  lemma DeskDispatches(size: Relay.Envelope -> nat, chats: map<string, ChatDocument>, stream: seq<Relay.StreamMessage>,
                       k: D.Desk, id: nat, i: nat, e: Relay.Envelope, r: string)
    requires i < |stream| && stream[i] == Relay.Created(e) && i !in k.settled && id !in k.dispatchers
    requires D.Examined(chats, size, e) == Some(D.Resolved(r))
    requires D.ValidRealtimeUserID(r) && D.ValidRealtimeUserID(D.Sender(e)) && D.ValidRealtimeMessage(D.PublicEvent(e))
    ensures
      var played := D.Play(chats, size, (stream, k), Dispatching(id, i));
      var k' := played.1;
      && played.0 == stream
      && k'.settled == k.settled[i := D.Acked] && k'.dispatchers == k.dispatchers
      && k'.delivered == k.delivered + {(r, D.PublicEvent(e)), (D.Sender(e), D.PublicEvent(e))}
  {
    hide D.ValidRealtimeUserID;
    hide D.ValidRealtimeMessage;
    hide D.PublicEvent;
    hide D.Sender;
    hide D.Examined;
    var a := D.Step(chats, size, stream, k, D.Receive(id, i));
    assert a == k.(dispatchers := k.dispatchers[id := D.Dispatcher(i, D.Received)]);
    var b := D.Step(chats, size, stream, a, D.Examine(id));
    assert b.dispatchers[id] == D.Dispatcher(i, D.Resolved(r)) && b.dispatchers - {id} == k.dispatchers - {id};
    var c := D.Step(chats, size, stream, b, D.Notify(id, D.Confirmed));
    assert c.dispatchers[id] == D.Dispatcher(i, D.Notified(r)) && c.dispatchers - {id} == k.dispatchers - {id};
    var d := D.Step(chats, size, stream, c, D.Notify(id, D.Confirmed));
    assert d.dispatchers[id] == D.Dispatcher(i, D.Dispatched(r)) && d.dispatchers - {id} == k.dispatchers - {id};
    assert k.dispatchers - {id} == k.dispatchers;
    PlayDispatching(chats, size, stream, k, id, i);
    hide D.Play;
  }

  lemma PlayOne(chats: map<string, ChatDocument>, size: Relay.Envelope -> nat, s: (seq<Relay.StreamMessage>, D.Desk), events: seq<D.Event>)
    requires events != []
    ensures D.Play(chats, size, s, events) == D.Play(chats, size, D.Advance(chats, size, s, events[0]), events[1..])
  {
  }

  lemma PlayDispatching(chats: map<string, ChatDocument>, size: Relay.Envelope -> nat, stream: seq<Relay.StreamMessage>,
                        k: D.Desk, id: nat, i: nat)
    ensures
      var a := D.Step(chats, size, stream, D.Step(chats, size, stream, k, D.Receive(id, i)), D.Examine(id));
      var b := D.Step(chats, size, stream, D.Step(chats, size, stream, a, D.Notify(id, D.Confirmed)), D.Notify(id, D.Confirmed));
      D.Play(chats, size, (stream, k), Dispatching(id, i)) == (stream, D.Step(chats, size, stream, b, D.Acknowledge(id)))
  {
    hide D.Step;
    var t := Dispatching(id, i);
    assert t[1..][1..][1..][1..][1..] == [];
    var s0 := (stream, k);
    PlayOne(chats, size, s0, t);
    var s1 := D.Advance(chats, size, s0, t[0]);
    PlayOne(chats, size, s1, t[1..]);
    var s2 := D.Advance(chats, size, s1, t[1]);
    PlayOne(chats, size, s2, t[1..][1..]);
    var s3 := D.Advance(chats, size, s2, t[2]);
    PlayOne(chats, size, s3, t[1..][1..][1..]);
    var s4 := D.Advance(chats, size, s3, t[3]);
    PlayOne(chats, size, s4, t[1..][1..][1..][1..]);
  }

  /** What the dispatcher's checks come to for a stored message within the limits. */
  lemma StoredMessageIsAddressed(size: Relay.Envelope -> nat, w: World, i: nat, d: ItemDocument)
    requires Inv(size, w) && MessageOf(w, i) == Some(d)
    requires d.message.senderID in Participants(w, d) && forall user :: user in Participants(w, d) ==> D.ValidRealtimeUserID(user)
    requires size(w.relay.stream[i].envelope) <= 64 * 1024
    ensures
      var e := w.relay.stream[i].envelope;
      && Counterpart(w.store.db.chats, e).Some?
      && var r := Counterpart(w.store.db.chats, e).value;
      && Participants(w, d) == {d.message.senderID, r}
      && D.Examined(w.store.db.chats, size, e) == Some(D.Resolved(r)) && D.Sender(e) == d.message.senderID
      && D.ValidRealtimeUserID(r) && D.ValidRealtimeUserID(D.Sender(e)) && D.ValidRealtimeMessage(D.PublicEvent(e))
      && D.PublicEvent(e) == NotificationFor(d, e.eventID)
  {
    hide MessageStore.Inv;
    hide Relay.Inv;
    hide D.ValidRealtimeUserID;
    StreamEntryIsItem(size, w, i);
    SettledEntry(size, w, i);
    hide Inv;
    hide GoodItem;
    var e := w.relay.stream[i].envelope;
    assert e.payload.senderID == d.message.senderID && e.payload.chatID == d.chatID;
    SenderHasCounterpart(w, d, e);
    CounterpartIsTheOther(w, d, e.eventID);
    D.PublisherRefusesOnlyTheSender(e);
    hide D.ValidRealtimeMessage;
    hide D.PublicEvent;
    hide D.ValidEnvelope;
    hide Chats.ToChat;
    hide NotificationFor;
  }

  lemma SenderHasCounterpart(w: World, d: ItemDocument, e: Relay.Envelope)
    requires d.message.senderID in Participants(w, d) && e.payload.senderID == d.message.senderID && e.payload.chatID == d.chatID
    ensures Counterpart(w.store.db.chats, e).Some?
  {
  }

  /** A message in the stream that nothing disturbs reaches both participants and is
      acknowledged: within 64 KiB, and between participants whose identifiers are subject
      tokens. */
  lemma UndisturbedMessageIsDelivered(size: Relay.Envelope -> nat, w: World, events: seq<Event>, i: nat, id: nat, d: ItemDocument)
    requires Initial(w) && MessageOf(Run(size, w, events), i) == Some(d)
    requires
      var end := Run(size, w, events);
      && i !in end.desk.settled && id !in end.desk.dispatchers
      && size(end.relay.stream[i].envelope) <= 64 * 1024
      && d.message.senderID in Participants(end, d) && forall user :: user in Participants(end, d) ==> D.ValidRealtimeUserID(user)
    ensures
      var w' := Run(size, w, events + Deliveries(Dispatching(id, i)));
      && MessageOf(w', i) == Some(d) && i in w'.desk.settled && w'.desk.settled[i] == D.Acked
      && |Participants(w', d)| == 2 && d.message.senderID in Participants(w', d)
      && forall user :: user in Participants(w', d) ==> (user, NotificationFor(d, w'.relay.stream[i].envelope.eventID)) in w'.desk.delivered
  {
    hide Inv;
    hide Initial;
    hide Run;
    hide Dispatching;
    hide D.ValidRealtimeUserID;
    hide NotificationFor;
    hide D.Play;
    hide Chats.ToChat;
    hide Participants;
    InitialInv(size, w);
    RunKeepsInv(size, w, events);
    DispatchingMovesTheDesk(size, w, events, id, i);
    var end := Run(size, w, events);
    var w' := Run(size, w, events + Deliveries(Dispatching(id, i)));
    DispatchDelivers(size, end, i, id, d);
    assert w'.store == end.store && w'.relay == end.relay;
    SameChats(end, w', d);
  }

  lemma DispatchingMovesTheDesk(size: Relay.Envelope -> nat, w: World, events: seq<Event>, id: nat, i: nat)
    ensures
      var end := Run(size, w, events);
      Run(size, w, events + Deliveries(Dispatching(id, i))) ==
        end.(desk := D.Play(end.store.db.chats, size, (end.relay.stream, end.desk), Dispatching(id, i)).1)
  {
    DeliveriesMoveTheDesk(size, w, events, Dispatching(id, i));
  }

  lemma SameChats(w: World, w': World, d: ItemDocument)
    requires w'.store == w.store
    ensures Participants(w', d) == Participants(w, d)
  {
  }

  lemma DispatchDelivers(size: Relay.Envelope -> nat, w: World, i: nat, id: nat, d: ItemDocument)
    requires Inv(size, w) && MessageOf(w, i) == Some(d) && i !in w.desk.settled && id !in w.desk.dispatchers
    requires size(w.relay.stream[i].envelope) <= 64 * 1024
    requires d.message.senderID in Participants(w, d) && forall user :: user in Participants(w, d) ==> D.ValidRealtimeUserID(user)
    ensures
      var k' := D.Play(w.store.db.chats, size, (w.relay.stream, w.desk), Dispatching(id, i)).1;
      && |Participants(w, d)| == 2 && i in k'.settled && k'.settled[i] == D.Acked
      && forall user :: user in Participants(w, d) ==> (user, NotificationFor(d, w.relay.stream[i].envelope.eventID)) in k'.delivered
  {
    hide Inv;
    hide Dispatching;
    hide D.Play;
    hide D.Examined;
    hide D.ValidRealtimeUserID;
    hide D.ValidRealtimeMessage;
    hide D.PublicEvent;
    hide D.Sender;
    hide Counterpart;
    hide NotificationFor;
    hide Participants;
    StoredMessageIsAddressed(size, w, i, d);
    var e := w.relay.stream[i].envelope;
    var r := Counterpart(w.store.db.chats, e).value;
    DeskDispatches(size, w.store.db.chats, w.relay.stream, w.desk, id, i, e, r);
    ParticipantsDiffer(w, d, r);
  }

  lemma ParticipantsDiffer(w: World, d: ItemDocument, r: string)
    requires Participants(w, d) == {d.message.senderID, r} && d.message.senderID in Participants(w, d)
    ensures |Participants(w, d)| == 2
  {
  }
}
