// Delivering stream messages: the dispatcher's validation, its two realtime
// publications, and how a message is settled (acknowledged or terminated).

module Chats {
  import opened Common
  import opened Timeline
  import opened Documents
  import opened Ordering
  import Text

  datatype Chat = Chat(participantOne: string, participantTwo: string)

  datatype ChatError = InvalidSequenceCounter | InvalidParticipant | SameParticipant | NotCanonical

  function OrderParticipants(first: string, second: string): (string, string) {
    if TextLess(first, second) then (first, second) else (second, first)
  }

  /** RestoreDirect, for the fields the model keeps. */
  function RestoreDirect(first: string, second: string, lastSequence: int): Result<Chat, ChatError> {
    if lastSequence < 0 || lastSequence > MAX_SEQUENCE then Err(InvalidSequenceCounter)
    else if first == "" || second == "" then Err(InvalidParticipant)
    else if first == second then Err(SameParticipant)
    else
      var (one, two) := OrderParticipants(first, second);
      Ok(Chat(one, two))
  }

  function RelatedUserID(chat: Chat, current: string): Option<string> {
    if current == chat.participantOne then Some(chat.participantTwo)
    else if current == chat.participantTwo then Some(chat.participantOne)
    else None
  }

  /** A chat does not depend on the order its participants are given in, and each
      of the two, and nobody else, is related to the other. */
  lemma RelationIsSymmetric(a: string, b: string, n: int, user: string)
    ensures RestoreDirect(a, b, n) == RestoreDirect(b, a, n)
    ensures RestoreDirect(a, b, n).Ok? <==> a != "" && b != "" && a != b && 0 <= n <= 9_007_199_254_740_991
    ensures RestoreDirect(a, b, n).Ok? ==>
      && RelatedUserID(RestoreDirect(a, b, n).value, user)
         == (if user == a then Some(b) else if user == b then Some(a) else None)
      && !TextLess(RestoreDirect(a, b, n).value.participantTwo, RestoreDirect(a, b, n).value.participantOne)
  {
    TextOrder(a, b);
  }

  /** The repository's mapping: the stored order must be the canonical one. */
  function ToChat(d: ChatDocument): Result<Chat, ChatError> {
    var one, two := ParseID(d.participantOne), ParseID(d.participantTwo);
    if one.Err? || two.Err? then Err(InvalidParticipant)
    else if !TextLess(one.value, two.value) then Err(NotCanonical)
    else RestoreDirect(one.value, two.value, d.lastSequence)
  }

  /** A stored chat of two trimmed identifiers in canonical order reads as itself. */
  lemma CanonicalChatReads(d: ChatDocument)
    requires Text.Trimmed(d.participantOne) && Text.Trimmed(d.participantTwo) && d.participantOne != ""
    ensures ToChat(d) == Ok(Chat(d.participantOne, d.participantTwo)) <==>
            TextLess(d.participantOne, d.participantTwo) && 0 <= d.lastSequence <= 9_007_199_254_740_991
  {
    Text.TrimmedIsFixed(d.participantOne);
    Text.TrimmedIsFixed(d.participantTwo);
    TextOrder(d.participantOne, d.participantTwo);
  }
}

module Delivery {
  import opened Common
  import opened Timeline
  import opened Documents
  import opened Relay
  import opened Chats
  import Text

  // ----- Validation ------------------------------------------------------------------

  const MAX_EVENT_BYTES := 64 * 1024

  /** validateMessageCreated. */
  predicate ValidEnvelope(e: Envelope) {
    && !Text.Blank(e.eventID)
    && e.eventType == MESSAGE_CREATED && e.aggregateType == AGGREGATE_CHAT
    && !Text.Blank(e.aggregateID) && e.aggregateID == e.payload.chatID
    && e.occurredAt != 0
    && !Text.Blank(e.payload.messageID) && !Text.Blank(e.payload.senderID)
    && 0 < e.payload.sequence <= MAX_SEQUENCE
    && e.payload.createdAt != 0
    && ValidContent(e.payload.content)
    && (e.payload.clientMessageID == "" || ParseClientMessageID(e.payload.clientMessageID).Ok?)
  }

  /** RealtimeMessageCreated, with the fields of its data part. */
  datatype RealtimeEvent = RealtimeEvent(
    version: int, eventType: string, eventID: string, occurredAt: int,
    messageID: string, clientMessageID: string, chatID: string, sequence: int, senderID: string,
    content: Content, createdAt: int)

  const PROTOCOL_VERSION := 1
  const REALTIME_MESSAGE_CREATED := "message.created"

  function PublicEvent(e: Envelope): RealtimeEvent {
    var p := e.payload;
    RealtimeEvent(PROTOCOL_VERSION, REALTIME_MESSAGE_CREATED, e.eventID, e.occurredAt,
                  p.messageID, p.clientMessageID, p.chatID, p.sequence, p.senderID, p.content, p.createdAt)
  }

  /** A user identifier that is one token of a NATS subject. */
  predicate ValidRealtimeUserID(id: string) {
    && id != "" && ByteLength(id) <= 256
    && forall i :: 0 <= i < |id| ==> id[i] as int > 32 && id[i] as int != 127 && id[i] !in {'.', '*', '>'}
  }

  const SUBJECT_PREFIX := "realtime.user."

  /** The tokens of a NATS subject. */
  function Tokens(subject: string): (r: seq<string>)
    ensures |r| > 0
  {
    if subject == "" then [""]
    else
      var rest := Tokens(subject[1..]);
      if subject[0] == '.' then [""] + rest else [[subject[0]] + rest[0]] + rest[1..]
  }

  lemma {:induction false} TokensOfOne(s: string)
    ensures Tokens(s) == [s] <==> '.' !in s
    ensures '.' in s ==> |Tokens(s)| >= 2
  {
    if s != "" {
      TokensOfOne(s[1..]);
      assert s == [s[0]] + s[1..];
    }
  }

  /** The usable identifiers are exactly those of up to 256 bytes that are one token of
      their subject, without wildcards, white space and control characters. */
  lemma SubjectIsTheUsersOwn(user: string)
    ensures ValidRealtimeUserID(user) <==>
      && Tokens(SUBJECT_PREFIX + user) == ["realtime", "user", user] && user != "" && ByteLength(user) <= 256
      && '*' !in user && '>' !in user && forall i :: 0 <= i < |user| ==> user[i] > ' ' && user[i] != 127 as char
  {
    TokensOfOne(user);
    var subject := SUBJECT_PREFIX + user;
    PrefixIsTwoTokens(user);
    assert ['.'][0] == '.';
  }

  lemma PrefixIsTwoTokens(user: string)
    ensures Tokens(SUBJECT_PREFIX + user) == ["realtime", "user"] + Tokens(user)
  {
    TokenFirst("realtime", "user." + user);
    TokenFirst("user", user);
    assert SUBJECT_PREFIX + user == "realtime" + "." + ("user." + user);
    assert "user." + user == "user" + "." + user;
  }

  lemma {:induction false} TokenFirst(token: string, rest: string)
    requires '.' !in token
    ensures Tokens(token + "." + rest) == [token] + Tokens(rest)
  {
    var s := token + "." + rest;
    if token == "" {
      assert s == "." + rest && s[1..] == rest;
    } else {
      TokenFirst(token[1..], rest);
      assert s[1..] == token[1..] + "." + rest;
      assert token == [token[0]] + token[1..];
    }
  }

  predicate ValidRealtimeMessage(e: RealtimeEvent) {
    && e.version == PROTOCOL_VERSION && e.eventType == REALTIME_MESSAGE_CREATED
    && !Text.Blank(e.eventID) && e.occurredAt != 0
    && !Text.Blank(e.messageID) && !Text.Blank(e.chatID) && ValidRealtimeUserID(e.senderID)
    && 0 < e.sequence <= MAX_SEQUENCE
    && e.createdAt != 0
    && ValidContent(e.content)
    && (e.clientMessageID == "" || ParseClientMessageID(e.clientMessageID).Ok?)
  }

  /** After the dispatcher's own validation, only the sender's identifier can make
      the realtime publisher refuse the event. */
  lemma PublisherRefusesOnlyTheSender(e: Envelope)
    requires ValidEnvelope(e)
    ensures ValidRealtimeMessage(PublicEvent(e)) <==> ValidRealtimeUserID(e.payload.senderID)
  {
  }

  /** A subject carries complete messages of the one protocol version only: whatever the
      publisher and the subscriber let through is one. */
  lemma SubjectsCarryCompleteMessages(e: RealtimeEvent)
    ensures ValidRealtimeMessage(e) <==>
      && e == RealtimeEvent(1, "message.created", e.eventID, e.occurredAt, e.messageID, e.clientMessageID, e.chatID, e.sequence,
                            e.senderID, e.content, e.createdAt)
      && !Text.Blank(e.eventID) && !Text.Blank(e.messageID) && !Text.Blank(e.chatID) && ValidRealtimeUserID(e.senderID)
      && 1 <= e.sequence <= 9_007_199_254_740_991 && e.occurredAt != 0 && e.createdAt != 0 && ValidContent(e.content)
      && (e.clientMessageID != "" ==> ParseClientMessageID(e.clientMessageID).Ok?)
  {
  }

  /** Trimming keeps an identifier usable as a subject token. */
  lemma TrimmedStaysValid(id: string)
    requires ValidRealtimeUserID(id) && !Text.Blank(id)
    ensures ValidRealtimeUserID(Text.TrimSpace(id))
  {
    TrimLeftStaysValid(id);
    TrimRightStaysValid(Text.TrimLeft(id));
  }

  lemma {:induction false} TrimLeftStaysValid(id: string)
    requires ValidRealtimeUserID(id) && Text.TrimLeft(id) != ""
    ensures ValidRealtimeUserID(Text.TrimLeft(id))
  {
    if Text.IsSpace(id[0]) {
      TrimLeftStaysValid(id[1..]);
    }
  }

  lemma {:induction false} TrimRightStaysValid(id: string)
    requires ValidRealtimeUserID(id) && Text.TrimRight(id) != ""
    ensures ValidRealtimeUserID(Text.TrimRight(id))
  {
    if Text.IsSpace(id[|id| - 1]) {
      ShorterIsSmaller(id);
      TrimRightStaysValid(id[..|id| - 1]);
    }
  }

  lemma {:induction false} ShorterIsSmaller(s: string)
    requires s != ""
    ensures ByteLength(s[..|s| - 1]) <= ByteLength(s)
  {
    if |s| > 1 {
      ShorterIsSmaller(s[1..]);
      assert s[..|s| - 1][1..] == s[1..][..|s| - 2];
    }
  }

  // ----- One message, step by step ----------------------------------------------------

  datatype Stage =
    | Received
    | Resolved(recipient: string)
    | Notified(recipient: string)
    | Dispatched(recipient: string)
    | Rejected(reason: string)
    | Recorded

  /** A dispatcher at work on the stream message at an index. */
  datatype Dispatcher = Dispatcher(index: nat, stage: Stage)

  datatype Settlement = Acked | Terminated

  /** The dispatchers, what each user's subject has received, and the settled
      messages. */
  datatype Desk = Desk(dispatchers: map<nat, Dispatcher>, delivered: set<(string, RealtimeEvent)>,
                       settled: map<nat, Settlement>)

  /** How a publication ends: confirmed, landed without the publisher knowing, or not at all. */
  datatype Sending = Confirmed | LandedUnseen | NotSent

  datatype Event =
    | Receive(id: nat, index: nat)
    | Examine(id: nat)
    | Notify(id: nat, sending: Sending)
    | Acknowledge(id: nat)
    | RecordFailure(id: nat, sending: Sending)
    | Terminate(id: nat)
    | GiveUp(id: nat)                                    // a negative acknowledgement, a timeout or a crash

  const INVALID_ENVELOPE := "invalid_envelope"
  const INVALID_EVENT := "invalid_event"

  /** user.ParseID on a sender that is not blank. */
  function Sender(e: Envelope): string {
    Text.TrimSpace(e.payload.senderID)
  }

  type ChatsByID = map<string, ChatDocument>

  /** The dispatcher's checks up to the first publication; no stage means a
      failed lookup, after which the message is retried. */
  function Examined(chats: ChatsByID, size: Envelope -> nat, e: Envelope): Option<Stage> {
    if size(e) > MAX_EVENT_BYTES then Some(Rejected(INVALID_ENVELOPE))
    else if !ValidEnvelope(e) then Some(Rejected(INVALID_EVENT))
    else
      var chatID, sender := ParseID(e.payload.chatID), ParseID(e.payload.senderID);
      if chatID.Err? || sender.Err? || chatID.value !in chats then Some(Rejected(INVALID_EVENT))
      else
        var chat := ToChat(chats[chatID.value]);
        if chat.Err? then None
        else match RelatedUserID(chat.value, sender.value)
          case None => Some(Rejected(INVALID_EVENT))
          case Some(recipient) => Some(Resolved(recipient))
  }

  function With(k: Desk, id: nat, stage: Option<Stage>): Desk
    requires id in k.dispatchers
  {
    match stage
    case None => k.(dispatchers := k.dispatchers - {id})
    case Some(s) => k.(dispatchers := k.dispatchers[id := Dispatcher(k.dispatchers[id].index, s)])
  }

  /** One PublishMessageCreated call for `user`, moving on to `done` when confirmed. */
  function Notifying(k: Desk, id: nat, user: string, e: RealtimeEvent, sending: Sending, done: Stage): Desk
    requires id in k.dispatchers
  {
    if !ValidRealtimeUserID(user) || !ValidRealtimeMessage(e) then With(k, id, Some(Rejected(INVALID_EVENT)))
    else if sending.NotSent? then With(k, id, None)
    else With(k.(delivered := k.delivered + {(user, e)}), id, if sending.Confirmed? then Some(done) else None)
  }

  /** The record this event adds to the stream, if any. The stream recognises a
      second record for the same source message. */
  function NewRecord(k: Desk, stream: seq<StreamMessage>, e: Event): Option<StreamMessage> {
    if e.RecordFailure? && e.id in k.dispatchers && k.dispatchers[e.id].stage.Rejected? && !e.sending.NotSent?
       && !HasRecord(stream, k.dispatchers[e.id].index)
    then Some(FailureRecord(k.dispatchers[e.id].index + 1, k.dispatchers[e.id].stage.reason))
    else None
  }

  predicate HasRecord(stream: seq<StreamMessage>, index: nat) {
    exists i :: 0 <= i < |stream| && stream[i].FailureRecord? && stream[i].source == index + 1
  }

  function Step(chats: ChatsByID, size: Envelope -> nat, stream: seq<StreamMessage>, k: Desk, e: Event): Desk {
    match e
    case Receive(id, index) =>
      if id !in k.dispatchers && index < |stream| && stream[index].Created? && index !in k.settled
      then k.(dispatchers := k.dispatchers[id := Dispatcher(index, Received)])
      else k
    case _ =>
      if e.id !in k.dispatchers || k.dispatchers[e.id].index >= |stream| || !stream[k.dispatchers[e.id].index].Created? then k
      else Worked(chats, size, stream[k.dispatchers[e.id].index].envelope, k, e)
  }

  /** A step of a dispatcher that has its message. */
  function Worked(chats: ChatsByID, size: Envelope -> nat, envelope: Envelope, k: Desk, e: Event): Desk
    requires !e.Receive? && e.id in k.dispatchers
  {
    var x := k.dispatchers[e.id];
    match e
    case Examine(id) => if x.stage.Received? then With(k, id, Examined(chats, size, envelope)) else k
    case Notify(id, sending) =>
      (match x.stage
       case Resolved(r) => Notifying(k, id, r, PublicEvent(envelope), sending, Notified(r))
       case Notified(r) => Notifying(k, id, Sender(envelope), PublicEvent(envelope), sending, Dispatched(r))
       case _ => k)
    case Acknowledge(id) => if x.stage.Dispatched? then Settle(k, id, Acked) else k
    case RecordFailure(id, sending) =>
      if x.stage.Rejected? then With(k, id, if sending.Confirmed? then Some(Recorded) else None) else k
    case Terminate(id) => if x.stage.Recorded? then Settle(k, id, Terminated) else k
    case GiveUp(id) => With(k, id, None)
  }

  /** The first settlement of a message stands. */
  function Settle(k: Desk, id: nat, s: Settlement): Desk
    requires id in k.dispatchers
  {
    With(if k.dispatchers[id].index in k.settled then k else k.(settled := k.settled[k.dispatchers[id].index := s]), id, None)
  }

  /** One event on the stream and the desk together. */
  function Advance(chats: ChatsByID, size: Envelope -> nat, s: (seq<StreamMessage>, Desk), e: Event): (seq<StreamMessage>, Desk) {
    (match NewRecord(s.1, s.0, e) case None => s.0 case Some(m) => s.0 + [m], Step(chats, size, s.0, s.1, e))
  }

  function Play(chats: ChatsByID, size: Envelope -> nat, s: (seq<StreamMessage>, Desk), events: seq<Event>)
    : (seq<StreamMessage>, Desk)
    decreases |events|
  {
    if events == [] then s else Play(chats, size, Advance(chats, size, s, events[0]), events[1..])
  }

  // ----- The runner's own form -----------------------------------------------------------

  /** What the outside world does to one processing of a message. */
  datatype Weather = Weather(lookupFails: bool, toRecipient: Sending, toSender: Sending, record: Sending, settles: bool)

  /** The fate of one processing: retried, refused for a reason, or addressed. */
  function Fate(chats: ChatsByID, size: Envelope -> nat, e: Envelope, lookupFails: bool): Option<Stage> {
    if size(e) <= MAX_EVENT_BYTES && ValidEnvelope(e) && lookupFails then None
    else match Examined(chats, size, e)
      case Some(Resolved(r)) =>
        if ValidRealtimeUserID(r) && ValidRealtimeMessage(PublicEvent(e)) then Some(Resolved(r)) else Some(Rejected(INVALID_EVENT))
      case other => other
  }

  /** Nothing but a created message of a chat's participant is ever addressed, and it goes
      to the other participant. */
  lemma OnlyMessagesAreAddressed(chats: ChatsByID, size: Envelope -> nat, e: Envelope, lookupFails: bool, r: string)
    requires Fate(chats, size, e, lookupFails) == Some(Resolved(r))
    ensures !lookupFails && size(e) <= 65_536
    ensures e.eventType == "chat.message.created.v1" && e.aggregateType == "CHAT" && e.aggregateID == e.payload.chatID
    ensures !Text.Blank(e.eventID) && !Text.Blank(e.payload.messageID) && !Text.Blank(e.payload.senderID)
    ensures e.occurredAt != 0 && e.payload.createdAt != 0 && 0 < e.payload.sequence <= 9_007_199_254_740_991
    ensures PublicEvent(e).version == 1 && PublicEvent(e).eventType == "message.created"
    ensures
      var chatID := Text.TrimSpace(e.payload.chatID);
      && chatID in chats && ToChat(chats[chatID]).Ok?
      && {ToChat(chats[chatID]).value.participantOne, ToChat(chats[chatID]).value.participantTwo} == {Sender(e), r} && r != Sender(e)
  {
  }

  /** What the recorded reason says: the envelope's size, or anything else. */
  lemma RefusalHasItsReason(chats: ChatsByID, size: Envelope -> nat, e: Envelope, lookupFails: bool, reason: string)
    requires Fate(chats, size, e, lookupFails) == Some(Rejected(reason))
    ensures reason == if size(e) <= 65_536 then "invalid_event" else "invalid_envelope"
  {
  }

  /** A failed chat lookup decides nothing about a message: it is retried, unless no chat at
      all could make it acceptable. */
  lemma FailedLookupDecidesNothing(chats: ChatsByID, others: ChatsByID, size: Envelope -> nat, e: Envelope)
    ensures
      var failed := Fate(chats, size, e, true);
      && (failed != None ==> failed.value.Rejected? && Fate(others, size, e, false) == failed)
      && (failed == None ==> Fate(map[], size, e, false) == Some(Rejected("invalid_event"))
                             && size(e) <= 65_536 && !Text.Blank(e.eventID) && 0 < e.payload.sequence)
  {
  }

  function AnySize(e: Envelope): nat {
    0
  }

  /** The size decides on its own, and on nothing else. */
  lemma FateBySize(chats: ChatsByID, size: Envelope -> nat, e: Envelope, lookupFails: bool)
    ensures
      var fate := Fate(chats, AnySize, e, lookupFails);
      && Fate(chats, size, e, lookupFails) == (if size(e) > MAX_EVENT_BYTES then Some(Rejected(INVALID_ENVELOPE)) else fate)
      && (fate.Some? && fate.value.Rejected? ==> fate.value.reason == INVALID_EVENT)
  {
  }

  datatype Handled = Handled(stream: seq<StreamMessage>, delivered: set<(string, RealtimeEvent)>, settled: map<nat, Settlement>)

  /** The whole processing of the message at an index, from its fate. */
  function Processed(h: Handled, index: nat, e: Envelope, fate: Option<Stage>, w: Weather): Handled {
    match fate
    case Some(Rejected(reason)) =>
      var h1 := if w.record.NotSent? || HasRecord(h.stream, index) then h
                else h.(stream := h.stream + [FailureRecord(index + 1, reason)]);
      if w.record.Confirmed? && w.settles then h1.(settled := Settling(h.settled, index, Terminated)) else h1
    case Some(Resolved(r)) =>
      if w.toRecipient.NotSent? then h
      else
        var h1 := h.(delivered := h.delivered + {(r, PublicEvent(e))});
        if !w.toRecipient.Confirmed? || w.toSender.NotSent? then h1
        else
          var h2 := h1.(delivered := h1.delivered + {(Sender(e), PublicEvent(e))});
          if w.toSender.Confirmed? && w.settles then h2.(settled := Settling(h.settled, index, Acked)) else h2
    case _ => h
  }

  function Settling(settled: map<nat, Settlement>, index: nat, s: Settlement): map<nat, Settlement> {
    if index in settled then settled else settled[index := s]
  }

  class Runner {
    const size: Envelope -> nat
    var chats: ChatsByID
    var stream: seq<StreamMessage>
    var delivered: set<(string, RealtimeEvent)>
    var settled: map<nat, Settlement>

    constructor (size: Envelope -> nat)
      ensures this.size == size
    {
      this.size := size;
    }

    function Now(): Handled
      reads this
    {
      Handled(stream, delivered, settled)
    }

    /** PublishMessageCreated: no error, or whether the event is refused for good. */
    method PublishMessageCreated(user: string, event: RealtimeEvent, sending: Sending) returns (ok: bool, refused: bool)
      modifies this`delivered
      ensures refused <==> !ValidRealtimeUserID(user) || !ValidRealtimeMessage(event)
      ensures ok <==> !refused && sending.Confirmed?
      ensures delivered == if refused || sending.NotSent? then old(delivered) else old(delivered) + {(user, event)}
    {
      if !ValidRealtimeUserID(user) || !ValidRealtimeMessage(event) {
        return false, true;
      }
      if sending.NotSent? {
        return false, false;
      }
      delivered := delivered + {(user, event)};
      return sending.Confirmed?, false;
    }

    /** Dispatch: two ordered publications; a refusal publishes nothing at all. The
        size is the runner's business. */
    method Dispatch(e: Envelope, w: Weather) returns (ok: bool, refused: bool)
      modifies this`delivered
      ensures
        var fate := Fate(chats, AnySize, e, w.lookupFails);
        && refused == (fate.Some? && fate.value.Rejected?)
        && ok == (fate.Some? && fate.value.Resolved? && w.toRecipient.Confirmed? && w.toSender.Confirmed?)
        && delivered == Processed(old(Now()), 0, e, if refused then None else fate, w.(settles := false)).delivered
    {
      if !ValidEnvelope(e) {
        return false, true;
      }
      if w.lookupFails {
        return false, false;
      }
      var chatID, sender := ParseID(e.payload.chatID), ParseID(e.payload.senderID);
      if chatID.Err? || sender.Err? || chatID.value !in chats {
        return false, true;
      }
      var chat := ToChat(chats[chatID.value]);
      if chat.Err? {
        return false, false;
      }
      var recipient := RelatedUserID(chat.value, sender.value);
      if recipient == None {
        return false, true;
      }
      ok, refused := PublishMessageCreated(recipient.value, PublicEvent(e), w.toRecipient);
      if !ok {
        return;
      }
      TrimmedStaysValid(e.payload.senderID);
      ok, refused := PublishMessageCreated(sender.value, PublicEvent(e), w.toSender);
    }

    /** processMessage with failPermanent. */
    method ProcessMessage(index: nat, w: Weather)
      requires index < |stream| && stream[index].Created?
      modifies this`delivered, this`stream, this`settled
      ensures
        var e := old(stream)[index].envelope;
        Now() == Processed(old(Now()), index, e, Fate(chats, size, e, w.lookupFails), w)
    {
      var e := stream[index].envelope;
      FateBySize(chats, size, e, w.lookupFails);
      hide Fate;
      var reason := INVALID_ENVELOPE;
      if size(e) <= MAX_EVENT_BYTES {
        var ok, refused := Dispatch(e, w);
        if !refused {
          if ok && w.settles && index !in settled {
            settled := settled[index := Acked];
          }
          return;
        }
        reason := INVALID_EVENT;
      }
      if w.record.NotSent? {
        return;
      }
      if !HasRecord(stream, index) {
        stream := stream + [FailureRecord(index + 1, reason)];
      }
      if w.record.Confirmed? && w.settles && index !in settled {
        settled := settled[index := Terminated];
      }
    }
  }

  /** The steps one processing takes when nobody interferes; those its fate rules
      out do nothing. */
  function Script(id: nat, index: nat, fate: Option<Stage>, w: Weather): seq<Event> {
    [Receive(id, index)] + (if fate == None then [] else [Examine(id)])
    + ([Notify(id, w.toRecipient), Notify(id, w.toSender)] + ([RecordFailure(id, w.record)] + Closing(id, w)))
  }

  function Closing(id: nat, w: Weather): seq<Event> {
    if w.settles then [Acknowledge(id), Terminate(id), GiveUp(id)] else [GiveUp(id)]
  }

  lemma {:induction false} PlaySplits(chats: ChatsByID, size: Envelope -> nat, s: (seq<StreamMessage>, Desk), a: seq<Event>, b: seq<Event>)
    ensures Play(chats, size, s, a + b) == Play(chats, size, Play(chats, size, s, a), b)
    decreases |a|
  {
    if a == [] {
      assert a + b == b;
    } else {
      assert (a + b)[0] == a[0] && (a + b)[1..] == a[1..] + b;
      PlaySplits(chats, size, Advance(chats, size, s, a[0]), a[1..], b);
    }
  }

  /** A desk with one more dispatcher. */
  function Joined(k: Desk, id: nat, index: nat, stage: Stage): Desk {
    k.(dispatchers := k.dispatchers[id := Dispatcher(index, stage)])
  }

  lemma JoinedMovesOn(k: Desk, id: nat, index: nat, a: Stage, b: Stage)
    requires id !in k.dispatchers
    ensures With(Joined(k, id, index, a), id, Some(b)) == Joined(k, id, index, b)
    ensures With(Joined(k, id, index, a), id, None) == k
  {
    assert Joined(k, id, index, a).dispatchers[id := Dispatcher(index, b)] == Joined(k, id, index, b).dispatchers;
    assert Joined(k, id, index, a).dispatchers - {id} == k.dispatchers;
  }

  /** A dispatcher that is gone plays no more. */
  lemma {:induction false} GonePlaysNothing(chats: ChatsByID, size: Envelope -> nat, s: (seq<StreamMessage>, Desk), id: nat, events: seq<Event>)
    requires id !in s.1.dispatchers
    requires forall i :: 0 <= i < |events| ==> !events[i].Receive? && events[i].id == id
    ensures Play(chats, size, s, events) == s
    decreases |events|
  {
    if events != [] {
      assert Advance(chats, size, s, events[0]) == s;
      GonePlaysNothing(chats, size, s, id, events[1..]);
    }
  }

  lemma PlayOne(chats: ChatsByID, size: Envelope -> nat, s: (seq<StreamMessage>, Desk), e: Event)
    ensures Play(chats, size, s, [e]) == Advance(chats, size, s, e)
  {
    assert [e][1..] == [];
    assert Play(chats, size, Advance(chats, size, s, e), []) == Advance(chats, size, s, e);
  }

  lemma PlayTwo(chats: ChatsByID, size: Envelope -> nat, s: (seq<StreamMessage>, Desk), e: Event, f: Event)
    ensures Play(chats, size, s, [e, f]) == Advance(chats, size, Advance(chats, size, s, e), f)
  {
    assert [e, f] == [e] + [f];
    PlaySplits(chats, size, s, [e], [f]);
    PlayOne(chats, size, s, e);
    PlayOne(chats, size, Advance(chats, size, s, e), f);
  }

  /** How a processing ends once its stage is final. */
  lemma ClosingSettles(chats: ChatsByID, size: Envelope -> nat, stream: seq<StreamMessage>, k: Desk, id: nat, index: nat,
                       stage: Stage, w: Weather)
    requires id !in k.dispatchers && index < |stream| && stream[index].Created? && index !in k.settled
    requires !stage.Rejected?
    ensures
      var settled := if !w.settles then k.settled
                     else if stage.Dispatched? then k.settled[index := Acked]
                     else if stage.Recorded? then k.settled[index := Terminated]
                     else k.settled;
      Play(chats, size, (stream, Joined(k, id, index, stage)), [RecordFailure(id, w.record)] + Closing(id, w))
      == (stream, k.(settled := settled))
  {
    var s := (stream, Joined(k, id, index, stage));
    var r := RecordFailure(id, w.record);
    PlaySplits(chats, size, s, [r], Closing(id, w));
    PlayOne(chats, size, s, r);
    assert Advance(chats, size, s, r) == (stream, s.1);
    assert Joined(k, id, index, stage).dispatchers - {id} == k.dispatchers;
    var gone := (stream, k.(settled := if stage.Dispatched? then k.settled[index := Acked] else k.settled[index := Terminated]));
    if w.settles {
      assert [Acknowledge(id)] + [Terminate(id), GiveUp(id)] == Closing(id, w);
      PlaySplits(chats, size, s, [Acknowledge(id)], [Terminate(id), GiveUp(id)]);
      PlayOne(chats, size, s, Acknowledge(id));
      if stage.Dispatched? {
        assert Advance(chats, size, s, Acknowledge(id)) == (stream, gone.1);
        GonePlaysNothing(chats, size, gone, id, [Terminate(id), GiveUp(id)]);
      } else {
        assert Advance(chats, size, s, Acknowledge(id)) == (stream, s.1);
        PlayTwo(chats, size, s, Terminate(id), GiveUp(id));
        assert stage.Recorded? ==> Advance(chats, size, s, Terminate(id)) == (stream, gone.1);
      }
    } else {
      PlayOne(chats, size, s, GiveUp(id));
    }
  }

  lemma RejectionSettles(chats: ChatsByID, size: Envelope -> nat, stream: seq<StreamMessage>, k: Desk, id: nat, index: nat,
                         reason: string, w: Weather)
    requires id !in k.dispatchers && index < |stream| && stream[index].Created? && index !in k.settled
    ensures
      var h := Processed(Handled(stream, k.delivered, k.settled), index, stream[index].envelope, Some(Rejected(reason)), w);
      Play(chats, size, (stream, Joined(k, id, index, Rejected(reason))), [RecordFailure(id, w.record)] + Closing(id, w))
      == (h.stream, k.(settled := h.settled))
  {
    var h := Processed(Handled(stream, k.delivered, k.settled), index, stream[index].envelope, Some(Rejected(reason)), w);
    var s := (stream, Joined(k, id, index, Rejected(reason)));
    var record := RecordFailure(id, w.record);
    PlaySplits(chats, size, s, [record], Closing(id, w));
    PlayOne(chats, size, s, record);
    JoinedMovesOn(k, id, index, Rejected(reason), Recorded);
    if w.record.Confirmed? {
      assert Advance(chats, size, s, record) == (h.stream, Joined(k, id, index, Recorded));
      var s1 := (h.stream, Joined(k, id, index, Recorded));
      ClosingSettles(chats, size, h.stream, k, id, index, Recorded, w);
      PlaySplits(chats, size, s1, [record], Closing(id, w));
      PlayOne(chats, size, s1, record);
      assert Advance(chats, size, s1, record) == s1;
    } else {
      assert Advance(chats, size, s, record) == (h.stream, k);
      GonePlaysNothing(chats, size, (h.stream, k), id, Closing(id, w));
    }
  }

  predicate Addressable(e: Envelope, r: string) {
    && ValidRealtimeUserID(r) && ValidRealtimeUserID(Sender(e)) && ValidRealtimeMessage(PublicEvent(e))
  }

  function Told(k: Desk, user: string, e: Envelope): Desk {
    k.(delivered := k.delivered + {(user, PublicEvent(e))})
  }

  lemma NotifyMovesOn(chats: ChatsByID, size: Envelope -> nat, stream: seq<StreamMessage>, k: Desk, id: nat, index: nat,
                      r: string, sending: Sending)
    requires id !in k.dispatchers && index < |stream| && stream[index].Created?
    requires Addressable(stream[index].envelope, r)
    ensures
      var e := stream[index].envelope;
      && Advance(chats, size, (stream, Joined(k, id, index, Resolved(r))), Notify(id, sending))
         == (stream, if sending.NotSent? then k else if sending.LandedUnseen? then Told(k, r, e)
                     else Joined(Told(k, r, e), id, index, Notified(r)))
      && Advance(chats, size, (stream, Joined(k, id, index, Notified(r))), Notify(id, sending))
         == (stream, if sending.NotSent? then k else if sending.LandedUnseen? then Told(k, Sender(e), e)
                     else Joined(Told(k, Sender(e), e), id, index, Dispatched(r)))
  {
    hide ValidRealtimeUserID;
    hide ValidRealtimeMessage;
    hide PublicEvent;
    hide Sender;
    JoinedMovesOn(k, id, index, Resolved(r), Notified(r));
    JoinedMovesOn(k, id, index, Notified(r), Dispatched(r));
  }

  /** The two publications, when both identifiers are usable. */
  lemma NotificationsFollow(chats: ChatsByID, size: Envelope -> nat, stream: seq<StreamMessage>, k: Desk, id: nat, index: nat,
                            r: string, w: Weather)
    requires id !in k.dispatchers && index < |stream| && stream[index].Created? && index !in k.settled
    requires Addressable(stream[index].envelope, r)
    ensures
      var h := Processed(Handled(stream, k.delivered, k.settled), index, stream[index].envelope, Some(Resolved(r)), w);
      Play(chats, size, (stream, Joined(k, id, index, Resolved(r))),
           [Notify(id, w.toRecipient), Notify(id, w.toSender)] + ([RecordFailure(id, w.record)] + Closing(id, w)))
      == (stream, Desk(k.dispatchers, h.delivered, h.settled))
  {
    hide Addressable;
    hide PublicEvent;
    hide Sender;
    hide Advance;
    hide Play;
    var e := stream[index].envelope;
    var s := (stream, Joined(k, id, index, Resolved(r)));
    var first, second := Notify(id, w.toRecipient), Notify(id, w.toSender);
    var finish := [RecordFailure(id, w.record)] + Closing(id, w);
    assert [first, second] + finish == [first] + ([second] + finish);
    PlaySplits(chats, size, s, [first], [second] + finish);
    PlayOne(chats, size, s, first);
    NotifyMovesOn(chats, size, stream, k, id, index, r, w.toRecipient);
    if w.toRecipient.Confirmed? {
      var k1 := Told(k, r, e);
      var s1 := (stream, Joined(k1, id, index, Notified(r)));
      PlaySplits(chats, size, s1, [second], finish);
      PlayOne(chats, size, s1, second);
      NotifyMovesOn(chats, size, stream, k1, id, index, r, w.toSender);
      if w.toSender.Confirmed? {
        ClosingSettles(chats, size, stream, Told(k1, Sender(e), e), id, index, Dispatched(r), w);
      } else {
        GonePlaysNothing(chats, size, (stream, if w.toSender.NotSent? then k1 else Told(k1, Sender(e), e)), id, finish);
      }
    } else {
      GonePlaysNothing(chats, size, (stream, if w.toRecipient.NotSent? then k else Told(k, r, e)), id, [second] + finish);
    }
  }

  lemma HeadExamines(chats: ChatsByID, size: Envelope -> nat, stream: seq<StreamMessage>, k: Desk, id: nat, index: nat)
    requires id !in k.dispatchers && index < |stream| && stream[index].Created? && index !in k.settled
    ensures
      var stage := Examined(chats, size, stream[index].envelope);
      Play(chats, size, (stream, k), [Receive(id, index)] + [Examine(id)])
      == (stream, if stage == None then k else Joined(k, id, index, stage.value))
  {
    hide Examined;
    var stage := Examined(chats, size, stream[index].envelope);
    PlayTwo(chats, size, (stream, k), Receive(id, index), Examine(id));
    assert Advance(chats, size, (stream, k), Receive(id, index)) == (stream, Joined(k, id, index, Received));
    JoinedMovesOn(k, id, index, Received, if stage == None then Received else stage.value);
  }

  lemma UnresolvedFollows(chats: ChatsByID, size: Envelope -> nat, stream: seq<StreamMessage>, k: Desk, id: nat, index: nat, w: Weather)
    requires id !in k.dispatchers && index < |stream| && stream[index].Created? && index !in k.settled
    ensures Play(chats, size, (stream, k), Script(id, index, None, w)) == (stream, k)
  {
    var s0, s1 := (stream, k), (stream, Joined(k, id, index, Received));
    var notify := [Notify(id, w.toRecipient), Notify(id, w.toSender)];
    var finish := [RecordFailure(id, w.record)] + Closing(id, w);
    assert Script(id, index, None, w) == [Receive(id, index)] + (notify + finish);
    PlaySplits(chats, size, s0, [Receive(id, index)], notify + finish);
    PlayOne(chats, size, s0, Receive(id, index));
    assert Advance(chats, size, s0, Receive(id, index)) == s1;
    PlaySplits(chats, size, s1, notify, finish);
    PlayTwo(chats, size, s1, notify[0], notify[1]);
    ClosingSettles(chats, size, stream, k, id, index, Received, w);
  }

  lemma RefusalFollows(chats: ChatsByID, size: Envelope -> nat, stream: seq<StreamMessage>, k: Desk, id: nat, index: nat, w: Weather)
    requires id !in k.dispatchers && index < |stream| && stream[index].Created? && index !in k.settled
    requires var fate := Fate(chats, size, stream[index].envelope, w.lookupFails); fate.Some? && fate.value.Rejected?
    ensures
      var e := stream[index].envelope;
      var h := Processed(Handled(stream, k.delivered, k.settled), index, e, Fate(chats, size, e, w.lookupFails), w);
      Play(chats, size, (stream, Joined(k, id, index, Examined(chats, size, e).value)),
           [Notify(id, w.toRecipient), Notify(id, w.toSender)] + ([RecordFailure(id, w.record)] + Closing(id, w)))
      == (h.stream, Desk(k.dispatchers, h.delivered, h.settled))
  {
    hide Processed;
    hide ValidRealtimeUserID;
    hide ValidRealtimeMessage;
    hide PublicEvent;
    hide ValidEnvelope;
    hide ToChat;
    hide ParseID;
    hide RelatedUserID;
    var e := stream[index].envelope;
    var fate := Fate(chats, size, e, w.lookupFails).value;
    var stage := Examined(chats, size, e).value;
    var s1 := (stream, Joined(k, id, index, stage));
    var finish := [RecordFailure(id, w.record)] + Closing(id, w);
    PlaySplits(chats, size, s1, [Notify(id, w.toRecipient), Notify(id, w.toSender)], finish);
    PlayTwo(chats, size, s1, Notify(id, w.toRecipient), Notify(id, w.toSender));
    JoinedMovesOn(k, id, index, stage, fate);
    RejectionSettles(chats, size, stream, k, id, index, fate.reason, w);
    assert Desk(k.dispatchers, k.delivered, k.settled) == k;
    RefusalTellsNobody(Handled(stream, k.delivered, k.settled), index, e, fate.reason, w);
  }

  lemma RefusalTellsNobody(h: Handled, index: nat, e: Envelope, reason: string, w: Weather)
    ensures Processed(h, index, e, Some(Rejected(reason)), w).delivered == h.delivered
  {
  }

  /** The method and the stepwise dispatcher agree: a processing nobody interferes
      with ends where its script of steps does. */
  lemma ProcessingFollowsItsScript(chats: ChatsByID, size: Envelope -> nat, stream: seq<StreamMessage>, k: Desk,
                                   id: nat, index: nat, w: Weather)
    requires id !in k.dispatchers && index < |stream| && stream[index].Created? && index !in k.settled
    ensures
      var e := stream[index].envelope;
      var fate := Fate(chats, size, e, w.lookupFails);
      var h := Processed(Handled(stream, k.delivered, k.settled), index, e, fate, w);
      Play(chats, size, (stream, k), Script(id, index, fate, w)) == (h.stream, Desk(k.dispatchers, h.delivered, h.settled))
  {
    var e := stream[index].envelope;
    var fate := Fate(chats, size, e, w.lookupFails);
    var s0 := (stream, k);
    var notify := [Notify(id, w.toRecipient), Notify(id, w.toSender)];
    var finish := [RecordFailure(id, w.record)] + Closing(id, w);
    if fate == None {
      UnresolvedFollows(chats, size, stream, k, id, index, w);
    } else {
      var head := [Receive(id, index)] + [Examine(id)];
      PlaySplits(chats, size, s0, head, notify + finish);
      HeadExamines(chats, size, stream, k, id, index);
      if fate.value.Resolved? {
        TrimmedStaysValid(e.payload.senderID);
        NotificationsFollow(chats, size, stream, k, id, index, fate.value.recipient, w);
      } else {
        RefusalFollows(chats, size, stream, k, id, index, w);
      }
    }
  }
}
