// The message store: an idempotency lookup, a transaction over the images,
// chats, timeline and outbox collections, and a second lookup after a conflict.
// Any number of calls interleave between those three database steps.

module MessageStore {
  import opened Common
  import opened Timeline
  import opened Documents
  import Instants

  /** The collections, with the two unique indexes of the timeline collection:
      (chat, sequence) and (sender, client message). */
  datatype Database = Database(
    chats: map<string, ChatDocument>,
    timeline: map<string, ItemDocument>,
    bySequence: map<(string, int), string>,
    byClientMessage: map<(string, string), string>,
    outbox: map<string, OutboxDocument>,
    images: map<string, ImageDocument>)

  datatype TransactionError = ImageUnavailable | NoSuchChat | SequenceExhausted | DuplicateKey

  datatype StoreError =
    | InvalidCreateParams
    | InvalidStoredDocument
    | IdempotencyConflict
    | ChatNotFound
    | NotPersisted(cause: TransactionError)
    | Unavailable

  datatype CreateResult = CreateResult(item: Item, created: bool)

  type CreateOutcome = Result<CreateResult, StoreError>

  // ----- The transaction ---------------------------------------------------------

  predicate Attachable(image: ImageDocument, p: CreateParams) {
    && image.uploadedBy == p.message.senderID && image.chatID == p.chatID
    && image.status == Ready && image.expiresAt > Instants.Stored(p.createdAt)
  }

  function AttachedImages(images: map<string, ImageDocument>, p: CreateParams): Option<map<string, ImageDocument>> {
    var id := p.message.content.imageID;
    if p.message.content.contentType != IMAGE then Some(images)
    else if id in images && Attachable(images[id], p)
    then Some(images[id := images[id].(status := Attached, messageID := Some(p.messageID))])
    else None
  }

  predicate Participates(chat: ChatDocument, user: string) {
    user == chat.participantOne || user == chat.participantTwo
  }

  function Advanced(chat: ChatDocument, createdAt: int): ChatDocument {
    var at := Instants.Stored(createdAt);
    chat.(lastSequence := chat.lastSequence + 1,
          summarySortAt := if chat.summarySortAt < at then at else chat.summarySortAt)
  }

  function SequenceKey(d: ItemDocument): (string, int) {
    (d.chatID, d.sequence)
  }

  function MessageKey(m: Message): (string, string) {
    (m.senderID, m.clientMessageID)
  }

  /** An insert that one of the three unique indexes of the timeline refuses. */
  predicate TimelineConflict(db: Database, d: ItemDocument) {
    d.id in db.timeline || SequenceKey(d) in db.bySequence || MessageKey(d.message) in db.byClientMessage
  }

  /** The transaction's outcome on the whole database; an abort changes nothing. */
  function CreateTransaction(db: Database, p: CreateParams): (Database, Result<int, TransactionError>) {
    var images := AttachedImages(db.images, p);
    if images.None? then (db, Err(ImageUnavailable))
    else if p.chatID !in db.chats || !Participates(db.chats[p.chatID], p.message.senderID) then (db, Err(NoSuchChat))
    else
      var chat := Advanced(db.chats[p.chatID], p.createdAt);
      if ParseSequence(chat.lastSequence).Err? then (db, Err(SequenceExhausted))
      else
        var item := StoredItem(NewItemDocument(p, chat.lastSequence));
        if TimelineConflict(db, item) || p.eventID in db.outbox then (db, Err(DuplicateKey))
        else
          (Database(db.chats[p.chatID := chat], db.timeline[item.id := item],
                    db.bySequence[SequenceKey(item) := item.id], db.byClientMessage[MessageKey(item.message) := item.id],
                    db.outbox[p.eventID := NewOutboxDocument(p, chat.lastSequence)], images.value),
           Ok(chat.lastSequence))
  }

  /** The lookup by idempotency key: nothing, or the item or decoding error found. */
  function FindExisting(db: Database, p: CreateParams): Option<Result<Item, DomainError>> {
    var key := MessageKey(p.message);
    if key in db.byClientMessage && db.byClientMessage[key] in db.timeline
    then Some(ToDomain(db.timeline[db.byClientMessage[key]]))
    else None
  }

  predicate SameLogicalMessage(existing: Item, p: CreateParams) {
    && existing.chatID == p.chatID
    && existing.message.clientMessageID == p.message.clientMessageID
    && existing.message.senderID == p.message.senderID
    && existing.message.content == p.message.content
  }

  /** What a call answers when its lookup found a document. */
  function Resolve(read: Result<Item, DomainError>, p: CreateParams): CreateOutcome {
    match read
    case Err(_) => Err(InvalidStoredDocument)
    case Ok(item) => if SameLogicalMessage(item, p) then Ok(CreateResult(item, false)) else Err(IdempotencyConflict)
  }

  /** What the creating call answers: the item as built in memory, not as stored. */
  function CreatedAnswer(p: CreateParams, sequence: int): CreateOutcome {
    match ToDomain(NewItemDocument(p, sequence))
    case Err(_) => Err(InvalidStoredDocument)
    case Ok(item) => Ok(CreateResult(item, true))
  }

  class Repository {
    var chats: map<string, ChatDocument>
    var timeline: map<string, ItemDocument>
    var bySequence: map<(string, int), string>
    var byClientMessage: map<(string, string), string>
    var outbox: map<string, OutboxDocument>
    var images: map<string, ImageDocument>

    function Snapshot(): Database
      reads this
    {
      Database(chats, timeline, bySequence, byClientMessage, outbox, images)
    }

    /** The body of the transaction, step by step; an early return is an abort. */
    method RunTransaction(p: CreateParams) returns (r: Result<int, TransactionError>)
      modifies this
      ensures (Snapshot(), r) == CreateTransaction(old(Snapshot()), p)
    {
      var imagesInTransaction := images;
      if p.message.content.contentType == IMAGE {
        var imageID := p.message.content.imageID;
        if imageID !in images || !Attachable(images[imageID], p) {
          return Err(ImageUnavailable);
        }
        imagesInTransaction := images[imageID := images[imageID].(status := Attached, messageID := Some(p.messageID))];
      }
      if p.chatID !in chats || !Participates(chats[p.chatID], p.message.senderID) {
        return Err(NoSuchChat);
      }
      var chat := Advanced(chats[p.chatID], p.createdAt);
      var sequence := ParseSequence(chat.lastSequence);
      if sequence.Err? {
        return Err(SequenceExhausted);
      }
      var item := StoredItem(NewItemDocument(p, sequence.value));
      if item.id in timeline || SequenceKey(item) in bySequence || MessageKey(item.message) in byClientMessage {
        return Err(DuplicateKey);
      }
      if p.eventID in outbox {
        return Err(DuplicateKey);
      }
      images := imagesInTransaction;
      chats := chats[p.chatID := chat];
      timeline := timeline[item.id := item];
      bySequence := bySequence[SequenceKey(item) := item.id];
      byClientMessage := byClientMessage[MessageKey(item.message) := item.id];
      outbox := outbox[p.eventID := NewOutboxDocument(p, sequence.value)];
      r := Ok(sequence.value);
    }

    /** Whatever other processes do between two database steps of a call: any
        change at all, so nothing is promised. */
    method Others()
      modifies this
    {
    }

    /** A whole call. The database may change arbitrarily between its steps; the
        three snapshots are what each step found. */
    method CreateWithOutbox(p: CreateParams)
      returns (r: CreateOutcome, ghost atLookup: Database, ghost atTransaction: Database, ghost atRecheck: Database)
      modifies this
      ensures r == CallOutcome(p, atLookup, atTransaction, atRecheck)
      ensures atLookup == old(Snapshot())
      ensures !ValidParams(p) || FindExisting(atLookup, p).Some? ==> Snapshot() == atLookup
    {
      atLookup, atTransaction, atRecheck := Snapshot(), Snapshot(), Snapshot();
      if !ValidParams(p) {
        return Err(InvalidCreateParams), atLookup, atTransaction, atRecheck;
      }
      var existing := FindExisting(Snapshot(), p);
      if existing.Some? {
        return Resolve(existing.value, p), atLookup, atTransaction, atRecheck;
      }
      Others();
      atTransaction := Snapshot();
      var sequence := RunTransaction(p);
      if sequence.Err? {
        if sequence.error.DuplicateKey? || sequence.error.ImageUnavailable? {
          Others();
          atRecheck := Snapshot();
          existing := FindExisting(Snapshot(), p);
          if existing.Some? {
            return Resolve(existing.value, p), atLookup, atTransaction, atRecheck;
          }
        }
        if sequence.error.NoSuchChat? {
          return Err(ChatNotFound), atLookup, atTransaction, atRecheck;
        }
        return Err(NotPersisted(sequence.error)), atLookup, atTransaction, atRecheck;
      }
      r := CreatedAnswer(p, sequence.value);
    }
  }

  /** The call's answer, from what its three steps find. */
  function CallOutcome(p: CreateParams, atLookup: Database, atTransaction: Database, atRecheck: Database): CreateOutcome {
    if !ValidParams(p) then Err(InvalidCreateParams)
    else
      var first := FindExisting(atLookup, p);
      if first.Some? then Resolve(first.value, p)
      else match CreateTransaction(atTransaction, p).1
        case Ok(sequence) => CreatedAnswer(p, sequence)
        case Err(NoSuchChat) => Err(ChatNotFound)
        case Err(SequenceExhausted) => Err(NotPersisted(SequenceExhausted))
        case Err(cause) =>
          var second := FindExisting(atRecheck, p);
          if second.Some? then Resolve(second.value, p) else Err(NotPersisted(cause))
  }

  // ----- Interleaved calls ----------------------------------------------------------

  datatype Stage = Lookup | Transact | Recheck(cause: TransactionError) | Done(outcome: CreateOutcome)

  datatype Call = Call(params: CreateParams, stage: Stage)

  /** Beside the database and the calls: which call inserted an item, and which
      event was inserted with it. */
  datatype World = World(db: Database, calls: map<nat, Call>, creator: map<string, nat>, eventOf: map<string, string>)

  datatype Event =
    | Begin(call: nat, params: CreateParams)
    | Advance(call: nat)
    | Crash(call: nat)                                   // any database or network failure
    | CommitUnseen(call: nat)                            // committed, but the caller never learns
    | AddChat(id: string, one: string, two: string, at: int)
    | ChangeImages(images: map<string, ImageDocument>)   // uploads and cleanup
    | RelayOutbox(outbox: map<string, OutboxDocument>)   // the publisher's status updates

  function At(w: World, id: nat, stage: Stage): World
    requires id in w.calls
  {
    w.(calls := w.calls[id := w.calls[id].(stage := stage)])
  }

  function Commit(w: World, id: nat): World
    requires id in w.calls
  {
    var p := w.calls[id].params;
    var (db, r) := CreateTransaction(w.db, p);
    if r.Err? then w
    else World(db, w.calls, w.creator[p.messageID := id], w.eventOf[p.messageID := p.eventID])
  }

  /** Where a call stands after its next database step. */
  function NextStage(db: Database, p: CreateParams, stage: Stage): Stage {
    match stage
    case Lookup =>
      var existing := FindExisting(db, p);
      if existing.Some? then Done(Resolve(existing.value, p)) else Transact
    case Transact =>
      (match CreateTransaction(db, p).1
       case Ok(sequence) => Done(CreatedAnswer(p, sequence))
       case Err(cause) =>
         if cause.DuplicateKey? || cause.ImageUnavailable? then Recheck(cause)
         else Done(if cause.NoSuchChat? then Err(ChatNotFound) else Err(NotPersisted(cause))))
    case Recheck(cause) =>
      var existing := FindExisting(db, p);
      Done(if existing.Some? then Resolve(existing.value, p) else Err(NotPersisted(cause)))
    case Done(_) => stage
  }

  /** The next database step of one CreateWithOutbox call. */
  function AdvanceCall(w: World, id: nat): World
    requires id in w.calls
  {
    At(if w.calls[id].stage.Transact? then Commit(w, id) else w, id,
       NextStage(w.db, w.calls[id].params, w.calls[id].stage))
  }

  /** The three steps, on whatever databases they find, make up the whole call. */
  lemma StagesMakeTheCall(p: CreateParams, a: Database, b: Database, c: Database)
    requires ValidParams(p)
    ensures NextStage(c, p, NextStage(b, p, NextStage(a, p, Lookup))) == Done(CallOutcome(p, a, b, c))
  {
  }

  /** The relay changes delivery fields only. */
  predicate SamePayloads(before: map<string, OutboxDocument>, after: map<string, OutboxDocument>) {
    && before.Keys == after.Keys
    && forall e :: e in before ==> SameMessage(before[e], after[e])
  }

  /** Events that are not enabled leave the world as it is. */
  function Step(w: World, e: Event): World {
    match e
    case Begin(id, p) =>
      if id in w.calls || !WellTyped(p) then w
      else w.(calls := w.calls[id := Call(p, if ValidParams(p) then Lookup else Done(Err(InvalidCreateParams)))])
    case Advance(id) => if id in w.calls then AdvanceCall(w, id) else w
    case Crash(id) => if id in w.calls && !w.calls[id].stage.Done? then At(w, id, Done(Err(Unavailable))) else w
    case CommitUnseen(id) =>
      if id in w.calls && w.calls[id].stage.Transact? then At(Commit(w, id), id, Done(Err(Unavailable))) else w
    case AddChat(id, one, two, at) =>
      if id in w.db.chats || one == two then w
      else w.(db := w.db.(chats := w.db.chats[id := ChatDocument(one, two, 0, Instants.Stored(at))]))
    case ChangeImages(images) => w.(db := w.db.(images := images))
    case RelayOutbox(outbox) =>
      if SamePayloads(w.db.outbox, outbox) then w.(db := w.db.(outbox := outbox)) else w
  }

  function Run(w: World, events: seq<Event>): World {
    if events == [] then w else Step(Run(w, events[..|events| - 1]), events[|events| - 1])
  }

  // ----- The store invariant ----------------------------------------------------------

  /** The indexes list exactly the stored items. */
  ghost predicate Indexed(timeline: map<string, ItemDocument>, bySequence: map<(string, int), string>,
                          byClientMessage: map<(string, string), string>)
  {
    && (forall id :: id in timeline ==>
          && timeline[id].id == id
          && SequenceKey(timeline[id]) in bySequence && bySequence[SequenceKey(timeline[id])] == id
          && MessageKey(timeline[id].message) in byClientMessage
          && byClientMessage[MessageKey(timeline[id].message)] == id)
    && (forall k :: k in bySequence ==> bySequence[k] in timeline && SequenceKey(timeline[bySequence[k]]) == k)
    && (forall k :: k in byClientMessage ==>
          byClientMessage[k] in timeline && MessageKey(timeline[byClientMessage[k]].message) == k)
  }

  /** Per chat, the sequences are exactly 1..lastSequence. */
  ghost predicate GapFree(chats: map<string, ChatDocument>, bySequence: map<(string, int), string>) {
    && (forall c :: c in chats ==> 0 <= chats[c].lastSequence <= MAX_SEQUENCE)
    && (forall c, n: int :: (c, n) in bySequence <==> c in chats && 1 <= n <= chats[c].lastSequence)
  }

  ghost predicate Describes(e: OutboxDocument, d: ItemDocument) {
    && e.payload == Payload(d.id, d.message.clientMessageID, d.chatID, d.sequence, d.message.senderID,
                            d.message.content, d.createdAt)
    && e.aggregateType == AGGREGATE_CHAT && e.aggregateID == d.chatID && e.eventType == MESSAGE_CREATED
  }

  /** Items and outbox events correspond one to one, field by field. */
  ghost predicate Paired(timeline: map<string, ItemDocument>, outbox: map<string, OutboxDocument>,
                         eventOf: map<string, string>)
  {
    && eventOf.Keys == timeline.Keys
    && (forall id :: id in eventOf ==> eventOf[id] in outbox && Describes(outbox[eventOf[id]], timeline[id]))
    && (forall e :: e in outbox ==>
          && outbox[e].id == e
          && outbox[e].payload.messageID in eventOf && eventOf[outbox[e].payload.messageID] == e)
  }

  /** Every item reads back as itself, was sent by a participant, and is not
      newer than its chat's position in the list of chats. */
  ghost predicate Readable(timeline: map<string, ItemDocument>, chats: map<string, ChatDocument>) {
    forall id :: id in timeline ==>
      && ToDomain(timeline[id]) == Ok(AsItem(timeline[id]))
      && ValidContent(timeline[id].message.content)
      && timeline[id].chatID in chats
      && Participates(chats[timeline[id].chatID], timeline[id].message.senderID)
      && timeline[id].createdAt <= chats[timeline[id].chatID].summarySortAt
  }

  ghost predicate Consistent(db: Database, eventOf: map<string, string>) {
    && Indexed(db.timeline, db.bySequence, db.byClientMessage)
    && GapFree(db.chats, db.bySequence)
    && Paired(db.timeline, db.outbox, eventOf)
    && Readable(db.timeline, db.chats)
  }

  lemma TransactionKeepsIndexed(db: Database, p: CreateParams)
    requires Indexed(db.timeline, db.bySequence, db.byClientMessage)
    ensures var db' := CreateTransaction(db, p).0; Indexed(db'.timeline, db'.bySequence, db'.byClientMessage)
  {
  }

  lemma TransactionKeepsGapFree(db: Database, p: CreateParams)
    requires GapFree(db.chats, db.bySequence)
    ensures var db' := CreateTransaction(db, p).0; GapFree(db'.chats, db'.bySequence)
  {
  }

  lemma InsertKeepsPaired(timeline: map<string, ItemDocument>, outbox: map<string, OutboxDocument>,
                          eventOf: map<string, string>, d: ItemDocument, e: OutboxDocument)
    requires Paired(timeline, outbox, eventOf)
    requires d.id !in timeline && e.id !in outbox && Describes(e, d)
    ensures Paired(timeline[d.id := d], outbox[e.id := e], eventOf[d.id := e.id])
  {
  }

  lemma TransactionKeepsPaired(db: Database, p: CreateParams, eventOf: map<string, string>)
    requires Paired(db.timeline, db.outbox, eventOf) && CreateTransaction(db, p).1.Ok?
    ensures var db' := CreateTransaction(db, p).0; Paired(db'.timeline, db'.outbox, eventOf[p.messageID := p.eventID])
  {
    hide Paired;
    var sequence := CreateTransaction(db, p).1.value;
    InsertKeepsPaired(db.timeline, db.outbox, eventOf, StoredItem(NewItemDocument(p, sequence)), NewOutboxDocument(p, sequence));
  }

  lemma TransactionKeepsReadable(db: Database, p: CreateParams)
    requires Readable(db.timeline, db.chats) && WellTyped(p) && ValidParams(p)
    ensures var db' := CreateTransaction(db, p).0; Readable(db'.timeline, db'.chats)
  {
    var (db', r) := CreateTransaction(db, p);
    if r.Ok? {
      DocumentsRoundTrip(p, r.value);
    }
  }

  lemma NewChatKeepsReadable(timeline: map<string, ItemDocument>, chats: map<string, ChatDocument>, id: string, chat: ChatDocument)
    requires Readable(timeline, chats) && id !in chats
    ensures Readable(timeline, chats[id := chat])
  {
  }

  lemma NewChatKeepsGapFree(chats: map<string, ChatDocument>, bySequence: map<(string, int), string>, id: string, chat: ChatDocument)
    requires GapFree(chats, bySequence) && id !in chats && chat.lastSequence == 0
    ensures GapFree(chats[id := chat], bySequence)
  {
  }

  lemma RelayKeepsPaired(timeline: map<string, ItemDocument>, before: map<string, OutboxDocument>,
                         after: map<string, OutboxDocument>, eventOf: map<string, string>)
    requires Paired(timeline, before, eventOf) && SamePayloads(before, after)
    ensures Paired(timeline, after, eventOf)
  {
  }

  // ----- What finished calls have answered ----------------------------------------------

  predicate Answered(w: World, id: nat) {
    id in w.calls && w.calls[id].stage.Done? && w.calls[id].stage.outcome.Ok?
  }

  /** The item a successful call answers is the stored one of its key; only its
      creator may hold it with unrounded instants. */
  ghost predicate TrueAnswer(w: World, id: nat)
    requires Answered(w, id)
  {
    var p := w.calls[id].params;
    var r := w.calls[id].stage.outcome.value;
    && MessageKey(p.message) in w.db.byClientMessage
    && var stored := w.db.byClientMessage[MessageKey(p.message)];
    && stored in w.db.timeline
    && var d := w.db.timeline[stored];
    && d.chatID == p.chatID && d.message == p.message
    && (if r.created
        then r.item == AsItem(NewItemDocument(p, d.sequence)) && d == StoredItem(NewItemDocument(p, d.sequence))
             && stored in w.creator && w.creator[stored] == id
        else r.item == AsItem(d))
  }

  ghost predicate CallsHold(w: World) {
    && (forall id :: id in w.calls ==> WellTyped(w.calls[id].params)
                                       && (w.calls[id].stage.Done? || ValidParams(w.calls[id].params)))
    && (forall id :: Answered(w, id) ==> TrueAnswer(w, id))
    && w.creator.Keys <= w.db.timeline.Keys
  }

  ghost predicate Inv(w: World) {
    Consistent(w.db, w.eventOf) && CallsHold(w)
  }

  /** The database keeps what it has. */
  ghost predicate Extends(w: World, w': World) {
    && (forall k :: k in w.db.timeline ==> k in w'.db.timeline && w'.db.timeline[k] == w.db.timeline[k])
    && (forall k :: k in w.db.byClientMessage ==>
          k in w'.db.byClientMessage && w'.db.byClientMessage[k] == w.db.byClientMessage[k])
    && (forall k :: k in w.creator ==> k in w'.creator && w'.creator[k] == w.creator[k])
    && w'.creator.Keys <= w'.db.timeline.Keys
  }

  /** Answers stay true while the database grows and one call moves on. */
  lemma AnswersSurvive(w: World, w': World, id: nat)
    requires CallsHold(w) && Extends(w, w')
    requires forall i :: i in w'.calls && i != id ==> i in w.calls && w'.calls[i] == w.calls[i]
    requires id in w'.calls ==>
      && WellTyped(w'.calls[id].params) && (w'.calls[id].stage.Done? || ValidParams(w'.calls[id].params))
    requires Answered(w', id) ==> TrueAnswer(w', id)
    ensures CallsHold(w')
  {
    forall i | Answered(w', i) ensures TrueAnswer(w', i) {
      if i != id {
        assert Answered(w, i);
      }
    }
  }

  lemma CommitKeepsInv(w: World, id: nat, w': World)
    requires Inv(w) && id in w.calls && w.calls[id].stage.Transact?
    requires w' == AdvanceCall(w, id) || w' == At(Commit(w, id), id, Done(Err(Unavailable)))
    ensures Inv(w')
  {
    hide Consistent;
    CommitKeepsConsistent(w, id);
    CommitExtends(w, id);
    CommitAnswersTruly(w, id);
    hide CreateTransaction;
    hide TrueAnswer;
    AnswersSurvive(w, w', id);
  }

  lemma CommitKeepsConsistent(w: World, id: nat)
    requires Consistent(w.db, w.eventOf) && id in w.calls
    requires WellTyped(w.calls[id].params) && ValidParams(w.calls[id].params)
    ensures Consistent(Commit(w, id).db, Commit(w, id).eventOf)
  {
    hide Indexed;
    hide GapFree;
    hide Readable;
    hide Paired;
    var p := w.calls[id].params;
    TransactionKeepsIndexed(w.db, p);
    TransactionKeepsGapFree(w.db, p);
    TransactionKeepsReadable(w.db, p);
    if CreateTransaction(w.db, p).1.Ok? {
      TransactionKeepsPaired(w.db, p, w.eventOf);
    }
  }

  lemma CommitExtends(w: World, id: nat)
    requires w.creator.Keys <= w.db.timeline.Keys && id in w.calls
    ensures Extends(w, Commit(w, id))
  {
  }

  lemma CommitAnswersTruly(w: World, id: nat)
    requires id in w.calls && w.calls[id].stage.Transact?
    requires WellTyped(w.calls[id].params) && ValidParams(w.calls[id].params)
    ensures var w' := AdvanceCall(w, id); Answered(w', id) ==> TrueAnswer(w', id)
  {
    var r := CreateTransaction(w.db, w.calls[id].params).1;
    if r.Ok? {
      DocumentsRoundTrip(w.calls[id].params, r.value);
    }
  }

  lemma LookupAnswersTruly(w: World, id: nat)
    requires Indexed(w.db.timeline, w.db.bySequence, w.db.byClientMessage) && Readable(w.db.timeline, w.db.chats)
    requires id in w.calls && (w.calls[id].stage.Lookup? || w.calls[id].stage.Recheck?)
    ensures var w' := AdvanceCall(w, id); Answered(w', id) ==> TrueAnswer(w', id)
  {
  }

  lemma LookupKeepsInv(w: World, id: nat)
    requires Inv(w) && id in w.calls && !w.calls[id].stage.Transact?
    ensures Inv(AdvanceCall(w, id))
  {
    hide Indexed;
    hide GapFree;
    hide Readable;
    hide Paired;
    if w.calls[id].stage.Done? {
      assert Answered(AdvanceCall(w, id), id) ==> Answered(w, id);
    } else {
      LookupAnswersTruly(w, id);
    }
    AnswersSurvive(w, AdvanceCall(w, id), id);
  }

  lemma BeginKeepsInv(w: World, id: nat, p: CreateParams)
    requires Inv(w)
    ensures Inv(Step(w, Begin(id, p)))
  {
    hide Consistent;
    hide TrueAnswer;
    AnswersSurvive(w, Step(w, Begin(id, p)), id);
  }

  lemma CrashKeepsInv(w: World, id: nat)
    requires Inv(w)
    ensures Inv(Step(w, Crash(id)))
  {
    hide Consistent;
    hide TrueAnswer;
    AnswersSurvive(w, Step(w, Crash(id)), id);
  }

  lemma StepKeepsInv(w: World, e: Event)
    requires Inv(w)
    ensures Inv(Step(w, e))
  {
    hide Consistent;
    hide CallsHold;
    hide CreateTransaction;
    hide FindExisting;
    hide SamePayloads;
    match e
    case Begin(id, p) => BeginKeepsInv(w, id, p);
    case Advance(id) =>
      if id in w.calls {
        if w.calls[id].stage.Transact? { CommitKeepsInv(w, id, Step(w, e)); } else { LookupKeepsInv(w, id); }
      }
    case Crash(id) => CrashKeepsInv(w, id);
    case CommitUnseen(id) =>
      if id in w.calls && w.calls[id].stage.Transact? { CommitKeepsInv(w, id, Step(w, e)); }
    case _ =>
      OthersKeepConsistent(w, e);
      OthersKeepAnswers(w, e);
  }

  lemma OthersKeepAnswers(w: World, e: Event)
    requires CallsHold(w) && (e.RelayOutbox? || e.AddChat? || e.ChangeImages?)
    ensures CallsHold(Step(w, e))
  {
    forall i | Answered(Step(w, e), i) ensures TrueAnswer(Step(w, e), i) {
      assert Answered(w, i);
    }
  }

  /** What happens outside the calls. */
  lemma OthersKeepConsistent(w: World, e: Event)
    requires Consistent(w.db, w.eventOf) && (e.RelayOutbox? || e.AddChat? || e.ChangeImages?)
    ensures Consistent(Step(w, e).db, Step(w, e).eventOf)
  {
    hide Indexed;
    hide GapFree;
    hide Readable;
    hide Paired;
    if e.RelayOutbox? && SamePayloads(w.db.outbox, e.outbox) {
      RelayKeepsPaired(w.db.timeline, w.db.outbox, e.outbox, w.eventOf);
    } else if e.AddChat? && e.id !in w.db.chats {
      var chat := ChatDocument(e.one, e.two, 0, Instants.Stored(e.at));
      NewChatKeepsReadable(w.db.timeline, w.db.chats, e.id, chat);
      NewChatKeepsGapFree(w.db.chats, w.db.bySequence, e.id, chat);
    }
  }

  lemma {:induction false} RunKeepsInv(w: World, events: seq<Event>)
    requires Inv(w)
    ensures Inv(Run(w, events))
  {
    if events != [] {
      RunKeepsInv(w, events[..|events| - 1]);
      StepKeepsInv(Run(w, events[..|events| - 1]), events[|events| - 1]);
    }
  }

  /** A start with consistent data and no calls yet; the empty database is one. */
  ghost predicate Initial(w: World) {
    Consistent(w.db, w.eventOf) && w.calls == map[] && w.creator == map[]
  }

  // ----- Main results -----------------------------------------------------------------

  /** Whatever calls, failures, uploads and publications interleave: each chat's
      sequences are exactly 1..lastSequence, each held by one item; every item has
      one event and every event one item, with equal contents; and no item is
      newer than its chat's sort position. */
  lemma StoreStaysConsistent(w: World, events: seq<Event>)
    requires Initial(w)
    ensures ExactSequences(Run(w, events).db) && OneEventPerItem(Run(w, events).db)
  {
    RunKeepsInv(w, events);
    ConsistentIsExact(Run(w, events).db, Run(w, events).eventOf);
    ConsistentIsPaired(Run(w, events).db, Run(w, events).eventOf);
  }

  ghost predicate Holds(timeline: map<string, ItemDocument>, id: string, chat: string, n: int) {
    id in timeline && timeline[id].chatID == chat && timeline[id].sequence == n
  }

  ghost predicate Held(timeline: map<string, ItemDocument>, chat: string, n: int) {
    exists id :: Holds(timeline, id, chat, n)
  }

  ghost predicate ExactSequences(db: Database) {
    && (forall c :: c in db.chats ==> 0 <= db.chats[c].lastSequence <= MAX_SEQUENCE)
    && (forall c, n: int :: Held(db.timeline, c, n) <==> c in db.chats && 1 <= n <= db.chats[c].lastSequence)
    && (forall i, j, c, n: int :: Holds(db.timeline, i, c, n) && Holds(db.timeline, j, c, n) ==> i == j)
    && (forall id :: id in db.timeline ==>
          && db.timeline[id].chatID in db.chats
          && db.timeline[id].createdAt <= db.chats[db.timeline[id].chatID].summarySortAt)
  }

  ghost predicate OneEventPerItem(db: Database) {
    && (forall id :: id in db.timeline ==> exists e :: e in db.outbox && Describes(db.outbox[e], db.timeline[id]))
    && (forall e :: e in db.outbox ==>
          && db.outbox[e].payload.messageID in db.timeline
          && Describes(db.outbox[e], db.timeline[db.outbox[e].payload.messageID]))
    && (forall e, f ::
          e in db.outbox && f in db.outbox && db.outbox[e].payload.messageID == db.outbox[f].payload.messageID ==> e == f)
  }

  lemma ConsistentIsExact(db: Database, eventOf: map<string, string>)
    requires Consistent(db, eventOf)
    ensures ExactSequences(db)
  {
    hide Paired;
    forall c, n: int ensures Held(db.timeline, c, n) <==> c in db.chats && 1 <= n <= db.chats[c].lastSequence {
      if (c, n) in db.bySequence {
        assert Holds(db.timeline, db.bySequence[(c, n)], c, n);
      }
      if Held(db.timeline, c, n) {
        var id :| Holds(db.timeline, id, c, n);
        assert SequenceKey(db.timeline[id]) == (c, n);
      }
    }
    forall i, j, c, n: int | Holds(db.timeline, i, c, n) && Holds(db.timeline, j, c, n) ensures i == j {
      assert db.bySequence[SequenceKey(db.timeline[i])] == i;
    }
  }

  lemma ConsistentIsPaired(db: Database, eventOf: map<string, string>)
    requires Consistent(db, eventOf)
    ensures OneEventPerItem(db)
  {
    hide Readable;
    hide GapFree;
    hide Indexed;
    forall id | id in db.timeline ensures exists e :: e in db.outbox && Describes(db.outbox[e], db.timeline[id]) {
      assert eventOf[id] in db.outbox;
    }
  }

  /** Two successful calls with one idempotency key asked for the same message and
      were answered the same stored item; at most one of them created it. */
  lemma OneItemPerKey(w: World, events: seq<Event>, i: nat, j: nat)
    requires Initial(w)
    requires var end := Run(w, events); Answered(end, i) && Answered(end, j)
    requires var end := Run(w, events); MessageKey(end.calls[i].params.message) == MessageKey(end.calls[j].params.message)
    ensures
      var end := Run(w, events);
      var r, s := end.calls[i].stage.outcome.value, end.calls[j].stage.outcome.value;
      && end.calls[i].params.chatID == end.calls[j].params.chatID
      && end.calls[i].params.message == end.calls[j].params.message
      && r.item.id == s.item.id && r.item.sequence == s.item.sequence && r.item.message == s.item.message
      && (r.created && s.created ==> i == j)
      && (!r.created && !s.created ==> r.item == s.item)
  {
    RunKeepsInv(w, events);
  }

  /** A creating call and a repeated one are answered identical items exactly when
      the creation time is a whole number of milliseconds: the creator answers
      from memory, everyone else from the database. */
  lemma RepeatIsIdenticalIffWholeMillisecond(w: World, events: seq<Event>, i: nat, j: nat)
    requires Initial(w)
    requires var end := Run(w, events); Answered(end, i) && Answered(end, j)
    requires
      var end := Run(w, events);
      && end.calls[i].stage.outcome.value.created && !end.calls[j].stage.outcome.value.created
      && MessageKey(end.calls[i].params.message) == MessageKey(end.calls[j].params.message)
    ensures
      var end := Run(w, events);
      end.calls[i].stage.outcome.value.item == end.calls[j].stage.outcome.value.item
      <==> Instants.WholeMillisecond(end.calls[i].params.createdAt)
  {
    RunKeepsInv(w, events);
  }

  /** An unfinished call whose key an item already holds. */
  ghost predicate Waits(w: World, id: nat, existing: string)
    requires id in w.calls
  {
    && !w.calls[id].stage.Done? && existing in w.db.timeline
    && MessageKey(w.db.timeline[existing].message) == MessageKey(w.calls[id].params.message)
  }

  /** Once an item holds a call's key, either of the call's lookups answers that
      item if it was asked for the same chat and content, and refuses otherwise. */
  lemma LookupAnswersTheExistingItem(w: World, events: seq<Event>, id: nat, existing: string)
    requires Initial(w)
    requires var now := Run(w, events); id in now.calls && Waits(now, id, existing) && !now.calls[id].stage.Transact?
    ensures
      var now := Run(w, events);
      var p, d := now.calls[id].params, now.db.timeline[existing];
      NextStage(now.db, p, now.calls[id].stage)
      == Done(if d.chatID == p.chatID && d.message.content == p.message.content
              then Ok(CreateResult(AsItem(d), false)) else Err(IdempotencyConflict))
  {
    RunKeepsInv(w, events);
  }

  /** A transaction that lost the race aborts and leads to the second lookup, with
      one exception: a chat whose counter is exhausted refuses before the index
      can report the duplicate, unless the image was refused before that. */
  lemma LosingTransactionDefers(w: World, events: seq<Event>, id: nat, existing: string)
    requires Initial(w)
    requires var now := Run(w, events); id in now.calls && Waits(now, id, existing)
    ensures
      var now := Run(w, events);
      var p, d := now.calls[id].params, now.db.timeline[existing];
      var next := NextStage(now.db, p, Transact);
      && CreateTransaction(now.db, p).0 == now.db
      && (next.Done? ==> next.outcome.Err?)
      && (d.chatID == p.chatID ==>
            && p.chatID in now.db.chats
            && next == if AttachedImages(now.db.images, p).None? then Recheck(ImageUnavailable)
                       else if now.db.chats[p.chatID].lastSequence == MAX_SEQUENCE
                       then Done(Err(NotPersisted(SequenceExhausted)))
                       else Recheck(DuplicateKey))
  {
    RunKeepsInv(w, events);
    ExistingItemFacts(Run(w, events).db, Run(w, events).eventOf, existing);
    LoserDefers(Run(w, events).db, Run(w, events).calls[id].params, Run(w, events).db.timeline[existing].chatID);
    hide *;
  }

  /** What one step does to a call: nothing, its own next database step, or a failure.
      Stored items never change. */
  lemma StepOnCall(w: World, e: Event, id: nat)
    requires id in w.calls
    ensures id in Step(w, e).calls && Step(w, e).calls[id].params == w.calls[id].params
    ensures var stage := Step(w, e).calls[id].stage;
      || stage == w.calls[id].stage
      || stage == NextStage(w.db, w.calls[id].params, w.calls[id].stage)
      || (stage == Done(Err(Unavailable)) && !w.calls[id].stage.Done?)
    ensures forall k :: k in w.db.timeline ==> k in Step(w, e).db.timeline && Step(w, e).db.timeline[k] == w.db.timeline[k]
  {
    hide NextStage;
    hide FindExisting;
    hide Advanced;
    hide AttachedImages;
    hide NewOutboxDocument;
  }

  lemma ExistingItemFacts(db: Database, eventOf: map<string, string>, id: string)
    requires Consistent(db, eventOf) && id in db.timeline
    ensures MessageKey(db.timeline[id].message) in db.byClientMessage
    ensures db.timeline[id].chatID in db.chats
    ensures Participates(db.chats[db.timeline[id].chatID], db.timeline[id].message.senderID)
    ensures 0 <= db.chats[db.timeline[id].chatID].lastSequence <= MAX_SEQUENCE
  {
    hide Paired;
  }

  lemma TransactionMeetsExisting(db: Database, p: CreateParams, chatID: string)
    requires MessageKey(p.message) in db.byClientMessage
    requires chatID == p.chatID ==>
      && p.chatID in db.chats && Participates(db.chats[p.chatID], p.message.senderID)
      && 0 <= db.chats[p.chatID].lastSequence <= MAX_SEQUENCE
    ensures CreateTransaction(db, p).0 == db && CreateTransaction(db, p).1.Err?
    ensures chatID == p.chatID ==>
      CreateTransaction(db, p).1
      == Err(if AttachedImages(db.images, p).None? then ImageUnavailable
             else if db.chats[p.chatID].lastSequence == MAX_SEQUENCE then SequenceExhausted
             else DuplicateKey)
  {
  }

  lemma LoserDefers(db: Database, p: CreateParams, chatID: string)
    requires MessageKey(p.message) in db.byClientMessage
    requires chatID == p.chatID ==>
      && p.chatID in db.chats && Participates(db.chats[p.chatID], p.message.senderID)
      && 0 <= db.chats[p.chatID].lastSequence <= MAX_SEQUENCE
    ensures CreateTransaction(db, p).0 == db
    ensures NextStage(db, p, Transact).Done? ==> NextStage(db, p, Transact).outcome.Err?
    ensures chatID == p.chatID ==>
      NextStage(db, p, Transact)
      == if AttachedImages(db.images, p).None? then Recheck(ImageUnavailable)
         else if db.chats[p.chatID].lastSequence == MAX_SEQUENCE then Done(Err(NotPersisted(SequenceExhausted)))
         else Recheck(DuplicateKey)
  {
    TransactionMeetsExisting(db, p, chatID);
    hide CreateTransaction;
    hide AttachedImages;
  }
}
