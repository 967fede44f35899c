// What a message transaction decides and writes, and what a call answers, told from
// the stored documents themselves.

module MessageAnswers {
  import opened Common
  import opened Timeline
  import opened Documents
  import opened MessageStore
  import Instants
  import Outbox

  // ----- When a transaction commits -------------------------------------------------

  /** The image of an image message: uploaded by the sender for this chat, ready, and not
      expired when the message was created. */
  predicate ImageServes(images: map<string, ImageDocument>, p: CreateParams) {
    var id := p.message.content.imageID;
    && id in images && images[id].status == Ready
    && images[id].uploadedBy == p.message.senderID && images[id].chatID == p.chatID
    && Instants.Stored(p.createdAt) < images[id].expiresAt
  }

  predicate ImageMissing(images: map<string, ImageDocument>, p: CreateParams) {
    p.message.content.contentType == IMAGE && !ImageServes(images, p)
  }

  /** The sender is one of the two participants of the chat. */
  predicate MayWrite(chats: map<string, ChatDocument>, p: CreateParams) {
    p.chatID in chats && p.message.senderID in {chats[p.chatID].participantOne, chats[p.chatID].participantTwo}
  }

  /** The stored message that has the request's key. */
  predicate HasKey(d: ItemDocument, p: CreateParams) {
    d.message.senderID == p.message.senderID && d.message.clientMessageID == p.message.clientMessageID
  }

  /** A document that an insert of this request would repeat. */
  ghost predicate Repeated(db: Database, p: CreateParams) {
    || p.messageID in db.timeline || p.eventID in db.outbox
    || exists id :: id in db.timeline && HasKey(db.timeline[id], p)
  }

  lemma KeyIsTaken(db: Database, eventOf: map<string, string>, p: CreateParams)
    requires Consistent(db, eventOf)
    ensures MessageKey(p.message) in db.byClientMessage <==>
            exists id :: id in db.timeline && HasKey(db.timeline[id], p)
  {
    hide Paired;
    hide Readable;
    hide GapFree;
    if MessageKey(p.message) in db.byClientMessage {
      assert MessageKey(db.timeline[db.byClientMessage[MessageKey(p.message)]].message) == MessageKey(p.message);
    }
    if id :| id in db.timeline && HasKey(db.timeline[id], p) {
      assert MessageKey(db.timeline[id].message) == MessageKey(p.message);
    }
  }

  /** Exactly when a transaction commits on consistent data, and otherwise for which of
      its four reasons, in this order, it aborts. */
  lemma TransactionIsExact(db: Database, eventOf: map<string, string>, p: CreateParams)
    requires Consistent(db, eventOf)
    ensures
      var r := CreateTransaction(db, p).1;
      if ImageMissing(db.images, p) then r == Err(ImageUnavailable)
      else if !MayWrite(db.chats, p) then r == Err(NoSuchChat)
      else if db.chats[p.chatID].lastSequence == 9_007_199_254_740_991 then r == Err(SequenceExhausted)
      else if Repeated(db, p) then r == Err(DuplicateKey)
      else r == Ok(db.chats[p.chatID].lastSequence + 1)
  {
    hide Consistent;
    hide CreateTransaction;
    hide ImageMissing;
    KeyIsTaken(db, eventOf, p);
    if p.chatID in db.chats {
      NextSequenceIsFree(db, eventOf, p.chatID);
    }
    TransactionDecides(db, p);
  }

  lemma TransactionDecides(db: Database, p: CreateParams)
    requires p.chatID in db.chats ==> 0 <= db.chats[p.chatID].lastSequence <= MAX_SEQUENCE
    ensures
      CreateTransaction(db, p).1
      == if ImageMissing(db.images, p) then Err(ImageUnavailable)
         else if !MayWrite(db.chats, p) then Err(NoSuchChat)
         else
           var n := db.chats[p.chatID].lastSequence;
           if n == MAX_SEQUENCE then Err(SequenceExhausted)
           else if p.messageID in db.timeline || (p.chatID, n + 1) in db.bySequence
                   || MessageKey(p.message) in db.byClientMessage || p.eventID in db.outbox then Err(DuplicateKey)
           else Ok(n + 1)
  {
    AttachingFails(db.images, p);
    hide NewOutboxDocument;
    hide AttachedImages;
    hide ImageMissing;
    hide Instants.Stored;
  }

  lemma AttachingFails(images: map<string, ImageDocument>, p: CreateParams)
    ensures AttachedImages(images, p) == None <==> ImageMissing(images, p)
  {
  }

  lemma NextSequenceIsFree(db: Database, eventOf: map<string, string>, chat: string)
    requires Consistent(db, eventOf) && chat in db.chats
    ensures 0 <= db.chats[chat].lastSequence <= MAX_SEQUENCE && (chat, db.chats[chat].lastSequence + 1) !in db.bySequence
  {
    hide Paired;
    hide Readable;
    hide Indexed;
  }

  /** What a commit writes: one item and one event, the chat's counter and position, and
      the attached image; every other document stays as it is. The event is unattempted,
      unleased, and due from the message's creation on. */
  lemma CommitWritesExactly(db: Database, p: CreateParams)
    requires CreateTransaction(db, p).1.Ok?
    ensures
      var (db', r) := CreateTransaction(db, p);
      var at, id := Instants.Stored(p.createdAt), p.message.content.imageID;
      && db'.timeline == db.timeline[p.messageID := ItemDocument(p.messageID, p.chatID, r.value, "MESSAGE", at, at, p.message)]
      && p.chatID in db.chats && p.chatID in db'.chats && db'.chats == db.chats[p.chatID := db'.chats[p.chatID]]
      && db'.chats[p.chatID].lastSequence == r.value == db.chats[p.chatID].lastSequence + 1
      && db'.chats[p.chatID].summarySortAt >= at && db'.chats[p.chatID].summarySortAt >= db.chats[p.chatID].summarySortAt
      && db'.chats[p.chatID].summarySortAt in {at, db.chats[p.chatID].summarySortAt}
      && db'.chats[p.chatID].participantOne == db.chats[p.chatID].participantOne
      && db'.chats[p.chatID].participantTwo == db.chats[p.chatID].participantTwo
      && p.eventID in db'.outbox && db'.outbox == db.outbox[p.eventID := db'.outbox[p.eventID]]
      && (if p.message.content.contentType == IMAGE
          then id in db.images && id in db'.images && db'.images == db.images[id := db'.images[id]]
               && db'.images[id] == db.images[id].(status := Attached, messageID := Some(p.messageID))
          else db'.images == db.images)
  {
    assert KIND_MESSAGE == "MESSAGE";
    hide NewOutboxDocument;
    hide Attachable;
  }

  lemma CommittedEventIsDue(db: Database, p: CreateParams, now: int)
    requires CreateTransaction(db, p).1.Ok?
    ensures
      var (db', r) := CreateTransaction(db, p);
      && p.eventID in db'.outbox
      && var e := db'.outbox[p.eventID];
      && (Outbox.Claimable(e, now) <==> Instants.Stored(p.createdAt) <= Instants.Stored(now))
      && e.status == Pending && e.attempts == 0 && e.leaseID == None && e.lockedBy == None && e.lockedUntil == None
      && e.publishedAt == None && e.receipt == None && e.failedAt == None && e.lastError == None
      && e.id == p.eventID && e.createdAt == Instants.Stored(p.createdAt)
      && e.aggregateType == "CHAT" && e.aggregateID == p.chatID && e.eventType == "chat.message.created.v1"
      && e.payload == Payload(p.messageID, p.message.clientMessageID, p.chatID, r.value, p.message.senderID, p.message.content,
                              Instants.Stored(p.createdAt))
  {
    hide AttachedImages;
    hide Advanced;
  }

  // ----- What a call answers -----------------------------------------------------------

  /** A call is told that its chat does not exist exactly when nothing was found under its
      key and the transaction met a chat that is missing or has other participants; a
      missing image is reported first. */
  lemma ChatIsReportedMissing(p: CreateParams, atLookup: Database, atTransaction: Database, atRecheck: Database)
    requires ValidParams(p)
    ensures CallOutcome(p, atLookup, atTransaction, atRecheck) == Err(ChatNotFound) <==>
      FindExisting(atLookup, p) == None && !ImageMissing(atTransaction.images, p) && !MayWrite(atTransaction.chats, p)
  {
    hide ValidParams;
    hide FindExisting;
    hide ToDomain;
    hide Instants.Stored;
  }

  /** A repetition nobody interferes with is answered the stored message if it asks for
      the same one, and refused otherwise. */
  lemma UndisturbedRepetition(db: Database, eventOf: map<string, string>, p: CreateParams, id: string)
    requires Consistent(db, eventOf) && ValidParams(p) && id in db.timeline && HasKey(db.timeline[id], p)
    ensures CallOutcome(p, db, db, db)
            == if db.timeline[id].chatID == p.chatID && db.timeline[id].message.content == p.message.content
               then Ok(CreateResult(AsItem(db.timeline[id]), false)) else Err(IdempotencyConflict)
  {
    KeyLeadsTo(db, eventOf, p, id);
    hide Consistent;
    hide FindExisting;
    hide CreateTransaction;
    hide ValidParams;
  }

  /** A new message nobody interferes with is created, with its fields as given, exactly
      when nothing stands in its way; else the obstacle is named. */
  lemma UndisturbedCreation(db: Database, eventOf: map<string, string>, p: CreateParams)
    requires Consistent(db, eventOf) && WellTyped(p) && ValidParams(p)
    requires forall id :: id in db.timeline ==> !HasKey(db.timeline[id], p)
    ensures
      CallOutcome(p, db, db, db)
      == if ImageMissing(db.images, p) then Err(NotPersisted(ImageUnavailable))
         else if !MayWrite(db.chats, p) then Err(ChatNotFound)
         else if db.chats[p.chatID].lastSequence == 9_007_199_254_740_991 then Err(NotPersisted(SequenceExhausted))
         else if p.messageID in db.timeline || p.eventID in db.outbox then Err(NotPersisted(DuplicateKey))
         else Ok(CreateResult(Item(p.messageID, p.chatID, db.chats[p.chatID].lastSequence + 1, "MESSAGE",
                                   p.createdAt, p.createdAt, p.message), true))
  {
    TransactionIsExact(db, eventOf, p);
    NothingFound(db, eventOf, p);
    OutcomeOfNew(db, p);
    if CreateTransaction(db, p).1.Ok? {
      SequenceParses(db, p);
      CreatedIsAsGiven(p, CreateTransaction(db, p).1.value);
    }
    assert Repeated(db, p) <==> p.messageID in db.timeline || p.eventID in db.outbox;
    hide *;
  }

  lemma NothingFound(db: Database, eventOf: map<string, string>, p: CreateParams)
    requires Consistent(db, eventOf) && forall id :: id in db.timeline ==> !HasKey(db.timeline[id], p)
    ensures FindExisting(db, p) == None
  {
    KeyIsTaken(db, eventOf, p);
    hide Consistent;
    hide ToDomain;
  }

  lemma OutcomeOfNew(db: Database, p: CreateParams)
    requires ValidParams(p) && FindExisting(db, p) == None
    ensures CallOutcome(p, db, db, db)
            == match CreateTransaction(db, p).1
               case Ok(sequence) => CreatedAnswer(p, sequence)
               case Err(cause) => Err(if cause.NoSuchChat? then ChatNotFound else NotPersisted(cause))
  {
    hide ValidParams;
    hide FindExisting;
    hide CreateTransaction;
    hide CreatedAnswer;
  }

  lemma CreatedIsAsGiven(p: CreateParams, n: int)
    requires WellTyped(p) && ValidParams(p) && ParseSequence(n).Ok?
    ensures CreatedAnswer(p, n) == Ok(CreateResult(Item(p.messageID, p.chatID, n, "MESSAGE", p.createdAt, p.createdAt, p.message), true))
  {
    DocumentsRoundTrip(p, n);
    assert KIND_MESSAGE == "MESSAGE";
    hide WellTyped;
    hide ValidParams;
    hide ToDomain;
  }

  lemma SequenceParses(db: Database, p: CreateParams)
    requires CreateTransaction(db, p).1.Ok?
    ensures ParseSequence(CreateTransaction(db, p).1.value).Ok?
  {
    hide AttachedImages;
    hide NewOutboxDocument;
  }

  lemma KeyLeadsTo(db: Database, eventOf: map<string, string>, p: CreateParams, id: string)
    requires Consistent(db, eventOf) && id in db.timeline && HasKey(db.timeline[id], p)
    ensures FindExisting(db, p) == Some(Ok(AsItem(db.timeline[id])))
  {
    hide Paired;
    hide GapFree;
    hide ToDomain;
    hide ValidContent;
    assert MessageKey(db.timeline[id].message) == MessageKey(p.message);
  }
}
