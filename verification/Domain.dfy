// Domain values of a chat timeline, their stored documents, and the mappings
// between them.

module Timeline {
  import opened Common
  import Text

  const MAX_SEQUENCE: int := 9_007_199_254_740_991 // 2^53 - 1
  const NIL_CLIENT_MESSAGE_ID := "00000000-0000-0000-0000-000000000000"

  datatype DomainError =
    | InvalidID | InvalidSequence | InvalidKind | InvalidContentType | InvalidContent
    | InvalidClientMessageID | InvalidSenderID | InvalidChatID | InvalidCreatedAt | InvalidUpdatedAt

  /** timeline.ParseID, chat.ParseID and user.ParseID. */
  function ParseID(raw: string): Result<string, DomainError> {
    var normalized := Text.TrimSpace(raw);
    if normalized == "" then Err(InvalidID) else Ok(normalized)
  }

  function ParseSequence(raw: int): Result<int, DomainError> {
    if raw <= 0 || raw > MAX_SEQUENCE then Err(InvalidSequence) else Ok(raw)
  }

  // ----- Client message identifiers -------------------------------------------

  function ToLower(s: string): string {
    seq(|s|, i requires 0 <= i < |s| => if 'A' <= s[i] <= 'Z' then s[i] - 'A' + 'a' else s[i])
  }

  predicate LowerHex(c: char) {
    '0' <= c <= '9' || 'a' <= c <= 'f'
  }

  /** The pattern of a lower-case UUID of versions 1 to 8. */
  predicate CanonicalUUID(s: string) {
    && |s| == 36
    && (forall i :: 0 <= i < 36 ==> if i in {8, 13, 18, 23} then s[i] == '-' else LowerHex(s[i]))
    && '1' <= s[14] <= '8'
    && s[19] in {'8', '9', 'a', 'b'}
  }

  /** Letters outside ASCII never lower to a character of the pattern, so lowering
      the ASCII ones decides the same inputs. */
  function ParseClientMessageID(raw: string): Result<string, DomainError> {
    var normalized := ToLower(Text.TrimSpace(raw));
    if normalized == NIL_CLIENT_MESSAGE_ID || !CanonicalUUID(normalized) then Err(InvalidClientMessageID)
    else Ok(normalized)
  }

  /** An accepted identifier is in the form that parsing leaves alone. */
  lemma ClientMessageIDIsStable(raw: string)
    requires ParseClientMessageID(raw).Ok?
    ensures CanonicalUUID(ParseClientMessageID(raw).value)
    ensures ParseClientMessageID(ParseClientMessageID(raw).value) == ParseClientMessageID(raw)
  {
    CanonicalUUIDParses(ParseClientMessageID(raw).value);
  }

  /** And every spelling of it is accepted as itself: with capital letters, and with white
      space around it. */
  lemma EverySpellingParses(id: string, raw: string, lead: string, trail: string)
    requires CanonicalUUID(id) && |raw| == 36 && Text.AllSpace(lead) && Text.AllSpace(trail)
    requires forall i :: 0 <= i < 36 ==> raw[i] == id[i] || ('A' <= raw[i] <= 'F' && id[i] == raw[i] - 'A' + 'a')
    ensures ParseClientMessageID(lead + raw + trail) == Ok(id)
  {
    assert LowerHex(id[0]) && LowerHex(id[35]);
    Text.TrimDropsPadding(lead, raw, trail);
    assert ToLower(raw) == id;
    assert id[14] != NIL_CLIENT_MESSAGE_ID[14];
  }

  lemma CanonicalUUIDParses(s: string)
    requires CanonicalUUID(s)
    ensures ParseClientMessageID(s) == Ok(s) && s != ""
  {
    assert LowerHex(s[0]) && LowerHex(s[35]);
    Text.TrimmedIsFixed(s);
    assert ToLower(s) == s;
    assert s[14] != NIL_CLIENT_MESSAGE_ID[14];
  }

  // ----- Message content --------------------------------------------------------

  const TEXT := "TEXT"
  const IMAGE := "IMAGE"

  datatype Content = Content(contentType: string, value: string, imageID: string, caption: string)

  /** Length in bytes of the UTF-8 form of one code point. */
  function CharBytes(c: char): nat {
    var n := c as int;
    if n < 0x80 then 1 else if n < 0x800 then 2 else if n < 0x1_0000 then 3 else 4
  }

  function ByteLength(s: string): nat {
    if s == "" then 0 else CharBytes(s[0]) + ByteLength(s[1..])
  }

  function NewImageContent(imageID: string, caption: string): Result<Content, DomainError> {
    if Text.TrimSpace(imageID) == "" || Text.TrimSpace(imageID) != imageID || ByteLength(imageID) > 128 || |caption| > 4000
    then Err(InvalidContent)
    else Ok(Content(IMAGE, "", imageID, caption))
  }

  function NewMessageContent(contentType: string, value: string): Result<Content, DomainError> {
    if contentType != TEXT then Err(InvalidContentType)
    else if Text.TrimSpace(value) == "" then Err(InvalidContent)
    else Ok(Content(TEXT, value, "", ""))
  }

  function RestoreContent(kind: string, value: string, imageID: string, caption: string): (r: Result<Content, DomainError>)
    ensures r.Ok? ==> r.value == Content(kind, value, imageID, caption)
  {
    if kind == TEXT then
      if imageID != "" || caption != "" then Err(InvalidContent) else NewMessageContent(kind, value)
    else if kind == IMAGE then
      if value != "" then Err(InvalidContent) else NewImageContent(imageID, caption)
    else Err(InvalidContentType)
  }

  predicate ValidContent(c: Content) {
    RestoreContent(c.contentType, c.value, c.imageID, c.caption).Ok?
  }

  /** A content is a text that is not blank, or an image with a trimmed identifier of up to
      128 bytes and a caption of up to 4000 characters; neither has fields of the other. */
  lemma ContentIsTextOrImage(c: Content)
    ensures ValidContent(c) <==>
      || (c == Content("TEXT", c.value, "", "") && !Text.Blank(c.value))
      || (c == Content("IMAGE", "", c.imageID, c.caption) && c.imageID != "" && Text.Trimmed(c.imageID)
          && ByteLength(c.imageID) <= 128 && |c.caption| <= 4000)
  {
    Text.TrimSpaceTrims(c.imageID);
    if Text.Trimmed(c.imageID) {
      Text.TrimmedIsFixed(c.imageID);
    }
  }

  function ToUpper(s: string): string {
    seq(|s|, i requires 0 <= i < |s| => if 'a' <= s[i] <= 'z' then s[i] - 'a' + 'A' else s[i])
  }

  const KIND_MESSAGE := "MESSAGE"

  /** ParseKind; only upper-case ASCII names are accepted, as for content types. */
  function ParseKind(raw: string): Result<string, DomainError> {
    var kind := ToUpper(Text.TrimSpace(raw));
    if kind != KIND_MESSAGE then Err(InvalidKind) else Ok(kind)
  }

  function ParseContentType(raw: string): Result<string, DomainError> {
    var contentType := ToUpper(Text.TrimSpace(raw));
    if contentType != TEXT && contentType != IMAGE then Err(InvalidContentType) else Ok(contentType)
  }

  // ----- Messages and items -------------------------------------------------------

  datatype Message = Message(clientMessageID: string, senderID: string, content: Content)

  /** A zero createdAt is the zero time. */
  datatype Item = Item(id: string, chatID: string, sequence: int, kind: string,
                       createdAt: int, updatedAt: int, message: Message)

  function NewMessage(clientMessageID: string, senderID: string, content: Content): Result<Message, DomainError> {
    if clientMessageID == "" then Err(InvalidClientMessageID)
    else if senderID == "" then Err(InvalidSenderID)
    else if !ValidContent(content) then Err(InvalidContent)
    else Ok(Message(clientMessageID, senderID, content))
  }

  function RestoreMessage(id: string, chatID: string, sequence: int, createdAt: int, updatedAt: int, message: Message)
    : Result<Item, DomainError>
  {
    if id == "" then Err(InvalidID)
    else if chatID == "" then Err(InvalidChatID)
    else if sequence <= 0 then Err(InvalidSequence)
    else if createdAt == 0 then Err(InvalidCreatedAt)
    else if updatedAt == 0 || updatedAt < createdAt then Err(InvalidUpdatedAt)
    else if message.clientMessageID == "" then Err(InvalidClientMessageID)
    else if message.senderID == "" then Err(InvalidSenderID)
    else if !ValidContent(message.content) then Err(InvalidContent)
    else Ok(Item(id, chatID, sequence, KIND_MESSAGE, createdAt, updatedAt, message))
  }
}

module Documents {
  import opened Common
  import opened Timeline
  import Text
  import Instants

  // ----- Commands -------------------------------------------------------------------

  datatype CreateParams = CreateParams(messageID: string, eventID: string, chatID: string, message: Message, createdAt: int)

  /** What the Go types of the parameters guarantee: identifiers come from their
      parsers (or are empty), and the clock reads later than the first
      millisecond of year one. */
  predicate WellTyped(p: CreateParams) {
    && Text.Trimmed(p.messageID) && Text.Trimmed(p.chatID) && Text.Trimmed(p.message.senderID)
    && (p.message.clientMessageID == "" || CanonicalUUID(p.message.clientMessageID))
    && p.createdAt >= Instants.MILLISECOND
  }

  predicate ValidParams(p: CreateParams) {
    && p.messageID != "" && p.chatID != ""
    && !Text.Blank(p.eventID) && Text.TrimSpace(p.eventID) == p.eventID
    && p.createdAt != 0
    && p.message.clientMessageID != "" && p.message.senderID != ""
    && ValidContent(p.message.content)
  }

  // ----- Stored documents -------------------------------------------------------------

  datatype ChatDocument = ChatDocument(participantOne: string, participantTwo: string, lastSequence: int, summarySortAt: int)

  datatype ItemDocument = ItemDocument(id: string, chatID: string, sequence: int, kind: string,
                                       createdAt: int, updatedAt: int, message: Message)

  datatype Payload = Payload(messageID: string, clientMessageID: string, chatID: string, sequence: int,
                             senderID: string, content: Content, createdAt: int)

  datatype Status = Pending | Processing | Published | Failed

  datatype Receipt = Receipt(stream: string, sequence: nat)

  datatype OutboxDocument = OutboxDocument(
    id: string, aggregateType: string, aggregateID: string, eventType: string, payload: Payload,
    status: Status, attempts: int, nextAttemptAt: int,
    lockedBy: Option<string>, lockedUntil: Option<int>, leaseID: Option<string>,
    publishedAt: Option<int>, receipt: Option<Receipt>, failedAt: Option<int>, lastError: Option<string>,
    createdAt: int)

  const AGGREGATE_CHAT := "CHAT"
  const MESSAGE_CREATED := "chat.message.created.v1"

  /** newTimelineItemDocument, before the database rounds its instants. */
  function NewItemDocument(p: CreateParams, sequence: int): ItemDocument {
    ItemDocument(p.messageID, p.chatID, sequence, KIND_MESSAGE, p.createdAt, p.createdAt, p.message)
  }

  /** The document as the database keeps it. */
  function StoredItem(d: ItemDocument): ItemDocument {
    d.(createdAt := Instants.Stored(d.createdAt), updatedAt := Instants.Stored(d.updatedAt))
  }

  function NewPayload(p: CreateParams, sequence: int): Payload {
    Payload(p.messageID, p.message.clientMessageID, p.chatID, sequence, p.message.senderID, p.message.content,
            Instants.Stored(p.createdAt))
  }

  /** newOutboxEventDocument, as stored. */
  function NewOutboxDocument(p: CreateParams, sequence: int): OutboxDocument {
    var createdAt := Instants.Stored(p.createdAt);
    OutboxDocument(p.eventID, AGGREGATE_CHAT, p.chatID, MESSAGE_CREATED, NewPayload(p, sequence),
                   Pending, 0, createdAt, None, None, None, None, None, None, None, createdAt)
  }

  /** Two states of one outbox document: only delivery fields may differ. */
  predicate SameMessage(before: OutboxDocument, after: OutboxDocument) {
    && after.id == before.id && after.payload == before.payload && after.createdAt == before.createdAt
    && after.aggregateType == before.aggregateType && after.aggregateID == before.aggregateID
    && after.eventType == before.eventType
  }

  function ToDomain(d: ItemDocument): Result<Item, DomainError> {
    var id := ParseID(d.id);
    if id.Err? then Err(id.error)
    else
      var chatID := ParseID(d.chatID);
      if chatID.Err? then Err(chatID.error)
      else
        var sequence := ParseSequence(d.sequence);
        if sequence.Err? then Err(sequence.error)
        else
          var kind := ParseKind(d.kind);
          if kind.Err? then Err(kind.error)
          else MessageToDomain(id.value, chatID.value, sequence.value, d)
  }

  function MessageToDomain(id: string, chatID: string, sequence: int, d: ItemDocument): Result<Item, DomainError> {
    var clientMessageID := ParseClientMessageID(d.message.clientMessageID);
    if clientMessageID.Err? then Err(clientMessageID.error)
    else
      var senderID := ParseID(d.message.senderID);
      if senderID.Err? then Err(senderID.error)
      else
        var contentType := ParseContentType(d.message.content.contentType);
        if contentType.Err? then Err(contentType.error)
        else
          var c := d.message.content;
          var content := RestoreContent(contentType.value, c.value, c.imageID, c.caption);
          if content.Err? then Err(content.error)
          else
            var message := NewMessage(clientMessageID.value, senderID.value, content.value);
            if message.Err? then Err(message.error)
            else RestoreMessage(id, chatID, sequence, d.createdAt, d.updatedAt, message.value)
  }

  /** The item a document describes, field by field. */
  function AsItem(d: ItemDocument): Item {
    Item(d.id, d.chatID, d.sequence, d.kind, d.createdAt, d.updatedAt, d.message)
  }

  /** Every accepted message, stored or not, reads back as itself. */
  lemma DocumentsRoundTrip(p: CreateParams, sequence: int)
    requires WellTyped(p) && ValidParams(p) && ParseSequence(sequence).Ok?
    ensures ToDomain(NewItemDocument(p, sequence)) == Ok(AsItem(NewItemDocument(p, sequence)))
    ensures ToDomain(StoredItem(NewItemDocument(p, sequence))) == Ok(AsItem(StoredItem(NewItemDocument(p, sequence))))
  {
    Text.TrimmedIsFixed(p.messageID);
    Text.TrimmedIsFixed(p.chatID);
    Text.TrimmedIsFixed(p.message.senderID);
    CanonicalUUIDParses(p.message.clientMessageID);
    UpperNamesParse();
    Instants.StoredMonotone(Instants.MILLISECOND, p.createdAt);
  }

  lemma UpperNamesParse()
    ensures ParseKind(KIND_MESSAGE) == Ok(KIND_MESSAGE)
    ensures ParseContentType(TEXT) == Ok(TEXT) && ParseContentType(IMAGE) == Ok(IMAGE)
  {
    Text.TrimmedIsFixed(KIND_MESSAGE);
    Text.TrimmedIsFixed(TEXT);
    Text.TrimmedIsFixed(IMAGE);
    assert ToUpper(KIND_MESSAGE) == KIND_MESSAGE && ToUpper(TEXT) == TEXT && ToUpper(IMAGE) == IMAGE;
  }

  // ----- Images -----------------------------------------------------------------------

  datatype ImageStatus = ImagePending | Ready | Attached | Deleting | Deleted

  datatype ImageDocument = ImageDocument(
    uploadedBy: string, chatID: string, clientUploadID: string, objectKey: string, checksum: string, sizeBytes: int,
    status: ImageStatus, messageID: Option<string>, uploadToken: Option<string>, deleteToken: Option<string>,
    expiresAt: int, lockedUntil: int, cleanupAfter: int, deleteStartedAt: int)
}
