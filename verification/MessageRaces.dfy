// Runs of the message store in which repetitions are answered differently: one
// that shows the unrounded creation time, and one that fills a chat to its last
// sequence and then refuses a repetition.

module MessageRaces {
  import opened Common
  import opened Timeline
  import opened Documents
  import opened MessageStore
  import Instants
  import Text

  // ----- Distinct identifiers for 2^53 messages ------------------------------------

  function HexDigit(d: nat): char
    requires d < 16
  {
    if d < 10 then '0' + d as char else 'a' + (d - 10) as char
  }

  function Hex(n: nat, digits: nat): (s: string)
    ensures |s| == digits && forall i :: 0 <= i < digits ==> LowerHex(s[i])
  {
    if digits == 0 then "" else Hex(n / 16, digits - 1) + [HexDigit(n % 16)]
  }

  function Pow16(k: nat): nat {
    if k == 0 then 1 else 16 * Pow16(k - 1)
  }

  lemma {:induction false} HexIsInjective(m: nat, n: nat, digits: nat)
    requires m < Pow16(digits) && n < Pow16(digits) && Hex(m, digits) == Hex(n, digits)
    ensures m == n
  {
    if digits > 0 {
      assert Hex(m / 16, digits - 1) == Hex(m, digits)[..digits - 1] && Hex(n / 16, digits - 1) == Hex(n, digits)[..digits - 1];
      assert Hex(m, digits)[digits - 1] == HexDigit(m % 16) && Hex(n, digits)[digits - 1] == HexDigit(n % 16);
      HexIsInjective(m / 16, n / 16, digits - 1);
    }
  }

  function ID(n: nat): string {
    Hex(n, 14)
  }

  /** A canonical identifier that holds the fourteen digits of n. */
  function ClientID(n: nat): (s: string)
    ensures |s| == 36
  {
    var h := ID(n);
    seq(36, i requires 0 <= i < 36 =>
      if i < 2 then h[12 + i] else if i in {8, 13, 18, 23} then '-' else if i == 14 then '1' else if i == 19 then '8'
      else if i >= 24 then h[i - 24] else '0')
  }

  lemma ClientIDHoldsID(m: nat, n: nat)
    requires ClientID(m) == ClientID(n)
    ensures ID(m) == ID(n)
  {
    forall i | 0 <= i < 14 ensures ID(m)[i] == ID(n)[i] {
      var j := if i < 12 then i + 24 else i - 12;
      assert ClientID(m)[j] == ClientID(n)[j];
    }
  }

  lemma IDsDiffer(m: nat, n: nat)
    requires m <= MAX_SEQUENCE && n <= MAX_SEQUENCE && m != n
    ensures ID(m) != ID(n) && ClientID(m) != ClientID(n)
  {
    assert Pow16(7) == 0x1000_0000 && Pow16(14) == 0x100_0000_0000_0000;
    if ID(m) == ID(n) {
      HexIsInjective(m, n, 14);
    }
    if ClientID(m) == ClientID(n) {
      ClientIDHoldsID(m, n);
    }
  }

  // ----- One chat, one sender, numbered texts ------------------------------------------

  /** The chat, its participants, and the text that the first of them keeps sending. */
  datatype Setting = Setting(chat: string, sender: string, other: string, text: string)

  predicate Usable(k: Setting) {
    && k.chat != "" && Text.Trimmed(k.chat) && k.sender != "" && Text.Trimmed(k.sender) && k.sender != k.other
    && ValidContent(Content(TEXT, k.text, "", ""))
  }

  /** A request with its own identifiers for the message with the n-th client identifier,
      created a nanosecond off the millisecond. */
  function Request(k: Setting, own: nat, n: nat): CreateParams {
    CreateParams(ID(own), ID(own), k.chat, Message(ClientID(n), k.sender, Content(TEXT, k.text, "", "")), Instants.MILLISECOND + 1)
  }

  lemma RequestIsValid(k: Setting, own: nat, n: nat)
    requires Usable(k)
    ensures WellTyped(Request(k, own, n)) && ValidParams(Request(k, own, n))
  {
    var id := ID(own);
    assert LowerHex(id[0]) && LowerHex(id[13]);
    Text.TrimmedIsFixed(id);
    ClientIDIsCanonical(n);
    hide ID;
    hide ValidContent;
  }

  /** What a request and its repetitions share. */
  lemma RequestsAgree(k: Setting, own: nat, other: nat, n: nat)
    ensures
      var p, q := Request(k, own, n), Request(k, other, n);
      && p.message == q.message && p.chatID == q.chatID == k.chat && p.messageID == ID(own)
      && MessageKey(p.message) == MessageKey(q.message) == (k.sender, ClientID(n))
      && p.message.content.contentType == TEXT && !Instants.WholeMillisecond(p.createdAt)
  {
    hide ID;
    hide ClientID;
  }

  lemma ClientIDIsCanonical(n: nat)
    ensures CanonicalUUID(ClientID(n))
  {
    forall i | 0 <= i < 36 ensures if i in {8, 13, 18, 23} then ClientID(n)[i] == '-' else LowerHex(ClientID(n)[i]) {
    }
  }

  // ----- Reachable worlds ------------------------------------------------------------------

  function Empty(): World {
    World(Database(map[], map[], map[], map[], map[], map[]), map[], map[], map[])
  }

  ghost predicate Reached(w: World) {
    exists events :: Run(Empty(), events) == w
  }

  lemma ReachedNext(w: World, e: Event)
    requires Reached(w)
    ensures Reached(Step(w, e))
  {
    var events :| Run(Empty(), events) == w;
    assert (events + [e])[..|events|] == events;
    assert Run(Empty(), events + [e]) == Step(w, e);
  }

  lemma EmptyIsInitial()
    ensures Initial(Empty())
  {
  }

  /** A call begins, and its lookup finds nothing. */
  lemma ReachTransact(w: World, call: nat, p: CreateParams)
    requires Reached(w) && call !in w.calls && WellTyped(p) && ValidParams(p)
    requires MessageKey(p.message) !in w.db.byClientMessage
    ensures Reached(w.(calls := w.calls[call := Call(p, Transact)]))
  {
    hide WellTyped;
    hide ValidParams;
    ReachedNext(w, Begin(call, p));
    var w1 := w.(calls := w.calls[call := Call(p, Lookup)]);
    assert Step(w, Begin(call, p)) == w1;
    ReachedNext(w1, Advance(call));
    assert w1.calls[call := Call(p, Transact)] == w.calls[call := Call(p, Transact)];
  }

  /** Only numbered messages are stored, up to the n-th. */
  ghost predicate Filled(db: Database, k: Setting, n: nat) {
    && k.chat in db.chats && db.chats[k.chat].lastSequence == n && Participates(db.chats[k.chat], k.sender)
    && (forall id :: id in db.timeline ==> exists i: nat :: 1 <= i <= n && id == ID(i))
    && (forall id :: id in db.outbox ==> exists i: nat :: 1 <= i <= n && id == ID(i))
    && (forall key :: key in db.byClientMessage ==> exists i: nat :: 1 <= i <= n && key == (k.sender, ClientID(i)))
    && (forall key :: key in db.bySequence ==> key.1 <= n)
  }

  lemma NextIsNew(db: Database, k: Setting, n: nat)
    requires Filled(db, k, n) && n < MAX_SEQUENCE
    ensures ID(n + 1) !in db.timeline && ID(n + 1) !in db.outbox && (k.sender, ClientID(n + 1)) !in db.byClientMessage
  {
    forall i: nat | 1 <= i <= n ensures ID(i) != ID(n + 1) && ClientID(i) != ClientID(n + 1) {
      IDsDiffer(i, n + 1);
    }
    hide ID;
    hide ClientID;
  }

  lemma CommitGrows(db: Database, k: Setting, n: nat)
    requires Filled(db, k, n) && n < MAX_SEQUENCE
    ensures
      var (db', r) := CreateTransaction(db, Request(k, n + 1, n + 1));
      && r == Ok(n + 1)
      && db'.timeline.Keys == db.timeline.Keys + {ID(n + 1)} && db'.outbox.Keys == db.outbox.Keys + {ID(n + 1)}
      && db'.byClientMessage.Keys == db.byClientMessage.Keys + {(k.sender, ClientID(n + 1))}
      && db'.bySequence.Keys == db.bySequence.Keys + {(k.chat, n + 1)}
      && k.chat in db'.chats && db'.chats[k.chat].lastSequence == n + 1 && Participates(db'.chats[k.chat], k.sender)
  {
    NextIsNew(db, k, n);
    hide ID;
    hide ClientID;
    hide NewOutboxDocument;
    assert (k.chat, n + 1) !in db.bySequence;
    assert k.chat in db.chats && db.chats[k.chat].lastSequence == n && Participates(db.chats[k.chat], k.sender);
    hide Filled;
  }

  lemma CommitFills(db: Database, k: Setting, n: nat)
    requires Filled(db, k, n) && n < MAX_SEQUENCE
    ensures var (db', r) := CreateTransaction(db, Request(k, n + 1, n + 1)); r == Ok(n + 1) && Filled(db', k, n + 1)
  {
    CommitGrows(db, k, n);
    hide CreateTransaction;
    hide Request;
    hide ID;
    hide ClientID;
    hide Participates;
  }

  /** The numbered calls 0..n-1 have sent the messages 1..n. */
  lemma {:induction false} FillTo(k: Setting, n: nat) returns (w: World)
    requires Usable(k) && n <= MAX_SEQUENCE
    ensures Reached(w) && Filled(w.db, k, n) && forall c :: c in w.calls ==> c < n
  {
    if n == 0 {
      assert Run(Empty(), []) == Empty();
      ReachedNext(Empty(), AddChat(k.chat, k.sender, k.other, 0));
      w := Step(Empty(), AddChat(k.chat, k.sender, k.other, 0));
    } else {
      var w0 := FillTo(k, n - 1);
      w := FillOne(w0, k, n - 1);
    }
  }

  lemma FillOne(w0: World, k: Setting, n: nat) returns (w: World)
    requires Usable(k) && n < MAX_SEQUENCE
    requires Reached(w0) && Filled(w0.db, k, n) && forall c :: c in w0.calls ==> c < n
    ensures Reached(w) && Filled(w.db, k, n + 1) && forall c :: c in w.calls ==> c < n + 1
    ensures w.db == CreateTransaction(w0.db, Request(k, n + 1, n + 1)).0
    ensures w.calls == w0.calls[n := Call(Request(k, n + 1, n + 1), Done(CreatedAnswer(Request(k, n + 1, n + 1), n + 1)))]
  {
    hide *;
    var p := Request(k, n + 1, n + 1);
    RequestIsValid(k, n + 1, n + 1);
    RequestsAgree(k, n + 1, n + 1, n + 1);
    NextIsNew(w0.db, k, n);
    CommitFills(w0.db, k, n);
    ReachTransact(w0, n, p);
    w := ReachCommit(w0.(calls := w0.calls[n := Call(p, Transact)]), n, p, n + 1);
    assert w0.calls[n := Call(p, Transact)][n := Call(p, Done(CreatedAnswer(p, n + 1)))]
        == w0.calls[n := Call(p, Done(CreatedAnswer(p, n + 1)))];
  }

  lemma ReachCommit(w0: World, call: nat, p: CreateParams, sequence: int) returns (w: World)
    requires Reached(w0) && call in w0.calls && w0.calls[call] == Call(p, Transact)
    requires CreateTransaction(w0.db, p).1 == Ok(sequence)
    ensures Reached(w) && w.db == CreateTransaction(w0.db, p).0
    ensures w.calls == w0.calls[call := Call(p, Done(CreatedAnswer(p, sequence)))]
  {
    hide CreateTransaction;
    ReachedNext(w0, Advance(call));
    w := Step(w0, Advance(call));
  }

  // ----- Two answers for one message -------------------------------------------------------

  /** A creating call and a repetition, answered different items. */
  ghost predicate AnswersDiffer(events: seq<Event>, i: nat, j: nat) {
    var end := Run(Empty(), events);
    && Answered(end, i) && Answered(end, j)
    && MessageKey(end.calls[i].params.message) == MessageKey(end.calls[j].params.message)
    && end.calls[i].stage.outcome.value.created && !end.calls[j].stage.outcome.value.created
    && end.calls[i].stage.outcome.value.item != end.calls[j].stage.outcome.value.item
  }

  /** It happens: the first message of a chat, created off the millisecond, and its
      repetition. */
  lemma RepetitionsCanDiffer()
    ensures exists events, i, j :: AnswersDiffer(events, i, j)
  {
    SettingIsUsable("c", "u", "v", "x");
    var k := Setting("c", "u", "v", "x");
    hide Usable;
    var w0 := FillTo(k, 0);
    var w1 := FillOne(w0, k, 0);
    ReachDifference(w0, w1, k);
  }

  lemma SettingIsUsable(chat: string, sender: string, other: string, text: string)
    requires |chat| == |sender| == |other| == |text| == 1 && sender != other
    requires !Text.IsSpace(chat[0]) && !Text.IsSpace(sender[0]) && !Text.IsSpace(text[0])
    ensures Usable(Setting(chat, sender, other, text))
  {
    Text.TrimmedIsFixed(text);
    UpperNamesParse();
  }

  lemma ReachDifference(w0: World, w1: World, k: Setting)
    requires Usable(k) && Filled(w0.db, k, 0) && Reached(w1)
    requires w1.db == CreateTransaction(w0.db, Request(k, 1, 1)).0
    requires w1.calls == w0.calls[0 := Call(Request(k, 1, 1), Done(CreatedAnswer(Request(k, 1, 1), 1)))]
    requires w0.calls == map[]
    ensures exists events, i, j :: AnswersDiffer(events, i, j)
  {
    var p, q := Request(k, 1, 1), Request(k, 2, 1);
    var item := StoredItem(NewItemDocument(p, 1));
    RequestIsValid(k, 2, 1);
    FirstMessageAnswers(w0.db, k);
    RequestsAgree(k, 1, 2, 1);
    hide *;
    FindsTheItem(w1, p, q, AsItem(NewItemDocument(p, 1)), AsItem(item));
  }

  lemma FirstMessageAnswers(db: Database, k: Setting)
    requires Usable(k) && Filled(db, k, 0)
    ensures
      var p, q := Request(k, 1, 1), Request(k, 2, 1);
      var item := StoredItem(NewItemDocument(p, 1));
      && CreatedAnswer(p, 1) == Ok(CreateResult(AsItem(NewItemDocument(p, 1)), true))
      && FindExisting(CreateTransaction(db, p).0, q) == Some(Ok(AsItem(item)))
      && Resolve(Ok(AsItem(item)), q) == Ok(CreateResult(AsItem(item), false))
      && AsItem(item) != AsItem(NewItemDocument(p, 1))
  {
    hide *;
    RequestIsValid(k, 1, 1);
    RequestsAgree(k, 1, 2, 1);
    FirstSequence();
    CommitFills(db, k, 0);
    DocumentsRoundTrip(Request(k, 1, 1), 1);
    StoredMessageIsFound(db, Request(k, 1, 1), Request(k, 2, 1), 1);
  }

  lemma FirstSequence()
    ensures 0 < MAX_SEQUENCE && ParseSequence(1).Ok?
  {
  }

  lemma StoredMessageIsFound(db: Database, p: CreateParams, q: CreateParams, sequence: int)
    requires CreateTransaction(db, p).1 == Ok(sequence) && p.message == q.message && p.chatID == q.chatID
    requires ToDomain(NewItemDocument(p, sequence)) == Ok(AsItem(NewItemDocument(p, sequence)))
    requires ToDomain(StoredItem(NewItemDocument(p, sequence))) == Ok(AsItem(StoredItem(NewItemDocument(p, sequence))))
    requires !Instants.WholeMillisecond(p.createdAt)
    ensures
      var item := StoredItem(NewItemDocument(p, sequence));
      && CreatedAnswer(p, sequence) == Ok(CreateResult(AsItem(NewItemDocument(p, sequence)), true))
      && FindExisting(CreateTransaction(db, p).0, q) == Some(Ok(AsItem(item)))
      && Resolve(Ok(AsItem(item)), q) == Ok(CreateResult(AsItem(item), false))
      && AsItem(item) != AsItem(NewItemDocument(p, sequence))
  {
    var item := StoredItem(NewItemDocument(p, sequence));
    assert item.createdAt % Instants.MILLISECOND == 0;
    hide ToDomain;
    hide NewOutboxDocument;
    hide AttachedImages;
    hide Advanced;
    hide Instants.Stored;
  }

  /** A new call whose lookup finds another item than the creator was answered. */
  lemma FindsTheItem(w: World, p: CreateParams, q: CreateParams, created: Item, found: Item)
    requires Reached(w) && w.calls == map[0 := Call(p, Done(Ok(CreateResult(created, true))))]
    requires WellTyped(q) && ValidParams(q) && MessageKey(p.message) == MessageKey(q.message)
    requires FindExisting(w.db, q) == Some(Ok(found)) && Resolve(Ok(found), q) == Ok(CreateResult(found, false))
    requires created != found
    ensures exists events, i, j :: AnswersDiffer(events, i, j)
  {
    hide WellTyped;
    hide ValidParams;
    hide FindExisting;
    hide Resolve;
    hide MessageKey;
    ReachedNext(w, Begin(1, q));
    var w2 := w.(calls := w.calls[1 := Call(q, Lookup)]);
    assert Step(w, Begin(1, q)) == w2;
    ReachedNext(w2, Advance(1));
    var w3 := Step(w2, Advance(1));
    assert w3.calls[1] == Call(q, Done(Ok(CreateResult(found, false)))) && w3.calls[0] == w.calls[0];
    var events :| Run(Empty(), events) == w3;
    assert AnswersDiffer(events, 0, 1);
  }

  // ----- A repetition refused by the counter --------------------------------------------------

  /** A call about to repeat a stored text of its chat, which is told instead that
      the chat's counter is exhausted. */
  ghost predicate RefusedByCounter(events: seq<Event>, call: nat, existing: string) {
    var now := Run(Empty(), events);
    && call in now.calls && now.calls[call].stage.Transact? && Waits(now, call, existing)
    && now.db.timeline[existing].chatID == now.calls[call].params.chatID
    && now.db.timeline[existing].message == now.calls[call].params.message
    && NextStage(now.db, now.calls[call].params, Transact) == Done(Err(NotPersisted(SequenceExhausted)))
  }

  /** It happens: two calls for the last message a chat can hold. */
  lemma RepetitionCanMeetExhaustion()
    ensures exists events, call, existing :: RefusedByCounter(events, call, existing)
  {
    SettingIsUsable("c", "u", "v", "x");
    var k := Setting("c", "u", "v", "x");
    hide Usable;
    var n := MAX_SEQUENCE - 1;
    var w := FillTo(k, n);
    ReachRefusal(w, k, n);
  }

  lemma ReachRefusal(w: World, k: Setting, n: nat)
    requires Usable(k) && n + 1 == MAX_SEQUENCE
    requires Reached(w) && Filled(w.db, k, n) && forall c :: c in w.calls ==> c < n
    ensures exists events, call, existing :: RefusedByCounter(events, call, existing)
  {
    var p, q := Request(k, n + 1, n + 1), Request(k, n + 2, n + 1);
    RequestIsValid(k, n + 1, n + 1);
    RequestIsValid(k, n + 2, n + 1);
    NextIsNew(w.db, k, n);
    CommitFills(w.db, k, n);
    LastMessage(w.db, k, n);
    RequestsAgree(k, n + 1, n + 2, n + 1);
    hide *;
    ReachTransact(w, n, p);
    var w1 := w.(calls := w.calls[n := Call(p, Transact)]);
    ReachTransact(w1, n + 1, q);
    var w2 := w1.(calls := w1.calls[n + 1 := Call(q, Transact)]);
    var w3 := ReachCommit(w2, n, p, n + 1);
    ExhaustionRefuses(w3, n + 1, q, p.messageID);
  }

  lemma LastMessage(db: Database, k: Setting, n: nat)
    requires Filled(db, k, n) && n + 1 == MAX_SEQUENCE
    ensures
      var p := Request(k, n + 1, n + 1);
      var db' := CreateTransaction(db, p).0;
      && p.messageID in db'.timeline && db'.timeline[p.messageID].chatID == p.chatID && db'.timeline[p.messageID].message == p.message
      && p.chatID in db'.chats && db'.chats[p.chatID].lastSequence == MAX_SEQUENCE
  {
    CommitFills(db, k, n);
    hide ID;
    hide ClientID;
    hide NewOutboxDocument;
  }

  lemma ExhaustionRefuses(w: World, call: nat, q: CreateParams, existing: string)
    requires Reached(w) && call in w.calls && w.calls[call] == Call(q, Transact) && existing in w.db.timeline
    requires w.db.timeline[existing].chatID == q.chatID && w.db.timeline[existing].message == q.message
    requires q.chatID in w.db.chats && w.db.chats[q.chatID].lastSequence == MAX_SEQUENCE
    requires q.message.content.contentType == TEXT
    ensures exists events, call, existing :: RefusedByCounter(events, call, existing)
  {
    var events :| Run(Empty(), events) == w;
    EmptyIsInitial();
    assert AttachedImages(w.db.images, q).Some?;
    hide AttachedImages;
    hide CreateTransaction;
    hide NextStage;
    LosingTransactionDefers(Empty(), events, call, existing);
    assert RefusedByCounter(events, call, existing);
  }
}
