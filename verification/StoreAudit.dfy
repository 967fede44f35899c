// What the message store writes always passes the audit.

module StoreAudit {
  import opened Common
  import opened Timeline
  import opened Documents
  import opened Audit
  import ChatListing
  import MessageStore

  /** The timeline's documents in some order, as the audit reads them. */
  function Entries(timeline: map<string, ItemDocument>, ids: seq<string>): (entries: seq<Entry>)
    requires forall i :: 0 <= i < |ids| ==> ids[i] in timeline
    ensures |entries| == |ids|
    ensures forall i :: 0 <= i < |ids| ==> entries[i] == EntryOf(timeline[ids[i]])
  {
    seq(|ids|, i requires 0 <= i < |ids| => EntryOf(timeline[ids[i]]))
  }

  function EntryOf(d: ItemDocument): Entry {
    Entry(d.chatID, Int(d.sequence), Str(d.message.clientMessageID))
  }

  function CountersOf(chats: map<string, ChatDocument>): Counters {
    map c | c in chats :: Int(chats[c].lastSequence)
  }

  /** Each document once. */
  ghost predicate Lists(ids: seq<string>, timeline: map<string, ItemDocument>) {
    && (forall i :: 0 <= i < |ids| ==> ids[i] in timeline)
    && (forall id :: id in timeline ==> id in ids)
    && (forall i, j :: 0 <= i < j < |ids| ==> ids[i] != ids[j])
  }

  lemma StoredEntryIsValid(db: MessageStore.Database, eventOf: map<string, string>, id: string)
    requires MessageStore.Consistent(db, eventOf) && id in db.timeline
    ensures ValidEntry(EntryOf(db.timeline[id]))
    ensures db.timeline[id].chatID in db.chats && 1 <= db.timeline[id].sequence <= db.chats[db.timeline[id].chatID].lastSequence
    ensures db.bySequence[MessageStore.SequenceKey(db.timeline[id])] == id
  {
    hide MessageStore.Paired;
    var d := db.timeline[id];
    assert MessageStore.SequenceKey(d) in db.bySequence;
    assert ToDomain(d) == Ok(AsItem(d));
    KeyIsSet(d);
  }

  lemma KeyIsSet(d: ItemDocument)
    requires ToDomain(d) == Ok(AsItem(d))
    ensures d.message.clientMessageID != ""
  {
    hide ParseID;
    hide ParseKind;
    hide ParseContentType;
    hide RestoreContent;
    hide ValidContent;
    hide ParseClientMessageID;
  }

  lemma CounterInRange(db: MessageStore.Database, eventOf: map<string, string>, chat: string)
    requires MessageStore.Consistent(db, eventOf) && chat in db.chats
    ensures 0 <= db.chats[chat].lastSequence <= MAX_SEQUENCE
  {
    hide MessageStore.Paired;
    hide MessageStore.Readable;
    hide MessageStore.Indexed;
  }

  lemma StoredChatIsExact(db: MessageStore.Database, eventOf: map<string, string>, ids: seq<string>, chat: string)
    requires MessageStore.Consistent(db, eventOf) && Lists(ids, db.timeline) && chat in db.chats
    ensures 0 <= db.chats[chat].lastSequence
    ensures ExactChat(Entries(db.timeline, ids), chat, db.chats[chat].lastSequence)
  {
    hide MessageStore.Consistent;
    hide ValidEntry;
    hide Held;
    var entries := Entries(db.timeline, ids);
    CounterInRange(db, eventOf, chat);
    forall e | e in entries && e.chatID == chat ensures ValidEntry(e) && e.sequence.n <= db.chats[chat].lastSequence {
      var i :| 0 <= i < |entries| && entries[i] == e;
      StoredEntryIsValid(db, eventOf, ids[i]);
    }
    forall k | 1 <= k <= db.chats[chat].lastSequence ensures Held(entries, chat, k) {
      StoredSequenceIsHeld(db, eventOf, ids, chat, k);
    }
  }

  lemma StoredSequenceIsHeld(db: MessageStore.Database, eventOf: map<string, string>, ids: seq<string>, chat: string, k: int)
    requires MessageStore.Consistent(db, eventOf) && Lists(ids, db.timeline)
    requires chat in db.chats && 1 <= k <= db.chats[chat].lastSequence
    ensures Held(Entries(db.timeline, ids), chat, k)
  {
    hide MessageStore.Paired;
    hide MessageStore.Readable;
    assert (chat, k) in db.bySequence;
    var id := db.bySequence[(chat, k)];
    assert MessageStore.SequenceKey(db.timeline[id]) == (chat, k);
    var i :| 0 <= i < |ids| && ids[i] == id;
    assert Entries(db.timeline, ids)[i] == EntryOf(db.timeline[id]);
  }

  lemma DistinctItemsDiffer(db: MessageStore.Database, eventOf: map<string, string>, a: string, b: string)
    requires MessageStore.Consistent(db, eventOf) && a in db.timeline && b in db.timeline && a != b
    requires db.timeline[a].chatID == db.timeline[b].chatID
    ensures !Same(EntryOf(db.timeline[a]).sequence, EntryOf(db.timeline[b]).sequence)
  {
    hide Same;
    StoredEntryIsValid(db, eventOf, a);
    StoredEntryIsValid(db, eventOf, b);
    hide MessageStore.Consistent;
    hide ValidEntry;
    var x, y := db.timeline[a], db.timeline[b];
    assert MessageStore.SequenceKey(x) != MessageStore.SequenceKey(y);
    DifferentIntsDiffer(x.sequence, y.sequence);
  }

  lemma DifferentIntsDiffer(m: int, n: int)
    requires m != n
    ensures !Same(Int(m), Int(n))
  {
  }

  lemma StoredEntriesAreUnique(db: MessageStore.Database, eventOf: map<string, string>, ids: seq<string>)
    requires MessageStore.Consistent(db, eventOf) && Lists(ids, db.timeline)
    ensures Unique(Entries(db.timeline, ids))
  {
    hide MessageStore.Consistent;
    hide EntryOf;
    hide Same;
    var entries := Entries(db.timeline, ids);
    forall i, j | 0 <= i < j < |entries| && entries[i].chatID == entries[j].chatID
      ensures !Same(entries[i].sequence, entries[j].sequence)
    {
      EntryNamesChat(db.timeline[ids[i]]);
      EntryNamesChat(db.timeline[ids[j]]);
      DistinctItemsDiffer(db, eventOf, ids[i], ids[j]);
    }
  }

  lemma EntryNamesChat(d: ItemDocument)
    ensures EntryOf(d).chatID == d.chatID
  {
  }

  /** Whatever calls, failures and publications interleave, the start-up audit of the
      store's own data passes, in whatever order it reads the documents. */
  lemma StoreDataPassesTheAudit(w: MessageStore.World, events: seq<MessageStore.Event>, ids: seq<string>)
    requires MessageStore.Initial(w) && Lists(ids, MessageStore.Run(w, events).db.timeline)
    ensures var db := MessageStore.Run(w, events).db;
      Unique(Entries(db.timeline, ids)) && AuditPasses(Entries(db.timeline, ids), CountersOf(db.chats))
  {
    MessageStore.RunKeepsInv(w, events);
    var end := MessageStore.Run(w, events);
    ConsistentDataPasses(end.db, end.eventOf, ids);
  }

  lemma StoredEntryCounts(db: MessageStore.Database, eventOf: map<string, string>, ids: seq<string>, chat: string, i: nat)
    requires MessageStore.Consistent(db, eventOf) && Lists(ids, db.timeline)
    requires i < |ids| && Entries(db.timeline, ids)[i].chatID == chat
    ensures chat in CountersOf(db.chats)
    ensures exists n: nat {:trigger Int(n)} ::
      n >= 1 && Same(CountersOf(db.chats)[chat], Int(n)) && ExactChat(Entries(db.timeline, ids), chat, n)
  {
    StoredEntryIsValid(db, eventOf, ids[i]);
    StoredChatIsExact(db, eventOf, ids, chat);
    hide MessageStore.Consistent;
    hide Lists;
    hide ExactChat;
    assert Same(CountersOf(db.chats)[chat], Int(db.chats[chat].lastSequence));
  }

  lemma EmptyChatCounts(db: MessageStore.Database, eventOf: map<string, string>, ids: seq<string>, chat: string)
    requires MessageStore.Consistent(db, eventOf) && Lists(ids, db.timeline) && chat in db.chats
    requires forall e :: e in Entries(db.timeline, ids) ==> e.chatID != chat
    ensures Same(IfNull(CountersOf(db.chats)[chat]), Int(0))
  {
    StoredChatIsExact(db, eventOf, ids, chat);
    hide MessageStore.Consistent;
    hide Lists;
    ExactChatHasItems(Entries(db.timeline, ids), chat, db.chats[chat].lastSequence);
  }

  lemma ExactChatHasItems(entries: seq<Entry>, chat: string, n: nat)
    requires ExactChat(entries, chat, n)
    ensures n >= 1 ==> exists e :: e in entries && e.chatID == chat
  {
    if n >= 1 {
      assert Held(entries, chat, 1);
    }
  }

  lemma ConsistentDataPasses(db: MessageStore.Database, eventOf: map<string, string>, ids: seq<string>)
    requires MessageStore.Consistent(db, eventOf) && Lists(ids, db.timeline)
    ensures Unique(Entries(db.timeline, ids)) && AuditPasses(Entries(db.timeline, ids), CountersOf(db.chats))
  {
    hide MessageStore.Consistent;
    hide Unique;
    hide ExactChat;
    hide Same;
    hide EntryOf;
    hide AuditPasses;
    var entries, counters := Entries(db.timeline, ids), CountersOf(db.chats);
    StoredEntriesAreUnique(db, eventOf, ids);
    forall e | e in entries
      ensures e.chatID in counters
      ensures exists n: nat {:trigger Int(n)} :: n >= 1 && Same(counters[e.chatID], Int(n)) && ExactChat(entries, e.chatID, n)
    {
      var i :| 0 <= i < |entries| && entries[i] == e;
      StoredEntryCounts(db, eventOf, ids, e.chatID, i);
    }
    forall chat | chat in counters && (forall e :: e in entries ==> e.chatID != chat) ensures Same(IfNull(counters[chat]), Int(0)) {
      EmptyChatCounts(db, eventOf, ids, chat);
    }
    AuditCharacterisesContiguity(entries, counters);
  }

  /** A listing reads a chat's documents under their sequences, and each of them. */
  lemma ReadsUnderSequence(db: MessageStore.Database, chat: string, k: int)
    requires MessageStore.Indexed(db.timeline, db.bySequence, db.byClientMessage) && k in ChatListing.ChatTimeline(db, chat)
    ensures
      var id := db.bySequence[(chat, k)];
      && (chat, k) in db.bySequence && id in db.timeline && ChatListing.ChatTimeline(db, chat)[k] == db.timeline[id]
      && db.timeline[id].chatID == chat && db.timeline[id].sequence == k
  {
    ChatListing.TimelineAt(db, chat, k);
    assert MessageStore.SequenceKey(db.timeline[db.bySequence[(chat, k)]]) == (chat, k);
  }

  lemma EveryDocumentIsRead(db: MessageStore.Database, id: string)
    requires MessageStore.Indexed(db.timeline, db.bySequence, db.byClientMessage) && id in db.timeline
    ensures
      var d := db.timeline[id];
      var m := ChatListing.ChatTimeline(db, d.chatID);
      d.sequence in m && m[d.sequence] == d
  {
    var d := db.timeline[id];
    ChatListing.TimelineAt(db, d.chatID, d.sequence);
    assert MessageStore.SequenceKey(d) == (d.chatID, d.sequence);
  }

  lemma TimelineIsAudited(db: MessageStore.Database, ids: seq<string>, chat: string)
    requires MessageStore.Indexed(db.timeline, db.bySequence, db.byClientMessage) && Lists(ids, db.timeline)
    ensures AuditedChat(ChatListing.ChatTimeline(db, chat), Entries(db.timeline, ids), chat)
  {
    hide MessageStore.Indexed;
    hide ChatListing.ChatTimeline;
    var m, entries := ChatListing.ChatTimeline(db, chat), Entries(db.timeline, ids);
    forall k | k in m
      ensures m[k].chatID == chat && m[k].sequence == k && Entry(chat, Int(k), Str(m[k].message.clientMessageID)) in entries
    {
      ReadsUnderSequence(db, chat, k);
      var id := db.bySequence[(chat, k)];
      var i :| 0 <= i < |ids| && ids[i] == id;
      assert entries[i] == EntryOf(db.timeline[id]);
    }
    forall i | 0 <= i < |entries| && entries[i].chatID == chat && entries[i].sequence.Int?
      ensures entries[i].sequence.n in m
      ensures entries[i].clientMessageID == Str(m[entries[i].sequence.n].message.clientMessageID)
    {
      EveryDocumentIsRead(db, ids[i]);
    }
  }

  /** What the store's listings read is what its audit has read, chat by chat. */
  lemma ListingsReadTheAuditedData(w: MessageStore.World, events: seq<MessageStore.Event>, ids: seq<string>, chat: string)
    requires MessageStore.Initial(w) && Lists(ids, MessageStore.Run(w, events).db.timeline)
    ensures
      var db := MessageStore.Run(w, events).db;
      AuditedChat(ChatListing.ChatTimeline(db, chat), Entries(db.timeline, ids), chat)
  {
    MessageStore.RunKeepsInv(w, events);
    var end := MessageStore.Run(w, events);
    hide MessageStore.Run;
    TimelineIsAudited(end.db, ids, chat);
  }
}
