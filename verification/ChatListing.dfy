// Listing the chats of the message store while calls keep appending to them.

module ChatListing {
  import opened Common
  import opened Timeline
  import opened Documents
  import opened Paging
  import opened PageWalk
  import MessageStore

  /** One chat's items by sequence, as the unique index lists them. */
  function ChatTimeline(db: MessageStore.Database, chat: string): Stored {
    map k | k in db.bySequence && k.0 == chat && db.bySequence[k] in db.timeline :: k.1 := db.timeline[db.bySequence[k]]
  }

  function CountOf(db: MessageStore.Database, chat: string): nat {
    if chat in db.chats && db.chats[chat].lastSequence > 0 then db.chats[chat].lastSequence else 0
  }

  lemma TimelineAt(db: MessageStore.Database, chat: string, n: int)
    requires MessageStore.Indexed(db.timeline, db.bySequence, db.byClientMessage)
    ensures n in ChatTimeline(db, chat) <==> (chat, n) in db.bySequence
    ensures (chat, n) in db.bySequence ==> db.bySequence[(chat, n)] in db.timeline
                                           && ChatTimeline(db, chat)[n] == db.timeline[db.bySequence[(chat, n)]]
  {
    if (chat, n) in db.bySequence {
      assert (chat, n).0 == chat && (chat, n).1 == n;
    }
    if n in ChatTimeline(db, chat) {
      var k :| k in db.bySequence && k.0 == chat && db.bySequence[k] in db.timeline && k.1 == n;
      assert k == (chat, n);
    }
  }

  lemma ChatEntry(db: MessageStore.Database, eventOf: map<string, string>, chat: string, n: int)
    requires MessageStore.Consistent(db, eventOf)
    ensures n in ChatTimeline(db, chat) <==> 1 <= n <= CountOf(db, chat)
    ensures n in ChatTimeline(db, chat) ==>
      var d := ChatTimeline(db, chat)[n]; d.sequence == n && d.chatID == chat && ReadsAsItself(d)
  {
    hide MessageStore.Paired;
    hide MessageStore.Readable;
    hide ToDomain;
    assert (chat, n) in db.bySequence <==> chat in db.chats && 1 <= n <= db.chats[chat].lastSequence;
    hide MessageStore.GapFree;
    TimelineAt(db, chat, n);
    if n in ChatTimeline(db, chat) {
      var id := db.bySequence[(chat, n)];
      assert MessageStore.SequenceKey(db.timeline[id]) == (chat, n);
      ItemReads(db.timeline, db.chats, id);
    }
  }

  lemma ItemReads(timeline: map<string, ItemDocument>, chats: map<string, ChatDocument>, id: string)
    requires MessageStore.Readable(timeline, chats) && id in timeline
    ensures ReadsAsItself(timeline[id])
  {
    hide ToDomain;
  }

  lemma ConsistentChatIsContiguous(db: MessageStore.Database, eventOf: map<string, string>, chat: string)
    requires MessageStore.Consistent(db, eventOf)
    ensures Contiguous(ChatTimeline(db, chat), CountOf(db, chat))
  {
    hide MessageStore.Consistent;
    hide ReadsAsItself;
    hide ChatTimeline;
    hide CountOf;
    var m := ChatTimeline(db, chat);
    forall n: int
      ensures n in m <==> 1 <= n <= CountOf(db, chat)
      ensures n in m ==> m[n].sequence == n && ReadsAsItself(m[n])
    {
      ChatEntry(db, eventOf, chat, n);
    }
  }

  lemma StepKeepsItems(w: MessageStore.World, e: MessageStore.Event, id: string)
    requires id in w.db.timeline
    ensures id in MessageStore.Step(w, e).db.timeline && MessageStore.Step(w, e).db.timeline[id] == w.db.timeline[id]
  {
    hide MessageStore.FindExisting;
    hide MessageStore.CreatedAnswer;
    hide MessageStore.AttachedImages;
  }

  lemma {:induction false} RunKeepsItems(w: MessageStore.World, events: seq<MessageStore.Event>, id: string)
    requires id in w.db.timeline
    ensures id in MessageStore.Run(w, events).db.timeline && MessageStore.Run(w, events).db.timeline[id] == w.db.timeline[id]
  {
    hide MessageStore.Step;
    if events != [] {
      RunKeepsItems(w, events[..|events| - 1], id);
      StepKeepsItems(MessageStore.Run(w, events[..|events| - 1]), events[|events| - 1], id);
    }
  }

  lemma ChatGrows(db: MessageStore.Database, db': MessageStore.Database, chat: string)
    requires MessageStore.Indexed(db.timeline, db.bySequence, db.byClientMessage)
    requires MessageStore.Indexed(db'.timeline, db'.bySequence, db'.byClientMessage)
    requires forall id :: id in db.timeline ==> id in db'.timeline && db'.timeline[id] == db.timeline[id]
    ensures Grew(ChatTimeline(db, chat), ChatTimeline(db', chat))
  {
    var m, m' := ChatTimeline(db, chat), ChatTimeline(db', chat);
    forall n | n in m ensures n in m' && m'[n] == m[n] {
      TimelineAt(db, chat, n);
      TimelineAt(db', chat, n);
      var id := db.bySequence[(chat, n)];
      assert MessageStore.SequenceKey(db'.timeline[id]) == (chat, n);
    }
  }

  lemma {:induction false} RunsCompose(w: MessageStore.World, a: seq<MessageStore.Event>, b: seq<MessageStore.Event>)
    ensures MessageStore.Run(w, a + b) == MessageStore.Run(MessageStore.Run(w, a), b)
  {
    hide MessageStore.Step;
    if b == [] {
      assert a + b == a;
    } else {
      RunsCompose(w, a, b[..|b| - 1]);
      assert (a + b)[..|a + b| - 1] == a + b[..|b| - 1];
    }
  }

  /** Points in time, not before one another. */
  predicate InOrder(times: seq<nat>, end: nat) {
    && (forall i :: 0 <= i < |times| ==> times[i] <= end)
    && (forall i, j :: 0 <= i < j < |times| ==> times[i] <= times[j])
  }

  function DatabaseAt(w: MessageStore.World, events: seq<MessageStore.Event>, time: nat): MessageStore.Database
    requires time <= |events|
  {
    MessageStore.Run(w, events[..time]).db
  }

  function ChatsAt(w: MessageStore.World, events: seq<MessageStore.Event>, times: seq<nat>, chat: string): (chats: seq<Stored>)
    requires InOrder(times, |events|)
    ensures |chats| == |times| && forall i :: 0 <= i < |times| ==> chats[i] == ChatTimeline(DatabaseAt(w, events, times[i]), chat)
  {
    seq(|times|, i requires 0 <= i < |times| => ChatTimeline(DatabaseAt(w, events, times[i]), chat))
  }

  function SizesAt(w: MessageStore.World, events: seq<MessageStore.Event>, times: seq<nat>, chat: string): (sizes: seq<nat>)
    requires InOrder(times, |events|)
    ensures |sizes| == |times| && forall i :: 0 <= i < |times| ==> sizes[i] == CountOf(DatabaseAt(w, events, times[i]), chat)
  {
    seq(|times|, i requires 0 <= i < |times| => CountOf(DatabaseAt(w, events, times[i]), chat))
  }

  lemma DatabaseIsConsistent(w: MessageStore.World, events: seq<MessageStore.Event>, time: nat)
    requires MessageStore.Initial(w) && time <= |events|
    ensures MessageStore.Consistent(DatabaseAt(w, events, time), MessageStore.Run(w, events[..time]).eventOf)
  {
    MessageStore.RunKeepsInv(w, events[..time]);
  }

  lemma DatabaseIsIndexed(w: MessageStore.World, events: seq<MessageStore.Event>, time: nat)
    requires MessageStore.Initial(w) && time <= |events|
    ensures var db := DatabaseAt(w, events, time); MessageStore.Indexed(db.timeline, db.bySequence, db.byClientMessage)
  {
    hide MessageStore.Initial;
    hide DatabaseAt;
    DatabaseIsConsistent(w, events, time);
  }

  lemma LaterItemsKept(w: MessageStore.World, events: seq<MessageStore.Event>, a: nat, b: nat, id: string)
    requires a <= b <= |events| && id in DatabaseAt(w, events, a).timeline
    ensures id in DatabaseAt(w, events, b).timeline
    ensures DatabaseAt(w, events, b).timeline[id] == DatabaseAt(w, events, a).timeline[id]
  {
    hide MessageStore.Run;
    assert events[..b] == events[..a] + events[a..b];
    RunsCompose(w, events[..a], events[a..b]);
    RunKeepsItems(MessageStore.Run(w, events[..a]), events[a..b], id);
  }

  lemma LaterChatGrew(w: MessageStore.World, events: seq<MessageStore.Event>, a: nat, b: nat, chat: string)
    requires MessageStore.Initial(w) && a <= b <= |events|
    ensures Grew(ChatTimeline(DatabaseAt(w, events, a), chat), ChatTimeline(DatabaseAt(w, events, b), chat))
  {
    DatabaseIsIndexed(w, events, a);
    DatabaseIsIndexed(w, events, b);
    hide MessageStore.Initial;
    hide MessageStore.Indexed;
    hide DatabaseAt;
    hide ChatTimeline;
    var db, db' := DatabaseAt(w, events, a), DatabaseAt(w, events, b);
    forall id | id in db.timeline ensures id in db'.timeline && db'.timeline[id] == db.timeline[id] {
      LaterItemsKept(w, events, a, b, id);
    }
    ChatGrows(db, db', chat);
  }

  lemma GrownChatIsLonger(m: Stored, m': Stored, n: nat, n': nat)
    requires Contiguous(m, n) && Contiguous(m', n') && Grew(m, m')
    ensures n <= n'
  {
    if n > 0 {
      assert n in m;
    }
  }

  /** What a listing reads page by page during a run are growing snapshots of the chat. */
  lemma PagesReadSnapshots(w: MessageStore.World, events: seq<MessageStore.Event>, times: seq<nat>, chat: string)
    requires MessageStore.Initial(w) && InOrder(times, |events|)
    ensures Snapshots(ChatsAt(w, events, times, chat), SizesAt(w, events, times, chat))
  {
    hide MessageStore.Initial;
    hide MessageStore.Consistent;
    hide Contiguous;
    hide Grew;
    hide ChatTimeline;
    hide CountOf;
    var chats, sizes := ChatsAt(w, events, times, chat), SizesAt(w, events, times, chat);
    forall i | 0 <= i < |times| ensures Contiguous(chats[i], sizes[i]) {
      DatabaseIsConsistent(w, events, times[i]);
      ConsistentChatIsContiguous(DatabaseAt(w, events, times[i]), MessageStore.Run(w, events[..times[i]]).eventOf, chat);
    }
    forall i, j | 0 <= i < j < |times| ensures sizes[i] <= sizes[j] && Grew(chats[i], chats[j]) {
      LaterChatGrew(w, events, times[i], times[j], chat);
      GrownChatIsLonger(chats[i], chats[j], sizes[i], sizes[j]);
    }
  }

  // ----- Main results --------------------------------------------------------------------

  /** While any calls run, reading forward to a fixed end from any moment on gives
      exactly after+1..through, in order, in the pages needed and no more. */
  lemma ForwardListingIsExact(w: MessageStore.World, events: seq<MessageStore.Event>, times: seq<nat>, chat: string,
                              after: int, through: int, limit: nat)
    requires MessageStore.Initial(w) && InOrder(times, |events|) && limit >= 1
    requires 0 <= after <= through && |times| > 0 && through <= CountOf(DatabaseAt(w, events, times[0]), chat)
    requires |times| >= Pages(through - after, limit)
    ensures
      var read := FollowAfter(ChatsAt(w, events, times, chat), after, through, limit);
      && read.Some? && |read.value| == through - after
      && forall i :: 0 <= i < |read.value| ==> read.value[i].sequence == after + 1 + i && read.value[i].chatID == chat
  {
    PagesReadSnapshots(w, events, times, chat);
    var chats, sizes := ChatsAt(w, events, times, chat), SizesAt(w, events, times, chat);
    ForwardIsExact(chats, sizes, after, through, limit);
    RangeIsOfChat(w, events, times[0], chat, after, through);
  }

  lemma RangeIsOfChat(w: MessageStore.World, events: seq<MessageStore.Event>, time: nat, chat: string, a: int, b: int)
    requires MessageStore.Initial(w) && time <= |events| && 0 <= a <= b <= CountOf(DatabaseAt(w, events, time), chat)
    ensures
      var m := ChatTimeline(DatabaseAt(w, events, time), chat);
      && (forall k :: a < k <= b ==> k in m)
      && forall i :: 0 <= i < b - a ==> Range(m, a, b)[i].sequence == a + 1 + i && Range(m, a, b)[i].chatID == chat
  {
    hide MessageStore.Initial;
    hide MessageStore.Consistent;
    var db := DatabaseAt(w, events, time);
    var eventOf := MessageStore.Run(w, events[..time]).eventOf;
    DatabaseIsConsistent(w, events, time);
    hide DatabaseAt;
    hide ChatTimeline;
    hide CountOf;
    var m := ChatTimeline(db, chat);
    forall k | a < k <= b ensures k in m && m[k].sequence == k && m[k].chatID == chat {
      ChatEntry(db, eventOf, chat, k);
    }
  }

  /** Reading backward from the first page gives exactly 1..n of the moment of that
      page, in order, whatever is appended while the other pages are read. */
  lemma BackwardListingIsExact(w: MessageStore.World, events: seq<MessageStore.Event>, times: seq<nat>, chat: string, limit: nat)
    requires MessageStore.Initial(w) && InOrder(times, |events|) && limit >= 1 && |times| > 0
    requires |times| >= Pages(CountOf(DatabaseAt(w, events, times[0]), chat), limit)
    ensures
      var read := FollowBefore(ChatsAt(w, events, times, chat), None, limit);
      && read.Some? && |read.value| == CountOf(DatabaseAt(w, events, times[0]), chat)
      && forall i :: 0 <= i < |read.value| ==> read.value[i].sequence == i + 1 && read.value[i].chatID == chat
  {
    hide MessageStore.Initial;
    hide MessageStore.Run;
    hide DatabaseAt;
    hide ChatTimeline;
    hide CountOf;
    hide Snapshots;
    hide FollowBefore;
    PagesReadSnapshots(w, events, times, chat);
    var chats, sizes := ChatsAt(w, events, times, chat), SizesAt(w, events, times, chat);
    BackwardIsExact(chats, sizes, None, limit);
    RangeIsOfChat(w, events, times[0], chat, 0, sizes[0]);
  }
}
