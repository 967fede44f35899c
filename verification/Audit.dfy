// The start-up audit: aggregates over the timeline and the chats' counters, and
// what it means when they agree.

module Audit {
  import opened Common
  import opened Timeline
  import P = Paging

  /** A BSON value, as far as the audit distinguishes them. */
  datatype Value = Missing | Null | Int(n: int) | Double(x: real) | Str(s: string)

  /** A timeline document, reduced to the fields the audit reads. */
  datatype Entry = Entry(chatID: string, sequence: Value, clientMessageID: Value)

  /** The chats' last_sequence fields. */
  type Counters = map<string, Value>

  predicate IsNumber(v: Value) {
    v.Int? || v.Double?
  }

  function Number(v: Value): real
    requires IsNumber(v)
  {
    if v.Int? then v.n as real else v.x
  }

  /** Equality across number types. */
  predicate Same(a: Value, b: Value) {
    if IsNumber(a) && IsNumber(b) then Number(a) == Number(b) else a == b
  }

  /** Numbers sort before strings; nothing else is compared here. Any fixed order of
      strings will do. */
  predicate Below(a: Value, b: Value) {
    if IsNumber(a) && IsNumber(b) then Number(a) < Number(b) else IsNumber(a) && b.Str?
  }

  predicate Ignored(v: Value) {
    v.Missing? || v.Null?
  }

  // ----- The aggregation ---------------------------------------------------------------

  function Group(entries: seq<Entry>, chat: string): (g: seq<Entry>)
    ensures forall e :: e in g <==> e in entries && e.chatID == chat
  {
    if entries == [] then []
    else
      var rest, last := Group(entries[..|entries| - 1], chat), entries[|entries| - 1];
      assert entries == entries[..|entries| - 1] + [last];
      if last.chatID == chat then rest + [last] else rest
  }

  /** $min, which passes over null and missing values. */
  function MinOf(g: seq<Entry>): Value {
    if g == [] then Null
    else
      var acc, v := MinOf(g[..|g| - 1]), g[|g| - 1].sequence;
      if Ignored(v) then acc else if acc.Null? || Below(v, acc) then v else acc
  }

  function MaxOf(g: seq<Entry>): Value {
    if g == [] then Null
    else
      var acc, v := MaxOf(g[..|g| - 1]), g[|g| - 1].sequence;
      if Ignored(v) then acc else if acc.Null? || Below(acc, v) then v else acc
  }

  predicate ValidEntry(e: Entry) {
    e.sequence.Int? && 0 < e.sequence.n <= MAX_SEQUENCE && e.clientMessageID.Str? && e.clientMessageID.s != ""
  }

  function ValidCount(g: seq<Entry>): nat {
    if g == [] then 0 else ValidCount(g[..|g| - 1]) + if ValidEntry(g[|g| - 1]) then 1 else 0
  }

  /** The first pipeline's conditions on one chat that has items. */
  predicate GroupPasses(entries: seq<Entry>, counters: Counters, chat: string) {
    var g := Group(entries, chat);
    && Same(MinOf(g), Int(1)) && Same(MaxOf(g), Int(|g|)) && ValidCount(g) == |g|
    && chat in counters && Same(counters[chat], MaxOf(g))
  }

  function IfNull(v: Value): Value {
    if Ignored(v) then Int(0) else v
  }

  /** The second pipeline's condition on one chat: counter and tail agree. */
  predicate CounterPasses(entries: seq<Entry>, counters: Counters, chat: string)
    requires chat in counters
  {
    Same(IfNull(counters[chat]), IfNull(MaxOf(Group(entries, chat))))
  }

  ghost predicate AuditPasses(entries: seq<Entry>, counters: Counters) {
    && (forall e :: e in entries ==> GroupPasses(entries, counters, e.chatID))
    && (forall chat :: chat in counters ==> CounterPasses(entries, counters, chat))
  }

  class Repository {
    var entries: seq<Entry>
    var counters: Counters
    var sequenceDataChecked: bool

    /** Runs both pipelines and keeps whether they found nothing. */
    method CheckRealtimeData() returns (ok: bool)
      modifies this`sequenceDataChecked
      ensures ok <==> AuditPasses(entries, counters)
      ensures sequenceDataChecked == ok
    {
      ok := CheckSnapshot();
      sequenceDataChecked := ok;
    }

    method CheckSnapshot() returns (ok: bool)
      ensures ok <==> AuditPasses(entries, counters)
    {
      for i := 0 to |entries|
        invariant forall j :: 0 <= j < i ==> GroupPasses(entries, counters, entries[j].chatID)
      {
        if !GroupPasses(entries, counters, entries[i].chatID) {
          return false;
        }
      }
      var chats := counters.Keys;
      while chats != {}
        invariant chats <= counters.Keys
        invariant forall c :: c in counters && c !in chats ==> CounterPasses(entries, counters, c)
        decreases |chats|
      {
        var c :| c in chats;
        if !CounterPasses(entries, counters, c) {
          return false;
        }
        chats := chats - {c};
      }
      ok := true;
    }
  }

  // ----- What it should mean -----------------------------------------------------------------

  /** The unique index on (chat, sequence), for documents that have a sequence. */
  ghost predicate Unique(entries: seq<Entry>) {
    forall i, j :: 0 <= i < j < |entries| && entries[i].chatID == entries[j].chatID && !entries[i].sequence.Missing? ==>
      !Same(entries[i].sequence, entries[j].sequence)
  }

  ghost predicate Held(entries: seq<Entry>, chat: string, k: int) {
    exists i :: 0 <= i < |entries| && entries[i].chatID == chat && entries[i].sequence == Int(k)
  }

  /** The chat's documents all have a usable client key and a sequence in 1..n, and
      every one of those is held. */
  ghost predicate ExactChat(entries: seq<Entry>, chat: string, n: nat) {
    && (forall e :: e in entries && e.chatID == chat ==> ValidEntry(e) && e.sequence.n <= n)
    && (forall k :: 1 <= k <= n ==> Held(entries, chat, k))
    && n <= MAX_SEQUENCE
  }

  /** Every counter is the number of the chat's items, whose sequences are 1..counter;
      items without a chat do not exist. */
  ghost predicate Exact(entries: seq<Entry>, counters: Counters) {
    && (forall e :: e in entries ==>
          e.chatID in counters && exists n: nat {:trigger Int(n)} :: n >= 1 && Same(counters[e.chatID], Int(n)) && ExactChat(entries, e.chatID, n))
    && (forall chat :: chat in counters && (forall e :: e in entries ==> e.chatID != chat) ==> Same(IfNull(counters[chat]), Int(0)))
  }

  // ----- From the aggregates to the sequences ---------------------------------------------

  lemma {:induction false} GroupIsUnique(entries: seq<Entry>, chat: string)
    requires Unique(entries)
    ensures Unique(Group(entries, chat))
  {
    if entries != [] {
      var before, last := entries[..|entries| - 1], entries[|entries| - 1];
      GroupIsUnique(before, chat);
      var rest := Group(before, chat);
      if last.chatID == chat {
        forall i | 0 <= i < |rest| && !rest[i].sequence.Missing? ensures !Same(rest[i].sequence, last.sequence) {
          assert rest[i] in before;
          var j :| 0 <= j < |before| && before[j] == rest[i];
          assert entries[j] == rest[i];
        }
      }
    }
  }

  lemma {:induction false} ValidCountMeans(g: seq<Entry>)
    ensures ValidCount(g) <= |g|
    ensures ValidCount(g) == |g| <==> forall e :: e in g ==> ValidEntry(e)
  {
    if g != [] {
      ValidCountMeans(g[..|g| - 1]);
      assert g == g[..|g| - 1] + [g[|g| - 1]];
    }
  }

  ghost predicate AllInts(g: seq<Entry>) {
    forall e :: e in g ==> e.sequence.Int?
  }

  lemma {:induction false} MinBounds(g: seq<Entry>)
    requires g != [] && AllInts(g)
    ensures MinOf(g).Int? && exists e :: e in g && e.sequence == MinOf(g)
    ensures forall e :: e in g ==> MinOf(g).n <= e.sequence.n
  {
    var rest, last := g[..|g| - 1], g[|g| - 1];
    assert g == rest + [last];
    assert last in g;
    if rest != [] {
      MinBounds(rest);
      var low :| low in rest && low.sequence == MinOf(rest);
      assert low in g;
    }
  }

  lemma {:induction false} MaxBounds(g: seq<Entry>)
    requires g != [] && AllInts(g)
    ensures MaxOf(g).Int? && exists e :: e in g && e.sequence == MaxOf(g)
    ensures forall e :: e in g ==> e.sequence.n <= MaxOf(g).n
  {
    var rest, last := g[..|g| - 1], g[|g| - 1];
    assert g == rest + [last];
    assert last in g;
    if rest != [] {
      MaxBounds(rest);
      var high :| high in rest && high.sequence == MaxOf(rest);
      assert high in g;
    }
  }

  function Values(g: seq<Entry>): (s: set<int>)
    requires AllInts(g)
  {
    if g == [] then {}
    else
      assert g == g[..|g| - 1] + [g[|g| - 1]];
      Values(g[..|g| - 1]) + {g[|g| - 1].sequence.n}
  }

  ghost predicate Contains(g: seq<Entry>, k: int) {
    exists e :: e in g && e.sequence == Int(k)
  }

  lemma {:induction false} ValuesMean(g: seq<Entry>, k: int)
    requires AllInts(g)
    ensures k in Values(g) <==> Contains(g, k)
  {
    if g != [] {
      var rest, last := g[..|g| - 1], g[|g| - 1];
      assert g == rest + [last];
      ValuesMean(rest, k);
      assert last in g;
      if e :| e in rest && e.sequence == Int(k) {
        assert e in g;
      }
    }
  }

  lemma {:induction false} ValuesCount(g: seq<Entry>, chat: string)
    requires AllInts(g) && Unique(g) && forall e :: e in g ==> e.chatID == chat
    ensures |Values(g)| == |g|
  {
    if g != [] {
      var rest, last := g[..|g| - 1], g[|g| - 1];
      assert g == rest + [last];
      ValuesCount(rest, chat);
      forall e | e in rest ensures !Same(e.sequence, last.sequence) {
        var i :| 0 <= i < |rest| && rest[i] == e;
        assert g[i] == e && g[|g| - 1] == last;
      }
      assert !Contains(rest, last.sequence.n);
      ValuesMean(rest, last.sequence.n);
      hide Unique;
      hide Contains;
      hide Same;
    }
  }

  lemma {:induction false} IntervalSize(n: nat)
    ensures |P.Interval(0, n)| == n
  {
    if n > 0 {
      IntervalSize(n - 1);
      assert n !in P.Interval(0, n - 1);
    }
  }

  lemma {:induction false} FullSubset(a: set<int>, b: set<int>)
    requires a <= b && |a| == |b|
    ensures a == b
  {
    P.NotEmpty(a);
    if a != {} {
      var x: int :| x in a;
      FullSubset(a - {x}, b - {x});
    } else {
      assert b == {};
    }
  }

  /** The pigeonhole step: n distinct sequences in 1..n are all of 1..n. */
  lemma GroupFillsInterval(g: seq<Entry>, chat: string)
    requires AllInts(g) && Unique(g) && (forall e :: e in g ==> e.chatID == chat)
    requires forall e :: e in g ==> 1 <= e.sequence.n <= |g|
    ensures forall k :: 1 <= k <= |g| ==> Contains(g, k)
  {
    ValuesCount(g, chat);
    IntervalSize(|g|);
    assert Values(g) <= P.Interval(0, |g|) by {
      forall k | k in Values(g) ensures k in P.Interval(0, |g|) {
        ValuesMean(g, k);
      }
    }
    FullSubset(Values(g), P.Interval(0, |g|));
    forall k | 1 <= k <= |g| ensures Contains(g, k) {
      assert k in P.Interval(0, |g|);
      ValuesMean(g, k);
    }
  }

  lemma PassingAggregates(g: seq<Entry>, chat: string)
    requires g != [] && Unique(g) && forall e :: e in g ==> e.chatID == chat
    requires Same(MinOf(g), Int(1)) && Same(MaxOf(g), Int(|g|)) && ValidCount(g) == |g|
    ensures forall e :: e in g ==> ValidEntry(e) && e.sequence.n <= |g|
    ensures forall k :: 1 <= k <= |g| ==> Contains(g, k)
    ensures |g| <= MAX_SEQUENCE
  {
    ValidCountMeans(g);
    MinBounds(g);
    MaxBounds(g);
    var top :| top in g && top.sequence == MaxOf(g);
    assert ValidEntry(top);
    GroupFillsInterval(g, chat);
  }

  lemma PassingGroupIsExact(entries: seq<Entry>, counters: Counters, chat: string)
    requires Unique(entries) && GroupPasses(entries, counters, chat) && Group(entries, chat) != []
    ensures var n := |Group(entries, chat)|; ExactChat(entries, chat, n) && Same(counters[chat], Int(n))
  {
    var g := Group(entries, chat);
    GroupIsUnique(entries, chat);
    PassingAggregates(g, chat);
    hide Unique;
    hide MinOf;
    hide MaxOf;
    hide ValidCount;
    hide ValidEntry;
    forall k | 1 <= k <= |g| ensures Held(entries, chat, k) {
      assert Contains(g, k);
      var e :| e in g && e.sequence == Int(k);
      var i :| 0 <= i < |entries| && entries[i] == e;
    }
  }

  lemma ExactGroupHolds(entries: seq<Entry>, chat: string, n: nat, k: int)
    requires ExactChat(entries, chat, n) && 1 <= k <= n
    ensures Contains(Group(entries, chat), k)
  {
    assert Held(entries, chat, k);
    var i :| 0 <= i < |entries| && entries[i].chatID == chat && entries[i].sequence == Int(k);
    assert entries[i] in Group(entries, chat);
  }

  lemma ExactGroupPasses(entries: seq<Entry>, counters: Counters, chat: string, n: nat)
    requires Unique(entries) && ExactChat(entries, chat, n) && n >= 1
    requires chat in counters && Same(counters[chat], Int(n))
    ensures GroupPasses(entries, counters, chat) && CounterPasses(entries, counters, chat)
  {
    var g := Group(entries, chat);
    GroupIsUnique(entries, chat);
    forall k | 1 <= k <= n ensures Contains(g, k) {
      ExactGroupHolds(entries, chat, n, k);
    }
    assert forall e :: e in g ==> ValidEntry(e) && 1 <= e.sequence.n <= n && e.chatID == chat;
    hide ExactChat;
    hide Unique;
    ExactGroupAggregates(g, chat, n);
  }

  lemma ExtremesAreTaken(g: seq<Entry>, n: nat)
    requires AllInts(g) && (forall e :: e in g ==> 1 <= e.sequence.n <= n) && Contains(g, 1) && Contains(g, n)
    ensures MinOf(g) == Int(1) && MaxOf(g) == Int(n)
  {
    var first :| first in g && first.sequence == Int(1);
    var last :| last in g && last.sequence == Int(n);
    MinBounds(g);
    MaxBounds(g);
    hide MinOf;
    hide MaxOf;
  }

  lemma ExactGroupAggregates(g: seq<Entry>, chat: string, n: nat)
    requires n >= 1 && Unique(g) && forall e :: e in g ==> ValidEntry(e) && 1 <= e.sequence.n <= n && e.chatID == chat
    requires forall k :: 1 <= k <= n ==> Contains(g, k)
    ensures |g| == n && ValidCount(g) == n && MinOf(g) == Int(1) && MaxOf(g) == Int(n)
  {
    assert Contains(g, 1) && Contains(g, n);
    hide Contains;
    hide Unique;
    ExtremesAreTaken(g, n);
    ValidCountMeans(g);
    ExactGroupCounts(g, chat, n);
  }

  lemma ExactGroupCounts(g: seq<Entry>, chat: string, n: nat)
    requires AllInts(g) && Unique(g) && (forall e :: e in g ==> e.chatID == chat)
    requires forall e :: e in g ==> 1 <= e.sequence.n <= n
    requires forall k :: 1 <= k <= n ==> Contains(g, k)
    ensures |g| == n
  {
    ValuesCount(g, chat);
    IntervalSize(n);
    forall k: int ensures k in Values(g) <==> 1 <= k <= n {
      ValuesMean(g, k);
      if k in Values(g) {
        var e :| e in g && e.sequence == Int(k);
        assert 1 <= e.sequence.n <= n;
      }
    }
    assert Values(g) == P.Interval(0, n);
  }

  // ----- Main results --------------------------------------------------------------------------

  /** Given the unique index, the audit passes if and only if every chat's sequences
      are exactly 1..counter with usable client keys, and empty chats have no counter. */
  lemma AuditCharacterisesContiguity(entries: seq<Entry>, counters: Counters)
    requires Unique(entries)
    ensures AuditPasses(entries, counters) <==> Exact(entries, counters)
  {
    if AuditPasses(entries, counters) {
      PassingIsExact(entries, counters);
    }
    if Exact(entries, counters) {
      ExactPasses(entries, counters);
    }
  }

  lemma PassingIsExact(entries: seq<Entry>, counters: Counters)
    requires Unique(entries) && AuditPasses(entries, counters)
    ensures Exact(entries, counters)
  {
    forall e | e in entries
      ensures e.chatID in counters
      ensures exists n: nat {:trigger Int(n)} :: n >= 1 && Same(counters[e.chatID], Int(n)) && ExactChat(entries, e.chatID, n)
    {
      var g := Group(entries, e.chatID);
      assert e in g;
      PassingGroupIsExact(entries, counters, e.chatID);
      var n := |g|;
      assert Same(counters[e.chatID], Int(n));
    }
    forall chat | chat in counters && (forall e :: e in entries ==> e.chatID != chat) ensures Same(IfNull(counters[chat]), Int(0)) {
      GroupOfNobody(entries, chat);
      assert CounterPasses(entries, counters, chat);
    }
  }

  lemma GroupOfNobody(entries: seq<Entry>, chat: string)
    requires forall e :: e in entries ==> e.chatID != chat
    ensures Group(entries, chat) == []
  {
    assert Group(entries, chat) != [] ==> Group(entries, chat)[0] in Group(entries, chat);
  }

  lemma ExactPasses(entries: seq<Entry>, counters: Counters)
    requires Unique(entries) && Exact(entries, counters)
    ensures AuditPasses(entries, counters)
  {
    forall e | e in entries
      ensures GroupPasses(entries, counters, e.chatID) && e.chatID in counters && CounterPasses(entries, counters, e.chatID)
    {
      var n: nat :| n >= 1 && Same(counters[e.chatID], Int(n)) && ExactChat(entries, e.chatID, n);
      ExactGroupPasses(entries, counters, e.chatID, n);
    }
    forall chat | chat in counters ensures CounterPasses(entries, counters, chat) {
      if forall e :: e in entries ==> e.chatID != chat {
        GroupOfNobody(entries, chat);
      }
    }
  }

  // ----- The writers, and the fast path ----------------------------------------------------------

  datatype State = State(entries: seq<Entry>, counters: Counters)

  /** $inc by one: a missing field counts from zero, other types are an error. */
  function Incremented(v: Value): Option<Value> {
    match v
    case Missing => Some(Int(1))
    case Int(n) => Some(Int(n + 1))
    case Double(x) => Some(Double(x + 1.0))
    case _ => None
  }

  /** Decoding a counter into an integer: doubles must be whole. */
  function Whole(v: Value): Option<int> {
    match v
    case Int(n) => Some(n)
    case Double(x) => if x.Floor as real == x then Some(x.Floor) else None
    case _ => None
  }

  datatype Event = NewChat(chat: string) | Append(chat: string, clientMessageID: string)

  /** What a message transaction writes, as far as the audit sees it; a counter that
      cannot be used, a blank client key or a duplicate sequence aborts it. */
  function AppendStep(s: State, chat: string, key: string): State {
    if chat !in s.counters || key == "" || Incremented(s.counters[chat]) == None then s
    else
      var counter := Incremented(s.counters[chat]).value;
      var n := Whole(counter);
      if n == None || n.value <= 0 || n.value > MAX_SEQUENCE then s
      else if exists i :: 0 <= i < |s.entries| && s.entries[i].chatID == chat && Same(s.entries[i].sequence, Int(n.value)) then s
      else State(s.entries + [Entry(chat, Int(n.value), Str(key))], s.counters[chat := counter])
  }

  function Step(s: State, e: Event): State {
    match e
    case NewChat(chat) => if chat in s.counters then s else s.(counters := s.counters[chat := Int(0)])
    case Append(chat, key) => AppendStep(s, chat, key)
  }

  function Run(s: State, events: seq<Event>): State {
    if events == [] then s else Step(Run(s, events[..|events| - 1]), events[|events| - 1])
  }

  ghost predicate Good(s: State) {
    Unique(s.entries) && Exact(s.entries, s.counters)
  }

  /** The chat's count, whether it has items or not. */
  ghost predicate Counts(entries: seq<Entry>, counters: Counters, chat: string, n: nat) {
    && chat in counters && ExactChat(entries, chat, n)
    && (if n == 0 then Same(IfNull(counters[chat]), Int(0)) else Same(counters[chat], Int(n)))
  }

  lemma GoodChatCounts(s: State, chat: string) returns (n: nat)
    requires Good(s) && chat in s.counters
    ensures Counts(s.entries, s.counters, chat, n)
  {
    if e :| e in s.entries && e.chatID == chat {
      n :| n >= 1 && Same(s.counters[chat], Int(n)) && ExactChat(s.entries, chat, n);
    } else {
      n := 0;
    }
  }

  lemma AppendKeepsGood(s: State, chat: string, key: string)
    requires Good(s)
    ensures Good(AppendStep(s, chat, key))
  {
    var s' := AppendStep(s, chat, key);
    if s' != s {
      var n := GoodChatCounts(s, chat);
      NextIsCount(s.counters[chat], n);
      var added := Entry(chat, Int(n + 1), Str(key));
      assert s'.entries == s.entries + [added];
      AppendKeepsUnique(s.entries, added);
      AppendExtendsChat(s.entries, added, n);
      AppendKeepsExact(s, s', added, n);
    }
  }

  /** A counter equal to n is next used as n+1. */
  lemma NextIsCount(v: Value, n: nat)
    requires if n == 0 then Same(IfNull(v), Int(0)) else Same(v, Int(n))
    requires Incremented(v).Some?
    ensures Whole(Incremented(v).value) == Some(n + 1) && Same(Incremented(v).value, Int(n + 1))
  {
    if v.Double? {
      assert v.x == n as real;
      assert (v.x + 1.0).Floor == n + 1;
    }
  }

  lemma AppendKeepsUnique(entries: seq<Entry>, e: Entry)
    requires Unique(entries) && e.sequence.Int?
    requires forall i :: 0 <= i < |entries| && entries[i].chatID == e.chatID ==> !Same(entries[i].sequence, e.sequence)
    ensures Unique(entries + [e])
  {
  }

  lemma AppendExtendsChat(entries: seq<Entry>, e: Entry, n: nat)
    requires ExactChat(entries, e.chatID, n) && e.sequence == Int(n + 1) && ValidEntry(e)
    ensures ExactChat(entries + [e], e.chatID, n + 1)
  {
    forall k | 1 <= k <= n + 1 ensures Held(entries + [e], e.chatID, k) {
      if k <= n {
        assert Held(entries, e.chatID, k);
        var i :| 0 <= i < |entries| && entries[i].chatID == e.chatID && entries[i].sequence == Int(k);
        assert (entries + [e])[i] == entries[i];
      } else {
        assert (entries + [e])[|entries|] == e;
      }
    }
  }

  lemma OtherChatStays(entries: seq<Entry>, e: Entry, chat: string, n: nat)
    requires ExactChat(entries, chat, n) && e.chatID != chat
    ensures ExactChat(entries + [e], chat, n)
  {
    forall k | 1 <= k <= n ensures Held(entries + [e], chat, k) {
      assert Held(entries, chat, k);
      var i :| 0 <= i < |entries| && entries[i].chatID == chat && entries[i].sequence == Int(k);
      assert (entries + [e])[i] == entries[i];
    }
  }

  lemma AppendKeepsExact(s: State, s': State, added: Entry, n: nat)
    requires Good(s) && s'.entries == s.entries + [added] && added.chatID in s'.counters
    requires s'.counters == s.counters[added.chatID := s'.counters[added.chatID]] && added.chatID in s.counters
    requires ExactChat(s'.entries, added.chatID, n + 1) && Same(s'.counters[added.chatID], Int(n + 1))
    ensures Exact(s'.entries, s'.counters)
  {
    forall e | e in s'.entries
      ensures e.chatID in s'.counters
      ensures exists m: nat {:trigger Int(m)} :: m >= 1 && Same(s'.counters[e.chatID], Int(m)) && ExactChat(s'.entries, e.chatID, m)
    {
      if e.chatID == added.chatID {
        assert Same(s'.counters[e.chatID], Int(n + 1));
      } else {
        assert e in s.entries;
        var m: nat :| m >= 1 && Same(s.counters[e.chatID], Int(m)) && ExactChat(s.entries, e.chatID, m);
        OtherChatStays(s.entries, added, e.chatID, m);
        assert Same(s'.counters[e.chatID], Int(m));
      }
    }
    forall chat | chat in s'.counters && (forall e :: e in s'.entries ==> e.chatID != chat)
      ensures Same(IfNull(s'.counters[chat]), Int(0))
    {
      assert added in s'.entries;
      assert forall e :: e in s.entries ==> e in s'.entries;
    }
  }

  lemma NewChatKeepsGood(s: State, chat: string)
    requires Good(s)
    ensures Good(Step(s, NewChat(chat)))
  {
    if chat !in s.counters {
      var counters' := s.counters[chat := Int(0)];
      forall e | e in s.entries
        ensures e.chatID in counters'
        ensures exists m: nat {:trigger Int(m)} :: m >= 1 && Same(counters'[e.chatID], Int(m)) && ExactChat(s.entries, e.chatID, m)
      {
        var m: nat :| m >= 1 && Same(s.counters[e.chatID], Int(m)) && ExactChat(s.entries, e.chatID, m);
        assert Same(counters'[e.chatID], Int(m));
      }
    }
  }

  lemma {:induction false} WritersKeepGood(s: State, events: seq<Event>)
    requires Good(s)
    ensures Good(Run(s, events))
  {
    hide Good;
    if events != [] {
      WritersKeepGood(s, events[..|events| - 1]);
      match events[|events| - 1]
      case NewChat(chat) => NewChatKeepsGood(Run(s, events[..|events| - 1]), chat);
      case Append(chat, key) => AppendKeepsGood(Run(s, events[..|events| - 1]), chat, key);
    }
  }

  /** What a listing that was not audited counts as invalid. */
  predicate InvalidEntry(e: Entry) {
    || e.sequence.Missing?
    || (IsNumber(e.sequence) && (Number(e.sequence) <= 0.0 || Number(e.sequence) > MAX_SEQUENCE as real))
    || e.clientMessageID.Missing?
  }

  /** So a chat whose documents were numbered at all passes the count exactly if every
      number is in range and every document has a client key. */
  lemma CountFindsWhatIsOutOfRange(entries: seq<Entry>, chat: string)
    requires forall i :: 0 <= i < |entries| && entries[i].chatID == chat ==> entries[i].sequence.Int?
    ensures !HasInvalid(entries, chat) <==>
      forall i :: 0 <= i < |entries| && entries[i].chatID == chat ==>
        1 <= entries[i].sequence.n <= 9_007_199_254_740_991 && !entries[i].clientMessageID.Missing?
  {
    forall i | 0 <= i < |entries| && entries[i].chatID == chat
      ensures InvalidEntry(entries[i]) <==>
              !(1 <= entries[i].sequence.n <= 9_007_199_254_740_991) || entries[i].clientMessageID.Missing?
    {
    }
    hide InvalidEntry;
  }

  predicate HasInvalid(entries: seq<Entry>, chat: string) {
    exists i :: 0 <= i < |entries| && entries[i].chatID == chat && InvalidEntry(entries[i])
  }

  lemma ValidIsNotInvalid(e: Entry)
    requires ValidEntry(e)
    ensures !InvalidEntry(e)
  {
  }

  lemma ExactHasNoInvalid(entries: seq<Entry>, counters: Counters, chat: string)
    requires Exact(entries, counters)
    ensures !HasInvalid(entries, chat)
  {
    hide InvalidEntry;
    hide ValidEntry;
    hide Same;
    forall i | 0 <= i < |entries| && entries[i].chatID == chat ensures !InvalidEntry(entries[i]) {
      var e := entries[i];
      assert e in entries;
      var n: nat :| n >= 1 && Same(counters[chat], Int(n)) && ExactChat(entries, chat, n);
      ValidIsNotInvalid(e);
    }
  }

  /** The chat's documents by sequence, as a listing reads them from the collection
      that the audit has read. */
  ghost predicate AuditedChat(m: P.Stored, entries: seq<Entry>, chat: string) {
    && (forall k :: k in m ==>
          m[k].chatID == chat && m[k].sequence == k && Entry(chat, Int(k), Str(m[k].message.clientMessageID)) in entries)
    && (forall i :: 0 <= i < |entries| && entries[i].chatID == chat && entries[i].sequence.Int? ==>
          entries[i].sequence.n in m && entries[i].clientMessageID == Str(m[entries[i].sequence.n].message.clientMessageID))
  }

  lemma ListedKeys(m: P.Stored, entries: seq<Entry>, chat: string, n: nat)
    requires AuditedChat(m, entries, chat) && ExactChat(entries, chat, n)
    ensures m.Keys == P.Interval(0, n)
  {
    forall k: int ensures k in m <==> 0 < k <= n {
      if 0 < k <= n {
        assert Held(entries, chat, k);
        var i :| 0 <= i < |entries| && entries[i].chatID == chat && entries[i].sequence == Int(k);
      }
      if k in m {
        var e := Entry(chat, Int(k), Str(m[k].message.clientMessageID));
        assert e in entries;
        assert ValidEntry(e) && e.sequence.n <= n;
      }
    }
  }

  lemma TailOfInterval(m: P.Stored, n: nat)
    requires m.Keys == P.Interval(0, n)
    ensures P.Tail(m) == n && forall k :: k in m <==> 1 <= k <= n
  {
    P.IntervalAscends(0, n);
  }

  /** A chat no counter knows has no documents. */
  lemma UnknownChatIsEmpty(s: State, chat: string)
    requires Good(s) && chat !in s.counters
    ensures ExactChat(s.entries, chat, 0)
  {
  }

  lemma GoodListing(s: State, chat: string, m: P.Stored)
    requires Good(s) && AuditedChat(m, s.entries, chat)
    ensures forall k :: k in m <==> 1 <= k <= P.Tail(m)
    ensures if chat in s.counters then Same(IfNull(s.counters[chat]), Int(P.Tail(m))) else P.Tail(m) == 0
  {
    hide Good;
    hide AuditedChat;
    hide ExactChat;
    hide P.Tail;
    var n := 0;
    if chat in s.counters {
      n := GoodChatCounts(s, chat);
    } else {
      UnknownChatIsEmpty(s, chat);
    }
    ListedKeys(m, s.entries, chat, n);
    TailOfInterval(m, n);
  }

  /** Whatever the writers do after an audit that passed, another one would pass, a
      listing finds a chat's sequences to be exactly 1..counter, and leaving out the
      count of invalid documents changes no page of it. */
  lemma FastPathIsSafe(s: State, events: seq<Event>, chat: string, m: P.Stored, p: P.Params)
    requires Unique(s.entries) && AuditPasses(s.entries, s.counters)
    requires AuditedChat(m, Run(s, events).entries, chat)
    ensures
      var s' := Run(s, events);
      && AuditPasses(s'.entries, s'.counters) && !HasInvalid(s'.entries, chat)
      && (forall k :: k in m <==> 1 <= k <= P.Tail(m))
      && (if chat in s'.counters then Same(IfNull(s'.counters[chat]), Int(P.Tail(m))) else P.Tail(m) == 0)
      && P.ListPage(m, p, true, HasInvalid(s'.entries, chat)) == P.ListPage(m, p, false, HasInvalid(s'.entries, chat))
  {
    AuditCharacterisesContiguity(s.entries, s.counters);
    WritersKeepGood(s, events);
    var s' := Run(s, events);
    hide Run;
    AuditCharacterisesContiguity(s'.entries, s'.counters);
    hide AuditPasses;
    ExactHasNoInvalid(s'.entries, s'.counters, chat);
    GoodListing(s', chat, m);
    hide *;
    CountIsIdle(m, p, HasInvalid(s'.entries, chat));
  }

  /** The count matters only if there is something to count. */
  lemma CountIsIdle(m: P.Stored, p: P.Params, invalid: bool)
    ensures !invalid ==> P.ListPage(m, p, true, invalid) == P.ListPage(m, p, false, invalid)
  {
    hide P.Tail;
    hide P.Found;
    hide P.Decoded;
  }
}
