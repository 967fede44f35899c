// Listing a chat by sequence: one page, and following the page cursors while
// messages are appended.

module Paging {
  import opened Common
  import opened Timeline
  import opened Documents

  /** The stored items of one chat, by sequence. */
  type Stored = map<int, ItemDocument>

  datatype ListError = InvalidPagination | LegacyTimeline | InvalidDocument

  datatype Params = Params(after: Option<int>, before: Option<int>, through: Option<int>, limit: nat)

  datatype Page = Page(items: seq<Item>, hasNext: bool, nextAfter: Option<int>, nextBefore: Option<int>, through: int)

  // ----- Sorted finds ------------------------------------------------------------------

  predicate IsLeast(k: int, keys: set<int>) {
    k in keys && forall other :: other in keys ==> k <= other
  }

  lemma NotEmpty(keys: set<int>)
    ensures keys == {} || exists k: int :: k in keys
  {
    if forall k: int :: k !in keys {
      assert keys == {};
    }
  }

  lemma {:induction false} LeastExists(keys: set<int>)
    requires keys != {}
    ensures exists k :: IsLeast(k, keys)
  {
    NotEmpty(keys);
    var k: int :| k in keys;
    if keys - {k} == {} {
      assert forall other :: other in keys ==> other == k || other in keys - {k};
      assert IsLeast(k, keys);
    } else {
      LeastExists(keys - {k});
      var m :| IsLeast(m, keys - {k});
      var least := if k <= m then k else m;
      forall other | other in keys ensures least <= other {
        assert other == k || other in keys - {k};
      }
      assert IsLeast(least, keys);
    }
  }

  function Least(keys: set<int>): (k: int)
    requires keys != {}
    ensures IsLeast(k, keys)
  {
    LeastExists(keys);
    assert forall a, b | IsLeast(a, keys) && IsLeast(b, keys) :: a == b;
    var k :| IsLeast(k, keys);
    k
  }

  function Ascending(keys: set<int>): (s: seq<int>)
    ensures forall k :: k in s <==> k in keys
  {
    if keys == {} then [] else var k := Least(keys); [k] + Ascending(keys - {k})
  }

  function Reversed<T>(s: seq<T>): (r: seq<T>)
    ensures |r| == |s| && forall i :: 0 <= i < |s| ==> r[i] == s[|s| - 1 - i]
  {
    seq(|s|, i requires 0 <= i < |s| => s[|s| - 1 - i])
  }

  /** The numbers a+1, ..., b. */
  function Numbers(a: int, b: int): (s: seq<int>)
    ensures |s| == if a <= b then b - a else 0
    ensures forall i :: 0 <= i < |s| ==> s[i] == a + 1 + i
  {
    if a <= b then seq(b - a, i => a + 1 + i) else []
  }

  function Interval(a: int, b: int): (keys: set<int>)
    ensures forall k :: k in keys <==> a < k <= b
    decreases b - a
  {
    if a < b then Interval(a, b - 1) + {b} else {}
  }

  lemma {:induction false} IntervalAscends(a: int, b: int)
    ensures Ascending(Interval(a, b)) == Numbers(a, b)
    decreases b - a
  {
    var keys := Interval(a, b);
    if a < b {
      assert a + 1 in keys;
      assert Least(keys) == a + 1;
      assert keys - {a + 1} == Interval(a + 1, b);
      IntervalAscends(a + 1, b);
      assert Numbers(a, b) == [a + 1] + Numbers(a + 1, b);
    } else {
      assert keys == {};
    }
  }

  // ----- One page -----------------------------------------------------------------------

  /** The highest sequence, or zero. */
  function Tail(m: Stored): int {
    var keys := Ascending(m.Keys);
    if keys == [] then 0 else keys[|keys| - 1]
  }

  function Matching(m: Stored, p: Params, upper: int): set<int> {
    set k | k in m && k <= upper && (p.after.Some? ==> k > p.after.value) && (p.before.Some? ==> k < p.before.value)
  }

  /** The keys a find with these bounds returns, in its order and within its limit. */
  function Found(m: Stored, p: Params, upper: int): (found: seq<int>)
    ensures forall i :: 0 <= i < |found| ==> found[i] in m
  {
    var ascending := Ascending(Matching(m, p, upper));
    assert forall i :: 0 <= i < |ascending| ==> ascending[i] in Matching(m, p, upper);
    var sorted := if p.after.Some? then ascending else Reversed(ascending);
    if |sorted| > p.limit + 1 then sorted[..p.limit + 1] else sorted
  }

  /** Reads every document found; one that does not decode fails the whole page. */
  function Decoded(m: Stored, found: seq<int>): (r: Option<seq<Item>>)
    requires forall i :: 0 <= i < |found| ==> found[i] in m
    ensures r.Some? ==> |r.value| == |found| && forall i :: 0 <= i < |found| ==> ToDomain(m[found[i]]) == Ok(r.value[i])
    ensures r == None <==> exists i :: 0 <= i < |found| && ToDomain(m[found[i]]).Err?
  {
    if exists i :: 0 <= i < |found| && ToDomain(m[found[i]]).Err? then None
    else Some(seq(|found|, i requires 0 <= i < |found| => ToDomain(m[found[i]]).value))
  }

  lemma DecodedIs(m: Stored, found: seq<int>, items: seq<Item>)
    requires forall i :: 0 <= i < |found| ==> found[i] in m
    requires |items| == |found| && forall i :: 0 <= i < |found| ==> ToDomain(m[found[i]]) == Ok(items[i])
    ensures Decoded(m, found) == Some(items)
  {
    hide ToDomain;
    assert Decoded(m, found).Some?;
    assert Decoded(m, found).value == items;
  }

  /** The page as read in the find's order, with one item more than the limit if there is one. */
  function PageOf(read: seq<Item>, p: Params, upper: int): Page {
    var hasNext := |read| > p.limit;
    var items := if hasNext then read[..p.limit] else read;
    var next := if hasNext && items != [] then Some(items[|items| - 1].sequence) else None;
    if p.after.Some? then Page(items, hasNext, next, None, upper) else Page(Reversed(items), hasNext, None, next, upper)
  }

  /** listBySequence: `invalid` is whether the chat has a document the audit would
      reject, which is only looked at when the data has not been checked. */
  function ListPage(m: Stored, p: Params, checked: bool, invalid: bool): Result<Page, ListError> {
    if !checked && invalid then Err(LegacyTimeline)
    else if p.through.Some? && p.through.value > Tail(m) then Err(InvalidPagination)
    else
      var upper := if p.through.Some? then p.through.value else Tail(m);
      if p.after.Some? && p.after.value > upper then Err(InvalidPagination)
      else match Decoded(m, Found(m, p, upper))
        case None => Err(InvalidDocument)
        case Some(read) => Ok(PageOf(read, p, upper))
  }

  class Repository {
    var stored: Stored
    var invalid: bool                 // a document without usable sequence or client key
    var sequenceDataChecked: bool

    method ListBySequence(p: Params) returns (r: Result<Page, ListError>)
      ensures r == ListPage(stored, p, sequenceDataChecked, invalid)
    {
      hide Found;
      hide Decoded;
      hide Tail;
      hide PageOf;
      if !sequenceDataChecked {
        if invalid {
          return Err(LegacyTimeline);
        }
      }
      var upper := Tail(stored);
      if p.through.Some? {
        if p.through.value > upper {
          return Err(InvalidPagination);
        }
        upper := p.through.value;
      }
      if p.after.Some? && p.after.value > upper {
        return Err(InvalidPagination);
      }
      var read := ReadCursor(Found(stored, p, upper));
      if read == None {
        return Err(InvalidDocument);
      }
      var page := BuildPage(read.value, p, upper);
      r := Ok(page);
    }

    method BuildPage(read: seq<Item>, p: Params, upper: int) returns (page: Page)
      ensures page == PageOf(read, p, upper)
    {
      var items := read;
      var hasNext := |items| > p.limit;
      if hasNext {
        items := items[..p.limit];
      }
      var nextAfter, nextBefore := None, None;
      if p.after.Some? {
        if hasNext && |items| > 0 {
          nextAfter := Some(items[|items| - 1].sequence);
        }
      } else {
        if hasNext && |items| > 0 {
          nextBefore := Some(items[|items| - 1].sequence);
        }
        items := ReverseItems(items);
      }
      page := Page(items, hasNext, nextAfter, nextBefore, upper);
    }

    /** The loop over the cursor: decode and append, or fail. */
    method ReadCursor(cursor: seq<int>) returns (read: Option<seq<Item>>)
      requires forall i :: 0 <= i < |cursor| ==> cursor[i] in stored
      ensures read == Decoded(stored, cursor)
    {
      hide ToDomain;
      var items: seq<Item> := [];
      for i := 0 to |cursor|
        invariant |items| == i && forall j :: 0 <= j < i ==> ToDomain(stored[cursor[j]]) == Ok(items[j])
      {
        var item := ToDomain(stored[cursor[i]]);
        if item.Err? {
          return None;
        }
        items := items + [item.value];
      }
      DecodedIs(stored, cursor, items);
      read := Some(items);
    }

    /** slices.Reverse: swapping from both ends. */
    method ReverseItems(items: seq<Item>) returns (r: seq<Item>)
      ensures r == Reversed(items)
    {
      r := items;
      var i, j := 0, |items| - 1;
      while i < j
        invariant 0 <= i && j == |items| - 1 - i && i <= j + 1 && |r| == |items|
        invariant forall k :: 0 <= k < i || j < k < |items| ==> r[k] == items[|items| - 1 - k]
        invariant forall k :: i <= k <= j ==> r[k] == items[k]
      {
        r := r[i := r[j]][j := r[i]];
        i, j := i + 1, j - 1;
      }
    }
  }
}

// Following the cursors through a chat that grows between the pages.
module PageWalk {
  import opened Common
  import opened Timeline
  import opened Documents
  import opened Paging

  predicate ReadsAsItself(d: ItemDocument) {
    ToDomain(d) == Ok(AsItem(d))
  }

  /** A chat's sequences are exactly 1..n, and every item reads back as itself. */
  ghost predicate Contiguous(m: Stored, n: nat) {
    && (forall k :: k in m <==> 1 <= k <= n)
    && (forall k :: k in m ==> m[k].sequence == k && ReadsAsItself(m[k]))
  }

  /** Appending keeps what is there. */
  ghost predicate Grew(m: Stored, m': Stored) {
    forall k :: k in m ==> k in m' && m'[k] == m[k]
  }

  /** The items with sequences a+1, ..., b. */
  function Range(m: Stored, a: int, b: int): (r: seq<Item>)
    requires forall k :: a < k <= b ==> k in m
    ensures |r| == if a <= b then b - a else 0
    ensures forall i :: 0 <= i < |r| ==> r[i] == AsItem(m[a + 1 + i])
  {
    if a <= b then seq(b - a, i requires 0 <= i < b - a => AsItem(m[a + 1 + i])) else []
  }

  function After(after: int, through: int, limit: nat): Params {
    Params(Some(after), None, Some(through), limit)
  }

  function Before(before: Option<int>, limit: nat): Params {
    Params(None, before, None, limit)
  }

  function Min(a: int, b: int): int {
    if a <= b then a else b
  }

  function Max(a: int, b: int): int {
    if a <= b then b else a
  }

  lemma TailIsCount(m: Stored, n: nat)
    requires Contiguous(m, n)
    ensures Tail(m) == n
  {
    assert m.Keys == Interval(0, n);
    IntervalAscends(0, n);
  }

  function ItemsOf(m: Stored, found: seq<int>): (items: seq<Item>)
    requires forall i :: 0 <= i < |found| ==> found[i] in m
    ensures |items| == |found| && forall i :: 0 <= i < |found| ==> items[i] == AsItem(m[found[i]])
  {
    seq(|found|, i requires 0 <= i < |found| => AsItem(m[found[i]]))
  }

  lemma ReadsBack(m: Stored, n: nat, found: seq<int>)
    requires Contiguous(m, n) && forall i :: 0 <= i < |found| ==> found[i] in m
    ensures Decoded(m, found) == Some(ItemsOf(m, found))
  {
    hide ToDomain;
    forall i | 0 <= i < |found| ensures ToDomain(m[found[i]]) == Ok(ItemsOf(m, found)[i]) {
      var k := found[i];
      assert k in m;
      assert m[k].sequence == k && ReadsAsItself(m[k]);
    }
    DecodedIs(m, found, ItemsOf(m, found));
  }

  lemma FirstNumbers(a: int, b: int, count: nat)
    requires a <= b
    ensures
      var all := Numbers(a, b);
      (if |all| > count then all[..count] else all) == Numbers(a, Min(a + count, b))
  {
  }

  lemma FoundForward(m: Stored, n: nat, after: int, through: int, limit: nat)
    requires Contiguous(m, n) && 0 <= after <= through <= n
    ensures Found(m, After(after, through, limit), through) == Numbers(after, Min(after + limit + 1, through))
  {
    hide ReadsAsItself;
    var p := After(after, through, limit);
    assert Matching(m, p, through) == Interval(after, through);
    hide Contiguous;
    hide Matching;
    hide Ascending;
    IntervalAscends(after, through);
    FirstNumbers(after, through, limit + 1);
  }

  /** One forward page: the next `limit` items, and the cursor to the rest. */
  lemma ForwardPage(m: Stored, n: nat, after: int, through: int, limit: nat, checked: bool)
    requires Contiguous(m, n) && 0 <= after <= through <= n && limit >= 1
    ensures
      var last := Min(after + limit, through);
      ListPage(m, After(after, through, limit), checked, false)
      == Ok(Page(Range(m, after, last), last < through, if last < through then Some(last) else None, None, through))
  {
    TailIsCount(m, n);
    FoundForward(m, n, after, through, limit);
    var found := Numbers(after, Min(after + limit + 1, through));
    ReadsBack(m, n, found);
    ForwardItems(m, n, after, through, limit, found);
    hide Contiguous;
    hide Found;
    hide Decoded;
    hide Tail;
  }

  lemma ForwardItems(m: Stored, n: nat, after: int, through: int, limit: nat, found: seq<int>)
    requires Contiguous(m, n) && 0 <= after <= through <= n && limit >= 1
    requires found == Numbers(after, Min(after + limit + 1, through))
    ensures
      var last := Min(after + limit, through);
      PageOf(ItemsOf(m, found), After(after, through, limit), through)
      == Page(Range(m, after, last), last < through, if last < through then Some(last) else None, None, through)
  {
    hide ReadsAsItself;
    var last := Min(after + limit, through);
    var read := ItemsOf(m, found);
    var items := if |read| > limit then read[..limit] else read;
    assert |items| == last - after;
    assert items == Range(m, after, last);
    if last < through {
      assert items[|items| - 1] == AsItem(m[last]);
    }
  }

  lemma FoundBackward(m: Stored, n: nat, before: Option<int>, limit: nat)
    requires Contiguous(m, n) && (before.Some? ==> 1 <= before.value <= n + 1)
    ensures
      var top := Top(before, n);
      Found(m, Before(before, limit), n) == Reversed(Numbers(Max(top - limit - 1, 0), top))
  {
    hide ReadsAsItself;
    var p := Before(before, limit);
    var top := Top(before, n);
    assert Matching(m, p, n) == Interval(0, top);
    IntervalAscends(0, top);
    var sorted := Reversed(Numbers(0, top));
    ReversedPrefix(top, limit + 1);
  }

  lemma ReversedPrefix(top: nat, count: nat)
    ensures
      var sorted := Reversed(Numbers(0, top));
      (if |sorted| > count then sorted[..count] else sorted) == Reversed(Numbers(Max(top - count, 0), top))
  {
  }

  /** One backward page: the last `limit` items before the cursor, in ascending order. */
  lemma BackwardPage(m: Stored, n: nat, before: Option<int>, limit: nat, checked: bool)
    requires Contiguous(m, n) && limit >= 1 && (before.Some? ==> 1 <= before.value <= n + 1)
    ensures
      var top := Top(before, n);
      var low := Max(top - limit, 0);
      ListPage(m, Before(before, limit), checked, false)
      == Ok(Page(Range(m, low, top), low > 0, None, if low > 0 then Some(low + 1) else None, n))
  {
    hide Contiguous;
    hide Found;
    hide Decoded;
    hide Tail;
    hide PageOf;
    var top := Top(before, n);
    var found := Reversed(Numbers(Max(top - limit - 1, 0), top));
    TailIsCount(m, n);
    FoundBackward(m, n, before, limit);
    BackwardItems(m, n, before, limit, top, found);
    ReadsBack(m, n, found);
  }

  lemma BackwardItems(m: Stored, n: nat, before: Option<int>, limit: nat, top: int, found: seq<int>)
    requires Contiguous(m, n) && limit >= 1 && 0 <= top <= n
    requires found == Reversed(Numbers(Max(top - limit - 1, 0), top))
    ensures forall i :: 0 <= i < |found| ==> found[i] in m
    ensures
      var low := Max(top - limit, 0);
      PageOf(ItemsOf(m, found), Before(before, limit), n)
      == Page(Range(m, low, top), low > 0, None, if low > 0 then Some(low + 1) else None, n)
  {
    hide ReadsAsItself;
    var low := Max(top - limit, 0);
    assert forall i :: 0 <= i < |found| ==> found[i] == top - i;
    var read := ItemsOf(m, found);
    var items := if |read| > limit then read[..limit] else read;
    assert |items| == top - low && forall i :: 0 <= i < |items| ==> items[i] == AsItem(m[top - i]);
    hide ItemsOf;
    ReversedIsRange(m, n, low, top, items);
    if low > 0 {
      assert |read| > limit && items[|items| - 1] == AsItem(m[low + 1]) && m[low + 1].sequence == low + 1;
    }
    hide Range;
  }

  lemma ReversedIsRange(m: Stored, n: nat, low: int, top: int, items: seq<Item>)
    requires Contiguous(m, n) && 0 <= low <= top <= n
    requires |items| == top - low && forall i :: 0 <= i < |items| ==> items[i] == AsItem(m[top - i])
    ensures Reversed(items) == Range(m, low, top)
  {
    hide ReadsAsItself;
  }

  // ----- Following the cursors -----------------------------------------------------------

  /** The chat at the time of each page, growing from one to the next. */
  ghost predicate Snapshots(chats: seq<Stored>, sizes: seq<nat>) {
    && |sizes| == |chats|
    && (forall i :: 0 <= i < |chats| ==> Contiguous(chats[i], sizes[i]))
    && (forall i, j :: 0 <= i < j < |chats| ==> sizes[i] <= sizes[j] && Grew(chats[i], chats[j]))
  }

  /** Reads forward until a page has no next cursor; nothing if the snapshots run out. */
  function FollowAfter(chats: seq<Stored>, after: int, through: int, limit: nat): Option<seq<Item>> {
    if chats == [] then None
    else match ListPage(chats[0], After(after, through, limit), true, false)
      case Err(_) => None
      case Ok(page) =>
        if page.nextAfter == None then Some(page.items)
        else match FollowAfter(chats[1..], page.nextAfter.value, through, limit)
          case None => None
          case Some(rest) => Some(page.items + rest)
  }

  /** Reads backward, putting each page in front. */
  function FollowBefore(chats: seq<Stored>, before: Option<int>, limit: nat): Option<seq<Item>> {
    if chats == [] then None
    else match ListPage(chats[0], Before(before, limit), true, false)
      case Err(_) => None
      case Ok(page) =>
        if page.nextBefore == None then Some(page.items)
        else match FollowBefore(chats[1..], page.nextBefore, limit)
          case None => None
          case Some(rest) => Some(rest + page.items)
  }

  lemma RestIsSnapshots(chats: seq<Stored>, sizes: seq<nat>)
    requires Snapshots(chats, sizes) && |chats| > 1
    ensures Snapshots(chats[1..], sizes[1..])
  {
    hide Contiguous;
    hide Grew;
  }

  /** How many pages a listing of `count` items takes. */
  function Pages(count: int, limit: nat): nat
    requires limit >= 1
    decreases if count > 0 then count else 0
  {
    if count <= limit then 1 else 1 + Pages(count - limit, limit)
  }

  /** As many pages as hold the items, and not one more; at least one. */
  lemma {:induction false} PagesSuffice(count: int, limit: nat)
    requires limit >= 1
    ensures count <= Pages(count, limit) * limit
    ensures Pages(count, limit) == 1 || (Pages(count, limit) - 1) * limit < count
    decreases if count > 0 then count else 0
  {
    if count > limit {
      PagesSuffice(count - limit, limit);
      var more := Pages(count - limit, limit);
      assert (1 + more) * limit == limit + more * limit;
      assert more * limit == limit + (more - 1) * limit;
    }
  }

  lemma RangesJoin(m: Stored, n: nat, a: int, b: int, c: int)
    requires Contiguous(m, n) && 0 <= a <= b <= c <= n
    ensures Range(m, a, b) + Range(m, b, c) == Range(m, a, c)
  {
    hide ReadsAsItself;
  }

  lemma RangesAgree(m: Stored, m': Stored, n: nat, n': nat, a: int, b: int)
    requires Contiguous(m, n) && Contiguous(m', n') && Grew(m, m') && 0 <= a <= b <= n <= n'
    ensures Range(m', a, b) == Range(m, a, b)
  {
    hide ReadsAsItself;
  }

  lemma AfterUnfolds(chats: seq<Stored>, after: int, through: int, limit: nat, page: Page)
    requires chats != [] && ListPage(chats[0], After(after, through, limit), true, false) == Ok(page)
    ensures page.nextAfter == None ==> FollowAfter(chats, after, through, limit) == Some(page.items)
    ensures page.nextAfter.Some? && FollowAfter(chats[1..], page.nextAfter.value, through, limit).Some? ==>
      FollowAfter(chats, after, through, limit)
      == Some(page.items + FollowAfter(chats[1..], page.nextAfter.value, through, limit).value)
  {
    hide ListPage;
  }

  lemma BeforeUnfolds(chats: seq<Stored>, before: Option<int>, limit: nat, page: Page)
    requires chats != [] && ListPage(chats[0], Before(before, limit), true, false) == Ok(page)
    ensures page.nextBefore == None ==> FollowBefore(chats, before, limit) == Some(page.items)
    ensures page.nextBefore.Some? && FollowBefore(chats[1..], page.nextBefore, limit).Some? ==>
      FollowBefore(chats, before, limit) == Some(FollowBefore(chats[1..], page.nextBefore, limit).value + page.items)
  {
    hide ListPage;
  }

  /** Following the forward cursor with a fixed upper end stops after exactly the
      pages needed, and yields exactly the items after+1..through in order,
      whatever is appended between the pages. */
  lemma {:induction false} ForwardIsExact(chats: seq<Stored>, sizes: seq<nat>, after: int, through: int, limit: nat)
    requires Snapshots(chats, sizes) && limit >= 1
    requires |chats| > 0 && 0 <= after <= through <= sizes[0] && |chats| >= Pages(through - after, limit)
    ensures FollowAfter(chats, after, through, limit) == Some(Range(chats[0], after, through))
  {
    hide ListPage;
    hide FollowAfter;
    var last := Min(after + limit, through);
    var page := Page(Range(chats[0], after, last), last < through, if last < through then Some(last) else None, None, through);
    ForwardPage(chats[0], sizes[0], after, through, limit, true);
    AfterUnfolds(chats, after, through, limit, page);
    if last < through {
      RestIsSnapshots(chats, sizes);
      ForwardIsExact(chats[1..], sizes[1..], last, through, limit);
      ForwardJoins(chats, sizes, after, last, through);
    }
  }

  lemma ForwardJoins(chats: seq<Stored>, sizes: seq<nat>, after: int, last: int, through: int)
    requires Snapshots(chats, sizes) && |chats| > 1 && 0 <= after <= last <= through <= sizes[0]
    ensures Range(chats[0], after, last) + Range(chats[1], last, through) == Range(chats[0], after, through)
  {
    hide ReadsAsItself;
    assert Grew(chats[0], chats[1]) && Contiguous(chats[0], sizes[0]) && Contiguous(chats[1], sizes[1]);
    RangesAgree(chats[0], chats[1], sizes[0], sizes[1], last, through);
    RangesJoin(chats[0], sizes[0], after, last, through);
  }

  /** The last sequence before a cursor, or at all. */
  function Top(before: Option<int>, n: nat): int {
    if before.Some? then before.value - 1 else n
  }

  /** Following the backward cursor from the first page stops after exactly the pages
      needed, and yields exactly the items 1..n of the first page's snapshot,
      whatever is appended meanwhile. */
  lemma {:induction false} BackwardIsExact(chats: seq<Stored>, sizes: seq<nat>, before: Option<int>, limit: nat)
    requires Snapshots(chats, sizes) && limit >= 1
    requires |chats| > 0 && (before.Some? ==> 1 <= before.value <= sizes[0] + 1)
    requires |chats| >= Pages(Top(before, sizes[0]), limit)
    ensures FollowBefore(chats, before, limit) == Some(Range(chats[0], 0, Top(before, sizes[0])))
  {
    hide ListPage;
    hide FollowBefore;
    var top := Top(before, sizes[0]);
    var low := Max(top - limit, 0);
    var page := Page(Range(chats[0], low, top), low > 0, None, if low > 0 then Some(low + 1) else None, sizes[0]);
    BackwardPage(chats[0], sizes[0], before, limit, true);
    BeforeUnfolds(chats, before, limit, page);
    if low > 0 {
      RestIsSnapshots(chats, sizes);
      BackwardIsExact(chats[1..], sizes[1..], Some(low + 1), limit);
      BackwardJoins(chats, sizes, low, top);
    }
  }

  lemma BackwardJoins(chats: seq<Stored>, sizes: seq<nat>, low: int, top: int)
    requires Snapshots(chats, sizes) && |chats| > 1 && 0 <= low <= top <= sizes[0]
    ensures Range(chats[1], 0, low) + Range(chats[0], low, top) == Range(chats[0], 0, top)
  {
    hide ReadsAsItself;
    assert Grew(chats[0], chats[1]) && Contiguous(chats[0], sizes[0]) && Contiguous(chats[1], sizes[1]);
    RangesAgree(chats[0], chats[1], sizes[0], sizes[1], 0, low);
    RangesJoin(chats[0], sizes[0], 0, low, top);
  }

  /** A cursor beyond what is stored, or a window that ends before it starts, is refused. */
  lemma OutOfRangeIsRefused(m: Stored, n: nat, p: Params, checked: bool)
    requires Contiguous(m, n)
    ensures (p.through.Some? && p.through.value > n)
            || (p.after.Some? && p.after.value > (if p.through.Some? then p.through.value else n))
            <==> ListPage(m, p, checked, false) == Err(InvalidPagination)
  {
    TailIsCount(m, n);
  }
}
