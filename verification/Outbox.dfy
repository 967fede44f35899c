// The outbox collection and its lease protocol: claim, finish (published, retry
// or failed), and the two-phase recovery of expired leases.

module Ordering {

  /** Index keys in ascending order: two instants, then the document's _id. */
  type Key = (int, int, string)

  predicate TextLess(a: string, b: string) {
    b != "" && (a == "" || a[0] < b[0] || (a[0] == b[0] && TextLess(a[1..], b[1..])))
  }

  predicate Less(a: Key, b: Key) {
    a.0 < b.0 || (a.0 == b.0 && (a.1 < b.1 || (a.1 == b.1 && TextLess(a.2, b.2))))
  }

  predicate IsLeast(k: Key, keys: set<Key>) {
    k in keys && forall other :: other in keys && other != k ==> Less(k, other)
  }

  lemma {:induction false} TextOrder(a: string, b: string)
    ensures a == b || TextLess(a, b) || TextLess(b, a)
    ensures !(TextLess(a, b) && TextLess(b, a)) && !TextLess(a, a)
  {
    if a != "" && b != "" {
      TextOrder(a[1..], b[1..]);
      TextOrder(a[1..], a[1..]);
      assert a == [a[0]] + a[1..] && b == [b[0]] + b[1..];
    } else if a != "" {
      TextOrder(a[1..], a[1..]);
    }
  }

  lemma {:induction false} TextTransitive(a: string, b: string, c: string)
    requires TextLess(a, b) && TextLess(b, c)
    ensures TextLess(a, c)
  {
    if a != "" && a[0] == b[0] && b[0] == c[0] {
      TextTransitive(a[1..], b[1..], c[1..]);
    }
  }

  lemma {:induction false} LeastExists(keys: set<Key>)
    requires keys != {}
    ensures exists k :: IsLeast(k, keys)
  {
    var k :| k in keys;
    var others := keys - {k};
    if others == {} {
      assert keys == others + {k} == {k};
      assert IsLeast(k, keys);
    } else {
      LeastExists(others);
      var m :| IsLeast(m, others);
      TextOrder(k.2, m.2);
      if Less(k, m) {
        forall other | other in keys && other != k ensures Less(k, other) {
          assert other in others;
          if other != m && k.0 == m.0 == other.0 && k.1 == m.1 == other.1 {
            TextTransitive(k.2, m.2, other.2);
          }
        }
        assert IsLeast(k, keys);
      } else {
        assert forall other :: other in keys ==> other == k || other in others;
        assert IsLeast(m, keys);
      }
    }
  }

  lemma LeastIsUnique(k: Key, m: Key, keys: set<Key>)
    requires IsLeast(k, keys) && IsLeast(m, keys)
    ensures k == m
  {
    TextOrder(k.2, m.2);
  }

  function Least(keys: set<Key>): (k: Key)
    requires keys != {}
    ensures IsLeast(k, keys)
  {
    LeastExists(keys);
    assert forall k, m | IsLeast(k, keys) && IsLeast(m, keys) :: k == m by {
      forall k, m | IsLeast(k, keys) && IsLeast(m, keys) ensures k == m { LeastIsUnique(k, m, keys); }
    }
    var k :| IsLeast(k, keys);
    k
  }

  /** The first `limit` keys in order: a sorted, limited find. */
  function FirstKeys(keys: set<Key>, limit: nat): (found: seq<Key>)
    ensures |found| <= limit && forall k :: k in found ==> k in keys
    ensures |found| < limit ==> forall k :: k in keys ==> k in found
  {
    if limit == 0 || keys == {} then []
    else
      var k := Least(keys);
      [k] + FirstKeys(keys - {k}, limit - 1)
  }

  lemma {:induction false} FirstKeysAscend(keys: set<Key>, limit: nat, i: nat, j: nat)
    requires i < j < |FirstKeys(keys, limit)|
    ensures Less(FirstKeys(keys, limit)[i], FirstKeys(keys, limit)[j])
  {
    var rest := FirstKeys(keys - {Least(keys)}, limit - 1);
    if i == 0 {
      assert rest[j - 1] in rest;
    } else {
      FirstKeysAscend(keys - {Least(keys)}, limit - 1, i - 1, j - 1);
    }
  }

  /** What a limited find leaves out comes after everything it returns. */
  lemma {:induction false} FirstKeysPrecede(keys: set<Key>, limit: nat, i: nat, k: Key)
    requires i < |FirstKeys(keys, limit)| && k in keys && k !in FirstKeys(keys, limit)
    ensures Less(FirstKeys(keys, limit)[i], k)
  {
    var least := Least(keys);
    assert FirstKeys(keys, limit) == [least] + FirstKeys(keys - {least}, limit - 1);
    assert k != least;
    if i > 0 {
      FirstKeysPrecede(keys - {least}, limit - 1, i - 1, k);
    }
  }
}

module Outbox {
  import opened Common
  import opened Documents
  import opened Ordering
  import Text
  import Instants

  type Collection = map<string, OutboxDocument>

  datatype OutboxError = InvalidParameters

  const MAX_STORED_ERROR_LENGTH := 512

  datatype OutboxEvent = OutboxEvent(id: string, aggregateType: string, aggregateID: string, eventType: string,
                                     payload: Payload, attempts: int, leaseID: string)

  // ----- Filters and updates -----------------------------------------------------

  predicate Claimable(d: OutboxDocument, now: int) {
    d.status == Pending && d.publishedAt == None && d.nextAttemptAt <= Instants.Stored(now)
  }

  /** The claim's sort: due time, creation time, _id. */
  function ClaimKeys(c: Collection, now: int): set<Key> {
    set id | id in c && Claimable(c[id], now) :: (c[id].nextAttemptAt, c[id].createdAt, id)
  }

  function Claimed(d: OutboxDocument, worker: string, lease: string, now: int, duration: int): OutboxDocument {
    d.(status := Processing, lockedBy := Some(worker), lockedUntil := Some(Instants.Stored(now + duration)),
       leaseID := Some(lease))
  }

  /** The document the next claim takes, if any is due. */
  function ClaimNextIn(c: Collection, worker: string, lease: string, now: int, duration: int): Option<OutboxDocument> {
    if ClaimKeys(c, now) == {} then None
    else Some(Claimed(c[Least(ClaimKeys(c, now)).2], worker, lease, now, duration))
  }

  /** toPort */
  function ToPort(d: OutboxDocument): OutboxEvent {
    OutboxEvent(d.id, d.aggregateType, d.aggregateID, d.eventType, d.payload, d.attempts,
                if d.leaseID.Some? then d.leaseID.value else "")
  }

  /** ownedProcessingFilter, beside the _id. */
  predicate Owned(d: OutboxDocument, lease: string) {
    d.status == Processing && d.leaseID == Some(lease) && d.publishedAt == None
  }

  datatype Finish =
    | AsPublished(receipt: Receipt, at: int)
    | AsRetry(next: int, error: string)
    | AsFailed(at: int, reason: string)

  function Released(d: OutboxDocument): OutboxDocument {
    d.(lockedBy := None, lockedUntil := None, leaseID := None)
  }

  function Finished(d: OutboxDocument, f: Finish): OutboxDocument {
    match f
    case AsPublished(receipt, at) =>
      Released(d).(status := Published, publishedAt := Some(Instants.Stored(at)), receipt := Some(receipt), lastError := None)
    case AsRetry(next, error) =>
      Released(d).(status := Pending, attempts := d.attempts + 1, nextAttemptAt := Instants.Stored(next), lastError := Some(error))
    case AsFailed(at, reason) =>
      Released(d).(status := Failed, attempts := d.attempts + 1, failedAt := Some(Instants.Stored(at)), lastError := Some(reason))
  }

  predicate ValidFinish(f: Finish) {
    match f
    case AsPublished(receipt, at) => !Text.Blank(receipt.stream) && receipt.sequence != 0 && at != 0
    case AsRetry(next, error) => next != 0 && !Text.Blank(error) && |error| <= MAX_STORED_ERROR_LENGTH
    case AsFailed(at, reason) => at != 0 && !Text.Blank(reason) && |reason| <= MAX_STORED_ERROR_LENGTH
  }

  /** One finishing update; the flag says whether a document matched. */
  function FinishIn(c: Collection, id: string, lease: string, f: Finish): (Collection, bool) {
    if id in c && Owned(c[id], lease) then (c[id := Finished(c[id], f)], true) else (c, false)
  }

  /** A claim finds something exactly if something is due, and takes what has been
      due the longest, then the oldest. */
  lemma ClaimTakesTheFirstDue(c: Collection, worker: string, lease: string, now: int, duration: int)
    requires forall id :: id in c ==> c[id].id == id
    ensures
      match ClaimNextIn(c, worker, lease, now, duration)
      case None => forall id :: id in c ==> !Claimable(c[id], now)
      case Some(d) =>
        && d.id in c && Claimable(c[d.id], now) && Owned(d, lease) && SameMessage(c[d.id], d)
        && forall id :: id in c && Claimable(c[id], now) && id != d.id ==>
             Less((c[d.id].nextAttemptAt, c[d.id].createdAt, d.id), (c[id].nextAttemptAt, c[id].createdAt, id))
  {
    var keys := ClaimKeys(c, now);
    forall id | id in c && Claimable(c[id], now) ensures (c[id].nextAttemptAt, c[id].createdAt, id) in keys {
    }
    if keys != {} {
      var k := Least(keys);
      assert k in keys;
    }
  }

  /** After a failed attempt the event is due again at its announced time and not
      before; after a final outcome it is never due. */
  lemma FinishedIsDueWhenAnnounced(d: OutboxDocument, f: Finish, now: int)
    requires d.publishedAt == None
    ensures Claimable(Finished(d, f), now) <==> f.AsRetry? && Instants.Stored(f.next) <= Instants.Stored(now)
    ensures Finished(d, f).attempts == d.attempts + if f.AsPublished? then 0 else 1
    ensures SameMessage(d, Finished(d, f)) && forall lease :: !Owned(Finished(d, f), lease)
  {
  }

  predicate LockExpired(d: OutboxDocument, now: int) {
    d.lockedUntil.Some? && d.lockedUntil.value <= Instants.Stored(now)
  }

  /** The recovery's find filter, and its sort by expiry and _id. */
  predicate Recoverable(d: OutboxDocument, now: int) {
    d.status == Processing && d.publishedAt == None && LockExpired(d, now)
  }

  function RecoveryKeys(c: Collection, now: int): set<Key> {
    set id | id in c && Recoverable(c[id], now) :: (c[id].lockedUntil.value, 0, id)
  }

  /** What the find phase saw: identifiers and the leases they carried. */
  function ObservedLeases(c: Collection, now: int, limit: nat): (seen: seq<(string, string)>)
    ensures forall i :: 0 <= i < |seen| ==>
      seen[i].0 in c && Recoverable(c[seen[i].0], now) && seen[i].1 == ToPort(c[seen[i].0]).leaseID
  {
    var keys := FirstKeys(RecoveryKeys(c, now), limit);
    assert forall i :: 0 <= i < |keys| ==> keys[i] in RecoveryKeys(c, now);
    seq(|keys|, i requires 0 <= i < |keys| => (keys[i].2, ToPort(c[keys[i].2]).leaseID))
  }

  /** The find phase sees everything recoverable, or as much as the limit allows of
      what has been expired the longest, in that order. */
  lemma RecoveryFindsTheLongestExpired(c: Collection, now: int, limit: nat, i: nat, id: string)
    requires i < |ObservedLeases(c, now, limit)|
    ensures
      var seen := ObservedLeases(c, now, limit);
      && |seen| <= limit
      && (forall j :: i < j < |seen| ==> c[seen[i].0].lockedUntil.value <= c[seen[j].0].lockedUntil.value && seen[i].0 != seen[j].0)
      && (id in c && Recoverable(c[id], now) && (forall j :: 0 <= j < |seen| ==> seen[j].0 != id) ==>
            |seen| == limit && c[seen[i].0].lockedUntil.value <= c[id].lockedUntil.value)
  {
    var keys := RecoveryKeys(c, now);
    var found, seen := FirstKeys(keys, limit), ObservedLeases(c, now, limit);
    assert forall j :: 0 <= j < |found| ==> found[j] in keys && found[j].2 == seen[j].0;
    hide ObservedLeases;
    hide FirstKeys;
    forall j | i < j < |seen|
      ensures c[seen[i].0].lockedUntil.value <= c[seen[j].0].lockedUntil.value && seen[i].0 != seen[j].0
    {
      FirstKeysAscend(keys, limit, i, j);
      TextOrder(seen[i].0, seen[j].0);
    }
    if id in c && Recoverable(c[id], now) && forall j :: 0 <= j < |seen| ==> seen[j].0 != id {
      var k := (c[id].lockedUntil.value, 0, id);
      assert k in keys && k !in found;
      FirstKeysPrecede(keys, limit, i, k);
    }
  }

  lemma RecoveryFindsSomething(c: Collection, now: int, limit: nat)
    ensures ObservedLeases(c, now, limit) == [] <==> limit == 0 || forall id :: id in c ==> !Recoverable(c[id], now)
  {
    forall id | id in c && Recoverable(c[id], now) ensures (c[id].lockedUntil.value, 0, id) in RecoveryKeys(c, now) {
    }
  }

  /** One guarded update of the bulk write. */
  function RecoverOne(c: Collection, id: string, lease: string, now: int): (Collection, bool) {
    if id in c && Owned(c[id], lease) && LockExpired(c[id], now)
    then (c[id := Released(c[id]).(status := Pending)], true)
    else (c, false)
  }

  function RecoverAll(c: Collection, observed: seq<(string, string)>, now: int): (Collection, nat) {
    if observed == [] then (c, 0)
    else
      var (before, count) := RecoverAll(c, observed[..|observed| - 1], now);
      var (after, matched) := RecoverOne(before, observed[|observed| - 1].0, observed[|observed| - 1].1, now);
      (after, if matched then count + 1 else count)
  }

  /** A recovery's count is the number of documents it changed. */
  lemma {:induction false} RecoveryCountsItsChanges(c: Collection, observed: seq<(string, string)>, now: int)
    requires forall i, j :: 0 <= i < j < |observed| ==> observed[i].0 != observed[j].0
    ensures
      var (after, count) := RecoverAll(c, observed, now);
      && after.Keys == c.Keys && count == |Changed(c, after)|
      && forall id :: id in Changed(c, after) <==>
           id in c && after[id] != c[id] && exists i :: 0 <= i < |observed| && observed[i].0 == id
                                                         && Owned(c[id], observed[i].1) && LockExpired(c[id], now)
  {
    if observed != [] {
      var rest, last := observed[..|observed| - 1], observed[|observed| - 1];
      RecoveryCountsItsChanges(c, rest, now);
      var (before, n) := RecoverAll(c, rest, now);
      var (after, count) := RecoverAll(c, observed, now);
      assert last.0 in c ==> before[last.0] == c[last.0] by {
        assert last.0 !in Changed(c, before);
      }
      if RecoverOne(before, last.0, last.1, now).1 {
        assert after[last.0].status != c[last.0].status;
        assert Changed(c, after) == Changed(c, before) + {last.0};
      } else {
        assert Changed(c, after) == Changed(c, before);
      }
      forall id ensures id in Changed(c, after) <==>
        id in c && after[id] != c[id] && exists i :: 0 <= i < |observed| && observed[i].0 == id
                                                      && Owned(c[id], observed[i].1) && LockExpired(c[id], now)
      {
        if id in Changed(c, before) {
          var i :| 0 <= i < |rest| && rest[i].0 == id && Owned(c[id], rest[i].1) && LockExpired(c[id], now);
          assert observed[i] == rest[i];
        }
      }
    }
  }

  function Changed(before: Collection, after: Collection): set<string> {
    set id | id in before && id in after && after[id] != before[id]
  }

  class Repository {
    var collection: Collection

    method ClaimNext(worker: string, lease: string, now: int, duration: int)
      returns (r: Result<Option<OutboxEvent>, OutboxError>)
      requires forall id :: id in collection ==> collection[id].id == id
      modifies this
      ensures r.Err? <==> Text.Blank(worker) || Text.Blank(lease) || now == 0 || duration <= 0
      ensures r.Err? || ClaimNextIn(old(collection), worker, lease, now, duration) == None ==> collection == old(collection)
      ensures r.Ok? ==>
        match ClaimNextIn(old(collection), worker, lease, now, duration)
        case None => r.value == None
        case Some(d) => collection == old(collection)[d.id := d] && r.value == Some(ToPort(d))
    {
      if Text.TrimSpace(worker) == "" || Text.TrimSpace(lease) == "" || now == 0 || duration <= 0 {
        return Err(InvalidParameters);
      }
      var due := ClaimKeys(collection, now);
      if due == {} {
        return Ok(None);
      }
      var id := Least(due).2;
      collection := collection[id := Claimed(collection[id], worker, lease, now, duration)];
      r := Ok(Some(ToPort(collection[id])));
    }

    /** MarkPublished, ScheduleRetry and MarkFailed: one update behind one filter. */
    method FinishLease(id: string, lease: string, f: Finish) returns (r: Result<bool, OutboxError>)
      modifies this
      ensures r.Err? <==> Text.Blank(id) || Text.Blank(lease) || !ValidFinish(f)
      ensures r.Err? <==>
        || Text.Blank(id) || Text.Blank(lease)
        || (f.AsPublished? && (Text.Blank(f.receipt.stream) || f.receipt.sequence == 0 || f.at == 0))
        || (f.AsRetry? && (f.next == 0 || Text.Blank(f.error) || |f.error| > 512))
        || (f.AsFailed? && (f.at == 0 || Text.Blank(f.reason) || |f.reason| > 512))
      ensures r.Err? ==> collection == old(collection)
      ensures r.Ok? ==> (collection, r.value) == FinishIn(old(collection), id, lease, f)
    {
      if Text.TrimSpace(id) == "" || Text.TrimSpace(lease) == "" || !ValidFinish(f) {
        return Err(InvalidParameters);
      }
      if id !in collection || !Owned(collection[id], lease) {
        return Ok(false);
      }
      var d := collection[id].(lockedBy := None, lockedUntil := None, leaseID := None);
      match f {
        case AsPublished(receipt, at) =>
          d := d.(status := Published, publishedAt := Some(Instants.Stored(at)), receipt := Some(receipt), lastError := None);
        case AsRetry(next, error) =>
          d := d.(status := Pending, nextAttemptAt := Instants.Stored(next), lastError := Some(error), attempts := d.attempts + 1);
        case AsFailed(at, reason) =>
          d := d.(status := Failed, failedAt := Some(Instants.Stored(at)), lastError := Some(reason), attempts := d.attempts + 1);
      }
      collection := collection[id := d];
      r := Ok(true);
    }

    /** Whatever claims, finishes and other recoveries do meanwhile. */
    method Others()
      modifies this
    {
    }

    /** Find, then one guarded update per document found, with anything in between. */
    method RecoverExpired(now: int, limit: int)
      returns (r: Result<nat, OutboxError>, ghost observed: seq<(string, string)>, ghost between: Collection)
      modifies this
      ensures r.Err? <==> now == 0 || limit <= 0 || limit > 1000
      ensures r.Err? ==> collection == old(collection)
      ensures r.Ok? ==> observed == ObservedLeases(old(collection), now, limit)
      ensures r.Ok? && observed != [] ==> (collection, r.value) == RecoverAll(between, observed, now)
      ensures r.Ok? && observed == [] ==> collection == old(collection) && r.value == 0
    {
      observed, between := [], collection;
      if now == 0 || limit <= 0 || limit > 1000 {
        return Err(InvalidParameters), observed, between;
      }
      var documents := ObservedLeases(collection, now, limit);
      observed := documents;
      if |documents| == 0 {
        return Ok(0), observed, between;
      }
      Others();
      between := collection;
      var modified := 0;
      for i := 0 to |documents|
        invariant (collection, modified) == RecoverAll(between, documents[..i], now)
      {
        var (id, lease) := documents[i];
        assert documents[..i + 1][..i] == documents[..i];
        if id in collection && Owned(collection[id], lease) && LockExpired(collection[id], now) {
          collection := collection[id := collection[id].(status := Pending, lockedBy := None, lockedUntil := None, leaseID := None)];
          modified := modified + 1;
        }
      }
      assert documents[..|documents|] == documents;
      r := Ok(modified);
    }
  }
}
