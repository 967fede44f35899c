// Publishing the outbox: workers that claim, publish and finish, recoveries of
// expired leases, and the stream they publish to, in any interleaving.

module Relay {
  import opened Common
  import opened Timeline
  import opened Documents
  import opened Outbox
  import Text
  import Instants

  // ----- The stream ----------------------------------------------------------------

  const STREAM := "CHAT_EVENTS"

  /** ports.MessageCreatedEvent */
  datatype Envelope = Envelope(eventID: string, eventType: string, aggregateType: string, aggregateID: string,
                               occurredAt: int, payload: Payload)

  /** The stream also keeps the records of permanent delivery failures. */
  datatype StreamMessage = Created(envelope: Envelope) | FailureRecord(source: nat, reason: string)

  /** validateEvent of the JetStream publisher. */
  predicate ValidOutboxEvent(e: OutboxEvent) {
    && !Text.Blank(e.id)
    && e.eventType == MESSAGE_CREATED && e.aggregateType == AGGREGATE_CHAT
    && !Text.Blank(e.payload.chatID) && e.aggregateID == e.payload.chatID
    && !Text.Blank(e.payload.messageID) && !Text.Blank(e.payload.senderID)
    && 0 < e.payload.sequence <= MAX_SEQUENCE
    && e.payload.createdAt != 0
    && ValidContent(e.payload.content)
  }

  function EnvelopeOf(e: OutboxEvent): Envelope {
    Envelope(e.id, e.eventType, e.aggregateType, e.aggregateID, e.payload.createdAt, e.payload)
  }

  // ----- One publication step ----------------------------------------------------------

  datatype PublishResult = Accepted(receipt: Receipt) | Invalid | Transient

  datatype Outcome = NoWork | OutcomePublished | RetryScheduled | FailedPermanent

  datatype StepError = ClaimFailed | FinishFailed | LeaseLost

  const RETRY_DELAYS: seq<int> := [1, 2, 5, 10, 30, 60, 300] // seconds

  /** The delay an attempt count selects, before jitter. */
  function RetryBase(attempts: int): int {
    var a := if attempts < 0 then 0 else if attempts >= |RETRY_DELAYS| then |RETRY_DELAYS| - 1 else attempts;
    RETRY_DELAYS[a] * Instants.SECOND
  }

  /** retryDelay: up to a fifth more than the base, by a random draw. */
  function RetryDelay(attempts: int, draw: nat): int {
    RetryBase(attempts) + draw % (RetryBase(attempts) / 5 + 1)
  }

  lemma RetryBases(a: int)
    requires 0 <= a < 6
    ensures Instants.SECOND <= RetryBase(a) && RetryBase(a) + RetryBase(a) / 5 < RetryBase(a + 1) <= 5 * Instants.MINUTE
  {
    assert RETRY_DELAYS[0] == 1 && RETRY_DELAYS[1] == 2 && RETRY_DELAYS[2] == 5 && RETRY_DELAYS[3] == 10
        && RETRY_DELAYS[4] == 30 && RETRY_DELAYS[5] == 60 && RETRY_DELAYS[6] == 300;
  }

  lemma {:induction false} RetryBasesAscend(a: int, b: int)
    requires 0 <= a < b <= 6
    ensures Instants.SECOND <= RetryBase(a) && RetryBase(a) + RetryBase(a) / 5 < RetryBase(b) <= 5 * Instants.MINUTE
    decreases b
  {
    RetryBases(b - 1);
    if a < b - 1 {
      RetryBasesAscend(a, b - 1);
    }
  }

  lemma JitterRange(n: int, draw: nat)
    requires n > 0
    ensures 0 <= draw % n < n && (draw < n ==> draw % n == draw)
  {
  }

  lemma DrawsReach(attempts: int, wait: int)
    requires RetryBase(attempts) > 0
    ensures (exists draw: nat :: RetryDelay(attempts, draw) == wait) <==>
            RetryBase(attempts) <= wait <= RetryBase(attempts) + RetryBase(attempts) / 5
  {
    hide RetryBase;
    var base := RetryBase(attempts);
    forall draw: nat ensures base <= RetryDelay(attempts, draw) <= base + base / 5 {
      JitterRange(base / 5 + 1, draw);
    }
    if base <= wait <= base + base / 5 {
      JitterRange(base / 5 + 1, wait - base);
      assert RetryDelay(attempts, wait - base) == wait;
    }
  }

  /** Each further failure up to the sixth waits longer than the one before,
      whatever the draws; from then on the base is five minutes. The waits an
      attempt count can get are exactly those from the base to a fifth more. */
  lemma RetryDelayGrows(a: int, b: int, x: nat, y: nat, wait: int)
    ensures 0 <= a < b <= 6 ==> RetryDelay(a, x) < RetryDelay(b, y)
    ensures RetryBase(a) == Instants.SECOND * if a <= 0 then 1 else if a == 1 then 2 else if a == 2 then 5
                                              else if a == 3 then 10 else if a == 4 then 30 else if a == 5 then 60 else 300
    ensures (exists draw: nat :: RetryDelay(a, draw) == wait) <==> RetryBase(a) <= wait <= RetryBase(a) + RetryBase(a) / 5
  {
    assert RETRY_DELAYS[0] == 1 && RETRY_DELAYS[1] == 2 && RETRY_DELAYS[2] == 5 && RETRY_DELAYS[3] == 10
        && RETRY_DELAYS[4] == 30 && RETRY_DELAYS[5] == 60 && RETRY_DELAYS[6] == 300;
    if 0 <= a < 6 { RetryBases(a); }
    if 0 <= a < b <= 6 {
      RetryBasesAscend(a, b);
      JitterRange(RetryBase(a) / 5 + 1, x);
      JitterRange(RetryBase(b) / 5 + 1, y);
    }
    DrawsReach(a, wait);
  }

  /** Which finishing update a publication result calls for. */
  function FinishFor(e: OutboxEvent, result: PublishResult, now: int, draw: nat): Finish {
    match result
    case Accepted(receipt) => AsPublished(receipt, now)
    case Invalid => AsFailed(now, "invalid_outbox_event")
    case Transient => AsRetry(now + RetryDelay(e.attempts, draw), "outbox_publish_failed")
  }

  /** What a publication's result makes of the document that its worker still holds:
      published with the receipt it got, failed for good, or due again after a wait
      that the failures so far call for. */
  ghost predicate EndsAs(before: OutboxDocument, after: OutboxDocument, attempts: int, result: PublishResult, now: int) {
    && SameMessage(before, after)
    && after.lockedBy == None && after.lockedUntil == None && after.leaseID == None
    && match result
       case Accepted(receipt) =>
         && after.status == Published && after.receipt == Some(receipt)
         && after.publishedAt == Some(Instants.Stored(now)) && after.attempts == before.attempts && after.lastError == None
       case Invalid =>
         after.status == Failed && after.failedAt == Some(Instants.Stored(now)) && after.attempts == before.attempts + 1
         && after.lastError == Some("invalid_outbox_event")
       case Transient =>
         && after.status == Pending && after.attempts == before.attempts + 1 && after.publishedAt == before.publishedAt
         && after.lastError == Some("outbox_publish_failed")
         && Instants.Stored(now + RetryBase(attempts)) <= after.nextAttemptAt
         && after.nextAttemptAt <= Instants.Stored(now + RetryBase(attempts) + RetryBase(attempts) / 5)
  }

  /** A receipt that the store accepts; the stream gives no others. */
  predicate Storable(result: PublishResult) {
    result.Accepted? ==> !Text.Blank(result.receipt.stream) && result.receipt.sequence != 0
  }

  lemma WaitIsInRange(attempts: int, draw: nat, now: int)
    requires now > 0
    ensures RetryDelay(attempts, draw) > 0
    ensures
      var base := RetryBase(attempts);
      Instants.Stored(now + base) <= Instants.Stored(now + RetryDelay(attempts, draw)) <= Instants.Stored(now + base + base / 5)
  {
    RetryDelayGrows(attempts, attempts, draw, draw, RetryDelay(attempts, draw));
    hide RetryDelay;
    var base, wait := RetryBase(attempts), RetryDelay(attempts, draw);
    assert base > 0;
    hide RetryBase;
    Instants.StoredMonotone(now + base, now + wait);
    Instants.StoredMonotone(now + wait, now + base + base / 5);
  }

  lemma FinishEnds(d: OutboxDocument, e: OutboxEvent, result: PublishResult, now: int, draw: nat)
    requires now > 0 && Storable(result)
    ensures ValidFinish(FinishFor(e, result, now, draw))
    ensures EndsAs(d, Finished(d, FinishFor(e, result, now, draw)), e.attempts, result, now)
  {
    hide Text.Blank;
    hide RetryBase;
    hide RetryDelay;
    match result
    case Accepted(_) =>
    case Invalid => Text.NotBlank("invalid_outbox_event");
    case Transient =>
      Text.NotBlank("outbox_publish_failed");
      WaitIsInRange(e.attempts, draw, now);
  }

  datatype ConfigError = EmptyWorkerID | InvalidTimeouts

  predicate ValidTimeouts(lease: int, publish: int, finish: int) {
    publish > 0 && finish > 0 && lease > publish + finish
  }

  class PublishOne {
    const store: Repository
    const workerID: string
    const leaseDuration: int
    const publishTimeout: int
    const finishTimeout: int

    /** What NewPublishOne has checked. */
    predicate Valid() {
      !Text.Blank(workerID) && ValidTimeouts(leaseDuration, publishTimeout, finishTimeout)
    }

    constructor (store: Repository, workerID: string, leaseDuration: int, publishTimeout: int, finishTimeout: int)
      ensures this.store == store && this.workerID == workerID && this.leaseDuration == leaseDuration
      ensures this.publishTimeout == publishTimeout && this.finishTimeout == finishTimeout
    {
      this.store := store;
      this.workerID := workerID;
      this.leaseDuration := leaseDuration;
      this.publishTimeout := publishTimeout;
      this.finishTimeout := finishTimeout;
    }

    /** Claim, publish, finish. Anything may happen to the collection while the
        publication runs; `atFinish` is what the finishing update found. */
    method RunOnce(lease: string, claimNow: int, publish: OutboxEvent -> PublishResult, finishNow: int, draw: nat)
      returns (r: Result<Outcome, StepError>, ghost claimed: Option<OutboxDocument>, ghost atFinish: Collection)
      requires Valid()
      requires forall id :: id in store.collection ==> store.collection[id].id == id && !Text.Blank(id)
      modifies store
      ensures claimed == ClaimNextIn(old(store.collection), workerID, lease, claimNow, leaseDuration)
      ensures Text.Blank(lease) || claimNow == 0 ==> r == Err(ClaimFailed) && store.collection == old(store.collection)
      ensures claimed == None && r != Err(ClaimFailed) ==> r == Ok(NoWork) && store.collection == old(store.collection)
      ensures claimed.Some? && !Text.Blank(lease) && claimNow != 0 ==>
        var e := ToPort(claimed.value);
        var f := FinishFor(e, publish(e), finishNow, draw);
        if !ValidFinish(f) then r == Err(FinishFailed) && store.collection == atFinish
        else
          && store.collection == FinishIn(atFinish, e.id, lease, f).0
          && r == (if !FinishIn(atFinish, e.id, lease, f).1 then Err(LeaseLost)
                   else match f
                     case AsPublished(_, _) => Ok(OutcomePublished)
                     case AsFailed(_, _) => Ok(FailedPermanent)
                     case AsRetry(_, _) => Ok(RetryScheduled))
      ensures claimed.Some? && !Text.Blank(lease) && claimNow != 0 && finishNow > 0 ==>
        var id, result := claimed.value.id, publish(ToPort(claimed.value));
        Storable(result) && id in atFinish && Owned(atFinish[id], lease) ==>
          && r == Ok(match result case Accepted(_) => OutcomePublished case Invalid => FailedPermanent case Transient => RetryScheduled)
          && id in store.collection && store.collection == atFinish[id := store.collection[id]]
          && EndsAs(atFinish[id], store.collection[id], claimed.value.attempts, result, finishNow)
    {
      claimed := ClaimNextIn(store.collection, workerID, lease, claimNow, leaseDuration);
      atFinish := store.collection;
      var claim := store.ClaimNext(workerID, lease, claimNow, leaseDuration);
      if claim.Err? {
        return Err(ClaimFailed), claimed, atFinish;
      }
      if claim.value == None {
        return Ok(NoWork), claimed, atFinish;
      }
      var event := claim.value.value;
      var result := publish(event);
      store.Others();
      atFinish := store.collection;
      if finishNow > 0 && Storable(result) && event.id in atFinish {
        FinishEnds(atFinish[event.id], event, result, finishNow, draw);
      }
      hide FinishFor;
      hide EndsAs;
      var updated := store.FinishLease(event.id, lease, FinishFor(event, result, finishNow, draw));
      if updated.Err? {
        return Err(FinishFailed), claimed, atFinish;
      }
      if !updated.value {
        return Err(LeaseLost), claimed, atFinish;
      }
      match result {
        case Accepted(_) => r := Ok(OutcomePublished);
        case Invalid => r := Ok(FailedPermanent);
        case Transient => r := Ok(RetryScheduled);
      }
    }
  }

  /** The only way to a publisher: one that runs has a worker name, positive
      timeouts and a lease longer than both; everything else is refused. */
  method NewPublishOne(store: Repository, workerID: string, leaseDuration: int, publishTimeout: int, finishTimeout: int)
    returns (r: Result<PublishOne, ConfigError>)
    ensures r.Ok? ==> fresh(r.value) && r.value.Valid() && r.value.store == store && r.value.workerID == workerID
    ensures r.Ok? ==> r.value.leaseDuration == leaseDuration && r.value.publishTimeout == publishTimeout
                      && r.value.finishTimeout == finishTimeout
    ensures r == Err(EmptyWorkerID) <==> Text.Blank(workerID)
    ensures r == Err(InvalidTimeouts) <==>
              !Text.Blank(workerID) && !(0 < publishTimeout && 0 < finishTimeout && publishTimeout + finishTimeout < leaseDuration)
  {
    if Text.TrimSpace(workerID) == "" {
      return Err(EmptyWorkerID);
    }
    if publishTimeout <= 0 || finishTimeout <= 0 || leaseDuration <= publishTimeout + finishTimeout {
      return Err(InvalidTimeouts);
    }
    var worker := new PublishOne(store, workerID, leaseDuration, publishTimeout, finishTimeout);
    r := Ok(worker);
  }

  // ----- Many workers and recoveries -------------------------------------------------------

  datatype Progress =
    | Working(event: OutboxEvent)
    | Reported(event: OutboxEvent, result: PublishResult)
    | Closed(event: OutboxEvent, updated: bool)

  datatype Recovery = Recovery(now: int, observed: seq<(string, string)>)

  /** `claimedFor` remembers every lease ever issued, `finishes` every lease a
      finishing update succeeded with. */
  datatype State = State(stream: seq<StreamMessage>, workers: map<nat, Progress>, recoveries: map<nat, Recovery>,
                         claimedFor: map<string, string>, finishes: seq<string>)

  datatype World = World(outbox: Collection, state: State)

  /** What happens to a publication: appended, recognised as a duplicate of the
      entry at an index, or lost; and whether the worker learns of it. */
  datatype Landing = Appended | Deduplicated(at: nat) | Lost

  datatype Event =
    | Insert(document: OutboxDocument)
    | Claim(id: nat, worker: string, lease: string, now: int, duration: int)
    | Publish(id: nat, landing: Landing, acknowledged: bool)
    | LateLanding(lease: string)                         // of a publication made under this lease
    | FinishLease(id: nat, now: int, draw: nat)
    | Crash(id: nat)
    | Find(id: nat, now: int, limit: nat)
    | Recover(id: nat, index: nat)
    | Append(message: StreamMessage)                     // failure records of the dispatcher

  predicate NewDocument(d: OutboxDocument) {
    && d.status == Pending && d.lockedBy == None && d.lockedUntil == None && d.leaseID == None
    && d.publishedAt == None && d.receipt == None && d.failedAt == None && d.lastError == None
  }

  function PublishStep(s: State, id: nat, landing: Landing, acknowledged: bool): State
    requires id in s.workers && s.workers[id].Working?
  {
    var e := s.workers[id].event;
    if !ValidOutboxEvent(e) then s.(workers := s.workers[id := Reported(e, Invalid)])
    else match landing
      case Lost => s.(workers := s.workers[id := Reported(e, Transient)])
      case Appended =>
        s.(stream := s.stream + [Created(EnvelopeOf(e))],
           workers := s.workers[id := Reported(e, if acknowledged then Accepted(Receipt(STREAM, |s.stream| + 1)) else Transient)])
      case Deduplicated(at) =>
        if at < |s.stream| && s.stream[at].Created? && s.stream[at].envelope.eventID == e.id
        then s.(workers := s.workers[id := Reported(e, if acknowledged then Accepted(Receipt(STREAM, at + 1)) else Transient)])
        else s
  }

  /** A publication reaches the stream after its worker gave up on it: after the
      timeout, the retry, a recovery or a crash. */
  function LandStep(w: World, lease: string): World
    requires lease in w.state.claimedFor
  {
    var id := w.state.claimedFor[lease];
    if id in w.outbox && ValidOutboxEvent(ToPort(w.outbox[id]))
    then w.(state := w.state.(stream := w.state.stream + [Created(EnvelopeOf(ToPort(w.outbox[id])))]))
    else w
  }

  function FinishStep(w: World, id: nat, now: int, draw: nat): World
    requires id in w.state.workers && w.state.workers[id].Reported?
  {
    var s := w.state;
    var e := s.workers[id].event;
    var f := FinishFor(e, s.workers[id].result, now, draw);
    var (outbox, updated) := if ValidFinish(f) then FinishIn(w.outbox, e.id, e.leaseID, f) else (w.outbox, false);
    World(outbox, s.(workers := s.workers[id := Closed(e, updated)],
                     finishes := if updated then s.finishes + [e.leaseID] else s.finishes))
  }

  function ClaimStep(w: World, id: nat, worker: string, lease: string, now: int, duration: int): World {
    match ClaimNextIn(w.outbox, worker, lease, now, duration)
    case None => w
    case Some(d) =>
      World(w.outbox[d.id := d],
            w.state.(workers := w.state.workers[id := Working(ToPort(d))], claimedFor := w.state.claimedFor[lease := d.id]))
  }

  /** Events that are not enabled leave the world as it is. Leases are fresh. */
  function Step(w: World, e: Event): World {
    var s := w.state;
    match e
    case Insert(d) => if d.id in w.outbox || !NewDocument(d) then w else w.(outbox := w.outbox[d.id := d])
    case Claim(id, worker, lease, now, duration) =>
      if id in s.workers || lease in s.claimedFor || Text.Blank(worker) || Text.Blank(lease) || now == 0 || duration <= 0
      then w else ClaimStep(w, id, worker, lease, now, duration)
    case Publish(id, landing, acknowledged) =>
      if id in s.workers && s.workers[id].Working? then w.(state := PublishStep(s, id, landing, acknowledged)) else w
    case LateLanding(lease) => if lease in s.claimedFor then LandStep(w, lease) else w
    case FinishLease(id, now, draw) =>
      if id in s.workers && s.workers[id].Reported? then FinishStep(w, id, now, draw) else w
    case Crash(id) => w.(state := s.(workers := s.workers - {id}))
    case Find(id, now, limit) =>
      if id in s.recoveries then w
      else w.(state := s.(recoveries := s.recoveries[id := Recovery(now, ObservedLeases(w.outbox, now, limit))]))
    case Recover(id, index) =>
      if id in s.recoveries && index < |s.recoveries[id].observed| then
        var (event, lease) := s.recoveries[id].observed[index];
        w.(outbox := RecoverOne(w.outbox, event, lease, s.recoveries[id].now).0)
      else w
    case Append(m) => if m.Created? then w else w.(state := s.(stream := s.stream + [m]))
  }

  function Run(w: World, events: seq<Event>): World {
    if events == [] then w else Step(Run(w, events[..|events| - 1]), events[|events| - 1])
  }

  // ----- Invariant ------------------------------------------------------------------------------

  /** Which delivery fields a status leaves set. */
  predicate WellKept(d: OutboxDocument) {
    match d.status
    case Pending =>
      && d.lockedBy == None && d.lockedUntil == None && d.leaseID == None
      && d.publishedAt == None && d.receipt == None && d.failedAt == None
    case Processing =>
      && d.lockedBy.Some? && d.lockedUntil.Some? && d.leaseID.Some?
      && d.publishedAt == None && d.receipt == None && d.failedAt == None
    case Published =>
      && d.lockedBy == None && d.lockedUntil == None && d.leaseID == None
      && d.publishedAt.Some? && d.receipt.Some? && d.failedAt == None && d.lastError == None
    case Failed =>
      && d.lockedBy == None && d.lockedUntil == None && d.leaseID == None
      && d.publishedAt == None && d.receipt == None && d.failedAt.Some? && d.lastError.Some?
  }

  ghost predicate DocumentsHold(c: Collection) {
    forall id :: id in c ==> c[id].id == id && WellKept(c[id])
  }

  /** A lease in the collection was issued for that document and not finished. */
  ghost predicate LeasesHold(c: Collection, claimedFor: map<string, string>, finishes: seq<string>) {
    && (forall id :: id in c && c[id].leaseID.Some? ==>
          && c[id].leaseID.value in claimedFor && claimedFor[c[id].leaseID.value] == id
          && c[id].leaseID.value !in finishes)
    && (forall l :: l in finishes ==> l in claimedFor)
    && NoRepeats(finishes)
  }

  ghost predicate NoRepeats(s: seq<string>) {
    forall i, j :: 0 <= i < j < |s| ==> s[i] != s[j]
  }

  predicate Carries(d: OutboxDocument, e: OutboxEvent) {
    && e.id == d.id && e.payload == d.payload && e.aggregateType == d.aggregateType
    && e.aggregateID == d.aggregateID && e.eventType == d.eventType
  }

  /** An entry of the stream that is this event's envelope. */
  predicate EntryAt(stream: seq<StreamMessage>, sequence: nat, envelope: Envelope) {
    0 < sequence <= |stream| && stream[sequence - 1] == Created(envelope)
  }

  ghost predicate WorkerHolds(c: Collection, s: State, p: Progress) {
    var e := p.event;
    && e.id in c && Carries(c[e.id], e)
    && e.leaseID in s.claimedFor && s.claimedFor[e.leaseID] == e.id
    && (c[e.id].leaseID == Some(e.leaseID) ==> c[e.id].attempts == e.attempts)
    && (p.Reported? && p.result.Accepted? ==>
          p.result.receipt.stream == STREAM && EntryAt(s.stream, p.result.receipt.sequence, EnvelopeOf(e)))
    && (p.Reported? && p.result.Invalid? ==> !ValidOutboxEvent(e))
  }

  ghost predicate WorkersHold(c: Collection, s: State) {
    forall id :: id in s.workers ==> WorkerHolds(c, s, s.workers[id])
  }

  ghost predicate RecoveriesHold(s: State) {
    forall id, i :: id in s.recoveries && 0 <= i < |s.recoveries[id].observed| ==>
      && s.recoveries[id].observed[i].1 in s.claimedFor
      && s.claimedFor[s.recoveries[id].observed[i].1] == s.recoveries[id].observed[i].0
  }

  /** Published documents have their entry; every entry is some document's envelope. */
  ghost predicate StreamHolds(c: Collection, stream: seq<StreamMessage>) {
    && (forall id :: id in c && c[id].status == Published && c[id].receipt.Some? ==>
          EntryAt(stream, c[id].receipt.value.sequence, EnvelopeOf(ToPort(c[id]))))
    && (forall i :: 0 <= i < |stream| && stream[i].Created? ==>
          && stream[i].envelope.eventID in c
          && stream[i].envelope == EnvelopeOf(ToPort(c[stream[i].envelope.eventID])))
    && (forall id :: id in c && c[id].status == Failed ==> !ValidOutboxEvent(ToPort(c[id])))
  }

  ghost predicate Inv(w: World) {
    && DocumentsHold(w.outbox)
    && LeasesHold(w.outbox, w.state.claimedFor, w.state.finishes)
    && WorkersHold(w.outbox, w.state)
    && RecoveriesHold(w.state)
    && StreamHolds(w.outbox, w.state.stream)
  }

  // ----- One document replaced by a later state of the same message -------------------------------

  lemma ReplaceKeepsWorkers(c: Collection, s: State, d: OutboxDocument)
    requires WorkersHold(c, s) && d.id in c && SameMessage(c[d.id], d)
    requires d.leaseID == None || d.leaseID.value !in s.claimedFor
    ensures WorkersHold(c[d.id := d], s)
  {
    var c' := c[d.id := d];
    forall id | id in s.workers ensures WorkerHolds(c', s, s.workers[id]) {
      assert WorkerHolds(c, s, s.workers[id]);
    }
  }

  lemma ReplaceKeepsStream(c: Collection, stream: seq<StreamMessage>, d: OutboxDocument)
    requires DocumentsHold(c) && StreamHolds(c, stream) && d.id in c && SameMessage(c[d.id], d)
    requires d.status == Published && d.receipt.Some? ==>
      EntryAt(stream, d.receipt.value.sequence, EnvelopeOf(ToPort(d)))
    requires d.status == Failed ==> !ValidOutboxEvent(ToPort(d))
    ensures StreamHolds(c[d.id := d], stream)
  {
    assert EnvelopeOf(ToPort(c[d.id])) == EnvelopeOf(ToPort(d));
  }

  lemma ReplaceKeepsDocuments(c: Collection, d: OutboxDocument)
    requires DocumentsHold(c) && WellKept(d)
    ensures DocumentsHold(c[d.id := d])
  {
  }

  lemma ReleaseKeepsLeases(c: Collection, claimedFor: map<string, string>, finishes: seq<string>, d: OutboxDocument)
    requires LeasesHold(c, claimedFor, finishes) && d.leaseID == None
    ensures LeasesHold(c[d.id := d], claimedFor, finishes)
  {
  }

  lemma FinishKeepsLeases(c: Collection, claimedFor: map<string, string>, finishes: seq<string>, d: OutboxDocument)
    requires LeasesHold(c, claimedFor, finishes) && d.leaseID == None && d.id in c && c[d.id].leaseID.Some?
    ensures LeasesHold(c[d.id := d], claimedFor, finishes + [c[d.id].leaseID.value])
  {
    var lease := c[d.id].leaseID.value;
    forall l | l in finishes + [lease] ensures l in claimedFor {
      if l !in finishes { assert l == lease; }
    }
  }

  // ----- Every step keeps the invariant -------------------------------------------------------------

  lemma ClaimKeepsInv(w: World, id: nat, worker: string, lease: string, now: int, duration: int)
    requires Inv(w) && id !in w.state.workers && lease !in w.state.claimedFor
    ensures Inv(ClaimStep(w, id, worker, lease, now, duration))
  {
    var claimed := ClaimNextIn(w.outbox, worker, lease, now, duration);
    if claimed.Some? {
      var d, s, s' := claimed.value, w.state, ClaimStep(w, id, worker, lease, now, duration).state;
      var key := Ordering.Least(ClaimKeys(w.outbox, now));
      assert key in ClaimKeys(w.outbox, now);
      assert DocumentsHold(w.outbox) && d.id == key.2 && SameMessage(w.outbox[d.id], d) && WellKept(d) && d.status == Processing;
      ReplaceKeepsDocuments(w.outbox, d);
      ReplaceKeepsStream(w.outbox, s.stream, d);
      ReplaceKeepsWorkers(w.outbox, s, d);
      ClaimKeepsLeases(w.outbox, s.claimedFor, s.finishes, d, lease);
      ClaimKeepsWorkers(w.outbox[d.id := d], s, s', id, d, lease);
      ClaimKeepsRecoveries(s, s', lease);
    }
  }

  lemma ClaimKeepsLeases(c: Collection, claimedFor: map<string, string>, finishes: seq<string>, d: OutboxDocument, lease: string)
    requires LeasesHold(c, claimedFor, finishes) && d.leaseID == Some(lease) && lease !in claimedFor
    ensures LeasesHold(c[d.id := d], claimedFor[lease := d.id], finishes)
  {
  }

  lemma ClaimKeepsWorkers(c: Collection, s: State, s': State, id: nat, d: OutboxDocument, lease: string)
    requires WorkersHold(c, s) && d.id in c && c[d.id] == d && d.leaseID == Some(lease) && lease !in s.claimedFor
    requires s' == s.(workers := s.workers[id := Working(ToPort(d))], claimedFor := s.claimedFor[lease := d.id])
    ensures WorkersHold(c, s')
  {
    forall k | k in s'.workers ensures WorkerHolds(c, s', s'.workers[k]) {
      if k != id { assert WorkerHolds(c, s, s.workers[k]); }
    }
  }

  lemma ClaimKeepsRecoveries(s: State, s': State, lease: string)
    requires RecoveriesHold(s) && lease !in s.claimedFor && s'.recoveries == s.recoveries
    requires forall l :: l in s.claimedFor ==> l in s'.claimedFor && s'.claimedFor[l] == s.claimedFor[l]
    ensures RecoveriesHold(s')
  {
  }

  /** What a publication step changes. */
  lemma PublishChanges(s: State, id: nat, landing: Landing, acknowledged: bool)
    requires id in s.workers && s.workers[id].Working?
    ensures
      var s' := PublishStep(s, id, landing, acknowledged);
      && s'.claimedFor == s.claimedFor && s'.finishes == s.finishes && s'.recoveries == s.recoveries
      && id in s'.workers && (forall k :: k in s'.workers && k != id ==> k in s.workers && s'.workers[k] == s.workers[k])
      && (s'.stream == s.stream || s'.stream == s.stream + [Created(EnvelopeOf(s.workers[id].event))])
  {
    hide ValidOutboxEvent;
    hide EnvelopeOf;
  }

  lemma PublishKeepsInv(w: World, id: nat, landing: Landing, acknowledged: bool)
    requires Inv(w) && id in w.state.workers && w.state.workers[id].Working?
    ensures Inv(w.(state := PublishStep(w.state, id, landing, acknowledged)))
  {
    hide PublishStep;
    var s, s' := w.state, PublishStep(w.state, id, landing, acknowledged);
    var e := s.workers[id].event;
    assert WorkerHolds(w.outbox, s, s.workers[id]);
    assert EnvelopeOf(ToPort(w.outbox[e.id])) == EnvelopeOf(e);
    hide DocumentsHold;
    hide LeasesHold;
    hide WorkersHold;
    hide WorkerHolds;
    hide StreamHolds;
    hide EnvelopeOf;
    hide ToPort;
    PublishChanges(s, id, landing, acknowledged);
    PublishReportsTruly(w.outbox, s, id, landing, acknowledged);
    PublishKeepsWorkers(w.outbox, s, s', id);
    PublishKeepsStream(w.outbox, s.stream, s'.stream, e);
  }

  lemma PublishReportsTruly(c: Collection, s: State, id: nat, landing: Landing, acknowledged: bool)
    requires StreamHolds(c, s.stream) && id in s.workers && s.workers[id].Working? && WorkerHolds(c, s, s.workers[id])
    ensures WorkerHolds(c, PublishStep(s, id, landing, acknowledged), PublishStep(s, id, landing, acknowledged).workers[id])
  {
    assert EnvelopeOf(ToPort(c[s.workers[id].event.id])) == EnvelopeOf(s.workers[id].event);
  }

  lemma PublishKeepsWorkers(c: Collection, s: State, s': State, id: nat)
    requires WorkersHold(c, s) && id in s'.workers && WorkerHolds(c, s', s'.workers[id])
    requires s'.claimedFor == s.claimedFor && s.stream <= s'.stream
    requires forall k :: k in s'.workers && k != id ==> k in s.workers && s'.workers[k] == s.workers[k]
    ensures WorkersHold(c, s')
  {
    forall k | k in s'.workers ensures WorkerHolds(c, s', s'.workers[k]) {
      if k != id { assert WorkerHolds(c, s, s.workers[k]); }
    }
  }

  lemma PublishKeepsStream(c: Collection, stream: seq<StreamMessage>, stream': seq<StreamMessage>, e: OutboxEvent)
    requires StreamHolds(c, stream) && e.id in c && EnvelopeOf(ToPort(c[e.id])) == EnvelopeOf(e)
    requires stream' == stream || stream' == stream + [Created(EnvelopeOf(e))]
    ensures StreamHolds(c, stream')
  {
  }

  lemma LandKeepsInv(w: World, lease: string)
    requires Inv(w) && lease in w.state.claimedFor
    ensures Inv(LandStep(w, lease))
  {
    var s, s' := w.state, LandStep(w, lease).state;
    var id := s.claimedFor[lease];
    hide ValidOutboxEvent;
    hide EnvelopeOf;
    if s' != s {
      assert w.outbox[id].id == id;
      StreamGrowthKeepsWorkers(w.outbox, s, s');
      PublishKeepsStream(w.outbox, s.stream, s'.stream, ToPort(w.outbox[id]));
    }
  }

  lemma StreamGrowthKeepsWorkers(c: Collection, s: State, s': State)
    requires WorkersHold(c, s) && s' == s.(stream := s'.stream) && s.stream <= s'.stream
    ensures WorkersHold(c, s')
  {
    forall k | k in s'.workers ensures WorkerHolds(c, s', s'.workers[k]) {
      assert WorkerHolds(c, s, s.workers[k]);
    }
  }

  lemma FinishKeepsInv(w: World, id: nat, now: int, draw: nat)
    requires Inv(w) && id in w.state.workers && w.state.workers[id].Reported?
    ensures Inv(FinishStep(w, id, now, draw))
  {
    var s := w.state;
    var e := s.workers[id].event;
    var w' := FinishStep(w, id, now, draw);
    assert WorkerHolds(w.outbox, s, s.workers[id]);
    if w'.state.workers[id].updated {
      var f := FinishFor(e, s.workers[id].result, now, draw);
      var d := Finished(w.outbox[e.id], f);
      assert EnvelopeOf(ToPort(d)) == EnvelopeOf(e);
      FinishedIsWellKept(w.outbox[e.id], f);
      ReplaceKeepsDocuments(w.outbox, d);
      ReplaceKeepsStream(w.outbox, s.stream, d);
      ReplaceKeepsWorkers(w.outbox, s, d);
      FinishKeepsLeases(w.outbox, s.claimedFor, s.finishes, d);
    }
    ClosingKeepsWorkers(w'.outbox, s, w'.state, id);
  }

  lemma FinishedIsWellKept(d: OutboxDocument, f: Finish)
    requires WellKept(d) && d.status == Processing
    ensures WellKept(Finished(d, f)) && SameMessage(d, Finished(d, f))
  {
  }

  lemma ClosingKeepsWorkers(c: Collection, s: State, s': State, id: nat)
    requires WorkersHold(c, s) && id in s.workers && id in s'.workers && s'.workers[id].Closed?
    requires s'.workers == s.workers[id := Closed(s.workers[id].event, s'.workers[id].updated)]
    requires s'.stream == s.stream && s'.claimedFor == s.claimedFor
    ensures WorkersHold(c, s')
  {
    forall k | k in s'.workers ensures WorkerHolds(c, s', s'.workers[k]) {
      assert WorkerHolds(c, s, s.workers[k]);
    }
  }

  lemma RecoverKeepsInv(w: World, event: string, lease: string, now: int)
    requires Inv(w)
    ensures Inv(w.(outbox := RecoverOne(w.outbox, event, lease, now).0))
  {
    if RecoverOne(w.outbox, event, lease, now).1 {
      var d := Released(w.outbox[event]).(status := Pending);
      assert d.id == event && WellKept(d) && SameMessage(w.outbox[event], d);
      ReplaceKeepsDocuments(w.outbox, d);
      ReplaceKeepsStream(w.outbox, w.state.stream, d);
      ReplaceKeepsWorkers(w.outbox, w.state, d);
      ReleaseKeepsLeases(w.outbox, w.state.claimedFor, w.state.finishes, d);
    }
  }

  lemma FindKeepsInv(w: World, id: nat, now: int, limit: nat)
    requires Inv(w)
    ensures Inv(Step(w, Find(id, now, limit)))
  {
    var s, s' := w.state, Step(w, Find(id, now, limit)).state;
    forall k, i | k in s'.recoveries && 0 <= i < |s'.recoveries[k].observed|
      ensures s'.recoveries[k].observed[i].1 in s'.claimedFor
      ensures s'.claimedFor[s'.recoveries[k].observed[i].1] == s'.recoveries[k].observed[i].0
    {
      if k !in s.recoveries {
        var seen := s'.recoveries[k].observed[i];
        assert Recoverable(w.outbox[seen.0], now) && w.outbox[seen.0].leaseID.Some?;
      }
    }
    SameWorkers(w.outbox, s, s');
  }

  lemma SameWorkers(c: Collection, s: State, s': State)
    requires WorkersHold(c, s) && s'.stream == s.stream && s'.claimedFor == s.claimedFor
    requires forall k :: k in s'.workers ==> k in s.workers && s'.workers[k] == s.workers[k]
    ensures WorkersHold(c, s')
  {
    forall k | k in s'.workers ensures WorkerHolds(c, s', s'.workers[k]) {
      assert WorkerHolds(c, s, s.workers[k]);
    }
  }

  lemma InsertKeepsInv(w: World, d: OutboxDocument)
    requires Inv(w)
    ensures Inv(Step(w, Insert(d)))
  {
    if d.id !in w.outbox && NewDocument(d) {
      var c' := w.outbox[d.id := d];
      forall k | k in w.state.workers ensures WorkerHolds(c', w.state, w.state.workers[k]) {
        assert WorkerHolds(w.outbox, w.state, w.state.workers[k]);
      }
      InsertKeepsStream(w.outbox, w.state.stream, d);
    }
  }

  lemma InsertKeepsStream(c: Collection, stream: seq<StreamMessage>, d: OutboxDocument)
    requires StreamHolds(c, stream) && d.id !in c && d.status == Pending
    ensures StreamHolds(c[d.id := d], stream)
  {
  }

  lemma AppendKeepsInv(w: World, m: StreamMessage)
    requires Inv(w)
    ensures Inv(Step(w, Append(m)))
  {
    if m.FailureRecord? {
      StreamGrowthKeepsWorkers(w.outbox, w.state, w.state.(stream := w.state.stream + [m]));
    }
  }

  lemma StepKeepsInv(w: World, e: Event)
    requires Inv(w)
    ensures Inv(Step(w, e))
  {
    match e
    case Insert(d) => InsertKeepsInv(w, d);
    case Claim(id, worker, lease, now, duration) =>
      if id !in w.state.workers && lease !in w.state.claimedFor { ClaimKeepsInv(w, id, worker, lease, now, duration); }
    case Publish(id, landing, acknowledged) =>
      if id in w.state.workers && w.state.workers[id].Working? { PublishKeepsInv(w, id, landing, acknowledged); }
    case LateLanding(lease) => if lease in w.state.claimedFor { LandKeepsInv(w, lease); }
    case FinishLease(id, now, draw) =>
      if id in w.state.workers && w.state.workers[id].Reported? { FinishKeepsInv(w, id, now, draw); }
    case Crash(id) => SameWorkers(w.outbox, w.state, Step(w, e).state);
    case Find(id, now, limit) => FindKeepsInv(w, id, now, limit);
    case Recover(id, index) =>
      if id in w.state.recoveries && index < |w.state.recoveries[id].observed| {
        var (event, lease) := w.state.recoveries[id].observed[index];
        RecoverKeepsInv(w, event, lease, w.state.recoveries[id].now);
      }
    case Append(m) => AppendKeepsInv(w, m);
  }

  lemma {:induction false} RunKeepsInv(w: World, events: seq<Event>)
    requires Inv(w)
    ensures Inv(Run(w, events))
  {
    if events != [] {
      RunKeepsInv(w, events[..|events| - 1]);
      StepKeepsInv(Run(w, events[..|events| - 1]), events[|events| - 1]);
    }
  }

  // ----- Main results ------------------------------------------------------------------------------------

  /** Undelivered documents, and nothing started yet. */
  ghost predicate Initial(w: World) {
    && (forall id :: id in w.outbox ==> w.outbox[id].id == id && NewDocument(w.outbox[id]))
    && w.state == State([], map[], map[], map[], [])
  }

  lemma InitialInv(w: World)
    requires Initial(w)
    ensures Inv(w)
  {
  }

  /** Where an event can be, by its status. */
  predicate Accounted(d: OutboxDocument, stream: seq<StreamMessage>) {
    match d.status
    case Pending => d.leaseID == None
    case Processing => d.leaseID.Some?
    case Failed => !ValidOutboxEvent(ToPort(d))
    case Published => d.receipt.Some? && EntryAt(stream, d.receipt.value.sequence, EnvelopeOf(ToPort(d)))
  }

  /** No event is lost on the way to the stream: it waits, is being worked on, was
      rejected because it is invalid, or is published and its envelope is in the
      stream at the recorded place. And the stream holds nothing else. */
  lemma EventIsNeverLost(w: World, events: seq<Event>, id: string)
    requires Initial(w)
    ensures
      var end := Run(w, events);
      && (id in end.outbox ==> Accounted(end.outbox[id], end.state.stream))
      && (forall i :: 0 <= i < |end.state.stream| && end.state.stream[i].Created? ==>
            && end.state.stream[i].envelope.eventID in end.outbox
            && end.state.stream[i].envelope == EnvelopeOf(ToPort(end.outbox[end.state.stream[i].envelope.eventID])))
  {
    InitialInv(w);
    RunKeepsInv(w, events);
  }

  /** What a finishing update does in any run: nothing if the lease is lost; else the
      document ends as the publication's result says, an acknowledged one for good and
      at the place in the stream that was acknowledged. */
  lemma FinishSettles(w: World, events: seq<Event>, id: nat, now: int, draw: nat, after: seq<Event>)
    requires Initial(w) && now > 0
    requires var s := Run(w, events).state; id in s.workers && s.workers[id].Reported?
    ensures
      var before, end := Run(w, events), Step(Run(w, events), FinishLease(id, now, draw));
      var e, result := before.state.workers[id].event, before.state.workers[id].result;
      && e.id in before.outbox && e.id in end.outbox && id in end.state.workers
      && var held := Owned(before.outbox[e.id], e.leaseID);
      && end.state.workers[id] == Closed(e, held)
      && (!held ==> end.outbox == before.outbox)
      && (held ==>
            && end.outbox == before.outbox[e.id := end.outbox[e.id]]
            && EndsAs(before.outbox[e.id], end.outbox[e.id], before.outbox[e.id].attempts, result, now))
      && (held && result.Accepted? ==>
            && EntryAt(end.state.stream, result.receipt.sequence, EnvelopeOf(e))
            && e.id in Run(end, after).outbox && Run(end, after).outbox[e.id] == end.outbox[e.id])
  {
    InitialInv(w);
    RunKeepsInv(w, events);
    FinishSettlesIn(Run(w, events), id, now, draw, after);
  }

  lemma FinishSettlesIn(w: World, id: nat, now: int, draw: nat, after: seq<Event>)
    requires Inv(w) && now > 0 && id in w.state.workers && w.state.workers[id].Reported?
    ensures
      var end := FinishStep(w, id, now, draw);
      var e, result := w.state.workers[id].event, w.state.workers[id].result;
      && end == Step(w, FinishLease(id, now, draw))
      && e.id in w.outbox && e.id in end.outbox && id in end.state.workers
      && var held := Owned(w.outbox[e.id], e.leaseID);
      && end.state.workers[id] == Closed(e, held)
      && (!held ==> end.outbox == w.outbox)
      && (held ==>
            && end.outbox == w.outbox[e.id := end.outbox[e.id]]
            && EndsAs(w.outbox[e.id], end.outbox[e.id], w.outbox[e.id].attempts, result, now))
      && (held && result.Accepted? ==>
            && EntryAt(end.state.stream, result.receipt.sequence, EnvelopeOf(e))
            && e.id in Run(end, after).outbox && Run(end, after).outbox[e.id] == end.outbox[e.id])
  {
    var e, result := w.state.workers[id].event, w.state.workers[id].result;
    assert WorkerHolds(w.outbox, w.state, w.state.workers[id]);
    Text.NotBlank(STREAM);
    assert Storable(result);
    hide WorkerHolds;
    FinishEnds(w.outbox[e.id], e, result, now, draw);
    FinishKeepsInv(w, id, now, draw);
    var end := FinishStep(w, id, now, draw);
    assert result.Accepted? ==> Finished(w.outbox[e.id], FinishFor(e, result, now, draw)).status == Published;
    hide FinishFor;
    hide Finished;
    hide EndsAs;
    hide EnvelopeOf;
    hide Inv;
    if Owned(w.outbox[e.id], e.leaseID) && result.Accepted? {
      TerminalIsFinal(end, after, e.id);
    }
  }

  /** An attempt that nothing disturbs: if something is due, the first due event is
      claimed and its envelope is put at the end of the stream, where it is recorded
      as published; or, being invalid, it fails for good. */
  lemma UndisturbedAttemptPublishes(w: World, events: seq<Event>, id: nat, worker: string, lease: string, now: int, duration: int,
                                    later: int, draw: nat)
    requires Initial(w) && now > 0 && later > 0 && duration > 0 && !Text.Blank(worker) && !Text.Blank(lease)
    requires var s := Run(w, events).state; id !in s.workers && lease !in s.claimedFor
    requires exists x :: x in Run(w, events).outbox && Claimable(Run(w, events).outbox[x], now)
    ensures
      var before := Run(w, events);
      var claim := ClaimNextIn(before.outbox, worker, lease, now, duration);
      && claim.Some? && claim.value.id in before.outbox
      && var d := before.outbox[claim.value.id];
      && Claimable(d, now)
      && var claimed := Step(before, Claim(id, worker, lease, now, duration));
      && var end := Step(Step(claimed, Publish(id, Appended, true)), FinishLease(id, later, draw));
      && d.id in end.outbox && end.outbox == before.outbox[d.id := end.outbox[d.id]]
      && if ValidOutboxEvent(ToPort(d))
         then
           && end.state.stream == before.state.stream + [Created(EnvelopeOf(ToPort(d)))]
           && end.outbox[d.id].status == Published && end.outbox[d.id].receipt == Some(Receipt(STREAM, |end.state.stream|))
         else end.state.stream == before.state.stream && end.outbox[d.id].status == Failed
  {
    InitialInv(w);
    RunKeepsInv(w, events);
    var before := Run(w, events);
    ClaimTakesTheFirstDue(before.outbox, worker, lease, now, duration);
    ClaimKeepsInv(before, id, worker, lease, now, duration);
    var claimed := Step(before, Claim(id, worker, lease, now, duration));
    var d := claimed.outbox[ClaimNextIn(before.outbox, worker, lease, now, duration).value.id];
    hide ClaimNextIn;
    hide Run;
    PublishesWhatItHolds(before, claimed, id, d, lease, later, draw);
  }

  lemma PublishesWhatItHolds(before: World, claimed: World, id: nat, d: OutboxDocument, lease: string, later: int, draw: nat)
    requires Inv(claimed) && later > 0 && Owned(d, lease) && d.id in before.outbox && SameMessage(before.outbox[d.id], d)
    requires claimed.outbox == before.outbox[d.id := d] && claimed.state.stream == before.state.stream
    requires id in claimed.state.workers && claimed.state.workers[id] == Working(ToPort(d))
    ensures
      var was := before.outbox[d.id];
      var end := Step(Step(claimed, Publish(id, Appended, true)), FinishLease(id, later, draw));
      && d.id in end.outbox && end.outbox == before.outbox[d.id := end.outbox[d.id]]
      && if ValidOutboxEvent(ToPort(was))
         then
           && end.state.stream == before.state.stream + [Created(EnvelopeOf(ToPort(was)))]
           && end.outbox[d.id].status == Published && end.outbox[d.id].receipt == Some(Receipt(STREAM, |end.state.stream|))
         else end.state.stream == before.state.stream && end.outbox[d.id].status == Failed
  {
    PublishKeepsInv(claimed, id, Appended, true);
    PublishedReports(claimed, id, ToPort(d));
    SameMessageSameEnvelope(before.outbox[d.id], d);
    var published := Step(claimed, Publish(id, Appended, true));
    assert ToPort(d).id == d.id && ToPort(d).leaseID == lease;
    hide Inv;
    hide EnvelopeOf;
    hide ValidOutboxEvent;
    hide PublishStep;
    FinishSettlesIn(published, id, later, draw, []);
    hide Step;
    FinishKeepsStream(published, id, later, draw);
    hide FinishStep;
  }

  lemma FinishKeepsStream(w: World, id: nat, now: int, draw: nat)
    requires id in w.state.workers && w.state.workers[id].Reported?
    ensures FinishStep(w, id, now, draw).state.stream == w.state.stream
  {
    hide FinishFor;
    hide FinishIn;
  }

  lemma PublishedReports(claimed: World, id: nat, e: OutboxEvent)
    requires id in claimed.state.workers && claimed.state.workers[id] == Working(e)
    ensures
      var published := Step(claimed, Publish(id, Appended, true));
      && published.outbox == claimed.outbox && id in published.state.workers
      && published.state.stream == claimed.state.stream + (if ValidOutboxEvent(e) then [Created(EnvelopeOf(e))] else [])
      && published.state.workers[id]
         == Reported(e, if ValidOutboxEvent(e) then Accepted(Receipt(STREAM, |published.state.stream|)) else Invalid)
  {
    hide ValidOutboxEvent;
    hide EnvelopeOf;
  }

  lemma SameMessageSameEnvelope(a: OutboxDocument, b: OutboxDocument)
    requires SameMessage(a, b)
    ensures EnvelopeOf(ToPort(a)) == EnvelopeOf(ToPort(b)) && ValidOutboxEvent(ToPort(a)) == ValidOutboxEvent(ToPort(b))
  {
  }

  /** What one step can do to one stored document. */
  ghost predicate Moves(d: OutboxDocument, d': OutboxDocument, claimedFor: map<string, string>) {
    || d' == d
    || (d.status == Processing && d'.leaseID == None && d'.status != Processing && SameMessage(d, d'))
    || (d.status == Pending && d'.status == Processing && d'.leaseID.Some? && d'.leaseID.value !in claimedFor
        && d' == d.(status := Processing, lockedBy := d'.lockedBy, lockedUntil := d'.lockedUntil, leaseID := d'.leaseID))
  }

  lemma StepMoves(w: World, e: Event, id: string)
    requires Inv(w) && id in w.outbox
    ensures id in Step(w, e).outbox && Moves(w.outbox[id], Step(w, e).outbox[id], w.state.claimedFor)
    ensures forall l :: l in w.state.claimedFor ==> l in Step(w, e).state.claimedFor
  {
    hide WorkersHold;
    hide StreamHolds;
    hide RecoveriesHold;
    hide LeasesHold;
    hide ValidOutboxEvent;
    match e
    case Claim(n, worker, lease, now, duration) =>
      if ClaimKeys(w.outbox, now) != {} {
        var key := Ordering.Least(ClaimKeys(w.outbox, now));
        assert key in ClaimKeys(w.outbox, now);
      }
    case FinishLease(n, now, draw) =>
      if n in w.state.workers && w.state.workers[n].Reported? {
        var f := FinishFor(w.state.workers[n].event, w.state.workers[n].result, now, draw);
        if w.outbox[id].status == Processing { FinishedIsWellKept(w.outbox[id], f); }
      }
    case _ =>
  }

  /** A document that still carries a lease it once carried was not touched since. */
  lemma {:induction false} HeldLeaseMeansUntouched(w: World, events: seq<Event>, id: string, lease: string)
    requires Inv(w) && id in w.outbox && lease in w.state.claimedFor
    ensures var end := Run(w, events);
      && id in end.outbox && lease in end.state.claimedFor
      && (w.outbox[id].leaseID == Some(lease) ==> end.outbox[id] == w.outbox[id] || end.outbox[id].leaseID != Some(lease))
      && (w.outbox[id].leaseID != Some(lease) ==> end.outbox[id].leaseID != Some(lease))
  {
    if events != [] {
      HeldLeaseMeansUntouched(w, events[..|events| - 1], id, lease);
      RunKeepsInv(w, events[..|events| - 1]);
      StepMoves(Run(w, events[..|events| - 1]), events[|events| - 1], id);
    }
  }

  lemma StepKeepsRecovery(w: World, e: Event, r: nat)
    requires r in w.state.recoveries
    ensures r in Step(w, e).state.recoveries && Step(w, e).state.recoveries[r] == w.state.recoveries[r]
  {
    hide ValidOutboxEvent;
    hide EnvelopeOf;
    hide ClaimNextIn;
    hide FinishIn;
    hide RecoverOne;
  }

  lemma {:induction false} RecoveryKept(w: World, events: seq<Event>, r: nat)
    requires r in w.state.recoveries
    ensures r in Run(w, events).state.recoveries && Run(w, events).state.recoveries[r] == w.state.recoveries[r]
  {
    hide Step;
    if events != [] {
      RecoveryKept(w, events[..|events| - 1], r);
      StepKeepsRecovery(Run(w, events[..|events| - 1]), events[|events| - 1], r);
    }
  }

  /** Recovery is fenced: whatever happens between its find and one of its
      updates, the update changes a document only if it is exactly the document
      the find saw (same lease, same lock, expired then), and then only returns
      it to the queue: attempts and due time stay, and so does every other document. */
  lemma RecoveryIsFenced(w: World, before: seq<Event>, r: nat, now: int, limit: nat, between: seq<Event>, index: nat)
    requires Initial(w)
    requires r !in Run(w, before).state.recoveries
    requires index < |ObservedLeases(Run(w, before).outbox, now, limit)|
    ensures
      var found := Run(w, before);
      var (id, lease) := ObservedLeases(found.outbox, now, limit)[index];
      var later := Run(Step(found, Find(r, now, limit)), between);
      var after := Step(later, Recover(r, index));
      && id in found.outbox && id in later.outbox
      && found.outbox[id].leaseID == Some(lease) && LockExpired(found.outbox[id], now)
      && (after.outbox != later.outbox <==> later.outbox[id] == found.outbox[id])
      && (after.outbox != later.outbox ==>
            after.outbox == later.outbox[id := found.outbox[id].(status := Pending, lockedBy := None, lockedUntil := None, leaseID := None)])
  {
    InitialInv(w);
    RunKeepsInv(w, before);
    var found := Run(w, before);
    var start := Step(found, Find(r, now, limit));
    StepKeepsInv(found, Find(r, now, limit));
    var (id, lease) := ObservedLeases(found.outbox, now, limit)[index];
    ObservedLeaseWasHeld(found, now, limit, index);
    hide Inv;
    assert start.outbox == found.outbox && start.state.claimedFor == found.state.claimedFor;
    assert r in start.state.recoveries && start.state.recoveries[r] == Recovery(now, ObservedLeases(found.outbox, now, limit));
    HeldLeaseMeansUntouched(start, between, id, lease);
    RecoveryKept(start, between, r);
    RecoverStep(Run(start, between), r, index);
    hide Step;
    UntouchedIsRecovered(found.outbox[id], Run(start, between).outbox, id, lease, now);
  }

  lemma RecoverStep(w: World, r: nat, index: nat)
    requires r in w.state.recoveries && index < |w.state.recoveries[r].observed|
    ensures
      var (id, lease) := w.state.recoveries[r].observed[index];
      Step(w, Recover(r, index)).outbox == RecoverOne(w.outbox, id, lease, w.state.recoveries[r].now).0
  {
  }

  lemma ObservedLeaseWasHeld(w: World, now: int, limit: nat, index: nat)
    requires Inv(w) && index < |ObservedLeases(w.outbox, now, limit)|
    ensures var (id, lease) := ObservedLeases(w.outbox, now, limit)[index];
      id in w.outbox && w.outbox[id].leaseID == Some(lease) && LockExpired(w.outbox[id], now)
      && Recoverable(w.outbox[id], now) && lease in w.state.claimedFor
  {
    hide WorkersHold;
    hide StreamHolds;
    hide RecoveriesHold;
    var (id, lease) := ObservedLeases(w.outbox, now, limit)[index];
    assert WellKept(w.outbox[id]);
  }

  lemma UntouchedIsRecovered(d: OutboxDocument, c: Collection, id: string, lease: string, now: int)
    requires Recoverable(d, now) && d.leaseID == Some(lease)
    requires id in c && (c[id] == d || c[id].leaseID != Some(lease))
    ensures RecoverOne(c, id, lease, now).0 != c <==> c[id] == d
    ensures RecoverOne(c, id, lease, now).0 != c ==>
      RecoverOne(c, id, lease, now).0 == c[id := d.(status := Pending, lockedBy := None, lockedUntil := None, leaseID := None)]
  {
    if c[id] == d {
      assert RecoverOne(c, id, lease, now).0[id].status == Pending;
    }
  }

  /** A lease that was taken away (by a recovery or a finish) is dead: from then on
      every finishing call with it matches nothing. */
  lemma DeadLeaseFinishesNothing(w: World, before: seq<Event>, lease: string, events: seq<Event>, id: string, f: Finish)
    requires Initial(w)
    requires lease in Run(w, before).state.claimedFor
    requires var c := Run(w, before).outbox; id in c && c[id].leaseID != Some(lease)
    ensures var c := Run(Run(w, before), events).outbox; FinishIn(c, id, lease, f) == (c, false)
  {
    InitialInv(w);
    RunKeepsInv(w, before);
    HeldLeaseMeansUntouched(Run(w, before), events, id, lease);
  }

  /** Each lease is finished successfully at most once, and a finished document
      that reached a terminal status never changes again. */
  lemma LeaseFinishesAtMostOnce(w: World, before: seq<Event>, events: seq<Event>, id: string)
    requires Initial(w)
    ensures NoRepeats(Run(w, before).state.finishes)
    ensures
      var c := Run(w, before).outbox;
      id in c && (c[id].status == Published || c[id].status == Failed) ==>
        id in Run(Run(w, before), events).outbox && Run(Run(w, before), events).outbox[id] == c[id]
  {
    InitialInv(w);
    RunKeepsInv(w, before);
    var c := Run(w, before).outbox;
    if id in c && (c[id].status == Published || c[id].status == Failed) {
      TerminalIsFinal(Run(w, before), events, id);
    }
  }

  lemma {:induction false} TerminalIsFinal(w: World, events: seq<Event>, id: string)
    requires Inv(w) && id in w.outbox && (w.outbox[id].status == Published || w.outbox[id].status == Failed)
    ensures id in Run(w, events).outbox && Run(w, events).outbox[id] == w.outbox[id]
  {
    if events != [] {
      TerminalIsFinal(w, events[..|events| - 1], id);
      RunKeepsInv(w, events[..|events| - 1]);
      StepMoves(Run(w, events[..|events| - 1]), events[|events| - 1], id);
    }
  }

  // ----- Events nobody has finished yet -------------------------------------------------------------

  /** Some finishing update has succeeded for the event. */
  ghost predicate HasFinished(s: State, id: string) {
    exists l :: l in s.finishes && l in s.claimedFor && s.claimedFor[l] == id
  }

  /** As inserted, but for a lease: unattempted, and due since its message was created. */
  predicate Unattempted(d: OutboxDocument) {
    && d.attempts == 0 && d.nextAttemptAt == d.payload.createdAt && d.publishedAt == None
    && (d.status == Pending || (d.status == Processing && d.leaseID.Some?))
  }

  lemma StepKeepsUnattempted(w: World, e: Event, id: string)
    requires Inv(w) && id in w.outbox && (HasFinished(w.state, id) || Unattempted(w.outbox[id]))
    ensures id in Step(w, e).outbox && (HasFinished(Step(w, e).state, id) || Unattempted(Step(w, e).outbox[id]))
  {
    StepMoves(w, e, id);
    if e.FinishLease? && e.id in w.state.workers && w.state.workers[e.id].Reported? {
      FinishingIsRecorded(w, e.id, e.now, e.draw, id);
    } else {
      StepKeepsFinishes(w, e);
      if !HasFinished(w.state, id) {
        UnfinishedStays(w, e, id);
      }
    }
  }

  lemma FinishingIsRecorded(w: World, n: nat, now: int, draw: nat, id: string)
    requires Inv(w) && id in w.outbox && (HasFinished(w.state, id) || Unattempted(w.outbox[id]))
    requires n in w.state.workers && w.state.workers[n].Reported?
    ensures var w' := FinishStep(w, n, now, draw); id in w'.outbox && (HasFinished(w'.state, id) || Unattempted(w'.outbox[id]))
  {
    var e, s, s' := w.state.workers[n].event, w.state, FinishStep(w, n, now, draw).state;
    assert WorkerHolds(w.outbox, s, s.workers[n]);
    hide FinishFor;
    hide Inv;
    if s'.finishes != s.finishes {
      assert s'.finishes == s.finishes + [e.leaseID];
      assert e.leaseID in s'.finishes;
    }
    if HasFinished(s, id) {
      var l :| l in s.finishes && l in s.claimedFor && s.claimedFor[l] == id;
      assert l in s'.finishes;
    }
  }

  lemma StepKeepsFinishes(w: World, e: Event)
    requires LeasesHold(w.outbox, w.state.claimedFor, w.state.finishes)
    requires !(e.FinishLease? && e.id in w.state.workers && w.state.workers[e.id].Reported?)
    ensures
      var s, s' := w.state, Step(w, e).state;
      s'.finishes == s.finishes && forall l :: l in s.claimedFor ==> l in s'.claimedFor && s'.claimedFor[l] == s.claimedFor[l]
  {
    hide ValidOutboxEvent;
    hide EnvelopeOf;
  }

  lemma UnfinishedStays(w: World, e: Event, id: string)
    requires Inv(w) && id in w.outbox && Unattempted(w.outbox[id])
    requires !(e.FinishLease? && e.id in w.state.workers && w.state.workers[e.id].Reported?)
    ensures id in Step(w, e).outbox && Unattempted(Step(w, e).outbox[id])
  {
    hide WorkersHold;
    hide StreamHolds;
    hide RecoveriesHold;
    hide LeasesHold;
    hide ValidOutboxEvent;
    hide EnvelopeOf;
    if e.Claim? && ClaimKeys(w.outbox, e.now) != {} {
      var key := Ordering.Least(ClaimKeys(w.outbox, e.now));
      assert key in ClaimKeys(w.outbox, e.now);
    }
  }

  // ----- What may be in the stream --------------------------------------------------------------

  /** A complete message of a chat. */
  predicate Complete(e: Envelope) {
    && e.eventType == "chat.message.created.v1" && e.aggregateType == "CHAT" && e.aggregateID == e.payload.chatID
    && !Text.Blank(e.eventID) && !Text.Blank(e.payload.chatID) && !Text.Blank(e.payload.messageID) && !Text.Blank(e.payload.senderID)
    && 0 < e.payload.sequence <= 9_007_199_254_740_991 && e.occurredAt == e.payload.createdAt != 0
    && ValidContent(e.payload.content)
  }

  ghost predicate AllComplete(stream: seq<StreamMessage>) {
    forall i :: 0 <= i < |stream| && stream[i].Created? ==> Complete(stream[i].envelope)
  }

  lemma StepKeepsComplete(w: World, e: Event)
    requires AllComplete(w.state.stream)
    ensures AllComplete(Step(w, e).state.stream)
  {
    hide Text.Blank;
    hide ClaimNextIn;
    hide RecoverOne;
    hide ObservedLeases;
    hide FinishIn;
  }

  /** Nothing but complete messages is ever published, whatever the outbox holds. */
  lemma {:induction false} OnlyCompleteMessagesArePublished(w: World, events: seq<Event>)
    requires Initial(w)
    ensures AllComplete(Run(w, events).state.stream)
  {
    if events != [] {
      OnlyCompleteMessagesArePublished(w, events[..|events| - 1]);
      StepKeepsComplete(Run(w, events[..|events| - 1]), events[|events| - 1]);
    }
  }
}
