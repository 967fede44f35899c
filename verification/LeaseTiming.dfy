// The timing of one outbox document's leases: when the claim, publish and finish
// timeouts guarantee that a worker finishes before its lock can be recovered.

module LeaseTiming {
  import opened Common
  import opened Documents
  import opened Outbox
  import opened Instants
  import Relay

  /** The publisher's durations, with a bound on how long a claim call may take. */
  datatype Config = Config(claim: int, publish: int, finish: int, lease: int)

  /** NewPublishOne's check. */
  predicate Accepted(k: Config) {
    k.claim >= 0 && Relay.ValidTimeouts(k.lease, k.publish, k.finish)
  }

  /** How long a claim's lock has to last, from the clock reading: to the end of the
      publication, or on to the end of the finishing update. */
  function Horizon(k: Config, finishing: bool): int {
    k.claim + k.publish + if finishing then k.finish else 0
  }

  datatype Worker =
    | Claiming(readAt: int)
    | Publishing(lease: string, readAt: int, since: int)
    | Finishing(lease: string, readAt: int, since: int)
    | Ended(updated: bool)

  datatype Recovery = Recovery(readAt: int, lease: string)

  /** `issued` remembers which worker each lease went to. */
  datatype World = World(document: OutboxDocument, clock: int, workers: map<nat, Worker>,
                         recoveries: map<nat, Recovery>, issued: map<string, nat>)

  datatype Event =
    | Tick(to: int)
    | ReadClock(id: nat)
    | Claim(id: nat, worker: string, lease: string)
    | EndPublish(id: nat)
    | Finish(id: nat, f: Outbox.Finish)
    | Crash(id: nat)
    | Find(id: nat, readAt: int)
    | Recover(id: nat)

  /** Each call lands within its timeout, measured from where it starts; a call
      that would be late does not happen. Leases are fresh. */
  function Step(k: Config, w: World, e: Event): World {
    match e
    case Tick(to) => if w.clock <= to then w.(clock := to) else w
    case ReadClock(id) => if id in w.workers then w else w.(workers := w.workers[id := Claiming(w.clock)])
    case Claim(id, worker, lease) =>
      if id in w.workers && w.workers[id].Claiming? && w.clock <= w.workers[id].readAt + k.claim
         && lease !in w.issued && Claimable(w.document, w.workers[id].readAt)
      then
        var readAt := w.workers[id].readAt;
        w.(document := Claimed(w.document, worker, lease, readAt, k.lease),
           workers := w.workers[id := Publishing(lease, readAt, w.clock)], issued := w.issued[lease := id])
      else w
    case EndPublish(id) =>
      if id in w.workers && w.workers[id].Publishing? && w.clock <= w.workers[id].since + k.publish
      then w.(workers := w.workers[id := Finishing(w.workers[id].lease, w.workers[id].readAt, w.clock)])
      else w
    case Finish(id, f) =>
      if id in w.workers && w.workers[id].Finishing? && w.clock <= w.workers[id].since + k.finish
      then
        var owned := Owned(w.document, w.workers[id].lease);
        w.(document := if owned then Finished(w.document, f) else w.document, workers := w.workers[id := Ended(owned)])
      else w
    case Crash(id) => w.(workers := w.workers - {id})
    case Find(id, readAt) =>
      if id !in w.recoveries && readAt <= w.clock && Recoverable(w.document, readAt)
      then w.(recoveries := w.recoveries[id := Recovery(readAt, ToPort(w.document).leaseID)])
      else w
    case Recover(id) =>
      if id in w.recoveries && Owned(w.document, w.recoveries[id].lease) && LockExpired(w.document, w.recoveries[id].readAt)
      then w.(document := Released(w.document).(status := Pending), recoveries := w.recoveries - {id})
      else w
  }

  function Run(k: Config, w: World, events: seq<Event>): World {
    if events == [] then w else Step(k, Run(k, w, events[..|events| - 1]), events[|events| - 1])
  }

  function Start(d: OutboxDocument): World {
    World(d, 0, map[], map[], map[])
  }

  /** A worker whose publish call is running. */
  predicate PublishesNow(k: Config, w: World, id: nat) {
    id in w.workers && w.workers[id].Publishing? && w.clock <= w.workers[id].since + k.publish
  }

  // ----- Safe configurations -----------------------------------------------------

  /** A worker in a phase that its lock has to cover. */
  predicate Covered(x: Worker, finishing: bool) {
    x.Publishing? || (finishing && x.Finishing?)
  }

  /** Before its horizon the worker owns the document, locked from its own claim. */
  predicate HoldsLock(k: Config, w: World, id: nat, finishing: bool)
    requires id in w.workers && Covered(w.workers[id], finishing)
  {
    var x := w.workers[id];
    && x.since <= x.readAt + k.claim + (if x.Finishing? then k.publish else 0)
    && (w.clock <= x.readAt + Horizon(k, finishing) ==>
          Owned(w.document, x.lease) && w.document.lockedUntil == Some(Stored(x.readAt + k.lease)))
  }

  ghost predicate Inv(k: Config, w: World, finishing: bool) {
    && (forall id :: id in w.workers && w.workers[id].Claiming? ==> w.workers[id].readAt <= w.clock)
    && (forall id :: id in w.workers && (w.workers[id].Publishing? || w.workers[id].Finishing?) ==>
          w.workers[id].lease in w.issued && w.issued[w.workers[id].lease] == id)
    && (forall id :: id in w.workers && Covered(w.workers[id], finishing) ==> HoldsLock(k, w, id, finishing))
    && (finishing ==> forall id :: id in w.workers && w.workers[id].Ended? ==> w.workers[id].updated)
    && (forall r :: r in w.recoveries ==> w.recoveries[r].readAt <= w.clock)
    && Relay.WellKept(w.document)
    && (w.document.leaseID.Some? ==> w.document.leaseID.value in w.issued)
  }

  /** The clock, a clock reading, a crash, a find or the end of a publication. */
  lemma WaitingKeepsInv(k: Config, w: World, e: Event, finishing: bool)
    requires Accepted(k) && Horizon(k, finishing) + MILLISECOND <= k.lease && Inv(k, w, finishing)
    requires e.Tick? || e.ReadClock? || e.Crash? || e.Find? || e.EndPublish?
    ensures Inv(k, Step(k, w, e), finishing)
  {
    hide Relay.WellKept;
    hide Recoverable;
    var w' := Step(k, w, e);
    forall id | id in w'.workers && Covered(w'.workers[id], finishing)
      ensures HoldsLock(k, w', id, finishing)
    {
      assert HoldsLock(k, w, id, finishing);
    }
  }

  lemma ClaimKeepsInv(k: Config, w: World, e: Event, finishing: bool)
    requires Accepted(k) && Horizon(k, finishing) + MILLISECOND <= k.lease && Inv(k, w, finishing) && e.Claim?
    ensures Inv(k, Step(k, w, e), finishing)
  {
    var w' := Step(k, w, e);
    forall id | id in w'.workers && Covered(w'.workers[id], finishing)
      ensures HoldsLock(k, w', id, finishing)
    {
      if id != e.id { assert HoldsLock(k, w, id, finishing); }
    }
  }

  lemma UpdateKeepsInv(k: Config, w: World, e: Event, finishing: bool)
    requires Accepted(k) && Horizon(k, finishing) + MILLISECOND <= k.lease && Inv(k, w, finishing) && (e.Finish? || e.Recover?)
    ensures Inv(k, Step(k, w, e), finishing)
  {
    var w' := Step(k, w, e);
    if finishing && e.Finish? && e.id in w.workers && w.workers[e.id].Finishing? {
      assert HoldsLock(k, w, e.id, finishing);
    }
    forall id | id in w'.workers && Covered(w'.workers[id], finishing)
      ensures HoldsLock(k, w', id, finishing)
    {
      assert HoldsLock(k, w, id, finishing);
    }
  }

  lemma StepKeepsInv(k: Config, w: World, e: Event, finishing: bool)
    requires Accepted(k) && Horizon(k, finishing) + MILLISECOND <= k.lease && Inv(k, w, finishing)
    ensures Inv(k, Step(k, w, e), finishing)
  {
    hide Inv;
    hide Step;
    if e.Claim? {
      ClaimKeepsInv(k, w, e, finishing);
    } else if e.Finish? || e.Recover? {
      UpdateKeepsInv(k, w, e, finishing);
    } else {
      WaitingKeepsInv(k, w, e, finishing);
    }
  }

  lemma {:induction false} RunKeepsInv(k: Config, w: World, events: seq<Event>, finishing: bool)
    requires Accepted(k) && Horizon(k, finishing) + MILLISECOND <= k.lease && Inv(k, w, finishing)
    ensures Inv(k, Run(k, w, events), finishing)
  {
    if events != [] {
      RunKeepsInv(k, w, events[..|events| - 1], finishing);
      StepKeepsInv(k, Run(k, w, events[..|events| - 1]), events[|events| - 1], finishing);
    }
  }

  // ----- Main results --------------------------------------------------------------

  /** Two workers whose publish calls are running at the same time. */
  ghost predicate CanPublishTwice(k: Config) {
    exists d: OutboxDocument, events: seq<Event>, i: nat, j: nat {:trigger Clashes(k, d, events, i, j)} :: Clashes(k, d, events, i, j)
  }

  predicate Clashes(k: Config, d: OutboxDocument, events: seq<Event>, i: nat, j: nat) {
    && Relay.NewDocument(d) && i != j
    && var w := Run(k, Start(d), events);
    PublishesNow(k, w, i) && PublishesNow(k, w, j)
  }

  /** No two workers ever publish at once exactly when the claim call and the
      publication fit into the lease with one millisecond to spare. The finish
      timeout plays no part in it. */
  lemma PublishersExcludeEachOther(k: Config)
    requires Accepted(k)
    ensures !CanPublishTwice(k) <==> k.claim + k.publish + MILLISECOND <= k.lease
  {
    if k.claim + k.publish + MILLISECOND <= k.lease {
      forall d: OutboxDocument, events: seq<Event>, i: nat, j: nat {:trigger Clashes(k, d, events, i, j)}
        ensures !Clashes(k, d, events, i, j)
      {
        if Clashes(k, d, events, i, j) {
          RunKeepsInv(k, Start(d), events, false);
          OwnersAreOne(k, Run(k, Start(d), events), i, j);
        }
      }
    } else {
      ClashingRun(k);
    }
  }

  lemma OwnersAreOne(k: Config, w: World, i: nat, j: nat)
    requires Inv(k, w, false) && PublishesNow(k, w, i) && PublishesNow(k, w, j)
    ensures i == j
  {
    assert HoldsLock(k, w, i, false) && HoldsLock(k, w, j, false);
  }

  /** A finishing update that comes within its timeout and yet finds the lease lost. */
  ghost predicate CanLoseLease(k: Config) {
    exists d: OutboxDocument, events: seq<Event>, id: nat {:trigger Loses(k, d, events, id)} :: Loses(k, d, events, id)
  }

  predicate Loses(k: Config, d: OutboxDocument, events: seq<Event>, id: nat) {
    && Relay.NewDocument(d)
    && var w := Run(k, Start(d), events);
    id in w.workers && w.workers[id] == Ended(false)
  }

  /** The publisher's own check (a lease longer than publish plus finish) is not
      enough even with an instant claim call: because the stored lock is rounded
      down to a millisecond, a worker's lease is safe exactly when its whole span
      fits into the lease with one millisecond to spare. */
  lemma LeaseIsSafeIffAMillisecondIsLeft(k: Config)
    requires Accepted(k)
    ensures !CanLoseLease(k) <==> k.claim + k.publish + k.finish + MILLISECOND <= k.lease
  {
    if k.claim + k.publish + k.finish + MILLISECOND <= k.lease {
      forall d: OutboxDocument, events: seq<Event>, id: nat {:trigger Loses(k, d, events, id)} ensures !Loses(k, d, events, id) {
        if Relay.NewDocument(d) {
          RunKeepsInv(k, Start(d), events, true);
        }
      }
    } else {
      LosingRun(k);
    }
  }

  ghost predicate Reached(k: Config, d: OutboxDocument, w: World) {
    exists events :: Run(k, Start(d), events) == w
  }

  lemma ReachedNext(k: Config, d: OutboxDocument, w: World, e: Event)
    requires Reached(k, d, w)
    ensures Reached(k, d, Step(k, w, e))
  {
    var events :| Run(k, Start(d), events) == w;
    assert (events + [e])[..|events|] == events;
    assert Run(k, Start(d), events + [e]) == Step(k, w, e);
  }

  /** The four instants of a run in which the lock, rounded down, expires no later
      than the finish: the claim's clock reading, its landing, the end of the
      publication and the end of the finish. */
  predicate LosingInstants(k: Config, read: int, landed: int, published: int, end: int) {
    && 0 <= read <= landed <= read + k.claim
    && landed <= published <= landed + k.publish
    && published <= end <= published + k.finish
    && Stored(read + k.lease) <= Stored(end)
  }

  lemma LosingInstantsExist(k: Config) returns (read: int, landed: int, published: int, end: int)
    requires Accepted(k) && k.claim + k.publish + k.finish + MILLISECOND > k.lease
    ensures LosingInstants(k, read, landed, published, end)
  {
    var lockEnd := Stored(k.lease) + MILLISECOND;
    read := lockEnd + (MILLISECOND - 1) - k.lease;    // the lock would end a nanosecond before the next millisecond
    end := if read < lockEnd then lockEnd else read;
    landed := if read + k.claim < end then read + k.claim else end;
    published := if landed + k.publish < end then landed + k.publish else end;
  }

  /** A new message event, due at once. */
  function NewEvent(): OutboxDocument {
    OutboxDocument("e", AGGREGATE_CHAT, "c", MESSAGE_CREATED, SomePayload(), Pending, 0, 0,
                   None, None, None, None, None, None, None, 0)
  }

  lemma LosingRun(k: Config)
    requires Accepted(k) && k.claim + k.publish + k.finish + MILLISECOND > k.lease
    ensures CanLoseLease(k)
  {
    var d := NewEvent();
    var read, landed, published, end := LosingInstantsExist(k);
    ReachClaim(k, d, read, landed);
    ReachFinishing(k, d, read, landed, published);
    ReachLoss(k, d, read, landed, published, end);
  }

  function AfterClaim(k: Config, d: OutboxDocument, read: int, landed: int): World {
    World(Claimed(d, "w", "l", read, k.lease), landed, map[0 := Publishing("l", read, landed)], map[], map["l" := 0])
  }

  lemma ReachClaim(k: Config, d: OutboxDocument, read: int, landed: int)
    requires 0 <= read <= landed <= read + k.claim && Claimable(d, read)
    ensures Reached(k, d, AfterClaim(k, d, read, landed))
  {
    assert Run(k, Start(d), []) == Start(d);
    ReachedNext(k, d, Start(d), Tick(read));
    var w1 := World(d, read, map[], map[], map[]);
    ReachedNext(k, d, w1, ReadClock(0));
    var w2 := World(d, read, map[0 := Claiming(read)], map[], map[]);
    ReachedNext(k, d, w2, Tick(landed));
    ReachedNext(k, d, w2.(clock := landed), Claim(0, "w", "l"));
    assert map[0 := Claiming(read)][0 := Publishing("l", read, landed)] == map[0 := Publishing("l", read, landed)];
  }

  function AfterPublish(k: Config, d: OutboxDocument, read: int, landed: int, published: int): World {
    AfterClaim(k, d, read, landed).(clock := published, workers := map[0 := Finishing("l", read, published)])
  }

  lemma ReachFinishing(k: Config, d: OutboxDocument, read: int, landed: int, published: int)
    requires landed <= published <= landed + k.publish && Reached(k, d, AfterClaim(k, d, read, landed))
    ensures Reached(k, d, AfterPublish(k, d, read, landed, published))
  {
    var w := AfterClaim(k, d, read, landed);
    ReachedNext(k, d, w, Tick(published));
    ReachedNext(k, d, w.(clock := published), EndPublish(0));
    assert w.workers[0 := Finishing("l", read, published)] == map[0 := Finishing("l", read, published)];
  }

  lemma ReachLoss(k: Config, d: OutboxDocument, read: int, landed: int, published: int, end: int)
    requires LosingInstants(k, read, landed, published, end) && Relay.NewDocument(d)
    requires Reached(k, d, AfterPublish(k, d, read, landed, published))
    ensures CanLoseLease(k)
  {
    var w := AfterPublish(k, d, read, landed, published);
    ReachedNext(k, d, w, Tick(end));
    var w1 := w.(clock := end);
    ReachedNext(k, d, w1, Find(0, end));
    var w2 := w1.(recoveries := map[0 := Recovery(end, "l")]);
    ReachedNext(k, d, w2, Recover(0));
    var w3 := Step(k, w2, Recover(0));
    assert w3.workers == w2.workers && w3.document.status == Pending;
    ReachedNext(k, d, w3, Finish(0, AsRetry(1, "e")));
    var w4 := Step(k, w3, Finish(0, AsRetry(1, "e")));
    var events :| Run(k, Start(d), events) == w4;
    assert Loses(k, d, events, 0);
  }

  /** The instants of a run in which the lock expires while its worker may still publish. */
  predicate ClashingInstants(k: Config, read: int, landed: int, end: int) {
    && 0 <= read <= landed <= read + k.claim
    && landed <= end <= landed + k.publish
    && Stored(read + k.lease) <= Stored(end)
  }

  lemma ClashingInstantsExist(k: Config) returns (read: int, landed: int, end: int)
    requires Accepted(k) && k.claim + k.publish + MILLISECOND > k.lease
    ensures ClashingInstants(k, read, landed, end)
  {
    var lockEnd := Stored(k.lease) + MILLISECOND;
    read := lockEnd + (MILLISECOND - 1) - k.lease;
    end := if read < lockEnd then lockEnd else read;
    landed := if read + k.claim < end then read + k.claim else end;
  }

  /** The lock is recovered at the last instant of a publication, and a second
      worker claims the event there. */
  lemma ClashingRun(k: Config)
    requires Accepted(k) && k.claim + k.publish + MILLISECOND > k.lease
    ensures CanPublishTwice(k)
  {
    var d := NewEvent();
    var read, landed, end := ClashingInstantsExist(k);
    ReachClaim(k, d, read, landed);
    ReachRecovery(k, d, read, landed, end);
    ReachClash(k, d, read, landed, end);
  }

  function AfterRecovery(k: Config, d: OutboxDocument, read: int, landed: int, end: int): World {
    var w := AfterClaim(k, d, read, landed);
    w.(clock := end, document := Released(w.document).(status := Pending))
  }

  lemma ReachRecovery(k: Config, d: OutboxDocument, read: int, landed: int, end: int)
    requires ClashingInstants(k, read, landed, end) && Relay.NewDocument(d)
    requires Reached(k, d, AfterClaim(k, d, read, landed))
    ensures Reached(k, d, AfterRecovery(k, d, read, landed, end))
  {
    var w := AfterClaim(k, d, read, landed);
    ReachedNext(k, d, w, Tick(end));
    var w1 := w.(clock := end);
    ReachedNext(k, d, w1, Find(0, end));
    var w2 := w1.(recoveries := map[0 := Recovery(end, "l")]);
    ReachedNext(k, d, w2, Recover(0));
    assert w2.recoveries - {0} == map[];
  }

  lemma ReachClash(k: Config, d: OutboxDocument, read: int, landed: int, end: int)
    requires Accepted(k) && ClashingInstants(k, read, landed, end) && Relay.NewDocument(d) && d.nextAttemptAt <= 0
    requires Reached(k, d, AfterRecovery(k, d, read, landed, end))
    ensures CanPublishTwice(k)
  {
    var w := AfterRecovery(k, d, read, landed, end);
    ReachedNext(k, d, w, ReadClock(1));
    var w1 := Step(k, w, ReadClock(1));
    assert w1.workers[1] == Claiming(end) && Claimable(w1.document, end) && "v" !in w1.issued;
    ReachedNext(k, d, w1, Claim(1, "w", "v"));
    var w2 := Step(k, w1, Claim(1, "w", "v"));
    assert PublishesNow(k, w2, 0) && PublishesNow(k, w2, 1);
    var events :| Run(k, Start(d), events) == w2;
    assert Clashes(k, d, events, 0, 1);
  }

  function SomePayload(): Payload {
    Payload("m", "", "c", 1, "u", Timeline.Content(Timeline.TEXT, "x", "", ""), 1)
  }
}
