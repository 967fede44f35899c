// When a deleted image record can be trusted: exactly when late puts and long
// cleanup runs fit the grace period.

module ImageGrace {
  import opened Common
  import opened Documents
  import opened Instants
  import opened ImageRepository
  import opened ImageLife

  predicate Leaves(k: Limits, events: seq<Event>, id: string) {
    var s := Run(k, Start(), events);
    id in s.db.images && s.db.images[id].status == Deleted && ObjectKey(id) in s.objects
  }

  /** Some run ends with a record marked deleted whose object is still stored. */
  ghost predicate CanLeaveBytes(k: Limits) {
    exists events, id :: Leaves(k, events, id)
  }

  /** Deleted means deleted exactly for the safe limits: puts and cleanup runs
      together within the grace period, or puts over within one lease and cleanup
      runs at least a millisecond shorter than the grace period. */
  lemma DeletedIsTrueIffSafe(k: Limits)
    requires k.put > 0 && k.cleanup >= 0
    ensures !CanLeaveBytes(k) <==> Safe(k)
  {
    if Safe(k) {
      forall events, id ensures !Leaves(k, events, id) {
        if Leaves(k, events, id) {
          DeletedMeansNoBytes(k, events, id);
        }
      }
    } else {
      var offset := if k.cleanup + MILLISECOND > DELETION_GRACE
                    then (if k.cleanup >= DELETION_GRACE then 0 else DELETION_GRACE - k.cleanup)
                    else if DELETION_GRACE - k.cleanup > UPLOAD_LEASE then DELETION_GRACE - k.cleanup else UPLOAD_LEASE;
      assert offset < k.put && offset + k.cleanup >= DELETION_GRACE && (0 <= offset < MILLISECOND || offset >= UPLOAD_LEASE);
      var c := Candidate("i", "u", "c", "k", "sum", 1);
      assert "0"[0] != "1"[0];
      ReachTrying(k, c, "0", "1");
      ReachLapsed(k, c, "0", "1");
      ReachClaimed(k, c, "0", "1", offset);
      ReachRemains(k, c, "0", "1", offset);
    }
  }

  ghost predicate Reached(k: Limits, s: State) {
    exists events :: Run(k, Start(), events) == s
  }

  lemma ReachedNext(k: Limits, s: State, e: Event)
    requires Reached(k, s)
    ensures Reached(k, Step(k, s, e))
  {
    var events :| Run(k, Start(), events) == s;
    assert (events + [e])[..|events|] == events;
    assert Run(k, Start(), events + [e]) == Step(k, s, e);
  }

  // ----- The run that leaves bytes behind ---------------------------------------------

  /** The image's expiry; the second upload reserves a nanosecond before it. */
  const EXPIRY: int := ABANDON_AFTER

  const GIVEN_UP := Closing(Err(StorageFailed))
  const OVER := Over(Err(StorageFailed))

  function LateLease(c: Candidate, t1: string): Lease {
    Lease(c.id, t1, c.checksum, EXPIRY - 1)
  }

  /** The image once nobody holds its lease. */
  function FreeImage(c: Candidate, t0: string): ImageDocument {
    NewImage(c, t0, 0).(lockedUntil := 0, uploadToken := None)
  }

  function FirstUpload(c: Candidate, t0: string, phase: Phase): Upload {
    Holding(Lease(c.id, t0, c.checksum, 0), phase, false)
  }

  /** The only image's document, with the calls so far. */
  function World(c: Candidate, d: ImageDocument, clock: int, uploads: map<nat, Upload>, tokens: map<string, nat>): State {
    State(Collection(map[c.id := d], map[(c.uploadedBy, c.clientUploadID) := c.id]), map[], clock, uploads, tokens, map[], {})
  }

  /** The second upload's call, once its first has given up. */
  function SecondCall(c: Candidate, t0: string, t1: string, d: ImageDocument, u: Upload): State {
    World(c, d, EXPIRY - 1, map[0 := FirstUpload(c, t0, OVER), 1 := u], map[t0 := 0, t1 := 1])
  }

  lemma ReachFirst(k: Limits, c: Candidate, t0: string)
    ensures Reached(k, World(c, FreeImage(c, t0), 0, map[0 := FirstUpload(c, t0, OVER)], map[t0 := 0]))
  {
    assert Run(k, Start(), []) == Start();
    ReachedNext(k, Start(), Begin(0, c, t0, 0));
    var d := NewImage(c, t0, 0);
    var s1 := World(c, d, 0, map[0 := FirstUpload(c, t0, Putting)], map[t0 := 0]);
    ReachedNext(k, s1, PutReturns(0, false));
    var s2 := s1.(uploads := map[0 := FirstUpload(c, t0, GIVEN_UP)]);
    assert s1.uploads[0 := FirstUpload(c, t0, GIVEN_UP)] == s2.uploads;
    ReachedNext(k, s2, Release(0));
    assert s2.uploads[0 := FirstUpload(c, t0, OVER)] == map[0 := FirstUpload(c, t0, OVER)];
    assert s2.db.images[c.id := FreeImage(c, t0)] == map[c.id := FreeImage(c, t0)];
  }

  lemma ReachTrying(k: Limits, c: Candidate, t0: string, t1: string)
    requires t0 != t1
    ensures Reached(k, SecondCall(c, t0, t1, FreeImage(c, t0), Trying(c, t1, EXPIRY - 1, c.id)))
  {
    ReachFirst(k, c, t0);
    var d, uploads := FreeImage(c, t0), map[0 := FirstUpload(c, t0, OVER)];
    var s0 := World(c, d, 0, uploads, map[t0 := 0]);
    ReachedNext(k, s0, Tick(EXPIRY - 1));
    ReachLooking(k, c, t0, t1);
    var s2 := SecondCall(c, t0, t1, d, Looking(c, t1, EXPIRY - 1));
    ReachedNext(k, s2, LookAt(1));
    assert Look(s2.db, c, EXPIRY - 1) == Unfinished(c.id);
    assert s2.uploads[1 := Trying(c, t1, EXPIRY - 1, c.id)] == map[0 := FirstUpload(c, t0, OVER), 1 := Trying(c, t1, EXPIRY - 1, c.id)];
  }

  lemma ReachLooking(k: Limits, c: Candidate, t0: string, t1: string)
    requires t0 != t1
    requires Reached(k, World(c, FreeImage(c, t0), EXPIRY - 1, map[0 := FirstUpload(c, t0, OVER)], map[t0 := 0]))
    ensures Reached(k, SecondCall(c, t0, t1, FreeImage(c, t0), Looking(c, t1, EXPIRY - 1)))
  {
    hide FreeImage;
    var d, uploads := FreeImage(c, t0), map[0 := FirstUpload(c, t0, OVER)];
    var s1 := World(c, d, EXPIRY - 1, uploads, map[t0 := 0]);
    ReachedNext(k, s1, Begin(1, c, t1, EXPIRY - 1));
    assert map[t0 := 0][t1 := 1] == map[t0 := 0, t1 := 1];
    assert uploads[1 := Looking(c, t1, EXPIRY - 1)] == map[0 := FirstUpload(c, t0, OVER), 1 := Looking(c, t1, EXPIRY - 1)];
  }

  lemma ReachLapsed(k: Limits, c: Candidate, t0: string, t1: string)
    requires Reached(k, SecondCall(c, t0, t1, FreeImage(c, t0), Trying(c, t1, EXPIRY - 1, c.id)))
    ensures Reached(k, SecondCall(c, t0, t1, FreeImage(c, t0), Holding(LateLease(c, t1), OVER, false)))
  {
    var free := FreeImage(c, t0);
    var d := free.(uploadToken := Some(t1), lockedUntil := Stored(EXPIRY - 1 + UPLOAD_LEASE));
    var s3 := SecondCall(c, t0, t1, free, Trying(c, t1, EXPIRY - 1, c.id));
    var s4 := SecondCall(c, t0, t1, d, Holding(LateLease(c, t1), Putting, false));
    var s5 := SecondCall(c, t0, t1, d, Holding(LateLease(c, t1), GIVEN_UP, false));
    var s6 := SecondCall(c, t0, t1, free, Holding(LateLease(c, t1), OVER, false));
    TakesLease(k, c, t0, t1, d);
    GivesUp(k, c, t0, t1, d);
    hide Step;
    ReachedNext(k, s3, TryAcquire(1));
    ReachedNext(k, s4, PutReturns(1, false));
    ReachedNext(k, s5, Release(1));
  }

  lemma TakesLease(k: Limits, c: Candidate, t0: string, t1: string, d: ImageDocument)
    requires d == FreeImage(c, t0).(uploadToken := Some(t1), lockedUntil := Stored(EXPIRY - 1 + UPLOAD_LEASE))
    ensures Step(k, SecondCall(c, t0, t1, FreeImage(c, t0), Trying(c, t1, EXPIRY - 1, c.id)), TryAcquire(1))
            == SecondCall(c, t0, t1, d, Holding(LateLease(c, t1), Putting, false))
  {
    var s3 := SecondCall(c, t0, t1, FreeImage(c, t0), Trying(c, t1, EXPIRY - 1, c.id));
    var s4 := SecondCall(c, t0, t1, d, Holding(LateLease(c, t1), Putting, false));
    assert s3.db.images[c.id := d] == s4.db.images;
    assert s3.uploads[1 := Holding(LateLease(c, t1), Putting, false)] == s4.uploads;
  }

  lemma GivesUp(k: Limits, c: Candidate, t0: string, t1: string, d: ImageDocument)
    requires d == FreeImage(c, t0).(uploadToken := Some(t1), lockedUntil := Stored(EXPIRY - 1 + UPLOAD_LEASE))
    ensures
      var s4 := SecondCall(c, t0, t1, d, Holding(LateLease(c, t1), Putting, false));
      var s5 := SecondCall(c, t0, t1, d, Holding(LateLease(c, t1), GIVEN_UP, false));
      && Step(k, s4, PutReturns(1, false)) == s5
      && Step(k, s5, Release(1)) == SecondCall(c, t0, t1, FreeImage(c, t0), Holding(LateLease(c, t1), OVER, false))
  {
    var s4 := SecondCall(c, t0, t1, d, Holding(LateLease(c, t1), Putting, false));
    var s5 := SecondCall(c, t0, t1, d, Holding(LateLease(c, t1), GIVEN_UP, false));
    var s6 := SecondCall(c, t0, t1, FreeImage(c, t0), Holding(LateLease(c, t1), OVER, false));
    assert s4.uploads[1 := Holding(LateLease(c, t1), GIVEN_UP, false)] == s5.uploads;
    assert s5.db.images[c.id := FreeImage(c, t0)] == s6.db.images;
    assert s5.uploads[1 := Holding(LateLease(c, t1), OVER, false)] == s6.uploads;
  }

  /** A cleaner holds the image, claimed `offset` after its deletion started. */
  predicate ClaimedAt(s: State, c: Candidate, t1: string, offset: int) {
    && c.id in s.db.images && s.db.images[c.id].status == Deleting
    && s.db.images[c.id].deleteStartedAt == EXPIRY && s.db.images[c.id].deleteToken == Some(t1)
    && s.clock == EXPIRY + offset
    && 1 in s.uploads && s.uploads[1] == Holding(LateLease(c, t1), OVER, false)
    && 1 in s.cleaners && s.cleaners[1] == Cleaner(Claim(c.id, t1, EXPIRY), EXPIRY + offset, false)
  }

  ghost predicate CanClaimAt(k: Limits, c: Candidate, t1: string, offset: int) {
    exists s :: Reached(k, s) && ClaimedAt(s, c, t1, offset)
  }

  lemma ClaimNow(k: Limits, c: Candidate, t1: string, s: State, offset: int)
    requires Reached(k, s) && s.clock <= EXPIRY + offset && 1 !in s.cleaners && c.id in s.db.images
    requires 1 in s.uploads && s.uploads[1] == Holding(LateLease(c, t1), OVER, false)
    requires
      var d := s.db.images[c.id];
      || (Abandoned(d, EXPIRY + offset) && Stored(EXPIRY + offset) == EXPIRY)
      || (Retriable(d, EXPIRY + offset) && d.deleteStartedAt == EXPIRY)
    ensures CanClaimAt(k, c, t1, offset)
  {
    ReachedNext(k, s, Tick(EXPIRY + offset));
    var s1 := s.(clock := EXPIRY + offset);
    ReachedNext(k, s1, Clean(1, c.id, t1, EXPIRY + offset));
    assert ClaimedAt(CleanStep(s1, 1, c.id, t1, EXPIRY + offset), c, t1, offset);
  }

  lemma ReachClaimed(k: Limits, c: Candidate, t0: string, t1: string, offset: int)
    requires Reached(k, SecondCall(c, t0, t1, FreeImage(c, t0), Holding(LateLease(c, t1), OVER, false)))
    requires 0 <= offset < MILLISECOND || offset >= UPLOAD_LEASE
    ensures CanClaimAt(k, c, t1, offset)
  {
    var s := SecondCall(c, t0, t1, FreeImage(c, t0), Holding(LateLease(c, t1), OVER, false));
    if offset < MILLISECOND {
      assert Stored(EXPIRY + offset) == EXPIRY;
      ClaimNow(k, c, t1, s, offset);
    } else {
      ReachedNext(k, s, Tick(EXPIRY));
      var s1 := s.(clock := EXPIRY);
      ReachedNext(k, s1, Clean(0, c.id, t0, EXPIRY));
      var s2 := CleanStep(s1, 0, c.id, t0, EXPIRY);
      StoredMonotone(EXPIRY + UPLOAD_LEASE, EXPIRY + offset);
      ClaimNow(k, c, t1, s2, offset);
    }
  }

  /** The delete, then the late put, then a completion after the grace period. */
  lemma ReachRemains(k: Limits, c: Candidate, t0: string, t1: string, offset: int)
    requires CanClaimAt(k, c, t1, offset)
    requires 0 <= offset < k.put && offset + k.cleanup >= DELETION_GRACE && k.cleanup >= 0
    ensures CanLeaveBytes(k)
  {
    var s :| Reached(k, s) && ClaimedAt(s, c, t1, offset);
    ReachedNext(k, s, Delete(1));
    var s1 := Step(k, s, Delete(1));
    assert s1.clock == s.clock && s1.uploads == s.uploads && s1.db == s.db && s1.cleaners[1] == s.cleaners[1].(deleted := true);
    ReachedNext(k, s1, PutLands(1));
    var s2 := Step(k, s1, PutLands(1));
    assert ObjectKey(c.id) in s2.objects && s2.db == s.db && s2.cleaners == s1.cleaners && s2.clock == s.clock;
    CompletionLeaves(k, c, t1, offset, s2);
  }

  lemma CompletionLeaves(k: Limits, c: Candidate, t1: string, offset: int, s2: State)
    requires Reached(k, s2) && ObjectKey(c.id) in s2.objects && s2.clock == EXPIRY + offset
    requires c.id in s2.db.images && s2.db.images[c.id].status == Deleting && s2.db.images[c.id].deleteToken == Some(t1)
    requires 1 in s2.cleaners && s2.cleaners[1] == Cleaner(Claim(c.id, t1, EXPIRY), EXPIRY + offset, true)
    requires offset + k.cleanup >= DELETION_GRACE && k.cleanup >= 0
    ensures CanLeaveBytes(k)
  {
    var end := if offset >= DELETION_GRACE then EXPIRY + offset else EXPIRY + DELETION_GRACE;
    ReachedNext(k, s2, Tick(end));
    var s3 := s2.(clock := end);
    ReachedNext(k, s3, Complete(1, end));
    var s4 := Step(k, s3, Complete(1, end));
    assert s4.db.images[c.id].status == Deleted && s4.objects == s2.objects;
    var events :| Run(k, Start(), events) == s4;
    assert Leaves(k, events, c.id);
  }
}
