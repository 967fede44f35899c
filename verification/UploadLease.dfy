// What an upload's lease is worth, told from its times: who may mark an image
// ready, until when, and what an undisturbed upload or cleanup comes to.

module UploadLease {
  import opened Common
  import opened Documents
  import opened Instants
  import opened ImageRepository
  import opened ImageLife
  import MessageStore

  /** When a lease taken at `reservedAt` lapses, as stored. */
  function LeaseEnd(reservedAt: int): int {
    Stored(reservedAt + UPLOAD_LEASE)
  }

  /** The clock readings of a call are past. */
  predicate Past(u: Upload, clock: int) {
    match u
    case Looking(_, _, now) => now <= clock
    case Trying(_, _, now, _) => now <= clock
    case Holding(lease, _, _) => lease.reservedAt <= clock
    case Answered(_) => true
  }

  /** While an image carries a call's token it is pending, locked until the call's lease
      ends; and until then nobody can take the token from a call that is still busy. */
  predicate LeaseGood(images: Images, clock: int, u: Upload)
    requires u.Holding?
  {
    && u.lease.image in images
    && var d := images[u.lease.image];
    && (d.uploadToken == Some(u.lease.token) ==> d.status == ImagePending && d.lockedUntil == LeaseEnd(u.lease.reservedAt))
    && ((u.phase.Putting? || u.phase.PutDone?) && Stored(clock) < LeaseEnd(u.lease.reservedAt) ==> d.uploadToken == Some(u.lease.token))
  }

  ghost predicate LeasesGood(images: Images, clock: int, uploads: map<nat, Upload>) {
    && (forall call :: call in uploads ==> Past(uploads[call], clock))
    && (forall call :: call in uploads && uploads[call].Holding? ==> LeaseGood(images, clock, uploads[call]))
  }

  ghost predicate Inv(s: State) {
    TokensHold(s.db.images, s.uploads, s.tokens) && LeasesGood(s.db.images, s.clock, s.uploads)
  }

  /** One image replaced, for every call but one. */
  lemma ReplaceKeepsLeases(images: Images, clock: int, uploads: map<nat, Upload>, id: string, d: ImageDocument, call: nat, u: Upload)
    requires LeasesGood(images, clock, uploads) && id in images && Past(u, clock)
    requires u.Holding? ==> LeaseGood(images[id := d], clock, u)
    requires forall c :: c in uploads && c != call && uploads[c].Holding? && uploads[c].lease.image == id ==>
      LeaseGood(images[id := d], clock, uploads[c])
    ensures LeasesGood(images[id := d], clock, uploads[call := u])
  {
    forall c | c in uploads && c != call && uploads[c].Holding? ensures LeaseGood(images[id := d], clock, uploads[c]) {
      assert LeaseGood(images, clock, uploads[c]);
    }
  }

  /** A lapsed or cleaned image's old holders have lost their claim to the token. */
  lemma LapsedLosesToken(images: Images, clock: int, u: Upload, now: int, d: ImageDocument)
    requires u.Holding? && LeaseGood(images, clock, u) && now <= clock
    requires images[u.lease.image].lockedUntil <= Stored(now) || images[u.lease.image].status != ImagePending
    requires d.uploadToken != Some(u.lease.token)
    ensures LeaseGood(images[u.lease.image := d], clock, u)
  {
    StoredMonotone(now, clock);
    hide LeaseEnd;
  }

  lemma BeginKeeps(s: State, call: nat, c: Candidate, token: string, now: int)
    requires Inv(s) && call !in s.uploads && token !in s.tokens && now <= s.clock
    ensures var s' := BeginStep(s, call, c, token, now); LeasesGood(s'.db.images, s'.clock, s'.uploads)
  {
    var s' := BeginStep(s, call, c, token, now);
    forall x | x in s'.uploads && s'.uploads[x].Holding? ensures LeaseGood(s'.db.images, s'.clock, s'.uploads[x]) {
      if x != call { assert LeaseGood(s.db.images, s.clock, s.uploads[x]); }
    }
  }

  lemma TryKeeps(s: State, call: nat)
    requires Inv(s) && call in s.uploads && s.uploads[call].Trying?
    ensures var s' := TryStep(s, call); LeasesGood(s'.db.images, s'.clock, s'.uploads)
  {
    var u := s.uploads[call];
    var (images, acquired) := AcquireIn(s.db.images, u.image, u.token, u.now);
    assert Past(u, s.clock);
    if acquired {
      var u' := Holding(Lease(u.image, u.token, u.c.checksum, u.now), Putting, false);
      forall c | c in s.uploads && c != call && s.uploads[c].Holding? && s.uploads[c].lease.image == u.image
        ensures LeaseGood(images, s.clock, s.uploads[c])
      {
        assert TokenOf(s.uploads[c]) == Some(s.uploads[c].lease.token) && TokenOf(u) == Some(u.token);
        LapsedLosesToken(s.db.images, s.clock, s.uploads[c], u.now, images[u.image]);
      }
      ReplaceKeepsLeases(s.db.images, s.clock, s.uploads, u.image, images[u.image], call, u');
    }
  }

  /** The holder itself gives the token up. */
  lemma GivingUpKeeps(s: State, call: nat, d: ImageDocument, phase: Phase)
    requires Inv(s) && call in s.uploads && s.uploads[call].Holding? && !phase.Putting? && !phase.PutDone?
    requires
      var lease := s.uploads[call].lease;
      s.db.images[lease.image].uploadToken == Some(lease.token) && d.uploadToken == None
    ensures LeasesGood(s.db.images[s.uploads[call].lease.image := d], s.clock, s.uploads[call := s.uploads[call].(phase := phase)])
  {
    var u, id := s.uploads[call], s.uploads[call].lease.image;
    assert LeaseGood(s.db.images, s.clock, u) && TokenOf(u) == Some(u.lease.token);
    forall c | c in s.uploads && c != call && s.uploads[c].Holding? && s.uploads[c].lease.image == id
      ensures LeaseGood(s.db.images[id := d], s.clock, s.uploads[c])
    {
      assert LeaseGood(s.db.images, s.clock, s.uploads[c]) && TokenOf(s.uploads[c]) == Some(s.uploads[c].lease.token);
    }
    ReplaceKeepsLeases(s.db.images, s.clock, s.uploads, id, d, call, u.(phase := phase));
  }

  lemma MarkKeeps(k: Limits, s: State, call: nat, now: int)
    requires Inv(s)
    ensures var s' := Step(k, s, Mark(call, now)); LeasesGood(s'.db.images, s'.clock, s'.uploads)
  {
    var s' := Step(k, s, Mark(call, now));
    if s' != s {
      var u := s.uploads[call];
      assert LeaseGood(s.db.images, s.clock, u);
      if MarkReadyIn(s.db.images, u.lease.image, u.lease.token, now).1 {
        GivingUpKeeps(s, call, s'.db.images[u.lease.image], s'.uploads[call].phase);
      } else {
        PhaseKeeps(s, call, s'.uploads[call]);
      }
    }
  }

  lemma ReleaseKeeps(k: Limits, s: State, call: nat)
    requires Inv(s)
    ensures var s' := Step(k, s, Release(call)); LeasesGood(s'.db.images, s'.clock, s'.uploads)
  {
    var s' := Step(k, s, Release(call));
    if s' != s {
      var u := s.uploads[call];
      assert LeaseGood(s.db.images, s.clock, u);
      if Releasable(s.db.images[u.lease.image], u.lease.token) {
        GivingUpKeeps(s, call, s'.db.images[u.lease.image], s'.uploads[call].phase);
      } else {
        PhaseKeeps(s, call, s'.uploads[call]);
      }
    }
  }

  /** A call moves on without touching its image. */
  lemma PhaseKeeps(s: State, call: nat, u: Upload)
    requires LeasesGood(s.db.images, s.clock, s.uploads) && call in s.uploads && s.uploads[call].Holding?
    requires u.Holding? && u.lease == s.uploads[call].lease
    requires u.phase.Putting? || u.phase.PutDone? ==> s.uploads[call].phase.Putting? || s.uploads[call].phase.PutDone?
    ensures LeasesGood(s.db.images, s.clock, s.uploads[call := u])
  {
    assert LeaseGood(s.db.images, s.clock, s.uploads[call]);
  }

  lemma CleanKeeps(s: State, id: nat, image: string, token: string, now: int)
    requires Inv(s) && now <= s.clock
    ensures var s' := CleanStep(s, id, image, token, now); LeasesGood(s'.db.images, s'.clock, s'.uploads)
  {
    var s' := CleanStep(s, id, image, token, now);
    if s' != s && image in s.db.images {
      forall c | c in s.uploads && s.uploads[c].Holding? ensures LeaseGood(s'.db.images, s.clock, s.uploads[c]) {
        assert LeaseGood(s.db.images, s.clock, s.uploads[c]);
        if s.uploads[c].lease.image == image {
          LapsedLosesToken(s.db.images, s.clock, s.uploads[c], now, s'.db.images[image]);
        }
      }
    }
  }

  /** Completions and sends find images that carry no token of a pending upload. */
  lemma FinishedImagesKeep(s: State, id: string, d: ImageDocument)
    requires LeasesGood(s.db.images, s.clock, s.uploads) && id in s.db.images && s.db.images[id].status != ImagePending
    requires d.uploadToken == s.db.images[id].uploadToken
    ensures LeasesGood(s.db.images[id := d], s.clock, s.uploads)
  {
    forall c | c in s.uploads && s.uploads[c].Holding? ensures LeaseGood(s.db.images[id := d], s.clock, s.uploads[c]) {
      assert LeaseGood(s.db.images, s.clock, s.uploads[c]);
    }
  }

  lemma StepKeepsInv(k: Limits, s: State, e: Event)
    requires Inv(s)
    ensures Inv(Step(k, s, e))
  {
    StepKeepsTokens(k, s, e);
    hide TokensHold;
    match e
    case Tick(to) =>
      if s.clock <= to {
        StoredMonotone(s.clock, to);
        forall c | c in s.uploads && s.uploads[c].Holding? ensures LeaseGood(s.db.images, to, s.uploads[c]) {
          assert LeaseGood(s.db.images, s.clock, s.uploads[c]);
        }
      }
    case Begin(call, c, token, now) => if Step(k, s, e) != s { BeginKeeps(s, call, c, token, now); }
    case LookAt(call) => LookKeeps(k, s, call);
    case TryAcquire(call) => if call in s.uploads && s.uploads[call].Trying? { TryKeeps(s, call); }
    case PutLands(call) => if Step(k, s, e) != s { PhaseKeeps(s, call, Step(k, s, e).uploads[call]); }
    case PutReturns(call, ok) => if Step(k, s, e) != s { PhaseKeeps(s, call, Step(k, s, e).uploads[call]); }
    case Mark(call, now) => MarkKeeps(k, s, call, now);
    case Release(call) => ReleaseKeeps(k, s, call);
    case Clean(id, image, token, now) => if now <= s.clock { CleanKeeps(s, id, image, token, now); }
    case Delete(_) =>
    case Complete(id, now) => CompleteKeeps(k, s, id, now);
    case Attach(p) => AttachKeeps(k, s, p);
  }

  lemma LookKeeps(k: Limits, s: State, call: nat)
    requires LeasesGood(s.db.images, s.clock, s.uploads)
    ensures var s' := Step(k, s, LookAt(call)); LeasesGood(s'.db.images, s'.clock, s'.uploads)
  {
    hide Look;
    hide LeaseGood;
    if call in s.uploads { assert Past(s.uploads[call], s.clock); }
  }

  lemma CompleteKeeps(k: Limits, s: State, id: nat, now: int)
    requires LeasesGood(s.db.images, s.clock, s.uploads)
    ensures var s' := Step(k, s, Complete(id, now)); LeasesGood(s'.db.images, s'.clock, s'.uploads)
  {
    hide LeasesGood;
    var s' := Step(k, s, Complete(id, now));
    if s' != s {
      var a := s.cleaners[id].claim;
      FinishedImagesKeep(s, a.image, s'.db.images[a.image]);
    }
  }

  lemma AttachKeeps(k: Limits, s: State, p: CreateParams)
    requires LeasesGood(s.db.images, s.clock, s.uploads)
    ensures var s' := Step(k, s, Attach(p)); LeasesGood(s'.db.images, s'.clock, s'.uploads)
  {
    hide LeasesGood;
    var s' := Step(k, s, Attach(p));
    if s' != s {
      var id := p.message.content.imageID;
      FinishedImagesKeep(s, id, s'.db.images[id]);
    }
  }

  lemma {:induction false} RunKeepsInv(k: Limits, s: State, events: seq<Event>)
    requires Inv(s)
    ensures Inv(Run(k, s, events))
  {
    hide Inv;
    hide Step;
    if events != [] {
      RunKeepsInv(k, s, events[..|events| - 1]);
      StepKeepsInv(k, Run(k, s, events[..|events| - 1]), events[|events| - 1]);
    }
  }

  // ----- Main results ------------------------------------------------------------------------

  predicate ReadyToMark(s: State, call: nat) {
    call in s.uploads && s.uploads[call].Holding? && s.uploads[call].phase.PutDone? && s.uploads[call].lease.image in s.db.images
  }

  lemma CallLeaseHolds(k: Limits, events: seq<Event>, call: nat)
    requires ReadyToMark(Run(k, Start(), events), call)
    ensures var s := Run(k, Start(), events); LeaseGood(s.db.images, s.clock, s.uploads[call])
  {
    RunKeepsInv(k, Start(), events);
    hide Run;
    hide TokensHold;
  }

  lemma MarkAnswers(k: Limits, s: State, call: nat, now: int)
    requires ReadyToMark(s, call) && now <= s.clock && LeaseGood(s.db.images, s.clock, s.uploads[call])
    ensures
      var s', lease := Step(k, s, Mark(call, now)), s.uploads[call].lease;
      var d := s.db.images[lease.image];
      && call in s'.uploads && s'.uploads[call].Holding? && lease.image in s'.db.images
      && if d.uploadToken == Some(lease.token) && Stored(now) < LeaseEnd(lease.reservedAt) && Stored(now) < d.expiresAt
         then
           && s'.uploads[call].phase == Closing(Ok(lease.image))
           && s'.db.images[lease.image].status == Ready && s'.db.images[lease.image].uploadToken == None
           && s'.db.images == s.db.images[lease.image := s'.db.images[lease.image]]
         else s'.uploads[call].phase == Closing(Err(Expired)) && s'.db == s.db
  {
    hide Stored;
  }

  /** The answer of a mark, told from times: a call that still has the image's token
      succeeds exactly before its lease's end and the image's expiry, both as stored,
      and the image is ready; else it is told that it came too late, and nothing changed. */
  lemma MarkAnswersByTheClock(k: Limits, events: seq<Event>, call: nat, now: int)
    requires var s := Run(k, Start(), events); ReadyToMark(s, call) && now <= s.clock
    ensures
      var s := Run(k, Start(), events);
      var s', lease := Step(k, s, Mark(call, now)), s.uploads[call].lease;
      var d := s.db.images[lease.image];
      && call in s'.uploads && s'.uploads[call].Holding? && lease.image in s'.db.images
      && if d.uploadToken == Some(lease.token) && Stored(now) < Stored(lease.reservedAt + 2 * MINUTE) && Stored(now) < d.expiresAt
         then
           && s'.uploads[call].phase == Closing(Ok(lease.image))
           && s'.db.images[lease.image].status == Ready && s'.db.images[lease.image].uploadToken == None
           && s'.db.images == s.db.images[lease.image := s'.db.images[lease.image]]
         else s'.uploads[call].phase == Closing(Err(Expired)) && s'.db == s.db
  {
    hide Run;
    hide Step;
    hide Stored;
    CallLeaseHolds(k, events, call);
    hide LeaseGood;
    MarkAnswers(k, Run(k, Start(), events), call, now);
  }

  /** A lease is exclusive while it lasts: an upload whose put is done is told success
      whenever it marks before the clock has reached its lease's end and the image's
      expiry, whatever other uploads and cleanups do. */
  lemma UploadWithinItsLeaseSucceeds(k: Limits, events: seq<Event>, call: nat, now: int)
    requires
      var s := Run(k, Start(), events);
      && ReadyToMark(s, call) && now <= s.clock
      && Stored(s.clock) < Stored(s.uploads[call].lease.reservedAt + 2 * MINUTE)
      && Stored(s.clock) < s.db.images[s.uploads[call].lease.image].expiresAt
    ensures
      var s := Run(k, Start(), events);
      var s', id := Step(k, s, Mark(call, now)), s.uploads[call].lease.image;
      && call in s'.uploads && s'.uploads[call].Holding? && s'.uploads[call].phase == Closing(Ok(id))
      && id in s'.db.images && s'.db.images[id].status == Ready
  {
    hide Run;
    hide Step;
    hide Stored;
    var s := Run(k, Start(), events);
    CallLeaseHolds(k, events, call);
    StoredMonotone(now, s.clock);
    MarkAnswers(k, s, call, now);
  }

  /** The timetable of a new image: its lease can be taken over from two minutes to a
      day after its reservation, and it is abandoned from a day on. */
  lemma NewImageTimetable(c: Candidate, token: string, reservedAt: int, now: int)
    ensures
      var d := NewImage(c, token, reservedAt);
      && d.uploadedBy == c.uploadedBy && d.chatID == c.chatID && d.checksum == c.checksum && d.sizeBytes == c.sizeBytes
      && d.clientUploadID == c.clientUploadID && d.objectKey == "images/" + c.id && d.messageID == None
      && (CanMark(d, token, now) <==> Stored(now) < Stored(reservedAt + 2 * MINUTE))
      && (Acquirable(d, now) <==> Stored(reservedAt + 2 * MINUTE) <= Stored(now) < Stored(reservedAt + 24 * HOUR))
      && (Abandoned(d, now) <==> Stored(reservedAt + 24 * HOUR) <= Stored(now))
  {
    StoredMonotone(reservedAt + 2 * MINUTE, reservedAt + 24 * HOUR);
  }

  /** Marking is allowed to the token's holder only. */
  predicate CanMark(d: ImageDocument, token: string, now: int) {
    MarkReadyIn(map["" := d], "", token, now).1
  }

  /** The key of an upload that no image has. */
  ghost predicate NewUpload(images: Images, c: Candidate) {
    c.id !in images && forall id :: id in images ==> (images[id].uploadedBy, images[id].clientUploadID) != (c.uploadedBy, c.clientUploadID)
  }

  /** A new upload that nothing disturbs is told its image, which is ready, with the
      bytes it sent. */
  lemma UndisturbedUploadStores(k: Limits, events: seq<Event>, call: nat, c: Candidate, token: string)
    requires k.put >= 0
    requires var s := Run(k, Start(), events); call !in s.uploads && token !in s.tokens && NewUpload(s.db.images, c)
    ensures
      var s := Run(k, Start(), events);
      var s1 := Step(k, Step(k, s, Begin(call, c, token, s.clock)), PutLands(call));
      var s2 := Step(k, Step(k, Step(k, s1, PutReturns(call, true)), Mark(call, s.clock)), Release(call));
      && call in s2.uploads && s2.uploads[call].Holding? && s2.uploads[call].phase == Over(Ok(c.id))
      && c.id in s2.db.images && s2.db.images[c.id].status == Ready && s2.db.images[c.id].checksum == c.checksum
      && ObjectKey(c.id) in s2.objects && s2.objects[ObjectKey(c.id)].checksum == c.checksum
  {
    RunKeepsIndex(k, Start(), events);
    var s := Run(k, Start(), events);
    hide Run;
    assert CanInsert(s.db, c);
    NewImageTimetable(c, token, s.clock, s.clock);
    LeaseIsLong(s.clock);
    hide CanInsert;
    hide NewUpload;
    hide UploadsIndexed;
    UploadRuns(k, s, call, c, token);
  }

  lemma LeaseIsLong(now: int)
    ensures Stored(now) < Stored(now + UPLOAD_LEASE) < Stored(now + ABANDON_AFTER)
  {
    StoredMonotone(now + MILLISECOND, now + UPLOAD_LEASE);
    StoredMonotone(now + UPLOAD_LEASE + MILLISECOND, now + ABANDON_AFTER);
  }

  lemma UploadRuns(k: Limits, s: State, call: nat, c: Candidate, token: string)
    requires k.put >= 0 && call !in s.uploads && token !in s.tokens && CanInsert(s.db, c)
    requires Stored(s.clock) < Stored(s.clock + UPLOAD_LEASE) < Stored(s.clock + ABANDON_AFTER)
    ensures
      var s1 := Step(k, Step(k, s, Begin(call, c, token, s.clock)), PutLands(call));
      var s2 := Step(k, Step(k, Step(k, s1, PutReturns(call, true)), Mark(call, s.clock)), Release(call));
      && call in s2.uploads && s2.uploads[call].Holding? && s2.uploads[call].phase == Over(Ok(c.id))
      && c.id in s2.db.images && s2.db.images[c.id].status == Ready && s2.db.images[c.id].checksum == c.checksum
      && ObjectKey(c.id) in s2.objects && s2.objects[ObjectKey(c.id)].checksum == c.checksum
  {
    hide CanInsert;
    hide Stored;
    var lease := Lease(c.id, token, c.checksum, s.clock);
    var a := Step(k, s, Begin(call, c, token, s.clock));
    assert a.uploads[call] == Holding(lease, Putting, false) && a.db.images[c.id] == NewImage(c, token, s.clock) && a.clock == s.clock;
    var b := Step(k, a, PutLands(call));
    assert b.uploads[call] == Holding(lease, Putting, true) && b.db == a.db && b.clock == s.clock;
    assert ObjectKey(c.id) in b.objects && b.objects[ObjectKey(c.id)].checksum == c.checksum;
    var d := Step(k, b, PutReturns(call, true));
    assert d.uploads[call] == Holding(lease, PutDone, true) && d.db == a.db && d.objects == b.objects && d.clock == s.clock;
    hide ObjectKey;
    MarkAndRelease(k, d, call, c, token);
  }

  lemma MarkAndRelease(k: Limits, d: State, call: nat, c: Candidate, token: string)
    requires call in d.uploads && d.uploads[call] == Holding(Lease(c.id, token, c.checksum, d.clock), PutDone, true)
    requires c.id in d.db.images && d.db.images[c.id] == NewImage(c, token, d.clock)
    requires Stored(d.clock) < Stored(d.clock + UPLOAD_LEASE) < Stored(d.clock + ABANDON_AFTER)
    ensures
      var s2 := Step(k, Step(k, d, Mark(call, d.clock)), Release(call));
      && call in s2.uploads && s2.uploads[call].Holding? && s2.uploads[call].phase == Over(Ok(c.id))
      && c.id in s2.db.images && s2.db.images[c.id].status == Ready && s2.db.images[c.id].checksum == c.checksum
      && s2.objects == d.objects
  {
    hide Stored;
    var e := Step(k, d, Mark(call, d.clock));
    assert e.uploads[call].phase == Closing(Ok(c.id)) && e.uploads[call].lease == d.uploads[call].lease && e.objects == d.objects;
    assert e.db.images[c.id] == NewImage(c, token, d.clock).(status := Ready, lockedUntil := Stored(d.clock), uploadToken := None);
  }

  /** An abandoned image that nobody disturbs is deleted in two passes, the second after
      the grace period, and its object is gone. */
  lemma UndisturbedCleanupDeletes(k: Limits, s: State, image: string, first: nat, second: nat, t1: string, t2: string, later: int)
    requires k.cleanup >= 0 && image in s.db.images && first !in s.cleaners && second !in s.cleaners && first != second
    requires
      var d := s.db.images[image];
      (d.status == ImagePending || d.status == Ready) && d.expiresAt <= Stored(s.clock) && d.lockedUntil <= Stored(s.clock)
    requires s.clock + 5 * MINUTE <= later
    ensures
      var s1 := Step(k, Step(k, Step(k, s, Clean(first, image, t1, s.clock)), Delete(first)), Complete(first, s.clock));
      var s2 := Step(k, Step(k, s1, Tick(later)), Clean(second, image, t2, later));
      var s3 := Step(k, Step(k, s2, Delete(second)), Complete(second, later));
      && image in s1.db.images && s1.db.images[image].status == Deleting && ObjectKey(image) !in s1.objects
      && image in s3.db.images && s3.db.images[image].status == Deleted && ObjectKey(image) !in s3.objects
  {
    StoredMonotone(s.clock, later);
    StoredMonotone(s.clock + DELETION_GRACE, later);
    var start := Stored(s.clock);
    StoredMonotone(start + DELETION_GRACE, s.clock + DELETION_GRACE);
    assert start + DELETION_GRACE <= later;
    var s1 := Step(k, Step(k, Step(k, s, Clean(first, image, t1, s.clock)), Delete(first)), Complete(first, s.clock));
    FirstPass(k, s, image, first, t1);
    var s2 := Step(k, s1, Tick(later));
    assert s2 == s1.(clock := later);
    SecondPass(k, s2, image, second, t2, start);
  }

  lemma FirstPass(k: Limits, s: State, image: string, id: nat, token: string)
    requires k.cleanup >= 0 && image in s.db.images && id !in s.cleaners && Abandoned(s.db.images[image], s.clock)
    ensures
      var s' := Step(k, Step(k, Step(k, s, Clean(id, image, token, s.clock)), Delete(id)), Complete(id, s.clock));
      && s'.clock == s.clock && s'.cleaners.Keys == s.cleaners.Keys + {id} && ObjectKey(image) !in s'.objects && image in s'.db.images
      && var d := s'.db.images[image];
      d.status == Deleting && d.deleteStartedAt == Stored(s.clock) && d.lockedUntil == Stored(s.clock)
      && d.cleanupAfter == Stored(Stored(s.clock) + DELETION_GRACE)
  {
    var a := Step(k, s, Clean(id, image, token, s.clock));
    var start := Stored(s.clock);
    assert a.cleaners[id] == Cleaner(Claim(image, token, start), s.clock, false);
    assert a.db.images[image] == ClaimedFirst(s.db.images[image], token, s.clock);
    var b := Step(k, a, Delete(id));
    assert b.db == a.db && b.clock == s.clock && b.cleaners[id] == a.cleaners[id].(deleted := true);
  }

  lemma SecondPass(k: Limits, s: State, image: string, id: nat, token: string, start: int)
    requires k.cleanup >= 0 && image in s.db.images && id !in s.cleaners && ObjectKey(image) !in s.objects
    requires
      var d := s.db.images[image];
      d.status == Deleting && d.deleteStartedAt == start && d.lockedUntil <= Stored(s.clock)
      && d.cleanupAfter == Stored(start + DELETION_GRACE)
    requires start + DELETION_GRACE <= s.clock
    ensures
      var s' := Step(k, Step(k, Step(k, s, Clean(id, image, token, s.clock)), Delete(id)), Complete(id, s.clock));
      image in s'.db.images && s'.db.images[image].status == Deleted && ObjectKey(image) !in s'.objects
  {
    StoredMonotone(start + DELETION_GRACE, s.clock);
    var a := Step(k, s, Clean(id, image, token, s.clock));
    assert a.cleaners[id] == Cleaner(Claim(image, token, start), s.clock, false);
    assert a.db.images[image] == ClaimedAgain(s.db.images[image], token, s.clock);
    var b := Step(k, a, Delete(id));
    assert b.db == a.db && b.clock == s.clock && b.cleaners[id] == a.cleaners[id].(deleted := true);
  }

  /** A cleanup's claim is exclusive for two minutes: until then the image is neither
      abandoned nor due again, whoever asks; afterwards it is due again. */
  lemma CleanupClaimIsExclusive(k: Limits, s: State, id: nat, image: string, token: string, now: int, later: int)
    requires image in s.db.images && id !in s.cleaners && now <= s.clock && now <= later
    requires var d := s.db.images[image]; Abandoned(d, now) || Retriable(d, now)
    ensures
      var s' := Step(k, s, Clean(id, image, token, now));
      && image in s'.db.images && s'.db.images[image].deleteToken == Some(token)
      && id in s'.cleaners && s'.cleaners[id].claim.image == image && s'.cleaners[id].claim.token == token
      && (Abandoned(s'.db.images[image], later) || Retriable(s'.db.images[image], later) <==>
            Stored(now + 2 * MINUTE) <= Stored(later))
  {
  }

  /** A cleaner's token is used up by its completion: until the image is claimed again, no
      completion of it does anything, not even a repeated one. Within the grace period the
      image is due again at its end; from then on it is deleted. */
  lemma CompletionUsesUpTheToken(images: Images, a: Claim, b: Claim, now: int, later: int)
    requires a.image in images && images[a.image].status == Deleting && images[a.image].deleteToken == Some(a.token)
    requires b.image == a.image
    ensures CompleteIn(CompleteIn(images, a, now), b, later) == CompleteIn(images, a, now)
    ensures CompleteIn(images, a, now) == images[a.image := CompleteIn(images, a, now)[a.image]]
    ensures CompleteIn(images, a, now)[a.image].status == Deleted <==> a.startedAt + 5 * MINUTE <= now
    ensures now < a.startedAt + 5 * MINUTE && now <= later ==>
      (Retriable(CompleteIn(images, a, now)[a.image], later) <==> Stored(a.startedAt + 5 * MINUTE) <= Stored(later))
  {
  }
}
