// The life of images over any interleaving of uploads, retries, sends and
// cleanups, across the image collection and the object storage.

module ImageLife {
  import opened Common
  import opened Documents
  import opened Instants
  import opened ImageRepository
  import MessageStore

  /** How long after the clock reading of its reservation a put can still land, and
      how long after its claim a cleanup run can still complete. */
  datatype Limits = Limits(put: int, cleanup: int)

  /** A closing upload has its answer and only has to release its lease. */
  datatype Phase = Putting | PutDone | Closing(answer: Result<string, UploadError>) | Over(answer: Result<string, UploadError>)

  datatype Lease = Lease(image: string, token: string, checksum: string, reservedAt: int)

  datatype Upload =
    | Looking(c: Candidate, token: string, now: int)
    | Trying(c: Candidate, token: string, now: int, image: string)
    | Holding(lease: Lease, phase: Phase, landed: bool)
    | Answered(r: Result<string, UploadError>)

  /** A stored object, with the landing of its put and the reservation it came from. */
  datatype Object = Object(checksum: string, putAt: int, reservedAt: int)

  datatype Cleaner = Cleaner(claim: Claim, claimedAt: int, deleted: bool)

  /** `tokens` remembers the call of every upload token, `deletes` every object key
      a storage delete was issued for. */
  datatype State = State(db: Collection, objects: map<string, Object>, clock: int, uploads: map<nat, Upload>,
                         tokens: map<string, nat>, cleaners: map<nat, Cleaner>, deletes: set<string>)

  datatype Event =
    | Tick(to: int)
    | Begin(call: nat, c: Candidate, token: string, now: int)
    | LookAt(call: nat)
    | TryAcquire(call: nat)
    | PutLands(call: nat)
    | PutReturns(call: nat, ok: bool)
    | Mark(call: nat, now: int)
    | Release(call: nat)
    | Clean(id: nat, image: string, token: string, now: int)
    | Delete(id: nat)
    | Complete(id: nat, now: int)
    | Attach(p: CreateParams)

  function BeginStep(s: State, call: nat, c: Candidate, token: string, now: int): State {
    var s := s.(tokens := s.tokens[token := call]);
    if CanInsert(s.db, c)
    then s.(db := Inserted(s.db, c, token, now),
            uploads := s.uploads[call := Holding(Lease(c.id, token, c.checksum, now), Putting, false)])
    else s.(uploads := s.uploads[call := Looking(c, token, now)])
  }

  function LookStep(s: State, call: nat): State
    requires call in s.uploads && s.uploads[call].Looking?
  {
    var u := s.uploads[call];
    s.(uploads := s.uploads[call :=
      match Look(s.db, u.c, u.now)
      case Refused(e) => Answered(Err(e))
      case Finished(id) => Answered(Ok(id))
      case Unfinished(id) => Trying(u.c, u.token, u.now, id)])
  }

  function TryStep(s: State, call: nat): State
    requires call in s.uploads && s.uploads[call].Trying?
  {
    var u := s.uploads[call];
    var (images, acquired) := AcquireIn(s.db.images, u.image, u.token, u.now);
    s.(db := s.db.(images := images),
       uploads := s.uploads[call := if acquired then Holding(Lease(u.image, u.token, u.c.checksum, u.now), Putting, false)
                                    else Answered(Err(Busy))])
  }

  function CleanStep(s: State, id: nat, image: string, token: string, now: int): State {
    if image !in s.db.images then s
    else
      var d := s.db.images[image];
      if !Abandoned(d, now) && !Retriable(d, now) then s
      else
        var claimed := if Abandoned(d, now) then ClaimedFirst(d, token, now) else ClaimedAgain(d, token, now);
        s.(db := s.db.(images := s.db.images[image := claimed]),
           cleaners := s.cleaners[id := Cleaner(Claim(image, token, claimed.deleteStartedAt), now, false)])
  }

  /** Events that are not enabled leave the state as it is. Upload tokens are fresh;
      clock readings are never ahead of the clock. */
  function Step(k: Limits, s: State, e: Event): State {
    match e
    case Tick(to) => if s.clock <= to then s.(clock := to) else s
    case Begin(call, c, token, now) =>
      if call in s.uploads || token in s.tokens || now > s.clock then s else BeginStep(s, call, c, token, now)
    case LookAt(call) => if call in s.uploads && s.uploads[call].Looking? then LookStep(s, call) else s
    case TryAcquire(call) => if call in s.uploads && s.uploads[call].Trying? then TryStep(s, call) else s
    case PutLands(call) =>
      if call in s.uploads && s.uploads[call].Holding? && s.clock <= s.uploads[call].lease.reservedAt + k.put
      then
        var u := s.uploads[call];
        s.(objects := s.objects[ObjectKey(u.lease.image) := Object(u.lease.checksum, s.clock, u.lease.reservedAt)],
           uploads := s.uploads[call := u.(landed := true)])
      else s
    case PutReturns(call, ok) =>
      if call in s.uploads && s.uploads[call].Holding? && s.uploads[call].phase.Putting? && (ok ==> s.uploads[call].landed)
      then s.(uploads := s.uploads[call := s.uploads[call].(phase := if ok then PutDone else Closing(Err(StorageFailed)))])
      else s
    case Mark(call, now) =>
      if call in s.uploads && s.uploads[call].Holding? && s.uploads[call].phase.PutDone? && now <= s.clock
      then
        var u := s.uploads[call];
        var (images, modified) := MarkReadyIn(s.db.images, u.lease.image, u.lease.token, now);
        s.(db := s.db.(images := images),
           uploads := s.uploads[call := u.(phase := Closing(if modified then Ok(u.lease.image) else Err(Expired)))])
      else s
    case Release(call) =>
      if call in s.uploads && s.uploads[call].Holding? && s.uploads[call].phase.Closing?
      then
        var u := s.uploads[call];
        s.(db := s.db.(images := ReleaseIn(s.db.images, u.lease.image, u.lease.token)),
           uploads := s.uploads[call := u.(phase := Over(u.phase.answer))])
      else s
    case Clean(id, image, token, now) =>
      if id in s.cleaners || now > s.clock then s else CleanStep(s, id, image, token, now)
    case Delete(id) =>
      if id in s.cleaners
      then
        var key := ObjectKey(s.cleaners[id].claim.image);
        s.(objects := s.objects - {key}, deletes := s.deletes + {key},
           cleaners := s.cleaners[id := s.cleaners[id].(deleted := true)])
      else s
    case Complete(id, now) =>
      if id in s.cleaners && s.cleaners[id].deleted && now <= s.clock && now <= s.cleaners[id].claimedAt + k.cleanup
      then s.(db := s.db.(images := CompleteIn(s.db.images, s.cleaners[id].claim, now)))
      else s
    case Attach(p) =>
      var images := MessageStore.AttachedImages(s.db.images, p);
      if images.Some? then s.(db := s.db.(images := images.value)) else s
  }

  function Run(k: Limits, s: State, events: seq<Event>): State {
    if events == [] then s else Step(k, Run(k, s, events[..|events| - 1]), events[|events| - 1])
  }

  // ----- The invariant ----------------------------------------------------------------

  /** When a record marked deleted can be trusted: every put has landed before the
      delete of the last cleanup run, because late puts and long runs fit into the
      grace period, or because puts are over before a second claim is possible. */
  predicate Safe(k: Limits) {
    || k.put + k.cleanup <= DELETION_GRACE
    || (k.put <= UPLOAD_LEASE && k.cleanup + MILLISECOND <= DELETION_GRACE)
  }

  predicate Gone(d: ImageDocument) {
    d.status == Deleting || d.status == Deleted
  }

  predicate Stores(objects: map<string, Object>, id: string, checksum: string) {
    ObjectKey(id) in objects && objects[ObjectKey(id)].checksum == checksum
  }

  /** The lock and due time of an image in deletion. */
  predicate DeletionTimed(d: ImageDocument) {
    && d.deleteStartedAt % MILLISECOND == 0 && d.expiresAt <= d.deleteStartedAt
    && ((d.lockedUntil >= d.deleteStartedAt + UPLOAD_LEASE && d.cleanupAfter >= d.deleteStartedAt)
        || d.cleanupAfter >= d.deleteStartedAt + DELETION_GRACE)
  }

  predicate ImageHolds(k: Limits, objects: map<string, Object>, deletes: set<string>, id: string, d: ImageDocument) {
    var key := ObjectKey(id);
    && d.objectKey == key
    && (d.status == Ready || d.status == Attached ==> Stores(objects, id, d.checksum))
    && (key in objects ==>
          && objects[key].checksum == d.checksum
          && Stored(objects[key].reservedAt) < d.expiresAt && objects[key].putAt <= objects[key].reservedAt + k.put)
    && (key in deletes ==> Gone(d))
    && (d.status == Deleting ==> DeletionTimed(d))
    && (d.status == Deleted && Safe(k) ==> key !in objects)
  }

  predicate LeaseHolds(k: Limits, images: Images, objects: map<string, Object>, clock: int, u: Upload)
    requires u.Holding?
  {
    && u.lease.image in images
    && var d := images[u.lease.image];
    && u.lease.checksum == d.checksum && Stored(u.lease.reservedAt) < d.expiresAt
    && (u.landed && !Gone(d) ==> Stores(objects, u.lease.image, d.checksum))
    && (u.phase.PutDone? ==> u.landed)
    && (d.status == Deleted && Safe(k) ==> u.lease.reservedAt + k.put < clock)
  }

  predicate UploadHolds(k: Limits, images: Images, objects: map<string, Object>, clock: int, u: Upload) {
    match u
    case Trying(c, _, _, image) => image in images && images[image].checksum == c.checksum
    case Holding(_, _, _) => LeaseHolds(k, images, objects, clock, u)
    case _ => true
  }

  predicate CleanerHolds(images: Images, objects: map<string, Object>, clock: int, x: Cleaner) {
    && x.claim.image in images
    && var d := images[x.claim.image];
    && Gone(d) && x.claim.startedAt == d.deleteStartedAt && x.claimedAt <= clock
    && d.deleteStartedAt % MILLISECOND == 0 && d.expiresAt <= d.deleteStartedAt
    && (d.deleteStartedAt <= x.claimedAt < d.deleteStartedAt + MILLISECOND || x.claimedAt >= d.deleteStartedAt + UPLOAD_LEASE)
    && (x.deleted && ObjectKey(x.claim.image) in objects ==> objects[ObjectKey(x.claim.image)].putAt >= x.claimedAt)
  }

  ghost predicate ImagesHold(k: Limits, images: Images, objects: map<string, Object>, deletes: set<string>) {
    && (forall id :: id in images ==> ImageHolds(k, objects, deletes, id, images[id]))
    && (forall id :: ObjectKey(id) in objects || ObjectKey(id) in deletes ==> id in images)
  }

  ghost predicate UploadsHold(k: Limits, images: Images, objects: map<string, Object>, clock: int, uploads: map<nat, Upload>) {
    forall u :: u in uploads ==> UploadHolds(k, images, objects, clock, uploads[u])
  }

  ghost predicate CleanersHold(images: Images, objects: map<string, Object>, clock: int, cleaners: map<nat, Cleaner>) {
    forall x :: x in cleaners ==> CleanerHolds(images, objects, clock, cleaners[x])
  }

  ghost predicate Inv(k: Limits, s: State) {
    && ImagesHold(k, s.db.images, s.objects, s.deletes)
    && UploadsHold(k, s.db.images, s.objects, s.clock, s.uploads)
    && CleanersHold(s.db.images, s.objects, s.clock, s.cleaners)
  }

  // ----- One thing changed at a time ------------------------------------------------------

  /** One image document replaced, with its identity kept. */
  lemma ReplaceImageKeepsInv(k: Limits, s: State, id: string, d': ImageDocument)
    requires Inv(k, s) && id in s.db.images && ImageHolds(k, s.objects, s.deletes, id, d')
    requires
      var d := s.db.images[id];
      && d'.checksum == d.checksum && d'.expiresAt == d.expiresAt
      && (Gone(d) ==> Gone(d') && d'.deleteStartedAt == d.deleteStartedAt)
    requires d'.status == Deleted && Safe(k) ==> ClosedFor(k, s, id)
    ensures Inv(k, s.(db := s.db.(images := s.db.images[id := d'])))
  {
    var images' := s.db.images[id := d'];
    forall u | u in s.uploads ensures UploadHolds(k, images', s.objects, s.clock, s.uploads[u]) {
      assert UploadHolds(k, s.db.images, s.objects, s.clock, s.uploads[u]);
    }
    forall x | x in s.cleaners ensures CleanerHolds(images', s.objects, s.clock, s.cleaners[x]) {
      assert CleanerHolds(s.db.images, s.objects, s.clock, s.cleaners[x]);
    }
  }

  /** No put for an image can land any more. */
  ghost predicate ClosedFor(k: Limits, s: State, id: string) {
    forall u :: u in s.uploads && s.uploads[u].Holding? && s.uploads[u].lease.image == id ==>
      s.uploads[u].lease.reservedAt + k.put < s.clock
  }

  lemma SetUploadKeepsInv(k: Limits, s: State, call: nat, u: Upload, tokens: map<string, nat>)
    requires Inv(k, s) && UploadHolds(k, s.db.images, s.objects, s.clock, u)
    ensures Inv(k, s.(uploads := s.uploads[call := u], tokens := tokens))
  {
  }

  lemma BeginKeepsInv(k: Limits, s: State, call: nat, c: Candidate, token: string, now: int)
    requires Inv(k, s) && call !in s.uploads
    ensures Inv(k, BeginStep(s, call, c, token, now))
  {
    if CanInsert(s.db, c) {
      InsertKeepsInv(k, s, c.id, NewImage(c, token, now));
      var s1 := s.(db := s.db.(images := s.db.images[c.id := NewImage(c, token, now)]));
      StoredMonotone(now, now);
      assert Stored(now) < Stored(now + ABANDON_AFTER);
      SetUploadKeepsInv(k, s1, call, Holding(Lease(c.id, token, c.checksum, now), Putting, false), s.tokens[token := call]);
    } else {
      SetUploadKeepsInv(k, s, call, Looking(c, token, now), s.tokens[token := call]);
    }
  }

  lemma InsertKeepsInv(k: Limits, s: State, id: string, d: ImageDocument)
    requires Inv(k, s) && id !in s.db.images && d.objectKey == ObjectKey(id) && d.status == ImagePending
    ensures Inv(k, s.(db := s.db.(images := s.db.images[id := d])))
  {
    var images' := s.db.images[id := d];
    forall u | u in s.uploads ensures UploadHolds(k, images', s.objects, s.clock, s.uploads[u]) {
      assert UploadHolds(k, s.db.images, s.objects, s.clock, s.uploads[u]);
    }
    forall x | x in s.cleaners ensures CleanerHolds(images', s.objects, s.clock, s.cleaners[x]) {
      assert CleanerHolds(s.db.images, s.objects, s.clock, s.cleaners[x]);
    }
  }

  lemma TryKeepsInv(k: Limits, s: State, call: nat)
    requires Inv(k, s) && call in s.uploads && s.uploads[call].Trying?
    ensures Inv(k, TryStep(s, call))
  {
    var u := s.uploads[call];
    assert UploadHolds(k, s.db.images, s.objects, s.clock, u);
    var (images, acquired) := AcquireIn(s.db.images, u.image, u.token, u.now);
    if acquired {
      assert ImageHolds(k, s.objects, s.deletes, u.image, s.db.images[u.image]);
      ReplaceImageKeepsInv(k, s, u.image, images[u.image]);
      SetUploadKeepsInv(k, s.(db := s.db.(images := images)), call,
                        Holding(Lease(u.image, u.token, u.c.checksum, u.now), Putting, false), s.tokens);
    } else {
      SetUploadKeepsInv(k, s, call, Answered(Err(Busy)), s.tokens);
    }
  }

  lemma MarkKeepsInv(k: Limits, s: State, call: nat, now: int)
    requires Inv(k, s) && call in s.uploads && s.uploads[call].Holding? && s.uploads[call].phase.PutDone?
    ensures Inv(k, Step(k, s, Mark(call, now)))
  {
    var u := s.uploads[call];
    assert UploadHolds(k, s.db.images, s.objects, s.clock, u);
    var (images, ready) := MarkReadyIn(s.db.images, u.lease.image, u.lease.token, now);
    var s1 := s.(db := s.db.(images := images));
    if ready {
      assert ImageHolds(k, s.objects, s.deletes, u.lease.image, s.db.images[u.lease.image]);
      ReplaceImageKeepsInv(k, s, u.lease.image, images[u.lease.image]);
    }
    SetUploadKeepsInv(k, s1, call, u.(phase := Closing(if ready then Ok(u.lease.image) else Err(Expired))), s.tokens);
  }

  lemma ReleaseKeepsInv(k: Limits, s: State, call: nat)
    requires Inv(k, s) && call in s.uploads && s.uploads[call].Holding? && s.uploads[call].phase.Closing?
    ensures Inv(k, Step(k, s, Release(call)))
  {
    var u := s.uploads[call];
    assert UploadHolds(k, s.db.images, s.objects, s.clock, u);
    var images := ReleaseIn(s.db.images, u.lease.image, u.lease.token);
    var s1 := s.(db := s.db.(images := images));
    if Releasable(s.db.images[u.lease.image], u.lease.token) {
      assert ImageHolds(k, s.objects, s.deletes, u.lease.image, s.db.images[u.lease.image]);
      ReplaceImageKeepsInv(k, s, u.lease.image, images[u.lease.image]);
    }
    SetUploadKeepsInv(k, s1, call, u.(phase := Over(u.phase.answer)), s.tokens);
  }

  lemma AttachKeepsInv(k: Limits, s: State, p: CreateParams)
    requires Inv(k, s)
    ensures Inv(k, Step(k, s, Attach(p)))
  {
    var images := MessageStore.AttachedImages(s.db.images, p);
    var id := p.message.content.imageID;
    if images.Some? && images.value != s.db.images {
      assert ImageHolds(k, s.objects, s.deletes, id, s.db.images[id]);
      ReplaceImageKeepsInv(k, s, id, images.value[id]);
    }
  }

  lemma PutKeepsInv(k: Limits, s: State, call: nat)
    requires Inv(k, s) && call in s.uploads && s.uploads[call].Holding?
    ensures Inv(k, Step(k, s, PutLands(call)))
  {
    var u := s.uploads[call];
    assert UploadHolds(k, s.db.images, s.objects, s.clock, u);
    var id, key := u.lease.image, ObjectKey(u.lease.image);
    var s' := Step(k, s, PutLands(call));
    if s' != s {
      forall other ensures ObjectKey(other) == key ==> other == id {
        if ObjectKey(other) == key { ObjectKeysAreInjective(other, id); }
      }
      forall x | x in s.cleaners ensures CleanerHolds(s'.db.images, s'.objects, s'.clock, s'.cleaners[x]) {
        assert CleanerHolds(s.db.images, s.objects, s.clock, s.cleaners[x]);
      }
      forall v | v in s'.uploads ensures UploadHolds(k, s'.db.images, s'.objects, s'.clock, s'.uploads[v]) {
        if v != call { assert UploadHolds(k, s.db.images, s.objects, s.clock, s.uploads[v]); }
      }
    }
  }

  lemma DeleteKeepsInv(k: Limits, s: State, id: nat)
    requires Inv(k, s) && id in s.cleaners
    ensures Inv(k, Step(k, s, Delete(id)))
  {
    var x := s.cleaners[id];
    assert CleanerHolds(s.db.images, s.objects, s.clock, x);
    var image, key := x.claim.image, ObjectKey(x.claim.image);
    var s' := Step(k, s, Delete(id));
    forall other ensures ObjectKey(other) == key ==> other == image {
      if ObjectKey(other) == key { ObjectKeysAreInjective(other, image); }
    }
    forall y | y in s'.cleaners ensures CleanerHolds(s'.db.images, s'.objects, s'.clock, s'.cleaners[y]) {
      assert CleanerHolds(s.db.images, s.objects, s.clock, s.cleaners[y]);
    }
    forall v | v in s'.uploads ensures UploadHolds(k, s'.db.images, s'.objects, s'.clock, s'.uploads[v]) {
      assert UploadHolds(k, s.db.images, s.objects, s.clock, s.uploads[v]);
    }
  }

  lemma CleanKeepsInv(k: Limits, s: State, id: nat, image: string, token: string, now: int)
    requires Inv(k, s) && now <= s.clock && id !in s.cleaners
    ensures Inv(k, CleanStep(s, id, image, token, now))
  {
    if image in s.db.images {
      var d := s.db.images[image];
      assert ImageHolds(k, s.objects, s.deletes, image, d);
      var d' := if Abandoned(d, now) then ClaimedFirst(d, token, now) else ClaimedAgain(d, token, now);
      if Abandoned(d, now) || Retriable(d, now) {
        ClaimIsTimed(d, token, now);
        assert ImageHolds(k, s.objects, s.deletes, image, d');
        assert d'.status == Deleting && d'.checksum == d.checksum && d'.expiresAt == d.expiresAt
            && (Gone(d) ==> d'.deleteStartedAt == d.deleteStartedAt);
        var x := Cleaner(Claim(image, token, d'.deleteStartedAt), now, false);
        assert CleanerHolds(s.db.images[image := d'], s.objects, s.clock, x);
        hide Inv;
        hide ImageHolds;
        hide CleanerHolds;
        hide ClaimedFirst;
        hide ClaimedAgain;
        ReplaceImageKeepsInv(k, s, image, d');
        AddCleanerKeepsInv(k, s.(db := s.db.(images := s.db.images[image := d'])), id, x);
      }
    }
  }

  lemma AddCleanerKeepsInv(k: Limits, s: State, id: nat, x: Cleaner)
    requires Inv(k, s) && CleanerHolds(s.db.images, s.objects, s.clock, x)
    ensures Inv(k, s.(cleaners := s.cleaners[id := x]))
  {
    hide UploadsHold;
    hide ImagesHold;
    hide CleanerHolds;
  }

  lemma ClaimIsTimed(d: ImageDocument, token: string, now: int)
    requires Abandoned(d, now) || (Retriable(d, now) && DeletionTimed(d))
    ensures
      var d' := if Abandoned(d, now) then ClaimedFirst(d, token, now) else ClaimedAgain(d, token, now);
      && DeletionTimed(d')
      && (d'.deleteStartedAt <= now < d'.deleteStartedAt + MILLISECOND || now >= d'.deleteStartedAt + UPLOAD_LEASE)
  {
    StoredShifts(now, UPLOAD_LEASE);
  }

  /** Whole milliseconds pass through the rounding. */
  lemma StoredShifts(t: int, whole: int)
    requires whole % MILLISECOND == 0
    ensures Stored(t + whole) == Stored(t) + whole
  {
  }

  /** A reservation the database accepted before an expiry was earlier, to the
      nanosecond, than a deletion that started at or after it. */
  lemma ReservedBefore(reservedAt: int, expiresAt: int, startedAt: int)
    requires Stored(reservedAt) < expiresAt <= startedAt && startedAt % MILLISECOND == 0
    ensures reservedAt < startedAt
  {
    assert Stored(reservedAt) % MILLISECOND == 0;
  }

  /** A run that completes after the grace period claimed the image when no put
      could land any more. */
  lemma LateRunClaimedLate(k: Limits, startedAt: int, claimedAt: int, now: int)
    requires Safe(k) && startedAt + DELETION_GRACE <= now <= claimedAt + k.cleanup
    requires startedAt <= claimedAt < startedAt + MILLISECOND || claimedAt >= startedAt + UPLOAD_LEASE
    ensures startedAt + k.put <= claimedAt
  {
  }

  lemma CompleteKeepsInv(k: Limits, s: State, id: nat, now: int)
    requires Inv(k, s)
    ensures Inv(k, Step(k, s, Complete(id, now)))
  {
    if Step(k, s, Complete(id, now)) != s {
      var x := s.cleaners[id];
      assert CleanerHolds(s.db.images, s.objects, s.clock, x);
      var image, a := x.claim.image, x.claim;
      var d := s.db.images[image];
      assert ImageHolds(k, s.objects, s.deletes, image, d);
      if Completable(d, a) {
        var images' := CompleteIn(s.db.images, a, now);
        assert Stored(a.startedAt + DELETION_GRACE) == a.startedAt + DELETION_GRACE;
        if Safe(k) && images'[image].status == Deleted {
          LateRunClaimedLate(k, a.startedAt, x.claimedAt, now);
          if ObjectKey(image) in s.objects {
            ReservedBefore(s.objects[ObjectKey(image)].reservedAt, d.expiresAt, a.startedAt);
          }
          forall u | u in s.uploads && s.uploads[u].Holding? && s.uploads[u].lease.image == image
            ensures s.uploads[u].lease.reservedAt + k.put < s.clock
          {
            assert UploadHolds(k, s.db.images, s.objects, s.clock, s.uploads[u]);
            ReservedBefore(s.uploads[u].lease.reservedAt, d.expiresAt, a.startedAt);
          }
        }
        ReplaceImageKeepsInv(k, s, image, images'[image]);
      }
    }
  }

  lemma TickKeepsInv(k: Limits, s: State, to: int)
    requires Inv(k, s)
    ensures Inv(k, Step(k, s, Tick(to)))
  {
    if s.clock <= to {
      forall u | u in s.uploads ensures UploadHolds(k, s.db.images, s.objects, to, s.uploads[u]) {
        assert UploadHolds(k, s.db.images, s.objects, s.clock, s.uploads[u]);
      }
      forall x | x in s.cleaners ensures CleanerHolds(s.db.images, s.objects, to, s.cleaners[x]) {
        assert CleanerHolds(s.db.images, s.objects, s.clock, s.cleaners[x]);
      }
    }
  }

  lemma StepKeepsInv(k: Limits, s: State, e: Event)
    requires Inv(k, s)
    ensures Inv(k, Step(k, s, e))
  {
    hide ImagesHold;
    hide CleanersHold;
    hide BeginStep;
    hide TryStep;
    hide CleanStep;
    hide MarkReadyIn;
    hide ReleaseIn;
    hide CompleteIn;
    hide MessageStore.AttachedImages;
    match e
    case Tick(to) => TickKeepsInv(k, s, to);
    case Begin(call, c, token, now) => if call !in s.uploads { BeginKeepsInv(k, s, call, c, token, now); }
    case LookAt(call) =>
      if call in s.uploads && s.uploads[call].Looking? {
        SetUploadKeepsInv(k, s, call, LookStep(s, call).uploads[call], s.tokens);
      }
    case TryAcquire(call) => if call in s.uploads && s.uploads[call].Trying? { TryKeepsInv(k, s, call); }
    case PutLands(call) => if call in s.uploads && s.uploads[call].Holding? { PutKeepsInv(k, s, call); }
    case PutReturns(call, ok) =>
      if Step(k, s, e) != s {
        assert UploadHolds(k, s.db.images, s.objects, s.clock, s.uploads[call]);
        SetUploadKeepsInv(k, s, call, s.uploads[call].(phase := if ok then PutDone else Closing(Err(StorageFailed))), s.tokens);
      }
    case Mark(call, now) =>
      if call in s.uploads && s.uploads[call].Holding? && s.uploads[call].phase.PutDone? { MarkKeepsInv(k, s, call, now); }
    case Release(call) => if call in s.uploads && s.uploads[call].Holding? && s.uploads[call].phase.Closing? { ReleaseKeepsInv(k, s, call); }
    case Clean(id, image, token, now) =>
      if id !in s.cleaners && now <= s.clock { CleanKeepsInv(k, s, id, image, token, now); }
    case Delete(id) => if id in s.cleaners { DeleteKeepsInv(k, s, id); }
    case Complete(id, now) => CompleteKeepsInv(k, s, id, now);
    case Attach(p) => AttachKeepsInv(k, s, p);
  }

  lemma {:induction false} RunKeepsInv(k: Limits, s: State, events: seq<Event>)
    requires Inv(k, s)
    ensures Inv(k, Run(k, s, events))
  {
    if events != [] {
      RunKeepsInv(k, s, events[..|events| - 1]);
      StepKeepsInv(k, Run(k, s, events[..|events| - 1]), events[|events| - 1]);
    }
  }

  // ----- Main results ----------------------------------------------------------------------

  function Start(): State {
    State(Collection(map[], map[]), map[], 0, map[], map[], map[], {})
  }

  /** A sendable or sent image has its bytes, and nobody has ever issued a delete
      for them: cleanup only touches what can no longer be sent. */
  lemma ReadableImagesHaveTheirBytes(k: Limits, events: seq<Event>, id: string)
    requires
      var s := Run(k, Start(), events);
      id in s.db.images && (s.db.images[id].status == Ready || s.db.images[id].status == Attached)
    ensures
      var s := Run(k, Start(), events);
      && s.db.images[id].objectKey == ObjectKey(id)
      && ObjectKey(id) in s.objects && s.objects[ObjectKey(id)].checksum == s.db.images[id].checksum
      && ObjectKey(id) !in s.deletes
  {
    RunKeepsInv(k, Start(), events);
    var s := Run(k, Start(), events);
    assert ImageHolds(k, s.objects, s.deletes, id, s.db.images[id]);
  }

  /** Under the timing assumption, a record marked deleted has no bytes left. */
  lemma DeletedMeansNoBytes(k: Limits, events: seq<Event>, id: string)
    requires Safe(k)
    requires var s := Run(k, Start(), events); id in s.db.images && s.db.images[id].status == Deleted
    ensures ObjectKey(id) !in Run(k, Start(), events).objects
  {
    RunKeepsInv(k, Start(), events);
    var s := Run(k, Start(), events);
    assert ImageHolds(k, s.objects, s.deletes, id, s.db.images[id]);
  }

  /** How an image's status may change in one step, and what never changes. */
  predicate Evolves(d: ImageDocument, d': ImageDocument) {
    && d'.uploadedBy == d.uploadedBy && d'.chatID == d.chatID && d'.clientUploadID == d.clientUploadID
    && d'.objectKey == d.objectKey && d'.checksum == d.checksum && d'.sizeBytes == d.sizeBytes && d'.expiresAt == d.expiresAt
    && match d.status
       case ImagePending => d'.status == ImagePending || d'.status == Ready || d'.status == Deleting
       case Ready => d'.status == Ready || d'.status == Attached || d'.status == Deleting
       case Attached => d' == d
       case Deleting => d'.status == Deleting || d'.status == Deleted
       case Deleted => d' == d
  }

  predicate EvolvesIn(images: map<string, ImageDocument>, images': map<string, ImageDocument>, id: string) {
    id in images ==> id in images' && Evolves(images[id], images'[id])
  }

  lemma UploadsEvolve(images: map<string, ImageDocument>, id: string, other: string, token: string, now: int)
    ensures EvolvesIn(images, AcquireIn(images, other, token, now).0, id)
    ensures EvolvesIn(images, MarkReadyIn(images, other, token, now).0, id)
    ensures EvolvesIn(images, ReleaseIn(images, other, token), id)
  {
  }

  lemma ClaimedEvolves(d: ImageDocument, token: string, now: int)
    ensures Abandoned(d, now) ==> Evolves(d, ClaimedFirst(d, token, now))
    ensures Retriable(d, now) ==> Evolves(d, ClaimedAgain(d, token, now))
    ensures Evolves(d, d)
  {
  }

  lemma ClaimEvolves(s: State, id: string, cleaner: nat, image: string, token: string, now: int)
    ensures EvolvesIn(s.db.images, CleanStep(s, cleaner, image, token, now).db.images, id)
  {
    hide Evolves;
    hide ClaimedFirst;
    hide ClaimedAgain;
    hide Abandoned;
    hide Retriable;
    if id in s.db.images {
      ClaimedEvolves(s.db.images[id], token, now);
    }
  }

  lemma CompletionEvolves(images: map<string, ImageDocument>, id: string, a: Claim, now: int)
    ensures EvolvesIn(images, CompleteIn(images, a, now), id)
  {
  }

  lemma SendingEvolves(images: map<string, ImageDocument>, id: string, p: CreateParams)
    ensures
      var images' := MessageStore.AttachedImages(images, p);
      images'.Some? ==> EvolvesIn(images, images'.value, id)
  {
  }

  lemma StepEvolves(k: Limits, s: State, e: Event, id: string)
    requires id in s.db.images
    ensures id in Step(k, s, e).db.images && Evolves(s.db.images[id], Step(k, s, e).db.images[id])
  {
    hide AcquireIn;
    hide MarkReadyIn;
    hide ReleaseIn;
    hide CompleteIn;
    hide CleanStep;
    hide Look;
    hide NewImage;
    hide MessageStore.AttachedImages;
    match e
    case TryAcquire(call) =>
      if call in s.uploads && s.uploads[call].Trying? {
        UploadsEvolve(s.db.images, id, s.uploads[call].image, s.uploads[call].token, s.uploads[call].now);
      }
    case Mark(call, now) =>
      if call in s.uploads && s.uploads[call].Holding? {
        UploadsEvolve(s.db.images, id, s.uploads[call].lease.image, s.uploads[call].lease.token, now);
      }
    case Release(call) =>
      if call in s.uploads && s.uploads[call].Holding? {
        UploadsEvolve(s.db.images, id, s.uploads[call].lease.image, s.uploads[call].lease.token, 0);
      }
    case Clean(cleaner, image, token, now) => ClaimEvolves(s, id, cleaner, image, token, now);
    case Complete(cleaner, now) =>
      if cleaner in s.cleaners { CompletionEvolves(s.db.images, id, s.cleaners[cleaner].claim, now); }
    case Attach(p) => SendingEvolves(s.db.images, id, p);
    case _ =>
  }

  /** Sent images and deleted records never change again, so a deleted record's
      bytes stay absent. */
  lemma {:induction false} FinalStatusesStay(k: Limits, s: State, events: seq<Event>, id: string)
    requires id in s.db.images && (s.db.images[id].status == Attached || s.db.images[id].status == Deleted)
    ensures id in Run(k, s, events).db.images && Run(k, s, events).db.images[id] == s.db.images[id]
  {
    if events != [] {
      FinalStatusesStay(k, s, events[..|events| - 1], id);
      StepEvolves(k, Run(k, s, events[..|events| - 1]), events[|events| - 1], id);
    }
  }

  // ----- Upload tokens -----------------------------------------------------------------------

  function TokenOf(u: Upload): Option<string> {
    match u
    case Looking(_, token, _) => Some(token)
    case Trying(_, token, _, _) => Some(token)
    case Holding(lease, _, _) => Some(lease.token)
    case Answered(_) => None
  }

  predicate HeldBy(uploads: map<nat, Upload>, call: nat, image: string, token: string) {
    call in uploads && uploads[call].Holding? && uploads[call].lease.image == image && uploads[call].lease.token == token
  }

  /** Each token belongs to one call; an image carries the token of a call that holds it. */
  ghost predicate TokensHold(images: Images, uploads: map<nat, Upload>, tokens: map<string, nat>) {
    && (forall call :: call in uploads && TokenOf(uploads[call]).Some? ==>
          TokenOf(uploads[call]).value in tokens && tokens[TokenOf(uploads[call]).value] == call)
    && (forall id :: id in images && images[id].uploadToken.Some? ==>
          images[id].uploadToken.value in tokens && HeldBy(uploads, tokens[images[id].uploadToken.value], id, images[id].uploadToken.value))
    && (forall call :: call in uploads && uploads[call].Holding? ==> uploads[call].lease.image in images)
  }

  /** Images change without anybody being given a token. */
  lemma NoTokenGiven(images: Images, images': Images, uploads: map<nat, Upload>, tokens: map<string, nat>)
    requires TokensHold(images, uploads, tokens)
    requires images'.Keys == images.Keys
    requires forall id :: id in images ==> images'[id].uploadToken == None || images'[id].uploadToken == images[id].uploadToken
    ensures TokensHold(images', uploads, tokens)
  {
  }

  /** A call moves on with its token and lease, or ends. */
  lemma CallMovesOn(images: Images, uploads: map<nat, Upload>, tokens: map<string, nat>, call: nat, u: Upload)
    requires TokensHold(images, uploads, tokens) && call in uploads
    requires TokenOf(u) == None || TokenOf(u) == TokenOf(uploads[call])
    requires uploads[call].Holding? ==> u.Holding? && u.lease == uploads[call].lease
    requires u.Holding? ==> u.lease.image in images
    ensures TokensHold(images, uploads[call := u], tokens)
  {
  }

  /** A call is given an image's lease: a new image's, or a lapsed one's. */
  lemma TokenGiven(images: Images, uploads: map<nat, Upload>, tokens: map<string, nat>, call: nat, id: string, d: ImageDocument,
                   lease: Lease)
    requires TokensHold(images, uploads, tokens)
    requires lease.token in tokens && tokens[lease.token] == call
    requires call in uploads ==> !uploads[call].Holding?
    requires forall c :: c in uploads && c != call && TokenOf(uploads[c]).Some? ==> TokenOf(uploads[c]).value != lease.token
    requires d.uploadToken == Some(lease.token) && lease.image == id
    ensures TokensHold(images[id := d], uploads[call := Holding(lease, Putting, false)], tokens)
  {
  }

  lemma FreshToken(images: Images, uploads: map<nat, Upload>, tokens: map<string, nat>, call: nat, token: string)
    requires TokensHold(images, uploads, tokens) && token !in tokens
    ensures TokensHold(images, uploads, tokens[token := call])
  {
  }

  lemma StepKeepsTokens(k: Limits, s: State, e: Event)
    requires TokensHold(s.db.images, s.uploads, s.tokens)
    ensures var s' := Step(k, s, e); TokensHold(s'.db.images, s'.uploads, s'.tokens)
  {
    hide TokensHold;
    hide TokenOf;
    match e
    case Begin(call, c, token, now) => if Step(k, s, e) != s { BeginKeepsTokens(s, call, c, token, now); }
    case TryAcquire(call) => if call in s.uploads && s.uploads[call].Trying? { TryKeepsTokens(s, call); }
    case LookAt(call) => if call in s.uploads && s.uploads[call].Looking? { LookKeepsTokens(s, call); }
    case _ => OthersKeepTokens(k, s, e);
  }

  lemma BeginKeepsTokens(s: State, call: nat, c: Candidate, token: string, now: int)
    requires TokensHold(s.db.images, s.uploads, s.tokens) && call !in s.uploads && token !in s.tokens
    ensures var s' := BeginStep(s, call, c, token, now); TokensHold(s'.db.images, s'.uploads, s'.tokens)
  {
    FreshToken(s.db.images, s.uploads, s.tokens, call, token);
    assert forall x :: x in s.uploads && TokenOf(s.uploads[x]).Some? ==> TokenOf(s.uploads[x]).value in s.tokens;
    hide TokensHold;
    hide CanInsert;
    var tokens := s.tokens[token := call];
    if CanInsert(s.db, c) {
      TokenGiven(s.db.images, s.uploads, tokens, call, c.id, NewImage(c, token, now), Lease(c.id, token, c.checksum, now));
    } else {
      NewCallKeepsTokens(s.db.images, s.uploads, tokens, call, Looking(c, token, now));
    }
  }

  lemma NewCallKeepsTokens(images: Images, uploads: map<nat, Upload>, tokens: map<string, nat>, call: nat, u: Upload)
    requires TokensHold(images, uploads, tokens) && call !in uploads && u.Looking?
    requires u.token in tokens && tokens[u.token] == call
    ensures TokensHold(images, uploads[call := u], tokens)
  {
  }

  lemma LookKeepsTokens(s: State, call: nat)
    requires TokensHold(s.db.images, s.uploads, s.tokens) && call in s.uploads && s.uploads[call].Looking?
    ensures var s' := LookStep(s, call); TokensHold(s'.db.images, s'.uploads, s'.tokens)
  {
    hide TokensHold;
    CallMovesOn(s.db.images, s.uploads, s.tokens, call, LookStep(s, call).uploads[call]);
  }

  lemma TryKeepsTokens(s: State, call: nat)
    requires TokensHold(s.db.images, s.uploads, s.tokens) && call in s.uploads && s.uploads[call].Trying?
    ensures var s' := TryStep(s, call); TokensHold(s'.db.images, s'.uploads, s'.tokens)
  {
    var u := s.uploads[call];
    var (images, acquired) := AcquireIn(s.db.images, u.image, u.token, u.now);
    assert TokenOf(u) == Some(u.token);
    if acquired {
      TokenGiven(s.db.images, s.uploads, s.tokens, call, u.image, images[u.image], Lease(u.image, u.token, u.c.checksum, u.now));
    } else {
      CallMovesOn(s.db.images, s.uploads, s.tokens, call, Answered(Err(Busy)));
    }
  }

  lemma OthersGiveNoToken(k: Limits, s: State, e: Event, id: string)
    requires !e.Begin? && !e.TryAcquire? && !e.LookAt?
    ensures
      var s' := Step(k, s, e);
      && s'.tokens == s.tokens
      && (id in s'.db.images <==> id in s.db.images)
      && (id in s.db.images ==>
            s'.db.images[id].uploadToken == None || s'.db.images[id].uploadToken == s.db.images[id].uploadToken)
  {
  }

  lemma OthersMoveCalls(k: Limits, s: State, e: Event)
    requires !e.Begin? && !e.TryAcquire? && !e.LookAt?
    ensures
      var s' := Step(k, s, e);
      || s'.uploads == s.uploads
      || ((e.PutLands? || e.PutReturns? || e.Mark? || e.Release?)
          && e.call in s.uploads && s.uploads[e.call].Holding?
          && exists phase, landed :: s'.uploads == s.uploads[e.call := Holding(s.uploads[e.call].lease, phase, landed)])
  {
    hide AcquireIn;
    hide MarkReadyIn;
    hide ReleaseIn;
    hide CompleteIn;
    var s' := Step(k, s, e);
    if (e.PutLands? || e.PutReturns? || e.Mark? || e.Release?) && s' != s {
      assert s'.uploads == s.uploads[e.call := Holding(s.uploads[e.call].lease, s'.uploads[e.call].phase, s'.uploads[e.call].landed)];
    }
  }

  lemma OthersKeepTokens(k: Limits, s: State, e: Event)
    requires TokensHold(s.db.images, s.uploads, s.tokens) && !e.Begin? && !e.TryAcquire? && !e.LookAt?
    ensures var s' := Step(k, s, e); TokensHold(s'.db.images, s'.uploads, s'.tokens)
  {
    var s' := Step(k, s, e);
    forall id
      ensures id in s'.db.images <==> id in s.db.images
      ensures id in s.db.images ==>
        s'.db.images[id].uploadToken == None || s'.db.images[id].uploadToken == s.db.images[id].uploadToken
    {
      OthersGiveNoToken(k, s, e, id);
    }
    OthersGiveNoToken(k, s, e, "");
    OthersMoveCalls(k, s, e);
    hide Step;
    NoTokenGiven(s.db.images, s'.db.images, s.uploads, s.tokens);
    if s'.uploads != s.uploads {
      var phase, landed :| s'.uploads == s.uploads[e.call := Holding(s.uploads[e.call].lease, phase, landed)];
      assert s.uploads[e.call].lease.image in s'.db.images;
      hide TokensHold;
      CallMovesOn(s'.db.images, s.uploads, s.tokens, e.call, Holding(s.uploads[e.call].lease, phase, landed));
    }
  }

  lemma {:induction false} RunKeepsTokens(k: Limits, s: State, events: seq<Event>)
    requires TokensHold(s.db.images, s.uploads, s.tokens)
    ensures var s' := Run(k, s, events); TokensHold(s'.db.images, s'.uploads, s'.tokens)
  {
    if events != [] {
      RunKeepsTokens(k, s, events[..|events| - 1]);
      StepKeepsTokens(k, Run(k, s, events[..|events| - 1]), events[|events| - 1]);
    }
  }

  /** A call whose lease somebody else took over, or nobody holds any more. */
  predicate Superseded(s: State, call: nat, lease: Lease) {
    && call in s.uploads && s.uploads[call].Holding? && s.uploads[call].lease == lease
    && lease.image in s.db.images && s.db.images[lease.image].uploadToken != Some(lease.token)
  }

  lemma StepKeepsSuperseded(k: Limits, s: State, e: Event, call: nat, lease: Lease)
    requires TokensHold(s.db.images, s.uploads, s.tokens) && Superseded(s, call, lease)
    ensures Superseded(Step(k, s, e), call, lease)
  {
    if e.Begin? {
      BeginKeepsSuperseded(s, e.call, e.c, e.token, e.now, call, lease);
    } else if e.TryAcquire? {
      if e.call in s.uploads && s.uploads[e.call].Trying? { TryKeepsSuperseded(s, e.call, call, lease); }
    } else if !e.LookAt? {
      hide TokensHold;
      hide Step;
      OthersGiveNoToken(k, s, e, lease.image);
      OthersMoveCalls(k, s, e);
    } else {
      hide TokensHold;
      hide Look;
    }
  }

  lemma BeginKeepsSuperseded(s: State, begun: nat, c: Candidate, token: string, now: int, call: nat, lease: Lease)
    requires Superseded(s, call, lease)
    ensures begun !in s.uploads ==> Superseded(BeginStep(s, begun, c, token, now), call, lease)
  {
    hide NewImage;
  }

  /** A lease is only ever given to a call that is still trying, with that call's token. */
  lemma TryKeepsSuperseded(s: State, trying: nat, call: nat, lease: Lease)
    requires TokensHold(s.db.images, s.uploads, s.tokens) && Superseded(s, call, lease)
    requires trying in s.uploads && s.uploads[trying].Trying?
    ensures Superseded(TryStep(s, trying), call, lease)
  {
    assert TokenOf(s.uploads[trying]).value in s.tokens && s.tokens[TokenOf(s.uploads[trying]).value] == trying;
    assert TokenOf(s.uploads[call]).value in s.tokens && s.tokens[TokenOf(s.uploads[call]).value] == call;
    hide TokensHold;
  }

  lemma {:induction false} StaysSuperseded(k: Limits, s: State, events: seq<Event>, call: nat, lease: Lease)
    requires TokensHold(s.db.images, s.uploads, s.tokens) && Superseded(s, call, lease)
    ensures Superseded(Run(k, s, events), call, lease)
  {
    if events != [] {
      StaysSuperseded(k, s, events[..|events| - 1], call, lease);
      RunKeepsTokens(k, s, events[..|events| - 1]);
      StepKeepsSuperseded(k, Run(k, s, events[..|events| - 1]), events[|events| - 1], call, lease);
    }
  }

  /** From the moment a lease is lost, whatever happens, its token can neither mark
      the image ready nor release the new holder's lease. */
  lemma SupersededTokenDoesNothing(k: Limits, before: seq<Event>, after: seq<Event>, call: nat, lease: Lease, now: int)
    requires Superseded(Run(k, Start(), before), call, lease)
    ensures
      var images := Run(k, Run(k, Start(), before), after).db.images;
      && MarkReadyIn(images, lease.image, lease.token, now) == (images, false)
      && ReleaseIn(images, lease.image, lease.token) == images
  {
    RunKeepsTokens(k, Start(), before);
    StaysSuperseded(k, Run(k, Start(), before), after, call, lease);
  }

  // ----- One image per upload ---------------------------------------------------------------

  function UploadKeyOf(d: ImageDocument): UploadKey {
    (d.uploadedBy, d.clientUploadID)
  }

  /** The unique index lists every image under its uploader and client upload. */
  ghost predicate UploadsIndexed(db: Collection) {
    && (forall k :: k in db.byUpload ==> db.byUpload[k] in db.images && UploadKeyOf(db.images[db.byUpload[k]]) == k)
    && (forall id :: id in db.images ==>
          UploadKeyOf(db.images[id]) in db.byUpload && db.byUpload[UploadKeyOf(db.images[id])] == id)
  }

  /** Steps that insert nothing keep identities and the index. */
  lemma EvolutionKeepsIndex(db: Collection, images': map<string, ImageDocument>)
    requires UploadsIndexed(db) && images'.Keys == db.images.Keys
    requires forall id :: id in db.images ==> UploadKeyOf(images'[id]) == UploadKeyOf(db.images[id])
    ensures UploadsIndexed(db.(images := images'))
  {
  }

  lemma StepInsertsNothing(k: Limits, s: State, e: Event, id: string)
    requires !e.Begin?
    ensures Step(k, s, e).db.byUpload == s.db.byUpload && (id in Step(k, s, e).db.images ==> id in s.db.images)
  {
    hide Look;
  }

  lemma StepKeepsIndex(k: Limits, s: State, e: Event)
    requires UploadsIndexed(s.db)
    ensures UploadsIndexed(Step(k, s, e).db)
  {
    var db' := Step(k, s, e).db;
    if e.Begin? {
    } else {
      forall id
        ensures id in db'.images <==> id in s.db.images
        ensures id in s.db.images ==> UploadKeyOf(db'.images[id]) == UploadKeyOf(s.db.images[id])
      {
        StepInsertsNothing(k, s, e, id);
        if id in s.db.images { StepEvolves(k, s, e, id); }
      }
      StepInsertsNothing(k, s, e, "");
      hide Step;
      EvolutionKeepsIndex(s.db, db'.images);
    }
  }

  lemma {:induction false} RunKeepsIndex(k: Limits, s: State, events: seq<Event>)
    requires UploadsIndexed(s.db)
    ensures UploadsIndexed(Run(k, s, events).db)
  {
    hide Step;
    if events != [] {
      RunKeepsIndex(k, s, events[..|events| - 1]);
      StepKeepsIndex(k, Run(k, s, events[..|events| - 1]), events[|events| - 1]);
    }
  }

  /** However often an upload is repeated, it has one image, and a repetition that is
      pointed to an image is pointed to this one, of the same chat, checksum and
      size. */
  lemma RepeatedUploadMeetsItsImage(k: Limits, events: seq<Event>, c: Candidate, now: int, id: string)
    requires
      var s := Run(k, Start(), events);
      id in s.db.images && UploadKeyOf(s.db.images[id]) == (c.uploadedBy, c.clientUploadID)
    ensures
      var s := Run(k, Start(), events);
      var d, seen := s.db.images[id], Look(s.db, c, now);
      && !CanInsert(s.db, c) && seen != Refused(Missing)
      && (seen == Refused(Conflict) <==> d.chatID != c.chatID || d.checksum != c.checksum || d.sizeBytes != c.sizeBytes)
      && (seen == Refused(Expired) <==> seen != Refused(Conflict) && (Gone(d) || (d.status != Attached && d.expiresAt <= now)))
      && (seen.Finished? || seen.Unfinished? ==> seen.image == id && (seen.Finished? <==> d.status == Ready || d.status == Attached))
  {
    RunKeepsIndex(k, Start(), events);
  }
}
