// Image documents: upload leases, readiness, and cleanup in two passes.

module ImageRepository {
  import opened Common
  import opened Documents
  import opened Instants

  const UPLOAD_LEASE: int := 2 * MINUTE
  const ABANDON_AFTER: int := 24 * HOUR
  const DELETION_GRACE: int := 5 * MINUTE

  type Images = map<string, ImageDocument>

  /** What an upload request brings. */
  datatype Candidate = Candidate(id: string, uploadedBy: string, chatID: string, clientUploadID: string,
                                 checksum: string, sizeBytes: int)

  type UploadKey = (string, string)

  /** The collection with its unique index on (uploader, client upload). */
  datatype Collection = Collection(images: Images, byUpload: map<UploadKey, string>)

  function ObjectKey(id: string): string {
    "images/" + id
  }

  lemma ObjectKeysAreInjective(a: string, b: string)
    requires ObjectKey(a) == ObjectKey(b)
    ensures a == b
  {
    assert ObjectKey(a)[7..] == a && ObjectKey(b)[7..] == b;
  }

  // ----- Reservation -----------------------------------------------------------------

  datatype UploadError = Conflict | Expired | Busy | Missing | StorageFailed

  function NewImage(c: Candidate, token: string, now: int): ImageDocument {
    ImageDocument(c.uploadedBy, c.chatID, c.clientUploadID, ObjectKey(c.id), c.checksum, c.sizeBytes,
                  ImagePending, None, Some(token), None, Stored(now + ABANDON_AFTER), Stored(now + UPLOAD_LEASE), 0, 0)
  }

  predicate CanInsert(db: Collection, c: Candidate) {
    c.id !in db.images && (c.uploadedBy, c.clientUploadID) !in db.byUpload
  }

  function Inserted(db: Collection, c: Candidate, token: string, now: int): Collection {
    Collection(db.images[c.id := NewImage(c, token, now)], db.byUpload[(c.uploadedBy, c.clientUploadID) := c.id])
  }

  /** What reading the existing document of a duplicate upload leads to: its
      finished asset, an error, or an attempt to take over its lapsed lease. */
  datatype Seen = Finished(image: string) | Refused(error: UploadError) | Unfinished(image: string)

  function Look(db: Collection, c: Candidate, now: int): Seen {
    var key := (c.uploadedBy, c.clientUploadID);
    if key !in db.byUpload || db.byUpload[key] !in db.images then Refused(Missing)
    else
      var id := db.byUpload[key];
      var d := db.images[id];
      if d.chatID != c.chatID || d.checksum != c.checksum || d.sizeBytes != c.sizeBytes then Refused(Conflict)
      else if d.status == Attached || d.status == Ready then
        if d.status == Ready && d.expiresAt <= now then Refused(Expired) else Finished(id)
      else if d.status != ImagePending || d.expiresAt <= now then Refused(Expired)
      else Unfinished(id)
  }

  predicate Acquirable(d: ImageDocument, now: int) {
    d.status == ImagePending && d.expiresAt > Stored(now) && d.lockedUntil <= Stored(now)
  }

  function AcquireIn(images: Images, id: string, token: string, now: int): (Images, bool) {
    if id in images && Acquirable(images[id], now)
    then (images[id := images[id].(uploadToken := Some(token), lockedUntil := Stored(now + UPLOAD_LEASE))], true)
    else (images, false)
  }

  // ----- The end of an upload -----------------------------------------------------------

  predicate Readiable(d: ImageDocument, token: string, now: int) {
    && d.status == ImagePending && d.uploadToken == Some(token)
    && d.expiresAt > Stored(now) && d.lockedUntil > Stored(now)
  }

  function MarkReadyIn(images: Images, id: string, token: string, now: int): (Images, bool) {
    if id in images && Readiable(images[id], token, now)
    then (images[id := images[id].(status := Ready, lockedUntil := Stored(now), uploadToken := None)], true)
    else (images, false)
  }

  predicate Releasable(d: ImageDocument, token: string) {
    d.status == ImagePending && d.uploadToken == Some(token)
  }

  function ReleaseIn(images: Images, id: string, token: string): Images {
    if id in images && Releasable(images[id], token)
    then images[id := images[id].(lockedUntil := 0, uploadToken := None)]
    else images
  }

  // ----- Cleanup ---------------------------------------------------------------------------

  predicate Abandoned(d: ImageDocument, now: int) {
    (d.status == ImagePending || d.status == Ready) && d.expiresAt <= Stored(now) && d.lockedUntil <= Stored(now)
  }

  predicate Retriable(d: ImageDocument, now: int) {
    d.status == Deleting && d.cleanupAfter <= Stored(now) && d.lockedUntil <= Stored(now)
  }

  function ClaimedFirst(d: ImageDocument, token: string, now: int): ImageDocument {
    d.(status := Deleting, deleteToken := Some(token), deleteStartedAt := Stored(now), cleanupAfter := Stored(now),
       lockedUntil := Stored(now + UPLOAD_LEASE), uploadToken := None)
  }

  function ClaimedAgain(d: ImageDocument, token: string, now: int): ImageDocument {
    d.(deleteToken := Some(token), lockedUntil := Stored(now + UPLOAD_LEASE))
  }

  /** The asset a cleaner works with: the document as claimed. */
  datatype Claim = Claim(image: string, token: string, startedAt: int)

  predicate Completable(d: ImageDocument, a: Claim) {
    d.status == Deleting && d.deleteToken == Some(a.token)
  }

  function CompleteIn(images: Images, a: Claim, now: int): Images {
    if a.image in images && Completable(images[a.image], a)
    then
      var d := images[a.image].(lockedUntil := Stored(now), cleanupAfter := Stored(a.startedAt + DELETION_GRACE), deleteToken := None);
      images[a.image := if now >= a.startedAt + DELETION_GRACE then d.(status := Deleted) else d]
    else images
  }

  /** The asset ReserveUpload returns, and whether the caller now holds its lease. */
  datatype Reservation = Reservation(image: string, status: ImageStatus, acquired: bool)

  class Repository {
    var images: Images
    var byUpload: map<UploadKey, string>

    function Now(): Collection
      reads this
    {
      Collection(images, byUpload)
    }

    /** Whatever other processes do between two database calls: any change at all. */
    method Others()
      modifies this
    {
    }

    /** Insert, or look at the existing document and try to take over its lease.
        `looked` and `tried` are what the second and third database call found. */
    method ReserveUpload(c: Candidate, token: string, now: int)
      returns (r: Result<Reservation, UploadError>, ghost looked: Collection, ghost tried: Collection)
      modifies this
      ensures CanInsert(old(Now()), c) ==> Now() == Inserted(old(Now()), c, token, now) && r == Ok(Reservation(c.id, ImagePending, true))
      ensures !CanInsert(old(Now()), c) ==>
        match Look(looked, c, now)
        case Refused(e) => r == Err(e) && Now() == looked
        case Finished(id) => r == Ok(Reservation(id, looked.images[id].status, false)) && Now() == looked
        case Unfinished(id) => (r == Ok(Reservation(id, ImagePending, AcquireIn(tried.images, id, token, now).1))
                               && Now() == tried.(images := AcquireIn(tried.images, id, token, now).0))
    {
      looked, tried := Now(), Now();
      if c.id !in images && (c.uploadedBy, c.clientUploadID) !in byUpload {
        images := images[c.id := NewImage(c, token, now)];
        byUpload := byUpload[(c.uploadedBy, c.clientUploadID) := c.id];
        return Ok(Reservation(c.id, ImagePending, true)), looked, tried;
      }
      Others();
      looked := Now();
      if (c.uploadedBy, c.clientUploadID) !in byUpload || byUpload[(c.uploadedBy, c.clientUploadID)] !in images {
        return Err(Missing), looked, tried;
      }
      var id := byUpload[(c.uploadedBy, c.clientUploadID)];
      var existing := images[id];
      if existing.chatID != c.chatID || existing.checksum != c.checksum || existing.sizeBytes != c.sizeBytes {
        return Err(Conflict), looked, tried;
      }
      if existing.status == Ready || existing.status == Attached {
        if existing.status == Ready && existing.expiresAt <= now {
          return Err(Expired), looked, tried;
        }
        return Ok(Reservation(id, existing.status, false)), looked, tried;
      }
      if existing.status != ImagePending || existing.expiresAt <= now {
        return Err(Expired), looked, tried;
      }
      Others();
      tried := Now();
      if id !in images || !Acquirable(images[id], now) {
        return Ok(Reservation(id, ImagePending, false)), looked, tried;
      }
      images := images[id := images[id].(uploadToken := Some(token), lockedUntil := Stored(now + UPLOAD_LEASE))];
      r := Ok(Reservation(id, ImagePending, true));
    }

    method MarkReady(id: string, token: string, now: int) returns (modified: bool)
      modifies this`images
      ensures (images, modified) == MarkReadyIn(old(images), id, token, now)
    {
      if id !in images || !Readiable(images[id], token, now) {
        return false;
      }
      images := images[id := images[id].(status := Ready, lockedUntil := Stored(now), uploadToken := None)];
      modified := true;
    }

    method ReleaseUpload(id: string, token: string)
      modifies this`images
      ensures images == ReleaseIn(old(images), id, token)
    {
      if id in images && Releasable(images[id], token) {
        images := images[id := images[id].(lockedUntil := 0, uploadToken := None)];
      }
    }

    /** Takes an abandoned image, or else one whose deletion is due again. The
        database picks any document that matches. */
    method ClaimAbandoned(now: int, token: string) returns (claim: Option<Claim>, ghost second: Images)
      modifies this
      ensures
        match claim
        case None =>
          && (forall id :: id in old(images) ==> !Abandoned(old(images)[id], now))
          && (forall id :: id in second ==> !Retriable(second[id], now))
          && images == second
        case Some(a) =>
          a.token == token
          && ((a.image in old(images) && Abandoned(old(images)[a.image], now)
               && images == old(images)[a.image := ClaimedFirst(old(images)[a.image], token, now)]
               && a.startedAt == Stored(now))
              || ((forall id :: id in old(images) ==> !Abandoned(old(images)[id], now))
                  && a.image in second && Retriable(second[a.image], now)
                  && images == second[a.image := ClaimedAgain(second[a.image], token, now)]
                  && a.startedAt == second[a.image].deleteStartedAt))
    {
      second := images;
      if id :| id in images && Abandoned(images[id], now) {
        images := images[id := images[id].(status := Deleting, deleteToken := Some(token), deleteStartedAt := Stored(now),
                                           cleanupAfter := Stored(now), lockedUntil := Stored(now + UPLOAD_LEASE), uploadToken := None)];
        return Some(Claim(id, token, images[id].deleteStartedAt)), second;
      }
      Others();
      second := images;
      if id :| id in images && Retriable(images[id], now) {
        images := images[id := images[id].(deleteToken := Some(token), lockedUntil := Stored(now + UPLOAD_LEASE))];
        return Some(Claim(id, token, images[id].deleteStartedAt)), second;
      }
      claim := None;
    }

    method CompleteDeletion(a: Claim, now: int)
      modifies this`images
      ensures images == CompleteIn(old(images), a, now)
    {
      if a.image in images && Completable(images[a.image], a) {
        var d := images[a.image].(lockedUntil := Stored(now), cleanupAfter := Stored(a.startedAt + DELETION_GRACE), deleteToken := None);
        if now >= a.startedAt + DELETION_GRACE {
          d := d.(status := Deleted);
        }
        images := images[a.image := d];
      }
    }
  }
}

// The upload and cleanup sequences over the image collection and the object
// storage, which share no transaction.
module ImageService {
  import opened Common
  import opened Documents
  import opened ImageRepository

  /** How a storage call ends: confirmed, carried out unnoticed, or not carried out. */
  datatype StorageCall = Done | DoneUnseen | NotDone

  class Service {
    const images: Repository
    var objects: map<string, string> // checksums by object key

    constructor (images: Repository)
      ensures this.images == images && objects == map[]
    {
      this.images := images;
      objects := map[];
    }

    /** Anything other processes do to both stores. */
    method Others()
      modifies this`objects, images
    {
    }

    /** Reserve, put, mark ready; the lease is released at the end in any case. The
        ghosts are what the last database calls found and what the put left. */
    method Upload(c: Candidate, token: string, now: int, put: StorageCall, readyNow: int)
      returns (r: Result<string, UploadError>, ghost holder: Option<string>, ghost stored: map<string, string>,
               ghost reserved: Result<Reservation, UploadError>, ghost atReady: Images, ghost atRelease: Images)
      modifies this`objects, images
      ensures holder == (if reserved.Ok? && reserved.value.acquired then Some(reserved.value.image) else None)
      ensures holder.Some? ==> images.images == ReleaseIn(atRelease, holder.value, token)
      ensures holder.Some? && r.Ok? ==>
        && r.value == holder.value && put.Done? && MarkReadyIn(atReady, holder.value, token, readyNow).1
        && ObjectKey(holder.value) in stored && stored[ObjectKey(holder.value)] == c.checksum
      ensures holder.Some? && put.Done? && MarkReadyIn(atReady, holder.value, token, readyNow).1 ==> r.Ok?
      ensures holder.Some? && !put.Done? ==> r == Err(StorageFailed)
      ensures holder == None ==>
        r == (if reserved.Err? then Err(reserved.error)
              else if reserved.value.status == Ready || reserved.value.status == Attached then Ok(reserved.value.image)
              else Err(Busy))
    {
      holder, stored, atReady, atRelease := None, objects, images.images, images.images;
      ghost var looked, tried;
      var reservation;
      reservation, looked, tried := images.ReserveUpload(c, token, now);
      reserved := reservation;
      if reservation.Err? {
        return Err(reservation.error), holder, stored, reserved, atReady, atRelease;
      }
      var Reservation(id, status, acquired) := reservation.value;
      if !acquired {
        r := if status == Ready || status == Attached then Ok(id) else Err(Busy);
        return;
      }
      holder := Some(id);
      Others();
      if !put.NotDone? {
        objects := objects[ObjectKey(id) := c.checksum];
      }
      stored := objects;
      r := Err(StorageFailed);
      if put.Done? {
        Others();
        atReady := images.images;
        var ready := images.MarkReady(id, token, readyNow);
        r := if ready then Ok(id) else Err(Expired);
      }
      Others();
      atRelease := images.images;
      images.ReleaseUpload(id, token);
    }

    /** Claim, delete, complete; a failed delete leaves the claim for a later run. */
    method CleanupOnce(token: string, now: int, delete: StorageCall, completeNow: int)
      returns (worked: bool, ghost claim: Option<Claim>, ghost removed: map<string, string>, ghost atComplete: Images)
      modifies this`objects, images
      ensures worked <==> claim.Some?
      ensures claim.Some? && !delete.NotDone? ==> ObjectKey(claim.value.image) !in removed
      ensures claim.Some? ==> claim.value.token == token
      ensures claim.Some? && delete.Done? ==> images.images == CompleteIn(atComplete, claim.value, completeNow)
      ensures claim.Some? && !delete.Done? ==> images.images == atComplete
    {
      ghost var second;
      var claimed;
      claimed, second := images.ClaimAbandoned(now, token);
      claim, removed, atComplete := claimed, objects, images.images;
      if claimed == None {
        return false, claim, removed, atComplete;
      }
      Others();
      if !delete.NotDone? {
        objects := objects - {ObjectKey(claimed.value.image)};
      }
      removed := objects;
      if !delete.Done? {
        atComplete := images.images;
        return true, claim, removed, atComplete;
      }
      Others();
      atComplete := images.images;
      images.CompleteDeletion(claimed.value, completeNow);
      worked := true;
    }
  }
}
