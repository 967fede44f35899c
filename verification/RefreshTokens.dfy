// Sessions and refresh-token rotation: a compare-and-set on the stored digest,
// and revocation when a token is presented that is no longer current.

module Sessions {
  import opened Common
  import Text

  datatype SessionError = InvalidTokenDigest | InvalidPeriod | Revoked | Expired | Mismatch

  /** The session entity. A token is known by its digest only. */
  class Session {
    const id: string
    const userID: string
    const createdAt: int
    var digest: string
    var expiresAt: int
    var revokedAt: Option<int>

    constructor (id: string, userID: string, digest: string, createdAt: int, expiresAt: int, revokedAt: Option<int>)
      ensures this.id == id && this.userID == userID && this.createdAt == createdAt
      ensures this.digest == digest && this.expiresAt == expiresAt && this.revokedAt == revokedAt
    {
      this.id := id;
      this.userID := userID;
      this.createdAt := createdAt;
      this.digest := digest;
      this.expiresAt := expiresAt;
      this.revokedAt := revokedAt;
    }

    predicate IsActive(at: int)
      reads this
    {
      revokedAt == None && at < expiresAt
    }

    method EnsureActive(at: int) returns (r: Result<(), SessionError>)
      ensures r.Ok? <==> revokedAt == None && at < expiresAt
      ensures r.Ok? <==> IsActive(at)
      ensures r == Err(Revoked) <==> revokedAt.Some?
    {
      if revokedAt.Some? { return Err(Revoked); }
      if at >= expiresAt { return Err(Expired); }
      r := Ok(());
    }

    method ValidateRefreshTokenDigest(presented: string) returns (r: Result<(), SessionError>)
      ensures r.Ok? <==> !Text.Blank(presented) && presented == digest
      ensures r == Err(Mismatch) <==> !Text.Blank(presented) && presented != digest
    {
      if Text.TrimSpace(presented) == "" { return Err(InvalidTokenDigest); }
      if presented != digest { return Err(Mismatch); }
      r := Ok(());
    }

    method RotateRefreshToken(newDigest: string, newExpiresAt: int, at: int) returns (r: Result<(), SessionError>)
      modifies this`digest, this`expiresAt
      ensures r.Ok? <==> revokedAt == None && at < old(expiresAt) && !Text.Blank(newDigest) && newExpiresAt != 0 && newExpiresAt > at
      ensures r.Ok? ==> digest == newDigest && expiresAt == newExpiresAt
      ensures r.Err? ==> digest == old(digest) && expiresAt == old(expiresAt)
    {
      r := EnsureActive(at);
      if r.Err? { return; }
      if Text.TrimSpace(newDigest) == "" { return Err(InvalidTokenDigest); }
      if newExpiresAt == 0 || newExpiresAt <= at { return Err(InvalidPeriod); }
      digest := newDigest;
      expiresAt := newExpiresAt;
    }

    /** A revocation is kept; a second one changes nothing. */
    method Revoke(at: int) returns (r: Result<(), SessionError>)
      modifies this`revokedAt
      ensures revokedAt == if old(revokedAt).Some? || r.Err? then old(revokedAt) else Some(at)
      ensures r.Err? <==> old(revokedAt) == None && (at == 0 || at < createdAt)
    {
      if revokedAt.Some? { return Ok(()); }
      if at == 0 || at < createdAt { return Err(InvalidPeriod); }
      revokedAt := Some(at);
      r := Ok(());
    }
  }
}

module SessionStore {
  import opened Common
  import opened Instants
  import opened Sessions
  import Text

  datatype SessionDocument = SessionDocument(userID: string, digest: string, createdAt: int, expiresAt: int, revokedAt: Option<int>)

  type Documents = map<string, SessionDocument>

  datatype StoreError = NotFound | InvalidDocument | SessionConflict | InvalidArgument

  /** What Restore accepts. */
  predicate Restorable(d: SessionDocument) {
    && d.userID != "" && !Text.Blank(d.digest)
    && d.createdAt != 0 && d.expiresAt != 0 && d.expiresAt > d.createdAt
    && (d.revokedAt.Some? ==> d.revokedAt.value >= d.createdAt)
  }

  predicate Active(d: SessionDocument, at: int) {
    d.revokedAt == None && at < d.expiresAt
  }

  /** The rotation's filter: still the expected digest, unrevoked and unexpired. */
  predicate Rotatable(d: SessionDocument, expected: string, at: int) {
    d.digest == expected && d.revokedAt == None && d.expiresAt > Stored(at)
  }

  function RotateIn(docs: Documents, id: string, expected: string, digest: string, expiresAt: int, at: int): (Documents, bool) {
    if id in docs && Rotatable(docs[id], expected, at)
    then (docs[id := docs[id].(digest := digest, expiresAt := Stored(expiresAt))], true)
    else (docs, false)
  }

  function RevokeIn(docs: Documents, id: string, at: int): Documents {
    if id in docs && docs[id].revokedAt == None then docs[id := docs[id].(revokedAt := Some(Stored(at)))] else docs
  }

  class Repository {
    var docs: Documents

    /** Whatever other processes do between two database calls. */
    method Others()
      modifies this
    {
    }

    method FindByID(id: string) returns (r: Result<Session, StoreError>)
      ensures r == Err(InvalidArgument) <==> id == ""
      ensures r == Err(NotFound) <==> id != "" && id !in docs
      ensures r.Ok? <==> id != "" && id in docs && Restorable(docs[id])
      ensures r.Ok? ==>
        var d := docs[id];
        && d.userID != "" && !Text.Blank(d.digest) && d.createdAt != 0 && d.expiresAt != 0 && d.createdAt < d.expiresAt
        && (d.revokedAt != None ==> d.createdAt <= d.revokedAt.value)
      ensures r.Ok? ==>
        && fresh(r.value) && r.value.id == id
        && docs[id] == SessionDocument(r.value.userID, r.value.digest, r.value.createdAt, r.value.expiresAt, r.value.revokedAt)
    {
      if id == "" { return Err(InvalidArgument); }
      if id !in docs { return Err(NotFound); }
      var d := docs[id];
      if !Restorable(d) { return Err(InvalidDocument); }
      var s := new Session(id, d.userID, d.digest, d.createdAt, d.expiresAt, d.revokedAt);
      r := Ok(s);
    }

    method Rotate(s: Session, expected: string, at: int) returns (r: Result<(), StoreError>)
      modifies this
      ensures Text.Blank(expected) || at == 0 <==> r == Err(InvalidArgument)
      ensures r == Err(InvalidArgument) ==> docs == old(docs)
      ensures r != Err(InvalidArgument) ==>
        var (docs', rotated) := RotateIn(old(docs), s.id, expected, s.digest, s.expiresAt, at);
        docs == docs' && r == if rotated then Ok(()) else Err(SessionConflict)
    {
      if Text.TrimSpace(expected) == "" || at == 0 { return Err(InvalidArgument); }
      if s.id !in docs || !Rotatable(docs[s.id], expected, at) { return Err(SessionConflict); }
      docs := docs[s.id := docs[s.id].(digest := s.digest, expiresAt := Stored(s.expiresAt))];
      r := Ok(());
    }

    /** The update, and a lookup to tell a revoked session from an absent one. */
    method Revoke(id: string, at: int) returns (r: Result<(), StoreError>, ghost atUpdate: Documents)
      modifies this
      ensures atUpdate == old(docs)
      ensures id == "" || at == 0 ==> r == Err(InvalidArgument) && docs == atUpdate
      ensures id != "" && at != 0 && RevokeIn(atUpdate, id, at) != atUpdate ==> docs == RevokeIn(atUpdate, id, at) && r == Ok(())
      ensures id != "" && at != 0 && RevokeIn(atUpdate, id, at) == atUpdate ==> r == (if id in docs then Ok(()) else Err(NotFound))
    {
      atUpdate := docs;
      if id == "" || at == 0 { return Err(InvalidArgument), atUpdate; }
      if id in docs && docs[id].revokedAt == None {
        docs := docs[id := docs[id].(revokedAt := Some(Stored(at)))];
        assert docs[id] != atUpdate[id];
        return Ok(()), atUpdate;
      }
      Others();
      r := if id in docs then Ok(()) else Err(NotFound);
    }
  }
}

module Refresh {
  import opened Common
  import opened Sessions
  import opened SessionStore
  import Text
  import Instants

  /** What a refresh token says about itself; its instants are whole seconds. */
  datatype Claims = Claims(userID: string, sessionID: string, issuedAt: int, expiresAt: int)

  /** A NumericDate (section 2 of RFC 7519), as the token library writes it. */
  function NumericDate(t: int): int {
    t - t % Instants.SECOND
  }

  /** The claims of a token signed at one clock reading for a lifetime. */
  function Signed(userID: string, sessionID: string, at: int, ttl: int): Claims {
    Claims(userID, sessionID, NumericDate(at), NumericDate(at + ttl))
  }

  /** The token manager's check of the instants of a genuine token: not before it was
      issued and not after it expired, each with the configured leeway. */
  predicate InTime(claims: Claims, leeway: nat, at: int) {
    claims.issuedAt < claims.expiresAt && claims.issuedAt - leeway <= at < claims.expiresAt + leeway
  }

  datatype Outcome = Issued(digest: string) | Invalid | Failed

  /** What the next database step of a presentation is. */
  datatype Plan =
    | Rotating(expected: string, minted: string, expiresAt: int, at: int)
    | Revoking(at: int)
    | Finished(outcome: Outcome)

  /** Everything between the lookup and the update, at one clock reading. */
  function Judge(claims: Claims, d: SessionDocument, presented: string, at: int, minted: string, ttl: int): Plan {
    if d.userID != claims.userID then Finished(Invalid)
    else if !Active(d, at) then Finished(Invalid)
    else if Text.Blank(presented) then Finished(Failed)
    else if d.digest != presented then Revoking(at)
    else if at == 0 || Text.Blank(minted) || at + ttl == 0 || ttl <= 0 then Finished(Failed)
    else Rotating(presented, minted, at + ttl, at)
  }

  datatype ConfigError = InvalidConfiguration

  class UseCase {
    const sessions: Repository
    const accessTTL: int
    const ttl: int // configured refresh-token lifetime
    const leeway: nat // of the token manager

    constructor (sessions: Repository, accessTTL: int, ttl: int, leeway: nat)
      ensures this.sessions == sessions && this.accessTTL == accessTTL && this.ttl == ttl && this.leeway == leeway
    {
      this.sessions := sessions;
      this.accessTTL := accessTTL;
      this.ttl := ttl;
      this.leeway := leeway;
    }

    /** What NewRefreshUseCase has checked. */
    predicate Valid() {
      0 < accessTTL < ttl
    }

    /** One presentation of a token: what it decodes to if it is genuine, the clock
        readings of its verification and of the decision, its digest, and the digest
        of the token minted for it. Anything may happen between the database steps;
        `found`, `atRotate` and `atRevoke` are what the steps found. */
    method Execute(token: string, decoded: Option<Claims>, verifyAt: int, presented: string, at: int, minted: string)
      returns (r: Outcome, ghost found: Documents, ghost atRotate: Documents, ghost atRevoke: Documents)
      requires Valid()
      modifies sessions
      ensures token == "" || decoded == None || !InTime(decoded.value, leeway, verifyAt) ==>
        r == Invalid && sessions.docs == old(sessions.docs)
      ensures token != "" && decoded.Some? && InTime(decoded.value, leeway, verifyAt) ==>
        && found == old(sessions.docs)
        && var claims := decoded.value;
        var id := claims.sessionID;
        if claims.userID == "" || id == "" || id !in found then r == Invalid && sessions.docs == found
        else if !Restorable(found[id]) then r == Failed && sessions.docs == found
        else match Judge(claims, found[id], presented, at, minted, ttl)
          case Finished(outcome) => r == outcome && !r.Issued? && sessions.docs == found
          case Rotating(expected, digest, expiresAt, _) =>
            var (docs, rotated) := RotateIn(atRotate, id, expected, digest, expiresAt, at);
            if rotated then r == Issued(minted) && sessions.docs == docs
            else !r.Issued? && (RevokeIn(atRevoke, id, at) != atRevoke ==> r == Invalid && sessions.docs == RevokeIn(atRevoke, id, at))
          case Revoking(_) =>
            if at == 0 then r == Failed && sessions.docs == atRevoke
            else !r.Issued? && (RevokeIn(atRevoke, id, at) != atRevoke ==> r == Invalid && sessions.docs == RevokeIn(atRevoke, id, at))
    {
      found, atRotate, atRevoke := sessions.docs, sessions.docs, sessions.docs;
      if token == "" || decoded == None || !InTime(decoded.value, leeway, verifyAt) {
        return Invalid, found, atRotate, atRevoke;
      }
      var claims := decoded.value;
      if claims.userID == "" || claims.sessionID == "" {
        return Invalid, found, atRotate, atRevoke;
      }
      var lookup := sessions.FindByID(claims.sessionID);
      if lookup.Err? {
        r := if lookup.error == NotFound then Invalid else Failed;
        return;
      }
      var session := lookup.value;
      if session.userID != claims.userID {
        return Invalid, found, atRotate, atRevoke;
      }
      var active := session.EnsureActive(at);
      if active.Err? {
        return Invalid, found, atRotate, atRevoke;
      }
      var expected := session.digest;
      var valid := session.ValidateRefreshTokenDigest(presented);
      if valid.Err? {
        if valid.error != Mismatch {
          return Failed, found, atRotate, atRevoke;
        }
        sessions.Others();
        r, atRevoke := RejectReusedToken(session.id, at);
        return;
      }
      if at == 0 {
        return Failed, found, atRotate, atRevoke;
      }
      var rotation := session.RotateRefreshToken(minted, at + ttl, at);
      if rotation.Err? {
        return Failed, found, atRotate, atRevoke;
      }
      sessions.Others();
      atRotate := sessions.docs;
      var stored := sessions.Rotate(session, expected, at);
      if stored.Err? {
        if stored.error != SessionConflict {
          return Failed, found, atRotate, atRevoke;
        }
        sessions.Others();
        r, atRevoke := RejectReusedToken(session.id, at);
        return;
      }
      r := Issued(minted);
    }

    method RejectReusedToken(id: string, at: int) returns (r: Outcome, ghost atRevoke: Documents)
      modifies sessions
      ensures atRevoke == old(sessions.docs) && !r.Issued?
      ensures id == "" || at == 0 ==> r == Failed && sessions.docs == atRevoke
      ensures id != "" && at != 0 && RevokeIn(atRevoke, id, at) != atRevoke ==> r == Invalid && sessions.docs == RevokeIn(atRevoke, id, at)
    {
      var revoked;
      revoked, atRevoke := sessions.Revoke(id, at);
      r := if revoked.Ok? then Invalid else Failed;
    }
  }

  /** The only way to a use case: both lifetimes positive, the refresh token's longer. */
  method NewUseCase(sessions: Repository, accessTTL: int, ttl: int, leeway: nat) returns (r: Result<UseCase, ConfigError>)
    ensures r.Ok? <==> 0 < accessTTL < ttl
    ensures r.Ok? ==> fresh(r.value) && r.value.Valid() && r.value.sessions == sessions && r.value.ttl == ttl && r.value.leeway == leeway
  {
    if accessTTL <= 0 || ttl <= accessTTL {
      return Err(InvalidConfiguration);
    }
    var useCase := new UseCase(sessions, accessTTL, ttl, leeway);
    r := Ok(useCase);
  }

  // ----- Presentations running at once ------------------------------------------------

  datatype Stage = Presented | Verified | Found(d: SessionDocument) | Doing(plan: Plan)

  /** A call remembers the clock reading of its verification, the document it decided
      on with the clock reading of that, and whether it has revoked its session. */
  datatype Call = Call(token: string, stage: Stage, verifiedAt: Option<int>, read: Option<SessionDocument>, at: int, revoked: bool)

  /** A call that begins. */
  function Fresh(token: string): Call {
    Call(token, Presented, None, None, 0, false)
  }

  /** Tokens are known by digest: what each says, and the call that minted it. For
      every session its user, and the digests it has carried, in order. */
  datatype World = World(docs: Documents, clock: int, issued: map<string, Claims>, minter: map<string, nat>,
                         users: map<string, string>, lineage: map<string, seq<string>>, calls: map<nat, Call>, leeway: nat)

  datatype Event =
    | Tick(to: int)
    | SignIn(session: string, user: string, digest: string, at: int, ttl: int)
    | Present(call: nat, digest: string)
    | Verify(call: nat, at: int)
    | Find(call: nat)
    | Decide(call: nat, at: int, minted: string, ttl: int)
    | Rotate(call: nat)
    | RotateUnseen(call: nat)                            // stored, but the caller gets an error
    | Revoke(call: nat)
    | Crash(call: nat)
    | LogOut(session: string, at: int)
    | Expire(session: string)                            // the collection's TTL index

  function Moved(w: World, call: nat, stage: Stage): World
    requires call in w.calls
  {
    w.(calls := w.calls[call := w.calls[call].(stage := stage)])
  }

  function SessionOf(w: World, call: nat): string
    requires call in w.calls
  {
    if w.calls[call].token in w.issued then w.issued[w.calls[call].token].sessionID else ""
  }

  function SignInStep(w: World, session: string, user: string, digest: string, at: int, ttl: int): World {
    if session in w.users || digest in w.issued || session == "" || user == "" || Text.Blank(digest) || at == 0 || ttl <= 0 then w
    else w.(docs := w.docs[session := SessionDocument(user, digest, Instants.Stored(at), Instants.Stored(at + ttl), None)],
            issued := w.issued[digest := Signed(user, session, at, ttl)],
            users := w.users[session := user], lineage := w.lineage[session := [digest]])
  }

  function VerifyStep(w: World, call: nat, at: int): World
    requires call in w.calls && w.calls[call].token in w.issued
  {
    var c := w.calls[call];
    var stage := if InTime(w.issued[c.token], w.leeway, at) then Verified else Doing(Finished(Invalid));
    w.(calls := w.calls[call := c.(stage := stage, verifiedAt := Some(at))])
  }

  function FindStep(w: World, call: nat): World
    requires call in w.calls
  {
    var id := SessionOf(w, call);
    if id !in w.docs then Moved(w, call, Doing(Finished(Invalid)))
    else if !Restorable(w.docs[id]) then Moved(w, call, Doing(Finished(Failed)))
    else Moved(w, call, Found(w.docs[id]))
  }

  function DecideStep(w: World, call: nat, at: int, minted: string, ttl: int): World
    requires call in w.calls && w.calls[call].stage.Found? && w.calls[call].token in w.issued
  {
    var c := w.calls[call];
    var claims := w.issued[c.token];
    var plan := Judge(claims, c.stage.d, c.token, at, minted, ttl);
    w.(calls := w.calls[call := c.(stage := Doing(plan), read := Some(c.stage.d), at := at)],
       issued := if plan.Rotating? then w.issued[minted := Signed(claims.userID, claims.sessionID, at, ttl)] else w.issued,
       minter := if plan.Rotating? then w.minter[minted := call] else w.minter)
  }

  function RotateStep(w: World, call: nat, seen: bool): World
    requires call in w.calls && w.calls[call].stage.Doing? && w.calls[call].stage.plan.Rotating?
  {
    var id, p := SessionOf(w, call), w.calls[call].stage.plan;
    var (docs, rotated) := RotateIn(w.docs, id, p.expected, p.minted, p.expiresAt, p.at);
    if !rotated then Moved(w, call, Doing(Revoking(p.at)))
    else
      var line := if id in w.lineage then w.lineage[id] else [];
      Moved(w, call, Doing(Finished(if seen then Issued(p.minted) else Failed))).(docs := docs, lineage := w.lineage[id := line + [p.minted]])
  }

  function RevokeStep(w: World, call: nat): World
    requires call in w.calls && w.calls[call].stage.Doing? && w.calls[call].stage.plan.Revoking?
  {
    var id, c := SessionOf(w, call), w.calls[call];
    if c.stage.plan.at == 0 then Moved(w, call, Doing(Finished(Failed)))
    else
      w.(calls := w.calls[call := c.(stage := Doing(Finished(if id in w.docs then Invalid else Failed)), revoked := id in w.docs)],
         docs := RevokeIn(w.docs, id, c.stage.plan.at))
  }

  /** Events that are not enabled leave the world as it is. Session identifiers and
      minted tokens are fresh, and only tokens once issued can be presented. */
  function Step(w: World, e: Event): World {
    match e
    case Tick(to) => if w.clock <= to then w.(clock := to) else w
    case SignIn(session, user, digest, at, ttl) => if at <= w.clock then SignInStep(w, session, user, digest, at, ttl) else w
    case Present(call, digest) =>
      if call in w.calls || digest !in w.issued then w
      else w.(calls := w.calls[call := Fresh(digest)])
    case Verify(call, at) =>
      if call in w.calls && w.calls[call].stage.Presented? && w.calls[call].token in w.issued && at <= w.clock
      then VerifyStep(w, call, at)
      else w
    case Find(call) => if call in w.calls && w.calls[call].stage.Verified? then FindStep(w, call) else w
    case Decide(call, at, minted, ttl) =>
      if call in w.calls && w.calls[call].stage.Found? && w.calls[call].token in w.issued && minted !in w.issued && at <= w.clock
      then DecideStep(w, call, at, minted, ttl)
      else w
    case Rotate(call) =>
      if call in w.calls && w.calls[call].stage.Doing? && w.calls[call].stage.plan.Rotating? then RotateStep(w, call, true) else w
    case RotateUnseen(call) =>
      if call in w.calls && w.calls[call].stage.Doing? && w.calls[call].stage.plan.Rotating? then RotateStep(w, call, false) else w
    case Revoke(call) =>
      if call in w.calls && w.calls[call].stage.Doing? && w.calls[call].stage.plan.Revoking? then RevokeStep(w, call) else w
    case Crash(call) =>
      if call in w.calls && !(w.calls[call].stage.Doing? && w.calls[call].stage.plan.Finished?)
      then Moved(w, call, Doing(Finished(Failed)))
      else w
    case LogOut(session, at) => if at <= w.clock then w.(docs := RevokeIn(w.docs, session, at)) else w
    case Expire(session) =>
      if session in w.docs && w.docs[session].expiresAt <= w.clock then w.(docs := w.docs - {session}) else w
  }

  function Run(w: World, events: seq<Event>): World {
    if events == [] then w else Step(Run(w, events[..|events| - 1]), events[|events| - 1])
  }

  function Start(leeway: nat): World {
    World(map[], 0, map[], map[], map[], map[], map[], leeway)
  }

  // ----- Invariants --------------------------------------------------------------------

  ghost predicate NoRepeats(s: seq<string>) {
    forall i, j :: 0 <= i < j < |s| ==> s[i] != s[j]
  }

  /** A stored session carries the last digest of its line. */
  ghost predicate DocumentsHold(docs: Documents, users: map<string, string>, lineage: map<string, seq<string>>) {
    && lineage.Keys == users.Keys
    && forall id :: id in docs ==>
         && id in lineage && docs[id].userID == users[id]
         && lineage[id] != [] && docs[id].digest == lineage[id][|lineage[id]| - 1]
  }

  ghost predicate IssuedFor(line: seq<string>, issued: map<string, Claims>, id: string) {
    forall t :: t in line ==> t in issued && issued[t].sessionID == id
  }

  /** A line's digests are distinct and were issued for its session. */
  ghost predicate LineageHolds(issued: map<string, Claims>, lineage: map<string, seq<string>>) {
    forall id :: id in lineage ==> NoRepeats(lineage[id]) && IssuedFor(lineage[id], issued, id)
  }

  ghost predicate ClaimsHold(issued: map<string, Claims>, users: map<string, string>) {
    forall t :: t in issued ==> issued[t].sessionID in users && users[issued[t].sessionID] == issued[t].userID
  }

  ghost predicate LinesHold(docs: Documents, issued: map<string, Claims>, users: map<string, string>, lineage: map<string, seq<string>>) {
    DocumentsHold(docs, users, lineage) && LineageHolds(issued, lineage) && ClaimsHold(issued, users)
  }

  /** In a line, b directly follows a. */
  ghost predicate Follows(line: seq<string>, a: string, b: string) {
    exists i :: 0 <= i < |line| - 1 && line[i] == a && line[i + 1] == b
  }

  ghost predicate Dead(docs: Documents, session: string) {
    session in docs ==> docs[session].revokedAt.Some?
  }

  /** The call's token was verified in time. */
  predicate PassedVerification(w: World, c: Call)
    requires c.token in w.issued
  {
    c.verifiedAt.Some? && InTime(w.issued[c.token], w.leeway, c.verifiedAt.value)
  }

  /** The call decided on a document that was active by its clock reading. */
  predicate ReadActive(c: Call) {
    c.read.Some? && Active(c.read.value, c.at)
  }

  ghost predicate CallHolds(w: World, call: nat, c: Call) {
    && c.token in w.issued
    && (c.stage.Presented? || PassedVerification(w, c) || c.stage.Doing?)
    && var id := w.issued[c.token].sessionID;
    match c.stage
    case Presented => c == Fresh(c.token)
    case Verified => c.read == None && !c.revoked
    case Found(d) => d.userID == w.issued[c.token].userID && c.read == None && !c.revoked
    case Doing(Rotating(expected, minted, _, _)) =>
      && expected == c.token && minted in w.issued
      && w.issued[minted].userID == w.issued[c.token].userID && w.issued[minted].sessionID == id
      && minted in w.minter && w.minter[minted] == call && id in w.lineage && minted !in w.lineage[id]
      && PassedVerification(w, c) && ReadActive(c) && !c.revoked
    case Doing(Revoking(_)) => PassedVerification(w, c) && ReadActive(c) && !c.revoked
    case Doing(Finished(Issued(minted))) =>
      && minted in w.minter && w.minter[minted] == call && id in w.lineage && Follows(w.lineage[id], c.token, minted)
    case Doing(Finished(Invalid)) =>
      && c.verifiedAt.Some?
      && (c.revoked <==> PassedVerification(w, c) && ReadActive(c))
      && (Dead(w.docs, id) || !PassedVerification(w, c)
          || (c.read.Some? && c.read.value.revokedAt == None && c.read.value.expiresAt <= c.at))
    case Doing(Finished(Failed)) => true
  }

  ghost predicate CallsHold(w: World) {
    && (forall call :: call in w.calls ==> CallHolds(w, call, w.calls[call]))
    && (forall t :: t in w.minter ==> t in w.issued)
    && (forall id :: id in w.docs ==> id in w.lineage)
  }

  /** A revoked document that some call read is still revoked, or gone. */
  ghost predicate ReadsHold(w: World) {
    forall call :: call in w.calls && w.calls[call].token in w.issued ==>
      && (w.calls[call].stage.Found? && w.calls[call].stage.d.revokedAt.Some? ==> Dead(w.docs, w.issued[w.calls[call].token].sessionID))
  }

  ghost predicate Inv(w: World) {
    LinesHold(w.docs, w.issued, w.users, w.lineage) && CallsHold(w) && ReadsHold(w)
  }

  /** What only grows; a line grows by digests that `call` minted, or is new. */
  ghost predicate Extends(w: World, w': World, call: nat) {
    && w'.leeway == w.leeway
    && (forall t :: t in w.issued ==> t in w'.issued && w'.issued[t] == w.issued[t])
    && (forall t :: t in w.minter ==> t in w'.minter && w'.minter[t] == w.minter[t])
    && (forall id :: id in w.lineage ==> id in w'.lineage && w.lineage[id] <= w'.lineage[id])
    && (forall id, d :: id in w.lineage && d in w'.lineage[id] && d !in w.lineage[id] ==> d in w.minter && w.minter[d] == call)
    && (forall id :: id in w.users && Dead(w.docs, id) ==> Dead(w'.docs, id))
  }

  lemma CallSurvives(w: World, w': World, call: nat, other: nat, c: Call)
    requires CallHolds(w, other, c) && Extends(w, w', call) && other != call
    requires c.token in w.issued ==> w.issued[c.token].sessionID in w.users
    ensures CallHolds(w', other, c)
  {
    var id := w.issued[c.token].sessionID;
    if c.stage.Doing? && c.stage.plan.Finished? && c.stage.plan.outcome.Issued? {
      var minted := c.stage.plan.outcome.digest;
      var i :| 0 <= i < |w.lineage[id]| - 1 && w.lineage[id][i] == c.token && w.lineage[id][i + 1] == minted;
      assert w'.lineage[id][i] == c.token && w'.lineage[id][i + 1] == minted;
    }
  }

  lemma CallsSurvive(w: World, w': World, call: nat)
    requires Inv(w) && Extends(w, w', call)
    requires forall c :: c in w'.calls && c != call ==> c in w.calls && w'.calls[c] == w.calls[c]
    requires call in w'.calls ==> CallHolds(w', call, w'.calls[call])
    requires call in w'.calls && w'.calls[call].stage.Found? && w'.calls[call].stage.d.revokedAt.Some? ==>
      Dead(w'.docs, w'.issued[w'.calls[call].token].sessionID)
    requires forall t :: t in w'.minter ==> t in w'.issued
    requires forall id :: id in w'.docs ==> id in w'.lineage
    ensures CallsHold(w') && ReadsHold(w')
  {
    forall c | c in w'.calls ensures CallHolds(w', c, w'.calls[c]) {
      if c != call { CallSurvives(w, w', call, c, w.calls[c]); }
    }
    forall c | c in w'.calls && w'.calls[c].token in w'.issued && w'.calls[c].stage.Found? && w'.calls[c].stage.d.revokedAt.Some?
      ensures Dead(w'.docs, w'.issued[w'.calls[c].token].sessionID)
    {
      if c != call {
        assert CallHolds(w, c, w.calls[c]);
        assert w.issued[w.calls[c].token].sessionID in w.users;
      }
    }
  }

  /** One call moves on; nothing else changes. */
  lemma OneCallMoves(w: World, call: nat, c: Call)
    requires Inv(w) && CallHolds(w, call, c)
    requires c.stage.Found? && c.stage.d.revokedAt.Some? ==> Dead(w.docs, w.issued[c.token].sessionID)
    ensures Inv(w.(calls := w.calls[call := c]))
  {
    var w' := w.(calls := w.calls[call := c]);
    hide LinesHold;
    hide Follows;
    hide Dead;
    forall other | other in w'.calls ensures CallHolds(w', other, w'.calls[other]) {
      if other != call { assert CallHolds(w, other, w.calls[other]); }
    }
  }

  lemma IssuingKeepsLineage(issued: map<string, Claims>, lineage: map<string, seq<string>>, digest: string, claims: Claims)
    requires LineageHolds(issued, lineage) && digest !in issued
    ensures LineageHolds(issued[digest := claims], lineage)
  {
  }

  lemma NewLineKeepsLineage(issued: map<string, Claims>, lineage: map<string, seq<string>>, id: string, line: seq<string>)
    requires LineageHolds(issued, lineage) && NoRepeats(line) && IssuedFor(line, issued, id)
    ensures LineageHolds(issued, lineage[id := line])
  {
  }

  lemma AppendKeepsNoRepeats(line: seq<string>, t: string)
    requires NoRepeats(line) && t !in line
    ensures NoRepeats(line + [t])
  {
  }

  lemma SignInKeepsLines(w: World, session: string, user: string, digest: string, at: int, ttl: int)
    requires LinesHold(w.docs, w.issued, w.users, w.lineage)
    ensures var w' := SignInStep(w, session, user, digest, at, ttl); LinesHold(w'.docs, w'.issued, w'.users, w'.lineage)
  {
    hide LineageHolds;
    hide Text.Blank;
    var w' := SignInStep(w, session, user, digest, at, ttl);
    if w' != w {
      IssuingKeepsLineage(w.issued, w.lineage, digest, Signed(user, session, at, ttl));
      NewLineKeepsLineage(w'.issued, w.lineage, session, [digest]);
    }
  }

  lemma SignInExtends(w: World, session: string, user: string, digest: string, at: int, ttl: int, call: nat)
    requires LinesHold(w.docs, w.issued, w.users, w.lineage)
    ensures Extends(w, SignInStep(w, session, user, digest, at, ttl), call)
  {
    hide LineageHolds;
    hide ClaimsHold;
    hide Text.Blank;
    var w' := SignInStep(w, session, user, digest, at, ttl);
    assert forall id :: id in w.lineage ==> id in w'.lineage && w'.lineage[id] == w.lineage[id];
  }

  lemma SignInKeepsInv(w: World, session: string, user: string, digest: string, at: int, ttl: int)
    requires Inv(w)
    ensures Inv(SignInStep(w, session, user, digest, at, ttl))
  {
    var w' := SignInStep(w, session, user, digest, at, ttl);
    SignInKeepsLines(w, session, user, digest, at, ttl);
    forall c ensures Extends(w, w', c) { SignInExtends(w, session, user, digest, at, ttl, c); }
    EveryCallSurvives(w, w');
  }

  /** No call moves. */
  lemma EveryCallSurvives(w: World, w': World)
    requires Inv(w) && w'.calls == w.calls && forall c: nat :: Extends(w, w', c)
    requires w'.minter == w.minter && forall id :: id in w'.docs ==> id in w'.lineage
    ensures CallsHold(w') && ReadsHold(w')
  {
    forall c | c in w'.calls ensures CallHolds(w', c, w'.calls[c]) {
      assert Extends(w, w', c + 1);
      CallSurvives(w, w', c + 1, c, w.calls[c]);
    }
    assert Extends(w, w', 0);
    forall c | c in w'.calls && w'.calls[c].token in w'.issued && w'.calls[c].stage.Found? && w'.calls[c].stage.d.revokedAt.Some?
      ensures Dead(w'.docs, w'.issued[w'.calls[c].token].sessionID)
    {
      assert CallHolds(w, c, w.calls[c]);
      assert w.issued[w.calls[c].token].sessionID in w.users;
    }
  }

  lemma VerifyKeepsInv(w: World, call: nat, at: int)
    requires Inv(w) && call in w.calls && w.calls[call].stage.Presented? && w.calls[call].token in w.issued
    ensures Inv(VerifyStep(w, call, at))
  {
    assert CallHolds(w, call, w.calls[call]);
    assert CallHolds(w, call, VerifyStep(w, call, at).calls[call]);
    hide Inv;
    OneCallMoves(w, call, VerifyStep(w, call, at).calls[call]);
  }

  lemma FindKeepsInv(w: World, call: nat)
    requires Inv(w) && call in w.calls && w.calls[call].stage.Verified?
    ensures Inv(FindStep(w, call))
  {
    assert CallHolds(w, call, w.calls[call]);
    assert CallHolds(w, call, FindStep(w, call).calls[call]);
    hide Inv;
    OneCallMoves(w, call, FindStep(w, call).calls[call]);
  }

  lemma DecideKeepsLines(w: World, call: nat, at: int, minted: string, ttl: int)
    requires LinesHold(w.docs, w.issued, w.users, w.lineage)
    requires call in w.calls && w.calls[call].stage.Found? && w.calls[call].token in w.issued && minted !in w.issued
    ensures var w' := DecideStep(w, call, at, minted, ttl); LinesHold(w'.docs, w'.issued, w'.users, w'.lineage)
  {
    hide LineageHolds;
    hide DocumentsHold;
    hide Judge;
    var claims := w.issued[w.calls[call].token];
    IssuingKeepsLineage(w.issued, w.lineage, minted, Signed(claims.userID, claims.sessionID, at, ttl));
  }

  lemma DecideExtends(w: World, call: nat, at: int, minted: string, ttl: int)
    requires call in w.calls && w.calls[call].stage.Found? && w.calls[call].token in w.issued && minted !in w.issued
    requires minted !in w.minter
    ensures Extends(w, DecideStep(w, call, at, minted, ttl), call)
  {
    hide Judge;
  }

  lemma JudgeMeans(claims: Claims, d: SessionDocument, presented: string, at: int, minted: string, ttl: int)
    requires d.userID == claims.userID
    ensures match Judge(claims, d, presented, at, minted, ttl)
      case Rotating(expected, digest, _, _) => expected == presented && digest == minted && Active(d, at)
      case Revoking(_) => Active(d, at)
      case Finished(outcome) => outcome == Failed || (outcome == Invalid && !Active(d, at))
  {
  }

  lemma DecidedCallHolds(w: World, call: nat, at: int, minted: string, ttl: int)
    requires Inv(w) && call in w.calls && w.calls[call].stage.Found? && w.calls[call].token in w.issued && minted !in w.issued
    ensures CallHolds(DecideStep(w, call, at, minted, ttl), call, DecideStep(w, call, at, minted, ttl).calls[call])
  {
    hide InTime;
    hide NumericDate;
    assert CallHolds(w, call, w.calls[call]);
    var id := w.issued[w.calls[call].token].sessionID;
    assert id in w.lineage && minted !in w.lineage[id];
    assert w.calls[call].stage.d.revokedAt.Some? ==> Dead(w.docs, id);
    hide Inv;
    hide Text.Blank;
    var c := w.calls[call];
    JudgeMeans(w.issued[c.token], c.stage.d, c.token, at, minted, ttl);
    hide Judge;
    hide Follows;
  }

  lemma DecideKeepsInv(w: World, call: nat, at: int, minted: string, ttl: int)
    requires Inv(w) && call in w.calls && w.calls[call].stage.Found? && w.calls[call].token in w.issued && minted !in w.issued
    ensures Inv(DecideStep(w, call, at, minted, ttl))
  {
    var w' := DecideStep(w, call, at, minted, ttl);
    DecideKeepsLines(w, call, at, minted, ttl);
    DecideExtends(w, call, at, minted, ttl);
    DecidedCallHolds(w, call, at, minted, ttl);
    assert forall t :: t in w'.minter ==> t in w'.issued;
    hide LinesHold;
    hide CallHolds;
    hide Extends;
    hide Judge;
    CallsSurvive(w, w', call);
  }

  lemma RotateKeepsLines(w: World, call: nat, seen: bool)
    requires LinesHold(w.docs, w.issued, w.users, w.lineage)
    requires call in w.calls && w.calls[call].stage.Doing? && w.calls[call].stage.plan.Rotating? && CallHolds(w, call, w.calls[call])
    ensures var w' := RotateStep(w, call, seen); LinesHold(w'.docs, w'.issued, w'.users, w'.lineage)
  {
    var id, p := SessionOf(w, call), w.calls[call].stage.plan;
    if RotateIn(w.docs, id, p.expected, p.minted, p.expiresAt, p.at).1 {
      var line := w.lineage[id];
      AppendKeepsNoRepeats(line, p.minted);
      assert IssuedFor(line, w.issued, id) && IssuedFor(line + [p.minted], w.issued, id);
      hide LineageHolds;
      NewLineKeepsLineage(w.issued, w.lineage, id, line + [p.minted]);
    }
  }

  lemma RotateExtends(w: World, call: nat, seen: bool)
    requires LinesHold(w.docs, w.issued, w.users, w.lineage)
    requires call in w.calls && w.calls[call].stage.Doing? && w.calls[call].stage.plan.Rotating? && CallHolds(w, call, w.calls[call])
    ensures Extends(w, RotateStep(w, call, seen), call)
  {
  }

  lemma RotatedCallHolds(w: World, call: nat, seen: bool)
    requires LinesHold(w.docs, w.issued, w.users, w.lineage)
    requires call in w.calls && w.calls[call].stage.Doing? && w.calls[call].stage.plan.Rotating? && CallHolds(w, call, w.calls[call])
    ensures CallHolds(RotateStep(w, call, seen), call, RotateStep(w, call, seen).calls[call])
  {
    var id, p := SessionOf(w, call), w.calls[call].stage.plan;
    if RotateIn(w.docs, id, p.expected, p.minted, p.expiresAt, p.at).1 {
      var line, line' := w.lineage[id], RotateStep(w, call, seen).lineage[id];
      assert line' == line + [p.minted];
      assert line'[|line| - 1] == p.expected && line'[|line|] == p.minted;
      assert Follows(line', p.expected, p.minted);
    }
  }

  lemma RotateKeepsInv(w: World, call: nat, seen: bool)
    requires Inv(w) && call in w.calls && w.calls[call].stage.Doing? && w.calls[call].stage.plan.Rotating?
    ensures Inv(RotateStep(w, call, seen))
  {
    var w' := RotateStep(w, call, seen);
    assert CallHolds(w, call, w.calls[call]);
    RotateKeepsLines(w, call, seen);
    RotateExtends(w, call, seen);
    RotatedCallHolds(w, call, seen);
    assert forall id :: id in w'.docs ==> id in w'.lineage;
    hide LinesHold;
    hide CallHolds;
    hide Extends;
    CallsSurvive(w, w', call);
  }

  lemma RevokeExtends(w: World, call: nat)
    requires call in w.calls && w.calls[call].stage.Doing? && w.calls[call].stage.plan.Revoking?
    ensures Extends(w, RevokeStep(w, call), call)
  {
  }

  lemma RevokeKeepsLines(docs: Documents, issued: map<string, Claims>, users: map<string, string>, lineage: map<string, seq<string>>,
                         id: string, at: int)
    requires LinesHold(docs, issued, users, lineage)
    ensures LinesHold(RevokeIn(docs, id, at), issued, users, lineage)
  {
  }

  lemma RevokedCallHolds(w: World, call: nat)
    requires call in w.calls && w.calls[call].stage.Doing? && w.calls[call].stage.plan.Revoking? && CallHolds(w, call, w.calls[call])
    ensures CallHolds(RevokeStep(w, call), call, RevokeStep(w, call).calls[call])
  {
    hide InTime;
    hide Follows;
    hide Active;
  }

  lemma RevokeKeepsInv(w: World, call: nat)
    requires Inv(w) && call in w.calls && w.calls[call].stage.Doing? && w.calls[call].stage.plan.Revoking?
    ensures Inv(RevokeStep(w, call))
  {
    var w' := RevokeStep(w, call);
    assert CallHolds(w, call, w.calls[call]);
    RevokedCallHolds(w, call);
    hide CallHolds;
    RevokeKeepsLines(w.docs, w.issued, w.users, w.lineage, SessionOf(w, call), w.calls[call].stage.plan.at);
    RevokeExtends(w, call);
    assert forall id :: id in w'.docs ==> id in w'.lineage;
    hide LinesHold;
    hide Extends;
    CallsSurvive(w, w', call);
  }

  lemma CrashKeepsInv(w: World, call: nat)
    requires Inv(w) && call in w.calls
    ensures Inv(Moved(w, call, Doing(Finished(Failed))))
  {
    assert CallHolds(w, call, w.calls[call]);
    assert CallHolds(w, call, w.calls[call].(stage := Doing(Finished(Failed))));
    hide Inv;
    OneCallMoves(w, call, w.calls[call].(stage := Doing(Finished(Failed))));
  }

  /** What changes documents outside any call: logouts and expiry. */
  lemma DocumentsChangeKeepsInv(w: World, docs: Documents)
    requires Inv(w)
    requires docs.Keys <= w.docs.Keys
    requires forall id :: id in docs ==>
      docs[id] == w.docs[id] || (docs[id].revokedAt.Some? && docs[id] == w.docs[id].(revokedAt := docs[id].revokedAt))
    ensures Inv(w.(docs := docs))
  {
    var w' := w.(docs := docs);
    assert LinesHold(w'.docs, w'.issued, w'.users, w'.lineage);
    forall c: nat ensures Extends(w, w', c) { DocumentsChangeExtends(w, docs, c); }
    hide LinesHold;
    hide CallHolds;
    hide Extends;
    EveryCallSurvives(w, w');
  }

  lemma DocumentsChangeExtends(w: World, docs: Documents, c: nat)
    requires docs.Keys <= w.docs.Keys
    requires forall id :: id in docs ==>
      docs[id] == w.docs[id] || (docs[id].revokedAt.Some? && docs[id] == w.docs[id].(revokedAt := docs[id].revokedAt))
    ensures Extends(w, w.(docs := docs), c)
  {
  }

  lemma StepKeepsInv(w: World, e: Event)
    requires Inv(w)
    ensures Inv(Step(w, e))
  {
    hide Inv;
    hide SignInStep;
    hide VerifyStep;
    hide FindStep;
    hide DecideStep;
    hide RotateStep;
    hide RevokeStep;
    match e
    case Tick(to) => TickKeepsInv(w, to);
    case SignIn(session, user, digest, at, ttl) => SignInKeepsInv(w, session, user, digest, at, ttl);
    case Present(call, digest) =>
      if Step(w, e) != w {
        assert CallHolds(w, call, Fresh(digest));
        OneCallMoves(w, call, Fresh(digest));
      }
    case Verify(call, at) => if Step(w, e) != w { VerifyKeepsInv(w, call, at); }
    case Find(call) => if call in w.calls && w.calls[call].stage.Verified? { FindKeepsInv(w, call); }
    case Decide(call, at, minted, ttl) => if Step(w, e) != w { DecideKeepsInv(w, call, at, minted, ttl); }
    case Rotate(call) => if Step(w, e) != w { RotateKeepsInv(w, call, true); }
    case RotateUnseen(call) => if Step(w, e) != w { RotateKeepsInv(w, call, false); }
    case Revoke(call) => if Step(w, e) != w { RevokeKeepsInv(w, call); }
    case Crash(call) => if call in w.calls { CrashKeepsInv(w, call); }
    case LogOut(session, at) => DocumentsChangeKeepsInv(w, RevokeIn(w.docs, session, at));
    case Expire(session) => DocumentsChangeKeepsInv(w, w.docs - {session});
  }

  lemma TickKeepsInv(w: World, to: int)
    requires Inv(w)
    ensures Inv(w.(clock := to))
  {
    hide LinesHold;
    forall c | c in w.calls ensures CallHolds(w.(clock := to), c, w.calls[c]) {
      assert CallHolds(w, c, w.calls[c]);
    }
  }

  lemma {:induction false} RunKeepsInv(w: World, events: seq<Event>)
    requires Inv(w)
    ensures Inv(Run(w, events))
  {
    hide Inv;
    if events != [] {
      RunKeepsInv(w, events[..|events| - 1]);
      StepKeepsInv(Run(w, events[..|events| - 1]), events[|events| - 1]);
    }
  }

  // ----- Main results ---------------------------------------------------------------------

  predicate Succeeded(w: World, call: nat) {
    call in w.calls && w.calls[call].stage.Doing? && w.calls[call].stage.plan.Finished? && w.calls[call].stage.plan.outcome.Issued?
  }

  /** A refresh token is good for one success: two presentations that both returned
      new tokens for it are the same presentation. */
  lemma TokenIsSingleUse(leeway: nat, events: seq<Event>, i: nat, j: nat)
    requires var w := Run(Start(leeway), events); Succeeded(w, i) && Succeeded(w, j) && w.calls[i].token == w.calls[j].token
    ensures i == j
  {
    RunKeepsInv(Start(leeway), events);
    SuccessIsUnique(Run(Start(leeway), events), i, j);
  }

  lemma SuccessIsUnique(w: World, i: nat, j: nat)
    requires Inv(w) && Succeeded(w, i) && Succeeded(w, j) && w.calls[i].token == w.calls[j].token
    ensures i == j
  {
    assert CallHolds(w, i, w.calls[i]) && CallHolds(w, j, w.calls[j]);
    var token := w.calls[i].token;
    var line := w.lineage[w.issued[token].sessionID];
    var m, n := w.calls[i].stage.plan.outcome.digest, w.calls[j].stage.plan.outcome.digest;
    assert NoRepeats(line);
    var a :| 0 <= a < |line| - 1 && line[a] == token && line[a + 1] == m;
    var b :| 0 <= b < |line| - 1 && line[b] == token && line[b + 1] == n;
    assert a == b;
  }

  predicate OfSession(w: World, call: nat, id: string) {
    call in w.calls && w.calls[call].token in w.issued && w.issued[w.calls[call].token].sessionID == id
  }

  /** A known session that is revoked or deleted. */
  ghost predicate Ended(w: World, id: string) {
    id in w.users && id in w.lineage && Dead(w.docs, id)
  }

  lemma JudgeIssuesNothing(claims: Claims, d: SessionDocument, presented: string, at: int, minted: string, ttl: int)
    ensures var plan := Judge(claims, d, presented, at, minted, ttl); plan.Finished? ==> !plan.outcome.Issued?
  {
  }

  lemma DecidingIsNoSuccess(w: World, c: nat, at: int, minted: string, ttl: int, call: nat)
    requires c in w.calls && w.calls[c].stage.Found? && w.calls[c].token in w.issued
    ensures Succeeded(DecideStep(w, c, at, minted, ttl), call) ==> Succeeded(w, call)
  {
    JudgeIssuesNothing(w.issued[w.calls[c].token], w.calls[c].stage.d, w.calls[c].token, at, minted, ttl);
    hide Judge;
    hide Signed;
  }

  lemma RotatingSucceeds(w: World, c: nat, seen: bool, call: nat)
    requires c in w.calls && w.calls[c].stage.Doing? && w.calls[c].stage.plan.Rotating?
    requires Succeeded(RotateStep(w, c, seen), call) && !Succeeded(w, call)
    ensures c == call && seen
    ensures var p := w.calls[call].stage.plan; RotateIn(w.docs, SessionOf(w, call), p.expected, p.minted, p.expiresAt, p.at).1
  {
    hide RotateIn;
    hide SessionOf;
  }

  /** Only a rotation that succeeds turns a call into a success. */
  lemma SuccessIsRotation(w: World, e: Event, call: nat)
    requires Succeeded(Step(w, e), call) && !Succeeded(w, call)
    ensures e == Rotate(call) && call in w.calls && w.calls[call].stage.Doing? && w.calls[call].stage.plan.Rotating?
    ensures
      var p := w.calls[call].stage.plan;
      RotateIn(w.docs, SessionOf(w, call), p.expected, p.minted, p.expiresAt, p.at).1
  {
    hide RotateIn;
    hide SessionOf;
    hide RevokeIn;
    hide InTime;
    hide SignInStep;
    hide VerifyStep;
    hide FindStep;
    hide DecideStep;
    hide RotateStep;
    hide RevokeStep;
    match e
    case Verify(c, at) => if Step(w, e) != w { VerifyingIsNoSuccess(w, c, at, call); }
    case Find(c) => if Step(w, e) != w { FindingIsNoSuccess(w, c, call); }
    case Revoke(c) => if Step(w, e) != w { RevokingIsNoSuccess(w, c, call); }
    case SignIn(session, user, digest, at, ttl) => SigningInIsNoSuccess(w, session, user, digest, at, ttl, call);
    case Decide(c, at, minted, ttl) =>
      if Step(w, e) != w { DecidingIsNoSuccess(w, c, at, minted, ttl, call); }
    case Rotate(c) => if Step(w, e) != w { RotatingSucceeds(w, c, true, call); }
    case RotateUnseen(c) => if Step(w, e) != w { RotatingSucceeds(w, c, false, call); }
    case _ =>
  }

  lemma VerifyingIsNoSuccess(w: World, c: nat, at: int, call: nat)
    requires c in w.calls && w.calls[c].token in w.issued
    ensures Succeeded(VerifyStep(w, c, at), call) ==> Succeeded(w, call)
  {
  }

  lemma FindingIsNoSuccess(w: World, c: nat, call: nat)
    requires c in w.calls
    ensures Succeeded(FindStep(w, c), call) ==> Succeeded(w, call)
  {
    hide Restorable;
  }

  lemma RevokingIsNoSuccess(w: World, c: nat, call: nat)
    requires c in w.calls && w.calls[c].stage.Doing? && w.calls[c].stage.plan.Revoking?
    ensures Succeeded(RevokeStep(w, c), call) ==> Succeeded(w, call)
  {
    hide RevokeIn;
  }

  lemma SigningInIsNoSuccess(w: World, session: string, user: string, digest: string, at: int, ttl: int, call: nat)
    ensures Succeeded(SignInStep(w, session, user, digest, at, ttl), call) ==> Succeeded(w, call)
  {
    hide Text.Blank;
    hide Signed;
  }

  lemma UpdatesKeepTokens(w: World, updating: nat, seen: bool, call: nat)
    requires call in w.calls && updating in w.calls && w.calls[updating].stage.Doing?
    ensures w.calls[updating].stage.plan.Rotating? ==>
      call in RotateStep(w, updating, seen).calls && RotateStep(w, updating, seen).calls[call].token == w.calls[call].token
    ensures w.calls[updating].stage.plan.Revoking? ==>
      call in RevokeStep(w, updating).calls && RevokeStep(w, updating).calls[call].token == w.calls[call].token
  {
    hide RotateIn;
    hide RevokeIn;
    hide SessionOf;
  }

  lemma StepKeepsTokens(w: World, e: Event, call: nat)
    requires call in w.calls
    ensures call in Step(w, e).calls && Step(w, e).calls[call].token == w.calls[call].token
  {
    hide InTime;
    hide Signed;
    hide Judge;
    hide RotateStep;
    hide RevokeStep;
    hide Restorable;
    hide RevokeIn;
    hide Text.Blank;
    if (e.Rotate? || e.RotateUnseen? || e.Revoke?) && e.call in w.calls && w.calls[e.call].stage.Doing? {
      UpdatesKeepTokens(w, e.call, e.Rotate?, call);
    }
  }

  lemma StepKeepsIssued(w: World, e: Event, token: string)
    requires token in w.issued
    ensures token in Step(w, e).issued && Step(w, e).issued[token] == w.issued[token]
  {
    hide InTime;
    hide Signed;
    hide Judge;
    hide RotateIn;
    hide Restorable;
    hide RevokeIn;
    hide Text.Blank;
  }

  lemma QuietSteps(w: World, call: nat, at: int, minted: string, ttl: int)
    requires call in w.calls && w.calls[call].token in w.issued
    ensures var w' := VerifyStep(w, call, at); w'.docs == w.docs && w'.users == w.users && w'.lineage == w.lineage
    ensures var w' := FindStep(w, call); w'.docs == w.docs && w'.users == w.users && w'.lineage == w.lineage
    ensures w.calls[call].stage.Found? ==>
      var w' := DecideStep(w, call, at, minted, ttl); w'.docs == w.docs && w'.users == w.users && w'.lineage == w.lineage
  {
    hide Judge;
    hide Signed;
    hide InTime;
    hide Restorable;
  }

  lemma StepKeepsDead(w: World, e: Event, id: string)
    requires LinesHold(w.docs, w.issued, w.users, w.lineage) && Ended(w, id)
    requires forall c :: c in w.calls ==> w.calls[c].token in w.issued
    ensures Ended(Step(w, e), id) && Step(w, e).lineage[id] == w.lineage[id]
  {
    hide LinesHold;
    hide Judge;
    hide Text.Blank;
    hide Restorable;
    hide InTime;
    hide Signed;
    if e.Verify? && e.call in w.calls {
      QuietSteps(w, e.call, e.at, "", 0);
    } else if e.Find? && e.call in w.calls {
      QuietSteps(w, e.call, 0, "", 0);
    } else if e.Decide? && e.call in w.calls {
      QuietSteps(w, e.call, e.at, e.minted, e.ttl);
    }
    hide VerifyStep;
    hide FindStep;
    hide DecideStep;
  }

  lemma StepKeepsEnded(w: World, e: Event, id: string, call: nat)
    requires Inv(w) && Ended(w, id)
    ensures Ended(Step(w, e), id) && Step(w, e).lineage[id] == w.lineage[id]
    ensures OfSession(Step(w, e), call, id) && Succeeded(Step(w, e), call) ==> OfSession(w, call, id) && Succeeded(w, call)
  {
    forall c | c in w.calls ensures w.calls[c].token in w.issued {
      assert CallHolds(w, c, w.calls[c]);
    }
    hide LinesHold;
    hide CallsHold;
    hide ReadsHold;
    hide Step;
    StepKeepsDead(w, e, id);
    if OfSession(Step(w, e), call, id) && Succeeded(Step(w, e), call) {
      if !Succeeded(w, call) {
        SuccessIsRotation(w, e, call);
      }
      StepKeepsTokens(w, e, call);
      StepKeepsIssued(w, e, w.calls[call].token);
    }
  }

  lemma {:induction false} StaysEnded(w: World, events: seq<Event>, id: string, call: nat)
    requires Inv(w) && Ended(w, id)
    ensures Ended(Run(w, events), id) && Run(w, events).lineage[id] == w.lineage[id]
    ensures OfSession(Run(w, events), call, id) && Succeeded(Run(w, events), call) ==> OfSession(w, call, id) && Succeeded(w, call)
  {
    hide Inv;
    hide Ended;
    hide OfSession;
    hide Succeeded;
    if events != [] {
      StaysEnded(w, events[..|events| - 1], id, call);
      RunKeepsInv(w, events[..|events| - 1]);
      StepKeepsEnded(Run(w, events[..|events| - 1]), events[|events| - 1], id, call);
    }
  }

  /** Once a session is revoked, by reuse or logout, or gone, no rotation of it
      ever succeeds again: its line of tokens has ended. */
  lemma EndedSessionNeverRotates(leeway: nat, before: seq<Event>, after: seq<Event>, id: string, call: nat)
    requires Ended(Run(Start(leeway), before), id)
    ensures
      var w, w' := Run(Start(leeway), before), Run(Run(Start(leeway), before), after);
      && Ended(w', id) && w'.lineage[id] == w.lineage[id]
      && (OfSession(w', call, id) && Succeeded(w', call) ==> OfSession(w, call, id) && Succeeded(w, call))
  {
    RunKeepsInv(Start(leeway), before);
    StaysEnded(Run(Start(leeway), before), after, id, call);
  }

  lemma StepKeepsRevoked(w: World, e: Event, id: string)
    requires Ended(w, id) && forall call :: call in w.calls ==> w.calls[call].token in w.issued
    ensures id in Step(w, e).docs ==> id in w.docs && Step(w, e).docs[id] == w.docs[id]
  {
    hide InTime;
    hide Signed;
    hide Judge;
  }

  /** The first revocation stays: a revoked session, as long as its document is kept, is
      exactly what it was when it was revoked, whoever presents, reuses or signs out. */
  lemma {:induction false} FirstRevocationStays(leeway: nat, before: seq<Event>, after: seq<Event>, id: string)
    requires Ended(Run(Start(leeway), before), id)
    ensures
      var was, docs := Run(Start(leeway), before).docs, Run(Run(Start(leeway), before), after).docs;
      id in docs ==> id in was && docs[id] == was[id]
  {
    if after != [] {
      var front := after[..|after| - 1];
      FirstRevocationStays(leeway, before, front, id);
      EndedSessionNeverRotates(leeway, before, front, id, 0);
      RunKeepsInv(Start(leeway), before);
      var w := Run(Run(Start(leeway), before), front);
      RunKeepsInv(Run(Start(leeway), before), front);
      forall c | c in w.calls ensures w.calls[c].token in w.issued {
        assert CallHolds(w, c, w.calls[c]);
      }
      hide Inv;
      hide Ended;
      hide Run;
      StepKeepsRevoked(w, after[|after| - 1], id);
      hide Step;
    }
  }

  /** A token that a later one of its session has replaced. */
  ghost predicate Superseded(issued: map<string, Claims>, lineage: map<string, seq<string>>, token: string) {
    && token in issued && issued[token].sessionID in lineage
    && exists i :: 0 <= i < |lineage[issued[token].sessionID]| - 1 && lineage[issued[token].sessionID][i] == token
  }

  lemma StepKeepsSuperseded(w: World, e: Event, token: string)
    requires Inv(w) && Superseded(w.issued, w.lineage, token)
    ensures Superseded(Step(w, e).issued, Step(w, e).lineage, token)
  {
    hide InTime;
    hide Signed;
    hide RevokeIn;
    hide LineageHolds;
    hide ClaimsHold;
    hide ReadsHold;
    hide Judge;
    hide Text.Blank;
    hide Restorable;
    var id := w.issued[token].sessionID;
    var i :| 0 <= i < |w.lineage[id]| - 1 && w.lineage[id][i] == token;
    var w' := Step(w, e);
    StepKeepsIssued(w, e, token);
    assert id in w'.lineage && w.lineage[id] <= w'.lineage[id] by {
      assert id in w.users;
    }
    assert w'.lineage[id][i] == token;
  }

  lemma SupersededCallFails(w: World, e: Event, call: nat)
    requires Inv(w) && call in w.calls && Superseded(w.issued, w.lineage, w.calls[call].token) && !Succeeded(w, call)
    ensures call in Step(w, e).calls && Step(w, e).calls[call].token == w.calls[call].token && !Succeeded(Step(w, e), call)
  {
    var token := w.calls[call].token;
    var id := w.issued[token].sessionID;
    assert CallHolds(w, call, w.calls[call]);
    if id in w.docs {
      var i :| 0 <= i < |w.lineage[id]| - 1 && w.lineage[id][i] == token;
      assert NoRepeats(w.lineage[id]);
      assert w.docs[id].digest != token;
    }
    hide Inv;
    hide CallHolds;
    hide Superseded;
    MismatchedCallFails(w, e, call);
  }

  /** The compare-and-set at work. */
  lemma MismatchedCallFails(w: World, e: Event, call: nat)
    requires call in w.calls && w.calls[call].token in w.issued && !Succeeded(w, call)
    requires
      var id := w.issued[w.calls[call].token].sessionID;
      id in w.docs ==> w.docs[id].digest != w.calls[call].token
    requires w.calls[call].stage.Doing? && w.calls[call].stage.plan.Rotating? ==>
      w.calls[call].stage.plan.expected == w.calls[call].token
    ensures call in Step(w, e).calls && Step(w, e).calls[call].token == w.calls[call].token && !Succeeded(Step(w, e), call)
  {
    hide Step;
    StepKeepsTokens(w, e, call);
    if Succeeded(Step(w, e), call) {
      SuccessIsRotation(w, e, call);
    }
  }

  lemma {:induction false} StaysUnsuccessful(w: World, events: seq<Event>, call: nat)
    requires Inv(w) && call in w.calls && Superseded(w.issued, w.lineage, w.calls[call].token) && !Succeeded(w, call)
    ensures
      var w' := Run(w, events);
      && call in w'.calls && w'.calls[call].token == w.calls[call].token && !Succeeded(w', call)
      && Superseded(w'.issued, w'.lineage, w.calls[call].token)
  {
    hide Inv;
    hide Superseded;
    hide Succeeded;
    if events != [] {
      StaysUnsuccessful(w, events[..|events| - 1], call);
      RunKeepsInv(w, events[..|events| - 1]);
      StepKeepsSuperseded(Run(w, events[..|events| - 1]), events[|events| - 1], w.calls[call].token);
      SupersededCallFails(Run(w, events[..|events| - 1]), events[|events| - 1], call);
    }
  }

  /** However far its presentation had come when its token was superseded, and
      whatever happens next, it never returns new tokens. */
  lemma SupersededTokenNeverSucceeds(leeway: nat, before: seq<Event>, after: seq<Event>, call: nat)
    requires
      var w := Run(Start(leeway), before);
      call in w.calls && Superseded(w.issued, w.lineage, w.calls[call].token) && !Succeeded(w, call)
    ensures !Succeeded(Run(Run(Start(leeway), before), after), call)
  {
    RunKeepsInv(Start(leeway), before);
    StaysUnsuccessful(Run(Start(leeway), before), after, call);
  }

  predicate WasRefused(w: World, call: nat) {
    call in w.calls && w.calls[call].stage == Doing(Finished(Invalid))
  }

  lemma RefusedCallHolds(w: World, call: nat)
    requires Inv(w) && WasRefused(w, call)
    ensures
      var c := w.calls[call];
      && c.token in w.issued && c.verifiedAt.Some?
      && var id, inTime := w.issued[c.token].sessionID, InTime(w.issued[c.token], w.leeway, c.verifiedAt.value);
      && (c.revoked <==> inTime && c.read.Some? && Active(c.read.value, c.at))
      && (c.revoked ==> Dead(w.docs, id))
      && (Dead(w.docs, id) || !inTime || (c.read.Some? && c.read.value.revokedAt == None && c.read.value.expiresAt <= c.at))
  {
    assert CallHolds(w, call, w.calls[call]);
    hide Inv;
    hide InTime;
  }

  /** Exactly which refusals revoke. A presentation that was answered "invalid token"
      has revoked its session, which is then revoked or gone for good, if and only if
      its token was in time when it was verified and the document it read was active
      when it decided. */
  lemma RefusalRevokesIff(leeway: nat, events: seq<Event>, call: nat)
    requires WasRefused(Run(Start(leeway), events), call)
    ensures
      var w := Run(Start(leeway), events);
      var c := w.calls[call];
      && c.token in w.issued && c.verifiedAt.Some?
      && (c.revoked <==> InTime(w.issued[c.token], w.leeway, c.verifiedAt.value) && c.read.Some? && Active(c.read.value, c.at))
      && (c.revoked ==> Dead(w.docs, w.issued[c.token].sessionID))
  {
    RunKeepsInv(Start(leeway), events);
    RefusedCallHolds(Run(Start(leeway), events), call);
  }

  /** In particular for a token that was superseded while, or before, it was presented:
      once its presentation has an answer other than a failure, the answer is "invalid
      token", and it has revoked the session exactly under that condition. */
  lemma SupersededTokenRevokesIff(leeway: nat, before: seq<Event>, after: seq<Event>, call: nat)
    requires
      var w := Run(Start(leeway), before);
      call in w.calls && Superseded(w.issued, w.lineage, w.calls[call].token) && !Succeeded(w, call)
    requires
      var w := Run(Run(Start(leeway), before), after);
      call in w.calls && w.calls[call].stage.Doing? && w.calls[call].stage.plan.Finished? && w.calls[call].stage.plan.outcome != Failed
    ensures
      var w := Run(Run(Start(leeway), before), after);
      var c := w.calls[call];
      && WasRefused(w, call) && c.token in w.issued && c.verifiedAt.Some?
      && (c.revoked <==> InTime(w.issued[c.token], w.leeway, c.verifiedAt.value) && c.read.Some? && Active(c.read.value, c.at))
      && (c.revoked ==> Dead(w.docs, w.issued[c.token].sessionID))
  {
    RunKeepsInv(Start(leeway), before);
    var w := Run(Start(leeway), before);
    StaysUnsuccessful(w, after, call);
    RunKeepsInv(w, after);
    hide Inv;
    hide Run;
    hide Superseded;
    RefusedCallHolds(Run(w, after), call);
  }

  /** A refused presentation leaves its session revoked or gone, with two exceptions:
      its token was not in time when it was verified, or the document it read, though
      not revoked, had expired by its clock reading. */
  lemma RefusalEndsTheSession(leeway: nat, events: seq<Event>, call: nat)
    requires WasRefused(Run(Start(leeway), events), call)
    ensures
      var w := Run(Start(leeway), events);
      var c := w.calls[call];
      && c.token in w.issued && c.verifiedAt.Some?
      && (Dead(w.docs, w.issued[c.token].sessionID)
          || !InTime(w.issued[c.token], w.leeway, c.verifiedAt.value)
          || (c.read.Some? && c.read.value.revokedAt == None && c.read.value.expiresAt <= c.at))
  {
    RunKeepsInv(Start(leeway), events);
    RefusedCallHolds(Run(Start(leeway), events), call);
  }

  /** A superseded token presented and refused, its session still active. */
  ghost predicate Escapes(leeway: nat, events: seq<Event>, call: nat) {
    var w := Run(Start(leeway), events);
    && WasRefused(w, call) && Superseded(w.issued, w.lineage, w.calls[call].token)
    && var id := w.issued[w.calls[call].token].sessionID;
    id in w.docs && Active(w.docs[id], w.clock)
  }

  /** The same without any race: when the call began its token was superseded and no
      other call was under way, and the session was never read. */
  ghost predicate EscapesAlone(leeway: nat, before: seq<Event>, events: seq<Event>, call: nat) {
    var w, w' := Run(Start(leeway), before), Run(Start(leeway), before + events);
    && Escapes(leeway, before + events, call) && w'.calls[call].read == None
    && call !in w.calls && Superseded(w.issued, w.lineage, w'.calls[call].token)
    && forall other :: other in w.calls ==> w.calls[other].stage.Doing? && w.calls[other].stage.plan.Finished?
  }

  /** The second exception happens: a presentation reads the session just before
      another one rotates it, and decides just after the old expiry. The token is
      refused, but the session is not revoked. */
  lemma SupersededTokenCanEscapeRevocation(leeway: nat)
    ensures exists events, call :: Escapes(leeway, events, call)
  {
    SomeDigests("0", "1");
    ReachSignedIn(leeway, "s", "u", "0");
    ReachBothFound(leeway, "s", "u", "0");
    ReachEscape(leeway, "s", "u", "0", "1");
  }

  /** The first exception happens, and needs no race: a replaced token is presented
      alone, after its own expiry, while the rotated session goes on. */
  lemma ExpiredTokenEscapesRevocation(leeway: nat)
    ensures exists before, events, call :: EscapesAlone(leeway, before, events, call)
  {
    SomeDigests("0", "1");
    ReachSignedIn(leeway, "s", "u", "0");
    ReachRotated(leeway, "s", "u", "0", "1");
    ReachLateRefusal(leeway, "s", "u", "0", "1");
  }

  lemma SomeDigests(d0: string, d1: string)
    requires |d0| == |d1| == 1 && d0[0] != d1[0] && !Text.IsSpace(d0[0]) && !Text.IsSpace(d1[0])
    ensures !Text.Blank(d0) && !Text.Blank(d1) && d0 != d1
  {
    Text.TrimmedIsFixed(d0);
    Text.TrimmedIsFixed(d1);
  }

  ghost predicate Reached(leeway: nat, w: World) {
    exists events :: Run(Start(leeway), events) == w
  }

  lemma ReachedNext(leeway: nat, w: World, e: Event)
    requires Reached(leeway, w)
    ensures Reached(leeway, Step(w, e))
  {
    var events :| Run(Start(leeway), events) == w;
    RunNext(Start(leeway), events, e);
  }

  lemma RunNext(w: World, events: seq<Event>, e: Event)
    ensures Run(w, events + [e]) == Step(Run(w, events), e)
  {
    assert (events + [e])[..|events|] == events;
  }

  const S := Instants.SECOND

  function FirstDocument(u: string, d0: string): SessionDocument {
    SessionDocument(u, d0, S, 2 * S, None)
  }

  /** One session that lives for a second, whose first token the calls present. */
  function OneSession(leeway: nat, s: string, u: string, d0: string, calls: map<nat, Call>): World {
    World(map[s := FirstDocument(u, d0)], S, map[d0 := Claims(u, s, S, 2 * S)], map[], map[s := u], map[s := [d0]], calls, leeway)
  }

  lemma ReachSignedIn(leeway: nat, s: string, u: string, d0: string)
    requires s != "" && u != "" && !Text.Blank(d0)
    ensures Reached(leeway, OneSession(leeway, s, u, d0, map[]))
  {
    var w := Start(leeway);
    assert Run(w, []) == w;
    ReachedNext(leeway, w, Tick(S));
    ReachedNext(leeway, w.(clock := S), SignIn(s, u, d0, S, S));
    assert SignInStep(w.(clock := S), s, u, d0, S, S) == OneSession(leeway, s, u, d0, map[]);
  }

  /** A presentation whose token has been verified and whose session was found. */
  function Reading(u: string, d0: string): Call {
    Call(d0, Found(FirstDocument(u, d0)), Some(S), None, 0, false)
  }

  lemma ReachReading(leeway: nat, s: string, u: string, d0: string, calls: map<nat, Call>, call: nat)
    requires u != "" && !Text.Blank(d0) && call !in calls && Reached(leeway, OneSession(leeway, s, u, d0, calls))
    ensures Reached(leeway, OneSession(leeway, s, u, d0, calls[call := Reading(u, d0)]))
  {
    var d := FirstDocument(u, d0);
    assert Restorable(d);
    hide Restorable;
    hide Text.Blank;
    var w0 := OneSession(leeway, s, u, d0, calls);
    ReachedNext(leeway, w0, Present(call, d0));
    var w1 := w0.(calls := calls[call := Fresh(d0)]);
    ReachedNext(leeway, w1, Verify(call, S));
    var w2 := w0.(calls := calls[call := Fresh(d0).(stage := Verified, verifiedAt := Some(S))]);
    assert VerifyStep(w1, call, S).calls == w2.calls;
    assert Step(w1, Verify(call, S)) == w2;
    ReachedNext(leeway, w2, Find(call));
    assert FindStep(w2, call).calls == calls[call := Reading(u, d0)];
  }

  lemma ReachBothFound(leeway: nat, s: string, u: string, d0: string)
    requires u != "" && !Text.Blank(d0) && Reached(leeway, OneSession(leeway, s, u, d0, map[]))
    ensures Reached(leeway, OneSession(leeway, s, u, d0, map[0 := Reading(u, d0), 1 := Reading(u, d0)]))
  {
    hide Text.Blank;
    hide OneSession;
    hide Reading;
    ReachReading(leeway, s, u, d0, map[], 0);
    ReachReading(leeway, s, u, d0, map[][0 := Reading(u, d0)], 1);
    assert map[][0 := Reading(u, d0)][1 := Reading(u, d0)] == map[0 := Reading(u, d0), 1 := Reading(u, d0)];
  }

  /** The lifetime of the second token; the session outlives the leeway by far. */
  function Longer(leeway: nat): int {
    leeway + 9 * S
  }

  /** Call 0 has rotated the session. */
  ghost predicate Rotated(w: World, leeway: nat, s: string, u: string, d0: string, d1: string) {
    && w.leeway == leeway && w.clock == S && d0 != d1
    && s in w.docs && w.docs[s].revokedAt == None && w.docs[s].expiresAt == Instants.Stored(S + Longer(leeway))
    && d0 in w.issued && w.issued[d0] == Claims(u, s, S, 2 * S) && d1 in w.issued
    && s in w.lineage && w.lineage[s] == [d0] + [d1]
    && 0 in w.calls && w.calls[0].stage == Doing(Finished(Issued(d1)))
  }

  lemma ReachRotation(leeway: nat, s: string, u: string, d0: string, d1: string, calls: map<nat, Call>) returns (w: World)
    requires s != "" && u != "" && !Text.Blank(d0) && !Text.Blank(d1) && d0 != d1
    requires 0 in calls && calls[0] == Reading(u, d0) && Reached(leeway, OneSession(leeway, s, u, d0, calls))
    ensures Reached(leeway, w) && Rotated(w, leeway, s, u, d0, d1)
    ensures w.calls == calls[0 := w.calls[0]] && w.issued.Keys == {d0, d1}
  {
    var w0 := OneSession(leeway, s, u, d0, calls);
    ReachedNext(leeway, w0, Decide(0, S, d1, Longer(leeway)));
    var w1 := DecideStep(w0, 0, S, d1, Longer(leeway));
    assert w1.calls[0].stage == Doing(Rotating(d0, d1, S + Longer(leeway), S));
    assert w1.docs == w0.docs && w1.lineage == w0.lineage && SessionOf(w1, 0) == s;
    hide Text.Blank;
    hide Judge;
    hide DecideStep;
    ReachedNext(leeway, w1, Rotate(0));
    w := RotateStep(w1, 0, true);
    assert w.lineage[s] == [d0] + [d1];
    assert w.calls == calls[0 := w.calls[0]];
  }

  lemma ReachEscape(leeway: nat, s: string, u: string, d0: string, d1: string)
    requires s != "" && u != "" && !Text.Blank(d0) && !Text.Blank(d1) && d0 != d1
    requires Reached(leeway, OneSession(leeway, s, u, d0, map[0 := Reading(u, d0), 1 := Reading(u, d0)]))
    ensures exists events, call :: Escapes(leeway, events, call)
  {
    var w := ReachRotation(leeway, s, u, d0, d1, map[0 := Reading(u, d0), 1 := Reading(u, d0)]);
    assert w.calls[1] == Reading(u, d0);
    ReachedNext(leeway, w, Tick(2 * S));
    EscapeDecides(leeway, s, u, d0, d1, w, w.(clock := 2 * S));
  }

  lemma EscapeDecides(leeway: nat, s: string, u: string, d0: string, d1: string, w: World, w': World)
    requires Rotated(w, leeway, s, u, d0, d1) && w' == w.(clock := 2 * S) && Reached(leeway, w') && w.issued.Keys == {d0, d1}
    requires 1 in w.calls && w.calls[1] == Reading(u, d0)
    ensures exists events, call :: Escapes(leeway, events, call)
  {
    var other := AnotherDigest(d0, d1);
    ReachedNext(leeway, w', Decide(1, 2 * S, other, 1));
    var w'' := DecideStep(w', 1, 2 * S, other, 1);
    assert w''.lineage[s][0] == d0;
    assert Active(w''.docs[s], w''.clock);
    var events :| Run(Start(leeway), events) == w'';
    assert Escapes(leeway, events, 1);
  }

  lemma ReachRotated(leeway: nat, s: string, u: string, d0: string, d1: string)
    requires s != "" && u != "" && !Text.Blank(d0) && !Text.Blank(d1) && d0 != d1
    requires Reached(leeway, OneSession(leeway, s, u, d0, map[]))
    ensures exists w: World :: Reached(leeway, w) && Rotated(w, leeway, s, u, d0, d1) && w.calls.Keys == {0}
  {
    ReachReading(leeway, s, u, d0, map[], 0);
    var w := ReachRotation(leeway, s, u, d0, d1, map[][0 := Reading(u, d0)]);
  }

  lemma ReachLateRefusal(leeway: nat, s: string, u: string, d0: string, d1: string)
    requires exists w: World :: Reached(leeway, w) && Rotated(w, leeway, s, u, d0, d1) && w.calls.Keys == {0}
    ensures exists before, events, call :: EscapesAlone(leeway, before, events, call)
  {
    var w: World :| Reached(leeway, w) && Rotated(w, leeway, s, u, d0, d1) && w.calls.Keys == {0};
    var before :| Run(Start(leeway), before) == w;
    var late := 2 * S + leeway;
    var w3 := LateRefusal(leeway, s, u, d0, d1, w, late);
    hide Step;
    hide Rotated;
    hide Active;
    hide Superseded;
    RunThree(Start(leeway), before, Tick(late), Present(1, d0), Verify(1, late));
    assert EscapesAlone(leeway, before, [Tick(late), Present(1, d0), Verify(1, late)], 1);
  }

  lemma RunThree(w: World, before: seq<Event>, a: Event, b: Event, c: Event)
    ensures Run(w, before + [a, b, c]) == Step(Step(Step(Run(w, before), a), b), c)
  {
    hide Step;
    RunNext(w, before, a);
    RunNext(w, before + [a], b);
    RunNext(w, before + [a] + [b], c);
    assert before + [a] + [b] + [c] == before + [a, b, c];
  }

  lemma LateRefusal(leeway: nat, s: string, u: string, d0: string, d1: string, w: World, late: int) returns (w3: World)
    requires Rotated(w, leeway, s, u, d0, d1) && w.calls.Keys == {0} && late == 2 * S + leeway
    ensures w3 == Step(Step(Step(w, Tick(late)), Present(1, d0)), Verify(1, late))
    ensures WasRefused(w3, 1) && w3.calls[1].token == d0 && w3.calls[1].read == None
    ensures d0 in w3.issued && w3.issued[d0].sessionID == s && s in w3.docs && Active(w3.docs[s], w3.clock)
    ensures Superseded(w.issued, w.lineage, d0) && Superseded(w3.issued, w3.lineage, d0)
    ensures forall other :: other in w.calls ==> w.calls[other].stage.Doing? && w.calls[other].stage.plan.Finished?
  {
    var w1 := w.(clock := late);
    var w2 := w1.(calls := w.calls[1 := Fresh(d0)]);
    w3 := VerifyStep(w2, 1, late);
    assert Step(w, Tick(late)) == w1 && Step(w1, Present(1, d0)) == w2 && Step(w2, Verify(1, late)) == w3;
    assert w3.calls[1] == Fresh(d0).(stage := Doing(Finished(Invalid)), verifiedAt := Some(late));
    assert w.lineage[s][0] == d0;
  }

  function AnotherDigest(d0: string, d1: string): (other: string)
    ensures other != d0 && other != d1
  {
    assert |d0 + d1 + "x"| > |d0| && |d0 + d1 + "x"| > |d1|;
    d0 + d1 + "x"
  }

  /** A presentation up to its decision, when nothing disturbs it. */
  function ReadFor(w: World, call: nat, token: string): World {
    Step(Step(Step(w, Present(call, token)), Verify(call, w.clock)), Find(call))
  }

  /** A token that passes its verification, of an active session. */
  predicate OfActiveSession(w: World, token: string) {
    && token in w.issued
    && var claims := w.issued[token];
    && claims.issuedAt < claims.expiresAt && claims.issuedAt - w.leeway <= w.clock < claims.expiresAt + w.leeway
    && claims.sessionID in w.docs && claims.sessionID != "" && claims.userID != ""
    && var d := w.docs[claims.sessionID];
    && d.userID == claims.userID && !Text.Blank(d.digest) && d.revokedAt == None
    && d.createdAt != 0 && d.expiresAt != 0 && d.createdAt < d.expiresAt && w.clock < d.expiresAt
  }

  lemma ReadsItsSession(w: World, call: nat, token: string)
    requires call !in w.calls && OfActiveSession(w, token)
    ensures
      var w' := ReadFor(w, call, token);
      && w' == w.(calls := w'.calls) && call in w'.calls
      && w'.calls[call].stage == Found(w.docs[w.issued[token].sessionID]) && w'.calls[call].token == token
  {
    hide Text.Blank;
    var a := Step(w, Present(call, token));
    assert a == w.(calls := w.calls[call := Fresh(token)]);
    var b := Step(a, Verify(call, w.clock));
    assert b.calls[call] == Fresh(token).(stage := Verified, verifiedAt := Some(w.clock)) && b == w.(calls := b.calls);
  }

  /** The owner of an active session is never turned away: an undisturbed presentation of
      its current token, in time, is answered new tokens, and the session has rotated. */
  lemma UndisturbedRefreshSucceeds(w: World, call: nat, token: string, minted: string, ttl: int)
    requires call !in w.calls && minted !in w.issued && !Text.Blank(minted) && w.clock > 0 && ttl > 0
    requires OfActiveSession(w, token) && w.docs[w.issued[token].sessionID].digest == token
    ensures
      var w' := Step(Step(ReadFor(w, call, token), Decide(call, w.clock, minted, ttl)), Rotate(call));
      var id := w.issued[token].sessionID;
      && call in w'.calls && w'.calls[call].stage == Doing(Finished(Issued(minted)))
      && w'.docs == w.docs[id := w.docs[id].(digest := minted, expiresAt := Instants.Stored(w.clock + ttl))]
      && minted in w'.issued && w'.issued[minted].sessionID == id && w'.issued[minted].userID == w.issued[token].userID
      && w'.issued[minted].expiresAt == (w.clock + ttl) - (w.clock + ttl) % 1_000_000_000
  {
    ReadsItsSession(w, call, token);
    hide Text.Blank;
    hide Step;
    RefreshEnds(ReadFor(w, call, token), call, token, minted, ttl, w.docs[w.issued[token].sessionID]);
    hide ReadFor;
  }

  /** And whoever presents a replaced token in time, undisturbed, ends the session: it is
      revoked from that moment on, and the answer gives nothing away. */
  lemma UndisturbedReuseRevokes(w: World, call: nat, token: string, minted: string, ttl: int)
    requires call !in w.calls && minted !in w.issued && !Text.Blank(token) && w.clock > 0
    requires OfActiveSession(w, token) && w.docs[w.issued[token].sessionID].digest != token
    ensures
      var w' := Step(Step(ReadFor(w, call, token), Decide(call, w.clock, minted, ttl)), Revoke(call));
      var id := w.issued[token].sessionID;
      && call in w'.calls && w'.calls[call].stage == Doing(Finished(Invalid)) && w'.issued == w.issued
      && w'.docs == w.docs[id := w.docs[id].(revokedAt := Some(Instants.Stored(w.clock)))]
  {
    ReadsItsSession(w, call, token);
    hide Text.Blank;
    hide Step;
    ReuseEnds(ReadFor(w, call, token), call, token, minted, ttl, w.docs[w.issued[token].sessionID]);
    hide ReadFor;
  }

  lemma ReuseEnds(b: World, call: nat, token: string, minted: string, ttl: int, d: SessionDocument)
    requires call in b.calls && b.calls[call].stage == Found(d) && b.calls[call].token == token
    requires token in b.issued && minted !in b.issued && !Text.Blank(token) && b.clock > 0
    requires
      var claims := b.issued[token];
      && claims.sessionID in b.docs && b.docs[claims.sessionID] == d
      && d.userID == claims.userID && d.digest != token && d.revokedAt == None && b.clock < d.expiresAt
    ensures
      var w', id := Step(Step(b, Decide(call, b.clock, minted, ttl)), Revoke(call)), b.issued[token].sessionID;
      && call in w'.calls && w'.calls[call].stage == Doing(Finished(Invalid)) && w'.issued == b.issued
      && w'.docs == b.docs[id := d.(revokedAt := Some(Instants.Stored(b.clock)))]
  {
    hide Text.Blank;
    var c := Step(b, Decide(call, b.clock, minted, ttl));
    assert c.calls[call].stage == Doing(Revoking(b.clock)) && c.calls[call].token == token;
    assert c.docs == b.docs && SessionOf(c, call) == b.issued[token].sessionID;
    hide Judge;
  }

  lemma RefreshEnds(b: World, call: nat, token: string, minted: string, ttl: int, d: SessionDocument)
    requires call in b.calls && b.calls[call].stage == Found(d) && b.calls[call].token == token
    requires token in b.issued && minted !in b.issued && !Text.Blank(token) && !Text.Blank(minted) && b.clock > 0 && ttl > 0
    requires
      var claims := b.issued[token];
      && claims.sessionID in b.docs && b.docs[claims.sessionID] == d
      && d.userID == claims.userID && d.digest == token && d.revokedAt == None && b.clock < d.expiresAt
    ensures
      var w', id := Step(Step(b, Decide(call, b.clock, minted, ttl)), Rotate(call)), b.issued[token].sessionID;
      && call in w'.calls && w'.calls[call].stage == Doing(Finished(Issued(minted)))
      && w'.docs == b.docs[id := d.(digest := minted, expiresAt := Instants.Stored(b.clock + ttl))]
      && minted in w'.issued && w'.issued[minted].sessionID == id && w'.issued[minted].userID == b.issued[token].userID
      && w'.issued[minted].expiresAt == (b.clock + ttl) - (b.clock + ttl) % 1_000_000_000
  {
    hide Text.Blank;
    var c := Step(b, Decide(call, b.clock, minted, ttl));
    assert c.calls[call].stage == Doing(Rotating(token, minted, b.clock + ttl, b.clock)) && c.calls[call].token == token;
    assert c.docs == b.docs && SessionOf(c, call) == b.issued[token].sessionID;
    hide Judge;
  }
}
