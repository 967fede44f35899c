// The two-window message rate limiter: an update pipeline over one document
// per user that keeps only the admissions of the last minute, and a TTL index
// that deletes idle documents. Times are milliseconds of the database clock.

module RateLimiter {
  import opened Common
  import Text

  const BURST_LIMIT: nat := 30
  const BURST_WINDOW: nat := 10_000
  const MINUTE_LIMIT: nat := 60
  const MINUTE_WINDOW: nat := 60_000

  datatype Document = Document(checkedAt: int, timestamps: seq<int>, retryAt: int, expiresAt: int)

  datatype ReserveError = EmptyUserID

  // ----- The update pipeline -------------------------------------------------

  function Max(a: int, b: int): int {
    if a >= b then a else b
  }

  function Least(ts: seq<int>): (m: int)
    requires ts != []
    ensures m in ts && forall t :: t in ts ==> m <= t
  {
    if |ts| == 1 then ts[0]
    else
      var rest := Least(ts[1..]);
      assert forall t :: t in ts ==> t == ts[0] || t in ts[1..];
      if ts[0] <= rest then ts[0] else rest
  }

  function Greatest(ts: seq<int>): (m: int)
    requires ts != []
    ensures m in ts && forall t :: t in ts ==> t <= m
  {
    assert forall t :: t in ts ==> t == ts[0] || t in ts[1..];
    if |ts| == 1 then ts[0] else Max(ts[0], Greatest(ts[1..]))
  }

  /** activeTimestamps: the entries later than `checkedAt - window`. */
  function Active(ts: seq<int>, checkedAt: int, window: nat): seq<int> {
    if ts == [] then []
    else if ts[0] > checkedAt - window then [ts[0]] + Active(ts[1..], checkedAt, window)
    else Active(ts[1..], checkedAt, window)
  }

  /** windowRetryAt: when the oldest entry of a full window leaves it. */
  function WindowRetryAt(ts: seq<int>, limit: nat, window: nat, checkedAt: int): int
    requires limit > 0
  {
    if |ts| >= limit then Least(ts) + window else checkedAt
  }

  predicate Admitted(d: Document) {
    d.retryAt <= d.checkedAt
  }

  /** What every document written by the pipeline keeps: it expires a minute after
      its last admission, later than its own checked time. */
  predicate WellFormed(d: Document) {
    d.timestamps != [] && d.expiresAt == Greatest(d.timestamps) + MINUTE_WINDOW && d.checkedAt < d.expiresAt
  }

  /** reservationPipeline, stage by stage. The list whose maximum the expiry
      stage takes is never empty. */
  function Reservation(stored: Option<Document>, now: int): (d: Document)
    ensures WellFormed(d)
  {
    var checkedAt := if stored.Some? then Max(now, stored.value.checkedAt) else now;
    var active := Active(if stored.Some? then stored.value.timestamps else [], checkedAt, MINUTE_WINDOW);
    var burst := Active(active, checkedAt, BURST_WINDOW);
    var retryAt := Max(WindowRetryAt(active, MINUTE_LIMIT, MINUTE_WINDOW, checkedAt),
                       WindowRetryAt(burst, BURST_LIMIT, BURST_WINDOW, checkedAt));
    var timestamps := if retryAt <= checkedAt then active + [checkedAt] else active;
    ActiveSize(active, checkedAt, BURST_WINDOW);
    ActiveMembers(if stored.Some? then stored.value.timestamps else [], checkedAt, MINUTE_WINDOW);
    Document(checkedAt, timestamps, retryAt, Greatest(timestamps) + MINUTE_WINDOW)
  }

  /** The TTL index on one document: it goes once its expiry has passed. */
  function Purged(doc: Option<Document>, now: int): Option<Document> {
    if doc.Some? && doc.value.expiresAt <= now then None else doc
  }

  /** The TTL is exact: an attempt finds the same with and without the document if
      and only if it comes at the document's expiry or later. */
  lemma ExpiryIsExact(d: Document, now: int)
    requires WellFormed(d)
    ensures Reservation(Some(d), now) == Reservation(None, now) <==> d.expiresAt <= now
    ensures Purged(Some(d), now) == None <==> Reservation(Some(d), now) == Reservation(None, now)
    ensures d.expiresAt == Greatest(d.timestamps) + 60_000
  {
    ActiveMembers(d.timestamps, Max(now, d.checkedAt), MINUTE_WINDOW);
    var active := Active(d.timestamps, Max(now, d.checkedAt), MINUTE_WINDOW);
    if d.expiresAt <= now {
      ActiveNone(d.timestamps, now, MINUTE_WINDOW);
    } else {
      assert Greatest(d.timestamps) in active;
      assert |active + [now]| > |[now]|;
    }
  }

  function DocumentOf(collection: map<string, Document>, userID: string): Option<Document> {
    if userID in collection then Some(collection[userID]) else None
  }

  class Limiter {
    var collection: map<string, Document>

    ghost predicate Valid()
      reads this
    {
      forall u :: u in collection ==> WellFormed(collection[u])
    }

    constructor ()
      ensures collection == map[] && Valid()
    {
      collection := map[];
    }

    /** One findOneAndUpdate with upsert; returns the wait in milliseconds. */
    method Reserve(userID: string, now: int) returns (wait: Result<int, ReserveError>)
      requires Valid()
      modifies this
      ensures Valid()
      ensures Text.Blank(userID) ==> wait == Err(EmptyUserID) && collection == old(collection)
      ensures !Text.Blank(userID) ==>
        var updated := Reservation(DocumentOf(old(collection), userID), now);
        && collection == old(collection)[userID := updated]
        && wait == Ok(updated.retryAt - updated.checkedAt)
    {
      if Text.TrimSpace(userID) == "" {
        return Err(EmptyUserID);
      }
      var updated := Reservation(DocumentOf(collection, userID), now);
      collection := collection[userID := updated];
      wait := Ok(updated.retryAt - updated.checkedAt);
    }

    /** One deletion by the TTL index. It touches one document at most, and no later
        attempt of any user is answered or stored differently because of it. */
    method Expire(userID: string, now: int)
      requires Valid()
      modifies this
      ensures Valid()
      ensures collection == old(collection) || collection == old(collection) - {userID}
      ensures DocumentOf(collection, userID) == Purged(DocumentOf(old(collection), userID), now)
      ensures forall u, t :: now <= t ==>
        Reservation(DocumentOf(collection, u), t) == Reservation(DocumentOf(old(collection), u), t)
    {
      if userID in collection && collection[userID].expiresAt <= now {
        ghost var d := collection[userID];
        collection := collection - {userID};
        forall t | now <= t ensures Reservation(Some(d), t) == Reservation(None, t) {
          ExpiryIsExact(d, t);
        }
      }
    }
  }

  // ----- The simple rule: count the whole admission history --------------------

  /** How many entries are later than `t - window`. */
  function Recent(h: seq<int>, t: int, window: nat): nat {
    if h == [] then 0 else (if h[0] > t - window then 1 else 0) + Recent(h[1..], t, window)
  }

  /** How many entries lie in the half-open window (t - window, t]. */
  function Within(h: seq<int>, t: int, window: nat): nat {
    if h == [] then 0 else (if t - window < h[0] <= t then 1 else 0) + Within(h[1..], t, window)
  }

  /** Room in both windows at time t, judged by the complete history. */
  predicate Allowed(h: seq<int>, t: int) {
    && Recent(h, t, MINUTE_WINDOW) < MINUTE_LIMIT
    && Recent(h, t, BURST_WINDOW) < BURST_LIMIT
  }

  ghost predicate WithinLimits(h: seq<int>) {
    && (forall x: int :: Within(h, x, MINUTE_WINDOW) <= MINUTE_LIMIT)
    && (forall x: int :: Within(h, x, BURST_WINDOW) <= BURST_LIMIT)
  }

  // ----- Whole runs of one user's document --------------------------------------

  datatype Event = Attempt(now: int) | Expiry(now: int)

  /** The stored document, beside the complete admission history and the clock. */
  datatype System = System(doc: Option<Document>, admitted: seq<int>, clock: int)

  function Step(s: System, e: Event): System {
    match e
    case Attempt(now) =>
      var d := Reservation(s.doc, now);
      System(Some(d), if Admitted(d) then s.admitted + [d.checkedAt] else s.admitted, now)
    case Expiry(now) =>
      s.(doc := Purged(s.doc, now), clock := now)
  }

  function Run(s: System, events: seq<Event>): System {
    if events == [] then s else Step(Run(s, events[..|events| - 1]), events[|events| - 1])
  }

  function Start(clock: int): System {
    System(None, [], clock)
  }

  /** The clock does not go backwards. */
  predicate Ordered(clock: int, events: seq<Event>) {
    forall i :: 0 <= i < |events| ==> clock <= events[i].now && forall j :: 0 <= j < i ==> events[j].now <= events[i].now
  }

  /** The pruned list shows, from now on, exactly what the history would. */
  ghost predicate Refines(s: System) {
    var kept := if s.doc.Some? then s.doc.value.timestamps else [];
    && (s.doc.Some? ==> s.doc.value.checkedAt <= s.clock && WellFormed(s.doc.value))
    && (forall t :: t in s.admitted ==> t <= s.clock)
    && (forall t :: s.clock <= t ==> Active(kept, t, MINUTE_WINDOW) == Active(s.admitted, t, MINUTE_WINDOW))
    && WithinLimits(s.admitted)
  }

  lemma RunRefines(clock: int, events: seq<Event>)
    requires Ordered(clock, events)
    ensures Refines(Run(Start(clock), events))
    ensures events != [] ==> Run(Start(clock), events).clock == events[|events| - 1].now
    ensures events == [] ==> Run(Start(clock), events).clock == clock
  {
    if events != [] {
      RunRefines(clock, events[..|events| - 1]);
      StepRefines(Run(Start(clock), events[..|events| - 1]), events[|events| - 1]);
    }
  }

  lemma StepRefines(s: System, e: Event)
    requires Refines(s) && s.clock <= e.now
    ensures Refines(Step(s, e))
  {
    match e
    case Expiry(now) =>
      if s.doc.Some? && s.doc.value.expiresAt <= now {
        forall t | now <= t ensures Active(s.admitted, t, MINUTE_WINDOW) == [] {
          ActiveNone(s.doc.value.timestamps, t, MINUTE_WINDOW);
        }
      }
    case Attempt(now) =>
      var d := Reservation(s.doc, now);
      var kept := if s.doc.Some? then s.doc.value.timestamps else [];
      var active := Active(kept, now, MINUTE_WINDOW);
      DecisionMatchesHistory(s, now);
      forall t | now <= t
        ensures Active(d.timestamps, t, MINUTE_WINDOW) == Active(Step(s, e).admitted, t, MINUTE_WINDOW)
      {
        ActiveTwice(kept, now, MINUTE_WINDOW, t, MINUTE_WINDOW);
        ActiveAppend(active, now, t, MINUTE_WINDOW);
        ActiveAppend(s.admitted, now, t, MINUTE_WINDOW);
      }
      if Admitted(d) {
        assert Allowed(s.admitted, now);
        forall x: int
          ensures Within(s.admitted + [now], x, MINUTE_WINDOW) <= MINUTE_LIMIT
          ensures Within(s.admitted + [now], x, BURST_WINDOW) <= BURST_LIMIT
        {
          AdmissionKeepsWindow(s.admitted, now, MINUTE_LIMIT, MINUTE_WINDOW, x);
          AdmissionKeepsWindow(s.admitted, now, BURST_LIMIT, BURST_WINDOW, x);
        }
      }
  }

  // ----- Main results -----------------------------------------------------------

  /** After any run, an attempt is admitted exactly when the full history has
      room in both windows, and retry_at is the least time at which it has:
      every earlier attempt is refused, one at retry_at or later is admitted. */
  lemma ReserveIsExact(clock: int, events: seq<Event>, now: int)
    requires Ordered(clock, events + [Attempt(now)])
    ensures
      var s := Run(Start(clock), events);
      var d := Reservation(s.doc, now);
      && d.checkedAt == now
      && (Admitted(d) <==> Allowed(s.admitted, now))
      && (Allowed(s.admitted, now) <==> Recent(s.admitted, now, 60_000) < 60 && Recent(s.admitted, now, 10_000) < 30)
      && (forall t :: now <= t ==> (Allowed(s.admitted, t) <==> d.retryAt <= t))
      && now <= d.retryAt <= now + MINUTE_WINDOW
      && Step(s, Attempt(now)).admitted == if Allowed(s.admitted, now) then s.admitted + [now] else s.admitted
  {
    OrderedPrefix(clock, events, Attempt(now));
    RunRefines(clock, events);
    DecisionMatchesHistory(Run(Start(clock), events), now);
  }

  /** No window of 60 s ever holds more than 60 admissions, none of 10 s more than 30. */
  lemma WindowsNeverOverflow(clock: int, events: seq<Event>, x: int)
    requires Ordered(clock, events)
    ensures
      var h := Run(Start(clock), events).admitted;
      Within(h, x, 60_000) <= 60 && Within(h, x, 10_000) <= 30
  {
    RunRefines(clock, events);
  }

  /** A refused attempt and a TTL deletion leave every later decision as it was:
      deleting all of them from a run changes neither the history nor the answer
      to the next attempt. */
  lemma {:induction false} OnlyAdmissionsMatter(clock: int, events: seq<Event>, now: int)
    requires Ordered(clock, events + [Attempt(now)])
    ensures
      var s := Run(Start(clock), events);
      var only := Attempts(s.admitted);
      && Ordered(clock, only + [Attempt(now)])
      && Run(Start(clock), only).admitted == s.admitted
      && Reservation(Run(Start(clock), only).doc, now).retryAt == Reservation(s.doc, now).retryAt
  {
    OrderedPrefix(clock, events, Attempt(now));
    var s := Run(Start(clock), events);
    ReplayAdmissions(clock, events);
    RunRefines(clock, events);
    var only := Attempts(s.admitted);
    forall i | 0 <= i < |only| ensures clock <= only[i].now <= now && forall j :: 0 <= j < i ==> only[j].now <= only[i].now {
      assert s.admitted[i] in s.admitted;
      assert events != [] ==> events[|events| - 1] == (events + [Attempt(now)])[|events| - 1];
      assert (events + [Attempt(now)])[|events|].now == now;
    }
    assert Ordered(clock, only + [Attempt(now)]) by {
      assert (events + [Attempt(now)])[|events|].now == now;
    }
    ReserveIsExact(clock, events, now);
    ReserveIsExact(clock, only, now);
    var a := Reservation(s.doc, now).retryAt;
    var b := Reservation(Run(Start(clock), only).doc, now).retryAt;
    assert Allowed(s.admitted, a) && Allowed(s.admitted, b);
  }

  function Attempts(times: seq<int>): (events: seq<Event>)
    ensures |events| == |times| && forall i :: 0 <= i < |times| ==> events[i] == Attempt(times[i])
  {
    seq(|times|, i requires 0 <= i < |times| => Attempt(times[i]))
  }

  /** Replaying only the admitted times reproduces the history. */
  lemma {:induction false} ReplayAdmissions(clock: int, events: seq<Event>)
    requires Ordered(clock, events)
    ensures
      var h := Run(Start(clock), events).admitted;
      Ordered(clock, Attempts(h)) && Run(Start(clock), Attempts(h)).admitted == h
  {
    if events == [] {
      assert Attempts([]) == [];
    } else {
      var before := events[..|events| - 1];
      var last := events[|events| - 1];
      assert events == before + [last];
      OrderedPrefix(clock, before, last);
      ReplayAdmissions(clock, before);
      var h := Run(Start(clock), before).admitted;
      if Run(Start(clock), events).admitted != h {
        RunRefines(clock, before);
        ReserveIsExact(clock, before, last.now);
        ReplayOne(clock, h, last.now);
      }
    }
  }

  lemma ReplayOne(clock: int, h: seq<int>, now: int)
    requires Ordered(clock, Attempts(h)) && Run(Start(clock), Attempts(h)).admitted == h
    requires clock <= now && (forall t :: t in h ==> t <= now) && Allowed(h, now)
    ensures Ordered(clock, Attempts(h + [now])) && Run(Start(clock), Attempts(h + [now])).admitted == h + [now]
  {
    hide Run;
    hide Reservation;
    hide Recent;
    AttemptsAppend(clock, h, now);
    hide Attempts;
    hide Ordered;
    ReserveIsExact(clock, Attempts(h), now);
    RunAppend(Start(clock), Attempts(h), Attempt(now));
  }

  lemma AttemptsAppend(clock: int, h: seq<int>, now: int)
    requires Ordered(clock, Attempts(h)) && clock <= now && forall t :: t in h ==> t <= now
    ensures Attempts(h + [now]) == Attempts(h) + [Attempt(now)]
    ensures Ordered(clock, Attempts(h) + [Attempt(now)])
  {
    assert Attempts(h + [now]) == Attempts(h) + [Attempt(now)];
    forall i | 0 <= i < |h| ensures Attempts(h)[i].now <= now { assert h[i] in h; }
    OrderedAppend(clock, Attempts(h), Attempt(now));
  }

  lemma OrderedAppend(clock: int, events: seq<Event>, e: Event)
    requires Ordered(clock, events) && clock <= e.now
    requires forall i :: 0 <= i < |events| ==> events[i].now <= e.now
    ensures Ordered(clock, events + [e])
  {
  }

  lemma RunAppend(s: System, events: seq<Event>, e: Event)
    ensures Run(s, events + [e]) == Step(Run(s, events), e)
  {
    assert (events + [e])[..|events|] == events;
  }

  /** The Retry-After header: whole seconds, rounded up from nanoseconds. */
  function RetryAfterSeconds(waitNanoseconds: int): int {
    (waitNanoseconds + 1_000_000_000 - 1) / 1_000_000_000
  }

  /** The least number of whole seconds that is no shorter than the wait. */
  lemma RetryAfterIsLeast(wait: int, seconds: int)
    requires wait >= 0
    ensures RetryAfterSeconds(wait) <= seconds <==> wait <= seconds * 1_000_000_000
  {
  }

  /** Waiting the announced whole seconds always suffices and overshoots the
      exact wait by less than one second. */
  lemma RetryAfterSuffices(clock: int, events: seq<Event>, now: int, later: int)
    requires Ordered(clock, events + [Attempt(now)])
    requires !Admitted(Reservation(Run(Start(clock), events).doc, now))
    ensures
      var s := Run(Start(clock), events);
      var d := Reservation(s.doc, now);
      var wait := d.retryAt - d.checkedAt;
      var seconds := RetryAfterSeconds(wait * 1_000_000);
      && 0 < wait <= MINUTE_WINDOW
      && 1 <= seconds <= 60
      && wait <= seconds * 1_000 < wait + 1_000
      && (now + seconds * 1_000 <= later ==> Allowed(s.admitted, later))
  {
    ReserveIsExact(clock, events, now);
  }

  /** The TTL index does its work: a minute after the last admission of a run, or later,
      the user's document can be deleted, and not before. */
  lemma IdleDocumentsExpire(clock: int, events: seq<Event>, now: int)
    requires Ordered(clock, events + [Expiry(now)])
    ensures
      var s := Run(Start(clock), events);
      Step(s, Expiry(now)).doc == None <==> s.doc == None || forall t :: t in s.admitted ==> t + 60_000 <= now
    ensures Step(Run(Start(clock), events), Expiry(now)).doc.Some? ==>
      Step(Run(Start(clock), events), Expiry(now)).doc == Run(Start(clock), events).doc
  {
    OrderedPrefix(clock, events, Expiry(now));
    RunRefines(clock, events);
    RunKeepsLast(clock, events);
    var s := Run(Start(clock), events);
    hide Run;
    if s.doc.Some? {
      var kept := s.doc.value.timestamps;
      assert s.doc.value.expiresAt == Greatest(kept) + MINUTE_WINDOW;
    }
  }

  /** A stored document still knows the last admission. */
  ghost predicate KnowsLast(s: System) {
    s.doc.Some? ==>
      && s.doc.value.timestamps != [] && Greatest(s.doc.value.timestamps) in s.admitted
      && forall t :: t in s.admitted ==> t <= Greatest(s.doc.value.timestamps)
  }

  lemma StepKeepsLast(s: System, e: Event)
    requires Refines(s) && KnowsLast(s) && s.clock <= e.now
    ensures KnowsLast(Step(s, e))
  {
    if e.Attempt? {
      var now, d := e.now, Reservation(s.doc, e.now);
      var kept := if s.doc.Some? then s.doc.value.timestamps else [];
      ActiveMembers(kept, now, MINUTE_WINDOW);
      ActiveMembers(s.admitted, now, MINUTE_WINDOW);
      DecisionMatchesHistory(s, now);
      var active := Active(kept, now, MINUTE_WINDOW);
      if Admitted(d) {
        assert d.timestamps == active + [now] && d.timestamps[|active|] == now;
        forall t | t in d.timestamps ensures t <= now {
          assert t in active ==> t in kept;
        }
        assert now in d.timestamps && Greatest(d.timestamps) in d.timestamps;
      } else {
        assert d.timestamps == active && active[0] in kept;
        assert Greatest(kept) in active;
      }
    }
  }

  lemma {:induction false} RunKeepsLast(clock: int, events: seq<Event>)
    requires Ordered(clock, events)
    ensures KnowsLast(Run(Start(clock), events))
  {
    if events != [] {
      var before := events[..|events| - 1];
      RunKeepsLast(clock, before);
      RunRefines(clock, before);
      StepKeepsLast(Run(Start(clock), before), events[|events| - 1]);
    }
  }

  // ----- Proof steps --------------------------------------------------------------

  lemma OrderedPrefix(clock: int, events: seq<Event>, e: Event)
    requires Ordered(clock, events + [e])
    ensures Ordered(clock, events) && clock <= e.now
    ensures forall i :: 0 <= i < |events| ==> events[i].now <= e.now
    ensures Run(Start(clock), events).clock <= e.now
  {
    var all := events + [e];
    assert all[|events|] == e;
    assert forall i :: 0 <= i < |events| ==> events[i] == all[i];
    RunRefines(clock, events);
  }

  lemma DecisionMatchesHistory(s: System, now: int)
    requires Refines(s) && s.clock <= now
    ensures
      var d := Reservation(s.doc, now);
      && d.checkedAt == now
      && (forall t :: now <= t ==> (Allowed(s.admitted, t) <==> d.retryAt <= t))
      && now <= d.retryAt <= now + MINUTE_WINDOW
  {
    var kept := if s.doc.Some? then s.doc.value.timestamps else [];
    var active := Active(kept, now, MINUTE_WINDOW);
    assert active == Active(s.admitted, now, MINUTE_WINDOW);
    ActiveTwice(s.admitted, now, MINUTE_WINDOW, now, BURST_WINDOW);
    WindowIsExact(s.admitted, MINUTE_LIMIT, MINUTE_WINDOW, now);
    WindowIsExact(s.admitted, BURST_LIMIT, BURST_WINDOW, now);
  }

  /** One window: from now on it has room exactly from WindowRetryAt. */
  lemma WindowIsExact(h: seq<int>, limit: nat, window: nat, now: int)
    requires limit > 0 && window > 0
    requires forall t :: t in h ==> t <= now
    requires Within(h, now, window) <= limit
    ensures
      var r := WindowRetryAt(Active(h, now, window), limit, window, now);
      && now <= r <= now + window
      && forall t :: now <= t ==> (Recent(h, t, window) < limit <==> r <= t)
  {
    var a := Active(h, now, window);
    ActiveSize(h, now, window);
    RecentIsWithin(h, now, window);
    ActiveMembers(h, now, window);
    if |a| >= limit {
      var oldest := Least(a);
      forall t | now <= t ensures Recent(h, t, window) < limit <==> oldest + window <= t {
        if oldest + window <= t {
          CountDrops(h, now, t, window, oldest);
        } else {
          CountStays(h, now, t, window);
        }
      }
    } else {
      forall t | now <= t ensures Recent(h, t, window) < limit {
        CountMonotone(h, now, t, window);
      }
    }
  }

  lemma AdmissionKeepsWindow(h: seq<int>, now: int, limit: nat, window: nat, x: int)
    requires forall t :: t in h ==> t <= now
    requires Recent(h, now, window) < limit
    requires Within(h, x, window) <= limit
    ensures Within(h + [now], x, window) <= limit
  {
    WithinAppend(h, now, x, window);
    if x - window < now <= x {
      WithinAtMostRecent(h, x, window);
      CountMonotone(h, now, x, window);
    }
  }

  lemma ActiveSize(h: seq<int>, t: int, window: nat)
    ensures |Active(h, t, window)| == Recent(h, t, window) <= |h|
  {
  }

  lemma ActiveMembers(h: seq<int>, t: int, window: nat)
    ensures forall x :: x in Active(h, t, window) <==> x in h && x > t - window
  {
  }

  lemma {:induction false} ActiveNone(h: seq<int>, t: int, window: nat)
    requires forall x :: x in h ==> x <= t - window
    ensures Active(h, t, window) == []
  {
    if h != [] {
      assert h[0] in h && forall x :: x in h[1..] ==> x in h;
      ActiveNone(h[1..], t, window);
    }
  }

  lemma ActiveAppend(h: seq<int>, x: int, t: int, window: nat)
    ensures Active(h + [x], t, window) == Active(h, t, window) + if x > t - window then [x] else []
  {
    if h == [] {
      assert [x][1..] == [];
    } else {
      assert (h + [x])[1..] == h[1..] + [x];
    }
  }

  lemma {:induction false} ActiveTwice(h: seq<int>, t: int, window: nat, t': int, window': nat)
    requires t - window <= t' - window'
    ensures Active(Active(h, t, window), t', window') == Active(h, t', window')
  {
    if h != [] {
      ActiveTwice(h[1..], t, window, t', window');
      if h[0] > t - window {
        assert Active(h, t, window)[1..] == Active(h[1..], t, window);
      }
    }
  }

  lemma CountMonotone(h: seq<int>, t: int, t': int, window: nat)
    requires t <= t'
    ensures Recent(h, t', window) <= Recent(h, t, window)
  {
  }

  lemma {:induction false} CountDrops(h: seq<int>, t: int, t': int, window: nat, x: int)
    requires t - window < x <= t' - window && x in h
    ensures Recent(h, t', window) < Recent(h, t, window)
  {
    CountMonotone(h[1..], t, t', window);
    if h[0] != x {
      CountDrops(h[1..], t, t', window, x);
    }
  }

  lemma {:induction false} CountStays(h: seq<int>, t: int, t': int, window: nat)
    requires t <= t' && forall x :: x in h && x > t - window ==> x > t' - window
    ensures Recent(h, t', window) == Recent(h, t, window)
  {
    if h != [] {
      assert h[0] in h && forall x :: x in h[1..] ==> x in h;
      CountStays(h[1..], t, t', window);
    }
  }

  lemma {:induction false} RecentIsWithin(h: seq<int>, t: int, window: nat)
    requires forall x :: x in h ==> x <= t
    ensures Recent(h, t, window) == Within(h, t, window)
  {
    if h != [] {
      assert h[0] in h && forall x :: x in h[1..] ==> x in h;
      RecentIsWithin(h[1..], t, window);
    }
  }

  lemma WithinAtMostRecent(h: seq<int>, t: int, window: nat)
    ensures Within(h, t, window) <= Recent(h, t, window)
  {
  }

  lemma WithinAppend(h: seq<int>, x: int, t: int, window: nat)
    ensures Within(h + [x], t, window) == Within(h, t, window) + if t - window < x <= t then 1 else 0
  {
    if h == [] {
      assert [x][1..] == [];
    } else {
      assert (h + [x])[1..] == h[1..] + [x];
    }
  }
}
