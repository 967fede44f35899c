// The gateway's limit on connection attempts, judged by the reservations that a
// run has really admitted.

module AttemptLimit {
  import opened Common
  import opened Gateway
  import opened Instants
  import opened Realtime
  import opened Subscriber

  // ----- Counting admissions ----------------------------------------------------------

  /** How many of the times lie in [from, to). */
  function CountIn(h: seq<int>, from: int, to: int): nat {
    if h == [] then 0 else CountIn(h[..|h| - 1], from, to) + if from <= h[|h| - 1] < to then 1 else 0
  }

  function MinuteFrom(h: seq<int>, x: int): nat {
    CountIn(h, x, x + MINUTE)
  }

  /** The reservation is one that makes the connection exist. */
  predicate Admits(k: Config, w: World, e: Event) {
    e.Reserve? && e.c !in w.hub.conns && e.c in Step(k, w, e).hub.conns
  }

  /** When a run has admitted connections of a user. */
  function Admissions(k: Config, events: seq<Event>, user: string): seq<int> {
    if events == [] then []
    else
      var before, e := events[..|events| - 1], events[|events| - 1];
      Admissions(k, before, user) + if Admits(k, Run(k, Start(), before), e) && e.user == user then [e.now] else []
  }

  predicate Timed(e: Event) {
    e.Reserve? || e.Prune?
  }

  /** The clock readings are later than the first minute of year one and do not go back. */
  predicate Ordered(events: seq<Event>) {
    forall i :: 0 <= i < |events| && Timed(events[i]) ==>
      MINUTE <= events[i].now && forall j :: 0 <= j < i && Timed(events[j]) ==> events[j].now <= events[i].now
  }

  /** The latest clock reading. */
  function Latest(events: seq<Event>): int {
    if events == [] then MINUTE
    else if Timed(events[|events| - 1]) then events[|events| - 1].now else Latest(events[..|events| - 1])
  }

  // ----- What a window knows of the history -----------------------------------------------

  /** A user's attempts since the start `a` of the last window: the stored window, if it
      was not dropped, is that one and counts them; at most `limit` of them, and at most
      as many in the minute before. */
  ghost predicate WindowHolds(h: seq<int>, window: Option<Window>, clock: int, limit: nat, a: int) {
    && (forall t :: t in h ==> t <= clock && t < a + MINUTE)
    && (match window
        case Some(w) => w.at == a && a in h && w.count == CountIn(h, a, a + MINUTE)
        case None => h == [] || a + MINUTE <= clock)
    && CountIn(h, a, a + MINUTE) <= limit && CountIn(h, a - MINUTE, a) <= limit
    && (forall x: int :: MinuteFrom(h, x) <= 2 * limit)
  }

  ghost predicate HistoryHolds(h: seq<int>, window: Option<Window>, clock: int, limit: nat) {
    exists a: int :: WindowHolds(h, window, clock, limit, a)
  }

  function WindowOf(attempts: map<string, Window>, user: string): Option<Window> {
    if user in attempts then Some(attempts[user]) else None
  }

  lemma CountSplits(h: seq<int>, from: int, mid: int, to: int)
    requires from <= mid <= to
    ensures CountIn(h, from, to) == CountIn(h, from, mid) + CountIn(h, mid, to)
  {
  }

  lemma CountGrows(h: seq<int>, from: int, to: int, from': int, to': int)
    requires from' <= from && to <= to'
    ensures CountIn(h, from, to) <= CountIn(h, from', to')
  {
  }

  lemma CountAppend(h: seq<int>, t: int, from: int, to: int)
    ensures CountIn(h + [t], from, to) == CountIn(h, from, to) + if from <= t < to then 1 else 0
  {
    assert (h + [t])[..|h|] == h;
  }

  lemma {:induction false} CountNone(h: seq<int>, from: int, to: int)
    requires forall t :: t in h ==> !(from <= t < to)
    ensures CountIn(h, from, to) == 0
  {
    if h != [] {
      var rest := h[..|h| - 1];
      assert h[|h| - 1] in h;
      forall t | t in rest ensures !(from <= t < to) {
        var i :| 0 <= i < |rest| && rest[i] == t;
        assert h[i] in h;
      }
      CountNone(h[..|h| - 1], from, to);
    }
  }

  lemma {:induction false} CountSome(h: seq<int>, t: int, from: int, to: int)
    requires t in h && from <= t < to
    ensures CountIn(h, from, to) >= 1
  {
    assert h == h[..|h| - 1] + [h[|h| - 1]];
    if h[|h| - 1] != t {
      CountSome(h[..|h| - 1], t, from, to);
    }
  }

  /** A minute that begins no earlier than the last window. */
  lemma LateMinute(h: seq<int>, a: int, x: int)
    requires (forall t :: t in h ==> t < a + MINUTE) && a <= x
    ensures CountIn(h, x, x + MINUTE) <= CountIn(h, a, a + MINUTE)
  {
    if x <= a + MINUTE {
      CountSplits(h, x, a + MINUTE, x + MINUTE);
      CountNone(h, a + MINUTE, x + MINUTE);
      CountGrows(h, x, a + MINUTE, a, a + MINUTE);
    } else {
      CountNone(h, x, x + MINUTE);
    }
  }

  /** One more admission in the current window. */
  lemma ContinuingHolds(h: seq<int>, w: Window, clock: int, limit: nat, now: int)
    requires WindowHolds(h, Some(w), clock, limit, w.at) && clock <= now < w.at + MINUTE && w.count < limit
    ensures WindowHolds(h + [now], Some(Window(w.at, w.count + 1)), now, limit, w.at)
  {
    var a, h' := w.at, h + [now];
    CountAppend(h, now, a, a + MINUTE);
    CountAppend(h, now, a - MINUTE, a);
    forall x: int ensures MinuteFrom(h', x) <= 2 * limit {
      assert MinuteFrom(h, x) <= 2 * limit;
      CountAppend(h, now, x, x + MINUTE);
      if x <= now < x + MINUTE {
        if x <= a {
          CountSplits(h, x, a, x + MINUTE);
          CountGrows(h, x, a, a - MINUTE, a);
          CountGrows(h, a, x + MINUTE, a, a + MINUTE);
        } else {
          LateMinute(h, a, x);
        }
      }
    }
  }

  /** The first admission of a new window. */
  lemma OpeningHolds(h: seq<int>, window: Option<Window>, clock: int, limit: nat, a: int, now: int)
    requires WindowHolds(h, window, clock, limit, a) && clock <= now && limit >= 1
    requires h == [] || a + MINUTE <= now
    ensures WindowHolds(h + [now], Some(Window(now, 1)), now, limit, now)
  {
    CountNone(h, now, now + MINUTE);
    CountAppend(h, now, now, now + MINUTE);
    CountAppend(h, now, now - MINUTE, now);
    if h != [] {
      LateMinute(h, a, now - MINUTE);
    }
    forall x: int ensures MinuteFrom(h + [now], x) <= 2 * limit {
      assert MinuteFrom(h, x) <= 2 * limit;
      CountAppend(h, now, x, x + MINUTE);
      if h != [] && x <= now < x + MINUTE {
        LateMinute(h, a, x);
      }
    }
  }

  // ----- Every step of a run ---------------------------------------------------------------

  /** What a step does to one user's window. */
  lemma StepOnWindow(k: Config, w: World, e: Event, user: string)
    ensures
      var window, window' := WindowOf(w.hub.attempts, user), WindowOf(Step(k, w, e).hub.attempts, user);
      if Admits(k, w, e) && e.user == user then window' == Some(WindowAt(w.hub, user, e.now).(count := WindowAt(w.hub, user, e.now).count + 1))
      else if e.Prune? then window' == (if window.Some? && e.now - window.value.at >= MINUTE then None else window)
      else window' == window
  {
    if e.Reserve? {
      hide Refused;
      hide Joins;
      hide WindowAt;
    } else {
      OthersKeepAttempts(k, w, e);
      hide Step;
      assert !Admits(k, w, e);
      if e.Prune? {
        PruneDropsOld(w.hub, user, e.now);
      }
      hide PruneIn;
    }
  }

  lemma OthersKeepAttempts(k: Config, w: World, e: Event)
    requires !e.Reserve?
    ensures Step(k, w, e).hub.attempts == if e.Prune? then PruneIn(w.hub, e.now).attempts else w.hub.attempts
  {
    hide NatsNext;
    hide CanClear;
    hide Closed;
    hide WorkStep;
    if e.Work? && e.st in w.preps && e.st in w.hub.states {
      WorkKeepsAttempts(w, e.st, e.ok);
    }
  }

  lemma WorkKeepsAttempts(w: World, st: nat, ok: bool)
    requires st in w.preps && st in w.hub.states
    ensures WorkStep(w, st, ok).hub.attempts == w.hub.attempts
  {
    hide SubscribeNext;
    hide Wanted;
    hide Closed;
    hide Healthy;
    FinishKeepsAttempts(w.hub, st, Wanted(w.hub, st, Healthy(w.nats)));
    FinishKeepsAttempts(w.hub, st, false);
    hide FinishIn;
  }

  lemma FinishKeepsAttempts(h: Hub, st: nat, keep: bool)
    requires st in h.states
    ensures FinishIn(h, st, keep).attempts == h.attempts
  {
  }

  lemma PruneDropsOld(h: Hub, user: string, now: int)
    ensures WindowOf(PruneIn(h, now).attempts, user)
            == if user in h.attempts && now - h.attempts[user].at >= MINUTE then None else WindowOf(h.attempts, user)
  {
  }

  lemma AdmittedIsNotRefused(k: Config, w: World, e: Event)
    requires e.Reserve?
    ensures Admits(k, w, e) ==> e.st !in w.hub.states && Refused(k, w.hub, e.user, e.now, Healthy(w.nats)) == None
    ensures e.c !in w.hub.conns && e.st !in w.hub.states && Refused(k, w.hub, e.user, e.now, Healthy(w.nats)) == None ==> Admits(k, w, e)
    ensures !Admits(k, w, e) ==> Step(k, w, e) == w
  {
    hide Refused;
    hide Joins;
    hide WindowAt;
  }

  lemma AdmissionHolds(k: Config, w: World, e: Event, h: seq<int>, clock: int)
    requires e.Reserve? && Admits(k, w, e) && clock <= e.now && MINUTE <= e.now
    requires HistoryHolds(h, WindowOf(w.hub.attempts, e.user), clock, k.maxPerUser * 6)
    ensures HistoryHolds(h + [e.now], WindowOf(Step(k, w, e).hub.attempts, e.user), e.now, k.maxPerUser * 6)
  {
    AdmittedIsNotRefused(k, w, e);
    StepOnWindow(k, w, e, e.user);
    var window, limit, now := WindowOf(w.hub.attempts, e.user), k.maxPerUser * 6, e.now;
    assert WindowAt(w.hub, e.user, now).count < limit;
    hide Step;
    hide Admits;
    var a: int :| WindowHolds(h, window, clock, limit, a);
    if window.Some? && now - a < MINUTE {
      ContinuingHolds(h, window.value, clock, limit, now);
      assert WindowHolds(h + [now], Some(Window(a, window.value.count + 1)), now, limit, a);
    } else {
      OpeningHolds(h, window, clock, limit, a, now);
      assert WindowHolds(h + [now], Some(Window(now, 1)), now, limit, now);
    }
  }

  lemma LaterHolds(h: seq<int>, window: Option<Window>, clock: int, limit: nat, later: int, dropped: bool)
    requires HistoryHolds(h, window, clock, limit) && clock <= later
    requires dropped ==> window.Some? && later - window.value.at >= MINUTE
    ensures HistoryHolds(h, if dropped then None else window, later, limit)
  {
    var a: int :| WindowHolds(h, window, clock, limit, a);
    assert WindowHolds(h, if dropped then None else window, later, limit, a);
  }

  lemma OrderedPrefix(events: seq<Event>)
    requires Ordered(events) && events != []
    ensures
      var before, e := events[..|events| - 1], events[|events| - 1];
      Ordered(before) && (Timed(e) ==> Latest(before) <= e.now && MINUTE <= e.now)
  {
    var before, e := events[..|events| - 1], events[|events| - 1];
    assert forall i :: 0 <= i < |before| ==> before[i] == events[i];
    LatestIsSome(before);
  }

  lemma {:induction false} LatestIsSome(events: seq<Event>)
    ensures Latest(events) == MINUTE || exists i :: 0 <= i < |events| && Timed(events[i]) && events[i].now == Latest(events)
  {
    if events != [] && !Timed(events[|events| - 1]) {
      LatestIsSome(events[..|events| - 1]);
    }
  }

  lemma {:induction false} RunHolds(k: Config, events: seq<Event>, user: string)
    requires Ordered(events)
    ensures HistoryHolds(Admissions(k, events, user), WindowOf(Run(k, Start(), events).hub.attempts, user), Latest(events), k.maxPerUser * 6)
  {
    if events == [] {
      assert WindowHolds([], None, MINUTE, k.maxPerUser * 6, 0);
    } else {
      var before, e := events[..|events| - 1], events[|events| - 1];
      OrderedPrefix(events);
      RunHolds(k, before, user);
      var w, h := Run(k, Start(), before), Admissions(k, before, user);
      hide Step;
      hide HistoryHolds;
      hide Ordered;
      hide Admits;
      if Admits(k, w, e) && e.user == user {
        AdmissionHolds(k, w, e, h, Latest(before));
      } else {
        StepOnWindow(k, w, e, user);
        var window := WindowOf(w.hub.attempts, user);
        assert Admissions(k, events, user) == h + [] == h;
        LaterHolds(h, window, Latest(before), k.maxPerUser * 6, Latest(events),
                   e.Prune? && window.Some? && e.now - window.value.at >= MINUTE);
      }
    }
  }

  // ----- Main results ------------------------------------------------------------------------

  /** A stored window counts the admissions since its first one, of which there is no
      other record: there are at most six per connection allowed to the user, and any
      minute at all, however it lies to the windows, holds at most twice as many. */
  lemma AttemptsAreLimited(k: Config, events: seq<Event>, user: string, x: int)
    requires Ordered(events)
    ensures
      var h, attempts := Admissions(k, events, user), Run(k, Start(), events).hub.attempts;
      && (user in attempts ==>
            && attempts[user].at in h && attempts[user].count == CountIn(h, attempts[user].at, Latest(events) + 1)
            && MinuteFrom(h, attempts[user].at) <= 6 * k.maxPerUser)
      && MinuteFrom(h, x) <= 12 * k.maxPerUser
  {
    hide Run;
    hide Admissions;
    hide CountIn;
    RunHolds(k, events, user);
    var h, window := Admissions(k, events, user), WindowOf(Run(k, Start(), events).hub.attempts, user);
    var a: int :| WindowHolds(h, window, Latest(events), k.maxPerUser * 6, a);
    assert MinuteFrom(h, x) <= 2 * (k.maxPerUser * 6);
    if window.Some? {
      WindowCountsAll(h, a, Latest(events));
    }
  }

  lemma WindowCountsAll(h: seq<int>, a: int, clock: int)
    requires forall t :: t in h ==> t <= clock && t < a + MINUTE
    ensures CountIn(h, a, a + MINUTE) == CountIn(h, a, clock + 1)
  {
    if a + MINUTE <= clock + 1 {
      CountSplits(h, a, a + MINUTE, clock + 1);
      CountNone(h, a + MINUTE, clock + 1);
    } else if a <= clock + 1 {
      CountSplits(h, a, clock + 1, a + MINUTE);
      CountNone(h, clock + 1, a + MINUTE);
    } else {
      CountNone(h, a, a + MINUTE);
      CountNone(h, a, clock + 1);
    }
  }

  /** Exactly which reservations are admitted, judged by what really happened: on a
      healthy gateway that is not draining, below both connection limits, if fewer than
      six attempts per allowed connection were admitted since the user's window began
      or, when a new window has to be opened, there is room for one. */
  lemma ReservationIsExact(k: Config, events: seq<Event>, user: string, c: nat, st: nat, now: int)
    requires Ordered(events + [Reserve(user, c, st, now)])
    requires var h := Run(k, Start(), events).hub; c !in h.conns && st !in h.states
    ensures
      var w, h := Run(k, Start(), events), Admissions(k, events, user);
      var w' := Step(k, w, Reserve(user, c, st, now));
      && (c in w'.hub.conns <==>
            && w.nats.healthy && w.nats.connected && !w.hub.draining
            && |w.hub.clients| < k.maxConnections && |LiveOf(w.hub.conns, w.hub.clients, user)| < k.maxPerUser
            && (if user in w.hub.attempts && now < w.hub.attempts[user].at + MINUTE
                then CountIn(h, w.hub.attempts[user].at, now + 1) < 6 * k.maxPerUser
                else |w.hub.attempts| < 4 * k.maxConnections))
      && (c !in w'.hub.conns ==> w' == w)
  {
    var e := Reserve(user, c, st, now);
    assert (events + [e])[..|events|] == events && (events + [e])[|events|] == e;
    OrderedPrefix(events + [e]);
    RunHolds(k, events, user);
    StartInv(k);
    RunKeepsInv(k, Start(), events);
    var w, h := Run(k, Start(), events), Admissions(k, events, user);
    AdmittedIsNotRefused(k, w, e);
    hide Run;
    hide Step;
    DecisionIsExact(k, w, user, now, h, Latest(events));
  }

  lemma DecisionIsExact(k: Config, w: World, user: string, now: int, h: seq<int>, clock: int)
    requires Sound(k, w.hub) && HistoryHolds(h, WindowOf(w.hub.attempts, user), clock, k.maxPerUser * 6)
    requires clock <= now && MINUTE <= now
    ensures
      Refused(k, w.hub, user, now, Healthy(w.nats)) == None <==>
      (&& w.nats.healthy && w.nats.connected && !w.hub.draining
       && |w.hub.clients| < k.maxConnections && |LiveOf(w.hub.conns, w.hub.clients, user)| < k.maxPerUser
       && (if user in w.hub.attempts && now < w.hub.attempts[user].at + MINUTE
           then CountIn(h, w.hub.attempts[user].at, now + 1) < 6 * k.maxPerUser
           else |w.hub.attempts| < 4 * k.maxConnections))
  {
    var window := WindowOf(w.hub.attempts, user);
    var a: int :| WindowHolds(h, window, clock, k.maxPerUser * 6, a);
    if window.Some? {
      WindowCountsAll(h, a, now);
      CountSome(h, a, a, now + 1);
    }
    assert CountedFor(w.hub.conns, w.hub.clients, w.hub.perUser, user);
    assert |LiveOf(w.hub.conns, w.hub.clients, user)| == CountOf(w.hub, user);
    hide Sound;
    hide LiveOf;
  }
}
