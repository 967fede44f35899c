// The realtime subscriber: a connection to NATS whose every disturbance starts a
// new epoch, and subscriptions that are only valid within one epoch.

module Subscriber {
  import opened Common
  import D = Delivery

  /** A subscription: the epoch it was made in, and how many gaps there had been when
      its flush confirmed it. */
  datatype Sub = Sub(epoch: nat, breaks: nat)

  datatype Monitor = Resting | Loaded(epoch: nat) | Flushed(epoch: nat)

  /** The subscriber. Subscriptions are named by the state they were made for.
      `breaks` counts the gaps: disconnects, and messages dropped for a slow consumer.
      `pendingFails` counts library callbacks under way for a gap or a reconnect,
      `flushedIn` remembers the epochs in which a flush of the monitor succeeded. */
  datatype Nats = Nats(connected: bool, healthy: bool, epoch: nat, listeners: set<nat>, open: map<nat, Sub>,
                       monitor: Monitor, flushedIn: set<nat>, breaks: nat, pendingFails: nat)

  /** Where the goroutine that prepares a state stands in Subscribe, and after it. */
  datatype Prep =
    | Checking
    | ReadingEpoch
    | Registering(epoch: nat)
    | Subscribing(epoch: nat)
    | Flushing(epoch: nat)
    | Confirming(epoch: nat)
    | Comparing(epoch: nat)
    | Abandoning                                         // Subscribe closes what it made
    | Obtained                                           // Subscribe succeeded
    | NotObtained                                        // Subscribe failed
    | Closing                                            // an unwanted subscription
    | Leaving                                            // about to lower the wait count
    | Ended

  predicate Healthy(n: Nats) {
    n.healthy && n.connected
  }

  function Closed(n: Nats, st: nat): Nats {
    n.(listeners := n.listeners - {st}, open := n.open - {st})
  }

  predicate InSubscribe(p: Prep) {
    !p.Obtained? && !p.NotObtained? && !p.Closing? && !p.Leaving? && !p.Ended?
  }

  /** The next step of a Subscribe call. */
  function SubscribeNext(n: Nats, p: Prep, st: nat, ok: bool): (Nats, Prep)
    requires InSubscribe(p)
  {
    match p
    case Checking => (n, if ok && Healthy(n) then ReadingEpoch else NotObtained)
    case ReadingEpoch => (n, Registering(n.epoch))
    case Registering(e) => (n.(listeners := n.listeners + {st}), Subscribing(e))
    case Subscribing(e) => if ok then (n.(open := n.open[st := Sub(e, n.breaks)]), Flushing(e)) else (n, Abandoning)
    case Flushing(e) => if ok && n.connected then (n.(open := n.open[st := Sub(e, n.breaks)]), Confirming(e)) else (n, Abandoning)
    case Confirming(e) => (n, if Healthy(n) then Comparing(e) else Abandoning)
    case Comparing(e) => (n, if e == n.epoch then Obtained else Abandoning)
    case Abandoning => (Closed(n, st), NotObtained)
  }

  /** fail: a library callback for a gap, a reconnect, or anything else. */
  function Failed(n: Nats): Nats {
    n.(epoch := n.epoch + 1, healthy := false, pendingFails := if n.pendingFails == 0 then 0 else n.pendingFails - 1)
  }

  /** The three steps of a round of the monitor. */
  function LoadNext(n: Nats): Nats {
    if n.monitor.Resting? && n.connected && !n.healthy then n.(monitor := Loaded(n.epoch)) else n
  }

  function FlushNext(n: Nats, ok: bool): Nats {
    if !n.monitor.Loaded? then n
    else if ok && n.connected then n.(monitor := Flushed(n.monitor.epoch), flushedIn := n.flushedIn + {n.epoch})
    else n.(monitor := Resting)
  }

  function CheckNext(n: Nats): Nats {
    if n.monitor.Flushed?
    then n.(monitor := Resting, healthy := n.healthy || (n.monitor.epoch == n.epoch && n.connected))
    else n
  }

  // ----- The subscriber's side ------------------------------------------------------------

  /** healthy only within an epoch that saw a flush succeed. */
  ghost predicate HealthHolds(n: Nats) {
    && (n.healthy ==> n.epoch in n.flushedIn)
    && (n.monitor.Loaded? ==> n.monitor.epoch <= n.epoch)
    && (n.monitor.Flushed? ==> n.monitor.epoch <= n.epoch && (n.monitor.epoch == n.epoch ==> n.epoch in n.flushedIn))
  }

  /** A break after a subscription was confirmed has bumped the epoch since, or its
      library callback is still under way. */
  ghost predicate BreaksHold(n: Nats) {
    forall st :: st in n.open ==>
      && n.open[st].epoch <= n.epoch && n.open[st].breaks <= n.breaks
      && (n.open[st].breaks < n.breaks ==> n.pendingFails > 0 || n.open[st].epoch < n.epoch)
  }

  lemma ClosedHolds(n: Nats, st: nat)
    requires HealthHolds(n) && BreaksHold(n)
    ensures HealthHolds(Closed(n, st)) && BreaksHold(Closed(n, st))
  {
  }

  predicate EpochOf(p: Prep, n: Nats) {
    match p
    case Registering(e) => e <= n.epoch
    case Subscribing(e) => e <= n.epoch
    case Flushing(e) => e <= n.epoch
    case Confirming(e) => e <= n.epoch
    case Comparing(e) => e <= n.epoch
    case _ => true
  }

  lemma SubscribeNextHolds(n: Nats, p: Prep, st: nat, ok: bool)
    requires HealthHolds(n) && BreaksHold(n) && InSubscribe(p) && EpochOf(p, n)
    ensures var (n', p') := SubscribeNext(n, p, st, ok); HealthHolds(n') && BreaksHold(n') && EpochOf(p', n')
  {
  }

  lemma StepsHold(n: Nats, ok: bool)
    requires HealthHolds(n) && BreaksHold(n)
    ensures HealthHolds(Failed(n)) && BreaksHold(Failed(n))
    ensures HealthHolds(LoadNext(n)) && BreaksHold(LoadNext(n))
    ensures HealthHolds(FlushNext(n, ok)) && BreaksHold(FlushNext(n, ok))
    ensures HealthHolds(CheckNext(n)) && BreaksHold(CheckNext(n))
  {
  }

  /** What a Subscribe call turns into. */
  lemma StaysInSubscribe(n: Nats, p: Prep, st: nat, ok: bool)
    requires InSubscribe(p)
    ensures var next := SubscribeNext(n, p, st, ok).1; InSubscribe(next) || next.Obtained? || next.NotObtained?
  {
  }

  // ----- The subscriber's own code ---------------------------------------------------------

  /** The steps of one Subscribe call: what each found, at which stage, and whether its
      library call succeeded. They lead from `first` to `end`. */
  predicate Leads(trace: seq<(Nats, Prep, bool)>, st: nat, first: Prep, end: Prep)
    decreases |trace|
  {
    if trace == [] then first == end
    else
      var (n, p, ok) := trace[0];
      p == first && InSubscribe(p) && Leads(trace[1..], st, SubscribeNext(n, p, st, ok).1, end)
  }

  lemma {:induction false} LeadsOn(trace: seq<(Nats, Prep, bool)>, st: nat, first: Prep, end: Prep, n: Nats, ok: bool)
    requires Leads(trace, st, first, end) && InSubscribe(end)
    ensures Leads(trace + [(n, end, ok)], st, first, SubscribeNext(n, end, st, ok).1)
    decreases |trace|
  {
    if trace == [] {
      assert ([(n, end, ok)])[1..] == [];
    } else {
      var (m, p, done) := trace[0];
      LeadsOn(trace[1..], st, SubscribeNext(m, p, st, done).1, end, n, ok);
      assert (trace + [(n, end, ok)])[1..] == trace[1..] + [(n, end, ok)];
    }
  }

  lemma LeadsFrom(st: nat, n: Nats, ok: bool)
    ensures Leads([(n, Checking, ok)], st, Checking, SubscribeNext(n, Checking, st, ok).1)
  {
    assert ([(n, Checking, ok)])[1..] == [];
  }

  datatype SubscribeError = NotAvailable | SubscribeFailed | ChangedDuringSubscription

  class Subscriber {
    var connected: bool
    var healthy: bool
    var epoch: nat
    var listeners: set<nat>
    ghost var open: map<nat, Sub>
    ghost var monitor: Monitor
    ghost var flushedIn: set<nat>
    ghost var breaks: nat
    ghost var pendingFails: nat

    ghost function Now(): Nats
      reads this
    {
      Nats(connected, healthy, epoch, listeners, open, monitor, flushedIn, breaks, pendingFails)
    }

    ghost predicate Valid()
      reads this
    {
      HealthHolds(Now()) && BreaksHold(Now())
    }

    predicate Healthy()
      reads this
    {
      healthy && connected
    }

    /** What the library's callbacks, other subscribers and, unless it is the caller,
        the monitor do meanwhile: anything that keeps the invariants. */
    method Others(fromMonitor: bool)
      requires Valid()
      modifies this
      ensures Valid() && epoch >= old(epoch) && (fromMonitor ==> monitor == old(monitor))
    {
    }

    /** The locked part; the returned listeners' failure callbacks run afterwards. */
    method Fail() returns (callbacks: set<nat>)
      requires Valid()
      modifies this
      ensures Valid() && Now() == Failed(old(Now())) && callbacks == listeners
    {
      StepsHold(Now(), false);
      epoch := epoch + 1;
      healthy := false;
      pendingFails := if pendingFails == 0 then 0 else pendingFails - 1;
      callbacks := listeners;
    }

    /** One round of the monitor, in its three steps: healthy again only if a flush
        succeeded and the epoch did not change around it. */
    method MonitorRound(flushes: bool) returns (restored: bool, ghost atFlush: Nats, ghost atCheck: Nats)
      requires Valid() && monitor.Resting?
      modifies this
      ensures Valid() && monitor.Resting?
      ensures LoadNext(old(Now())) == old(Now()) ==> !restored && Now() == old(Now())
      ensures LoadNext(old(Now())) != old(Now()) ==>
        && atFlush.monitor == LoadNext(old(Now())).monitor && atCheck.monitor == FlushNext(atFlush, flushes).monitor
        && Now() == CheckNext(atCheck)
      ensures !old(connected) || old(healthy) ==> !restored && Now() == old(Now())
      ensures old(connected) && !old(healthy) ==> atFlush.monitor == Loaded(old(epoch))
      ensures restored ==> Healthy() && epoch in flushedIn
      ensures restored <==> old(connected) && !old(healthy) && flushes && atFlush.connected
                            && atCheck.epoch == old(epoch) && atCheck.connected
    {
      atFlush, atCheck, restored := Now(), Now(), false;
      if connected && !healthy {
        StepsHold(Now(), flushes);
        var seen := epoch;
        monitor := Loaded(epoch);
        Others(true);
        atFlush := Now();
        StepsHold(Now(), flushes);
        var flushed := flushes && connected;
        if flushed {
          monitor, flushedIn := Flushed(seen), flushedIn + {epoch};
        } else {
          monitor := Resting;
        }
        Others(true);
        atCheck := Now();
        StepsHold(Now(), flushes);
        if flushed && seen == epoch && connected {
          healthy := true;
          restored := true;
        }
        monitor := Resting;
      }
    }

    /** Subscribe: registered before the subscription exists, and kept only if the
        connection is healthy in the epoch read at the start. The trace says what
        each step found; between them anything may happen. */
    method Subscribe(id: nat, userID: string, subscribes: bool, flushes: bool)
      returns (r: Result<(), SubscribeError>, ghost trace: seq<(Nats, Prep, bool)>)
      requires Valid()
      modifies this
      ensures Valid() && trace != []
      ensures Leads(trace, id, Checking, if r.Ok? then Obtained else NotObtained)
      ensures trace[0] == (old(Now()), Checking, D.ValidRealtimeUserID(userID))
      ensures var last := trace[|trace| - 1]; InSubscribe(last.1) && Now() == SubscribeNext(last.0, last.1, id, last.2).0
    {
      hide Leads;
      hide HealthHolds;
      hide BreaksHold;
      hide D.ValidRealtimeUserID;
      trace := [(Now(), Checking, D.ValidRealtimeUserID(userID))];
      LeadsFrom(id, Now(), D.ValidRealtimeUserID(userID));
      if !D.ValidRealtimeUserID(userID) || !Healthy() {
        return Err(NotAvailable), trace;
      }
      trace := Observe(id, trace, ReadingEpoch, true);
      var at := epoch;
      trace := Observe(id, trace, Registering(at), true);
      listeners := listeners + {id};
      trace := Observe(id, trace, Subscribing(at), subscribes);
      if !subscribes {
        trace := Abandon(id, trace);
        return Err(SubscribeFailed), trace;
      }
      open := open[id := Sub(at, breaks)];
      r, trace := Establish(id, at, flushes, trace);
    }

    /** The end of Subscribe: flushed, healthy, and still in the epoch read at the start. */
    method Establish(id: nat, at: nat, flushes: bool, ghost before: seq<(Nats, Prep, bool)>)
      returns (r: Result<(), SubscribeError>, ghost trace: seq<(Nats, Prep, bool)>)
      requires Valid() && Leads(before, id, Checking, Flushing(at)) && at <= epoch && before != []
      modifies this
      ensures Valid() && |trace| > |before| && trace[0] == before[0]
      ensures Leads(trace, id, Checking, if r.Ok? then Obtained else NotObtained)
      ensures var last := trace[|trace| - 1]; InSubscribe(last.1) && Now() == SubscribeNext(last.0, last.1, id, last.2).0
    {
      hide Leads;
      hide HealthHolds;
      hide BreaksHold;
      trace := Observe(id, before, Flushing(at), flushes);
      if !flushes || !connected {
        trace := Abandon(id, trace);
        return Err(SubscribeFailed), trace;
      }
      open := open[id := Sub(at, breaks)];
      trace := Observe(id, trace, Confirming(at), true);
      if !Healthy() {
        trace := Abandon(id, trace);
        return Err(ChangedDuringSubscription), trace;
      }
      trace := Observe(id, trace, Comparing(at), true);
      if at != epoch {
        trace := Abandon(id, trace);
        return Err(ChangedDuringSubscription), trace;
      }
      r := Ok(());
    }

    /** The next step finds whatever the others have left. */
    method Observe(id: nat, ghost trace: seq<(Nats, Prep, bool)>, ghost p: Prep, ghost ok: bool)
      returns (ghost trace': seq<(Nats, Prep, bool)>)
      requires Valid() && Leads(trace, id, Checking, p) && InSubscribe(p) && EpochOf(p, Now())
      modifies this
      ensures Valid() && EpochOf(p, Now())
      ensures trace' == trace + [(Now(), p, ok)] && Leads(trace', id, Checking, SubscribeNext(Now(), p, id, ok).1)
      ensures HealthHolds(SubscribeNext(Now(), p, id, ok).0) && BreaksHold(SubscribeNext(Now(), p, id, ok).0)
      ensures EpochOf(SubscribeNext(Now(), p, id, ok).1, Now())
    {
      Others(false);
      trace' := trace + [(Now(), p, ok)];
      LeadsOn(trace, id, Checking, p, Now(), ok);
      SubscribeNextHolds(Now(), p, id, ok);
    }

    method Abandon(id: nat, ghost trace: seq<(Nats, Prep, bool)>) returns (ghost trace': seq<(Nats, Prep, bool)>)
      requires Valid() && Leads(trace, id, Checking, Abandoning)
      modifies this
      ensures Valid() && trace <= trace' && |trace'| == |trace| + 1 && Leads(trace', id, Checking, NotObtained)
      ensures trace'[|trace|].1 == Abandoning && Now() == Closed(trace'[|trace|].0, id)
    {
      trace' := Observe(id, trace, Abandoning, true);
      Close(id);
    }

    /** Close of the subscription under way, after which Subscribe fails. */
    method Close(id: nat)
      modifies this`listeners, this`open
      ensures Now() == Closed(old(Now()), id)
    {
      listeners := listeners - {id};
      open := open - {id};
    }
  }
}

// Gateway and subscriber together: connections, preparations, disturbances of the
// NATS connection and failure callbacks, in any interleaving.
module Realtime {
  import opened Common
  import opened Gateway
  import opened Subscriber

  /** `callbacks` are the failure callbacks and `closes` the close requests still to
      run, `releasing` the releases behind their locked part, `begun` every
      preparation started. */
  datatype World = World(hub: Hub, nats: Nats, preps: map<nat, Prep>, begun: seq<nat>, releasing: map<nat, Option<nat>>,
                         callbacks: set<nat>, closes: set<nat>)

  datatype Event =
    | Reserve(user: string, c: nat, st: nat, now: int)
    | Prepare(c: nat)
    | Work(st: nat, ok: bool)                            // the next step of a preparation
    | Clear(c: nat)                                      // the ready check of a connection
    | Activate(c: nat)                                   // its ready frame
    | RequestClose(c: nat)
    | Release(c: nat)
    | CloseReleased(c: nat)
    | DoneReleased(c: nat)
    | Break                                              // the NATS connection breaks
    | Drop                                               // the library drops messages of a slow consumer
    | Reconnect
    | Fail                                               // a library callback runs
    | Callback(st: nat)                                  // a failure callback runs
    | CloseOne(c: nat)
    | FailUser(st: nat)                                  // an invalid event arrives
    | MonitorLoad
    | MonitorFlush(ok: bool)
    | MonitorCheck
    | Prune(now: int)
    | Shutdown

  function WorkStep(w: World, st: nat, ok: bool): World
    requires st in w.preps && st in w.hub.states
  {
    var p := w.preps[st];
    if InSubscribe(p) then
      var (nats, next) := SubscribeNext(w.nats, p, st, ok);
      w.(nats := nats, preps := w.preps[st := next])
    else match p
      case Obtained =>
        var keep := Wanted(w.hub, st, Healthy(w.nats));
        w.(hub := FinishIn(w.hub, st, keep), preps := w.preps[st := if keep then Leaving else Closing])
      case NotObtained => w.(hub := FinishIn(w.hub, st, false), preps := w.preps[st := Leaving])
      case Closing => w.(nats := Closed(w.nats, st), preps := w.preps[st := Leaving])
      case Leaving => w.(hub := w.hub.(wait := w.hub.wait - 1), preps := w.preps[st := Ended])
      case Ended => w
  }

  function FailUserStep(w: World, st: nat): World {
    if st in w.hub.states then w.(hub := FailUserIn(w.hub, st), closes := w.closes + w.hub.states[st].clients) else w
  }

  function PrepareStep(w: World, c: nat): World {
    if c in w.hub.clients && c in w.hub.conns && CanPrepare(w.hub, w.hub.conns[c].state)
    then
      var st := w.hub.conns[c].state;
      w.(hub := PrepareIn(w.hub, st), preps := w.preps[st := Checking], begun := w.begun + [st])
    else w
  }

  /** The ready check: the channel is closed, no error, not failed, and healthy. */
  predicate CanClear(w: World, c: nat) {
    && c in w.hub.clients && c in w.hub.conns && w.hub.conns[c].phase.Preparing?
    && w.hub.conns[c].state in w.hub.states
    && var s := w.hub.states[w.hub.conns[c].state];
    s.finished && s.sub && !s.failed && Healthy(w.nats)
  }

  function ReleaseStep(w: World, c: nat): World {
    if c in w.hub.clients && c in w.hub.conns
    then var (hub, sub) := ReleaseIn(w.hub, c); w.(hub := hub, releasing := w.releasing[c := sub])
    else w
  }

  /** What happens on the subscriber's side alone. */
  function NatsNext(n: Nats, e: Event): Nats {
    match e
    case Break => n.(connected := false, breaks := n.breaks + 1, pendingFails := n.pendingFails + 1)
    case Drop => n.(breaks := n.breaks + 1, pendingFails := n.pendingFails + 1)
    case Reconnect => n.(connected := true, pendingFails := n.pendingFails + 1)
    case Fail => Failed(n)
    case MonitorLoad => LoadNext(n)
    case MonitorFlush(ok) => FlushNext(n, ok)
    case MonitorCheck => CheckNext(n)
    case _ => n
  }

  /** Events that are not enabled leave the world as it is; connection and state
      identities are fresh. */
  function Step(k: Config, w: World, e: Event): World {
    match e
    case Reserve(user, c, st, now) =>
      if c in w.hub.conns || st in w.hub.states || Refused(k, w.hub, user, now, Healthy(w.nats)) != None then w
      else w.(hub := ReserveIn(w.hub, user, c, st, now))
    case Prepare(c) => PrepareStep(w, c)
    case Work(st, ok) => if st in w.preps && st in w.hub.states then WorkStep(w, st, ok) else w
    case Clear(c) => if CanClear(w, c) then w.(hub := PhaseIn(w.hub, c, Cleared)) else w
    case Activate(c) =>
      if c in w.hub.conns && w.hub.conns[c].phase.Cleared? then w.(hub := PhaseIn(w.hub, c, Active)) else w
    case RequestClose(c) => w.(hub := StopIn(w.hub, c))
    case Release(c) => ReleaseStep(w, c)
    case CloseReleased(c) =>
      if c in w.releasing && w.releasing[c].Some?
      then w.(nats := Closed(w.nats, w.releasing[c].value), releasing := w.releasing[c := None])
      else w
    case DoneReleased(c) =>
      if c in w.releasing && w.releasing[c] == None
      then w.(hub := w.hub.(wait := w.hub.wait - 1), releasing := w.releasing - {c})
      else w
    case Fail => w.(nats := NatsNext(w.nats, e), callbacks := w.callbacks + w.nats.listeners)
    case Callback(st) => if st in w.callbacks then FailUserStep(w, st).(callbacks := w.callbacks - {st}) else w
    case CloseOne(c) => if c in w.closes then w.(hub := StopIn(w.hub, c), closes := w.closes - {c}) else w
    case FailUser(st) => FailUserStep(w, st)
    case Prune(now) => w.(hub := PruneIn(w.hub, now))
    case Shutdown => w.(hub := ShutdownIn(w.hub), closes := w.closes + w.hub.clients)
    case _ => w.(nats := NatsNext(w.nats, e))
  }

  function Run(k: Config, w: World, events: seq<Event>): World {
    if events == [] then w else Step(k, Run(k, w, events[..|events| - 1]), events[|events| - 1])
  }

  function Start(): World {
    World(Hub(map[], map[], map[], {}, map[], map[], false, 0), Nats(false, false, 0, {}, map[], Resting, {}, 0, 0),
          map[], [], map[], {}, {})
  }

  // ----- The subscriber's side ------------------------------------------------------------

  lemma NatsNextHolds(n: Nats, e: Event)
    requires HealthHolds(n) && BreaksHold(n)
    ensures HealthHolds(NatsNext(n, e)) && BreaksHold(NatsNext(n, e))
  {
  }

  // ----- Preparations ---------------------------------------------------------------------

  ghost predicate NoRepeats(s: seq<nat>) {
    forall i, j :: 0 <= i < j < |s| ==> s[i] != s[j]
  }

  /** A subscription is kept only at the end of the state's one preparation. */
  ghost predicate PrepHolds(states: map<nat, UserState>, st: nat, p: Prep) {
    && st in states && states[st].started
    && (if p.Leaving? || p.Ended? then states[st].finished
        else if p.Closing? then states[st].finished && !states[st].sub
        else !states[st].finished && !states[st].sub)
  }

  ghost predicate PrepsHold(states: map<nat, UserState>, preps: map<nat, Prep>, begun: seq<nat>) {
    && (forall st :: st in preps ==> PrepHolds(states, st, preps[st]))
    && (forall st :: st in states && st !in preps ==> !states[st].started && !states[st].finished && !states[st].sub)
    && (forall st :: st in begun <==> st in preps)
    && NoRepeats(begun)
  }

  /** Everything a preparation sets is as it was; new states have nothing set. */
  ghost predicate SameFlags(a: map<nat, UserState>, b: map<nat, UserState>) {
    && (forall st :: st in a ==>
          st in b && b[st].started == a[st].started && b[st].finished == a[st].finished && b[st].sub == a[st].sub)
    && (forall st :: st in b && st !in a ==> !b[st].started && !b[st].finished && !b[st].sub)
  }

  lemma FlagsKeepPreps(a: map<nat, UserState>, b: map<nat, UserState>, preps: map<nat, Prep>, begun: seq<nat>)
    requires PrepsHold(a, preps, begun) && SameFlags(a, b)
    ensures PrepsHold(b, preps, begun)
  {
    hide NoRepeats;
  }

  lemma ReserveKeepsFlags(h: Hub, user: string, c: nat, st: nat, now: int)
    ensures SameFlags(h.states, ReserveIn(h, user, c, st, now).states)
  {
    hide WindowAt;
  }

  lemma ReleaseKeepsFlags(h: Hub, c: nat)
    requires c in h.conns
    ensures SameFlags(h.states, ReleaseIn(h, c).0.states)
  {
  }

  lemma OthersKeepFlags(h: Hub, st: nat, c: nat, phase: Phase, now: int)
    ensures st in h.states ==> SameFlags(h.states, FailUserIn(h, st).states)
    ensures SameFlags(h.states, ShutdownIn(h).states)
    ensures StopIn(h, c).states == h.states && PhaseIn(h, c, phase).states == h.states && PruneIn(h, now).states == h.states
  {
  }

  lemma BeginKeepsPreps(states: map<nat, UserState>, preps: map<nat, Prep>, begun: seq<nat>, st: nat)
    requires PrepsHold(states, preps, begun) && st in states && !states[st].started
    ensures PrepsHold(states[st := states[st].(started := true)], preps[st := Checking], begun + [st])
  {
    var begun' := begun + [st];
    forall i, j | 0 <= i < j < |begun'| ensures begun'[i] != begun'[j] {
      assert begun'[i] in begun;
    }
    forall t ensures t in begun' <==> t in preps[st := Checking] {
      assert t in begun' <==> t in begun || t == st;
    }
  }

  /** One preparation moves on, and may finish its state. */
  lemma MovingKeepsPreps(states: map<nat, UserState>, preps: map<nat, Prep>, begun: seq<nat>, st: nat, s: UserState, p: Prep)
    requires PrepsHold(states, preps, begun) && st in preps && st in states
    requires s.started && PrepHolds(states[st := s], st, p)
    ensures PrepsHold(states[st := s], preps[st := p], begun)
  {
    hide NoRepeats;
    var states', preps' := states[st := s], preps[st := p];
    forall t | t in preps' ensures PrepHolds(states', t, preps'[t]) {
      if t != st { assert PrepHolds(states, t, preps[t]); }
    }
  }

  lemma WorkKeepsPreps(w: World, st: nat, ok: bool)
    requires PrepsHold(w.hub.states, w.preps, w.begun) && st in w.preps && st in w.hub.states
    ensures var w' := WorkStep(w, st, ok); PrepsHold(w'.hub.states, w'.preps, w'.begun)
  {
    hide Wanted;
    hide Closed;
    hide Healthy;
    hide PrepsHold;
    hide PrepHolds;
    var p := w.preps[st];
    if InSubscribe(p) {
      StagesKeepPreps(w.hub.states, w.preps, w.begun, st, SubscribeNext(w.nats, p, st, ok).1);
    } else if p.Closing? || p.Leaving? {
      StagesKeepPreps(w.hub.states, w.preps, w.begun, st, if p.Closing? then Leaving else Ended);
    } else if !p.Ended? {
      FinishKeepsPreps(w.hub, w.preps, w.begun, st, p.Obtained? && Wanted(w.hub, st, Healthy(w.nats)));
    }
  }

  /** A preparation moves on without touching its state. */
  lemma StagesKeepPreps(states: map<nat, UserState>, preps: map<nat, Prep>, begun: seq<nat>, st: nat, p: Prep)
    requires PrepsHold(states, preps, begun) && st in preps
    requires (InSubscribe(preps[st]) && (InSubscribe(p) || p.Obtained? || p.NotObtained?))
             || ((preps[st].Closing? || preps[st].Leaving?) && (p.Leaving? || p.Ended?))
    ensures PrepsHold(states, preps[st := p], begun)
  {
    assert PrepHolds(states, st, preps[st]);
    assert states[st := states[st]] == states;
    MovingKeepsPreps(states, preps, begun, st, states[st], p);
  }

  lemma FinishKeepsPreps(h: Hub, preps: map<nat, Prep>, begun: seq<nat>, st: nat, keep: bool)
    requires PrepsHold(h.states, preps, begun) && st in preps && st in h.states
    requires preps[st].Obtained? || (preps[st].NotObtained? && !keep)
    ensures
      var p := if preps[st].Obtained? && !keep then Closing else Leaving;
      PrepsHold(FinishIn(h, st, keep).states, preps[st := p], begun)
  {
    assert PrepHolds(h.states, st, preps[st]);
    MovingKeepsPreps(h.states, preps, begun, st, FinishIn(h, st, keep).states[st],
                     if preps[st].Obtained? && !keep then Closing else Leaving);
  }

  lemma StepKeepsPreps(k: Config, w: World, e: Event)
    requires PrepsHold(w.hub.states, w.preps, w.begun)
    ensures var w' := Step(k, w, e); PrepsHold(w'.hub.states, w'.preps, w'.begun)
  {
    hide Refused;
    hide ReserveIn;
    hide ReleaseIn;
    hide FailUserIn;
    hide ShutdownIn;
    hide StopIn;
    hide PhaseIn;
    hide PruneIn;
    hide WorkStep;
    hide PrepsHold;
    hide SameFlags;
    hide NatsNext;
    hide Closed;
    hide CanClear;
    var h := w.hub;
    match e
    case Reserve(user, c, st, now) =>
      ReserveKeepsFlags(h, user, c, st, now);
      FlagsKeepPreps(h.states, ReserveIn(h, user, c, st, now).states, w.preps, w.begun);
    case Prepare(c) =>
      if c in h.clients && c in h.conns && CanPrepare(h, h.conns[c].state) {
        BeginKeepsPreps(h.states, w.preps, w.begun, h.conns[c].state);
      }
    case Work(st, ok) => if st in w.preps && st in h.states { WorkKeepsPreps(w, st, ok); }
    case Release(c) =>
      if c in h.conns {
        ReleaseKeepsFlags(h, c);
        FlagsKeepPreps(h.states, ReleaseIn(h, c).0.states, w.preps, w.begun);
      }
    case Callback(st) => FailUserKeepsPreps(w, st);
    case FailUser(st) => FailUserKeepsPreps(w, st);
    case Shutdown =>
      OthersKeepFlags(h, 0, 0, Active, 0);
      FlagsKeepPreps(h.states, ShutdownIn(h).states, w.preps, w.begun);
    case Clear(c) => OthersKeepFlags(h, 0, c, Cleared, 0);
    case Activate(c) => OthersKeepFlags(h, 0, c, Active, 0);
    case RequestClose(c) => OthersKeepFlags(h, 0, c, Active, 0);
    case CloseOne(c) => OthersKeepFlags(h, 0, c, Active, 0);
    case Prune(now) => OthersKeepFlags(h, 0, 0, Active, now);
    case _ =>
  }

  lemma FailUserKeepsPreps(w: World, st: nat)
    requires PrepsHold(w.hub.states, w.preps, w.begun)
    ensures PrepsHold(FailUserStep(w, st).hub.states, w.preps, w.begun)
    ensures FailUserStep(w, st).preps == w.preps && FailUserStep(w, st).begun == w.begun
  {
    hide PrepsHold;
    if st in w.hub.states {
      OthersKeepFlags(w.hub, st, 0, Active, 0);
      FlagsKeepPreps(w.hub.states, FailUserIn(w.hub, st).states, w.preps, w.begun);
    }
  }

  // ----- The wait count ---------------------------------------------------------------------

  function RunningPreps(preps: map<nat, Prep>): set<nat> {
    set st | st in preps && !preps[st].Ended?
  }

  /** The wait count is the unreleased connections (live or behind the locked part
      of their release) plus the running preparations. */
  ghost predicate WaitHolds(wait: int, clients: set<nat>, conns: set<nat>, releasing: set<nat>, running: set<nat>) {
    wait == |clients| + |releasing| + |running| && clients <= conns && releasing <= conns && clients !! releasing
  }

  ghost predicate Waits(w: World) {
    WaitHolds(w.hub.wait, w.hub.clients, w.hub.conns.Keys, w.releasing.Keys, RunningPreps(w.preps))
  }

  lemma JoiningWaits(wait: int, clients: set<nat>, conns: set<nat>, releasing: set<nat>, running: set<nat>, c: nat)
    requires WaitHolds(wait, clients, conns, releasing, running) && c !in conns
    ensures WaitHolds(wait + 1, clients + {c}, conns + {c}, releasing, running)
  {
  }

  lemma LeavingWaits(wait: int, clients: set<nat>, conns: set<nat>, releasing: set<nat>, running: set<nat>, c: nat)
    requires WaitHolds(wait, clients, conns, releasing, running) && c in clients
    ensures WaitHolds(wait, clients - {c}, conns, releasing + {c}, running)
  {
  }

  lemma DoneWaits(wait: int, clients: set<nat>, conns: set<nat>, releasing: set<nat>, running: set<nat>, c: nat)
    requires WaitHolds(wait, clients, conns, releasing, running)
    ensures c in releasing ==> WaitHolds(wait - 1, clients, conns, releasing - {c}, running)
    ensures c in running ==> WaitHolds(wait - 1, clients, conns, releasing, running - {c})
    ensures c !in running ==> WaitHolds(wait + 1, clients, conns, releasing, running + {c})
  {
  }

  /** Which preparations run after one moves. */
  lemma MovingRuns(preps: map<nat, Prep>, st: nat, p: Prep)
    ensures RunningPreps(preps[st := p]) == if p.Ended? then RunningPreps(preps) - {st} else RunningPreps(preps) + {st}
  {
  }

  lemma ReserveCounts(h: Hub, user: string, c: nat, st: nat, now: int)
    ensures var h' := ReserveIn(h, user, c, st, now);
      h'.wait == h.wait + 1 && h'.clients == h.clients + {c} && h'.conns.Keys == h.conns.Keys + {c}
  {
    hide WindowAt;
    hide Joins;
    hide Joined;
  }

  lemma ReleaseCounts(h: Hub, c: nat)
    requires c in h.conns
    ensures var h' := ReleaseIn(h, c).0; h'.wait == h.wait && h'.clients == h.clients - {c} && h'.conns == h.conns
  {
  }

  /** Operations that move nobody. */
  ghost predicate SameCounts(h: Hub, h': Hub) {
    h'.wait == h.wait && h'.clients == h.clients && h'.conns.Keys == h.conns.Keys
  }

  lemma FailuresCount(h: Hub, st: nat)
    ensures SameCounts(h, ShutdownIn(h))
    ensures st in h.states ==> SameCounts(h, FailUserIn(h, st)) && SameCounts(h, FinishIn(h, st, true)) && SameCounts(h, FinishIn(h, st, false))
  {
  }

  lemma ConnsCount(h: Hub, c: nat, phase: Phase, now: int)
    ensures SameCounts(h, StopIn(h, c)) && SameCounts(h, PhaseIn(h, c, phase)) && SameCounts(h, PruneIn(h, now))
  {
  }

  lemma BeginningWaits(wait: int, clients: set<nat>, conns: set<nat>, releasing: set<nat>, preps: map<nat, Prep>, st: nat)
    requires WaitHolds(wait, clients, conns, releasing, RunningPreps(preps)) && st !in preps
    ensures WaitHolds(wait + 1, clients, conns, releasing, RunningPreps(preps[st := Checking]))
  {
    hide WaitHolds;
    MovingRuns(preps, st, Checking);
    DoneWaits(wait, clients, conns, releasing, RunningPreps(preps), st);
  }

  lemma PrepareWaits(w: World, c: nat)
    requires Waits(w)
    requires c in w.hub.conns && w.hub.conns[c].state in w.preps ==> !CanPrepare(w.hub, w.hub.conns[c].state)
    ensures Waits(PrepareStep(w, c))
  {
    hide WaitHolds;
    hide RunningPreps;
    if c in w.hub.clients && c in w.hub.conns && CanPrepare(w.hub, w.hub.conns[c].state) {
      BeginningWaits(w.hub.wait, w.hub.clients, w.hub.conns.Keys, w.releasing.Keys, w.preps, w.hub.conns[c].state);
    }
  }

  lemma RunningIsBegun(preps: map<nat, Prep>, st: nat)
    ensures st in RunningPreps(preps) <==> st in preps && !preps[st].Ended?
  {
  }

  /** What a working preparation does to the counts: only leaving lowers the wait count. */
  lemma WorkCounts(w: World, st: nat, ok: bool)
    requires st in w.preps && st in w.hub.states && !w.preps[st].Ended?
    ensures
      var w' := WorkStep(w, st, ok);
      && w'.releasing == w.releasing && st in w'.preps && w'.preps == w.preps[st := w'.preps[st]]
      && (if w.preps[st].Leaving? then w'.preps[st].Ended? && w'.hub == w.hub.(wait := w.hub.wait - 1)
          else !w'.preps[st].Ended? && SameCounts(w.hub, w'.hub))
  {
    hide Wanted;
    hide FinishIn;
    hide Closed;
    hide Healthy;
    FailuresCount(w.hub, st);
    if InSubscribe(w.preps[st]) {
      StaysInSubscribe(w.nats, w.preps[st], st, ok);
    }
    hide SubscribeNext;
  }

  lemma WorkWaits(w: World, st: nat, ok: bool)
    requires Waits(w) && st in w.preps && st in w.hub.states
    ensures Waits(WorkStep(w, st, ok))
  {
    var p, h, w' := w.preps[st], w.hub, WorkStep(w, st, ok);
    if !p.Ended? {
      WorkCounts(w, st, ok);
      hide WorkStep;
      hide RunningPreps;
      hide WaitHolds;
      RunningIsBegun(w.preps, st);
      MovingRuns(w.preps, st, w'.preps[st]);
      if p.Leaving? {
        DoneWaits(h.wait, h.clients, h.conns.Keys, w.releasing.Keys, RunningPreps(w.preps), st);
      } else {
        assert RunningPreps(w.preps) + {st} == RunningPreps(w.preps);
      }
    }
  }

  lemma ReleasingWaits(w: World, c: nat)
    requires Waits(w)
    ensures Waits(ReleaseStep(w, c))
  {
    hide RunningPreps;
    hide WaitHolds;
    hide ReleaseIn;
    if c in w.hub.clients && c in w.hub.conns {
      ReleaseCounts(w.hub, c);
      LeavingWaits(w.hub.wait, w.hub.clients, w.hub.conns.Keys, w.releasing.Keys, RunningPreps(w.preps), c);
      assert w.releasing[c := ReleaseIn(w.hub, c).1].Keys == w.releasing.Keys + {c};
    }
  }

  lemma CloseReleasedWaits(k: Config, w: World, c: nat)
    requires Waits(w)
    ensures Waits(Step(k, w, CloseReleased(c)))
  {
    hide RunningPreps;
    hide WaitHolds;
    hide Closed;
    if c in w.releasing {
      assert w.releasing[c := None].Keys == w.releasing.Keys;
    }
  }

  lemma DoneReleasedWaits(k: Config, w: World, c: nat)
    requires Waits(w)
    ensures Waits(Step(k, w, DoneReleased(c)))
  {
    hide RunningPreps;
    if c in w.releasing {
      assert (w.releasing - {c}).Keys == w.releasing.Keys - {c};
      DoneWaits(w.hub.wait, w.hub.clients, w.hub.conns.Keys, w.releasing.Keys, RunningPreps(w.preps), c);
      hide WaitHolds;
    }
  }

  lemma StepKeepsWait(k: Config, w: World, e: Event)
    requires Waits(w)
    requires forall st :: st in w.preps ==> st in w.hub.states && w.hub.states[st].started
    ensures Waits(Step(k, w, e))
  {
    match e
    case Prepare(c) => PrepareWaits(w, c);
    case Work(st, ok) => if st in w.preps && st in w.hub.states { WorkWaits(w, st, ok); }
    case Release(c) => ReleasingWaits(w, c);
    case CloseReleased(c) => CloseReleasedWaits(k, w, c);
    case DoneReleased(c) => DoneReleasedWaits(k, w, c);
    case Reserve(user, c, st, now) => ReserveWaits(k, w, user, c, st, now);
    case _ => OthersWait(k, w, e);
  }

  lemma ReserveWaits(k: Config, w: World, user: string, c: nat, st: nat, now: int)
    requires Waits(w)
    ensures Waits(Step(k, w, Reserve(user, c, st, now)))
  {
    hide RunningPreps;
    hide WaitHolds;
    hide Refused;
    hide ReserveIn;
    ReserveCounts(w.hub, user, c, st, now);
    if c !in w.hub.conns {
      JoiningWaits(w.hub.wait, w.hub.clients, w.hub.conns.Keys, w.releasing.Keys, RunningPreps(w.preps), c);
    }
  }

  lemma OthersWait(k: Config, w: World, e: Event)
    requires Waits(w)
    requires !e.Reserve? && !e.Prepare? && !e.Work? && !e.Release? && !e.CloseReleased? && !e.DoneReleased?
    ensures Waits(Step(k, w, e))
  {
    hide RunningPreps;
    hide WaitHolds;
    hide FailUserIn;
    hide ShutdownIn;
    hide StopIn;
    hide PhaseIn;
    hide PruneIn;
    hide NatsNext;
    hide CanClear;
    var h := w.hub;
    match e
    case Callback(st) => FailuresCount(h, st);
    case FailUser(st) => FailuresCount(h, st);
    case Shutdown => FailuresCount(h, 0);
    case Clear(c) => ConnsCount(h, c, Cleared, 0);
    case Activate(c) => ConnsCount(h, c, Active, 0);
    case RequestClose(c) => ConnsCount(h, c, Active, 0);
    case CloseOne(c) => ConnsCount(h, c, Active, 0);
    case Prune(now) => ConnsCount(h, 0, Active, now);
    case _ =>
  }

  // ----- Subscriptions ----------------------------------------------------------------------

  ghost predicate HeldByRelease(releasing: map<nat, Option<nat>>, st: nat) {
    exists c :: c in releasing && releasing[c] == Some(st)
  }

  /** A preparation that may have made something it has yet to hand over or close. */
  predicate Holding(p: Prep) {
    p.Subscribing? || p.Flushing? || p.Confirming? || p.Comparing? || p.Abandoning? || p.Obtained? || p.Closing?
  }

  /** What a running Subscribe has registered and opened. */
  predicate PrepSub(n: Nats, st: nat, p: Prep) {
    && EpochOf(p, n)
    && (p.Subscribing? || p.Flushing? || p.Confirming? || p.Comparing? ==> st in n.listeners)
    && (p.Flushing? || p.Confirming? || p.Comparing? ==> st in n.open && n.open[st].epoch == p.epoch)
  }

  /** Obtained, or kept by a state that still has connections. */
  predicate Established(preps: map<nat, Prep>, states: map<nat, UserState>, st: nat) {
    || (st in preps && preps[st].Obtained?)
    || (st in states && states[st].sub && states[st].clients != {})
  }

  /** A failed state all of whose connections are asked, or about to be asked, to close. */
  ghost predicate Failing(states: map<nat, UserState>, conns: map<nat, Conn>, closes: set<nat>, st: nat) {
    && st in states && states[st].failed
    && forall c :: c in states[st].clients ==> c in closes || (c in conns && conns[c].stop)
  }

  ghost predicate SubHolds(n: Nats, preps: map<nat, Prep>, states: map<nat, UserState>, conns: map<nat, Conn>,
                           callbacks: set<nat>, closes: set<nat>, releasing: map<nat, Option<nat>>, st: nat)
  {
    && (st in n.listeners || st in n.open ==>
          || (st in preps && Holding(preps[st]))
          || (st in states && states[st].sub && (states[st].clients != {} || HeldByRelease(releasing, st))))
    && (st in preps ==> PrepSub(n, st, preps[st]))
    && (Established(preps, states, st) ==>
          && st in n.listeners && st in n.open
          && (n.open[st].epoch == n.epoch || st in callbacks || Failing(states, conns, closes, st)))
    && (HeldByRelease(releasing, st) ==> st in states && states[st].sub && states[st].clients == {})
  }

  ghost predicate Subs(w: World) {
    forall st :: SubHolds(w.nats, w.preps, w.hub.states, w.hub.conns, w.callbacks, w.closes, w.releasing, st)
  }

  /** Steps on the subscriber's side that leave its subscriptions alone. */
  lemma NatsKeepsSub(n: Nats, n': Nats, preps: map<nat, Prep>, states: map<nat, UserState>, conns: map<nat, Conn>,
                     callbacks: set<nat>, callbacks': set<nat>, closes: set<nat>, releasing: map<nat, Option<nat>>, st: nat)
    requires SubHolds(n, preps, states, conns, callbacks, closes, releasing, st)
    requires n'.listeners == n.listeners && n'.open == n.open && n'.epoch >= n.epoch && callbacks <= callbacks'
    requires n'.epoch == n.epoch || n.listeners <= callbacks'
    ensures SubHolds(n', preps, states, conns, callbacks', closes, releasing, st)
  {
  }

  /** Connections whose stop flags only rise, and close requests that are carried out. */
  lemma ConnsKeepSub(n: Nats, preps: map<nat, Prep>, states: map<nat, UserState>, conns: map<nat, Conn>, conns': map<nat, Conn>,
                     callbacks: set<nat>, closes: set<nat>, closes': set<nat>, releasing: map<nat, Option<nat>>, st: nat)
    requires SubHolds(n, preps, states, conns, callbacks, closes, releasing, st)
    requires forall c :: c in conns ==> c in conns' && (conns[c].stop ==> conns'[c].stop)
    requires forall c :: c in closes && c !in closes' ==> c in conns' ==> conns'[c].stop
    requires st in states ==> forall c :: c in states[st].clients ==> c in conns
    ensures SubHolds(n, preps, states, conns', callbacks, closes', releasing, st)
  {
  }

  /** A state as it is, or with a connection more (if it lives and has some), or failing. */
  ghost predicate StateGrows(states: map<nat, UserState>, states': map<nat, UserState>, conns: map<nat, Conn>, closes: set<nat>, st: nat) {
    && (st in states ==>
          && st in states' && states'[st].sub == states[st].sub
          && (states[st].clients == {} <==> states'[st].clients == {})
          && (states'[st].clients == states[st].clients || !states[st].failed)
          && (states[st].failed ==> states'[st].failed))
    && (st in states' && st !in states ==> !states'[st].sub)
  }

  lemma StatesKeepSub(n: Nats, preps: map<nat, Prep>, states: map<nat, UserState>, states': map<nat, UserState>,
                      conns: map<nat, Conn>, conns': map<nat, Conn>, callbacks: set<nat>, callbacks': set<nat>,
                      closes: set<nat>, closes': set<nat>, releasing: map<nat, Option<nat>>, st: nat)
    requires SubHolds(n, preps, states, conns, callbacks, closes, releasing, st)
    requires StateGrows(states, states', conns, closes, st) && closes <= closes'
    requires forall c :: c in conns ==> c in conns' && conns'[c].stop == conns[c].stop
    requires st in callbacks && st !in callbacks' ==> Failing(states', conns', closes', st)
    ensures SubHolds(n, preps, states', conns', callbacks', closes', releasing, st)
  {
  }

  lemma ReserveKeepsSubs(w: World, user: string, c: nat, st0: nat, now: int)
    requires Subs(w) && Linked(w.hub) && c !in w.hub.conns && st0 !in w.hub.states
    ensures Subs(w.(hub := ReserveIn(w.hub, user, c, st0, now)))
  {
    hide WindowAt;
    var h, h' := w.hub, ReserveIn(w.hub, user, c, st0, now);
    forall st: nat ensures SubHolds(w.nats, w.preps, h'.states, h'.conns, w.callbacks, w.closes, w.releasing, st) {
      ReserveGrows(h, user, c, st0, now, w.closes, st);
      hide ReserveIn;
      hide SubHolds;
      StatesKeepSub(w.nats, w.preps, h.states, h'.states, h.conns, h'.conns, w.callbacks, w.callbacks, w.closes, w.closes, w.releasing, st);
    }
  }

  lemma ReserveGrows(h: Hub, user: string, c: nat, st0: nat, now: int, closes: set<nat>, st: nat)
    requires Linked(h) && c !in h.conns && st0 !in h.states
    ensures
      var h' := ReserveIn(h, user, c, st0, now);
      && StateGrows(h.states, h'.states, h.conns, closes, st)
      && forall x :: x in h.conns ==> x in h'.conns && h'.conns[x].stop == h.conns[x].stop
  {
    hide WindowAt;
  }

  lemma FailUserKeepsSubs(w: World, failing: nat, callbacks': set<nat>)
    requires Subs(w)
    requires callbacks' == w.callbacks || (callbacks' == w.callbacks - {failing} && failing in w.hub.states)
    ensures Subs(FailUserStep(w, failing).(callbacks := callbacks'))
  {
    var w' := FailUserStep(w, failing);
    forall st: nat ensures SubHolds(w'.nats, w'.preps, w'.hub.states, w'.hub.conns, callbacks', w'.closes, w'.releasing, st) {
      StatesKeepSub(w.nats, w.preps, w.hub.states, w'.hub.states, w.hub.conns, w'.hub.conns, w.callbacks, callbacks',
                    w.closes, w'.closes, w.releasing, st);
    }
  }

  /** A callback for a state nobody knows (any more) does nothing. */
  lemma StrayCallbackKeepsSubs(w: World, stray: nat)
    requires Subs(w) && stray !in w.hub.states && stray !in w.preps
    ensures Subs(w.(callbacks := w.callbacks - {stray}))
  {
    forall st: nat ensures SubHolds(w.nats, w.preps, w.hub.states, w.hub.conns, w.callbacks - {stray}, w.closes, w.releasing, st) {
      assert SubHolds(w.nats, w.preps, w.hub.states, w.hub.conns, w.callbacks, w.closes, w.releasing, st);
    }
  }

  lemma ShutdownKeepsSubs(w: World)
    requires Subs(w) && Linked(w.hub)
    ensures Subs(w.(hub := ShutdownIn(w.hub), closes := w.closes + w.hub.clients))
  {
    var h' := ShutdownIn(w.hub);
    forall st: nat ensures SubHolds(w.nats, w.preps, h'.states, h'.conns, w.callbacks, w.closes + w.hub.clients, w.releasing, st) {
      StatesKeepSub(w.nats, w.preps, w.hub.states, h'.states, w.hub.conns, h'.conns, w.callbacks, w.callbacks,
                    w.closes, w.closes + w.hub.clients, w.releasing, st);
    }
  }

  lemma ConnStepKeepsSubs(w: World, h': Hub, closes': set<nat>)
    requires Subs(w) && Linked(w.hub)
    requires h'.states == w.hub.states
    requires forall c :: c in w.hub.conns ==> c in h'.conns && (w.hub.conns[c].stop ==> h'.conns[c].stop)
    requires forall c :: c in w.closes && c !in closes' ==> c in h'.conns ==> h'.conns[c].stop
    ensures Subs(w.(hub := h', closes := closes'))
  {
    forall st: nat ensures SubHolds(w.nats, w.preps, h'.states, h'.conns, w.callbacks, closes', w.releasing, st) {
      assert SubHolds(w.nats, w.preps, w.hub.states, w.hub.conns, w.callbacks, w.closes, w.releasing, st);
      hide SubHolds;
      ConnsKeepSub(w.nats, w.preps, w.hub.states, w.hub.conns, h'.conns, w.callbacks, w.closes, closes', w.releasing, st);
    }
  }

  lemma NatsStepKeepsSubs(w: World, n': Nats, callbacks': set<nat>)
    requires Subs(w)
    requires n'.listeners == w.nats.listeners && n'.open == w.nats.open && n'.epoch >= w.nats.epoch && w.callbacks <= callbacks'
    requires n'.epoch == w.nats.epoch || w.nats.listeners <= callbacks'
    ensures Subs(w.(nats := n', callbacks := callbacks'))
  {
    forall st: nat ensures SubHolds(n', w.preps, w.hub.states, w.hub.conns, callbacks', w.closes, w.releasing, st) {
      assert SubHolds(w.nats, w.preps, w.hub.states, w.hub.conns, w.callbacks, w.closes, w.releasing, st);
      hide SubHolds;
      NatsKeepsSub(w.nats, n', w.preps, w.hub.states, w.hub.conns, w.callbacks, callbacks', w.closes, w.releasing, st);
    }
  }

  lemma PrepareKeepsSubs(w: World, c: nat)
    requires Subs(w) && PrepsHold(w.hub.states, w.preps, w.begun)
    ensures Subs(PrepareStep(w, c))
  {
    hide NoRepeats;
    if c in w.hub.clients && c in w.hub.conns && CanPrepare(w.hub, w.hub.conns[c].state) {
      var begun := w.hub.conns[c].state;
      var w' := PrepareStep(w, c);
      forall st: nat ensures SubHolds(w'.nats, w'.preps, w'.hub.states, w'.hub.conns, w'.callbacks, w'.closes, w'.releasing, st) {
        assert SubHolds(w.nats, w.preps, w.hub.states, w.hub.conns, w.callbacks, w.closes, w.releasing, st);
        assert begun in w.preps ==> PrepHolds(w.hub.states, begun, w.preps[begun]);
      }
    }
  }

  lemma ReleaseKeepsSubs(w: World, c: nat)
    requires Subs(w) && Linked(w.hub) && c !in w.releasing
    ensures Subs(ReleaseStep(w, c))
  {
    if c in w.hub.clients && c in w.hub.conns {
      var w' := ReleaseStep(w, c);
      forall st: nat ensures SubHolds(w'.nats, w'.preps, w'.hub.states, w'.hub.conns, w'.callbacks, w'.closes, w'.releasing, st) {
        assert SubHolds(w.nats, w.preps, w.hub.states, w.hub.conns, w.callbacks, w.closes, w.releasing, st);
        ReleaseKeepsSub(w, c, st);
      }
    }
  }

  lemma ReleaseKeepsSub(w: World, c: nat, st: nat)
    requires SubHolds(w.nats, w.preps, w.hub.states, w.hub.conns, w.callbacks, w.closes, w.releasing, st)
    requires Linked(w.hub) && c !in w.releasing && c in w.hub.clients && c in w.hub.conns
    ensures var w' := ReleaseStep(w, c); SubHolds(w'.nats, w'.preps, w'.hub.states, w'.hub.conns, w'.callbacks, w'.closes, w'.releasing, st)
  {
    var (hub, sub) := ReleaseIn(w.hub, c);
    var releasing' := w.releasing[c := sub];
    if HeldByRelease(w.releasing, st) {
      var x :| x in w.releasing && w.releasing[x] == Some(st);
      assert releasing'[x] == Some(st);
    }
    if sub == Some(st) {
      assert releasing'[c] == Some(st);
    }
    if HeldByRelease(releasing', st) {
      var x :| x in releasing' && releasing'[x] == Some(st);
      assert x != c ==> x in w.releasing && w.releasing[x] == Some(st);
    }
  }

  lemma SubscribeKeepsSubs(w: World, st: nat, ok: bool)
    requires Subs(w) && PrepsHold(w.hub.states, w.preps, w.begun) && st in w.preps && InSubscribe(w.preps[st])
    ensures
      var (n', p') := SubscribeNext(w.nats, w.preps[st], st, ok);
      Subs(w.(nats := n', preps := w.preps[st := p']))
  {
    hide NoRepeats;
    hide Failing;
    var (n', p') := SubscribeNext(w.nats, w.preps[st], st, ok);
    var preps' := w.preps[st := p'];
    forall x: nat ensures SubHolds(n', preps', w.hub.states, w.hub.conns, w.callbacks, w.closes, w.releasing, x) {
      assert SubHolds(w.nats, w.preps, w.hub.states, w.hub.conns, w.callbacks, w.closes, w.releasing, x);
      assert PrepHolds(w.hub.states, st, w.preps[st]);
      if x != st {
        assert x in n'.listeners <==> x in w.nats.listeners;
        assert x in n'.open <==> x in w.nats.open;
        assert x in w.nats.open ==> n'.open[x] == w.nats.open[x];
        assert n'.epoch == w.nats.epoch;
      }
    }
  }

  /** A preparation that hands over or gives up. */
  lemma FinishKeepsSubs(w: World, st: nat, keep: bool)
    requires Subs(w) && PrepsHold(w.hub.states, w.preps, w.begun)
    requires st in w.preps && st in w.hub.states && (w.preps[st].Obtained? || w.preps[st].NotObtained?)
    requires keep ==> w.preps[st].Obtained? && w.hub.states[st].clients != {}
    ensures
      var p' := if w.preps[st].Obtained? && !keep then Closing else Leaving;
      Subs(w.(hub := FinishIn(w.hub, st, keep), preps := w.preps[st := p']))
  {
    hide NoRepeats;
    var p' := if w.preps[st].Obtained? && !keep then Closing else Leaving;
    var states', preps' := FinishIn(w.hub, st, keep).states, w.preps[st := p'];
    assert PrepHolds(w.hub.states, st, w.preps[st]);
    hide PrepsHold;
    forall x: nat ensures SubHolds(w.nats, preps', states', w.hub.conns, w.callbacks, w.closes, w.releasing, x) {
      assert SubHolds(w.nats, w.preps, w.hub.states, w.hub.conns, w.callbacks, w.closes, w.releasing, x);
    }
  }

  /** A preparation that closes what nobody wants, or leaves. */
  lemma LeaveKeepsSubs(w: World, st: nat, ok: bool)
    requires Subs(w) && PrepsHold(w.hub.states, w.preps, w.begun)
    requires st in w.preps && st in w.hub.states && (w.preps[st].Closing? || w.preps[st].Leaving? || w.preps[st].Ended?)
    ensures Subs(WorkStep(w, st, ok))
  {
    hide NoRepeats;
    hide Failing;
    var w' := WorkStep(w, st, ok);
    assert PrepHolds(w.hub.states, st, w.preps[st]);
    hide PrepsHold;
    forall x: nat ensures SubHolds(w'.nats, w'.preps, w'.hub.states, w'.hub.conns, w'.callbacks, w'.closes, w'.releasing, x) {
      assert SubHolds(w.nats, w.preps, w.hub.states, w.hub.conns, w.callbacks, w.closes, w.releasing, x);
    }
  }

  lemma WorkKeepsSubs(w: World, st: nat, ok: bool)
    requires Subs(w) && PrepsHold(w.hub.states, w.preps, w.begun) && st in w.preps && st in w.hub.states
    ensures Subs(WorkStep(w, st, ok))
  {
    hide Subs;
    hide PrepsHold;
    hide SubscribeNext;
    hide FinishIn;
    var p := w.preps[st];
    if InSubscribe(p) {
      SubscribeKeepsSubs(w, st, ok);
    } else if p.Obtained? || p.NotObtained? {
      FinishKeepsSubs(w, st, p.Obtained? && Wanted(w.hub, st, Healthy(w.nats)));
    } else {
      LeaveKeepsSubs(w, st, ok);
    }
  }

  lemma CloseReleasedKeepsSubs(w: World, c: nat)
    requires Subs(w) && PrepsHold(w.hub.states, w.preps, w.begun) && c in w.releasing && w.releasing[c].Some?
    ensures Subs(w.(nats := Closed(w.nats, w.releasing[c].value), releasing := w.releasing[c := None]))
  {
    hide NoRepeats;
    hide Failing;
    var st, releasing' := w.releasing[c].value, w.releasing[c := None];
    var n' := Closed(w.nats, st);
    assert HeldByRelease(w.releasing, st);
    forall x: nat ensures SubHolds(n', w.preps, w.hub.states, w.hub.conns, w.callbacks, w.closes, releasing', x) {
      assert SubHolds(w.nats, w.preps, w.hub.states, w.hub.conns, w.callbacks, w.closes, w.releasing, x);
      if HeldByRelease(releasing', x) {
        var y :| y in releasing' && releasing'[y] == Some(x);
        assert w.releasing[y] == Some(x);
      }
      if HeldByRelease(w.releasing, x) && x != st {
        var y :| y in w.releasing && w.releasing[y] == Some(x);
        assert releasing'[y] == Some(x);
      }
      if st in w.preps { assert PrepHolds(w.hub.states, st, w.preps[st]); }
    }
  }

  lemma DoneReleasedKeepsSubs(w: World, c: nat, hub: Hub)
    requires Subs(w) && c in w.releasing && w.releasing[c] == None
    requires hub.states == w.hub.states && hub.conns == w.hub.conns
    ensures Subs(w.(hub := hub, releasing := w.releasing - {c}))
  {
    forall x: nat ensures SubHolds(w.nats, w.preps, hub.states, hub.conns, w.callbacks, w.closes, w.releasing - {c}, x) {
      assert SubHolds(w.nats, w.preps, w.hub.states, w.hub.conns, w.callbacks, w.closes, w.releasing, x);
      assert HeldByRelease(w.releasing - {c}, x) <==> HeldByRelease(w.releasing, x) by {
        if HeldByRelease(w.releasing, x) {
          var y :| y in w.releasing && w.releasing[y] == Some(x);
          assert (w.releasing - {c})[y] == Some(x);
        }
        if HeldByRelease(w.releasing - {c}, x) {
          var y :| y in w.releasing - {c} && (w.releasing - {c})[y] == Some(x);
          assert w.releasing[y] == Some(x);
        }
      }
    }
  }

  /** A connection that passed the ready check sits on a kept subscription. */
  ghost predicate PhasesHold(conns: map<nat, Conn>, states: map<nat, UserState>) {
    forall c :: c in conns && !conns[c].phase.Preparing? ==> conns[c].state in states && states[conns[c].state].sub
  }

  ghost predicate Inv(k: Config, w: World) {
    && Sound(k, w.hub) && HealthHolds(w.nats) && BreaksHold(w.nats)
    && PrepsHold(w.hub.states, w.preps, w.begun) && Waits(w) && Subs(w) && PhasesHold(w.hub.conns, w.hub.states)
  }

  lemma StepKeepsSubs(k: Config, w: World, e: Event)
    requires Inv(k, w)
    ensures Subs(Step(k, w, e))
  {
    assert forall c :: c in w.releasing ==> c !in w.hub.clients;
    assert forall st :: st in w.preps ==> st in w.hub.states by {
      forall st | st in w.preps ensures st in w.hub.states { assert PrepHolds(w.hub.states, st, w.preps[st]); }
    }
    hide Subs;
    hide PrepsHold;
    hide Counted;
    hide Linked;
    hide WithinLimits;
    hide HealthHolds;
    hide BreaksHold;
    hide PhasesHold;
    hide Waits;
    match e
    case Reserve(user, c, st, now) =>
      if c !in w.hub.conns && st !in w.hub.states {
        hide Refused;
        hide ReserveIn;
        ReserveKeepsSubs(w, user, c, st, now);
      }
    case Prepare(c) => PrepareKeepsSubs(w, c);
    case Work(st, ok) => if st in w.preps && st in w.hub.states { WorkKeepsSubs(w, st, ok); }
    case Release(c) => if c in w.hub.clients { ReleaseKeepsSubs(w, c); }
    case CloseReleased(c) => if c in w.releasing && w.releasing[c].Some? { CloseReleasedKeepsSubs(w, c); }
    case DoneReleased(c) =>
      if c in w.releasing && w.releasing[c] == None { DoneReleasedKeepsSubs(w, c, w.hub.(wait := w.hub.wait - 1)); }
    case Callback(st) => CallbackKeepsSubs(w, st);
    case FailUser(st) =>
      FailUserKeepsSubs(w, st, w.callbacks);
      assert FailUserStep(w, st).(callbacks := w.callbacks) == FailUserStep(w, st);
    case Shutdown => ShutdownKeepsSubs(w);
    case _ => OthersKeepSubs(k, w, e);
  }

  lemma CallbackKeepsSubs(w: World, st: nat)
    requires Subs(w) && (st in w.preps ==> st in w.hub.states)
    ensures st in w.callbacks ==> Subs(FailUserStep(w, st).(callbacks := w.callbacks - {st}))
  {
    hide Subs;
    if st in w.hub.states {
      FailUserKeepsSubs(w, st, w.callbacks - {st});
    } else {
      StrayCallbackKeepsSubs(w, st);
    }
  }

  lemma OthersKeepSubs(k: Config, w: World, e: Event)
    requires Subs(w) && Linked(w.hub)
    requires e.Clear? || e.Activate? || e.RequestClose? || e.CloseOne? || e.Prune? || e.Break? || e.Reconnect? || e.Fail?
             || e.Drop? || e.MonitorLoad? || e.MonitorFlush? || e.MonitorCheck?
    ensures Subs(Step(k, w, e))
  {
    hide Subs;
    hide Linked;
    hide CanClear;
    if e.Clear? || e.Activate? || e.RequestClose? || e.CloseOne? || e.Prune? {
      var w' := Step(k, w, e);
      ConnStepKeepsSubs(w, w'.hub, w'.closes);
    } else {
      NatsStepKeepsSubs(w, NatsNext(w.nats, e), if e.Fail? then w.callbacks + w.nats.listeners else w.callbacks);
    }
  }

  // ----- All together -------------------------------------------------------------------------

  lemma WaitKeepsSound(k: Config, h: Hub, wait: int)
    requires Sound(k, h)
    ensures Sound(k, h.(wait := wait))
  {
    hide Sound;
    FlagsKeepSound(k, h, h.(wait := wait));
  }

  lemma WorkKeepsSound(k: Config, w: World, st: nat, ok: bool)
    requires Sound(k, w.hub) && st in w.preps && st in w.hub.states
    ensures Sound(k, WorkStep(w, st, ok).hub)
  {
    hide Sound;
    hide FinishIn;
    hide SubscribeNext;
    hide Wanted;
    FinishKeepsSound(k, w.hub, st, true);
    FinishKeepsSound(k, w.hub, st, false);
    WaitKeepsSound(k, w.hub, w.hub.wait - 1);
  }

  lemma StepKeepsSound(k: Config, w: World, e: Event)
    requires Sound(k, w.hub)
    ensures Sound(k, Step(k, w, e).hub)
  {
    hide Sound;
    hide Refused;
    hide ReserveIn;
    hide ReleaseIn;
    hide PrepareIn;
    hide FailUserIn;
    hide ShutdownIn;
    hide StopIn;
    hide PhaseIn;
    hide PruneIn;
    hide WorkStep;
    hide NatsNext;
    hide Closed;
    hide CanClear;
    var h := w.hub;
    match e
    case Reserve(user, c, st, now) =>
      if c !in h.conns && st !in h.states && Refused(k, h, user, now, Healthy(w.nats)) == None {
        ReserveKeepsSound(k, h, user, c, st, now, Healthy(w.nats));
      }
    case Prepare(c) =>
      if c in h.conns && CanPrepare(h, h.conns[c].state) { PrepareKeepsSound(k, h, h.conns[c].state); }
    case Work(st, ok) => if st in w.preps && st in h.states { WorkKeepsSound(k, w, st, ok); }
    case Release(c) => if c in h.clients { ReleaseKeepsSound(k, h, c); }
    case DoneReleased(c) => WaitKeepsSound(k, h, h.wait - 1);
    case Callback(st) => if st in h.states { FailUserKeepsSound(k, h, st); }
    case FailUser(st) => if st in h.states { FailUserKeepsSound(k, h, st); }
    case Shutdown => ShutdownKeepsSound(k, h);
    case Clear(c) => PhaseKeepsSound(k, h, c, Cleared);
    case Activate(c) => PhaseKeepsSound(k, h, c, Active);
    case RequestClose(c) => StopKeepsSound(k, h, c);
    case CloseOne(c) => StopKeepsSound(k, h, c);
    case Prune(now) => PruneKeepsSound(k, h, now);
    case _ =>
  }

  lemma StepKeepsNats(k: Config, w: World, e: Event)
    requires HealthHolds(w.nats) && BreaksHold(w.nats)
    requires forall st :: st in w.preps ==> EpochOf(w.preps[st], w.nats)
    ensures HealthHolds(Step(k, w, e).nats) && BreaksHold(Step(k, w, e).nats)
  {
    hide HealthHolds;
    hide BreaksHold;
    hide Refused;
    hide ReserveIn;
    hide NatsNext;
    hide Closed;
    hide CanClear;
    hide SubscribeNext;
    hide ReleaseIn;
    NatsNextHolds(w.nats, e);
    if e.Work? && e.st in w.preps {
      ClosedHolds(w.nats, e.st);
      if InSubscribe(w.preps[e.st]) { SubscribeNextHolds(w.nats, w.preps[e.st], e.st, e.ok); }
    }
    if e.CloseReleased? && e.c in w.releasing && w.releasing[e.c].Some? {
      ClosedHolds(w.nats, w.releasing[e.c].value);
    }
  }

  ghost predicate Phases(h: Hub) {
    PhasesHold(h.conns, h.states)
  }

  lemma JoinKeepsPhases(h: Hub, user: string, c: nat, st: nat, now: int)
    requires Phases(h) && c !in h.conns
    ensures Phases(ReserveIn(h, user, c, st, now))
  {
    hide WindowAt;
  }

  lemma LeaveKeepsPhases(h: Hub, c: nat)
    requires Phases(h) && c in h.conns
    ensures Phases(ReleaseIn(h, c).0)
  {
  }

  lemma StatesKeepPhases(h: Hub, st: nat, keep: bool)
    requires Phases(h) && st in h.states
    ensures Phases(PrepareIn(h, st)) && Phases(FinishIn(h, st, keep)) && Phases(FailUserIn(h, st))
  {
  }

  lemma ConnsKeepPhases(h: Hub, c: nat, phase: Phase)
    requires Phases(h)
    requires c in h.conns ==> h.conns[c].state in h.states && h.states[h.conns[c].state].sub
    ensures Phases(PhaseIn(h, c, phase))
  {
  }

  lemma StopKeepsPhases(h: Hub, c: nat, now: int)
    requires Phases(h)
    ensures Phases(StopIn(h, c)) && Phases(PruneIn(h, now))
  {
  }

  lemma WorkKeepsPhases(w: World, st: nat, ok: bool)
    requires Phases(w.hub) && st in w.preps && st in w.hub.states
    ensures Phases(WorkStep(w, st, ok).hub)
  {
    hide FinishIn;
    hide SubscribeNext;
    hide Wanted;
    StatesKeepPhases(w.hub, st, true);
    StatesKeepPhases(w.hub, st, false);
  }

  /** Connections keep their state, states keep what they subscribed. */
  lemma StepKeepsPhases(k: Config, w: World, e: Event)
    requires Phases(w.hub)
    ensures Phases(Step(k, w, e).hub)
  {
    var h := w.hub;
    assert e.Activate? && e.c in h.conns && h.conns[e.c].phase.Cleared? ==>
        h.conns[e.c].state in h.states && h.states[h.conns[e.c].state].sub;
    hide Phases;
    hide Refused;
    hide ReserveIn;
    hide ReleaseIn;
    hide PrepareIn;
    hide FailUserIn;
    hide ShutdownIn;
    hide StopIn;
    hide PhaseIn;
    hide PruneIn;
    hide WorkStep;
    hide NatsNext;
    hide Closed;
    match e
    case Reserve(user, c, st, now) => if c !in h.conns { JoinKeepsPhases(h, user, c, st, now); }
    case Prepare(c) =>
      if c in h.conns && CanPrepare(h, h.conns[c].state) { StatesKeepPhases(h, h.conns[c].state, true); }
    case Work(st, ok) => if st in w.preps && st in h.states { WorkKeepsPhases(w, st, ok); }
    case Release(c) => if c in h.conns { LeaveKeepsPhases(h, c); }
    case DoneReleased(c) => WaitKeepsPhases(h, h.wait - 1);
    case Callback(st) => if st in h.states { StatesKeepPhases(h, st, true); }
    case FailUser(st) => if st in h.states { StatesKeepPhases(h, st, true); }
    case Shutdown => ShutdownKeepsPhases(h);
    case Clear(c) => if CanClear(w, c) { ConnsKeepPhases(h, c, Cleared); }
    case Activate(c) => if c in h.conns && h.conns[c].phase.Cleared? { ConnsKeepPhases(h, c, Active); }
    case RequestClose(c) => StopKeepsPhases(h, c, 0);
    case CloseOne(c) => StopKeepsPhases(h, c, 0);
    case Prune(now) => StopKeepsPhases(h, 0, now);
    case _ =>
  }

  lemma WaitKeepsPhases(h: Hub, wait: int)
    requires Phases(h)
    ensures Phases(h.(wait := wait))
  {
  }

  lemma ShutdownKeepsPhases(h: Hub)
    requires Phases(h)
    ensures Phases(ShutdownIn(h))
  {
  }

  lemma StepKeepsInv(k: Config, w: World, e: Event)
    requires Inv(k, w)
    ensures Inv(k, Step(k, w, e))
  {
    forall st | st in w.preps
      ensures EpochOf(w.preps[st], w.nats) && st in w.hub.states && w.hub.states[st].started
    {
      assert SubHolds(w.nats, w.preps, w.hub.states, w.hub.conns, w.callbacks, w.closes, w.releasing, st);
      assert PrepHolds(w.hub.states, st, w.preps[st]);
    }
    StepKeepsSubs(k, w, e);
    hide Step;
    hide Sound;
    hide HealthHolds;
    hide BreaksHold;
    hide PrepsHold;
    hide Waits;
    hide Subs;
    hide PhasesHold;
    StepKeepsSound(k, w, e);
    StepKeepsNats(k, w, e);
    StepKeepsPreps(k, w, e);
    StepKeepsWait(k, w, e);
    StepKeepsPhases(k, w, e);
  }

  lemma {:induction false} RunKeepsInv(k: Config, w: World, events: seq<Event>)
    requires Inv(k, w)
    ensures Inv(k, Run(k, w, events))
  {
    hide Inv;
    hide Step;
    if events != [] {
      RunKeepsInv(k, w, events[..|events| - 1]);
      StepKeepsInv(k, Run(k, w, events[..|events| - 1]), events[|events| - 1]);
    }
  }

  lemma StartInv(k: Config)
    ensures Inv(k, Start())
  {
    var w := Start();
    assert RunningPreps(w.preps) == {};
    forall u ensures CountedFor(w.hub.conns, w.hub.clients, w.hub.perUser, u) {
      assert LiveOf(w.hub.conns, w.hub.clients, u) == {};
    }
    forall st: nat ensures SubHolds(w.nats, w.preps, w.hub.states, w.hub.conns, w.callbacks, w.closes, w.releasing, st) {
    }
  }

  // ----- Main results ---------------------------------------------------------------------------

  /** The bookkeeping in every interleaving: perUser counts the live connections, both
      limits hold, states and connections know each other (Sound); the wait count
      is exact; no state is prepared twice. */
  lemma BookkeepingIsExact(k: Config, events: seq<Event>)
    ensures
      var w := Run(k, Start(), events);
      && Sound(k, w.hub)
      && w.hub.wait == |w.hub.clients| + |w.releasing.Keys| + |RunningPreps(w.preps)|
      && NoRepeats(w.begun)
  {
    StartInv(k);
    RunKeepsInv(k, Start(), events);
  }

  lemma WorkNeverRaisesWait(w: World, st: nat, ok: bool)
    requires st in w.preps && st in w.hub.states
    ensures WorkStep(w, st, ok).hub.draining == w.hub.draining && WorkStep(w, st, ok).hub.wait <= w.hub.wait
  {
    hide SubscribeNext;
    hide Closed;
    hide Wanted;
    hide Healthy;
  }

  /** Once draining has begun it goes on, and the wait count never rises again. */
  lemma WaitNeverRisesWhileDraining(k: Config, w: World, e: Event)
    requires w.hub.draining
    ensures Step(k, w, e).hub.draining && Step(k, w, e).hub.wait <= w.hub.wait
  {
    hide WorkStep;
    if e.Work? && e.st in w.preps && e.st in w.hub.states { WorkNeverRaisesWait(w, e.st, e.ok); }
    hide ReserveIn;
    hide NatsNext;
    hide Closed;
    hide SubscribeNext;
    hide Wanted;
    hide CanClear;
  }

  /** Everybody is told to leave: once draining has begun every live connection was asked
      to close, or is about to be, and no user has a state that could be joined. */
  ghost predicate Dismissed(h: Hub, closes: set<nat>) {
    h.draining ==>
      && (forall c :: c in h.clients ==> c in h.conns && (c in closes || h.conns[c].stop))
      && (forall u :: u in h.users ==> h.users[u] in h.states && h.states[h.users[u]].failed)
  }

  lemma FailingKeepsDismissed(h: Hub, closes: set<nat>, st: nat)
    requires Dismissed(h, closes) && st in h.states
    ensures Dismissed(FailUserIn(h, st), closes + h.states[st].clients)
  {
  }

  lemma LeavingKeepsDismissed(h: Hub, closes: set<nat>, c: nat)
    requires Dismissed(h, closes) && c in h.clients && c in h.conns
    ensures Dismissed(ReleaseIn(h, c).0, closes)
  {
  }

  lemma OpenIsDismissed(h: Hub, closes: set<nat>)
    ensures !h.draining ==> Dismissed(h, closes)
  {
  }

  lemma SameDismissed(h: Hub, h': Hub, closes: set<nat>)
    requires Dismissed(h, closes)
    requires h'.users == h.users && h'.states == h.states && h'.conns == h.conns && h'.clients == h.clients && h'.draining == h.draining
    ensures Dismissed(h', closes)
  {
  }

  lemma ReservingKeepsDraining(k: Config, h: Hub, user: string, c: nat, st: nat, now: int, healthy: bool)
    ensures ReserveIn(h, user, c, st, now).draining == h.draining
    ensures h.draining ==> Refused(k, h, user, now, healthy) != None
  {
  }

  lemma ShutdownDismisses(k: Config, h: Hub, closes: set<nat>)
    requires Sound(k, h)
    ensures Dismissed(ShutdownIn(h), closes + h.clients)
  {
  }

  lemma FinishingKeepsDismissed(h: Hub, closes: set<nat>, st: nat, keep: bool)
    requires Dismissed(h, closes) && st in h.states
    ensures Dismissed(FinishIn(h, st, keep), closes)
  {
  }

  lemma PreparingKeepsDismissed(w: World, c: nat)
    requires Dismissed(w.hub, w.closes)
    ensures Dismissed(PrepareStep(w, c).hub, PrepareStep(w, c).closes)
  {
  }

  /** Changes of one connection. */
  lemma ConnKeepsDismissed(h: Hub, closes: set<nat>, c: nat, phase: Phase)
    requires Dismissed(h, closes)
    ensures Dismissed(PhaseIn(h, c, phase), closes) && Dismissed(StopIn(h, c), closes) && Dismissed(StopIn(h, c), closes - {c})
  {
  }

  lemma StepKeepsDismissed(k: Config, w: World, e: Event)
    requires Sound(k, w.hub) && Dismissed(w.hub, w.closes)
    ensures Dismissed(Step(k, w, e).hub, Step(k, w, e).closes)
  {
    hide Sound;
    hide NatsNext;
    hide Closed;
    hide SubscribeNext;
    hide Wanted;
    hide CanClear;
    hide ReserveIn;
    hide Refused;
    hide FinishIn;
    hide FailUserIn;
    hide ReleaseIn;
    hide ShutdownIn;
    hide PrepareStep;
    hide PhaseIn;
    hide StopIn;
    hide Dismissed;
    match e
    case Reserve(user, c, st, now) =>
      ReservingKeepsDraining(k, w.hub, user, c, st, now, Healthy(w.nats));
      OpenIsDismissed(ReserveIn(w.hub, user, c, st, now), w.closes);
    case Work(st, ok) =>
      if st in w.preps && st in w.hub.states {
        FinishingKeepsDismissed(w.hub, w.closes, st, Wanted(w.hub, st, Healthy(w.nats)));
        FinishingKeepsDismissed(w.hub, w.closes, st, false);
        SameDismissed(w.hub, w.hub.(wait := w.hub.wait - 1), w.closes);
      }
    case Callback(st) => if st in w.hub.states { FailingKeepsDismissed(w.hub, w.closes, st); }
    case FailUser(st) => if st in w.hub.states { FailingKeepsDismissed(w.hub, w.closes, st); }
    case Release(c) => if c in w.hub.clients && c in w.hub.conns { LeavingKeepsDismissed(w.hub, w.closes, c); }
    case Shutdown => ShutdownDismisses(k, w.hub, w.closes);
    case Prepare(c) => PreparingKeepsDismissed(w, c);
    case Clear(c) => ConnKeepsDismissed(w.hub, w.closes, c, Cleared);
    case Activate(c) => ConnKeepsDismissed(w.hub, w.closes, c, Active);
    case RequestClose(c) => ConnKeepsDismissed(w.hub, w.closes, c, Active);
    case CloseOne(c) => ConnKeepsDismissed(w.hub, w.closes, c, Active);
    case Prune(now) => SameDismissed(w.hub, PruneIn(w.hub, now), w.closes);
    case DoneReleased(c) => SameDismissed(w.hub, w.hub.(wait := w.hub.wait - 1), w.closes);
    case _ =>
  }

  lemma {:induction false} DrainingDismissesEverybody(k: Config, events: seq<Event>)
    ensures var w := Run(k, Start(), events); Dismissed(w.hub, w.closes)
  {
    if events != [] {
      var before := events[..|events| - 1];
      DrainingDismissesEverybody(k, before);
      StartInv(k);
      RunKeepsInv(k, Start(), before);
      StepKeepsDismissed(k, Run(k, Start(), before), events[|events| - 1]);
    }
  }

  /** No subscription leaks: once a state's preparation is over and no release is
      closing it, it is listened to only while it has connections. */
  lemma SubscriptionsAreClosed(k: Config, events: seq<Event>, st: nat)
    requires
      var w := Run(k, Start(), events);
      && (st in w.nats.listeners || st in w.nats.open)
      && st in w.preps && (w.preps[st].Leaving? || w.preps[st].Ended?) && !HeldByRelease(w.releasing, st)
    ensures var w := Run(k, Start(), events); st in w.hub.states && w.hub.states[st].clients != {}
  {
    StartInv(k);
    RunKeepsInv(k, Start(), events);
    var w := Run(k, Start(), events);
    hide Run;
    assert SubHolds(w.nats, w.preps, w.hub.states, w.hub.conns, w.callbacks, w.closes, w.releasing, st);
  }

  /** Every library callback, failure callback and close request under way has run. */
  predicate Settled(w: World) {
    w.nats.pendingFails == 0 && w.callbacks == {} && w.closes == {}
  }

  lemma {:induction false} RunConcat(k: Config, w: World, a: seq<Event>, b: seq<Event>)
    ensures Run(k, w, a + b) == Run(k, Run(k, w, a), b)
  {
    hide Step;
    if b == [] {
      assert a + b == a;
    } else {
      RunConcat(k, w, a, b[..|b| - 1]);
      assert (a + b)[..|a + b| - 1] == a + b[..|b| - 1];
    }
  }

  ghost predicate Finishing(events: seq<Event>) {
    forall i :: 0 <= i < |events| ==> events[i].Fail? || events[i].Callback? || events[i].CloseOne?
  }

  /** The next thing under way. */
  ghost function NextUnderWay(w: World): Event
    requires !Settled(w)
  {
    if w.nats.pendingFails > 0 then Fail
    else if w.callbacks != {} then var st :| st in w.callbacks; Callback(st)
    else var c :| c in w.closes; CloseOne(c)
  }

  lemma FailureRuns(k: Config, w: World)
    requires w.nats.pendingFails > 0
    ensures Step(k, w, Fail).nats.pendingFails < w.nats.pendingFails
  {
  }

  lemma CallbackRuns(k: Config, w: World, st: nat)
    requires st in w.callbacks
    ensures Step(k, w, Callback(st)).nats == w.nats && |Step(k, w, Callback(st)).callbacks| < |w.callbacks|
  {
  }

  lemma CloseRuns(k: Config, w: World, c: nat)
    requires c in w.closes
    ensures
      var w' := Step(k, w, CloseOne(c));
      w'.nats == w.nats && w'.callbacks == w.callbacks && |w'.closes| < |w.closes|
  {
  }

  lemma OneLessUnderWay(k: Config, w: World)
    requires !Settled(w)
    ensures
      var w' := Step(k, w, NextUnderWay(w));
      || w'.nats.pendingFails < w.nats.pendingFails
      || (w'.nats.pendingFails == w.nats.pendingFails && |w'.callbacks| < |w.callbacks|)
      || (w'.nats.pendingFails == w.nats.pendingFails && w'.callbacks == w.callbacks && |w'.closes| < |w.closes|)
  {
    hide Step;
    match NextUnderWay(w)
    case Fail => FailureRuns(k, w);
    case Callback(st) => CallbackRuns(k, w, st);
    case CloseOne(c) => CloseRuns(k, w, c);
  }

  /** What is under way comes to its end by itself. */
  lemma {:induction false} EverythingSettles(k: Config, w: World)
    ensures exists more :: Finishing(more) && Settled(Run(k, w, more))
    decreases w.nats.pendingFails, |w.callbacks|, |w.closes|
  {
    if Settled(w) {
      assert Finishing([]) && Run(k, w, []) == w;
    } else {
      var e := NextUnderWay(w);
      OneLessUnderWay(k, w);
      EverythingSettles(k, Step(k, w, e));
      var more :| Finishing(more) && Settled(Run(k, Step(k, w, e), more));
      RunConcat(k, w, [e], more);
      assert Run(k, w, []) == w && [e][..0] == [];
      assert Finishing([e] + more);
    }
  }

  /** No silent gap: when nothing is under way, a connection that passed its ready
      check, was not asked to close and was not released has a subscription that is
      still there, was made in the current epoch, and since the flush that confirmed
      it, before the ready frame, the NATS connection has not broken and the library
      has dropped no message. */
  lemma NoSilentGap(k: Config, events: seq<Event>, c: nat)
    requires
      var w := Run(k, Start(), events);
      && Settled(w)
      && c in w.hub.clients && c in w.hub.conns && !w.hub.conns[c].phase.Preparing? && !w.hub.conns[c].stop
    ensures
      var w := Run(k, Start(), events);
      var st := w.hub.conns[c].state;
      && st in w.nats.listeners && st in w.nats.open
      && w.nats.open[st].epoch == w.nats.epoch && w.nats.open[st].breaks == w.nats.breaks
  {
    StartInv(k);
    RunKeepsInv(k, Start(), events);
    var w := Run(k, Start(), events);
    hide Run;
    var st := w.hub.conns[c].state;
    assert SubHolds(w.nats, w.preps, w.hub.states, w.hub.conns, w.callbacks, w.closes, w.releasing, st);
    assert c in w.hub.states[st].clients;
  }

  /** At this point of a run the monitor's flush succeeded on a connection that was up. */
  ghost predicate FlushedAt(k: Config, events: seq<Event>, i: nat, epoch: nat) {
    && i < |events| && events[i] == MonitorFlush(true)
    && var n := Run(k, Start(), events[..i]).nats;
    n.connected && n.monitor.Loaded? && n.epoch == epoch
  }

  ghost predicate FlushedIn(k: Config, events: seq<Event>, epoch: nat) {
    exists i: nat :: FlushedAt(k, events, i, epoch)
  }

  ghost predicate HealthEarned(k: Config, events: seq<Event>, n: Nats) {
    && (n.healthy ==> FlushedIn(k, events, n.epoch))
    && (n.monitor.Loaded? ==> n.monitor.epoch <= n.epoch)
    && (n.monitor.Flushed? ==> n.monitor.epoch <= n.epoch && (n.monitor.epoch == n.epoch ==> FlushedIn(k, events, n.epoch)))
  }

  lemma FlushesStay(k: Config, events: seq<Event>, e: Event, epoch: nat)
    requires FlushedIn(k, events, epoch)
    ensures FlushedIn(k, events + [e], epoch)
  {
    var i: nat :| FlushedAt(k, events, i, epoch);
    assert (events + [e])[..i] == events[..i];
    assert FlushedAt(k, events + [e], i, epoch);
  }

  /** Only the subscriber's own events touch its health. */
  lemma HealthSteps(k: Config, w: World, e: Event)
    ensures
      var n, n' := Step(k, w, e).nats, NatsNext(w.nats, e);
      n.connected == n'.connected && n.healthy == n'.healthy && n.epoch == n'.epoch && n.monitor == n'.monitor
  {
    hide ReserveIn;
    hide Refused;
    hide ReleaseIn;
    hide FailUserIn;
    hide ShutdownIn;
    hide PruneIn;
    hide Wanted;
  }

  lemma {:induction false} HealthIsEarned(k: Config, events: seq<Event>)
    ensures HealthEarned(k, events, Run(k, Start(), events).nats)
  {
    if events != [] {
      var before, e := events[..|events| - 1], events[|events| - 1];
      HealthIsEarned(k, before);
      HealthSteps(k, Run(k, Start(), before), e);
      hide Step;
      var n := Run(k, Start(), before).nats;
      assert events == before + [e];
      if FlushedIn(k, before, n.epoch) { FlushesStay(k, before, e, n.epoch); }
      if e == MonitorFlush(true) && n.connected && n.monitor.Loaded? {
        assert FlushedAt(k, events, |before|, n.epoch);
      }
      EarnedOn(k, before, events, n, e);
    }
  }

  lemma EarnedOn(k: Config, before: seq<Event>, events: seq<Event>, n: Nats, e: Event)
    requires HealthEarned(k, before, n)
    requires FlushedIn(k, before, n.epoch) ==> FlushedIn(k, events, n.epoch)
    requires e == MonitorFlush(true) && n.connected && n.monitor.Loaded? ==> FlushedIn(k, events, n.epoch)
    ensures HealthEarned(k, events, NatsNext(n, e))
  {
    hide FlushedIn;
  }

  /** Health has to be earned: a run that ends healthy contains a flush of the monitor
      that succeeded, on a connection that was up, in the epoch of the end. */
  lemma HealthyMeansFlushed(k: Config, events: seq<Event>)
    requires Healthy(Run(k, Start(), events).nats)
    ensures
      var epoch := Run(k, Start(), events).nats.epoch;
      exists i: nat :: i < |events| && events[i] == MonitorFlush(true)
                       && var n := Run(k, Start(), events[..i]).nats; n.connected && n.monitor.Loaded? && n.epoch == epoch
    ensures Run(k, Start(), events).nats.epoch in Run(k, Start(), events).nats.flushedIn
  {
    StartInv(k);
    RunKeepsInv(k, Start(), events);
    HealthIsEarned(k, events);
    hide Run;
    var i: nat :| FlushedAt(k, events, i, Run(k, Start(), events).nats.epoch);
  }

  /** A round of the monitor that has begun comes to its end, whatever its flush does. */
  lemma RoundsEnd(k: Config, w: World, ok: bool)
    ensures Step(k, Step(k, w, MonitorFlush(ok)), MonitorCheck).nats.monitor.Resting?
  {
  }

  /** And it comes back: an undisturbed round of the monitor on a connection that is up
      restores it, whatever happened before. */
  lemma HealthReturns(k: Config, w: World)
    requires w.nats.connected && w.nats.monitor.Resting?
    ensures
      var n := Step(k, Step(k, Step(k, w, MonitorLoad), MonitorFlush(true)), MonitorCheck).nats;
      Healthy(n) && n.epoch == w.nats.epoch && n.monitor.Resting?
  {
  }

  // ----- Nothing in the way -----------------------------------------------------------------

  function Works(k: Config, w: World, st: nat, n: nat): World {
    if n == 0 then w else Step(k, Works(k, w, st, n - 1), Work(st, true))
  }

  lemma WorkOnce(k: Config, w: World, st: nat)
    requires st in w.preps && st in w.hub.states && InSubscribe(w.preps[st])
    ensures
      var (nats, next) := SubscribeNext(w.nats, w.preps[st], st, true);
      Step(k, w, Work(st, true)) == w.(nats := nats, preps := w.preps[st := next])
  {
    hide SubscribeNext;
  }

  /** Seven undisturbed steps on a healthy connection make a subscription of the
      current epoch, registered before it exists. */
  lemma UndisturbedSubscribeSucceeds(k: Config, w: World, st: nat)
    requires st in w.preps && st in w.hub.states && w.preps[st].Checking? && Healthy(w.nats)
    ensures
      var w' := Works(k, w, st, 7);
      && w' == w.(nats := w'.nats, preps := w.preps[st := Obtained])
      && w'.nats == w.nats.(listeners := w.nats.listeners + {st}, open := w.nats.open[st := Sub(w.nats.epoch, w.nats.breaks)])
  {
    hide Step;
    hide Works;
    var n, e := w.nats, w.nats.epoch;
    var n1 := n.(listeners := n.listeners + {st});
    var n2 := n1.(open := n.open[st := Sub(e, n.breaks)]);
    assert n2.open[st := Sub(e, n.breaks)] == n2.open;
    WorksTo(k, w, st, 0, n, Checking, n, ReadingEpoch);
    WorksTo(k, w, st, 1, n, ReadingEpoch, n, Registering(e));
    WorksTo(k, w, st, 2, n, Registering(e), n1, Subscribing(e));
    WorksTo(k, w, st, 3, n1, Subscribing(e), n2, Flushing(e));
    WorksTo(k, w, st, 4, n2, Flushing(e), n2, Confirming(e));
    WorksTo(k, w, st, 5, n2, Confirming(e), n2, Comparing(e));
    WorksTo(k, w, st, 6, n2, Comparing(e), n2, Obtained);
  }

  lemma WorksTo(k: Config, w: World, st: nat, done: nat, n: Nats, p: Prep, n': Nats, p': Prep)
    requires st in w.hub.states && st in w.preps && InSubscribe(p) && SubscribeNext(n, p, st, true) == (n', p')
    requires if done == 0 then w.nats == n && w.preps[st] == p else Works(k, w, st, done) == w.(nats := n, preps := w.preps[st := p])
    ensures Works(k, w, st, done + 1) == w.(nats := n', preps := w.preps[st := p'])
  {
    WorkOnce(k, Works(k, w, st, done), st);
    hide Step;
    hide SubscribeNext;
    assert w.preps[st := p][st := p'] == w.preps[st := p'];
  }

  /** A new connection of a healthy, undisturbed gateway gets its subscription and its
      ready frame. */
  lemma UndisturbedConnectionBecomesReady(k: Config, w: World, c: nat)
    requires Healthy(w.nats) && !w.hub.draining && c in w.hub.clients && c in w.hub.conns && w.hub.conns[c].phase.Preparing?
    requires w.hub.conns[c].state in w.hub.states && w.hub.conns[c].state !in w.preps
    requires var s := w.hub.states[w.hub.conns[c].state]; !s.started && !s.failed && s.clients != {}
    ensures
      var st := w.hub.conns[c].state;
      var w1 := Works(k, Step(k, w, Prepare(c)), st, 9);
      var w2 := Step(k, Step(k, w1, Clear(c)), Activate(c));
      && c in w2.hub.conns && w2.hub.conns[c].phase.Active? && w2.hub.wait == w.hub.wait
      && st in w2.nats.listeners && st in w2.nats.open && w2.nats.open[st] == Sub(w.nats.epoch, w.nats.breaks)
  {
    var st := w.hub.conns[c].state;
    var w0 := Step(k, w, Prepare(c));
    assert w0.preps[st].Checking? && w0.nats == w.nats && w0.hub.states[st] == w.hub.states[st].(started := true);
    UndisturbedSubscribeSucceeds(k, w0, st);
    var w7 := Works(k, w0, st, 7);
    assert w7.hub == w0.hub && w7.preps[st] == Obtained;
    KeepsWhatItObtained(k, w7, st);
    var w9 := Works(k, w0, st, 9);
    assert Works(k, w0, st, 8) == Step(k, w7, Work(st, true));
    assert w9 == Step(k, Step(k, w7, Work(st, true)), Work(st, true));
    hide Works;
    ReadyIsTold(k, w9, c);
    hide Step;
  }

  lemma ReadyIsTold(k: Config, w: World, c: nat)
    requires CanClear(w, c)
    ensures
      var w' := Step(k, Step(k, w, Clear(c)), Activate(c));
      && w' == w.(hub := w'.hub) && w'.hub == w.hub.(conns := w'.hub.conns)
      && c in w'.hub.conns && w'.hub.conns[c] == w.hub.conns[c].(phase := Active)
  {
  }

  lemma KeepsWhatItObtained(k: Config, w: World, st: nat)
    requires st in w.preps && w.preps[st].Obtained? && st in w.hub.states && Wanted(w.hub, st, Healthy(w.nats))
    ensures
      var w' := Step(k, Step(k, w, Work(st, true)), Work(st, true));
      && w'.nats == w.nats
      && w'.hub == w.hub.(states := w.hub.states[st := w.hub.states[st].(finished := true, sub := true)], wait := w.hub.wait - 1)
  {
    hide SubscribeNext;
    hide Healthy;
    hide Wanted;
    var w1 := Step(k, w, Work(st, true));
    assert w1.hub == FinishIn(w.hub, st, true) && w1.preps[st].Leaving? && w1.nats == w.nats;
  }
}
