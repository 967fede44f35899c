// The realtime gateway's bookkeeping: connections, their users' states (one
// generation after another), limits and the shutdown's wait count.

module Gateway {
  import opened Common
  import Instants

  datatype Config = Config(maxConnections: nat, maxPerUser: nat)

  datatype Phase = Preparing | Cleared | Active

  /** A connection: its user, the user state it joined, whether its close was
      requested, and how far it came. */
  datatype Conn = Conn(user: string, state: nat, stop: bool, phase: Phase)

  /** One generation of a user's subscription. `finished` is the closed ready
      channel; a finished state without subscription has an error. */
  datatype UserState = UserState(user: string, clients: set<nat>, started: bool, failed: bool, finished: bool, sub: bool)

  datatype Window = Window(at: int, count: nat)

  /** What the gateway's lock guards; `states` and `conns` also keep those that left. */
  datatype Hub = Hub(users: map<string, nat>, states: map<nat, UserState>, conns: map<nat, Conn>, clients: set<nat>,
                     perUser: map<string, nat>, attempts: map<string, Window>, draining: bool, wait: int)

  datatype Refusal = Unavailable | ConnectionLimit

  function CountOf(h: Hub, user: string): nat {
    if user in h.perUser then h.perUser[user] else 0
  }

  /** The attempt window a reservation at `now` counts in. */
  function WindowAt(h: Hub, user: string, now: int): Window {
    var w := if user in h.attempts then h.attempts[user] else Window(0, 0);
    if now - w.at >= Instants.MINUTE then Window(now, 0) else w
  }

  function Refused(k: Config, h: Hub, user: string, now: int, healthy: bool): Option<Refusal> {
    if h.draining || !healthy then Some(Unavailable)
    else if |h.clients| >= k.maxConnections || CountOf(h, user) >= k.maxPerUser then Some(ConnectionLimit)
    else if WindowAt(h, user, now).count >= k.maxPerUser * 6 then Some(ConnectionLimit)
    else if WindowAt(h, user, now).count == 0 && |h.attempts| >= k.maxConnections * 4 then Some(ConnectionLimit)
    else None
  }

  /** The state a new connection joins: the user's current one unless it failed. */
  function Joins(h: Hub, user: string, generation: nat): nat {
    if user in h.users && h.users[user] in h.states && !h.states[h.users[user]].failed then h.users[user] else generation
  }

  function Joined(h: Hub, user: string, st: nat, c: nat): UserState {
    if st in h.states then h.states[st].(clients := h.states[st].clients + {c})
    else UserState(user, {c}, false, false, false, false)
  }

  function AdmitIn(h: Hub, user: string, c: nat, st: nat, s: UserState, w: Window): Hub {
    Hub(h.users[user := st], h.states[st := s], h.conns[c := Conn(user, st, false, Preparing)], h.clients + {c},
        h.perUser[user := CountOf(h, user) + 1], h.attempts[user := w], h.draining, h.wait + 1)
  }

  /** A reservation that is not refused; `c` and `generation` are new identities. */
  function ReserveIn(h: Hub, user: string, c: nat, generation: nat, now: int): Hub {
    var st := Joins(h, user, generation);
    var w := WindowAt(h, user, now);
    AdmitIn(h, user, c, st, Joined(h, user, st, c), w.(count := w.count + 1))
  }

  /** The locked part of a release, and the subscription left to close. */
  function ReleaseIn(h: Hub, c: nat): (Hub, Option<nat>)
    requires c in h.conns
  {
    var user, st := h.conns[c].user, h.conns[c].state;
    var left := if st in h.states then h.states[st].clients - {c} else {};
    var count := CountOf(h, user) - 1;
    (h.(clients := h.clients - {c},
        perUser := if count <= 0 then h.perUser - {user} else h.perUser[user := count],
        states := if st in h.states then h.states[st := h.states[st].(clients := left)] else h.states,
        users := if left == {} && user in h.users && h.users[user] == st then h.users - {user} else h.users),
     if left == {} && st in h.states && h.states[st].sub then Some(st) else None)
  }

  predicate CanPrepare(h: Hub, st: nat) {
    st in h.states && !h.states[st].started && !h.draining
  }

  function PrepareIn(h: Hub, st: nat): Hub
    requires st in h.states
  {
    h.(states := h.states[st := h.states[st].(started := true)], wait := h.wait + 1)
  }

  /** Whether a subscription obtained for the state is still wanted. */
  predicate Wanted(h: Hub, st: nat, healthy: bool)
    requires st in h.states
  {
    h.states[st].clients != {} && !h.draining && !h.states[st].failed && healthy
  }

  /** The locked end of a preparation: keep the subscription, or record the failure. */
  function FinishIn(h: Hub, st: nat, keep: bool): Hub
    requires st in h.states
  {
    var s := h.states[st];
    h.(states := h.states[st := s.(finished := true, sub := if keep then true else s.sub, failed := s.failed || !keep)])
  }

  function FailUserIn(h: Hub, st: nat): Hub
    requires st in h.states
  {
    h.(states := h.states[st := h.states[st].(failed := true)])
  }

  function ShutdownIn(h: Hub): Hub {
    h.(draining := true,
       states := map st | st in h.states ::
         if h.states[st].user in h.users && h.users[h.states[st].user] == st then h.states[st].(failed := true) else h.states[st])
  }

  function StopIn(h: Hub, c: nat): Hub {
    if c in h.conns then h.(conns := h.conns[c := h.conns[c].(stop := true)]) else h
  }

  function StopAllIn(h: Hub, cs: set<nat>): Hub {
    h.(conns := map c | c in h.conns :: if c in cs then h.conns[c].(stop := true) else h.conns[c])
  }

  /** Asking a set of connections to close is asking each, in whatever order. */
  lemma StopAllIsStopEach(h: Hub, cs: set<nat>, c: nat)
    ensures StopAllIn(h, {}) == h && StopAllIn(h, cs + {c}) == StopIn(StopAllIn(h, cs), c)
  {
    assert StopAllIn(h, {}).conns == h.conns;
    assert StopAllIn(h, cs + {c}).conns == StopIn(StopAllIn(h, cs), c).conns;
  }

  function PhaseIn(h: Hub, c: nat, phase: Phase): Hub {
    if c in h.conns then h.(conns := h.conns[c := h.conns[c].(phase := phase)]) else h
  }

  /** The session monitor drops attempt windows that are over. */
  function PruneIn(h: Hub, now: int): Hub {
    h.(attempts := map u | u in h.attempts && now - h.attempts[u].at < Instants.MINUTE :: h.attempts[u])
  }

  // ----- What always holds ---------------------------------------------------------------

  /** The live connections of a user. */
  function LiveOf(conns: map<nat, Conn>, clients: set<nat>, user: string): set<nat> {
    set c | c in clients && c in conns && conns[c].user == user
  }

  ghost predicate CountedFor(conns: map<nat, Conn>, clients: set<nat>, perUser: map<string, nat>, user: string) {
    if user in perUser then perUser[user] == |LiveOf(conns, clients, user)| && perUser[user] > 0 else LiveOf(conns, clients, user) == {}
  }

  /** perUser counts the live connections, with no zero entries. */
  ghost predicate Counted(conns: map<nat, Conn>, clients: set<nat>, perUser: map<string, nat>) {
    && (forall c :: c in clients ==> c in conns)
    && (forall u :: CountedFor(conns, clients, perUser, u))
  }

  ghost predicate WithinLimits(k: Config, h: Hub) {
    && |h.clients| <= k.maxConnections
    && (forall u :: u in h.perUser ==> h.perUser[u] <= k.maxPerUser)
    && |h.attempts| <= k.maxConnections * 4
    && (forall u :: u in h.attempts ==> 1 <= h.attempts[u].count <= k.maxPerUser * 6)
  }

  /** Connections and states know each other. */
  ghost predicate Members(conns: map<nat, Conn>, clients: set<nat>, states: map<nat, UserState>) {
    && (forall c :: c in clients ==> c in conns && conns[c].state in states && c in states[conns[c].state].clients)
    && (forall st, c :: st in states && c in states[st].clients ==>
          c in clients && c in conns && conns[c].state == st && conns[c].user == states[st].user)
  }

  /** A current state has connections, and a state with connections that has not
      failed is its user's current one. */
  ghost predicate Current(users: map<string, nat>, states: map<nat, UserState>) {
    && (forall u :: u in users ==> users[u] in states && states[users[u]].user == u && states[users[u]].clients != {})
    && (forall st :: st in states && states[st].clients != {} && !states[st].failed ==>
          states[st].user in users && users[states[st].user] == st)
  }

  ghost predicate Linked(h: Hub) {
    Members(h.conns, h.clients, h.states) && Current(h.users, h.states)
  }

  ghost predicate Sound(k: Config, h: Hub) {
    Counted(h.conns, h.clients, h.perUser) && WithinLimits(k, h) && Linked(h)
  }

  lemma JoiningKeepsCounted(conns: map<nat, Conn>, clients: set<nat>, perUser: map<string, nat>, c: nat, conn: Conn)
    requires Counted(conns, clients, perUser) && c !in conns && c !in clients
    ensures Counted(conns[c := conn], clients + {c}, perUser[conn.user := (if conn.user in perUser then perUser[conn.user] else 0) + 1])
  {
    var conns', clients' := conns[c := conn], clients + {c};
    var perUser' := perUser[conn.user := (if conn.user in perUser then perUser[conn.user] else 0) + 1];
    hide CountedFor;
    forall u ensures CountedFor(conns', clients', perUser', u) {
      assert LiveOf(conns', clients', u) == LiveOf(conns, clients, u) + (if u == conn.user then {c} else {});
      CountGrows(conns, clients, perUser, conns', clients', perUser', u, c, u == conn.user);
    }
  }

  lemma CountGrows(conns: map<nat, Conn>, clients: set<nat>, perUser: map<string, nat>,
                   conns': map<nat, Conn>, clients': set<nat>, perUser': map<string, nat>, u: string, c: nat, grows: bool)
    requires CountedFor(conns, clients, perUser, u) && c !in clients
    requires LiveOf(conns', clients', u) == LiveOf(conns, clients, u) + (if grows then {c} else {})
    requires grows ==> u in perUser' && perUser'[u] == (if u in perUser then perUser[u] else 0) + 1
    requires !grows ==> (u in perUser' <==> u in perUser) && (u in perUser ==> perUser'[u] == perUser[u])
    ensures CountedFor(conns', clients', perUser', u)
  {
  }

  lemma LeavingKeepsCounted(conns: map<nat, Conn>, clients: set<nat>, perUser: map<string, nat>, c: nat)
    requires Counted(conns, clients, perUser) && c in clients
    ensures
      var user := conns[c].user;
      && user in perUser
      && Counted(conns, clients - {c}, if perUser[user] <= 1 then perUser - {user} else perUser[user := perUser[user] - 1])
  {
    var user := conns[c].user;
    assert c in LiveOf(conns, clients, user);
    assert CountedFor(conns, clients, perUser, user);
    var perUser' := if perUser[user] <= 1 then perUser - {user} else perUser[user := perUser[user] - 1];
    forall u ensures CountedFor(conns, clients - {c}, perUser', u) {
      assert CountedFor(conns, clients, perUser, u);
      assert LiveOf(conns, clients - {c}, u) == LiveOf(conns, clients, u) - (if u == user then {c} else {});
      hide LiveOf;
      if u == user {
        assert |LiveOf(conns, clients, u)| == |LiveOf(conns, clients - {c}, u)| + 1;
      }
    }
  }

  lemma ReserveKeepsSound(k: Config, h: Hub, user: string, c: nat, generation: nat, now: int, healthy: bool)
    requires Sound(k, h) && Refused(k, h, user, now, healthy) == None && c !in h.conns && generation !in h.states
    ensures Sound(k, ReserveIn(h, user, c, generation, now))
  {
    hide Linked;
    hide WithinLimits;
    hide Joins;
    var st := Joins(h, user, generation);
    assert c !in h.clients;
    JoiningKeepsCounted(h.conns, h.clients, h.perUser, c, Conn(user, st, false, Preparing));
    ReserveKeepsLimits(k, h, user, c, generation, now, healthy);
    ReserveKeepsLinked(h, user, c, generation, now);
    hide Counted;
    hide Refused;
  }

  lemma ReserveKeepsLimits(k: Config, h: Hub, user: string, c: nat, generation: nat, now: int, healthy: bool)
    requires WithinLimits(k, h) && Refused(k, h, user, now, healthy) == None && c !in h.clients
    ensures WithinLimits(k, ReserveIn(h, user, c, generation, now))
  {
    var h' := ReserveIn(h, user, c, generation, now);
    assert h'.attempts.Keys == h.attempts.Keys + {user};
    if user !in h.attempts {
      assert |h'.attempts| == |h.attempts| + 1;
    } else {
      assert h'.attempts.Keys == h.attempts.Keys;
    }
  }

  lemma ReserveKeepsLinked(h: Hub, user: string, c: nat, generation: nat, now: int)
    requires Linked(h) && c !in h.conns && c !in h.clients && generation !in h.states
    ensures Linked(ReserveIn(h, user, c, generation, now))
  {
    var st := Joins(h, user, generation);
    JoiningKeepsMembers(h.conns, h.clients, h.states, c, Conn(user, st, false, Preparing), Joined(h, user, st, c));
    JoiningKeepsCurrent(h, user, st, c);
  }

  lemma JoiningKeepsMembers(conns: map<nat, Conn>, clients: set<nat>, states: map<nat, UserState>, c: nat, conn: Conn, s: UserState)
    requires Members(conns, clients, states) && c !in conns && c !in clients
    requires s.user == conn.user
    requires if conn.state in states then s == states[conn.state].(clients := states[conn.state].clients + {c}) else s.clients == {c}
    ensures Members(conns[c := conn], clients + {c}, states[conn.state := s])
  {
  }

  lemma JoiningKeepsCurrent(h: Hub, user: string, st: nat, c: nat)
    requires Current(h.users, h.states)
    requires st in h.states ==> user in h.users && h.users[user] == st && !h.states[st].failed
    requires st !in h.states ==> user in h.users ==> h.states[h.users[user]].failed
    ensures Current(h.users[user := st], h.states[st := Joined(h, user, st, c)])
  {
  }

  lemma ReleaseKeepsSound(k: Config, h: Hub, c: nat)
    requires Sound(k, h) && c in h.clients
    ensures Sound(k, ReleaseIn(h, c).0)
  {
    ReleaseKeepsLinked(h, c);
    hide Linked;
    LeavingKeepsCounted(h.conns, h.clients, h.perUser, c);
    ReleaseKeepsLimits(k, h, c);
    hide Counted;
    hide WithinLimits;
  }

  lemma ReleaseKeepsLimits(k: Config, h: Hub, c: nat)
    requires WithinLimits(k, h) && c in h.conns && c in h.clients
    ensures WithinLimits(k, ReleaseIn(h, c).0)
  {
    assert |h.clients - {c}| == |h.clients| - 1;
  }

  lemma ReleaseKeepsLinked(h: Hub, c: nat)
    requires Linked(h) && c in h.clients
    ensures Linked(ReleaseIn(h, c).0)
  {
    LeavingKeepsMembers(h.conns, h.clients, h.states, c);
    LeavingKeepsCurrent(h.users, h.states, h.conns[c].user, h.conns[c].state, c);
  }

  lemma LeavingKeepsMembers(conns: map<nat, Conn>, clients: set<nat>, states: map<nat, UserState>, c: nat)
    requires Members(conns, clients, states) && c in clients
    ensures var st := conns[c].state; Members(conns, clients - {c}, states[st := states[st].(clients := states[st].clients - {c})])
  {
  }

  lemma LeavingKeepsCurrent(users: map<string, nat>, states: map<nat, UserState>, user: string, st: nat, c: nat)
    requires Current(users, states) && st in states && states[st].user == user
    ensures
      var left := states[st].clients - {c};
      Current(if left == {} && user in users && users[user] == st then users - {user} else users,
              states[st := states[st].(clients := left)])
  {
  }

  /** Changes that leave the membership as it is. */
  lemma FlagsKeepSound(k: Config, h: Hub, h': Hub)
    requires Sound(k, h)
    requires h'.users == h.users && h'.clients == h.clients && h'.perUser == h.perUser && h'.attempts == h.attempts
    requires h'.states.Keys == h.states.Keys && h'.conns.Keys == h.conns.Keys
    requires forall st :: st in h.states ==>
      h'.states[st].user == h.states[st].user && h'.states[st].clients == h.states[st].clients
      && (h.states[st].failed ==> h'.states[st].failed)
    requires forall c :: c in h.conns ==> h'.conns[c].user == h.conns[c].user && h'.conns[c].state == h.conns[c].state
    ensures Sound(k, h')
  {
    forall u ensures CountedFor(h'.conns, h'.clients, h'.perUser, u) {
      assert CountedFor(h.conns, h.clients, h.perUser, u);
      assert LiveOf(h'.conns, h'.clients, u) == LiveOf(h.conns, h.clients, u);
    }
    FlagsKeepLinked(h, h');
    hide Linked;
    hide CountedFor;
  }

  lemma FlagsKeepLinked(h: Hub, h': Hub)
    requires Linked(h)
    requires h'.users == h.users && h'.clients == h.clients
    requires h'.states.Keys == h.states.Keys && h'.conns.Keys == h.conns.Keys
    requires forall st :: st in h.states ==>
      h'.states[st].user == h.states[st].user && h'.states[st].clients == h.states[st].clients
      && (h.states[st].failed ==> h'.states[st].failed)
    requires forall c :: c in h.conns ==> h'.conns[c].user == h.conns[c].user && h'.conns[c].state == h.conns[c].state
    ensures Linked(h')
  {
  }

  lemma PruneKeepsSound(k: Config, h: Hub, now: int)
    requires Sound(k, h)
    ensures Sound(k, PruneIn(h, now))
  {
    hide Linked;
    hide Counted;
    var h' := PruneIn(h, now);
    assert Linked(h') by { FlagsKeepLinked(h, h'); }
    assert h'.attempts.Keys <= h.attempts.Keys;
    SubsetIsSmaller(h'.attempts.Keys, h.attempts.Keys);
    assert |h'.attempts| == |h'.attempts.Keys| && |h.attempts| == |h.attempts.Keys|;
  }

  lemma {:induction false} SubsetIsSmaller(a: set<string>, b: set<string>)
    requires a <= b
    ensures |a| <= |b|
  {
    if a != {} {
      var x :| x in a;
      SubsetIsSmaller(a - {x}, b - {x});
    }
  }

  lemma PrepareKeepsSound(k: Config, h: Hub, st: nat)
    requires Sound(k, h) && st in h.states
    ensures Sound(k, PrepareIn(h, st))
  {
    hide Sound;
    FlagsKeepSound(k, h, PrepareIn(h, st));
  }

  lemma FinishKeepsSound(k: Config, h: Hub, st: nat, keep: bool)
    requires Sound(k, h) && st in h.states
    ensures Sound(k, FinishIn(h, st, keep))
  {
    hide Sound;
    FlagsKeepSound(k, h, FinishIn(h, st, keep));
  }

  lemma FailUserKeepsSound(k: Config, h: Hub, st: nat)
    requires Sound(k, h) && st in h.states
    ensures Sound(k, FailUserIn(h, st))
  {
    hide Sound;
    FlagsKeepSound(k, h, FailUserIn(h, st));
  }

  lemma ShutdownKeepsSound(k: Config, h: Hub)
    requires Sound(k, h)
    ensures Sound(k, ShutdownIn(h))
  {
    hide Sound;
    FlagsKeepSound(k, h, ShutdownIn(h));
  }

  lemma StoppingKeepsSound(k: Config, h: Hub, cs: set<nat>)
    requires Sound(k, h)
    ensures Sound(k, StopAllIn(h, cs))
  {
    hide Sound;
    FlagsKeepSound(k, h, StopAllIn(h, cs));
  }

  lemma StopKeepsSound(k: Config, h: Hub, c: nat)
    requires Sound(k, h)
    ensures Sound(k, StopIn(h, c))
  {
    hide Sound;
    FlagsKeepSound(k, h, StopIn(h, c));
  }

  lemma PhaseKeepsSound(k: Config, h: Hub, c: nat, phase: Phase)
    requires Sound(k, h)
    ensures Sound(k, PhaseIn(h, c, phase))
  {
    hide Sound;
    FlagsKeepSound(k, h, PhaseIn(h, c, phase));
  }

  /** Entering the state that CurrentState leaves is joining the state as it was. */
  lemma JoinedIs(h: Hub, user: string, st: nat, c: nat, states: map<nat, UserState>)
    requires states == if st in h.states then h.states else h.states[st := UserState(user, {}, false, false, false, false)]
    ensures st in states && states[st].(clients := states[st].clients + {c}) == Joined(h, user, st, c)
    ensures states[st := Joined(h, user, st, c)] == h.states[st := Joined(h, user, st, c)]
  {
    assert {} + {c} == {c};
  }

  lemma LeavingIsCounted(k: Config, h: Hub, c: nat)
    requires Sound(k, h) && c in h.clients
    ensures c in h.conns && h.conns[c].state in h.states
    ensures h.conns[c].user in h.perUser && h.perUser[h.conns[c].user] > 0
  {
    LeavingKeepsCounted(h.conns, h.clients, h.perUser, c);
    assert CountedFor(h.conns, h.clients, h.perUser, h.conns[c].user);
  }

  lemma ClientsAreConns(k: Config, h: Hub, st: nat)
    requires Sound(k, h)
    ensures forall c :: c in h.clients ==> c in h.conns
    ensures st in h.states ==> forall c :: c in h.states[st].clients ==> c in h.conns
    ensures forall u :: u in h.users ==> h.users[u] in h.states && h.states[h.users[u]].user == u
  {
  }

  // ----- The gateway's methods ---------------------------------------------------------------

  class Gateway {
    const config: Config
    var users: map<string, nat>
    var states: map<nat, UserState>
    var conns: map<nat, Conn>
    var clients: set<nat>
    var perUser: map<string, nat>
    var attempts: map<string, Window>
    var draining: bool
    var wait: int

    constructor (config: Config)
      ensures this.config == config && Now() == Hub(map[], map[], map[], {}, map[], map[], false, 0)
    {
      this.config := config;
      users, states, conns, clients, perUser, attempts, draining, wait := map[], map[], map[], {}, map[], map[], false, 0;
    }

    function Now(): Hub
      reads this
    {
      Hub(users, states, conns, clients, perUser, attempts, draining, wait)
    }

    method Reserve(user: string, c: nat, generation: nat, now: int, healthy: bool) returns (r: Result<nat, Refusal>)
      requires Sound(config, Now()) && c !in conns && generation !in states
      modifies this
      ensures Sound(config, Now())
      ensures
        match Refused(config, old(Now()), user, now, healthy)
        case Some(refusal) => r == Err(refusal) && Now() == old(Now())
        case None => r == Ok(Joins(old(Now()), user, generation)) && Now() == ReserveIn(old(Now()), user, c, generation, now)
    {
      hide Sound;
      ghost var before := Now();
      if draining || !healthy {
        return Err(Unavailable);
      }
      var count := if user in perUser then perUser[user] else 0;
      if |clients| >= config.maxConnections || count >= config.maxPerUser {
        return Err(ConnectionLimit);
      }
      var window := if user in attempts then attempts[user] else Window(0, 0);
      if now - window.at >= Instants.MINUTE {
        window := Window(now, 0);
      }
      if window.count >= config.maxPerUser * 6 {
        return Err(ConnectionLimit);
      }
      if window.count == 0 && |attempts| >= config.maxConnections * 4 {
        return Err(ConnectionLimit);
      }
      ReserveKeepsSound(config, before, user, c, generation, now, healthy);
      var st := Admit(user, c, generation, window);
      r := Ok(st);
    }

    /** The part of a reservation behind its checks. */
    method Admit(user: string, c: nat, generation: nat, window: Window) returns (st: nat)
      requires generation !in states
      modifies this
      ensures st == Joins(old(Now()), user, generation)
      ensures Now() == AdmitIn(old(Now()), user, c, st, Joined(old(Now()), user, st, c), Window(window.at, window.count + 1))
    {
      hide Joins;
      ghost var before := Now();
      st := CurrentState(user, generation);
      JoinedIs(before, user, st, c, states);
      hide Joined;
      Enter(user, c, st, Window(window.at, window.count + 1));
    }

    method Enter(user: string, c: nat, st: nat, window: Window)
      requires st in states
      modifies this
      ensures
        var h, s := old(Now()), old(states)[st];
        Now() == AdmitIn(h, user, c, st, s.(clients := s.clients + {c}), window).(users := h.users)
    {
      attempts := attempts[user := window];
      conns := conns[c := Conn(user, st, false, Preparing)];
      states := states[st := states[st].(clients := states[st].clients + {c})];
      clients := clients + {c};
      perUser := perUser[user := (if user in perUser then perUser[user] else 0) + 1];
      wait := wait + 1;
    }

    /** The user's current state, or a new generation if there is none or it failed. */
    method CurrentState(user: string, generation: nat) returns (st: nat)
      requires generation !in states
      modifies this`users, this`states
      ensures st == Joins(old(Now()), user, generation) && st in states && users == old(users)[user := st]
      ensures states == if st in old(states) then old(states) else old(states)[st := UserState(user, {}, false, false, false, false)]
    {
      if user in users && users[user] in states && !states[users[user]].failed {
        st := users[user];
        assert users == users[user := st];
      } else {
        st := generation;
        states := states[st := UserState(user, {}, false, false, false, false)];
        users := users[user := st];
      }
    }

    /** The locked part, once per connection; the caller closes the returned subscription and then
        lowers the wait count. */
    method Release(c: nat) returns (sub: Option<nat>)
      requires Sound(config, Now())
      modifies this
      ensures Sound(config, Now())
      ensures if c in old(clients) then (Now(), sub) == ReleaseIn(old(Now()), c) else Now() == old(Now()) && sub == None
    {
      if c !in clients {
        return None;
      }
      LeavingIsCounted(config, Now(), c);
      ReleaseKeepsSound(config, Now(), c);
      hide Sound;
      sub := Leave(c);
    }

    method Leave(c: nat) returns (sub: Option<nat>)
      requires c in conns && conns[c].state in states && conns[c].user in perUser && perUser[conns[c].user] > 0
      modifies this
      ensures (Now(), sub) == ReleaseIn(old(Now()), c)
    {
      var user, st := conns[c].user, conns[c].state;
      clients := clients - {c};
      LowerCount(user);
      states := states[st := states[st].(clients := states[st].clients - {c})];
      sub := None;
      if states[st].clients == {} {
        sub := if states[st].sub then Some(st) else None;
        if user in users && users[user] == st {
          users := users - {user};
        }
      }
    }

    method LowerCount(user: string)
      requires user in perUser && perUser[user] > 0
      modifies this`perUser
      ensures perUser == if old(perUser)[user] == 1 then old(perUser) - {user} else old(perUser)[user := old(perUser)[user] - 1]
    {
      ghost var before := perUser;
      perUser := perUser[user := perUser[user] - 1];
      if perUser[user] == 0 {
        perUser := perUser - {user};
        assert perUser == before - {user};
      }
    }

    method Prepare(st: nat) returns (begun: bool)
      requires Sound(config, Now()) && st in states
      modifies this
      ensures Sound(config, Now()) && begun == CanPrepare(old(Now()), st)
      ensures Now() == if begun then PrepareIn(old(Now()), st) else old(Now())
    {
      hide Sound;
      if states[st].started || draining {
        return false;
      }
      PrepareKeepsSound(config, Now(), st);
      states := states[st := states[st].(started := true)];
      wait := wait + 1;
      begun := true;
    }

    /** After Subscribe returned: keep what it obtained, if anybody still wants it.
        The caller closes an obtained subscription that is not kept. */
    method Finish(st: nat, obtained: bool, healthy: bool) returns (close: bool)
      requires Sound(config, Now()) && st in states
      modifies this
      ensures Sound(config, Now())
      ensures
        var keep := obtained && Wanted(old(Now()), st, healthy);
        Now() == FinishIn(old(Now()), st, keep) && close == (obtained && !keep)
      ensures
        var s := old(states[st]);
        && close == (obtained && (!healthy || old(draining) || s.failed || s.clients == {}))
        && st in states && states[st].finished && states[st].clients == s.clients
        && states[st].sub == (s.sub || (obtained && !close)) && states[st].failed == (s.failed || close || !obtained)
    {
      hide Sound;
      ghost var before := Now();
      FinishKeepsSound(config, before, st, obtained && Wanted(before, st, healthy));
      var abandoned := states[st].clients == {} || draining || states[st].failed || !healthy;
      var failed := !obtained || abandoned;
      var s := states[st];
      if !failed {
        s := s.(sub := true);
      } else {
        s := s.(failed := true);
      }
      states := states[st := s.(finished := true)];
      close := failed && obtained;
    }

    /** Asks connections to close, one by one. */
    method RequestCloses(cs: set<nat>)
      requires forall c :: c in cs ==> c in conns
      modifies this`conns
      ensures Now() == StopAllIn(old(Now()), cs)
    {
      ghost var before := conns;
      var left := cs;
      while left != {}
        invariant left <= cs && conns.Keys == before.Keys
        invariant forall c :: c in before ==> conns[c] == if c in cs && c !in left then before[c].(stop := true) else before[c]
        decreases |left|
      {
        var c :| c in left;
        conns := conns[c := conns[c].(stop := true)];
        left := left - {c};
      }
      assert conns == StopAllIn(old(Now()), cs).conns;
    }

    /** Fails a state for good and asks all its connections to close, one by one. */
    method FailUser(st: nat)
      requires Sound(config, Now()) && st in states
      modifies this
      ensures Sound(config, Now())
      ensures Now() == StopAllIn(FailUserIn(old(Now()), st), old(states)[st].clients)
    {
      ClientsAreConns(config, Now(), st);
      FailUserKeepsSound(config, Now(), st);
      StoppingKeepsSound(config, FailUserIn(Now(), st), states[st].clients);
      hide Sound;
      states := states[st := states[st].(failed := true)];
      RequestCloses(states[st].clients);
    }

    /** Draining: current states fail and every live connection is asked to close. */
    method Shutdown()
      requires Sound(config, Now())
      modifies this
      ensures Sound(config, Now())
      ensures Now() == StopAllIn(ShutdownIn(old(Now())), old(clients))
    {
      ClientsAreConns(config, Now(), 0);
      ShutdownKeepsSound(config, Now());
      StoppingKeepsSound(config, ShutdownIn(Now()), clients);
      hide Sound;
      ghost var before := Now();
      draining := true;
      FailCurrentStates();
      RequestCloses(clients);
    }

    method FailCurrentStates()
      requires forall u :: u in users ==> users[u] in states && states[users[u]].user == u
      modifies this`states
      ensures states == ShutdownIn(old(Now())).states
    {
      ghost var before := states;
      var todo := users.Keys;
      while todo != {}
        invariant todo <= users.Keys && states.Keys == before.Keys
        invariant forall st :: st in before ==>
          states[st] == if before[st].user in users && before[st].user !in todo && users[before[st].user] == st
                        then before[st].(failed := true) else before[st]
        decreases |todo|
      {
        var u :| u in todo;
        states := states[users[u] := states[users[u]].(failed := true)];
        todo := todo - {u};
      }
    }
  }
}
