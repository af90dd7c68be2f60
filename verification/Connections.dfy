/**
 * Temporary Cloudflare connections and the deployments bound to them.  Every handler reads in one step and
 * writes in another, and any number of handlers interleave; disconnecting and expiry may strike between the two.
 */
module Connections {
  import opened Options
  import opened Sorting

  const MAX_LIVE := 3

  /** A stored connection; `cipher` is the encrypted token, None once it is overwritten. */
  datatype Conn = Conn(tenant: nat, account: nat, zone: Option<nat>, cipher: Option<nat>, expires: Option<int>,
                       revoked: bool)

  datatype Dep = Dep(tenant: nat, account: nat, zone: nat, conn: nat)

  /** A handler between its checks and its write. */
  datatype Job =
    | Gated(tenant: nat)
    | Creating(tenant: nat, account: nat, zone: nat, conn: nat)
    | Rebinding(dep: nat, conn: nat)

  datatype State = State(
    conns: map<nat, Conn>, deps: map<nat, Dep>, jobs: map<nat, Job>,
    nextConn: nat, nextDep: nat, nextJob: nat, clock: int)

  const INIT := State(map[], map[], map[], 0, 0, 0, 0)

  datatype Action =
    | Gate(tenant: nat)
    | Connect(j: nat, account: nat, scope: Option<nat>, cipher: nat, expires: int)
    | Scrub(c: nat)
    | EraseExpired
    | CreateRead(tenant: nat, c: nat, account: nat, zone: nat)
    | CreateInsert(j: nat)
    | ReconnectRead(d: nat, c: nat)
    | SleeperRead(d: nat, c: nat)
    | RebindWrite(j: nat)
    | Delete(d: nat)
    | Abandon(j: nat)
    | Tick(now: int)

  // ----- reads -----

  /** `getConnection`: the tenant's own, not revoked. */
  predicate Usable(s: State, c: nat, tenant: nat) {
    c in s.conns && s.conns[c].tenant == tenant && !s.conns[c].revoked
  }

  predicate Unexpired(s: State, c: nat)
    requires c in s.conns
  {
    s.conns[c].expires.None? || s.conns[c].expires.value > s.clock
  }

  /** What the gate counts: connections of the tenant, not revoked and not expired. */
  predicate IsLive(conn: Conn, tenant: nat, now: int) {
    conn.tenant == tenant && !conn.revoked && conn.expires.Some? && conn.expires.value > now
  }

  ghost function Live(s: State, tenant: nat): set<nat> {
    set c | c in s.conns && IsLive(s.conns[c], tenant, s.clock)
  }

  /** Connects of the tenant that passed the gate and have not yet inserted. */
  ghost function Passed(s: State, tenant: nat): set<nat> {
    set j | j in s.jobs && s.jobs[j] == Gated(tenant)
  }

  ghost predicate Enabled(s: State, a: Action) {
    match a
    case Gate(tenant) => |Live(s, tenant)| < MAX_LIVE
    case Connect(j, _, _, _, _) => j in s.jobs && s.jobs[j].Gated?
    case Scrub(c) => c in s.conns
    case EraseExpired => true
    case CreateRead(tenant, c, account, zone) =>
      Usable(s, c, tenant) && s.conns[c].account == account && s.conns[c].zone == Some(zone) && Unexpired(s, c)
    case CreateInsert(j) => j in s.jobs && s.jobs[j].Creating?
    case ReconnectRead(d, c) =>
      d in s.deps && !Usable(s, s.deps[d].conn, s.deps[d].tenant) && Usable(s, c, s.deps[d].tenant)
      && s.conns[c].account == s.deps[d].account && s.conns[c].zone == Some(s.deps[d].zone) && Unexpired(s, c)
    case SleeperRead(d, c) =>
      d in s.deps && !Usable(s, s.deps[d].conn, s.deps[d].tenant) && Usable(s, c, s.deps[d].tenant)
      && s.conns[c].zone == Some(s.deps[d].zone)
    case RebindWrite(j) => j in s.jobs && s.jobs[j].Rebinding?
    case Delete(d) => d in s.deps
    case Abandon(j) => j in s.jobs
    case Tick(now) => now >= s.clock
  }

  /** A token is expired from the moment it names: it is not live, not usable for a new deployment, and is erased. */
  lemma ExpiredAtOnce(conn: Conn, s: State, c: nat, tenant: nat, account: nat, zone: nat)
    requires c in s.conns && s.conns[c] == conn && conn.expires == Some(s.clock)
    ensures !IsLive(conn, tenant, s.clock) && Erased(conn, s.clock).revoked
    ensures !Enabled(s, CreateRead(tenant, c, account, zone))
  {
  }

  // ----- writes -----

  function Scrubbed(conn: Conn): Conn {
    if conn.revoked then conn else conn.(cipher := None, expires := None, revoked := true)
  }

  function Erased(conn: Conn, now: int): Conn {
    if conn.expires.Some? && conn.expires.value <= now then Scrubbed(conn) else conn
  }

  function AllErased(conns: map<nat, Conn>, now: int): map<nat, Conn> {
    map c | c in conns :: Erased(conns[c], now)
  }

  function Began(s: State, job: Job): State {
    s.(jobs := s.jobs[s.nextJob := job], nextJob := s.nextJob + 1)
  }

  function Rebound(deps: map<nat, Dep>, d: nat, c: nat): map<nat, Dep> {
    if d in deps then deps[d := deps[d].(conn := c)] else deps
  }

  ghost function Next(s: State, a: Action): State
    requires Enabled(s, a)
  {
    match a
    case Gate(tenant) => Began(s, Gated(tenant))
    case Connect(j, account, scope, cipher, expires) =>
      s.(conns := s.conns[s.nextConn := Conn(s.jobs[j].tenant, account, scope, Some(cipher), Some(expires), false)],
         nextConn := s.nextConn + 1, jobs := s.jobs - {j})
    case Scrub(c) => s.(conns := s.conns[c := Scrubbed(s.conns[c])])
    case EraseExpired => s.(conns := AllErased(s.conns, s.clock))
    case CreateRead(tenant, c, account, zone) => Began(s, Creating(tenant, account, zone, c))
    case CreateInsert(j) =>
      var job := s.jobs[j];
      s.(deps := s.deps[s.nextDep := Dep(job.tenant, job.account, job.zone, job.conn)], nextDep := s.nextDep + 1,
         jobs := s.jobs - {j})
    case ReconnectRead(d, c) => Began(s, Rebinding(d, c))
    case SleeperRead(d, c) => Began(s, Rebinding(d, c))
    case RebindWrite(j) => s.(deps := Rebound(s.deps, s.jobs[j].dep, s.jobs[j].conn), jobs := s.jobs - {j})
    case Delete(d) => s.(deps := s.deps - {d})
    case Abandon(j) => s.(jobs := s.jobs - {j})
    case Tick(now) => s.(clock := now)
  }

  ghost predicate ValidRun(s: State, run: seq<Action>)
    decreases |run|
  {
    run == [] || (Enabled(s, run[0]) && ValidRun(Next(s, run[0]), run[1..]))
  }

  ghost function Final(s: State, run: seq<Action>): State
    requires ValidRun(s, run)
    decreases |run|
  {
    if run == [] then s else Final(Next(s, run[0]), run[1..])
  }

  // ----- every deployment stays with its own tenant and zone -----

  predicate Covers(s: State, c: nat, tenant: nat, zone: nat) {
    c in s.conns && s.conns[c].tenant == tenant && s.conns[c].zone == Some(zone)
  }

  predicate PendingOk(s: State, job: Job) {
    match job
    case Gated(_) => true
    case Creating(tenant, _, zone, c) => Covers(s, c, tenant, zone)
    case Rebinding(d, c) => d < s.nextDep && (d in s.deps ==> Covers(s, c, s.deps[d].tenant, s.deps[d].zone))
  }

  ghost predicate Bound(s: State) {
    && (forall d :: d in s.deps ==> d < s.nextDep && Covers(s, s.deps[d].conn, s.deps[d].tenant, s.deps[d].zone))
    && (forall j :: j in s.jobs ==> PendingOk(s, s.jobs[j]))
    && (forall c :: c in s.conns ==> c < s.nextConn)
  }

  /** No action changes the tenant or the zone of a connection. */
  ghost predicate SameOwners(s: State, t: State) {
    forall c :: c in s.conns ==>
      c in t.conns && t.conns[c].tenant == s.conns[c].tenant && t.conns[c].zone == s.conns[c].zone
  }

  lemma OwnersNeverChange(s: State, a: Action)
    requires Bound(s) && Enabled(s, a)
    ensures SameOwners(s, Next(s, a)) && forall c :: c in Next(s, a).conns ==> c < Next(s, a).nextConn
  {
  }

  lemma StepKeepsBound(s: State, a: Action)
    requires Bound(s) && Enabled(s, a)
    ensures Bound(Next(s, a))
  {
    OwnersNeverChange(s, a);
    var t := Next(s, a);
    forall d | d in t.deps ensures d < t.nextDep && Covers(t, t.deps[d].conn, t.deps[d].tenant, t.deps[d].zone) {
      if a.CreateInsert? && d == s.nextDep {
        assert PendingOk(s, s.jobs[a.j]);
      } else if a.RebindWrite? {
        assert PendingOk(s, s.jobs[a.j]);
      }
    }
    forall j | j in t.jobs ensures PendingOk(t, t.jobs[j]) {
      if j in s.jobs && j != s.nextJob { assert PendingOk(s, s.jobs[j]); }
    }
  }

  /** In every reachable state each deployment is bound to a connection of its own tenant and zone. */
  lemma {:induction false} DeploymentsStayBound(s: State, run: seq<Action>)
    requires Bound(s) && ValidRun(s, run)
    ensures Bound(Final(s, run))
    decreases |run|
  {
    if run != [] {
      StepKeepsBound(s, run[0]);
      DeploymentsStayBound(Next(s, run[0]), run[1..]);
    }
  }

  // ----- revoked connections -----

  ghost predicate Wiped(s: State) {
    (forall c :: c in s.conns ==> c < s.nextConn)
    && forall c :: c in s.conns && s.conns[c].revoked ==> s.conns[c].cipher.None? && s.conns[c].expires.None?
  }

  ghost predicate StillRevoked(s: State, t: State) {
    forall c :: c in s.conns && s.conns[c].revoked ==> c in t.conns && t.conns[c] == s.conns[c]
  }

  lemma StepKeepsWiped(s: State, a: Action)
    requires Wiped(s) && Enabled(s, a)
    ensures Wiped(Next(s, a)) && StillRevoked(s, Next(s, a))
  {
  }

  /** A revoked connection holds no ciphertext, and no continuation ever changes it again. */
  lemma {:induction false} RevokedIsFinal(s: State, run: seq<Action>)
    requires Wiped(s) && ValidRun(s, run)
    ensures Wiped(Final(s, run)) && StillRevoked(s, Final(s, run))
    decreases |run|
  {
    if run != [] {
      StepKeepsWiped(s, run[0]);
      RevokedIsFinal(Next(s, run[0]), run[1..]);
    }
  }

  // ----- the gate -----

  /** At most k connects of the tenant are ever between the gate and their insert. */
  ghost predicate OverlapAtMost(s: State, run: seq<Action>, tenant: nat, k: nat)
    requires ValidRun(s, run)
    decreases |run|
  {
    |Passed(s, tenant)| <= k && (run == [] || OverlapAtMost(Next(s, run[0]), run[1..], tenant, k))
  }

  lemma OneMore(a: set<nat>, b: set<nat>, x: nat)
    requires b <= a + {x}
    ensures |b| <= |a| + 1
  {
    SmallerSet(b, a + {x});
  }

  ghost predicate Fresh(s: State) {
    (forall c :: c in s.conns ==> c < s.nextConn) && forall j :: j in s.jobs ==> j < s.nextJob
  }

  lemma GateStep(s: State, a: Action, tenant: nat)
    requires Fresh(s) && Enabled(s, a) && a.Gate?
    ensures Fresh(Next(s, a)) && Live(Next(s, a), tenant) == Live(s, tenant)
    ensures tenant == a.tenant ==> |Live(Next(s, a), tenant)| < MAX_LIVE
    ensures tenant == a.tenant ==> Passed(Next(s, a), tenant) == Passed(s, tenant) + {s.nextJob}
    ensures tenant != a.tenant ==> Passed(Next(s, a), tenant) == Passed(s, tenant)
  {
    assert Live(Next(s, a), tenant) == Live(s, tenant);
    if tenant != a.tenant {
      assert Passed(Next(s, a), tenant) == Passed(s, tenant);
    } else {
      assert Passed(Next(s, a), tenant) == Passed(s, tenant) + {s.nextJob};
    }
  }

  lemma ConnectStep(s: State, a: Action, tenant: nat)
    requires Fresh(s) && Enabled(s, a) && a.Connect?
    ensures Fresh(Next(s, a))
    ensures |Live(Next(s, a), tenant)| + |Passed(Next(s, a), tenant)| <= |Live(s, tenant)| + |Passed(s, tenant)|
  {
    var t := Next(s, a);
    if s.jobs[a.j].tenant == tenant {
      assert s.jobs[a.j] == Gated(tenant);
      assert Passed(t, tenant) == Passed(s, tenant) - {a.j};
      OneMore(Live(s, tenant), Live(t, tenant), s.nextConn);
    } else {
      SmallerSet(Passed(t, tenant), Passed(s, tenant));
      assert Live(t, tenant) == Live(s, tenant);
    }
  }

  lemma OtherStep(s: State, a: Action, tenant: nat)
    requires Fresh(s) && Enabled(s, a) && !a.Gate? && !a.Connect?
    ensures Fresh(Next(s, a))
    ensures |Live(Next(s, a), tenant)| + |Passed(Next(s, a), tenant)| <= |Live(s, tenant)| + |Passed(s, tenant)|
  {
    var t := Next(s, a);
    assert Live(t, tenant) <= Live(s, tenant);
    SmallerSet(Live(t, tenant), Live(s, tenant));
    assert Passed(t, tenant) <= Passed(s, tenant);
    SmallerSet(Passed(t, tenant), Passed(s, tenant));
  }

  /**
   * The gate's real guarantee: with at most k overlapping connects a tenant has at most k + 2 live connections,
   * so the limit of three holds when they do not overlap.
   */
  lemma {:induction false} LiveAtMost(s: State, run: seq<Action>, tenant: nat, k: nat)
    requires Fresh(s) && ValidRun(s, run) && OverlapAtMost(s, run, tenant, k)
    requires |Live(s, tenant)| + |Passed(s, tenant)| <= k + 2
    ensures |Live(Final(s, run), tenant)| <= k + 2
    decreases |run|
  {
    if run != [] {
      var a, t := run[0], Next(s, run[0]);
      if a.Gate? {
        GateStep(s, a, tenant);
      } else if a.Connect? {
        ConnectStep(s, a, tenant);
      } else {
        OtherStep(s, a, tenant);
      }
      LiveAtMost(t, run[1..], tenant, k);
    }
  }

  lemma ThreeWhenSerial(run: seq<Action>, tenant: nat)
    requires ValidRun(INIT, run) && OverlapAtMost(INIT, run, tenant, 1)
    ensures |Live(Final(INIT, run), tenant)| <= 3
  {
    assert Live(INIT, tenant) == {} && Passed(INIT, tenant) == {};
    LiveAtMost(INIT, run, tenant, 1);
  }

  // ----- the limit is a check before an insert -----

  /** s runs through `run` to f, with at most k overlapping connects of the tenant. */
  ghost predicate Reaches(s: State, run: seq<Action>, f: State, tenant: nat, k: nat) {
    ValidRun(s, run) && Final(s, run) == f && OverlapAtMost(s, run, tenant, k)
  }

  lemma Prepend(s: State, a: Action, next: State, rest: seq<Action>, f: State, tenant: nat, k: nat)
    requires Enabled(s, a) && next == Next(s, a) && Reaches(next, rest, f, tenant, k) && |Passed(s, tenant)| <= k
    ensures Reaches(s, [a] + rest, f, tenant, k)
  {
    assert ([a] + rest)[1..] == rest;
  }

  lemma OnePasses(s: State, tenant: nat) returns (t: State)
    requires Fresh(s) && |Live(s, tenant)| < MAX_LIVE
    ensures Enabled(s, Gate(tenant)) && t == Next(s, Gate(tenant)) && Fresh(t)
    ensures |Live(t, tenant)| == |Live(s, tenant)| && |Passed(t, tenant)| == |Passed(s, tenant)| + 1
  {
    GateStep(s, Gate(tenant), tenant);
    t := Next(s, Gate(tenant));
    assert s.nextJob !in Passed(s, tenant);
  }

  lemma OneInserts(s: State, tenant: nat) returns (a: Action, t: State)
    requires Fresh(s) && Passed(s, tenant) != {}
    ensures Enabled(s, a) && t == Next(s, a) && Fresh(t)
    ensures |Live(t, tenant)| == |Live(s, tenant)| + 1 && |Passed(t, tenant)| == |Passed(s, tenant)| - 1
  {
    var j :| j in Passed(s, tenant);
    a := Connect(j, 0, None, 0, s.clock + 1);
    InsertStep(s, a, tenant);
    t := Next(s, a);
    assert s.nextConn !in Live(s, tenant);
  }

  lemma InsertStep(s: State, a: Action, tenant: nat)
    requires Fresh(s) && a.Connect? && a.j in s.jobs && s.jobs[a.j] == Gated(tenant) && a.expires > s.clock
    ensures Fresh(Next(s, a)) && Passed(Next(s, a), tenant) == Passed(s, tenant) - {a.j}
    ensures Live(Next(s, a), tenant) == Live(s, tenant) + {s.nextConn}
  {
    assert Passed(Next(s, a), tenant) == Passed(s, tenant) - {a.j};
    assert Live(Next(s, a), tenant) == Live(s, tenant) + {s.nextConn};
  }

  /** Everyone who passed may insert. */
  lemma {:induction false} AllInsert(s: State, tenant: nat, k: nat) returns (run: seq<Action>, f: State)
    requires Fresh(s) && |Passed(s, tenant)| <= k
    ensures Reaches(s, run, f, tenant, k) && |Live(f, tenant)| == |Live(s, tenant)| + |Passed(s, tenant)|
    decreases |Passed(s, tenant)|
  {
    if Passed(s, tenant) == {} {
      run, f := [], s;
    } else {
      var a, t := OneInserts(s, tenant);
      var rest;
      rest, f := AllInsert(t, tenant, k);
      Prepend(s, a, t, rest, f, tenant, k);
      run := [a] + rest;
    }
  }

  /** The bound is met: from fewer than three live, k connects that pass together all end up live. */
  lemma {:induction false} OverlapBreaksTheLimit(s: State, tenant: nat, k: nat) returns (run: seq<Action>, f: State)
    requires Fresh(s) && |Live(s, tenant)| == 2 && |Passed(s, tenant)| <= k
    ensures Reaches(s, run, f, tenant, k) && |Live(f, tenant)| == k + 2
    decreases k - |Passed(s, tenant)|
  {
    if |Passed(s, tenant)| == k {
      run, f := AllInsert(s, tenant, k);
    } else {
      var t := OnePasses(s, tenant);
      var rest;
      rest, f := OverlapBreaksTheLimit(t, tenant, k);
      Prepend(s, Gate(tenant), t, rest, f, tenant, k);
      run := [Gate(tenant)] + rest;
    }
  }

  // ----- the rows -----

  /** A deployment's connection, and whether its status is one of the six unfinished ones. */
  datatype Use = Use(conn: nat, unfinished: bool)

  class Registry {
    var conns: map<nat, Conn>
    var uses: map<nat, Use>

    /** `scrubConnection`. */
    method ScrubConnection(c: nat)
      modifies this`conns
      ensures c in old(conns) ==> conns == old(conns)[c := Scrubbed(old(conns)[c])] && conns[c].revoked
      ensures c in old(conns) && !old(conns)[c].revoked ==> conns[c].cipher.None? && conns[c].expires.None?
      ensures c !in old(conns) ==> conns == old(conns)
    {
      if c in conns && !conns[c].revoked {
        conns := conns[c := conns[c].(cipher := None, expires := None, revoked := true)];
      }
    }

    /** `eraseExpiredApiTokens`: afterwards nothing expired is usable, and what is unexpired is as it was. */
    method EraseExpiredApiTokens(now: int)
      modifies this`conns
      ensures conns == AllErased(old(conns), now)
      ensures conns.Keys == old(conns).Keys
      ensures forall c :: c in conns && conns[c].expires.Some? && !conns[c].revoked ==> conns[c].expires.value > now
      ensures forall c :: c in conns && (old(conns)[c].expires.None? || old(conns)[c].expires.value > now) ==>
        conns[c] == old(conns)[c]
      ensures forall c :: c in conns && old(conns)[c].expires.Some? && old(conns)[c].expires.value <= now ==>
        conns[c].revoked && (!old(conns)[c].revoked ==> conns[c].cipher.None? && conns[c].expires.None?)
    {
      conns := map c | c in conns ::
        if conns[c].expires.Some? && conns[c].expires.value <= now then Scrubbed(conns[c]) else conns[c];
    }

    /** The unfinished deployments that use the connection, but for the excluded one. */
    function Users(c: nat, excluding: nat): set<nat>
      reads this
    {
      set d | d in uses && uses[d].conn == c && uses[d].unfinished && d != excluding
    }

    /** `disconnectConnectionIfIdle`: scrubs exactly a live connection that no other unfinished deployment uses. */
    method DisconnectIfIdle(c: nat, excluding: nat) returns (done: bool)
      modifies this`conns
      ensures done <==> Users(c, excluding) == {} && c in old(conns) && !old(conns)[c].revoked
      ensures done ==> conns == old(conns)[c := Scrubbed(old(conns)[c])]
      ensures !done ==> conns == old(conns)
    {
      var count := |Users(c, excluding)|;
      if count > 0 || c !in conns || conns[c].revoked { return false; }
      ScrubConnection(c);
      done := true;
    }
  }
}
