/**
 * Bootstrap tokens: single-use under any interleaving of completions, rotations and deletions, good until the expiry
 * they were issued with and not after it, and enough to bring a created deployment to `ready`.
 */
module LifecycleBootstrap {
  import opened Options
  import opened Lifecycle
  import opened Scripts

  /** The action is a completion whose conditional UPDATE on `token` changes a row. */
  predicate Passes(s: State, a: Action, token: Token)
    requires Enabled(s, a)
  {
    a.CompleteConsume? && s.jobs[a.j].token == token && LiveToken(s, token)
  }

  /** How many completions get past the conditional UPDATE with `token` during the run. */
  function PassCount(s: State, acts: seq<Action>, token: Token): nat
    requires ValidRun(s, acts)
    decreases |acts|
  {
    if acts == [] then 0
    else (if Passes(s, acts[0], token) then 1 else 0) + PassCount(Next(s, acts[0]), acts[1..], token)
  }

  /** Uses the token can still have: one if it is yet to be drawn or is live, none once spent or superseded. */
  function UsesLeft(s: State, token: Token): nat {
    (if token >= s.nextToken then 1 else 0) + (if LiveToken(s, token) then 1 else 0)
  }

  lemma UsesStep(s: State, a: Action, token: Token)
    requires Enabled(s, a)
    ensures UsesLeft(Next(s, a), token) + (if Passes(s, a, token) then 1 else 0) <= UsesLeft(s, token)
  {
    assert Next(s, a).row == Outcome(s, a).row;
    if a.CompleteConsume? || a.ReissueWrite? || a.CreateInsert? {
    } else if Instance(a) {
      InstancesKeepBootstrap(s, a);
    } else {
      HandlersKeepBootstrap(s, a);
    }
  }

  /** The stored bootstrap token is kept or erased. */
  predicate KeepsBootstrap(row: Option<Deployment>, row': Option<Deployment>) {
    row'.Some? && row'.value.bootstrap.Some? ==> row.Some? && row'.value.bootstrap == row.value.bootstrap
  }

  lemma InstancesKeepBootstrap(s: State, a: Action)
    requires Enabled(s, a) && Instance(a)
    ensures KeepsBootstrap(s.row, InstanceOutcome(s, a).row)
  {
  }

  lemma HandlersKeepBootstrap(s: State, a: Action)
    requires Enabled(s, a) && !Instance(a) && !a.CompleteConsume? && !a.ReissueWrite? && !a.CreateInsert?
    ensures KeepsBootstrap(s.row, HandlerOutcome(s, a).row)
  {
  }

  /** Counterpart over runs: the count never exceeds the uses the token had left. */
  lemma {:induction false} PassesBounded(s: State, acts: seq<Action>, token: Token)
    requires ValidRun(s, acts)
    ensures PassCount(s, acts, token) <= UsesLeft(s, token)
    decreases |acts|
  {
    if acts != [] {
      UsesStep(s, acts[0], token);
      PassesBounded(Next(s, acts[0]), acts[1..], token);
    }
  }

  /** Each token lets at most one completion through, in every run of the whole system. */
  lemma BootstrapTokenIsSingleUse(acts: seq<Action>, token: Token)
    requires ValidRun(INIT, acts)
    ensures PassCount(INIT, acts, token) <= 1
  {
    PassesBounded(INIT, acts, token);
  }

  /**
   * Once a new token has been written over it, the old one never passes again, not even for a completion already
   * under way.
   */
  lemma SupersededTokenNeverPasses(s: State, j: JobId, expires: nat, after: seq<Action>, token: Token)
    requires Enabled(s, ReissueWrite(j, expires)) && Owns(s, s.jobs[j].id) && token < s.nextToken
    requires ValidRun(Next(s, ReissueWrite(j, expires)), after)
    ensures PassCount(Next(s, ReissueWrite(j, expires)), after, token) == 0
  {
    PassesBounded(Next(s, ReissueWrite(j, expires)), after, token);
  }

  // ----- expiry -----

  /** A completion's look at its token. */
  datatype Glance = Glance(token: Token, now: nat)

  /** What a run has shown: the expiry each token was issued with, and when each completion read its token. */
  datatype Log = Log(expiry: map<Token, nat>, looks: map<JobId, Glance>)

  /** The token of the row's bootstrap record after the action. */
  function TokenAfter(s: State, a: Action): Option<Token>
    requires Enabled(s, a)
  {
    var row := Next(s, a).row;
    if row.Some? && row.value.bootstrap.Some? then Some(row.value.bootstrap.value.token) else None
  }

  function Noted(s: State, a: Action, log: Log): Log
    requires Enabled(s, a)
  {
    match a
    case CreateInsert(expires) => Issued(log, TokenAfter(s, a), expires)
    case ReissueWrite(j, expires) => if Owns(s, s.jobs[j].id) then Issued(log, TokenAfter(s, a), expires) else log
    case CompleteRead(token, _, _, now) => log.(looks := log.looks[s.nextJob := Glance(token, now)])
    case _ => log
  }

  function Issued(log: Log, token: Option<Token>, expires: nat): Log {
    if token.Some? then log.(expiry := log.expiry[token.value := expires]) else log
  }

  function LogOf(s: State, acts: seq<Action>, log: Log): Log
    requires ValidRun(s, acts)
    decreases |acts|
  {
    if acts == [] then log else LogOf(Next(s, acts[0]), acts[1..], Noted(s, acts[0], log))
  }

  const NOTHING := Log(map[], map[])

  /** The row's record is as it was issued. */
  predicate RowLogged(row: Option<Deployment>, log: Log) {
    row.Some? && row.value.bootstrap.Some? ==>
      var b := row.value.bootstrap.value; b.token in log.expiry && log.expiry[b.token] == b.expires
  }

  /** A completion under way read its token before that token's expiry. */
  predicate JobLogged(j: JobId, job: Job, log: Log) {
    job.Completing? ==>
      && j in log.looks && log.looks[j].token == job.token
      && job.token in log.expiry && log.looks[j].now < log.expiry[job.token]
  }

  ghost predicate Logged(s: State, log: Log) {
    && RowLogged(s.row, log)
    && (forall t :: t in log.expiry ==> t < s.nextToken)
    && (forall j :: j in s.jobs ==> j < s.nextJob && JobLogged(j, s.jobs[j], log))
  }

  /** What an effect must show of the row and of the job it moves. */
  predicate EffectLogged(s: State, e: Effect, log: Log) {
    && RowLogged(e.row, log) && (e.job.Some? ==> JobLogged(e.j, e.job.value, log))
    && (e.j in s.jobs || e.j == s.nextJob)
  }

  lemma InstancesLogged(s: State, a: Action, log: Log)
    requires Enabled(s, a) && Instance(a) && RowLogged(s.row, log)
    ensures EffectLogged(s, InstanceOutcome(s, a), log)
  {
  }

  lemma HandlersLogged(s: State, a: Action, log: Log)
    requires Enabled(s, a) && !Instance(a) && RowLogged(s.row, log)
    requires !a.CreateInsert? && !a.ReissueWrite? && !a.CompleteRead?
    requires a.CompleteSecrets? || a.CompleteConsume? || a.CompleteStore? ==> JobLogged(a.j, s.jobs[a.j], log)
    ensures EffectLogged(s, HandlerOutcome(s, a), log)
  {
  }

  /** The log only gains, and never about a token it knew. */
  predicate Extends(log: Log, log': Log, nextJob: JobId) {
    && (forall t :: t in log.expiry ==> t in log'.expiry && log'.expiry[t] == log.expiry[t])
    && (forall j :: j in log.looks && j < nextJob ==> j in log'.looks && log'.looks[j] == log.looks[j])
  }

  lemma IssuingLogged(s: State, a: Action, log: Log)
    requires Enabled(s, a) && (a.CreateInsert? || a.ReissueWrite? || a.CompleteRead?) && Logged(s, log)
    ensures EffectLogged(s, HandlerOutcome(s, a), Noted(s, a, log)) && Extends(log, Noted(s, a, log), s.nextJob)
    ensures forall t :: t in Noted(s, a, log).expiry ==> t < Next(s, a).nextToken
  {
  }

  lemma LogCommit(s: State, e: Effect, log: Log, log': Log)
    requires Logged(s, log) && EffectLogged(s, e, log') && Extends(log, log', s.nextJob)
    requires forall t :: t in log'.expiry ==> t < s.nextToken + e.draws
    ensures Logged(Commit(s, e), log')
  {
    var s' := Commit(s, e);
    forall j | j in s'.jobs ensures j < s'.nextJob && JobLogged(j, s'.jobs[j], log') {
      if j != e.j { assert s'.jobs[j] == s.jobs[j] && JobLogged(j, s.jobs[j], log); }
    }
  }

  lemma LogStep(s: State, a: Action, log: Log)
    requires Enabled(s, a) && Logged(s, log)
    ensures Logged(Next(s, a), Noted(s, a, log))
  {
    if Instance(a) {
      InstancesLogged(s, a, log);
    } else if a.CreateInsert? || a.ReissueWrite? || a.CompleteRead? {
      IssuingLogged(s, a, log);
    } else {
      HandlersLogged(s, a, log);
    }
    LogCommit(s, Outcome(s, a), log, Noted(s, a, log));
  }

  lemma {:induction false} LogRun(s: State, acts: seq<Action>, log: Log)
    requires ValidRun(s, acts) && Logged(s, log)
    ensures Logged(Final(s, acts), LogOf(s, acts, log))
    decreases |acts|
  {
    if acts != [] {
      LogStep(s, acts[0], log);
      LogRun(Next(s, acts[0]), acts[1..], Noted(s, acts[0], log));
    }
  }

  /** In every run, a completion that gets past with a token read it before the expiry the token was issued with. */
  lemma PassesBeforeExpiry(acts: seq<Action>, s: State, j: JobId, token: Token)
    requires ValidRun(INIT, acts) && s == Final(INIT, acts)
    requires Enabled(s, CompleteConsume(j)) && Passes(s, CompleteConsume(j), token)
    ensures var log := LogOf(INIT, acts, NOTHING);
      && j in log.looks && log.looks[j].token == token && token in log.expiry
      && log.looks[j].now < log.expiry[token]
  {
    LogRun(INIT, acts, NOTHING);
  }

  /** At or after that expiry the token is refused at once. */
  lemma ExpiredIsRefused(acts: seq<Action>, s: State, token: Token, creds: nat, agent: Token, now: nat)
    requires ValidRun(INIT, acts) && s == Final(INIT, acts)
    requires var log := LogOf(INIT, acts, NOTHING); token in log.expiry && now >= log.expiry[token]
    ensures !Enabled(s, CompleteRead(token, creds, agent, now))
  {
    LogRun(INIT, acts, NOTHING);
  }

  /** The other way: from a fresh re-issue, a completion at any time before the expiry stores its agent. */
  lemma ReissuedCompletes(s: State, expires: nat, now: nat, creds: nat, agent: Token)
    returns (acts: seq<Action>, t: State)
    requires s.nextJob !in s.jobs && s.nextJob + 1 !in s.jobs && Enabled(s, ReissueRead) && now < expires
    ensures Reach(s, acts, t) && Queues(t, s.nextJob + 1, Finalize)
    ensures t.row.value.agent == Some(agent) && t.row.value.secrets.creds == Some(creds)
    ensures CompleteRead(s.nextToken, creds, agent, now) in acts
  {
    var s1, j := Reissued(s, expires), s.nextJob + 1;
    ReissueRuns(s, expires);
    var last;
    last, t := Completes(s1, s.nextToken, creds, agent, now);
    var first := Pair(ReissueRead, ReissueWrite(s.nextJob, expires));
    Append(s, first, s1, last, t);
    acts := first + last;
    assert last[0] in acts;
  }

  lemma Completes(s: State, token: Token, creds: nat, agent: Token, now: nat) returns (acts: seq<Action>, t: State)
    requires s.nextJob !in s.jobs && LiveToken(s, token) && now < s.row.value.bootstrap.value.expires
    ensures Reach(s, acts, t) && acts != [] && acts[0] == CompleteRead(token, creds, agent, now)
    ensures t == Completed(Presented(s, token, creds, agent), s.nextJob, true)
  {
    var j, s1 := s.nextJob, Presented(s, token, creds, agent);
    CompleteOpens(s, token, creds, agent, now);
    CompleteCloses(s1, j, true);
    t := Completed(s1, j, true);
    Append(s, CompleteOpening(j, token, creds, agent, now), s1, CompleteClosing(j, true), t);
    acts := CompleteOpening(j, token, creds, agent, now) + CompleteClosing(j, true);
  }

  // ----- what a row's status allows -----

  /** The status of the row, None where there is none. */
  function StatusOf(s: State): Option<Status> {
    if s.row.Some? then Some(s.row.value.status) else None
  }

  /**
   * The requests a row's status admits: a new bootstrap token until the agent has reported or after a failure, a retry
   * once it has or after a failure, a rotation when ready ...
   */
  lemma StatusAdmits(s: State)
    ensures Enabled(s, ReissueRead) <==>
      StatusOf(s) in {Some(Queued), Some(Preparing), Some(AwaitingAgent), Some(Failed)}
    ensures Enabled(s, RetryRead) <==> StatusOf(s) in {Some(AgentReady), Some(Failed)}
    ensures Enabled(s, RotateCheck) <==> StatusOf(s) == Some(Ready) && s.row.value.agent.Some?
  {
  }

  /** ... creation where there is no row, deletion when failed or revoked, and revocation unless under way or done. */
  lemma StatusEnds(s: State)
    ensures Enabled(s, CreateInsert(0)) <==> StatusOf(s) == None
    ensures Enabled(s, DeleteRead) <==> StatusOf(s) in {Some(Failed), Some(Status.Revoked)}
    ensures Enabled(s, RevokeRead) <==> s.row.Some? && StatusOf(s) !in {Some(Revoking), Some(Status.Revoked)}
  {
  }

  /** A deployment whose first instance does not start is failed. */
  lemma CreateFails(s: State, j: JobId)
    requires Enabled(s, CreateStart(j, false)) && Owns(s, s.jobs[j].id)
    ensures StatusOf(Next(s, CreateStart(j, false))) == Some(Failed)
  {
  }

  // ----- from creation to ready -----

  /** A created deployment whose prepare instance is queued. */
  function Created(s: State, expires: nat): State {
    var n := s.nextToken;
    s.(row := Some(Deployment(n, Queued, Sha(n + 1), None, Secrets(n + 1, None),
                              Some(Bootstrap(n + 2, false, expires)))),
       jobs := s.jobs[s.nextJob := Waiting(Prepare, n)], nextJob := s.nextJob + 1, nextToken := n + 3,
       issued := s.issued + {n + 1})
  }

  lemma Creates(s: State, expires: nat)
    requires s.nextJob !in s.jobs && s.row.None?
    ensures Reach(s, Pair(CreateInsert(expires), CreateStart(s.nextJob, true)), Created(s, expires))
  {
    var s1 := Next(s, CreateInsert(expires));
    assert s1.jobs[s.nextJob := Created(s, expires).jobs[s.nextJob]] == Created(s, expires).jobs;
    Twice(s, CreateInsert(expires), s1, CreateStart(s.nextJob, true), Created(s, expires));
  }

  lemma Prepares(s: State, expires: nat) returns (acts: seq<Action>, t: State)
    requires s.nextJob !in s.jobs && s.row.None?
    ensures Reach(s, acts, t) && t.jobs == s.jobs && t.nextJob == s.nextJob + 1 && t.nextToken == s.nextToken + 3
    ensures t.issued == s.issued + {s.nextToken + 1}
    ensures t.row.Some? && LiveToken(t, s.nextToken + 2) && t.row.value.bootstrap.value.expires == expires
    ensures t.row.value.subHash == Sha(s.nextToken + 1) && t.row.value.secrets.subToken == s.nextToken + 1
  {
    var s1, j := Created(s, expires), s.nextJob;
    Creates(s, expires);
    PrepareRuns(s1, j);
    t := s1.(row := Some(s1.row.value.(status := AwaitingAgent)), torn := false, jobs := s1.jobs - {j},
             plane := Upload(s1.row.value.subHash, PendingBundle));
    assert t.jobs == s.jobs;
    Append(s, Pair(CreateInsert(expires), CreateStart(j, true)), s1, PrepareScript(j), t);
    acts := Pair(CreateInsert(expires), CreateStart(j, true)) + PrepareScript(j);
  }

  /**
   * A deployment created where none is, and completed by its agent before the token expires, becomes ready: it is
   * served with the agent's credentials, and the token it was handed is the one shown and accepted.
   */
  lemma CreatedBecomesReady(s: State, expires: nat, now: nat, creds: nat, agent: Token)
    returns (acts: seq<Action>, t: State, handed: Token)
    requires s.nextJob !in s.jobs && s.nextJob + 1 !in s.jobs && s.row.None? && now < expires
    ensures Reach(s, acts, t) && t.jobs == s.jobs && handed in t.issued
    ensures t.row.Some? && t.row.value.status.Ready? && t.row.value.agent == Some(agent)
    ensures t.row.value.secrets.subToken == handed
    ensures Accepts(t.plane, handed) && t.plane.value.bundle == ReadyBundle(creds, handed)
  {
    var j := s.nextJob + 1;
    var first, s1 := Prepares(s, expires);
    var second, s2 := Completes(s1, s.nextToken + 2, creds, agent, now);
    FinalizeRuns(s2, j);
    t := Finalized(s2, j);
    assert t.jobs == s.jobs;
    Append(s1, second, s2, FinalizeScript(j), t);
    Append(s, first, s1, second + FinalizeScript(j), t);
    acts, handed := first + (second + FinalizeScript(j)), s.nextToken + 1;
  }
}
