/**
 * The subscription link the panel shows for a ready deployment comes from the stored bundle, while the Worker checks
 * the stored hash.  When the two agree, and how they part.
 */
module LifecycleShown {
  import opened Options
  import opened Lifecycle
  import opened LifecycleReady
  import opened LifecycleHash
  import opened Scripts

  /** The bundle's token is the one whose hash is stored. */
  predicate Shown(row: Option<Deployment>) {
    row.Some? ==> row.value.subHash == Sha(row.value.secrets.subToken)
  }

  /** A completion writes back a bundle it read before a rotation replaced the token. */
  predicate StaleStore(s: State, a: Action)
    requires Enabled(s, a)
  {
    a.CompleteStore? && Owns(s, s.jobs[a.j].id) && s.jobs[a.j].cpc.secrets.subToken != s.row.value.secrets.subToken
  }

  /** A revocation replaces the hash and leaves the bundle. */
  predicate Replaces(s: State, a: Action)
    requires Enabled(s, a)
  {
    a.RevokeWrite? && Owns(s, s.jobs[a.j].id) && s.jobs[a.j].rpc.h != s.row.value.subHash
  }

  lemma InstancesKeepShown(s: State, a: Action)
    requires Enabled(s, a) && Instance(a) && Shown(s.row)
    ensures Shown(InstanceOutcome(s, a).row) <==> !Replaces(s, a)
  {
  }

  lemma HandlersKeepShown(s: State, a: Action)
    requires Enabled(s, a) && !Instance(a) && Shown(s.row)
    ensures Shown(HandlerOutcome(s, a).row) <==> !StaleStore(s, a)
  {
  }

  /** Exactly two kinds of step part the shown token from the stored hash. */
  lemma ShownStep(s: State, a: Action)
    requires Enabled(s, a) && Shown(s.row)
    ensures Shown(Next(s, a).row) <==> !StaleStore(s, a) && !Replaces(s, a)
  {
    if Instance(a) { InstancesKeepShown(s, a); } else { HandlersKeepShown(s, a); }
  }

  predicate CleanRun(s: State, acts: seq<Action>)
    requires ValidRun(s, acts)
    decreases |acts|
  {
    acts == [] || (!StaleStore(s, acts[0]) && !Replaces(s, acts[0]) && CleanRun(Next(s, acts[0]), acts[1..]))
  }

  lemma {:induction false} ShownRun(s: State, acts: seq<Action>)
    requires ValidRun(s, acts) && CleanRun(s, acts) && Shown(s.row)
    ensures Shown(Final(s, acts).row)
    decreases |acts|
  {
    if acts != [] {
      ShownStep(s, acts[0]);
      ShownRun(Next(s, acts[0]), acts[1..]);
    }
  }

  /**
   * After a careful run that leaves no torn bundle, the Worker of a ready row accepts the token the panel shows
   * if and only if bundle and hash agree, which they do when no step of the run parted them.
   */
  lemma ShownTokenIsAccepted(acts: seq<Action>)
    requires CarefulRun(INIT, acts) && ValidRun(INIT, acts)
    requires var s := Final(INIT, acts); NoInstance(s) && s.row.Some? && s.row.value.status.Ready? && !s.torn
    ensures var s := Final(INIT, acts); Accepts(s.plane, s.row.value.secrets.subToken) <==> Shown(s.row)
    ensures CleanRun(INIT, acts) ==> Shown(Final(INIT, acts).row)
  {
    ReadyHashIff(acts);
    if CleanRun(INIT, acts) { ShownRun(INIT, acts); }
  }

  // ----- a run that parts them -----

  /** A new bootstrap token is issued, and the agent presents it and reads the bundle. */
  lemma Presents(s: State, creds: nat, agent: Token) returns (acts: seq<Action>, t: State)
    requires (forall j :: j in s.jobs ==> j < s.nextJob) && s.row.Some? && s.row.value.status.Failed?
    ensures Reach(s, acts, t) && t == Presented(Reissued(s, 1), s.nextToken, creds, agent)
  {
    var s1 := Reissued(s, 1);
    ReissueRuns(s, 1);
    CompleteOpens(s1, s.nextToken, creds, agent, 0);
    t := Presented(s1, s.nextToken, creds, agent);
    var first := Pair(ReissueRead, ReissueWrite(s.nextJob, 1));
    var second := CompleteOpening(s1.nextJob, s.nextToken, creds, agent, 0);
    Append(s, first, s1, second, t);
    acts := first + second;
  }

  /** Meanwhile a retried finalize makes the row ready. */
  lemma RetriesToReady(s: State) returns (acts: seq<Action>, t: State)
    requires (forall j :: j in s.jobs ==> j < s.nextJob) && s.row.Some? && s.row.value.status.Failed?
    requires s.row.value.agent.Some? && s.row.value.secrets.creds.Some?
    ensures Reach(s, acts, t) && t == Finalized(Retried(s), s.nextJob)
  {
    var s1, j := Retried(s), s.nextJob;
    RetryRuns(s);
    FinalizeRuns(s1, j);
    t := Finalized(s1, j);
    Append(s, Pair(RetryRead, RetryStart(j)), s1, FinalizeScript(j), t);
    acts := Pair(RetryRead, RetryStart(j)) + FinalizeScript(j);
  }

  /** A rotation replaces the token, and only then does the completion store what it had read. */
  lemma RotatesThenStores(s: State, c: JobId) returns (acts: seq<Action>, t: State)
    requires (forall j :: j in s.jobs ==> j < s.nextJob) && Enabled(s, RotateCheck) && s.row.value.secrets.creds.Some?
    requires c in s.jobs && s.jobs[c].Completing? && s.jobs[c].cpc.SecretsRead? && Owns(s, s.jobs[c].id)
    requires LiveToken(s, s.jobs[c].token)
    ensures Reach(s, acts, t) && t == Completed(Rotated(s), c, true)
  {
    var s1 := Rotated(s);
    RotateRuns(s);
    CompleteCloses(s1, c, true);
    t := Completed(s1, c, true);
    Append(s, RotateScript(s.nextJob), s1, CompleteClosing(c, true), t);
    acts := RotateScript(s.nextJob) + CompleteClosing(c, true);
  }

  /** The state before the last finalize: its row still has the rotated hash and again the old bundle. */
  lemma StoresOldBundle(s: State) returns (acts: seq<Action>, t: State, c: JobId)
    requires (forall j :: j in s.jobs ==> j < s.nextJob) && s.row.Some? && s.row.value.status.Failed?
    requires s.row.value.agent.Some? && s.row.value.secrets.creds.Some?
    ensures Reach(s, acts, t) && Queues(t, c, Finalize)
    ensures t.row.value.agent.Some? && t.row.value.secrets.creds.Some?
    ensures t.row.value.subHash == Sha(s.nextToken + 1) && t.row.value.secrets.subToken == s.row.value.secrets.subToken
  {
    c := s.nextJob + 1;
    var a1, s1 := Presents(s, 1, 1);
    var a2, s2 := RetriesToReady(s1);
    assert s2.jobs[c] == s1.jobs[c];
    var a3, s3 := RotatesThenStores(s2, c);
    Append(s1, a2, s2, a3, s3);
    Append(s, a1, s1, a2 + a3, s3);
    acts, t := a1 + (a2 + a3), s3;
  }

  /**
   * From every failed row whose agent has reported once: a second completion that reads the bundle before a rotation
   * and stores it after leaves a ready row whose shown token its Worker refuses.
   */
  lemma ShownTokenRefused(s: State) returns (acts: seq<Action>, t: State)
    requires (forall j :: j in s.jobs ==> j < s.nextJob) && s.row.Some? && s.row.value.status.Failed?
    requires s.row.value.agent.Some? && s.row.value.secrets.creds.Some? && s.row.value.secrets.subToken < s.nextToken
    ensures Reach(s, acts, t)
    ensures t.row.Some? && t.row.value.status.Ready? && t.plane.Some? && !t.torn
    ensures t.plane.value.hash == t.row.value.subHash && !Accepts(t.plane, t.row.value.secrets.subToken)
  {
    var a1, s1, c := StoresOldBundle(s);
    FinalizeRuns(s1, c);
    t := Finalized(s1, c);
    Append(s, a1, s1, FinalizeScript(c), t);
    acts := a1 + FinalizeScript(c);
  }
}
