/** Once revoked, always revoked: no token handed out before a revocation is accepted again. */
module LifecycleRevocation {
  import opened Options
  import opened Lifecycle

  /**
   * A job that still carries a hash from before: a loaded prepare, a finalize between its read and its upload, or a
   * rotation between upload and batch.
   */
  predicate StaleWriter(job: Job, dead: set<Token>) {
    || (job.PrepareAt? && !job.ppc.PrepareAwaited? && job.snap.subHash.token in dead)
    || (job.FinalizeAt? && (job.fpc.FinalizeHolds? || job.fpc.FinalizeArmed?) && job.fpc.held.subHash.token in dead)
    || (job.Rotating? && job.tpc.RotateSent? && job.tpc.drawn in dead)
    || (job.RevokeAt? && !job.rpc.RevokeLoaded? && job.rpc.h.token in dead)
  }

  ghost predicate Dead(s: State, dead: set<Token>) {
    && (forall t :: t in dead ==> t < s.nextToken)
    && (s.row.Some? ==> s.row.value.subHash.token !in dead)
    && (s.plane.Some? ==> s.plane.value.hash.token !in dead)
    && (forall j :: j in s.jobs ==> !StaleWriter(s.jobs[j], dead))
  }

  /** The action leaves no dead hash in the row, in the Worker, or in the job it moves. */
  ghost predicate Clean(e: Effect, dead: set<Token>) {
    && (e.row.Some? ==> e.row.value.subHash.token !in dead)
    && (e.plane.Some? ==> e.plane.value.hash.token !in dead)
    && (e.job.Some? ==> !StaleWriter(e.job.value, dead))
  }

  /** Apart from what it draws, an instance writes only what its row, its Worker or its job already holds. */
  lemma InstancesAreClean(s: State, a: Action, dead: set<Token>)
    requires Enabled(s, a) && Instance(a) && s.nextToken !in dead
    requires s.row.Some? ==> s.row.value.subHash.token !in dead
    requires s.plane.Some? ==> s.plane.value.hash.token !in dead
    requires !StaleWriter(s.jobs[a.j], dead)
    ensures Clean(InstanceOutcome(s, a), dead)
  {
  }

  lemma HandlersAreClean(s: State, a: Action, dead: set<Token>)
    requires Enabled(s, a) && Dead(s, dead) && !Instance(a)
    ensures Clean(HandlerOutcome(s, a), dead)
  {
    assert s.nextToken !in dead && s.nextToken + 1 !in dead;
    if a.RotateCommit? { assert !StaleWriter(s.jobs[a.j], dead); }
  }

  lemma DeadStep(s: State, a: Action, dead: set<Token>)
    requires Enabled(s, a) && Dead(s, dead)
    ensures Dead(Next(s, a), dead)
  {
    if Instance(a) { InstancesAreClean(s, a, dead); } else { HandlersAreClean(s, a, dead); }
  }

  lemma {:induction false} DeadRun(s: State, acts: seq<Action>, dead: set<Token>)
    requires ValidRun(s, acts) && Dead(s, dead)
    ensures Dead(Final(s, acts), dead)
    decreases |acts|
  {
    if acts != [] {
      DeadStep(s, acts[0], dead);
      DeadRun(Next(s, acts[0]), acts[1..], dead);
    }
  }

  /** Replacement hashes are drawn and thrown away: they never belong to an issued token. */
  ghost predicate Fresh(s: State) {
    && (forall t :: t in s.issued ==> t < s.nextToken)
    && (forall j :: j in s.jobs && s.jobs[j].RevokeAt? && !s.jobs[j].rpc.RevokeLoaded? ==>
          s.jobs[j].rpc.h.token < s.nextToken && s.jobs[j].rpc.h.token !in s.issued)
  }

  /** A moved job carries a replacement hash only if it just drew it or already had it. */
  ghost predicate DrawsFresh(s: State, e: Effect) {
    && (forall t :: t in e.issue ==> s.nextToken <= t < s.nextToken + e.draws)
    && (e.job.Some? && e.job.value.RevokeAt? && !e.job.value.rpc.RevokeLoaded? ==>
          e.job.value.rpc.h.token < s.nextToken + e.draws && e.job.value.rpc.h.token !in s.issued + e.issue)
  }

  lemma InstancesDrawFresh(s: State, a: Action)
    requires Enabled(s, a) && Fresh(s) && Instance(a)
    ensures DrawsFresh(s, InstanceOutcome(s, a))
  {
    assert s.nextToken !in s.issued;
  }

  lemma HandlersDrawFresh(s: State, a: Action)
    requires Enabled(s, a) && Fresh(s) && !Instance(a)
    ensures DrawsFresh(s, HandlerOutcome(s, a))
  {
  }

  lemma FreshStep(s: State, a: Action)
    requires Enabled(s, a) && Fresh(s)
    ensures Fresh(Next(s, a))
  {
    if Instance(a) { InstancesDrawFresh(s, a); } else { HandlersDrawFresh(s, a); }
  }

  lemma {:induction false} FreshRun(s: State, acts: seq<Action>)
    requires ValidRun(s, acts) && Fresh(s)
    ensures Fresh(Final(s, acts))
    decreases |acts|
  {
    if acts != [] {
      FreshStep(s, acts[0]);
      FreshRun(Next(s, acts[0]), acts[1..]);
    }
  }

  /**
   * Revocation is final.  Take any run, let a revoke instance write its row, and suppose the Worker holds that
   * instance's replacement hash and no job can still write an older one: no prepare before its last upload, no finalize
   * between read and upload, no rotation between upload and batch.  Then in every continuation (failures, retries,
   * re-bootstrap, rotation, deletion, re-creation, any overlap) no token issued up to that point is accepted.
   */
  lemma RevocationIsFinal(before: seq<Action>, j: JobId, after: seq<Action>, token: Token)
    requires ValidRun(INIT, before) && Enabled(Final(INIT, before), RevokeWrite(j))
    requires var s := Next(Final(INIT, before), RevokeWrite(j));
      && s.plane.Some? && s.plane.value.hash == s.jobs[j].rpc.h
      && Owns(s, s.jobs[j].id)
      && (forall k :: k in s.jobs ==> !StaleWriter(s.jobs[k], s.issued))
      && token in s.issued && ValidRun(s, after)
    ensures !Accepts(Final(Next(Final(INIT, before), RevokeWrite(j)), after).plane, token)
  {
    FreshRun(INIT, before);
    var s0 := Final(INIT, before);
    var s := Next(s0, RevokeWrite(j));
    FreshStep(s0, RevokeWrite(j));
    DeadRun(s, after, s.issued);
  }

  /**
   * The hypothesis on stale writers cannot be dropped: a prepare that loaded its row before the
   * revocation needs only its own remaining steps to make the Worker accept the old token again.
   */
  lemma StalePrepareRevives(s: State, j: JobId)
    requires j in s.jobs && s.jobs[j].PrepareAt? && s.jobs[j].ppc.PrepareLoaded?
    ensures ValidRun(s, [PrepareMark(j), PrepareUpload(j)])
    ensures Accepts(Final(s, [PrepareMark(j), PrepareUpload(j)]).plane, s.jobs[j].snap.subHash.token)
  {
    var s1 := Next(s, PrepareMark(j));
    var s2 := Next(s1, PrepareUpload(j));
    var acts := [PrepareMark(j), PrepareUpload(j)];
    assert acts[1..] == [PrepareUpload(j)];
    assert ValidRun(s1, acts[1..]);
    assert Final(s1, acts[1..]) == Final(s2, []) == s2;
  }
}
