/**
 * What status `ready` promises: the agent has reported and the Worker serves a ready bundle.
 *
 * Status writes are unconditional, so the promise needs a discipline that the code does not enforce.  Workflow
 * instances do not overlap one another, and a revoke request that fails to start puts `ready` back only over a row that
 * is served or whose instance will still write the status.  Every handler, subscription rotations included, interleaves
 * freely.  `RestoreMidwayIff` shows the second half of the discipline to be exact, and `LifecycleOverlap` has a run
 * against each.  `LifecycleHash` adds when the Worker also checks the stored hash.
 */
module LifecycleReady {
  import opened Options
  import opened Lifecycle

  // ----- the discipline -----

  /** A workflow instance between its load and its end. */
  predicate Running(job: Job) {
    job.PrepareAt? || job.FinalizeAt? || job.RevokeAt?
  }

  ghost predicate NoInstance(s: State) {
    forall j :: j in s.jobs ==> !Running(s.jobs[j])
  }

  ghost predicate NoRotation(s: State) {
    forall j :: j in s.jobs ==> !s.jobs[j].Rotating?
  }

  predicate HoldsReady(plane: Option<Published>) {
    plane.Some? && plane.value.bundle.ReadyBundle?
  }

  /** The instance will write the status of the row once more before it ends. */
  predicate Ahead(job: Job, row: Option<Deployment>) {
    row.Some? && row.value.id == Target(job)
    && ((job.PrepareAt? && !job.ppc.PrepareAwaited?) || (job.FinalizeAt? && !job.fpc.FinalizeReadied?)
        || (job.RevokeAt? && !job.rpc.RevokeWritten? && !job.rpc.RevokeErased?))
  }

  /** The agent is known and the Worker holds a ready bundle. */
  predicate Serves(row: Option<Deployment>, plane: Option<Published>) {
    row.Some? && row.value.agent.Some? && HoldsReady(plane)
  }

  /** A `ready` is safe to stand: the row is served, or a status write is still to come. */
  ghost predicate Covered(s: State) {
    Serves(s.row, s.plane) || exists j :: j in s.jobs && Ahead(s.jobs[j], s.row)
  }

  /** A failed revoke request that puts `ready` back into its row. */
  predicate RestoresReady(s: State, a: Action)
    requires Enabled(s, a)
  {
    a.RevokeStart? && !a.ok && s.jobs[a.j].restore.Ready? && Owns(s, s.jobs[a.j].id)
  }

  ghost predicate Serial(s: State, a: Action)
    requires Enabled(s, a)
  {
    (a.Load? ==> NoInstance(s)) && (RestoresReady(s, a) ==> Covered(s))
  }

  ghost predicate SerialRun(s: State, acts: seq<Action>)
    decreases |acts|
  {
    acts == []
    || (Enabled(s, acts[0]) && Serial(s, acts[0]) && SerialRun(Next(s, acts[0]), acts[1..]))
  }

  // ----- the invariant -----

  /** A job that counts on the row: a request that read `ready` in it, or a finalize that has uploaded. */
  predicate Relies(job: Job, row: Option<Deployment>) {
    row.Some? && row.value.id == Target(job)
    && ((job.RevokeAsked? && job.restore.Ready?) || (job.FinalizeAt? && HasUploaded(job.fpc)))
  }

  predicate HasUploaded(pc: FinalizePc) {
    pc.FinalizePublished? || pc.FinalizeReadied?
  }

  /** The row is `ready`, or a job counts on it. */
  ghost predicate Claimed(s: State) {
    s.row.Some? && (s.row.value.status.Ready? || exists j :: j in s.jobs && Relies(s.jobs[j], s.row))
  }

  /** What a finalize knows, whatever happens beside it. */
  predicate JobOk(job: Job, row: Option<Deployment>, plane: Option<Published>) {
    job.FinalizeAt? ==>
      && (row.Some? && row.value.id == job.id && !job.fpc.FinalizeLoaded? && !job.fpc.FinalizeMarked? ==>
            row.value.agent.Some?)
      && (HasUploaded(job.fpc) ==> HoldsReady(plane))
  }

  ghost predicate Alone(s: State) {
    forall j, k :: j in s.jobs && k in s.jobs && Running(s.jobs[j]) && Running(s.jobs[k]) ==> j == k
  }

  /** Every random value a job carries has been drawn. */
  predicate Bounded(job: Job, next: Token) {
    && Target(job) < next
    && (job.RevokeAt? && !job.rpc.RevokeLoaded? ==> job.rpc.h.token < next)
    && (job.Rotating? && job.tpc.RotateSent? ==> job.tpc.drawn < next)
  }

  ghost predicate Drawn(s: State) {
    && (s.row.Some? ==> s.row.value.id < s.nextToken && s.row.value.subHash.token < s.nextToken)
    && (forall j :: j in s.jobs ==> j < s.nextJob && Bounded(s.jobs[j], s.nextToken))
  }

  /** No instance of another row runs beside a claimed one. */
  ghost predicate OwnInstances(s: State)
    requires s.row.Some?
  {
    forall j :: j in s.jobs && Running(s.jobs[j]) ==> Target(s.jobs[j]) == s.row.value.id
  }

  /** A request that read `ready` in the present row and has not marked it yet. */
  predicate Recalls(s: State, k: JobId) {
    && k in s.jobs && k < s.nextJob && s.jobs[k].RevokeAsked? && !s.jobs[k].marked && s.jobs[k].restore.Ready?
    && Owns(s, s.jobs[k].id)
  }

  /** A completion of the present row that has spent its token. */
  predicate Stores(s: State, c: JobId) {
    c in s.jobs && s.jobs[c].Completing? && s.jobs[c].cpc.TokenConsumed? && Owns(s, s.jobs[c].id)
  }

  ghost predicate Inv(s: State) {
    && Drawn(s) && Alone(s)
    && (forall j :: j in s.jobs ==> JobOk(s.jobs[j], s.row, s.plane))
    && (Claimed(s) ==> OwnInstances(s))
    && (IsReady(s.row) ==> Covered(s))
  }

  predicate IsReady(row: Option<Deployment>) {
    row.Some? && row.value.status.Ready?
  }

  // ----- what one action does -----

  predicate Same(row: Option<Deployment>, row': Option<Deployment>) {
    row.Some? && row'.Some? && row.value.id == row'.value.id
  }

  predicate WasRunning(s: State, e: Effect) {
    e.j in s.jobs && Running(s.jobs[e.j])
  }

  predicate WasRelying(s: State, e: Effect) {
    e.j in s.jobs && Relies(s.jobs[e.j], s.row)
  }

  /** The effect draws only new values and moves an existing job or the next free one. */
  predicate EffectDrawn(s: State, e: Effect) {
    && (e.row.Some? ==> e.row.value.id < s.nextToken + e.draws && e.row.value.subHash.token < s.nextToken + e.draws)
    && (e.job.Some? ==> Bounded(e.job.value, s.nextToken + e.draws))
    && (e.j in s.jobs || e.j == s.nextJob)
  }

  /** A running job stays of its kind; a new one starts as the discipline says. */
  ghost predicate Moves(s: State, e: Effect) {
    && (WasRunning(s, e) && e.job.Some? ==>
          Running(e.job.value) && Target(e.job.value) == Target(s.jobs[e.j])
          && (e.job.value.RevokeAt? <==> s.jobs[e.j].RevokeAt?))
    && (e.job.Some? && Running(e.job.value) && !WasRunning(s, e) ==>
          NoInstance(s) && Owns(s, Target(e.job.value)) && e.row == s.row)
  }

  /** The row keeps its identity and, but for a revoke instance, its agent; only instances take a ready bundle away. */
  predicate Keeps(s: State, e: Effect) {
    && (e.row.Some? ==>
          Same(s.row, e.row) || (s.row.None? && e.row.value.id >= s.nextToken && !e.row.value.status.Ready?))
    && (Same(s.row, e.row) && s.row.value.agent.Some? && e.row.value.agent.None? ==>
          e.j in s.jobs && s.jobs[e.j].RevokeAt?)
    && (!WasRunning(s, e) ==> HoldsReady(s.plane) ==> HoldsReady(e.plane))
    && (e.job.Some? ==> JobOk(e.job.value, e.row, e.plane))
  }

  /** The row becomes ready, or is newly relied on, only by a job that relied on it or because it was ready. */
  predicate Claims(s: State, e: Effect) {
    && (IsReady(e.row) ==> Same(s.row, e.row) && (IsReady(s.row) || WasRelying(s, e)))
    && (e.job.Some? && Relies(e.job.value, e.row) ==>
          Same(s.row, e.row) && (IsReady(s.row) || WasRelying(s, e) || Finalizes(s, e)))
  }

  /** A step of the row's own finalize. */
  predicate Finalizes(s: State, e: Effect) {
    e.j in s.jobs && s.jobs[e.j].FinalizeAt? && s.row.Some? && s.jobs[e.j].id == s.row.value.id
  }

  /** After a step of its own instance a ready row is served or has a status write to come, or nothing has changed. */
  predicate Stands(s: State, e: Effect) {
    WasRunning(s, e) && Same(s.row, e.row) && IsReady(e.row) && Target(s.jobs[e.j]) == s.row.value.id ==>
      || Serves(e.row, e.plane)
      || (e.job.Some? && Ahead(e.job.value, e.row))
      || (!Ahead(s.jobs[e.j], s.row) && e.plane == s.plane && IsReady(s.row)
          && e.row.value.agent == s.row.value.agent)
  }

  ghost predicate Local(s: State, e: Effect) {
    && EffectDrawn(s, e) && Moves(s, e) && Keeps(s, e) && Claims(s, e) && Stands(s, e)
    && (IsReady(e.row) ==> IsReady(s.row) || Serves(e.row, e.plane) || Covered(s))
  }

  // ----- committing an effect -----

  lemma DrawnCommit(s: State, e: Effect)
    requires Drawn(s) && EffectDrawn(s, e)
    ensures Drawn(Commit(s, e))
  {
  }

  lemma AloneCommit(s: State, e: Effect)
    requires Alone(s) && Moves(s, e)
    ensures Alone(Commit(s, e))
  {
  }

  lemma JobsCommit(s: State, e: Effect)
    requires Drawn(s) && Alone(s) && Keeps(s, e)
    requires forall j :: j in s.jobs ==> JobOk(s.jobs[j], s.row, s.plane)
    ensures var s' := Commit(s, e); forall j :: j in s'.jobs ==> JobOk(s'.jobs[j], s'.row, s'.plane)
  {
    var s' := Commit(s, e);
    forall j | j in s'.jobs ensures JobOk(s'.jobs[j], s'.row, s'.plane) {
      if j != e.j {
        assert s'.jobs[j] == s.jobs[j] && JobOk(s.jobs[j], s.row, s.plane) && Target(s.jobs[j]) < s.nextToken;
      }
    }
  }

  lemma ClaimedBefore(s: State, e: Effect)
    requires Drawn(s) && Keeps(s, e) && Claims(s, e) && Claimed(Commit(s, e))
    ensures Same(s.row, e.row) && (Claimed(s) || Finalizes(s, e))
  {
    var s' := Commit(s, e);
    if !IsReady(s'.row) {
      var j :| j in s'.jobs && Relies(s'.jobs[j], s'.row);
      if j != e.j { assert s'.jobs[j] == s.jobs[j] && Target(s.jobs[j]) < s.nextToken; }
    }
  }

  lemma ClaimCommit(s: State, e: Effect)
    requires Inv(s) && Moves(s, e) && Keeps(s, e) && Claims(s, e) && Claimed(Commit(s, e))
    ensures OwnInstances(Commit(s, e))
  {
    ClaimedBefore(s, e);
    var s' := Commit(s, e);
    forall j | j in s'.jobs && Running(s'.jobs[j]) ensures Target(s'.jobs[j]) == s'.row.value.id {
      if j != e.j { assert s'.jobs[j] == s.jobs[j]; }
    }
  }

  lemma StandCommit(s: State, e: Effect)
    requires Inv(s) && Local(s, e) && IsReady(e.row)
    ensures Covered(Commit(s, e))
  {
    var s' := Commit(s, e);
    if !Serves(e.row, e.plane) {
      assert Covered(s) && Claimed(s);
      if !Serves(s.row, s.plane) {
        var k :| k in s.jobs && Ahead(s.jobs[k], s.row);
        if k != e.j { assert s'.jobs[k] == s.jobs[k] && Ahead(s'.jobs[k], s'.row); }
      }
      if WasRunning(s, e) && e.job.Some? { assert s'.jobs[e.j] == e.job.value; }
    }
  }

  lemma CommitKeeps(s: State, e: Effect)
    requires Inv(s) && Local(s, e)
    ensures Inv(Commit(s, e))
  {
    DrawnCommit(s, e);
    AloneCommit(s, e);
    JobsCommit(s, e);
    if Claimed(Commit(s, e)) { ClaimCommit(s, e); }
    if IsReady(e.row) { StandCommit(s, e); }
  }

  // ----- the inductive step -----

  lemma PrepareStep(s: State, a: Action, j: JobId)
    requires j in s.jobs && s.jobs[j].PrepareAt? && Drawn(s) && Enabled(s, a)
    requires a in {Fail(j), PrepareMark(j), PrepareUpload(j), PrepareAwait(j), PrepareFinish(j)}
    requires IsReady(s.row) ==> Covered(s)
    ensures Local(s, InstanceOutcome(s, a))
  {
    assert Bounded(s.jobs[j], s.nextToken);
  }

  lemma FinalizeStep(s: State, a: Action, j: JobId)
    requires j in s.jobs && s.jobs[j].FinalizeAt? && Drawn(s) && Enabled(s, a) && JobOk(s.jobs[j], s.row, s.plane)
    requires a in {Fail(j), FinalizeMark(j), FinalizeRead(j), FinalizeSecrets(j), FinalizePublish(j), FinalizeReady(j),
                   FinalizeFinish(j)}
    ensures Local(s, InstanceOutcome(s, a))
  {
    assert Bounded(s.jobs[j], s.nextToken);
  }

  lemma RevokeStep(s: State, a: Action, j: JobId)
    requires j in s.jobs && s.jobs[j].RevokeAt? && Drawn(s) && Enabled(s, a)
    requires a in {Fail(j), RevokeChoose(j), RevokeDisable(j), RevokeWrite(j), RevokeErase(j), RevokeFinish(j)}
    ensures Local(s, InstanceOutcome(s, a))
  {
    assert Bounded(s.jobs[j], s.nextToken);
  }

  lemma RotateStep(s: State, a: Action, j: JobId)
    requires j in s.jobs && s.jobs[j].Rotating? && Drawn(s) && Enabled(s, a)
    requires a in {RotateRead(j), RotateUpload(j), RotateCommit(j), RotateAbort(j)}
    ensures Local(s, HandlerOutcome(s, a))
  {
    assert Bounded(s.jobs[j], s.nextToken);
  }

  lemma LoadStep(s: State, j: JobId)
    requires Drawn(s) && Enabled(s, Load(j)) && Serial(s, Load(j))
    ensures Local(s, InstanceOutcome(s, Load(j)))
  {
    assert Bounded(s.jobs[j], s.nextToken);
  }

  lemma LoadFails(s: State, j: JobId)
    requires j in s.jobs && s.jobs[j].Waiting? && Drawn(s)
    ensures Local(s, InstanceOutcome(s, Fail(j)))
  {
    assert Bounded(s.jobs[j], s.nextToken);
  }

  lemma CheckStep(s: State)
    requires Drawn(s) && Enabled(s, RotateCheck) && Serial(s, RotateCheck)
    ensures Local(s, HandlerOutcome(s, RotateCheck))
  {
  }

  /** The agent's completion and the bootstrap handlers. */
  predicate AgentSide(a: Action) {
    a.ReissueRead? || a.ReissueWrite? || a.CompleteRead? || a.CompleteSecrets? || a.CompleteConsume? || a.CompleteStore?
    || a.CompleteStart?
  }

  predicate RotationSide(a: Action) {
    a.RotateCheck? || a.RotateRead? || a.RotateUpload? || a.RotateCommit? || a.RotateAbort?
  }

  lemma AgentStep(s: State, a: Action)
    requires Enabled(s, a) && AgentSide(a) && Drawn(s)
    ensures Local(s, HandlerOutcome(s, a))
  {
    var j := HandlerOutcome(s, a).j;
    if j in s.jobs { assert Bounded(s.jobs[j], s.nextToken); }
  }

  predicate RevokeSide(a: Action) {
    a.RevokeRead? || a.RevokeMark? || a.RevokeStart?
  }

  lemma RevokeRequestStep(s: State, a: Action)
    requires Enabled(s, a) && RevokeSide(a) && Drawn(s) && Serial(s, a)
    ensures Local(s, HandlerOutcome(s, a))
  {
    var j := HandlerOutcome(s, a).j;
    if j in s.jobs { assert Bounded(s.jobs[j], s.nextToken); }
  }

  lemma RequestStep(s: State, a: Action)
    requires Enabled(s, a) && !Instance(a) && !AgentSide(a) && !RotationSide(a) && !RevokeSide(a) && Drawn(s)
    ensures Local(s, HandlerOutcome(s, a))
  {
    var j := HandlerOutcome(s, a).j;
    if j in s.jobs { assert Bounded(s.jobs[j], s.nextToken); }
    if a.Spawn? { assert Bounded(s.jobs[a.j], s.nextToken); }
  }

  lemma InstanceStep(s: State, a: Action)
    requires Enabled(s, a) && Serial(s, a) && Inv(s) && Instance(a)
    ensures Local(s, InstanceOutcome(s, a))
  {
    if a.Load? { LoadStep(s, a.j); }
    else if s.jobs[a.j].Waiting? { LoadFails(s, a.j); }
    else if s.jobs[a.j].PrepareAt? { PrepareStep(s, a, a.j); }
    else if s.jobs[a.j].FinalizeAt? { FinalizeStep(s, a, a.j); }
    else { RevokeStep(s, a, a.j); }
  }

  lemma HandlerStep(s: State, a: Action)
    requires Enabled(s, a) && Serial(s, a) && Inv(s) && !Instance(a)
    ensures Local(s, HandlerOutcome(s, a))
  {
    if a.RotateCheck? { CheckStep(s); }
    else if RotationSide(a) { RotateStep(s, a, a.j); }
    else if AgentSide(a) { AgentStep(s, a); }
    else if RevokeSide(a) { RevokeRequestStep(s, a); }
    else { RequestStep(s, a); }
  }

  lemma InvStep(s: State, a: Action)
    requires Enabled(s, a) && Serial(s, a) && Inv(s)
    ensures Inv(Next(s, a))
  {
    if Instance(a) { InstanceStep(s, a); } else { HandlerStep(s, a); }
    CommitKeeps(s, Outcome(s, a));
  }

  lemma {:induction false} InvRun(s: State, acts: seq<Action>)
    requires SerialRun(s, acts) && Inv(s)
    ensures ValidRun(s, acts) && Inv(Final(s, acts))
    decreases |acts|
  {
    if acts != [] {
      InvStep(s, acts[0]);
      InvRun(Next(s, acts[0]), acts[1..]);
    }
  }

  // ----- the promise -----

  /** A `ready` row is served. */
  predicate Honest(s: State) {
    IsReady(s.row) ==> Serves(s.row, s.plane)
  }

  lemma InvIsHonest(s: State)
    requires Inv(s) && NoInstance(s)
    ensures Honest(s)
  {
    if IsReady(s.row) { assert Covered(s); }
  }

  /**
   * In every state a disciplined run reaches with no instance running, a `ready` row has its agent and its Worker
   * serves a ready bundle.
   */
  lemma ReadyMeansServed(acts: seq<Action>)
    requires SerialRun(INIT, acts)
    ensures ValidRun(INIT, acts)
    ensures var s := Final(INIT, acts);
      NoInstance(s) && s.row.Some? && s.row.value.status.Ready? ==>
        s.row.value.agent.Some? && s.plane.Some? && s.plane.value.bundle.ReadyBundle?
  {
    InvRun(INIT, acts);
    if NoInstance(Final(INIT, acts)) { InvIsHonest(Final(INIT, acts)); }
  }

  // ----- a failed revoke request -----

  predicate Uploads(a: Action) {
    a.PrepareUpload? || a.RevokeDisable? || UploadsReady(a)
  }

  predicate UploadsReady(a: Action) {
    a.FinalizePublish? || a.RotateUpload?
  }

  function LastUpload(acts: seq<Action>): Option<Action> {
    if acts == [] then None
    else if LastUpload(acts[1..]).Some? then LastUpload(acts[1..])
    else if Uploads(acts[0]) then Some(acts[0]) else None
  }

  /** What the Worker holds is what was uploaded last. */
  lemma {:induction false} LastUploadDecides(s: State, acts: seq<Action>)
    requires ValidRun(s, acts)
    ensures HoldsReady(Final(s, acts).plane) <==>
              (if LastUpload(acts).Some? then UploadsReady(LastUpload(acts).value) else HoldsReady(s.plane))
    decreases |acts|
  {
    if acts != [] {
      UploadStep(s, acts[0]);
      LastUploadDecides(Next(s, acts[0]), acts[1..]);
    }
  }

  lemma UploadStep(s: State, a: Action)
    requires Enabled(s, a)
    ensures HoldsReady(Next(s, a).plane) <==> (if Uploads(a) then UploadsReady(a) else HoldsReady(s.plane))
  {
    if Instance(a) { InstanceUploads(s, a); } else { HandlerUploads(s, a); }
  }

  lemma InstanceUploads(s: State, a: Action)
    requires Enabled(s, a) && Instance(a)
    ensures HoldsReady(InstanceOutcome(s, a).plane) <==> (if Uploads(a) then UploadsReady(a) else HoldsReady(s.plane))
  {
  }

  lemma HandlerUploads(s: State, a: Action)
    requires Enabled(s, a) && !Instance(a)
    ensures HoldsReady(HandlerOutcome(s, a).plane) <==> (if Uploads(a) then UploadsReady(a) else HoldsReady(s.plane))
  {
  }

  /**
   * A revoke request that reads `ready` while no instance runs, and later puts it back while none runs, keeps the
   * promise if and only if the agent hash is still there and nothing was uploaded in between or the last upload was a
   * finalize's or a rotation's.
   */
  lemma RestoreIsHonestIff(before: seq<Action>, s0: State, mid: seq<Action>, s: State)
    requires SerialRun(INIT, before) && ValidRun(INIT, before) && s0 == Final(INIT, before)
    requires NoInstance(s0) && IsReady(s0.row) && Enabled(s0, RevokeRead)
    requires SerialRun(Next(s0, RevokeRead), mid) && ValidRun(Next(s0, RevokeRead), mid)
    requires s == Final(Next(s0, RevokeRead), mid) && NoInstance(s)
    requires Enabled(s, RevokeStart(s0.nextJob, false)) && RestoresReady(s, RevokeStart(s0.nextJob, false))
    ensures var t := Next(s, RevokeStart(s0.nextJob, false));
      && IsReady(t.row)
      && (Honest(t) <==> s.row.value.agent.Some? && (LastUpload(mid).Some? ==> UploadsReady(LastUpload(mid).value)))
  {
    InvRun(INIT, before);
    var s1 := ReadsReady(s0);
    InvRun(s1, mid);
    LastUploadDecides(s1, mid);
    RestoreStep(s, s0.nextJob);
  }

  lemma ReadsReady(s: State) returns (t: State)
    requires Inv(s) && NoInstance(s) && IsReady(s.row) && Enabled(s, RevokeRead)
    ensures t == Next(s, RevokeRead) && Inv(t) && HoldsReady(t.plane)
  {
    InvIsHonest(s);
    InvStep(s, RevokeRead);
    t := Next(s, RevokeRead);
  }

  lemma RestoreStep(s: State, j: JobId)
    requires Enabled(s, RevokeStart(j, false)) && RestoresReady(s, RevokeStart(j, false))
    ensures var t := Next(s, RevokeStart(j, false)); IsReady(t.row) && (Honest(t) <==> Serves(s.row, s.plane))
  {
  }

  /** A disciplined run to a state where no instance runs and the promise fails. */
  ghost predicate BreaksOff(t: State, more: seq<Action>) {
    SerialRun(t, more) && ValidRun(t, more) && NoInstance(Final(t, more)) && !Honest(Final(t, more))
  }

  /**
   * While an instance may be running, the exact condition is `Covered`: with it no disciplined continuation breaks the
   * promise, and without it the instance can end and leave a ready row unserved.
   */
  lemma RestoreMidwayIff(acts: seq<Action>, s: State, j: JobId)
    requires SerialRun(INIT, acts) && ValidRun(INIT, acts) && s == Final(INIT, acts)
    requires Enabled(s, RevokeStart(j, false)) && RestoresReady(s, RevokeStart(j, false))
    ensures Covered(s) <==> forall more :: !BreaksOff(Next(s, RevokeStart(j, false)), more)
  {
    InvRun(INIT, acts);
    var t := Next(s, RevokeStart(j, false));
    if Covered(s) {
      InvStep(s, RevokeStart(j, false));
      forall more ensures !BreaksOff(t, more) { NeverBreaksOff(t, more); }
    } else {
      var more := UncoveredBreaks(s, j);
      assert BreaksOff(t, more);
    }
  }

  lemma NeverBreaksOff(t: State, more: seq<Action>)
    requires Inv(t)
    ensures !BreaksOff(t, more)
  {
    if BreaksOff(t, more) {
      InvRun(t, more);
      InvIsHonest(Final(t, more));
    }
  }

  lemma UncoveredBreaks(s: State, j: JobId) returns (more: seq<Action>)
    requires Inv(s) && Enabled(s, RevokeStart(j, false)) && RestoresReady(s, RevokeStart(j, false)) && !Covered(s)
    ensures BreaksOff(Next(s, RevokeStart(j, false)), more)
  {
    more := [];
    var t := Next(s, RevokeStart(j, false));
    assert Claimed(s) by { assert Relies(s.jobs[j], s.row); }
    if k :| k in s.jobs && Running(s.jobs[k]) {
      assert t.jobs[k] == s.jobs[k] && !Ahead(s.jobs[k], s.row) && Target(s.jobs[k]) == s.row.value.id;
      more := Ends(t, k);
    }
  }

  /** An instance of the row with no status write to come: it ends, and row and Worker stay as they are. */
  lemma Ends(t: State, k: JobId) returns (more: seq<Action>)
    requires k in t.jobs && Running(t.jobs[k]) && !Ahead(t.jobs[k], t.row) && !Honest(t)
    requires Target(t.jobs[k]) == t.row.value.id
    requires forall i :: i in t.jobs && Running(t.jobs[i]) ==> i == k
    ensures BreaksOff(t, more)
  {
    var job := t.jobs[k];
    var last := if job.PrepareAt? then PrepareFinish(k) else if job.FinalizeAt? then FinalizeFinish(k)
                else RevokeFinish(k);
    if Enabled(t, last) {
      more := [last];
      EndsBy(t, k, last);
    } else {
      var u := Next(t, RevokeErase(k));
      assert forall i :: i in u.jobs && Running(u.jobs[i]) ==> i == k;
      EndsBy(u, k, last);
      more := [RevokeErase(k), last];
      assert more[1..] == [last];
    }
  }

  lemma EndsBy(t: State, k: JobId, last: Action)
    requires last == PrepareFinish(k) || last == RevokeFinish(k) || last == FinalizeFinish(k)
    requires Enabled(t, last) && !Honest(t)
    requires forall i :: i in t.jobs && Running(t.jobs[i]) ==> i == k
    ensures BreaksOff(t, [last])
  {
    var u := Next(t, last);
    assert [last][1..] == [] && Final(u, []) == u;
    assert forall i :: i in u.jobs ==> i in t.jobs && u.jobs[i] == t.jobs[i] && i != k;
  }
}
