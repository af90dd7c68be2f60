/**
 * Why the hypotheses of `LifecycleReady`, `LifecycleHash` and `LifecycleRevocation` are needed: runs in which
 * instances, rotations or revoke requests overlap and break what `ready` or a revocation promises.
 */
module LifecycleOverlap {
  import opened Options
  import opened Lifecycle
  import opened LifecycleReady
  import opened Scripts

  // ----- instances -----

  /**
   * A prepare and a finalize queued for the same completed row: the finalize uploads, the older prepare uploads after
   * it, and the finalize still marks the row ready.
   */
  lemma OverlapLeavesReadyOverPending(s: State, j: JobId, k: JobId) returns (acts: seq<Action>, t: State)
    requires j != k && Queues(s, j, Prepare) && Queues(s, k, Finalize)
    requires s.row.value.agent.Some? && s.row.value.secrets.creds.Some?
    ensures Reach(s, acts, t)
    ensures t.row.Some? && t.row.value.status.Ready? && t.plane.Some? && t.plane.value.bundle.PendingBundle?
  {
    var s1 := s.(row := Some(s.row.value.(status := Preparing)),
                 jobs := s.jobs[j := PrepareAt(s.row.value, PrepareMarked)]);
    PrepareBegins(s, j, s1);
    FinalizeOpens(s1, k);
    acts, t := Pair(Load(j), PrepareMark(j)) + FinalizeOpening(k), Armed(s1, k);
    Append(s, Pair(Load(j), PrepareMark(j)), s1, FinalizeOpening(k), t);
    acts, t := UploadsCross(s, acts, t, j, k);
  }

  lemma UploadsCross(s: State, first: seq<Action>, s1: State, j: JobId, k: JobId)
    returns (acts: seq<Action>, t: State)
    requires Reach(s, first, s1) && j != k && Enabled(s1, FinalizePublish(k)) && Enabled(s1, PrepareUpload(j))
    requires Owns(s1, s1.jobs[k].id)
    ensures Reach(s, acts, t)
    ensures t.row.Some? && t.row.value.status.Ready? && t.plane.Some? && t.plane.value.bundle.PendingBundle?
  {
    var s2 := Next(s1, FinalizePublish(k));
    var s3 := Next(s2, PrepareUpload(j));
    Twice(s1, FinalizePublish(k), s2, PrepareUpload(j), s3);
    Append(s, first, s1, Pair(FinalizePublish(k), PrepareUpload(j)), s3);
    acts := first + Pair(FinalizePublish(k), PrepareUpload(j));
    Snoc(s, acts, s3, FinalizeReady(k));
    acts, t := acts + [FinalizeReady(k)], Next(s3, FinalizeReady(k));
  }

  // ----- rotations -----

  /** Two rotations have each read the bundle. */
  lemma BothHold(s: State) returns (t: State)
    requires s.nextJob !in s.jobs && s.nextJob + 1 !in s.jobs && Enabled(s, RotateCheck)
    ensures var j, k := s.nextJob, s.nextJob + 1;
      && Reach(s, Pair(RotateCheck, RotateRead(j)) + Pair(RotateCheck, RotateRead(k)), t)
      && t == s.(nextJob := k + 1,
                 jobs := s.jobs[j := Rotating(s.row.value.id, RotateHolds(s.row.value.secrets))]
                               [k := Rotating(s.row.value.id, RotateHolds(s.row.value.secrets))])
  {
    var j, k, job := s.nextJob, s.nextJob + 1, Rotating(s.row.value.id, RotateHolds(s.row.value.secrets));
    var s1 := s.(jobs := s.jobs[j := job], nextJob := j + 1);
    t := s.(nextJob := k + 1, jobs := s.jobs[j := job][k := job]);
    RotateReads(s, s1);
    RotateReads(s1, t);
    Append(s, Pair(RotateCheck, RotateRead(j)), s1, Pair(RotateCheck, RotateRead(k)), t);
  }

  /** Their uploads go one way and their batches the other. */
  lemma WritesCross(s: State, j: JobId, k: JobId) returns (t: State)
    requires j != k && j in s.jobs && k in s.jobs && j < s.nextJob && k < s.nextJob
    requires s.jobs[j].Rotating? && s.jobs[k].Rotating? && s.jobs[j].tpc.RotateHolds? && s.jobs[k].tpc.RotateHolds?
    requires s.jobs[j].tpc.secrets.creds.Some? && s.jobs[k].tpc.secrets.creds.Some?
    requires Owns(s, s.jobs[j].id) && Owns(s, s.jobs[k].id)
    ensures Reach(s, Pair(RotateUpload(j), RotateUpload(k)) + Pair(RotateCommit(k), RotateCommit(j)), t)
    ensures t.row.Some? && t.row.value.status == s.row.value.status && t.row.value.subHash == Sha(s.nextToken)
    ensures t.plane.Some? && t.plane.value.hash == Sha(s.nextToken + 1) && !t.torn
  {
    var s1 := Next(s, RotateUpload(j));
    var s2 := Next(s1, RotateUpload(k));
    Twice(s, RotateUpload(j), s1, RotateUpload(k), s2);
    t := CommitsCross(s2, j, k);
    Append(s, Pair(RotateUpload(j), RotateUpload(k)), s2, Pair(RotateCommit(k), RotateCommit(j)), t);
  }

  lemma CommitsCross(s: State, j: JobId, k: JobId) returns (t: State)
    requires j != k && j in s.jobs && k in s.jobs && s.jobs[j].Rotating? && s.jobs[k].Rotating?
    requires s.jobs[j].tpc.RotateSent? && s.jobs[k].tpc.RotateSent? && Owns(s, s.jobs[j].id) && Owns(s, s.jobs[k].id)
    requires Accepts(s.plane, s.jobs[k].tpc.drawn)
    ensures Reach(s, Pair(RotateCommit(k), RotateCommit(j)), t) && t.plane == s.plane && !t.torn
    ensures t.row.Some? && t.row.value.status == s.row.value.status && t.row.value.subHash == Sha(s.jobs[j].tpc.drawn)
  {
    var s1 := Next(s, RotateCommit(k));
    t := Next(s1, RotateCommit(j));
    Twice(s, RotateCommit(k), s1, RotateCommit(j), t);
  }

  /**
   * On every ready row two rotations can cross: both land, and the Worker and the row, still `ready`, hold different
   * hashes.
   */
  lemma RotationsCross(s: State) returns (acts: seq<Action>, t: State)
    requires s.nextJob !in s.jobs && s.nextJob + 1 !in s.jobs
    requires Enabled(s, RotateCheck) && s.row.value.secrets.creds.Some?
    ensures Reach(s, acts, t)
    ensures t.row.Some? && t.row.value.status.Ready? && t.plane.Some? && t.plane.value.hash != t.row.value.subHash
    ensures !t.torn
  {
    var j, k := s.nextJob, s.nextJob + 1;
    var s1 := BothHold(s);
    t := WritesCross(s1, j, k);
    acts := Pair(RotateCheck, RotateRead(j)) + Pair(RotateCheck, RotateRead(k))
            + (Pair(RotateUpload(j), RotateUpload(k)) + Pair(RotateCommit(k), RotateCommit(j)));
    Append(s, Pair(RotateCheck, RotateRead(j)) + Pair(RotateCheck, RotateRead(k)), s1,
           Pair(RotateUpload(j), RotateUpload(k)) + Pair(RotateCommit(k), RotateCommit(j)), t);
  }

  /** On every ready row a rotation can die after its upload: the Worker no longer checks the stored hash. */
  lemma RotationTears(s: State) returns (acts: seq<Action>, t: State)
    requires s.nextJob !in s.jobs && Enabled(s, RotateCheck) && s.row.value.secrets.creds.Some?
    requires s.row.value.subHash.token < s.nextToken
    ensures Reach(s, acts, t) && t.row == s.row && t.jobs == s.jobs
    ensures t.torn && t.plane.Some? && t.plane.value.hash != t.row.value.subHash
  {
    acts := SendsUpload(s);
    var s1 := Sent(s);
    t := Next(s1, RotateAbort(s.nextJob));
    assert t.jobs == s.jobs;
    Snoc(s, acts, s1, RotateAbort(s.nextJob));
    acts := acts + [RotateAbort(s.nextJob)];
  }

  // ----- a rotation beside a finalize -----

  /** Ready, no longer torn, and under different hashes, with the instance k ended and no job added. */
  predicate Parted(s: State, k: JobId, t: State) {
    && t.jobs == s.jobs - {k} && !t.torn && t.row.Some? && t.row.value.status.Ready? && t.plane.Some?
    && t.plane.value.hash != t.row.value.subHash
  }

  /** The finalize reads and uploads between the rotation's upload and its batch. */
  lemma FinalizeOvertakesRotation(s: State, k: JobId) returns (acts: seq<Action>, t: State)
    requires s.nextJob !in s.jobs && Enabled(s, RotateCheck) && Queues(s, k, Finalize)
    requires s.row.value.secrets.creds.Some? && s.row.value.subHash.token < s.nextToken
    ensures Reach(s, acts, t) && Parted(s, k, t)
  {
    var j, s1 := s.nextJob, Sent(s);
    acts := SendsUpload(s);
    FinalizeOpens(s1, k);
    Append(s, acts, s1, FinalizeOpening(k), Armed(s1, k));
    t := CommitOvertaken(Armed(s1, k), j, k);
    assert t.jobs == s.jobs - {k};
    Append(s, acts + FinalizeOpening(k), Armed(s1, k), OvertakenEnd(j, k), t);
    acts := acts + FinalizeOpening(k) + OvertakenEnd(j, k);
  }

  function OvertakenEnd(j: JobId, k: JobId): seq<Action> {
    Pair(FinalizePublish(k), RotateCommit(j)) + Pair(FinalizeReady(k), FinalizeFinish(k))
  }

  lemma CommitOvertaken(s: State, j: JobId, k: JobId) returns (t: State)
    requires j != k && Enabled(s, RotateCommit(j)) && Enabled(s, FinalizePublish(k))
    requires Owns(s, s.jobs[j].id) && Owns(s, s.jobs[k].id) && s.jobs[k].fpc.held.subHash != Sha(s.jobs[j].tpc.drawn)
    ensures Reach(s, OvertakenEnd(j, k), t) && t.jobs == s.jobs - {j, k} && !t.torn
    ensures t.row.Some? && t.row.value.status.Ready? && t.plane.Some? && t.plane.value.hash != t.row.value.subHash
  {
    var s1 := Next(s, FinalizePublish(k));
    var s2 := Next(s1, RotateCommit(j));
    Twice(s, FinalizePublish(k), s1, RotateCommit(j), s2);
    t := MarksReady(s2, k);
    assert t.jobs == s.jobs - {j, k};
    Append(s, Pair(FinalizePublish(k), RotateCommit(j)), s2, Pair(FinalizeReady(k), FinalizeFinish(k)), t);
  }

  lemma MarksReady(s: State, k: JobId) returns (t: State)
    requires Enabled(s, FinalizeReady(k)) && Owns(s, s.jobs[k].id)
    ensures Reach(s, Pair(FinalizeReady(k), FinalizeFinish(k)), t)
    ensures t.row == Some(s.row.value.(status := Ready)) && t.plane == s.plane && t.torn == s.torn
    ensures t.jobs == s.jobs - {k}
  {
    var s1 := Next(s, FinalizeReady(k));
    t := Next(s1, FinalizeFinish(k));
    assert t.jobs == s.jobs - {k};
    Twice(s, FinalizeReady(k), s1, FinalizeFinish(k), t);
  }

  /** The finalize reads, the rotation uploads and commits, and the finalize uploads what it read. */
  lemma FinalizePublishesStale(s: State, k: JobId) returns (acts: seq<Action>, t: State)
    requires s.nextJob !in s.jobs && Enabled(s, RotateCheck) && Queues(s, k, Finalize)
    requires s.row.value.secrets.creds.Some? && s.row.value.subHash.token < s.nextToken
    ensures Reach(s, acts, t) && Parted(s, k, t)
  {
    var j, s1 := s.nextJob, Held(s);
    RotateReads(s, s1);
    FinalizeOpens(s1, k);
    acts := Pair(RotateCheck, RotateRead(j)) + FinalizeOpening(k);
    var s2 := Armed(s1, k);
    Append(s, Pair(RotateCheck, RotateRead(j)), s1, FinalizeOpening(k), s2);
    t := StaleAfterCommit(s2, j, k);
    assert t.jobs == s.jobs - {k};
    Append(s, acts, s2, StaleEnd(j, k), t);
    acts := acts + StaleEnd(j, k);
  }

  function StaleEnd(j: JobId, k: JobId): seq<Action> {
    Pair(RotateUpload(j), RotateCommit(j)) + ([FinalizePublish(k)] + Pair(FinalizeReady(k), FinalizeFinish(k)))
  }

  lemma StaleAfterCommit(s: State, j: JobId, k: JobId) returns (t: State)
    requires j != k && Enabled(s, RotateUpload(j)) && Enabled(s, FinalizePublish(k))
    requires Owns(s, s.jobs[j].id) && Owns(s, s.jobs[k].id) && s.jobs[k].fpc.held.subHash != Sha(s.nextToken)
    ensures Reach(s, StaleEnd(j, k), t) && t.jobs == s.jobs - {j, k} && !t.torn
    ensures t.row.Some? && t.row.value.status.Ready? && t.plane.Some? && t.plane.value.hash != t.row.value.subHash
  {
    var s2 := RotationLands(s, j);
    t := PublishesAndMarks(s2, k);
    assert t.jobs == s.jobs - {j, k};
    Append(s, Pair(RotateUpload(j), RotateCommit(j)), s2,
           [FinalizePublish(k)] + Pair(FinalizeReady(k), FinalizeFinish(k)), t);
  }

  lemma RotationLands(s: State, j: JobId) returns (t: State)
    requires Enabled(s, RotateUpload(j)) && Owns(s, s.jobs[j].id)
    ensures Reach(s, Pair(RotateUpload(j), RotateCommit(j)), t) && t.jobs == s.jobs - {j}
    ensures Same(s.row, t.row) && t.row.value.subHash == Sha(s.nextToken)
    ensures HoldsReady(t.plane) && Accepts(t.plane, s.nextToken) && !t.torn && t.nextJob >= s.nextJob
  {
    var s1 := Next(s, RotateUpload(j));
    t := Next(s1, RotateCommit(j));
    assert t.jobs == s.jobs - {j};
    Twice(s, RotateUpload(j), s1, RotateCommit(j), t);
  }

  lemma PublishesAndMarks(s: State, k: JobId) returns (t: State)
    requires Enabled(s, FinalizePublish(k)) && Owns(s, s.jobs[k].id)
    ensures Reach(s, [FinalizePublish(k)] + Pair(FinalizeReady(k), FinalizeFinish(k)), t)
    ensures t.row == Some(s.row.value.(status := Ready)) && t.jobs == s.jobs - {k} && !t.torn
    ensures t.plane.Some? && t.plane.value.hash == s.jobs[k].fpc.held.subHash
  {
    var s1 := Next(s, FinalizePublish(k));
    t := MarksReady(s1, k);
    assert t.jobs == s.jobs - {k};
    Then(s, FinalizePublish(k), s1, Pair(FinalizeReady(k), FinalizeFinish(k)), t);
  }

  // ----- revoke requests -----

  /** Two requests read the ready row; the first marks it and queues its instance. */
  lemma BothAsk(s: State) returns (t: State)
    requires s.nextJob !in s.jobs && s.nextJob + 1 !in s.jobs && s.row.Some? && s.row.value.status.Ready?
    ensures var j, k := s.nextJob, s.nextJob + 1;
      && Reach(s, Pair(RevokeRead, RevokeRead) + Pair(RevokeMark(j), RevokeStart(j, true)), t)
      && t == s.(row := Some(s.row.value.(status := Revoking)), nextJob := k + 1,
                 jobs := s.jobs[k := RevokeAsked(s.row.value.id, Ready, false)][j := Waiting(Revoke, s.row.value.id)])
  {
    var j, k, id := s.nextJob, s.nextJob + 1, s.row.value.id;
    var asked := RevokeAsked(id, Ready, false);
    var s2 := s.(nextJob := k + 1, jobs := s.jobs[j := asked][k := asked]);
    BothRead(s, s2);
    t := s.(row := Some(s.row.value.(status := Revoking)), nextJob := k + 1,
            jobs := s.jobs[k := RevokeAsked(id, Ready, false)][j := Waiting(Revoke, id)]);
    assert s2.jobs[j := Waiting(Revoke, id)] == t.jobs;
    FirstStarts(s2, j, t);
    Append(s, Pair(RevokeRead, RevokeRead), s2, Pair(RevokeMark(j), RevokeStart(j, true)), t);
  }

  lemma BothRead(s: State, t: State)
    requires s.nextJob !in s.jobs && s.nextJob + 1 !in s.jobs && s.row.Some? && s.row.value.status.Ready?
    requires var j, k, ask := s.nextJob, s.nextJob + 1, RevokeAsked(s.row.value.id, Ready, false);
      t == s.(nextJob := k + 1, jobs := s.jobs[j := ask][k := ask])
    ensures Reach(s, Pair(RevokeRead, RevokeRead), t)
  {
    Twice(s, RevokeRead, Next(s, RevokeRead), RevokeRead, t);
  }

  lemma FirstStarts(s: State, j: JobId, t: State)
    requires j in s.jobs && j < s.nextJob && s.jobs[j].RevokeAsked? && !s.jobs[j].marked && Owns(s, s.jobs[j].id)
    requires t == s.(row := Some(s.row.value.(status := Revoking)), jobs := s.jobs[j := Waiting(Revoke, s.jobs[j].id)])
    ensures Reach(s, Pair(RevokeMark(j), RevokeStart(j, true)), t)
  {
    var s1 := Next(s, RevokeMark(j));
    assert s1.jobs[j := t.jobs[j]] == t.jobs;
    Twice(s, RevokeMark(j), s1, RevokeStart(j, true), t);
  }

  /** A late request whose instance does not start puts `ready` back. */
  lemma LateRestore(s: State, k: JobId) returns (t: State)
    requires k in s.jobs && k < s.nextJob && s.jobs[k].RevokeAsked? && !s.jobs[k].marked && s.jobs[k].restore.Ready?
    requires Owns(s, s.jobs[k].id)
    ensures Reach(s, Pair(RevokeMark(k), RevokeStart(k, false)), t)
    ensures t.row == Some(s.row.value.(status := Ready)) && t.plane == s.plane && t.torn == s.torn
  {
    var s1 := Next(s, RevokeMark(k));
    t := Next(s1, RevokeStart(k, false));
    Twice(s, RevokeMark(k), s1, RevokeStart(k, false), t);
  }

  /**
   * On every ready row: two revoke requests read it, the first one's instance revokes it completely, and the second
   * one fails to start.  The row is `ready` again, with no agent, over a pending Worker.
   */
  lemma RestoreOverRevoked(s: State) returns (acts: seq<Action>, t: State)
    requires s.nextJob !in s.jobs && s.nextJob + 1 !in s.jobs && s.row.Some? && s.row.value.status.Ready?
    ensures Reach(s, acts, t)
    ensures t.row.Some? && t.row.value.status.Ready? && t.row.value.agent.None?
    ensures t.plane.Some? && t.plane.value.bundle.PendingBundle?
  {
    var j, k := s.nextJob, s.nextJob + 1;
    var s1 := BothAsk(s);
    RevokeRuns(s1, j);
    var s2 := RevokedBy(s1, j);
    t := LateRestore(s2, k);
    var ask := Pair(RevokeRead, RevokeRead) + Pair(RevokeMark(j), RevokeStart(j, true));
    var late := Pair(RevokeMark(k), RevokeStart(k, false));
    Append(s1, RevokeScript(j), s2, late, t);
    Append(s, ask, s1, RevokeScript(j) + late, t);
    acts := ask + (RevokeScript(j) + late);
  }

  /**
   * A ready bundle does not make it safe to put `ready` back: on every ready row a rotation reads, one of two requests
   * revokes completely, the rotation uploads, and the other request, failing to start, finds a ready bundle and puts
   * `ready` back into a row without agent.
   */
  lemma RotationOutlivesRevocation(s: State) returns (acts: seq<Action>, t: State)
    requires s.nextJob !in s.jobs && s.nextJob + 1 !in s.jobs && s.nextJob + 2 !in s.jobs
    requires Enabled(s, RotateCheck) && s.row.value.secrets.creds.Some?
    ensures Reach(s, acts, t)
    ensures t.row.Some? && t.row.value.status.Ready? && t.row.value.agent.None?
    ensures t.plane.Some? && t.plane.value.bundle.ReadyBundle?
  {
    var r, s1 := s.nextJob, Held(s);
    RotateReads(s, s1);
    var ending;
    ending, t := AskedBeside(s1, r);
    acts := Pair(RotateCheck, RotateRead(r)) + ending;
    Append(s, Pair(RotateCheck, RotateRead(r)), s1, ending, t);
  }

  lemma AskedBeside(s: State, r: JobId) returns (acts: seq<Action>, t: State)
    requires s.nextJob !in s.jobs && s.nextJob + 1 !in s.jobs && s.row.Some? && s.row.value.status.Ready?
    requires r < s.nextJob && Enabled(s, RotateUpload(r))
    ensures Reach(s, acts, t)
    ensures t.row.Some? && t.row.value.status.Ready? && t.row.value.agent.None?
    ensures t.plane.Some? && t.plane.value.bundle.ReadyBundle?
  {
    var j, k := s.nextJob, s.nextJob + 1;
    var s1 := BothAsk(s);
    t := RevokesThenUploads(s1, j, r, k);
    var ask := Pair(RevokeRead, RevokeRead) + Pair(RevokeMark(j), RevokeStart(j, true));
    acts := ask + (RevokeScript(j) + UploadAndRestore(r, k));
    Append(s, ask, s1, RevokeScript(j) + UploadAndRestore(r, k), t);
  }

  function UploadAndRestore(r: JobId, k: JobId): seq<Action> {
    [RotateUpload(r)] + Pair(RevokeMark(k), RevokeStart(k, false))
  }

  lemma RevokesThenUploads(s: State, j: JobId, r: JobId, k: JobId) returns (t: State)
    requires Queues(s, j, Revoke) && r != j && k != j && k != r && Enabled(s, RotateUpload(r))
    requires k in s.jobs && k < s.nextJob && s.jobs[k].RevokeAsked? && !s.jobs[k].marked && s.jobs[k].restore.Ready?
    requires Owns(s, s.jobs[k].id)
    ensures Reach(s, RevokeScript(j) + UploadAndRestore(r, k), t)
    ensures t.row.Some? && t.row.value.status.Ready? && t.row.value.agent.None?
    ensures t.plane.Some? && t.plane.value.bundle.ReadyBundle?
  {
    RevokeRuns(s, j);
    var s1 := RevokedBy(s, j);
    var s2 := Next(s1, RotateUpload(r));
    t := LateRestore(s2, k);
    Then(s1, RotateUpload(r), s2, Pair(RevokeMark(k), RevokeStart(k, false)), t);
    Append(s, RevokeScript(j), s1, UploadAndRestore(r, k), t);
  }

  // ----- a finalize that outlives a revocation -----

  /**
   * A finalize and a revoke queued for the same completed row: if the finalize reads before the whole revocation and
   * uploads after it, the revoked Worker accepts the old token again.
   */
  lemma FinalizeRevives(s: State, j: JobId, k: JobId) returns (acts: seq<Action>, t: State)
    requires j != k && Queues(s, j, Finalize) && Queues(s, k, Revoke)
    requires s.row.value.agent.Some? && s.row.value.secrets.creds.Some?
    ensures Reach(s, acts, t)
    ensures t.row.Some? && t.row.value.status.Revoked? && Accepts(t.plane, s.row.value.subHash.token)
  {
    var s1 := Armed(s, j);
    FinalizeOpens(s, j);
    RevokeRuns(s1, k);
    var s2 := RevokedBy(s1, k);
    t := Next(s2, FinalizePublish(j));
    Then(s2, FinalizePublish(j), t, [], t);
    var late := [FinalizePublish(j)] + [];
    Append(s1, RevokeScript(k), s2, late, t);
    Append(s, FinalizeOpening(j), s1, RevokeScript(k) + late, t);
    acts := FinalizeOpening(j) + (RevokeScript(k) + late);
  }

  // ----- a rotation that outlives a revocation's upload -----

  /**
   * Two requests read a ready row while a completion has spent its token and not yet stored.  A rotation uploads and
   * lands between the upload and the write of the first one's instance, the completion brings the agent back, and the
   * second request, failing to start, puts `ready` back over a bundle under another hash.
   */
  lemma RotationOvertakesRevocation(s: State, c: JobId) returns (acts: seq<Action>, t: State)
    requires (forall i :: i in s.jobs ==> i < s.nextJob) && Enabled(s, RotateCheck) && s.row.value.secrets.creds.Some?
    requires c in s.jobs && s.jobs[c].Completing? && s.jobs[c].cpc.TokenConsumed? && Owns(s, s.jobs[c].id)
    ensures Reach(s, acts, t)
    ensures t.row.Some? && t.row.value.status.Ready? && t.row.value.agent.Some? && HoldsReady(t.plane)
    ensures !t.torn && t.plane.value.hash != t.row.value.subHash
  {
    var r, s1 := s.nextJob, Held(s);
    RotateReads(s, s1);
    var late;
    late, t := AskedBetween(s1, r, c);
    Append(s, Pair(RotateCheck, RotateRead(r)), s1, late, t);
    acts := Pair(RotateCheck, RotateRead(r)) + late;
  }

  lemma AskedBetween(s: State, r: JobId, c: JobId) returns (acts: seq<Action>, t: State)
    requires s.nextJob !in s.jobs && s.nextJob + 1 !in s.jobs && s.row.Some? && s.row.value.status.Ready?
    requires Enabled(s, RotateUpload(r)) && Owns(s, s.jobs[r].id) && Stores(s, c)
    ensures Reach(s, acts, t)
    ensures t.row.Some? && t.row.value.status.Ready? && t.row.value.agent.Some? && HoldsReady(t.plane)
    ensures !t.torn && t.plane.value.hash != t.row.value.subHash
  {
    var j, k := s.nextJob, s.nextJob + 1;
    var s1 := BothAsk(s);
    var late;
    late, t := LandsBetween(s1, r, j, k, c);
    var ask := Pair(RevokeRead, RevokeRead) + Pair(RevokeMark(j), RevokeStart(j, true));
    Append(s, ask, s1, late, t);
    acts := ask + late;
  }

  lemma LandsBetween(s: State, r: JobId, j: JobId, k: JobId, c: JobId) returns (acts: seq<Action>, t: State)
    requires Queues(s, j, Revoke) && Enabled(s, RotateUpload(r)) && Owns(s, s.jobs[r].id) && |{r, j, k, c}| == 4
    requires Recalls(s, k) && Stores(s, c)
    ensures Reach(s, acts, t)
    ensures t.row.Some? && t.row.value.status.Ready? && t.row.value.agent.Some? && HoldsReady(t.plane)
    ensures !t.torn && t.plane.value.hash != t.row.value.subHash
  {
    var first, s1 := Disables(s, j);
    var s2 := RotationLands(s1, r);
    assert s2.jobs[j] == s1.jobs[j] && s2.jobs[k] == s.jobs[k] && s2.jobs[c] == s.jobs[c];
    var close, s3 := RevokeCloses(s2, j);
    assert s3.jobs[k] == s.jobs[k] && s3.jobs[c] == s.jobs[c];
    var last;
    last, t := StoresAndRestores(s3, c, k);
    Append(s2, close, s3, last, t);
    Append(s1, Pair(RotateUpload(r), RotateCommit(r)), s2, close + last, t);
    Append(s, first, s1, Pair(RotateUpload(r), RotateCommit(r)) + (close + last), t);
    acts := first + (Pair(RotateUpload(r), RotateCommit(r)) + (close + last));
  }

  /** The revoke instance has uploaded, and its hash is older than any drawn later. */
  lemma Disables(s: State, j: JobId) returns (acts: seq<Action>, t: State)
    requires Queues(s, j, Revoke)
    ensures Reach(s, acts, t) && t.row == s.row && t.nextToken == s.nextToken + 1 && t.nextJob == s.nextJob
    ensures t.jobs == s.jobs[j := RevokeAt(s.row.value.id, RevokeDisabled(Sha(s.nextToken)))]
  {
    var s1 := s.(nextToken := s.nextToken + 1,
                 jobs := s.jobs[j := RevokeAt(s.row.value.id, RevokeChosen(Sha(s.nextToken)))]);
    RevokeBegins(s, j, s1);
    Snoc(s, Pair(Load(j), RevokeChoose(j)), s1, RevokeDisable(j));
    acts, t := Pair(Load(j), RevokeChoose(j)) + [RevokeDisable(j)], Next(s1, RevokeDisable(j));
    assert s1.jobs[j := t.jobs[j]] == t.jobs;
  }

  /** It writes its hash into the row and ends, leaving the Worker alone. */
  lemma RevokeCloses(s: State, j: JobId) returns (acts: seq<Action>, t: State)
    requires j in s.jobs && j < s.nextJob && Enabled(s, RevokeWrite(j)) && Owns(s, s.jobs[j].id)
    ensures Reach(s, acts, t) && Same(s.row, t.row) && t.row.value.subHash == s.jobs[j].rpc.h
    ensures t.plane == s.plane && t.torn == s.torn && t.jobs == s.jobs - {j} && t.nextJob == s.nextJob
  {
    var s1 := Next(s, RevokeWrite(j));
    t := s1.(row := Some(s1.row.value.(bootstrap := None)), jobs := s1.jobs - {j});
    RevokeEnds(s1, j, t);
    assert t.jobs == s.jobs - {j};
    acts := [RevokeWrite(j)] + Pair(RevokeErase(j), RevokeFinish(j));
    Then(s, RevokeWrite(j), s1, Pair(RevokeErase(j), RevokeFinish(j)), t);
  }

  /** The completion stores its agent, and the failing request puts `ready` back. */
  lemma StoresAndRestores(s: State, c: JobId, k: JobId) returns (acts: seq<Action>, t: State)
    requires c != k && Recalls(s, k) && Stores(s, c)
    ensures Reach(s, acts, t) && t.plane == s.plane && t.torn == s.torn
    ensures t.row.Some? && t.row.value.status.Ready? && t.row.value.agent.Some?
    ensures t.row.value.subHash == s.row.value.subHash
  {
    var s1 := Next(s, CompleteStore(c));
    t := LateRestore(s1, k);
    Then(s, CompleteStore(c), s1, Pair(RevokeMark(k), RevokeStart(k, false)), t);
    acts := [CompleteStore(c)] + Pair(RevokeMark(k), RevokeStart(k, false));
  }

  // ----- a rotation that outlives a revocation -----

  /** A request reads the row, marks it and queues its instance. */
  lemma Asks(s: State) returns (acts: seq<Action>, t: State)
    requires s.nextJob !in s.jobs && Enabled(s, RevokeRead)
    ensures Reach(s, acts, t)
    ensures t == s.(row := Some(s.row.value.(status := Revoking)), nextJob := s.nextJob + 1,
                    jobs := s.jobs[s.nextJob := Waiting(Revoke, s.row.value.id)])
  {
    var j, s1 := s.nextJob, Next(s, RevokeRead);
    t := s.(row := Some(s.row.value.(status := Revoking)), nextJob := j + 1,
            jobs := s.jobs[j := Waiting(Revoke, s.row.value.id)]);
    assert s1.jobs[j := t.jobs[j]] == t.jobs;
    FirstStarts(s1, j, t);
    Then(s, RevokeRead, s1, Pair(RevokeMark(j), RevokeStart(j, true)), t);
    acts := [RevokeRead] + Pair(RevokeMark(j), RevokeStart(j, true));
  }

  /**
   * On every ready row with a prepare queued: a rotation uploads, the row is revoked completely, and only then does the
   * rotation's batch land.  The prepare loads the row and publishes the token that the revocation had taken away.
   */
  lemma RotationRevives(s: State, k: JobId) returns (first: seq<Action>, s1: State, later: seq<Action>, t: State)
    requires (forall i :: i in s.jobs ==> i < s.nextJob) && Enabled(s, RotateCheck) && s.row.value.secrets.creds.Some?
    requires Queues(s, k, Prepare)
    ensures Reach(s, first, s1) && Reach(s1, later, t) && s.nextToken in s1.issued
    ensures s1.row.Some? && s1.row.value.status.Revoked? && !Accepts(s1.plane, s.nextToken)
    ensures Accepts(t.plane, s.nextToken)
  {
    first, s1 := SentThenRevoked(s);
    later, t := LandsLate(s1, s.nextJob, k);
  }

  lemma SentThenRevoked(s: State) returns (acts: seq<Action>, t: State)
    requires (forall i :: i in s.jobs ==> i < s.nextJob) && Enabled(s, RotateCheck) && s.row.value.secrets.creds.Some?
    ensures Reach(s, acts, t) && s.nextToken in t.issued && t.nextJob > s.nextJob
    ensures Same(s.row, t.row) && t.row.value.status.Revoked? && !Accepts(t.plane, s.nextToken)
    ensures var d := s.row.value;
      t.jobs == s.jobs[s.nextJob := Rotating(d.id, RotateSent(d.secrets, s.nextToken))]
  {
    var sent := SendsUpload(s);
    var ending;
    ending, t := AskedAndRevoked(Sent(s));
    Append(s, sent, Sent(s), ending, t);
    acts := sent + ending;
  }

  /** A request and its whole instance. */
  lemma AskedAndRevoked(s: State) returns (acts: seq<Action>, t: State)
    requires s.nextJob !in s.jobs && Enabled(s, RevokeRead)
    ensures Reach(s, acts, t) && t.jobs == s.jobs && t.nextJob > s.nextJob && t.issued == s.issued
    ensures Same(s.row, t.row) && t.row.value.status.Revoked?
    ensures t.plane.Some? && t.plane.value.hash == Sha(s.nextToken)
  {
    var j := s.nextJob;
    var ask, s1 := Asks(s);
    RevokeRuns(s1, j);
    t := RevokedBy(s1, j);
    assert t.jobs == s.jobs;
    Append(s, ask, s1, RevokeScript(j), t);
    acts := ask + RevokeScript(j);
  }

  lemma LandsLate(s: State, r: JobId, k: JobId) returns (acts: seq<Action>, t: State)
    requires r != k && Enabled(s, RotateCommit(r)) && Owns(s, s.jobs[r].id) && Queues(s, k, Prepare)
    ensures Reach(s, acts, t) && Accepts(t.plane, s.jobs[r].tpc.drawn)
  {
    var s1 := Next(s, RotateCommit(r));
    assert s1.jobs[k] == s.jobs[k];
    PrepareRuns(s1, k);
    t := s1.(row := Some(s1.row.value.(status := AwaitingAgent)), torn := false, jobs := s1.jobs - {k},
             plane := Upload(s1.row.value.subHash, PendingBundle));
    Then(s, RotateCommit(r), s1, PrepareScript(k), t);
    acts := [RotateCommit(r)] + PrepareScript(k);
  }
}
