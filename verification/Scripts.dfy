/** Uninterrupted workflow instances and request handlers, as runs of the atomic actions of `Lifecycle`. */
module Scripts {
  import opened Options
  import opened Lifecycle

  /** `acts` is a run from s to t. */
  ghost predicate Reach(s: State, acts: seq<Action>, t: State) {
    ValidRun(s, acts) && Final(s, acts) == t
  }

  lemma Then(s: State, a: Action, t: State, acts: seq<Action>, u: State)
    requires Enabled(s, a) && Next(s, a) == t && Reach(t, acts, u)
    ensures Reach(s, [a] + acts, u)
  {
    assert ([a] + acts)[1..] == acts;
  }

  lemma FirstStep(s: State, acts: seq<Action>, t: State) returns (next: State)
    requires acts != [] && Reach(s, acts, t)
    ensures Enabled(s, acts[0]) && next == Next(s, acts[0]) && Reach(next, acts[1..], t)
  {
    next := Next(s, acts[0]);
  }

  lemma {:induction false} Append(s: State, first: seq<Action>, t: State, second: seq<Action>, u: State)
    requires Reach(s, first, t) && Reach(t, second, u)
    ensures Reach(s, first + second, u)
    decreases |first|
  {
    if first == [] {
      assert first + second == second;
    } else {
      var next := FirstStep(s, first, t);
      Append(next, first[1..], t, second, u);
      Then(s, first[0], next, first[1..] + second, u);
      assert [first[0]] + (first[1..] + second) == first + second;
    }
  }

  function Pair(a: Action, b: Action): seq<Action> {
    [a] + ([b] + [])
  }

  lemma Twice(s: State, a: Action, t: State, b: Action, u: State)
    requires Enabled(s, a) && Next(s, a) == t && Enabled(t, b) && Next(t, b) == u
    ensures Reach(s, Pair(a, b), u)
  {
    Then(t, b, u, [], u);
    Then(s, a, t, [b] + [], u);
  }

  lemma Snoc(s: State, acts: seq<Action>, t: State, a: Action)
    requires Reach(s, acts, t) && Enabled(t, a)
    ensures Reach(s, acts + [a], Next(t, a))
  {
    Then(t, a, Next(t, a), [], Next(t, a));
    assert [a] + [] == [a];
    Append(s, acts, t, [a], Next(t, a));
  }

  /** A queued instance of the present row. */
  predicate Queues(s: State, j: JobId, kind: Kind) {
    j in s.jobs && j < s.nextJob && s.jobs[j].Waiting? && s.jobs[j].kind == kind && Owns(s, s.jobs[j].id)
  }

  // ----- workflow instances -----

  /** An instance whose row is gone throws while loading, and its catch marks a row that is not there. */
  lemma LoadMisses(s: State, j: JobId)
    requires j in s.jobs && j < s.nextJob && s.jobs[j].Waiting? && !Owns(s, s.jobs[j].id)
    ensures Reach(s, [Load(j)] + [], s.(jobs := s.jobs - {j}))
  {
    Then(s, Load(j), s.(jobs := s.jobs - {j}), [], s.(jobs := s.jobs - {j}));
  }

  /** A running instance that throws: the catch marks its row failed. */
  lemma FailRuns(s: State, first: seq<Action>, t: State, j: JobId, u: State)
    requires Reach(s, first, t) && j in t.jobs && j < t.nextJob && Enabled(t, Fail(j)) && Owns(t, Target(t.jobs[j]))
    requires u == t.(row := Some(t.row.value.(status := Failed)), jobs := t.jobs - {j})
    ensures Reach(s, first + ([Fail(j)] + []), u)
  {
    Then(t, Fail(j), u, [], u);
    Append(s, first, t, [Fail(j)] + [], u);
  }

  function PrepareScript(j: JobId): seq<Action> {
    Pair(Load(j), PrepareMark(j)) + (Pair(PrepareUpload(j), PrepareAwait(j)) + ([PrepareFinish(j)] + []))
  }

  lemma PrepareRuns(s: State, j: JobId)
    requires Queues(s, j, Prepare)
    ensures Reach(s, PrepareScript(j),
      s.(row := Some(s.row.value.(status := AwaitingAgent)), plane := Upload(s.row.value.subHash, PendingBundle),
         torn := false, jobs := s.jobs - {j}))
  {
    var d := s.row.value;
    var s2 := s.(row := Some(d.(status := Preparing)), jobs := s.jobs[j := PrepareAt(d, PrepareMarked)]);
    var s4 := s.(row := Some(d.(status := AwaitingAgent)), plane := Upload(d.subHash, PendingBundle),
                 torn := false, jobs := s.jobs[j := PrepareAt(d, PrepareAwaited)]);
    var s5 := s4.(jobs := s.jobs - {j});
    PrepareBegins(s, j, s2);
    PrepareUploads(s2, j, s4);
    assert s4.jobs - {j} == s.jobs - {j};
    Then(s4, PrepareFinish(j), s5, [], s5);
    Append(s2, Pair(PrepareUpload(j), PrepareAwait(j)), s4, [PrepareFinish(j)] + [], s5);
    Append(s, Pair(Load(j), PrepareMark(j)), s2, Pair(PrepareUpload(j), PrepareAwait(j)) + ([PrepareFinish(j)] + []),
           s5);
  }

  lemma PrepareBegins(s: State, j: JobId, t: State)
    requires Queues(s, j, Prepare)
    requires t == s.(row := Some(s.row.value.(status := Preparing)),
                     jobs := s.jobs[j := PrepareAt(s.row.value, PrepareMarked)])
    ensures Reach(s, Pair(Load(j), PrepareMark(j)), t)
  {
    var s1 := Next(s, Load(j));
    assert s1.jobs[j := t.jobs[j]] == t.jobs;
    Twice(s, Load(j), s1, PrepareMark(j), t);
  }

  lemma PrepareUploads(s: State, j: JobId, t: State)
    requires j in s.jobs && j < s.nextJob && s.jobs[j].PrepareAt? && s.jobs[j].ppc.PrepareMarked?
    requires Owns(s, s.jobs[j].snap.id)
    requires t == s.(row := Some(s.row.value.(status := AwaitingAgent)),
                     plane := Upload(s.jobs[j].snap.subHash, PendingBundle), torn := false,
                     jobs := s.jobs[j := PrepareAt(s.jobs[j].snap, PrepareAwaited)])
    ensures Reach(s, Pair(PrepareUpload(j), PrepareAwait(j)), t)
  {
    var s1 := Next(s, PrepareUpload(j));
    assert s1.jobs[j := t.jobs[j]] == t.jobs;
    Twice(s, PrepareUpload(j), s1, PrepareAwait(j), t);
  }

  function FinalizeOpening(j: JobId): seq<Action> {
    Pair(Load(j), FinalizeMark(j)) + Pair(FinalizeRead(j), FinalizeSecrets(j))
  }

  function FinalizeScript(j: JobId): seq<Action> {
    FinalizeOpening(j) + ([FinalizePublish(j)] + Pair(FinalizeReady(j), FinalizeFinish(j)))
  }

  /** The instance has read the row and the bundle and has not uploaded yet. */
  function Armed(s: State, j: JobId): State
    requires Queues(s, j, Finalize)
  {
    var d := s.row.value.(status := Finalizing);
    s.(row := Some(d), jobs := s.jobs[j := FinalizeAt(d.id, FinalizeArmed(d, d.secrets))])
  }

  lemma FinalizeOpens(s: State, j: JobId)
    requires Queues(s, j, Finalize) && s.row.value.agent.Some?
    ensures Reach(s, FinalizeOpening(j), Armed(s, j))
  {
    var d := s.row.value.(status := Finalizing);
    var s2 := s.(row := Some(d), jobs := s.jobs[j := FinalizeAt(d.id, FinalizeMarked)]);
    FinalizeBegins(s, j, s2);
    FinalizeReads(s2, j, Armed(s, j));
    Append(s, Pair(Load(j), FinalizeMark(j)), s2, Pair(FinalizeRead(j), FinalizeSecrets(j)), Armed(s, j));
  }

  lemma FinalizeBegins(s: State, j: JobId, t: State)
    requires Queues(s, j, Finalize)
    requires t == s.(row := Some(s.row.value.(status := Finalizing)),
                     jobs := s.jobs[j := FinalizeAt(s.row.value.id, FinalizeMarked)])
    ensures Reach(s, Pair(Load(j), FinalizeMark(j)), t)
  {
    var s1 := Next(s, Load(j));
    assert s1.jobs[j := t.jobs[j]] == t.jobs;
    Twice(s, Load(j), s1, FinalizeMark(j), t);
  }

  lemma FinalizeReads(s: State, j: JobId, t: State)
    requires j in s.jobs && j < s.nextJob && s.jobs[j].FinalizeAt? && s.jobs[j].fpc.FinalizeMarked?
    requires Owns(s, s.jobs[j].id) && s.row.value.agent.Some?
    requires t == s.(jobs := s.jobs[j := FinalizeAt(s.jobs[j].id, FinalizeArmed(s.row.value, s.row.value.secrets))])
    ensures Reach(s, Pair(FinalizeRead(j), FinalizeSecrets(j)), t)
  {
    var s1 := Next(s, FinalizeRead(j));
    assert s1.jobs[j := t.jobs[j]] == t.jobs;
    Twice(s, FinalizeRead(j), s1, FinalizeSecrets(j), t);
  }

  function Finalized(s: State, j: JobId): State
    requires s.row.Some? && s.row.value.secrets.creds.Some?
  {
    var d := s.row.value;
    s.(row := Some(d.(status := Ready)), torn := false, jobs := s.jobs - {j},
       plane := Upload(d.subHash, ReadyBundle(d.secrets.creds.value, d.secrets.subToken)))
  }

  lemma FinalizeRuns(s: State, j: JobId)
    requires Queues(s, j, Finalize) && s.row.value.agent.Some? && s.row.value.secrets.creds.Some?
    ensures Reach(s, FinalizeScript(j), Finalized(s, j))
  {
    FinalizeOpens(s, j);
    FinalizeCloses(Armed(s, j), j);
    assert Armed(s, j).jobs - {j} == s.jobs - {j};
    Append(s, FinalizeOpening(j), Armed(s, j), [FinalizePublish(j)] + Pair(FinalizeReady(j), FinalizeFinish(j)),
           Finalized(s, j));
  }

  lemma FinalizeCloses(s: State, j: JobId)
    requires j in s.jobs && j < s.nextJob && s.jobs[j].FinalizeAt? && s.jobs[j].fpc.FinalizeArmed?
    requires Owns(s, s.jobs[j].id)
    requires s.jobs[j].fpc.held == s.row.value && s.jobs[j].fpc.bundle == s.row.value.secrets
    requires s.row.value.secrets.creds.Some?
    ensures Reach(s, [FinalizePublish(j)] + Pair(FinalizeReady(j), FinalizeFinish(j)), Finalized(s, j))
  {
    var s1 := Next(s, FinalizePublish(j));
    var s2 := Next(s1, FinalizeReady(j));
    assert s2.jobs - {j} == s.jobs - {j};
    Twice(s1, FinalizeReady(j), s2, FinalizeFinish(j), Finalized(s, j));
    Then(s, FinalizePublish(j), s1, Pair(FinalizeReady(j), FinalizeFinish(j)), Finalized(s, j));
  }

  function RevokeScript(j: JobId): seq<Action> {
    Pair(Load(j), RevokeChoose(j)) + (Pair(RevokeDisable(j), RevokeWrite(j)) + Pair(RevokeErase(j), RevokeFinish(j)))
  }

  function RevokedBy(s: State, j: JobId): State
    requires s.row.Some?
  {
    var h := Sha(s.nextToken);
    s.(row := Some(s.row.value.(status := Status.Revoked, subHash := h, agent := None, bootstrap := None)),
       plane := Upload(h, PendingBundle), torn := false, nextToken := s.nextToken + 1, jobs := s.jobs - {j})
  }

  lemma RevokeRuns(s: State, j: JobId)
    requires Queues(s, j, Revoke)
    ensures Reach(s, RevokeScript(j), RevokedBy(s, j))
  {
    var d, h := s.row.value, Sha(s.nextToken);
    var s2 := s.(nextToken := s.nextToken + 1, jobs := s.jobs[j := RevokeAt(d.id, RevokeChosen(h))]);
    var s4 := s2.(row := Some(d.(status := Status.Revoked, subHash := h, agent := None)),
                  plane := Upload(h, PendingBundle), torn := false,
                  jobs := s.jobs[j := RevokeAt(d.id, RevokeWritten(h))]);
    RevokeBegins(s, j, s2);
    assert s2.jobs[j := s4.jobs[j]] == s4.jobs;
    RevokeWrites(s2, j, s4);
    assert s4.jobs - {j} == s.jobs - {j};
    RevokeEnds(s4, j, RevokedBy(s, j));
    Append(s2, Pair(RevokeDisable(j), RevokeWrite(j)), s4, Pair(RevokeErase(j), RevokeFinish(j)), RevokedBy(s, j));
    Append(s, Pair(Load(j), RevokeChoose(j)), s2,
           Pair(RevokeDisable(j), RevokeWrite(j)) + Pair(RevokeErase(j), RevokeFinish(j)), RevokedBy(s, j));
  }

  lemma RevokeBegins(s: State, j: JobId, t: State)
    requires Queues(s, j, Revoke)
    requires t == s.(nextToken := s.nextToken + 1,
                     jobs := s.jobs[j := RevokeAt(s.row.value.id, RevokeChosen(Sha(s.nextToken)))])
    ensures Reach(s, Pair(Load(j), RevokeChoose(j)), t)
  {
    var s1 := Next(s, Load(j));
    assert s1.jobs[j := t.jobs[j]] == t.jobs;
    Twice(s, Load(j), s1, RevokeChoose(j), t);
  }

  lemma RevokeWrites(s: State, j: JobId, t: State)
    requires j in s.jobs && j < s.nextJob && s.jobs[j].RevokeAt? && s.jobs[j].rpc.RevokeChosen? && Owns(s, s.jobs[j].id)
    requires var h := s.jobs[j].rpc.h;
      t == s.(row := Some(s.row.value.(status := Status.Revoked, subHash := h, agent := None)),
              plane := Upload(h, PendingBundle), torn := false,
              jobs := s.jobs[j := RevokeAt(s.jobs[j].id, RevokeWritten(h))])
    ensures Reach(s, Pair(RevokeDisable(j), RevokeWrite(j)), t)
  {
    var s1 := Next(s, RevokeDisable(j));
    assert s1.jobs[j := t.jobs[j]] == t.jobs;
    Twice(s, RevokeDisable(j), s1, RevokeWrite(j), t);
  }

  lemma RevokeEnds(s: State, j: JobId, t: State)
    requires j in s.jobs && j < s.nextJob && s.jobs[j].RevokeAt? && s.jobs[j].rpc.RevokeWritten?
    requires Owns(s, s.jobs[j].id)
    requires t == s.(row := Some(s.row.value.(bootstrap := None)), jobs := s.jobs - {j})
    ensures Reach(s, Pair(RevokeErase(j), RevokeFinish(j)), t)
  {
    var s1 := Next(s, RevokeErase(j));
    assert s1.jobs - {j} == t.jobs;
    Twice(s, RevokeErase(j), s1, RevokeFinish(j), t);
  }

  // ----- request handlers -----

  function RotateScript(j: JobId): seq<Action> {
    Pair(RotateCheck, RotateRead(j)) + Pair(RotateUpload(j), RotateCommit(j))
  }

  function Rotated(s: State): State
    requires s.row.Some? && s.row.value.secrets.creds.Some?
  {
    var d, t := s.row.value, s.nextToken;
    s.(row := Some(d.(subHash := Sha(t), secrets := d.secrets.(subToken := t))), torn := false,
       nextJob := s.nextJob + 1,
       plane := Upload(Sha(t), ReadyBundle(d.secrets.creds.value, t)), nextToken := t + 1, issued := s.issued + {t})
  }

  lemma RotateRuns(s: State)
    requires s.nextJob !in s.jobs && Enabled(s, RotateCheck) && s.row.value.secrets.creds.Some?
    ensures Reach(s, RotateScript(s.nextJob), Rotated(s))
  {
    var j := s.nextJob;
    var s2 := s.(jobs := s.jobs[j := Rotating(s.row.value.id, RotateHolds(s.row.value.secrets))], nextJob := j + 1);
    RotateReads(s, s2);
    assert s2.jobs - {j} == s.jobs;
    RotateWrites(s2, j, Rotated(s));
    Append(s, Pair(RotateCheck, RotateRead(j)), s2, Pair(RotateUpload(j), RotateCommit(j)), Rotated(s));
  }

  lemma RotateReads(s: State, t: State)
    requires s.nextJob !in s.jobs && Enabled(s, RotateCheck)
    requires var j := s.nextJob;
      t == s.(jobs := s.jobs[j := Rotating(s.row.value.id, RotateHolds(s.row.value.secrets))], nextJob := j + 1)
    ensures Reach(s, Pair(RotateCheck, RotateRead(s.nextJob)), t)
  {
    var j, s1 := s.nextJob, Next(s, RotateCheck);
    assert s1.jobs[j := t.jobs[j]] == t.jobs;
    Twice(s, RotateCheck, s1, RotateRead(j), t);
  }

  lemma RotateWrites(s: State, j: JobId, t: State)
    requires j in s.jobs && j < s.nextJob && s.jobs[j].Rotating? && s.jobs[j].tpc.RotateHolds? && Owns(s, s.jobs[j].id)
    requires s.jobs[j].tpc.secrets == s.row.value.secrets && s.row.value.secrets.creds.Some?
    requires var d, n := s.row.value, s.nextToken;
      t == s.(row := Some(d.(subHash := Sha(n), secrets := d.secrets.(subToken := n))), torn := false,
              plane := Upload(Sha(n), ReadyBundle(d.secrets.creds.value, n)),
              nextToken := n + 1, issued := s.issued + {n},
              jobs := s.jobs - {j})
    ensures Reach(s, Pair(RotateUpload(j), RotateCommit(j)), t)
  {
    var s1 := Next(s, RotateUpload(j));
    assert s1.jobs - {j} == t.jobs;
    Twice(s, RotateUpload(j), s1, RotateCommit(j), t);
  }

  /** A rotation of the ready row has read the bundle. */
  function Held(s: State): State
    requires s.row.Some?
  {
    var d := s.row.value;
    s.(jobs := s.jobs[s.nextJob := Rotating(d.id, RotateHolds(d.secrets))], nextJob := s.nextJob + 1)
  }

  /** It has uploaded, and its batch is still to come. */
  function Sent(s: State): State
    requires s.row.Some? && s.row.value.secrets.creds.Some?
  {
    var d, n := s.row.value, s.nextToken;
    s.(jobs := s.jobs[s.nextJob := Rotating(d.id, RotateSent(d.secrets, n))], nextJob := s.nextJob + 1,
       plane := Upload(Sha(n), ReadyBundle(d.secrets.creds.value, n)), nextToken := n + 1,
       issued := s.issued + {n}, torn := true)
  }

  lemma Uploaded(s: State, held: State)
    requires s.row.Some? && s.row.value.secrets.creds.Some? && held == Held(s)
    ensures Enabled(held, RotateUpload(s.nextJob)) && Next(held, RotateUpload(s.nextJob)) == Sent(s)
  {
    assert held.jobs[s.nextJob := Sent(s).jobs[s.nextJob]] == Sent(s).jobs;
  }

  lemma SendsUpload(s: State) returns (acts: seq<Action>)
    requires s.nextJob !in s.jobs && Enabled(s, RotateCheck) && s.row.value.secrets.creds.Some?
    ensures acts == Pair(RotateCheck, RotateRead(s.nextJob)) + [RotateUpload(s.nextJob)] && Reach(s, acts, Sent(s))
  {
    var j, s1 := s.nextJob, Held(s);
    RotateReads(s, s1);
    Uploaded(s, s1);
    Snoc(s, Pair(RotateCheck, RotateRead(j)), s1, RotateUpload(j));
    acts := Pair(RotateCheck, RotateRead(j)) + [RotateUpload(j)];
  }

  function CompleteOpening(j: JobId, token: Token, creds: nat, agent: Token, now: nat): seq<Action> {
    Pair(CompleteRead(token, creds, agent, now), CompleteSecrets(j))
  }

  /** The completion has looked its token up and read the bundle. */
  function Presented(s: State, token: Token, creds: nat, agent: Token): State
    requires s.row.Some?
  {
    var job := Completing(s.row.value.id, token, creds, agent, SecretsRead(s.row.value.secrets));
    s.(jobs := s.jobs[s.nextJob := job], nextJob := s.nextJob + 1)
  }

  lemma CompleteOpens(s: State, token: Token, creds: nat, agent: Token, now: nat)
    requires s.nextJob !in s.jobs && Enabled(s, CompleteRead(token, creds, agent, now))
    ensures Reach(s, CompleteOpening(s.nextJob, token, creds, agent, now), Presented(s, token, creds, agent))
  {
    var j, t := s.nextJob, Presented(s, token, creds, agent);
    var s1 := Next(s, CompleteRead(token, creds, agent, now));
    assert s1.jobs[j := t.jobs[j]] == t.jobs;
    Twice(s, CompleteRead(token, creds, agent, now), s1, CompleteSecrets(j), t);
  }

  function CompleteClosing(j: JobId, started: bool): seq<Action> {
    [CompleteConsume(j)] + Pair(CompleteStore(j), CompleteStart(j, started))
  }

  /** The bundle a completion stores is the one it read, with the new credentials. */
  function Completed(s: State, j: JobId, started: bool): State
    requires j in s.jobs && s.jobs[j].Completing? && s.jobs[j].cpc.SecretsRead? && s.row.Some?
    requires s.row.value.bootstrap.Some?
  {
    var job, d := s.jobs[j], s.row.value;
    s.(row := Some(d.(secrets := job.cpc.secrets.(creds := Some(job.creds)), agent := Some(job.agent),
                      status := AgentReady,
                      bootstrap := Some(d.bootstrap.value.(consumed := true)))),
       jobs := if started then s.jobs[j := Waiting(Finalize, job.id)] else s.jobs - {j})
  }

  lemma CompleteCloses(s: State, j: JobId, started: bool)
    requires j in s.jobs && j < s.nextJob && s.jobs[j].Completing? && s.jobs[j].cpc.SecretsRead?
    requires Owns(s, s.jobs[j].id) && LiveToken(s, s.jobs[j].token)
    ensures Reach(s, CompleteClosing(j, started), Completed(s, j, started))
  {
    var s1 := Next(s, CompleteConsume(j));
    CompleteStores(s1, j, started, Completed(s, j, started));
    Then(s, CompleteConsume(j), s1, Pair(CompleteStore(j), CompleteStart(j, started)), Completed(s, j, started));
  }

  lemma CompleteStores(s: State, j: JobId, started: bool, t: State)
    requires j in s.jobs && j < s.nextJob && s.jobs[j].Completing? && s.jobs[j].cpc.TokenConsumed?
    requires Owns(s, s.jobs[j].id)
    requires var job := s.jobs[j];
      && t.row == Some(s.row.value.(secrets := job.cpc.secrets.(creds := Some(job.creds)), agent := Some(job.agent),
                                    status := AgentReady))
      && t == s.(row := t.row, jobs := if started then s.jobs[j := Waiting(Finalize, job.id)] else s.jobs - {j})
    ensures Reach(s, Pair(CompleteStore(j), CompleteStart(j, started)), t)
  {
    var s1 := Next(s, CompleteStore(j));
    var queued := Waiting(Finalize, s.jobs[j].id);
    assert s1.jobs - {j} == s.jobs - {j} && s1.jobs[j := queued] == s.jobs[j := queued];
    Twice(s, CompleteStore(j), s1, CompleteStart(j, started), t);
  }

  function Reissued(s: State, expires: nat): State
    requires s.row.Some?
  {
    s.(row := Some(s.row.value.(bootstrap := Some(Bootstrap(s.nextToken, false, expires)))),
       nextJob := s.nextJob + 1, nextToken := s.nextToken + 1)
  }

  lemma ReissueRuns(s: State, expires: nat)
    requires s.nextJob !in s.jobs && Enabled(s, ReissueRead)
    ensures Reach(s, Pair(ReissueRead, ReissueWrite(s.nextJob, expires)), Reissued(s, expires))
  {
    var s1 := Next(s, ReissueRead);
    assert s1.jobs - {s.nextJob} == s.jobs;
    Twice(s, ReissueRead, s1, ReissueWrite(s.nextJob, expires), Reissued(s, expires));
  }

  function Retried(s: State): State
    requires s.row.Some?
  {
    var kind := if s.row.value.agent.Some? then Finalize else Prepare;
    s.(jobs := s.jobs[s.nextJob := Waiting(kind, s.row.value.id)], nextJob := s.nextJob + 1)
  }

  lemma RetryRuns(s: State)
    requires s.nextJob !in s.jobs && Enabled(s, RetryRead)
    ensures Reach(s, Pair(RetryRead, RetryStart(s.nextJob)), Retried(s))
  {
    var s1 := Next(s, RetryRead);
    assert s1.jobs[s.nextJob := Retried(s).jobs[s.nextJob]] == Retried(s).jobs;
    Twice(s, RetryRead, s1, RetryStart(s.nextJob), Retried(s));
  }
}
