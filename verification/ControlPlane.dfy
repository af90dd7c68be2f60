/**
 * The control plane as the source writes it: an object whose methods update the row, the instance list and the Worker
 * in sequence.  Each method is one uninterrupted execution.  It is proved to be a run of the atomic actions that
 * `Lifecycle` lets other jobs interleave with, and says what the caller is left with.
 */
module ControlPlane {
  import opened Options
  import opened Lifecycle
  import opened Scripts

  /** The run of an instance whose row is gone. */
  function MissScript(j: JobId): seq<Action> {
    [Load(j)] + []
  }

  /** What becomes of the calls to Cloudflare: all succeed, the first one fails, or one after the upload does. */
  datatype Luck = Done | Refused | Cut

  /** The run of an instance that throws after the given steps. */
  function FailScript(j: JobId, steps: seq<Action>): seq<Action> {
    steps + ([Fail(j)] + [])
  }

  function PreparePart(j: JobId, cut: bool): seq<Action> {
    var marks := Pair(Load(j), PrepareMark(j));
    if cut then marks + [PrepareUpload(j)] else marks
  }

  function FinalizePart(j: JobId, cut: bool): seq<Action> {
    if cut then FinalizeOpening(j) + [FinalizePublish(j)] else Pair(Load(j), FinalizeMark(j))
  }

  function RevokePart(j: JobId, cut: bool): seq<Action> {
    var chooses := Pair(Load(j), RevokeChoose(j));
    if cut then chooses + [RevokeDisable(j)] else chooses
  }

  function RotationScript(j: JobId, luck: Luck): seq<Action> {
    var start := Pair(RotateCheck, RotateRead(j));
    match luck
    case Done => RotateScript(j)
    case Refused => start + [RotateAbort(j)]
    case Cut => start + [RotateUpload(j)] + [RotateAbort(j)]
  }

  function CompleteScript(j: JobId, token: Token, creds: nat, agent: Token, now: nat, started: bool): seq<Action> {
    CompleteOpening(j, token, creds, agent, now) + CompleteClosing(j, started)
  }

  class Plane {
    var row: Option<Deployment>
    var published: Option<Published>
    var jobs: map<JobId, Job>
    var nextJob: JobId
    var nextToken: Token
    var issued: set<Token>
    var torn: bool

    ghost function View(): State
      reads this
    {
      State(row, published, jobs, nextJob, nextToken, issued, torn)
    }

    /** A queued instance of the given kind. */
    ghost predicate Queued(j: JobId, kind: Kind)
      reads this
    {
      j in jobs && j < nextJob && jobs[j].Waiting? && jobs[j].kind == kind
    }

    method UpdateStatus(id: Token, status: Status)
      modifies this`row
      ensures row == WithStatus(old(View()), id, status)
    {
      if row.Some? && row.value.id == id {
        row := Some(row.value.(status := status));
      }
    }

    /** `loadDeployment`: false where it throws because the row is gone; the catch then finds nothing to mark. */
    method LoadDeployment(j: JobId) returns (found: bool, ghost run: seq<Action>)
      requires j in jobs && j < nextJob && jobs[j].Waiting?
      modifies this`jobs
      ensures found <==> Owns(old(View()), old(jobs)[j].id)
      ensures found ==> jobs == old(jobs)
      ensures !found ==> run == MissScript(j) && Reach(old(View()), run, View())
    {
      run := MissScript(j);
      found := row.Some? && row.value.id == jobs[j].id;
      if !found {
        LoadMisses(View(), j);
        jobs := jobs - {j};
      }
    }

    /** `prepare`: the upload stands even if a later call fails. */
    method Prepare(j: JobId, luck: Luck) returns (ok: bool, ghost run: seq<Action>)
      requires Queued(j, Kind.Prepare)
      modifies this
      ensures ok <==> luck.Done? && Owns(old(View()), old(jobs)[j].id)
      ensures Reach(old(View()), run, View())
      ensures run == if !Owns(old(View()), old(jobs)[j].id) then MissScript(j)
                     else if ok then PrepareScript(j) else FailScript(j, PreparePart(j, luck.Cut?))
      ensures ok ==> row.Some? && row.value.status.AwaitingAgent?
      ensures published == if luck.Refused? || !Owns(old(View()), old(jobs)[j].id) then old(published)
                           else Upload(old(row).value.subHash, PendingBundle)
    {
      ok, run := LoadDeployment(j);
      if !ok { return; }
      var deployment := row.value;
      ok := luck.Done?;
      if ok {
        PrepareRuns(View(), j);
        run := PrepareScript(j);
      } else {
        run := PrepareFails(View(), j, luck.Cut?);
      }
      UpdateStatus(deployment.id, Preparing);
      if !luck.Refused? { published, torn := Some(Published(deployment.subHash, PendingBundle)), false; }
      UpdateStatus(deployment.id, if ok then AwaitingAgent else Failed);
      jobs := jobs - {j};
    }

    /** `finalize`: it uploads exactly if the agent has reported, the credentials are there and Cloudflare answers. */
    method Finalize(j: JobId, luck: Luck) returns (ok: bool, ghost run: seq<Action>)
      requires Queued(j, Kind.Finalize)
      modifies this
      ensures ok <==> luck.Done? && Uploadable(old(View()), old(jobs)[j].id)
      ensures Reach(old(View()), run, View())
      ensures run == if !Owns(old(View()), old(jobs)[j].id) then MissScript(j)
                     else if ok then FinalizeScript(j)
                     else FailScript(j, FinalizePart(j, luck.Cut? && Uploadable(old(View()), old(jobs)[j].id)))
      ensures row.Some? && row.value.status.Ready? ==> ok || old(row) == row
      ensures if !luck.Refused? && Uploadable(old(View()), old(jobs)[j].id)
              then forall t: Token :: Accepts(published, t) <==> row.Some? && row.value.subHash == Sha(t)
              else published == old(published)
    {
      ok, run := LoadDeployment(j);
      if !ok { return; }
      var id := row.value.id;
      var uploads := !luck.Refused? && row.value.agent.Some? && row.value.secrets.creds.Some?;
      ok := uploads && luck.Done?;
      if ok {
        FinalizeRuns(View(), j);
        run := FinalizeScript(j);
      } else {
        run := FinalizeFails(View(), j, uploads);
      }
      UpdateStatus(id, Finalizing);
      if uploads {
        var current := row.value;
        var bundle := ReadyBundle(current.secrets.creds.value, current.secrets.subToken);
        published := Some(Published(current.subHash, bundle));
        torn := false;
      }
      UpdateStatus(id, if ok then Ready else Failed);
      jobs := jobs - {j};
    }

    /** `revoke`: once its upload succeeds, no token handed out so far is accepted, even if a later call fails. */
    method Revoke(j: JobId, luck: Luck) returns (ok: bool, ghost run: seq<Action>)
      requires Queued(j, Kind.Revoke)
      modifies this
      ensures ok <==> luck.Done? && Owns(old(View()), old(jobs)[j].id)
      ensures Reach(old(View()), run, View())
      ensures run == if !Owns(old(View()), old(jobs)[j].id) then MissScript(j)
                     else if ok then RevokeScript(j) else FailScript(j, RevokePart(j, luck.Cut?))
      ensures ok ==> row.Some? && row.value.status.Revoked? && row.value.agent.None? && row.value.bootstrap.None?
      ensures if !luck.Refused? && Owns(old(View()), old(jobs)[j].id)
              then forall t: Token :: t < old(nextToken) ==> !Accepts(published, t)
              else published == old(published)
    {
      ok, run := LoadDeployment(j);
      if !ok { return; }
      ok := luck.Done?;
      if ok {
        RevokeRuns(View(), j);
        run := RevokeScript(j);
      } else {
        run := RevokeFails(View(), j, luck.Cut?);
      }
      var replacement := Sha(nextToken);
      nextToken := nextToken + 1;
      if !luck.Refused? { published, torn := Some(Published(replacement, PendingBundle)), false; }
      if ok {
        row := Some(row.value.(status := Status.Revoked, subHash := replacement, agent := None));
        row := Some(row.value.(bootstrap := None));
      } else {
        UpdateStatus(row.value.id, Failed);
      }
      jobs := jobs - {j};
    }

    /** `completeBootstrap`: passes with a live unexpired token and a valid payload, and spends the token. */
    method CompleteBootstrap(token: Token, creds: nat, agent: Token, now: nat, valid: bool, started: bool)
      returns (ok: bool, ghost run: seq<Action>)
      requires nextJob !in jobs
      modifies this
      ensures ok <==> (valid && old(row).Some? && old(row).value.bootstrap.Some?
                       && old(row).value.bootstrap.value.token == token && !old(row).value.bootstrap.value.consumed
                       && now < old(row).value.bootstrap.value.expires)
      ensures Reach(old(View()), run, View())
      ensures ok ==> run == CompleteScript(old(nextJob), token, creds, agent, now, started)
      ensures ok ==> row.Some? && row.value.bootstrap.Some? && row.value.bootstrap.value.consumed
      ensures ok ==> row.value.agent == Some(agent) && row.value.secrets.creds == Some(creds)
      ensures !ok ==> View() == old(View())
    {
      ok, run := false, [];
      if row.None? || row.value.bootstrap.None? { return; }
      var b := row.value.bootstrap.value;
      if b.token != token || b.consumed || now >= b.expires || !valid { return; }
      run := CompletionRuns(View(), token, creds, agent, now, started);
      var merged := row.value.secrets.(creds := Some(creds));
      row := Some(row.value.(bootstrap := Some(b.(consumed := true))));
      row := Some(row.value.(secrets := merged, agent := Some(agent), status := AgentReady));
      if started { jobs := jobs[nextJob := Waiting(Kind.Finalize, row.value.id)]; }
      nextJob := nextJob + 1;
      ok := true;
    }

    /**
     * `rotateSubscriptionToken`: afterwards the Worker accepts exactly the new token; if the upload lands and the batch
     * does not, it is a token that the database does not know.
     */
    method RotateSubscriptionToken(luck: Luck) returns (token: Option<Token>, ghost run: seq<Action>)
      requires nextJob !in jobs
      modifies this
      ensures token.Some? <==> luck.Done? && Rotatable(old(View()))
      ensures Reach(old(View()), run, View())
      ensures run == if Rotatable(old(View())) then RotationScript(old(nextJob), luck) else []
      ensures token.Some? ==> token.value == old(nextToken)
      ensures token.Some? ==> row.Some? && row.value.subHash == Sha(token.value)
      ensures if luck.Refused? || !Rotatable(old(View())) then published == old(published)
              else forall t: Token :: Accepts(published, t) <==> t == old(nextToken)
      ensures token.None? ==> row == old(row)
    {
      token, run := None, [];
      if row.None? || row.value.status != Ready || row.value.agent.None? || row.value.secrets.creds.None? {
        Stays(View());
        return;
      }
      run := Rotates(View(), luck);
      token := Rotate(luck);
    }

    /** The writes of a rotation: the upload, and if it landed the batch. */
    method Rotate(luck: Luck) returns (token: Option<Token>)
      requires Rotatable(View())
      modifies this
      ensures View() == AfterRotation(old(View()), luck)
      ensures token == if luck.Done? then Some(old(nextToken)) else None
    {
      token := None;
      var secrets, drawn := row.value.secrets, nextToken;
      nextJob := nextJob + 1;
      if !luck.Refused? {
        nextToken := nextToken + 1;
        issued := issued + {drawn};
        published := Some(Published(Sha(drawn), ReadyBundle(secrets.creds.value, drawn)));
        torn := luck.Cut?;
      }
      if luck.Done? {
        row := Some(row.value.(subHash := Sha(drawn), secrets := secrets.(subToken := drawn)));
        token := Some(drawn);
      }
    }
  }

  /** The row is there with its agent and credentials. */
  predicate Uploadable(s: State, id: Token) {
    Owns(s, id) && s.row.value.agent.Some? && s.row.value.secrets.creds.Some?
  }

  predicate Rotatable(s: State) {
    s.row.Some? && s.row.value.status.Ready? && s.row.value.agent.Some? && s.row.value.secrets.creds.Some?
  }

  lemma Stays(s: State)
    ensures Reach(s, [], s)
  {
  }

  // ----- the failing runs -----

  lemma PrepareFails(s: State, j: JobId, cut: bool) returns (run: seq<Action>)
    requires Queues(s, j, Prepare)
    ensures run == FailScript(j, PreparePart(j, cut))
    ensures Reach(s, run, s.(row := Some(s.row.value.(status := Failed)), jobs := s.jobs - {j},
                             torn := s.torn && !cut,
                             plane := if cut then Upload(s.row.value.subHash, PendingBundle) else s.plane))
  {
    var t := s.(row := Some(s.row.value.(status := Preparing)),
                jobs := s.jobs[j := PrepareAt(s.row.value, PrepareMarked)]);
    PrepareBegins(s, j, t);
    run := FailScript(j, PreparePart(j, cut));
    if cut { Snoc(s, Pair(Load(j), PrepareMark(j)), t, PrepareUpload(j)); }
    Fails(s, PreparePart(j, cut), if cut then Next(t, PrepareUpload(j)) else t, j, s.jobs);
  }

  /** The instance throws, and its list is again the one before it but for itself. */
  lemma Fails(s: State, steps: seq<Action>, t: State, j: JobId, jobs: map<JobId, Job>)
    requires Reach(s, steps, t) && j in t.jobs && j < t.nextJob && Enabled(t, Fail(j)) && Owns(t, Target(t.jobs[j]))
    requires t.jobs == jobs[j := t.jobs[j]]
    ensures Reach(s, FailScript(j, steps), t.(row := Some(t.row.value.(status := Failed)), jobs := jobs - {j}))
  {
    assert t.jobs - {j} == jobs - {j};
    FailRuns(s, steps, t, j, t.(row := Some(t.row.value.(status := Failed)), jobs := jobs - {j}));
  }

  lemma FinalizeFails(s: State, j: JobId, cut: bool) returns (run: seq<Action>)
    requires Queues(s, j, Finalize) && (cut ==> Uploadable(s, s.jobs[j].id))
    ensures run == FailScript(j, FinalizePart(j, cut))
    ensures var d := s.row.value;
      Reach(s, run, s.(row := Some(d.(status := Failed)), jobs := s.jobs - {j}, torn := s.torn && !cut,
                       plane := if cut then Upload(d.subHash, ReadyBundle(d.secrets.creds.value, d.secrets.subToken))
                                else s.plane))
  {
    run := FailScript(j, FinalizePart(j, cut));
    if cut {
      FinalizeOpens(s, j);
      var t := Armed(s, j);
      Snoc(s, FinalizeOpening(j), t, FinalizePublish(j));
      Fails(s, FinalizePart(j, true), Next(t, FinalizePublish(j)), j, s.jobs);
    } else {
      var t := s.(row := Some(s.row.value.(status := Finalizing)),
                  jobs := s.jobs[j := FinalizeAt(s.row.value.id, FinalizeMarked)]);
      FinalizeBegins(s, j, t);
      Fails(s, FinalizePart(j, false), t, j, s.jobs);
    }
  }

  lemma RevokeFails(s: State, j: JobId, cut: bool) returns (run: seq<Action>)
    requires Queues(s, j, Revoke)
    ensures run == FailScript(j, RevokePart(j, cut))
    ensures Reach(s, run, s.(row := Some(s.row.value.(status := Failed)), nextToken := s.nextToken + 1,
                             jobs := s.jobs - {j},
                             torn := s.torn && !cut,
                             plane := if cut then Upload(Sha(s.nextToken), PendingBundle) else s.plane))
  {
    var t := s.(nextToken := s.nextToken + 1,
                jobs := s.jobs[j := RevokeAt(s.row.value.id, RevokeChosen(Sha(s.nextToken)))]);
    RevokeBegins(s, j, t);
    run := FailScript(j, RevokePart(j, cut));
    if cut { Snoc(s, Pair(Load(j), RevokeChoose(j)), t, RevokeDisable(j)); }
    Fails(s, RevokePart(j, cut), if cut then Next(t, RevokeDisable(j)) else t, j, s.jobs);
  }

  /** The state a rotation leaves. */
  function AfterRotation(s: State, luck: Luck): State
    requires Rotatable(s)
  {
    match luck
    case Done => Rotated(s)
    case Refused => s.(nextJob := s.nextJob + 1)
    case Cut => Sent(s).(jobs := s.jobs)
  }

  lemma Rotates(s: State, luck: Luck) returns (run: seq<Action>)
    requires s.nextJob !in s.jobs && Rotatable(s)
    ensures run == RotationScript(s.nextJob, luck)
    ensures Reach(s, run, AfterRotation(s, luck))
  {
    match luck
    case Done => RotateRuns(s); run := RotateScript(s.nextJob);
    case Refused => run := RotateRefused(s);
    case Cut => run := RotateTorn(s);
  }

  lemma RotateRefused(s: State) returns (run: seq<Action>)
    requires s.nextJob !in s.jobs && Rotatable(s)
    ensures run == RotationScript(s.nextJob, Refused) && Reach(s, run, s.(nextJob := s.nextJob + 1))
  {
    var j, t := s.nextJob, Held(s);
    RotateReads(s, t);
    Snoc(s, Pair(RotateCheck, RotateRead(j)), t, RotateAbort(j));
    assert t.jobs - {j} == s.jobs;
    run := RotationScript(j, Refused);
  }

  lemma RotateTorn(s: State) returns (run: seq<Action>)
    requires s.nextJob !in s.jobs && Rotatable(s)
    ensures run == RotationScript(s.nextJob, Cut) && Reach(s, run, Sent(s).(jobs := s.jobs))
  {
    run := SendsUpload(s);
    Snoc(s, run, Sent(s), RotateAbort(s.nextJob));
    assert Sent(s).jobs - {s.nextJob} == s.jobs;
    run := RotationScript(s.nextJob, Cut);
  }

  lemma CompletionRuns(s: State, token: Token, creds: nat, agent: Token, now: nat, started: bool)
    returns (run: seq<Action>)
    requires s.nextJob !in s.jobs && Enabled(s, CompleteRead(token, creds, agent, now))
    ensures run == CompleteScript(s.nextJob, token, creds, agent, now, started)
    ensures var d := s.row.value;
      Reach(s, run,
        s.(row := Some(d.(secrets := d.secrets.(creds := Some(creds)), agent := Some(agent), status := AgentReady,
                          bootstrap := Some(d.bootstrap.value.(consumed := true)))), nextJob := s.nextJob + 1,
           jobs := if started then s.jobs[s.nextJob := Waiting(Finalize, d.id)] else s.jobs))
  {
    var j, s1 := s.nextJob, Presented(s, token, creds, agent);
    CompleteOpens(s, token, creds, agent, now);
    CompleteCloses(s1, j, started);
    assert s1.jobs - {j} == s.jobs;
    assert s1.jobs[j := Waiting(Finalize, s.row.value.id)] == s.jobs[j := Waiting(Finalize, s.row.value.id)];
    run := CompleteScript(j, token, creds, agent, now, started);
    Append(s, CompleteOpening(j, token, creds, agent, now), s1, CompleteClosing(j, started), Completed(s1, j, started));
  }
}
