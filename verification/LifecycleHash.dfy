/**
 * When the Worker of a ready row checks the stored hash.
 *
 * Uploads carry a hash that was read earlier, and hash writes follow uploads made earlier, so beyond the discipline of
 * `LifecycleReady` two kinds of step must not happen: a finalize uploading a hash that has been replaced since it read
 * it, and a rotation's batch or a revocation writing its hash while the Worker holds another, landed one.  Otherwise
 * rotations overlap one another and every instance.  `PublishAgreesIff`, `CommitAgreesIff` and `RevokeAgreesIff` show
 * the three conditions to be exact, and `LifecycleOverlap` has a run against each.
 */
module LifecycleHash {
  import opened Options
  import opened Lifecycle
  import opened LifecycleReady

  /** The finalize uploads a hash that is no longer the stored one. */
  predicate PublishesStale(s: State, a: Action)
    requires Enabled(s, a)
  {
    a.FinalizePublish? && Owns(s, s.jobs[a.j].id) && s.jobs[a.j].fpc.held.subHash != s.row.value.subHash
  }

  /**
   * The hash of a ready bundle that is not torn: since this rotation's or revocation's upload a finalize has uploaded,
   * or another rotation whose batch has landed.
   */
  predicate HoldsOther(s: State, h: Hash) {
    HoldsReady(s.plane) && !s.torn && s.plane.value.hash != h
  }

  /** A rotation's batch or a revocation's write, overtaken by such an upload. */
  predicate WritesOvertaken(s: State, a: Action)
    requires Enabled(s, a)
  {
    || (a.RotateCommit? && Owns(s, s.jobs[a.j].id) && HoldsOther(s, Sha(s.jobs[a.j].tpc.drawn)))
    || (a.RevokeWrite? && Owns(s, s.jobs[a.j].id) && HoldsOther(s, s.jobs[a.j].rpc.h))
  }

  ghost predicate Careful(s: State, a: Action)
    requires Enabled(s, a)
  {
    Serial(s, a) && !PublishesStale(s, a) && !WritesOvertaken(s, a)
  }

  ghost predicate CarefulRun(s: State, acts: seq<Action>)
    decreases |acts|
  {
    acts == []
    || (Enabled(s, acts[0]) && Careful(s, acts[0]) && CarefulRun(Next(s, acts[0]), acts[1..]))
  }

  // ----- the invariant -----

  /** A ready bundle is under the stored hash, unless it is that of a rotation whose batch has reached no row. */
  predicate Agrees(row: Option<Deployment>, plane: Option<Published>, torn: bool) {
    row.Some? && HoldsReady(plane) ==> (plane.value.hash == row.value.subHash <==> !torn)
  }

  /** Every hash a job carries has been drawn. */
  predicate Carries(job: Job, next: Token) {
    && (job.PrepareAt? ==> job.snap.subHash.token < next)
    && (job.FinalizeAt? && job.fpc.FinalizeHolds? ==> job.fpc.held.subHash.token < next)
    && (job.FinalizeAt? && job.fpc.FinalizeArmed? ==> job.fpc.held.subHash.token < next)
  }

  /** A torn bundle is not under the revoke instance's hash. */
  predicate Apart(job: Job, plane: Option<Published>, torn: bool) {
    torn && job.RevokeAt? && !job.rpc.RevokeLoaded? ==> plane.Some? && plane.value.hash != job.rpc.h
  }

  predicate PlaneDrawn(plane: Option<Published>, torn: bool, next: Token) {
    (plane.Some? ==> plane.value.hash.token < next) && (torn ==> plane.Some?)
  }

  ghost predicate HashInv(s: State) {
    && PlaneDrawn(s.plane, s.torn, s.nextToken)
    && (forall j :: j in s.jobs ==> Carries(s.jobs[j], s.nextToken) && Apart(s.jobs[j], s.plane, s.torn))
    && (Claimed(s) ==> Agrees(s.row, s.plane, s.torn))
  }

  // ----- what one action does -----

  /** The new hashes are drawn, and a bundle that becomes torn is under a hash just drawn. */
  predicate HashesDrawn(s: State, e: Effect) {
    && PlaneDrawn(e.plane, e.torn, s.nextToken + e.draws)
    && (e.job.Some? ==> Carries(e.job.value, s.nextToken + e.draws) && Apart(e.job.value, e.plane, e.torn))
    && (e.torn ==> (e.plane == s.plane && s.torn) || (e.plane.Some? && e.plane.value.hash.token >= s.nextToken))
  }

  predicate OwnMover(s: State, e: Effect) {
    s.row.Some? && (WasRunning(s, e) ==> Target(s.jobs[e.j]) == s.row.value.id)
  }

  predicate KeepsAgreement(s: State, e: Effect) {
    && (Same(s.row, e.row) && Agrees(s.row, s.plane, s.torn) && OwnMover(s, e) ==> Agrees(e.row, e.plane, e.torn))
    && (Finalizes(s, e) && !WasRelying(s, e) && e.job.Some? && Relies(e.job.value, e.row) ==>
          Agrees(e.row, e.plane, e.torn))
  }

  lemma InstanceHashes(s: State, a: Action)
    requires Enabled(s, a) && Instance(a) && Carries(s.jobs[a.j], s.nextToken) && Apart(s.jobs[a.j], s.plane, s.torn)
    requires Bounded(s.jobs[a.j], s.nextToken) && PlaneDrawn(s.plane, s.torn, s.nextToken)
    requires s.row.Some? ==> s.row.value.subHash.token < s.nextToken
    ensures HashesDrawn(s, InstanceOutcome(s, a))
  {
  }

  lemma HandlerHashes(s: State, a: Action)
    requires Enabled(s, a) && !Instance(a) && PlaneDrawn(s.plane, s.torn, s.nextToken)
    ensures HashesDrawn(s, HandlerOutcome(s, a))
  {
  }

  lemma InstanceAgrees(s: State, a: Action)
    requires Enabled(s, a) && Instance(a) && !PublishesStale(s, a) && !WritesOvertaken(s, a)
    requires Apart(s.jobs[a.j], s.plane, s.torn)
    ensures KeepsAgreement(s, InstanceOutcome(s, a))
  {
  }

  lemma HandlerAgrees(s: State, a: Action)
    requires Enabled(s, a) && !Instance(a) && !WritesOvertaken(s, a) && s.nextJob !in s.jobs
    requires s.row.Some? ==> s.row.value.subHash.token < s.nextToken
    ensures KeepsAgreement(s, HandlerOutcome(s, a))
  {
  }

  // ----- committing an effect -----

  lemma CarriesCommit(s: State, e: Effect)
    requires HashInv(s) && Drawn(s) && HashesDrawn(s, e)
    ensures var s' := Commit(s, e);
      && PlaneDrawn(s'.plane, s'.torn, s'.nextToken)
      && forall j :: j in s'.jobs ==> Carries(s'.jobs[j], s'.nextToken) && Apart(s'.jobs[j], s'.plane, s'.torn)
  {
    var s' := Commit(s, e);
    forall j | j in s'.jobs ensures Carries(s'.jobs[j], s'.nextToken) && Apart(s'.jobs[j], s'.plane, s'.torn) {
      if j != e.j { assert s'.jobs[j] == s.jobs[j] && Bounded(s.jobs[j], s.nextToken); }
    }
  }

  lemma AgreeCommit(s: State, e: Effect)
    requires Inv(s) && HashInv(s) && Local(s, e) && KeepsAgreement(s, e) && Claimed(Commit(s, e))
    ensures Agrees(e.row, e.plane, e.torn)
  {
    ClaimedBefore(s, e);
    if !Claimed(s) {
      var s' := Commit(s, e);
      var j :| j in s'.jobs && Relies(s'.jobs[j], s'.row);
      if j != e.j { assert s'.jobs[j] == s.jobs[j] && Relies(s.jobs[j], s.row); }
    }
  }

  lemma HashStep(s: State, a: Action)
    requires Enabled(s, a) && Careful(s, a) && Inv(s) && HashInv(s)
    ensures Inv(Next(s, a)) && HashInv(Next(s, a))
  {
    InvStep(s, a);
    var e := Outcome(s, a);
    if Instance(a) {
      InstanceStep(s, a);
      InstanceHashes(s, a);
      InstanceAgrees(s, a);
    } else {
      HandlerStep(s, a);
      HandlerHashes(s, a);
      HandlerAgrees(s, a);
    }
    CarriesCommit(s, e);
    if Claimed(Commit(s, e)) { AgreeCommit(s, e); }
  }

  lemma {:induction false} HashRun(s: State, acts: seq<Action>)
    requires CarefulRun(s, acts) && Inv(s) && HashInv(s)
    ensures SerialRun(s, acts) && ValidRun(s, acts) && Inv(Final(s, acts)) && HashInv(Final(s, acts))
    decreases |acts|
  {
    if acts != [] {
      HashStep(s, acts[0]);
      HashRun(Next(s, acts[0]), acts[1..]);
    }
  }

  // ----- the promise -----

  /** The Worker of a ready row is under its hash, unless the bundle is torn. */
  predicate Agreed(s: State) {
    IsReady(s.row) ==> Agrees(s.row, s.plane, s.torn)
  }

  /**
   * In every state a careful run reaches, the ready bundle of a ready row is under the stored hash exactly when it is
   * not that of a rotation whose batch has reached no row; and with no instance running there is such a bundle.
   */
  lemma ReadyHashIff(acts: seq<Action>)
    requires CarefulRun(INIT, acts)
    ensures ValidRun(INIT, acts)
    ensures var s := Final(INIT, acts);
      && Agreed(s)
      && (NoInstance(s) && s.row.Some? && s.row.value.status.Ready? ==>
            s.plane.Some? && (s.plane.value.hash == s.row.value.subHash <==> !s.torn))
  {
    HashRun(INIT, acts);
    var s := Final(INIT, acts);
    if NoInstance(s) { InvIsHonest(s); }
  }

  // ----- the two conditions are exact -----

  /** A careful run to a state where no instance runs and a ready row does not agree with its Worker. */
  ghost predicate Parts(t: State, more: seq<Action>) {
    CarefulRun(t, more) && ValidRun(t, more) && NoInstance(Final(t, more)) && !Agreed(Final(t, more))
  }

  lemma NeverParts(t: State, more: seq<Action>)
    requires Inv(t) && HashInv(t)
    ensures !Parts(t, more)
  {
    if Parts(t, more) { HashRun(t, more); }
  }

  /**
   * A finalize that uploads keeps the promise if and only if the hash it read is still the stored one, or its row is
   * gone; otherwise it goes on to mark the row ready under another hash than the Worker's.
   */
  lemma PublishAgreesIff(acts: seq<Action>, s: State, k: JobId)
    requires CarefulRun(INIT, acts) && ValidRun(INIT, acts) && s == Final(INIT, acts) && Enabled(s, FinalizePublish(k))
    ensures !PublishesStale(s, FinalizePublish(k)) <==> forall more :: !Parts(Next(s, FinalizePublish(k)), more)
  {
    HashRun(INIT, acts);
    var t := Next(s, FinalizePublish(k));
    if PublishesStale(s, FinalizePublish(k)) {
      assert forall i :: i in t.jobs && Running(t.jobs[i]) ==> i == k;
      MarksParted(t, k);
      assert Parts(t, [FinalizeReady(k), FinalizeFinish(k)]);
    } else {
      HashStep(s, FinalizePublish(k));
      forall more ensures !Parts(t, more) { NeverParts(t, more); }
    }
  }

  lemma MarksParted(t: State, k: JobId)
    requires k in t.jobs && t.jobs[k].FinalizeAt? && t.jobs[k].fpc.FinalizePublished? && Owns(t, t.jobs[k].id)
    requires !Agrees(t.row, t.plane, t.torn)
    requires forall i :: i in t.jobs && Running(t.jobs[i]) ==> i == k
    ensures Parts(t, [FinalizeReady(k), FinalizeFinish(k)])
  {
    var u := Next(t, FinalizeReady(k));
    var v := Next(u, FinalizeFinish(k));
    assert forall i :: i in v.jobs ==> i != k && v.jobs[i] == t.jobs[i];
    assert [FinalizeFinish(k)][1..] == [] && Parts(v, []);
    assert Parts(u, [FinalizeFinish(k)]);
    assert [FinalizeReady(k), FinalizeFinish(k)][1..] == [FinalizeFinish(k)];
  }

  /** The row is ready and no instance runs, or its finalize has uploaded and marks it next. */
  ghost predicate Settles(s: State) {
    || (IsReady(s.row) && NoInstance(s))
    || exists k :: k in s.jobs && s.jobs[k].FinalizeAt? && s.jobs[k].fpc.FinalizePublished? && Owns(s, s.jobs[k].id)
  }

  /**
   * On such a row a rotation's batch keeps the promise if and only if the Worker does not hold another, landed hash:
   * since its upload no finalize has uploaded, and no other rotation that has landed.
   */
  lemma CommitAgreesIff(acts: seq<Action>, s: State, j: JobId)
    requires CarefulRun(INIT, acts) && ValidRun(INIT, acts) && s == Final(INIT, acts)
    requires Enabled(s, RotateCommit(j)) && Settles(s)
    ensures !WritesOvertaken(s, RotateCommit(j)) <==> forall more :: !Parts(Next(s, RotateCommit(j)), more)
  {
    HashRun(INIT, acts);
    var t := Next(s, RotateCommit(j));
    if WritesOvertaken(s, RotateCommit(j)) {
      var more := OvertakenParts(s, j);
      assert Parts(t, more);
    } else {
      HashStep(s, RotateCommit(j));
      forall more ensures !Parts(t, more) { NeverParts(t, more); }
    }
  }

  lemma OvertakenParts(s: State, j: JobId) returns (more: seq<Action>)
    requires Alone(s) && Settles(s) && Enabled(s, RotateCommit(j)) && WritesOvertaken(s, RotateCommit(j))
    ensures Parts(Next(s, RotateCommit(j)), more)
  {
    var t := Next(s, RotateCommit(j));
    more := [];
    if k :| k in s.jobs && s.jobs[k].FinalizeAt? && s.jobs[k].fpc.FinalizePublished? && Owns(s, s.jobs[k].id) {
      assert t.jobs[k] == s.jobs[k];
      forall i | i in t.jobs && Running(t.jobs[i]) ensures i == k { assert t.jobs[i] == s.jobs[i]; }
      MarksParted(t, k);
      more := [FinalizeReady(k), FinalizeFinish(k)];
    } else {
      forall i | i in t.jobs ensures !Running(t.jobs[i]) { assert t.jobs[i] == s.jobs[i]; }
    }
  }

  lemma PartsThen(t: State, a: Action, more: seq<Action>)
    requires Enabled(t, a) && Careful(t, a) && Parts(Next(t, a), more)
    ensures Parts(t, [a] + more)
  {
    assert ([a] + more)[1..] == more;
  }

  /**
   * If a completion has spent its token and a request has read `ready`, a revocation's write keeps the promise if and
   * only if no rotation has uploaded and landed since its upload; otherwise the two bring agent and `ready` back.
   */
  lemma RevokeAgreesIff(acts: seq<Action>, s: State, j: JobId, c: JobId, k: JobId)
    requires CarefulRun(INIT, acts) && ValidRun(INIT, acts) && s == Final(INIT, acts)
    requires Enabled(s, RevokeWrite(j)) && Owns(s, s.jobs[j].id) && Stores(s, c) && Recalls(s, k)
    ensures !WritesOvertaken(s, RevokeWrite(j)) <==> forall more :: !Parts(Next(s, RevokeWrite(j)), more)
  {
    HashRun(INIT, acts);
    var t := Next(s, RevokeWrite(j));
    if WritesOvertaken(s, RevokeWrite(j)) {
      assert t.jobs[c] == s.jobs[c] && t.jobs[k] == s.jobs[k];
      assert forall i :: i in t.jobs && Running(t.jobs[i]) ==> i == j;
      var more := WrittenParts(t, j, c, k);
    } else {
      HashStep(s, RevokeWrite(j));
      forall more ensures !Parts(t, more) { NeverParts(t, more); }
    }
  }

  lemma WrittenParts(t: State, j: JobId, c: JobId, k: JobId) returns (more: seq<Action>)
    requires j in t.jobs && t.jobs[j].RevokeAt? && t.jobs[j].rpc.RevokeWritten? && Owns(t, t.jobs[j].id)
    requires Stores(t, c) && Recalls(t, k) && !Agrees(t.row, t.plane, t.torn)
    requires forall i :: i in t.jobs && Running(t.jobs[i]) ==> i == j
    ensures Parts(t, more)
  {
    var t1 := Next(t, RevokeErase(j));
    var t2 := Next(t1, RevokeFinish(j));
    assert t2.jobs[c] == t.jobs[c] && t2.jobs[k] == t.jobs[k];
    assert forall i :: i in t2.jobs ==> i != j && t2.jobs[i] == t.jobs[i];
    more := RestoredParts(t2, c, k);
    PartsThen(t1, RevokeFinish(j), more);
    PartsThen(t, RevokeErase(j), [RevokeFinish(j)] + more);
    more := [RevokeErase(j)] + ([RevokeFinish(j)] + more);
  }

  lemma RestoredParts(t: State, c: JobId, k: JobId) returns (more: seq<Action>)
    requires NoInstance(t) && Stores(t, c) && Recalls(t, k) && !Agrees(t.row, t.plane, t.torn)
    ensures Parts(t, more)
  {
    var t1 := Next(t, CompleteStore(c));
    assert t1.jobs[k] == t.jobs[k];
    assert forall i :: i in t1.jobs && i != c ==> t1.jobs[i] == t.jobs[i];
    more := RecalledParts(t1, k);
    PartsThen(t, CompleteStore(c), more);
    more := [CompleteStore(c)] + more;
  }

  lemma RecalledParts(t: State, k: JobId) returns (more: seq<Action>)
    requires NoInstance(t) && Recalls(t, k) && !Agrees(t.row, t.plane, t.torn) && t.row.value.agent.Some?
    ensures Parts(t, more)
  {
    var t1 := Next(t, RevokeMark(k));
    var t2 := Next(t1, RevokeStart(k, false));
    assert forall i :: i in t2.jobs ==> t2.jobs[i] == t.jobs[i];
    assert Parts(t2, []);
    PartsThen(t1, RevokeStart(k, false), []);
    PartsThen(t, RevokeMark(k), [RevokeStart(k, false)] + []);
    more := [RevokeMark(k)] + ([RevokeStart(k, false)] + []);
  }

  // ----- torn rotations -----

  /** A rotation dies, or its batch finds its row gone, while the Worker holds its bundle. */
  predicate Tears(s: State, a: Action)
    requires Enabled(s, a)
  {
    (a.RotateAbort? || (a.RotateCommit? && !Owns(s, s.jobs[a.j].id))) && SentHeld(s.jobs[a.j], s.plane)
  }

  /** The rotation has uploaded, and the Worker still holds what it uploaded. */
  predicate SentHeld(job: Job, plane: Option<Published>) {
    job.Rotating? && job.tpc.RotateSent? && Accepts(plane, job.tpc.drawn)
  }

  predicate Untorn(s: State, acts: seq<Action>)
    requires ValidRun(s, acts)
    decreases |acts|
  {
    acts == [] || (!Tears(s, acts[0]) && Untorn(Next(s, acts[0]), acts[1..]))
  }

  /** If no rotation tears, a torn bundle is that of a rotation still under way. */
  lemma {:induction false} UntornRun(s: State, acts: seq<Action>)
    requires ValidRun(s, acts) && Untorn(s, acts) && TearIsOpen(s)
    ensures TearIsOpen(Final(s, acts))
    decreases |acts|
  {
    if acts != [] {
      TearStep(s, acts[0]);
      UntornRun(Next(s, acts[0]), acts[1..]);
    }
  }

  ghost predicate TearIsOpen(s: State) {
    && (forall j :: j in s.jobs ==> j < s.nextJob)
    && (s.torn ==> exists j :: j in s.jobs && SentHeld(s.jobs[j], s.plane))
  }

  lemma TearStep(s: State, a: Action)
    requires Enabled(s, a) && TearIsOpen(s) && !Tears(s, a)
    ensures TearIsOpen(Next(s, a))
  {
    var t := Next(s, a);
    if t.torn {
      if a.RotateUpload? {
        assert SentHeld(t.jobs[a.j], t.plane);
      } else {
        if Instance(a) { InstancesLeaveTear(s, a); } else { HandlersLeaveTear(s, a); }
        var j :| j in s.jobs && SentHeld(s.jobs[j], s.plane);
        assert j in t.jobs && t.jobs[j] == s.jobs[j];
      }
    }
  }

  predicate LeavesTear(s: State, e: Effect) {
    e.torn ==> s.torn && e.plane == s.plane && (e.j in s.jobs ==> !SentHeld(s.jobs[e.j], s.plane))
  }

  lemma InstancesLeaveTear(s: State, a: Action)
    requires Enabled(s, a) && Instance(a)
    ensures LeavesTear(s, InstanceOutcome(s, a))
  {
  }

  lemma HandlersLeaveTear(s: State, a: Action)
    requires Enabled(s, a) && !Instance(a) && !Tears(s, a) && !a.RotateUpload? && s.nextJob !in s.jobs
    ensures LeavesTear(s, HandlerOutcome(s, a))
  {
  }

  /** Hence, after a careful run of this kind that ends idle, a ready row's Worker checks the stored hash. */
  lemma ReadyHashIsStored(acts: seq<Action>)
    requires CarefulRun(INIT, acts) && ValidRun(INIT, acts) && Untorn(INIT, acts)
    requires var s := Final(INIT, acts);
      NoInstance(s) && NoRotation(s) && s.row.Some? && s.row.value.status.Ready?
    ensures var s := Final(INIT, acts);
      s.plane.Some? && forall t: Token :: Accepts(s.plane, t) <==> s.row.value.subHash == Sha(t)
  {
    ReadyHashIff(acts);
    UntornRun(INIT, acts);
  }
}
