/**
 * The deployment lifecycle as a step machine.
 *
 * Every HTTP handler and every workflow instance is a job; every SELECT, UPDATE, batch and Worker
 * upload is one atomic action; any job may take the next action, so a run is an arbitrary
 * interleaving.  A handler that throws after it created its instance is `Spawn` and then its failing
 * branch; `Spawn` may repeat, so the model has every run of the code and more.  One Worker script is
 * modelled: `UNIQUE (account_id, worker_name)` lets at most one deployment row own it at a time, but
 * rows can be deleted and re-created while old jobs still run.
 *
 * Randomness is a counter of values never drawn before, and SHA-256 is the injective `Sha`.
 */
module Lifecycle {
  import opened Options

  type Token = nat
  type JobId = nat

  datatype Hash = Sha(token: Token)

  datatype Status =
    Queued | Preparing | AwaitingAgent | AgentReady | Finalizing | Ready | Revoking | Failed | Revoked

  /** `creds` stands for the six node credentials: the agent payload carries all of them or is refused. */
  datatype Secrets = Secrets(subToken: Token, creds: Option<nat>)

  datatype Bootstrap = Bootstrap(token: Token, consumed: bool, expires: nat)

  datatype Deployment = Deployment(
    id: Token, status: Status, subHash: Hash, agent: Option<Token>, secrets: Secrets, bootstrap: Option<Bootstrap>)

  datatype Bundle = PendingBundle | ReadyBundle(creds: nat, embedded: Token)

  /** What the tenant's Worker serves: SUB_TOKEN_HASH and CONFIG_BUNDLE. */
  datatype Published = Published(hash: Hash, bundle: Bundle)

  datatype Kind = Prepare | Finalize | Revoke

  datatype PreparePc = PrepareLoaded | PrepareMarked | PrepareUploaded | PrepareAwaited
  datatype FinalizePc =
    | FinalizeLoaded | FinalizeMarked
    | FinalizeHolds(held: Deployment) | FinalizeArmed(held: Deployment, bundle: Secrets)
    | FinalizePublished | FinalizeReadied
  datatype RevokePc =
    | RevokeLoaded | RevokeChosen(h: Hash) | RevokeDisabled(h: Hash) | RevokeWritten(h: Hash) | RevokeErased(h: Hash)
  datatype RotatePc = RotateChecked | RotateHolds(secrets: Secrets) | RotateSent(secrets: Secrets, drawn: Token)
  datatype CompletePc = TokenFound | SecretsRead(secrets: Secrets) | TokenConsumed(secrets: Secrets) | Stored

  datatype Job =
    | Waiting(kind: Kind, id: Token)
    | PrepareAt(snap: Deployment, ppc: PreparePc)
    | FinalizeAt(id: Token, fpc: FinalizePc)
    | RevokeAt(id: Token, rpc: RevokePc)
    | Rotating(id: Token, tpc: RotatePc)
    | RevokeAsked(id: Token, restore: Status, marked: bool)
    | Creating(id: Token)
    | Completing(id: Token, token: Token, creds: nat, agent: Token, cpc: CompletePc)
    | Retrying(id: Token, kind: Kind)
    | Reissuing(id: Token)
    | Deleting(id: Token)

  datatype State = State(
    row: Option<Deployment>,
    plane: Option<Published>,
    jobs: map<JobId, Job>,
    nextJob: JobId,
    nextToken: Token,
    issued: set<Token>,   // subscription tokens handed out by create and rotate
    torn: bool            // the Worker holds the bundle of a rotation whose database batch has reached no row
  )

  const INIT := State(None, None, map[], 0, 0, {}, false)

  datatype Action =
    | CreateInsert(expires: nat) | CreateStart(j: JobId, ok: bool)
    | Load(j: JobId) | Fail(j: JobId)
    | PrepareMark(j: JobId) | PrepareUpload(j: JobId) | PrepareAwait(j: JobId) | PrepareFinish(j: JobId)
    | FinalizeMark(j: JobId) | FinalizeRead(j: JobId) | FinalizeSecrets(j: JobId) | FinalizePublish(j: JobId)
    | FinalizeReady(j: JobId) | FinalizeFinish(j: JobId)
    | RevokeChoose(j: JobId) | RevokeDisable(j: JobId) | RevokeWrite(j: JobId) | RevokeErase(j: JobId)
    | RevokeFinish(j: JobId)
    | ReissueRead | ReissueWrite(j: JobId, expires: nat)
    | CompleteRead(token: Token, creds: nat, agent: Token, now: nat) | CompleteSecrets(j: JobId)
    | CompleteConsume(j: JobId) | CompleteStore(j: JobId) | CompleteStart(j: JobId, ok: bool)
    | RotateCheck | RotateRead(j: JobId) | RotateUpload(j: JobId) | RotateCommit(j: JobId) | RotateAbort(j: JobId)
    | RetryRead | RetryStart(j: JobId)
    | RevokeRead | RevokeMark(j: JobId) | RevokeStart(j: JobId, ok: bool)
    | DeleteRead | DeleteCommit(j: JobId)
    | Spawn(j: JobId) | Drop(j: JobId)

  // ----- atomic effects -----

  predicate Owns(s: State, id: Token) {
    s.row.Some? && s.row.value.id == id
  }

  /** `UPDATE deployments SET status = ? WHERE id = ?`, unconditional on the old status. */
  function WithStatus(s: State, id: Token, status: Status): Option<Deployment> {
    if Owns(s, id) then Some(s.row.value.(status := status)) else s.row
  }

  /**
   * What one action does: the row and the Worker afterwards, how many random values it drew, the
   * subscription token it handed out, and the new state of the single job it moves (None: the job ends).
   */
  datatype Effect = Effect(
    row: Option<Deployment>, plane: Option<Published>, draws: nat, issue: set<Token>, torn: bool,
    j: JobId, job: Option<Job>)

  function Quietly(s: State, row: Option<Deployment>, j: JobId, job: Option<Job>): Effect {
    Effect(row, s.plane, 0, {}, s.torn, j, job)
  }

  function Upload(hash: Hash, bundle: Bundle): Option<Published> {
    Some(Published(hash, bundle))
  }

  function Commit(s: State, e: Effect): State {
    State(e.row, e.plane,
          if e.job.Some? then s.jobs[e.j := e.job.value] else s.jobs - {e.j},
          if e.j < s.nextJob then s.nextJob else e.j + 1,
          s.nextToken + e.draws, s.issued + e.issue, e.torn)
  }

  predicate HandlerJob(job: Job) {
    job.Creating? || job.Completing? || job.Retrying? || job.Reissuing? || job.Deleting? || job.RevokeAsked?
  }

  /** A handler about to create a workflow instance. */
  predicate Starts(job: Job) {
    job.Creating? || job.Retrying? || (job.RevokeAsked? && job.marked) || (job.Completing? && job.cpc.Stored?)
  }

  function KindOf(job: Job): Kind
    requires Starts(job)
  {
    match job
    case Creating(_) => Prepare
    case Retrying(_, kind) => kind
    case RevokeAsked(_, _, _) => Revoke
    case Completing(_, _, _, _, _) => Finalize
  }

  predicate LiveToken(s: State, token: Token) {
    s.row.Some? && s.row.value.bootstrap.Some?
    && s.row.value.bootstrap.value.token == token && !s.row.value.bootstrap.value.consumed
  }

  /** An action of a running workflow instance, rather than of a request handler. */
  predicate Instance(a: Action) {
    || a.Load? || a.Fail? || a.PrepareMark? || a.PrepareUpload? || a.PrepareAwait? || a.PrepareFinish?
    || a.FinalizeMark? || a.FinalizeRead? || a.FinalizeSecrets? || a.FinalizePublish? || a.FinalizeReady?
    || a.FinalizeFinish? || a.RevokeChoose? || a.RevokeDisable? || a.RevokeWrite? || a.RevokeErase? || a.RevokeFinish?
  }

  /** A workflow step may be retried, so every step is enabled again where it left off. */
  predicate InstanceEnabled(s: State, a: Action) {
    match a
    case Load(j) => j in s.jobs && s.jobs[j].Waiting?
    case Fail(j) =>
      j in s.jobs && (s.jobs[j].Waiting? || s.jobs[j].PrepareAt? || s.jobs[j].FinalizeAt? || s.jobs[j].RevokeAt?)
    case PrepareMark(j) =>
      j in s.jobs && s.jobs[j].PrepareAt? && (s.jobs[j].ppc.PrepareLoaded? || s.jobs[j].ppc.PrepareMarked?)
    case PrepareUpload(j) =>
      j in s.jobs && s.jobs[j].PrepareAt? && (s.jobs[j].ppc.PrepareMarked? || s.jobs[j].ppc.PrepareUploaded?)
    case PrepareAwait(j) =>
      j in s.jobs && s.jobs[j].PrepareAt? && (s.jobs[j].ppc.PrepareUploaded? || s.jobs[j].ppc.PrepareAwaited?)
    case PrepareFinish(j) => j in s.jobs && s.jobs[j].PrepareAt? && s.jobs[j].ppc.PrepareAwaited?
    case FinalizeMark(j) =>
      j in s.jobs && s.jobs[j].FinalizeAt? && (s.jobs[j].fpc.FinalizeLoaded? || s.jobs[j].fpc.FinalizeMarked?)
    case FinalizeRead(j) =>
      j in s.jobs && s.jobs[j].FinalizeAt? && !s.jobs[j].fpc.FinalizeLoaded? && !s.jobs[j].fpc.FinalizeReadied?
      && Owns(s, s.jobs[j].id) && s.row.value.agent.Some?
    case FinalizeSecrets(j) =>
      j in s.jobs && s.jobs[j].FinalizeAt? && s.jobs[j].fpc.FinalizeHolds? && Owns(s, s.jobs[j].id)
    case FinalizePublish(j) =>
      j in s.jobs && s.jobs[j].FinalizeAt? && s.jobs[j].fpc.FinalizeArmed? && s.jobs[j].fpc.bundle.creds.Some?
    case FinalizeReady(j) =>
      j in s.jobs && s.jobs[j].FinalizeAt? && (s.jobs[j].fpc.FinalizePublished? || s.jobs[j].fpc.FinalizeReadied?)
    case FinalizeFinish(j) => j in s.jobs && s.jobs[j].FinalizeAt? && s.jobs[j].fpc.FinalizeReadied?
    case RevokeChoose(j) => j in s.jobs && s.jobs[j].RevokeAt? && s.jobs[j].rpc.RevokeLoaded?
    case RevokeDisable(j) =>
      j in s.jobs && s.jobs[j].RevokeAt? && (s.jobs[j].rpc.RevokeChosen? || s.jobs[j].rpc.RevokeDisabled?)
    case RevokeWrite(j) =>
      j in s.jobs && s.jobs[j].RevokeAt? && !s.jobs[j].rpc.RevokeLoaded? && !s.jobs[j].rpc.RevokeChosen?
    case RevokeErase(j) => j in s.jobs && s.jobs[j].RevokeAt? && s.jobs[j].rpc.RevokeWritten?
    case RevokeFinish(j) => j in s.jobs && s.jobs[j].RevokeAt? && s.jobs[j].rpc.RevokeErased?
    case _ => false
  }

  predicate HandlerEnabled(s: State, a: Action) {
    match a
    case CreateInsert(_) => s.row.None?
    case CreateStart(j, _) => j in s.jobs && s.jobs[j].Creating?
    case ReissueRead => s.row.Some? && s.row.value.status in {Queued, Preparing, AwaitingAgent, Failed}
    case ReissueWrite(j, _) => j in s.jobs && s.jobs[j].Reissuing?
    case CompleteRead(token, _, _, now) => LiveToken(s, token) && now < s.row.value.bootstrap.value.expires
    case CompleteSecrets(j) =>
      j in s.jobs && s.jobs[j].Completing? && s.jobs[j].cpc.TokenFound? && Owns(s, s.jobs[j].id)
    case CompleteConsume(j) => j in s.jobs && s.jobs[j].Completing? && s.jobs[j].cpc.SecretsRead?
    case CompleteStore(j) => j in s.jobs && s.jobs[j].Completing? && s.jobs[j].cpc.TokenConsumed?
    case CompleteStart(j, _) => j in s.jobs && s.jobs[j].Completing? && s.jobs[j].cpc.Stored?
    case RotateCheck => s.row.Some? && s.row.value.status.Ready? && s.row.value.agent.Some?
    case RotateRead(j) => j in s.jobs && s.jobs[j].Rotating? && s.jobs[j].tpc.RotateChecked? && Owns(s, s.jobs[j].id)
    case RotateUpload(j) =>
      j in s.jobs && s.jobs[j].Rotating? && s.jobs[j].tpc.RotateHolds? && s.jobs[j].tpc.secrets.creds.Some?
    case RotateCommit(j) => j in s.jobs && s.jobs[j].Rotating? && s.jobs[j].tpc.RotateSent?
    case RotateAbort(j) => j in s.jobs && s.jobs[j].Rotating?
    case RetryRead => s.row.Some? && s.row.value.status in {AgentReady, Failed}
    case RetryStart(j) => j in s.jobs && s.jobs[j].Retrying?
    case RevokeRead => s.row.Some? && s.row.value.status !in {Revoked, Revoking}
    case RevokeMark(j) => j in s.jobs && s.jobs[j].RevokeAsked? && !s.jobs[j].marked
    case RevokeStart(j, _) => j in s.jobs && s.jobs[j].RevokeAsked? && s.jobs[j].marked
    case DeleteRead => s.row.Some? && s.row.value.status in {Failed, Revoked}
    case DeleteCommit(j) => j in s.jobs && s.jobs[j].Deleting?
    case Spawn(j) => j in s.jobs && Starts(s.jobs[j])
    case Drop(j) => j in s.jobs && HandlerJob(s.jobs[j])
    case _ => false
  }

  predicate Enabled(s: State, a: Action) {
    if Instance(a) then InstanceEnabled(s, a) else HandlerEnabled(s, a)
  }

  function InstanceOutcome(s: State, a: Action): Effect
    requires Instance(a) && InstanceEnabled(s, a)
  {
    match a
    case Load(j) => Quietly(s, s.row, j, LoadJob(s, s.jobs[j]))
    case Fail(j) => Quietly(s, WithStatus(s, Target(s.jobs[j]), Failed), j, None)
    case PrepareMark(j) =>
      var snap := s.jobs[j].snap;
      Quietly(s, WithStatus(s, snap.id, Preparing), j, Some(PrepareAt(snap, PrepareMarked)))
    case PrepareUpload(j) =>
      var snap := s.jobs[j].snap;
      Quietly(s, s.row, j, Some(PrepareAt(snap, PrepareUploaded)))
        .(plane := Upload(snap.subHash, PendingBundle), torn := false)
    case PrepareAwait(j) =>
      var snap := s.jobs[j].snap;
      Quietly(s, WithStatus(s, snap.id, AwaitingAgent), j, Some(PrepareAt(snap, PrepareAwaited)))
    case PrepareFinish(j) => Quietly(s, s.row, j, None)
    case FinalizeMark(j) =>
      Quietly(s, WithStatus(s, s.jobs[j].id, Finalizing), j, Some(FinalizeAt(s.jobs[j].id, FinalizeMarked)))
    case FinalizeRead(j) => Quietly(s, s.row, j, Some(FinalizeAt(s.jobs[j].id, FinalizeHolds(s.row.value))))
    case FinalizeSecrets(j) =>
      Quietly(s, s.row, j, Some(FinalizeAt(s.jobs[j].id, FinalizeArmed(s.jobs[j].fpc.held, s.row.value.secrets))))
    case FinalizePublish(j) =>
      var held, bundle := s.jobs[j].fpc.held, s.jobs[j].fpc.bundle;
      Quietly(s, s.row, j, Some(FinalizeAt(s.jobs[j].id, FinalizePublished)))
        .(plane := Upload(held.subHash, ReadyBundle(bundle.creds.value, bundle.subToken)), torn := false)
    case FinalizeReady(j) =>
      Quietly(s, WithStatus(s, s.jobs[j].id, Ready), j, Some(FinalizeAt(s.jobs[j].id, FinalizeReadied)))
    case FinalizeFinish(j) => Quietly(s, s.row, j, None)
    case RevokeChoose(j) =>
      Quietly(s, s.row, j, Some(RevokeAt(s.jobs[j].id, RevokeChosen(Sha(s.nextToken))))).(draws := 1)
    case RevokeDisable(j) =>
      var h := s.jobs[j].rpc.h;
      Quietly(s, s.row, j, Some(RevokeAt(s.jobs[j].id, RevokeDisabled(h))))
        .(plane := Upload(h, PendingBundle), torn := false)
    case RevokeWrite(j) =>
      var id, h := s.jobs[j].id, s.jobs[j].rpc.h;
      var row := if Owns(s, id) then Some(s.row.value.(status := Revoked, subHash := h, agent := None)) else s.row;
      Quietly(s, row, j, Some(RevokeAt(id, RevokeWritten(h))))
    case RevokeErase(j) =>
      var id := s.jobs[j].id;
      var row := if Owns(s, id) then Some(s.row.value.(bootstrap := None)) else s.row;
      Quietly(s, row, j, Some(RevokeAt(id, RevokeErased(s.jobs[j].rpc.h))))
    case RevokeFinish(j) => Quietly(s, s.row, j, None)
  }

  function HandlerOutcome(s: State, a: Action): Effect
    requires !Instance(a) && HandlerEnabled(s, a)
  {
    match a
    case CreateInsert(expires) =>
      var id, sub, boot := s.nextToken, s.nextToken + 1, s.nextToken + 2;
      var d := Deployment(id, Queued, Sha(sub), None, Secrets(sub, None), Some(Bootstrap(boot, false, expires)));
      Effect(Some(d), s.plane, 3, {sub}, s.torn, s.nextJob, Some(Creating(id)))
    case CreateStart(j, ok) =>
      var id := s.jobs[j].id;
      if ok then Quietly(s, s.row, j, Some(Waiting(Prepare, id))) else Quietly(s, WithStatus(s, id, Failed), j, None)
    case ReissueRead => Quietly(s, s.row, s.nextJob, Some(Reissuing(s.row.value.id)))
    case ReissueWrite(j, expires) =>
      var b := Bootstrap(s.nextToken, false, expires);
      var row := if Owns(s, s.jobs[j].id) then Some(s.row.value.(bootstrap := Some(b))) else s.row;
      Quietly(s, row, j, None).(draws := 1)
    case CompleteRead(token, creds, agent, _) =>
      Quietly(s, s.row, s.nextJob, Some(Completing(s.row.value.id, token, creds, agent, TokenFound)))
    case CompleteSecrets(j) => Quietly(s, s.row, j, Some(s.jobs[j].(cpc := SecretsRead(s.row.value.secrets))))
    case CompleteConsume(j) =>
      if LiveToken(s, s.jobs[j].token) then
        var b := s.row.value.bootstrap.value.(consumed := true);
        Quietly(s, Some(s.row.value.(bootstrap := Some(b))), j,
                Some(s.jobs[j].(cpc := TokenConsumed(s.jobs[j].cpc.secrets))))
      else Quietly(s, s.row, j, None)
    case CompleteStore(j) =>
      var job := s.jobs[j];
      var merged := job.cpc.secrets.(creds := Some(job.creds));
      var row := if Owns(s, job.id)
                 then Some(s.row.value.(secrets := merged, agent := Some(job.agent), status := AgentReady))
                 else s.row;
      Quietly(s, row, j, Some(job.(cpc := Stored)))
    case CompleteStart(j, ok) =>
      Quietly(s, s.row, j, if ok then Some(Waiting(Finalize, s.jobs[j].id)) else None)
    case RotateCheck => Quietly(s, s.row, s.nextJob, Some(Rotating(s.row.value.id, RotateChecked)))
    case RotateRead(j) => Quietly(s, s.row, j, Some(Rotating(s.jobs[j].id, RotateHolds(s.row.value.secrets))))
    case RotateUpload(j) =>
      var secrets, drawn := s.jobs[j].tpc.secrets, s.nextToken;
      Effect(s.row, Upload(Sha(drawn), ReadyBundle(secrets.creds.value, drawn)), 1, {drawn}, true, j,
             Some(Rotating(s.jobs[j].id, RotateSent(secrets, drawn))))
    case RotateCommit(j) =>
      var pc := s.jobs[j].tpc;
      var row := if Owns(s, s.jobs[j].id)
                 then Some(s.row.value.(subHash := Sha(pc.drawn), secrets := pc.secrets.(subToken := pc.drawn)))
                 else s.row;
      Quietly(s, row, j, None).(torn := s.torn && !(Owns(s, s.jobs[j].id) && Accepts(s.plane, pc.drawn)))
    case RotateAbort(j) => Quietly(s, s.row, j, None)
    case RetryRead =>
      var kind := if s.row.value.agent.Some? then Finalize else Prepare;
      Quietly(s, s.row, s.nextJob, Some(Retrying(s.row.value.id, kind)))
    case RetryStart(j) => Quietly(s, s.row, j, Some(Waiting(s.jobs[j].kind, s.jobs[j].id)))
    case RevokeRead => Quietly(s, s.row, s.nextJob, Some(RevokeAsked(s.row.value.id, s.row.value.status, false)))
    case RevokeMark(j) => Quietly(s, WithStatus(s, s.jobs[j].id, Revoking), j, Some(s.jobs[j].(marked := true)))
    case RevokeStart(j, ok) =>
      if ok then Quietly(s, s.row, j, Some(Waiting(Revoke, s.jobs[j].id)))
      else Quietly(s, WithStatus(s, s.jobs[j].id, s.jobs[j].restore), j, None)
    case DeleteRead => Quietly(s, s.row, s.nextJob, Some(Deleting(s.row.value.id)))
    case DeleteCommit(j) => Quietly(s, if Owns(s, s.jobs[j].id) then None else s.row, j, None)
    case Spawn(j) => Quietly(s, s.row, s.nextJob, Some(Waiting(KindOf(s.jobs[j]), s.jobs[j].id)))
    case Drop(j) => Quietly(s, s.row, j, None)
  }

  function Outcome(s: State, a: Action): Effect
    requires Enabled(s, a)
  {
    if Instance(a) then InstanceOutcome(s, a) else HandlerOutcome(s, a)
  }

  function Next(s: State, a: Action): State
    requires Enabled(s, a)
  {
    Commit(s, Outcome(s, a))
  }

  /** The deployment a job works for. */
  function Target(job: Job): Token {
    if job.PrepareAt? then job.snap.id else job.id
  }

  /** `loadDeployment`: an instance whose row is gone throws, and its catch marks a row that is not there. */
  function LoadJob(s: State, job: Job): Option<Job>
    requires job.Waiting?
  {
    if !Owns(s, job.id) then None
    else match job.kind
      case Prepare => Some(PrepareAt(s.row.value, PrepareLoaded))
      case Finalize => Some(FinalizeAt(job.id, FinalizeLoaded))
      case Revoke => Some(RevokeAt(job.id, RevokeLoaded))
  }

  // ----- runs -----

  predicate ValidRun(s: State, acts: seq<Action>)
    decreases |acts|
  {
    acts == [] || (Enabled(s, acts[0]) && ValidRun(Next(s, acts[0]), acts[1..]))
  }

  function Final(s: State, acts: seq<Action>): State
    requires ValidRun(s, acts)
    decreases |acts|
  {
    if acts == [] then s else Final(Next(s, acts[0]), acts[1..])
  }

  // ----- the data plane -----

  /** The Worker's gate on `/sub/<token>` and on `/dns-query?k=<token>`. */
  predicate Accepts(plane: Option<Published>, token: Token) {
    plane.Some? && plane.value.hash == Sha(token)
  }
}
