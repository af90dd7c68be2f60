# Verified model of the control plane and its node

A Dafny model of the parts of the repository where correctness is not visible from one function: the deployment
lifecycle, the counters that survive interleaving and failure, the DNS wire code, the resumable scan, the dead-drop
codec, the sleeper window, and the ranking, aggregation and wizard that feed them.  `dafny verify dfyconfig.toml`
checks everything.

## How it is organised

- **Lifecycle.** `Lifecycle` is a step machine: every handler and workflow instance is a job, every SELECT, UPDATE,
  batch and Worker upload one atomic action, and a run is any interleaving.  `LifecycleRevocation`, `LifecycleReady`,
  `LifecycleHash`, `LifecycleBootstrap` and `LifecycleShown` state what holds over whole runs, and `LifecycleOverlap`
  has the runs that show why their hypotheses are needed.  `Scripts` holds uninterrupted runs, from which those are put
  together and with which `ControlPlane`, the same code as an object with methods, is connected to the step machine.
  `Connections` does the same for temporary Cloudflare connections.
- **Counters.** `RateLimiter`; `Ledger`, `LedgerRuns`, `LedgerObject` and `Devices` for the node's ledger object.
- **Scan.** `Cidr` computes addresses through JavaScript's 32-bit operators (`Js`); `Scan` is the cursor and its ticks,
  `ScanRounds` the summary, ticks that are cut off, and the cron pass.
- **Wire and codecs.** `DnsQuery`, `DnsResponse`, `Base64`, `DeadDrop`, `Sleeper`.
- **Ranking, map, wizard.** `CleanIp`, `CensorshipMap`, `Wizard`, `Validators` and, for the same checks in other
  words, `ValidatorForms`.
- `Bytes`, `Text`, `Numbers`, `Sorting` and `Options` are shared helpers.

Time is an integer that does not go back; a D1 upsert, conditional UPDATE or batch is one step and a SELECT another.
Tokens are drawn fresh and SHA-256 is injective.  Network answers, clocks, budgets and failures are parameters.

## What turned out not to hold

Each of these is stated as a lemma at a failing input or run, beside the condition under which the property does hold.

- A rotation that dies between upload and batch leaves the Worker under a hash the database does not know
  (`LifecycleOverlap.RotationTears`; exactly by `LifecycleHash.ReadyHashIff` and `LifecycleHash.UntornRun`).
- A prepare overlapping a finalize leaves `ready` over a pending Worker
  (`LifecycleOverlap.OverlapLeavesReadyOverPending`).
- Serial workflow instances alone do not make `ready` honest: a revoke request that fails to start puts it back over a
  Worker revoked meanwhile (`LifecycleOverlap.RestoreOverRevoked`), or into a row without agent
  (`LifecycleOverlap.RotationOutlivesRevocation`); exactly by `LifecycleReady.RestoreIsHonestIff` and
  `LifecycleReady.RestoreMidwayIff`.
- Nor do they keep Worker and row under one hash.
  - A finalize uploads a hash that a rotation has replaced (`LifecycleOverlap.FinalizePublishesStale`; exactly by
    `LifecycleHash.PublishAgreesIff`).
  - A rotation's batch lands after another upload: a second rotation's (`LifecycleOverlap.RotationsCross`) or a
    finalize's (`LifecycleOverlap.FinalizeOvertakesRotation`); exactly by `LifecycleHash.CommitAgreesIff`.
  - A rotation lands inside a revocation (`LifecycleOverlap.RotationOvertakesRevocation`; exactly by
    `LifecycleHash.RevokeAgreesIff`).
- A prepare or finalize that read its row before a revocation and uploads after it, or a rotation whose batch comes after
  it, makes the Worker accept an old token again (`LifecycleRevocation.StalePrepareRevives`,
  `LifecycleOverlap.FinalizeRevives`, `LifecycleOverlap.RotationRevives`).
- The subscription link the panel shows can be one the Worker refuses (`LifecycleShown.ShownTokenRefused`); exactly which
  steps part the two is `LifecycleShown.ShownStep`.
- A call of an older rate-limit window that reaches the database late lets any number of calls pass
  (`RateLimiter.LateUpsertDefeatsLimit`).
- The limit of three live connections is a check before an insert (`Connections.OverlapBreaksTheLimit`).
- A flush of more than fifty users that fails late counts committed traffic twice (`LedgerRuns.LateFailureDuplicates`).
- A scan tick cut off between batch and cursor update counts a wave twice (`ScanRounds.TornWaveOvercounts`).
- The cron pass keeps the rows of finished rounds, so the summary counts each address once per round
  (`ScanRounds.CronSummaryTotal`).
- The data plane's base64url decoder throws on every encoding with an underscore, although RFC 8484 clients send them
  (`Base64.DataPlaneRefuses`, `Base64.DataPlaneRoundTrip`).
- The agent's window test loses minutes around midnight (`Sleeper.TestIsRightIff`).
- The comment that an unmeasured latency is never ranked as a measurement disagrees with the upsert, which averages the
  marker (`CleanIp.UnknownIsBlended`).
- The wizard's default target is not compared with the node (`Wizard.ZoneChecksPass`, `Wizard.DefaultTargetRefused`).

## Model

| member | source | states |
|---|---|---|
| `LifecycleRevocation.RevocationIsFinal` | src/workflow.ts:171-195 | Once a revoke instance has written its row, the Worker holds its replacement hash and no job can still write an older one (a prepare before its last upload, a finalize between its SELECT and its upload, a rotation between upload and batch), no subscription token issued so far is accepted in any continuation: failures, retries, re-bootstrap, rotation, deletion, re-creation, overlapping instances |
| `LifecycleRevocation.StalePrepareRevives` | src/workflow.ts:86-117 | The hypothesis on stale jobs is needed: a prepare that loaded its row before the revocation makes the Worker accept the old token again with its own two next steps |
| `LifecycleRevocation.DeadRun` | src/deployments.ts:291-345 | A set of hashes that no row, Worker or job carries stays out of all three over every run, rotations and finalizes between read and upload included |
| `LifecycleRevocation.FreshRun` | src/workflow.ts:171-195 | In every reachable state a revoke's replacement hash belongs to no issued token |
| `LifecycleReady.ReadyMeansServed` | src/workflow.ts:119-150 | With workflow instances that do not overlap one another and every handler, subscription rotations included, interleaved anywhere: whenever no instance is running, a row with status `ready` has its agent hash and a Worker serving a ready bundle. The one step excluded is a failed revoke request putting `ready` back over a row that is not served and whose status no running instance will still write |
| `LifecycleReady.RestoreIsHonestIff` | src/deployments.ts:405-424 | A revoke request that reads `ready` and fails to start, with no instance running at either moment, leaves a row that is served if and only if the agent hash is still there and nothing was uploaded in between or the last upload was a finalize's or a rotation's |
| `LifecycleReady.RestoreMidwayIff` | src/deployments.ts:418-424 | That exclusion is exact: putting `ready` back is safe in every disciplined continuation if and only if the row has its agent hash and the Worker a ready bundle, or an instance will still write the status of the row; otherwise the instance can end and leave `ready` unserved |
| `LifecycleReady.LastUploadDecides` | src/workflow.ts:95-103 | Over every run, the Worker holds a ready bundle exactly if the last upload was a finalize's or a rotation's |
| `LifecycleReady.InvRun` | src/agent.ts:739-793 | What every step of a run with serial instances keeps, with handlers and rotations free to run between any two steps of an instance |
| `LifecycleHash.ReadyHashIff` | src/workflow.ts:121-137 | If moreover no finalize uploads a hash that has been replaced since it read it, and no rotation's batch or revocation writes its hash while the Worker holds another, landed one, then in every state of the run the ready bundle of a ready row is under the stored hash exactly when it is not that of a rotation whose batch has reached no row. Rotations may overlap one another and every instance |
| `LifecycleHash.HashRun` | src/deployments.ts:291-345 | What every step of such a run keeps |
| `LifecycleHash.PublishAgreesIff` | src/workflow.ts:121-137 | The condition on finalizes is exact: an upload breaks no careful continuation if and only if its row is gone or the hash it read is still the stored one; otherwise the same finalize goes on to a `ready` row under another hash than the Worker's |
| `LifecycleHash.CommitAgreesIff` | src/deployments.ts:315-328 | The condition on batches is exact, on a row that is ready with no instance running or whose finalize has uploaded: a batch breaks no careful continuation if and only if since its upload no finalize has uploaded and no other rotation that has landed |
| `LifecycleHash.RevokeAgreesIff` | src/workflow.ts:181-195 | The condition on revocations is exact, while a completion has spent its token and a request has read `ready`: the write breaks no careful continuation if and only if no rotation has uploaded and landed since its upload |
| `LifecycleHash.UntornRun` | src/deployments.ts:291-345 | If no rotation dies, and no batch finds its row gone, while the Worker holds its bundle, then a bundle whose batch has reached no row is that of a rotation still under way |
| `LifecycleHash.ReadyHashIsStored` | src/deployments.ts:291-345 | So after a careful run of that kind which ends with no instance or rotation under way, the Worker of a ready row accepts exactly the token whose hash is stored |
| `LifecycleOverlap.OverlapLeavesReadyOverPending` | src/workflow.ts:31-34 | Why instances must not overlap: from any completed row with a prepare and a finalize queued, a run that ends `ready` over a pending Worker, because status writes are unconditional |
| `LifecycleOverlap.RotationsCross` | src/deployments.ts:315-328 | From any ready row that can rotate, a run of two rotations that both land and leave status `ready` with Worker and row under different hashes |
| `LifecycleOverlap.RotationTears` | src/deployments.ts:315-328 | A rotation that dies between upload and batch: from any ready row, a run that ends with the same row and jobs and a Worker under another hash |
| `LifecycleOverlap.FinalizeOvertakesRotation` | src/workflow.ts:121-137 | From any ready row with a finalize queued, a run in which the finalize reads and uploads between a rotation's upload and its batch and which ends `ready`, not torn, with Worker and row under different hashes |
| `LifecycleOverlap.FinalizePublishesStale` | src/workflow.ts:121-137 | The same with the finalize reading before the rotation's upload and uploading after its batch |
| `LifecycleOverlap.RestoreOverRevoked` | src/deployments.ts:418-424 | From any ready row, a run of two revoke requests in which the first one's instance revokes completely and the second fails to start: the row is `ready` again, without agent, over a pending Worker |
| `LifecycleOverlap.RotationOutlivesRevocation` | src/deployments.ts:405-424 | Why a ready bundle alone does not make it safe to put `ready` back: from any ready row, a run in which a rotation uploads after a whole revocation and a failed request then puts `ready` back into a row without agent |
| `LifecycleOverlap.RotationOvertakesRevocation` | src/workflow.ts:171-195 | From any ready row with a completion that has spent its token, a run in which a rotation lands between a revocation's upload and its write, the completion brings the agent back and a failed request `ready`, with Worker and row under different hashes |
| `LifecycleOverlap.FinalizeRevives` | src/workflow.ts:121-137 | The finalize case of the revocation hypothesis is needed: from any row with agent and credentials and with a finalize and a revoke queued, a run that ends `revoked` while the Worker accepts the old token |
| `LifecycleOverlap.RotationRevives` | src/deployments.ts:315-328 | The rotation case of the revocation hypothesis is needed: from any ready row with a prepare queued, a run in which a rotation uploads, the row is revoked completely, the batch lands, and the prepare makes the Worker accept the rotated token that the revocation had taken away |
| `LifecycleShown.ShownStep` | src/deployments.ts:234-240 | The token the panel shows stays the preimage of the stored hash over a step if and only if the step is neither a revocation's write nor a completion storing a bundle read before a rotation |
| `LifecycleShown.ShownRun` | src/agent.ts:746-780 | So it does over every run without such a step |
| `LifecycleShown.ShownTokenIsAccepted` | src/deployments.ts:234-240 | After any careful run that ends `ready`, with no instance running and not torn, the Worker accepts the shown token if and only if it is the preimage of the stored hash |
| `LifecycleShown.ShownTokenRefused` | src/agent.ts:746-780 | From any failed row whose agent has reported, a run in which a completion reads the bundle, a rotation commits and the completion stores the old bundle: the row ends `ready` and its Worker refuses the shown token |
| `LifecycleBootstrap.BootstrapTokenIsSingleUse` | src/agent.ts:762-767 | In every run of the whole system each bootstrap token lets at most one completion past the conditional update |
| `LifecycleBootstrap.SupersededTokenNeverPasses` | src/deployments.ts:259-277 | After a rotation overwrites it, the old token never passes again, not even for a completion that had already looked it up |
| `LifecycleBootstrap.PassesBounded` | src/agent.ts:703-714 | From any state, passes of a token never exceed the uses it has left |
| `LifecycleBootstrap.PassesBeforeExpiry` | src/agent.ts:703-714 | In every run a completion that gets past the conditional update looked its token up before the expiry with which create or re-issue handed that token out |
| `LifecycleBootstrap.ExpiredIsRefused` | src/agent.ts:703-714 | At or after that expiry the token is refused at once |
| `LifecycleBootstrap.ReissuedCompletes` | src/deployments.ts:259-289 | The other way: from a fresh re-issue, a completion at any time before the expiry stores its agent and credentials and queues a finalize |
| `LifecycleBootstrap.CreatedBecomesReady` | src/deployments.ts:53-159 | From any state without a deployment, a run of create, prepare, completion in time and finalize that ends `ready` with the agent and its credentials, the Worker accepting the token that was handed out and that the panel shows |
| `LifecycleBootstrap.StatusAdmits` | src/deployments.ts:259-371 | Re-issue is admitted in the four early states, retry from agent_ready or failed, rotation when ready with an agent |
| `LifecycleBootstrap.StatusEnds` | src/deployments.ts:373-436 | Creation is admitted where there is no row, deletion when failed or revoked, revocation unless revoking or revoked |
| `ControlPlane.Plane.Prepare` | src/workflow.ts:86-117 | One uninterrupted prepare is exactly its run of atomic actions, whether all calls succeed, the first one fails or one after the upload does; it succeeds exactly if the row exists and all calls do, and the upload stands even if a later call fails |
| `ControlPlane.Plane.Finalize` | src/workflow.ts:119-169 | Likewise; it uploads exactly if the agent has reported with credentials and Cloudflare answers, the Worker then accepts exactly the token whose hash is stored, and the row ends `ready` only on success |
| `ControlPlane.Plane.Revoke` | src/workflow.ts:171-212 | Likewise; once the upload succeeds no token drawn before is accepted, even if a later call fails; without it the Worker is as it was; after success agent hash and bootstrap token are gone |
| `ControlPlane.Plane.CompleteBootstrap` | src/agent.ts:739-793 | Passes exactly if the payload is valid, the token is that of the row's record, not consumed and not yet expired; it is then consumed and agent and credentials are stored; otherwise nothing changes |
| `ControlPlane.Plane.RotateSubscriptionToken` | src/deployments.ts:291-345 | Refused without effect unless ready with agent and credentials; otherwise row and Worker hold the hash of one fresh token, or, if the batch fails after the upload, the Worker alone does and the row is unchanged |
| `Connections.DeploymentsStayBound` | src/deployments.ts:187-216 | In every reachable state each deployment, and each pending create, reconnect or sleeper rebind, names a connection of its own tenant and zone |
| `Connections.RevokedIsFinal` | src/cloudflare-api.ts:40-84 | A revoked connection holds no ciphertext and no expiry, and no continuation changes it again |
| `Connections.LiveAtMost` | src/api-token.ts:129-158 | With at most k connects of a tenant between gate and insert, it has at most k + 2 live connections over every run |
| `Connections.ThreeWhenSerial` | src/api-token.ts:252-282 | So the limit of three holds when connects do not overlap |
| `Connections.OverlapBreaksTheLimit` | src/api-token.ts:252-282 | The bound is met for every k: the gate is a check before an insert, and k connects that pass together leave k + 2 live |
| `Connections.ExpiredAtOnce` | src/api-token.ts:129-158 | From the moment it names, a token is neither live nor usable for a new deployment, and is erased |
| `Connections.Registry.ScrubConnection` | src/cloudflare-api.ts:40-48 | Ciphertext and expiry of a live connection are erased and it is revoked; nothing else changes |
| `Connections.Registry.EraseExpiredApiTokens` | src/cloudflare-api.ts:74-84 | Every expired live row loses its ciphertext and expiry and is revoked, every other row stays as it was, and nothing expired stays usable |
| `Connections.Registry.DisconnectIfIdle` | src/cloudflare-api.ts:55-72 | Scrubs exactly a live connection that no other unfinished deployment uses, and says so |
| `RateLimiter.AtMostLimitPerWindow` | src/db.ts:40-58 | For any interleaving of any clients' upserts and reads, upserts in window order, at most `limit` calls per key and window return true |
| `RateLimiter.AtMostTwiceLimitPerSpan` | src/db.ts:40-58 | Hence at most twice the limit in any span of one window length |
| `RateLimiter.GrantsPerEntry` | src/db.ts:40-58 | Without the order hypothesis: if no call of the window still waits for its read when the window is entered, at most `limit` calls pass for each time it is entered |
| `RateLimiter.LateUpsertDefeatsLimit` | src/db.ts:40-58 | The hypotheses are needed: for every n and every limit, a run with one late upsert of another window in which n calls pass in one window, although it is entered only twice |
| `RateLimiter.Limiter.RateLimit` | src/db.ts:40-58 | One undisturbed call equals its two steps |
| `RateLimiter.Limiter.Sequence` | src/db.ts:40-58 | Run one after the other in one window, exactly min(n, limit) calls pass |
| `LedgerRuns.TrafficConservation` | omni-panel/dist-headless/omni-headless.js:145-150 | Over every interleaving of reports, flushes and batch failures: committed plus in-flight plus dirty grows by exactly what was reported plus what failing flushes re-queue after committing it |
| `LedgerRuns.ReportedIsHeld` | omni-panel/dist-headless/omni-headless.js:145-150 | Reported bytes never exceed what is held, with equality while no flush takes more than fifty users |
| `LedgerRuns.SmallFlushesCountOnce` | omni-panel/dist-headless/omni-headless.js:145-150 | Flushes of one batch never count anything twice |
| `LedgerRuns.LateFailureDuplicates` | omni-panel/dist-headless/omni-headless.js:145-150 | A flush of more than fifty users whose second batch is refused: what its first fifty users had is counted exactly twice |
| `LedgerRuns.UsedFollowsDaily` | omni-panel/dist-headless/omni-headless.js:145-150 | Committed per-user totals move with the sum of the daily rows, whatever fails |
| `LedgerRuns.DailyFollowsBatches` | omni-panel/dist-headless/omni-headless.js:145-150 | Over every run the total of each day and user grows by exactly what accepted batches of that day's flushes held, with one row per day and user |
| `Ledger.BatchIsWholeEntries` | omni-panel/dist-headless/omni-headless.js:145-150 | A user's two statements never straddle a batch |
| `Ledger.BookAddsDay` | omni-panel/dist-headless/omni-headless.js:146-150 | A flush of one day adds its entries to that day's totals and nothing to any other day's |
| `LedgerObject.Keeper.Report` | omni-panel/dist-headless/omni-headless.js:145 | A report adds to its user's dirty entry and nothing else |
| `LedgerObject.Keeper.PutBack` | omni-panel/dist-headless/omni-headless.js:150 | The re-queueing loop adds every entry of the flush back to the dirty map |
| `LedgerObject.Keeper.Flush` | omni-panel/dist-headless/omni-headless.js:145-150 | The database gets exactly the batches before the refused one; dirty is empty again or holds the whole flush |
| `Devices.DeviceLimitHolds` | omni-panel/dist-headless/omni-headless.js:145 | Over any run with a clock that does not go back, at most L distinct devices of a user are admitted in any 300-second window, with rejected attempts and closing reports interleaved |
| `Devices.AdmittedIff` | omni-panel/dist-headless/omni-headless.js:145 | From a new object, whatever came before: an admission under a limit passes if and only if the distinct devices named by the user's recorded events of the last 300 seconds, its own included, are no more than the limit; rejected attempts and closing reports count |
| `Devices.Gate.TouchDevice` | omni-panel/dist-headless/omni-headless.js:145 | Records the device, then forgets exactly those unseen for more than 300 seconds |
| `Devices.Gate.Admit` | omni-panel/dist-headless/omni-headless.js:145 | The imperative admission equals the step of the run |
| `Cidr.ParseCidr` | src/dns-center.ts:46-63 | The computation through signed 32-bit shifts equals the plain-arithmetic range of the text, on every text |
| `Cidr.CidrIsAlignedBlock` | src/dns-center.ts:46-63 | Every accepted text yields the aligned block of 2^(32-prefix) consecutive, distinct addresses around its address, with no wrap |
| `Cidr.DigitsMatch` | src/dns-center.ts:46-49 | Four runs of digits are read exactly if none has more than three |
| `Cidr.DigitsMatchPrefix` | src/dns-center.ts:46-49 | With a prefix length exactly if moreover that has no more than two |
| `Cidr.BareAddress` | src/dns-center.ts:46-63 | An address without prefix length is accepted exactly if its numbers are octets, and names itself alone |
| `Cidr.PrefixedAddress` | src/dns-center.ts:46-63 | With a prefix length it is accepted exactly for octets and 24 to 32, and names 2^(32-prefix) addresses, itself among them |
| `Cidr.ReparseIsIdentity` | src/dns-center.ts:235-240 | Parsing the stored text gives back the same list, so a stored cursor always indexes the same address |
| `Cidr.DottedInjective` | src/dns-center.ts:46-63 | Different addresses have different texts |
| `Scan.Scanner.Replace` | src/dns-center.ts:192-207 | A replaced range starts an empty round of the same addresses; a refused one changes nothing |
| `Scan.Scanner.RunScanTick` | src/dns-center.ts:229-285 | Refused without effect when the stored text names no range; otherwise a tick with any budget stores exactly the next rows, reports counters that sum to `scanned`, and says done exactly when every address has its row |
| `Scan.Scanner.ProbeDue` | src/dns-center.ts:308-351 | A cron pass over one range appends the next rows one at a time, in groups of eight, and moves the cursor on or back to zero; it deletes nothing |
| `Scan.Scanner.TallyStored` | src/dns-center.ts:244-252 | The counters start from exactly the stored rows |
| `Scan.ProbeWave` | src/dns-center.ts:256-271 | A wave's batch is the next at most sixteen addresses, each counted once |
| `Scan.RowsMatchAddresses` | src/dns-center.ts:229-285 | Over any sequence of ticks the stored rows are the addresses below the cursor, each once, in order |
| `Scan.SlicingIsInvisible` | src/dns-center.ts:229-285 | Against steady answers any slicing into ticks stores what one pass would |
| `Scan.TallyCounts` | src/dns-center.ts:244-276 | Each counter is the number of rows with its verdict |
| `ScanRounds.RangeRoundSummary` | src/dns-center.ts:288-305 | The summary counts every stored row once by verdict, and its top list is the at most eight healthy rows with the least round-trip times in order, a missing one counting as 9999 ms |
| `ScanRounds.RoundIsAnswered` | src/dns-center.ts:253-276 | At any time each stored row is what its address answered to the last tick whose slice reaches it |
| `ScanRounds.FinishedRoundSummary` | src/dns-center.ts:229-305 | After a finished round of live ticks with any budgets and answers that may change from tick to tick, every address has one answer, the one to the last tick whose slice reaches it, and the summary's counters are those of these answers and add up to the range |
| `ScanRounds.EveryRunAccounted` | src/dns-center.ts:253-284 | With ticks cut off anywhere, no committed address lacks a row, and the counters exceed `scanned` by exactly the rows of waves whose cursor update was lost |
| `ScanRounds.CountersExceedScannedByOrphans` | src/dns-center.ts:253-284 | The same law from every balanced state |
| `ScanRounds.TornWaveOvercounts` | src/dns-center.ts:271-275 | A tick cut off between batch and cursor update leaves its whole wave counted twice, unless it was the round's first |
| `ScanRounds.CronKeepsEveryRound` | src/dns-center.ts:308-351 | Over any number of cron passes, whatever is answered, the stored rows name the whole range once for every finished round, and then the running one up to the cursor |
| `ScanRounds.CronSummaryTotal` | src/dns-center.ts:308-351 | So the summary's total counts every address once per finished round, not once |
| `DnsQuery.EncodeDnsQuery` | src/dns-center.ts:66-86 | The filled buffer is header, length-prefixed labels, root, type and class |
| `DnsQuery.QueryFrame` | src/dns-center.ts:66-86 | Around the name: a header that asks for recursion and announces one question only, and root, type and class IN at the end |
| `DnsQuery.ParseQuestion` | src/data-plane-source.ts:58-70 | The loop stays in bounds and stops on every byte string, and computes the question read from byte 12 |
| `DnsQuery.HostnameRoundTrip` | src/data-plane-source.ts:58-70 | For every valid hostname and 16-bit type the parser gives back exactly what was encoded |
| `DnsQuery.QueryReadsBack` | src/dns-center.ts:66-86 | For every name whose labels fit, the parser gives back the name in lower case (Latin-1 capitals included) without empty labels, and the type modulo 2^16 |
| `DnsQuery.AcceptedIsQuestion` | src/data-plane-source.ts:58-70 | Whatever the parser accepts is a question: labels of 1 to 63 bytes, the root, the type and two more bytes, and the result names exactly these |
| `DnsResponse.ParseDnsResponse` | src/dns-center.ts:89-132 | The nested loops never read out of bounds and stop on every byte string |
| `DnsResponse.ResponseReadsBack` | src/dns-center.ts:89-132 | On every encoded response, with any flag bits beside the rcode, whose answer names are a bare pointer or plain labels: the rcode and exactly the A addresses in order |
| `DnsResponse.AnswersSpell` | src/dns-center.ts:109-131 | On every well-formed response the answers are, in order, one for each A record of four bytes, and spell its data in decimal between dots |
| `DnsResponse.AnswerNameEndFound` | src/dns-center.ts:112-121 | The parser finds the end of an answer name if and only if it does not mix labels with a pointer |
| `DnsResponse.Reassemble` | src/data-plane-source.ts:80-108 | The result is the framed message of the concatenated chunks, and None exactly when the stream ends short, for every chunking |
| `DnsResponse.LaterChunks` | src/data-plane-source.ts:91-102 | Once a prefix of the chunks holds the message, later chunks cannot change it |
| `DnsResponse.FrameRoundTrip` | src/data-plane-source.ts:80-88 | The length prefix recovers the message, whatever follows it, if and only if it is shorter than 65536 bytes |
| `Base64.BytesToBase64Url` | src/security.ts:23-27 | The chain of btoa, replacements and stripping is the URL alphabet of the six-bit groups |
| `Base64.Base64UrlToBytes` | src/security.ts:29-36 | Decoding through replacements, padding and atob gives back the bytes of every encoded text |
| `Base64.UrlRoundTrip` | src/security.ts:23-36 | Decoding gives back every byte string |
| `Base64.OctetsOfPrefix` | src/whitehole.ts:46-57 | Cutting the encoding after whole groups cuts the bytes after whole triples |
| `Base64.AlphabetsAre` | src/security.ts:23-36 | The six-bit values are written as the two alphabets of RFC 4648 say |
| `Base64.DataPlaneRoundTrip` | src/data-plane-source.ts:11-17 | The data plane's decoder gives back the bytes exactly when the encoding has no underscore, and throws otherwise: its second replacement is reversed |
| `Base64.DataPlaneRefuses` | src/data-plane-source.ts:11-17 | The failing case exists: the byte 255, encoded as `_w` |
| `DeadDrop.ChunkString` | src/whitehole.ts:53-57 | The loop's chunks are the successive slices |
| `DeadDrop.FirstChunks` | src/whitehole.ts:53-57 | The first k chunks glued together are the first k * size characters |
| `DeadDrop.RecordFits` | src/whitehole.ts:77-79 | Every published TXT value has at most 196 characters, so it is one character-string |
| `DeadDrop.PublishedFields` | src/whitehole.ts:77-79 | Each published record reads, field by field: version, place from one and shard, number of shards, length of the encoding modulo 97 |
| `DeadDrop.PartOfRecord` | src/whitehole.ts:239-268 | The reader's two substitutions take out exactly the shard |
| `DeadDrop.DropRoundTrip` | src/whitehole.ts:239-268 | With no old record behind the new ones, the reader prints exactly the first min(n, 1080) bytes; of the empty payload it finds no shards |
| `DeadDrop.LosslessUpTo1080` | src/whitehole.ts:20-21 | Lossless if and only if the payload has 1 to 1080 bytes |
| `DeadDrop.RepublishReads` | src/whitehole.ts:248-259 | Over any zone the reader gathers the new shards followed by whatever old records lie beyond them |
| `DeadDrop.Zone.Publish` | src/whitehole.ts:116-131 | One upsert per shard, in order |
| `DeadDrop.Zone.Clear` | src/whitehole.ts:160-171 | Removes exactly the eight names and reports how many records there were |
| `DeadDrop.Zone.Fetch` | src/whitehole.ts:239-268 | The shell reader decodes what it gathers up to the first missing record |
| `Sleeper.JsFnv1a` | src/sleeper.ts:45-52 | The loop of signed 32-bit xor and imul is FNV-1a over the UTF-16 code units |
| `Sleeper.PyFnv1a` | src/agent.ts:589-593 | The Python loop with a mask is FNV-1a over the UTF-8 bytes |
| `Sleeper.FnvVectors` | src/sleeper.ts:45-52 | The hash gives the published 32-bit FNV-1a values of the empty text and of `a` |
| `Sleeper.Utf8Spells` | src/agent.ts:589-593 | The bytes hashed by the agent are the UTF-8 form of each character |
| `Sleeper.UnitsSpell` | src/sleeper.ts:45-52 | The codes hashed by the control plane are the UTF-16 units of each character |
| `Sleeper.SleeperWindowFor` | src/sleeper.ts:61-68 | Start and end of the window, through JavaScript's signed remainder, for every anchor |
| `Sleeper.AgentWakes` | src/agent.ts:594-603 | The agent's start and its membership test as written |
| `Sleeper.WindowsAgree` | src/agent.ts:594-602 | For every ASCII id and day and every anchor both sides compute the same start |
| `Sleeper.AcceptedMinutes` | src/agent.ts:603 | What the agent's test accepts, minute by minute |
| `Sleeper.TestIsRightIff` | src/agent.ts:603 | The test accepts exactly the sixty minutes from the start if and only if the start is before 23:00 |
| `Sleeper.SafeAnchors` | src/sleeper.ts:61-68 | That is so for anchors 1 to 22, for 0 unless the jitter is negative, and for 23 only if it is |
| `Sleeper.HourlyPollingWakesOnce` | src/agent.ts:653-663 | Polling at any minute past each hour wakes exactly once a day, or never when the window is lost to midnight |
| `CleanIp.ParseLatency` | src/clean-ip.ts:158-160 | A latency is refused exactly above 10000 after rounding, is otherwise the nearest integer, and is -1 if negative below that or no number |
| `CleanIp.ParseLoss` | src/clean-ip.ts:162-163 | Loss is a percentage in tenths, within half a tenth of what was reported, and clamped to 0 and 100 |
| `CleanIp.RowStaysBetween` | src/clean-ip.ts:178-206 | After any reports, stored latency and loss lie between the least and the greatest reported on the key |
| `CleanIp.RowCounts` | src/clean-ip.ts:178-206 | A key has a row exactly if reported, with the number of its reports and of its successes |
| `CleanIp.RowTime` | src/clean-ip.ts:181-189 | A row's time is that of the last report with its address, operator and city |
| `CleanIp.BlendIsNearest` | src/clean-ip.ts:184-185 | The blend is three fifths of the stored and two fifths of the reported value, to the nearest integer |
| `CleanIp.UnknownIsBlended` | src/clean-ip.ts:181-189 | The upsert averages the -1 marker: exactly when it survives a report, and an instance where it does not |
| `CleanIp.Radar.Record` | src/clean-ip.ts:178-206 | The upsert keeps the table equal to the fold of its history |
| `CleanIp.LatestByIp` | src/clean-ip.ts:263-267 | The map holds, for exactly the reported addresses, a most recent row |
| `CleanIp.MergePool` | src/clean-ip.ts:269-271 | Pool and reported addresses merged as the map does, each at its first place |
| `CleanIp.DistinctKeepsAll` | src/clean-ip.ts:269-271 | The merged list holds exactly the addresses of both, none twice |
| `CleanIp.RankedAddresses` | src/clean-ip.ts:269-271 | Ranked are the addresses of the pool and of the segment's stored rows |
| `CleanIp.RankPool` | src/clean-ip.ts:273-316 | The ranking is a permutation of one scored row per address, sorted by score and, where that is equal, by the locale's order of addresses, every measured one before every unmeasured one |
| `CleanIp.CheaperFirst` | src/clean-ip.ts:284-316 | Of two measured addresses the one that costs less, by a fifth of a millisecond or more, stands first: an unknown latency costs 120 ms, a tenth of a percent of loss 5 ms, a quarter of an hour of age 1 ms |
| `CleanIp.BetterFirst` | src/clean-ip.ts:284-316 | So one whose stored row is better in latency, loss or (by three minutes) age and worse in none stands first |
| `CleanIp.MeasuredIff` | src/clean-ip.ts:273-283 | Measured are exactly the addresses with a report of the last 24 hours |
| `CleanIp.SmallerSumFirst` | src/clean-ip.ts:294-295 | Of two unmeasured addresses the one with the smaller sum of octets stands first |
| `CleanIp.Radar.RankCleanIps` | src/clean-ip.ts:249-325 | From the table any parsed reports have left: a permutation of one row per distinct address of pool and segment, scored from a most recent row, sorted by score and then by the locale's order, every measured one before every unmeasured one, cut to between 1 and 48 |
| `CleanIp.ScoresSeparate` | src/clean-ip.ts:284-295 | Every measured score is below 8000 and every other one at least a million |
| `CleanIp.PartitionChangesNothing` | src/whitehole.ts:34-44 | The measured-first partition leaves any ranking's order unchanged |
| `CleanIp.PayloadFollowsRanking` | src/whitehole.ts:34-44 | So the payload's addresses are the ranking cut to the limit, also when the limit exceeds it |
| `Wizard.ConfirmedIsAccepted` | src/telegram.ts:3055-3080 | After any sequence of texts and buttons, stale or concurrent, a snapshot that passes the completeness check is accepted by the validator unchanged, and by the zone and target checks except for a node that is the default target |
| `Wizard.SentAsAnswered` | src/telegram-wizard.ts:256-332 | A whole conversation of six accepted texts and the firewall button ends complete, and what is sent carries the boundary's connection, account and zone and each text, normalised, in its own field; validator and zone checks accept it |
| `Wizard.RunKeepsGood` | src/telegram-wizard.ts:256-332 | What every saved row and every loaded snapshot keeps |
| `Wizard.CompleteIsAccepted` | src/validation.ts:30-63 | A complete form of valid fields passes the validator, which changes none of its values |
| `Wizard.AcceptedIff` | src/validation.ts:22-63 | What the validator takes: nine texts within their lengths, each valid once trimmed and in lower case, the two host names different |
| `Wizard.ZoneChecksPass` | src/deployments.ts:69-75 | Exactly when the zone-suffix and target checks of createDeployment pass |
| `Wizard.DefaultTargetRefused` | src/deployments.ts:69-75 | In the zone `microsoft.com`, a whole conversation that reaches the confirm step with a form the validator accepts and the target check refuses |
| `Wizard.Desk.BeginDeployWizard` | src/telegram-wizard.ts:238-253 | Starts at the first step with only the boundary, which establishes the invariant for a well-formed boundary |
| `Wizard.Desk.ProcessWizardText` | src/telegram-wizard.ts:256-314 | Saves the filled form of the step exactly if the text is valid, keeping the invariant |
| `Wizard.Desk.ApplySniDefault` | src/telegram-wizard.ts:317-321 | From any step, saves the default target and keeps the invariant |
| `Wizard.Desk.ApplyUfwChoice` | src/telegram-wizard.ts:323-332 | From any step, saves the choice and keeps the invariant |
| `Wizard.Desk.PressConfirm` | src/telegram.ts:3055-3080 | Sends exactly a complete form, which the validator accepts as it stands |
| `Validators.Ipv4IsSettled` | src/security.ts:167-174 | A valid IPv4 text is 7 to 15 characters long and unchanged by trimming and lower-casing |
| `ValidatorForms.Ipv4Iff` | src/security.ts:167-174 | A valid IPv4 text is exactly four numbers up to 255, printed between dots |
| `ValidatorForms.PublicIff` | src/security.ts:176-190 | It is public exactly if its value lies outside thirteen reserved blocks |
| `ValidatorForms.LabelIff` | src/security.ts:158-165 | A host label has 1 to 63 letters, digits or hyphens and neither begins nor ends with a hyphen |
| `ValidatorForms.WorkerNameIff` | src/security.ts:200-202 | A Worker name has 3 to 64 letters, digits or hyphens, begins with a letter and does not end with a hyphen |
| `ValidatorForms.EmailIff` | src/security.ts:192-194 | A valid email address is something, an at sign, something, a dot and something, without blanks or another at sign, up to 254 characters |
| `Text.TrimCuts` | src/validation.ts:22-28 | Trimming takes away blanks at both ends, all of them and nothing else |
| `Text.LowerLetters` | src/validation.ts:22-28 | Lower-casing replaces each Latin-1 capital by its small letter and changes nothing else |
| `CensorshipMap.AggregateMap` | src/censorship-map.ts:160-187 | The loop fills the cells, their transports, the global transports and the total |
| `CensorshipMap.CountsAreConserved` | src/censorship-map.ts:164-187 | Cells, and global transports, sum to the total; the transports of every cell sum to that cell; successes too |
| `CensorshipMap.CellIsSum` | src/censorship-map.ts:164-182 | Every cell is the sum of exactly the rows of its provider and city |
| `CensorshipMap.ShareIsSum` | src/censorship-map.ts:180-181 | Every transport of a cell is the sum of exactly its rows |
| `CensorshipMap.OkNeverExceedsReports` | src/censorship-map.ts:164-187 | Successes never exceed reports in the sum over any selection of rows |
| `CensorshipMap.OkWithinReports` | src/censorship-map.ts:164-187 | So in every cell, every transport of a cell and every global transport of the tables |
| `CensorshipMap.KeyIsInjective` | src/censorship-map.ts:165 | The `isp, bar, city` key never merges two cells of providers without the separator |
| `CensorshipMap.ListedProvidersHaveNoBar` | src/censorship-map.ts:17-19 | No listed provider contains it |
| `CensorshipMap.AggregationIgnoresOrder` | src/censorship-map.ts:140-217 | Every figure is the same for every order of the rows |
| `CensorshipMap.MedianIsMiddle` | src/censorship-map.ts:127-131 | The median is one of the values, with at most half of them below it and less than half above |
| `CensorshipMap.MedianIgnoresOrder` | src/censorship-map.ts:127-131 | So is every cell's median |

## Left out

- Non-overlap as a guarantee: the code does not enforce what `LifecycleReady` and `LifecycleHash` ask of a run, so it is a stated hypothesis.
- Cloudflare REST calls, sockets, HTTP, Telegram delivery, systemd and the bootstrap shell script: uploads and DNS upserts are map writes, answers are parameters.
- AES-GCM, SHA-256, PBKDF2 and randomness: an injective hash and fresh tokens.
- Lifecycle: the queries that look a connection up inside a workflow step are not actions of the step machine; `Connections` models them separately.
- ControlPlane: create, bootstrap re-issue, retry, revoke request and delete are atomic actions of `Lifecycle` only, with no object method; of the create conflicts only the Worker name is modelled, not the hostnames.
- Lifecycle: one Worker script and its successive rows, not several tenants' scripts side by side, which share nothing the actions read.
- Connections: rows of the retired OAuth kind, which no code inserts any more; the account of a connection picked by the sleeper rebind, which the code does not compare either.
- LedgerRuns.BatchFail: a refused batch is taken not to have committed; a batch that commits and whose answer is lost is not modelled.
- Beacon command delivery: the publisher writes fewer fields than the agent indexes, so there is no round trip to state.
- classifyAnswers and the socket part of probeResolver: a probe's verdict is a parameter of the scan.
- scanDueRanges: the choice of which ranges are due, and passes cut off between two inserts; `Scan.Scanner.ProbeDue` is its work on one range.
- Retention purges of scan results, usage, reports and drops.
- CleanIp: the locale's order of addresses is a parameter.
- CleanIp: operator and city tables, hints and status labels; scores are computed over reals.
- Wizard: JSON bodies with missing or mistyped fields, and case mapping outside Latin-1; `trim` and `toLowerCase` are otherwise modelled.
- DeadDrop.Zone.Fetch: record values the publisher did not write are read as far as the substitutions go, and a malformed text decodes to None where the command-line decoder may print a prefix.
- CensorshipMap: sanitising of city names, verdict thresholds and the sorting of the result lists.
- Panel deployment, dashboard, help texts, keyboards, service worker, build scripts, and the escaped copy of the node bundle.
