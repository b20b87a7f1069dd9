# Verified model of the ML platform's control loops

The platform trains models as Ray jobs, registers them in MLflow and PostgreSQL, and serves them
from pods. Its control plane and its operator are separate processes that share one database and
one cluster and talk over HTTP, so every operation is a sequence of transactions and remote calls
between which anything else may happen. This project models those sequences as step systems and
proves what every run keeps; beside each step system stands the code that drives it, as classes
whose methods are proved to do exactly what a list of steps does, whichever calls fail.

There are four parts.

1. **Training jobs** (`Quota`, `Jobs`, `JobProtocol` and the other `Job` modules): submission with
   its quota pre-check, the FIFO dispatcher with its re-check, RayJob submission with crash
   recovery, status reports and automatic retry, and how long a job can wait (`JobTick`).
   `JobStore` and `JobServices` are the code.
2. **Deployments** (`Deployments`, `DeploymentProtocol` and the other `Deployment` modules,
   `Backoff`): create, delete and rollback against a reconciler that works from a stale listing, the
   status handler that checks before it writes and not again when it writes, the gauge, convergence
   and backoff. `DeploymentStore`, `DeploymentServices` and `DeploymentReconciling` are the code.
3. **Model registry** (the `Registry` modules): the registration saga across MLflow and PostgreSQL
   with its compensation, and alias promotion, down to the two UPDATEs of its transaction.
   `RegistryServices` is the code.
4. **Provenance** (`Provenance`, `ProvenanceGap`): the three parts running together.

Answers, tables and formulas are not only proved equal to the functions that describe them: what an
operation answers, what it writes and what it asks for is also stated in columns, statuses and
numbers, in the contracts of the handlers and in `JobOutcomes`, `JobLifeCycle` and
`DeploymentOutcomes`.

In each step system `Apply` is total (a step whose actor is elsewhere changes nothing), and `Exec`
runs a list of steps; a theorem about `Exec(Init(), steps)` for all `steps` is about every run. A
remote call ends in one of three ways: reached, refused without effect, or performed with the reply
lost. Go's int64 arithmetic is modelled with its wrap-around where it matters, in the quota sums and
in the backoff delay.

What is assumed of the surroundings: one dispatcher and one deployment reconciler; a transaction is
atomic and isolated, but for the one that moves the holder of an alias, whose two UPDATEs are
separate steps under READ COMMITTED, with snapshots and row locks; `created_at` orders rows as they
were inserted, so tables are sequences; a cluster Delete takes effect at once, while what the
operator reads of pods and services may come from a cache that is behind; tenant ids are 36
characters long; quotas are fixed; the operator reports what its phase mapping yields. Where a
theorem needs more, such as requests that do not overlap, it is a stated hypothesis, and a lemma
with a concrete run or a whole family of runs shows what happens without it.

Where the repository's own documents disagree with its code, the code is modelled.
`docs/architecture/model-lifecycle.md` says that promoting to production demotes the prior version
to staging; the code makes it a candidate (`RegistryPromotions.PriorHolderBecomesCandidate`).
`docs/architecture/training-flow.md` shows the RayJob created before the job becomes QUEUED; the code
commits QUEUED first.

Claims that one might expect and that do not hold of the code each have a lemma with a run in which
they fail, and one that says exactly when they hold:
- "deleted is terminal" (`DeploymentScripts.RollbackRevives`, `DeploymentTerminal.LateReportRevives`;
  `DeletedIsFinalExactly`);
- "a deleted deployment has no pod" when the client gives up or its cache is behind
  (`DeploymentDelay.LateReportOrphansObjects`; `DeploymentCache.OrderIsExact`);
- "a pending deployment always converges" (`DeploymentOvertaken.OvertakenInEveryRun`,
  `DeploymentConvergence.RollbackOfServingNeverServes`; `VisitConverges`);
- "active jobs stay within quota" (`JobQuotaExact.RetryWindowOvershoots`, `OverflowOvershoots`;
  `RetryWindowExact`);
- "an accepted job is promoted in time" (`JobWaitExact.PreCheckInWindowRefused`; `OpenLoadExact`,
  `InsertExact`);
- "MLflow and PostgreSQL stay in step" (`RegistryFaults.OverlappingRegistrationsOrphan`;
  `RegistrationLeavesMirrorExactly`, `RegistrySagas.FindingExactly`);
- "a model has one production version" (`RegistryHolders.TwoHolders`; `BeginningExactly`);
- "a production version always has its alias" (`RegistryPromotions.ArchivingHidesProduction`;
  `ProductionNamedExactly`);
- "the alias of a status names its holder" (`RegistryAgreementExact.CrossedPromotionsDisagree`,
  `OverlappingTransactionsDisagree`; `AliasingExactly`, `BeginningAgreesExactly`);
- "an alias never resolves to an archived version" (`RegistryResolve.AliasResolvesToArchived`;
  `NeverResolvesExactly`);
- "archived is terminal" (`RegistryPromotions.OverlappingPromotionsUnarchive`;
  `RegistryAlias.ArchivedIsFinalExactly`);
- "only production versions are deployed", at the moment of the insert
  (`ProvenanceGap.ArchivedVersionDeployed`; `GateToInsertExactly`);
- "the gauge agrees with a recount" (`DeploymentGauge.OverlapDrifts`; `GaugeDrift`);
- "the backoff is min(base * 2^(n-1), cap)" (`Backoff.BoundaryOverflows`; `ClosedFormExactly`).

`dafny verify dfyconfig.toml` checks the whole project.

## Model

| member | source | states |
|---|---|---|
| JobProtocol.JobRunAgreement | control-plane/internal/jobs/store.go:318-368 | In every reachable state, whatever call fails and between any two transactions of a retry: the latest run has the status of its job, or the job is FAILED with a fresh QUEUED run prepared for it; every earlier run is FAILED with `finished_at` set; the number of runs and `retry_count` stay within `max_retries` + 1 |
| JobHistory.HistoryIsKept | control-plane/internal/jobs/store.go:318-368 | Over any run no job disappears, its spec never changes, every run row but the latest is frozen, and a SUCCEEDED run with an MLflow id never changes again |
| JobHistory.ExhaustedIsSettled | control-plane/internal/api/internal.go:107-122 | A job whose `retry_count` has reached `max_retries` + 1 is FAILED and no handler can move it any more |
| JobHistory.SettledForever | control-plane/internal/api/internal.go:107-122 | Once a job has ended and no handler holds it, its row never changes again apart from `rayjob_name` |
| JobBound.TransitionBound | control-plane/internal/jobs/statemachine.go:6-11 | A job commits at most 3 * (`max_retries` + 1) status transitions in any run |
| JobBound.TransitionBoundIsTight | control-plane/internal/jobs/statemachine.go:6-11 | For every `max_retries` some run commits exactly that many |
| JobDispatch.RayJobExactlyOnce | control-plane/internal/jobs/dispatcher.go:136-160 | For any pattern of refused or lost Create and SetRayJobName calls: each RayJob belongs to one job that has left PENDING, no job has two, and a recorded `rayjob_name` is the name of an existing RayJob with the label of that job, given distinct short ids |
| JobDispatch.NamedForEver | control-plane/internal/jobs/rayjob.go:24-61 | Over every run from the start: a recorded `rayjob_name` never changes, and the RayJob of that name is never replaced, so a crash, a second launch or a retry leaves the job under the RayJob of the first attempt |
| JobDispatch.SharedShortIdMisnames | control-plane/internal/jobs/rayjob.go:63-69 | Distinct short ids are needed: for any two ids that share their first eight characters some run records for the second job a RayJob built for the first |
| Jobs.RayJobNameInjective | control-plane/internal/jobs/rayjob.go:63-69 | Two jobs get the same RayJob name only if their ids share the first eight characters |
| JobFifo.PromotedInSubmissionOrder | control-plane/internal/jobs/store.go:231-244 | Per tenant, the sequence of promotions is a prefix of the sequence of submissions, in every run |
| JobQuota.QuotaSafety | control-plane/internal/jobs/dispatcher.go:76-123 | If the dispatcher takes no quota reading for a tenant while one of its jobs is between FAILED and the re-queue, and demands cannot overflow, no tenant ever has QUEUED and RUNNING jobs beyond a positive CPU or memory quota, although the dispatcher reads and commits in separate steps |
| JobQuota.QuotaSafetyInFull | control-plane/internal/jobs/dispatcher.go:76-123 | The same with the sums written out row by row, workers and head, in CPU and in memory |
| JobQuota.ReadingExactly | control-plane/internal/jobs/store.go:181-229 | Both quota readings, written out row by row: a job is accepted exactly if its workers and head fit beside those of the QUEUED and RUNNING jobs of the tenant, and before its insert also the PENDING ones |
| JobQuota.ListedLoad | control-plane/internal/jobs/store.go:181-229 | The two list queries feed the quota check exactly the summed demand of the rows they select |
| JobQuotaExact.RetryWindowExact | control-plane/internal/api/internal.go:107-122 | Exactly when the retry window keeps quota: whatever the report handlers still do, a tenant stays within a limit if and only if its active jobs and its jobs inside the window fit together |
| JobQuotaExact.RetryWindowOvershoots | control-plane/internal/api/internal.go:107-122 | For any two jobs, whatever they ask for their workers and heads, that fit one by one but not together there is a run that has both active: the second is promoted between FAILED and the re-queue of the first |
| JobQuotaExact.OverflowOvershoots | control-plane/internal/scheduler/quota.go:29-49 | Whenever a demand on top of a full quota passes the largest int64, a run gets it admitted and promoted |
| Quota.CheckExactUnlessOverflow | control-plane/internal/scheduler/quota.go:29-49 | The int64 comparison of a dimension is the intended one if and only if the exact sum does not overflow |
| Quota.CheckQuota | control-plane/internal/scheduler/quota.go:29-49 | Decides, dimension by dimension and in int64 arithmetic, whether the request fits beside the active jobs; a quota of zero limits nothing; beside no active job that is whether its workers times what each asks for, plus its head, stay within each limit |
| Quota.AcceptsExactly | control-plane/internal/scheduler/quota.go:29-84 | With the totals written out job by job and no overflow: a request is accepted exactly if in each limited dimension its workers and head fit beside those of the active jobs |
| Quota.LargerActiveJob | control-plane/internal/scheduler/quota.go:51-84 | More workers and a larger head on an active job take exactly that much away from what is left |
| Quota.SumResources | control-plane/internal/scheduler/quota.go:51-61 | The loop yields the wrapped CPU and memory totals of the jobs |
| Quota.JobMillicoresAndBytes | control-plane/internal/scheduler/quota.go:63-84 | Head plus workers, with every product and sum wrapped to int64 |
| JobWait.NonTerminalWithinQuota | control-plane/internal/api/jobs.go:58-91 | With submissions of a tenant serialised, demands that cannot overflow, and no pre-check taken inside a retry window of the tenant, even PENDING, QUEUED and RUNNING jobs together stay within a positive quota |
| JobWait.NonTerminalInFull | control-plane/internal/api/jobs.go:58-91 | The same with the sums written out row by row |
| JobWait.NeverRefused | control-plane/internal/jobs/dispatcher.go:91-112 | In every state that such runs reach, the re-check of the dispatcher accepts every PENDING job, so it never refuses the one it picked |
| JobWaitExact.OpenLoadExact | control-plane/internal/api/jobs.go:58-91 | Exactly when the PENDING, QUEUED and RUNNING jobs of a tenant stay within a limit, whatever the report handlers still do: if and only if they do together with the jobs inside the retry window |
| JobWaitExact.InsertExact | control-plane/internal/api/jobs.go:58-110 | So a submission keeps the limit, over all that handlers still do, if and only if it fits beside everything of the tenant that has not ended, retry window included, which the pre-check leaves out |
| JobWaitExact.PreCheckInWindowRefused | control-plane/internal/api/jobs.go:58-91 | From the start, with every call succeeding and submissions one after the other: for any two jobs that fit one by one but not together, a pre-check inside the retry window lets both in; the re-check then refuses the oldest waiting job, and any number of ticks in which no call fails changes nothing |
| JobTick.AttemptRuns | control-plane/internal/jobs/dispatcher.go:76-160 | A promotion attempt whose calls are interleaved with anything that everybody else does, whichever of them fail, leaves the dispatcher ready for its next call; if its reads and its commit succeed, one waiting job of the tenant less is left |
| JobTick.TickReduces | control-plane/internal/jobs/dispatcher.go:53-74 | The same for a whole tick, its retry list and all its tenants |
| JobTick.TickNames | control-plane/internal/jobs/dispatcher.go:125-160 | If the launches of a tick succeed, every job that was QUEUED without a name when it read its retry list has one when it ends, with anything of everybody else in between |
| JobTick.BoundedWait | control-plane/internal/jobs/dispatcher.go:53-160 | With admission as for NonTerminalWithinQuota: a job with k older PENDING jobs of its tenant is promoted within k + 1 ticks in which the reads and the commit for its tenant succeed, whatever else fails in them, with submissions, reports and retries landing between any two of their calls, and whatever happens between the ticks |
| JobTick.BoundedWaitFromInit | control-plane/internal/jobs/dispatcher.go:53-160 | The same over every run from the start of the platform |
| JobTick.AloneIsTick | control-plane/internal/jobs/dispatcher.go:53-74 | What one call of Tick does, nothing interfering, is one of the ticks that the bound counts |
| JobRetry.RetryAccounting | control-plane/internal/api/internal.go:107-122 | In fault-free runs, outside the retry window, `retry_count` is the number of FAILED runs and a job has had 1 + min(`retry_count`, `max_retries`) runs |
| JobLifeCycle.LifeIsPath | control-plane/internal/jobs/statemachine.go:6-11 | In every run from the start, whatever fails and interleaves: a job commits PENDING to QUEUED, QUEUED to RUNNING or FAILED, RUNNING to SUCCEEDED or FAILED, FAILED to QUEUED, and nothing else, and its commits follow on each other up to its status |
| JobLifeCycle.RunsAreTimed | control-plane/internal/jobs/store.go:333-358 | In every run from the start: a run that waits has no times, a RUNNING one a start, a SUCCEEDED one a start and an end, a FAILED one an end, and only a FAILED one has a failure reason |
| JobOutcomes.TransitionOutcome | control-plane/internal/jobs/store.go:318-368 | A transition is taken exactly from the expected status and along the listed edges, and writes status, start or end time, and reason to the job and its latest run |
| JobOutcomes.ReceiveOutcome | operator/internal/reconciler/rayjob_reconciler.go:60-115 | A running RayJob is reported RUNNING, a complete one SUCCEEDED with the MLflow run id of its log, a failed one FAILED with its message, any other not at all |
| JobOutcomes.ReportOutcome | control-plane/internal/api/internal.go:60-105 | The whole effect of RUNNING on a QUEUED or SUCCEEDED on a RUNNING job, column by column |
| JobOutcomes.FailureOutcome | control-plane/internal/api/internal.go:60-122 | The whole effect of FAILED on a QUEUED or RUNNING job: the failure is counted, and while retries are left a fresh run is added and the job goes back to QUEUED, each only if the call before it worked |
| JobOutcomes.ReportRefused | control-plane/internal/api/internal.go:60-73 | Any other report of these, and one whose commit fails, changes nothing |
| JobOutcomes.LaunchOutcome | control-plane/internal/jobs/dispatcher.go:136-160 | A launch creates the RayJob that is named after the first eight characters of the id, with the labels of the job, unless there is one of that name, and records the name if the call is answered |
| JobOutcomes.PromotionOutcome | control-plane/internal/jobs/dispatcher.go:76-123 | An attempt makes the first waiting job of the tenant QUEUED and launches it exactly if its reads and commit succeed and the job fits; otherwise it changes nothing |
| JobStore.CollectResources | control-plane/internal/api/jobs.go:71-77 | The loop hands the quota check the resources of every listed job, in order |
| JobStore.PostgresJobStore.GetOldestPendingJob | control-plane/internal/jobs/store.go:231-244 | Finds the first PENDING row of the tenant if there is one, and nothing otherwise |
| JobStore.PostgresJobStore.GetTenantIDsWithPendingJobs | control-plane/internal/jobs/store.go:246-262 | Every tenant with a PENDING job, each once, and no other |
| JobStore.PostgresJobStore.GetQueuedJobsWithoutRayJob | control-plane/internal/jobs/store.go:264-285 | The QUEUED rows without a recorded name, in submission order |
| JobStore.PostgresJobStore.TransitionJobStatus | control-plane/internal/jobs/store.go:318-368 | Compare-and-set: only from the expected status and along the table does the job change, and its latest run with it; otherwise nothing changes |
| JobStore.PostgresJobStore.IncrementRetryCount | control-plane/internal/jobs/store.go:436-444 | The new count is one more than the old and nothing else changes |
| JobStore.PostgresJobStore.CreateRetryRun | control-plane/internal/jobs/store.go:446-464 | One fresh QUEUED run is appended to the job |
| JobServices.JobDispatcher.SubmitRayJob | control-plane/internal/jobs/dispatcher.go:136-160 | Does what the two protocol steps do under every fault; without faults the job has a name afterwards |
| JobServices.JobDispatcher.RetryQueuedWithoutRayJob | control-plane/internal/jobs/dispatcher.go:125-134 | Works off the retry list as the protocol does; if no call fails, no QUEUED job is without a name afterwards |
| JobServices.JobDispatcher.PromoteOldestPending | control-plane/internal/jobs/dispatcher.go:76-123 | Does what the pick, check, commit and launch steps of the protocol do, whichever calls fail |
| JobServices.JobDispatcher.Tick | control-plane/internal/jobs/dispatcher.go:53-74 | A tick is the retry list followed by one promotion attempt for each waiting tenant, and for a tenant whose reads and commit succeed it is a tick that the bound on the wait counts; after an uninterrupted tick without faults no QUEUED job lacks a name |
| JobServices.InternalHandler.HandleUpdateJobStatus | control-plane/internal/api/internal.go:44-137 | Answers 404 exactly when the job does not exist or cannot be read, 200 to RUNNING exactly if the row read QUEUED, to SUCCEEDED if it read RUNNING, to FAILED if it read QUEUED or RUNNING, and the write succeeds, and 409 otherwise; does what the decide, record, count, recreate and re-queue steps do, whichever store call fails |
| JobServices.InternalHandler.RetryIfAllowed | control-plane/internal/api/internal.go:107-122 | The retry branch does what the count, recreate and re-queue steps do |
| JobServices.InternalHandler.HandleSubmitJob | control-plane/internal/api/jobs.go:23-125 | 404 exactly for a project that is not of the tenant, 422 exactly for a request without image or workers or that does not fit beside the unfinished jobs of the tenant, 202 exactly when the job, PENDING and with one PENDING run, is added, 500 when a read or the insert fails; does what the two submission steps do |
| JobServices.RayJobReconciler.Reconcile | operator/internal/reconciler/rayjob_reconciler.go:46-140 | Returns an error exactly when the RayJob cannot be read, the report is refused or its answer lost, or the answer is 404; without an error, an allowed report is lost exactly when its write failed, since the handler answers that with a conflict and a conflict is taken for success; does what receiving and handling one report does in the protocol |
| DeploymentSafety.DeleteSafety | operator/internal/reconciler/deployment_reconciler.go:84-233 | In every run in which the reconciler does not give up on a report of `deleted` that its cancellation then does not reach in time, and its cache does not miss an object that it should delete, a deployment that reads `deleted` has neither pod nor service at any point, for all interleavings of user requests, stale listings, stale reads of other objects, failed or lost cluster calls, restarts, split status requests, and reports given up |
| DeploymentCache.OrderIsExact | operator/internal/reconciler/deployment_reconciler.go:211-233 | For every single step in every safe state: every continuation of that kind keeps deleted deployments without objects if and only if the step neither gives up on such a report nor misses such an object |
| DeploymentDelay.PatienceIsExact | operator/internal/reconciler/deployment_reconciler.go:357-382 | Exactly when giving up on a report is harmless, in every safe state: every patient continuation stays safe if and only if the cancellation reaches the handler, or the report is not a `deleted` that may still be written |
| DeploymentDelay.GivingUpOrphans | operator/cmd/operator/main.go:68 | From any safe state in which the HTTP client gives up on a `deleted` that is under way and the cancellation of the request context does not reach the handler, a run without any further fault leaves the deployment `deleted` while its pod exists |
| DeploymentDelay.LateReportOrphansObjects | control-plane/internal/api/internal.go:160-195 | Such a state is reachable: some run with one cancellation that does not arrive, and no other fault, ends with a deployment that reads `deleted` while its pod exists |
| DeploymentHistory.HistoryOnlyGrows | control-plane/internal/deployments/store.go:55-221 | In every run: `running` implies the serving endpoint; an endpoint implies `running` or `deleting`; a failure reason implies `failed` or `deleting`; revisions are numbered 1..n and old ones never change; no version other than that of revision 1 ever appears; id, tenant, record, name and version of a row never change |
| DeploymentHistory.RollbackAppendsCopy | control-plane/internal/deployments/service.go:110-141 | For any revisions numbered 1..n, whatever versions they carry: rollback is refused exactly when the target revision does not exist, and otherwise appends revision n + 1 with the version of that very revision and sets the row to pending |
| DeploymentHistory.MaxIsLast | control-plane/internal/deployments/store.go:151-158 | The current revision number is the number of revisions |
| DeploymentHistory.FindByNumber | control-plane/internal/deployments/store.go:160-175 | A revision is found by its number if and only if it lies in 1..n |
| DeploymentScripts.RollbackRevives | control-plane/internal/deployments/store.go:177-221 | A rollback brings a deployment back to pending from any status, `deleted` included |
| DeploymentTerminal.DeletedIsFinalExactly | control-plane/internal/api/internal.go:160-195 | A deleted deployment stays deleted in every continuation without a rollback of it, whatever fails, is delayed or interleaves, if and only if no status request that has passed its check is about to write another status to it |
| DeploymentTerminal.LateReportRevives | control-plane/internal/api/internal.go:160-195 | Such a request exists in some run from the start without any rollback: the report of an earlier visit, on which the client gave up, brings a deleted deployment back to provisioning |
| DeploymentGauge.GaugeDrift | control-plane/internal/api/deployments.go:47-140 | In every run, whatever fails, commits whose reply is lost included: with no request in flight the gauge of a label other than `deleted` differs from a recount by exactly the sum of the errors of the changes since the process started and what the count at its start missed, so they agree if and only if these cancel |
| DeploymentGauge.ReportErrorFreeExactly | control-plane/internal/api/internal.go:165-213 | The commit of a status report leaves no error on any label if and only if the status it had read is still that of the row |
| DeploymentGauge.DeleteErrorFreeExactly | control-plane/internal/api/deployments.go:84-105 | So does a delete; one whose read of the status failed always leaves an error |
| DeploymentGauge.RollbackErrorFreeExactly | control-plane/internal/api/deployments.go:107-140 | So does a rollback, or, if its read failed, if and only if it replaced `pending` |
| DeploymentGauge.GaugeAgreesWithRecount | control-plane/internal/observability/metrics.go:65-70 | If requests about the same deployment never overlap, their reads succeed and no reply of a commit is lost, the gauge equals a recount on every label but `deleted` whenever no request is in flight, so a restart changes none of these labels |
| DeploymentGauge.OverlapDrifts | control-plane/internal/api/deployments.go:107-140 | A rollback that reads before a delete and commits after it leaves the gauge wrong although every call succeeds |
| DeploymentGauge.DeletedLabelOnlyFalls | control-plane/internal/api/internal.go:207-213 | In every run what the changes since the process started have added to the label `deleted` is never positive, and negative exactly when a rollback or a delete has been counted that had read `deleted`; a status request never has |
| DeploymentGauge.RestartResyncs | control-plane/internal/observability/metrics.go:65-70 | After a process start whose count succeeds the gauge equals a recount on every label but `deleted` |
| DeploymentVisits.VisitRuns | operator/internal/reconciler/deployment_reconciler.go:134-233 | The calls of one visit, run without interruption and under any faults, do what the visit function says |
| DeploymentOutcomes.ServingObjects | operator/internal/reconciler/deployment_reconciler.go:134-166 | A visit to a deployment that is to serve creates its pod, then its service, under the name triton- and its id in its namespace, each if missing, and changes no other object |
| DeploymentOutcomes.DeletingObjects | operator/internal/reconciler/deployment_reconciler.go:211-230 | A visit to a deleting deployment removes these two objects, the service only if the pod call worked, and no other |
| DeploymentOutcomes.VisitedRow | operator/internal/reconciler/deployment_reconciler.go:168-187 | What the row becomes after a visit whose object calls worked: which report the pod phase gives, from which statuses it is taken, and the columns that it sets |
| DeploymentOutcomes.UnreportedRow | operator/internal/reconciler/deployment_reconciler.go:134-187 | Without a report, or after a failed object call, a visit changes no row |
| DeploymentOutcomes.VisitFailsExactly | operator/internal/reconciler/deployment_reconciler.go:134-233 | A visit returns an error exactly if a call for its pod or service fails, or it has something to report and the report is not written |
| DeploymentOutcomes.EndpointAddressesService | operator/internal/reconciler/deployment_reconciler.go:391-412 | The endpoint of a deployment that runs after a visit is the name and namespace of the service that the visit ensured, in the form of a cluster address |
| DeploymentOutcomes.EndpointsInEveryRun | operator/internal/reconciler/deployment_reconciler.go:173-186 | In every run from the start a running deployment has the address of its own service as its endpoint; endpoints and failure reasons are only where their status allows |
| DeploymentConvergence.VisitConverges | operator/internal/reconciler/deployment_reconciler.go:134-187 | A fault-free visit leaves pod and service existing; it ends with the status of the pod phase if and only if the deployment was not pending with a pod already running or failed; a second visit then sends no report and changes nothing |
| DeploymentConvergence.VisitDeletes | operator/internal/reconciler/deployment_reconciler.go:211-233 | A fault-free visit of a deleting deployment ends with `deleted` and both objects gone |
| DeploymentConvergence.OvertakenForever | control-plane/internal/deployments/statemachine.go:9-30 | A pending deployment whose pod already runs or has failed stays as it is for any number of visits of its own |
| DeploymentOvertaken.OvertakenInEveryRun | control-plane/internal/deployments/statemachine.go:9-30 | And in every run in which its pod stays running or failed, and is not read as anything older, and no user deletes or rolls it back, whatever stale listings, delayed reports, failing calls, restarts and requests for other deployments do meanwhile |
| DeploymentConvergence.RollbackOfServingNeverServes | control-plane/internal/deployments/store.go:177-221 | A deployment that is rolled back while it serves stays pending without an endpoint for any number of visits, while its pod runs on |
| DeploymentConvergence.ListedExactly | control-plane/internal/deployments/store.go:242-273 | The listing has a deployment, as it is now, if and only if it is pending, provisioning, running or deleting |
| DeploymentConvergence.PassRuns | operator/internal/reconciler/deployment_reconciler.go:84-108 | A fault-free pass over a listing does to each deployment what its own visit alone would do, and nothing else |
| DeploymentConvergence.PassSettles | operator/internal/reconciler/deployment_reconciler.go:84-108 | After one fault-free pass every deployment is settled: objects and status right for the serving ones that are not overtaken, `deleted` and gone for the deleting ones |
| DeploymentConvergence.SecondPassIsQuiet | operator/internal/reconciler/deployment_reconciler.go:84-108 | A fault-free pass is idempotent: a second one changes no row, no object and no gauge, and reports only on overtaken deployments, in vain |
| Backoff.ClosedFormExactly | operator/internal/reconciler/deployment_reconciler.go:112-132 | For positive settings the doubling loop over int64 yields min(base * 2^(n-1), cap) for every n if and only if base <= cap and no doubling that it gets to overflows |
| Backoff.DefaultDelays | operator/internal/reconciler/deployment_reconciler.go:112-132 | Without settings the delays are 5, 10 and 20 seconds, and 30 from then on |
| Backoff.ModestSettingsFit | operator/internal/reconciler/deployment_reconciler.go:112-132 | A cap of at most 2^62 and a base below 2^62 are enough for that |
| Backoff.BoundaryOverflows | operator/internal/reconciler/deployment_reconciler.go:112-132 | With both settings at 2^62 the second delay is negative |
| Backoff.DelayGrows | operator/internal/reconciler/deployment_reconciler.go:112-132 | More failures never shorten the delay, and it stays between base and cap |
| DeploymentStore.PostgresDeploymentStore.CreateDeployment | control-plane/internal/deployments/store.go:55-95 | Refuses exactly a taken id or a taken name of the tenant, deleted rows included; otherwise appends the row with revision 1 |
| DeploymentStore.PostgresDeploymentStore.DeleteDeployment | control-plane/internal/deployments/store.go:134-149 | Marks the row deleting unless it is deleting or deleted already, and changes nothing else |
| DeploymentStore.PostgresDeploymentStore.RollbackDeployment | control-plane/internal/deployments/store.go:177-221 | Appends the next revision and resets the row in one step |
| DeploymentStore.PostgresDeploymentStore.GetCurrentRevisionNumber | control-plane/internal/deployments/store.go:151-158 | The largest revision number, or 0 |
| DeploymentStore.PostgresDeploymentStore.GetRevision | control-plane/internal/deployments/store.go:160-175 | The revision with that number, if any |
| DeploymentStore.PostgresDeploymentStore.CountByStatus | control-plane/internal/deployments/store.go:223-240 | One count for each status that occurs, `deleted` left out |
| DeploymentStore.PostgresDeploymentStore.ListPendingDeployments | control-plane/internal/deployments/store.go:242-273 | The listing of the protocol |
| DeploymentStore.DeploymentCount.Sync | control-plane/internal/observability/metrics.go:65-70 | The gauge shows the given counts and no other label |
| DeploymentServices.DeploymentsHandler.SyncGauge | control-plane/cmd/server/main.go:108-111 | Process start is the restart step of the protocol, and the gauge agrees with a recount afterwards if the count query succeeds |
| DeploymentServices.DeploymentsHandler.HandleCreate | control-plane/internal/api/deployments.go:30-65 | Creates a deployment, pending and with revision 1, exactly when the request is complete, asks for at most one replica, names a production version and is no duplicate; each refusal has its own error; keeps the gauge in agreement |
| DeploymentServices.DeploymentsHandler.HandleDelete | control-plane/internal/api/deployments.go:84-105 | Succeeds exactly for a deletable deployment of the tenant, as the delete steps of the protocol do; keeps the gauge in agreement if the first read succeeds |
| DeploymentServices.DeploymentsHandler.HandleRollback | control-plane/internal/api/deployments.go:107-140 | Succeeds exactly for an existing target revision of a deployment of the tenant, as the rollback steps do; a missing deployment, a missing target and a missing revision are told apart; keeps the gauge in agreement if the first read succeeds |
| DeploymentServices.DeploymentsHandler.HandleUpdateDeploymentStatus | control-plane/internal/api/internal.go:152-216 | Writes status, endpoint and reason and counts the report exactly when the store answers and the status may follow the one read: provisioning from pending or running, running from provisioning, failed from provisioning or running, deleting from any of the four, deleted from deleting; each refusal has its own error; keeps the gauge in agreement |
| DeploymentReconciling.DeploymentReconciler.DelayAfter | operator/internal/reconciler/deployment_reconciler.go:112-132 | The doubling loop with its early exit computes the delay function |
| DeploymentReconciling.DeploymentReconciler.RecordFailure | operator/internal/reconciler/deployment_reconciler.go:112-132 | One more failure on the books and the retry time that belongs to it |
| DeploymentPlan.FailureKeepsBooks | operator/internal/reconciler/deployment_reconciler.go:93-132 | A recorded failure keeps the failure count equal to the failures since the last success |
| DeploymentPlan.SuccessKeepsBooks | operator/internal/reconciler/deployment_reconciler.go:101-105 | So does clearing the books after a success |
| DeploymentPlan.TickRuns | operator/internal/reconciler/deployment_reconciler.go:84-108 | Carrying out a plan of visits and skips is running its protocol steps |
| DeploymentPlan.TickIsLogged | operator/internal/reconciler/deployment_reconciler.go:84-108 | What a tick leaves on the books: listed deployments are visited exactly if no retry time is set or it has come, a failure is counted and sets the retry time, a success clears both, anything else stays |
| DeploymentPlan.NotVisitedBeforeDue | operator/internal/reconciler/deployment_reconciler.go:93-132 | Over any sequence of ticks: after a failure recorded at some time no tick visits the deployment before that time plus the delay for its failures in a row, and the first tick at or after it that lists the deployment does |
| DeploymentReconciling.DeploymentReconciler.ReconcileOne | operator/internal/reconciler/deployment_reconciler.go:134-187 | Does what a visit does under every fault, and returns an error exactly when a call failed or the report was not accepted |
| DeploymentReconciling.DeploymentReconciler.ReconcileDelete | operator/internal/reconciler/deployment_reconciler.go:211-233 | The same for a deleting deployment |
| DeploymentReconciling.DeploymentReconciler.ReconcileAll | operator/internal/reconciler/deployment_reconciler.go:84-108 | A tick whose listing fails does nothing; otherwise an entry of the listing is visited exactly if no retry time is set for it or its retry time has come, as the protocol steps do; the books are kept as NotVisitedBeforeDue needs them |
| DeploymentReconciling.DeploymentReconciler.CleanTick | operator/internal/reconciler/deployment_reconciler.go:84-108 | After a tick in which no call fails and nothing was backing off, every deployment is settled |
| RegistrySagas.SagasLeaveNoOrphans | control-plane/internal/models/service.go:37-109 | In every run from the start in which no reply of a forward call is lost, no registration stops in the middle, cleanup calls succeed, and none finds a model that another registration has created and may still delete: whichever forward calls are refused and however many registrations of a model overlap, a model without a registration in flight is in step, and once none is in flight MLflow models and records, and MLflow versions and rows, correspond one to one and come from the same runs |
| RegistrySagas.FindingExactly | control-plane/internal/models/service.go:58-109 | At the moment a registration looks for its model: every such continuation leaves the model in step whenever no registration of it is in flight if and only if no registration that created it, and may still delete it, is under way |
| RegistryFaults.RegistrationLeavesMirrorExactly | control-plane/internal/models/service.go:37-109 | For every combination of refused calls, lost replies and failed cleanups of one registration: MLflow and PostgreSQL agree on the model afterwards if and only if the faults are among those that LeavesMirror lists |
| RegistryFaults.RegistrationOutcome | control-plane/internal/models/service.go:60-109 | The whole effect, column by column, of a registration whose calls are reached and whose number is free |
| RegistryFaults.StoppingLeavesMirrorExactly | control-plane/internal/models/service.go:60-109 | A registration that stops in the middle leaves MLflow and PostgreSQL in agreement on the model if and only if it had created nothing yet |
| RegistryFaults.OthersUntouched | control-plane/internal/models/service.go:37-109 | A registration changes nothing of any other model |
| RegistryFaults.OverlappingRegistrationsOrphan | control-plane/internal/models/service.go:58-76 | Two overlapping first registrations of a model can delete the model of the one that completed, although every cleanup call works |
| RegistryFaults.CarriedRuns | control-plane/internal/models/service.go:37-109 | Carrying a registration to its end is running its calls in the protocol |
| RegistryHistory.OldModelsSurvive | control-plane/internal/models/service.go:63-91 | A registered model that was there before the requests in flight is never deleted, in any run and under any faults |
| RegistryHistory.RowsAreKept | control-plane/internal/models/store.go:46-194 | In every run rows are never removed, nothing of a version but its status changes, and a row that an open promotion transaction has changed keeps its status until that transaction ends |
| RegistryHolders.OneHolderEach | control-plane/internal/models/store.go:164-194 | In every run in which no promotion transaction begins while one for another version of the model and the same alias is open, whatever fails: no model ever has two staging or two production versions |
| RegistryHolders.OneHolderExactly | control-plane/internal/models/store.go:164-194 | Exactly when that is safe, in every state in which it holds and each open first UPDATE has found at most one holder: every continuation that begins no transaction beside such a rival keeps it if and only if no two open transactions are rivals and each has found every other holder there is |
| RegistryHolders.BeginningExactly | control-plane/internal/models/store.go:164-194 | At the moment a transaction begins: every such continuation keeps a single holder if and only if no transaction for another version of the model and the same alias is open |
| RegistryHolders.TwoHolders | control-plane/internal/models/store.go:164-194 | From the start and without any fault, two overlapping promotions leave a model with two production versions |
| RegistryHistory.IdsStayUnique | control-plane/internal/models/store.go:46-87 | A version id names one version of one model, in every run |
| RegistryHistory.AliasesNameVersions | control-plane/internal/mlflow/client.go:139-201 | In every run no alias in MLflow names a version that is not there |
| Registry.NamesDiffer | control-plane/internal/models/service.go:61-61 | Models of any tenants have different names in MLflow |
| RegistryAgreement.AliasAgreement | control-plane/internal/models/service.go:140-169 | In every run that is orderly for one alias of one model: the reply to a call that sets the alias is not lost, it is not set while a transaction for another version is still to begin, and while it is set a promotion that has set it goes on to its commit, beginning beside no open transaction for another version unless one more is to come; whatever registrations, archivings and other promotions do, fail or overlap: whenever no promotion is between the alias and the commit of its holder, the alias is absent or points at whoever has the status |
| RegistryAgreement.AliasAgreementFromInit | control-plane/internal/models/service.go:140-169 | The same over every such run from the start |
| RegistryAgreement.AliasesOkFromInit | control-plane/internal/models/service.go:140-190 | With the hypotheses of NeverResolvesArchived, both aliases of the model are right at such times: each is absent or points at the holder of its status, and none at an archived version |
| RegistryAgreementExact.AgreementExactly | control-plane/internal/models/service.go:140-169 | Exactly from which states, the open transactions for the alias being for one version: every orderly continuation agrees at all such times if and only if the alias is not set, or the transactions under way lead to the version it names: all that have not begun are for it, and if there are none, the open ones are for it and have between them found every other holder |
| RegistryAgreementExact.AliasingExactly | control-plane/internal/models/service.go:164-166 | At the moment at which the alias is set, the open transactions for it being for one version: every orderly continuation agrees if and only if no transaction for another version of the model and the same alias is still to begin |
| RegistryAgreementExact.BeginningAgreesExactly | control-plane/internal/models/store.go:164-194 | At the moment at which a transaction begins, in a state that AgreementExactly allows and with a single holder of each status: every orderly continuation agrees if and only if the alias is not set, or no transaction for another version is open, or one more is still to begin |
| RegistryAgreementExact.StoppingExactly | control-plane/internal/models/service.go:164-169 | At the moment at which a promotion stops, in any state with the open transactions for one version, between the alias and its holder: every orderly continuation agrees if and only if the alias is not set, or what is left leads to the version it names |
| RegistryAgreementExact.ReplyLostExactly | control-plane/internal/models/service.go:164-166 | At the moment at which the reply to setting the alias is lost: every orderly continuation agrees if and only if what is left leads to that version |
| RegistryAgreementExact.CrossedPromotionsDisagree | control-plane/internal/models/service.go:164-169 | From the start, without any fault and with transactions that do not overlap, two promotions leave version 1 in production and the production alias on version 2 |
| RegistryAgreementExact.OverlappingTransactionsDisagree | control-plane/internal/models/store.go:164-194 | From the start, without any fault and with no alias set while a transaction is still to begin, two overlapping transactions leave two production versions of which the alias names one |
| RegistryResolve.NeverResolvesArchived | control-plane/internal/models/service.go:153-190 | In every run from the start in which no version is promoted while it is being archived, nor archived while its alias is to be set, and no removal of an alias that names the version fails, whatever else fails, is lost, overlaps or stops: no alias resolves to an archived version at any point |
| RegistryResolve.NeverResolvesExactly | control-plane/internal/models/service.go:153-190 | Exactly from which states: with the versions that promotions are about to name known to MLflow, no such continuation resolves an alias to an archived version if and only if none does now, removed aliases are off their versions, and no alias is about to be set for a version that is archived or being archived |
| RegistryResolve.AliasResolvesToArchived | control-plane/internal/models/service.go:153-169 | From the start and without any fault, a promotion and an archiving of one version that overlap leave the production alias on an archived version |
| RegistryAlias.ArchivedIsFinal | control-plane/internal/models/service.go:153-169 | Whatever fails, if promotions of the same version do not overlap, an archived version stays archived |
| RegistryAlias.ArchivedIsFinalExactly | control-plane/internal/models/service.go:153-169 | Exactly when archiving is final: an archived version that MLflow knows stays archived in every continuation, whatever fails, if and only if no promotion of it is under way |
| RegistryPromotions.PromotionLeavesAgreementExactly | control-plane/internal/models/service.go:140-169 | For every combination of faults of one promotion: aliases and statuses agree afterwards if and only if the faults are among those that LeavesAgreement lists |
| RegistryPromotions.PriorHolderBecomesCandidate | control-plane/internal/models/store.go:164-194 | The prior production version becomes a candidate |
| RegistryPromotions.ArchivingHidesProduction | control-plane/internal/models/service.go:157-161 | Archiving any version leaves a production version that the production alias no longer finds |
| RegistryPromotions.ProductionNamedExactly | control-plane/internal/models/service.go:153-169 | A promotion without faults keeps the production version under the production alias if and only if it does not archive another version |
| RegistryPromotions.ProductionAliasOnStaging | control-plane/internal/models/service.go:164-169 | Moving the production version to staging leaves the production alias on it |
| RegistryPromotions.OverlappingPromotionsUnarchive | control-plane/internal/models/service.go:153-169 | From the start and without any fault, a promotion and an archiving of one version that overlap bring an archived version back |
| RegistryPromotions.PromotedRuns | control-plane/internal/models/service.go:140-169 | Carrying a promotion to its end, no transaction on the model being open, is running its calls in the protocol |
| RegistryServices.PostgresModelStore.PromoteModelVersionStatus | control-plane/internal/models/store.go:164-194 | Run on its own, the row-by-row update makes the other holders candidates and the version the holder |
| RegistryServices.PostgresModelStore.CreateOrGetModelRecord | control-plane/internal/models/store.go:46-63 | Adds a record only if the tenant has none of that name |
| RegistryServices.PostgresModelStore.CreateModelVersion | control-plane/internal/models/store.go:65-87 | Adds a version only if its number is free in the record |
| RegistryServices.PostgresModelStore.UpdateModelVersionStatus | control-plane/internal/models/store.go:150-162 | Changes the status of one version |
| RegistryServices.MlflowClient.CreateRegisteredModel | control-plane/internal/mlflow/client.go:127-137 | An existing model is no error and is not reported as created |
| RegistryServices.MlflowClient.DeleteModelAlias | control-plane/internal/mlflow/client.go:189-201 | The alias is absent afterwards unless the call failed |
| RegistryServices.ModelService.RegisterVersion | control-plane/internal/models/service.go:60-109 | The saga does what the registry protocol does under every fault; it succeeds, with the number that MLflow gave out, exactly if its four forward calls are reached and the number is free in the record, and otherwise tells the first of them that did not succeed |
| RegistryServices.ModelService.Register | control-plane/internal/models/service.go:37-58 | Only a SUCCEEDED run with an MLflow id is registered; otherwise nothing changes; each refusal and each failing call has its own error |
| RegistryServices.ModelService.Promote | control-plane/internal/models/service.go:140-169 | An accepted promotion whose reads succeed does what the protocol does under every fault of its calls, and succeeds exactly if those of its branch are reached and MLflow knows the version whose alias is to be set; which check, read or call stopped it is told; success means the alias, the status of the version and those of the prior holders are as they should be |
| RegistryServices.ModelService.ResolveAlias | control-plane/internal/models/service.go:173-190 | The version row that the alias names, or which of the three lookups found nothing, or that one of them failed |
| Provenance.ProvenanceHolds | control-plane/internal/deployments/service.go:32-77 | Over every run of the whole platform, from its start or from any state reached: each version comes from a SUCCEEDED run of its tenant with its MLflow run id, and each deployment has a version of its own record and tenant that was production when its gate read it |
| Provenance.DeploymentProvenance | control-plane/internal/deployments/service.go:53-76 | From the start of the platform: each revision of each deployment names a version of its record and tenant that was production when the deployment passed its gate, and that came from a SUCCEEDED run of the tenant |
| Provenance.VersionProvenance | control-plane/internal/models/service.go:46-108 | Column by column, from the start of the platform: the run of each version is a run of its tenant that has SUCCEEDED under the MLflow run id of the version |
| Provenance.RevisionProvenance | control-plane/internal/deployments/service.go:53-76 | And each revision names, by its id, a version in the record and of the tenant of its deployment that read production when the deployment passed its gate |
| ProvenanceGap.GateToInsertExactly | control-plane/internal/deployments/service.go:61-76 | Whatever happens between the gate and the insert: the version is still production at the insert if and only if the last archiving or promotion that committed on it in between, if any, made it production |
| ProvenanceGap.StatusAfter | control-plane/internal/models/store.go:150-194 | Over every run of the platform the status of a version is what the last commit of an archiving or promotion wrote to it, and nothing else changes it |
| ProvenanceGap.ArchivedVersionDeployed | control-plane/internal/deployments/service.go:61-76 | From the start and without any fault, a version is archived between the gate and the insert and the deployment is created all the same |
| Provenance.RegistrableExactly | control-plane/internal/models/service.go:46-58 | The runs that the platform lets into registration are exactly those that Register does not refuse |
| Provenance.SourcesAreForEver | control-plane/internal/models/service.go:46-58 | A version keeps its source run, and that run never changes again |

## Left out

- HTTP decoding and routing, authentication, logging, Kafka and platform events, Prometheus histograms: the order of store effects in the handlers is kept, the plumbing is not.
- The CLI, the Python SDK, training scripts and Kubernetes manifests.
- Parsing of CPU and memory quantities: quantities are integers after parsing, so parse errors are not modelled.
- The aggregate usage query of `control-plane/internal/jobs/store.go:392`, which its own comment calls approximate.
- Transitions RUNNING to QUEUED and to CANCELLED: they are in the table, and no modelled component issues them.
- `desired_replicas`, artifact URIs and source strings, pod and service specs, the text search for a failure reason in a pod: a pod carries its phase and that text.
- Namespaces and label selectors of pods other than those of deployments, and the log scan for the MLflow run id: the id found is an input.
- Row locks one by one: the first UPDATE of a promotion locks all the rows it found at once, its second UPDATE and the commit are one step, and a call that waits for a lock is a step that does nothing yet; deadlocks, which PostgreSQL ends by failing one of the two, appear as failed calls.
- In the classes of the job and deployment handlers a store call succeeds or fails without effect. In the step systems a commit whose reply is lost is there: in the job protocol as a commit and then the crash of its handler or of the dispatcher, in the deployment protocol as a commit and then UserErrs or StatusErrs, in the registry as an outcome of its own.
- The visits of the deployment classes read the cluster as it is; reads from a cache that is behind are steps of the deployment protocol only.
- Two rollbacks whose transactions run at once: the unique revision number makes one of them fail, which is the failed commit of the protocol.
- The two reads of a rollback, of the current revision number and of the target revision, are one step; revisions are never changed or removed, so a later second read finds the same row.
- Several calls on the same object are one step: get-then-create and get-then-delete of a pod or service, by the one reconciler that creates and deletes them.
- Failure counts are unbounded, and time is a parameter of the methods that read the clock.
- `updated_at` columns and deployment events.
- DeploymentSafety.DeleteSafety: holds for runs in which the reconciler does not give up on a `deleted` that is under way with the cancellation not arriving, and its cache shows what it should delete; DeploymentCache.OrderIsExact shows that both are needed.
- JobQuota.QuotaSafety: holds for runs in which the dispatcher takes no quota reading for a tenant between FAILED and the re-queue of one of its jobs, and demands do not overflow; JobQuotaExact states what happens otherwise.
- JobTick.BoundedWait: holds for runs whose submissions of a tenant are serialised, fit, and take no quota pre-check inside a retry window of the tenant; without the last of these JobWaitExact.PreCheckInWindowRefused is a run in which the oldest job is refused by every tick, and JobWaitExact.OpenLoadExact and InsertExact state when that cannot happen.
- RegistryAgreement.AliasAgreement: holds for runs that are orderly for the alias, at times at which no promotion is between the alias and the commit of its holder; CrossedPromotionsDisagree, OverlappingTransactionsDisagree and the lemmas AliasingExactly, BeginningAgreesExactly, StoppingExactly and ReplyLostExactly of RegistryAgreementExact show what each part of that is needed for, and RegistryPromotions.PromotionLeavesAgreementExactly which faults of a single promotion do harm.
- RegistryHolders.OneHolderEach: holds for runs in which no promotion transaction begins beside an open one for another version of the model and the same alias; BeginningExactly and TwoHolders show that this is needed.
- RegistrySagas.SagasLeaveNoOrphans: holds without lost replies on forward calls, without registrations that stop in the middle, and without a registration that finds a model whose creator may still delete it; RegistryFaults.RegistrationLeavesMirrorExactly and StoppingLeavesMirrorExactly, and FindingExactly, state exactly which of these leave the two out of step.
- RegistryResolve.NeverResolvesArchived: holds for runs in which opposed promotions of one version do not overlap and removals of aliases that name the version do not fail; AliasResolvesToArchived and NeverResolvesExactly show that this is needed.
