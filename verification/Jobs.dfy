/** The job tables and their single-statement or single-transaction updates
    (control-plane/internal/jobs/store.go, statemachine.go, rayjob.go). A table is a sequence in
    `created_at` order and a row's primary key is its position. A job row is shown together with
    its training_runs rows, which are never deleted. */
module Jobs {
  import opened Prelude
  import opened Quota

  datatype Status =
    | PENDING | QUEUED | RUNNING | SUCCEEDED | FAILED | CANCELLED
    | Other(text: string)

  datatype Run = Run(
    status: Status,
    mlflowRunId: Option<string>,
    startedAt: Option<nat>,
    finishedAt: Option<nat>,
    failureReason: Option<string>)

  datatype Job = Job(
    id: string,                  // the UUID in `training_jobs.id`
    tenant: string,
    project: string,
    res: JobResources,
    status: Status,
    rayJobName: Option<string>,
    retryCount: int,
    maxRetries: int,
    runs: seq<Run>)              // this job's training_runs rows in created_at order

  type Table = seq<Job>

  datatype StoreError = InvalidTransition | NotInStatus | Unavailable

  predicate ValidTransition(from: Status, to: Status) {
    match from
    case PENDING => to == QUEUED || to == CANCELLED
    case QUEUED => to == RUNNING || to == FAILED || to == CANCELLED
    case RUNNING => to == SUCCEEDED || to == FAILED || to == CANCELLED || to == QUEUED
    case FAILED => to == QUEUED
    case _ => false
  }

  function FreshRun(status: Status): Run {
    Run(status, None, None, None, None)
  }

  /** The UPDATEs that TransitionJobStatus applies to the latest run. */
  function RunAfter(r: Run, to: Status, reason: Option<string>, now: nat): Run {
    var moved :=
      match to
      case RUNNING => r.(status := to, startedAt := Some(now))
      case SUCCEEDED => r.(status := to, finishedAt := Some(now))
      case FAILED => r.(status := to, finishedAt := Some(now))
      case _ => r.(status := to);
    if reason.Some? then moved.(failureReason := reason) else moved
  }

  function LatestRun(j: Job): Run
    requires j.runs != []
  {
    j.runs[|j.runs| - 1]
  }

  /** An UPDATE through the latest-run subquery; it touches no row when the job has no run. */
  function WithLatestRun(j: Job, r: Run): Job {
    if j.runs == [] then j else j.(runs := j.runs[|j.runs| - 1 := r])
  }

  function TransitionRow(j: Job, to: Status, reason: Option<string>, now: nat): Job {
    var moved := j.(status := to);
    if j.runs == [] then moved else WithLatestRun(moved, RunAfter(LatestRun(j), to, reason, now))
  }

  /** TransitionJobStatus: validate, compare-and-set the job, update its latest run. */
  function Transition(db: Table, job: nat, from: Status, to: Status, reason: Option<string>, now: nat)
    : Result<Table, StoreError>
  {
    if !ValidTransition(from, to) then Err(InvalidTransition)
    else if job >= |db| || db[job].status != from then Err(NotInStatus)
    else Ok(db[job := TransitionRow(db[job], to, reason, now)])
  }

  /** CreateJobWithRun inserts the job and its first run in one transaction. */
  function Inserted(db: Table, id: string, tenant: string, project: string, res: JobResources, maxRetries: nat): Table {
    db + [Job(id, tenant, project, res, PENDING, None, 0, maxRetries, [FreshRun(PENDING)])]
  }

  function WithRayJobName(db: Table, job: nat, name: string): Table {
    if job < |db| then db[job := db[job].(rayJobName := Some(name))] else db
  }

  function WithMlflowRunId(db: Table, job: nat, runId: string): Table {
    if job < |db| && db[job].runs != []
    then db[job := WithLatestRun(db[job], LatestRun(db[job]).(mlflowRunId := Some(runId)))]
    else db
  }

  function Incremented(db: Table, job: nat): Table {
    if job < |db| then db[job := db[job].(retryCount := db[job].retryCount + 1)] else db
  }

  function WithRetryRun(db: Table, job: nat): Table {
    if job < |db| then db[job := db[job].(runs := db[job].runs + [FreshRun(QUEUED)])] else db
  }

  predicate Active(st: Status) { st == QUEUED || st == RUNNING }

  predicate NonTerminal(st: Status) { st == PENDING || Active(st) }

  /** GetOldestPendingJob: the first PENDING row of the tenant in created_at order. */
  predicate IsOldestPending(db: Table, tenant: string, job: nat) {
    && job < |db| && db[job].tenant == tenant && db[job].status == PENDING
    && forall i :: 0 <= i < job && db[i].tenant == tenant ==> db[i].status != PENDING
  }

  function OldestPending(db: Table, tenant: string): (r: Option<nat>)
    ensures r.Some? ==> IsOldestPending(db, tenant, r.value)
    ensures r.None? ==> forall i :: 0 <= i < |db| && db[i].tenant == tenant ==> db[i].status != PENDING
  {
    OldestPendingFrom(db, tenant, 0)
  }

  function OldestPendingFrom(db: Table, tenant: string, start: nat): (r: Option<nat>)
    requires start <= |db|
    requires forall i :: 0 <= i < start && db[i].tenant == tenant ==> db[i].status != PENDING
    ensures r.Some? ==> IsOldestPending(db, tenant, r.value)
    ensures r.None? ==> forall i :: 0 <= i < |db| && db[i].tenant == tenant ==> db[i].status != PENDING
    decreases |db| - start
  {
    if start == |db| then None
    else if db[start].tenant == tenant && db[start].status == PENDING then Some(start)
    else OldestPendingFrom(db, tenant, start + 1)
  }

  /** GetQueuedJobsWithoutRayJob. */
  predicate Unsubmitted(j: Job) {
    j.status == QUEUED && j.rayJobName == None
  }

  function UnsubmittedFrom(db: Table, start: nat): (r: seq<nat>)
    requires start <= |db|
    ensures forall k :: 0 <= k < |r| ==> start <= r[k] < |db| && Unsubmitted(db[r[k]])
    ensures forall i :: start <= i < |db| && Unsubmitted(db[i]) ==> i in r
    decreases |db| - start
  {
    if start == |db| then []
    else if Unsubmitted(db[start]) then [start] + UnsubmittedFrom(db, start + 1)
    else UnsubmittedFrom(db, start + 1)
  }

  /** The resources of the rows whose status passes `active`, as the list queries return them. */
  function ResourcesOf(db: Table, tenant: string, withPending: bool): seq<JobResources> {
    if db == [] then [] else
      var j := db[|db| - 1];
      var rest := ResourcesOf(db[..|db| - 1], tenant, withPending);
      if j.tenant == tenant && (Active(j.status) || (withPending && j.status == PENDING))
      then rest + [j.res] else rest
  }

  /** rayJobName: the RayJob is named after the first eight characters of the job id. */
  function ShortId(id: string): string {
    if |id| > 8 then id[..8] else id
  }

  function RayJobName(id: string): string {
    "rayjob-" + ShortId(id)
  }

  lemma RayJobNameInjective(a: string, b: string)
    requires RayJobName(a) == RayJobName(b)
    ensures ShortId(a) == ShortId(b)
  {
    assert RayJobName(a)[7..] == ShortId(a);
    assert RayJobName(b)[7..] == ShortId(b);
  }

  /** A RayJob object in the platform-jobs namespace, by the labels BuildRayJob sets. */
  datatype RayJob = RayJob(jobLabel: string, tenantLabel: string)

  /** What the operator sends to PATCH /internal/v1/jobs/{id}/status. */
  datatype Report = Report(status: Status, failureReason: Option<string>, mlflowRunId: Option<string>)

  /** MapRayJobStatus. */
  function MapRayJobStatus(rayStatus: string): Option<Status> {
    if rayStatus == "Running" then Some(RUNNING)
    else if rayStatus == "Complete" then Some(SUCCEEDED)
    else if rayStatus == "Failed" then Some(FAILED)
    else None
  }

  /** The report that RayJobReconciler.reconcile builds: a failure message only with FAILED, an
      MLflow run id (found in the logs, "" when absent) only with SUCCEEDED. */
  function OperatorReport(rayStatus: string, message: Option<string>, logRunId: string): Option<Report> {
    match MapRayJobStatus(rayStatus)
    case None => None
    case Some(st) =>
      Some(Report(st,
        if st == FAILED && message.Some? && message.value != "" then message else None,
        if st == SUCCEEDED && logRunId != "" then Some(logRunId) else None))
  }
}
