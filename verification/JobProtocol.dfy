/** The training-job protocol as a step system: API submissions, the dispatcher, and operator
    reports with automatic retry, interleaved at the granularity of single store transactions and
    cluster calls. Every external call may fail, and a process may stop between any two calls.

    `Apply` is total: a step whose actor is not at that point leaves the state unchanged, so a
    statement about `Exec(Init(..), steps)` for every `steps` is a statement about every run. */
module JobProtocol {
  import opened Prelude
  import opened Quota
  import opened Jobs

  /** One PATCH /internal/v1/jobs/{id}/status request, named by the store call it makes next. */
  datatype Handler =
    | Deciding(job: nat, from: Status, maxRetries: int, report: Report)
    | Recording(job: nat, maxRetries: int, report: Report)
    | Counting(job: nat, maxRetries: int)
    | Recreating(job: nat)
    | Requeuing(job: nat)

  /** The single dispatcher goroutine. `todo` is the rest of the list that
      retryQueuedWithoutRayJob read; it may be stale. */
  datatype Dispatcher =
    | Ready(todo: seq<nat>)
    | Picked(job: nat)
    | Cleared(job: nat)
    | Submitting(job: nat, todo: seq<nat>)
    | Naming(job: nat, name: string, todo: seq<nat>)

  /** A submission that passed the quota pre-check and has not inserted its rows yet. */
  datatype Submission = Submission(tenant: string, res: JobResources)

  /** A committed job status transition. */
  datatype Commit = Commit(job: nat, from: Status, to: Status)

  datatype Sys = Sys(
    db: Table,
    quotas: map<string, TenantQuota>,
    retryDefault: nat,               // the max_retries column default
    rayJobs: map<string, RayJob>,
    disp: Dispatcher,
    handlers: map<nat, Handler>,
    subs: map<nat, Submission>,
    log: seq<Commit>)                // history only

  datatype Step =
    | SubmitCheck(sub: nat, tenant: string, res: JobResources)
    | SubmitInsert(sub: nat, id: string, project: string)
    | SubmitDrop(sub: nat)
    | DispList
    | DispTake
    | DispPick(tenant: string)
    | DispCheck
    | DispCommit(ok: bool)
    | DispCreate(outcome: Outcome)
    | DispName(ok: bool)
    | DispCrash
    | Receive(handler: nat, job: nat, rayStatus: string, message: Option<string>, logRunId: string)
    | Decide(handler: nat, now: nat, ok: bool)
    | Record(handler: nat, ok: bool)
    | Count(handler: nat, ok: bool)
    | Recreate(handler: nat, ok: bool)
    | Requeue(handler: nat, now: nat, ok: bool)
    | HandlerCrash(handler: nat)

  function Init(quotas: map<string, TenantQuota>, retryDefault: nat): Sys {
    Sys([], quotas, retryDefault, map[], Ready([]), map[], map[], [])
  }

  function Apply(s: Sys, e: Step): Sys {
    match e
    case SubmitCheck(sub, tenant, res) => ApplySubmitCheck(s, sub, tenant, res)
    case SubmitInsert(sub, id, project) => ApplySubmitInsert(s, sub, id, project)
    case SubmitDrop(sub) => s.(subs := s.subs - {sub})
    case DispList => if s.disp == Ready([]) then s.(disp := Ready(UnsubmittedFrom(s.db, 0))) else s
    case DispTake =>
      if s.disp.Ready? && s.disp.todo != []
      then s.(disp := Submitting(s.disp.todo[0], s.disp.todo[1..])) else s
    case DispPick(tenant) =>
      if s.disp != Ready([]) then s
      else (match OldestPending(s.db, tenant)
            case None => s
            case Some(job) => s.(disp := Picked(job)))
    case DispCheck => ApplyDispCheck(s)
    case DispCommit(ok) => ApplyDispCommit(s, ok)
    case DispCreate(outcome) => ApplyDispCreate(s, outcome)
    case DispName(ok) =>
      if !s.disp.Naming? then s
      else s.(db := if ok then WithRayJobName(s.db, s.disp.job, s.disp.name) else s.db, disp := Ready(s.disp.todo))
    case DispCrash => s.(disp := Ready([]))
    case _ => ApplyHandler(s, e)
  }

  /** The calls of a status request. */
  function ApplyHandler(s: Sys, e: Step): Sys {
    match e
    case Receive(h, job, rayStatus, message, logRunId) => ApplyReceive(s, h, job, rayStatus, message, logRunId)
    case Decide(h, now, ok) => ApplyDecide(s, h, now, ok)
    case Record(h, ok) => ApplyRecord(s, h, ok)
    case Count(h, ok) => ApplyCount(s, h, ok)
    case Recreate(h, ok) => ApplyRecreate(s, h, ok)
    case Requeue(h, now, ok) => ApplyRequeue(s, h, now, ok)
    case HandlerCrash(h) => s.(handlers := s.handlers - {h})
    case _ => s
  }

  function Exec(s: Sys, es: seq<Step>): Sys
    decreases |es|
  {
    if es == [] then s else Exec(Apply(s, es[0]), es[1..])
  }

  /** scheduler.Admit, as far as parsed quantities show it. */
  predicate Admit(res: JobResources) { res.numWorkers >= 1 }

  function ApplySubmitCheck(s: Sys, sub: nat, tenant: string, res: JobResources): Sys {
    if sub in s.subs || tenant !in s.quotas || !Admit(res) then s
    else if !Accepts(s.quotas[tenant], ResourcesOf(s.db, tenant, true), res) then s
    else s.(subs := s.subs[sub := Submission(tenant, res)])
  }

  function ApplySubmitInsert(s: Sys, sub: nat, id: string, project: string): Sys {
    if sub !in s.subs || exists i :: 0 <= i < |s.db| && s.db[i].id == id then s
    else s.(db := Inserted(s.db, id, s.subs[sub].tenant, project, s.subs[sub].res, s.retryDefault),
            subs := s.subs - {sub})
  }

  function ApplyDispCheck(s: Sys): Sys {
    if !s.disp.Picked? || s.disp.job >= |s.db| then s
    else
      var j := s.db[s.disp.job];
      if j.tenant in s.quotas && Accepts(s.quotas[j.tenant], ResourcesOf(s.db, j.tenant, false), j.res)
      then s.(disp := Cleared(s.disp.job))
      else s.(disp := Ready([]))
  }

  function ApplyDispCommit(s: Sys, ok: bool): Sys {
    if !s.disp.Cleared? then s
    else
      var job := s.disp.job;
      match Transition(s.db, job, PENDING, QUEUED, None, 0)
      case Err(_) => s.(disp := Ready([]))
      case Ok(db) =>
        if !ok then s.(disp := Ready([]))
        else s.(db := db, disp := Submitting(job, []), log := s.log + [Commit(job, PENDING, QUEUED)])
  }

  function ApplyDispCreate(s: Sys, outcome: Outcome): Sys {
    if !s.disp.Submitting? || s.disp.job >= |s.db| then s
    else
      var j := s.db[s.disp.job];
      var name := RayJobName(j.id);
      var created := if name in s.rayJobs then s.rayJobs else s.rayJobs[name := RayJob(j.id, j.tenant)];
      match outcome
      case Reached => s.(rayJobs := created, disp := Naming(s.disp.job, name, s.disp.todo))
      case Refused => s.(disp := Ready(s.disp.todo))
      case ReplyLost => s.(rayJobs := created, disp := Ready(s.disp.todo))
  }

  function ApplyReceive(s: Sys, h: nat, job: nat, rayStatus: string, message: Option<string>, logRunId: string): Sys {
    match OperatorReport(rayStatus, message, logRunId)
    case None => s
    case Some(report) =>
      if h in s.handlers || job >= |s.db| then s
      else s.(handlers := s.handlers[h := Deciding(job, s.db[job].status, s.db[job].maxRetries, report)])
  }

  function ApplyDecide(s: Sys, h: nat, now: nat, ok: bool): Sys {
    if h !in s.handlers || !s.handlers[h].Deciding? then s
    else
      var Deciding(job, from, maxRetries, report) := s.handlers[h];
      match Transition(s.db, job, from, report.status, report.failureReason, now)
      case Err(_) => s.(handlers := s.handlers - {h})
      case Ok(db) =>
        if !ok then s.(handlers := s.handlers - {h})
        else s.(db := db,
                handlers := s.handlers[h := Recording(job, maxRetries, report)],
                log := s.log + [Commit(job, from, report.status)])
  }

  function ApplyRecord(s: Sys, h: nat, ok: bool): Sys {
    if h !in s.handlers || !s.handlers[h].Recording? then s
    else
      var Recording(job, maxRetries, report) := s.handlers[h];
      var db := if ok && report.mlflowRunId.Some? then WithMlflowRunId(s.db, job, report.mlflowRunId.value) else s.db;
      if report.status == FAILED then s.(db := db, handlers := s.handlers[h := Counting(job, maxRetries)])
      else s.(db := db, handlers := s.handlers - {h})
  }

  function ApplyCount(s: Sys, h: nat, ok: bool): Sys {
    if h !in s.handlers || !s.handlers[h].Counting? then s
    else
      var Counting(job, maxRetries) := s.handlers[h];
      if !ok || job >= |s.db| then s.(handlers := s.handlers - {h})
      else
        var db := Incremented(s.db, job);
        if db[job].retryCount <= maxRetries then s.(db := db, handlers := s.handlers[h := Recreating(job)])
        else s.(db := db, handlers := s.handlers - {h})
  }

  function ApplyRecreate(s: Sys, h: nat, ok: bool): Sys {
    if h !in s.handlers || !s.handlers[h].Recreating? then s
    else
      var job := s.handlers[h].job;
      if !ok then s.(handlers := s.handlers - {h})
      else s.(db := WithRetryRun(s.db, job), handlers := s.handlers[h := Requeuing(job)])
  }

  function ApplyRequeue(s: Sys, h: nat, now: nat, ok: bool): Sys {
    if h !in s.handlers || !s.handlers[h].Requeuing? then s
    else
      var job := s.handlers[h].job;
      match Transition(s.db, job, FAILED, QUEUED, None, now)
      case Err(_) => s.(handlers := s.handlers - {h})
      case Ok(db) =>
        if !ok then s.(handlers := s.handlers - {h})
        else s.(db := db, handlers := s.handlers - {h}, log := s.log + [Commit(job, FAILED, QUEUED)])
  }

  lemma {:induction false} ExecConcat(s: Sys, a: seq<Step>, b: seq<Step>)
    ensures Exec(s, a + b) == Exec(Exec(s, a), b)
    decreases |a|
  {
    if a == [] {
      assert a + b == b;
    } else {
      assert (a + b)[0] == a[0] && (a + b)[1..] == a[1..] + b;
      ExecConcat(Apply(s, a[0]), a[1..], b);
    }
  }

  lemma Exec3(s: Sys, a: Step, b: Step, c: Step)
    ensures Exec(s, [a, b, c]) == Apply(Apply(Apply(s, a), b), c)
  {
    var t := Apply(s, a);
    assert [a, b, c][1..] == [b, c] && [b, c][1..] == [c] && [c][1..] == [];
    assert Exec(t, [b, c]) == Exec(Apply(t, b), [c]);
    assert Exec(Apply(t, b), [c]) == Exec(Apply(Apply(t, b), c), []);
  }

  // ---------------------------------------------------------------- the invariant

  /** Job/run agreement and retry accounting for one job. */
  predicate RowOk(j: Job) {
    && j.runs != []
    && (forall k :: 0 <= k < |j.runs| - 1 ==> EndedRun(j.runs[k]))
    && (LatestRun(j).status == j.status || RetryPrepared(j))
    && (j.status in {PENDING, QUEUED, RUNNING, SUCCEEDED, FAILED})
    && 0 <= j.maxRetries
    && 0 <= j.retryCount <= j.maxRetries + 1
    && (j.status != FAILED ==> j.retryCount <= j.maxRetries)
    && |j.runs| <= 1 + j.retryCount && |j.runs| <= 1 + j.maxRetries
    && (j.status == PENDING ==> j.retryCount == 0)
    && (LatestRun(j).mlflowRunId.Some? ==> LatestRun(j).status == SUCCEEDED)
    && (LatestRun(j).status in {SUCCEEDED, FAILED} ==> LatestRun(j).finishedAt.Some?)
  }

  predicate EndedRun(r: Run) { r.status == FAILED && r.finishedAt.Some? && r.mlflowRunId == None }

  /** The job is FAILED and the run row of its next attempt is already there. */
  predicate RetryPrepared(j: Job) {
    j.status == FAILED && |j.runs| >= 2 && LatestRun(j) == FreshRun(QUEUED)
  }

  /** A handler that has committed a terminal report and is not finished with the job. */
  predicate HoldsJob(h: Handler) {
    (h.Recording? && h.report.status != RUNNING) || h.Counting? || h.Recreating? || h.Requeuing?
  }

  predicate ReportOk(r: Report) {
    && (r.status == RUNNING || r.status == SUCCEEDED || r.status == FAILED)
    && (r.mlflowRunId.Some? ==> r.status == SUCCEEDED)
  }

  predicate HandlerOk(j: Job, h: Handler)
    requires j.runs != []
  {
    match h
    case Deciding(_, _, maxRetries, report) => maxRetries == j.maxRetries && ReportOk(report)
    case Recording(_, maxRetries, report) =>
      && maxRetries == j.maxRetries && ReportOk(report)
      && (report.status == SUCCEEDED ==> j.status == SUCCEEDED && LatestRun(j).mlflowRunId == None)
      && (report.status == FAILED ==> JustFailed(j))
    case Counting(_, maxRetries) => maxRetries == j.maxRetries && JustFailed(j)
    case Recreating(_) =>
      && j.status == FAILED && LatestRun(j).status == FAILED && j.retryCount <= j.maxRetries
      && |j.runs| <= j.retryCount
    case Requeuing(_) => RetryPrepared(j) && j.retryCount <= j.maxRetries
  }

  predicate JustFailed(j: Job)
    requires j.runs != []
  {
    j.status == FAILED && LatestRun(j).status == FAILED && j.retryCount <= j.maxRetries
  }

  predicate RowsOk(db: Table) {
    forall i :: 0 <= i < |db| ==> RowOk(db[i])
  }

  predicate HandlersOk(db: Table, handlers: map<nat, Handler>)
    requires RowsOk(db)
  {
    && (forall h :: h in handlers ==> handlers[h].job < |db| && HandlerOk(db[handlers[h].job], handlers[h]))
    && (forall a, b :: a in handlers && b in handlers && HoldsJob(handlers[a]) && HoldsJob(handlers[b]) && a != b ==>
          handlers[a].job != handlers[b].job)
  }

  predicate JobsInv(s: Sys) {
    RowsOk(s.db) && HandlersOk(s.db, s.handlers)
  }

  /** Only `h` may hold `job`; with the job's row replaced and `h` advanced or gone, the invariant
      still holds, since handlers that do not hold the job only rely on max_retries. */
  lemma HeldRowReplaced(s: Sys, s': Sys, h: nat, job: nat, row: Job, next: Option<Handler>)
    requires JobsInv(s) && job < |s.db| && RowOk(row) && row.maxRetries == s.db[job].maxRetries
    requires next.Some? ==> next.value.job == job && HandlerOk(row, next.value)
    requires s'.db == s.db[job := row]
    requires forall g :: g in s'.handlers ==>
      if next.Some? && g == h then s'.handlers[g] == next.value else Unaffected(s, s', job, g)
    ensures JobsInv(s')
  {
    forall g | g in s'.handlers
      ensures s'.handlers[g].job < |s'.db| && HandlerOk(s'.db[s'.handlers[g].job], s'.handlers[g])
    {
      if !(next.Some? && g == h) {
        assert Unaffected(s, s', job, g);
        assert HandlerOk(s.db[s.handlers[g].job], s.handlers[g]);
      }
    }
  }

  predicate Unaffected(s: Sys, s': Sys, job: nat, g: nat) {
    && g in s.handlers && g in s'.handlers && s'.handlers[g] == s.handlers[g]
    && (s.handlers[g].job == job ==> !HoldsJob(s.handlers[g]))
  }

  lemma HandlerDropped(s: Sys, h: nat)
    requires JobsInv(s)
    ensures JobsInv(s.(handlers := s.handlers - {h}))
  {
  }

  /** Nobody holds a job that has not ended. */
  lemma LiveJobUnheld(s: Sys, job: nat)
    requires JobsInv(s) && job < |s.db| && s.db[job].status in {PENDING, QUEUED, RUNNING}
    ensures forall g :: g in s.handlers && s.handlers[g].job == job ==> !HoldsJob(s.handlers[g])
  {
  }

  lemma DecideKeeps(s: Sys, h: nat, now: nat, ok: bool)
    requires JobsInv(s)
    ensures JobsInv(ApplyDecide(s, h, now, ok))
  {
    HandlerDropped(s, h);
    if h in s.handlers && s.handlers[h].Deciding? {
      var Deciding(job, from, maxRetries, report) := s.handlers[h];
      var r := Transition(s.db, job, from, report.status, report.failureReason, now);
      if r.Ok? && ok {
        assert HandlerOk(s.db[job], s.handlers[h]) && s.db[job].status in {QUEUED, RUNNING};
        LiveJobUnheld(s, job);
        RowMoves(s.db[job], job, report, now);
        HeldRowReplaced(s, ApplyDecide(s, h, now, ok), h, job,
          TransitionRow(s.db[job], report.status, report.failureReason, now), Some(Recording(job, maxRetries, report)));
      }
    }
  }

  lemma RowMoves(j: Job, job: nat, report: Report, now: nat)
    requires RowOk(j) && j.status in {QUEUED, RUNNING} && ReportOk(report)
    ensures var row := TransitionRow(j, report.status, report.failureReason, now);
            RowOk(row) && HandlerOk(row, Recording(job, j.maxRetries, report)) && row.maxRetries == j.maxRetries
  {
  }

  lemma RecordKeeps(s: Sys, h: nat, ok: bool)
    requires JobsInv(s)
    ensures JobsInv(ApplyRecord(s, h, ok))
  {
    HandlerDropped(s, h);
    if h in s.handlers && s.handlers[h].Recording? {
      var Recording(job, maxRetries, report) := s.handlers[h];
      var j := s.db[job];
      assert HandlerOk(j, s.handlers[h]) && RowOk(j);
      if report.status == FAILED {
        assert s.db[job := j] == s.db;
        HeldRowReplaced(s, ApplyRecord(s, h, ok), h, job, j, Some(Counting(job, maxRetries)));
      } else if ok && report.mlflowRunId.Some? {
        var row := WithLatestRun(j, LatestRun(j).(mlflowRunId := report.mlflowRunId));
        assert LatestRun(row) == LatestRun(j).(mlflowRunId := report.mlflowRunId);
        forall k | 0 <= k < |row.runs| - 1 ensures EndedRun(row.runs[k]) {
          assert row.runs[k] == j.runs[k];
        }
        HeldRowReplaced(s, ApplyRecord(s, h, ok), h, job, row, None);
      }
    }
  }

  lemma CountKeeps(s: Sys, h: nat, ok: bool)
    requires JobsInv(s)
    ensures JobsInv(ApplyCount(s, h, ok))
  {
    HandlerDropped(s, h);
    if h in s.handlers && s.handlers[h].Counting? && ok {
      var Counting(job, maxRetries) := s.handlers[h];
      var j := s.db[job];
      assert HandlerOk(j, s.handlers[h]) && RowOk(j);
      var row := j.(retryCount := j.retryCount + 1);
      HeldRowReplaced(s, ApplyCount(s, h, ok), h, job, row,
        if row.retryCount <= maxRetries then Some(Recreating(job)) else None);
    }
  }

  lemma RecreateKeeps(s: Sys, h: nat, ok: bool)
    requires JobsInv(s)
    ensures JobsInv(ApplyRecreate(s, h, ok))
  {
    HandlerDropped(s, h);
    if h in s.handlers && s.handlers[h].Recreating? && ok {
      var job := s.handlers[h].job;
      var j := s.db[job];
      assert HandlerOk(j, s.handlers[h]) && RowOk(j);
      var row := j.(runs := j.runs + [FreshRun(QUEUED)]);
      assert row.runs[|j.runs| - 1] == LatestRun(j);
      forall k | 0 <= k < |row.runs| - 1 ensures EndedRun(row.runs[k]) {
        assert row.runs[k] == j.runs[k];
      }
      HeldRowReplaced(s, ApplyRecreate(s, h, ok), h, job, row, Some(Requeuing(job)));
    }
  }

  lemma RequeueKeeps(s: Sys, h: nat, now: nat, ok: bool)
    requires JobsInv(s)
    ensures JobsInv(ApplyRequeue(s, h, now, ok))
  {
    HandlerDropped(s, h);
    if h in s.handlers && s.handlers[h].Requeuing? && ok {
      var job := s.handlers[h].job;
      var j := s.db[job];
      assert HandlerOk(j, s.handlers[h]) && RowOk(j);
      var row := TransitionRow(j, QUEUED, None, now);
      assert LatestRun(row) == LatestRun(j) && row.runs == j.runs;
      HeldRowReplaced(s, ApplyRequeue(s, h, now, ok), h, job, row, None);
    }
  }

  lemma PromoteKeeps(s: Sys, ok: bool)
    requires JobsInv(s)
    ensures JobsInv(ApplyDispCommit(s, ok))
  {
    var s' := ApplyDispCommit(s, ok);
    if s'.db != s.db {
      var job := s.disp.job;
      var row := TransitionRow(s.db[job], QUEUED, None, 0);
      assert RowOk(s.db[job]);
      assert LatestRun(row) == RunAfter(LatestRun(s.db[job]), QUEUED, None, 0);
      LiveJobUnheld(s, job);
      HeldRowReplaced(s, s', 0, job, row, None);
    }
  }

  lemma NamingKeeps(s: Sys, job: nat, name: string)
    requires JobsInv(s) && job < |s.db|
    ensures JobsInv(s.(db := WithRayJobName(s.db, job, name)))
  {
    var s' := s.(db := WithRayJobName(s.db, job, name));
    assert RowOk(s.db[job]);
    forall h | h in s'.handlers
      ensures s'.handlers[h].job < |s'.db| && HandlerOk(s'.db[s'.handlers[h].job], s'.handlers[h])
    {
      assert HandlerOk(s.db[s.handlers[h].job], s.handlers[h]);
    }
  }

  lemma OperatorReportOk(rayStatus: string, message: Option<string>, logRunId: string)
    ensures var r := OperatorReport(rayStatus, message, logRunId); r.Some? ==> ReportOk(r.value)
  {
  }

  lemma HandlerAdded(s: Sys, h: nat, next: Handler)
    requires JobsInv(s) && h !in s.handlers && next.Deciding?
    requires next.job < |s.db| && HandlerOk(s.db[next.job], next)
    ensures JobsInv(s.(handlers := s.handlers[h := next]))
  {
  }

  lemma ReceiveKeeps(s: Sys, h: nat, job: nat, rayStatus: string, message: Option<string>, logRunId: string)
    requires JobsInv(s)
    ensures JobsInv(ApplyReceive(s, h, job, rayStatus, message, logRunId))
  {
    var r := OperatorReport(rayStatus, message, logRunId);
    if r.Some? && h !in s.handlers && job < |s.db| {
      OperatorReportOk(rayStatus, message, logRunId);
      assert RowOk(s.db[job]);
      HandlerAdded(s, h, Deciding(job, s.db[job].status, s.db[job].maxRetries, r.value));
    }
  }

  lemma SameJobsKeep(s: Sys, s': Sys)
    requires JobsInv(s) && s'.db == s.db && s'.handlers == s.handlers
    ensures JobsInv(s')
  {
  }

  lemma InsertKeeps(s: Sys, sub: nat, id: string, project: string)
    requires JobsInv(s)
    ensures JobsInv(ApplySubmitInsert(s, sub, id, project))
  {
  }

  lemma NameKeeps(s: Sys, ok: bool)
    requires JobsInv(s)
    ensures JobsInv(Apply(s, DispName(ok)))
  {
    if s.disp.Naming? && s.disp.job < |s.db| && ok {
      NamingKeeps(s, s.disp.job, s.disp.name);
      SameJobsKeep(s.(db := WithRayJobName(s.db, s.disp.job, s.disp.name)), Apply(s, DispName(ok)));
    } else {
      SameJobsKeep(s, Apply(s, DispName(ok)));
    }
  }

  predicate HandlerStep(e: Step) {
    e.Receive? || e.Decide? || e.Record? || e.Count? || e.Recreate? || e.Requeue? || e.HandlerCrash?
  }

  lemma HandlerStepKeeps(s: Sys, e: Step)
    requires JobsInv(s) && HandlerStep(e)
    ensures JobsInv(ApplyHandler(s, e))
  {
    match e
    case Receive(h, job, rayStatus, message, logRunId) => ReceiveKeeps(s, h, job, rayStatus, message, logRunId);
    case Decide(h, now, ok) => DecideKeeps(s, h, now, ok);
    case Record(h, ok) => RecordKeeps(s, h, ok);
    case Count(h, ok) => CountKeeps(s, h, ok);
    case Recreate(h, ok) => RecreateKeeps(s, h, ok);
    case Requeue(h, now, ok) => RequeueKeeps(s, h, now, ok);
    case HandlerCrash(h) => HandlerDropped(s, h);
  }

  predicate WritesJobs(e: Step) {
    HandlerStep(e) || e.SubmitInsert? || e.DispCommit? || e.DispName?
  }

  lemma OtherStepsLeaveJobs(s: Sys, e: Step)
    requires !WritesJobs(e)
    ensures Apply(s, e).db == s.db && Apply(s, e).handlers == s.handlers && Apply(s, e).log == s.log
  {
    match e
    case SubmitCheck(_, _, _) =>
    case SubmitDrop(_) =>
    case DispList =>
    case DispTake =>
    case DispPick(_) =>
    case DispCheck =>
    case DispCreate(_) =>
    case DispCrash =>
  }

  lemma JobsInvStep(s: Sys, e: Step)
    requires JobsInv(s)
    ensures JobsInv(Apply(s, e))
  {
    if HandlerStep(e) {
      HandlerStepKeeps(s, e);
    } else if e.SubmitInsert? {
      InsertKeeps(s, e.sub, e.id, e.project);
    } else if e.DispCommit? {
      PromoteKeeps(s, e.ok);
    } else if e.DispName? {
      NameKeeps(s, e.ok);
    } else {
      OtherStepsLeaveJobs(s, e);
      SameJobsKeep(s, Apply(s, e));
    }
  }

  /** Job/run agreement in every reachable state, whatever fails and whatever interleaves: the
      latest run mirrors the job or is the prepared next attempt of a FAILED job, every earlier run
      is FAILED with finished_at set, and the retry counters stay within max_retries. */
  lemma {:induction false} JobRunAgreement(s: Sys, es: seq<Step>)
    requires JobsInv(s)
    ensures JobsInv(Exec(s, es))
    decreases |es|
  {
    if es != [] {
      JobsInvStep(s, es[0]);
      JobRunAgreement(Apply(s, es[0]), es[1..]);
    }
  }
}
