/** What the scripts of the control plane come to, written out in the columns that they change: a
    report with its retry, a launch, and a promotion attempt, whichever of their calls fail. Nothing
    here goes through the functions with which the store and the protocol are described. */
module JobOutcomes {
  import opened Prelude
  import opened Quota
  import opened Jobs
  import opened JobProtocol
  import opened JobTick

  lemma ExecTwo(s: Sys, a: Step, b: Step)
    ensures Exec(s, [a, b]) == Apply(Apply(s, a), b)
  {
    assert [a, b][1..] == [b];
    assert Exec(Apply(s, a), [b]) == Exec(Apply(Apply(s, a), b), []);
  }

  /** The outcome of the store calls behind one status report. */
  datatype ReportFaults = ReportFaults(read: bool, decide: bool, record: bool, count: bool, recreate: bool, requeue: bool)

  /** The steps of handleUpdateJobStatus once it has read the job, for handler number 0. */
  function ReportSteps(now: nat, f: ReportFaults): seq<Step> {
    [Decide(0, now, f.decide), Record(0, f.record)]
    + [Count(0, f.count), Recreate(0, f.recreate), Requeue(0, now, f.requeue)]
  }

  lemma ExecDecision(s: Sys, now: nat, f: ReportFaults)
    ensures Exec(s, [Decide(0, now, f.decide), Record(0, f.record)]) == ApplyRecord(ApplyDecide(s, 0, now, f.decide), 0, f.record)
  {
    ExecTwo(s, Decide(0, now, f.decide), Record(0, f.record));
  }

  lemma ExecRetry(s: Sys, now: nat, f: ReportFaults)
    ensures Exec(s, [Count(0, f.count), Recreate(0, f.recreate), Requeue(0, now, f.requeue)])
            == ApplyRequeue(ApplyRecreate(ApplyCount(s, 0, f.count), 0, f.recreate), 0, now, f.requeue)
  {
    Exec3(s, Count(0, f.count), Recreate(0, f.recreate), Requeue(0, now, f.requeue));
  }

  lemma ExecReport(s: Sys, now: nat, f: ReportFaults)
    ensures Exec(s, ReportSteps(now, f)) ==
            var decided := ApplyRecord(ApplyDecide(s, 0, now, f.decide), 0, f.record);
            ApplyRequeue(ApplyRecreate(ApplyCount(decided, 0, f.count), 0, f.recreate), 0, now, f.requeue)
  {
    ExecDecision(s, now, f);
    ExecRetry(ApplyRecord(ApplyDecide(s, 0, now, f.decide), 0, f.record), now, f);
    ExecConcat(s, [Decide(0, now, f.decide), Record(0, f.record)],
               [Count(0, f.count), Recreate(0, f.recreate), Requeue(0, now, f.requeue)]);
  }

  /** A transition, column by column: when it is taken, and what it writes to the job and its latest run. */
  lemma TransitionOutcome(db: Table, job: nat, from: Status, to: Status, reason: Option<string>, now: nat)
    requires job < |db| && db[job].runs != []
    ensures var t := Transition(db, job, from, to, reason, now); var j := db[job]; var n := |j.runs| - 1;
            && (t.Ok? <==>
                  && j.status == from
                  && match to
                     case QUEUED => from in {PENDING, RUNNING, FAILED}
                     case RUNNING => from == QUEUED
                     case SUCCEEDED => from == RUNNING
                     case FAILED => from in {QUEUED, RUNNING}
                     case CANCELLED => from in {PENDING, QUEUED, RUNNING}
                     case _ => false)
            && (t.Ok? ==>
                  t.value == db[job := j.(status := to, runs := j.runs[n := Run(
                    to, j.runs[n].mlflowRunId,
                    if to == RUNNING then Some(now) else j.runs[n].startedAt,
                    if to == SUCCEEDED || to == FAILED then Some(now) else j.runs[n].finishedAt,
                    if reason.Some? then reason else j.runs[n].failureReason)])])
  {
  }

  /** The latest run after an accepted report. */
  function ReportedRun(last: Run, req: Report, now: nat, record: bool): Run {
    Run(req.status,
        if record && req.mlflowRunId.Some? then req.mlflowRunId else last.mlflowRunId,
        if req.status == RUNNING then Some(now) else last.startedAt,
        if req.status == SUCCEEDED || req.status == FAILED then Some(now) else last.finishedAt,
        if req.failureReason.Some? then req.failureReason else last.failureReason)
  }

  lemma DecideWrites(s: Sys, job: nat, req: Report, now: nat)
    requires job < |s.db| && s.db[job].runs != [] && ValidTransition(s.db[job].status, req.status)
    requires s.handlers == map[0 := Deciding(job, s.db[job].status, s.db[job].maxRetries, req)]
    ensures var j := s.db[job]; var n := |j.runs| - 1;
            ApplyDecide(s, 0, now, true) ==
            s.(db := s.db[job := j.(status := req.status, runs := j.runs[n := ReportedRun(j.runs[n], req, now, false)])],
               handlers := map[0 := Recording(job, j.maxRetries, req)], log := s.log + [Commit(job, j.status, req.status)])
  {
    assert s.handlers[0 := Recording(job, s.db[job].maxRetries, req)] == map[0 := Recording(job, s.db[job].maxRetries, req)];
  }

  lemma RecordWrites(s: Sys, job: nat, m: int, req: Report, ok: bool)
    requires job < |s.db| && s.db[job].runs != [] && s.handlers == map[0 := Recording(job, m, req)]
    ensures var j := s.db[job]; var n := |j.runs| - 1;
            ApplyRecord(s, 0, ok) ==
            s.(db := s.db[job := j.(runs := j.runs[n := if ok && req.mlflowRunId.Some? then j.runs[n].(mlflowRunId := req.mlflowRunId) else j.runs[n]])],
               handlers := if req.status == FAILED then map[0 := Counting(job, m)] else map[])
  {
    var j := s.db[job];
    assert s.handlers - {0} == map[] && s.handlers[0 := Counting(job, m)] == map[0 := Counting(job, m)];
    assert j.runs[|j.runs| - 1 := j.runs[|j.runs| - 1]] == j.runs && s.db[job := j] == s.db;
  }

  lemma CommitWrites(s: Sys, job: nat, req: Report, now: nat, record: bool)
    requires job < |s.db| && s.db[job].runs != [] && ValidTransition(s.db[job].status, req.status)
    requires s.handlers == map[0 := Deciding(job, s.db[job].status, s.db[job].maxRetries, req)]
    ensures var j := s.db[job]; var n := |j.runs| - 1;
            ApplyRecord(ApplyDecide(s, 0, now, true), 0, record) ==
            s.(db := s.db[job := j.(status := req.status, runs := j.runs[n := ReportedRun(j.runs[n], req, now, record)])],
               handlers := if req.status == FAILED then map[0 := Counting(job, j.maxRetries)] else map[],
               log := s.log + [Commit(job, j.status, req.status)])
  {
    var j := s.db[job];
    var n := |j.runs| - 1;
    DecideWrites(s, job, req, now);
    var s1 := ApplyDecide(s, 0, now, true);
    RecordWrites(s1, job, j.maxRetries, req, record);
    assert s1.db[job].runs[n := ReportedRun(j.runs[n], req, now, record)] == j.runs[n := ReportedRun(j.runs[n], req, now, record)];
  }

  lemma NothingToRetry(s: Sys, now: nat, f: ReportFaults)
    requires s.handlers == map[]
    ensures ApplyRequeue(ApplyRecreate(ApplyCount(s, 0, f.count), 0, f.recreate), 0, now, f.requeue) == s
  {
  }

  /** The retry branch: count, recreate, re-queue, each only after the one before. */
  lemma RetryWrites(s: Sys, job: nat, m: int, now: nat, f: ReportFaults)
    requires job < |s.db| && s.db[job].status == FAILED && s.handlers == map[0 := Counting(job, m)]
    ensures var j := s.db[job];
            var retries := f.count && j.retryCount + 1 <= m && f.recreate;
            ApplyRequeue(ApplyRecreate(ApplyCount(s, 0, f.count), 0, f.recreate), 0, now, f.requeue) ==
            s.(db := s.db[job := j.(status := if retries && f.requeue then QUEUED else FAILED,
                                    retryCount := if f.count then j.retryCount + 1 else j.retryCount,
                                    runs := if retries then j.runs + [Run(QUEUED, None, None, None, None)] else j.runs)],
               handlers := map[],
               log := s.log + if retries && f.requeue then [Commit(job, FAILED, QUEUED)] else [])
  {
    var j := s.db[job];
    assert s.handlers - {0} == map[] && s.db[job := j] == s.db && s.log + [] == s.log;
    if f.count {
      var j1 := j.(retryCount := j.retryCount + 1);
      var s1 := s.(db := s.db[job := j1], handlers := if j1.retryCount <= m then map[0 := Recreating(job)] else map[]);
      assert ApplyCount(s, 0, true) == s1;
      if j1.retryCount <= m { RecreateWrites(s1, job, now, f); }
    }
  }

  lemma RecreateWrites(s: Sys, job: nat, now: nat, f: ReportFaults)
    requires job < |s.db| && s.db[job].status == FAILED && s.handlers == map[0 := Recreating(job)]
    ensures var j := s.db[job];
            ApplyRequeue(ApplyRecreate(s, 0, f.recreate), 0, now, f.requeue) ==
            s.(db := s.db[job := j.(status := if f.recreate && f.requeue then QUEUED else FAILED,
                                    runs := if f.recreate then j.runs + [Run(QUEUED, None, None, None, None)] else j.runs)],
               handlers := map[],
               log := s.log + if f.recreate && f.requeue then [Commit(job, FAILED, QUEUED)] else [])
  {
    var j := s.db[job];
    assert s.handlers - {0} == map[] && s.db[job := j] == s.db && s.log + [] == s.log;
    if f.recreate {
      var j1 := j.(runs := j.runs + [Run(QUEUED, None, None, None, None)]);
      var s1 := s.(db := s.db[job := j1], handlers := map[0 := Requeuing(job)]);
      assert ApplyRecreate(s, 0, true) == s1;
      assert s1.handlers - {0} == map[];
      assert TransitionRow(j1, QUEUED, None, now) == j1.(status := QUEUED) by {
        assert j1.runs[|j1.runs| - 1 := j1.runs[|j1.runs| - 1]] == j1.runs;
      }
      assert s1.db[job := j1.(status := QUEUED)] == s.db[job := j1.(status := QUEUED)];
    }
  }

  /** The reports of the operator that a job takes. */
  predicate Takes(from: Status, to: Status) {
    || (to == RUNNING && from == QUEUED)
    || (to == SUCCEEDED && from == RUNNING)
    || (to == FAILED && (from == QUEUED || from == RUNNING))
  }

  /** The whole effect of a RUNNING or SUCCEEDED that the job takes; recording the MLflow run may fail. */
  lemma ReportOutcome(s: Sys, job: nat, req: Report, now: nat, f: ReportFaults)
    requires job < |s.db| && s.db[job].runs != [] && Takes(s.db[job].status, req.status) && req.status != FAILED && f.decide
    requires s.handlers == map[0 := Deciding(job, s.db[job].status, s.db[job].maxRetries, req)]
    ensures var j := s.db[job]; var n := |j.runs| - 1;
            Exec(s, ReportSteps(now, f)) ==
            s.(db := s.db[job := j.(status := req.status, runs := j.runs[n := ReportedRun(j.runs[n], req, now, f.record)])],
               handlers := map[], log := s.log + [Commit(job, j.status, req.status)])
  {
    ExecReport(s, now, f);
    CommitWrites(s, job, req, now, f.record);
    NothingToRetry(ApplyRecord(ApplyDecide(s, 0, now, true), 0, f.record), now, f);
  }

  /** The whole effect of a FAILED that the job takes: the failure is counted, and if retries are left
      a fresh run is added and the job goes back to QUEUED, each only if the call before it worked. */
  lemma FailureOutcome(s: Sys, job: nat, req: Report, now: nat, f: ReportFaults)
    requires job < |s.db| && s.db[job].runs != [] && Takes(s.db[job].status, req.status) && req.status == FAILED && f.decide
    requires s.handlers == map[0 := Deciding(job, s.db[job].status, s.db[job].maxRetries, req)]
    ensures var j := s.db[job]; var n := |j.runs| - 1;
            var runs := j.runs[n := ReportedRun(j.runs[n], req, now, f.record)];
            var retries := f.count && j.retryCount + 1 <= j.maxRetries && f.recreate;
            Exec(s, ReportSteps(now, f)) ==
            s.(db := s.db[job := j.(status := if retries && f.requeue then QUEUED else FAILED,
                                    retryCount := if f.count then j.retryCount + 1 else j.retryCount,
                                    runs := if retries then runs + [Run(QUEUED, None, None, None, None)] else runs)],
               handlers := map[],
               log := s.log + [Commit(job, j.status, FAILED)] + if retries && f.requeue then [Commit(job, FAILED, QUEUED)] else [])
  {
    ExecReport(s, now, f);
    CommitWrites(s, job, req, now, f.record);
    RetryWrites(ApplyRecord(ApplyDecide(s, 0, now, true), 0, f.record), job, s.db[job].maxRetries, now, f);
  }

  /** Any other report of a RUNNING, SUCCEEDED or FAILED, and one whose commit fails, has no effect. */
  lemma ReportRefused(s: Sys, job: nat, req: Report, now: nat, f: ReportFaults)
    requires job < |s.db| && req.status in {RUNNING, SUCCEEDED, FAILED}
    requires !Takes(s.db[job].status, req.status) || !f.decide
    requires s.handlers == map[0 := Deciding(job, s.db[job].status, s.db[job].maxRetries, req)]
    ensures Exec(s, ReportSteps(now, f)) == s.(handlers := map[])
  {
    ExecReport(s, now, f);
    assert s.handlers - {0} == map[];
    assert ApplyDecide(s, 0, now, f.decide) == s.(handlers := map[]);
  }

  /** What the operator makes of a RayJob: a running one is reported RUNNING, a complete one SUCCEEDED
      with the MLflow run id of its log, a failed one FAILED with its message; any other not at all. */
  lemma ReceiveOutcome(s: Sys, h: nat, job: nat, rayStatus: string, message: Option<string>, logRunId: string)
    requires job < |s.db| && h !in s.handlers
    ensures var t := Apply(s, Receive(h, job, rayStatus, message, logRunId));
            var received := (r: Report) => s.(handlers := s.handlers[h := Deciding(job, s.db[job].status, s.db[job].maxRetries, r)]);
            && (rayStatus == "Running" ==> t == received(Report(RUNNING, None, None)))
            && (rayStatus == "Complete" ==> t == received(Report(SUCCEEDED, None, if logRunId == "" then None else Some(logRunId))))
            && (rayStatus == "Failed" ==> t == received(Report(FAILED, if message == Some("") then None else message, None)))
            && (rayStatus !in {"Running", "Complete", "Failed"} ==> t == s)
  {
  }

  // ---------------------------------------------------------------- the dispatcher

  /** A launch creates the RayJob that is named after the first eight characters of the job's id, with
      the labels of the job, unless there is one of that name; and it records the name. */
  lemma LaunchOutcome(s: Sys, job: nat, todo: seq<nat>, f: LaunchFaults)
    requires s.disp == Submitting(job, todo) && job < |s.db|
    ensures var j := s.db[job];
            var name := "rayjob-" + if |j.id| > 8 then j.id[..8] else j.id;
            Exec(s, LaunchSteps(f)) ==
            s.(disp := Ready(todo),
               rayJobs := if f.create == Refused || name in s.rayJobs then s.rayJobs else s.rayJobs[name := RayJob(j.id, j.tenant)],
               db := if f.create == Reached && f.name then s.db[job := j.(rayJobName := Some(name))] else s.db)
  {
    ExecTwo(s, DispCreate(f.create), DispName(f.name));
  }

  /** The job that a promotion attempt is about. */
  predicate FirstWaiting(db: Table, tenant: string, job: nat) {
    && job < |db| && db[job].tenant == tenant && db[job].status == PENDING
    && forall i :: 0 <= i < job && db[i].tenant == tenant ==> db[i].status != PENDING
  }

  /** An attempt that finds the first waiting job of the tenant within quota, and commits, makes it
      QUEUED and launches it; one that does not changes no row. */
  lemma PromotionOutcome(s: Sys, tenant: string, f: PromoteFaults, job: nat)
    requires s.disp == Ready([]) && FirstWaiting(s.db, tenant, job) && s.db[job].runs != []
    ensures var j := s.db[job]; var n := |j.runs| - 1;
            Exec(s, PromotionSteps(tenant, f)) ==
            if f.readsOk && f.commit && tenant in s.quotas && Accepts(s.quotas[tenant], ResourcesOf(s.db, tenant, false), j.res)
            then Exec(s.(db := s.db[job := j.(status := QUEUED, runs := j.runs[n := j.runs[n].(status := QUEUED)])],
                         disp := Submitting(job, []), log := s.log + [Commit(job, PENDING, QUEUED)]), LaunchSteps(f.launch))
            else s
  {
    assert OldestPending(s.db, tenant) == Some(job);
    if !f.readsOk {
      ExecTwo(s, DispPick(tenant), DispCrash);
    } else {
      PickedOutcome(s, tenant, f, job);
    }
  }

  lemma PickedOutcome(s: Sys, tenant: string, f: PromoteFaults, job: nat)
    requires s.disp == Ready([]) && OldestPending(s.db, tenant) == Some(job) && s.db[job].runs != [] && f.readsOk
    ensures var j := s.db[job]; var n := |j.runs| - 1;
            Exec(s, PromotionSteps(tenant, f)) ==
            if f.commit && tenant in s.quotas && Accepts(s.quotas[tenant], ResourcesOf(s.db, tenant, false), j.res)
            then Exec(s.(db := s.db[job := j.(status := QUEUED, runs := j.runs[n := j.runs[n].(status := QUEUED)])],
                         disp := Submitting(job, []), log := s.log + [Commit(job, PENDING, QUEUED)]), LaunchSteps(f.launch))
            else s
  {
    var head := [DispPick(tenant), DispCheck, DispCommit(f.commit)];
    HeadOutcome(s, tenant, f.commit, job);
    ExecConcat(s, head, LaunchSteps(f.launch));
    if Exec(s, head) == s {
      IdleLaunch(s, f.launch);
    }
  }

  lemma HeadOutcome(s: Sys, tenant: string, commit: bool, job: nat)
    requires s.disp == Ready([]) && OldestPending(s.db, tenant) == Some(job) && s.db[job].runs != []
    ensures var j := s.db[job]; var n := |j.runs| - 1;
            Exec(s, [DispPick(tenant), DispCheck, DispCommit(commit)]) ==
            if commit && tenant in s.quotas && Accepts(s.quotas[tenant], ResourcesOf(s.db, tenant, false), j.res)
            then s.(db := s.db[job := j.(status := QUEUED, runs := j.runs[n := j.runs[n].(status := QUEUED)])],
                    disp := Submitting(job, []), log := s.log + [Commit(job, PENDING, QUEUED)])
            else s
  {
    Exec3(s, DispPick(tenant), DispCheck, DispCommit(commit));
    assert Apply(s, DispPick(tenant)) == s.(disp := Picked(job));
    if tenant in s.quotas && Accepts(s.quotas[tenant], ResourcesOf(s.db, tenant, false), s.db[job].res) {
      assert Apply(s.(disp := Picked(job)), DispCheck) == s.(disp := Cleared(job));
    } else {
      assert Apply(s.(disp := Picked(job)), DispCheck) == s;
    }
  }

  /** With nothing to submit, the launch steps do nothing. */
  lemma IdleLaunch(s: Sys, f: LaunchFaults)
    requires s.disp.Ready?
    ensures Exec(s, LaunchSteps(f)) == s
  {
    ExecTwo(s, DispCreate(f.create), DispName(f.name));
  }
}
