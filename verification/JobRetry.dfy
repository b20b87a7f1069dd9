/** Retry accounting when no call fails: the counters say exactly how often a job failed. */
module JobRetry {
  import opened Prelude
  import opened Quota
  import opened Jobs
  import opened JobProtocol
  import opened JobHistory
  import opened JobDispatch
  import opened JobQuota

  function FailedRuns(runs: seq<Run>): nat {
    if runs == [] then 0
    else FailedRuns(runs[..|runs| - 1]) + if runs[|runs| - 1].status == FAILED then 1 else 0
  }

  function Min(a: int, b: int): int { if a <= b then a else b }

  /** retry_count counts the FAILED runs, and every one but an unretried last has a successor. */
  predicate Balanced(j: Job) {
    FailedRuns(j.runs) == j.retryCount && |j.runs| == 1 + Min(j.retryCount, j.maxRetries)
  }

  /** The same in terms of the latest run, given that all earlier runs are FAILED. */
  predicate BalancedRow(j: Job) {
    j.runs != [] && |j.runs| == 1 + Min(j.retryCount, j.maxRetries)
    && (LatestRun(j).status == FAILED <==> j.retryCount == j.maxRetries + 1)
  }

  lemma {:induction false} EndedRunsFailed(runs: seq<Run>)
    requires forall k :: 0 <= k < |runs| ==> EndedRun(runs[k])
    ensures FailedRuns(runs) == |runs|
  {
    if runs != [] {
      EndedRunsFailed(runs[..|runs| - 1]);
    }
  }

  lemma BalancedRowIsBalanced(j: Job)
    requires RowOk(j)
    ensures BalancedRow(j) ==> Balanced(j)
  {
    EndedRunsFailed(j.runs[..|j.runs| - 1]);
  }

  predicate InRetry(h: Handler) {
    (h.Recording? && h.report.status == FAILED) || h.Counting? || h.Recreating? || h.Requeuing?
  }

  predicate RetryHeld(s: Sys, i: nat) {
    exists h :: h in s.handlers && s.handlers[h].job == i && InRetry(s.handlers[h])
  }

  predicate PhaseExact(j: Job, h: Handler) {
    if h.Recreating? then |j.runs| == j.retryCount else |j.runs| == 1 + j.retryCount
  }

  predicate BalanceInv(s: Sys) {
    && (forall i :: 0 <= i < |s.db| ==> RetryHeld(s, i) || BalancedRow(s.db[i]))
    && (forall h :: h in s.handlers && InRetry(s.handlers[h]) ==>
          s.handlers[h].job < |s.db| && PhaseExact(s.db[s.handlers[h].job], s.handlers[h]))
  }

  /** A step in which no store call fails and no handler stops half-way. */
  predicate FaultFree(e: Step) {
    match e
    case Decide(_, _, ok) => ok
    case Count(_, ok) => ok
    case Recreate(_, ok) => ok
    case Requeue(_, _, ok) => ok
    case HandlerCrash(_) => false
    case _ => true
  }

  /** Handler `h` moves on, replacing its job's row, while nobody else retries that job. */
  lemma Advances(s: Sys, t: Sys, h: nat, row: Job, next: Option<Handler>)
    requires BalanceInv(s) && h in s.handlers && s.handlers[h].job < |s.db|
    requires forall g :: g in s.handlers && g != h && s.handlers[g].job == s.handlers[h].job ==> !InRetry(s.handlers[g])
    requires t.db == s.db[s.handlers[h].job := row]
    requires t.handlers == if next.Some? then s.handlers[h := next.value] else s.handlers - {h}
    requires next.Some? ==> next.value.job == s.handlers[h].job
    requires if next.Some? && InRetry(next.value) then PhaseExact(row, next.value) else BalancedRow(row)
    ensures BalanceInv(t)
  {
    var job := s.handlers[h].job;
    forall i: nat | i < |t.db| ensures RetryHeld(t, i) || BalancedRow(t.db[i]) {
      if i == job {
        assert next.Some? && InRetry(next.value) ==> t.handlers[h] == next.value;
      } else {
        HeldElsewhere(s, t, h, i);
      }
    }
    forall g | g in t.handlers && InRetry(t.handlers[g])
      ensures t.handlers[g].job < |t.db| && PhaseExact(t.db[t.handlers[g].job], t.handlers[g])
    {
      if g != h {
        assert t.handlers[g] == s.handlers[g];
      }
    }
  }

  lemma HeldElsewhere(s: Sys, t: Sys, h: nat, i: nat)
    requires forall g :: g in s.handlers && g != h ==> g in t.handlers && t.handlers[g] == s.handlers[g]
    requires h in s.handlers ==> s.handlers[h].job != i || !InRetry(s.handlers[h])
    ensures RetryHeld(s, i) ==> RetryHeld(t, i)
  {
  }

  /** Handlers that are not retrying may come and go. */
  lemma IdleChange(s: Sys, t: Sys, h: nat)
    requires BalanceInv(s) && t.db == s.db && (h in s.handlers ==> !InRetry(s.handlers[h]))
    requires forall g :: g in s.handlers && g != h ==> g in t.handlers && t.handlers[g] == s.handlers[g]
    requires forall g :: g in t.handlers ==> (g in s.handlers && t.handlers[g] == s.handlers[g]) || !InRetry(t.handlers[g])
    ensures BalanceInv(t)
  {
  }

  lemma UnheldIsBalanced(s: Sys, i: nat)
    requires JobsInv(s) && BalanceInv(s) && i < |s.db| && s.db[i].status in {PENDING, QUEUED, RUNNING, SUCCEEDED}
    ensures BalancedRow(s.db[i])
  {
  }

  /** Nobody else on the job is retrying. */
  lemma OnlyRetrier(s: Sys, h: nat)
    requires JobsInv(s) && h in s.handlers && HoldsJob(s.handlers[h])
    ensures forall g :: g in s.handlers && g != h && s.handlers[g].job == s.handlers[h].job ==> !InRetry(s.handlers[g])
  {
  }

  lemma DecideBalances(s: Sys, h: nat, now: nat)
    requires JobsInv(s) && BalanceInv(s) && h in s.handlers && s.handlers[h].Deciding?
    ensures BalanceInv(ApplyDecide(s, h, now, true))
  {
    var t := ApplyDecide(s, h, now, true);
    var Deciding(job, from, maxRetries, report) := s.handlers[h];
    var j := s.db[job];
    assert RowOk(j) && HandlerOk(j, s.handlers[h]);
    if Transition(s.db, job, from, report.status, report.failureReason, now).Err? {
      IdleChange(s, t, h);
    } else {
      DecisionBalances(s, t, h, TransitionRow(j, report.status, report.failureReason, now), now);
    }
  }

  lemma DecisionBalances(s: Sys, t: Sys, h: nat, row: Job, now: nat)
    requires JobsInv(s) && BalanceInv(s) && h in s.handlers && s.handlers[h].Deciding?
    requires var d := s.handlers[h];
             && d.job < |s.db| && row == TransitionRow(s.db[d.job], d.report.status, d.report.failureReason, now)
             && s.db[d.job].status == d.from && ValidTransition(d.from, d.report.status)
             && t == s.(db := s.db[d.job := row], handlers := s.handlers[h := Recording(d.job, d.maxRetries, d.report)], log := t.log)
    ensures BalanceInv(t)
  {
    var Deciding(job, _, maxRetries, report) := s.handlers[h];
    var j := s.db[job];
    assert RowOk(j) && HandlerOk(j, s.handlers[h]);
    UnheldIsBalanced(s, job);
    LiveJobUnheld(s, job);
    assert LatestRun(row) == RunAfter(LatestRun(j), report.status, report.failureReason, now);
    Advances(s, t, h, row, Some(Recording(job, maxRetries, report)));
  }

  lemma RecordBalances(s: Sys, h: nat, ok: bool)
    requires JobsInv(s) && BalanceInv(s) && h in s.handlers && s.handlers[h].Recording?
    ensures BalanceInv(ApplyRecord(s, h, ok))
  {
    var t := ApplyRecord(s, h, ok);
    var Recording(job, maxRetries, report) := s.handlers[h];
    var j := s.db[job];
    assert HandlerOk(j, s.handlers[h]) && RowOk(j);
    if report.status == FAILED {
      OnlyRetrier(s, h);
      assert s.db[job := j] == s.db;
      Advances(s, t, h, j, Some(Counting(job, maxRetries)));
    } else if !ok || report.mlflowRunId == None {
      IdleChange(s, t, h);
    } else {
      MlflowIdBalances(s, h);
    }
  }

  lemma MlflowIdBalances(s: Sys, h: nat)
    requires JobsInv(s) && BalanceInv(s) && h in s.handlers && s.handlers[h].Recording?
    requires s.handlers[h].report.status == SUCCEEDED && s.handlers[h].report.mlflowRunId.Some?
    ensures BalanceInv(ApplyRecord(s, h, true))
  {
    var Recording(job, _, report) := s.handlers[h];
    var j := s.db[job];
    assert HandlerOk(j, s.handlers[h]) && RowOk(j);
    UnheldIsBalanced(s, job);
    OnlyRetrier(s, h);
    Advances(s, ApplyRecord(s, h, true), h, WithLatestRun(j, LatestRun(j).(mlflowRunId := report.mlflowRunId)), None);
  }

  lemma CountBalances(s: Sys, h: nat)
    requires JobsInv(s) && BalanceInv(s) && h in s.handlers && s.handlers[h].Counting?
    ensures BalanceInv(ApplyCount(s, h, true))
  {
    var Counting(job, maxRetries) := s.handlers[h];
    var j := s.db[job];
    assert HandlerOk(j, s.handlers[h]) && PhaseExact(j, s.handlers[h]);
    OnlyRetrier(s, h);
    Advances(s, ApplyCount(s, h, true), h, j.(retryCount := j.retryCount + 1),
      if j.retryCount + 1 <= maxRetries then Some(Recreating(job)) else None);
  }

  lemma RecreateBalances(s: Sys, h: nat)
    requires JobsInv(s) && BalanceInv(s) && h in s.handlers && s.handlers[h].Recreating?
    ensures BalanceInv(ApplyRecreate(s, h, true))
  {
    var job := s.handlers[h].job;
    var j := s.db[job];
    assert PhaseExact(j, s.handlers[h]);
    OnlyRetrier(s, h);
    Advances(s, ApplyRecreate(s, h, true), h, j.(runs := j.runs + [FreshRun(QUEUED)]), Some(Requeuing(job)));
  }

  lemma RequeueBalances(s: Sys, h: nat, now: nat)
    requires JobsInv(s) && BalanceInv(s) && h in s.handlers && s.handlers[h].Requeuing?
    ensures BalanceInv(ApplyRequeue(s, h, now, true))
  {
    var j := s.db[s.handlers[h].job];
    assert HandlerOk(j, s.handlers[h]) && RowOk(j) && PhaseExact(j, s.handlers[h]);
    OnlyRetrier(s, h);
    var row := TransitionRow(j, QUEUED, None, now);
    assert LatestRun(row) == LatestRun(j) && |row.runs| == |j.runs|;
    Advances(s, ApplyRequeue(s, h, now, true), h, row, None);
  }

  lemma ReceiveBalances(s: Sys, e: Step)
    requires BalanceInv(s) && e.Receive?
    ensures BalanceInv(Apply(s, e))
  {
    if Apply(s, e) != s {
      IdleChange(s, Apply(s, e), e.handler);
    }
  }

  /** A handler step that does not fit its handler's phase changes nothing. */
  lemma MisfitStutters(s: Sys, e: Step)
    requires HandlerStep(e) && !e.Receive? && !e.HandlerCrash?
    requires e.handler in s.handlers ==>
      match e
      case Decide(_, _, _) => !s.handlers[e.handler].Deciding?
      case Record(_, _) => !s.handlers[e.handler].Recording?
      case Count(_, _) => !s.handlers[e.handler].Counting?
      case Recreate(_, _) => !s.handlers[e.handler].Recreating?
      case Requeue(_, _, _) => !s.handlers[e.handler].Requeuing?
      case _ => true
    ensures ApplyHandler(s, e) == s
  {
  }

  lemma HandlerStepBalances(s: Sys, e: Step)
    requires JobsInv(s) && BalanceInv(s) && HandlerStep(e) && FaultFree(e)
    ensures BalanceInv(ApplyHandler(s, e))
  {
    if e.Decide? && e.handler in s.handlers && s.handlers[e.handler].Deciding? {
      DecideBalances(s, e.handler, e.now);
    } else if e.Record? && e.handler in s.handlers && s.handlers[e.handler].Recording? {
      RecordBalances(s, e.handler, e.ok);
    } else if e.Count? && e.handler in s.handlers && s.handlers[e.handler].Counting? {
      CountBalances(s, e.handler);
    } else if e.Recreate? && e.handler in s.handlers && s.handlers[e.handler].Recreating? {
      RecreateBalances(s, e.handler);
    } else if e.Requeue? && e.handler in s.handlers && s.handlers[e.handler].Requeuing? {
      RequeueBalances(s, e.handler, e.now);
    } else if e.Receive? {
      ReceiveBalances(s, e);
    } else {
      MisfitStutters(s, e);
    }
  }

  lemma OtherStepBalances(s: Sys, e: Step)
    requires JobsInv(s) && BalanceInv(s) && !HandlerStep(e)
    ensures BalanceInv(Apply(s, e))
  {
    var t := Apply(s, e);
    OtherStepHandlers(s, e);
    forall i: nat | i < |t.db| ensures RetryHeld(t, i) || BalancedRow(t.db[i]) {
      if i < |s.db| {
        OtherStepRow(s, e, i);
        assert RetryHeld(t, i) == RetryHeld(s, i);
      } else {
        NewRowIsSubmission(s, e, i);
      }
    }
    forall h | h in t.handlers && InRetry(t.handlers[h])
      ensures t.handlers[h].job < |t.db| && PhaseExact(t.db[t.handlers[h].job], t.handlers[h])
    {
      OtherStepRow(s, e, s.handlers[h].job);
    }
  }

  lemma OtherStepHandlers(s: Sys, e: Step)
    requires !HandlerStep(e)
    ensures Apply(s, e).handlers == s.handlers
  {
    if !WritesJobs(e) {
      OtherStepsLeaveJobs(s, e);
    }
  }

  lemma OtherStepRow(s: Sys, e: Step, i: nat)
    requires JobsInv(s) && !HandlerStep(e) && i < |s.db|
    ensures var t := Apply(s, e);
            i < |t.db| && |t.db[i].runs| == |s.db[i].runs| && t.db[i].retryCount == s.db[i].retryCount
            && (BalancedRow(s.db[i]) ==> BalancedRow(t.db[i]))
  {
    assert RowOk(s.db[i]);
    if i != Touched(s, e) {
      OnlyTouchedRowChanges(s, e, i);
    } else if e.DispCommit? {
      var row := TransitionRow(s.db[i], QUEUED, None, 0);
      assert LatestRun(row) == RunAfter(LatestRun(s.db[i]), QUEUED, None, 0);
    }
  }

  predicate FaultFreeRun(es: seq<Step>) {
    forall k :: 0 <= k < |es| ==> FaultFree(es[k])
  }

  lemma {:induction false} BalanceHolds(s: Sys, es: seq<Step>)
    requires JobsInv(s) && BalanceInv(s) && FaultFreeRun(es)
    ensures JobsInv(Exec(s, es)) && BalanceInv(Exec(s, es))
    decreases |es|
  {
    if es != [] {
      var t := Apply(s, es[0]);
      assert FaultFree(es[0]) && forall k :: 0 <= k < |es[1..]| ==> es[1..][k] == es[k + 1];
      JobsInvStep(s, es[0]);
      if HandlerStep(es[0]) {
        HandlerStepBalances(s, es[0]);
      } else {
        OtherStepBalances(s, es[0]);
      }
      BalanceHolds(t, es[1..]);
    }
  }

  /** In fault-free runs, outside the retry window, retry_count is the number of FAILED runs and the
      job has had exactly 1 + min(retry_count, max_retries) runs. */
  lemma RetryAccounting(quotas: map<string, TenantQuota>, retryDefault: nat, es: seq<Step>, job: nat)
    requires FaultFreeRun(es)
    ensures var s := Exec(Init(quotas, retryDefault), es);
            job < |s.db| && !RetryHeld(s, job) ==> Balanced(s.db[job])
  {
    var s := Exec(Init(quotas, retryDefault), es);
    BalanceHolds(Init(quotas, retryDefault), es);
    if job < |s.db| && !RetryHeld(s, job) {
      assert RowOk(s.db[job]);
      BalancedRowIsBalanced(s.db[job]);
    }
  }
}
