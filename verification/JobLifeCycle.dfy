/** The life of a job as a path: which commits follow which, and what its runs have recorded on the
    way (control-plane/internal/jobs/statemachine.go:6-11, store.go:318-368). Statuses and times are
    written out here, not taken from the transition table. */
module JobLifeCycle {
  import opened Prelude
  import opened Quota
  import opened Jobs
  import opened JobProtocol

  /** What a run has recorded, by its status. */
  predicate Timed(r: Run) {
    match r.status
    case PENDING => r.startedAt == None && r.finishedAt == None && r.failureReason == None
    case QUEUED => r.startedAt == None && r.finishedAt == None && r.failureReason == None
    case RUNNING => r.startedAt.Some? && r.finishedAt == None && r.failureReason == None
    case SUCCEEDED => r.startedAt.Some? && r.finishedAt.Some? && r.failureReason == None
    case FAILED => r.finishedAt.Some?
    case _ => false
  }

  predicate AllTimed(j: Job) { forall k :: 0 <= k < |j.runs| ==> Timed(j.runs[k]) }

  /** The commits there are. */
  predicate Edge(c: Commit) {
    || (c.from == PENDING && c.to == QUEUED)
    || (c.from == QUEUED && (c.to == RUNNING || c.to == FAILED))
    || (c.from == RUNNING && (c.to == SUCCEEDED || c.to == FAILED))
    || (c.from == FAILED && c.to == QUEUED)
  }

  /** Where the commits of a job have taken it. */
  function Reached(log: seq<Commit>, job: nat): Status {
    if log == [] then PENDING
    else if log[|log| - 1].job == job then log[|log| - 1].to
    else Reached(log[..|log| - 1], job)
  }

  /** Each commit goes on from where the last one of the job has ended. */
  predicate Path(log: seq<Commit>) {
    forall k :: 0 <= k < |log| ==> Edge(log[k]) && log[k].from == Reached(log[..k], log[k].job)
  }

  predicate LogOk(db: Table, log: seq<Commit>) {
    && Path(log) && (forall c :: c in log ==> c.job < |db|)
    && forall i :: 0 <= i < |db| ==> Reached(log, i) == db[i].status
  }

  predicate ReasonOk(h: Handler) { (h.Deciding? || h.Recording?) && h.report.failureReason.Some? ==> h.report.status == FAILED }

  predicate ReasonsOk(handlers: map<nat, Handler>) { forall h :: h in handlers ==> ReasonOk(handlers[h]) }

  predicate LifeInv(s: Sys) {
    LogOk(s.db, s.log) && ReasonsOk(s.handlers) && forall i :: 0 <= i < |s.db| ==> AllTimed(s.db[i])
  }

  /** One row is replaced, with the commit that moved it, if any. */
  lemma RowMoved(db: Table, log: seq<Commit>, job: nat, row: Job, moved: Option<Commit>)
    requires LogOk(db, log) && job < |db|
    requires match moved
             case None => row.status == db[job].status
             case Some(c) => c == Commit(job, db[job].status, row.status) && Edge(c)
    ensures LogOk(db[job := row], if moved.Some? then log + [moved.value] else log)
  {
    if moved.Some? {
      var log' := log + [moved.value];
      assert log'[..|log|] == log;
      forall k | 0 <= k < |log'| ensures Edge(log'[k]) && log'[k].from == Reached(log'[..k], log'[k].job) {
        if k < |log| { assert log'[..k] == log[..k]; }
      }
    }
  }

  /** What a commit does to the latest run. */
  lemma StaysTimed(j: Job, to: Status, reason: Option<string>, now: nat)
    requires AllTimed(j) && j.runs != [] && Edge(Commit(0, j.status, to))
    requires (LatestRun(j).status == j.status && j.status != FAILED) || (to == QUEUED && LatestRun(j).status == QUEUED)
    requires reason.Some? ==> to == FAILED
    ensures AllTimed(TransitionRow(j, to, reason, now)) && TransitionRow(j, to, reason, now).status == to
  {
  }

  lemma LifeInvKept(s: Sys, s': Sys, job: nat, row: Job, moved: Option<Commit>)
    requires LifeInv(s) && job < |s.db| && AllTimed(row) && ReasonsOk(s'.handlers) && s'.db == s.db[job := row]
    requires match moved
             case None => row.status == s.db[job].status && s'.log == s.log
             case Some(c) => c == Commit(job, s.db[job].status, row.status) && Edge(c) && s'.log == s.log + [c]
    ensures LifeInv(s')
  {
    RowMoved(s.db, s.log, job, row, moved);
  }

  lemma InsertKeepsLife(s: Sys, sub: nat, id: string, project: string)
    requires LifeInv(s)
    ensures LifeInv(ApplySubmitInsert(s, sub, id, project))
  {
    var s' := ApplySubmitInsert(s, sub, id, project);
    NeverReached(s.log, |s.db|);
    assert forall i :: 0 <= i < |s.db| ==> s'.db[i] == s.db[i];
  }

  lemma {:induction false} NeverReached(log: seq<Commit>, job: nat)
    requires forall c :: c in log ==> c.job < job
    ensures Reached(log, job) == PENDING
  {
    if log != [] {
      assert log[|log| - 1] in log;
      NeverReached(log[..|log| - 1], job);
    }
  }

  lemma PromoteKeepsLife(s: Sys, ok: bool)
    requires JobsInv(s) && LifeInv(s)
    ensures LifeInv(ApplyDispCommit(s, ok))
  {
    if s.disp.Cleared? && s.disp.job < |s.db| && s.db[s.disp.job].status == PENDING && ok {
      var job := s.disp.job;
      assert RowOk(s.db[job]);
      StaysTimed(s.db[job], QUEUED, None, 0);
      LifeInvKept(s, ApplyDispCommit(s, ok), job, TransitionRow(s.db[job], QUEUED, None, 0), Some(Commit(job, PENDING, QUEUED)));
    }
  }

  lemma DecideKeepsLife(s: Sys, h: nat, now: nat, ok: bool)
    requires JobsInv(s) && LifeInv(s)
    ensures LifeInv(ApplyDecide(s, h, now, ok))
  {
    if h in s.handlers && s.handlers[h].Deciding? {
      var Deciding(job, from, maxRetries, report) := s.handlers[h];
      assert HandlerOk(s.db[job], s.handlers[h]) && RowOk(s.db[job]) && ReasonOk(s.handlers[h]);
      if Transition(s.db, job, from, report.status, report.failureReason, now).Ok? && ok {
        StaysTimed(s.db[job], report.status, report.failureReason, now);
        LifeInvKept(s, ApplyDecide(s, h, now, ok), job, TransitionRow(s.db[job], report.status, report.failureReason, now),
                    Some(Commit(job, from, report.status)));
      }
    }
  }

  lemma RequeueKeepsLife(s: Sys, h: nat, now: nat, ok: bool)
    requires JobsInv(s) && LifeInv(s)
    ensures LifeInv(ApplyRequeue(s, h, now, ok))
  {
    if h in s.handlers && s.handlers[h].Requeuing? && ok {
      var job := s.handlers[h].job;
      assert HandlerOk(s.db[job], s.handlers[h]) && RowOk(s.db[job]);
      StaysTimed(s.db[job], QUEUED, None, now);
      LifeInvKept(s, ApplyRequeue(s, h, now, ok), job, TransitionRow(s.db[job], QUEUED, None, now), Some(Commit(job, FAILED, QUEUED)));
    }
  }

  lemma RecordKeepsLife(s: Sys, h: nat, ok: bool)
    requires JobsInv(s) && LifeInv(s)
    ensures LifeInv(ApplyRecord(s, h, ok))
  {
    if h in s.handlers && s.handlers[h].Recording? {
      var Recording(job, maxRetries, report) := s.handlers[h];
      var j := s.db[job];
      assert HandlerOk(j, s.handlers[h]) && RowOk(j);
      var row := if ok && report.mlflowRunId.Some? then WithLatestRun(j, LatestRun(j).(mlflowRunId := report.mlflowRunId)) else j;
      assert s.db[job := j] == s.db;
      LifeInvKept(s, ApplyRecord(s, h, ok), job, row, None);
    }
  }

  lemma CountWrites(s: Sys, h: nat)
    requires h in s.handlers && s.handlers[h].Counting? && s.handlers[h].job < |s.db|
    ensures var job := s.handlers[h].job; var s' := ApplyCount(s, h, true);
            && s'.db == s.db[job := s.db[job].(retryCount := s.db[job].retryCount + 1)] && s'.log == s.log
            && forall g :: g in s'.handlers ==> s'.handlers[g].Recreating? || (g in s.handlers && s'.handlers[g] == s.handlers[g])
  {
  }

  lemma CountKeepsLife(s: Sys, h: nat, ok: bool)
    requires JobsInv(s) && LifeInv(s)
    ensures LifeInv(ApplyCount(s, h, ok))
  {
    if h in s.handlers && s.handlers[h].Counting? && ok {
      var job := s.handlers[h].job;
      assert HandlerOk(s.db[job], s.handlers[h]);
      CountWrites(s, h);
      LifeInvKept(s, ApplyCount(s, h, true), job, s.db[job].(retryCount := s.db[job].retryCount + 1), None);
    }
  }

  lemma RecreateKeepsLife(s: Sys, h: nat, ok: bool)
    requires JobsInv(s) && LifeInv(s)
    ensures LifeInv(ApplyRecreate(s, h, ok))
  {
    if h in s.handlers && s.handlers[h].Recreating? && ok {
      var job := s.handlers[h].job;
      assert HandlerOk(s.db[job], s.handlers[h]);
      LifeInvKept(s, ApplyRecreate(s, h, ok), job, s.db[job].(runs := s.db[job].runs + [FreshRun(QUEUED)]), None);
    }
  }

  lemma ReceiveKeepsLife(s: Sys, h: nat, job: nat, rayStatus: string, message: Option<string>, logRunId: string)
    requires LifeInv(s)
    ensures LifeInv(ApplyReceive(s, h, job, rayStatus, message, logRunId))
  {
  }

  lemma NameKeepsLife(s: Sys, ok: bool)
    requires LifeInv(s)
    ensures LifeInv(Apply(s, DispName(ok)))
  {
    if s.disp.Naming? && s.disp.job < |s.db| && ok {
      RowMoved(s.db, s.log, s.disp.job, s.db[s.disp.job].(rayJobName := Some(s.disp.name)), None);
    }
  }

  lemma HandlerStepKeepsLife(s: Sys, e: Step)
    requires JobsInv(s) && LifeInv(s) && HandlerStep(e)
    ensures LifeInv(ApplyHandler(s, e))
  {
    match e
    case Receive(h, job, rayStatus, message, logRunId) => ReceiveKeepsLife(s, h, job, rayStatus, message, logRunId);
    case Decide(h, now, ok) => DecideKeepsLife(s, h, now, ok);
    case Requeue(h, now, ok) => RequeueKeepsLife(s, h, now, ok);
    case Record(h, ok) => RecordKeepsLife(s, h, ok);
    case Count(h, ok) => CountKeepsLife(s, h, ok);
    case Recreate(h, ok) => RecreateKeepsLife(s, h, ok);
    case HandlerCrash(h) =>
  }

  lemma LifeInvStep(s: Sys, e: Step)
    requires JobsInv(s) && LifeInv(s)
    ensures LifeInv(Apply(s, e))
  {
    if HandlerStep(e) {
      HandlerStepKeepsLife(s, e);
    } else if e.SubmitInsert? {
      InsertKeepsLife(s, e.sub, e.id, e.project);
    } else if e.DispCommit? {
      PromoteKeepsLife(s, e.ok);
    } else if e.DispName? {
      NameKeepsLife(s, e.ok);
    } else {
      OtherStepsLeaveJobs(s, e);
    }
  }

  lemma {:induction false} LifeInvHolds(s: Sys, es: seq<Step>)
    requires JobsInv(s) && LifeInv(s)
    ensures LifeInv(Exec(s, es))
    decreases |es|
  {
    if es != [] {
      JobsInvStep(s, es[0]);
      LifeInvStep(s, es[0]);
      LifeInvHolds(Apply(s, es[0]), es[1..]);
    }
  }

  /** In every run from the start, whatever fails and interleaves: a job gets from PENDING to QUEUED,
      from there to RUNNING or FAILED, from RUNNING to SUCCEEDED or FAILED, and from FAILED back to
      QUEUED, and by no other commit; and the commits of a job follow on each other up to its status. */
  lemma LifeIsPath(quotas: map<string, TenantQuota>, retryDefault: nat, es: seq<Step>)
    ensures var s := Exec(Init(quotas, retryDefault), es);
            && (forall k :: 0 <= k < |s.log| ==>
                  var c := s.log[k];
                  && c.from == Reached(s.log[..k], c.job)
                  && (c.to == QUEUED ==> c.from == PENDING || c.from == FAILED)
                  && (c.to == RUNNING ==> c.from == QUEUED)
                  && (c.to == SUCCEEDED ==> c.from == RUNNING)
                  && (c.to == FAILED ==> c.from == QUEUED || c.from == RUNNING)
                  && c.to in {QUEUED, RUNNING, SUCCEEDED, FAILED})
            && forall i :: 0 <= i < |s.db| ==> s.db[i].status == Reached(s.log, i)
  {
    LifeInvHolds(Init(quotas, retryDefault), es);
  }

  /** In every run from the start a run row shows how far it got: a waiting one has no times, a RUNNING
      one a start, a SUCCEEDED one a start and an end, a FAILED one an end, and only a FAILED one has a
      failure reason. */
  lemma RunsAreTimed(quotas: map<string, TenantQuota>, retryDefault: nat, es: seq<Step>, i: nat, k: nat)
    requires i < |Exec(Init(quotas, retryDefault), es).db| && k < |Exec(Init(quotas, retryDefault), es).db[i].runs|
    ensures var r := Exec(Init(quotas, retryDefault), es).db[i].runs[k];
            && r.status in {PENDING, QUEUED, RUNNING, SUCCEEDED, FAILED}
            && (r.startedAt.Some? ==> r.status in {RUNNING, SUCCEEDED, FAILED})
            && (r.status in {RUNNING, SUCCEEDED} ==> r.startedAt.Some?)
            && (r.finishedAt.Some? <==> r.status in {SUCCEEDED, FAILED})
            && (r.failureReason.Some? ==> r.status == FAILED)
  {
    LifeInvHolds(Init(quotas, retryDefault), es);
    assert AllTimed(Exec(Init(quotas, retryDefault), es).db[i]);
  }
}
