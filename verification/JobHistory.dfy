/** What the job protocol never undoes: rows only evolve, ended runs are frozen, and a job whose
    last report has been dealt with is settled for good. */
module JobHistory {
  import opened Prelude
  import opened Jobs
  import opened JobProtocol

  /** How one job row may change over any part of a run. */
  predicate RowEvolves(j: Job, k: Job) {
    && k.id == j.id && k.tenant == j.tenant && k.project == j.project && k.res == j.res
    && k.maxRetries == j.maxRetries && j.retryCount <= k.retryCount
    && j.runs != [] && |j.runs| <= |k.runs|
    && (forall i :: 0 <= i < |j.runs| - 1 ==> k.runs[i] == j.runs[i])
    && (LatestRun(j).status == SUCCEEDED ==>
          |k.runs| == |j.runs| && LatestRun(k).status == SUCCEEDED
          && (LatestRun(j).mlflowRunId.Some? ==> LatestRun(k) == LatestRun(j)))
    && (j.status != PENDING ==> k.status != PENDING)
  }

  predicate Evolves(a: Table, b: Table) {
    |a| <= |b| && forall i :: 0 <= i < |a| ==> RowEvolves(a[i], b[i])
  }

  lemma RowEvolvesTransitive(a: Job, b: Job, c: Job)
    requires RowEvolves(a, b) && RowEvolves(b, c)
    ensures RowEvolves(a, c)
  {
  }

  /** One step changes at most the row named here. */
  ghost function Touched(s: Sys, e: Step): (job: int) {
    if e.DispCommit? && s.disp.Cleared? then s.disp.job
    else if e.DispName? && s.disp.Naming? then s.disp.job
    else if HandlerStep(e) && !e.Receive? && e.handler in s.handlers then s.handlers[e.handler].job
    else -1
  }

  lemma HandlerTouches(s: Sys, e: Step, i: nat)
    requires HandlerStep(e) && i < |s.db| && i != Touched(s, e)
    ensures |ApplyHandler(s, e).db| == |s.db| && ApplyHandler(s, e).db[i] == s.db[i]
  {
    match e
    case Receive(_, _, _, _, _) =>
    case Decide(_, _, _) =>
    case Record(_, _) =>
    case Count(_, _) =>
    case Recreate(_, _) =>
    case Requeue(_, _, _) =>
    case HandlerCrash(_) =>
  }

  lemma OnlyTouchedRowChanges(s: Sys, e: Step, i: nat)
    requires i < |s.db| && i != Touched(s, e)
    ensures |Apply(s, e).db| >= |s.db| && Apply(s, e).db[i] == s.db[i]
  {
    if HandlerStep(e) {
      HandlerTouches(s, e, i);
    } else if !WritesJobs(e) {
      OtherStepsLeaveJobs(s, e);
    }
  }

  lemma TransitionEvolves(j: Job, to: Status, reason: Option<string>, now: nat)
    requires RowOk(j) && j.status != SUCCEEDED && to != PENDING
    ensures RowEvolves(j, TransitionRow(j, to, reason, now))
  {
  }

  lemma RecordEvolves(j: Job, runId: string)
    requires RowOk(j) && LatestRun(j).mlflowRunId == None
    ensures RowEvolves(j, WithLatestRun(j, LatestRun(j).(mlflowRunId := Some(runId))))
  {
  }

  lemma SameEvolves(j: Job)
    requires RowOk(j)
    ensures RowEvolves(j, j)
  {
  }

  lemma HandlerStepEvolves(s: Sys, e: Step)
    requires JobsInv(s) && HandlerStep(e) && 0 <= Touched(s, e)
    ensures var job := Touched(s, e);
            |ApplyHandler(s, e).db| == |s.db| && job < |s.db| && RowEvolves(s.db[job], ApplyHandler(s, e).db[job])
  {
    var h := s.handlers[e.handler];
    var j := s.db[h.job];
    assert RowOk(j) && HandlerOk(j, h);
    SameEvolves(j);
    if e.Decide? && h.Deciding? {
      DecideEvolves(s, e.handler, e.now, e.ok);
    } else if e.Record? && h.Recording? {
      RecordStepEvolves(s, e.handler, e.ok);
    } else if e.Requeue? && h.Requeuing? {
      RequeueEvolves(s, e.handler, e.now, e.ok);
    } else if e.Recreate? && h.Recreating? {
      RecreateEvolves(s, e.handler, e.ok);
    }
  }

  lemma RequeueEvolves(s: Sys, h: nat, now: nat, ok: bool)
    requires JobsInv(s) && h in s.handlers && s.handlers[h].Requeuing?
    ensures var job := s.handlers[h].job; var t := ApplyRequeue(s, h, now, ok);
            |t.db| == |s.db| && job < |s.db| && RowEvolves(s.db[job], t.db[job])
  {
    var j := s.db[s.handlers[h].job];
    assert RowOk(j) && HandlerOk(j, s.handlers[h]);
    SameEvolves(j);
    TransitionEvolves(j, QUEUED, None, now);
  }

  lemma RecreateEvolves(s: Sys, h: nat, ok: bool)
    requires JobsInv(s) && h in s.handlers && s.handlers[h].Recreating?
    ensures var job := s.handlers[h].job; var t := ApplyRecreate(s, h, ok);
            |t.db| == |s.db| && job < |s.db| && RowEvolves(s.db[job], t.db[job])
  {
    var j := s.db[s.handlers[h].job];
    assert RowOk(j) && HandlerOk(j, s.handlers[h]);
    SameEvolves(j);
    assert RowEvolves(j, j.(runs := j.runs + [FreshRun(QUEUED)]));
  }

  lemma RecordStepEvolves(s: Sys, h: nat, ok: bool)
    requires JobsInv(s) && h in s.handlers && s.handlers[h].Recording?
    ensures var job := s.handlers[h].job; var t := ApplyRecord(s, h, ok);
            |t.db| == |s.db| && job < |s.db| && RowEvolves(s.db[job], t.db[job])
  {
  }

  lemma DecideEvolves(s: Sys, h: nat, now: nat, ok: bool)
    requires JobsInv(s) && h in s.handlers && s.handlers[h].Deciding?
    ensures var job := s.handlers[h].job; var t := ApplyDecide(s, h, now, ok);
            |t.db| == |s.db| && job < |s.db| && RowEvolves(s.db[job], t.db[job])
  {
  }

  /** Promotion and naming. */
  lemma DispatchStepEvolves(s: Sys, e: Step, i: nat)
    requires JobsInv(s) && i < |s.db| && (e.DispCommit? || e.DispName?)
    ensures |Apply(s, e).db| == |s.db| && RowEvolves(s.db[i], Apply(s, e).db[i])
  {
    assert RowOk(s.db[i]);
    SameEvolves(s.db[i]);
  }

  lemma RowStepEvolves(s: Sys, e: Step, i: nat)
    requires JobsInv(s) && i < |s.db|
    ensures |s.db| <= |Apply(s, e).db| && RowEvolves(s.db[i], Apply(s, e).db[i])
  {
    if i != Touched(s, e) {
      assert RowOk(s.db[i]);
      OnlyTouchedRowChanges(s, e, i);
      SameEvolves(s.db[i]);
    } else if HandlerStep(e) {
      HandlerStepEvolves(s, e);
    } else {
      DispatchStepEvolves(s, e, i);
    }
  }

  lemma StepEvolves(s: Sys, e: Step)
    requires JobsInv(s)
    ensures Evolves(s.db, Apply(s, e).db)
  {
    forall i | 0 <= i < |s.db| ensures |s.db| <= |Apply(s, e).db| && RowEvolves(s.db[i], Apply(s, e).db[i]) {
      RowStepEvolves(s, e, i);
    }
    if s.db == [] && !WritesJobs(e) {
      OtherStepsLeaveJobs(s, e);
    }
  }

  /** Over any run, no job disappears, its spec never changes, every run row but the latest is
      frozen, and a SUCCEEDED run with an MLflow id is frozen too. */
  lemma {:induction false} HistoryIsKept(s: Sys, es: seq<Step>)
    requires JobsInv(s)
    ensures Evolves(s.db, Exec(s, es).db)
    decreases |es|
  {
    if es == [] {
      forall i | 0 <= i < |s.db| ensures RowEvolves(s.db[i], s.db[i]) {
        assert RowOk(s.db[i]);
      }
    } else {
      var t := Apply(s, es[0]);
      JobsInvStep(s, es[0]);
      StepEvolves(s, es[0]);
      HistoryIsKept(t, es[1..]);
      forall i | 0 <= i < |s.db| ensures RowEvolves(s.db[i], Exec(t, es[1..]).db[i]) {
        RowEvolvesTransitive(s.db[i], t.db[i], Exec(t, es[1..]).db[i]);
      }
    }
  }

  /** The job has ended and no handler is still working on it. */
  predicate Settled(s: Sys, job: nat) {
    && job < |s.db| && s.db[job].status in {SUCCEEDED, FAILED}
    && forall h :: h in s.handlers && s.handlers[h].job == job ==> !HoldsJob(s.handlers[h])
  }

  /** A job that used up its retries is settled: reaching max_retries + 1 is final. */
  lemma {:induction false} ExhaustedIsSettled(s: Sys, job: nat)
    requires JobsInv(s) && job < |s.db| && s.db[job].retryCount == s.db[job].maxRetries + 1
    ensures Settled(s, job) && s.db[job].status == FAILED
  {
    assert RowOk(s.db[job]);
    forall h | h in s.handlers && s.handlers[h].job == job ensures !HoldsJob(s.handlers[h]) {
      assert HandlerOk(s.db[job], s.handlers[h]);
    }
  }

  lemma SettledStep(s: Sys, e: Step, job: nat)
    requires JobsInv(s) && Settled(s, job)
    ensures Settled(Apply(s, e), job) && Apply(s, e).db[job].(rayJobName := s.db[job].rayJobName) == s.db[job]
  {
    if HandlerStep(e) {
      SettledHandlerStep(s, e, job);
    } else if !WritesJobs(e) {
      OtherStepsLeaveJobs(s, e);
    } else {
      SettledDispatchStep(s, e, job);
    }
  }

  lemma SettledDispatchStep(s: Sys, e: Step, job: nat)
    requires Settled(s, job) && (e.SubmitInsert? || e.DispCommit? || e.DispName?)
    ensures Settled(Apply(s, e), job) && Apply(s, e).db[job].(rayJobName := s.db[job].rayJobName) == s.db[job]
  {
    assert Apply(s, e).handlers == s.handlers;
  }

  /** A handler that does not hold an ended job writes nothing to it. */
  lemma IdleHandlerWritesNothing(s: Sys, e: Step, job: nat)
    requires JobsInv(s) && Settled(s, job) && HandlerStep(e) && !e.Receive?
    requires e.handler in s.handlers && s.handlers[e.handler].job == job
    ensures ApplyHandler(s, e).db == s.db
    ensures ApplyHandler(s, e).handlers == s.handlers || ApplyHandler(s, e).handlers == s.handlers - {e.handler}
  {
    var h := s.handlers[e.handler];
    assert HandlerOk(s.db[job], h) && !HoldsJob(h);
    if e.Decide? && h.Deciding? {
      IdleDecision(s, e.handler, e.now, e.ok, job);
    }
  }

  /** The state machine lets nothing leave an ended job but a re-queue. */
  lemma IdleDecision(s: Sys, h: nat, now: nat, ok: bool, job: nat)
    requires JobsInv(s) && Settled(s, job) && h in s.handlers && s.handlers[h].Deciding? && s.handlers[h].job == job
    ensures ApplyDecide(s, h, now, ok).db == s.db && ApplyDecide(s, h, now, ok).handlers == s.handlers - {h}
  {
    assert HandlerOk(s.db[job], s.handlers[h]);
    var from := s.handlers[h].from;
    assert from in {SUCCEEDED, FAILED} ==> !ValidTransition(from, s.handlers[h].report.status);
  }

  lemma SettledHandlerStep(s: Sys, e: Step, job: nat)
    requires JobsInv(s) && Settled(s, job) && HandlerStep(e)
    ensures Settled(ApplyHandler(s, e), job) && ApplyHandler(s, e).db[job] == s.db[job]
  {
    if !e.Receive? && e.handler in s.handlers && s.handlers[e.handler].job == job {
      IdleHandlerWritesNothing(s, e, job);
    } else {
      HandlerTouches(s, e, job);
      OtherHandlersUnmoved(s, e, job);
    }
  }

  lemma OtherHandlersUnmoved(s: Sys, e: Step, job: nat)
    requires HandlerStep(e) && (e.Receive? || e.handler !in s.handlers || s.handlers[e.handler].job != job)
    ensures forall h :: h in ApplyHandler(s, e).handlers && ApplyHandler(s, e).handlers[h].job == job ==>
              if h in s.handlers then ApplyHandler(s, e).handlers[h] == s.handlers[h] else ApplyHandler(s, e).handlers[h].Deciding?
  {
    match e
    case Receive(_, _, _, _, _) =>
    case Decide(_, _, _) =>
    case Record(_, _) =>
    case Count(_, _) =>
    case Recreate(_, _) =>
    case Requeue(_, _, _) =>
    case HandlerCrash(_) =>
  }

  /** Once settled, a job's row changes no more, apart from rayjob_name. */
  lemma {:induction false} SettledForever(s: Sys, es: seq<Step>, job: nat)
    requires JobsInv(s) && Settled(s, job)
    ensures Settled(Exec(s, es), job)
    ensures Exec(s, es).db[job].(rayJobName := s.db[job].rayJobName) == s.db[job]
    decreases |es|
  {
    if es != [] {
      JobsInvStep(s, es[0]);
      SettledStep(s, es[0], job);
      SettledForever(Apply(s, es[0]), es[1..], job);
    }
  }
}
