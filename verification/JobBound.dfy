/** How many status transitions a job can commit in its whole life. */
module JobBound {
  import opened Prelude
  import opened Quota
  import opened Jobs
  import opened JobProtocol
  import opened JobHistory
  import opened JobScripts

  function Commits(log: seq<Commit>, job: nat): (n: nat) {
    if log == [] then 0
    else Commits(log[..|log| - 1], job) + if log[|log| - 1].job == job then 1 else 0
  }

  lemma CommitsAppend(log: seq<Commit>, c: Commit, job: nat)
    ensures Commits(log + [c], job) == Commits(log, job) + if c.job == job then 1 else 0
  {
  }

  /** What a job with `retryCount` counted failures can have committed by each phase. */
  predicate RowBound(j: Job, n: nat) {
    match j.status
    case PENDING => n == 0
    case QUEUED => n <= 1 + 3 * j.retryCount
    case RUNNING => n <= 2 + 3 * j.retryCount
    case SUCCEEDED => n <= 3 + 3 * j.retryCount
    case FAILED => n <= if j.retryCount <= j.maxRetries then 3 + 3 * j.retryCount else 3 * j.retryCount
    case _ => true
  }

  predicate HandlerBound(j: Job, h: Handler, n: nat) {
    h.Recreating? || h.Requeuing? ==> n <= 3 * j.retryCount
  }

  predicate BoundInv(s: Sys) {
    && (forall c :: c in s.log ==> c.job < |s.db|)
    && (forall i :: 0 <= i < |s.db| ==> RowBound(s.db[i], Commits(s.log, i)))
    && (forall h :: h in s.handlers && s.handlers[h].job < |s.db| ==>
          HandlerBound(s.db[s.handlers[h].job], s.handlers[h], Commits(s.log, s.handlers[h].job)))
  }

  lemma NoCommitsYet(log: seq<Commit>, job: nat)
    requires forall c :: c in log ==> c.job < job
    ensures Commits(log, job) == 0
  {
    if log != [] {
      assert log[|log| - 1] in log;
      NoCommitsYet(log[..|log| - 1], job);
    }
  }

  /** The part of a step that matters here: one row, its commit count, and its handlers. */
  lemma BoundKept(s: Sys, s': Sys, job: nat, added: Option<Commit>)
    requires BoundInv(s) && job < |s.db| == |s'.db|
    requires forall i :: 0 <= i < |s.db| && i != job ==> s'.db[i] == s.db[i]
    requires s'.log == if added.Some? then s.log + [added.value] else s.log
    requires added.Some? ==> added.value.job == job
    requires RowBound(s'.db[job], Commits(s'.log, job))
    requires forall h :: h in s'.handlers && s'.handlers[h].job == job ==>
               HandlerBound(s'.db[job], s'.handlers[h], Commits(s'.log, job))
    requires forall h :: h in s'.handlers && s'.handlers[h].job != job ==> h in s.handlers && s'.handlers[h] == s.handlers[h]
    ensures BoundInv(s')
  {
  }

  lemma DecideBound(s: Sys, h: nat, now: nat, ok: bool)
    requires JobsInv(s) && BoundInv(s) && h in s.handlers && s.handlers[h].Deciding?
    ensures BoundInv(ApplyDecide(s, h, now, ok))
  {
    var s' := ApplyDecide(s, h, now, ok);
    var Deciding(job, from, maxRetries, report) := s.handlers[h];
    assert RowOk(s.db[job]) && HandlerOk(s.db[job], s.handlers[h]);
    if s'.db != s.db {
      CommitsAppend(s.log, Commit(job, from, report.status), job);
      LiveJobUnheld(s, job);
      BoundKept(s, s', job, Some(Commit(job, from, report.status)));
    } else {
      BoundKept(s, s', job, None);
    }
  }

  /** A counted failure raises the bounds of its job by more than it needs. */
  lemma CountFacts(s: Sys, h: nat, ok: bool, n: nat)
    requires h in s.handlers && s.handlers[h].Counting? && s.handlers[h].job < |s.db|
    requires s.db[s.handlers[h].job].runs != [] && HandlerOk(s.db[s.handlers[h].job], s.handlers[h]) && RowBound(s.db[s.handlers[h].job], n)
    ensures var job := s.handlers[h].job; var s' := ApplyCount(s, h, ok);
            && |s.db| == |s'.db| && s'.log == s.log && s'.handlers - {h} == s.handlers - {h}
            && (forall i :: 0 <= i < |s.db| && i != job ==> s'.db[i] == s.db[i])
            && RowBound(s'.db[job], n)
            && (s'.db[job] == s.db[job] || s'.db[job] == s.db[job].(retryCount := s.db[job].retryCount + 1))
            && (h in s'.handlers ==> s'.handlers[h] == Recreating(job) && HandlerBound(s'.db[job], s'.handlers[h], n))
  {
  }

  /** The same when only one handler of the job has moved, and no commit was added. */
  lemma BoundKeptBy(s: Sys, s': Sys, h: nat, job: nat)
    requires BoundInv(s) && job < |s.db| == |s'.db| && s'.log == s.log && s'.handlers - {h} == s.handlers - {h}
    requires h in s.handlers && s.handlers[h].job == job
    requires forall i :: 0 <= i < |s.db| && i != job ==> s'.db[i] == s.db[i]
    requires RowBound(s'.db[job], Commits(s.log, job)) && s.db[job].retryCount <= s'.db[job].retryCount
    requires h in s'.handlers ==> s'.handlers[h].job == job && HandlerBound(s'.db[job], s'.handlers[h], Commits(s.log, job))
    ensures BoundInv(s')
  {
    forall g | g in s'.handlers && g != h ensures g in s.handlers && s'.handlers[g] == s.handlers[g] {
      assert g in s'.handlers - {h} && s'.handlers[g] == (s'.handlers - {h})[g];
    }
    BoundKept(s, s', job, None);
  }

  lemma CountBound(s: Sys, h: nat, ok: bool)
    requires JobsInv(s) && BoundInv(s) && h in s.handlers && s.handlers[h].Counting?
    ensures BoundInv(ApplyCount(s, h, ok))
  {
    var job := s.handlers[h].job;
    assert RowOk(s.db[job]) && HandlerOk(s.db[job], s.handlers[h]);
    CountFacts(s, h, ok, Commits(s.log, job));
    BoundKeptBy(s, ApplyCount(s, h, ok), h, job);
  }

  lemma RequeueBound(s: Sys, h: nat, now: nat, ok: bool)
    requires JobsInv(s) && BoundInv(s) && h in s.handlers && s.handlers[h].Requeuing?
    ensures BoundInv(ApplyRequeue(s, h, now, ok))
  {
    var s' := ApplyRequeue(s, h, now, ok);
    var job := s.handlers[h].job;
    assert RowOk(s.db[job]) && HandlerOk(s.db[job], s.handlers[h]);
    assert HandlerBound(s.db[job], s.handlers[h], Commits(s.log, job));
    CommitsAppend(s.log, Commit(job, FAILED, QUEUED), job);
    BoundKept(s, s', job, if s'.log != s.log then Some(Commit(job, FAILED, QUEUED)) else None);
  }

  predicate QuietStep(s: Sys, e: Step) {
    && HandlerStep(e) && !e.Receive? && e.handler in s.handlers
    && !(e.Decide? && s.handlers[e.handler].Deciding?)
    && !(e.Count? && s.handlers[e.handler].Counting?)
    && !(e.Requeue? && s.handlers[e.handler].Requeuing?)
  }

  lemma QuietStepFacts(s: Sys, e: Step)
    requires QuietStep(s, e) && s.handlers[e.handler].job < |s.db|
    ensures var job := s.handlers[e.handler].job; var t := ApplyHandler(s, e);
            && t.log == s.log && |t.db| == |s.db|
            && t.db[job].status == s.db[job].status && t.db[job].retryCount == s.db[job].retryCount
            && t.db[job].maxRetries == s.db[job].maxRetries
    ensures forall h :: h in ApplyHandler(s, e).handlers && h != e.handler ==>
              h in s.handlers && ApplyHandler(s, e).handlers[h] == s.handlers[h]
    ensures e.handler in ApplyHandler(s, e).handlers ==>
              ApplyHandler(s, e).handlers[e.handler].job == s.handlers[e.handler].job
              && (ApplyHandler(s, e).handlers[e.handler] == s.handlers[e.handler] || ApplyHandler(s, e).handlers[e.handler].Counting?
                  || s.handlers[e.handler].Recreating?)
  {
    match e
    case Decide(_, _, _) =>
    case Record(_, _) =>
    case Count(_, _) =>
    case Recreate(_, _) =>
    case Requeue(_, _, _) =>
    case HandlerCrash(_) =>
  }

  lemma QuietStepBound(s: Sys, e: Step)
    requires JobsInv(s) && BoundInv(s) && QuietStep(s, e)
    ensures BoundInv(ApplyHandler(s, e))
  {
    var h := s.handlers[e.handler];
    var t := ApplyHandler(s, e);
    QuietStepFacts(s, e);
    assert HandlerBound(s.db[h.job], h, Commits(s.log, h.job));
    forall i: nat | i < |s.db| && i != h.job ensures t.db[i] == s.db[i] {
      HandlerTouches(s, e, i);
    }
    forall g | g in t.handlers && t.handlers[g].job == h.job
      ensures HandlerBound(t.db[h.job], t.handlers[g], Commits(t.log, h.job))
    {
      if g != e.handler {
        assert HandlerBound(s.db[h.job], s.handlers[g], Commits(s.log, h.job));
      }
    }
    BoundKept(s, t, h.job, None);
  }

  lemma ArrivalBound(s: Sys, e: Step)
    requires BoundInv(s) && HandlerStep(e) && (e.Receive? || e.handler !in s.handlers)
    ensures BoundInv(ApplyHandler(s, e))
  {
    if !e.Receive? {
      assert e.HandlerCrash? ==> s.handlers - {e.handler} == s.handlers;
      assert ApplyHandler(s, e) == s;
    }
  }

  lemma InsertBound(s: Sys, sub: nat, id: string, project: string)
    requires JobsInv(s) && BoundInv(s)
    ensures BoundInv(ApplySubmitInsert(s, sub, id, project))
  {
    NoCommitsYet(s.log, |s.db|);
  }

  lemma HandlerStepBound(s: Sys, e: Step)
    requires JobsInv(s) && BoundInv(s) && HandlerStep(e)
    ensures BoundInv(ApplyHandler(s, e))
  {
    if QuietStep(s, e) {
      QuietStepBound(s, e);
    } else if e.Receive? || e.handler !in s.handlers {
      ArrivalBound(s, e);
    } else if e.Decide? {
      DecideBound(s, e.handler, e.now, e.ok);
    } else if e.Count? {
      CountBound(s, e.handler, e.ok);
    } else {
      RequeueBound(s, e.handler, e.now, e.ok);
    }
  }

  lemma BoundStep(s: Sys, e: Step)
    requires JobsInv(s) && BoundInv(s)
    ensures BoundInv(Apply(s, e))
  {
    if HandlerStep(e) {
      HandlerStepBound(s, e);
    } else if e.SubmitInsert? {
      InsertBound(s, e.sub, e.id, e.project);
    } else if e.DispCommit? {
      PromoteBound(s, e.ok);
    } else if e.DispName? {
      NameBound(s, e.ok);
    } else {
      OtherStepsLeaveJobs(s, e);
    }
  }

  lemma NameBound(s: Sys, ok: bool)
    requires BoundInv(s)
    ensures BoundInv(Apply(s, DispName(ok)))
  {
  }

  lemma PromoteBound(s: Sys, ok: bool)
    requires JobsInv(s) && BoundInv(s)
    ensures BoundInv(ApplyDispCommit(s, ok))
  {
    var s' := ApplyDispCommit(s, ok);
    if s'.db != s.db {
      var job := s.disp.job;
      assert RowOk(s.db[job]);
      LiveJobUnheld(s, job);
      CommitsAppend(s.log, Commit(job, PENDING, QUEUED), job);
      BoundKept(s, s', job, Some(Commit(job, PENDING, QUEUED)));
    }
  }

  lemma {:induction false} BoundHolds(s: Sys, es: seq<Step>)
    requires JobsInv(s) && BoundInv(s)
    ensures JobsInv(Exec(s, es)) && BoundInv(Exec(s, es))
    decreases |es|
  {
    if es != [] {
      JobsInvStep(s, es[0]);
      BoundStep(s, es[0]);
      BoundHolds(Apply(s, es[0]), es[1..]);
    }
  }

  /** A job commits at most 3 * (max_retries + 1) status transitions in any run. */
  lemma TransitionBound(quotas: map<string, TenantQuota>, retryDefault: nat, es: seq<Step>, job: nat)
    ensures var s := Exec(Init(quotas, retryDefault), es);
            job < |s.db| ==> Commits(s.log, job) <= 3 * (s.db[job].maxRetries + 1)
  {
    var s := Exec(Init(quotas, retryDefault), es);
    BoundHolds(Init(quotas, retryDefault), es);
    if job < |s.db| {
      assert RowOk(s.db[job]) && RowBound(s.db[job], Commits(s.log, job));
    }
  }

  // ---------------------------------------------------------------- the bound is reached

  predicate AtAttempt(s: Sys, m: nat, c: nat, status: Status, n: nat) {
    && |s.db| == 1 && s.handlers == map[] && s.db[0].runs != []
    && s.db[0].status == status && s.db[0].retryCount == c && s.db[0].maxRetries == m
    && Commits(s.log, 0) == n
  }

  lemma Starts(s: Sys, m: nat, c: nat, n: nat) returns (t: Sys, es: seq<Step>)
    requires AtAttempt(s, m, c, QUEUED, n)
    ensures t == Exec(s, es) && AtAttempt(t, m, c, RUNNING, n + 1)
  {
    t, es := Reports(s, 0, 0, "Running", 0);
    CommitsAppend(s.log, Commit(0, QUEUED, RUNNING), 0);
  }

  lemma Fails(s: Sys, m: nat, c: nat, n: nat) returns (t: Sys, es: seq<Step>)
    requires AtAttempt(s, m, c, RUNNING, n)
    ensures t == Exec(s, es) && t.handlers == map[0 := Counting(0, m)]
    ensures AtAttempt(t.(handlers := map[]), m, c, FAILED, n + 1)
  {
    t, es := Reports(s, 0, 0, "Failed", 0);
    CommitsAppend(s.log, Commit(0, RUNNING, FAILED), 0);
  }

  lemma Retries(s: Sys, m: nat, c: nat, n: nat) returns (t: Sys, es: seq<Step>)
    requires c < m && s.handlers == map[0 := Counting(0, m)]
    requires AtAttempt(s.(handlers := map[]), m, c, FAILED, n)
    ensures t == Exec(s, es) && AtAttempt(t, m, c + 1, QUEUED, n + 1)
  {
    t, es := Requeues(s, 0, 0, 0);
    CommitsAppend(s.log, Commit(0, FAILED, QUEUED), 0);
  }

  /** From attempt `c`, failing every attempt uses up the whole budget. */
  lemma {:induction false} FailsToTheEnd(s: Sys, m: nat, c: nat) returns (t: Sys, es: seq<Step>)
    requires c <= m && AtAttempt(s, m, c, QUEUED, 1 + 3 * c)
    ensures t == Exec(s, es) && |t.db| == 1 && Commits(t.log, 0) == 3 * (m + 1)
    decreases m - c
  {
    var s1, e1 := Starts(s, m, c, 1 + 3 * c);
    var s2, e2 := Fails(s1, m, c, 2 + 3 * c);
    ExecConcat(s, e1, e2);
    if c == m {
      t, es := s2, e1 + e2;
    } else {
      var s3, e3 := Retries(s2, m, c, 3 + 3 * c);
      ExecConcat(s, e1 + e2, e3);
      var rest;
      t, rest := FailsToTheEnd(s3, m, c + 1);
      ExecConcat(s, e1 + e2 + e3, rest);
      es := e1 + e2 + e3 + rest;
    }
  }

  /** Submitting and promoting one job of an unlimited tenant. */
  lemma OneJobQueued(m: nat) returns (t: Sys, es: seq<Step>)
    ensures t == Exec(Init(map["t" := TenantQuota(0, 0)], m), es) && AtAttempt(t, m, 0, QUEUED, 1)
  {
    var res := JobResources(1, 1, 1, 1, 1);
    var s0 := Init(map["t" := TenantQuota(0, 0)], m);
    var s1, a := Submits(s0, 0, "t", res, "j", "p");
    var s2, b := Promotes(s1, "t", 0);
    ExecConcat(s0, a, b);
    CommitsAppend([], Commit(0, PENDING, QUEUED), 0);
    t, es := s2, a + b;
  }

  /** The bound is tight: for every max_retries some run commits exactly that many transitions. */
  lemma TransitionBoundIsTight(m: nat) returns (es: seq<Step>)
    ensures var s := Exec(Init(map["t" := TenantQuota(0, 0)], m), es);
            |s.db| == 1 && Commits(s.log, 0) == 3 * (m + 1)
  {
    var s0 := Init(map["t" := TenantQuota(0, 0)], m);
    var s, first := OneJobQueued(m);
    var t, rest := FailsToTheEnd(s, m, 0);
    ExecConcat(s0, first, rest);
    es := first + rest;
  }
}
