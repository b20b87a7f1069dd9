/** Promotions happen in submission order. */
module JobFifo {
  import opened Prelude
  import opened Quota
  import opened Jobs
  import opened JobProtocol
  import opened JobHistory
  import opened JobDispatch

  /** The tenant's jobs in submission (created_at) order, among the first `n` rows. */
  function Submissions(db: Table, tenant: string, n: nat): seq<nat>
    requires n <= |db|
  {
    if n == 0 then [] else
      Submissions(db, tenant, n - 1) + if db[n - 1].tenant == tenant then [n - 1] else []
  }

  /** The tenant's jobs in the order in which the dispatcher promoted them. */
  function Promotions(log: seq<Commit>, db: Table, tenant: string): seq<nat> {
    if log == [] then [] else
      var c := log[|log| - 1];
      Promotions(log[..|log| - 1], db, tenant)
      + if c.from == PENDING && c.job < |db| && db[c.job].tenant == tenant then [c.job] else []
  }

  function StartedRows(db: Table, tenant: string, n: nat): seq<nat>
    requires n <= |db|
  {
    if n == 0 then [] else
      StartedRows(db, tenant, n - 1)
      + if db[n - 1].tenant == tenant && db[n - 1].status != PENDING then [n - 1] else []
  }

  /** Within a tenant, everything submitted before a started job is started. */
  predicate OldestFirst(db: Table) {
    forall i, j :: 0 <= i < j < |db| && db[i].tenant == db[j].tenant && db[j].status != PENDING ==> db[i].status != PENDING
  }

  ghost predicate FifoInv(s: Sys) {
    && OldestFirst(s.db)
    && (forall c :: c in s.log ==> c.job < |s.db|)
    && (forall tenant {:trigger Promotions(s.log, s.db, tenant)} ::
          Promotions(s.log, s.db, tenant) == StartedRows(s.db, tenant, |s.db|))
  }

  /** Two tables that agree on tenants and on who is PENDING; extra rows are PENDING. */
  predicate SamePending(a: Table, b: Table) {
    && |a| <= |b|
    && (forall i :: 0 <= i < |a| ==> b[i].tenant == a[i].tenant && (b[i].status == PENDING <==> a[i].status == PENDING))
    && (forall i :: |a| <= i < |b| ==> b[i].status == PENDING)
  }

  lemma {:induction false} StartedRowsSame(a: Table, b: Table, tenant: string, n: nat)
    requires SamePending(a, b) && n <= |b|
    ensures StartedRows(b, tenant, n) == StartedRows(a, tenant, if n <= |a| then n else |a|)
  {
    if n > 0 {
      StartedRowsSame(a, b, tenant, n - 1);
    }
  }

  lemma {:induction false} PromotionsSame(log: seq<Commit>, a: Table, b: Table, tenant: string)
    requires SamePending(a, b) && forall c :: c in log ==> c.job < |a|
    ensures Promotions(log, b, tenant) == Promotions(log, a, tenant)
    decreases |log|
  {
    if log != [] {
      assert log[|log| - 1] in log;
      PromotionsSame(log[..|log| - 1], a, b, tenant);
    }
  }

  /** Promoting the oldest PENDING job of a tenant adds exactly that job, at the end. */
  lemma {:induction false} StartedRowsPromoted(a: Table, b: Table, job: nat, tenant: string, n: nat)
    requires n <= |a| == |b| && job < |a| && OldestFirst(a) && IsOldestPending(a, a[job].tenant, job)
    requires b == a[job := b[job]] && b[job].tenant == a[job].tenant && b[job].status != PENDING
    ensures StartedRows(b, tenant, n) ==
            StartedRows(a, tenant, n) + if job < n && a[job].tenant == tenant then [job] else []
  {
    if n > 0 {
      StartedRowsPromoted(a, b, job, tenant, n - 1);
      if job < n - 1 && a[n - 1].tenant == tenant == a[job].tenant {
        assert a[n - 1].status == PENDING;
      }
    }
  }

  lemma OldestFirstPromoted(a: Table, b: Table, job: nat)
    requires |a| == |b| && job < |a| && OldestFirst(a) && IsOldestPending(a, a[job].tenant, job)
    requires b == a[job := b[job]] && b[job].tenant == a[job].tenant && b[job].status != PENDING
    ensures OldestFirst(b)
  {
  }

  lemma PromotionsAppend(log: seq<Commit>, c: Commit, db: Table, tenant: string)
    ensures Promotions(log + [c], db, tenant) == Promotions(log, db, tenant)
            + if c.from == PENDING && c.job < |db| && db[c.job].tenant == tenant then [c.job] else []
  {
  }

  lemma CommitKeepsFifo(s: Sys, ok: bool)
    requires DispInv(s) && FifoInv(s)
    ensures FifoInv(ApplyDispCommit(s, ok))
  {
    var t := ApplyDispCommit(s, ok);
    if t.log != s.log {
      var job := s.disp.job;
      OldestFirstPromoted(s.db, t.db, job);
      forall tenant {:trigger Promotions(t.log, t.db, tenant)}
        ensures Promotions(t.log, t.db, tenant) == StartedRows(t.db, tenant, |t.db|)
      {
        StartedRowsPromoted(s.db, t.db, job, tenant, |s.db|);
        PromotionsAppend(s.log, Commit(job, PENDING, QUEUED), t.db, tenant);
        TenantsDecidePromotions(s.log, s.db, t.db, tenant);
        assert Promotions(s.log, s.db, tenant) == StartedRows(s.db, tenant, |s.db|);
      }
    }
  }

  lemma {:induction false} TenantsDecidePromotions(log: seq<Commit>, a: Table, b: Table, tenant: string)
    requires |a| == |b| && forall i :: 0 <= i < |a| ==> b[i].tenant == a[i].tenant
    ensures Promotions(log, b, tenant) == Promotions(log, a, tenant)
    decreases |log|
  {
    if log != [] {
      TenantsDecidePromotions(log[..|log| - 1], a, b, tenant);
    }
  }

  lemma PendingUnchanged(s: Sys, e: Step)
    requires JobsInv(s) && !e.DispCommit?
    ensures SamePending(s.db, Apply(s, e).db)
  {
    var t := Apply(s, e);
    StepEvolves(s, e);
    forall i: nat | i < |t.db|
      ensures i < |s.db| ==> t.db[i].tenant == s.db[i].tenant && (t.db[i].status == PENDING <==> s.db[i].status == PENDING)
      ensures i >= |s.db| ==> t.db[i].status == PENDING
    {
      if i < |s.db| {
        assert RowEvolves(s.db[i], t.db[i]);
        if s.db[i].status == PENDING {
          PendingStays(s, e, i);
        }
      } else {
        NewRowUnnamed(s, e, i);
      }
    }
  }

  /** Only the dispatcher logs a transition out of PENDING. */
  lemma LogGrowth(s: Sys, e: Step) returns (added: Option<Commit>)
    requires JobsInv(s) && !e.DispCommit?
    ensures Apply(s, e).log == if added.Some? then s.log + [added.value] else s.log
    ensures added.Some? ==> added.value.job < |s.db| && added.value.from != PENDING
  {
    added := None;
    if e.Decide? {
      if Apply(s, e).log != s.log {
        var Deciding(job, from, _, report) := s.handlers[e.handler];
        assert HandlerOk(s.db[job], s.handlers[e.handler]);
        added := Some(Commit(job, from, report.status));
      }
    } else if e.Requeue? {
      if Apply(s, e).log != s.log {
        added := Some(Commit(s.handlers[e.handler].job, FAILED, QUEUED));
      }
    } else {
      OthersDoNotLog(s, e);
    }
  }

  lemma OthersDoNotLog(s: Sys, e: Step)
    requires !e.DispCommit? && !e.Decide? && !e.Requeue?
    ensures Apply(s, e).log == s.log
  {
    if !WritesJobs(e) {
      OtherStepsLeaveJobs(s, e);
    } else {
      match e
      case SubmitInsert(_, _, _) =>
      case DispName(_) =>
      case Receive(_, _, _, _, _) =>
      case Record(_, _) =>
      case Count(_, _) =>
      case Recreate(_, _) =>
      case HandlerCrash(_) =>
    }
  }

  lemma FifoStep(s: Sys, e: Step)
    requires JobsInv(s) && DispInv(s) && FifoInv(s)
    ensures FifoInv(Apply(s, e))
  {
    if e.DispCommit? {
      CommitKeepsFifo(s, e.ok);
    } else {
      OthersKeepFifo(s, e);
    }
  }

  lemma OthersKeepFifo(s: Sys, e: Step)
    requires JobsInv(s) && FifoInv(s) && !e.DispCommit?
    ensures FifoInv(Apply(s, e))
  {
    var t := Apply(s, e);
    var added := LogGrowth(s, e);
    PendingUnchanged(s, e);
    forall tenant {:trigger Promotions(t.log, t.db, tenant)}
      ensures Promotions(t.log, t.db, tenant) == StartedRows(t.db, tenant, |t.db|)
    {
      StartedRowsSame(s.db, t.db, tenant, |t.db|);
      PromotionsSame(s.log, s.db, t.db, tenant);
      assert Promotions(s.log, s.db, tenant) == StartedRows(s.db, tenant, |s.db|);
      if added.Some? {
        PromotionsAppend(s.log, added.value, t.db, tenant);
      }
    }
  }

  lemma {:induction false} FifoHolds(s: Sys, es: seq<Step>)
    requires JobsInv(s) && DispInv(s) && FifoInv(s)
    ensures FifoInv(Exec(s, es))
    decreases |es|
  {
    if es != [] {
      JobsInvStep(s, es[0]);
      DispInvStep(s, es[0]);
      FifoStep(s, es[0]);
      FifoHolds(Apply(s, es[0]), es[1..]);
    }
  }

  lemma {:induction false} StartedIsPrefix(db: Table, tenant: string, n: nat)
    requires n <= |db| && OldestFirst(db)
    ensures StartedRows(db, tenant, n) <= Submissions(db, tenant, n)
    ensures (exists i :: 0 <= i < n && db[i].tenant == tenant && db[i].status == PENDING)
            || StartedRows(db, tenant, n) == Submissions(db, tenant, n)
  {
    if n > 0 {
      StartedIsPrefix(db, tenant, n - 1);
    }
  }

  /** Per tenant, the sequence of promotions is a prefix of the sequence of submissions, in every
      run: concurrent submissions and reports, retries, refusals, faults and restarts included. */
  lemma PromotedInSubmissionOrder(quotas: map<string, TenantQuota>, retryDefault: nat, es: seq<Step>, tenant: string)
    ensures var s := Exec(Init(quotas, retryDefault), es);
            Promotions(s.log, s.db, tenant) <= Submissions(s.db, tenant, |s.db|)
  {
    var s := Exec(Init(quotas, retryDefault), es);
    FifoHolds(Init(quotas, retryDefault), es);
    assert Promotions(s.log, s.db, tenant) == StartedRows(s.db, tenant, |s.db|);
    StartedIsPrefix(s.db, tenant, |s.db|);
  }
}
