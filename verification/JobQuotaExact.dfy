/** Where the quota guarantee stops: the retry window and int64 overflow. */
module JobQuotaExact {
  import opened Prelude
  import opened Quota
  import opened Jobs
  import opened JobProtocol
  import opened JobHistory
  import opened JobDispatch
  import opened JobScripts
  import opened JobQuota

  predicate OnlyHandlers(es: seq<Step>) {
    forall k :: 0 <= k < |es| ==> HandlerStep(es[k])
  }

  /** `t` is `s` after handler `h` finished its retry sequence on job `i`. */
  predicate Finished(s: Sys, t: Sys, i: nat, h: nat) {
    && |t.db| == |s.db| && t.handlers == s.handlers - {h} && i < |s.db| && Active(t.db[i].status)
    && t.db[i].res == s.db[i].res && t.db[i].tenant == s.db[i].tenant
    && forall k :: 0 <= k < |s.db| && k != i ==> t.db[k] == s.db[k]
  }

  lemma FinishesRequeuing(s: Sys, i: nat, h: nat)
    requires i < |s.db| && h in s.handlers && s.handlers[h] == Requeuing(i) && s.db[i].status == FAILED
    ensures Finished(s, Exec(s, [Requeue(h, 0, true)]), i, h)
  {
    var e := Requeue(h, 0, true);
    assert Exec(s, [e]) == Exec(Apply(s, e), []);
    var row := TransitionRow(s.db[i], QUEUED, None, 0);
    assert ApplyRequeue(s, h, 0, true).db == s.db[i := row];
  }

  lemma FinishesRecreating(s: Sys, i: nat, h: nat)
    requires i < |s.db| && h in s.handlers && s.handlers[h] == Recreating(i) && s.db[i].status == FAILED
    ensures Finished(s, Exec(s, [Recreate(h, true), Requeue(h, 0, true)]), i, h)
  {
    var es := [Recreate(h, true), Requeue(h, 0, true)];
    var s1 := Apply(s, es[0]);
    assert s1 == s.(db := WithRetryRun(s.db, i), handlers := s.handlers[h := Requeuing(i)]);
    FinishesRequeuing(s1, i, h);
    assert es[1..] == [es[1]];
    assert s1.handlers - {h} == s.handlers - {h};
  }

  lemma FinishesCounting(s: Sys, i: nat, h: nat)
    requires i < |s.db| && h in s.handlers && s.handlers[h] == Counting(i, s.db[i].maxRetries)
    requires s.db[i].status == FAILED && s.db[i].retryCount < s.db[i].maxRetries
    ensures Finished(s, Exec(s, [Count(h, true), Recreate(h, true), Requeue(h, 0, true)]), i, h)
  {
    var t, es := Requeues(s, h, i, 0);
  }

  lemma FinishesRecording(s: Sys, i: nat, h: nat, report: Report)
    requires i < |s.db| && h in s.handlers && s.handlers[h] == Recording(i, s.db[i].maxRetries, report)
    requires report.status == FAILED && report.mlflowRunId == None
    requires s.db[i].status == FAILED && s.db[i].retryCount < s.db[i].maxRetries
    ensures Finished(s, Exec(s, [Record(h, true), Count(h, true), Recreate(h, true), Requeue(h, 0, true)]), i, h)
  {
    var es := [Record(h, true), Count(h, true), Recreate(h, true), Requeue(h, 0, true)];
    var s1 := Apply(s, es[0]);
    assert s1 == s.(handlers := s.handlers[h := Counting(i, s.db[i].maxRetries)]);
    FinishesCounting(s1, i, h);
    assert es[1..] == [es[1], es[2], es[3]];
    assert s1.handlers - {h} == s.handlers - {h};
  }

  /** A handler inside the retry window can finish. */
  lemma FinishesRetry(s: Sys, i: nat, h: nat) returns (t: Sys, es: seq<Step>)
    requires JobsInv(s) && i < |s.db| && h in s.handlers && s.handlers[h].job == i && WillRequeue(s.db[i], s.handlers[h])
    ensures t == Exec(s, es) && OnlyHandlers(es) && Finished(s, t, i, h)
  {
    assert HandlerOk(s.db[i], s.handlers[h]) && RowOk(s.db[i]);
    match s.handlers[h] {
    case Recording(_, _, report) =>
      FinishesRecording(s, i, h, report);
      es := [Record(h, true), Count(h, true), Recreate(h, true), Requeue(h, 0, true)];
    case Counting(_, _) =>
      FinishesCounting(s, i, h);
      es := [Count(h, true), Recreate(h, true), Requeue(h, 0, true)];
    case Recreating(_) =>
      FinishesRecreating(s, i, h);
      es := [Recreate(h, true), Requeue(h, 0, true)];
    case Requeuing(_) =>
      FinishesRequeuing(s, i, h);
      es := [Requeue(h, 0, true)];
    }
    t := Exec(s, es);
  }

  function Waiting(s: Sys, tenant: string): set<nat> {
    Reserved(s, tenant) - ActiveJobs(s.db, tenant)
  }

  predicate StillReserved(s: Sys, t: Sys, tenant: string) {
    |t.db| == |s.db| && (forall k :: 0 <= k < |s.db| ==> t.db[k].res == s.db[k].res)
    && forall k :: k in Reserved(s, tenant) ==> k in Reserved(t, tenant)
  }

  lemma SomeoneWaits(s: Sys, tenant: string) returns (i: nat, h: nat)
    requires Waiting(s, tenant) != {}
    ensures i in Waiting(s, tenant) && i < |s.db|
    ensures h in s.handlers && s.handlers[h].job == i && WillRequeue(s.db[i], s.handlers[h])
  {
    i :| i in Waiting(s, tenant);
    h :| h in s.handlers && s.handlers[h].job == i && WillRequeue(s.db[i], s.handlers[h]);
  }

  lemma OneFinishes(s: Sys, tenant: string) returns (t: Sys, es: seq<Step>)
    requires JobsInv(s) && Waiting(s, tenant) != {}
    ensures t == Exec(s, es) && OnlyHandlers(es) && StillReserved(s, t, tenant)
    ensures |Waiting(t, tenant)| < |Waiting(s, tenant)|
  {
    var i, h := SomeoneWaits(s, tenant);
    t, es := FinishesRetry(s, i, h);
    FewerWaiting(s, t, i, h, tenant);
  }

  lemma StillReservedTransitive(a: Sys, b: Sys, c: Sys, tenant: string)
    requires StillReserved(a, b, tenant) && StillReserved(b, c, tenant)
    ensures StillReserved(a, c, tenant)
  {
  }

  /** Every reserved job can become active by handler steps alone. */
  lemma {:induction false} Drains(s: Sys, tenant: string) returns (t: Sys, es: seq<Step>)
    requires JobsInv(s)
    ensures t == Exec(s, es) && OnlyHandlers(es) && StillReserved(s, t, tenant) && Waiting(t, tenant) == {}
    decreases |Waiting(s, tenant)|
  {
    if Waiting(s, tenant) == {} {
      t, es := s, [];
    } else {
      var s1, e1 := OneFinishes(s, tenant);
      JobRunAgreement(s, e1);
      var rest;
      t, rest := Drains(s1, tenant);
      ExecConcat(s, e1, rest);
      StillReservedTransitive(s, s1, t, tenant);
      es := e1 + rest;
    }
  }

  lemma FewerWaiting(s: Sys, s1: Sys, i: nat, h: nat, tenant: string)
    requires JobsInv(s) && Finished(s, s1, i, h) && h in s.handlers && s.handlers[h].job == i
    requires i in Waiting(s, tenant)
    ensures forall k :: k in Reserved(s, tenant) ==> k in Reserved(s1, tenant)
    ensures |Waiting(s1, tenant)| < |Waiting(s, tenant)|
  {
    forall k | k in Reserved(s, tenant) ensures k in Reserved(s1, tenant) {
      StaysReserved(s, s1, i, h, k);
    }
    forall k | k in Waiting(s1, tenant)
      ensures k in Waiting(s, tenant) && k != i
    {
      WasWaiting(s, s1, i, h, k);
    }
    SmallerSet(Waiting(s1, tenant), Waiting(s, tenant), i);
  }

  lemma WasWaiting(s: Sys, s1: Sys, i: nat, h: nat, k: nat)
    requires Finished(s, s1, i, h) && k < |s1.db| && !Active(s1.db[k].status) && InRetryWindow(s1, k)
    ensures k != i && !Active(s.db[k].status) && InRetryWindow(s, k)
  {
  }

  lemma StaysReserved(s: Sys, s1: Sys, i: nat, h: nat, k: nat)
    requires Finished(s, s1, i, h) && h in s.handlers && s.handlers[h].job == i
    requires k < |s.db| && (Active(s.db[k].status) || InRetryWindow(s, k))
    ensures Active(s1.db[k].status) || InRetryWindow(s1, k)
  {
    if k != i && !Active(s.db[k].status) {
      var g :| g in s.handlers && s.handlers[g].job == k && WillRequeue(s.db[k], s.handlers[g]);
      assert g in s1.handlers && WillRequeue(s1.db[k], s1.handlers[g]);
    }
  }

  lemma SmallerSet(a: set<nat>, b: set<nat>, x: nat)
    requires x in b && x !in a && forall k :: k in a ==> k in b
    ensures |a| < |b|
  {
    var both := a + (b - a);
    assert both == b && a !! (b - a);
    assert x in b - a;
    assert |b| == |a| + |b - a|;
    assert b - a != {};
  }

  lemma {:induction false} HandlersNeverAddLoad(s: Sys, es: seq<Step>, tenant: string, d: Dim)
    requires JobsInv(s) && DispInv(s) && Fitted(s) && OnlyHandlers(es)
    ensures Usage(Exec(s, es).db, tenant, d) <= Load(s.db, Reserved(s, tenant), d, |s.db|)
    decreases |es|
  {
    if es == [] {
      UsageWithinReserved(s, tenant, d);
    } else {
      var e := es[0];
      var t := Apply(s, e);
      assert HandlerStep(e) && forall k :: 0 <= k < |es[1..]| ==> es[1..][k] == es[k + 1];
      JobsInvStep(s, e);
      DispInvStep(s, e);
      FittedStep(s, e);
      ReservedAfter(s, e, tenant);
      LoadAfterStep(s, e, Reserved(s, tenant), Reserved(t, tenant), d);
      HandlersNeverAddLoad(t, es[1..], tenant, d);
    }
  }

  lemma SomeHandlersReachReserved(s: Sys, tenant: string, d: Dim) returns (es: seq<Step>)
    requires JobsInv(s) && Fitted(s)
    ensures OnlyHandlers(es) && Usage(Exec(s, es).db, tenant, d) >= Load(s.db, Reserved(s, tenant), d, |s.db|)
  {
    var t;
    t, es := Drains(s, tenant);
    forall k | k in Reserved(s, tenant) ensures k in ActiveJobs(t.db, tenant) {
      assert k !in Waiting(t, tenant);
    }
    LoadMonotone(s.db, t.db, Reserved(s, tenant), ActiveJobs(t.db, tenant), d, |s.db|);
  }

  predicate StaysWithin(s: Sys, es: seq<Step>, tenant: string, d: Dim, limit: int) {
    OnlyHandlers(es) ==> Usage(Exec(s, es).db, tenant, d) <= limit
  }

  /** The retry window exactly: whatever report handlers still do, the tenant stays within `limit`
      if and only if its active jobs and its jobs inside the window fit together. So a quota reading
      that omits the window jobs, as ListActiveJobs does, is right exactly when their absence does
      not matter. */
  lemma RetryWindowExact(s: Sys, tenant: string, d: Dim, limit: int)
    requires JobsInv(s) && DispInv(s) && Fitted(s)
    ensures Load(s.db, Reserved(s, tenant), d, |s.db|) <= limit <==>
            forall es :: StaysWithin(s, es, tenant, d, limit)
  {
    if Load(s.db, Reserved(s, tenant), d, |s.db|) <= limit {
      forall es ensures StaysWithin(s, es, tenant, d, limit) {
        if OnlyHandlers(es) {
          HandlersNeverAddLoad(s, es, tenant, d);
        }
      }
    } else {
      var es := SomeHandlersReachReserved(s, tenant, d);
      assert !StaysWithin(s, es, tenant, d, limit);
    }
  }

  /** The CPU that a job asks for, its head included. */
  function CpuOf(r: JobResources): int { r.numWorkers * r.workerCpu + r.headCpu }

  lemma ListedOne(j: Job, withPending: bool)
    ensures ResourcesOf([j], j.tenant, withPending) ==
            if Active(j.status) || (withPending && j.status == PENDING) then [j.res] else []
  {
  }

  lemma CpuAccepted(limit: int, active: seq<JobResources>, r: JobResources)
    requires DimAccepts(limit, Total(active, Cpu), CpuOf(r))
    ensures Accepts(TenantQuota(limit, 0), active, r)
  {
  }

  lemma CpuTotal(r: JobResources)
    ensures Total([r], Cpu) == CpuOf(r)
  {
  }

  /** One job is submitted and launched. */
  function LaunchScript(r: JobResources): seq<Step> {
    [SubmitCheck(0, "t", r), SubmitInsert(0, "a", "p")] + [DispPick("t"), DispCheck, DispCommit(true)]
    + [DispCreate(Reached), DispName(true)]
  }

  /** The state after that. */
  lemma Launched(limit: int, m: nat, r: JobResources) returns (t: Sys, es: seq<Step>)
    requires DimAccepts(limit, 0, CpuOf(r)) && Admit(r)
    ensures t.quotas == map["t" := TenantQuota(limit, 0)] && t.retryDefault == m
    ensures t.disp == Ready([]) && t.handlers == map[] && t.subs == map[]
    ensures |t.db| == 1 && t.db[0].id == "a" && t.db[0].tenant == "t" && t.db[0].res == r
    ensures t.db[0].status == QUEUED && t.db[0].retryCount == 0 && t.db[0].maxRetries == m && t.db[0].rayJobName.Some?
    ensures es == LaunchScript(r) && t == Exec(Init(map["t" := TenantQuota(limit, 0)], m), es)
  {
    var s0 := Init(map["t" := TenantQuota(limit, 0)], m);
    var s1, e1 := Submitted(limit, m, r);
    CpuAccepted(limit, [], r);
    ListedOne(s1.db[0], false);
    var s2, e2 := Promotes(s1, "t", 0);
    var s3, e3 := Launches(s2, 0, []);
    ExecConcat(s0, e1, e2);
    ExecConcat(s0, e1 + e2, e3);
    t, es := s3, e1 + e2 + e3;
  }

  lemma Submitted(limit: int, m: nat, r: JobResources) returns (t: Sys, es: seq<Step>)
    requires DimAccepts(limit, 0, CpuOf(r)) && Admit(r)
    ensures es == [SubmitCheck(0, "t", r), SubmitInsert(0, "a", "p")]
    ensures t == Exec(Init(map["t" := TenantQuota(limit, 0)], m), es)
    ensures t == Init(map["t" := TenantQuota(limit, 0)], m).(db := [Job("a", "t", "p", r, PENDING, None, 0, m, [FreshRun(PENDING)])])
  {
    CpuAccepted(limit, [], r);
    t, es := Submits(Init(map["t" := TenantQuota(limit, 0)], m), 0, "t", r, "a", "p");
  }

  /** A pending second job is not among the active ones. */
  lemma SecondListed(a: Table, b: Table)
    requires |a| == 1 && |b| == 2 && b[0] == a[0] && b[1].tenant == a[0].tenant == "t" && b[1].status == PENDING
    ensures ResourcesOf(b, "t", false) == ResourcesOf(a, "t", false)
  {
  }

  /** Submitting and promoting a second job "b" when the quota readings see only
      the resources `seen` of the first job. */
  lemma SecondJob(s: Sys, limit: int, r: JobResources, seen: seq<JobResources>) returns (t: Sys, es: seq<Step>)
    requires |s.db| == 1 && s.db[0].id == "a" && s.db[0].tenant == "t" && s.db[0].status != PENDING
    requires s.quotas == map["t" := TenantQuota(limit, 0)] && s.disp == Ready([]) && s.subs == map[]
    requires ResourcesOf(s.db, "t", true) == seen && ResourcesOf(s.db, "t", false) == seen
    requires DimAccepts(limit, Total(seen, Cpu), CpuOf(r)) && Admit(r)
    ensures t == Exec(s, es) && |t.db| == 2 && t.db[0] == s.db[0] && t.handlers == s.handlers
    ensures t.db[1].tenant == "t" && t.db[1].res == r && t.db[1].status == QUEUED
  {
    CpuAccepted(limit, seen, r);
    var s1, e1 := Submits(s, 0, "t", r, "b", "p");
    SecondListed(s.db, s1.db);
    var s2, e2 := Promotes(s1, "t", 1);
    ExecConcat(s, e1, e2);
    t, es := s2, e1 + e2;
  }

  lemma UsageOfTwo(db: Table)
    requires |db| == 2 && db[0].tenant == db[1].tenant == "t" && Active(db[0].status) && Active(db[1].status)
    ensures Usage(db, "t", Cpu) == Demand(db[0].res, Cpu) + Demand(db[1].res, Cpu)
  {
    assert ActiveJobs(db, "t") == {0, 1};
    assert Load(db, {0, 1}, Cpu, 0) == 0;
    assert Load(db, {0, 1}, Cpu, 1) == Demand(db[0].res, Cpu);
  }

  lemma FailedIsNotListed(db: Table)
    requires |db| == 1 && db[0].status == FAILED && db[0].tenant == "t"
    ensures ResourcesOf(db, "t", true) == [] && ResourcesOf(db, "t", false) == []
  {
  }

  function FailScript(r: JobResources): seq<Step> {
    LaunchScript(r) + [Receive(0, 0, "Failed", None, ""), Decide(0, 0, true), Record(0, true)]
  }

  /** One launched job, reported FAILED, whose handler is about to count the retry. */
  lemma FailedInWindow(limit: int, r: JobResources) returns (t: Sys, es: seq<Step>)
    requires DimAccepts(limit, 0, CpuOf(r)) && Admit(r)
    ensures es == FailScript(r) && t == Exec(Init(map["t" := TenantQuota(limit, 0)], 1), es)
    ensures t.quotas == map["t" := TenantQuota(limit, 0)] && t.disp == Ready([]) && t.subs == map[]
    ensures |t.db| == 1 && t.db[0].id == "a" && t.db[0].tenant == "t" && t.db[0].res == r
    ensures t.db[0].status == FAILED && t.db[0].retryCount == 0 && t.db[0].maxRetries == 1 && t.db[0].rayJobName.Some?
    ensures t.handlers == map[0 := Counting(0, 1)]
  {
    var s1, e1 := Launched(limit, 1, r);
    var e2;
    t, e2 := Reports(s1, 0, 0, "Failed", 0);
    ExecConcat(Init(map["t" := TenantQuota(limit, 0)], 1), e1, e2);
    es := e1 + e2;
  }

  /** Two jobs that each fit but do not fit together, whatever they ask for their workers and their
      heads, both become active when the second is submitted and promoted between the first one's FAILED
      and its re-queue. */
  lemma RetryWindowOvershoots(limit: int, a: JobResources, b: JobResources) returns (es: seq<Step>)
    requires a.numWorkers >= 1 && 0 < a.numWorkers * a.workerCpu + a.headCpu <= limit
    requires b.numWorkers >= 1 && 0 < b.numWorkers * b.workerCpu + b.headCpu <= limit <= MAX_INT64
    requires limit < a.numWorkers * a.workerCpu + a.headCpu + (b.numWorkers * b.workerCpu + b.headCpu)
    ensures Usage(Exec(Init(map["t" := TenantQuota(limit, 0)], 1), es).db, "t", Cpu) > limit
    ensures var db := Exec(Init(map["t" := TenantQuota(limit, 0)], 1), es).db;
            |db| == 2 && db[0].tenant == db[1].tenant == "t" && db[0].status == db[1].status == QUEUED && db[0].res == a && db[1].res == b
  {
    var s1, e1 := FailedInWindow(limit, a);
    FailedIsNotListed(s1.db);
    var s2, e2 := SecondJob(s1, limit, b, []);
    var s3, e3 := Requeues(s2, 0, 0, 0);
    UsageOfTwo(s3.db);
    ExecConcat(Init(map["t" := TenantQuota(limit, 0)], 1), e1, e2);
    ExecConcat(Init(map["t" := TenantQuota(limit, 0)], 1), e1 + e2, e3);
    es := e1 + e2 + e3;
  }

  /** The int64 condition in Fits is needed: whenever a demand added to the quota passes MAX_INT64,
      a tenant that already uses its whole quota gets the job admitted and promoted as well. */
  lemma OverflowOvershoots(limit: int, a: JobResources, b: JobResources) returns (es: seq<Step>)
    requires a.numWorkers >= 1 && 0 < a.numWorkers * a.workerCpu + a.headCpu == limit <= MAX_INT64
    requires b.numWorkers >= 1 && 0 < b.numWorkers * b.workerCpu + b.headCpu <= MAX_INT64
    requires MAX_INT64 < limit + (b.numWorkers * b.workerCpu + b.headCpu)
    ensures Usage(Exec(Init(map["t" := TenantQuota(limit, 0)], 0), es).db, "t", Cpu) == limit + (b.numWorkers * b.workerCpu + b.headCpu)
  {
    var s0 := Init(map["t" := TenantQuota(limit, 0)], 0);
    var s1, e1 := Launched(limit, 0, a);
    ListedOne(s1.db[0], true);
    ListedOne(s1.db[0], false);
    assert s1.db == [s1.db[0]];
    CpuTotal(a);
    CheckExactUnlessOverflow(limit, limit, CpuOf(b));
    var s2, e2 := SecondJob(s1, limit, b, [a]);
    UsageOfTwo(s2.db);
    ExecConcat(s0, e1, e2);
    es := e1 + e2;
  }
}
