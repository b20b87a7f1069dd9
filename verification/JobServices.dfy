/** The processes that drive the job protocol, as code: the dispatcher
    (control-plane/internal/jobs/dispatcher.go), the report handler
    (control-plane/internal/api/internal.go), the submission handler
    (control-plane/internal/api/jobs.go) and the RayJob reconciler of the operator
    (operator/internal/reconciler/rayjob_reconciler.go).

    Each method is proved to do exactly what a fixed list of protocol steps does, so every theorem
    about runs of the protocol holds of the code, whichever calls fail. */
module JobServices {
  import opened Prelude
  import opened Quota
  import opened Jobs
  import opened JobProtocol
  import opened JobStore
  import opened JobTick
  import opened JobOutcomes

  /** The system as the control plane sees it between two of its own actions. */
  ghost function View(store: PostgresJobStore, cluster: Cluster, quotas: map<string, TenantQuota>, retryDefault: nat): Sys
    reads store, cluster
  {
    Sys(store.rows, quotas, retryDefault, cluster.rayJobs, Ready([]), map[], map[], store.log)
  }

  /** One more entry of the retry list. */
  lemma RetryIteration(before: Sys, here: Sys, after: Sys, pending: seq<nat>, k: nat, faults: nat -> LaunchFaults)
    requires k < |pending| && here.disp == Ready(pending[k..])
    requires Exec(before, [DispList] + RetrySteps(k, faults)) == here
    requires after == Exec(here.(disp := Submitting(pending[k], pending[k + 1..])), LaunchSteps(faults(k)))
    ensures Exec(before, [DispList] + RetrySteps(k + 1, faults)) == after
  {
    var steps := [DispTake] + LaunchSteps(faults(k));
    assert steps[1..] == LaunchSteps(faults(k)) && pending[k..][1..] == pending[k + 1..];
    assert Apply(here, DispTake) == here.(disp := Submitting(pending[k], pending[k + 1..]));
    ExecConcat(before, [DispList] + RetrySteps(k, faults), steps);
    assert [DispList] + RetrySteps(k + 1, faults) == [DispList] + RetrySteps(k, faults) + steps;
  }

  /** Equal but for the recorded RayJob names. */
  predicate SameButNames(a: Table, b: Table) {
    |a| == |b| && forall i :: 0 <= i < |a| ==> a[i].(rayJobName := None) == b[i].(rayJobName := None)
  }

  predicate AllSubmitted(db: Table) {
    forall i :: 0 <= i < |db| && db[i].status == QUEUED ==> db[i].rayJobName.Some?
  }

  lemma SameTenantsWaiting(a: Table, b: Table)
    requires SameButNames(a, b)
    ensures forall i :: 0 <= i < |a| ==> a[i].tenant == b[i].tenant && a[i].status == b[i].status
  {
  }

  predicate OnlyListedUnsubmitted(db: Table, list: seq<nat>) {
    forall i :: 0 <= i < |db| && Unsubmitted(db[i]) ==> i in list
  }

  lemma NoneLeft(db: Table, list: seq<nat>)
    requires OnlyListedUnsubmitted(db, list) && list == []
    ensures AllSubmitted(db)
  {
  }

  lemma ListShrinks(a: Table, b: Table, pending: seq<nat>, k: nat)
    requires k < |pending| && pending[k] < |a| == |b| && b[pending[k]].rayJobName.Some?
    requires forall i :: 0 <= i < |a| && i != pending[k] ==> b[i] == a[i]
    ensures OnlyListedUnsubmitted(a, pending[k..]) ==> OnlyListedUnsubmitted(b, pending[k + 1..])
  {
  }

  lemma SameButNamesTransitive(a: Table, b: Table, c: Table)
    requires SameButNames(a, b) && SameButNames(b, c)
    ensures SameButNames(a, c)
  {
  }

  class JobDispatcher {
    const store: PostgresJobStore
    const cluster: Cluster
    const quotas: map<string, TenantQuota>
    const retryDefault: nat

    constructor (store: PostgresJobStore, cluster: Cluster, quotas: map<string, TenantQuota>, retryDefault: nat)
      ensures this.store == store && this.cluster == cluster && this.quotas == quotas && this.retryDefault == retryDefault
    {
      this.store, this.cluster, this.quotas, this.retryDefault := store, cluster, quotas, retryDefault;
    }

    ghost function Now(): Sys
      reads store, cluster
    {
      View(store, cluster, quotas, retryDefault)
    }

    method SubmitRayJob(job: nat, f: LaunchFaults)
      requires job < |store.rows|
      modifies store`rows, cluster
      ensures forall todo :: Now().(disp := Ready(todo)) == Exec(old(Now()).(disp := Submitting(job, todo)), LaunchSteps(f))
      ensures SameButNames(store.rows, old(store.rows)) && store.log == old(store.log)
      ensures forall i :: 0 <= i < |store.rows| && i != job ==> store.rows[i] == old(store.rows)[i]
      ensures f == NO_LAUNCH_FAULT ==> store.rows[job].rayJobName.Some?
    {
      ghost var before := Now();
      var j := store.rows[job];
      var name := RayJobName(j.id);
      var r := cluster.CreateRayJob(name, RayJob(j.id, j.tenant), f.create);
      if r != CreateFailed {
        store.SetRayJobName(job, name, f.name);
      }
      forall todo ensures Now().(disp := Ready(todo)) == Exec(before.(disp := Submitting(job, todo)), LaunchSteps(f)) {
        ExecTwo(before.(disp := Submitting(job, todo)), DispCreate(f.create), DispName(f.name));
      }
    }

    method RetryQueuedWithoutRayJob(faults: nat -> LaunchFaults) returns (ghost n: nat)
      modifies store`rows, cluster
      ensures Now() == Exec(old(Now()), [DispList] + RetrySteps(n, faults))
      ensures n == |UnsubmittedFrom(old(store.rows), 0)| && store.log == old(store.log)
      ensures SameButNames(store.rows, old(store.rows))
      ensures (forall k: nat :: faults(k) == NO_LAUNCH_FAULT) ==> AllSubmitted(store.rows)
    {
      ghost var before := Now();
      var pending := store.GetQueuedJobsWithoutRayJob();
      n := |pending|;
      assert Exec(before, [DispList]) == Exec(Apply(before, DispList), []);
      assert [DispList] + RetrySteps(0, faults) == [DispList];
      for k := 0 to |pending|
        invariant SameButNames(store.rows, before.db) && store.log == before.log
        invariant Exec(before, [DispList] + RetrySteps(k, faults)) == Now().(disp := Ready(pending[k..]))
        invariant (forall m: nat :: faults(m) == NO_LAUNCH_FAULT) ==> OnlyListedUnsubmitted(store.rows, pending[k..])
      {
        ghost var here := Now().(disp := Ready(pending[k..]));
        ghost var rows := store.rows;
        SubmitRayJob(pending[k], faults(k));
        SameButNamesTransitive(store.rows, rows, before.db);
        RetryIteration(before, here, Now().(disp := Ready(pending[k + 1..])), pending, k, faults);
        if faults(k) == NO_LAUNCH_FAULT {
          ListShrinks(rows, store.rows, pending, k);
        }
      }
      if OnlyListedUnsubmitted(store.rows, pending[|pending|..]) { NoneLeft(store.rows, pending[|pending|..]); }
    }

    method PromoteOldestPending(tenant: string, f: PromoteFaults)
      modifies store, cluster
      ensures Now() == Exec(old(Now()), PromotionSteps(tenant, f))
      ensures |store.rows| == |old(store.rows)|
      ensures f == NO_PROMOTE_FAULT && AllSubmitted(old(store.rows)) ==> AllSubmitted(store.rows)
    {
      ghost var before := Now();
      var picked := store.GetOldestPendingJob(tenant);
      if !f.readsOk {
        ExecTwo(before, DispPick(tenant), DispCrash);
        return;
      }
      ghost var head := [DispPick(tenant), DispCheck, DispCommit(f.commit)];
      Exec3(before, head[0], head[1], head[2]);
      ExecConcat(before, head, LaunchSteps(f.launch));
      if picked == None || tenant !in quotas {
        IdleLaunch(Exec(before, head), f.launch);
        return;
      }
      var job := picked.value;
      var activeJobs := store.ListActiveJobs(tenant);
      var activeResources := CollectResources(activeJobs);
      SelectedResources(store.rows, tenant, false);
      assert activeResources == ResourcesOf(store.rows, tenant, false);
      var ok := CheckQuota(quotas[tenant], activeResources, store.rows[job].res);
      if !ok {
        IdleLaunch(Exec(before, head), f.launch);
        return;
      }
      var r := store.TransitionJobStatus(job, PENDING, QUEUED, None, 0, f.commit);
      if r.Err? {
        IdleLaunch(Exec(before, head), f.launch);
        return;
      }
      assert Exec(before, head) == Now().(disp := Submitting(job, []));
      SubmitRayJob(job, f.launch);
    }

    method PromoteAll(tenantIDs: seq<string>, promote: string -> PromoteFaults)
      modifies store, cluster
      ensures Now() == Exec(old(Now()), PromotionsSteps(tenantIDs, promote))
      ensures (forall t: string :: promote(t) == NO_PROMOTE_FAULT) && AllSubmitted(old(store.rows)) ==> AllSubmitted(store.rows)
    {
      ghost var before := Now();
      for k := 0 to |tenantIDs|
        invariant Now() == Exec(before, PromotionsSteps(tenantIDs[..k], promote))
        invariant (forall t: string :: promote(t) == NO_PROMOTE_FAULT) && AllSubmitted(before.db) ==> AllSubmitted(store.rows)
      {
        PromoteOldestPending(tenantIDs[k], promote(tenantIDs[k]));
        ExecConcat(before, PromotionsSteps(tenantIDs[..k], promote), PromotionSteps(tenantIDs[k], promote(tenantIDs[k])));
        assert tenantIDs[..k + 1][..k] == tenantIDs[..k];
      }
      assert tenantIDs[..|tenantIDs|] == tenantIDs;
    }

    /** A tick is a run of the protocol in which every tenant with a PENDING job gets a promotion
        attempt; for a tenant whose attempt succeeds it is one of the ticks that BoundedWait counts.
        Without faults it leaves no QUEUED job without a recorded RayJob. */
    method Tick(launch: nat -> LaunchFaults, promote: string -> PromoteFaults) returns (ghost n: nat, ghost tenants: seq<string>)
      modifies store, cluster
      ensures Now() == Exec(old(Now()), TickSteps(n, launch, tenants, promote))
      ensures forall i :: 0 <= i < |old(store.rows)| && old(store.rows)[i].status == PENDING ==> old(store.rows)[i].tenant in tenants
      ensures StepsOf(Alone(n, launch, tenants, promote)) == TickSteps(n, launch, tenants, promote)
      ensures forall tenant :: promote(tenant).readsOk && promote(tenant).commit ==>
                TickOk(old(Now()), Alone(n, launch, tenants, promote), tenant)
      ensures (forall k: nat :: launch(k) == NO_LAUNCH_FAULT) && (forall t: string :: promote(t) == NO_PROMOTE_FAULT) ==>
                AllSubmitted(store.rows)
    {
      ghost var before := Now();
      n := RetryQueuedWithoutRayJob(launch);
      SameTenantsWaiting(store.rows, before.db);
      var tenantIDs := store.GetTenantIDsWithPendingJobs();
      tenants := tenantIDs;
      AloneSteps(n, launch, tenants, promote);
      assert ListsWaiting(store.rows, tenants);
      forall tenant | promote(tenant).readsOk && promote(tenant).commit
        ensures TickOk(before, Alone(n, launch, tenants, promote), tenant)
      {
        AloneIsTick(before, n, launch, tenants, promote, tenant);
      }
      PromoteAll(tenantIDs, promote);
      ExecConcat(before, [DispList] + RetrySteps(n, launch), PromotionsSteps(tenants, promote));
    }
  }

  /** The outcome of the store calls behind one submission. */
  datatype SubmitFaults = SubmitFaults(project: bool, quota: bool, list: bool, insert: bool)

  function SubmitSteps(tenant: string, id: string, project: string, res: JobResources, insert: bool): seq<Step> {
    [SubmitCheck(0, tenant, res), if insert then SubmitInsert(0, id, project) else SubmitDrop(0)]
  }

  class InternalHandler {
    const store: PostgresJobStore
    const cluster: Cluster
    const quotas: map<string, TenantQuota>
    const retryDefault: nat

    constructor (store: PostgresJobStore, cluster: Cluster, quotas: map<string, TenantQuota>, retryDefault: nat)
      ensures this.store == store && this.cluster == cluster && this.quotas == quotas && this.retryDefault == retryDefault
    {
      this.store, this.cluster, this.quotas, this.retryDefault := store, cluster, quotas, retryDefault;
    }

    ghost function Now(): Sys
      reads store, cluster
    {
      View(store, cluster, quotas, retryDefault)
    }

    /** The retry branch after a committed FAILED. */
    method RetryIfAllowed(job: nat, maxRetries: int, now: nat, f: ReportFaults)
      requires job < |store.rows|
      modifies store
      ensures var s := old(Now()).(handlers := map[0 := Counting(job, maxRetries)]);
              Now() == ApplyRequeue(ApplyRecreate(ApplyCount(s, 0, f.count), 0, f.recreate), 0, now, f.requeue)
      ensures old(store.log) <= store.log
    {
      ghost var s := Now().(handlers := map[0 := Counting(job, maxRetries)]);
      assert s.handlers - {0} == map[];
      var count := store.IncrementRetryCount(job, f.count);
      if count.Ok? && count.value <= maxRetries {
        assert ApplyCount(s, 0, f.count) == Now().(handlers := map[0 := Recreating(job)]);
        var run := store.CreateRetryRun(job, f.recreate);
        if run.Ok? {
          assert ApplyRecreate(ApplyCount(s, 0, f.count), 0, f.recreate) == Now().(handlers := map[0 := Requeuing(job)]);
          var r := store.TransitionJobStatus(job, FAILED, QUEUED, None, now, f.requeue);
        } else {
          assert ApplyRecreate(ApplyCount(s, 0, f.count), 0, f.recreate) == Now();
        }
      } else {
        assert ApplyCount(s, 0, f.count) == Now();
      }
    }

    /** PATCH /internal/v1/jobs/{id}/status; the response code. A read that fails and a job that does
        not exist get the same answer, and so do a transition that is not allowed and a write that
        fails. */
    method HandleUpdateJobStatus(job: nat, req: Report, now: nat, f: ReportFaults) returns (code: nat)
      modifies store
      ensures code in {200, 404, 409}
      ensures code == 404 <==> !f.read || job >= |old(store.rows)|
      ensures code == 200 <==>
                && f.read && job < |old(store.rows)| && f.decide
                && var from := old(store.rows)[job].status;
                   match req.status
                   case RUNNING => from == QUEUED
                   case SUCCEEDED => from == RUNNING
                   case FAILED => from == QUEUED || from == RUNNING
                   case QUEUED => from == PENDING || from == RUNNING || from == FAILED
                   case CANCELLED => from == PENDING || from == QUEUED || from == RUNNING
                   case _ => false
      ensures code != 200 ==> store.rows == old(store.rows) && store.log == old(store.log)
      ensures code == 200 ==> old(store.log) + [Commit(job, old(store.rows)[job].status, req.status)] <= store.log
      ensures f.read && job < |old(store.rows)| ==>
                var j := old(store.rows)[job];
                Now() == Exec(old(Now()).(handlers := map[0 := Deciding(job, j.status, j.maxRetries, req)]), ReportSteps(now, f))
    {
      if !f.read || job >= |store.rows| { return 404; }
      var j := store.rows[job];
      ghost var s := Now().(handlers := map[0 := Deciding(job, j.status, j.maxRetries, req)]);
      ExecReport(s, now, f);
      assert s.handlers - {0} == map[];
      var r := store.TransitionJobStatus(job, j.status, req.status, req.failureReason, now, f.decide);
      if r.Err? {
        assert ApplyDecide(s, 0, now, f.decide) == Now();
        return 409;
      }
      ghost var s1 := Now().(handlers := map[0 := Recording(job, j.maxRetries, req)]);
      assert ApplyDecide(s, 0, now, f.decide) == s1;
      if req.mlflowRunId.Some? {
        store.SetMLflowRunID(job, req.mlflowRunId.value, f.record);
      }
      assert s1.handlers - {0} == map[];
      assert ApplyRecord(s1, 0, f.record) ==
        Now().(handlers := if req.status == FAILED then map[0 := Counting(job, j.maxRetries)] else map[]);
      if req.status == FAILED {
        RetryIfAllowed(job, j.maxRetries, now, f);
      }
      code := 200;
    }

    /** POST /v1/jobs: the project check, admission, the quota pre-check, the insert. `owned` is whether
        the project belongs to the tenant, `id` the id that the database generates. */
    method HandleSubmitJob(tenant: string, id: string, project: string, owned: bool, image: string, res: JobResources, f: SubmitFaults)
      returns (code: nat)
      requires forall i :: 0 <= i < |store.rows| ==> store.rows[i].id != id
      modifies store`rows
      ensures code in {202, 404, 422, 500}
      ensures code == 404 <==> f.project && !owned
      ensures code == 422 <==>
                && f.project && owned
                && (image == "" || res.numWorkers < 1
                    || (tenant in quotas && f.quota && f.list && !Accepts(quotas[tenant], ResourcesOf(old(store.rows), tenant, true), res)))
      ensures code == 202 <==>
                && f.project && owned && image != "" && res.numWorkers >= 1 && tenant in quotas && f.quota && f.list && f.insert
                && Accepts(quotas[tenant], ResourcesOf(old(store.rows), tenant, true), res)
      ensures store.rows == old(store.rows) + if code != 202 then []
                              else [Job(id, tenant, project, res, PENDING, None, 0, retryDefault, [Run(PENDING, None, None, None, None)])]
      ensures f.project && owned && tenant in quotas && f.quota && f.list && f.insert
              && (forall i :: 0 <= i < |old(store.rows)| && old(store.rows)[i].tenant == tenant ==>
                    old(store.rows)[i].status !in {PENDING, QUEUED, RUNNING})
              && 0 <= res.numWorkers * res.workerCpu + res.headCpu <= MAX_INT64
              && 0 <= res.numWorkers * res.workerMemory + res.headMemory <= MAX_INT64 ==>
                (code == 202 <==>
                   && image != "" && res.numWorkers >= 1
                   && (quotas[tenant].cpuMillicores > 0 ==> res.numWorkers * res.workerCpu + res.headCpu <= quotas[tenant].cpuMillicores)
                   && (quotas[tenant].memoryBytes > 0 ==> res.numWorkers * res.workerMemory + res.headMemory <= quotas[tenant].memoryBytes))
      ensures Now() == if f.project && owned && image != "" && f.quota && f.list
                       then Exec(old(Now()), SubmitSteps(tenant, id, project, res, f.insert)) else old(Now())
    {
      ghost var s := Now();
      ghost var last := if f.insert then SubmitInsert(0, id, project) else SubmitDrop(0);
      ExecTwo(s, SubmitCheck(0, tenant, res), last);
      assert s.subs - {0} == s.subs;
      if !f.project { return 500; }
      if !owned { return 404; }
      if image == "" || res.numWorkers < 1 { return 422; }
      if tenant !in quotas || !f.quota { return 500; }
      if !f.list { return 500; }
      var activeJobs := store.ListNonTerminalJobs(tenant);
      var activeResources := CollectResources(activeJobs);
      SelectedResources(store.rows, tenant, true);
      assert activeResources == ResourcesOf(store.rows, tenant, true);
      var within := CheckQuota(quotas[tenant], activeResources, res);
      if !within { return 422; }
      assert map[0 := Submission(tenant, res)] - {0} == s.subs;
      var r := store.CreateJobWithRun(id, tenant, project, res, retryDefault, f.insert);
      code := if r.Ok? then 202 else 500;
    }
  }

  /** The RayJob that a reconcile request names, as the cluster answers. */
  datatype Lookup = Missing | Unreadable | Unlabelled | Labelled(job: nat)

  class RayJobReconciler {
    const api: InternalHandler

    constructor (api: InternalHandler)
      ensures this.api == api
    {
      this.api := api;
    }

    /** reconcile: reports a mapped status of a labelled RayJob, takes 409 for an answer already known,
        and does nothing otherwise. An error is returned exactly when the RayJob cannot be read, or the
        report is not answered, or it is answered with 404, which the handler also does when it cannot
        read the job. Without an error an allowed report is lost exactly when its write failed. */
    method Reconcile(obj: Lookup, rayStatus: string, message: Option<string>, logRunId: string, now: nat,
                     call: Outcome, f: ReportFaults) returns (ok: bool)
      modifies api.store
      ensures ok <==>
                match obj
                case Missing => true
                case Unlabelled => true
                case Unreadable => false
                case Labelled(job) => MapRayJobStatus(rayStatus) == None || (call == Reached && f.read && job < |old(api.store.rows)|)
      ensures api.Now() ==
                if obj.Labelled? && call != Refused && f.read
                then Exec(old(api.Now()), [Receive(0, obj.job, rayStatus, message, logRunId)] + ReportSteps(now, f))
                else old(api.Now())
      ensures ok && obj.Labelled? && MapRayJobStatus(rayStatus).Some?
              && ValidTransition(old(api.store.rows)[obj.job].status, MapRayJobStatus(rayStatus).value) ==>
                (api.store.log == old(api.store.log) <==> !f.decide)
    {
      ghost var s := api.Now();
      match obj {
        case Missing => return true;
        case Unlabelled => return true;
        case Unreadable => return false;
        case Labelled(job) =>
          ghost var first := Receive(0, job, rayStatus, message, logRunId);
          ExecConcat(s, [first], ReportSteps(now, f));
          assert Exec(s, [first]) == Exec(Apply(s, first), []);
          var mapped := MapRayJobStatus(rayStatus);
          if mapped == None {
            ExecReport(s, now, f);
            return true;
          }
          var failureReason: Option<string> := None;
          if mapped.value == FAILED && message.Some? && message.value != "" {
            failureReason := message;
          }
          var runId: Option<string> := None;
          if mapped.value == SUCCEEDED && logRunId != "" {
            runId := Some(logRunId);
          }
          if call == Refused { return false; }
          if job >= |s.db| {
            ExecReport(s, now, f);
          }
          var code := api.HandleUpdateJobStatus(job, Report(mapped.value, failureReason, runId), now, f);
          ok := call == Reached && (code == 200 || code == 409);
      }
    }
  }
}
