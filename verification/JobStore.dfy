/** The job store as the object its callers update (control-plane/internal/jobs/store.go), and the
    RayJob API of the cluster. A call whose `ok` is false fails without effect. */
module JobStore {
  import opened Prelude
  import opened Quota
  import opened Jobs
  import opened JobProtocol

  /** The rows of the list queries, in table order. */
  function Selected(db: Table, tenant: string, withPending: bool): seq<Job> {
    if db == [] then [] else
      var j := db[|db| - 1];
      var rest := Selected(db[..|db| - 1], tenant, withPending);
      if j.tenant == tenant && (Active(j.status) || (withPending && j.status == PENDING))
      then rest + [j] else rest
  }

  lemma {:induction false} SelectedResources(db: Table, tenant: string, withPending: bool)
    ensures |ResourcesOf(db, tenant, withPending)| == |Selected(db, tenant, withPending)|
    ensures forall k :: 0 <= k < |Selected(db, tenant, withPending)| ==>
              ResourcesOf(db, tenant, withPending)[k] == Selected(db, tenant, withPending)[k].res
    decreases |db|
  {
    if db != [] {
      SelectedResources(db[..|db| - 1], tenant, withPending);
    }
  }

  /** The loop with which handleSubmitJob and promoteOldestPending build their resource slice. */
  method CollectResources(jobs: seq<Job>) returns (rs: seq<JobResources>)
    ensures |rs| == |jobs| && forall k :: 0 <= k < |jobs| ==> rs[k] == jobs[k].res
  {
    rs := [];
    for i := 0 to |jobs|
      invariant |rs| == i && forall k :: 0 <= k < i ==> rs[k] == jobs[k].res
    {
      rs := rs + [jobs[i].res];
    }
  }

  class PostgresJobStore {
    var rows: Table
    ghost var log: seq<Commit>      // every transition this store has committed

    constructor ()
      ensures rows == [] && log == []
    {
      rows, log := [], [];
    }

    method CreateJobWithRun(id: string, tenant: string, project: string, res: JobResources, maxRetries: nat, ok: bool)
      returns (r: Result<nat, StoreError>)
      modifies `rows
      ensures ok ==> r == Ok(old(|rows|)) && rows == Inserted(old(rows), id, tenant, project, res, maxRetries)
      ensures !ok ==> r.Err? && rows == old(rows)
    {
      if !ok { return Err(Unavailable); }
      var run := FreshRun(PENDING);
      var job := Job(id, tenant, project, res, PENDING, None, 0, maxRetries, [run]);
      r := Ok(|rows|);
      rows := rows + [job];
    }

    method ListJobsByStatus(tenant: string, withPending: bool) returns (js: seq<Job>)
      ensures js == Selected(rows, tenant, withPending)
      ensures forall j :: j in js <==>
                j in rows && j.tenant == tenant && (j.status == QUEUED || j.status == RUNNING || (withPending && j.status == PENDING))
    {
      js := [];
      for i := 0 to |rows|
        invariant js == Selected(rows[..i], tenant, withPending)
        invariant forall j :: j in js <==>
          j in rows[..i] && j.tenant == tenant && (j.status == QUEUED || j.status == RUNNING || (withPending && j.status == PENDING))
      {
        var j := rows[i];
        if j.tenant == tenant && (Active(j.status) || (withPending && j.status == PENDING)) {
          js := js + [j];
        }
        assert rows[..i + 1][..i] == rows[..i];
      }
      assert rows[..|rows|] == rows;
    }

    /** status IN ('QUEUED','RUNNING') */
    method ListActiveJobs(tenant: string) returns (js: seq<Job>)
      ensures js == Selected(rows, tenant, false)
      ensures forall j :: j in js <==> j in rows && j.tenant == tenant && (j.status == QUEUED || j.status == RUNNING)
    {
      js := ListJobsByStatus(tenant, false);
    }

    /** status IN ('PENDING','QUEUED','RUNNING') */
    method ListNonTerminalJobs(tenant: string) returns (js: seq<Job>)
      ensures js == Selected(rows, tenant, true)
      ensures forall j :: j in js <==> j in rows && j.tenant == tenant && (j.status == PENDING || j.status == QUEUED || j.status == RUNNING)
    {
      js := ListJobsByStatus(tenant, true);
    }

    method GetOldestPendingJob(tenant: string) returns (r: Option<nat>)
      ensures r == OldestPending(rows, tenant)
      ensures r.Some? ==> r.value < |rows| && rows[r.value].tenant == tenant && rows[r.value].status == PENDING
      ensures forall i :: 0 <= i < |rows| && rows[i].tenant == tenant && rows[i].status == PENDING ==> r.Some? && r.value <= i
    {
      var i := 0;
      while i < |rows|
        invariant i <= |rows|
        invariant forall k :: 0 <= k < i && rows[k].tenant == tenant ==> rows[k].status != PENDING
      {
        if rows[i].tenant == tenant && rows[i].status == PENDING {
          OldestPendingUnique(rows, tenant, i);
          return Some(i);
        }
        i := i + 1;
      }
      r := None;
    }

    /** SELECT DISTINCT tenant_id ... WHERE status = 'PENDING' */
    method GetTenantIDsWithPendingJobs() returns (ids: seq<string>)
      ensures forall t :: t in ids <==> exists i :: 0 <= i < |rows| && rows[i].tenant == t && rows[i].status == PENDING
      ensures forall a, b :: 0 <= a < b < |ids| ==> ids[a] != ids[b]
    {
      ids := [];
      for i := 0 to |rows|
        invariant forall t :: t in ids <==> exists k :: 0 <= k < i && rows[k].tenant == t && rows[k].status == PENDING
        invariant forall a, b :: 0 <= a < b < |ids| ==> ids[a] != ids[b]
      {
        if rows[i].status == PENDING && rows[i].tenant !in ids {
          ids := ids + [rows[i].tenant];
        }
      }
    }

    method GetQueuedJobsWithoutRayJob() returns (pending: seq<nat>)
      ensures pending == UnsubmittedFrom(rows, 0)
      ensures forall i: nat :: i in pending <==> i < |rows| && rows[i].status == QUEUED && rows[i].rayJobName == None
      ensures forall a, b :: 0 <= a < b < |pending| ==> pending[a] < pending[b]
    {
      pending := [];
      var i := |rows|;
      while i > 0
        invariant 0 <= i <= |rows| && pending == UnsubmittedFrom(rows, i)
        invariant forall k: nat :: k in pending <==> i <= k < |rows| && rows[k].status == QUEUED && rows[k].rayJobName == None
        invariant forall a, b :: 0 <= a < b < |pending| ==> pending[a] < pending[b]
      {
        i := i - 1;
        if Unsubmitted(rows[i]) {
          pending := [i] + pending;
        }
      }
    }

    method SetRayJobName(job: nat, name: string, ok: bool)
      modifies `rows
      ensures rows == if ok then WithRayJobName(old(rows), job, name) else old(rows)
    {
      if ok && job < |rows| {
        rows := rows[job := rows[job].(rayJobName := Some(name))];
      }
    }

    method SetMLflowRunID(job: nat, runId: string, ok: bool)
      modifies `rows
      ensures rows == if ok then WithMlflowRunId(old(rows), job, runId) else old(rows)
    {
      if ok && job < |rows| && rows[job].runs != [] {
        var runs := rows[job].runs;
        var last := |runs| - 1;
        rows := rows[job := rows[job].(runs := runs[last := runs[last].(mlflowRunId := Some(runId))])];
      }
    }

    /** One transaction: a failure at any statement rolls everything back. */
    method TransitionJobStatus(job: nat, from: Status, to: Status, reason: Option<string>, now: nat, ok: bool)
      returns (r: Result<(), StoreError>)
      modifies this
      ensures var t := Transition(old(rows), job, from, to, reason, now);
              if t.Ok? && ok
              then r == Ok(()) && rows == t.value && log == old(log) + [Commit(job, from, to)]
              else r.Err? && rows == old(rows) && log == old(log)
      ensures r.Ok? <==>
                && ok && job < |old(rows)| && old(rows)[job].status == from
                && match to
                   case QUEUED => from in {PENDING, RUNNING, FAILED}
                   case RUNNING => from == QUEUED
                   case SUCCEEDED => from == RUNNING
                   case FAILED => from in {QUEUED, RUNNING}
                   case CANCELLED => from in {PENDING, QUEUED, RUNNING}
                   case _ => false
    {
      if !ValidTransition(from, to) { return Err(InvalidTransition); }
      if job >= |rows| || rows[job].status != from { return Err(NotInStatus); }
      if !ok { return Err(Unavailable); }
      var j := rows[job].(status := to);
      if j.runs != [] {
        var last := |j.runs| - 1;
        var run := j.runs[last].(status := to);
        match to {
          case RUNNING => run := run.(startedAt := Some(now));
          case SUCCEEDED => run := run.(finishedAt := Some(now));
          case FAILED => run := run.(finishedAt := Some(now));
          case _ =>
        }
        if reason.Some? {
          run := run.(failureReason := reason);
        }
        j := j.(runs := j.runs[last := run]);
      }
      rows := rows[job := j];
      log := log + [Commit(job, from, to)];
      r := Ok(());
    }

    method IncrementRetryCount(job: nat, ok: bool) returns (r: Result<int, StoreError>)
      modifies `rows
      ensures if ok && job < old(|rows|)
              then rows == Incremented(old(rows), job) && r == Ok(rows[job].retryCount)
              else r.Err? && rows == old(rows)
    {
      if !ok || job >= |rows| { return Err(Unavailable); }
      rows := rows[job := rows[job].(retryCount := rows[job].retryCount + 1)];
      r := Ok(rows[job].retryCount);
    }

    method CreateRetryRun(job: nat, ok: bool) returns (r: Result<(), StoreError>)
      modifies `rows
      ensures if ok && job < old(|rows|) then r == Ok(()) && rows == WithRetryRun(old(rows), job)
              else r.Err? && rows == old(rows)
    {
      if !ok || job >= |rows| { return Err(Unavailable); }
      rows := rows[job := rows[job].(runs := rows[job].runs + [FreshRun(QUEUED)])];
      r := Ok(());
    }
  }

  lemma OldestPendingUnique(db: Table, tenant: string, i: nat)
    requires IsOldestPending(db, tenant, i)
    ensures OldestPending(db, tenant) == Some(i)
  {
  }

  /** What a cluster Create call returns. */
  datatype CreateResult = Created | AlreadyExists | CreateFailed

  class Cluster {
    var rayJobs: map<string, RayJob>

    constructor ()
      ensures rayJobs == map[]
    {
      rayJobs := map[];
    }

    method CreateRayJob(name: string, obj: RayJob, outcome: Outcome) returns (r: CreateResult)
      modifies this
      ensures outcome == Refused ==> r == CreateFailed && rayJobs == old(rayJobs)
      ensures outcome != Refused ==>
                rayJobs == if name in old(rayJobs) then old(rayJobs) else old(rayJobs)[name := obj]
      ensures outcome == Reached ==> r == if name in old(rayJobs) then AlreadyExists else Created
      ensures outcome == ReplyLost ==> r == CreateFailed
    {
      if outcome == Refused { return CreateFailed; }
      var taken := name in rayJobs;
      if !taken {
        rayJobs := rayJobs[name := obj];
      }
      r := if outcome == ReplyLost then CreateFailed else if taken then AlreadyExists else Created;
    }
  }
}
