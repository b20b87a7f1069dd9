/** Tenant quota arithmetic (control-plane/internal/scheduler/quota.go). Quantities are what
    `resource.ParseQuantity` yields; sums and products are Go int64 operations, so they wrap. */
module Quota {
  import opened Prelude

  /** The two quota dimensions: CPU in millicores and memory in bytes. */
  datatype Dim = Cpu | Memory

  /** 0 (or less) means unlimited in that dimension. */
  datatype TenantQuota = TenantQuota(cpuMillicores: int, memoryBytes: int)

  datatype JobResources = JobResources(
    numWorkers: int, workerCpu: int, workerMemory: int, headCpu: int, headMemory: int)

  function Limit(quota: TenantQuota, d: Dim): int {
    match d case Cpu => quota.cpuMillicores case Memory => quota.memoryBytes
  }

  /** The exact amount a job asks for. */
  function Demand(r: JobResources, d: Dim): int {
    match d
    case Cpu => r.numWorkers * r.workerCpu + r.headCpu
    case Memory => r.numWorkers * r.workerMemory + r.headMemory
  }

  function Total(rs: seq<JobResources>, d: Dim): int {
    if rs == [] then 0 else Total(rs[..|rs| - 1], d) + Demand(rs[|rs| - 1], d)
  }

  /** What the code tests in one dimension: a comparison of int64 values. */
  predicate DimAccepts(limit: int, used: int, requested: int) {
    limit > 0 ==> Wrap64(used + requested) <= limit
  }

  /** What a quota is for in one dimension. */
  predicate DimWithin(limit: int, used: int, requested: int) {
    limit > 0 ==> used + requested <= limit
  }

  /** The outcome of CheckQuota as a predicate. */
  predicate Accepts(quota: TenantQuota, active: seq<JobResources>, req: JobResources) {
    forall d: Dim :: DimAccepts(Limit(quota, d), Total(active, d), Demand(req, d))
  }

  /** A request that is non-negative and small enough that adding it to a within-quota total
      stays inside int64. */
  predicate Fits(quota: TenantQuota, r: JobResources) {
    forall d: Dim :: 0 <= Demand(r, d) && (Limit(quota, d) > 0 ==> Demand(r, d) + Limit(quota, d) <= MAX_INT64)
  }

  /** The int64 test of one dimension is the intended test exactly when the exact sum does not
      overflow: past MAX_INT64 it wraps to a negative number and the request is let through. */
  lemma {:induction false} CheckExactUnlessOverflow(limit: int, used: int, requested: int)
    requires 0 < limit <= MAX_INT64 && 0 <= used <= MAX_INT64 && 0 <= requested <= MAX_INT64
    ensures (DimAccepts(limit, used, requested) <==> DimWithin(limit, used, requested)) <==>
            used + requested <= MAX_INT64
  {
    if used + requested > MAX_INT64 {
      ModShift(used + requested + TWO_63 - TWO_64, 1);
      assert Wrap64(used + requested) == used + requested - TWO_64;
    }
  }

  /** sumResources and jobMillicoresAndBytes for one job: every product and sum wraps. */
  method JobMillicoresAndBytes(j: JobResources) returns (cpu: int, mem: int)
    ensures cpu == Wrap64(Demand(j, Cpu)) && mem == Wrap64(Demand(j, Memory))
    ensures -TWO_63 <= j.numWorkers * j.workerCpu + j.headCpu < TWO_63 ==> cpu == j.numWorkers * j.workerCpu + j.headCpu
    ensures -TWO_63 <= j.numWorkers * j.workerMemory + j.headMemory < TWO_63 ==> mem == j.numWorkers * j.workerMemory + j.headMemory
  {
    cpu := Wrap64(Wrap64(j.numWorkers * j.workerCpu) + j.headCpu);
    mem := Wrap64(Wrap64(j.numWorkers * j.workerMemory) + j.headMemory);
    WrapAbsorb(j.numWorkers * j.workerCpu, j.headCpu);
    WrapAbsorb(j.numWorkers * j.workerMemory, j.headMemory);
  }

  method SumResources(jobs: seq<JobResources>) returns (cpu: int, mem: int)
    ensures cpu == Wrap64(Total(jobs, Cpu)) && mem == Wrap64(Total(jobs, Memory))
  {
    cpu, mem := 0, 0;
    for i := 0 to |jobs|
      invariant cpu == Wrap64(Total(jobs[..i], Cpu))
      invariant mem == Wrap64(Total(jobs[..i], Memory))
    {
      var c, m := JobMillicoresAndBytes(jobs[i]);
      assert jobs[..i + 1][..i] == jobs[..i];
      AddBothWrapped(Total(jobs[..i], Cpu), Demand(jobs[i], Cpu));
      AddBothWrapped(Total(jobs[..i], Memory), Demand(jobs[i], Memory));
      cpu, mem := Wrap64(cpu + c), Wrap64(mem + m);
    }
    assert jobs[..|jobs|] == jobs;
  }

  lemma AddBothWrapped(a: int, b: int)
    ensures Wrap64(Wrap64(a) + Wrap64(b)) == Wrap64(a + b)
  {
  }

  /** With the totals of the active jobs written out job by job, workers and head, and no overflow:
      the request is accepted exactly if in each limited dimension they and its own workers and head
      stay within the limit. */
  lemma AcceptsExactly(quota: TenantQuota, active: seq<JobResources>, req: JobResources, cpu: seq<int>, mem: seq<int>)
    requires |cpu| == |mem| == |active| + 1 && cpu[0] == mem[0] == 0
    requires forall k :: 0 <= k < |active| ==>
               && cpu[k + 1] == cpu[k] + active[k].numWorkers * active[k].workerCpu + active[k].headCpu
               && mem[k + 1] == mem[k] + active[k].numWorkers * active[k].workerMemory + active[k].headMemory
    requires 0 <= cpu[|active|] + (req.numWorkers * req.workerCpu + req.headCpu) <= MAX_INT64
    requires 0 <= mem[|active|] + (req.numWorkers * req.workerMemory + req.headMemory) <= MAX_INT64
    ensures Accepts(quota, active, req) <==>
            && (quota.cpuMillicores > 0 ==>
                  cpu[|active|] + (req.numWorkers * req.workerCpu + req.headCpu) <= quota.cpuMillicores)
            && (quota.memoryBytes > 0 ==>
                  mem[|active|] + (req.numWorkers * req.workerMemory + req.headMemory) <= quota.memoryBytes)
  {
    TotalsAre(active, cpu, mem);
    AcceptsSums(quota, active, req, cpu[|active|], mem[|active|]);
  }

  lemma AcceptsSums(quota: TenantQuota, active: seq<JobResources>, req: JobResources, cpu: int, mem: int)
    requires Total(active, Cpu) == cpu && Total(active, Memory) == mem
    requires 0 <= cpu + (req.numWorkers * req.workerCpu + req.headCpu) <= MAX_INT64
    requires 0 <= mem + (req.numWorkers * req.workerMemory + req.headMemory) <= MAX_INT64
    ensures Accepts(quota, active, req) <==>
            && (quota.cpuMillicores > 0 ==> cpu + (req.numWorkers * req.workerCpu + req.headCpu) <= quota.cpuMillicores)
            && (quota.memoryBytes > 0 ==> mem + (req.numWorkers * req.workerMemory + req.headMemory) <= quota.memoryBytes)
  {
    assert DimAccepts(Limit(quota, Cpu), Total(active, Cpu), Demand(req, Cpu)) <==>
           (quota.cpuMillicores > 0 ==> cpu + (req.numWorkers * req.workerCpu + req.headCpu) <= quota.cpuMillicores);
    assert DimAccepts(Limit(quota, Memory), Total(active, Memory), Demand(req, Memory)) <==>
           (quota.memoryBytes > 0 ==> mem + (req.numWorkers * req.workerMemory + req.headMemory) <= quota.memoryBytes);
  }

  lemma {:induction false} TotalsAre(active: seq<JobResources>, cpu: seq<int>, mem: seq<int>)
    requires |cpu| == |mem| == |active| + 1 && cpu[0] == mem[0] == 0
    requires forall k :: 0 <= k < |active| ==>
               && cpu[k + 1] == cpu[k] + active[k].numWorkers * active[k].workerCpu + active[k].headCpu
               && mem[k + 1] == mem[k] + active[k].numWorkers * active[k].workerMemory + active[k].headMemory
    ensures Total(active, Cpu) == cpu[|active|] && Total(active, Memory) == mem[|active|]
  {
    if active != [] {
      var n := |active| - 1;
      TotalsAre(active[..n], cpu[..n + 1], mem[..n + 1]);
    }
  }

  lemma {:induction false} TotalReplaced(active: seq<JobResources>, i: nat, job: JobResources, d: Dim)
    requires i < |active|
    ensures Total(active[i := job], d) == Total(active, d) - Demand(active[i], d) + Demand(job, d)
  {
    var n := |active| - 1;
    if i < n {
      TotalReplaced(active[..n], i, job, d);
      assert active[i := job][..n] == active[..n][i := job];
    } else {
      assert active[i := job][..n] == active[..n];
    }
  }

  /** More workers and a larger head on an active job take exactly that much away from what is left:
      the request is judged as under limits that are lower by it. */
  lemma LargerActiveJob(quota: TenantQuota, active: seq<JobResources>, i: nat, workers: nat, headCpu: nat, headMemory: nat,
                        cpu: int, mem: int, req: JobResources)
    requires i < |active| && cpu == workers * active[i].workerCpu + headCpu && mem == workers * active[i].workerMemory + headMemory
    requires 0 <= cpu < quota.cpuMillicores && 0 <= Total(active, Cpu) + Demand(req, Cpu) <= MAX_INT64 - cpu
    requires 0 <= mem < quota.memoryBytes && 0 <= Total(active, Memory) + Demand(req, Memory) <= MAX_INT64 - mem
    ensures var larger := active[i].(numWorkers := active[i].numWorkers + workers,
                                     headCpu := active[i].headCpu + headCpu, headMemory := active[i].headMemory + headMemory);
            Accepts(quota, active[i := larger], req) <==>
            Accepts(TenantQuota(quota.cpuMillicores - cpu, quota.memoryBytes - mem), active, req)
  {
    var larger := active[i].(numWorkers := active[i].numWorkers + workers,
                             headCpu := active[i].headCpu + headCpu, headMemory := active[i].headMemory + headMemory);
    LargerDemand(active[i], workers, headCpu, headMemory, cpu, mem);
    LargerTotals(active, i, larger, cpu, mem);
    JudgedAlike(quota, active[i := larger], active, req, cpu, mem);
  }

  lemma LargerTotals(active: seq<JobResources>, i: nat, larger: JobResources, cpu: int, mem: int)
    requires i < |active|
    requires Demand(larger, Cpu) == Demand(active[i], Cpu) + cpu && Demand(larger, Memory) == Demand(active[i], Memory) + mem
    ensures Total(active[i := larger], Cpu) == Total(active, Cpu) + cpu
    ensures Total(active[i := larger], Memory) == Total(active, Memory) + mem
  {
    TotalReplaced(active, i, larger, Cpu);
    TotalReplaced(active, i, larger, Memory);
  }

  lemma LargerDemand(j: JobResources, workers: nat, headCpu: nat, headMemory: nat, cpu: int, mem: int)
    requires cpu == workers * j.workerCpu + headCpu && mem == workers * j.workerMemory + headMemory
    ensures var larger := j.(numWorkers := j.numWorkers + workers, headCpu := j.headCpu + headCpu, headMemory := j.headMemory + headMemory);
            Demand(larger, Cpu) == Demand(j, Cpu) + cpu && Demand(larger, Memory) == Demand(j, Memory) + mem
  {
    assert (j.numWorkers + workers) * j.workerCpu == j.numWorkers * j.workerCpu + workers * j.workerCpu;
    assert (j.numWorkers + workers) * j.workerMemory == j.numWorkers * j.workerMemory + workers * j.workerMemory;
  }

  lemma JudgedAlike(quota: TenantQuota, a: seq<JobResources>, b: seq<JobResources>, req: JobResources, cpu: int, mem: int)
    requires 0 <= cpu < quota.cpuMillicores && 0 <= mem < quota.memoryBytes
    requires Total(a, Cpu) == Total(b, Cpu) + cpu && Total(a, Memory) == Total(b, Memory) + mem
    requires 0 <= Total(b, Cpu) + Demand(req, Cpu) && Total(a, Cpu) + Demand(req, Cpu) <= MAX_INT64
    requires 0 <= Total(b, Memory) + Demand(req, Memory) && Total(a, Memory) + Demand(req, Memory) <= MAX_INT64
    ensures Accepts(quota, a, req) <==> Accepts(TenantQuota(quota.cpuMillicores - cpu, quota.memoryBytes - mem), b, req)
  {
    var lower := TenantQuota(quota.cpuMillicores - cpu, quota.memoryBytes - mem);
    assert DimAccepts(Limit(quota, Cpu), Total(a, Cpu), Demand(req, Cpu)) <==> DimAccepts(Limit(lower, Cpu), Total(b, Cpu), Demand(req, Cpu));
    assert DimAccepts(Limit(quota, Memory), Total(a, Memory), Demand(req, Memory)) <==>
           DimAccepts(Limit(lower, Memory), Total(b, Memory), Demand(req, Memory));
  }

  method CheckQuota(quota: TenantQuota, active: seq<JobResources>, req: JobResources) returns (ok: bool)
    ensures ok <==> Accepts(quota, active, req)
    ensures active == []
            && 0 <= req.numWorkers * req.workerCpu + req.headCpu <= MAX_INT64
            && 0 <= req.numWorkers * req.workerMemory + req.headMemory <= MAX_INT64 ==>
              (ok <==> && (quota.cpuMillicores > 0 ==> req.numWorkers * req.workerCpu + req.headCpu <= quota.cpuMillicores)
                       && (quota.memoryBytes > 0 ==> req.numWorkers * req.workerMemory + req.headMemory <= quota.memoryBytes))
  {
    var usedCpu, usedMem := SumResources(active);
    var reqCpu, reqMem := JobMillicoresAndBytes(req);
    AddBothWrapped(Total(active, Cpu), Demand(req, Cpu));
    AddBothWrapped(Total(active, Memory), Demand(req, Memory));
    if quota.cpuMillicores > 0 && Wrap64(usedCpu + reqCpu) > quota.cpuMillicores {
      assert !DimAccepts(Limit(quota, Cpu), Total(active, Cpu), Demand(req, Cpu));
      return false;
    }
    if quota.memoryBytes > 0 && Wrap64(usedMem + reqMem) > quota.memoryBytes {
      assert !DimAccepts(Limit(quota, Memory), Total(active, Memory), Demand(req, Memory));
      return false;
    }
    return true;
  }
}
