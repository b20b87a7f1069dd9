/** With serialised submissions, whatever has been accepted fits: the dispatcher's re-check never
    refuses, and the queue of a tenant only gets shorter from the front. */
module JobWait {
  import opened Prelude
  import opened Quota
  import opened Jobs
  import opened JobProtocol
  import opened JobHistory
  import opened JobDispatch
  import opened JobScripts
  import opened JobQuota

  /** Everything of the tenant that has not ended, retry window included. */
  function Held(s: Sys, tenant: string): set<nat> {
    set i: nat | i < |s.db| && s.db[i].tenant == tenant && (NonTerminal(s.db[i].status) || InRetryWindow(s, i))
  }

  function HeldLoad(s: Sys, tenant: string, d: Dim): int {
    Load(s.db, Held(s, tenant), d, |s.db|)
  }

  predicate InFlight(s: Sys, tenant: string) {
    exists x :: x in s.subs && s.subs[x].tenant == tenant
  }

  /** Submissions of a tenant come one after the other; see Quota.Fits for the size condition. */
  predicate InTurn(s: Sys, e: Step) {
    e.SubmitCheck? && e.tenant in s.quotas ==> Fits(s.quotas[e.tenant], e.res) && !InFlight(s, e.tenant)
  }

  /** And they do not take their quota reading inside the tenant's retry window. JobWaitExact shows what
      happens if they do. */
  predicate Serialised(s: Sys, e: Step) {
    InTurn(s, e) && (e.SubmitCheck? && e.tenant in s.quotas ==> Held(s, e.tenant) == Listed(s.db, e.tenant, true))
  }

  predicate SerialisedRun(s: Sys, es: seq<Step>)
    decreases |es|
  {
    es == [] || (Serialised(s, es[0]) && SerialisedRun(Apply(s, es[0]), es[1..]))
  }

  ghost predicate AdmitInv(s: Sys) {
    && Fitted(s)
    && (forall tenant, d: Dim {:trigger HeldLoad(s, tenant, d)} :: WithinLimit(s.quotas, tenant, HeldLoad(s, tenant, d), d))
    && (forall x, d: Dim {:trigger HeldLoad(s, s.subs[x].tenant, d)} :: x in s.subs ==>
          WithinLimit(s.quotas, s.subs[x].tenant, HeldLoad(s, s.subs[x].tenant, d) + Demand(s.subs[x].res, d), d))
    && (forall x, y :: x in s.subs && y in s.subs && s.subs[x].tenant == s.subs[y].tenant ==> x == y)
  }

  lemma HeldShrinks(s: Sys, e: Step, tenant: string)
    requires JobsInv(s)
    ensures forall i :: i in Held(Apply(s, e), tenant) && i < |s.db| ==> i in Held(s, tenant)
    ensures !e.SubmitInsert? ==> forall i :: i in Held(Apply(s, e), tenant) ==> i < |s.db|
  {
    var t := Apply(s, e);
    StepEvolves(s, e);
    forall i | i in Held(t, tenant)
      ensures i < |s.db| ==> i in Held(s, tenant)
      ensures !e.SubmitInsert? ==> i < |s.db|
    {
      if i < |s.db| {
        assert RowEvolves(s.db[i], t.db[i]);
        if s.db[i].status != PENDING {
          if e.DispCommit? && s.disp == Cleared(i) {
            CommitOnlyStartsPending(s, e.ok, i);
            OthersReserved(s, e, i);
          } else {
            ReservationsShrink(s, e, i);
          }
        }
      } else {
        NewRowIsSubmission(s, e, i);
      }
    }
  }

  lemma CommitOnlyStartsPending(s: Sys, ok: bool, i: nat)
    requires i < |s.db| && s.db[i].status != PENDING && s.disp == Cleared(i)
    ensures ApplyDispCommit(s, ok).db == s.db && ApplyDispCommit(s, ok).handlers == s.handlers
  {
  }

  lemma OthersReserved(s: Sys, e: Step, i: nat)
    requires i < |s.db| && Apply(s, e).db == s.db && Apply(s, e).handlers == s.handlers
    ensures InRetryWindow(Apply(s, e), i) == InRetryWindow(s, i)
  {
  }

  lemma HeldLoadShrinks(s: Sys, e: Step, tenant: string, d: Dim)
    requires JobsInv(s) && Fitted(s) && !e.SubmitInsert?
    ensures HeldLoad(Apply(s, e), tenant, d) <= HeldLoad(s, tenant, d)
  {
    HeldShrinks(s, e, tenant);
    LoadAfterStep(s, e, Held(s, tenant), Held(Apply(s, e), tenant), d);
  }

  lemma HeldLoadInserted(s: Sys, sub: nat, id: string, project: string, tenant: string, d: Dim)
    requires JobsInv(s) && Fitted(s) && sub in s.subs && |ApplySubmitInsert(s, sub, id, project).db| > |s.db|
    ensures HeldLoad(ApplySubmitInsert(s, sub, id, project), tenant, d) <=
            HeldLoad(s, tenant, d) + if tenant == s.subs[sub].tenant then Demand(s.subs[sub].res, d) else 0
  {
    var e := SubmitInsert(sub, id, project);
    var t := Apply(s, e);
    HeldShrinks(s, e, tenant);
    var n := |s.db|;
    NewRowIsSubmission(s, e, n);
    assert t.db[..n] == s.db;
    forall i: nat | i < n ensures t.db[i].res == s.db[i].res && 0 <= Demand(t.db[i].res, d) {
      assert t.db[i] == s.db[i];
    }
    LoadMonotone(t.db, s.db, Held(t, tenant), Held(s, tenant), d, n);
    assert Fits(s.quotas[s.subs[sub].tenant], s.subs[sub].res);
    assert n in Held(t, tenant) ==> t.db[n].tenant == tenant;
  }

  lemma CheckAdmits(s: Sys, sub: nat, tenant: string, res: JobResources, d: Dim)
    requires JobsInv(s) && AdmitInv(s) && Serialised(s, SubmitCheck(sub, tenant, res))
    requires ApplySubmitCheck(s, sub, tenant, res) != s
    ensures WithinLimit(s.quotas, tenant, HeldLoad(s, tenant, d) + Demand(res, d), d)
  {
    var quota := s.quotas[tenant];
    if Limit(quota, d) > 0 {
      ListedLoad(s.db, tenant, true, d);
      assert Listed(s.db, tenant, true) == Held(s, tenant);
      assert WithinLimit(s.quotas, tenant, HeldLoad(s, tenant, d), d);
      LoadMonotone(s.db, s.db, Held(s, tenant), Held(s, tenant), d, |s.db|);
      assert DimAccepts(Limit(quota, d), Total(ResourcesOf(s.db, tenant, true), d), Demand(res, d));
    }
  }

  lemma SameHeld(s: Sys, t: Sys, tenant: string)
    requires t.db == s.db && t.handlers == s.handlers
    ensures Held(t, tenant) == Held(s, tenant)
  {
  }

  lemma CheckKeepsAdmitInv(s: Sys, sub: nat, tenant: string, res: JobResources)
    requires JobsInv(s) && AdmitInv(s) && Serialised(s, SubmitCheck(sub, tenant, res))
    ensures AdmitInv(ApplySubmitCheck(s, sub, tenant, res))
  {
    var t := ApplySubmitCheck(s, sub, tenant, res);
    if t != s {
      FittedStep(s, SubmitCheck(sub, tenant, res));
      forall other, d: Dim ensures HeldLoad(t, other, d) == HeldLoad(s, other, d) {
        SameHeld(s, t, other);
      }
      forall x, d: Dim {:trigger HeldLoad(t, t.subs[x].tenant, d)} | x in t.subs
        ensures WithinLimit(t.quotas, t.subs[x].tenant, HeldLoad(t, t.subs[x].tenant, d) + Demand(t.subs[x].res, d), d)
      {
        if x == sub {
          CheckAdmits(s, sub, tenant, res, d);
        } else {
          assert HeldLoad(s, s.subs[x].tenant, d) == HeldLoad(t, t.subs[x].tenant, d);
        }
      }
    }
  }

  lemma InsertKeepsAdmitInv(s: Sys, sub: nat, id: string, project: string)
    requires JobsInv(s) && AdmitInv(s)
    ensures AdmitInv(ApplySubmitInsert(s, sub, id, project))
  {
    var t := ApplySubmitInsert(s, sub, id, project);
    if t != s {
      FittedStep(s, SubmitInsert(sub, id, project));
      forall tenant, d: Dim {:trigger HeldLoad(t, tenant, d)}
        ensures WithinLimit(t.quotas, tenant, HeldLoad(t, tenant, d), d)
        ensures tenant != s.subs[sub].tenant ==> HeldLoad(t, tenant, d) <= HeldLoad(s, tenant, d)
      {
        HeldLoadInserted(s, sub, id, project, tenant, d);
        assert WithinLimit(s.quotas, tenant, HeldLoad(s, tenant, d), d);
        assert WithinLimit(s.quotas, s.subs[sub].tenant, HeldLoad(s, s.subs[sub].tenant, d) + Demand(s.subs[sub].res, d), d);
      }
      forall x, d: Dim {:trigger HeldLoad(t, t.subs[x].tenant, d)} | x in t.subs
        ensures WithinLimit(t.quotas, t.subs[x].tenant, HeldLoad(t, t.subs[x].tenant, d) + Demand(t.subs[x].res, d), d)
      {
        assert WithinLimit(s.quotas, s.subs[x].tenant, HeldLoad(s, s.subs[x].tenant, d) + Demand(s.subs[x].res, d), d);
      }
    }
  }

  lemma OthersKeepAdmitInv(s: Sys, e: Step)
    requires JobsInv(s) && AdmitInv(s) && !e.SubmitCheck? && !e.SubmitInsert?
    ensures AdmitInv(Apply(s, e))
  {
    var t := Apply(s, e);
    FittedStep(s, e);
    QuotasFixed(s, e);
    SubmissionsComeFromChecks(s, e);
    forall tenant, d: Dim {:trigger HeldLoad(t, tenant, d)}
      ensures HeldLoad(t, tenant, d) <= HeldLoad(s, tenant, d)
      ensures WithinLimit(t.quotas, tenant, HeldLoad(t, tenant, d), d)
    {
      HeldLoadShrinks(s, e, tenant, d);
      assert WithinLimit(s.quotas, tenant, HeldLoad(s, tenant, d), d);
    }
    forall x, d: Dim {:trigger HeldLoad(t, t.subs[x].tenant, d)} | x in t.subs
      ensures WithinLimit(t.quotas, t.subs[x].tenant, HeldLoad(t, t.subs[x].tenant, d) + Demand(t.subs[x].res, d), d)
    {
      assert WithinLimit(s.quotas, s.subs[x].tenant, HeldLoad(s, s.subs[x].tenant, d) + Demand(s.subs[x].res, d), d);
    }
  }

  lemma AdmitInvStep(s: Sys, e: Step)
    requires JobsInv(s) && AdmitInv(s) && Serialised(s, e)
    ensures AdmitInv(Apply(s, e))
  {
    if e.SubmitCheck? {
      CheckKeepsAdmitInv(s, e.sub, e.tenant, e.res);
    } else if e.SubmitInsert? {
      InsertKeepsAdmitInv(s, e.sub, e.id, e.project);
    } else {
      OthersKeepAdmitInv(s, e);
    }
  }

  lemma {:induction false} AdmitInvHolds(s: Sys, es: seq<Step>)
    requires JobsInv(s) && DispInv(s) && AdmitInv(s) && SerialisedRun(s, es)
    ensures var t := Exec(s, es); JobsInv(t) && DispInv(t) && AdmitInv(t) && Evolves(s.db, t.db)
    decreases |es|
  {
    HistoryIsKept(s, es);
    if es != [] {
      JobsInvStep(s, es[0]);
      DispInvStep(s, es[0]);
      AdmitInvStep(s, es[0]);
      AdmitInvHolds(Apply(s, es[0]), es[1..]);
    }
  }

  /** With serialised submissions even the sum over all unfinished jobs stays within quota. */
  lemma NonTerminalWithinQuota(quotas: map<string, TenantQuota>, retryDefault: nat, es: seq<Step>, tenant: string, d: Dim)
    requires SerialisedRun(Init(quotas, retryDefault), es) && tenant in quotas && Limit(quotas[tenant], d) > 0
    ensures var s := Exec(Init(quotas, retryDefault), es);
            Load(s.db, Listed(s.db, tenant, true), d, |s.db|) <= Limit(quotas[tenant], d)
  {
    var s0 := Init(quotas, retryDefault);
    var s := Exec(s0, es);
    InitSound(quotas, retryDefault);
    AdmitInvHolds(s0, es);
    QuotasNeverChange(s0, es);
    LoadMonotone(s.db, s.db, Listed(s.db, tenant, true), Held(s, tenant), d, |s.db|);
    assert WithinLimit(s.quotas, tenant, HeldLoad(s, tenant, d), d);
  }

  /** The same with the sums written out row by row, over the PENDING, QUEUED and RUNNING jobs. */
  lemma NonTerminalInFull(quotas: map<string, TenantQuota>, retryDefault: nat, es: seq<Step>, tenant: string, cpu: seq<int>, mem: seq<int>)
    requires SerialisedRun(Init(quotas, retryDefault), es) && tenant in quotas
    requires var db := Exec(Init(quotas, retryDefault), es).db;
             && |cpu| == |mem| == |db| + 1 && cpu[0] == mem[0] == 0
             && forall i :: 0 <= i < |db| ==>
                  var j := db[i];
                  var counts := j.tenant == tenant && (j.status == QUEUED || j.status == RUNNING || j.status == PENDING);
                  && cpu[i + 1] == cpu[i] + (if counts then j.res.numWorkers * j.res.workerCpu + j.res.headCpu else 0)
                  && mem[i + 1] == mem[i] + (if counts then j.res.numWorkers * j.res.workerMemory + j.res.headMemory else 0)
    ensures quotas[tenant].cpuMillicores > 0 ==> cpu[|cpu| - 1] <= quotas[tenant].cpuMillicores
    ensures quotas[tenant].memoryBytes > 0 ==> mem[|mem| - 1] <= quotas[tenant].memoryBytes
  {
    var db := Exec(Init(quotas, retryDefault), es).db;
    UsageIs(db, tenant, true, cpu, mem, |db|);
    if quotas[tenant].cpuMillicores > 0 { NonTerminalWithinQuota(quotas, retryDefault, es, tenant, Cpu); }
    if quotas[tenant].memoryBytes > 0 { NonTerminalWithinQuota(quotas, retryDefault, es, tenant, Memory); }
  }

  /** The dispatcher's re-check then never refuses the job it picked. */
  lemma NeverRefused(s: Sys, job: nat)
    requires JobsInv(s) && AdmitInv(s) && job < |s.db| && s.db[job].status == PENDING
    ensures var tenant := s.db[job].tenant;
            tenant in s.quotas && Accepts(s.quotas[tenant], ResourcesOf(s.db, tenant, false), s.db[job].res)
  {
    var tenant := s.db[job].tenant;
    var quota := s.quotas[tenant];
    forall d: Dim
      ensures DimAccepts(Limit(quota, d), Total(ResourcesOf(s.db, tenant, false), d), Demand(s.db[job].res, d))
    {
      if Limit(quota, d) > 0 {
        var active := Listed(s.db, tenant, false);
        ListedLoad(s.db, tenant, false, d);
        LoadAdd(s.db, active, job, d, |s.db|);
        LoadMonotone(s.db, s.db, active + {job}, Held(s, tenant), d, |s.db|);
        LoadMonotone(s.db, s.db, active, active, d, |s.db|);
        assert WithinLimit(s.quotas, tenant, HeldLoad(s, tenant, d), d);
        assert Fits(quota, s.db[job].res);
      }
    }
  }

  // ---------------------------------------------------------------- bounded wait

  /** The tenant's PENDING jobs among the first `n` submitted. */
  function Waiting(db: Table, tenant: string, n: nat): nat
    requires n <= |db|
  {
    if n == 0 then 0
    else Waiting(db, tenant, n - 1) + if db[n - 1].tenant == tenant && db[n - 1].status == PENDING then 1 else 0
  }

  lemma {:induction false} WaitingNeverGrows(a: Table, b: Table, tenant: string, n: nat)
    requires Evolves(a, b) && n <= |a|
    ensures Waiting(b, tenant, n) <= Waiting(a, tenant, n)
  {
    if n > 0 {
      WaitingNeverGrows(a, b, tenant, n - 1);
      assert RowEvolves(a[n - 1], b[n - 1]);
    }
  }

  lemma {:induction false} NoneWaiting(db: Table, tenant: string, n: nat)
    requires n <= |db|
    ensures Waiting(db, tenant, n) == 0 <==> forall i :: 0 <= i < n && db[i].tenant == tenant ==> db[i].status != PENDING
  {
    if n > 0 {
      NoneWaiting(db, tenant, n - 1);
    }
  }

  ghost predicate Sound(s: Sys) {
    JobsInv(s) && DispInv(s) && AdmitInv(s)
  }

  lemma InitSound(quotas: map<string, TenantQuota>, retryDefault: nat)
    ensures Sound(Init(quotas, retryDefault))
  {
    var s0 := Init(quotas, retryDefault);
    forall t, d: Dim ensures HeldLoad(s0, t, d) == 0 {}
  }
}
