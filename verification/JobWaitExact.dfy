/** Why serialised submissions must not take their quota reading inside the retry window (a job that
    has FAILED and will be re-queued is in neither list): a run in which one does, after which the
    dispatcher refuses the job for good, and exactly when a tenant's unfinished jobs stay in quota. */
module JobWaitExact {
  import opened Prelude
  import opened Quota
  import opened Jobs
  import opened JobProtocol
  import opened JobHistory
  import opened JobDispatch
  import opened JobScripts
  import opened JobQuota
  import opened JobQuotaExact
  import opened JobWait
  import opened JobTick
  import JobRetry

  // ---------------------------------------------------------------- exactly when

  lemma {:induction false} PendingStaysOverHandlers(s: Sys, es: seq<Step>, i: nat)
    requires JobsInv(s) && OnlyHandlers(es) && i < |s.db| && s.db[i].status == PENDING
    ensures i < |Exec(s, es).db| && Exec(s, es).db[i].status == PENDING
    decreases |es|
  {
    if es != [] {
      assert HandlerStep(es[0]) && forall k :: 0 <= k < |es[1..]| ==> es[1..][k] == es[k + 1];
      JobsInvStep(s, es[0]);
      PendingStays(s, es[0], i);
      PendingStaysOverHandlers(Apply(s, es[0]), es[1..], i);
    }
  }

  /** What a tenant's unfinished jobs take up, as the pre-check counts them. */
  function OpenLoad(db: Table, tenant: string, d: Dim): int { Load(db, Listed(db, tenant, true), d, |db|) }

  lemma {:induction false} HandlersStayWithinHeld(s: Sys, es: seq<Step>, tenant: string, d: Dim)
    requires JobsInv(s) && DispInv(s) && Fitted(s) && OnlyHandlers(es)
    ensures OpenLoad(Exec(s, es).db, tenant, d) <= HeldLoad(s, tenant, d)
    decreases |es|
  {
    if es == [] {
      LoadMonotone(s.db, s.db, Listed(s.db, tenant, true), Held(s, tenant), d, |s.db|);
    } else {
      var e := es[0];
      assert HandlerStep(e) && forall k :: 0 <= k < |es[1..]| ==> es[1..][k] == es[k + 1];
      JobsInvStep(s, e);
      DispInvStep(s, e);
      FittedStep(s, e);
      HeldLoadShrinks(s, e, tenant, d);
      HandlersStayWithinHeld(Apply(s, e), es[1..], tenant, d);
    }
  }

  lemma SomeHandlersReachHeld(s: Sys, tenant: string, d: Dim) returns (es: seq<Step>)
    requires JobsInv(s) && Fitted(s)
    ensures OnlyHandlers(es) && OpenLoad(Exec(s, es).db, tenant, d) >= HeldLoad(s, tenant, d)
  {
    var t;
    t, es := Drains(s, tenant);
    HistoryIsKept(s, es);
    forall k | k in Held(s, tenant) ensures k in Listed(t.db, tenant, true) {
      assert RowEvolves(s.db[k], t.db[k]);
      if s.db[k].status == PENDING {
        PendingStaysOverHandlers(s, es, k);
      } else {
        assert k in Reserved(t, tenant) && k !in JobQuotaExact.Waiting(t, tenant);
      }
    }
    LoadMonotone(s.db, t.db, Held(s, tenant), Listed(t.db, tenant, true), d, |s.db|);
  }

  predicate StaysOpenWithin(s: Sys, es: seq<Step>, tenant: string, d: Dim, limit: int) {
    OnlyHandlers(es) ==> OpenLoad(Exec(s, es).db, tenant, d) <= limit
  }

  ghost predicate OpenForEver(s: Sys, tenant: string, d: Dim, limit: int) {
    forall es :: StaysOpenWithin(s, es, tenant, d, limit)
  }

  /** Whatever report handlers still do, a tenant's unfinished jobs stay within `limit` if and only if
      they do together with its jobs inside the retry window. */
  lemma OpenLoadExact(s: Sys, tenant: string, d: Dim, limit: int)
    requires JobsInv(s) && DispInv(s) && Fitted(s)
    ensures HeldLoad(s, tenant, d) <= limit <==> OpenForEver(s, tenant, d, limit)
  {
    if HeldLoad(s, tenant, d) <= limit {
      forall es ensures StaysOpenWithin(s, es, tenant, d, limit) {
        if OnlyHandlers(es) { HandlersStayWithinHeld(s, es, tenant, d); }
      }
    } else {
      var es := SomeHandlersReachHeld(s, tenant, d);
      assert !StaysOpenWithin(s, es, tenant, d, limit);
    }
  }

  lemma InsertAddsHeld(s: Sys, sub: nat, id: string, project: string)
    requires sub in s.subs && |ApplySubmitInsert(s, sub, id, project).db| > |s.db|
    ensures var t := ApplySubmitInsert(s, sub, id, project); var tenant := s.subs[sub].tenant;
            Held(t, tenant) == Held(s, tenant) + {|s.db|}
  {
    var t := ApplySubmitInsert(s, sub, id, project);
    forall i: nat | i < |s.db| ensures i in Held(t, s.subs[sub].tenant) <==> i in Held(s, s.subs[sub].tenant) {
      assert t.db[i] == s.db[i];
      assert InRetryWindow(t, i) == InRetryWindow(s, i);
    }
  }

  lemma InsertedLoad(s: Sys, sub: nat, id: string, project: string, d: Dim)
    requires JobsInv(s) && sub in s.subs && |ApplySubmitInsert(s, sub, id, project).db| > |s.db|
    ensures var t := ApplySubmitInsert(s, sub, id, project); var tenant := s.subs[sub].tenant;
            HeldLoad(t, tenant, d) == HeldLoad(s, tenant, d) + Demand(s.subs[sub].res, d)
  {
    var t, tenant := ApplySubmitInsert(s, sub, id, project), s.subs[sub].tenant;
    InsertAddsHeld(s, sub, id, project);
    var n := |s.db|;
    assert t.db[..n] == s.db && t.db[n].res == s.subs[sub].res;
    LoadPrefix(s.db, t.db, Held(s, tenant), d, n);
    LoadSameBelow(t.db, Held(s, tenant), Held(t, tenant), d, n);
  }

  /** So adding a submission keeps the promise, over all that handlers still do, if and only if it fits
      beside everything of the tenant that has not ended, retry window included: the pre-check, which
      leaves the window out, is right exactly when the window does not matter. */
  lemma InsertExact(s: Sys, sub: nat, id: string, project: string, d: Dim, limit: int)
    requires JobsInv(s) && DispInv(s) && Fitted(s) && sub in s.subs && |ApplySubmitInsert(s, sub, id, project).db| > |s.db|
    ensures var t := ApplySubmitInsert(s, sub, id, project); var tenant := s.subs[sub].tenant;
            OpenForEver(t, tenant, d, limit) <==> HeldLoad(s, tenant, d) + Demand(s.subs[sub].res, d) <= limit
  {
    var e := SubmitInsert(sub, id, project);
    var t, tenant := ApplySubmitInsert(s, sub, id, project), s.subs[sub].tenant;
    assert Apply(s, e) == t;
    JobsInvStep(s, e);
    DispInvStep(s, e);
    FittedStep(s, e);
    OpenLoadExact(t, tenant, d, limit);
    InsertedLoad(s, sub, id, project, d);
  }

  // ---------------------------------------------------------------- a run

  ghost predicate InTurnRun(s: Sys, es: seq<Step>)
    decreases |es|
  {
    es == [] || (InTurn(s, es[0]) && InTurnRun(Apply(s, es[0]), es[1..]))
  }

  lemma {:induction false} InTurnTogether(s: Sys, a: seq<Step>, b: seq<Step>)
    requires InTurnRun(s, a) && InTurnRun(Exec(s, a), b)
    ensures InTurnRun(s, a + b)
    decreases |a|
  {
    if a == [] {
      assert a + b == b;
    } else {
      assert (a + b)[0] == a[0] && (a + b)[1..] == a[1..] + b;
      InTurnTogether(Apply(s, a[0]), a[1..], b);
    }
  }

  predicate NoSubmission(es: seq<Step>) { forall k :: 0 <= k < |es| ==> !es[k].SubmitCheck? }

  lemma {:induction false} NoSubmissionInTurn(s: Sys, es: seq<Step>)
    requires NoSubmission(es)
    ensures InTurnRun(s, es)
    decreases |es|
  {
    if es != [] {
      NoSubmissionInTurn(Apply(s, es[0]), es[1..]);
    }
  }

  /** No int64 overflow on top of the quota, and no negative memory. */
  predicate FitsUnder(limit: int, r: JobResources) {
    && 0 <= r.numWorkers * r.workerCpu + r.headCpu && r.numWorkers * r.workerCpu + r.headCpu + limit <= MAX_INT64
    && 0 <= r.numWorkers * r.workerMemory + r.headMemory
  }

  function Submission(r: JobResources, id: string): seq<Step> { [SubmitCheck(0, "t", r), SubmitInsert(0, id, "p")] }

  lemma SubmissionInTurn(s: Sys, limit: int, r: JobResources, id: string)
    requires s.subs == map[] && s.quotas == map["t" := TenantQuota(limit, 0)] && 0 < limit && FitsUnder(limit, r)
    ensures InTurnRun(s, Submission(r, id))
  {
    var es := Submission(r, id);
    assert es[1..] == [SubmitInsert(0, id, "p")];
    NoSubmissionInTurn(Apply(s, es[0]), es[1..]);
  }

  const RETRY := [Count(0, true), Recreate(0, true), Requeue(0, 0, true)]

  /** The first job fails; the second is checked and inserted; then the first is re-queued. */
  function WindowScript(a: JobResources, b: JobResources): seq<Step> { FailScript(a) + Submission(b, "b") + RETRY }

  function Start(limit: int): Sys { Init(map["t" := TenantQuota(limit, 0)], 1) }

  lemma WindowRuns(limit: int, a: JobResources, b: JobResources) returns (s: Sys)
    requires Admit(a) && Admit(b) && 0 < CpuOf(a) <= limit && 0 < CpuOf(b) <= limit <= MAX_INT64
    ensures s == Exec(Start(limit), WindowScript(a, b)) && s.quotas == map["t" := TenantQuota(limit, 0)]
    ensures s.disp == Ready([]) && |s.db| == 2 && s.db[0].tenant == s.db[1].tenant == "t"
    ensures s.db[0].res == a && s.db[1].res == b && s.db[0].status == QUEUED && s.db[1].status == PENDING
    ensures s.db[0].rayJobName.Some?
    ensures FitsUnder(limit, a) && FitsUnder(limit, b) ==> InTurnRun(Start(limit), WindowScript(a, b))
  {
    var s1, e1 := FailedInWindow(limit, a);
    FailedIsNotListed(s1.db);
    CpuAccepted(limit, [], b);
    var s2, e2 := Submits(s1, 0, "t", b, "b", "p");
    var e3;
    s, e3 := Requeues(s2, 0, 0, 0);
    ExecConcat(Start(limit), e1, e2);
    ExecConcat(Start(limit), e1 + e2, e3);
    if FitsUnder(limit, a) && FitsUnder(limit, b) {
      FailScriptInTurn(limit, a);
      SubmissionInTurn(s1, limit, b, "b");
      InTurnTogether(Start(limit), e1, e2);
      NoSubmissionInTurn(s2, e3);
      InTurnTogether(Start(limit), e1 + e2, e3);
    }
  }

  lemma FailScriptInTurn(limit: int, a: JobResources)
    requires 0 < limit && FitsUnder(limit, a)
    ensures InTurnRun(Start(limit), FailScript(a))
  {
    var rest := [DispPick("t"), DispCheck, DispCommit(true)] + [DispCreate(Reached), DispName(true)]
                + [Receive(0, 0, "Failed", None, ""), Decide(0, 0, true), Record(0, true)];
    SubmissionInTurn(Start(limit), limit, a, "a");
    NoSubmissionInTurn(Exec(Start(limit), Submission(a, "a")), rest);
    InTurnTogether(Start(limit), Submission(a, "a"), rest);
    assert FailScript(a) == Submission(a, "a") + rest;
  }

  lemma ListedFirst(db: Table)
    requires |db| == 2 && db[0].tenant == db[1].tenant == "t" && db[0].status == QUEUED && db[1].status == PENDING
    ensures ResourcesOf(db, "t", false) == [db[0].res] && Listed(db, "t", true) == {0, 1}
    ensures OldestPending(db, "t") == Some(1) && (db[0].rayJobName.Some? ==> UnsubmittedFrom(db, 0) == [])
  {
    assert UnsubmittedFrom(db, 2) == [] && UnsubmittedFrom(db, 1) == UnsubmittedFrom(db, 2);
    assert db[..1] == [db[0]];
    ListedOne(db[0], false);
  }

  lemma LoadOfBoth(db: Table)
    requires |db| == 2
    ensures Load(db, {0, 1}, Cpu, 2) == Demand(db[0].res, Cpu) + Demand(db[1].res, Cpu)
  {
    assert Load(db, {0, 1}, Cpu, 0) == 0;
    assert Load(db, {0, 1}, Cpu, 1) == Demand(db[0].res, Cpu);
  }

  /** `n` ticks in which no call fails. */
  function CleanTicks(n: nat): seq<Tick> {
    if n == 0 then []
    else [Alone(0, (k: nat) => NO_LAUNCH_FAULT, ["t"], (t: string) => NO_PROMOTE_FAULT)] + CleanTicks(n - 1)
  }

  /** The dispatcher has nothing to launch, and one waiting job, which its re-check refuses. */
  predicate Refusing(s: Sys) {
    && s.disp == Ready([]) && UnsubmittedFrom(s.db, 0) == [] && OldestPending(s.db, "t") == Some(1) && "t" in s.quotas
    && s.db[1].tenant == "t" && !Accepts(s.quotas["t"], ResourcesOf(s.db, "t", false), s.db[1].res)
    && ListsWaiting(s.db, ["t"])
  }

  lemma RefusedPick(s: Sys)
    requires Refusing(s)
    ensures Apply(Apply(s, DispPick("t")), DispCheck) == s
  {
    assert Apply(s, DispPick("t")) == s.(disp := Picked(1));
  }

  lemma RefusedAttempt(s: Sys)
    requires Refusing(s)
    ensures Exec(s, PromotionSteps("t", NO_PROMOTE_FAULT)) == s
  {
    RefusedPick(s);
    var head := [DispPick("t"), DispCheck, DispCommit(true)];
    Exec3(s, DispPick("t"), DispCheck, DispCommit(true));
    assert Apply(s, DispCommit(true)) == s;
    assert Exec(s, [DispCreate(Reached)]) == Exec(s, []);
    assert Exec(s, LaunchSteps(NO_LAUNCH_FAULT)) == s by {
      assert LaunchSteps(NO_LAUNCH_FAULT)[1..] == [DispName(true)];
      assert Exec(s, [DispName(true)]) == Exec(s, []);
    }
    ExecConcat(s, head, LaunchSteps(NO_LAUNCH_FAULT));
  }

  lemma RefusedTick(s: Sys, k: Tick)
    requires Refusing(s) && k == Alone(0, (k: nat) => NO_LAUNCH_FAULT, ["t"], (t: string) => NO_PROMOTE_FAULT)
    ensures Exec(s, StepsOf(k)) == s && TickOk(s, k, "t")
  {
    RefusedAttempt(s);
    assert Apply(s, DispList) == s;
    ListsFirst(s, []);
    assert [DispList] + [] == [DispList] && [DispList] + RetrySteps(0, k.launch) == [DispList];
    AloneIsTick(s, 0, k.launch, k.tenants, k.promote, "t");
    assert ["t"][..0] == [];
    assert k.mid == [] && k.post == [] + PromotionSteps("t", NO_PROMOTE_FAULT) == PromotionSteps("t", NO_PROMOTE_FAULT);
    assert StepsOf(k) == [DispList] + k.post;
    ListsFirst(s, k.post);
  }

  lemma {:induction false} RefusedTicks(s: Sys, n: nat)
    requires Refusing(s)
    ensures Exec(s, AllSteps(CleanTicks(n))) == s && TicksOk(s, CleanTicks(n), "t") && |CleanTicks(n)| == n
  {
    if n > 0 {
      var k := CleanTicks(n)[0];
      RefusedTick(s, k);
      RefusedTicks(s, n - 1);
      assert CleanTicks(n)[1..] == CleanTicks(n - 1);
      ExecConcat(s, StepsOf(k), AllSteps(CleanTicks(n - 1)));
    }
  }

  /** From the start, with every call succeeding and the submissions one after the other: any two jobs
      that fit one by one but not together are both accepted when the second takes its reading between
      FAILED and the re-queue of the first. Then the unfinished jobs exceed the quota, the dispatcher's
      re-check refuses the oldest waiting job, and any number of ticks in which no call fails leaves
      everything as it is. */
  lemma PreCheckInWindowRefused(limit: int, a: JobResources, b: JobResources, cpuA: int, cpuB: int)
    requires a.numWorkers >= 1 && cpuA == a.numWorkers * a.workerCpu + a.headCpu && 0 < cpuA <= limit
    requires b.numWorkers >= 1 && cpuB == b.numWorkers * b.workerCpu + b.headCpu && 0 < cpuB <= limit
    requires limit <= MAX_INT64 && limit < cpuA + cpuB <= MAX_INT64
    ensures var s := Exec(Start(limit), WindowScript(a, b));
            && JobRetry.FaultFreeRun(WindowScript(a, b))
            && (FitsUnder(limit, a) && FitsUnder(limit, b) ==> InTurnRun(Start(limit), WindowScript(a, b)))
            && OpenLoad(s.db, "t", Cpu) == cpuA + cpuB && OldestPending(s.db, "t") == Some(1)
            && "t" in s.quotas && !Accepts(s.quotas["t"], ResourcesOf(s.db, "t", false), s.db[1].res)
            && forall n: nat :: Exec(s, AllSteps(CleanTicks(n))) == s && TicksOk(s, CleanTicks(n), "t") && |CleanTicks(n)| == n
  {
    var s := WindowRuns(limit, a, b);
    ListedFirst(s.db);
    LoadOfBoth(s.db);
    CpuTotal(a);
    forall n: nat ensures Exec(s, AllSteps(CleanTicks(n))) == s && TicksOk(s, CleanTicks(n), "t") && |CleanTicks(n)| == n {
      RefusedTicks(s, n);
    }
  }
}
