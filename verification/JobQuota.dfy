/** Quota safety of the interleaved protocol. */
module JobQuota {
  import opened Prelude
  import opened Quota
  import opened Jobs
  import opened JobProtocol
  import opened JobHistory
  import opened JobDispatch
  import opened JobScripts

  /** The summed demand of the selected rows among the first `n`. */
  function Load(db: Table, sel: set<nat>, d: Dim, n: nat): int
    requires n <= |db|
  {
    if n == 0 then 0 else Load(db, sel, d, n - 1) + if n - 1 in sel then Demand(db[n - 1].res, d) else 0
  }

  /** The tenant's QUEUED and RUNNING jobs. */
  function ActiveJobs(db: Table, tenant: string): set<nat> {
    set i: nat | i < |db| && db[i].tenant == tenant && Active(db[i].status)
  }

  /** A handler between the commit of FAILED and the commit of the re-queue. */
  predicate WillRequeue(j: Job, h: Handler) {
    match h
    case Recording(_, maxRetries, report) => report.status == FAILED && j.retryCount < maxRetries
    case Counting(_, maxRetries) => j.retryCount < maxRetries
    case Recreating(_) => true
    case Requeuing(_) => true
    case Deciding(_, _, _, _) => false
  }

  predicate InRetryWindow(s: Sys, i: nat)
    requires i < |s.db|
  {
    exists h :: h in s.handlers && s.handlers[h].job == i && WillRequeue(s.db[i], s.handlers[h])
  }

  /** Active jobs and those that are about to become active again without a quota check. */
  function Reserved(s: Sys, tenant: string): set<nat> {
    set i: nat | i < |s.db| && s.db[i].tenant == tenant && (Active(s.db[i].status) || InRetryWindow(s, i))
  }

  predicate Fitted(s: Sys) {
    && (forall i :: 0 <= i < |s.db| ==> s.db[i].tenant in s.quotas && Fits(s.quotas[s.db[i].tenant], s.db[i].res))
    && (forall x :: x in s.subs ==> s.subs[x].tenant in s.quotas && Fits(s.quotas[s.subs[x].tenant], s.subs[x].res))
  }

  predicate WithinLimit(quotas: map<string, TenantQuota>, tenant: string, load: int, d: Dim) {
    tenant in quotas && Limit(quotas[tenant], d) > 0 ==> load <= Limit(quotas[tenant], d)
  }

  predicate QuotaInv(s: Sys) {
    && Fitted(s)
    && (forall tenant, d: Dim {:trigger Load(s.db, Reserved(s, tenant), d, |s.db|)} ::
          tenant in s.quotas ==> WithinLimit(s.quotas, tenant, Load(s.db, Reserved(s, tenant), d, |s.db|), d))
    && (s.disp.Cleared? && s.disp.job < |s.db| ==>
          var t := s.db[s.disp.job].tenant;
          forall d: Dim :: WithinLimit(s.quotas, t, Load(s.db, Reserved(s, t) + {s.disp.job}, d, |s.db|), d))
  }

  /** What the run must observe: submissions fit (see Quota.Fits), and the dispatcher does not take
      its quota reading while one of the tenant's jobs is inside the retry window. */
  predicate Guarded(s: Sys, e: Step) {
    && (e.SubmitCheck? && e.tenant in s.quotas ==> Fits(s.quotas[e.tenant], e.res))
    && (e.DispCheck? && s.disp.Picked? && s.disp.job < |s.db| ==>
          Reserved(s, s.db[s.disp.job].tenant) == ActiveJobs(s.db, s.db[s.disp.job].tenant))
  }

  predicate GuardedRun(s: Sys, es: seq<Step>)
    decreases |es|
  {
    es == [] || (Guarded(s, es[0]) && GuardedRun(Apply(s, es[0]), es[1..]))
  }

  // ---------------------------------------------------------------- facts about Load

  lemma {:induction false} LoadMonotone(a: Table, b: Table, sel: set<nat>, sel': set<nat>, d: Dim, n: nat)
    requires n <= |a| && n <= |b| && forall i :: 0 <= i < n ==> a[i].res == b[i].res && 0 <= Demand(a[i].res, d)
    requires forall i :: 0 <= i < n && i in sel ==> i in sel'
    ensures 0 <= Load(a, sel, d, n) <= Load(b, sel', d, n)
  {
    if n > 0 {
      LoadMonotone(a, b, sel, sel', d, n - 1);
    }
  }

  lemma {:induction false} LoadAdd(db: Table, sel: set<nat>, x: nat, d: Dim, n: nat)
    requires n <= |db| && x !in sel
    ensures Load(db, sel + {x}, d, n) == Load(db, sel, d, n) + if x < n then Demand(db[x].res, d) else 0
  {
    if n > 0 {
      LoadAdd(db, sel, x, d, n - 1);
    }
  }

  lemma {:induction false} LoadPrefix(a: Table, b: Table, sel: set<nat>, d: Dim, n: nat)
    requires n <= |a| && n <= |b| && forall i :: 0 <= i < n ==> a[i].res == b[i].res
    ensures Load(a, sel, d, n) == Load(b, sel, d, n)
  {
    if n > 0 {
      LoadPrefix(a, b, sel, d, n - 1);
    }
  }

  lemma {:induction false} LoadNone(db: Table, sel: set<nat>, d: Dim, m: nat, n: nat)
    requires m <= n <= |db| && forall i :: m <= i < n ==> i !in sel
    ensures Load(db, sel, d, n) == Load(db, sel, d, m)
  {
    if m < n {
      LoadNone(db, sel, d, m, n - 1);
    }
  }

  function Listed(db: Table, tenant: string, withPending: bool): set<nat> {
    set i: nat | i < |db| && db[i].tenant == tenant && (Active(db[i].status) || (withPending && db[i].status == PENDING))
  }

  /** The list queries feed CheckQuota exactly the load of the rows they select. */
  lemma {:induction false} ListedLoad(db: Table, tenant: string, withPending: bool, d: Dim)
    ensures Total(ResourcesOf(db, tenant, withPending), d) == Load(db, Listed(db, tenant, withPending), d, |db|)
    decreases |db|
  {
    if db != [] {
      var n := |db| - 1;
      var rest := db[..n];
      ListedLoad(rest, tenant, withPending, d);
      LoadOfFront(db, tenant, withPending, d);
      TotalAppends(ResourcesOf(rest, tenant, withPending), db[n].res, d);
    }
  }

  lemma TotalAppends(rs: seq<JobResources>, r: JobResources, d: Dim)
    ensures Total(rs + [r], d) == Total(rs, d) + Demand(r, d)
  {
  }

  lemma LoadOfFront(db: Table, tenant: string, withPending: bool, d: Dim)
    requires db != []
    ensures var n := |db| - 1;
            Load(db[..n], Listed(db[..n], tenant, withPending), d, n) == Load(db, Listed(db, tenant, withPending), d, n)
  {
    var n := |db| - 1;
    var rest := db[..n];
    LoadPrefix(rest, db, Listed(rest, tenant, withPending), d, n);
    LoadSameBelow(db, Listed(rest, tenant, withPending), Listed(db, tenant, withPending), d, n);
  }

  lemma {:induction false} LoadSameBelow(db: Table, sel: set<nat>, sel': set<nat>, d: Dim, n: nat)
    requires n <= |db| && forall i :: 0 <= i < n ==> (i in sel <==> i in sel')
    ensures Load(db, sel, d, n) == Load(db, sel', d, n)
  {
    if n > 0 {
      LoadSameBelow(db, sel, sel', d, n - 1);
    }
  }

  // ---------------------------------------------------------------- nothing is reserved but by promotion

  lemma PendingOutsideWindow(s: Sys, i: nat)
    requires JobsInv(s) && i < |s.db| && s.db[i].status == PENDING
    ensures !InRetryWindow(s, i)
  {
  }

  /** A row that is reserved after a step was reserved before it, unless the step promoted it. */
  lemma ReservationsShrink(s: Sys, e: Step, i: nat)
    requires JobsInv(s) && i < |Apply(s, e).db|
    requires Active(Apply(s, e).db[i].status) || InRetryWindow(Apply(s, e), i)
    requires !(e.DispCommit? && s.disp == Cleared(i))
    ensures i < |s.db| && (Active(s.db[i].status) || InRetryWindow(s, i))
  {
    var t := Apply(s, e);
    JobsInvStep(s, e);
    if i >= |s.db| {
      NewRowUnnamed(s, e, i);
      PendingOutsideWindow(t, i);
    } else if !HandlerStep(e) {
      OthersReserveNothing(s, e, i);
    } else if i != Touched(s, e) {
      HandlerTouches(s, e, i);
      UntouchedWindow(s, e, i);
    } else {
      TouchedWindow(s, e, i);
    }
  }

  lemma HandlersOnlyMoveTheirOwn(s: Sys, e: Step, h: nat)
    requires HandlerStep(e) && h in ApplyHandler(s, e).handlers
    ensures h != e.handler ==> h in s.handlers && ApplyHandler(s, e).handlers[h] == s.handlers[h]
    ensures h == e.handler && !e.Receive? ==> h in s.handlers && ApplyHandler(s, e).handlers[h].job == s.handlers[h].job
    ensures h == e.handler && e.Receive? && h !in s.handlers ==> ApplyHandler(s, e).handlers[h].Deciding?
    ensures h == e.handler && e.Receive? && h in s.handlers ==> ApplyHandler(s, e).handlers[h] == s.handlers[h]
  {
    match e
    case Receive(_, _, _, _, _) =>
    case Decide(_, _, _) =>
    case Record(_, _) =>
    case Count(_, _) =>
    case Recreate(_, _) =>
    case Requeue(_, _, _) =>
    case HandlerCrash(_) =>
  }

  lemma UntouchedWindow(s: Sys, e: Step, i: nat)
    requires HandlerStep(e) && i < |s.db| && i < |ApplyHandler(s, e).db| && i != Touched(s, e) && ApplyHandler(s, e).db[i] == s.db[i]
    ensures InRetryWindow(ApplyHandler(s, e), i) ==> InRetryWindow(s, i)
  {
    var t := ApplyHandler(s, e);
    if InRetryWindow(t, i) {
      var h :| h in t.handlers && t.handlers[h].job == i && WillRequeue(t.db[i], t.handlers[h]);
      HandlersOnlyMoveTheirOwn(s, e, h);
    }
  }

  lemma OthersReserveNothing(s: Sys, e: Step, i: nat)
    requires i < |s.db| && i < |Apply(s, e).db| && !HandlerStep(e)
    requires Active(Apply(s, e).db[i].status) || InRetryWindow(Apply(s, e), i)
    requires !(e.DispCommit? && s.disp == Cleared(i))
    ensures Active(s.db[i].status) || InRetryWindow(s, i)
  {
    var t := Apply(s, e);
    if !WritesJobs(e) {
      OtherStepsLeaveJobs(s, e);
    }
    assert t.handlers == s.handlers;
    assert t.db[i].status == s.db[i].status && t.db[i].retryCount == s.db[i].retryCount;
    if InRetryWindow(t, i) {
      var h :| h in t.handlers && t.handlers[h].job == i && WillRequeue(t.db[i], t.handlers[h]);
      assert WillRequeue(s.db[i], s.handlers[h]);
    }
  }

  /** The handler that moved: it was on a live job, or already in the window. */
  lemma TouchedWindow(s: Sys, e: Step, i: nat)
    requires JobsInv(s) && HandlerStep(e) && i < |s.db| && i == Touched(s, e) && i < |ApplyHandler(s, e).db|
    requires JobsInv(ApplyHandler(s, e))
    requires Active(ApplyHandler(s, e).db[i].status) || InRetryWindow(ApplyHandler(s, e), i)
    ensures Active(s.db[i].status) || InRetryWindow(s, i)
  {
    var t := ApplyHandler(s, e);
    var me := s.handlers[e.handler];
    assert HandlerOk(s.db[i], me);
    if InRetryWindow(t, i) {
      var h :| h in t.handlers && t.handlers[h].job == i && WillRequeue(t.db[i], t.handlers[h]);
      HandlersOnlyMoveTheirOwn(s, e, h);
      TouchedWindowHandler(s, e, i, h);
    } else {
      TouchedActive(s, e, i);
    }
  }

  lemma TouchedActive(s: Sys, e: Step, i: nat)
    requires HandlerStep(e) && i < |s.db| && i == Touched(s, e) && i < |ApplyHandler(s, e).db|
    requires JobsInv(s) && Active(ApplyHandler(s, e).db[i].status)
    ensures Active(s.db[i].status) || InRetryWindow(s, i)
  {
    match e
    case Decide(h, now, ok) => DecidedActive(s, h, now, ok, i);
    case Record(h, ok) => StatusUnmoved(s, h, ok, i);
    case Count(h, ok) => StatusUnmoved(s, h, ok, i);
    case Recreate(h, ok) => StatusUnmoved(s, h, ok, i);
    case Requeue(h, now, ok) => RequeuedActive(s, h, now, ok, i);
    case HandlerCrash(_) =>
  }

  lemma StatusUnmoved(s: Sys, h: nat, ok: bool, i: nat)
    requires i < |s.db|
    ensures var t := ApplyRecord(s, h, ok); |t.db| == |s.db| && t.db[i].status == s.db[i].status
    ensures var t := ApplyCount(s, h, ok); |t.db| == |s.db| && t.db[i].status == s.db[i].status
    ensures var t := ApplyRecreate(s, h, ok); |t.db| == |s.db| && t.db[i].status == s.db[i].status
  {
  }

  lemma DecidedActive(s: Sys, h: nat, now: nat, ok: bool, i: nat)
    requires JobsInv(s) && h in s.handlers && i == s.handlers[h].job && i < |ApplyDecide(s, h, now, ok).db|
    requires i < |s.db| && Active(ApplyDecide(s, h, now, ok).db[i].status)
    ensures Active(s.db[i].status)
  {
  }

  lemma RequeuedActive(s: Sys, h: nat, now: nat, ok: bool, i: nat)
    requires JobsInv(s) && h in s.handlers && i == s.handlers[h].job && i < |ApplyRequeue(s, h, now, ok).db|
    requires i < |s.db| && Active(ApplyRequeue(s, h, now, ok).db[i].status)
    ensures Active(s.db[i].status) || InRetryWindow(s, i)
  {
  }

  lemma TouchedWindowHandler(s: Sys, e: Step, i: nat, h: nat)
    requires JobsInv(s) && HandlerStep(e) && i < |s.db| && i == Touched(s, e) && i < |ApplyHandler(s, e).db|
    requires h in ApplyHandler(s, e).handlers && h in s.handlers && s.handlers[h].job == i
    requires h != e.handler ==> ApplyHandler(s, e).handlers[h] == s.handlers[h]
    requires WillRequeue(ApplyHandler(s, e).db[i], ApplyHandler(s, e).handlers[h])
    ensures Active(s.db[i].status) || InRetryWindow(s, i)
  {
    if h != e.handler {
      BystanderWindow(s, e, i, h);
    } else {
      match e
      case Decide(_, now, ok) => DecidedWindow(s, h, now, ok, i);
      case Record(_, ok) => RecordedWindow(s, h, ok, i);
      case Count(_, ok) => CountedWindow(s, h, ok, i);
      case Recreate(_, ok) => RecreatedWindow(s, h, ok, i);
      case Requeue(_, now, ok) => RequeuedWindow(s, h, now, ok, i);
      case HandlerCrash(_) =>
    }
  }

  /** A handler beside the one that moved: the retry count of its job can only have grown. */
  lemma BystanderWindow(s: Sys, e: Step, i: nat, h: nat)
    requires JobsInv(s) && HandlerStep(e) && i < |s.db| && i == Touched(s, e) && i < |ApplyHandler(s, e).db|
    requires h in s.handlers && s.handlers[h].job == i && WillRequeue(ApplyHandler(s, e).db[i], s.handlers[h])
    ensures InRetryWindow(s, i)
  {
    assert HandlerOk(s.db[i], s.handlers[h]) && RowOk(s.db[i]);
    HandlerStepEvolves(s, e);
    assert WillRequeue(s.db[i], s.handlers[h]);
  }

  lemma DecidedWindow(s: Sys, h: nat, now: nat, ok: bool, i: nat)
    requires JobsInv(s) && h in s.handlers && i == s.handlers[h].job && i < |s.db|
    requires i < |ApplyDecide(s, h, now, ok).db| && h in ApplyDecide(s, h, now, ok).handlers
    requires WillRequeue(ApplyDecide(s, h, now, ok).db[i], ApplyDecide(s, h, now, ok).handlers[h])
    ensures Active(s.db[i].status) || InRetryWindow(s, i)
  {
  }

  lemma RecordedWindow(s: Sys, h: nat, ok: bool, i: nat)
    requires JobsInv(s) && h in s.handlers && i == s.handlers[h].job && i < |s.db|
    requires i < |ApplyRecord(s, h, ok).db| && h in ApplyRecord(s, h, ok).handlers
    requires WillRequeue(ApplyRecord(s, h, ok).db[i], ApplyRecord(s, h, ok).handlers[h])
    ensures InRetryWindow(s, i)
  {
    assert HandlerOk(s.db[i], s.handlers[h]) && RowOk(s.db[i]);
    assert WillRequeue(s.db[i], s.handlers[h]);
  }

  lemma CountedWindow(s: Sys, h: nat, ok: bool, i: nat)
    requires JobsInv(s) && h in s.handlers && i == s.handlers[h].job && i < |s.db|
    requires i < |ApplyCount(s, h, ok).db| && h in ApplyCount(s, h, ok).handlers
    requires WillRequeue(ApplyCount(s, h, ok).db[i], ApplyCount(s, h, ok).handlers[h])
    ensures InRetryWindow(s, i)
  {
    assert HandlerOk(s.db[i], s.handlers[h]) && RowOk(s.db[i]);
    assert WillRequeue(s.db[i], s.handlers[h]);
  }

  lemma RecreatedWindow(s: Sys, h: nat, ok: bool, i: nat)
    requires JobsInv(s) && h in s.handlers && i == s.handlers[h].job && i < |s.db|
    requires i < |ApplyRecreate(s, h, ok).db| && h in ApplyRecreate(s, h, ok).handlers
    requires WillRequeue(ApplyRecreate(s, h, ok).db[i], ApplyRecreate(s, h, ok).handlers[h])
    ensures InRetryWindow(s, i)
  {
    assert HandlerOk(s.db[i], s.handlers[h]) && RowOk(s.db[i]);
    assert WillRequeue(s.db[i], s.handlers[h]);
  }

  lemma RequeuedWindow(s: Sys, h: nat, now: nat, ok: bool, i: nat)
    requires JobsInv(s) && h in s.handlers && i == s.handlers[h].job && i < |s.db|
    requires i < |ApplyRequeue(s, h, now, ok).db| && h in ApplyRequeue(s, h, now, ok).handlers
    requires WillRequeue(ApplyRequeue(s, h, now, ok).db[i], ApplyRequeue(s, h, now, ok).handlers[h])
    ensures InRetryWindow(s, i)
  {
    assert HandlerOk(s.db[i], s.handlers[h]) && RowOk(s.db[i]);
    assert WillRequeue(s.db[i], s.handlers[h]);
  }

  // ---------------------------------------------------------------- the quota invariant

  lemma QuotasFixed(s: Sys, e: Step)
    ensures Apply(s, e).quotas == s.quotas
  {
    match e
    case SubmitCheck(_, _, _) =>
    case SubmitInsert(_, _, _) =>
    case SubmitDrop(_) =>
    case DispList =>
    case DispTake =>
    case DispPick(_) =>
    case DispCheck =>
    case DispCommit(_) =>
    case DispCreate(_) =>
    case DispName(_) =>
    case DispCrash =>
    case Receive(_, _, _, _, _) =>
    case Decide(_, _, _) =>
    case Record(_, _) =>
    case Count(_, _) =>
    case Recreate(_, _) =>
    case Requeue(_, _, _) =>
    case HandlerCrash(_) =>
  }

  lemma SubmissionsComeFromChecks(s: Sys, e: Step)
    ensures e.SubmitCheck? || forall x :: x in Apply(s, e).subs ==> x in s.subs && Apply(s, e).subs[x] == s.subs[x]
  {
    match e
    case SubmitCheck(_, _, _) =>
    case SubmitInsert(_, _, _) =>
    case SubmitDrop(_) =>
    case DispList =>
    case DispTake =>
    case DispPick(_) =>
    case DispCheck =>
    case DispCommit(_) =>
    case DispCreate(_) =>
    case DispName(_) =>
    case DispCrash =>
    case Receive(_, _, _, _, _) =>
    case Decide(_, _, _) =>
    case Record(_, _) =>
    case Count(_, _) =>
    case Recreate(_, _) =>
    case Requeue(_, _, _) =>
    case HandlerCrash(_) =>
  }

  lemma FittedStep(s: Sys, e: Step)
    requires JobsInv(s) && Fitted(s)
    requires e.SubmitCheck? && e.tenant in s.quotas ==> Fits(s.quotas[e.tenant], e.res)
    ensures Fitted(Apply(s, e))
  {
    var t := Apply(s, e);
    QuotasFixed(s, e);
    SubmissionsComeFromChecks(s, e);
    StepEvolves(s, e);
    forall i: nat | i < |t.db| ensures t.db[i].tenant in t.quotas && Fits(t.quotas[t.db[i].tenant], t.db[i].res) {
      if i < |s.db| {
        assert RowEvolves(s.db[i], t.db[i]);
      } else {
        NewRowIsSubmission(s, e, i);
      }
    }
  }

  lemma NewRowIsSubmission(s: Sys, e: Step, i: nat)
    requires |s.db| <= i < |Apply(s, e).db|
    ensures e.SubmitInsert? && e.sub in s.subs && i == |s.db|
    ensures Apply(s, e).db[i].tenant == s.subs[e.sub].tenant && Apply(s, e).db[i].res == s.subs[e.sub].res
  {
    if !e.SubmitInsert? {
      if !WritesJobs(e) {
        OtherStepsLeaveJobs(s, e);
      }
    }
  }

  /** Loads compared across a step: same resources row by row, non-negative, smaller selection. */
  lemma LoadAfterStep(s: Sys, e: Step, sel: set<nat>, sel': set<nat>, d: Dim)
    requires JobsInv(s) && Fitted(s)
    requires forall i :: i in sel' ==> i < |s.db| && i in sel
    ensures |s.db| <= |Apply(s, e).db|
    ensures Load(Apply(s, e).db, sel', d, |Apply(s, e).db|) <= Load(s.db, sel, d, |s.db|)
  {
    var t := Apply(s, e);
    StepEvolves(s, e);
    forall i: nat | i < |s.db| ensures t.db[i].res == s.db[i].res && 0 <= Demand(s.db[i].res, d) {
      assert RowEvolves(s.db[i], t.db[i]);
    }
    LoadNone(t.db, sel', d, |s.db|, |t.db|);
    LoadMonotone(t.db, s.db, sel', sel, d, |s.db|);
  }

  lemma ReservedAfter(s: Sys, e: Step, tenant: string)
    requires JobsInv(s)
    ensures forall i :: i in Reserved(Apply(s, e), tenant) && !(e.DispCommit? && s.disp == Cleared(i)) ==>
              i < |s.db| && i in Reserved(s, tenant)
  {
    var t := Apply(s, e);
    StepEvolves(s, e);
    forall i | i in Reserved(t, tenant) && !(e.DispCommit? && s.disp == Cleared(i))
      ensures i < |s.db| && i in Reserved(s, tenant)
    {
      ReservationsShrink(s, e, i);
      assert RowEvolves(s.db[i], t.db[i]);
    }
  }

  /** The stability argument: between the dispatcher's reading and its commit no interleaved step
      raises the tenant's reserved load, so the head room it saw is still there. */
  lemma ReservedLoadKept(s: Sys, e: Step, tenant: string, d: Dim)
    requires JobsInv(s) && DispInv(s) && QuotaInv(s) && tenant in s.quotas
    ensures WithinLimit(s.quotas, tenant, Load(Apply(s, e).db, Reserved(Apply(s, e), tenant), d, |Apply(s, e).db|), d)
  {
    var t := Apply(s, e);
    ReservedAfter(s, e, tenant);
    if e.DispCommit? && s.disp.Cleared? && s.db[s.disp.job].tenant == tenant {
      var sel := Reserved(s, tenant) + {s.disp.job};
      assert WithinLimit(s.quotas, tenant, Load(s.db, sel, d, |s.db|), d);
      LoadAfterStep(s, e, sel, Reserved(t, tenant), d);
    } else {
      StepEvolves(s, e);
      assert e.DispCommit? && s.disp.Cleared? ==> RowEvolves(s.db[s.disp.job], t.db[s.disp.job]);
      LoadAfterStep(s, e, Reserved(s, tenant), Reserved(t, tenant), d);
    }
  }

  lemma ClearedKept(s: Sys, e: Step, d: Dim)
    requires JobsInv(s) && DispInv(s) && QuotaInv(s) && Guarded(s, e)
    requires Apply(s, e).disp.Cleared? && Apply(s, e).disp.job < |Apply(s, e).db|
    ensures var t := Apply(s, e); var tenant := t.db[t.disp.job].tenant;
            WithinLimit(s.quotas, tenant, Load(t.db, Reserved(t, tenant) + {t.disp.job}, d, |t.db|), d)
  {
    var t := Apply(s, e);
    if e.DispCheck? && s.disp.Picked? {
      CheckClears(s, d);
      assert t == s.(disp := Cleared(s.disp.job));
      assert Reserved(t, s.db[s.disp.job].tenant) == Reserved(s, s.db[s.disp.job].tenant);
    } else {
      ClearedEarlier(s, e);
      var job := s.disp.job;
      var tenant := s.db[job].tenant;
      StepEvolves(s, e);
      assert RowEvolves(s.db[job], t.db[job]);
      ReservedAfter(s, e, tenant);
      assert WithinLimit(s.quotas, tenant, Load(s.db, Reserved(s, tenant) + {job}, d, |s.db|), d);
      LoadAfterStep(s, e, Reserved(s, tenant) + {job}, Reserved(t, tenant) + {job}, d);
    }
  }

  lemma ClearedEarlier(s: Sys, e: Step)
    requires Apply(s, e).disp.Cleared? && !(e.DispCheck? && s.disp.Picked?)
    ensures s.disp == Apply(s, e).disp && !e.DispCommit?
  {
    if !DispStep(e) {
      OthersLeaveDispatcher(s, e);
    }
  }

  /** The int64 comparison in CheckQuota means what it should for fitting demands. */
  lemma CheckClears(s: Sys, d: Dim)
    requires JobsInv(s) && DispInv(s) && QuotaInv(s) && Guarded(s, DispCheck) && s.disp.Picked?
    requires ApplyDispCheck(s).disp.Cleared?
    ensures var tenant := s.db[s.disp.job].tenant;
            WithinLimit(s.quotas, tenant, Load(s.db, Reserved(s, tenant) + {s.disp.job}, d, |s.db|), d)
  {
    var job := s.disp.job;
    var tenant := s.db[job].tenant;
    var quota := s.quotas[tenant];
    if Limit(quota, d) > 0 {
      PendingOutsideWindow(s, job);
      LoadAdd(s.db, Reserved(s, tenant), job, d, |s.db|);
      ListedLoad(s.db, tenant, false, d);
      assert Listed(s.db, tenant, false) == ActiveJobs(s.db, tenant) == Reserved(s, tenant);
      var used := Load(s.db, Reserved(s, tenant), d, |s.db|);
      assert WithinLimit(s.quotas, tenant, used, d);
      LoadMonotone(s.db, s.db, Reserved(s, tenant), Reserved(s, tenant), d, |s.db|);
      assert Fits(quota, s.db[job].res);
      assert DimAccepts(Limit(quota, d), Total(ResourcesOf(s.db, tenant, false), d), Demand(s.db[job].res, d));
    }
  }

  lemma QuotaStep(s: Sys, e: Step)
    requires JobsInv(s) && DispInv(s) && QuotaInv(s) && Guarded(s, e)
    ensures QuotaInv(Apply(s, e))
  {
    var t := Apply(s, e);
    FittedStep(s, e);
    QuotasFixed(s, e);
    forall tenant, d: Dim {:trigger Load(t.db, Reserved(t, tenant), d, |t.db|)} | tenant in t.quotas
      ensures WithinLimit(t.quotas, tenant, Load(t.db, Reserved(t, tenant), d, |t.db|), d)
    {
      ReservedLoadKept(s, e, tenant, d);
    }
    if t.disp.Cleared? && t.disp.job < |t.db| {
      var tenant := t.db[t.disp.job].tenant;
      forall d: Dim
        ensures WithinLimit(t.quotas, tenant, Load(t.db, Reserved(t, tenant) + {t.disp.job}, d, |t.db|), d)
      {
        ClearedKept(s, e, d);
      }
    }
  }

  lemma {:induction false} QuotaHolds(s: Sys, es: seq<Step>)
    requires JobsInv(s) && DispInv(s) && QuotaInv(s) && GuardedRun(s, es)
    ensures JobsInv(Exec(s, es)) && QuotaInv(Exec(s, es))
    decreases |es|
  {
    if es != [] {
      JobsInvStep(s, es[0]);
      DispInvStep(s, es[0]);
      QuotaStep(s, es[0]);
      QuotaHolds(Apply(s, es[0]), es[1..]);
    }
  }

  /** What a tenant's QUEUED and RUNNING jobs take up. */
  function Usage(db: Table, tenant: string, d: Dim): int {
    Load(db, ActiveJobs(db, tenant), d, |db|)
  }

  lemma UsageWithinReserved(s: Sys, tenant: string, d: Dim)
    requires Fitted(s)
    ensures Usage(s.db, tenant, d) <= Load(s.db, Reserved(s, tenant), d, |s.db|)
  {
    LoadMonotone(s.db, s.db, ActiveJobs(s.db, tenant), Reserved(s, tenant), d, |s.db|);
  }

  /** Quota safety: in every guarded run no tenant's QUEUED and RUNNING jobs exceed a positive quota. */
  lemma QuotaSafety(quotas: map<string, TenantQuota>, retryDefault: nat, es: seq<Step>, tenant: string, d: Dim)
    requires GuardedRun(Init(quotas, retryDefault), es) && tenant in quotas && Limit(quotas[tenant], d) > 0
    ensures Usage(Exec(Init(quotas, retryDefault), es).db, tenant, d) <= Limit(quotas[tenant], d)
  {
    var s0 := Init(quotas, retryDefault);
    var s := Exec(s0, es);
    QuotaHolds(s0, es);
    QuotasNeverChange(s0, es);
    UsageWithinReserved(s, tenant, d);
    assert WithinLimit(s.quotas, tenant, Load(s.db, Reserved(s, tenant), d, |s.db|), d);
  }

  lemma {:induction false} UsageIs(db: Table, tenant: string, withPending: bool, cpu: seq<int>, mem: seq<int>, n: nat)
    requires |cpu| == |mem| == |db| + 1 && cpu[0] == mem[0] == 0 && n <= |db|
    requires forall i :: 0 <= i < |db| ==>
               var j := db[i];
               var counts := j.tenant == tenant && (j.status == QUEUED || j.status == RUNNING || (withPending && j.status == PENDING));
               && cpu[i + 1] == cpu[i] + (if counts then j.res.numWorkers * j.res.workerCpu + j.res.headCpu else 0)
               && mem[i + 1] == mem[i] + (if counts then j.res.numWorkers * j.res.workerMemory + j.res.headMemory else 0)
    ensures Load(db, Listed(db, tenant, withPending), Cpu, n) == cpu[n]
    ensures Load(db, Listed(db, tenant, withPending), Memory, n) == mem[n]
  {
    if n > 0 {
      UsageIs(db, tenant, withPending, cpu, mem, n - 1);
    }
  }

  /** The quota readings, written out: a job is accepted exactly if what it asks for, workers and head,
      fits beside the QUEUED and RUNNING jobs of the tenant, and before its insert also the PENDING ones. */
  lemma ReadingExactly(db: Table, tenant: string, withPending: bool, quota: TenantQuota, res: JobResources, cpu: seq<int>, mem: seq<int>)
    requires |cpu| == |mem| == |db| + 1 && cpu[0] == mem[0] == 0
    requires forall i :: 0 <= i < |db| ==>
               var j := db[i];
               var counts := j.tenant == tenant && (j.status == QUEUED || j.status == RUNNING || (withPending && j.status == PENDING));
               && cpu[i + 1] == cpu[i] + (if counts then j.res.numWorkers * j.res.workerCpu + j.res.headCpu else 0)
               && mem[i + 1] == mem[i] + (if counts then j.res.numWorkers * j.res.workerMemory + j.res.headMemory else 0)
    requires 0 <= cpu[|db|] + (res.numWorkers * res.workerCpu + res.headCpu) <= MAX_INT64
    requires 0 <= mem[|db|] + (res.numWorkers * res.workerMemory + res.headMemory) <= MAX_INT64
    ensures Accepts(quota, ResourcesOf(db, tenant, withPending), res) <==>
            && (quota.cpuMillicores > 0 ==> cpu[|db|] + (res.numWorkers * res.workerCpu + res.headCpu) <= quota.cpuMillicores)
            && (quota.memoryBytes > 0 ==> mem[|db|] + (res.numWorkers * res.workerMemory + res.headMemory) <= quota.memoryBytes)
  {
    UsageIs(db, tenant, withPending, cpu, mem, |db|);
    ListedLoad(db, tenant, withPending, Cpu);
    ListedLoad(db, tenant, withPending, Memory);
    AcceptsSums(quota, ResourcesOf(db, tenant, withPending), res, cpu[|db|], mem[|db|]);
  }

  /** The same with the sums written out row by row: `cpu` and `mem` add up what the QUEUED and RUNNING
      jobs of the tenant ask for, workers and head. */
  lemma QuotaSafetyInFull(quotas: map<string, TenantQuota>, retryDefault: nat, es: seq<Step>, tenant: string, cpu: seq<int>, mem: seq<int>)
    requires GuardedRun(Init(quotas, retryDefault), es) && tenant in quotas
    requires var db := Exec(Init(quotas, retryDefault), es).db;
             && |cpu| == |mem| == |db| + 1 && cpu[0] == mem[0] == 0
             && forall i :: 0 <= i < |db| ==>
                  var j := db[i];
                  var counts := j.tenant == tenant && (j.status == QUEUED || j.status == RUNNING);
                  && cpu[i + 1] == cpu[i] + (if counts then j.res.numWorkers * j.res.workerCpu + j.res.headCpu else 0)
                  && mem[i + 1] == mem[i] + (if counts then j.res.numWorkers * j.res.workerMemory + j.res.headMemory else 0)
    ensures quotas[tenant].cpuMillicores > 0 ==> cpu[|cpu| - 1] <= quotas[tenant].cpuMillicores
    ensures quotas[tenant].memoryBytes > 0 ==> mem[|mem| - 1] <= quotas[tenant].memoryBytes
  {
    var db := Exec(Init(quotas, retryDefault), es).db;
    UsageIs(db, tenant, false, cpu, mem, |db|);
    assert ActiveJobs(db, tenant) == Listed(db, tenant, false);
    if quotas[tenant].cpuMillicores > 0 { QuotaSafety(quotas, retryDefault, es, tenant, Cpu); }
    if quotas[tenant].memoryBytes > 0 { QuotaSafety(quotas, retryDefault, es, tenant, Memory); }
  }

  lemma {:induction false} QuotasNeverChange(s: Sys, es: seq<Step>)
    ensures Exec(s, es).quotas == s.quotas
    decreases |es|
  {
    if es != [] {
      QuotasFixed(s, es[0]);
      QuotasNeverChange(Apply(s, es[0]), es[1..]);
    }
  }
}
