/** The dispatcher's promises: submission order per tenant, and one RayJob per job. */
module JobDispatch {
  import opened Prelude
  import opened Quota
  import opened Jobs
  import opened JobProtocol
  import opened JobHistory
  import opened JobScripts

  predicate Started(db: Table, i: nat) {
    i < |db| && db[i].status != PENDING
  }

  predicate AllStarted(db: Table, todo: seq<nat>) {
    forall i :: i in todo ==> Started(db, i)
  }

  /** What the dispatcher still knows to be true when it acts on what it read earlier. */
  predicate DispInv(s: Sys) {
    match s.disp
    case Ready(todo) => AllStarted(s.db, todo)
    case Picked(job) => job < |s.db| && IsOldestPending(s.db, s.db[job].tenant, job)
    case Cleared(job) => job < |s.db| && IsOldestPending(s.db, s.db[job].tenant, job)
    case Submitting(job, todo) => Started(s.db, job) && AllStarted(s.db, todo)
    case Naming(job, name, todo) =>
      && Started(s.db, job) && AllStarted(s.db, todo)
      && name == RayJobName(s.db[job].id) && name in s.rayJobs
  }

  /** `name` is the RayJob of job `i`, which has left PENDING. */
  predicate Owns(s: Sys, i: nat, name: string)
    requires name in s.rayJobs
  {
    Started(s.db, i) && RayJobName(s.db[i].id) == name && s.rayJobs[name] == RayJob(s.db[i].id, s.db[i].tenant)
  }

  ghost predicate Owned(s: Sys) {
    forall name :: name in s.rayJobs ==> exists i: nat :: Owns(s, i, name)
  }

  predicate NameOk(s: Sys, j: Job) {
    j.rayJobName.Some? ==> j.rayJobName.value == RayJobName(j.id) && j.rayJobName.value in s.rayJobs
  }

  predicate NamesOk(s: Sys) {
    forall i :: 0 <= i < |s.db| ==> NameOk(s, s.db[i])
  }

  ghost predicate RayInv(s: Sys) {
    Owned(s) && NamesOk(s)
  }

  /** Only the dispatcher's commit takes a job out of PENDING. */
  lemma PendingStays(s: Sys, e: Step, i: nat)
    requires JobsInv(s) && i < |s.db| && s.db[i].status == PENDING && !e.DispCommit?
    ensures i < |Apply(s, e).db| && Apply(s, e).db[i].status == PENDING
  {
    if i != Touched(s, e) {
      OnlyTouchedRowChanges(s, e, i);
    } else if HandlerStep(e) {
      PendingIgnoresHandlers(s, e, i);
    }
  }

  lemma PendingIgnoresHandlers(s: Sys, e: Step, i: nat)
    requires JobsInv(s) && i < |s.db| && s.db[i].status == PENDING && HandlerStep(e)
    requires !e.Receive? && e.handler in s.handlers && s.handlers[e.handler].job == i
    ensures Apply(s, e).db == s.db
  {
    assert HandlerOk(s.db[i], s.handlers[e.handler]) && RowOk(s.db[i]);
    LiveJobUnheld(s, i);
    assert !HoldsJob(s.handlers[e.handler]);
  }

  lemma OldestStays(s: Sys, e: Step, job: nat)
    requires JobsInv(s) && job < |s.db| && IsOldestPending(s.db, s.db[job].tenant, job) && !e.DispCommit?
    ensures var t := Apply(s, e); job < |t.db| && IsOldestPending(t.db, t.db[job].tenant, job)
  {
    var t := Apply(s, e);
    StepEvolves(s, e);
    PendingStays(s, e, job);
    assert RowEvolves(s.db[job], t.db[job]);
    forall i | 0 <= i < job && t.db[i].tenant == t.db[job].tenant ensures t.db[i].status != PENDING {
      assert RowEvolves(s.db[i], t.db[i]);
    }
  }

  lemma StartedStays(a: Table, b: Table, todo: seq<nat>)
    requires Evolves(a, b)
    ensures AllStarted(a, todo) ==> AllStarted(b, todo)
  {
  }

  predicate DispStep(e: Step) {
    e.DispList? || e.DispTake? || e.DispPick? || e.DispCheck? || e.DispCommit? || e.DispCreate? || e.DispName? || e.DispCrash?
  }

  lemma OthersLeaveDispatcher(s: Sys, e: Step)
    requires !DispStep(e)
    ensures Apply(s, e).disp == s.disp && Apply(s, e).rayJobs == s.rayJobs
  {
    match e
    case SubmitCheck(_, _, _) =>
    case SubmitInsert(_, _, _) =>
    case SubmitDrop(_) =>
    case Receive(_, _, _, _, _) =>
    case Decide(_, _, _) =>
    case Record(_, _) =>
    case Count(_, _) =>
    case Recreate(_, _) =>
    case Requeue(_, _, _) =>
    case HandlerCrash(_) =>
  }

  lemma DispInvStep(s: Sys, e: Step)
    requires JobsInv(s) && DispInv(s)
    ensures DispInv(Apply(s, e))
  {
    if DispStep(e) {
      DispStepKeepsDispInv(s, e);
    } else {
      OthersLeaveDispatcher(s, e);
      StepEvolves(s, e);
      match s.disp
      case Ready(todo) => StartedStays(s.db, Apply(s, e).db, todo);
      case Picked(job) => OldestStays(s, e, job);
      case Cleared(job) => OldestStays(s, e, job);
      case Submitting(job, todo) => StartedStays(s.db, Apply(s, e).db, [job] + todo);
      case Naming(job, _, todo) =>
        assert RowEvolves(s.db[job], Apply(s, e).db[job]);
        StartedStays(s.db, Apply(s, e).db, todo);
    }
  }

  lemma DispStepKeepsDispInv(s: Sys, e: Step)
    requires DispInv(s) && DispStep(e)
    ensures DispInv(Apply(s, e))
  {
    if e.DispCommit? {
      CommitKeepsDispInv(s, e.ok);
    } else if e.DispName? {
      if s.disp.Naming? && e.ok {
        var job := s.disp.job;
        assert forall i: nat :: Started(s.db, i) ==> Started(WithRayJobName(s.db, job, s.disp.name), i);
      }
    } else if e.DispTake? {
    } else {
      ReadingKeepsDispInv(s, e);
    }
  }

  lemma ReadingKeepsDispInv(s: Sys, e: Step)
    requires DispInv(s) && (e.DispList? || e.DispPick? || e.DispCheck? || e.DispCreate? || e.DispCrash?)
    ensures DispInv(Apply(s, e))
  {
    match e
    case DispList =>
    case DispPick(tenant) =>
    case DispCheck =>
    case DispCreate(_) =>
    case DispCrash =>
  }

  lemma CommitKeepsDispInv(s: Sys, ok: bool)
    requires DispInv(s)
    ensures DispInv(ApplyDispCommit(s, ok))
  {
  }

  lemma OwnersStay(s: Sys, t: Sys)
    requires Evolves(s.db, t.db) && t.rayJobs == s.rayJobs && Owned(s)
    ensures Owned(t)
  {
    forall name | name in t.rayJobs ensures exists i: nat :: Owns(t, i, name) {
      var i: nat :| Owns(s, i, name);
      assert RowEvolves(s.db[i], t.db[i]);
      assert Owns(t, i, name);
    }
  }

  lemma CreateKeepsOwned(s: Sys, outcome: Outcome)
    requires DispInv(s) && Owned(s)
    ensures Owned(ApplyDispCreate(s, outcome))
  {
    var t := ApplyDispCreate(s, outcome);
    forall name | name in t.rayJobs ensures exists i: nat :: Owns(t, i, name) {
      if name in s.rayJobs {
        var i: nat :| Owns(s, i, name);
        assert Owns(t, i, name);
      } else {
        assert Owns(t, s.disp.job, name);
      }
    }
  }

  lemma OthersLeaveRayJobs(s: Sys, e: Step)
    requires !e.DispCreate?
    ensures Apply(s, e).rayJobs == s.rayJobs
  {
    if !DispStep(e) {
      OthersLeaveDispatcher(s, e);
    }
  }

  lemma OwnedStep(s: Sys, e: Step)
    requires JobsInv(s) && DispInv(s) && Owned(s)
    ensures Owned(Apply(s, e))
  {
    if e.DispCreate? {
      CreateKeepsOwned(s, e.outcome);
    } else {
      OthersLeaveRayJobs(s, e);
      StepEvolves(s, e);
      OwnersStay(s, Apply(s, e));
    }
  }

  /** rayjob_name is written by SetRayJobName only. */
  lemma HandlersDoNotName(s: Sys, e: Step, i: nat)
    requires i < |s.db| && HandlerStep(e) && i == Touched(s, e)
    ensures |ApplyHandler(s, e).db| == |s.db| && ApplyHandler(s, e).db[i].rayJobName == s.db[i].rayJobName
  {
    match e
    case Decide(_, _, _) =>
    case Record(_, _) =>
    case Count(_, _) =>
    case Recreate(_, _) =>
    case Requeue(_, _, _) =>
    case HandlerCrash(_) =>
  }

  lemma NameKept(s: Sys, e: Step, i: nat)
    requires i < |s.db| && !e.DispName?
    ensures i < |Apply(s, e).db| && Apply(s, e).db[i].rayJobName == s.db[i].rayJobName
  {
    if i != Touched(s, e) {
      OnlyTouchedRowChanges(s, e, i);
    } else if HandlerStep(e) {
      HandlersDoNotName(s, e, i);
    }
  }

  lemma NamingKeepsNames(s: Sys, ok: bool)
    requires DispInv(s) && NamesOk(s)
    ensures NamesOk(Apply(s, DispName(ok)))
  {
  }

  lemma NamesOkStep(s: Sys, e: Step)
    requires JobsInv(s) && DispInv(s) && NamesOk(s)
    ensures NamesOk(Apply(s, e))
  {
    if e.DispName? {
      NamingKeepsNames(s, e.ok);
    } else {
      OtherStepsKeepNames(s, e);
    }
  }

  lemma OtherStepsKeepNames(s: Sys, e: Step)
    requires JobsInv(s) && NamesOk(s) && !e.DispName?
    ensures NamesOk(Apply(s, e))
  {
    var t := Apply(s, e);
    StepEvolves(s, e);
    RayJobsGrow(s, e);
    forall i: nat | i < |t.db| ensures NameOk(t, t.db[i]) {
      if i < |s.db| {
        assert RowEvolves(s.db[i], t.db[i]) && NameOk(s, s.db[i]);
        NameKept(s, e, i);
      } else {
        NewRowUnnamed(s, e, i);
      }
    }
  }

  lemma NewRowUnnamed(s: Sys, e: Step, i: nat)
    requires |s.db| <= i < |Apply(s, e).db|
    ensures Apply(s, e).db[i].rayJobName == None && Apply(s, e).db[i].status == PENDING
  {
    if !e.SubmitInsert? {
      if !WritesJobs(e) {
        OtherStepsLeaveJobs(s, e);
      }
    }
  }

  lemma RayJobsGrow(s: Sys, e: Step)
    ensures forall name :: name in s.rayJobs ==> name in Apply(s, e).rayJobs && Apply(s, e).rayJobs[name] == s.rayJobs[name]
  {
    if !e.DispCreate? {
      OthersLeaveRayJobs(s, e);
    }
  }

  /** A name, once taken by a RayJob, keeps that RayJob for ever. */
  lemma {:induction false} RayJobsAreKept(s: Sys, es: seq<Step>, name: string)
    requires name in s.rayJobs
    ensures name in Exec(s, es).rayJobs && Exec(s, es).rayJobs[name] == s.rayJobs[name]
    decreases |es|
  {
    if es != [] {
      RayJobsGrow(s, es[0]);
      RayJobsAreKept(Apply(s, es[0]), es[1..], name);
    }
  }

  lemma {:induction false} RayInvHolds(s: Sys, es: seq<Step>)
    requires JobsInv(s) && DispInv(s) && RayInv(s)
    ensures JobsInv(Exec(s, es)) && DispInv(Exec(s, es)) && RayInv(Exec(s, es))
    decreases |es|
  {
    if es != [] {
      JobsInvStep(s, es[0]);
      DispInvStep(s, es[0]);
      OwnedStep(s, es[0]);
      NamesOkStep(s, es[0]);
      RayInvHolds(Apply(s, es[0]), es[1..]);
    }
  }

  lemma NamedStaysNamed(s: Sys, e: Step, i: nat)
    requires i < |s.db| && s.db[i].rayJobName.Some?
    ensures i < |Apply(s, e).db| && Apply(s, e).db[i].rayJobName.Some?
  {
    if !e.DispName? {
      NameKept(s, e, i);
    }
  }

  lemma {:induction false} NamedRun(s: Sys, es: seq<Step>, i: nat)
    requires i < |s.db| && s.db[i].rayJobName.Some?
    ensures i < |Exec(s, es).db| && Exec(s, es).db[i].rayJobName.Some?
    decreases |es|
  {
    if es != [] {
      NamedStaysNamed(s, es[0], i);
      NamedRun(Apply(s, es[0]), es[1..], i);
    }
  }

  /** A recorded rayjob_name is for ever, and so is the RayJob behind it: a crash, a second launch or
      a retry never gives the job another one. */
  lemma NamedForEver(quotas: map<string, TenantQuota>, retryDefault: nat, before: seq<Step>, after: seq<Step>, i: nat)
    requires var s := Exec(Init(quotas, retryDefault), before); i < |s.db| && s.db[i].rayJobName.Some?
    ensures var s := Exec(Init(quotas, retryDefault), before); var t := Exec(Init(quotas, retryDefault), before + after);
            var name := s.db[i].rayJobName.value;
            && i < |t.db| && t.db[i].rayJobName == Some(name)
            && name in s.rayJobs && name in t.rayJobs && t.rayJobs[name] == s.rayJobs[name]
  {
    var s0 := Init(quotas, retryDefault);
    var s := Exec(s0, before);
    ExecConcat(s0, before, after);
    RayInvHolds(s0, before);
    RayInvHolds(s, after);
    HistoryIsKept(s, after);
    NamedRun(s, after, i);
    var t := Exec(s, after);
    assert NameOk(s, s.db[i]) && NameOk(t, t.db[i]) && RowEvolves(s.db[i], t.db[i]);
    RayJobsAreKept(s, after, s.db[i].rayJobName.value);
  }

  predicate ShortIdsDistinct(db: Table) {
    forall i, j :: 0 <= i < j < |db| ==> ShortId(db[i].id) != ShortId(db[j].id)
  }

  lemma OneRayJobPerJob(s: Sys, a: string, b: string)
    requires Owned(s) && a in s.rayJobs && b in s.rayJobs && s.rayJobs[a].jobLabel == s.rayJobs[b].jobLabel
    ensures a == b
  {
  }

  lemma RecordedNameIsOwn(s: Sys, i: nat)
    requires RayInv(s) && ShortIdsDistinct(s.db) && i < |s.db| && s.db[i].rayJobName.Some?
    ensures s.db[i].rayJobName.value in s.rayJobs && Owns(s, i, s.db[i].rayJobName.value)
  {
    assert NameOk(s, s.db[i]);
    var k: nat :| Owns(s, k, s.db[i].rayJobName.value);
    RayJobNameInjective(s.db[i].id, s.db[k].id);
  }

  /** RayJob submission is exactly-once in effect, for any pattern of failed or lost Create and
      SetRayJobName calls: a RayJob belongs to one job, which has left PENDING; the job has no second
      one; and a recorded rayjob_name names the job's own RayJob when short ids are distinct. */
  lemma RayJobExactlyOnce(quotas: map<string, TenantQuota>, retryDefault: nat, es: seq<Step>)
    ensures var s := Exec(Init(quotas, retryDefault), es);
            && (forall name :: name in s.rayJobs ==> exists i: nat :: Owns(s, i, name))
            && (forall a, b :: a in s.rayJobs && b in s.rayJobs && s.rayJobs[a].jobLabel == s.rayJobs[b].jobLabel ==> a == b)
            && (ShortIdsDistinct(s.db) ==>
                  forall i :: 0 <= i < |s.db| && s.db[i].rayJobName.Some? ==>
                    s.db[i].rayJobName.value in s.rayJobs && Owns(s, i, s.db[i].rayJobName.value))
  {
    var s := Exec(Init(quotas, retryDefault), es);
    RayInvHolds(Init(quotas, retryDefault), es);
    forall a, b | a in s.rayJobs && b in s.rayJobs && s.rayJobs[a].jobLabel == s.rayJobs[b].jobLabel ensures a == b {
      OneRayJobPerJob(s, a, b);
    }
    if ShortIdsDistinct(s.db) {
      forall i: nat | i < |s.db| && s.db[i].rayJobName.Some?
        ensures s.db[i].rayJobName.value in s.rayJobs && Owns(s, i, s.db[i].rayJobName.value)
      {
        RecordedNameIsOwn(s, i);
      }
    }
  }

  /** Distinct short ids are needed: whenever two job ids share their first eight characters, some
      run records for the second job a RayJob that was built for the first. */
  lemma SharedShortIdMisnames(a: string, b: string) returns (es: seq<Step>)
    requires a != b && ShortId(a) == ShortId(b)
    ensures var s := Exec(Init(map["t" := TenantQuota(0, 0)], 0), es);
            && |s.db| == 2 && s.db[1].id == b && s.db[1].rayJobName == Some(RayJobName(b))
            && RayJobName(b) in s.rayJobs && s.rayJobs[RayJobName(b)].jobLabel == a
  {
    var s0 := Init(map["t" := TenantQuota(0, 0)], 0);
    var res := JobResources(1, 1, 1, 1, 1);
    var s1, e1 := Submits(s0, 0, "t", res, a, "p");
    var s2, e2 := Promotes(s1, "t", 0);
    var s3, e3 := Launches(s2, 0, []);
    var s4, e4 := Submits(s3, 0, "t", res, b, "p");
    assert s4.db[1] == Job(b, "t", "p", res, PENDING, None, 0, 0, [FreshRun(PENDING)]);
    var s5, e5 := Promotes(s4, "t", 1);
    var s6, e6 := Launches(s5, 1, []);
    ExecConcat(s0, e1, e2);
    ExecConcat(s0, e1 + e2, e3);
    ExecConcat(s0, e1 + e2 + e3, e4);
    ExecConcat(s0, e1 + e2 + e3 + e4, e5);
    ExecConcat(s0, e1 + e2 + e3 + e4 + e5, e6);
    es := e1 + e2 + e3 + e4 + e5 + e6;
  }
}
