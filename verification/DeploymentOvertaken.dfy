/** A pending deployment whose pod already runs or has failed stays pending, in every run: `pending`
    may only become provisioning or deleting, and a pod that has got further is only ever reported as
    running or failed (control-plane/internal/deployments/statemachine.go:9-30). */
module DeploymentOvertaken {
  import opened Prelude
  import opened Deployments
  import opened DeploymentProtocol
  import opened DeploymentHistory
  import opened DeploymentSafety
  import opened DeploymentVisits
  import opened DeploymentConvergence

  /** A status that a pending deployment may not be given. */
  predicate Barred(status: Status) { !ValidTransition(Pending, status) }

  predicate Ran(pod: Pod) { pod.phase in {PodRunning, PodFailed} }

  predicate ReportsBarred(reports: map<nat, StatusHandler>, i: nat) {
    forall h :: h in reports && !reports[h].Gauging? && reports[h].dep == i ==>
      reports[h].Reading? && Barred(reports[h].report.status)
  }

  predicate RecBarred(rec: Reconciler, i: nat) {
    && (rec.AtService? && rec.snap.dep == i ==> rec.pod.Some? && Ran(rec.pod.value))
    && (rec.AtReport? && rec.snap.dep == i ==> Barred(rec.report.status))
  }

  /** Nothing that is under way can move the deployment out of pending. */
  predicate Stuck(s: Sys, i: nat) {
    Inv(s) && i < |s.deps| && s.deps[i].status == Pending && ReportsBarred(s.reports, i) && RecBarred(s.op.rec, i)
  }

  predicate PodRan(s: Sys, i: nat) {
    i < |s.deps| && RowKey(s.deps[i]) in s.op.pods && Ran(s.op.pods[RowKey(s.deps[i])])
  }

  /** Not a user's delete or rollback of this deployment. */
  predicate NotByUser(s: Sys, e: Step, i: nat) {
    (e.DeleteCommit? || e.RollbackCommit?) && e.user in s.users && !s.users[e.user].Counting? ==> s.users[e.user].dep != i
  }

  /** The reconciler does not see an older phase of this pod in its cache. */
  predicate SeenRan(s: Sys, e: Step, i: nat) {
    e.StalePod? && s.op.rec.AtPod? && s.op.rec.snap.dep == i ==> Ran(e.seen)
  }

  /** A run in which the pod stays running or failed, and is seen so, and no user deletes or rolls back
      the deployment. */
  ghost predicate Unattended(s: Sys, es: seq<Step>, i: nat)
    decreases |es|
  {
    es == [] || (PodRan(s, i) && SeenRan(s, es[0], i) && NotByUser(s, es[0], i) && Unattended(Apply(s, es[0]), es[1..], i))
  }

  lemma PodStepStuck(o: Operator, deps: Table, i: nat, outcome: Outcome)
    requires RecOk(deps, o.rec) && RecBarred(o.rec, i) && i < |deps|
    requires RowKey(deps[i]) in o.pods && Ran(o.pods[RowKey(deps[i])])
    ensures RecBarred(PodEnsured(o, outcome).rec, i)
    ensures RecBarred(PodDropped(o, outcome).rec, i)
    ensures RecBarred(ServiceDropped(o, outcome).rec, i)
  {
  }

  lemma ServiceStepStuck(o: Operator, i: nat, outcome: Outcome)
    requires RecBarred(o.rec, i)
    ensures RecBarred(ServiceEnsured(o, outcome).rec, i)
  {
  }

  lemma OperatorStuck(s: Sys, e: Step, i: nat)
    requires Stuck(s, i) && PodRan(s, i) && SeenRan(s, e, i) && OperatorsOwn(e)
    ensures RecBarred(OperatorStep(s.op, s.deps, s.reports.Keys, e).rec, i)
  {
    match e
    case EnsurePod(outcome) => PodStepStuck(s.op, s.deps, i, outcome);
    case EnsureService(outcome) => ServiceStepStuck(s.op, i, outcome);
    case DropPod(outcome) => PodStepStuck(s.op, s.deps, i, outcome);
    case DropService(outcome) => PodStepStuck(s.op, s.deps, i, outcome);
    case List =>
    case Skip =>
    case Take =>
    case Resume =>
    case StalePod(_) =>
    case StaleService =>
    case MissPod =>
    case MissService =>
  }

  lemma SendStuck(s: Sys, h: nat, i: nat)
    requires Stuck(s, i)
    ensures var s' := ApplySend(s, h);
            s'.deps == s.deps && ReportsBarred(s'.reports, i) && RecBarred(s'.op.rec, i)
  {
  }

  lemma StatusReadStuck(s: Sys, h: nat, i: nat)
    requires Stuck(s, i)
    ensures var s' := ApplyStatusRead(s, h); s'.deps == s.deps && s'.op == s.op && ReportsBarred(s'.reports, i)
  {
  }

  lemma StatusWriteStuck(s: Sys, h: nat, ok: bool, i: nat)
    requires Stuck(s, i)
    ensures var s' := ApplyStatusWrite(s, h, ok);
            |s'.deps| == |s.deps| && s'.deps[i] == s.deps[i] && s'.op == s.op && ReportsBarred(s'.reports, i)
  {
  }

  lemma UserStepStuck(s: Sys, e: Step, i: nat)
    requires Stuck(s, i) && UserStep(e) && NotByUser(s, e, i)
    ensures var s' := Apply(s, e);
            i < |s'.deps| && s'.deps[i] == s.deps[i] && s'.op == s.op && s'.reports == s.reports
  {
    match e
    case Create(_, _, _, _, _, _, _) =>
    case DeleteRead(_, _, _) =>
    case DeleteCommit(_, _) =>
    case RollbackRead(_, _, _, _) =>
    case RollbackTargetRead(_) =>
    case RollbackCommit(_, _) =>
  }

  lemma CountingStuck(s: Sys, e: Step, i: nat)
    requires Stuck(s, i) && (e.UserGauge? || e.StatusGauge? || e.UserErrs? || e.StatusErrs?)
    ensures var s' := Apply(s, e); s'.deps == s.deps && ReportsBarred(s'.reports, i) && s'.op == s.op
  {
    match e
    case UserGauge(_) =>
    case UserErrs(_) =>
    case StatusErrs(_) =>
    case StatusGauge(_) =>
  }

  /** The steps of the cluster, of giving up and of a process start. */
  lemma OtherStepStuck(s: Sys, e: Step, i: nat)
    requires Stuck(s, i)
    requires e.Detach? || e.PhaseChange? || e.PodLost? || e.Restart?
    ensures var s' := Apply(s, e); s'.deps == s.deps && ReportsBarred(s'.reports, i) && RecBarred(s'.op.rec, i)
  {
    match e
    case Detach(_) =>
    case PhaseChange(_, _) =>
    case PodLost(_) =>
    case Restart(_) =>
  }

  lemma ReportStepStuck(s: Sys, e: Step, i: nat)
    requires Stuck(s, i) && (e.Send? || e.StatusRead? || e.StatusWrite?)
    ensures var s' := Apply(s, e);
            && i < |s'.deps| && s'.deps[i] == s.deps[i] && ReportsBarred(s'.reports, i) && RecBarred(s'.op.rec, i)
  {
    match e
    case Send(h) => SendStuck(s, h, i);
    case StatusRead(h) => StatusReadStuck(s, h, i);
    case StatusWrite(h, ok) => StatusWriteStuck(s, h, ok, i);
  }

  lemma StuckStep(s: Sys, e: Step, i: nat)
    requires Stuck(s, i) && PodRan(s, i) && SeenRan(s, e, i) && NotByUser(s, e, i)
    ensures Stuck(Apply(s, e), i) && Apply(s, e).deps[i] == s.deps[i]
  {
    InvStep(s, e);
    if OperatorsOwn(e) {
      OperatorStuck(s, e, i);
    } else if UserStep(e) {
      UserStepStuck(s, e, i);
    } else if e.UserGauge? || e.StatusGauge? || e.UserErrs? || e.StatusErrs? {
      CountingStuck(s, e, i);
    } else if e.Send? || e.StatusRead? || e.StatusWrite? {
      ReportStepStuck(s, e, i);
    } else {
      OtherStepStuck(s, e, i);
    }
  }

  lemma {:induction false} StuckForever(s: Sys, es: seq<Step>, i: nat)
    requires Stuck(s, i) && Unattended(s, es, i)
    ensures i < |Exec(s, es).deps| && Exec(s, es).deps[i] == s.deps[i]
    decreases |es|
  {
    if es != [] {
      StuckStep(s, es[0], i);
      StuckForever(Apply(s, es[0]), es[1..], i);
    }
  }

  /** From any state in which a pending deployment is overtaken by its pod and nothing about it is
      under way, every run in which the pod stays running or failed, and is seen so, and no user
      deletes or rolls back the deployment leaves its row as it is: whatever stale listings, delayed
      reports, failing calls, restarts and requests for other deployments do meanwhile. */
  lemma {:induction false} OvertakenInEveryRun(s: Sys, es: seq<Step>, i: nat)
    requires Inv(s) && i < |s.deps| && Overtaken(s.deps[i], s.op.pods)
    requires s.op.rec.Between? && forall h :: h in s.reports ==> s.reports[h].Gauging? || s.reports[h].dep != i
    requires Unattended(s, es, i)
    ensures i < |Exec(s, es).deps| && Exec(s, es).deps[i] == s.deps[i]
  {
    StuckForever(s, es, i);
  }
}
