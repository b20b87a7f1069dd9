/** Delete safety: a deployment that reads `deleted` has no pod and no service, for every mix of user
    requests, stale reconciler passes and split status requests, as long as two things do not happen:
    the reconciler gives up on a report of `deleted` whose cancellation then does not reach the
    handler in time, or its cache does not show an object that it should delete. On other reports, and
    where the cancellation arrives, it may give up, and other reads may be as stale as they like. */
module DeploymentSafety {
  import opened Prelude
  import opened Deployments
  import opened DeploymentProtocol
  import opened DeploymentHistory

  predicate Gone(o: Operator, key: ObjectKey) { key !in o.pods && key !in o.services }

  function RowKey(d: Deployment): ObjectKey { KeyOf(d.id, d.namespace) }

  /** Whenever a deployment's status is deleted, neither its pod nor its service exists. */
  predicate DeletedIsGone(deps: Table, o: Operator) {
    forall i :: 0 <= i < |deps| && deps[i].status == Deleted ==> Gone(o, RowKey(deps[i]))
  }

  predicate IdsUnique(deps: Table) {
    forall i, j :: 0 <= i < j < |deps| ==> deps[i].id != deps[j].id
  }

  /** A listing in table order, all of it after row `lo`, of deployments that are not deleted. */
  predicate Worklist(deps: Table, todo: seq<Snap>, lo: int) {
    && (forall k :: 0 <= k < |todo| ==> lo < todo[k].dep < |deps| && deps[todo[k].dep].status != Deleted)
    && (forall j, k :: 0 <= j < k < |todo| ==> todo[j].dep < todo[k].dep)
  }

  function Current(rec: Reconciler): int { if rec.Between? then -1 else rec.snap.dep }

  /** What the reconciler may still do is harmless for deleted rows. */
  predicate RecSafe(deps: Table, o: Operator) {
    && RecOk(deps, o.rec) && Worklist(deps, o.rec.todo, Current(o.rec))
    && (o.rec.AtPod? || o.rec.AtService? ==> deps[o.rec.snap.dep].status != Deleted)
    && (o.rec.AtServiceDrop? ==> SnapKey(o.rec.snap) !in o.pods)
    && (o.rec.AtReport? && o.rec.report.status == Deleted ==> Gone(o, SnapKey(o.rec.snap)))
  }

  /** A status request that may still write `deleted`. */
  predicate Deletes(h: StatusHandler) { !h.Gauging? && h.report.status == Deleted }

  /** The reconciler waits for such a request, having removed the objects. */
  predicate ReportsSafe(o: Operator, reports: map<nat, StatusHandler>) {
    forall h :: h in reports && Deletes(reports[h]) ==>
      o.rec.Awaiting? && o.rec.handler == h && reports[h].dep == o.rec.snap.dep && Gone(o, SnapKey(o.rec.snap))
  }

  predicate Safe(s: Sys) {
    Inv(s) && IdsUnique(s.deps) && DeletedIsGone(s.deps, s.op) && RecSafe(s.deps, s.op) && ReportsSafe(s.op, s.reports)
  }

  // ---------------------------------------------------------------- the operator's own steps

  lemma {:induction false} ListedSafe(deps: Table, n: nat)
    requires n <= |deps|
    ensures Worklist(deps, Listed(deps, n), -1)
    ensures forall k :: 0 <= k < |Listed(deps, n)| ==> Listed(deps, n)[k].dep < n
    decreases n
  {
    if n > 0 {
      ListedSafe(deps, n - 1);
    }
  }

  /** Creating objects for a row that is not deleted leaves the deleted rows clean. */
  lemma CreatedForLive(deps: Table, o: Operator, o': Operator, dep: nat)
    requires IdsUnique(deps) && DeletedIsGone(deps, o) && dep < |deps| && deps[dep].status != Deleted
    requires forall key :: key != RowKey(deps[dep]) && Gone(o, key) ==> Gone(o', key)
    ensures DeletedIsGone(deps, o')
  {
    forall i | 0 <= i < |deps| && deps[i].status == Deleted ensures Gone(o', RowKey(deps[i])) {
      if RowKey(deps[i]) == RowKey(deps[dep]) {
        KeysDistinct(deps[i].id, deps[dep].id, deps[i].namespace, deps[dep].namespace);
      }
    }
  }

  lemma EnsurePodSafe(deps: Table, o: Operator, outcome: Outcome)
    requires IdsUnique(deps) && DeletedIsGone(deps, o) && RecSafe(deps, o)
    ensures DeletedIsGone(deps, PodEnsured(o, outcome)) && RecSafe(deps, PodEnsured(o, outcome))
  {
    if o.rec.AtPod? && o.rec.snap.status != Deleting {
      CreatedForLive(deps, o, PodEnsured(o, outcome), o.rec.snap.dep);
    }
  }

  lemma EnsureServiceSafe(deps: Table, o: Operator, outcome: Outcome)
    requires IdsUnique(deps) && DeletedIsGone(deps, o) && RecSafe(deps, o)
    ensures DeletedIsGone(deps, ServiceEnsured(o, outcome)) && RecSafe(deps, ServiceEnsured(o, outcome))
  {
    if o.rec.AtService? {
      CreatedForLive(deps, o, ServiceEnsured(o, outcome), o.rec.snap.dep);
    }
  }

  /** The reconciler does not give up on a report of `deleted` whose handler is not reached by the
      cancellation. */
  predicate Patient(s: Sys, e: Step) {
    e.Detach? && !e.arrives && s.op.rec.Awaiting? && s.op.rec.handler in s.reports ==> !Deletes(s.reports[s.op.rec.handler])
  }

  /** The cache does not miss an object that is there and is to be deleted. */
  predicate MissesNothing(o: Operator, e: Step) {
    && (e.MissPod? && o.rec.AtPod? && o.rec.snap.status == Deleting ==> SnapKey(o.rec.snap) !in o.pods)
    && (e.MissService? && o.rec.AtServiceDrop? ==> SnapKey(o.rec.snap) !in o.services)
  }

  predicate Orderly(s: Sys, e: Step) { Patient(s, e) && MissesNothing(s.op, e) }

  lemma DropSafe(deps: Table, o: Operator, outcome: Outcome)
    requires DeletedIsGone(deps, o) && RecSafe(deps, o)
    ensures DeletedIsGone(deps, PodDropped(o, outcome)) && RecSafe(deps, PodDropped(o, outcome))
    ensures DeletedIsGone(deps, ServiceDropped(o, outcome)) && RecSafe(deps, ServiceDropped(o, outcome))
  {
  }

  lemma StaleSafe(deps: Table, o: Operator, seen: Pod)
    requires DeletedIsGone(deps, o) && RecSafe(deps, o)
    ensures RecSafe(deps, PodSeen(o, seen)) && RecSafe(deps, ServiceSeen(o))
    ensures MissesNothing(o, MissPod) ==> RecSafe(deps, PodMissed(o))
    ensures MissesNothing(o, MissService) ==> RecSafe(deps, ServiceMissed(o))
  {
  }

  predicate Dispatches(e: Step) { e.List? || e.Skip? || e.Take? || e.Resume? }

  lemma DispatchSafe(o: Operator, deps: Table, busy: set<nat>, e: Step)
    requires RecSafe(deps, o) && Dispatches(e)
    ensures var o' := OperatorStep(o, deps, busy, e); o' == o.(rec := o'.rec) && RecSafe(deps, o')
  {
    match e
    case List => ListedOk(deps, |deps|); ListedSafe(deps, |deps|);
    case Skip =>
    case Take =>
    case Resume =>
  }

  lemma OperatorStepSafe(o: Operator, deps: Table, busy: set<nat>, e: Step)
    requires IdsUnique(deps) && DeletedIsGone(deps, o) && RecSafe(deps, o) && MissesNothing(o, e)
    ensures var o' := OperatorStep(o, deps, busy, e); DeletedIsGone(deps, o') && RecSafe(deps, o')
  {
    if Dispatches(e) {
      DispatchSafe(o, deps, busy, e);
    } else {
      match e
      case EnsurePod(outcome) => EnsurePodSafe(deps, o, outcome);
      case EnsureService(outcome) => EnsureServiceSafe(deps, o, outcome);
      case DropPod(outcome) => DropSafe(deps, o, outcome);
      case DropService(outcome) => DropSafe(deps, o, outcome);
      case StalePod(seen) => StaleSafe(deps, o, seen);
      case StaleService => StaleSafe(deps, o, Pod(PodPending, ""));
      case MissPod => StaleSafe(deps, o, Pod(PodPending, ""));
      case MissService => StaleSafe(deps, o, Pod(PodPending, ""));
      case _ =>
    }
  }

  /** A request that is being waited for keeps the reconciler where it is. */
  lemma OperatorBlocked(o: Operator, deps: Table, busy: set<nat>, e: Step)
    requires o.rec.Awaiting? && o.rec.handler in busy
    ensures OperatorStep(o, deps, busy, e) == o
  {
  }

  lemma OperatorKeepsSafe(s: Sys, e: Step)
    requires Safe(s) && OperatorsOwn(e) && MissesNothing(s.op, e)
    ensures Safe(Apply(s, e))
  {
    InvStep(s, e);
    OperatorStepSafe(s.op, s.deps, s.reports.Keys, e);
    if h :| h in s.reports && Deletes(s.reports[h]) {
      OperatorBlocked(s.op, s.deps, s.reports.Keys, e);
    }
  }

  // ---------------------------------------------------------------- rows written by the control plane

  /** Writing a row: only the row being waited for may become deleted, and only when it is clean. */
  lemma RowWritten(s: Sys, s': Sys, dep: nat, row: Deployment)
    requires Safe(s) && Inv(s') && dep < |s.deps| && row.id == s.deps[dep].id && row.namespace == s.deps[dep].namespace
    requires s'.deps == s.deps[dep := row] && s'.op == s.op && s'.reports.Keys <= s.reports.Keys
    requires forall h :: h in s'.reports ==> s'.reports[h].Gauging? || s'.reports[h] == s.reports[h]
    requires row.status == Deleted ==> s.op.rec.Awaiting? && s.op.rec.snap.dep == dep && Gone(s.op, RowKey(row))
    ensures Safe(s')
  {
  }

  lemma StatusWriteSafe(s: Sys, h: nat, ok: bool)
    requires Safe(s)
    ensures Safe(Apply(s, StatusWrite(h, ok)))
  {
    InvStep(s, StatusWrite(h, ok));
    if h in s.reports && s.reports[h].Writing? {
      assert HandlerOk(s.deps, s.reports[h]);
      var Writing(dep, report, _) := s.reports[h];
      if ok {
        RowWritten(s, ApplyStatusWrite(s, h, ok), dep,
          WithStatus(s.deps[dep], report.status, report.endpoint, report.failureReason));
      }
    }
  }

  lemma DeleteCommitSafe(s: Sys, u: nat, ok: bool)
    requires Safe(s)
    ensures Safe(Apply(s, DeleteCommit(u, ok)))
  {
    InvStep(s, DeleteCommit(u, ok));
    if u in s.users && s.users[u].Removing? && ok {
      assert UserOk(s.deps, s.users[u]);
      var dep := s.users[u].dep;
      if Deletable(s.deps[dep]) {
        RowWritten(s, ApplyDeleteCommit(s, u, ok), dep, s.deps[dep].(status := Deleting));
      }
    }
  }

  lemma RollbackCommitSafe(s: Sys, u: nat, ok: bool)
    requires Safe(s)
    ensures Safe(Apply(s, RollbackCommit(u, ok)))
  {
    InvStep(s, RollbackCommit(u, ok));
    if u in s.users && s.users[u].RollingBack? && ok {
      assert UserOk(s.deps, s.users[u]);
      var RollingBack(dep, version, _) := s.users[u];
      RowWritten(s, ApplyRollbackCommit(s, u, ok), dep, RolledBack(s.deps[dep], version));
    }
  }

  lemma RowAdded(s: Sys, s': Sys, d: Deployment)
    requires Safe(s) && Inv(s') && d.status == Pending
    requires forall i :: 0 <= i < |s.deps| ==> s.deps[i].id != d.id
    requires s'.deps == s.deps + [d] && s'.op == s.op && s'.reports == s.reports
    ensures Safe(s')
  {
  }

  lemma CreateSafe(s: Sys, u: nat, id: string, tenant: string, record: nat, version: nat, name: string, ns: string)
    requires Safe(s)
    ensures Safe(Apply(s, Create(u, id, tenant, record, version, name, ns)))
  {
    InvStep(s, Create(u, id, tenant, record, version, name, ns));
    var d := NewDeployment(id, tenant, record, version, name, ns);
    if u !in s.users && !Conflicts(s.deps, d.id, d.tenant, d.name) {
      RowAdded(s, ApplyCreate(s, u, d), d);
    }
  }

  lemma SendReports(s: Sys, h: nat)
    requires Safe(s)
    ensures var s' := ApplySend(s, h); RecSafe(s'.deps, s'.op) && ReportsSafe(s'.op, s'.reports)
  {
  }

  lemma SendSafe(s: Sys, h: nat)
    requires Safe(s)
    ensures Safe(Apply(s, Send(h)))
  {
    InvStep(s, Send(h));
    SendReports(s, h);
    assert Apply(s, Send(h)) == ApplySend(s, h);
  }

  lemma DetachSafe(s: Sys, arrives: bool)
    requires Safe(s) && Patient(s, Detach(arrives))
    ensures Safe(Apply(s, Detach(arrives)))
  {
    InvStep(s, Detach(arrives));
  }

  lemma StatusReadReports(s: Sys, h: nat)
    requires ReportsSafe(s.op, s.reports)
    ensures var s' := ApplyStatusRead(s, h); ReportsSafe(s'.op, s'.reports) && s' == s.(reports := s'.reports)
  {
  }

  lemma StatusReadSafe(s: Sys, h: nat)
    requires Safe(s)
    ensures Safe(Apply(s, StatusRead(h)))
  {
    InvStep(s, StatusRead(h));
    StatusReadReports(s, h);
  }

  /** Steps that write no row and create no object. */
  lemma HarmlessSafe(s: Sys, s': Sys)
    requires Safe(s) && Inv(s') && s'.deps == s.deps && s'.op.rec == s.op.rec
    requires s'.op.services == s.op.services && s'.op.pods.Keys <= s.op.pods.Keys
    requires s'.reports.Keys <= s.reports.Keys && forall h :: h in s'.reports ==> s'.reports[h] == s.reports[h]
    ensures Safe(s')
  {
  }

  predicate Harmless(e: Step) {
    e.DeleteRead? || e.RollbackRead? || e.RollbackTargetRead? || e.UserGauge? || e.StatusGauge?
    || e.UserErrs? || e.StatusErrs? || e.PhaseChange? || e.PodLost? || e.Restart?
  }

  lemma HarmlessFrame(s: Sys, e: Step)
    requires Harmless(e)
    ensures var s' := Apply(s, e);
            && s'.deps == s.deps && s'.op == s.op.(pods := s'.op.pods) && s'.op.pods.Keys <= s.op.pods.Keys
            && s'.reports.Keys <= s.reports.Keys && forall h :: h in s'.reports ==> s'.reports[h] == s.reports[h]
  {
    match e
    case DeleteRead(_, _, _) =>
    case RollbackRead(_, _, _, _) =>
    case RollbackTargetRead(_) =>
    case UserGauge(_) =>
    case UserErrs(_) =>
    case StatusErrs(_) =>
    case StatusGauge(_) =>
    case PhaseChange(_, _) =>
    case PodLost(_) =>
    case Restart(_) =>
  }

  lemma HarmlessStepSafe(s: Sys, e: Step)
    requires Safe(s) && Harmless(e)
    ensures Safe(Apply(s, e))
  {
    InvStep(s, e);
    HarmlessFrame(s, e);
    HarmlessSafe(s, Apply(s, e));
  }

  lemma SafeStep(s: Sys, e: Step)
    requires Safe(s) && Orderly(s, e)
    ensures Safe(Apply(s, e))
  {
    if OperatorsOwn(e) {
      OperatorKeepsSafe(s, e);
    } else if Harmless(e) {
      HarmlessStepSafe(s, e);
    } else {
      match e
      case Create(u, id, tenant, record, version, name, ns) => CreateSafe(s, u, id, tenant, record, version, name, ns);
      case DeleteCommit(u, ok) => DeleteCommitSafe(s, u, ok);
      case RollbackCommit(u, ok) => RollbackCommitSafe(s, u, ok);
      case StatusWrite(h, ok) => StatusWriteSafe(s, h, ok);
      case StatusRead(h) => StatusReadSafe(s, h);
      case Send(h) => SendSafe(s, h);
      case Detach(arrives) => DetachSafe(s, arrives);
    }
  }

  ghost predicate OrderlyRun(s: Sys, es: seq<Step>)
    decreases |es|
  {
    es == [] || (Orderly(s, es[0]) && OrderlyRun(Apply(s, es[0]), es[1..]))
  }

  /** In every run in which the reconciler does not give up on a report of `deleted` that its
      cancellation does not reach, and its cache shows what is to be deleted, a deployment that reads
      deleted has neither pod nor service, at every point of the run. */
  lemma {:induction false} DeleteSafety(s: Sys, es: seq<Step>)
    requires Safe(s) && OrderlyRun(s, es)
    ensures Safe(Exec(s, es)) && DeletedIsGone(Exec(s, es).deps, Exec(s, es).op)
    decreases |es|
  {
    if es != [] {
      SafeStep(s, es[0]);
      DeleteSafety(Apply(s, es[0]), es[1..]);
    }
  }

  lemma InitSafe()
    ensures Safe(Init())
  {
  }
}
