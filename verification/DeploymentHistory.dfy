/** What holds of deployment rows in every run, whatever fails, is delayed or interleaves: endpoint
    and failure text agree with the status, and the revision history only grows. */
module DeploymentHistory {
  import opened Prelude
  import opened Deployments
  import opened DeploymentProtocol

  /** Endpoint and failure text belong to the status. */
  predicate MetadataOk(d: Deployment) {
    && (d.status == Running ==> d.endpoint == ServingEndpoint(d.id, d.namespace))
    && (d.endpoint != "" ==> d.status == Running || d.status == Deleting)
    && (d.failureReason != "" ==> d.status == Failed || d.status == Deleting)
  }

  predicate Numbered(revs: seq<Revision>) {
    forall k :: 0 <= k < |revs| ==> revs[k].number == k + 1
  }

  /** Revisions 1..n, and no version other than the one the deployment was created with. */
  predicate RevisionsOk(d: Deployment) {
    && d.revisions != [] && Numbered(d.revisions)
    && forall k :: 0 <= k < |d.revisions| ==> d.revisions[k].version == d.version
  }

  predicate RowOk(d: Deployment) { MetadataOk(d) && RevisionsOk(d) }

  /** A report that the operator builds for this deployment. */
  predicate ReportOk(d: Deployment, r: Report) {
    && r.endpoint == (if r.status == Running then ServingEndpoint(d.id, d.namespace) else "")
    && (r.failureReason != "" ==> r.status == Failed)
  }

  predicate HandlerOk(deps: Table, h: StatusHandler) {
    !h.Gauging? ==> h.dep < |deps| && ReportOk(deps[h.dep], h.report)
  }

  predicate UserOk(deps: Table, u: UserHandler) {
    !u.Counting? ==> u.dep < |deps| && (u.RollingBack? ==> u.version == deps[u.dep].version)
  }

  predicate SnapOk(deps: Table, snap: Snap) {
    snap.dep < |deps| && snap.id == deps[snap.dep].id && snap.namespace == deps[snap.dep].namespace
  }

  predicate SnapsOk(deps: Table, todo: seq<Snap>) {
    forall k :: 0 <= k < |todo| ==> SnapOk(deps, todo[k])
  }

  predicate RecOk(deps: Table, rec: Reconciler) {
    && SnapsOk(deps, rec.todo)
    && (!rec.Between? ==> SnapOk(deps, rec.snap))
    && (rec.AtReport? ==> SnapOk(deps, rec.snap) && ReportOk(deps[rec.snap.dep], rec.report))
  }

  predicate RowsOk(deps: Table) { forall i :: 0 <= i < |deps| ==> RowOk(deps[i]) }
  predicate HandlersOk(deps: Table, reports: map<nat, StatusHandler>) { forall h :: h in reports ==> HandlerOk(deps, reports[h]) }
  predicate UsersOk(deps: Table, users: map<nat, UserHandler>) { forall u :: u in users ==> UserOk(deps, users[u]) }

  predicate Inv(s: Sys) {
    RowsOk(s.deps) && HandlersOk(s.deps, s.reports) && UsersOk(s.deps, s.users) && RecOk(s.deps, s.op.rec)
  }

  /** How a row may change over any part of a run: the version never changes, and old revisions stay. */
  predicate RowEvolves(d: Deployment, e: Deployment) {
    && e.id == d.id && e.tenant == d.tenant && e.record == d.record && e.name == d.name
    && e.namespace == d.namespace && e.version == d.version && d.revisions <= e.revisions
  }

  predicate Evolves(a: Table, b: Table) {
    |a| <= |b| && forall i :: 0 <= i < |a| ==> RowEvolves(a[i], b[i])
  }

  lemma EvolvesTransitive(a: Table, b: Table, c: Table)
    requires Evolves(a, b) && Evolves(b, c)
    ensures Evolves(a, c)
  {
  }

  /** Everything in flight stays sound when rows evolve. */
  lemma InFlightKept(a: Table, b: Table, reports: map<nat, StatusHandler>, users: map<nat, UserHandler>, rec: Reconciler)
    requires Evolves(a, b) && HandlersOk(a, reports) && UsersOk(a, users) && RecOk(a, rec)
    ensures HandlersOk(b, reports) && UsersOk(b, users) && RecOk(b, rec)
  {
  }

  // ---------------------------------------------------------------- revisions

  lemma {:induction false} MaxIsLast(revs: seq<Revision>)
    requires Numbered(revs)
    ensures MaxRevision(revs) == |revs|
    decreases |revs|
  {
    if revs != [] {
      MaxIsLast(revs[..|revs| - 1]);
    }
  }

  lemma {:induction false} FindByNumber(revs: seq<Revision>, number: int)
    requires Numbered(revs)
    ensures FindRevision(revs, number) == if 1 <= number <= |revs| then Some(revs[number - 1]) else None
    decreases |revs|
  {
    if revs != [] {
      FindByNumber(revs[..|revs| - 1], number);
    }
  }

  /** Rolling back to revision k: refused exactly when there is no such revision (0 stands for the
      one before the newest); otherwise revision n+1 is appended as a copy of k, whatever versions
      the revisions carry, and it is the newest. */
  lemma RollbackAppendsCopy(d: Deployment, revision: int)
    requires Numbered(d.revisions)
    ensures var n := |d.revisions|;
            var k := if revision == 0 then n - 1 else revision;
            var t := RollbackTarget(d, revision);
            && (t.Ok? <==> 1 <= k <= n)
            && (t == Err(NoRevisionToRollback) <==> k < 1)
            && (t.Ok? ==>
                  var e := RolledBack(d, t.value);
                  && e.revisions == d.revisions + [Revision(n + 1, d.revisions[k - 1].version)]
                  && e.version == e.revisions[n].version
                  && e.status == Pending && MetadataOk(e) && Numbered(e.revisions)
                  && (RowOk(d) ==> RowOk(e) && RowEvolves(d, e)))
  {
    var n := |d.revisions|;
    var k := if revision == 0 then n - 1 else revision;
    MaxIsLast(d.revisions);
    FindByNumber(d.revisions, k);
  }

  // ---------------------------------------------------------------- steps

  lemma RowReplaced(s: Sys, s': Sys, dep: nat, row: Deployment)
    requires Inv(s) && dep < |s.deps| && RowOk(row) && RowEvolves(s.deps[dep], row)
    requires s'.deps == s.deps[dep := row] && s'.op == s.op
    requires forall h :: h in s'.reports ==> s'.reports[h].Gauging? || (h in s.reports && s'.reports[h] == s.reports[h])
    requires forall u :: u in s'.users ==> s'.users[u].Counting? || (u in s.users && s'.users[u] == s.users[u])
    ensures Inv(s') && Evolves(s.deps, s'.deps)
  {
    InFlightKept(s.deps, s'.deps, s.reports, s.users, s.op.rec);
  }

  lemma CreateKeeps(s: Sys, u: nat, d: Deployment)
    requires Inv(s) && d == NewDeployment(d.id, d.tenant, d.record, d.version, d.name, d.namespace)
    ensures Inv(ApplyCreate(s, u, d)) && Evolves(s.deps, ApplyCreate(s, u, d).deps)
  {
    InFlightKept(s.deps, s.deps + [d], s.reports, s.users, s.op.rec);
  }

  lemma DeleteCommitKeeps(s: Sys, u: nat, ok: bool)
    requires Inv(s)
    ensures Inv(ApplyDeleteCommit(s, u, ok)) && Evolves(s.deps, ApplyDeleteCommit(s, u, ok).deps)
  {
    if u in s.users && s.users[u].Removing? {
      assert UserOk(s.deps, s.users[u]);
      var dep := s.users[u].dep;
      if ok && Deletable(s.deps[dep]) {
        assert RowOk(s.deps[dep]);
        RowReplaced(s, ApplyDeleteCommit(s, u, ok), dep, s.deps[dep].(status := Deleting));
      }
    }
  }

  lemma TargetReadKeeps(s: Sys, u: nat)
    requires Inv(s)
    ensures Inv(ApplyTargetRead(s, u)) && ApplyTargetRead(s, u).deps == s.deps
  {
    if u in s.users && s.users[u].Targeting? {
      assert UserOk(s.deps, s.users[u]);
      var dep := s.users[u].dep;
      assert RowOk(s.deps[dep]);
      RollbackAppendsCopy(s.deps[dep], s.users[u].revision);
    }
  }

  lemma RollbackCommitKeeps(s: Sys, u: nat, ok: bool)
    requires Inv(s)
    ensures Inv(ApplyRollbackCommit(s, u, ok)) && Evolves(s.deps, ApplyRollbackCommit(s, u, ok).deps)
  {
    if u in s.users && s.users[u].RollingBack? {
      assert UserOk(s.deps, s.users[u]);
      var RollingBack(dep, version, _) := s.users[u];
      if ok {
        assert RowOk(s.deps[dep]);
        MaxIsLast(s.deps[dep].revisions);
        RowReplaced(s, ApplyRollbackCommit(s, u, ok), dep, RolledBack(s.deps[dep], version));
      }
    }
  }

  lemma StatusWriteKeeps(s: Sys, h: nat, ok: bool)
    requires Inv(s)
    ensures Inv(ApplyStatusWrite(s, h, ok)) && Evolves(s.deps, ApplyStatusWrite(s, h, ok).deps)
  {
    if h in s.reports && s.reports[h].Writing? {
      assert HandlerOk(s.deps, s.reports[h]);
      var Writing(dep, report, _) := s.reports[h];
      if ok {
        assert RowOk(s.deps[dep]);
        RowReplaced(s, ApplyStatusWrite(s, h, ok), dep,
          WithStatus(s.deps[dep], report.status, report.endpoint, report.failureReason));
      }
    }
  }

  lemma {:induction false} ListedOk(deps: Table, n: nat)
    requires n <= |deps|
    ensures SnapsOk(deps, Listed(deps, n))
    decreases n
  {
    if n > 0 {
      ListedOk(deps, n - 1);
    }
  }

  lemma OperatorStepKeeps(o: Operator, deps: Table, busy: set<nat>, e: Step)
    requires RecOk(deps, o.rec)
    ensures RecOk(deps, OperatorStep(o, deps, busy, e).rec)
  {
    match e
    case List => ListedOk(deps, |deps|);
    case EnsureService(outcome) =>
    case _ =>
  }

  predicate UserStep(e: Step) {
    e.Create? || e.DeleteRead? || e.DeleteCommit? || e.RollbackRead? || e.RollbackTargetRead? || e.RollbackCommit?
  }

  lemma NewRequestKeeps(s: Sys, u: nat, q: UserHandler)
    requires Inv(s)
    ensures UserOk(s.deps, q) ==> Inv(s.(users := s.users[u := q]))
    ensures Evolves(s.deps, s.deps)
  {
  }

  lemma UserStepKeeps(s: Sys, e: Step)
    requires Inv(s) && UserStep(e)
    ensures Inv(Apply(s, e)) && Evolves(s.deps, Apply(s, e).deps)
  {
    match e
    case Create(u, id, tenant, record, version, name, ns) =>
      CreateKeeps(s, u, NewDeployment(id, tenant, record, version, name, ns));
    case DeleteRead(u, dep, ok) => NewRequestKeeps(s, u, Removing(dep, if ok && dep < |s.deps| then Some(s.deps[dep].status) else None));
    case DeleteCommit(u, ok) => DeleteCommitKeeps(s, u, ok);
    case RollbackRead(u, dep, revision, ok) =>
      NewRequestKeeps(s, u, Targeting(dep, revision, if ok && dep < |s.deps| then Some(s.deps[dep].status) else None));
    case RollbackTargetRead(u) => TargetReadKeeps(s, u);
    case RollbackCommit(u, ok) => RollbackCommitKeeps(s, u, ok);
  }

  lemma StatusReadKeeps(s: Sys, h: nat)
    requires Inv(s)
    ensures Inv(ApplyStatusRead(s, h)) && ApplyStatusRead(s, h).deps == s.deps
    ensures Inv(ApplySend(s, h)) && ApplySend(s, h).deps == s.deps
  {
  }

  lemma DetachKeeps(s: Sys, arrives: bool)
    requires Inv(s)
    ensures Inv(ApplyDetach(s, arrives)) && ApplyDetach(s, arrives).deps == s.deps
  {
  }

  lemma OtherStepKeeps(s: Sys, e: Step)
    requires Inv(s) && !UserStep(e) && !OperatorsOwn(e)
    ensures Inv(Apply(s, e)) && Evolves(s.deps, Apply(s, e).deps)
  {
    match e
    case UserGauge(u) =>
    case UserErrs(_) =>
    case StatusErrs(_) =>
    case Send(h) => StatusReadKeeps(s, h);
    case Detach(arrives) => DetachKeeps(s, arrives);
    case StatusRead(h) => StatusReadKeeps(s, h);
    case StatusWrite(h, ok) => StatusWriteKeeps(s, h, ok);
    case StatusGauge(h) =>
    case PhaseChange(key, pod) =>
    case PodLost(key) =>
    case Restart(_) =>
  }

  lemma InvStep(s: Sys, e: Step)
    requires Inv(s)
    ensures Inv(Apply(s, e)) && Evolves(s.deps, Apply(s, e).deps)
  {
    if OperatorsOwn(e) {
      OperatorStepKeeps(s.op, s.deps, s.reports.Keys, e);
    } else if UserStep(e) {
      UserStepKeeps(s, e);
    } else {
      OtherStepKeeps(s, e);
    }
  }

  /** In every reachable state of every run, delayed reports and restarts included: endpoint and
      failure text agree with the status, revisions are numbered 1..n, revisions that were there
      stay as they were, and the model version of a deployment is the one it was created with. */
  lemma {:induction false} HistoryOnlyGrows(s: Sys, es: seq<Step>)
    requires Inv(s)
    ensures Inv(Exec(s, es)) && Evolves(s.deps, Exec(s, es).deps)
    decreases |es|
  {
    if es != [] {
      InvStep(s, es[0]);
      HistoryOnlyGrows(Apply(s, es[0]), es[1..]);
      EvolvesTransitive(s.deps, Apply(s, es[0]).deps, Exec(s, es).deps);
    }
  }

  lemma InitOk()
    ensures Inv(Init())
  {
  }
}
