/** The processes that drive the deployment protocol, as code: the user handlers and the service
    behind them (control-plane/internal/api/deployments.go, deployments/service.go), the status
    handler (control-plane/internal/api/internal.go) and the reconciler
    (operator/internal/reconciler/deployment_reconciler.go). Each method is proved to do what a step
    list of the protocol does, so what holds of runs holds of the code. */
module DeploymentServices {
  import opened Prelude
  import opened Backoff
  import opened Deployments
  import opened DeploymentProtocol
  import opened DeploymentScripts
  import opened DeploymentHistory
  import opened DeploymentSafety
  import opened DeploymentVisits
  import opened DeploymentGauge
  import opened DeploymentStore

  /** The system between two requests. */
  ghost function View(store: PostgresDeploymentStore, gauge: DeploymentCount, kube: KubeClient): Sys
    reads store, gauge, kube
  {
    Sys(store.rows, Operator(kube.pods, kube.services, Between([])), map[], map[], gauge.values, gauge.ledger, gauge.baseline)
  }

  /** The gauge equals a recount on every label but deleted. */
  ghost predicate Agrees(s: Sys) {
    forall st :: st != Deleted ==> GaugeOf(s.gauge, st) == CountOf(s.deps, st)
  }

  /** The row counts change as the entry says. */
  ghost predicate Moves(a: Table, b: Table, e: Entry) { forall st :: CountOf(b, st) == CountOf(a, st) + Actual(e, st) }

  /** A change that was counted from the status it replaced keeps the agreement. */
  lemma FaithfulChangeAgrees(s: Sys, deps: Table, e: Entry)
    requires Agrees(s) && e.planned && e.prior == e.actual && Moves(s.deps, deps, e)
    ensures Agrees(Committed(s, deps, e))
  {
  }

  lemma RowMoves(deps: Table, dep: nat, row: Deployment, e: Entry)
    requires dep < |deps| && e.actual == Some(deps[dep].status) && e.to == row.status
    ensures Moves(deps, deps[dep := row], e)
  {
    forall st ensures CountOf(deps[dep := row], st) == CountOf(deps, st) + Actual(e, st) {
      CountReplaced(deps, dep, row, st);
    }
  }

  lemma RowChangeAgrees(s: Sys, dep: nat, row: Deployment, e: Entry)
    requires Agrees(s) && dep < |s.deps| && e.planned && e.prior == e.actual == Some(s.deps[dep].status) && e.to == row.status
    ensures Agrees(Committed(s, s.deps[dep := row], e))
  {
    RowMoves(s.deps, dep, row, e);
    FaithfulChangeAgrees(s, s.deps[dep := row], e);
  }

  lemma NewRowAgrees(s: Sys, d: Deployment)
    requires Agrees(s) && d.status == Pending
    ensures Agrees(Created(s, d))
  {
  }

  datatype CreateRequest = CreateRequest(modelName: string, modelVersion: int, name: string, namespace: string, replicas: int)

  /** What the model tables answer about the requested model and version. */
  datatype Lookup = NoModel | NoVersion | LookupFailed | Found(record: nat, version: nat, production: bool)

  datatype RequestError =
    | BadRequest | ReplicasUnsupported | ModelNotFound | VersionNotFound | NotProduction | Duplicate
    | NotFound | NoRevision | RevisionMissing | InvalidTransition | Internal

  /** Which requests the create handler turns down before it writes, and how. */
  function CreateRefusal(req: CreateRequest, lookup: Lookup): Option<RequestError> {
    if req.modelName == "" || req.name == "" || req.modelVersion == 0 then Some(BadRequest)
    else if req.replicas > 1 then Some(ReplicasUnsupported)
    else match lookup
      case NoModel => Some(ModelNotFound)
      case NoVersion => Some(VersionNotFound)
      case LookupFailed => Some(Internal)
      case Found(_, _, production) => if production then None else Some(NotProduction)
  }

  /** The row that an accepted request asks for. */
  function Requested(tenant: string, req: CreateRequest, lookup: Lookup, id: string): Deployment
    requires lookup.Found?
  {
    NewDeployment(id, tenant, lookup.record, lookup.version, req.name, if req.namespace == "" then "default" else req.namespace)
  }

  class DeploymentsHandler {
    const store: PostgresDeploymentStore
    const gauge: DeploymentCount
    const kube: KubeClient

    constructor (store: PostgresDeploymentStore, gauge: DeploymentCount, kube: KubeClient)
      ensures this.store == store && this.gauge == gauge && this.kube == kube
    {
      this.store, this.gauge, this.kube := store, gauge, kube;
    }

    ghost function Now(): Sys
      reads store, gauge, kube
    {
      View(store, gauge, kube)
    }

    /** Process start; `ok` is the success of the count query. */
    method SyncGauge(ok: bool)
      modifies gauge
      ensures Now() == Apply(old(Now()), Restart(ok)) && (ok ==> Agrees(Now()))
    {
      if !ok {
        gauge.Begin(store.rows);
        return;
      }
      var counts := store.CountByStatus();
      forall st ensures st in counts <==> st in Recounted(store.rows) {
        CountNonNegative(store.rows, st);
        if st in counts {
          var i :| 0 <= i < |store.rows| && store.rows[i].status == st;
          assert store.rows[i] in store.rows;
        }
      }
      assert counts == Recounted(store.rows);
      gauge.Sync(counts, store.rows);
      RestartResyncs(View(store, gauge, kube), true);
    }

    /** POST /v1/deployments: only a production version is deployed; the row starts pending. */
    method HandleCreate(tenant: string, req: CreateRequest, lookup: Lookup, id: string, ok: bool) returns (r: Result<nat, RequestError>)
      modifies store`rows, gauge
      ensures r.Ok? <==> CreateRefusal(req, lookup) == None && ok && !Conflicts(old(store.rows), id, tenant, req.name)
      ensures r.Ok? ==> lookup.Found? && lookup.production && r.value == |old(store.rows)|
      ensures r.Ok? ==> Now() == Created(old(Now()), Requested(tenant, req, lookup, id))
      ensures r.Err? ==> Now() == old(Now())
      ensures r == if req.modelName == "" || req.name == "" || req.modelVersion == 0 then Err(BadRequest)
                   else if req.replicas > 1 then Err(ReplicasUnsupported)
                   else if lookup.NoModel? then Err(ModelNotFound)
                   else if lookup.NoVersion? then Err(VersionNotFound)
                   else if lookup.LookupFailed? || (lookup.production && !ok) then Err(Internal)
                   else if !lookup.production then Err(NotProduction)
                   else if exists i :: 0 <= i < |old(store.rows)| && (old(store.rows)[i].id == id
                                         || (old(store.rows)[i].tenant == tenant && old(store.rows)[i].name == req.name))
                   then Err(Duplicate)
                   else Ok(|old(store.rows)|)
      ensures r.Ok? ==> store.rows == old(store.rows) + [Deployment(
                          id, tenant, lookup.record, lookup.version, req.name, if req.namespace == "" then "default" else req.namespace,
                          Pending, "", "", [Revision(1, lookup.version)])]
      ensures old(Agrees(Now())) ==> Agrees(Now())
    {
      if req.modelName == "" || req.name == "" || req.modelVersion == 0 { return Err(BadRequest); }
      if req.replicas > 1 { return Err(ReplicasUnsupported); }
      var ns := req.namespace;
      if ns == "" { ns := "default"; }
      match lookup {
        case NoModel => return Err(ModelNotFound);
        case NoVersion => return Err(VersionNotFound);
        case LookupFailed => return Err(Internal);
        case Found(record, version, production) =>
          if !production { return Err(NotProduction); }
          var d := NewDeployment(id, tenant, record, version, req.name, ns);
          var made := store.CreateDeployment(d, ok);
          if made.Err? { return Err(if made.error == DuplicateName then Duplicate else Internal); }
          gauge.Add(Pending, 1);
          gauge.ledger := gauge.ledger + [Entry(None, Pending, true, None, true)];
          r := Ok(made.value);
          if old(Agrees(Now())) { NewRowAgrees(old(Now()), d); }
      }
    }

    /** The status that Get reads for this tenant, if it can. */
    method Prior(tenant: string, dep: nat, ok: bool) returns (prior: Option<Status>)
      ensures prior == if ok && dep < |store.rows| && store.rows[dep].tenant == tenant then Some(store.rows[dep].status) else None
    {
      var got := store.GetDeployment(dep, ok);
      prior := if got.Ok? && got.value.tenant == tenant then Some(got.value.status) else None;
    }

    method MoveGauge(prior: Status, to: Status, ghost actual: Status)
      modifies gauge
      ensures gauge.values == Gauged(old(gauge.values), Entry(Some(actual), to, true, Some(prior), false))
      ensures gauge.ledger == old(gauge.ledger) + [Entry(Some(actual), to, true, Some(prior), true)]
      ensures gauge.baseline == old(gauge.baseline)
    {
      gauge.Add(prior, -1);
      if to != Deleted {
        gauge.Add(to, 1);
      }
      gauge.ledger := gauge.ledger + [Entry(Some(actual), to, true, Some(prior), true)];
    }

    /** DELETE /v1/deployments/{id}: `priorOk` and `ok` are the success of the first read and of the
        rest. */
    method HandleDelete(tenant: string, dep: nat, priorOk: bool, ok: bool) returns (done: bool)
      modifies store`rows, gauge
      ensures done <==> ok && dep < |old(store.rows)| && old(store.rows)[dep].tenant == tenant
                        && old(store.rows)[dep].status != Deleting && old(store.rows)[dep].status != Deleted
      ensures done ==> store.rows == old(store.rows)[dep := old(store.rows)[dep].(status := Deleting)]
      ensures done ==> Now() == Exec(old(Now()), DeleteSteps(0, dep, priorOk))
      ensures !done ==> Now() == old(Now())
      ensures priorOk && old(Agrees(Now())) ==> Agrees(Now())
    {
      ghost var before := Now();
      var prior := Prior(tenant, dep, priorOk);
      var got := store.GetDeployment(dep, ok);
      if got.Err? || got.value.tenant != tenant { return false; }
      done := store.DeleteDeployment(dep, ok);
      if !done { return; }
      if prior.Some? {
        MoveGauge(prior.value, Deleting, before.deps[dep].status);
      } else {
        gauge.ledger := gauge.ledger + [Entry(Some(before.deps[dep].status), Deleting, false, None, true)];
      }
      DeleteScript(before, 0, dep, priorOk);
      if priorOk && Agrees(before) {
        RowChangeAgrees(before, dep, before.deps[dep].(status := Deleting),
                        Entry(Some(before.deps[dep].status), Deleting, true, prior, false));
      }
    }

    /** POST /v1/deployments/{id}/rollback; revision 0 asks for the one before the newest. */
    method HandleRollback(tenant: string, dep: nat, revision: int, priorOk: bool, ok: bool) returns (r: Result<(), RequestError>)
      modifies store`rows, gauge
      ensures r.Ok? <==> ok && dep < |old(store.rows)| && old(store.rows)[dep].tenant == tenant
                         && RollbackTarget(old(store.rows)[dep], revision).Ok?
      ensures r == if !ok then Err(Internal)
                   else if dep >= |old(store.rows)| || old(store.rows)[dep].tenant != tenant then Err(NotFound)
                   else match RollbackTarget(old(store.rows)[dep], revision)
                     case Err(NoRevisionToRollback) => Err(NoRevision)
                     case Err(RevisionNotFound) => Err(RevisionMissing)
                     case Ok(_) => Ok(())
      ensures r.Ok? ==> Now() == Exec(old(Now()), RollbackSteps(0, dep, revision, priorOk))
      ensures r.Err? ==> Now() == old(Now())
      ensures priorOk && old(Agrees(Now())) ==> Agrees(Now())
    {
      ghost var before := Now();
      var prior := Prior(tenant, dep, priorOk);
      var got := store.GetDeployment(dep, ok);
      if got.Err? { return Err(if got.error == DeploymentNotFound then NotFound else Internal); }
      if got.value.tenant != tenant { return Err(NotFound); }
      var current := store.GetCurrentRevisionNumber(dep);
      var target := revision;
      if target == 0 { target := current - 1; }
      if target < 1 { return Err(NoRevision); }
      var rev := store.GetRevision(dep, target);
      if rev.None? { return Err(RevisionMissing); }
      var done := store.RollbackDeployment(dep, rev.value.version, ok);
      if prior.Some? {
        MoveGauge(prior.value, Pending, before.deps[dep].status);
      } else {
        gauge.ledger := gauge.ledger + [Entry(Some(before.deps[dep].status), Pending, false, None, true)];
      }
      r := Ok(());
      RollbackRevives(before, 0, dep, revision, priorOk);
      if priorOk && Agrees(before) {
        RowChangeAgrees(before, dep, RolledBack(before.deps[dep], rev.value.version),
                        Entry(Some(before.deps[dep].status), Pending, true, prior, false));
      }
    }

    /** PATCH /internal/v1/deployments/{id}/status; `ok` is the success of its two store calls. */
    method HandleUpdateDeploymentStatus(dep: nat, report: Report, ok: bool) returns (r: Result<(), RequestError>)
      modifies store`rows, gauge
      ensures dep < |old(store.rows)| ==> Now() == StatusHandled(old(Now()), dep, report, ok)
      ensures r == if report.status == Other("") then Err(BadRequest)
                   else if !ok then Err(Internal)
                   else if dep >= |old(store.rows)| then Err(NotFound)
                   else
                     var from := old(store.rows)[dep].status;
                     var allowed :=
                       match report.status
                       case Provisioning => from == Pending || from == Running
                       case Running => from == Provisioning
                       case Failed => from == Provisioning || from == Running
                       case Deleting => from == Pending || from == Provisioning || from == Running || from == Failed
                       case Deleted => from == Deleting
                       case _ => false;
                     if allowed then Ok(()) else Err(InvalidTransition)
      ensures r.Ok? ==> store.rows == old(store.rows)[dep := old(store.rows)[dep].(
                          status := report.status, endpoint := report.endpoint, failureReason := report.failureReason)]
      ensures r.Err? ==> Now() == old(Now())
      ensures old(Agrees(Now())) ==> Agrees(Now())
    {
      ghost var before := Now();
      if report.status == Other("") { return Err(BadRequest); }
      var current := store.GetDeployment(dep, ok);
      if current.Err? { return Err(if current.error == DeploymentNotFound then NotFound else Internal); }
      if !ValidTransition(current.value.status, report.status) { return Err(InvalidTransition); }
      var done := store.UpdateDeploymentStatus(dep, report, ok);
      MoveGauge(current.value.status, report.status, before.deps[dep].status);
      r := Ok(());
      if Agrees(before) {
        RowChangeAgrees(before, dep, store.rows[dep],
                        Entry(Some(before.deps[dep].status), report.status, true, Some(before.deps[dep].status), false));
      }
    }
  }
}
