/** Deployment rows and their store updates (control-plane/internal/deployments/store.go,
    statemachine.go), and the names and phases the operator works with
    (operator/internal/reconciler/deployment_reconciler.go). A row is shown together with its
    deployment_revisions rows; NULL text columns read as "". */
module Deployments {
  import opened Prelude

  datatype Status =
    | Pending | Provisioning | Running | Failed | Deleting | Deleted
    | Other(text: string)

  datatype Revision = Revision(number: int, version: nat)

  datatype Deployment = Deployment(
    id: string,
    tenant: string,
    record: nat,
    version: nat,
    name: string,
    namespace: string,
    status: Status,
    endpoint: string,
    failureReason: string,
    revisions: seq<Revision>)

  type Table = seq<Deployment>

  predicate ValidTransition(from: Status, to: Status) {
    match from
    case Pending => to == Provisioning || to == Deleting
    case Provisioning => to == Running || to == Failed || to == Deleting
    case Running => to == Provisioning || to == Failed || to == Deleting
    case Failed => to == Deleting
    case Deleting => to == Deleted
    case _ => false
  }

  /** CreateDeployment: the row and its revision 1 in one transaction. */
  function NewDeployment(id: string, tenant: string, record: nat, version: nat, name: string, namespace: string): Deployment {
    Deployment(id, tenant, record, version, name, namespace, Pending, "", "", [Revision(1, version)])
  }

  /** The unique (tenant_id, name) and primary-key constraints; deleted rows count. */
  predicate Conflicts(db: Table, id: string, tenant: string, name: string) {
    exists i :: 0 <= i < |db| && (db[i].id == id || (db[i].tenant == tenant && db[i].name == name))
  }

  /** UpdateDeploymentStatus: unconditional on the current status. */
  function WithStatus(d: Deployment, status: Status, endpoint: string, failureReason: string): Deployment {
    d.(status := status, endpoint := endpoint, failureReason := failureReason)
  }

  /** DeleteDeployment: NOT IN ('deleting','deleted'). */
  predicate Deletable(d: Deployment) { d.status != Deleting && d.status != Deleted }

  /** COALESCE(MAX(revision_number), 0) */
  function MaxRevision(revs: seq<Revision>): int {
    if revs == [] then 0
    else
      var m := MaxRevision(revs[..|revs| - 1]);
      if revs[|revs| - 1].number > m then revs[|revs| - 1].number else m
  }

  /** GetRevision by number. */
  function FindRevision(revs: seq<Revision>, number: int): Option<Revision> {
    if revs == [] then None
    else if revs[|revs| - 1].number == number then Some(revs[|revs| - 1])
    else FindRevision(revs[..|revs| - 1], number)
  }

  /** RollbackDeployment: revision N+1 mirroring the target, row back to pending. */
  function RolledBack(d: Deployment, version: nat): Deployment {
    d.(version := version, status := Pending, endpoint := "", failureReason := "",
       revisions := d.revisions + [Revision(MaxRevision(d.revisions) + 1, version)])
  }

  datatype RollbackError = NoRevisionToRollback | RevisionNotFound

  /** Service.Rollback up to the store transaction: which version to roll back to. */
  function RollbackTarget(d: Deployment, revision: int): Result<nat, RollbackError> {
    var target := if revision == 0 then MaxRevision(d.revisions) - 1 else revision;
    if target < 1 then Err(NoRevisionToRollback)
    else match FindRevision(d.revisions, target)
      case None => Err(RevisionNotFound)
      case Some(r) => Ok(r.version)
  }

  /** The deployments of one status, as CountByStatus counts them. */
  function CountOf(db: Table, status: Status): int {
    if db == [] then 0
    else CountOf(db[..|db| - 1], status) + if db[|db| - 1].status == status then 1 else 0
  }

  // ---------------------------------------------------------------- the operator's side

  datatype Phase = PodPending | PodRunning | PodSucceeded | PodFailed | PodUnknown

  /** A pod by its phase and the text extractPodFailureReason finds in it. */
  datatype Pod = Pod(phase: Phase, message: string)

  datatype ObjectKey = ObjectKey(name: string, namespace: string)

  function MapPodPhase(phase: Phase): Status {
    match phase
    case PodRunning => Running
    case PodFailed => Failed
    case _ => Provisioning
  }

  /** TritonPodName and TritonServiceName. */
  function TritonName(id: string): string { "triton-" + id }

  function KeyOf(id: string, namespace: string): ObjectKey { ObjectKey(TritonName(id), namespace) }

  function ServingEndpoint(id: string, namespace: string): string {
    "triton-" + id + "." + namespace + ".svc.cluster.local:8000"
  }

  lemma KeysDistinct(a: string, b: string, ns: string, ns': string)
    requires KeyOf(a, ns) == KeyOf(b, ns')
    ensures a == b
  {
    assert TritonName(a)[7..] == a;
    assert TritonName(b)[7..] == b;
  }

  /** The body of a PATCH /internal/v1/deployments/{id}/status. */
  datatype Report = Report(status: Status, endpoint: string, failureReason: string)

  /** The report that reconcileOne builds from a pod it found. */
  function PodReport(id: string, namespace: string, pod: Pod): Report {
    var status := MapPodPhase(pod.phase);
    Report(status,
      if status == Running then ServingEndpoint(id, namespace) else "",
      if status == Failed then pod.message else "")
  }
}
