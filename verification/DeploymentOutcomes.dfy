/** What a visit of the reconciler does to one deployment, written out in names, phases and columns
    (operator/internal/reconciler/deployment_reconciler.go:134-233, :411), and what a serving
    deployment's endpoint addresses. */
module DeploymentOutcomes {
  import opened Prelude
  import opened Deployments
  import opened DeploymentProtocol
  import opened DeploymentHistory
  import opened DeploymentScripts
  import opened DeploymentVisits
  import opened DeploymentConvergence
  import opened DeploymentPlan

  /** Pod and service are found under the same name; both are created if missing and if the calls before
      have worked. */
  lemma ServingObjects(s: Sys, snap: Snap, todo: seq<Snap>, f: VisitFaults)
    requires snap.dep < |s.deps| && snap.status != Deleting
    ensures var key := ObjectKey("triton-" + snap.id, snap.namespace); var t := Visited(s, snap, todo, f);
            && t.op.pods == (if f.pod == Refused || key in s.op.pods then s.op.pods else s.op.pods[key := Pod(PodPending, "")])
            && t.op.services == (if f.pod != Reached || f.service == Refused then s.op.services else s.op.services + {key})
  {
    WorkedServing(s.op, snap, todo, f);
  }

  /** A deployment that is to go loses its pod and then its service, and nobody else loses anything. */
  lemma DeletingObjects(s: Sys, snap: Snap, todo: seq<Snap>, f: VisitFaults)
    requires snap.dep < |s.deps| && snap.status == Deleting
    ensures var key := ObjectKey("triton-" + snap.id, snap.namespace); var t := Visited(s, snap, todo, f);
            && t.op.pods == (if f.pod == Refused then s.op.pods else s.op.pods - {key})
            && t.op.services == (if f.pod != Reached || f.service == Refused then s.op.services else s.op.services - {key})
  {
    WorkedDeleting(s.op, snap, todo, f);
  }

  /** The report of a visit, if there is one. */
  predicate Reports(snap: Snap, pods: map<ObjectKey, Pod>, report: Report) {
    var key := ObjectKey("triton-" + snap.id, snap.namespace);
    if snap.status == Deleting then report == Report(Deleted, "", "")
    else if key !in pods then report == Report(Provisioning, "", "")
    else match pods[key].phase
      case PodRunning => snap.status != Running && report == Report(Running, "triton-" + snap.id + "." + snap.namespace + ".svc.cluster.local:8000", "")
      case PodFailed => snap.status != Failed && report == Report(Failed, "", pods[key].message)
      case _ => snap.status != Provisioning && report == Report(Provisioning, "", "")
  }

  lemma ReportsFor(snap: Snap, pods: map<ObjectKey, Pod>, report: Report)
    ensures ReportFor(snap, pods) == Some(report) <==> Reports(snap, pods, report)
  {
  }

  /** The row after a visit whose pod and service calls have worked: a provisioning takes effect on a
      pending or running deployment, a running on a provisioning one, a failed on a provisioning or
      running one, a deleted on a deleting one, and nothing else does. */
  lemma VisitedRow(s: Sys, snap: Snap, todo: seq<Snap>, f: VisitFaults, report: Report)
    requires snap.dep < |s.deps| && f.pod == f.service == Reached && Reports(snap, s.op.pods, report)
    ensures var d := s.deps[snap.dep];
            var taken :=
              match report.status
              case Provisioning => d.status == Pending || d.status == Running
              case Running => d.status == Provisioning
              case Failed => d.status == Provisioning || d.status == Running
              case _ => d.status == Deleting;
            Visited(s, snap, todo, f).deps ==
            if f.write && taken
            then s.deps[snap.dep := d.(status := report.status, endpoint := report.endpoint, failureReason := report.failureReason)]
            else s.deps
  {
    ReportsFor(snap, s.op.pods, report);
    if snap.status == Deleting {
      WorkedDeleting(s.op, snap, todo, f);
    } else {
      WorkedServing(s.op, snap, todo, f);
    }
  }

  /** Without a report, or with an object call that has failed, the visit changes no row. */
  lemma UnreportedRow(s: Sys, snap: Snap, todo: seq<Snap>, f: VisitFaults)
    requires snap.dep < |s.deps|
    requires f.pod != Reached || f.service != Reached || forall r :: !Reports(snap, s.op.pods, r)
    ensures Visited(s, snap, todo, f).deps == s.deps
  {
    if f.pod == f.service == Reached && ReportFor(snap, s.op.pods).Some? {
      ReportsFor(snap, s.op.pods, ReportFor(snap, s.op.pods).value);
    }
    if snap.status == Deleting {
      WorkedDeleting(s.op, snap, todo, f);
    } else {
      WorkedServing(s.op, snap, todo, f);
    }
  }

  /** A visit fails exactly if a call for its pod or service fails, or it has something to report and the
      report is not written: the write fails, or the row's status does not take it. */
  lemma VisitFailsExactly(s: Sys, snap: Snap, f: VisitFaults)
    requires snap.dep < |s.deps|
    ensures VisitFails(s, snap, f) <==>
            || f.pod != Reached || f.service != Reached
            || exists report ::
                 && Reports(snap, s.op.pods, report)
                 && !(f.write && var from := s.deps[snap.dep].status;
                                 match report.status
                                 case Provisioning => from == Pending || from == Running
                                 case Running => from == Provisioning
                                 case Failed => from == Provisioning || from == Running
                                 case _ => from == Deleting)
  {
    forall report ensures ReportFor(snap, s.op.pods) == Some(report) <==> Reports(snap, s.op.pods, report) {
      ReportsFor(snap, s.op.pods, report);
    }
    if snap.status == Deleting {
      WorkedDeleting(s.op, snap, [], f);
    } else {
      WorkedServing(s.op, snap, [], f);
    }
    if ReportFor(snap, s.op.pods).Some? {
      assert Reports(snap, s.op.pods, ReportFor(snap, s.op.pods).value);
    }
  }

  // ---------------------------------------------------------------- endpoints

  /** The endpoint of a deployment that runs after a visit is the name of a service that the visit has
      ensured, then its namespace, in the form of a cluster address with Triton's port. */
  lemma EndpointAddressesService(d: Deployment, pods: map<ObjectKey, Pod>, services: set<ObjectKey>)
    requires MetadataOk(d) && (d.status == Pending || d.status == Provisioning || d.status == Running)
    ensures var v := VisitNow(d, pods, services);
            v.row.status == Running ==>
              exists key :: key in v.services && key == ObjectKey("triton-" + d.id, d.namespace)
                            && v.row.endpoint == key.name + "." + key.namespace + ".svc.cluster.local:8000"
  {
    var v := VisitNow(d, pods, services);
    if v.row.status == Running {
      var key := ObjectKey("triton-" + d.id, d.namespace);
      assert key in v.services && v.row.endpoint == key.name + "." + key.namespace + ".svc.cluster.local:8000";
    }
  }

  /** In every run from the start, whatever fails, is delayed or interleaves: a running deployment has
      the address of its own service as its endpoint, only a running or deleting one has an endpoint at
      all, and only a failed or deleting one a failure reason. */
  lemma EndpointsInEveryRun(es: seq<Step>, i: nat)
    requires i < |Exec(Init(), es).deps|
    ensures var d := Exec(Init(), es).deps[i];
            && (d.status == Running ==> d.endpoint == "triton-" + d.id + "." + d.namespace + ".svc.cluster.local:8000")
            && (d.endpoint != "" ==> d.status == Running || d.status == Deleting)
            && (d.failureReason != "" ==> d.status == Failed || d.status == Deleting)
  {
    InitOk();
    HistoryOnlyGrows(Init(), es);
    assert RowOk(Exec(Init(), es).deps[i]);
  }
}
