/** One visit of the reconciler to one deployment, with every call free to fail, as a step list and as
    a function (operator/internal/reconciler/deployment_reconciler.go:134-233). */
module DeploymentVisits {
  import opened Prelude
  import opened Deployments
  import opened DeploymentProtocol
  import opened DeploymentScripts

  /** How the calls of a visit go: the pod call, the service call, and the write of the report. */
  datatype VisitFaults = VisitFaults(pod: Outcome, service: Outcome, write: bool)

  const NO_VISIT_FAULT := VisitFaults(Reached, Reached, true)

  function ObjectSteps(f: VisitFaults): seq<Step> {
    [EnsurePod(f.pod), EnsureService(f.service)] + [DropPod(f.pod), DropService(f.service)]
  }

  /** The calls of a visit; those of the branch not taken do nothing. */
  function VisitSteps(h: nat, f: VisitFaults): seq<Step> {
    [Take] + ObjectSteps(f) + [Send(h)] + StatusSteps(h, f.write) + [Resume]
  }

  /** The objects' part of a visit, up to the report. */
  function Worked(o: Operator, snap: Snap, todo: seq<Snap>, f: VisitFaults): Operator {
    var o' := o.(rec := AtPod(snap, todo));
    ServiceDropped(PodDropped(ServiceEnsured(PodEnsured(o', f.pod), f.service), f.pod), f.service)
  }

  /** The whole visit; `todo` is the rest of the listing. */
  function Visited(s: Sys, snap: Snap, todo: seq<Snap>, f: VisitFaults): Sys
    requires snap.dep < |s.deps|
  {
    var o := Worked(s.op, snap, todo, f);
    var s' := s.(op := o.(rec := Between(todo)));
    if o.rec.AtReport? then StatusHandled(s', snap.dep, o.rec.report, f.write) else s'
  }

  /** The report that a visit sends if no call fails. */
  function ReportFor(snap: Snap, pods: map<ObjectKey, Pod>): Option<Report> {
    var key := SnapKey(snap);
    if snap.status == Deleting then Some(Report(Deleted, "", ""))
    else if key !in pods then Some(Report(Provisioning, "", ""))
    else if MapPodPhase(pods[key].phase) == snap.status then None
    else Some(PodReport(snap.id, snap.namespace, pods[key]))
  }

  /** What the objects' part comes to when the deployment is to serve. */
  lemma WorkedServing(o: Operator, snap: Snap, todo: seq<Snap>, f: VisitFaults)
    requires snap.status != Deleting
    ensures var key := SnapKey(snap); var report := ReportFor(snap, o.pods);
            Worked(o, snap, todo, f) == Operator(
              if f.pod == Refused || key in o.pods then o.pods else o.pods[key := Pod(PodPending, "")],
              if f.pod != Reached || f.service == Refused then o.services else o.services + {key},
              if f.pod == Reached && f.service == Reached && report.Some? then AtReport(snap, todo, report.value) else Between(todo))
  {
  }

  /** What it comes to when the deployment is to go. */
  lemma WorkedDeleting(o: Operator, snap: Snap, todo: seq<Snap>, f: VisitFaults)
    requires snap.status == Deleting
    ensures var key := SnapKey(snap);
            Worked(o, snap, todo, f) == Operator(
              if f.pod == Refused then o.pods else o.pods - {key},
              if f.pod != Reached || f.service == Refused then o.services else o.services - {key},
              if f.pod == Reached && f.service == Reached then AtReport(snap, todo, Report(Deleted, "", "")) else Between(todo))
  {
  }

  lemma OperatorRuns(s: Sys, e: Step)
    requires OperatorsOwn(e)
    ensures Exec(s, [e]) == s.(op := OperatorStep(s.op, s.deps, s.reports.Keys, e))
  {
    ExecOne(s, e);
  }

  lemma EnsureRuns(s: Sys, f: VisitFaults)
    ensures Exec(s, [EnsurePod(f.pod), EnsureService(f.service)]) == s.(op := ServiceEnsured(PodEnsured(s.op, f.pod), f.service))
  {
    OperatorRuns(s, EnsurePod(f.pod));
    OperatorRuns(s.(op := PodEnsured(s.op, f.pod)), EnsureService(f.service));
    ExecConcat(s, [EnsurePod(f.pod)], [EnsureService(f.service)]);
    assert [EnsurePod(f.pod)] + [EnsureService(f.service)] == [EnsurePod(f.pod), EnsureService(f.service)];
  }

  lemma DropRuns(s: Sys, f: VisitFaults)
    ensures Exec(s, [DropPod(f.pod), DropService(f.service)]) == s.(op := ServiceDropped(PodDropped(s.op, f.pod), f.service))
  {
    OperatorRuns(s, DropPod(f.pod));
    OperatorRuns(s.(op := PodDropped(s.op, f.pod)), DropService(f.service));
    ExecConcat(s, [DropPod(f.pod)], [DropService(f.service)]);
    assert [DropPod(f.pod)] + [DropService(f.service)] == [DropPod(f.pod), DropService(f.service)];
  }

  lemma ObjectStepsRun(s: Sys, snap: Snap, todo: seq<Snap>, f: VisitFaults)
    requires s.op.rec == AtPod(snap, todo)
    ensures Exec(s, ObjectSteps(f)) == s.(op := Worked(s.op, snap, todo, f))
  {
    EnsureRuns(s, f);
    DropRuns(s.(op := ServiceEnsured(PodEnsured(s.op, f.pod), f.service)), f);
    ExecConcat(s, [EnsurePod(f.pod), EnsureService(f.service)], [DropPod(f.pod), DropService(f.service)]);
  }

  /** After the objects' part the reconciler either is done with the deployment or reports. */
  lemma WorkedEnds(o: Operator, snap: Snap, todo: seq<Snap>, f: VisitFaults)
    ensures var rec := Worked(o, snap, todo, f).rec;
            rec == Between(todo) || (rec.AtReport? && rec.snap == snap && rec.todo == todo)
  {
  }

  lemma TakeRuns(s: Sys, snap: Snap, todo: seq<Snap>)
    requires s.op.rec == Between([snap] + todo)
    ensures Exec(s, [Take]) == s.(op := s.op.(rec := AtPod(snap, todo)))
  {
  }

  lemma ResumeRuns(s: Sys, todo: seq<Snap>)
    requires s.op.rec.todo == todo
    requires s.op.rec.Between? || (s.op.rec.Awaiting? && s.op.rec.handler !in s.reports)
    ensures Exec(s, [Resume]) == s.(op := s.op.(rec := Between(todo)))
  {
    ExecOne(s, Resume);
  }

  lemma NoReportRuns(s: Sys, h: nat, ok: bool)
    requires h !in s.reports
    ensures Exec(s, StatusSteps(h, ok)) == s
  {
    ExecOne(s, StatusRead(h));
    NoHandlerScript(s, h, ok);
    ExecConcat(s, [StatusRead(h)], [StatusWrite(h, ok), StatusGauge(h)]);
  }

  lemma SilentRuns(s: Sys, todo: seq<Snap>, h: nat, ok: bool)
    requires s.op.rec == Between(todo) && h !in s.reports
    ensures Exec(Exec(Exec(s, [Send(h)]), StatusSteps(h, ok)), [Resume]) == s
  {
    ExecOne(s, Send(h));
    NoReportRuns(s, h, ok);
    ResumeRuns(s, todo);
  }

  lemma ReportRuns(s: Sys, snap: Snap, todo: seq<Snap>, r: Report, h: nat, ok: bool)
    requires s.op.rec == AtReport(snap, todo, r) && h !in s.reports && snap.dep < |s.deps|
    ensures Exec(Exec(Exec(s, [Send(h)]), StatusSteps(h, ok)), [Resume])
            == StatusHandled(s.(op := s.op.(rec := Between(todo))), snap.dep, r, ok)
  {
    ExecOne(s, Send(h));
    var sent := s.(op := s.op.(rec := Awaiting(snap, todo, h)));
    assert Exec(s, [Send(h)]) == sent.(reports := sent.reports[h := Reading(snap.dep, r)]);
    StatusScript(sent, h, snap.dep, r, ok);
    ResumeRuns(StatusHandled(sent, snap.dep, r, ok), todo);
  }

  lemma VisitConcat(s: Sys, h: nat, f: VisitFaults)
    ensures Exec(s, VisitSteps(h, f)) ==
            Exec(Exec(Exec(Exec(Exec(s, [Take]), ObjectSteps(f)), [Send(h)]), StatusSteps(h, f.write)), [Resume])
  {
    ExecConcat(s, [Take], ObjectSteps(f));
    ExecConcat(s, [Take] + ObjectSteps(f), [Send(h)]);
    ExecConcat(s, [Take] + ObjectSteps(f) + [Send(h)], StatusSteps(h, f.write));
    ExecConcat(s, [Take] + ObjectSteps(f) + [Send(h)] + StatusSteps(h, f.write), [Resume]);
  }

  /** The steps of a visit, run without interruption, do what Visited says. */
  lemma VisitRuns(s: Sys, snap: Snap, todo: seq<Snap>, h: nat, f: VisitFaults)
    requires s.op.rec == Between([snap] + todo) && snap.dep < |s.deps| && h !in s.reports
    ensures Exec(s, VisitSteps(h, f)) == Visited(s, snap, todo, f)
  {
    TakeRuns(s, snap, todo);
    var s1 := s.(op := s.op.(rec := AtPod(snap, todo)));
    ObjectStepsRun(s1, snap, todo, f);
    WorkedEnds(s.op, snap, todo, f);
    var s2 := s.(op := Worked(s.op, snap, todo, f));
    if s2.op.rec.AtReport? {
      ReportRuns(s2, snap, todo, s2.op.rec.report, h, f.write);
    } else {
      SilentRuns(s2, todo, h, f.write);
    }
    VisitConcat(s, h, f);
  }
}
