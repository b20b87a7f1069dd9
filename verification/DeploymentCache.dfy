/** The operator's client reads pods and services from a cache (operator/cmd/operator/main.go:84). A
    cache that does not show an object which is to be deleted makes reconcileDelete skip the Delete and
    report `deleted` all the same (operator/internal/reconciler/deployment_reconciler.go:211-233):
    exactly which steps delete safety depends on. */
module DeploymentCache {
  import opened Prelude
  import opened Deployments
  import opened DeploymentProtocol
  import opened DeploymentHistory
  import opened DeploymentSafety
  import opened DeploymentScripts
  import opened DeploymentVisits
  import opened DeploymentDelay

  /** The reconciler is about to report a deployment as deleted that is not, with an object left. */
  predicate AboutToOrphan(s: Sys) {
    && Inv(s) && s.op.rec.AtReport? && s.op.rec.report.status == Deleted
    && s.deps[s.op.rec.snap.dep].status != Deleted && !Gone(s.op, SnapKey(s.op.rec.snap))
  }

  /** The row can be brought to deleting, if it is not. */
  lemma MadeDeleting(s: Sys, i: nat) returns (es: seq<Step>)
    requires i < |s.deps| && s.deps[i].status != Deleted
    ensures var s' := Exec(s, es);
            && |s'.deps| == |s.deps| && RowKey(s'.deps[i]) == RowKey(s.deps[i]) && s'.deps[i].status == Deleting
            && s'.op == s.op && s'.reports == s.reports && Faultless(es)
  {
    if s.deps[i].status == Deleting {
      es := [];
    } else {
      var u := FreshUser(s.users);
      DeleteScript(s, u, i, true);
      es := DeleteSteps(u, i, true);
    }
  }

  lemma SentReport(s: Sys, h: nat)
    requires s.op.rec.AtReport? && h !in s.reports
    ensures var s' := Exec(s, [Send(h)]);
            && s'.deps == s.deps && s'.op == s.op.(rec := s'.op.rec)
            && h in s'.reports && s'.reports[h] == Reading(s.op.rec.snap.dep, s.op.rec.report)
  {
    SentScript(s, h);
  }

  function Landing(h: nat): (r: seq<Step>)
    ensures Faultless(r)
  {
    [StatusRead(h)] + [StatusWrite(h, true)]
  }

  lemma SentAndLanded(s: Sys, i: nat, h: nat)
    requires s.op.rec.AtReport? && s.op.rec.report.status == Deleted && s.op.rec.snap.dep == i && h !in s.reports
    requires i < |s.deps| && s.deps[i].status == Deleting
    ensures var s' := Exec(s, [Send(h)] + Landing(h));
            && |s'.deps| == |s.deps| && s'.deps[i].status == Deleted && RowKey(s'.deps[i]) == RowKey(s.deps[i])
            && s'.op.pods == s.op.pods && s'.op.services == s.op.services
  {
    SentReport(s, h);
    ReportLands(Exec(s, [Send(h)]), h, i);
    ExecConcat(s, [Send(h)], Landing(h));
  }

  lemma ReportOrphans(s: Sys) returns (es: seq<Step>)
    requires AboutToOrphan(s)
    ensures Faultless(es) && Orphaned(Exec(s, es))
  {
    var i := s.op.rec.snap.dep;
    assert SnapOk(s.deps, s.op.rec.snap);
    var delete := MadeDeleting(s, i);
    var h := Above(s.reports.Keys);
    SentAndLanded(Exec(s, delete), i, h);
    ExecConcat(s, delete, [Send(h)] + Landing(h));
    es := delete + ([Send(h)] + Landing(h));
    assert !Gone(Exec(s, es).op, RowKey(Exec(s, es).deps[i]));
  }

  lemma ServiceMissOrphans(s: Sys) returns (es: seq<Step>)
    requires Safe(s) && !MissesNothing(s.op, MissService)
    ensures Faultless(es) && Orphaned(Exec(Apply(s, MissService), es))
  {
    var i := s.op.rec.snap.dep;
    assert SnapOk(s.deps, s.op.rec.snap);
    InvStep(s, MissService);
    assert !Gone(s.op, RowKey(s.deps[i]));
    es := ReportOrphans(Apply(s, MissService));
  }

  lemma PodMissOrphans(s: Sys) returns (es: seq<Step>)
    requires Safe(s) && !MissesNothing(s.op, MissPod)
    ensures Faultless(es) && Orphaned(Exec(Apply(s, MissPod), es))
  {
    assert SnapOk(s.deps, s.op.rec.snap);
    var s1 := s.(op := PodMissed(s.op));
    assert Apply(s, MissPod) == s1;
    var s2 := s1.(op := ServiceDropped(s1.op, Reached));
    OperatorRuns(s1, DropService(Reached));
    InvStep(s, MissPod);
    InvStep(s1, DropService(Reached));
    assert Apply(s1, DropService(Reached)) == s2;
    var rest := ReportOrphans(s2);
    ExecConcat(s1, [DropService(Reached)], rest);
    es := [DropService(Reached)] + rest;
  }

  ghost predicate StaysClean(s: Sys) {
    forall es :: OrderlyRun(s, es) ==> !Orphaned(Exec(s, es))
  }

  /** Every single step, in every safe state: every orderly continuation keeps deleted deployments
      without objects if and only if the step is orderly itself, that is, it neither gives up on a
      `deleted` that its cancellation does not reach nor misses an object that is to be deleted. */
  lemma OrderIsExact(s: Sys, e: Step)
    requires Safe(s)
    ensures StaysClean(Apply(s, e)) <==> Orderly(s, e)
  {
    if Orderly(s, e) {
      SafeStep(s, e);
      forall es | OrderlyRun(Apply(s, e), es) ensures !Orphaned(Exec(Apply(s, e), es)) {
        DeleteSafety(Apply(s, e), es);
      }
    } else {
      var es := DisorderOrphans(s, e);
      assert OrderlyRun(Apply(s, e), es);
    }
  }

  lemma DisorderOrphans(s: Sys, e: Step) returns (es: seq<Step>)
    requires Safe(s) && !Orderly(s, e)
    ensures OrderlyRun(Apply(s, e), es) && Orphaned(Exec(Apply(s, e), es))
  {
    if e.MissPod? {
      es := PodMissOrphans(s);
    } else if e.MissService? {
      es := ServiceMissOrphans(s);
    } else {
      assert e == Detach(false);
      es := GivingUpOrphans(s);
    }
    if !e.Detach? {
      FaultlessIsOrderly(Apply(s, e), es);
    }
  }
}
