/** When `deleted` is final. The transition table gives it no way out, but a rollback does not ask the
    table, and a status request asks it before it writes and not again when it writes
    (control-plane/internal/api/internal.go:165-181). */
module DeploymentTerminal {
  import opened Prelude
  import opened Deployments
  import opened DeploymentProtocol
  import opened DeploymentHistory
  import opened DeploymentScripts
  import opened DeploymentVisits
  import opened DeploymentConvergence
  import opened DeploymentDelay

  predicate IsDeleted(s: Sys, i: nat) { i < |s.deps| && s.deps[i].status == Deleted }

  /** Not the commit of a rollback of this deployment. */
  predicate NotRolledBack(s: Sys, e: Step, i: nat) {
    e.RollbackCommit? && e.ok && e.user in s.users && s.users[e.user].RollingBack? ==> s.users[e.user].dep != i
  }

  ghost predicate NeverRolledBack(s: Sys, es: seq<Step>, i: nat)
    decreases |es|
  {
    es == [] || (NotRolledBack(s, es[0], i) && NeverRolledBack(Apply(s, es[0]), es[1..], i))
  }

  /** No status request that has passed its check is about to write another status. */
  predicate NothingWritten(reports: map<nat, StatusHandler>, i: nat) {
    forall h :: h in reports && reports[h].Writing? && reports[h].dep == i ==> reports[h].report.status == Deleted
  }

  lemma UserStepLeavesDeleted(s: Sys, e: Step, i: nat)
    requires IsDeleted(s, i) && UserStep(e) && NotRolledBack(s, e, i)
    ensures IsDeleted(Apply(s, e), i) && Apply(s, e).reports == s.reports
  {
    match e
    case Create(_, _, _, _, _, _, _) =>
    case DeleteRead(_, _, _) =>
    case DeleteCommit(_, _) =>
    case RollbackRead(_, _, _, _) =>
    case RollbackTargetRead(_) =>
    case RollbackCommit(_, _) =>
  }

  lemma ReportLeavesDeleted(s: Sys, e: Step, i: nat)
    requires IsDeleted(s, i) && NothingWritten(s.reports, i) && (e.StatusRead? || e.StatusWrite? || e.Send? || e.Detach?)
    ensures IsDeleted(Apply(s, e), i) && NothingWritten(Apply(s, e).reports, i)
  {
    match e
    case StatusRead(_) =>
    case StatusWrite(_, _) =>
    case Send(_) =>
    case Detach(_) =>
  }

  lemma OthersLeaveDeleted(s: Sys, e: Step, i: nat)
    requires IsDeleted(s, i) && NothingWritten(s.reports, i)
    requires !UserStep(e) && !(e.StatusRead? || e.StatusWrite? || e.Send? || e.Detach?)
    ensures IsDeleted(Apply(s, e), i) && NothingWritten(Apply(s, e).reports, i)
  {
    if OperatorsOwn(e) {
      assert Apply(s, e) == s.(op := Apply(s, e).op);
    } else {
      match e
      case UserGauge(_) =>
      case UserErrs(_) =>
      case StatusGauge(_) =>
      case StatusErrs(_) =>
      case PhaseChange(_, _) =>
      case PodLost(_) =>
      case Restart(_) =>
    }
  }

  lemma {:induction false} DeletedStays(s: Sys, es: seq<Step>, i: nat)
    requires IsDeleted(s, i) && NothingWritten(s.reports, i) && NeverRolledBack(s, es, i)
    ensures IsDeleted(Exec(s, es), i)
    decreases |es|
  {
    if es != [] {
      if UserStep(es[0]) {
        UserStepLeavesDeleted(s, es[0], i);
      } else if es[0].StatusRead? || es[0].StatusWrite? || es[0].Send? || es[0].Detach? {
        ReportLeavesDeleted(s, es[0], i);
      } else {
        OthersLeaveDeleted(s, es[0], i);
      }
      DeletedStays(Apply(s, es[0]), es[1..], i);
    }
  }

  lemma WriteRevives(s: Sys, h: nat, i: nat)
    requires IsDeleted(s, i) && h in s.reports && s.reports[h].Writing? && s.reports[h].dep == i && s.reports[h].report.status != Deleted
    ensures !IsDeleted(Exec(s, [StatusWrite(h, true)]), i) && NeverRolledBack(s, [StatusWrite(h, true)], i)
  {
    assert [StatusWrite(h, true)][1..] == [];
    assert Exec(s, [StatusWrite(h, true)]) == Exec(Apply(s, StatusWrite(h, true)), []);
  }

  ghost predicate DeletedForEver(s: Sys, i: nat) {
    forall es :: NeverRolledBack(s, es, i) ==> IsDeleted(Exec(s, es), i)
  }

  /** A deleted deployment stays deleted in every continuation without a rollback of it, whatever fails,
      is delayed or interleaves, if and only if no status request that has passed its check is about to
      write another status to it. */
  lemma DeletedIsFinalExactly(s: Sys, i: nat)
    requires IsDeleted(s, i)
    ensures DeletedForEver(s, i) <==> NothingWritten(s.reports, i)
  {
    if NothingWritten(s.reports, i) {
      forall es | NeverRolledBack(s, es, i) ensures IsDeleted(Exec(s, es), i) { DeletedStays(s, es, i); }
    } else {
      var h :| h in s.reports && s.reports[h].Writing? && s.reports[h].dep == i && s.reports[h].report.status != Deleted;
      WriteRevives(s, h, i);
    }
  }

  // ---------------------------------------------------------------- a late report, from the start

  const PROVISIONING := Report(Provisioning, "", "")

  /** A visit of a pending deployment up to the check of its report, on which the client gives up. */
  const GIVEN_UP := [List, Take] + [EnsurePod(Reached), EnsureService(Reached)] + [Send(0), StatusRead(0)] + [Detach(false)]

  lemma EnsuredScript(s: Sys, d: Deployment)
    requires s.deps == [d] && d.status == Pending && s.op == Operator(map[], {}, AtPod(SnapOf(d), []))
    ensures var s' := Exec(s, [EnsurePod(Reached), EnsureService(Reached)]);
            s' == s.(op := s'.op) && s'.op.rec == AtReport(SnapOf(d), [], PROVISIONING)
  {
    EnsureRuns(s, NO_VISIT_FAULT);
  }

  lemma CheckedAndLeft(s: Sys, d: Deployment)
    requires s.deps == [d] && d.status == Pending && s.reports == map[] && s.op.rec == AtReport(SnapOf(d), [], PROVISIONING)
    ensures var s' := Exec(s, [Send(0), StatusRead(0)] + [Detach(false)]);
            s' == s.(op := s.op.(rec := Between([])), reports := map[0 := Writing(0, PROVISIONING, Pending)])
  {
    var sent := s.(op := s.op.(rec := Awaiting(SnapOf(d), [], 0)));
    SentScript(s, 0);
    assert s.reports[0 := Reading(0, PROVISIONING)] == map[0 := Reading(0, PROVISIONING)];
    StatusReadScript(sent, 0, 0, PROVISIONING);
    ExecConcat(s, [Send(0)], [StatusRead(0)]);
    assert [Send(0)] + [StatusRead(0)] == [Send(0), StatusRead(0)];
    var checked := sent.(reports := map[0 := Writing(0, PROVISIONING, Pending)]);
    assert Exec(s, [Send(0), StatusRead(0)]) == checked;
    Leaves(checked, 0);
    ExecConcat(s, [Send(0), StatusRead(0)], [Detach(false)]);
  }

  lemma Leaves(s: Sys, h: nat)
    requires s.op.rec.Awaiting?
    ensures Exec(s, [Detach(false)]) == s.(op := s.op.(rec := Between(s.op.rec.todo)))
  {
    ExecOne(s, Detach(false));
  }

  lemma GivenUpRuns(s: Sys, d: Deployment)
    requires s.deps == [d] && d.status == Pending && s.op == Operator(map[], {}, Between([])) && s.reports == map[]
    ensures var s' := Exec(s, GIVEN_UP);
            && s' == s.(op := s'.op, reports := map[0 := Writing(0, PROVISIONING, Pending)]) && s'.op.rec == Between([])
  {
    TakenScript(s, d);
    var s1 := Exec(s, [List, Take]);
    EnsuredScript(s1, d);
    var s2 := Exec(s1, [EnsurePod(Reached), EnsureService(Reached)]);
    CheckedAndLeft(s2, d);
    var tail := [Send(0), StatusRead(0)] + [Detach(false)];
    ExecConcat(s, [List, Take], [EnsurePod(Reached), EnsureService(Reached)]);
    ExecConcat(s, [List, Take] + [EnsurePod(Reached), EnsureService(Reached)], tail);
    assert GIVEN_UP == [List, Take] + [EnsurePod(Reached), EnsureService(Reached)] + tail;
  }

  /** A deletion carried out by the user and by a visit. */
  lemma DeletionRuns(s: Sys, d: Deployment)
    requires s.deps == [d] && d.status == Pending && s.op.rec == Between([]) && s.users == map[] && 1 !in s.reports
    ensures var s' := Exec(s, DeleteSteps(0, 0, true) + ([List] + VisitSteps(1, NO_VISIT_FAULT)));
            IsDeleted(s', 0) && s'.reports == s.reports
  {
    DeleteScript(s, 0, 0, true);
    var s1 := Exec(s, DeleteSteps(0, 0, true));
    var row := d.(status := Deleting);
    assert s1.deps == [row];
    OnlyListed(row);
    ListRuns(s1, VisitSteps(1, NO_VISIT_FAULT));
    var s2 := s1.(op := s1.op.(rec := Between([SnapOf(row)])));
    assert [SnapOf(row)] + [] == [SnapOf(row)];
    FaultFreeVisit(s2, SnapOf(row), [], 1);
    VisitDeletes(row, s1.op.pods, s1.op.services);
    ExecConcat(s, DeleteSteps(0, 0, true), [List] + VisitSteps(1, NO_VISIT_FAULT));
  }

  predicate NoRollback(es: seq<Step>) { forall k :: 0 <= k < |es| ==> !es[k].RollbackCommit? }

  lemma {:induction false} NoRollbackAtAll(s: Sys, es: seq<Step>, i: nat)
    requires NoRollback(es)
    ensures NeverRolledBack(s, es, i)
    decreases |es|
  {
    if es != [] {
      assert !es[0].RollbackCommit?;
      NoRollbackAtAll(Apply(s, es[0]), es[1..], i);
    }
  }

  /** From the start, without a rollback: the report of an earlier visit, on which the client gave up and
      which its cancellation did not reach, brings a deleted deployment back. */
  lemma LateReportRevives() returns (es: seq<Step>)
    ensures IsDeleted(Exec(Init(), es), 0) && NeverRolledBack(Init(), es + [StatusWrite(0, true)], 0)
    ensures var s := Exec(Init(), es + [StatusWrite(0, true)]); |s.deps| > 0 && s.deps[0].status == Provisioning
  {
    es := DELETED_WITH_REPORT;
    DeletedWithReport();
    NothingRollsBack();
    ExecConcat(Init(), es, [StatusWrite(0, true)]);
    WriteLandsAs(Exec(Init(), es), 0, 0);
    NoRollbackAtAll(Init(), es + [StatusWrite(0, true)], 0);
  }

  lemma WriteLandsAs(s: Sys, h: nat, i: nat)
    requires h in s.reports && s.reports[h].Writing? && s.reports[h].dep == i < |s.deps|
    ensures var s' := Exec(s, [StatusWrite(h, true)]); i < |s'.deps| && s'.deps[i].status == s.reports[h].report.status
  {
    ExecOne(s, StatusWrite(h, true));
  }

  const CREATED := [Create(0, "d", "t", 0, 0, "web", "default"), UserGauge(0)]

  /** A deployment is created, visited in vain, and deleted. */
  const DELETED_WITH_REPORT := CREATED + GIVEN_UP + (DeleteSteps(0, 0, true) + ([List] + VisitSteps(1, NO_VISIT_FAULT)))

  lemma NothingRollsBack()
    ensures NoRollback(DELETED_WITH_REPORT)
  {
  }

  lemma DeletedWithReport()
    ensures var s := Exec(Init(), DELETED_WITH_REPORT);
            IsDeleted(s, 0) && s.reports == map[0 := Writing(0, PROVISIONING, Pending)]
  {
    CreateScript(Init(), 0, FIRST_DEPLOYMENT);
    var s1 := Exec(Init(), CREATED);
    assert s1.deps == [FIRST_DEPLOYMENT];
    GivenUpRuns(s1, FIRST_DEPLOYMENT);
    var s2 := Exec(s1, GIVEN_UP);
    DeletionRuns(s2, FIRST_DEPLOYMENT);
    var delete := DeleteSteps(0, 0, true) + ([List] + VisitSteps(1, NO_VISIT_FAULT));
    ExecConcat(Init(), CREATED, GIVEN_UP);
    ExecConcat(Init(), CREATED + GIVEN_UP, delete);
  }
}
