/** Whole requests as step lists, with their effect when nothing comes between their calls. */
module DeploymentScripts {
  import opened Prelude
  import opened Deployments
  import opened DeploymentProtocol

  lemma ExecOne(s: Sys, e: Step)
    ensures Exec(s, [e]) == Apply(s, e)
  {
  }

  lemma ExecTwo(s: Sys, a: Step, b: Step)
    ensures Exec(s, [a, b]) == Apply(Apply(s, a), b)
  {
    assert [a, b][1..] == [b];
    ExecOne(Apply(s, a), b);
  }

  /** The deployment of the concrete runs. */
  const FIRST_DEPLOYMENT := NewDeployment("d", "t", 0, 0, "web", "default")

  /** A row change that is committed and then counted. */
  function Committed(s: Sys, deps: Table, e: Entry): Sys {
    s.(deps := deps, gauge := Gauged(s.gauge, e), ledger := s.ledger + [e.(done := true)])
  }

  /** Counting the newest change. */
  lemma UserCounts(s: Sys, u: nat, deps: Table, e: Entry)
    requires u !in s.users && !e.done
    ensures Apply(s.(deps := deps, users := s.users[u := Counting(|s.ledger|)], ledger := s.ledger + [e]), UserGauge(u))
            == Committed(s, deps, e)
  {
  }

  lemma StatusCounts(s: Sys, h: nat, deps: Table, e: Entry)
    requires h !in s.reports && !e.done
    ensures Apply(s.(deps := deps, reports := s.reports[h := Gauging(|s.ledger|)], ledger := s.ledger + [e]), StatusGauge(h))
            == Committed(s, deps, e)
  {
  }

  // ---------------------------------------------------------------- user requests

  function Created(s: Sys, d: Deployment): Sys {
    Committed(s, s.deps + [d], Entry(None, Pending, true, None, false))
  }

  /** A whole user create. */
  lemma CreateScript(s: Sys, u: nat, d: Deployment)
    requires d == NewDeployment(d.id, d.tenant, d.record, d.version, d.name, d.namespace)
    requires u !in s.users && !Conflicts(s.deps, d.id, d.tenant, d.name)
    ensures Exec(s, [Create(u, d.id, d.tenant, d.record, d.version, d.name, d.namespace), UserGauge(u)]) == Created(s, d)
  {
    var e := Create(u, d.id, d.tenant, d.record, d.version, d.name, d.namespace);
    UserCounts(s, u, s.deps + [d], Entry(None, Pending, true, None, false));
    assert Apply(s, e) == ApplyCreate(s, u, d);
    ExecTwo(s, e, UserGauge(u));
  }

  function MarkedDeleting(s: Sys, dep: nat, prior: Option<Status>): Sys
    requires dep < |s.deps|
  {
    Committed(s, s.deps[dep := s.deps[dep].(status := Deleting)],
              Entry(Some(s.deps[dep].status), Deleting, prior.Some?, prior, false))
  }

  lemma DeleteReadScript(s: Sys, u: nat, dep: nat, ok: bool)
    requires u !in s.users && dep < |s.deps|
    ensures Exec(s, [DeleteRead(u, dep, ok)]) ==
            s.(users := s.users[u := Removing(dep, if ok then Some(s.deps[dep].status) else None)])
  {
  }

  lemma DeleteCommitScript(s: Sys, u: nat, dep: nat, prior: Option<Status>)
    requires dep < |s.deps| && Deletable(s.deps[dep]) && u !in s.users
    ensures Exec(s.(users := s.users[u := Removing(dep, prior)]), [DeleteCommit(u, true), UserGauge(u)]) == MarkedDeleting(s, dep, prior)
  {
    var e := Entry(Some(s.deps[dep].status), Deleting, prior.Some?, prior, false);
    var row := s.deps[dep].(status := Deleting);
    var s1 := s.(users := s.users[u := Removing(dep, prior)]);
    UserCounts(s, u, s.deps[dep := row], e);
    assert s1.users[u := Counting(|s.ledger|)] == s.users[u := Counting(|s.ledger|)];
    assert ApplyDeleteCommit(s1, u, true) ==
           s.(deps := s.deps[dep := row], users := s.users[u := Counting(|s.ledger|)], ledger := s.ledger + [e]);
    ExecTwo(s1, DeleteCommit(u, true), UserGauge(u));
  }

  function DeleteSteps(u: nat, dep: nat, ok: bool): seq<Step> {
    [DeleteRead(u, dep, ok)] + [DeleteCommit(u, true), UserGauge(u)]
  }

  /** A whole user delete; `ok` is whether the read of the old status succeeds. */
  lemma DeleteScript(s: Sys, u: nat, dep: nat, ok: bool)
    requires u !in s.users && dep < |s.deps| && Deletable(s.deps[dep])
    ensures Exec(s, DeleteSteps(u, dep, ok)) == MarkedDeleting(s, dep, if ok then Some(s.deps[dep].status) else None)
  {
    DeleteReadScript(s, u, dep, ok);
    DeleteCommitScript(s, u, dep, if ok then Some(s.deps[dep].status) else None);
    ExecConcat(s, [DeleteRead(u, dep, ok)], [DeleteCommit(u, true), UserGauge(u)]);
  }

  function RolledBackTo(s: Sys, dep: nat, version: nat, prior: Option<Status>): Sys
    requires dep < |s.deps|
  {
    Committed(s, s.deps[dep := RolledBack(s.deps[dep], version)],
              Entry(Some(s.deps[dep].status), Pending, prior.Some?, prior, false))
  }

  lemma RollbackAskedScript(s: Sys, u: nat, dep: nat, revision: int, ok: bool)
    requires u !in s.users && dep < |s.deps|
    ensures Exec(s, [RollbackRead(u, dep, revision, ok)]) ==
            s.(users := s.users[u := Targeting(dep, revision, if ok then Some(s.deps[dep].status) else None)])
  {
  }

  lemma TargetReadScript(s: Sys, u: nat, dep: nat, revision: int, prior: Option<Status>)
    requires dep < |s.deps| && RollbackTarget(s.deps[dep], revision).Ok?
    ensures Exec(s.(users := s.users[u := Targeting(dep, revision, prior)]), [RollbackTargetRead(u)]) ==
            s.(users := s.users[u := RollingBack(dep, RollbackTarget(s.deps[dep], revision).value, prior)])
  {
  }

  lemma RollbackReadScript(s: Sys, u: nat, dep: nat, revision: int, ok: bool)
    requires u !in s.users && dep < |s.deps| && RollbackTarget(s.deps[dep], revision).Ok?
    ensures Exec(s, [RollbackRead(u, dep, revision, ok), RollbackTargetRead(u)]) ==
            s.(users := s.users[u := RollingBack(dep, RollbackTarget(s.deps[dep], revision).value,
                                                 if ok then Some(s.deps[dep].status) else None)])
  {
    var prior := if ok then Some(s.deps[dep].status) else None;
    RollbackAskedScript(s, u, dep, revision, ok);
    TargetReadScript(s, u, dep, revision, prior);
    ExecConcat(s, [RollbackRead(u, dep, revision, ok)], [RollbackTargetRead(u)]);
    assert [RollbackRead(u, dep, revision, ok)] + [RollbackTargetRead(u)] == [RollbackRead(u, dep, revision, ok), RollbackTargetRead(u)];
  }

  lemma RollbackCommitScript(s: Sys, u: nat, dep: nat, version: nat, prior: Option<Status>)
    requires dep < |s.deps| && u !in s.users
    ensures Exec(s.(users := s.users[u := RollingBack(dep, version, prior)]), [RollbackCommit(u, true), UserGauge(u)])
            == RolledBackTo(s, dep, version, prior)
  {
    var e := Entry(Some(s.deps[dep].status), Pending, prior.Some?, prior, false);
    var row := RolledBack(s.deps[dep], version);
    var s1 := s.(users := s.users[u := RollingBack(dep, version, prior)]);
    UserCounts(s, u, s.deps[dep := row], e);
    assert s1.users[u := Counting(|s.ledger|)] == s.users[u := Counting(|s.ledger|)];
    assert ApplyRollbackCommit(s1, u, true) ==
           s.(deps := s.deps[dep := row], users := s.users[u := Counting(|s.ledger|)], ledger := s.ledger + [e]);
    ExecTwo(s1, RollbackCommit(u, true), UserGauge(u));
  }

  function RollbackSteps(u: nat, dep: nat, revision: int, ok: bool): seq<Step> {
    [RollbackRead(u, dep, revision, ok), RollbackTargetRead(u)] + [RollbackCommit(u, true), UserGauge(u)]
  }

  /** A whole user rollback to an existing revision: from any status, deleted included, the
      deployment is pending again. */
  lemma {:induction false} RollbackRevives(s: Sys, u: nat, dep: nat, revision: int, ok: bool)
    requires u !in s.users && dep < |s.deps| && RollbackTarget(s.deps[dep], revision).Ok?
    ensures Exec(s, RollbackSteps(u, dep, revision, ok)) ==
            RolledBackTo(s, dep, RollbackTarget(s.deps[dep], revision).value, if ok then Some(s.deps[dep].status) else None)
    ensures Exec(s, RollbackSteps(u, dep, revision, ok)).deps[dep].status == Pending
  {
    RollbackReadScript(s, u, dep, revision, ok);
    RollbackCommitScript(s, u, dep, RollbackTarget(s.deps[dep], revision).value, if ok then Some(s.deps[dep].status) else None);
    ExecConcat(s, [RollbackRead(u, dep, revision, ok), RollbackTargetRead(u)], [RollbackCommit(u, true), UserGauge(u)]);
  }

  // ---------------------------------------------------------------- status requests

  /** A status request from its arrival: checked, written if `ok`, counted. */
  function StatusHandled(s: Sys, dep: nat, r: Report, ok: bool): Sys
    requires dep < |s.deps|
  {
    var d := s.deps[dep];
    if !ok || !ValidTransition(d.status, r.status) then s
    else Committed(s, s.deps[dep := WithStatus(d, r.status, r.endpoint, r.failureReason)],
                   Entry(Some(d.status), r.status, true, Some(d.status), false))
  }

  lemma StatusWriteScript(s: Sys, h: nat, dep: nat, r: Report, ok: bool)
    requires dep < |s.deps| && h !in s.reports && ValidTransition(s.deps[dep].status, r.status)
    ensures Exec(s.(reports := s.reports[h := Writing(dep, r, s.deps[dep].status)]), [StatusWrite(h, ok), StatusGauge(h)])
            == StatusHandled(s, dep, r, ok)
  {
    var d := s.deps[dep];
    var s1 := s.(reports := s.reports[h := Writing(dep, r, d.status)]);
    ExecTwo(s1, StatusWrite(h, ok), StatusGauge(h));
    if ok {
      var row := WithStatus(d, r.status, r.endpoint, r.failureReason);
      var e := Entry(Some(d.status), r.status, true, Some(d.status), false);
      StatusCounts(s, h, s.deps[dep := row], e);
      assert s1.reports[h := Gauging(|s.ledger|)] == s.reports[h := Gauging(|s.ledger|)];
      assert ApplyStatusWrite(s1, h, true) ==
             s.(deps := s.deps[dep := row], reports := s.reports[h := Gauging(|s.ledger|)], ledger := s.ledger + [e]);
    } else {
      assert s1.reports - {h} == s.reports;
    }
  }

  lemma StatusReadScript(s: Sys, h: nat, dep: nat, r: Report)
    requires dep < |s.deps| && h !in s.reports
    ensures Exec(s.(reports := s.reports[h := Reading(dep, r)]), [StatusRead(h)]) ==
            if ValidTransition(s.deps[dep].status, r.status)
            then s.(reports := s.reports[h := Writing(dep, r, s.deps[dep].status)]) else s
  {
    var s1 := s.(reports := s.reports[h := Reading(dep, r)]);
    assert s1.reports - {h} == s.reports;
    assert s1.reports[h := Writing(dep, r, s.deps[dep].status)] == s.reports[h := Writing(dep, r, s.deps[dep].status)];
    ExecOne(s1, StatusRead(h));
  }

  lemma NoHandlerScript(s: Sys, h: nat, ok: bool)
    requires h !in s.reports
    ensures Exec(s, [StatusWrite(h, ok), StatusGauge(h)]) == s
  {
    assert Apply(s, StatusWrite(h, ok)) == s;
    ExecTwo(s, StatusWrite(h, ok), StatusGauge(h));
  }

  function StatusSteps(h: nat, ok: bool): seq<Step> { [StatusRead(h)] + [StatusWrite(h, ok), StatusGauge(h)] }

  /** A whole status request. */
  lemma StatusScript(s: Sys, h: nat, dep: nat, r: Report, ok: bool)
    requires dep < |s.deps| && h !in s.reports
    ensures Exec(s.(reports := s.reports[h := Reading(dep, r)]), StatusSteps(h, ok)) == StatusHandled(s, dep, r, ok)
  {
    StatusReadScript(s, h, dep, r);
    if ValidTransition(s.deps[dep].status, r.status) {
      StatusWriteScript(s, h, dep, r, ok);
    } else {
      NoHandlerScript(s, h, ok);
    }
    ExecConcat(s.(reports := s.reports[h := Reading(dep, r)]), [StatusRead(h)], [StatusWrite(h, ok), StatusGauge(h)]);
  }
}
