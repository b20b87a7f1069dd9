/** The deployment_count gauge against a recount. Handlers adjust the gauge after they commit, using
    the status they read before they committed. In every run the difference between the gauge and a
    recount is exactly the sum of the stale reads since the process started; it is zero for every
    run in which handlers of the same deployment do not overlap. */
module DeploymentGauge {
  import opened Prelude
  import opened Deployments
  import opened DeploymentProtocol
  import opened DeploymentScripts

  function Unit(b: bool): int { if b then 1 else 0 }

  /** What a committed change does to the number of rows of a status. */
  function Actual(e: Entry, st: Status): int { Unit(e.to == st) - Unit(e.actual == Some(st)) }

  /** What its gauge update does to the label of that status. */
  function Recorded(e: Entry, st: Status): int {
    if !e.planned || !e.done then 0
    else Unit(e.to == st && st != Deleted) - Unit(e.prior == Some(st))
  }

  function SumActual(ledger: seq<Entry>, st: Status): int {
    if ledger == [] then 0 else SumActual(ledger[..|ledger| - 1], st) + Actual(ledger[|ledger| - 1], st)
  }

  function SumRecorded(ledger: seq<Entry>, st: Status): int {
    if ledger == [] then 0 else SumRecorded(ledger[..|ledger| - 1], st) + Recorded(ledger[|ledger| - 1], st)
  }

  /** The error of one change: the label it should have decremented against the one it did. */
  function Error(e: Entry, st: Status): int {
    if e.planned then Unit(e.actual == Some(st)) - Unit(e.prior == Some(st)) else -Actual(e, st)
  }

  function SumError(ledger: seq<Entry>, st: Status): int {
    if ledger == [] then 0 else SumError(ledger[..|ledger| - 1], st) + Error(ledger[|ledger| - 1], st)
  }

  // ---------------------------------------------------------------- counting rows

  lemma {:induction false} CountNonNegative(db: Table, st: Status)
    ensures CountOf(db, st) >= 0
    ensures CountOf(db, st) > 0 <==> exists i :: 0 <= i < |db| && db[i].status == st
    decreases |db|
  {
    if db != [] {
      var front := db[..|db| - 1];
      CountNonNegative(front, st);
      if i :| 0 <= i < |db| && db[i].status == st {
        if i < |db| - 1 { assert front[i].status == st; }
      }
      if CountOf(front, st) > 0 {
        var i :| 0 <= i < |front| && front[i].status == st;
        assert db[i].status == st;
      } else if CountOf(db, st) > 0 {
        assert db[|db| - 1].status == st;
      }
    }
  }

  lemma {:induction false} CountReplaced(db: Table, i: nat, row: Deployment, st: Status)
    requires i < |db|
    ensures CountOf(db[i := row], st) == CountOf(db, st) + Unit(row.status == st) - Unit(db[i].status == st)
    decreases |db|
  {
    var front := db[..|db| - 1];
    if i == |db| - 1 {
      assert db[i := row][..|db| - 1] == front;
    } else {
      assert db[i := row][..|db| - 1] == front[i := row];
      CountReplaced(front, i, row, st);
    }
  }

  lemma CountAppended(db: Table, row: Deployment, st: Status)
    ensures CountOf(db + [row], st) == CountOf(db, st) + Unit(row.status == st)
  {
  }

  /** A process start sets every label but `deleted` to the recount, and `deleted` to nothing. */
  lemma RecountedIsCount(db: Table, st: Status)
    ensures GaugeOf(Recounted(db), st) == if st == Deleted then 0 else CountOf(db, st)
  {
    CountNonNegative(db, st);
    var gauge := Recounted(db);
    if st != Deleted && CountOf(db, st) > 0 {
      var i :| 0 <= i < |db| && db[i].status == st;
      assert db[i] in db;
      assert st in gauge;
    }
  }

  // ---------------------------------------------------------------- sums over the ledger

  lemma SumsAppended(ledger: seq<Entry>, e: Entry, st: Status)
    ensures SumActual(ledger + [e], st) == SumActual(ledger, st) + Actual(e, st)
    ensures SumRecorded(ledger + [e], st) == SumRecorded(ledger, st) + Recorded(e, st)
    ensures SumError(ledger + [e], st) == SumError(ledger, st) + Error(e, st)
  {
  }

  lemma {:induction false} SumsReplaced(ledger: seq<Entry>, i: nat, e: Entry, st: Status)
    requires i < |ledger| && e.to == ledger[i].to && e.actual == ledger[i].actual
    ensures var l' := ledger[i := e];
            && SumActual(l', st) == SumActual(ledger, st)
            && SumRecorded(l', st) == SumRecorded(ledger, st) - Recorded(ledger[i], st) + Recorded(e, st)
    decreases |ledger|
  {
    var front := ledger[..|ledger| - 1];
    var l' := ledger[i := e];
    if i == |ledger| - 1 {
      assert l'[..|l'| - 1] == front;
    } else {
      assert l'[..|l'| - 1] == front[i := e];
      SumsReplaced(front, i, e, st);
    }
  }

  lemma {:induction false} AllDoneSums(ledger: seq<Entry>, st: Status)
    requires st != Deleted && forall i :: 0 <= i < |ledger| ==> ledger[i].done
    ensures SumRecorded(ledger, st) - SumActual(ledger, st) == SumError(ledger, st)
    decreases |ledger|
  {
    if ledger != [] {
      AllDoneSums(ledger[..|ledger| - 1], st);
    }
  }

  lemma GaugedIsRecorded(gauge: map<Status, int>, e: Entry, st: Status)
    ensures GaugeOf(Gauged(gauge, e), st) == GaugeOf(gauge, st) + Recorded(e.(done := true), st)
  {
  }

  // ---------------------------------------------------------------- what every run keeps

  predicate Sums(s: Sys, st: Status) {
    && CountOf(s.deps, st) == CountOf(s.baseline.rows, st) + SumActual(s.ledger, st)
    && GaugeOf(s.gauge, st) == GaugeOf(s.baseline.gauge, st) + SumRecorded(s.ledger, st)
  }

  ghost predicate SumsOk(s: Sys) { forall st :: Sums(s, st) }

  predicate Open(ledger: seq<Entry>, i: nat) { i < |ledger| && !ledger[i].done }

  predicate UsersOwn(ledger: seq<Entry>, users: map<nat, UserHandler>) {
    && (forall u :: u in users && users[u].Counting? ==> Open(ledger, users[u].entry))
    && (forall u, v :: u in users && v in users && u != v && users[u].Counting? && users[v].Counting? ==>
          users[u].entry != users[v].entry)
  }

  predicate ReportsOwn(ledger: seq<Entry>, reports: map<nat, StatusHandler>) {
    && (forall h :: h in reports && reports[h].Gauging? ==> Open(ledger, reports[h].entry))
    && (forall h, g :: h in reports && g in reports && h != g && reports[h].Gauging? && reports[g].Gauging? ==>
          reports[h].entry != reports[g].entry)
  }

  predicate Disjoint(users: map<nat, UserHandler>, reports: map<nat, StatusHandler>) {
    forall u, h :: u in users && h in reports && users[u].Counting? && reports[h].Gauging? ==> users[u].entry != reports[h].entry
  }

  predicate HeldBy(users: map<nat, UserHandler>, reports: map<nat, StatusHandler>, i: nat) {
    (exists u :: u in users && users[u] == Counting(i)) || (exists h :: h in reports && reports[h] == Gauging(i))
  }

  /** Every change whose gauge update is outstanding has exactly one handler that will make it. */
  ghost predicate Owned(ledger: seq<Entry>, users: map<nat, UserHandler>, reports: map<nat, StatusHandler>) {
    && UsersOwn(ledger, users) && ReportsOwn(ledger, reports) && Disjoint(users, reports)
    && forall i: nat :: Open(ledger, i) ==> HeldBy(users, reports, i)
  }

  ghost predicate GaugeInv(s: Sys) { SumsOk(s) && Owned(s.ledger, s.users, s.reports) }

  /** A row is written and the change goes into the ledger. */
  lemma SumsCommitted(s: Sys, s': Sys, e: Entry)
    requires SumsOk(s) && !e.done && s'.gauge == s.gauge && s'.baseline == s.baseline && s'.ledger == s.ledger + [e]
    requires forall st :: CountOf(s'.deps, st) == CountOf(s.deps, st) + Actual(e, st)
    ensures SumsOk(s')
  {
    forall st ensures Sums(s', st) {
      assert Sums(s, st);
      SumsAppended(s.ledger, e, st);
    }
  }

  lemma UserCommits(ledger: seq<Entry>, users: map<nat, UserHandler>, reports: map<nat, StatusHandler>, u: nat, e: Entry)
    requires Owned(ledger, users, reports) && !e.done && (u in users ==> !users[u].Counting?)
    ensures Owned(ledger + [e], users[u := Counting(|ledger|)], reports)
  {
    var users' := users[u := Counting(|ledger|)];
    forall i: nat | Open(ledger + [e], i) ensures HeldBy(users', reports, i) {
      if i < |ledger| {
        assert Open(ledger, i) && HeldBy(users, reports, i);
        if v :| v in users && users[v] == Counting(i) { assert users'[v] == Counting(i); }
      } else {
        assert users'[u] == Counting(i);
      }
    }
  }

  lemma ReportCommits(ledger: seq<Entry>, users: map<nat, UserHandler>, reports: map<nat, StatusHandler>, h: nat, e: Entry)
    requires Owned(ledger, users, reports) && !e.done && (h in reports ==> !reports[h].Gauging?)
    ensures Owned(ledger + [e], users, reports[h := Gauging(|ledger|)])
  {
    var reports' := reports[h := Gauging(|ledger|)];
    forall i: nat | Open(ledger + [e], i) ensures HeldBy(users, reports', i) {
      if i < |ledger| {
        assert Open(ledger, i) && HeldBy(users, reports, i);
        if g :| g in reports && reports[g] == Gauging(i) { assert reports'[g] == Gauging(i); }
      } else {
        assert reports'[h] == Gauging(i);
      }
    }
  }

  lemma SumsRecorded(s: Sys, i: nat)
    requires SumsOk(s) && Open(s.ledger, i)
    ensures SumsOk(GaugeUpdated(s, i))
  {
    forall st ensures Sums(GaugeUpdated(s, i), st) {
      assert Sums(s, st);
      SumsReplaced(s.ledger, i, s.ledger[i].(done := true), st);
      GaugedIsRecorded(s.gauge, s.ledger[i], st);
    }
  }

  lemma SumsUncounted(s: Sys, i: nat)
    requires SumsOk(s) && Open(s.ledger, i)
    ensures SumsOk(Uncounted(s, i))
  {
    forall st ensures Sums(Uncounted(s, i), st) {
      assert Sums(s, st);
      SumsReplaced(s.ledger, i, s.ledger[i].(planned := false, done := true), st);
    }
  }

  lemma UserFinishes(ledger: seq<Entry>, users: map<nat, UserHandler>, reports: map<nat, StatusHandler>, u: nat, e: Entry)
    requires Owned(ledger, users, reports) && u in users && users[u].Counting? && e.done
    ensures var i := users[u].entry; Owned(ledger[i := e], users - {u}, reports)
  {
    var i := users[u].entry;
    var l' := ledger[i := e];
    forall k: nat | Open(l', k) ensures HeldBy(users - {u}, reports, k) {
      assert k != i && Open(ledger, k) && HeldBy(users, reports, k);
      if v :| v in users && users[v] == Counting(k) { assert v in users - {u} && (users - {u})[v] == Counting(k); }
    }
    assert forall v :: v in users - {u} && users[v].Counting? ==> users[v].entry != i;
  }

  lemma ReportFinishes(ledger: seq<Entry>, users: map<nat, UserHandler>, reports: map<nat, StatusHandler>, h: nat, e: Entry)
    requires Owned(ledger, users, reports) && h in reports && reports[h].Gauging? && e.done
    ensures var i := reports[h].entry; Owned(ledger[i := e], users, reports - {h})
  {
    var i := reports[h].entry;
    var l' := ledger[i := e];
    forall k: nat | Open(l', k) ensures HeldBy(users, reports - {h}, k) {
      assert k != i && Open(ledger, k) && HeldBy(users, reports, k);
      if g :| g in reports && reports[g] == Gauging(k) { assert g in reports - {h} && (reports - {h})[g] == Gauging(k); }
    }
    assert forall g :: g in reports - {h} && reports[g].Gauging? ==> reports[g].entry != i;
  }

  /** Requests that have not committed come, move on and go without touching the ledger. */
  lemma OwnedByTheSame(ledger: seq<Entry>, users: map<nat, UserHandler>, reports: map<nat, StatusHandler>,
                       users': map<nat, UserHandler>, reports': map<nat, StatusHandler>)
    requires Owned(ledger, users, reports)
    requires forall u :: u in users && users[u].Counting? ==> u in users' && users'[u] == users[u]
    requires forall u :: u in users' && users'[u].Counting? ==> u in users && users'[u] == users[u]
    requires forall h :: h in reports && reports[h].Gauging? ==> h in reports' && reports'[h] == reports[h]
    requires forall h :: h in reports' && reports'[h].Gauging? ==> h in reports && reports'[h] == reports[h]
    ensures Owned(ledger, users', reports')
  {
  }

  lemma SameSums(s: Sys, s': Sys)
    requires SumsOk(s) && s'.deps == s.deps && s'.gauge == s.gauge && s'.ledger == s.ledger && s'.baseline == s.baseline
    ensures SumsOk(s')
  {
    forall st ensures Sums(s', st) { assert Sums(s, st); }
  }

  // ---------------------------------------------------------------- the steps that commit

  lemma CreateGauge(s: Sys, u: nat, d: Deployment)
    requires GaugeInv(s) && d.status == Pending
    ensures GaugeInv(ApplyCreate(s, u, d))
  {
    if u !in s.users && !Conflicts(s.deps, d.id, d.tenant, d.name) {
      var e := Entry(None, Pending, true, None, false);
      forall st ensures CountOf(s.deps + [d], st) == CountOf(s.deps, st) + Actual(e, st) {
        CountAppended(s.deps, d, st);
      }
      SumsCommitted(s, ApplyCreate(s, u, d), e);
      UserCommits(s.ledger, s.users, s.reports, u, e);
    }
  }

  lemma RowCommitted(s: Sys, s': Sys, dep: nat, row: Deployment, e: Entry)
    requires SumsOk(s) && dep < |s.deps| && !e.done && e.actual == Some(s.deps[dep].status) && e.to == row.status
    requires s'.gauge == s.gauge && s'.baseline == s.baseline && s'.ledger == s.ledger + [e] && s'.deps == s.deps[dep := row]
    ensures SumsOk(s')
  {
    forall st ensures CountOf(s'.deps, st) == CountOf(s.deps, st) + Actual(e, st) {
      CountReplaced(s.deps, dep, row, st);
    }
    SumsCommitted(s, s', e);
  }

  lemma DeleteCommitGauge(s: Sys, u: nat, ok: bool)
    requires GaugeInv(s)
    ensures GaugeInv(ApplyDeleteCommit(s, u, ok))
  {
    var s' := ApplyDeleteCommit(s, u, ok);
    if u in s.users && s.users[u].Removing? && s.users[u].dep < |s.deps| {
      var Removing(dep, prior) := s.users[u];
      if ok && Deletable(s.deps[dep]) {
        var e := Entry(Some(s.deps[dep].status), Deleting, prior.Some?, prior, false);
        RowCommitted(s, s', dep, s.deps[dep].(status := Deleting), e);
        UserCommits(s.ledger, s.users, s.reports, u, e);
      } else {
        SameSums(s, s');
        OwnedByTheSame(s.ledger, s.users, s.reports, s'.users, s'.reports);
      }
    }
  }

  lemma RollbackCommitGauge(s: Sys, u: nat, ok: bool)
    requires GaugeInv(s)
    ensures GaugeInv(ApplyRollbackCommit(s, u, ok))
  {
    var s' := ApplyRollbackCommit(s, u, ok);
    if u in s.users && s.users[u].RollingBack? && s.users[u].dep < |s.deps| {
      var RollingBack(dep, version, prior) := s.users[u];
      if ok {
        var e := Entry(Some(s.deps[dep].status), Pending, prior.Some?, prior, false);
        RowCommitted(s, s', dep, RolledBack(s.deps[dep], version), e);
        UserCommits(s.ledger, s.users, s.reports, u, e);
      } else {
        SameSums(s, s');
        OwnedByTheSame(s.ledger, s.users, s.reports, s'.users, s'.reports);
      }
    }
  }

  lemma StatusWriteGauge(s: Sys, h: nat, ok: bool)
    requires GaugeInv(s)
    ensures GaugeInv(ApplyStatusWrite(s, h, ok))
  {
    var s' := ApplyStatusWrite(s, h, ok);
    if h in s.reports && s.reports[h].Writing? && s.reports[h].dep < |s.deps| {
      var Writing(dep, report, current) := s.reports[h];
      if ok {
        var e := Entry(Some(s.deps[dep].status), report.status, true, Some(current), false);
        RowCommitted(s, s', dep, WithStatus(s.deps[dep], report.status, report.endpoint, report.failureReason), e);
        ReportCommits(s.ledger, s.users, s.reports, h, e);
      } else {
        SameSums(s, s');
        OwnedByTheSame(s.ledger, s.users, s.reports, s'.users, s'.reports);
      }
    }
  }

  lemma UserGaugeKept(s: Sys, u: nat)
    requires GaugeInv(s)
    ensures GaugeInv(Apply(s, UserGauge(u)))
  {
    if u in s.users && s.users[u].Counting? {
      assert Open(s.ledger, s.users[u].entry);
      SumsRecorded(s, s.users[u].entry);
      SameSums(GaugeUpdated(s, s.users[u].entry), Apply(s, UserGauge(u)));
      UserFinishes(s.ledger, s.users, s.reports, u, s.ledger[s.users[u].entry].(done := true));
    }
  }

  lemma UserErrsKept(s: Sys, u: nat)
    requires GaugeInv(s)
    ensures GaugeInv(Apply(s, UserErrs(u)))
  {
    if u in s.users && s.users[u].Counting? {
      var i := s.users[u].entry;
      assert Open(s.ledger, i);
      SumsUncounted(s, i);
      SameSums(Uncounted(s, i), Apply(s, UserErrs(u)));
      UserFinishes(s.ledger, s.users, s.reports, u, s.ledger[i].(planned := false, done := true));
    }
  }

  lemma StatusErrsKept(s: Sys, h: nat)
    requires GaugeInv(s)
    ensures GaugeInv(Apply(s, StatusErrs(h)))
  {
    if h in s.reports && s.reports[h].Gauging? {
      var i := s.reports[h].entry;
      assert Open(s.ledger, i);
      SumsUncounted(s, i);
      SameSums(Uncounted(s, i), Apply(s, StatusErrs(h)));
      ReportFinishes(s.ledger, s.users, s.reports, h, s.ledger[i].(planned := false, done := true));
    }
  }

  lemma StatusGaugeKept(s: Sys, h: nat)
    requires GaugeInv(s)
    ensures GaugeInv(Apply(s, StatusGauge(h)))
  {
    if h in s.reports && s.reports[h].Gauging? {
      assert Open(s.ledger, s.reports[h].entry);
      SumsRecorded(s, s.reports[h].entry);
      SameSums(GaugeUpdated(s, s.reports[h].entry), Apply(s, StatusGauge(h)));
      ReportFinishes(s.ledger, s.users, s.reports, h, s.ledger[s.reports[h].entry].(done := true));
    }
  }

  lemma RestartResyncs(s: Sys, ok: bool)
    ensures GaugeInv(Apply(s, Restart(ok)))
    ensures ok ==> forall st :: st != Deleted ==> GaugeOf(Apply(s, Restart(ok)).gauge, st) == CountOf(s.deps, st)
  {
    var s' := Apply(s, Restart(ok));
    forall st ensures Sums(s', st) && (ok && st != Deleted ==> GaugeOf(s'.gauge, st) == CountOf(s.deps, st)) {
      RecountedIsCount(s.deps, st);
    }
  }

  // ---------------------------------------------------------------- the other steps

  predicate Commits(e: Step) {
    e.Create? || e.DeleteCommit? || e.RollbackCommit? || e.StatusWrite? || e.UserGauge? || e.StatusGauge?
    || e.UserErrs? || e.StatusErrs? || e.Restart?
  }

  predicate UserReads(e: Step) { e.DeleteRead? || e.RollbackRead? || e.RollbackTargetRead? }

  lemma UserReadFrame(s: Sys, e: Step)
    requires UserReads(e)
    ensures Apply(s, e) == s.(users := Apply(s, e).users)
    ensures var users' := Apply(s, e).users;
            && (forall u :: u in s.users && s.users[u].Counting? ==> u in users' && users'[u] == s.users[u])
            && (forall u :: u in users' && users'[u].Counting? ==> u in s.users && users'[u] == s.users[u])
  {
    match e
    case DeleteRead(_, _, _) =>
    case RollbackRead(_, _, _, _) =>
    case RollbackTargetRead(_) =>
  }

  lemma UserReadGauge(s: Sys, e: Step)
    requires GaugeInv(s) && UserReads(e)
    ensures GaugeInv(Apply(s, e))
  {
    UserReadFrame(s, e);
    SameSums(s, Apply(s, e));
    OwnedByTheSame(s.ledger, s.users, s.reports, Apply(s, e).users, s.reports);
  }

  lemma StatusReadGauge(s: Sys, h: nat)
    requires GaugeInv(s)
    ensures GaugeInv(ApplyStatusRead(s, h)) && GaugeInv(ApplySend(s, h))
  {
    SameSums(s, ApplyStatusRead(s, h));
    OwnedByTheSame(s.ledger, s.users, s.reports, s.users, ApplyStatusRead(s, h).reports);
    SameSums(s, ApplySend(s, h));
    OwnedByTheSame(s.ledger, s.users, s.reports, s.users, ApplySend(s, h).reports);
  }

  lemma DetachGauge(s: Sys, arrives: bool)
    requires GaugeInv(s)
    ensures GaugeInv(ApplyDetach(s, arrives))
  {
    SameSums(s, ApplyDetach(s, arrives));
    OwnedByTheSame(s.ledger, s.users, s.reports, s.users, ApplyDetach(s, arrives).reports);
  }

  lemma ClusterStepGauge(s: Sys, e: Step)
    requires GaugeInv(s) && (OperatorsOwn(e) || e.PhaseChange? || e.PodLost?)
    ensures GaugeInv(Apply(s, e))
  {
    SameSums(s, Apply(s, e));
  }

  lemma GaugeStep(s: Sys, e: Step)
    requires GaugeInv(s)
    ensures GaugeInv(Apply(s, e))
  {
    if Commits(e) {
      match e
      case Create(u, id, tenant, record, version, name, ns) => CreateGauge(s, u, NewDeployment(id, tenant, record, version, name, ns));
      case DeleteCommit(u, ok) => DeleteCommitGauge(s, u, ok);
      case RollbackCommit(u, ok) => RollbackCommitGauge(s, u, ok);
      case StatusWrite(h, ok) => StatusWriteGauge(s, h, ok);
      case UserGauge(u) => UserGaugeKept(s, u);
      case StatusGauge(h) => StatusGaugeKept(s, h);
      case UserErrs(u) => UserErrsKept(s, u);
      case StatusErrs(h) => StatusErrsKept(s, h);
      case Restart(ok) => RestartResyncs(s, ok);
    } else if OperatorsOwn(e) || e.PhaseChange? || e.PodLost? {
      ClusterStepGauge(s, e);
    } else if UserReads(e) {
      UserReadGauge(s, e);
    } else if e.Detach? {
      DetachGauge(s, e.arrives);
    } else if e.StatusRead? {
      StatusReadGauge(s, e.handler);
    } else {
      StatusReadGauge(s, e.handler);
    }
  }

  lemma {:induction false} GaugeInvKept(s: Sys, es: seq<Step>)
    requires GaugeInv(s)
    ensures GaugeInv(Exec(s, es))
    decreases |es|
  {
    if es != [] {
      GaugeStep(s, es[0]);
      GaugeInvKept(Apply(s, es[0]), es[1..]);
    }
  }

  lemma InitGauge()
    ensures GaugeInv(Init())
  {
  }

  predicate Idle(s: Sys) { s.users == map[] && s.reports == map[] }

  /** What the gauge missed when the process started: nothing, unless the count query failed. */
  function Missed(b: Baseline, st: Status): int { CountOf(b.rows, st) - GaugeOf(b.gauge, st) }

  /** The exact drift, in every run and whatever fails: when no request is in flight, the gauge is
      off a recount by the sum of the errors of the changes since the process started, and by what it
      missed at the start, so the two agree on a label if and only if those cancel out on it. */
  lemma GaugeDrift(es: seq<Step>, st: Status)
    requires st != Deleted && Idle(Exec(Init(), es))
    ensures var s := Exec(Init(), es); GaugeOf(s.gauge, st) == CountOf(s.deps, st) + SumError(s.ledger, st) - Missed(s.baseline, st)
  {
    var s := Exec(Init(), es);
    InitGauge();
    GaugeInvKept(Init(), es);
    assert Sums(s, st);
    forall i: nat | i < |s.ledger| ensures s.ledger[i].done {
      assert Open(s.ledger, i) ==> HeldBy(s.users, s.reports, i);
    }
    AllDoneSums(s.ledger, st);
  }

  ghost predicate NoError(e: Entry) { forall st :: st != Deleted ==> Error(e, st) == 0 }

  lemma PlannedErrorFree(e: Entry)
    requires e.planned
    ensures NoError(e) <==>
            (e.prior == e.actual || {e.prior, e.actual} <= {None, Some(Deleted)})
  {
    if NoError(e) {
      if e.prior.Some? && e.prior.value != Deleted { assert Error(e, e.prior.value) == 0; }
      if e.actual.Some? && e.actual.value != Deleted { assert Error(e, e.actual.value) == 0; }
    } else {
      var st :| st != Deleted && Error(e, st) != 0;
      assert e.prior != e.actual;
      assert e.prior in {e.prior, e.actual} && e.actual in {e.prior, e.actual};
    }
  }

  lemma UnplannedErrorFree(e: Entry)
    requires !e.planned && e.actual.Some? && e.to != Deleted
    ensures NoError(e) <==> e.actual == Some(e.to)
  {
    if NoError(e) {
      assert Error(e, e.to) == 0;
    }
  }

  /** The status handler's commit leaves no error on any label exactly when the status it had read is
      still that of the row. */
  lemma {:induction false} ReportErrorFreeExactly(s: Sys, h: nat)
    requires h in s.reports && s.reports[h].Writing? && s.reports[h].dep < |s.deps|
    ensures var s' := Apply(s, StatusWrite(h, true));
            && |s'.ledger| == |s.ledger| + 1
            && (NoError(s'.ledger[|s.ledger|]) <==> s.reports[h].current == s.deps[s.reports[h].dep].status)
  {
    var e := Apply(s, StatusWrite(h, true)).ledger[|s.ledger|];
    PlannedErrorFree(e);
    assert e.prior in {e.prior, e.actual} && e.actual in {e.prior, e.actual};
  }

  /** So does a delete: never if its read of the status failed, since then nothing is counted. */
  lemma {:induction false} DeleteErrorFreeExactly(s: Sys, u: nat)
    requires u in s.users && s.users[u].Removing? && s.users[u].dep < |s.deps| && Deletable(s.deps[s.users[u].dep])
    ensures var s' := Apply(s, DeleteCommit(u, true));
            && |s'.ledger| == |s.ledger| + 1
            && (NoError(s'.ledger[|s.ledger|]) <==> s.users[u].prior == Some(s.deps[s.users[u].dep].status))
  {
    var e := Apply(s, DeleteCommit(u, true)).ledger[|s.ledger|];
    if e.planned {
      PlannedErrorFree(e);
      assert e.prior in {e.prior, e.actual} && e.actual in {e.prior, e.actual};
    } else {
      UnplannedErrorFree(e);
    }
  }

  /** And a rollback: if its read failed, only when it replaced `pending` by `pending`. */
  lemma {:induction false} RollbackErrorFreeExactly(s: Sys, u: nat)
    requires u in s.users && s.users[u].RollingBack? && s.users[u].dep < |s.deps|
    ensures var s' := Apply(s, RollbackCommit(u, true)); var replaced := s.deps[s.users[u].dep].status;
            && |s'.ledger| == |s.ledger| + 1
            && (NoError(s'.ledger[|s.ledger|]) <==>
                  s.users[u].prior == Some(replaced) || (s.users[u].prior == None && replaced == Pending))
  {
    var e := Apply(s, RollbackCommit(u, true)).ledger[|s.ledger|];
    if e.planned {
      PlannedErrorFree(e);
      assert e.prior in {e.prior, e.actual} && e.actual in {e.prior, e.actual};
    } else {
      UnplannedErrorFree(e);
    }
  }

  // ---------------------------------------------------------------- handlers that do not overlap

  predicate HasReadUser(u: UserHandler) { !u.Counting? }
  predicate HasReadReport(h: StatusHandler) { h.Writing? }

  /** No two requests that have read a status and not committed are about the same deployment. */
  predicate Apart(users: map<nat, UserHandler>, reports: map<nat, StatusHandler>) {
    && (forall u, v :: u in users && v in users && u != v && HasReadUser(users[u]) && HasReadUser(users[v]) ==>
          users[u].dep != users[v].dep)
    && (forall h, g :: h in reports && g in reports && h != g && HasReadReport(reports[h]) && HasReadReport(reports[g]) ==>
          reports[h].dep != reports[g].dep)
    && (forall u, h :: u in users && h in reports && HasReadUser(users[u]) && HasReadReport(reports[h]) ==>
          users[u].dep != reports[h].dep)
  }

  predicate ReadsSucceed(e: Step) {
    && (e.DeleteRead? ==> e.ok) && (e.RollbackRead? ==> e.ok) && (e.Restart? ==> e.ok) && !e.UserErrs? && !e.StatusErrs?
  }

  /** Requests about the same deployment are never in flight together on this run, the reads of the
      old status and the count at each start succeed, and no reply of a commit is lost. */
  ghost predicate Serial(s: Sys, es: seq<Step>)
    decreases |es|
  {
    Apart(s.users, s.reports) && (es == [] || (ReadsSucceed(es[0]) && Serial(Apply(s, es[0]), es[1..])))
  }

  predicate FreshUsers(deps: Table, users: map<nat, UserHandler>) {
    forall u :: u in users && HasReadUser(users[u]) ==>
      users[u].dep < |deps| && users[u].prior == Some(deps[users[u].dep].status)
  }

  predicate FreshReports(deps: Table, reports: map<nat, StatusHandler>) {
    forall h :: h in reports && HasReadReport(reports[h]) ==>
      reports[h].dep < |deps| && reports[h].current == deps[reports[h].dep].status
  }

  predicate Faithful(ledger: seq<Entry>) {
    forall i :: 0 <= i < |ledger| ==> ledger[i].planned && ledger[i].prior == ledger[i].actual
  }

  predicate Fresh(s: Sys) {
    && FreshUsers(s.deps, s.users) && FreshReports(s.deps, s.reports) && Faithful(s.ledger)
    && Counted(s.baseline)
  }

  /** The count at the start of the process succeeded. */
  predicate Counted(b: Baseline) { b.gauge == Recounted(b.rows) }

  lemma FreshCreate(s: Sys, u: nat, d: Deployment)
    requires Fresh(s)
    ensures Fresh(ApplyCreate(s, u, d))
  {
  }

  lemma FreshChange(s: Sys, u: nat, ok: bool)
    requires Fresh(s) && Apart(s.users, s.reports)
    ensures Fresh(ApplyDeleteCommit(s, u, ok)) && Fresh(ApplyRollbackCommit(s, u, ok))
  {
  }

  lemma FreshCommit(s: Sys, e: Step)
    requires Fresh(s) && Apart(s.users, s.reports) && (e.Create? || e.DeleteCommit? || e.RollbackCommit?)
    ensures Fresh(Apply(s, e))
  {
    match e
    case Create(u, id, tenant, record, version, name, ns) =>
      FreshCreate(s, u, NewDeployment(id, tenant, record, version, name, ns));
    case DeleteCommit(u, ok) => FreshChange(s, u, ok);
    case RollbackCommit(u, ok) => FreshChange(s, u, ok);
  }

  lemma FreshStatusWrite(s: Sys, h: nat, ok: bool)
    requires Fresh(s) && Apart(s.users, s.reports)
    ensures Fresh(ApplyStatusWrite(s, h, ok))
  {
  }

  lemma FreshStatus(s: Sys, h: nat)
    requires Fresh(s)
    ensures Fresh(ApplyStatusRead(s, h)) && Fresh(ApplySend(s, h))
  {
  }

  lemma FreshReport(s: Sys, h: nat)
    requires Fresh(s)
    ensures Fresh(Apply(s, StatusRead(h))) && Fresh(Apply(s, Send(h)))
  {
    FreshStatus(s, h);
  }

  lemma FreshDetach(s: Sys, arrives: bool)
    requires Fresh(s)
    ensures Fresh(ApplyDetach(s, arrives))
  {
  }

  lemma FreshWrite(s: Sys, h: nat, ok: bool)
    requires Fresh(s) && Apart(s.users, s.reports)
    ensures Fresh(Apply(s, StatusWrite(h, ok)))
  {
    FreshStatusWrite(s, h, ok);
  }

  lemma FreshCount(s: Sys, e: Step)
    requires Fresh(s) && (e.StatusGauge? || e.UserGauge?)
    ensures Fresh(Apply(s, e))
  {
  }

  lemma FreshRest(s: Sys, e: Step)
    requires Fresh(s) && (OperatorsOwn(e) || e.PhaseChange? || e.PodLost? || (e.Restart? && e.ok))
    ensures Fresh(Apply(s, e))
  {
    if e.Restart? {
      assert Apply(s, e) == Restarted(s, Recounted(s.deps));
    } else {
      assert Apply(s, e) == s.(op := Apply(s, e).op);
    }
  }

  lemma FreshRead(s: Sys, e: Step)
    requires Fresh(s) && UserReads(e) && ReadsSucceed(e)
    ensures Fresh(Apply(s, e))
  {
    match e
    case DeleteRead(_, _, _) =>
    case RollbackRead(_, _, _, _) =>
    case RollbackTargetRead(_) =>
  }

  lemma FreshStep(s: Sys, e: Step)
    requires Fresh(s) && Apart(s.users, s.reports) && ReadsSucceed(e)
    ensures Fresh(Apply(s, e))
  {
    if e.Create? || e.DeleteCommit? || e.RollbackCommit? {
      FreshCommit(s, e);
    } else if e.StatusRead? || e.Send? {
      FreshReport(s, e.handler);
    } else if e.Detach? {
      FreshDetach(s, e.arrives);
    } else if e.StatusWrite? {
      FreshWrite(s, e.handler, e.ok);
    } else if e.StatusGauge? || e.UserGauge? {
      FreshCount(s, e);
    } else if UserReads(e) {
      FreshRead(s, e);
    } else {
      FreshRest(s, e);
    }
  }

  lemma {:induction false} SerialIsFaithful(s: Sys, es: seq<Step>)
    requires Fresh(s) && Serial(s, es)
    ensures Fresh(Exec(s, es))
    decreases |es|
  {
    if es != [] {
      FreshStep(s, es[0]);
      SerialIsFaithful(Apply(s, es[0]), es[1..]);
    }
  }

  lemma {:induction false} FaithfulHasNoError(ledger: seq<Entry>, st: Status)
    requires Faithful(ledger)
    ensures SumError(ledger, st) == 0
    decreases |ledger|
  {
    if ledger != [] {
      FaithfulHasNoError(ledger[..|ledger| - 1], st);
    }
  }

  /** If requests about the same deployment never overlap, the gauge equals a recount on every label
      but deleted whenever no request is in flight, so a restart changes none of those labels. */
  lemma {:induction false} GaugeAgreesWithRecount(es: seq<Step>, st: Status)
    requires st != Deleted && Serial(Init(), es) && Idle(Exec(Init(), es))
    ensures var s := Exec(Init(), es);
            && GaugeOf(s.gauge, st) == CountOf(s.deps, st)
            && GaugeOf(Apply(s, Restart(true)).gauge, st) == GaugeOf(s.gauge, st)
  {
    GaugeDrift(es, st);
    assert Recounted([]) == map[];
    SerialIsFaithful(Init(), es);
    FaithfulHasNoError(Exec(Init(), es).ledger, st);
    RecountedIsCount(Exec(Init(), es).baseline.rows, st);
    RestartResyncs(Exec(Init(), es), true);
  }

  // ---------------------------------------------------------------- handlers that do overlap

  /** A rollback that reads the status before a delete and commits after it. */
  const OVERLAP := [Create(0, "d", "t", 0, 0, "web", "default"), UserGauge(0)] + [RollbackRead(1, 0, 1, true)]
    + DeleteSteps(2, 0, true)
    + [RollbackTargetRead(1)] + [RollbackCommit(1, true), UserGauge(1)]

  /** Up to the end of the delete. */
  lemma OverlapStarts()
    ensures var s := Exec(Init(), [Create(0, "d", "t", 0, 0, "web", "default"), UserGauge(0)] + [RollbackRead(1, 0, 1, true)]
                                  + DeleteSteps(2, 0, true));
            && s.deps == [FIRST_DEPLOYMENT.(status := Deleting)] && s.reports == map[] && s.users == map[1 := Targeting(0, 1, Some(Pending))]
            && s.baseline == Baseline([], map[])
            && s.ledger == [Entry(None, Pending, true, None, true), Entry(Some(Pending), Deleting, true, Some(Pending), true)]
  {
    var create := [Create(0, "d", "t", 0, 0, "web", "default"), UserGauge(0)];
    CreateScript(Init(), 0, FIRST_DEPLOYMENT);
    var s1 := Exec(Init(), create);
    ExecOne(s1, RollbackRead(1, 0, 1, true));
    var s2 := s1.(users := map[1 := Targeting(0, 1, Some(Pending))]);
    assert Exec(s1, [RollbackRead(1, 0, 1, true)]) == s2;
    DeleteScript(s2, 2, 0, true);
    ExecConcat(Init(), create, [RollbackRead(1, 0, 1, true)]);
    ExecConcat(Init(), create + [RollbackRead(1, 0, 1, true)], DeleteSteps(2, 0, true));
  }

  lemma OverlapRuns()
    ensures var s := Exec(Init(), OVERLAP);
            && s.deps == [RolledBack(FIRST_DEPLOYMENT, 0)] && Idle(s) && s.baseline == Baseline([], map[])
            && s.ledger == [Entry(None, Pending, true, None, true), Entry(Some(Pending), Deleting, true, Some(Pending), true),
                            Entry(Some(Deleting), Pending, true, Some(Pending), true)]
  {
    OverlapStarts();
    var start := [Create(0, "d", "t", 0, 0, "web", "default"), UserGauge(0)] + [RollbackRead(1, 0, 1, true)] + DeleteSteps(2, 0, true);
    var s := Exec(Init(), start);
    ExecOne(s, RollbackTargetRead(1));
    assert RollbackTarget(FIRST_DEPLOYMENT.(status := Deleting), 1) == Ok(0);
    var idle := s.(users := map[]);
    assert Exec(s, [RollbackTargetRead(1)]) == idle.(users := idle.users[1 := RollingBack(0, 0, Some(Pending))]);
    RollbackCommitScript(idle, 1, 0, 0, Some(Pending));
    ExecConcat(Init(), start, [RollbackTargetRead(1)]);
    ExecConcat(Init(), start + [RollbackTargetRead(1)], [RollbackCommit(1, true), UserGauge(1)]);
  }

  /** With every call succeeding, two overlapping user requests leave the gauge wrong for good: it
      shows a deployment being deleted, and none pending, where the table holds one pending. */
  lemma OverlapDrifts()
    ensures var s := Exec(Init(), OVERLAP);
            && Idle(s) && CountOf(s.deps, Pending) == 1 && CountOf(s.deps, Deleting) == 0
            && GaugeOf(s.gauge, Pending) == 0 && GaugeOf(s.gauge, Deleting) == 1
  {
    OverlapRuns();
    var s := Exec(Init(), OVERLAP);
    var e := [Entry(None, Pending, true, None, true), Entry(Some(Pending), Deleting, true, Some(Pending), true)];
    var last := Entry(Some(Deleting), Pending, true, Some(Pending), true);
    forall st ensures SumError(s.ledger, st) == Error(last, st) {
      assert s.ledger == e + [last];
      SumsAppended(e, last, st);
      FaithfulHasNoError(e, st);
    }
    GaugeDrift(OVERLAP, Pending);
    GaugeDrift(OVERLAP, Deleting);
    assert s.deps[..0] == [];
  }

  /** The label `deleted` is left out for a reason: changes only ever decrement it, so it goes below zero
      and vanishes at the next restart. */
  lemma {:induction false} DeletedSumOnlyFalls(ledger: seq<Entry>)
    ensures SumRecorded(ledger, Deleted) <= 0
    ensures SumRecorded(ledger, Deleted) < 0 <==>
            exists i :: 0 <= i < |ledger| && ledger[i].planned && ledger[i].done && ledger[i].prior == Some(Deleted)
    decreases |ledger|
  {
    if ledger != [] {
      var front := ledger[..|ledger| - 1];
      DeletedSumOnlyFalls(front);
      assert forall i :: 0 <= i < |front| ==> front[i] == ledger[i];
      if SumRecorded(front, Deleted) == 0 && SumRecorded(ledger, Deleted) < 0 {
        var last := |ledger| - 1;
        assert ledger[last].planned && ledger[last].done && ledger[last].prior == Some(Deleted);
      }
    }
  }

  /** Whoever has read `deleted` is a rollback or a delete. */
  predicate ReadByUser(e: Entry) { e.prior == Some(Deleted) ==> e.to == Pending || e.to == Deleting }

  predicate AllReadByUser(ledger: seq<Entry>) { forall i :: 0 <= i < |ledger| ==> ReadByUser(ledger[i]) }

  predicate NoneReadDeleted(reports: map<nat, StatusHandler>) {
    forall h :: h in reports && reports[h].Writing? ==> reports[h].current != Deleted
  }

  predicate LabelInv(s: Sys) { AllReadByUser(s.ledger) && NoneReadDeleted(s.reports) }

  lemma LabelCommit(s: Sys, e: Step)
    requires LabelInv(s) && (e.Create? || e.DeleteCommit? || e.RollbackCommit?)
    ensures LabelInv(Apply(s, e))
  {
    match e
    case Create(_, _, _, _, _, _, _) =>
    case DeleteCommit(_, _) =>
    case RollbackCommit(_, _) =>
  }

  lemma LabelReport(s: Sys, e: Step)
    requires LabelInv(s) && (e.StatusRead? || e.StatusWrite? || e.Send? || e.Detach?)
    ensures LabelInv(Apply(s, e))
  {
    match e
    case StatusRead(_) =>
    case StatusWrite(_, _) =>
    case Send(_) =>
    case Detach(_) =>
  }

  lemma LabelCounted(s: Sys, e: Step)
    requires LabelInv(s) && (e.UserGauge? || e.StatusGauge? || e.UserErrs? || e.StatusErrs?)
    ensures LabelInv(Apply(s, e))
  {
    match e
    case UserGauge(_) =>
    case StatusGauge(_) =>
    case UserErrs(_) =>
    case StatusErrs(_) =>
  }

  lemma LabelRest(s: Sys, e: Step)
    requires LabelInv(s) && (OperatorsOwn(e) || UserReads(e) || e.PhaseChange? || e.PodLost? || e.Restart?)
    ensures LabelInv(Apply(s, e))
  {
    if UserReads(e) {
      UserReadFrame(s, e);
    } else if e.Restart? {
      assert Apply(s, e) == Restarted(s, if e.ok then Recounted(s.deps) else map[]);
    } else {
      assert Apply(s, e) == s.(op := Apply(s, e).op);
    }
  }

  lemma {:induction false} LabelInvKept(s: Sys, es: seq<Step>)
    requires LabelInv(s)
    ensures LabelInv(Exec(s, es))
    decreases |es|
  {
    if es != [] {
      var e := es[0];
      if e.Create? || e.DeleteCommit? || e.RollbackCommit? {
        LabelCommit(s, e);
      } else if e.StatusRead? || e.StatusWrite? || e.Send? || e.Detach? {
        LabelReport(s, e);
      } else if e.UserGauge? || e.StatusGauge? || e.UserErrs? || e.StatusErrs? {
        LabelCounted(s, e);
      } else {
        LabelRest(s, e);
      }
      LabelInvKept(Apply(s, e), es[1..]);
    }
  }

  /** In every run: what the changes since the process started have added to the label `deleted` is
      never positive, and it is negative exactly when a rollback or a delete has been counted that had
      read `deleted`. A status request never has. */
  lemma {:induction false} DeletedLabelOnlyFalls(es: seq<Step>)
    ensures var s := Exec(Init(), es);
            && GaugeOf(s.gauge, Deleted) - GaugeOf(s.baseline.gauge, Deleted) == SumRecorded(s.ledger, Deleted) <= 0
            && (SumRecorded(s.ledger, Deleted) < 0 <==>
                  exists i :: 0 <= i < |s.ledger| && s.ledger[i].planned && s.ledger[i].done && s.ledger[i].prior == Some(Deleted)
                              && (s.ledger[i].to == Pending || s.ledger[i].to == Deleting))
  {
    var s := Exec(Init(), es);
    InitGauge();
    GaugeInvKept(Init(), es);
    assert Sums(s, Deleted);
    LabelInvKept(Init(), es);
    DeletedSumOnlyFalls(s.ledger);
    if SumRecorded(s.ledger, Deleted) < 0 {
      var i :| 0 <= i < |s.ledger| && s.ledger[i].planned && s.ledger[i].done && s.ledger[i].prior == Some(Deleted);
      assert ReadByUser(s.ledger[i]);
    }
  }
}
