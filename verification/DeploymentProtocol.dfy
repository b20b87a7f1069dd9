/** The deployment protocol as a step system: user requests, the polling reconciler working from a
    snapshot, the status handler, and the cluster, interleaved call by call. `Apply` is total, as in
    the job protocol: a step whose actor is elsewhere changes nothing. */
module DeploymentProtocol {
  import opened Prelude
  import opened Deployments

  /** What the reconciler knows of a deployment from its last listing. */
  datatype Snap = Snap(dep: nat, id: string, namespace: string, status: Status)

  /** The single reconciler goroutine, by its next call. `todo` is the rest of its listing. */
  datatype Reconciler =
    | Between(todo: seq<Snap>)
    | AtPod(snap: Snap, todo: seq<Snap>)
    | AtService(snap: Snap, todo: seq<Snap>, pod: Option<Pod>)
    | AtServiceDrop(snap: Snap, todo: seq<Snap>)
    | AtReport(snap: Snap, todo: seq<Snap>, report: Report)
    | Awaiting(snap: Snap, todo: seq<Snap>, handler: nat)

  /** A status request inside the control plane, by its next call. */
  datatype StatusHandler =
    | Reading(dep: nat, report: Report)
    | Writing(dep: nat, report: Report, current: Status)
    | Gauging(entry: nat)

  /** A user request inside the control plane, by its next call. */
  datatype UserHandler =
    | Removing(dep: nat, prior: Option<Status>)
    | Targeting(dep: nat, revision: int, prior: Option<Status>)
    | RollingBack(dep: nat, version: nat, prior: Option<Status>)
    | Counting(entry: nat)

  /** History: a committed change of a row's status, the gauge update planned for it (`gauged`:
      whether there is one, from which label), and whether that update has happened. */
  datatype Entry = Entry(actual: Option<Status>, to: Status, planned: bool, prior: Option<Status>, done: bool)

  /** The cluster objects of deployments, and the operator that works on them. */
  datatype Operator = Operator(pods: map<ObjectKey, Pod>, services: set<ObjectKey>, rec: Reconciler)

  /** History: the rows and the gauge at the last process start. */
  datatype Baseline = Baseline(rows: Table, gauge: map<Status, int>)

  datatype Sys = Sys(
    deps: Table,
    op: Operator,
    reports: map<nat, StatusHandler>,
    users: map<nat, UserHandler>,
    gauge: map<Status, int>,
    ledger: seq<Entry>,       // history since the last process start
    baseline: Baseline)

  datatype Step =
    // users
    | Create(user: nat, id: string, tenant: string, record: nat, version: nat, name: string, namespace: string)
    | DeleteRead(user: nat, dep: nat, ok: bool)
    | DeleteCommit(user: nat, ok: bool)
    | RollbackRead(user: nat, dep: nat, revision: int, ok: bool)
    | RollbackTargetRead(user: nat)
    | RollbackCommit(user: nat, ok: bool)
    | UserGauge(user: nat)
    | UserErrs(user: nat)
    // the reconciler
    | List
    | Skip
    | Take
    | EnsurePod(outcome: Outcome)
    | EnsureService(outcome: Outcome)
    | DropPod(outcome: Outcome)
    | DropService(outcome: Outcome)
    | StalePod(seen: Pod)
    | StaleService
    | MissPod
    | MissService
    | Send(handler: nat)
    | Resume
    | Detach(arrives: bool)
    // the status handler
    | StatusRead(handler: nat)
    | StatusWrite(handler: nat, ok: bool)
    | StatusGauge(handler: nat)
    | StatusErrs(handler: nat)
    // the environment
    | PhaseChange(key: ObjectKey, pod: Pod)
    | PodLost(key: ObjectKey)
    | Restart(ok: bool)

  function Init(): Sys {
    Sys([], Operator(map[], {}, Between([])), map[], map[], map[], [], Baseline([], map[]))
  }

  function GaugeOf(gauge: map<Status, int>, status: Status): int {
    if status in gauge then gauge[status] else 0
  }

  function Bumped(gauge: map<Status, int>, status: Status, delta: int): map<Status, int> {
    gauge[status := GaugeOf(gauge, status) + delta]
  }

  /** The gauge update of a handler: Dec the label it read, Inc the new one unless it is deleted. */
  function Gauged(gauge: map<Status, int>, e: Entry): map<Status, int> {
    if !e.planned then gauge
    else
      var dec := if e.prior.Some? then Bumped(gauge, e.prior.value, -1) else gauge;
      if e.to == Deleted then dec else Bumped(dec, e.to, 1)
  }

  function Listed(deps: Table, n: nat): seq<Snap>
    requires n <= |deps|
  {
    if n == 0 then [] else
      var d := deps[n - 1];
      Listed(deps, n - 1) +
      if d.status in {Pending, Provisioning, Running, Deleting} then [Snap(n - 1, d.id, d.namespace, d.status)] else []
  }

  function SnapKey(s: Snap): ObjectKey { KeyOf(s.id, s.namespace) }

  /** SyncDeploymentCountGauge(CountByStatus()): one label per status that occurs, deleted left out. */
  function Recounted(deps: Table): map<Status, int> {
    map d | d in deps && d.status != Deleted :: d.status := CountOf(deps, d.status)
  }

  function Apply(s: Sys, e: Step): Sys {
    match e
    case Create(u, id, tenant, record, version, name, ns) => ApplyCreate(s, u, NewDeployment(id, tenant, record, version, name, ns))
    case DeleteRead(u, dep, ok) =>
      if u in s.users || dep >= |s.deps| then s
      else s.(users := s.users[u := Removing(dep, if ok then Some(s.deps[dep].status) else None)])
    case DeleteCommit(u, ok) => ApplyDeleteCommit(s, u, ok)
    case RollbackRead(u, dep, revision, ok) =>
      if u in s.users || dep >= |s.deps| then s
      else s.(users := s.users[u := Targeting(dep, revision, if ok then Some(s.deps[dep].status) else None)])
    case RollbackTargetRead(u) => ApplyTargetRead(s, u)
    case RollbackCommit(u, ok) => ApplyRollbackCommit(s, u, ok)
    case UserGauge(u) =>
      if u in s.users && s.users[u].Counting? && s.users[u].entry < |s.ledger|
      then GaugeUpdated(s, s.users[u].entry).(users := s.users - {u}) else s
    case StatusRead(h) => ApplyStatusRead(s, h)
    case StatusWrite(h, ok) => ApplyStatusWrite(s, h, ok)
    case StatusGauge(h) =>
      if h in s.reports && s.reports[h].Gauging? && s.reports[h].entry < |s.ledger|
      then GaugeUpdated(s, s.reports[h].entry).(reports := s.reports - {h}) else s
    case UserErrs(u) =>
      if u in s.users && s.users[u].Counting? && s.users[u].entry < |s.ledger|
      then Uncounted(s, s.users[u].entry).(users := s.users - {u}) else s
    case StatusErrs(h) =>
      if h in s.reports && s.reports[h].Gauging? && s.reports[h].entry < |s.ledger|
      then Uncounted(s, s.reports[h].entry).(reports := s.reports - {h}) else s
    case PhaseChange(key, pod) => if key in s.op.pods then s.(op := s.op.(pods := s.op.pods[key := pod])) else s
    case PodLost(key) => s.(op := s.op.(pods := s.op.pods - {key}))
    case Restart(ok) => Restarted(s, if ok then Recounted(s.deps) else map[])
    case Send(h) => ApplySend(s, h)
    case Detach(arrives) => ApplyDetach(s, arrives)
    case _ => s.(op := OperatorStep(s.op, s.deps, s.reports.Keys, e))
  }

  /** A new process: requests in flight are gone, and the gauge starts from a recount, or from nothing
      if the count query fails. */
  function Restarted(s: Sys, gauge: map<Status, int>): Sys {
    s.(reports := map[], users := map[], gauge := gauge, ledger := [], baseline := Baseline(s.deps, gauge))
  }

  function Exec(s: Sys, es: seq<Step>): Sys
    decreases |es|
  {
    if es == [] then s else Exec(Apply(s, es[0]), es[1..])
  }

  function GaugeUpdated(s: Sys, entry: nat): Sys
    requires entry < |s.ledger|
  {
    s.(gauge := Gauged(s.gauge, s.ledger[entry]), ledger := s.ledger[entry := s.ledger[entry].(done := true)])
  }

  /** The handler of a committed change sees an error, since the reply of the commit was lost, and
      leaves the gauge alone. */
  function Uncounted(s: Sys, entry: nat): Sys
    requires entry < |s.ledger|
  {
    s.(ledger := s.ledger[entry := s.ledger[entry].(planned := false, done := true)])
  }

  function ApplyCreate(s: Sys, u: nat, d: Deployment): Sys {
    if u in s.users || Conflicts(s.deps, d.id, d.tenant, d.name) then s
    else s.(deps := s.deps + [d], users := s.users[u := Counting(|s.ledger|)],
            ledger := s.ledger + [Entry(None, Pending, true, None, false)])
  }

  function ApplyDeleteCommit(s: Sys, u: nat, ok: bool): Sys {
    if u !in s.users || !s.users[u].Removing? || s.users[u].dep >= |s.deps| then s
    else
      var Removing(dep, prior) := s.users[u];
      if !ok || !Deletable(s.deps[dep]) then s.(users := s.users - {u})
      else s.(deps := s.deps[dep := s.deps[dep].(status := Deleting)],
              users := s.users[u := Counting(|s.ledger|)],
              ledger := s.ledger + [Entry(Some(s.deps[dep].status), Deleting, prior.Some?, prior, false)])
  }

  function ApplyTargetRead(s: Sys, u: nat): Sys {
    if u !in s.users || !s.users[u].Targeting? || s.users[u].dep >= |s.deps| then s
    else
      var Targeting(dep, revision, prior) := s.users[u];
      match RollbackTarget(s.deps[dep], revision)
      case Err(_) => s.(users := s.users - {u})
      case Ok(version) => s.(users := s.users[u := RollingBack(dep, version, prior)])
  }

  function ApplyRollbackCommit(s: Sys, u: nat, ok: bool): Sys {
    if u !in s.users || !s.users[u].RollingBack? || s.users[u].dep >= |s.deps| then s
    else
      var RollingBack(dep, version, prior) := s.users[u];
      if !ok then s.(users := s.users - {u})
      else s.(deps := s.deps[dep := RolledBack(s.deps[dep], version)],
              users := s.users[u := Counting(|s.ledger|)],
              ledger := s.ledger + [Entry(Some(s.deps[dep].status), Pending, prior.Some?, prior, false)])
  }

  /** The steps of the operator that touch nothing of the control plane. `busy` names the status
      requests that have not been answered. */
  function OperatorStep(o: Operator, deps: Table, busy: set<nat>, e: Step): Operator {
    match e
    case List => if o.rec == Between([]) then o.(rec := Between(Listed(deps, |deps|))) else o
    case Skip => if o.rec.Between? && o.rec.todo != [] then o.(rec := Between(o.rec.todo[1..])) else o
    case Take => if o.rec.Between? && o.rec.todo != [] then o.(rec := AtPod(o.rec.todo[0], o.rec.todo[1..])) else o
    case EnsurePod(outcome) => PodEnsured(o, outcome)
    case EnsureService(outcome) => ServiceEnsured(o, outcome)
    case DropPod(outcome) => PodDropped(o, outcome)
    case DropService(outcome) => ServiceDropped(o, outcome)
    case StalePod(seen) => PodSeen(o, seen)
    case StaleService => ServiceSeen(o)
    case MissPod => PodMissed(o)
    case MissService => ServiceMissed(o)
    case Resume => if o.rec.Awaiting? && o.rec.handler !in busy then o.(rec := Between(o.rec.todo)) else o
    case _ => o
  }

  predicate OperatorsOwn(e: Step) {
    e.List? || e.Skip? || e.Take? || e.EnsurePod? || e.EnsureService? || e.DropPod? || e.DropService?
    || e.StalePod? || e.StaleService? || e.MissPod? || e.MissService? || e.Resume?
  }

  /** Get the pod and create it when it is missing. */
  function PodEnsured(o: Operator, outcome: Outcome): Operator {
    if !o.rec.AtPod? || o.rec.snap.status == Deleting then o
    else
      var key := SnapKey(o.rec.snap);
      var created := if key in o.pods then o.pods else o.pods[key := Pod(PodPending, "")];
      match outcome
      case Reached =>
        o.(pods := created, rec := AtService(o.rec.snap, o.rec.todo, if key in o.pods then Some(o.pods[key]) else None))
      case Refused => o.(rec := Between(o.rec.todo))
      case ReplyLost => o.(pods := created, rec := Between(o.rec.todo))
  }

  /** Get the service and create it when it is missing; then decide what to report. */
  function ServiceEnsured(o: Operator, outcome: Outcome): Operator {
    if !o.rec.AtService? then o
    else
      var AtService(snap, todo, pod) := o.rec;
      match outcome
      case Refused => o.(rec := Between(todo))
      case ReplyLost => o.(services := o.services + {SnapKey(snap)}, rec := Between(todo))
      case Reached => o.(services := o.services + {SnapKey(snap)}, rec := Judged(snap, todo, pod))
  }

  /** What to report of the pod that was found, or created just now. */
  function Judged(snap: Snap, todo: seq<Snap>, pod: Option<Pod>): Reconciler {
    if pod == None then AtReport(snap, todo, Report(Provisioning, "", ""))
    else if MapPodPhase(pod.value.phase) == snap.status then Between(todo)
    else AtReport(snap, todo, PodReport(snap.id, snap.namespace, pod.value))
  }

  function PodDropped(o: Operator, outcome: Outcome): Operator {
    if !o.rec.AtPod? || o.rec.snap.status != Deleting then o
    else
      match outcome
      case Refused => o.(rec := Between(o.rec.todo))
      case ReplyLost => o.(pods := o.pods - {SnapKey(o.rec.snap)}, rec := Between(o.rec.todo))
      case Reached => o.(pods := o.pods - {SnapKey(o.rec.snap)}, rec := AtServiceDrop(o.rec.snap, o.rec.todo))
  }

  function ServiceDropped(o: Operator, outcome: Outcome): Operator {
    if !o.rec.AtServiceDrop? then o
    else
      match outcome
      case Refused => o.(rec := Between(o.rec.todo))
      case ReplyLost => o.(services := o.services - {SnapKey(o.rec.snap)}, rec := Between(o.rec.todo))
      case Reached =>
        o.(services := o.services - {SnapKey(o.rec.snap)}, rec := AtReport(o.rec.snap, o.rec.todo, Report(Deleted, "", "")))
  }

  // The client of the operator reads pods and services from a cache that may be behind. A cached pod
  // or service that has gone is not created again; one that the cache does not show yet is not
  // deleted. (Creating an object that the cache does not show fails, as with Refused.)

  function PodSeen(o: Operator, seen: Pod): Operator {
    if !o.rec.AtPod? || o.rec.snap.status == Deleting then o
    else o.(rec := AtService(o.rec.snap, o.rec.todo, Some(seen)))
  }

  function ServiceSeen(o: Operator): Operator {
    if !o.rec.AtService? then o else o.(rec := Judged(o.rec.snap, o.rec.todo, o.rec.pod))
  }

  function PodMissed(o: Operator): Operator {
    if !o.rec.AtPod? || o.rec.snap.status != Deleting then o else o.(rec := AtServiceDrop(o.rec.snap, o.rec.todo))
  }

  function ServiceMissed(o: Operator): Operator {
    if !o.rec.AtServiceDrop? then o else o.(rec := AtReport(o.rec.snap, o.rec.todo, Report(Deleted, "", "")))
  }

  function ApplySend(s: Sys, h: nat): Sys {
    if !s.op.rec.AtReport? || h in s.reports then s
    else s.(reports := s.reports[h := Reading(s.op.rec.snap.dep, s.op.rec.report)],
            op := s.op.(rec := Awaiting(s.op.rec.snap, s.op.rec.todo, h)))
  }

  /** The operator's HTTP client gives up on the report after its timeout and closes the connection.
      That cancels the context of the request in the control plane, with which both its store calls
      are made: a handler that has not written yet is over. If the cancellation does not arrive in
      time (`arrives` is false: a partition, a lost node, a statement already sent), the handler goes
      on. */
  function ApplyDetach(s: Sys, arrives: bool): Sys {
    if !s.op.rec.Awaiting? then s
    else
      var h := s.op.rec.handler;
      s.(op := s.op.(rec := Between(s.op.rec.todo)),
         reports := if arrives && h in s.reports && !s.reports[h].Gauging? then s.reports - {h} else s.reports)
  }

  /** Read the current status and check the transition. */
  function ApplyStatusRead(s: Sys, h: nat): Sys {
    if h !in s.reports || !s.reports[h].Reading? || s.reports[h].dep >= |s.deps| then s
    else
      var Reading(dep, report) := s.reports[h];
      if ValidTransition(s.deps[dep].status, report.status)
      then s.(reports := s.reports[h := Writing(dep, report, s.deps[dep].status)])
      else s.(reports := s.reports - {h})
  }

  /** The write does not look at the status again. */
  function ApplyStatusWrite(s: Sys, h: nat, ok: bool): Sys {
    if h !in s.reports || !s.reports[h].Writing? || s.reports[h].dep >= |s.deps| then s
    else
      var Writing(dep, report, current) := s.reports[h];
      if !ok then s.(reports := s.reports - {h})
      else s.(deps := s.deps[dep := WithStatus(s.deps[dep], report.status, report.endpoint, report.failureReason)],
              reports := s.reports[h := Gauging(|s.ledger|)],
              ledger := s.ledger + [Entry(Some(s.deps[dep].status), report.status, true, Some(current), false)])
  }

  lemma {:induction false} ExecConcat(s: Sys, a: seq<Step>, b: seq<Step>)
    ensures Exec(s, a + b) == Exec(Exec(s, a), b)
    decreases |a|
  {
    if a == [] {
      assert a + b == b;
    } else {
      assert (a + b)[0] == a[0] && (a + b)[1..] == a[1..] + b;
      ExecConcat(Apply(s, a[0]), a[1..], b);
    }
  }
}
