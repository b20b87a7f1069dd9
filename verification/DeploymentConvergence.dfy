/** What one fault-free visit of the reconciler does to a deployment, and to which ones it converges:
    a deployment ends with its pod, its service and the status of its pod's phase, except a pending
    one whose pod already runs or has failed, which stays pending for ever. */
module DeploymentConvergence {
  import opened Prelude
  import opened Deployments
  import opened DeploymentProtocol
  import opened DeploymentScripts
  import opened DeploymentVisits
  import opened DeploymentHistory
  import opened DeploymentSafety

  /** The outcome of a visit, described without its steps. */
  datatype Visit = Visit(row: Deployment, pods: map<ObjectKey, Pod>, services: set<ObjectKey>, report: Option<Report>)

  function Reported(row: Deployment, r: Option<Report>): Deployment {
    if r.Some? && ValidTransition(row.status, r.value.status)
    then WithStatus(row, r.value.status, r.value.endpoint, r.value.failureReason) else row
  }

  function VisitOf(snap: Snap, row: Deployment, pods: map<ObjectKey, Pod>, services: set<ObjectKey>): Visit {
    var key := SnapKey(snap);
    var report := ReportFor(snap, pods);
    if snap.status == Deleting
    then Visit(Reported(row, report), pods - {key}, services - {key}, report)
    else Visit(Reported(row, report), if key in pods then pods else pods[key := Pod(PodPending, "")], services + {key}, report)
  }

  /** Without faults, the steps of a visit do what VisitOf says, and nothing to any other row. */
  lemma FaultFreeVisit(s: Sys, snap: Snap, todo: seq<Snap>, h: nat)
    requires s.op.rec == Between([snap] + todo) && snap.dep < |s.deps| && h !in s.reports
    ensures var s' := Exec(s, VisitSteps(h, NO_VISIT_FAULT)); var v := VisitOf(snap, s.deps[snap.dep], s.op.pods, s.op.services);
            && s'.deps == s.deps[snap.dep := v.row] && s'.op == Operator(v.pods, v.services, Between(todo))
            && s'.reports == s.reports && s'.users == s.users
  {
    VisitRuns(s, snap, todo, h, NO_VISIT_FAULT);
    ObjectsDone(s.op, snap, todo, s.deps[snap.dep]);
    assert s.deps[snap.dep := s.deps[snap.dep]] == s.deps;
  }

  lemma ObjectsDone(o: Operator, snap: Snap, todo: seq<Snap>, row: Deployment)
    ensures var v := VisitOf(snap, row, o.pods, o.services);
            Worked(o, snap, todo, NO_VISIT_FAULT) ==
            Operator(v.pods, v.services, match v.report case None => Between(todo) case Some(r) => AtReport(snap, todo, r))
  {
  }

  // ---------------------------------------------------------------- one deployment

  /** What a listing taken now says of a row. */
  function SnapNow(dep: nat, d: Deployment): Snap { Snap(dep, d.id, d.namespace, d.status) }

  predicate Serving(status: Status) { status == Pending || status == Provisioning || status == Running }

  /** The pod and the service exist and the status is that of the pod's phase; a pod that was just
      created counts as pending, which makes the status provisioning. */
  predicate Converged(d: Deployment, pods: map<ObjectKey, Pod>, services: set<ObjectKey>) {
    RowKey(d) in pods && RowKey(d) in services && d.status == MapPodPhase(pods[RowKey(d)].phase)
  }

  /** The pod already runs or has failed: what a pending deployment may not be told. */
  predicate Overtaken(d: Deployment, pods: map<ObjectKey, Pod>) {
    d.status == Pending && RowKey(d) in pods && pods[RowKey(d)].phase in {PodRunning, PodFailed}
  }

  function VisitNow(d: Deployment, pods: map<ObjectKey, Pod>, services: set<ObjectKey>): Visit {
    VisitOf(SnapNow(0, d), d, pods, services)
  }

  /** A fault-free visit of a pending, provisioning or running deployment converges exactly when the
      deployment is not a pending one overtaken by its pod, and then another visit changes nothing
      and sends nothing. */
  lemma {:induction false} VisitConverges(d: Deployment, pods: map<ObjectKey, Pod>, services: set<ObjectKey>)
    requires Serving(d.status)
    ensures var v := VisitNow(d, pods, services);
            && RowKey(d) in v.pods && RowKey(d) in v.services
            && (Converged(v.row, v.pods, v.services) <==> !Overtaken(d, pods))
            && (!Overtaken(d, pods) ==>
                  VisitNow(v.row, v.pods, v.services) == Visit(v.row, v.pods, v.services, None))
            && (MetadataOk(d) && v.row.status == Running ==> v.row.endpoint == ServingEndpoint(d.id, d.namespace))
  {
    var v := VisitNow(d, pods, services);
    assert RowKey(v.row) == RowKey(d);
    assert v.services + {RowKey(d)} == v.services;
  }

  lemma {:induction false} VisitDeletes(d: Deployment, pods: map<ObjectKey, Pod>, services: set<ObjectKey>)
    requires d.status == Deleting
    ensures var v := VisitNow(d, pods, services);
            v.row.status == Deleted && RowKey(d) !in v.pods && RowKey(d) !in v.services
  {
  }

  /** The row after `n` fault-free visits, each from a listing taken just before it. */
  function VisitedTimes(n: nat, d: Deployment, pods: map<ObjectKey, Pod>, services: set<ObjectKey>): (r: Visit) {
    if n == 0 then Visit(d, pods, services, None)
    else var v := VisitNow(d, pods, services); VisitedTimes(n - 1, v.row, v.pods, v.services)
  }

  /** A pending deployment overtaken by its pod stays pending however often it is visited. */
  lemma {:induction false} OvertakenForever(n: nat, d: Deployment, pods: map<ObjectKey, Pod>, services: set<ObjectKey>)
    requires Overtaken(d, pods)
    ensures VisitedTimes(n, d, pods, services).row == d
    decreases n
  {
    if n > 0 {
      var v := VisitNow(d, pods, services);
      assert v.row == d && v.pods == pods;
      OvertakenForever(n - 1, d, pods, v.services);
    }
  }

  /** Rolling back a deployment that serves leaves it pending for ever, without an endpoint, while
      its pod runs: the pod is not replaced, and pending to running is refused. */
  lemma {:induction false} RollbackOfServingNeverServes(n: nat, d: Deployment, version: nat, pods: map<ObjectKey, Pod>, services: set<ObjectKey>)
    requires d.status == Running && Converged(d, pods, services)
    ensures var r := VisitedTimes(n, RolledBack(d, version), pods, services).row;
            r.status == Pending && r.endpoint == "" && pods[RowKey(d)].phase == PodRunning
  {
    OvertakenForever(n, RolledBack(d, version), pods, services);
  }

  // ---------------------------------------------------------------- a pass over the whole listing

  /** `n` visits in a row. */
  function PassSteps(n: nat, h: nat): seq<Step> {
    if n == 0 then [] else VisitSteps(h, NO_VISIT_FAULT) + PassSteps(n - 1, h)
  }

  /** The cluster shows the same under this key. */
  predicate SameAt(key: ObjectKey, pods: map<ObjectKey, Pod>, services: set<ObjectKey>,
                   pods': map<ObjectKey, Pod>, services': set<ObjectKey>)
  {
    && (key in services <==> key in services') && (key in pods <==> key in pods')
    && (key in pods ==> pods[key] == pods'[key])
  }

  /** A visit reads and changes only what is under its own key. */
  lemma VisitIsLocal(snap: Snap, d: Deployment, pods: map<ObjectKey, Pod>, services: set<ObjectKey>,
                     pods': map<ObjectKey, Pod>, services': set<ObjectKey>)
    requires SameAt(SnapKey(snap), pods, services, pods', services')
    ensures var v := VisitOf(snap, d, pods, services); var v' := VisitOf(snap, d, pods', services');
            v.row == v'.row && v.report == v'.report && SameAt(SnapKey(snap), v.pods, v.services, v'.pods, v'.services)
    ensures var v := VisitOf(snap, d, pods, services);
            forall key :: key != SnapKey(snap) ==> SameAt(key, pods, services, v.pods, v.services)
  {
  }

  /** The row and the objects of one listed deployment are as its own visit leaves them. */
  predicate VisitDone(snap: Snap, a: Sys, b: Sys)
    requires snap.dep < |a.deps|
  {
    var v := VisitOf(snap, a.deps[snap.dep], a.op.pods, a.op.services);
    snap.dep < |b.deps| && b.deps[snap.dep] == v.row && SameAt(SnapKey(snap), v.pods, v.services, b.op.pods, b.op.services)
  }

  lemma SnapKeysDiffer(deps: Table, todo: seq<Snap>, j: nat, k: nat)
    requires IdsUnique(deps) && SnapsOk(deps, todo) && Worklist(deps, todo, -1) && j < k < |todo|
    ensures SnapKey(todo[j]) != SnapKey(todo[k])
  {
    assert SnapOk(deps, todo[j]) && SnapOk(deps, todo[k]);
    assert deps[todo[j].dep].id != deps[todo[k].dep].id;
    if SnapKey(todo[j]) == SnapKey(todo[k]) {
      KeysDistinct(todo[j].id, todo[k].id, todo[j].namespace, todo[k].namespace);
    }
  }

  predicate NamesRow(todo: seq<Snap>, i: int) { exists k :: 0 <= k < |todo| && todo[k].dep == i }
  predicate NamesKey(todo: seq<Snap>, key: ObjectKey) { exists k :: 0 <= k < |todo| && SnapKey(todo[k]) == key }

  ghost predicate Untouched(todo: seq<Snap>, a: Sys, b: Sys) {
    && |b.deps| == |a.deps|
    && (forall i :: 0 <= i < |a.deps| && !NamesRow(todo, i) ==> b.deps[i] == a.deps[i])
    && (forall key :: !NamesKey(todo, key) ==> SameAt(key, a.op.pods, a.op.services, b.op.pods, b.op.services))
  }

  /** One visit leaves the rest of the listing fit for the next ones. */
  lemma FirstVisit(s: Sys, s1: Sys, todo: seq<Snap>)
    requires todo != [] && SnapsOk(s.deps, todo) && Worklist(s.deps, todo, -1) && IdsUnique(s.deps)
    requires var v := VisitOf(todo[0], s.deps[todo[0].dep], s.op.pods, s.op.services);
             s1.deps == s.deps[todo[0].dep := v.row] && s1.op.pods == v.pods && s1.op.services == v.services
    ensures SnapsOk(s1.deps, todo[1..]) && Worklist(s1.deps, todo[1..], -1) && IdsUnique(s1.deps)
    ensures VisitDone(todo[0], s, s1) && Untouched([todo[0]], s, s1)
  {
    var v := VisitOf(todo[0], s.deps[todo[0].dep], s.op.pods, s.op.services);
    assert RowEvolves(s.deps[todo[0].dep], v.row);
    VisitIsLocal(todo[0], s.deps[todo[0].dep], s.op.pods, s.op.services, s.op.pods, s.op.services);
    forall k | 0 <= k < |todo[1..]| ensures SnapOk(s1.deps, todo[1..][k]) {
      assert SnapOk(s.deps, todo[k + 1]);
    }
    assert [todo[0]][0] == todo[0];
    assert NamesRow([todo[0]], todo[0].dep) && NamesKey([todo[0]], SnapKey(todo[0]));
  }

  /** The other entries see what they would have seen without the first visit. */
  lemma LaterVisitSame(s: Sys, s1: Sys, s': Sys, todo: seq<Snap>, k: nat)
    requires 0 < k < |todo| && SnapsOk(s.deps, todo) && Worklist(s.deps, todo, -1) && IdsUnique(s.deps)
    requires Untouched([todo[0]], s, s1) && todo[k].dep < |s1.deps| && VisitDone(todo[k], s1, s')
    ensures VisitDone(todo[k], s, s')
  {
    SnapKeysDiffer(s.deps, todo, 0, k);
    assert !NamesRow([todo[0]], todo[k].dep) && !NamesKey([todo[0]], SnapKey(todo[k]));
    assert s1.deps[todo[k].dep] == s.deps[todo[k].dep];
    assert SameAt(SnapKey(todo[k]), s.op.pods, s.op.services, s1.op.pods, s1.op.services);
    VisitIsLocal(todo[k], s.deps[todo[k].dep], s.op.pods, s.op.services, s1.op.pods, s1.op.services);
  }

  lemma FirstVisitStays(s: Sys, s1: Sys, s': Sys, todo: seq<Snap>)
    requires todo != [] && SnapsOk(s.deps, todo) && Worklist(s.deps, todo, -1) && IdsUnique(s.deps)
    requires VisitDone(todo[0], s, s1) && Untouched(todo[1..], s1, s')
    ensures VisitDone(todo[0], s, s')
  {
    forall k | 0 <= k < |todo[1..]| ensures SnapKey(todo[1..][k]) != SnapKey(todo[0]) && todo[1..][k].dep != todo[0].dep {
      SnapKeysDiffer(s.deps, todo, 0, k + 1);
    }
    assert !NamesRow(todo[1..], todo[0].dep) && !NamesKey(todo[1..], SnapKey(todo[0]));
  }

  lemma UntouchedTogether(s: Sys, s1: Sys, s': Sys, todo: seq<Snap>)
    requires todo != [] && Untouched([todo[0]], s, s1) && Untouched(todo[1..], s1, s')
    ensures Untouched(todo, s, s')
  {
    assert forall k :: 0 <= k < |todo[1..]| ==> todo[1..][k] == todo[k + 1];
    assert [todo[0]][0] == todo[0];
    forall i | 0 <= i < |s.deps| && !NamesRow(todo, i) ensures s'.deps[i] == s.deps[i] {
      assert !NamesRow([todo[0]], i) && !NamesRow(todo[1..], i);
    }
    forall key | !NamesKey(todo, key) ensures SameAt(key, s.op.pods, s.op.services, s'.op.pods, s'.op.services) {
      assert !NamesKey([todo[0]], key) && !NamesKey(todo[1..], key);
    }
  }

  lemma AllVisitsDone(s: Sys, s1: Sys, s': Sys, todo: seq<Snap>)
    requires todo != [] && SnapsOk(s.deps, todo) && Worklist(s.deps, todo, -1) && IdsUnique(s.deps)
    requires VisitDone(todo[0], s, s1) && Untouched([todo[0]], s, s1) && Untouched(todo[1..], s1, s')
    requires forall k :: 0 <= k < |todo[1..]| ==> todo[1..][k].dep < |s1.deps| && VisitDone(todo[1..][k], s1, s')
    ensures forall k :: 0 <= k < |todo| ==> VisitDone(todo[k], s, s')
  {
    forall k | 0 <= k < |todo| ensures VisitDone(todo[k], s, s') {
      if k == 0 {
        FirstVisitStays(s, s1, s', todo);
      } else {
        assert todo[1..][k - 1] == todo[k];
        LaterVisitSame(s, s1, s', todo, k);
      }
    }
  }

  lemma PassUnfolds(s: Sys, n: nat, h: nat)
    requires n > 0
    ensures Exec(s, PassSteps(n, h)) == Exec(Exec(s, VisitSteps(h, NO_VISIT_FAULT)), PassSteps(n - 1, h))
  {
    ExecConcat(s, VisitSteps(h, NO_VISIT_FAULT), PassSteps(n - 1, h));
  }

  /** Fault-free visits to a whole listing, one after the other, do to each deployment what its own
      visit alone would do, and nothing to anything else. */
  lemma {:induction false} PassRuns(s: Sys, todo: seq<Snap>, h: nat)
    requires s.op.rec == Between(todo) && h !in s.reports
    requires SnapsOk(s.deps, todo) && Worklist(s.deps, todo, -1) && IdsUnique(s.deps)
    ensures var s' := Exec(s, PassSteps(|todo|, h));
            && s'.op.rec == Between([]) && s'.reports == s.reports && s'.users == s.users
            && Untouched(todo, s, s') && forall k :: 0 <= k < |todo| ==> VisitDone(todo[k], s, s')
    decreases |todo|
  {
    if todo != [] {
      assert [todo[0]] + todo[1..] == todo;
      FaultFreeVisit(s, todo[0], todo[1..], h);
      var s1 := Exec(s, VisitSteps(h, NO_VISIT_FAULT));
      FirstVisit(s, s1, todo);
      PassRuns(s1, todo[1..], h);
      var s' := Exec(s1, PassSteps(|todo| - 1, h));
      PassUnfolds(s, |todo|, h);
      UntouchedTogether(s, s1, s', todo);
      AllVisitsDone(s, s1, s', todo);
    }
  }

  /** The listing has a deployment, as it is now, exactly if it is to serve or to go. */
  lemma {:induction false} ListedExactly(deps: Table, n: nat, i: nat)
    requires i < n <= |deps|
    ensures Snap(i, deps[i].id, deps[i].namespace, deps[i].status) in Listed(deps, n) <==>
            deps[i].status == Pending || deps[i].status == Provisioning || deps[i].status == Running || deps[i].status == Deleting
    decreases n
  {
    if i < n - 1 {
      ListedExactly(deps, n - 1, i);
    } else {
      ListedSafe(deps, n - 1);
    }
  }

  /** What one whole fault-free pass makes of a deployment. */
  predicate Settled(d: Deployment, o: Operator, d': Deployment, o': Operator) {
    && (Serving(d.status) ==>
          RowKey(d) in o'.pods && RowKey(d) in o'.services && (Converged(d', o'.pods, o'.services) <==> !Overtaken(d, o.pods)))
    && (d.status == Deleting ==> d'.status == Deleted && Gone(o', RowKey(d)))
  }

  lemma VisitSettles(s: Sys, s': Sys, i: nat)
    requires i < |s.deps| && (Serving(s.deps[i].status) || s.deps[i].status == Deleting)
    requires VisitDone(SnapNow(i, s.deps[i]), s, s')
    ensures Settled(s.deps[i], s.op, s'.deps[i], s'.op)
  {
  }

  lemma ListRuns(s: Sys, es: seq<Step>)
    requires s.op.rec == Between([])
    ensures Exec(s, [List] + es) == Exec(s.(op := s.op.(rec := Between(Listed(s.deps, |s.deps|)))), es)
  {
    ExecOne(s, List);
    ExecConcat(s, [List], es);
  }

  /** One fault-free pass settles every deployment of the table: the serving ones have their objects
      and, unless overtaken, the status of their pod; the deleting ones are deleted and gone. */
  lemma PassSettles(s: Sys, h: nat, i: nat)
    requires s.op.rec == Between([]) && h !in s.reports && IdsUnique(s.deps) && i < |s.deps|
    ensures var s' := Exec(s, [List] + PassSteps(|Listed(s.deps, |s.deps|)|, h));
            i < |s'.deps| && Settled(s.deps[i], s.op, s'.deps[i], s'.op)
  {
    var todo := Listed(s.deps, |s.deps|);
    var s1 := s.(op := s.op.(rec := Between(todo)));
    ListRuns(s, PassSteps(|todo|, h));
    ListedOk(s.deps, |s.deps|);
    ListedSafe(s.deps, |s.deps|);
    PassRuns(s1, todo, h);
    if Serving(s.deps[i].status) || s.deps[i].status == Deleting {
      ListedExactly(s.deps, |s.deps|, i);
      var k :| 0 <= k < |todo| && todo[k] == SnapNow(i, s.deps[i]);
      VisitSettles(s1, Exec(s1, PassSteps(|todo|, h)), i);
    }
  }

  // ---------------------------------------------------------------- a second pass

  /** A visit to the deployment would change nothing. */
  predicate Quiet(d: Deployment, o: Operator) {
    && d.status != Deleting
    && (Serving(d.status) ==>
          RowKey(d) in o.pods && RowKey(d) in o.services && (Converged(d, o.pods, o.services) || Overtaken(d, o.pods)))
  }

  lemma QuietVisit(s: Sys, i: nat, todo: seq<Snap>)
    requires i < |s.deps| && Quiet(s.deps[i], s.op) && Serving(s.deps[i].status)
    ensures Visited(s, SnapNow(i, s.deps[i]), todo, NO_VISIT_FAULT) == s.(op := s.op.(rec := Between(todo)))
    ensures !Overtaken(s.deps[i], s.op.pods) ==> ReportFor(SnapNow(i, s.deps[i]), s.op.pods) == None
  {
    WorkedServing(s.op, SnapNow(i, s.deps[i]), todo, NO_VISIT_FAULT);
    assert s.op.services + {RowKey(s.deps[i])} == s.op.services;
  }

  /** The listing as it is now. */
  predicate ListedNow(deps: Table, todo: seq<Snap>) {
    forall k :: 0 <= k < |todo| ==> todo[k].dep < |deps| && todo[k] == SnapNow(todo[k].dep, deps[todo[k].dep])
                                    && (Serving(todo[k].status) || todo[k].status == Deleting)
  }

  lemma {:induction false} ListedIsNow(deps: Table, n: nat)
    requires n <= |deps|
    ensures ListedNow(deps, Listed(deps, n))
    decreases n
  {
    if n > 0 {
      ListedIsNow(deps, n - 1);
    }
  }

  predicate AllQuiet(s: Sys) { forall i :: 0 <= i < |s.deps| ==> Quiet(s.deps[i], s.op) }

  lemma {:induction false} QuietVisits(s: Sys, todo: seq<Snap>, h: nat)
    requires s.op.rec == Between(todo) && h !in s.reports && ListedNow(s.deps, todo) && AllQuiet(s)
    ensures Exec(s, PassSteps(|todo|, h)) == s.(op := s.op.(rec := Between([])))
    decreases |todo|
  {
    if todo != [] {
      assert [todo[0]] + todo[1..] == todo;
      assert Quiet(s.deps[todo[0].dep], s.op);
      VisitRuns(s, todo[0], todo[1..], h, NO_VISIT_FAULT);
      QuietVisit(s, todo[0].dep, todo[1..]);
      QuietVisits(s.(op := s.op.(rec := Between(todo[1..]))), todo[1..], h);
      PassUnfolds(s, |todo|, h);
    }
  }

  lemma VisitQuiets(s: Sys, s': Sys, i: nat)
    requires i < |s.deps| && (Serving(s.deps[i].status) || s.deps[i].status == Deleting)
    requires VisitDone(SnapNow(i, s.deps[i]), s, s')
    ensures Quiet(s'.deps[i], s'.op)
  {
  }

  lemma {:induction false} PassQuiets(s: Sys, h: nat)
    requires s.op.rec == Between([]) && h !in s.reports && IdsUnique(s.deps)
    ensures var s' := Exec(s, [List] + PassSteps(|Listed(s.deps, |s.deps|)|, h));
            s'.op.rec == Between([]) && s'.reports == s.reports && AllQuiet(s')
  {
    var todo := Listed(s.deps, |s.deps|);
    var s1 := s.(op := s.op.(rec := Between(todo)));
    ListRuns(s, PassSteps(|todo|, h));
    ListedOk(s.deps, |s.deps|);
    ListedSafe(s.deps, |s.deps|);
    ListedIsNow(s.deps, |s.deps|);
    PassRuns(s1, todo, h);
    var s' := Exec(s1, PassSteps(|todo|, h));
    forall i | 0 <= i < |s'.deps| ensures Quiet(s'.deps[i], s'.op) {
      ListedExactly(s.deps, |s.deps|, i);
      if k :| 0 <= k < |todo| && todo[k] == SnapNow(i, s.deps[i]) {
        VisitQuiets(s1, s', i);
      } else {
        assert !NamesRow(todo, i);
      }
    }
  }

  /** A fault-free pass is idempotent: a second one changes nothing at all, not a row, an object or
      the gauge, and the only reports it sends are those, always refused, for overtaken deployments. */
  lemma SecondPassIsQuiet(s: Sys, h: nat)
    requires s.op.rec == Between([]) && h !in s.reports && IdsUnique(s.deps)
    ensures var s' := Exec(s, [List] + PassSteps(|Listed(s.deps, |s.deps|)|, h));
            && Exec(s', [List] + PassSteps(|Listed(s'.deps, |s'.deps|)|, h)) == s'
            && forall i: nat :: i < |s'.deps| && Serving(s'.deps[i].status) ==>
                 Overtaken(s'.deps[i], s'.op.pods) || ReportFor(SnapNow(i, s'.deps[i]), s'.op.pods) == None
  {
    var s' := Exec(s, [List] + PassSteps(|Listed(s.deps, |s.deps|)|, h));
    PassQuiets(s, h);
    var todo := Listed(s'.deps, |s'.deps|);
    ListRuns(s', PassSteps(|todo|, h));
    ListedIsNow(s'.deps, |s'.deps|);
    QuietVisits(s'.(op := s'.op.(rec := Between(todo))), todo, h);
    forall i: nat | i < |s'.deps| && Serving(s'.deps[i].status) && !Overtaken(s'.deps[i], s'.op.pods)
      ensures ReportFor(SnapNow(i, s'.deps[i]), s'.op.pods) == None
    {
      QuietVisit(s', i, []);
    }
  }
}
