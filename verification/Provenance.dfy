/** End to end: training runs, model versions and deployments of one platform, running together.
    Every model version comes from a run that SUCCEEDED and stays so, and every deployment serves a
    version that belongs to its record and tenant and was production when the deployment passed its
    gate. The row is inserted later (control-plane/internal/deployments/service.go:61-76); what the
    version is by then, ProvenanceGap says. */
module Provenance {
  import opened Prelude
  import opened Quota
  import opened Registry
  import Jobs
  import J = JobProtocol
  import JH = JobHistory
  import R = RegistryProtocol
  import RH = RegistryHistory
  import D = DeploymentProtocol
  import DH = DeploymentHistory
  import Deployments
  import DS = DeploymentServices
  import RS = RegistryServices

  /** A deployment request that passed the production gate and has not inserted its rows yet, with the
      status (history) that its version had when the gate read it. */
  datatype Gate = Gate(key: ModelKey, number: nat, record: nat, version: nat, status: Option<Label>)

  /** History: how a deployment came to be, one entry for each row of the table. */
  datatype Admission = Admission(key: ModelKey, number: nat, version: nat, atGate: Option<Label>, atInsert: Option<Label>)

  datatype World = World(
    jobs: J.Sys,
    reg: R.Sys,
    dep: D.Sys,
    gates: map<nat, Gate>,
    admitted: seq<Admission>,
    everProduction: set<nat>)       // history: ids of versions that have been production

  datatype Step =
    | OfJobs(job: J.Step)
    | OfRegistry(reg: R.Step)
    | OfDeployments(dep: D.Step)
    // the steps that read one part and write another
    | RegisterFrom(request: nat, key: ModelKey, run: RunRef)
    | PassGate(user: nat, key: ModelKey, number: nat)
    | Deploy(user: nat, id: string, name: string, namespace: string)

  function Init(quotas: map<string, TenantQuota>, retryDefault: nat): World {
    World(J.Init(quotas, retryDefault), R.Init(), D.Init(), map[], [], {})
  }

  /** The training_runs row that a run id names. */
  predicate HasRun(db: Jobs.Table, run: RunRef) { run.job < |db| && run.attempt < |db[run.job].runs| }

  function RunAt(db: Jobs.Table, run: RunRef): Jobs.Run
    requires HasRun(db, run)
  {
    db[run.job].runs[run.attempt]
  }

  /** What GetRunForRegistration answers to a tenant. */
  function RunLookupOf(db: Jobs.Table, tenant: string, run: RunRef): RS.RunLookup {
    if HasRun(db, run) && db[run.job].tenant == tenant
    then RS.RunFound(db[run.job].project, RunAt(db, run).status, RunAt(db, run).mlflowRunId) else RS.RunMissing
  }

  predicate Registrable(db: Jobs.Table, tenant: string, run: RunRef) {
    HasRun(db, run) && db[run.job].tenant == tenant && RunAt(db, run).status == Jobs.SUCCEEDED && RunAt(db, run).mlflowRunId.Some?
  }

  /** That is exactly what Register accepts. */
  lemma {:induction false} RegistrableExactly(db: Jobs.Table, tenant: string, run: RunRef, runId: string, name: string)
    requires runId != "" && name != ""
    ensures Registrable(db, tenant, run) <==> RS.RegisterRefusal(runId, name, RunLookupOf(db, tenant, run)) == None
  {
  }

  /** What the model tables answer about a version of a model of the tenant. */
  function LookupOf(r: Reg, key: ModelKey, number: nat): DS.Lookup {
    if key !in r.records then DS.NoModel
    else if number !in r.records[key].versions then DS.NoVersion
    else
      var v := r.records[key].versions[number];
      DS.Found(r.records[key].id, v.id, v.status == Production)
  }

  function StatusOf(r: Reg, key: ModelKey, number: nat): Option<Label> {
    if key in r.records && number in r.records[key].versions then Some(r.records[key].versions[number].status) else None
  }

  function ProductionIds(r: Reg): set<nat> {
    set k, n | k in r.records && n in r.records[k].versions && r.records[k].versions[n].status == Production ::
      r.records[k].versions[n].id
  }

  function WithRegistry(w: World, reg: R.Sys): World {
    w.(reg := reg, everProduction := w.everProduction + ProductionIds(reg.reg))
  }

  function Apply(w: World, e: Step): World {
    match e
    case OfJobs(j) => w.(jobs := J.Apply(w.jobs, j))
    case OfRegistry(r) => if r.Register? then w else WithRegistry(w, R.Apply(w.reg, r))
    case OfDeployments(d) => if d.Create? then w else w.(dep := D.Apply(w.dep, d))
    case RegisterFrom(id, key, run) =>
      if !Registrable(w.jobs.db, key.tenant, run) then w
      else
        var src := Source(w.jobs.db[run.job].project, run, RunAt(w.jobs.db, run).mlflowRunId.value);
        WithRegistry(w, R.Apply(w.reg, R.Register(id, key, src)))
    case PassGate(u, key, number) => ApplyGate(w, u, key, number)
    case Deploy(u, id, name, ns) => ApplyDeploy(w, u, id, name, ns)
  }

  /** Service.Create up to the insert: the version must be production when it is read. */
  function ApplyGate(w: World, u: nat, key: ModelKey, number: nat): World {
    if u in w.gates then w
    else
      match LookupOf(w.reg.reg, key, number)
      case Found(record, version, true) =>
        w.(gates := w.gates[u := Gate(key, number, record, version, StatusOf(w.reg.reg, key, number))])
      case _ => w
  }

  function ApplyDeploy(w: World, u: nat, id: string, name: string, ns: string): World {
    if u !in w.gates then w
    else
      var g := w.gates[u];
      var dep := D.Apply(w.dep, D.Create(u, id, g.key.tenant, g.record, g.version, name, ns));
      w.(dep := dep, gates := w.gates - {u},
         admitted := if |dep.deps| == |w.dep.deps| then w.admitted
                     else w.admitted + [Admission(g.key, g.number, g.version, g.status, StatusOf(w.reg.reg, g.key, g.number))])
  }

  function Exec(w: World, es: seq<Step>): World
    decreases |es|
  {
    if es == [] then w else Exec(Apply(w, es[0]), es[1..])
  }

  // ---------------------------------------------------------------- provenance

  /** The run exists, is the tenant's, SUCCEEDED, and logged under this MLflow run. */
  predicate CameFrom(db: Jobs.Table, tenant: string, run: RunRef, mlflowRunId: string) {
    Registrable(db, tenant, run) && RunAt(db, run).mlflowRunId == Some(mlflowRunId)
  }

  predicate VersionsSourced(db: Jobs.Table, r: Reg) {
    forall k, n :: k in r.records && n in r.records[k].versions ==>
      CameFrom(db, k.tenant, r.records[k].versions[n].run, r.records[k].versions[n].mlflowRunId)
  }

  predicate HasSource(q: R.Request) { q.Naming? || q.Versioning? || q.Recording? || q.Storing? }

  predicate RequestsSourced(db: Jobs.Table, reqs: map<nat, R.Request>) {
    forall id :: id in reqs && HasSource(reqs[id]) ==> CameFrom(db, reqs[id].key.tenant, reqs[id].src.run, reqs[id].src.mlflowRunId)
  }

  /** The record and the version with these ids, of this tenant. */
  predicate Names(r: Reg, key: ModelKey, number: nat, record: nat, version: nat) {
    key in r.records && number in r.records[key].versions
    && r.records[key].id == record && r.records[key].versions[number].id == version
  }

  /** The deployment serves a version of its own record and tenant that was production when the
      deployment passed its gate. */
  predicate Backed(r: Reg, ever: set<nat>, a: Admission, d: Deployments.Deployment) {
    && a.atGate == Some(Production) && a.version == d.version && d.version in ever
    && Names(r, a.key, a.number, d.record, d.version) && a.key.tenant == d.tenant
  }

  predicate DeploymentsBacked(r: Reg, ever: set<nat>, admitted: seq<Admission>, deps: Deployments.Table) {
    |admitted| == |deps| && forall i :: 0 <= i < |deps| ==> Backed(r, ever, admitted[i], deps[i])
  }

  predicate GateBacked(r: Reg, ever: set<nat>, g: Gate) {
    g.status == Some(Production) && g.version in ever && Names(r, g.key, g.number, g.record, g.version)
  }

  predicate GatesBacked(r: Reg, ever: set<nat>, gates: map<nat, Gate>) {
    forall u :: u in gates ==> GateBacked(r, ever, gates[u])
  }

  /** Each part keeps its own invariants, among them that all revisions of a deployment have the
      version of the deployment. */
  predicate PartsOk(jobs: J.Sys, reg: R.Sys, dep: D.Sys) { J.JobsInv(jobs) && RH.TablesOk(reg) && DH.Inv(dep) }

  predicate Sourced(db: Jobs.Table, reg: R.Sys) { VersionsSourced(db, reg.reg) && RequestsSourced(db, reg.reqs) }

  ghost predicate Inv(w: World) {
    && PartsOk(w.jobs, w.reg, w.dep) && Sourced(w.jobs.db, w.reg)
    && ProductionIds(w.reg.reg) <= w.everProduction
    && DeploymentsBacked(w.reg.reg, w.everProduction, w.admitted, w.dep.deps) && GatesBacked(w.reg.reg, w.everProduction, w.gates)
  }

  // ---------------------------------------------------------------- steps of the jobs

  /** A registrable run is frozen: whatever the job protocol does, it stays as it is. */
  lemma SourceStays(a: Jobs.Table, b: Jobs.Table, tenant: string, run: RunRef, mlflowRunId: string)
    requires J.RowsOk(a) && JH.Evolves(a, b) && CameFrom(a, tenant, run, mlflowRunId)
    ensures CameFrom(b, tenant, run, mlflowRunId) && RunAt(b, run) == RunAt(a, run)
  {
  }

  lemma JobStepKeeps(w: World, e: J.Step)
    requires Inv(w)
    ensures Inv(Apply(w, OfJobs(e)))
  {
    J.JobsInvStep(w.jobs, e);
    JH.StepEvolves(w.jobs, e);
    var db, db' := w.jobs.db, J.Apply(w.jobs, e).db;
    forall k, n | k in w.reg.reg.records && n in w.reg.reg.records[k].versions
      ensures CameFrom(db', k.tenant, w.reg.reg.records[k].versions[n].run, w.reg.reg.records[k].versions[n].mlflowRunId)
    {
      SourceStays(db, db', k.tenant, w.reg.reg.records[k].versions[n].run, w.reg.reg.records[k].versions[n].mlflowRunId);
    }
    forall id | id in w.reg.reqs && HasSource(w.reg.reqs[id])
      ensures CameFrom(db', w.reg.reqs[id].key.tenant, w.reg.reqs[id].src.run, w.reg.reqs[id].src.mlflowRunId)
    {
      SourceStays(db, db', w.reg.reqs[id].key.tenant, w.reg.reqs[id].src.run, w.reg.reqs[id].src.mlflowRunId);
    }
  }

  // ---------------------------------------------------------------- steps of the registry

  /** A call adds at most the version of its own request. */
  lemma CallSources(db: Jobs.Table, r: Reg, q: R.Request, o: Outcome)
    requires VersionsSourced(db, r) && (HasSource(q) ==> CameFrom(db, q.key.tenant, q.src.run, q.src.mlflowRunId))
    ensures var t := R.Next(r, q, o);
            && VersionsSourced(db, t.reg)
            && (t.next.Some? && HasSource(t.next.value) ==>
                  HasSource(q) && t.next.value.key == q.key && t.next.value.src == q.src)
  {
    match q
    case Recording(_, _, _, _) =>
    case Storing(_, _, _) => StoringSources(db, r, q, o);
    case Setting(_, _, _, _) => StatusSources(db, r, q, o);
    case Archiving(_, _) => StatusSources(db, r, q, o);
    case _ => assert R.Next(r, q, o).reg.records == r.records;
  }

  lemma StoringSources(db: Jobs.Table, r: Reg, q: R.Request, o: Outcome)
    requires VersionsSourced(db, r) && q.Storing? && CameFrom(db, q.key.tenant, q.src.run, q.src.mlflowRunId)
    ensures VersionsSourced(db, R.OnStoring(r, q, o).reg)
  {
  }

  lemma StatusSources(db: Jobs.Table, r: Reg, q: R.Request, o: Outcome)
    requires VersionsSourced(db, r) && (q.Setting? || q.Archiving?)
    ensures VersionsSourced(db, R.Next(r, q, o).reg)
  {
  }

  lemma RegistrySources(db: Jobs.Table, s: R.Sys, e: R.Step)
    requires VersionsSourced(db, s.reg) && RequestsSourced(db, s.reqs)
    requires e.Register? ==> CameFrom(db, e.key.tenant, e.src.run, e.src.mlflowRunId)
    ensures VersionsSourced(db, R.Apply(s, e).reg) && RequestsSourced(db, R.Apply(s, e).reqs)
  {
    if RH.Proceeds(s, e) {
      CallSources(db, s.reg, s.reqs[e.request], e.outcome);
    }
  }

  lemma StaysNamed(a: Reg, b: Reg, key: ModelKey, number: nat, record: nat, version: nat)
    requires RH.Evolves(a, b) && Names(a, key, number, record, version)
    ensures Names(b, key, number, record, version)
  {
  }

  lemma StaysBacked(a: Reg, b: Reg, ever: set<nat>, ever': set<nat>, admitted: seq<Admission>, deps: Deployments.Table,
                    gates: map<nat, Gate>)
    requires RH.Evolves(a, b) && ever <= ever' && DeploymentsBacked(a, ever, admitted, deps) && GatesBacked(a, ever, gates)
    ensures DeploymentsBacked(b, ever', admitted, deps) && GatesBacked(b, ever', gates)
  {
    forall i | 0 <= i < |deps| ensures Backed(b, ever', admitted[i], deps[i]) {
      assert Backed(a, ever, admitted[i], deps[i]);
      StaysNamed(a, b, admitted[i].key, admitted[i].number, deps[i].record, deps[i].version);
    }
    forall u | u in gates ensures GateBacked(b, ever', gates[u]) {
      assert GateBacked(a, ever, gates[u]);
      StaysNamed(a, b, gates[u].key, gates[u].number, gates[u].record, gates[u].version);
    }
  }

  lemma RegistryStepKeeps(w: World, e: R.Step)
    requires Inv(w) && (e.Register? ==> CameFrom(w.jobs.db, e.key.tenant, e.src.run, e.src.mlflowRunId))
    ensures Inv(WithRegistry(w, R.Apply(w.reg, e)))
  {
    RH.OkStep(w.reg, e);
    RegistrySources(w.jobs.db, w.reg, e);
    var reg' := R.Apply(w.reg, e).reg;
    StaysBacked(w.reg.reg, reg', w.everProduction, w.everProduction + ProductionIds(reg'), w.admitted, w.dep.deps, w.gates);
  }

  // ---------------------------------------------------------------- steps of the deployments

  lemma RowsStayBacked(r: Reg, ever: set<nat>, admitted: seq<Admission>, a: Deployments.Table, b: Deployments.Table)
    requires DeploymentsBacked(r, ever, admitted, a) && DH.Evolves(a, b) && |a| == |b|
    ensures DeploymentsBacked(r, ever, admitted, b)
  {
  }

  /** Only Create adds rows. */
  lemma RowsAdded(s: D.Sys, e: D.Step)
    requires !e.Create?
    ensures |D.Apply(s, e).deps| == |s.deps|
  {
    match e
    case DeleteRead(_, _, _) =>
    case DeleteCommit(_, _) =>
    case RollbackRead(_, _, _, _) =>
    case RollbackTargetRead(_) =>
    case RollbackCommit(_, _) =>
    case UserGauge(_) =>
    case Send(_) =>
    case Detach(_) =>
    case StatusRead(_) =>
    case StatusWrite(_, _) =>
    case StatusGauge(_) =>
    case PhaseChange(_, _) =>
    case PodLost(_) =>
    case Restart(_) =>
    case _ =>
  }

  lemma DeploymentStepKeeps(w: World, e: D.Step)
    requires Inv(w) && !e.Create?
    ensures Inv(w.(dep := D.Apply(w.dep, e)))
  {
    DH.InvStep(w.dep, e);
    RowsAdded(w.dep, e);
    RowsStayBacked(w.reg.reg, w.everProduction, w.admitted, w.dep.deps, D.Apply(w.dep, e).deps);
  }

  lemma GatePassed(r: Reg, ever: set<nat>, gates: map<nat, Gate>, u: nat, key: ModelKey, number: nat)
    requires GatesBacked(r, ever, gates) && ProductionIds(r) <= ever
    requires key in r.records && number in r.records[key].versions && r.records[key].versions[number].status == Production
    ensures GatesBacked(r, ever,
              gates[u := Gate(key, number, r.records[key].id, r.records[key].versions[number].id, StatusOf(r, key, number))])
  {
  }

  lemma GateKeeps(w: World, u: nat, key: ModelKey, number: nat)
    requires Inv(w)
    ensures Inv(ApplyGate(w, u, key, number))
  {
    var w' := ApplyGate(w, u, key, number);
    assert w' == w.(gates := w'.gates);
    if w'.gates != w.gates {
      GatePassed(w.reg.reg, w.everProduction, w.gates, u, key, number);
    }
  }

  lemma RowDeployed(r: Reg, ever: set<nat>, admitted: seq<Admission>, deps: Deployments.Table, g: Gate, d: Deployments.Deployment,
                    atInsert: Option<Label>)
    requires DeploymentsBacked(r, ever, admitted, deps) && GateBacked(r, ever, g)
    requires d.tenant == g.key.tenant && d.record == g.record && d.version == g.version
    ensures DeploymentsBacked(r, ever, admitted + [Admission(g.key, g.number, g.version, g.status, atInsert)], deps + [d])
  {
  }

  lemma DeployKeeps(w: World, u: nat, id: string, name: string, ns: string)
    requires Inv(w)
    ensures Inv(ApplyDeploy(w, u, id, name, ns))
  {
    if u in w.gates {
      var g := w.gates[u];
      var d := Deployments.NewDeployment(id, g.key.tenant, g.record, g.version, name, ns);
      DH.InvStep(w.dep, D.Create(u, id, g.key.tenant, g.record, g.version, name, ns));
      RowDeployed(w.reg.reg, w.everProduction, w.admitted, w.dep.deps, g, d, StatusOf(w.reg.reg, g.key, g.number));
      var dep' := D.ApplyCreate(w.dep, u, d);
      assert dep'.deps == w.dep.deps || dep'.deps == w.dep.deps + [d];
      var w' := ApplyDeploy(w, u, id, name, ns);
      assert w' == w.(dep := dep', gates := w.gates - {u}, admitted := w'.admitted);
    }
  }

  lemma InvStep(w: World, e: Step)
    requires Inv(w)
    ensures Inv(Apply(w, e))
  {
    match e
    case OfJobs(j) => JobStepKeeps(w, j);
    case OfRegistry(r) => if !r.Register? { RegistryStepKeeps(w, r); }
    case OfDeployments(d) => if !d.Create? { DeploymentStepKeeps(w, d); }
    case RegisterFrom(id, key, run) =>
      if Registrable(w.jobs.db, key.tenant, run) {
        RegistryStepKeeps(w, R.Register(id, key, Source(w.jobs.db[run.job].project, run, RunAt(w.jobs.db, run).mlflowRunId.value)));
      }
    case PassGate(u, key, number) => GateKeeps(w, u, key, number);
    case Deploy(u, id, name, ns) => DeployKeeps(w, u, id, name, ns);
  }

  /** Over every run of the whole platform, from its start (InitInv) or from any state reached,
      whatever fails: each model version comes from a SUCCEEDED run of its tenant with the version's
      MLflow run id, and each deployment and each of its revisions serves a version of its record and
      tenant that was production when the deployment passed its gate. */
  lemma {:induction false} ProvenanceHolds(w: World, es: seq<Step>)
    requires Inv(w)
    ensures Inv(Exec(w, es))
    decreases |es|
  {
    if es != [] {
      InvStep(w, es[0]);
      ProvenanceHolds(Apply(w, es[0]), es[1..]);
    }
  }

  lemma InitInv(quotas: map<string, TenantQuota>, retryDefault: nat)
    ensures Inv(Init(quotas, retryDefault))
  {
    DH.InitOk();
  }

  /** The version is still there, from the same run, and the run is still as it was. */
  predicate SourceKept(db: Jobs.Table, r: Reg, db': Jobs.Table, r': Reg, key: ModelKey, number: nat)
    requires key in r.records && number in r.records[key].versions
  {
    var v := r.records[key].versions[number];
    && key in r'.records && number in r'.records[key].versions && RH.VersionEvolves(v, r'.records[key].versions[number])
    && HasRun(db, v.run) && HasRun(db', v.run) && RunAt(db', v.run) == RunAt(db, v.run)
  }

  lemma JobStepLeaves(jobs: J.Sys, e: J.Step, r: Reg, key: ModelKey, number: nat)
    requires J.JobsInv(jobs) && VersionsSourced(jobs.db, r) && key in r.records && number in r.records[key].versions
    ensures SourceKept(jobs.db, r, J.Apply(jobs, e).db, r, key, number)
  {
    var v := r.records[key].versions[number];
    JH.StepEvolves(jobs, e);
    SourceStays(jobs.db, J.Apply(jobs, e).db, key.tenant, v.run, v.mlflowRunId);
  }

  lemma RegistryStepLeaves(db: Jobs.Table, s: R.Sys, e: R.Step, key: ModelKey, number: nat)
    requires RH.TablesOk(s) && VersionsSourced(db, s.reg) && key in s.reg.records && number in s.reg.records[key].versions
    ensures SourceKept(db, s.reg, db, R.Apply(s, e).reg, key, number)
  {
    var v := s.reg.records[key].versions[number];
    assert CameFrom(db, key.tenant, v.run, v.mlflowRunId);
    RH.OkStep(s, e);
    assert RH.RecordEvolves(s.reg.records[key], R.Apply(s, e).reg.records[key]);
  }

  lemma DeploymentsWriteNothingElse(w: World, e: Step)
    requires e.OfDeployments? || e.PassGate? || e.Deploy?
    ensures Apply(w, e).jobs == w.jobs && Apply(w, e).reg == w.reg
  {
  }

  lemma StepLeavesSources(w: World, e: Step, key: ModelKey, number: nat)
    requires PartsOk(w.jobs, w.reg, w.dep) && Sourced(w.jobs.db, w.reg)
    requires key in w.reg.reg.records && number in w.reg.reg.records[key].versions
    ensures SourceKept(w.jobs.db, w.reg.reg, Apply(w, e).jobs.db, Apply(w, e).reg.reg, key, number)
  {
    var v := w.reg.reg.records[key].versions[number];
    assert CameFrom(w.jobs.db, key.tenant, v.run, v.mlflowRunId);
    match e
    case OfJobs(j) => JobStepLeaves(w.jobs, j, w.reg.reg, key, number);
    case OfRegistry(r) => RegistryStepLeaves(w.jobs.db, w.reg, r, key, number);
    case RegisterFrom(id, k, run) =>
      if Registrable(w.jobs.db, k.tenant, run) {
        var src := Source(w.jobs.db[run.job].project, run, RunAt(w.jobs.db, run).mlflowRunId.value);
        RegistryStepLeaves(w.jobs.db, w.reg, R.Register(id, k, src), key, number);
      }
    case _ => DeploymentsWriteNothingElse(w, e);
  }

  /** A version keeps its source, and its source run never changes again: both for ever. */
  lemma {:induction false} SourcesAreForEver(w: World, es: seq<Step>, key: ModelKey, number: nat)
    requires Inv(w) && key in w.reg.reg.records && number in w.reg.reg.records[key].versions
    ensures var w' := Exec(w, es); var v := w.reg.reg.records[key].versions[number];
            && key in w'.reg.reg.records && number in w'.reg.reg.records[key].versions
            && RH.VersionEvolves(v, w'.reg.reg.records[key].versions[number])
            && CameFrom(w'.jobs.db, key.tenant, v.run, v.mlflowRunId)
            && HasRun(w.jobs.db, v.run) && RunAt(w'.jobs.db, v.run) == RunAt(w.jobs.db, v.run)
    decreases |es|
  {
    var v := w.reg.reg.records[key].versions[number];
    assert CameFrom(w.jobs.db, key.tenant, v.run, v.mlflowRunId);
    if es != [] {
      InvStep(w, es[0]);
      StepLeavesSources(w, es[0], key, number);
      SourcesAreForEver(Apply(w, es[0]), es[1..], key, number);
    }
  }

  /** The revision names a version of the deployment's record and tenant that was production when the
      deployment passed its gate, and that came from a SUCCEEDED run of the tenant. */
  predicate RevisionBacked(w: World, i: nat, k: nat)
    requires i < |w.dep.deps| && k < |w.dep.deps[i].revisions|
  {
    var d := w.dep.deps[i]; var rev := d.revisions[k];
    && rev.number == k + 1 && rev.version == d.version && rev.version in w.everProduction
    && i < |w.admitted|
    && var a := w.admitted[i];
       && a.atGate == Some(Production) && a.key.tenant == d.tenant && Names(w.reg.reg, a.key, a.number, d.record, rev.version)
       && var v := w.reg.reg.records[a.key].versions[a.number]; CameFrom(w.jobs.db, d.tenant, v.run, v.mlflowRunId)
  }

  /** What the invariant says of a deployment and of any of its revisions. */
  lemma {:induction false} InvProvenance(w: World, i: nat, k: nat)
    requires Inv(w) && i < |w.dep.deps| && k < |w.dep.deps[i].revisions|
    ensures RevisionBacked(w, i, k)
  {
    var d := w.dep.deps[i];
    assert DH.RowOk(d) && Backed(w.reg.reg, w.everProduction, w.admitted[i], d);
  }

  /** In every run of the whole platform, whatever fails, and for every revision of every deployment. */
  lemma DeploymentProvenance(quotas: map<string, TenantQuota>, retryDefault: nat, es: seq<Step>, i: nat, k: nat)
    requires var w := Exec(Init(quotas, retryDefault), es); i < |w.dep.deps| && k < |w.dep.deps[i].revisions|
    ensures RevisionBacked(Exec(Init(quotas, retryDefault), es), i, k)
  {
    InitInv(quotas, retryDefault);
    ProvenanceHolds(Init(quotas, retryDefault), es);
    InvProvenance(Exec(Init(quotas, retryDefault), es), i, k);
  }

  /** The same column by column, of versions: the run of a version is a run of its tenant that has
      SUCCEEDED under the version's MLflow run id. */
  lemma VersionProvenance(quotas: map<string, TenantQuota>, retryDefault: nat, es: seq<Step>, key: ModelKey, n: nat)
    requires var w := Exec(Init(quotas, retryDefault), es); key in w.reg.reg.records && n in w.reg.reg.records[key].versions
    ensures var w := Exec(Init(quotas, retryDefault), es);
            var v := w.reg.reg.records[key].versions[n];
            && v.run.job < |w.jobs.db| && v.run.attempt < |w.jobs.db[v.run.job].runs|
            && w.jobs.db[v.run.job].tenant == key.tenant
            && w.jobs.db[v.run.job].runs[v.run.attempt].status == Jobs.SUCCEEDED
            && w.jobs.db[v.run.job].runs[v.run.attempt].mlflowRunId == Some(v.mlflowRunId)
  {
    InitInv(quotas, retryDefault);
    ProvenanceHolds(Init(quotas, retryDefault), es);
    var w := Exec(Init(quotas, retryDefault), es);
    assert CameFrom(w.jobs.db, key.tenant, w.reg.reg.records[key].versions[n].run, w.reg.reg.records[key].versions[n].mlflowRunId);
  }

  /** And of deployments: a revision names a version, by its id, that is in the record and of the tenant
      of the deployment, and that read production when the deployment passed its gate. */
  lemma RevisionProvenance(quotas: map<string, TenantQuota>, retryDefault: nat, es: seq<Step>, i: nat, k: nat)
    requires var w := Exec(Init(quotas, retryDefault), es); i < |w.dep.deps| && k < |w.dep.deps[i].revisions|
    ensures var w := Exec(Init(quotas, retryDefault), es);
            var d, r := w.dep.deps[i], w.reg.reg.records;
            && |w.admitted| == |w.dep.deps|
            && var a := w.admitted[i];
               && a.atGate == Some(Production) && a.key.tenant == d.tenant
               && a.key in r && r[a.key].id == d.record
               && a.number in r[a.key].versions && r[a.key].versions[a.number].id == d.revisions[k].version
  {
    InitInv(quotas, retryDefault);
    ProvenanceHolds(Init(quotas, retryDefault), es);
    var w := Exec(Init(quotas, retryDefault), es);
    var d := w.dep.deps[i];
    assert DH.RowOk(d) && Backed(w.reg.reg, w.everProduction, w.admitted[i], d);
  }
}
