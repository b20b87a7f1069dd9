/** Between the gate of a deployment and the insert of its rows
    (control-plane/internal/deployments/service.go:61-76) the version may lose its status: exactly
    when, and a whole run of the platform in which it does. */
module ProvenanceGap {
  import opened Prelude
  import opened Quota
  import opened Registry
  import opened Provenance
  import Jobs
  import J = JobProtocol
  import JS = JobScripts
  import R = RegistryProtocol
  import RA = RegistryAlias
  import RH = RegistryHistory
  import RF = RegistryFaults
  import RP = RegistryPromotions
  import D = DeploymentProtocol
  import Deployments

  // ---------------------------------------------------------------- who writes the status

  /** What a call that takes effect writes to the status of this version, if anything. */
  function Written(q: R.Request, key: ModelKey, number: nat): Option<Label> {
    if q.key != key then None
    else match q
      case Setting(_, target, alias, demoted) =>
        if target == number then Some(alias) else if number in demoted then Some(Candidate) else None
      case Archiving(_, target) => if target == number then Some(Archived) else None
      case _ => None
  }

  /** The same for a step of the platform: only a commit of the registry writes a status. */
  function WrittenBy(w: World, e: Step, key: ModelKey, number: nat): Option<Label> {
    match e
    case OfRegistry(Call(id, o)) =>
      if o != Refused && RH.Proceeds(w.reg, R.Call(id, o)) then Written(w.reg.reqs[id], key, number) else None
    case _ => None
  }

  /** What the last commit in a run that writes the status of this version writes. */
  function LastWritten(w: World, es: seq<Step>, key: ModelKey, number: nat): Option<Label>
    decreases |es|
  {
    if es == [] then None
    else
      var later := LastWritten(Apply(w, es[0]), es[1..], key, number);
      if later.Some? then later else WrittenBy(w, es[0], key, number)
  }

  lemma CallWrites(r: Reg, q: R.Request, o: Outcome, key: ModelKey, number: nat)
    requires StatusOf(r, key, number).Some? && (!R.Registers(q) ==> q.number in R.VersionsOf(r, q.key))
    ensures StatusOf(R.Next(r, q, o).reg, key, number) ==
            if o != Refused && Written(q, key, number).Some? then Written(q, key, number) else StatusOf(r, key, number)
  {
    match q
    case Naming(_, _) =>
    case Versioning(_, _, _) =>
    case Recording(_, _, _, _) =>
    case Storing(_, _, _) =>
    case Undoing(_, _, _) =>
    case Dropping(_) =>
    case Aliasing(_, _, _) =>
    case Holding(_, _, _) =>
    case Demoting(_, _, _, _) =>
    case Setting(_, _, _, _) =>
    case Unstaging(_, _) =>
    case Unproducing(_, _) =>
    case Archiving(_, _) =>
  }

  lemma RegistryWrites(s: R.Sys, e: R.Step, key: ModelKey, number: nat)
    requires RH.TablesOk(s) && StatusOf(s.reg, key, number).Some?
    ensures StatusOf(R.Apply(s, e).reg, key, number) ==
            if e.Call? && e.outcome != Refused && RH.Proceeds(s, e) && Written(s.reqs[e.request], key, number).Some?
            then Written(s.reqs[e.request], key, number) else StatusOf(s.reg, key, number)
  {
    if RH.Proceeds(s, e) {
      CallWrites(s.reg, s.reqs[e.request], e.outcome, key, number);
    }
  }

  lemma StepWrites(w: World, e: Step, key: ModelKey, number: nat)
    requires Inv(w) && StatusOf(w.reg.reg, key, number).Some?
    ensures StatusOf(Apply(w, e).reg.reg, key, number) ==
            if WrittenBy(w, e, key, number).Some? then WrittenBy(w, e, key, number) else StatusOf(w.reg.reg, key, number)
  {
    match e
    case OfJobs(_) =>
    case OfRegistry(r) => if !r.Register? { RegistryWrites(w.reg, r, key, number); }
    case OfDeployments(_) =>
    case RegisterFrom(id, k, run) =>
      if Registrable(w.jobs.db, k.tenant, run) {
        var src := Source(w.jobs.db[run.job].project, run, RunAt(w.jobs.db, run).mlflowRunId.value);
        RegistryWrites(w.reg, R.Register(id, k, src), key, number);
      }
    case PassGate(_, _, _) =>
    case Deploy(_, _, _, _) =>
  }

  /** After any run, the status of a version is what the last commit wrote to it, if any did. */
  lemma {:induction false} StatusAfter(w: World, es: seq<Step>, key: ModelKey, number: nat)
    requires Inv(w) && StatusOf(w.reg.reg, key, number).Some?
    ensures StatusOf(Exec(w, es).reg.reg, key, number) ==
            if LastWritten(w, es, key, number).Some? then LastWritten(w, es, key, number) else StatusOf(w.reg.reg, key, number)
    decreases |es|
  {
    if es != [] {
      InvStep(w, es[0]);
      StepWrites(w, es[0], key, number);
      StatusAfter(Apply(w, es[0]), es[1..], key, number);
    }
  }

  // ---------------------------------------------------------------- from the gate to the insert

  /** No other request of this number is deployed meanwhile. */
  predicate KeepsGate(es: seq<Step>, u: nat) {
    forall k :: 0 <= k < |es| ==> !(es[k].Deploy? && es[k].user == u)
  }

  lemma GateStaysStep(w: World, e: Step, u: nat)
    requires u in w.gates && !(e.Deploy? && e.user == u)
    ensures u in Apply(w, e).gates && Apply(w, e).gates[u] == w.gates[u]
  {
    match e
    case OfJobs(_) =>
    case OfRegistry(_) =>
    case OfDeployments(_) =>
    case RegisterFrom(_, _, _) =>
    case PassGate(_, _, _) =>
    case Deploy(_, _, _, _) =>
  }

  lemma {:induction false} GateStays(w: World, es: seq<Step>, u: nat)
    requires u in w.gates && KeepsGate(es, u)
    ensures u in Exec(w, es).gates && Exec(w, es).gates[u] == w.gates[u]
    decreases |es|
  {
    if es != [] {
      GateStaysStep(w, es[0], u);
      GateStays(Apply(w, es[0]), es[1..], u);
    }
  }

  lemma InsertRecords(w: World, u: nat, id: string, name: string, ns: string)
    requires u in w.gates && |ApplyDeploy(w, u, id, name, ns).dep.deps| > |w.dep.deps|
    ensures var g := w.gates[u]; var w' := ApplyDeploy(w, u, id, name, ns);
            && |w'.admitted| == |w.admitted| + 1
            && w'.admitted[|w.admitted|] == Admission(g.key, g.number, g.version, g.status, StatusOf(w.reg.reg, g.key, g.number))
  {
  }

  /** A deployment that passed its gate in world `w`, with anything at all happening before its insert:
      its version was production at the gate, and still is at the insert if and only if the last
      archiving or promotion that committed on that version in between, if there was one, made it
      production. */
  lemma GateToInsertExactly(w: World, u: nat, key: ModelKey, number: nat, es: seq<Step>, id: string, name: string, ns: string,
                            w1: World, w2: World, w3: World)
    requires Inv(w) && u !in w.gates && StatusOf(w.reg.reg, key, number) == Some(Production) && KeepsGate(es, u)
    requires w1 == ApplyGate(w, u, key, number) && w2 == Exec(w1, es) && w3 == ApplyDeploy(w2, u, id, name, ns)
    requires |w3.dep.deps| > |w2.dep.deps|
    ensures |w3.admitted| == |w2.admitted| + 1
    ensures var a := w3.admitted[|w2.admitted|];
            && a.key == key && a.number == number && a.atGate == Some(Production)
            && (a.atInsert == Some(Production) <==> LastWritten(w1, es, key, number) in {None, Some(Production)})
  {
    GateKeeps(w, u, key, number);
    GateOpens(w, u, key, number);
    GateStays(w1, es, u);
    StatusAfter(w1, es, key, number);
    InsertRecords(w2, u, id, name, ns);
  }

  lemma GateOpens(w: World, u: nat, key: ModelKey, number: nat)
    requires u !in w.gates && StatusOf(w.reg.reg, key, number) == Some(Production)
    ensures var w1 := ApplyGate(w, u, key, number);
            && w1.reg == w.reg && u in w1.gates
            && w1.gates[u].key == key && w1.gates[u].number == number && w1.gates[u].status == Some(Production)
  {
  }

  // ---------------------------------------------------------------- a run in which it does not

  function JobPart(es: seq<J.Step>): seq<Step> { if es == [] then [] else [OfJobs(es[0])] + JobPart(es[1..]) }

  function RegistryPart(es: seq<R.Step>): seq<Step> { if es == [] then [] else [OfRegistry(es[0])] + RegistryPart(es[1..]) }

  lemma {:induction false} JobsRun(w: World, es: seq<J.Step>)
    ensures Exec(w, JobPart(es)) == w.(jobs := J.Exec(w.jobs, es))
    decreases |es|
  {
    if es != [] {
      JobsRun(w.(jobs := J.Apply(w.jobs, es[0])), es[1..]);
    }
  }

  lemma {:induction false} RegistryRuns(w: World, es: seq<R.Step>)
    requires forall k :: 0 <= k < |es| ==> !es[k].Register?
    ensures var w' := Exec(w, RegistryPart(es)); w' == w.(reg := R.Exec(w.reg, es), everProduction := w'.everProduction)
    decreases |es|
  {
    if es != [] {
      assert !es[0].Register?;
      RegistryRuns(WithRegistry(w, R.Apply(w.reg, es[0])), es[1..]);
    }
  }

  lemma {:induction false} ExecConcat(w: World, a: seq<Step>, b: seq<Step>)
    ensures Exec(w, a + b) == Exec(Exec(w, a), b)
    decreases |a|
  {
    if a == [] {
      assert a + b == b;
    } else {
      assert (a + b)[0] == a[0] && (a + b)[1..] == a[1..] + b;
      ExecConcat(Apply(w, a[0]), a[1..], b);
    }
  }

  lemma ExecOne(w: World, e: Step)
    ensures Exec(w, [e]) == Apply(w, e)
  {
  }

  const KEY := RF.KEY
  const RES := JobResources(1, 1, 1, 1, 1)
  const QUOTAS := map[KEY.tenant := TenantQuota(0, 0)]

  /** A report of success with an MLflow run id. */
  lemma Succeeds(s: J.Sys, h: nat, job: nat, now: nat) returns (t: J.Sys, es: seq<J.Step>)
    requires h !in s.handlers && job < |s.db| && s.db[job].status == Jobs.RUNNING
    ensures es == [J.Receive(h, job, "Complete", None, "run"), J.Decide(h, now, true), J.Record(h, true)] && t == J.Exec(s, es)
    ensures t.db == Jobs.WithMlflowRunId(s.db[job := Jobs.TransitionRow(s.db[job], Jobs.SUCCEEDED, None, now)], job, "run")
    ensures t.handlers == s.handlers
  {
    es := [J.Receive(h, job, "Complete", None, "run"), J.Decide(h, now, true), J.Record(h, true)];
    J.Exec3(s, es[0], es[1], es[2]);
    var r := Jobs.Report(Jobs.SUCCEEDED, None, Some("run"));
    var s1 := J.Apply(s, es[0]);
    assert s1 == s.(handlers := s.handlers[h := J.Deciding(job, Jobs.RUNNING, s.db[job].maxRetries, r)]);
    var s2 := J.Apply(s1, es[1]);
    var moved := s.db[job := Jobs.TransitionRow(s.db[job], Jobs.SUCCEEDED, None, now)];
    assert s1.handlers[h := J.Recording(job, s.db[job].maxRetries, r)] == s.handlers[h := J.Recording(job, s.db[job].maxRetries, r)];
    assert s2 == s.(db := moved, handlers := s.handlers[h := J.Recording(job, s.db[job].maxRetries, r)],
                    log := s.log + [J.Commit(job, Jobs.RUNNING, Jobs.SUCCEEDED)]);
    t := J.Apply(s2, es[2]);
    assert s2.handlers - {h} == s.handlers;
  }

  /** A job is submitted, promoted and launched, and runs. */
  lemma JobRuns() returns (s: J.Sys, es: seq<J.Step>)
    ensures s == J.Exec(J.Init(QUOTAS, 0), es) && s.handlers == map[]
    ensures |s.db| == 1 && s.db[0].tenant == KEY.tenant && s.db[0].project == "p" && s.db[0].status == Jobs.RUNNING && |s.db[0].runs| == 1
  {
    var s0 := J.Init(QUOTAS, 0);
    var s1, e1 := JS.Submits(s0, 0, KEY.tenant, RES, "j", "p");
    assert s1.db == [Jobs.Job("j", KEY.tenant, "p", RES, Jobs.PENDING, None, 0, 0, [Jobs.FreshRun(Jobs.PENDING)])];
    var s2, e2 := JS.Promotes(s1, KEY.tenant, 0);
    var s3, e3 := JS.Launches(s2, 0, []);
    var e4;
    s, e4 := JS.Reports(s3, 0, 0, "Running", 0);
    J.ExecConcat(s0, e1, e2);
    J.ExecConcat(s0, e1 + e2, e3);
    J.ExecConcat(s0, e1 + e2 + e3, e4);
    es := e1 + e2 + e3 + e4;
  }

  /** To success. */
  lemma JobSucceeds() returns (es: seq<J.Step>)
    ensures var s := J.Exec(J.Init(QUOTAS, 0), es);
            Registrable(s.db, KEY.tenant, RunRef(0, 0)) && s.db[0].project == "p" && RunAt(s.db, RunRef(0, 0)).mlflowRunId == Some("run")
  {
    var s, e1 := JobRuns();
    var t, e2 := Succeeds(s, 0, 0, 0);
    J.ExecConcat(J.Init(QUOTAS, 0), e1, e2);
    es := e1 + e2;
  }

  /** The rest of a registration, then a promotion to production, each without a fault. */
  const REGISTERED := [R.Call(1, Reached), R.Call(1, Reached)] + [R.Call(1, Reached), R.Call(1, Reached)]

  function Promoting(alias: Label, r: Reg): seq<R.Step> {
    [R.Promote(1, KEY, 1, alias)] + RP.PromoteSteps(1, r, R.PromoteRequest(KEY, 1, alias), RP.NO_PROMOTE_FAULT)
  }

  lemma Registered(s: R.Sys)
    requires s == R.Sys(Reg(map[], map[], 0), map[1 := R.Naming(KEY, RF.SRC)])
    ensures R.Exec(s, REGISTERED) == R.Sys(RP.One(map[], Candidate), map[])
  {
    RP.RegisterRuns();
    assert RP.REGISTER == [R.Register(1, KEY, RF.SRC)] + REGISTERED;
    assert R.Apply(R.Init(), R.Register(1, KEY, RF.SRC)) == s;
    assert R.Exec(R.Init(), [R.Register(1, KEY, RF.SRC)]) == R.Exec(s, []);
    R.ExecConcat(R.Init(), [R.Register(1, KEY, RF.SRC)], REGISTERED);
  }

  /** A promotion that nothing interrupts. */
  lemma PromotingRuns(r: Reg, alias: Label)
    requires R.Accepted(r, KEY, 1, alias)
    ensures R.Exec(R.Sys(r, map[]), Promoting(alias, r)) == R.Sys(RP.Promoted(r, R.PromoteRequest(KEY, 1, alias), RP.NO_PROMOTE_FAULT), map[])
  {
    var s := R.Sys(r, map[]);
    var q := R.PromoteRequest(KEY, 1, alias);
    var rest := RP.PromoteSteps(1, r, q, RP.NO_PROMOTE_FAULT);
    RP.PromotedRuns(s, 1, q, RP.NO_PROMOTE_FAULT);
    assert R.Apply(s, R.Promote(1, KEY, 1, alias)) == s.(reqs := s.reqs[1 := q]);
    assert ([R.Promote(1, KEY, 1, alias)] + rest)[1..] == rest;
  }

  lemma {:induction false} PromotingOnlyCalls(id: nat, r: Reg, q: R.Request, f: RP.PromoteFaults)
    requires !R.Registers(q)
    ensures forall k :: 0 <= k < |RP.PromoteSteps(id, r, q, f)| ==> RP.PromoteSteps(id, r, q, f)[k].Call?
    decreases RP.PromoteRank(q)
  {
    var t := R.Next(r, q, RP.PromoteOutcome(q, f));
    if t.next.Some? {
      PromotingOnlyCalls(id, t.reg, t.next.value, f);
    }
  }

  /** What a promotion leaves, as far as the gate sees it. */
  lemma PromotedStatus(r: Reg, alias: Label)
    requires R.Accepted(r, KEY, 1, alias) && (alias == Archived || RA.Known(r, KEY, 1))
    ensures var r' := RP.Promoted(r, R.PromoteRequest(KEY, 1, alias), RP.NO_PROMOTE_FAULT);
            StatusOf(r', KEY, 1) == Some(alias)
  {
    if alias == Archived {
      RP.ArchivePromoted(r, KEY, 1, RP.NO_PROMOTE_FAULT);
    } else {
      RP.AliasPromoted(r, KEY, 1, alias, RP.NO_PROMOTE_FAULT);
    }
    assert 1 in R.VersionsOf(RP.Promoted(r, R.PromoteRequest(KEY, 1, alias), RP.NO_PROMOTE_FAULT), KEY);
  }

  /** Nothing has been deployed yet, and no registry request is in flight. */
  predicate Untouched(w: World) { w.reg.reqs == map[] && w.dep == D.Init() && w.gates == map[] && w.admitted == [] }

  /** A job that succeeded, and its version registered. */
  lemma ReachesCandidate() returns (w: World, es: seq<Step>)
    ensures w == Exec(Init(QUOTAS, 0), es) && Untouched(w) && w.reg.reg == RP.One(map[], Candidate)
  {
    var w0 := Init(QUOTAS, 0);
    var jobs := JobSucceeds();
    JobsRun(w0, jobs);
    var w1 := Exec(w0, JobPart(jobs));
    var register := RegisterFrom(1, KEY, RunRef(0, 0));
    ExecOne(w1, register);
    var w2 := Apply(w1, register);
    assert w2.reg == R.Sys(Reg(map[], map[], 0), map[1 := R.Naming(KEY, RF.SRC)]);
    Registered(w2.reg);
    RegistryRuns(w2, REGISTERED);
    w := Exec(w2, RegistryPart(REGISTERED));
    es := JobPart(jobs) + [register] + RegistryPart(REGISTERED);
    ExecConcat(w0, JobPart(jobs), [register]);
    ExecConcat(w0, JobPart(jobs) + [register], RegistryPart(REGISTERED));
  }

  /** A promotion of it in the world. */
  lemma WorldPromotes(w: World, alias: Label) returns (w': World, es: seq<Step>)
    requires w.reg.reqs == map[] && R.Accepted(w.reg.reg, KEY, 1, alias) && (alias == Archived || RA.Known(w.reg.reg, KEY, 1))
    ensures w' == Exec(w, es) && w' == w.(reg := w'.reg, everProduction := w'.everProduction)
    ensures w'.reg.reqs == map[] && StatusOf(w'.reg.reg, KEY, 1) == Some(alias)
  {
    var r := w.reg.reg;
    PromotingRuns(r, alias);
    PromotedStatus(r, alias);
    PromotingOnlyCalls(1, r, R.PromoteRequest(KEY, 1, alias), RP.NO_PROMOTE_FAULT);
    RegistryRuns(w, Promoting(alias, r));
    es := RegistryPart(Promoting(alias, r));
    w' := Exec(w, es);
  }

  /** And made production. */
  lemma ReachesProduction() returns (w: World, es: seq<Step>)
    ensures w == Exec(Init(QUOTAS, 0), es) && Untouched(w) && StatusOf(w.reg.reg, KEY, 1) == Some(Production)
  {
    var c, e1 := ReachesCandidate();
    var e2;
    w, e2 := WorldPromotes(c, Production);
    ExecConcat(Init(QUOTAS, 0), e1, e2);
    es := e1 + e2;
  }

  /** Without any fault, a version is archived between the gate and the insert, and the deployment is
      created all the same: "production when created" does not hold. */
  lemma ArchivedVersionDeployed() returns (es: seq<Step>)
    ensures var w := Exec(Init(QUOTAS, 0), es);
            && |w.dep.deps| == 1 && w.dep.deps[0].status == Deployments.Pending && |w.admitted| == 1
            && w.admitted[0].atGate == Some(Production) && w.admitted[0].atInsert == Some(Archived)
            && StatusOf(w.reg.reg, KEY, 1) == Some(Archived)
  {
    var w, before := ReachesProduction();
    var gate, deploy := PassGate(1, KEY, 1), Deploy(1, "d", "web", "default");
    ExecOne(w, gate);
    var w1 := Apply(w, gate);
    PassesGate(w);
    var w2, between := WorldPromotes(w1, Archived);
    ExecOne(w2, deploy);
    Inserts(w2);
    ExecConcat(Init(QUOTAS, 0), before, [gate]);
    ExecConcat(Init(QUOTAS, 0), before + [gate], between);
    ExecConcat(Init(QUOTAS, 0), before + [gate] + between, [deploy]);
    es := before + [gate] + between + [deploy];
  }

  lemma PassesGate(w: World)
    requires Untouched(w) && StatusOf(w.reg.reg, KEY, 1) == Some(Production)
    ensures var w1 := Apply(w, PassGate(1, KEY, 1));
            && w1 == w.(gates := w1.gates) && 1 in w1.gates
            && w1.gates[1].key == KEY && w1.gates[1].number == 1 && w1.gates[1].status == Some(Production)
  {
  }

  lemma Inserts(w: World)
    requires w.dep == D.Init() && w.admitted == [] && 1 in w.gates
    ensures var g := w.gates[1]; var w' := Apply(w, Deploy(1, "d", "web", "default"));
            && |w'.dep.deps| == 1 && w'.dep.deps[0].status == Deployments.Pending && w'.reg == w.reg
            && w'.admitted == [Admission(g.key, g.number, g.version, g.status, StatusOf(w.reg.reg, g.key, g.number))]
  {
  }
}
