/** Why delete safety needs the reconciler to wait: the operator's HTTP client gives up on a report
    after ten seconds (operator/cmd/operator/main.go:68). Closing the connection cancels the store
    calls of the handler (control-plane/internal/api/internal.go:166, 181). Where that cancellation
    does not arrive in time, the handler, which checks the transition before it writes and not again
    when it writes, is still on its way. */
module DeploymentDelay {
  import opened Prelude
  import opened Deployments
  import opened DeploymentProtocol
  import opened DeploymentHistory
  import opened DeploymentSafety
  import opened DeploymentScripts
  import opened DeploymentVisits
  import opened DeploymentConvergence

  // ---------------------------------------------------------------- one deployment and the reconciler

  function SnapOf(d: Deployment): Snap { Snap(0, d.id, d.namespace, d.status) }

  lemma OnlyListed(d: Deployment)
    requires d.status == Pending || d.status == Deleting
    ensures Listed([d], 1) == [SnapOf(d)]
  {
  }

  lemma TakenScript(s: Sys, d: Deployment)
    requires s.deps == [d] && s.op.rec == Between([]) && (d.status == Pending || d.status == Deleting)
    ensures Exec(s, [List, Take]) == s.(op := s.op.(rec := AtPod(SnapOf(d), [])))
  {
    OnlyListed(d);
    var s1 := s.(op := s.op.(rec := Between([SnapOf(d)])));
    assert Apply(s, List) == s1;
    assert [SnapOf(d)][1..] == [];
    ExecTwo(s, List, Take);
  }

  lemma DroppedScript(s: Sys, d: Deployment)
    requires d.status == Deleting && s.op.rec == AtPod(SnapOf(d), [])
    ensures Exec(s, [DropPod(Reached), DropService(Reached)]) ==
            s.(op := Operator(s.op.pods - {RowKey(d)}, s.op.services - {RowKey(d)}, AtReport(SnapOf(d), [], Report(Deleted, "", ""))))
  {
    DropRuns(s, NO_VISIT_FAULT);
  }

  lemma SentScript(s: Sys, h: nat)
    ensures Exec(s, [Send(h)]) == ApplySend(s, h)
  {
    ExecOne(s, Send(h));
  }

  lemma CheckedScript(s: Sys, d: Deployment, h: nat)
    requires s.deps == [d] && d.status == Deleting && h !in s.reports
    requires s.op.rec == AtReport(SnapOf(d), [], Report(Deleted, "", ""))
    ensures Exec(s, [Send(h), StatusRead(h)]) ==
            s.(op := s.op.(rec := Awaiting(SnapOf(d), [], h)), reports := s.reports[h := Writing(0, Report(Deleted, "", ""), Deleting)])
  {
    var s1 := s.(op := s.op.(rec := Awaiting(SnapOf(d), [], h)), reports := s.reports[h := Reading(0, Report(Deleted, "", ""))]);
    SentScript(s, h);
    assert s1.reports == s.reports[h := Reading(0, Report(Deleted, "", ""))];
    StatusReadScript(s.(op := s1.op), h, 0, Report(Deleted, "", ""));
    ExecConcat(s, [Send(h)], [StatusRead(h)]);
    assert [Send(h)] + [StatusRead(h)] == [Send(h), StatusRead(h)];
  }

  const TO_CHECKED := [Create(0, "d", "t", 0, 0, "web", "default"), UserGauge(0)]
    + DeleteSteps(0, 0, true)
    + [List, Take] + [DropPod(Reached), DropService(Reached)] + [Send(0), StatusRead(0)]

  /** The deployment is created and deleted; its objects are gone, and the handler has checked the
      transition to deleted. */
  lemma Checked()
    ensures var s := Exec(Init(), TO_CHECKED); var d := FIRST_DEPLOYMENT.(status := Deleting);
            s.deps == [d] && s.op == Operator(map[], {}, Awaiting(SnapOf(d), [], 0)) && s.users == map[]
            && s.reports == map[0 := Writing(0, Report(Deleted, "", ""), Deleting)]
  {
    var create := [Create(0, "d", "t", 0, 0, "web", "default"), UserGauge(0)];
    var delete := DeleteSteps(0, 0, true);
    var d := FIRST_DEPLOYMENT.(status := Deleting);
    CreateScript(Init(), 0, FIRST_DEPLOYMENT);
    var s1 := Exec(Init(), create);
    assert s1.deps == [FIRST_DEPLOYMENT];
    DeleteScript(s1, 0, 0, true);
    var s2 := Exec(s1, delete);
    assert s2.deps == [d];
    TakenScript(s2, d);
    var s3 := Exec(s2, [List, Take]);
    DroppedScript(s3, d);
    var s4 := Exec(s3, [DropPod(Reached), DropService(Reached)]);
    assert s4.op.pods == map[] && s4.op.services == {};
    CheckedScript(s4, d, 0);
    ExecConcat(Init(), create, delete);
    ExecConcat(Init(), create + delete, [List, Take]);
    ExecConcat(Init(), create + delete + [List, Take], [DropPod(Reached), DropService(Reached)]);
    ExecConcat(Init(), create + delete + [List, Take] + [DropPod(Reached), DropService(Reached)], [Send(0), StatusRead(0)]);
  }

  // ---------------------------------------------------------------- giving up, in any state

  /** A step in which nobody gives up, no call fails, no reply is lost, no pod and no process. */
  predicate Works(e: Step) {
    match e
    case DeleteRead(_, _, ok) => ok
    case DeleteCommit(_, ok) => ok
    case RollbackRead(_, _, _, ok) => ok
    case RollbackCommit(_, ok) => ok
    case StatusWrite(_, ok) => ok
    case EnsurePod(outcome) => outcome == Reached
    case EnsureService(outcome) => outcome == Reached
    case DropPod(outcome) => outcome == Reached
    case DropService(outcome) => outcome == Reached
    case Detach(_) => false
    case StalePod(_) => false
    case StaleService => false
    case MissPod => false
    case MissService => false
    case UserErrs(_) => false
    case StatusErrs(_) => false
    case PodLost(_) => false
    case Restart(_) => false
    case _ => true
  }

  predicate Faultless(es: seq<Step>) { forall k :: 0 <= k < |es| ==> Works(es[k]) }

  lemma {:induction false} FaultlessIsOrderly(s: Sys, es: seq<Step>)
    requires Faultless(es)
    ensures OrderlyRun(s, es)
    decreases |es|
  {
    if es != [] {
      FaultlessIsOrderly(Apply(s, es[0]), es[1..]);
    }
  }

  function Skips(n: nat): seq<Step> { if n == 0 then [] else [Skip] + Skips(n - 1) }

  lemma {:induction false} SkipsRun(s: Sys, todo: seq<Snap>, n: nat)
    requires s.op.rec == Between(todo) && n <= |todo|
    ensures Exec(s, Skips(n)) == s.(op := s.op.(rec := Between(todo[n..]))) && Faultless(Skips(n))
    decreases n
  {
    if n == 0 {
      assert todo[0..] == todo;
    } else {
      ExecOne(s, Skip);
      SkipsRun(s.(op := s.op.(rec := Between(todo[1..]))), todo[1..], n - 1);
      assert todo[1..][n - 1..] == todo[n..];
      ExecConcat(s, [Skip], Skips(n - 1));
    }
  }

  lemma ReachesEntry(s: Sys, todo: seq<Snap>, k: nat) returns (es: seq<Step>)
    requires s.op.rec == Between(todo) && k < |todo|
    ensures Exec(s, es) == s.(op := s.op.(rec := AtPod(todo[k], todo[k + 1..]))) && Faultless(es)
  {
    SkipsRun(s, todo, k);
    var skipped := s.(op := s.op.(rec := Between(todo[k..])));
    assert todo[k..] == [todo[k]] + todo[k + 1..];
    TakeRuns(skipped, todo[k], todo[k + 1..]);
    es := Skips(k) + [Take];
    ExecConcat(s, Skips(k), [Take]);
  }

  /** An idle reconciler can be brought to a pending deployment. */
  lemma Reaches(s: Sys, i: nat) returns (es: seq<Step>, todo': seq<Snap>)
    requires s.op.rec == Between([]) && i < |s.deps| && s.deps[i].status == Pending
    ensures Exec(s, es) == s.(op := s.op.(rec := AtPod(SnapNow(i, s.deps[i]), todo')))
    ensures Faultless(es)
  {
    var todo := Listed(s.deps, |s.deps|);
    ListedExactly(s.deps, |s.deps|, i);
    var k :| 0 <= k < |todo| && todo[k] == SnapNow(i, s.deps[i]);
    var listed := s.(op := s.op.(rec := Between(todo)));
    var rest := ReachesEntry(listed, todo, k);
    ListRuns(s, rest);
    todo' := todo[k + 1..];
    es := [List] + rest;
  }

  /** And there it creates the pod. */
  lemma PodComesBack(s: Sys, i: nat) returns (es: seq<Step>)
    requires s.op.rec == Between([]) && i < |s.deps| && s.deps[i].status == Pending
    ensures var s' := Exec(s, es); s' == s.(op := s'.op) && RowKey(s.deps[i]) in s'.op.pods
    ensures Faultless(es)
  {
    var reach, todo := Reaches(s, i);
    var s1 := Exec(s, reach);
    ExecOne(s1, EnsurePod(Reached));
    ExecConcat(s, reach, [EnsurePod(Reached)]);
    es := reach + [EnsurePod(Reached)];
  }

  /** A rollback, a visit and a delete. */
  lemma Cycle(s: Sys, u: nat, i: nat) returns (es: seq<Step>)
    requires u !in s.users && s.op.rec == Between([]) && i < |s.deps| && RowOk(s.deps[i])
    ensures var s' := Exec(s, es);
            && |s'.deps| == |s.deps| && RowKey(s'.deps[i]) == RowKey(s.deps[i]) && s'.deps[i].status == Deleting
            && s'.reports == s.reports && RowKey(s.deps[i]) in s'.op.pods
    ensures Faultless(es)
  {
    RollbackAppendsCopy(s.deps[i], 1);
    RollbackRevives(s, u, i, 1, true);
    var back := Exec(s, RollbackSteps(u, i, 1, true));
    var pod := PodComesBack(back, i);
    DeleteScript(Exec(back, pod), u, i, true);
    ExecConcat(s, RollbackSteps(u, i, 1, true), pod);
    ExecConcat(s, RollbackSteps(u, i, 1, true) + pod, DeleteSteps(u, i, true));
    es := RollbackSteps(u, i, 1, true) + pod + DeleteSteps(u, i, true);
  }

  /** With a report of `deleted` under way that nobody waits for, the deployment can be brought back
      to pending and on to deleting, with its pod there again. */
  lemma ComesBack(s: Sys, i: nat) returns (es: seq<Step>)
    requires Inv(s) && s.op.rec.Between? && i < |s.deps|
    ensures var s' := Exec(s, es);
            && |s'.deps| == |s.deps| && RowKey(s'.deps[i]) == RowKey(s.deps[i]) && s'.deps[i].status == Deleting
            && s'.reports == s.reports && RowKey(s.deps[i]) in s'.op.pods
    ensures Faultless(es)
  {
    var n := |s.op.rec.todo|;
    SkipsRun(s, s.op.rec.todo, n);
    var idle := s.(op := s.op.(rec := Between([])));
    assert s.op.rec.todo[n..] == [];
    var u := FreshUser(s.users);
    assert RowOk(s.deps[i]);
    var cycle := Cycle(idle, u, i);
    ExecConcat(s, Skips(n), cycle);
    es := Skips(n) + cycle;
  }

  lemma FreshUser(users: map<nat, UserHandler>) returns (u: nat)
    ensures u !in users
  {
    u := Above(users.Keys);
  }

  lemma {:induction false} Above(s: set<nat>) returns (n: nat)
    ensures forall x :: x in s ==> x < n
    decreases |s|
  {
    if s == {} {
      n := 0;
    } else {
      var x :| x in s;
      var m := Above(s - {x});
      n := if m > x then m else x + 1;
      assert forall y :: y in s ==> y == x || y in s - {x};
    }
  }

  lemma ReportPasses(s: Sys, h: nat, i: nat)
    requires h in s.reports && Deletes(s.reports[h]) && s.reports[h].dep == i < |s.deps| && s.deps[i].status == Deleting
    ensures var s1 := ApplyStatusRead(s, h);
            && s1.deps == s.deps && s1.op == s.op && h in s1.reports
            && s1.reports[h].Writing? && s1.reports[h].report == s.reports[h].report && s1.reports[h].dep == i
  {
  }

  lemma WriteLands(s: Sys, h: nat, i: nat)
    requires h in s.reports && s.reports[h].Writing? && s.reports[h].report.status == Deleted && s.reports[h].dep == i < |s.deps|
    ensures var s' := Apply(s, StatusWrite(h, true));
            |s'.deps| == |s.deps| && s'.deps[i].status == Deleted && RowKey(s'.deps[i]) == RowKey(s.deps[i]) && s'.op == s.op
  {
  }

  /** And then the report lands. */
  lemma ReportLands(s: Sys, h: nat, i: nat)
    requires h in s.reports && Deletes(s.reports[h]) && s.reports[h].dep == i < |s.deps| && s.deps[i].status == Deleting
    ensures var s' := Exec(s, [StatusRead(h)] + [StatusWrite(h, true)]);
            |s'.deps| == |s.deps| && s'.deps[i].status == Deleted && RowKey(s'.deps[i]) == RowKey(s.deps[i]) && s'.op == s.op
  {
    var s1 := ApplyStatusRead(s, h);
    ReportPasses(s, h, i);
    WriteLands(s1, h, i);
    ExecOne(s, StatusRead(h));
    ExecOne(s1, StatusWrite(h, true));
    ExecConcat(s, [StatusRead(h)], [StatusWrite(h, true)]);
  }

  /** The pod comes back and the report of its deletion lands. */
  lemma ReportOverridesPod(s: Sys, h: nat, i: nat) returns (es: seq<Step>)
    requires Inv(s) && s.op.rec.Between? && h in s.reports && Deletes(s.reports[h]) && s.reports[h].dep == i < |s.deps|
    ensures Faultless(es) && !DeletedIsGone(Exec(s, es).deps, Exec(s, es).op)
  {
    var back := ComesBack(s, i);
    ReportLands(Exec(s, back), h, i);
    es := back + ([StatusRead(h)] + [StatusWrite(h, true)]);
    ExecConcat(s, back, [StatusRead(h)] + [StatusWrite(h, true)]);
    assert !Gone(Exec(s, es).op, RowKey(Exec(s, es).deps[i]));
  }

  /** Giving up on a report of `deleted` that is under way, with the cancellation not arriving, always
      opens a run without any further fault after which the deployment reads deleted while its pod
      exists. */
  lemma {:induction false} GivingUpOrphans(s: Sys) returns (es: seq<Step>)
    requires Safe(s) && !Patient(s, Detach(false))
    ensures Faultless(es) && OrderlyRun(Apply(s, Detach(false)), es)
    ensures !DeletedIsGone(Exec(Apply(s, Detach(false)), es).deps, Exec(Apply(s, Detach(false)), es).op)
  {
    var h := s.op.rec.handler;
    assert HandlerOk(s.deps, s.reports[h]);
    var i := s.reports[h].dep;
    InvStep(s, Detach(false));
    var left := s.(op := s.op.(rec := Between(s.op.rec.todo)));
    assert Apply(s, Detach(false)) == left;
    es := ReportOverridesPod(left, h, i);
    FaultlessIsOrderly(left, es);
  }

  /** So giving up is safe exactly when the cancellation arrives, or the report is another one, or it
      is no longer under way: then, and only then, no patient continuation leaves a deleted deployment
      with objects. */
  lemma PatienceIsExact(s: Sys, arrives: bool)
    requires Safe(s)
    ensures Patient(s, Detach(arrives)) <==>
            forall es :: OrderlyRun(Apply(s, Detach(arrives)), es) ==>
              DeletedIsGone(Exec(Apply(s, Detach(arrives)), es).deps, Exec(Apply(s, Detach(arrives)), es).op)
  {
    if Patient(s, Detach(arrives)) {
      SafeStep(s, Detach(arrives));
      forall es | OrderlyRun(Apply(s, Detach(arrives)), es)
        ensures DeletedIsGone(Exec(Apply(s, Detach(arrives)), es).deps, Exec(Apply(s, Detach(arrives)), es).op)
      {
        DeleteSafety(Apply(s, Detach(arrives)), es);
      }
    } else {
      var es := GivingUpOrphans(s);
    }
  }

  predicate Orphaned(s: Sys) { !DeletedIsGone(s.deps, s.op) }

  /** Such a state is reached, so some run with one cancellation that does not arrive, and no other
      fault, ends with a deployment that reads deleted while its pod exists. */
  lemma LateReportOrphansObjects()
    ensures exists before, after ::
              Faultless(before) && Faultless(after) && Orphaned(Exec(Init(), before + [Detach(false)] + after))
  {
    Checked();
    var s := Exec(Init(), TO_CHECKED);
    assert Faultless(TO_CHECKED);
    FaultlessIsOrderly(Init(), TO_CHECKED);
    InitSafe();
    DeleteSafety(Init(), TO_CHECKED);
    var rest := GivingUpOrphans(s);
    ExecOne(s, Detach(false));
    ExecConcat(Init(), TO_CHECKED, [Detach(false)]);
    ExecConcat(Init(), TO_CHECKED + [Detach(false)], rest);
    assert Orphaned(Exec(Init(), TO_CHECKED + [Detach(false)] + rest));
  }
}
