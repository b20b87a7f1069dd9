/** What one actor's calls add up to when nothing interferes: the building blocks of concrete runs. */
module JobScripts {
  import opened Prelude
  import opened Quota
  import opened Jobs
  import opened JobProtocol

  /** handleSubmitJob on its own. */
  lemma Submits(s: Sys, sub: nat, tenant: string, res: JobResources, id: string, project: string)
    returns (t: Sys, es: seq<Step>)
    requires sub !in s.subs && tenant in s.quotas && Admit(res)
    requires Accepts(s.quotas[tenant], ResourcesOf(s.db, tenant, true), res)
    requires forall i :: 0 <= i < |s.db| ==> s.db[i].id != id
    ensures es == [SubmitCheck(sub, tenant, res), SubmitInsert(sub, id, project)] && t == Exec(s, es)
    ensures t == s.(db := Inserted(s.db, id, tenant, project, res, s.retryDefault))
  {
    es := [SubmitCheck(sub, tenant, res), SubmitInsert(sub, id, project)];
    var s1 := Apply(s, es[0]);
    t := Apply(s1, es[1]);
    assert s.subs[sub := Submission(tenant, res)] - {sub} == s.subs;
    assert es[1..] == [es[1]];
    assert Exec(s1, [es[1]]) == Exec(t, []);
  }

  /** promoteOldestPending up to the committed transition. */
  lemma Promotes(s: Sys, tenant: string, job: nat) returns (t: Sys, es: seq<Step>)
    requires s.disp == Ready([]) && OldestPending(s.db, tenant) == Some(job) && tenant in s.quotas
    requires Accepts(s.quotas[tenant], ResourcesOf(s.db, tenant, false), s.db[job].res)
    ensures es == [DispPick(tenant), DispCheck, DispCommit(true)] && t == Exec(s, es)
    ensures t == s.(db := s.db[job := TransitionRow(s.db[job], QUEUED, None, 0)],
                    disp := Submitting(job, []), log := s.log + [Commit(job, PENDING, QUEUED)])
  {
    es := [DispPick(tenant), DispCheck, DispCommit(true)];
    Exec3(s, es[0], es[1], es[2]);
    var s1 := Apply(s, es[0]);
    assert s1 == s.(disp := Picked(job));
    var s2 := Apply(s1, es[1]);
    assert s2 == s.(disp := Cleared(job));
    t := Apply(s2, es[2]);
  }

  /** submitRayJob with both calls succeeding. */
  lemma Launches(s: Sys, job: nat, todo: seq<nat>) returns (t: Sys, es: seq<Step>)
    requires s.disp == Submitting(job, todo) && job < |s.db|
    ensures es == [DispCreate(Reached), DispName(true)] && t == Exec(s, es)
    ensures var name := RayJobName(s.db[job].id);
            t == s.(rayJobs := if name in s.rayJobs then s.rayJobs
                               else s.rayJobs[name := RayJob(s.db[job].id, s.db[job].tenant)],
                    db := WithRayJobName(s.db, job, name), disp := Ready(todo))
  {
    es := [DispCreate(Reached), DispName(true)];
    var s1 := Apply(s, es[0]);
    t := Apply(s1, es[1]);
    assert es[1..] == [es[1]];
    assert Exec(s1, [es[1]]) == Exec(t, []);
  }

  /** An operator report without an MLflow id, up to and including the SetMLflowRunID branch. */
  lemma Reports(s: Sys, h: nat, job: nat, rayStatus: string, now: nat) returns (t: Sys, es: seq<Step>)
    requires h !in s.handlers && job < |s.db|
    requires MapRayJobStatus(rayStatus).Some? && ValidTransition(s.db[job].status, MapRayJobStatus(rayStatus).value)
    ensures es == [Receive(h, job, rayStatus, None, ""), Decide(h, now, true), Record(h, true)] && t == Exec(s, es)
    ensures var to := MapRayJobStatus(rayStatus).value;
            t == s.(db := s.db[job := TransitionRow(s.db[job], to, None, now)],
                    log := s.log + [Commit(job, s.db[job].status, to)],
                    handlers := if to == FAILED then s.handlers[h := Counting(job, s.db[job].maxRetries)] else s.handlers)
  {
    es := [Receive(h, job, rayStatus, None, ""), Decide(h, now, true), Record(h, true)];
    Exec3(s, es[0], es[1], es[2]);
    var to := MapRayJobStatus(rayStatus).value;
    var from, m := s.db[job].status, s.db[job].maxRetries;
    var s1 := Apply(s, es[0]);
    assert s1 == s.(handlers := s.handlers[h := Deciding(job, from, m, Report(to, None, None))]);
    var s2 := Apply(s1, es[1]);
    assert s1.handlers[h := Recording(job, m, Report(to, None, None))]
        == s.handlers[h := Recording(job, m, Report(to, None, None))];
    assert s2 == s.(db := s.db[job := TransitionRow(s.db[job], to, None, now)], log := s.log + [Commit(job, from, to)],
                    handlers := s.handlers[h := Recording(job, m, Report(to, None, None))]);
    t := Apply(s2, es[2]);
    assert to == FAILED ==> s2.handlers[h := Counting(job, m)] == s.handlers[h := Counting(job, m)];
    assert s2.handlers - {h} == s.handlers;
  }

  function Requeued(j: Job, now: nat): Job {
    TransitionRow(j.(retryCount := j.retryCount + 1, runs := j.runs + [FreshRun(QUEUED)]), QUEUED, None, now)
  }

  /** The retry sequence after a FAILED report, with every call succeeding. */
  lemma Requeues(s: Sys, h: nat, job: nat, now: nat) returns (t: Sys, es: seq<Step>)
    requires job < |s.db| && h in s.handlers && s.handlers[h] == Counting(job, s.db[job].maxRetries)
    requires s.db[job].status == FAILED && s.db[job].retryCount < s.db[job].maxRetries
    ensures es == [Count(h, true), Recreate(h, true), Requeue(h, now, true)] && t == Exec(s, es)
    ensures t == s.(db := s.db[job := Requeued(s.db[job], now)],
                    log := s.log + [Commit(job, FAILED, QUEUED)], handlers := s.handlers - {h})
  {
    es := [Count(h, true), Recreate(h, true), Requeue(h, now, true)];
    Exec3(s, es[0], es[1], es[2]);
    var j := s.db[job];
    var j1 := j.(retryCount := j.retryCount + 1);
    var s1 := Apply(s, es[0]);
    assert s1 == s.(db := s.db[job := j1], handlers := s.handlers[h := Recreating(job)]);
    var j2 := j1.(runs := j.runs + [FreshRun(QUEUED)]);
    var s2 := Apply(s1, es[1]);
    assert s1.db[job := j2] == s.db[job := j2];
    assert s1.handlers[h := Requeuing(job)] == s.handlers[h := Requeuing(job)];
    assert s2 == s.(db := s.db[job := j2], handlers := s.handlers[h := Requeuing(job)]);
    t := Apply(s2, es[2]);
    assert s2.db[job := Requeued(j, now)] == s.db[job := Requeued(j, now)];
    assert s2.handlers - {h} == s.handlers - {h};
  }
}
