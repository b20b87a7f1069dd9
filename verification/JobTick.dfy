/** The dispatcher's tick as a pattern of calls, and how long a job can wait for one. The calls of a
    tick are interleaved with everybody else's: a submission, a report or a retry may land between
    any two of them. */
module JobTick {
  import opened Prelude
  import opened Quota
  import opened Jobs
  import opened JobProtocol
  import opened JobHistory
  import opened JobDispatch
  import opened JobQuota
  import opened JobWait

  // ---------------------------------------------------------------- the calls of a tick

  /** The outcome of the two calls of submitRayJob. */
  datatype LaunchFaults = LaunchFaults(create: Outcome, name: bool)

  /** The outcome of the calls of promoteOldestPending. */
  datatype PromoteFaults = PromoteFaults(readsOk: bool, commit: bool, launch: LaunchFaults)

  const NO_LAUNCH_FAULT := LaunchFaults(Reached, true)
  const NO_PROMOTE_FAULT := PromoteFaults(true, true, NO_LAUNCH_FAULT)

  function LaunchSteps(f: LaunchFaults): seq<Step> { [DispCreate(f.create), DispName(f.name)] }

  /** The steps for the first `n` entries of the retry list. */
  function RetrySteps(n: nat, faults: nat -> LaunchFaults): seq<Step> {
    if n == 0 then [] else RetrySteps(n - 1, faults) + ([DispTake] + LaunchSteps(faults(n - 1)))
  }

  /** promoteOldestPending; if a read fails it gives up after the first one. */
  function PromotionSteps(tenant: string, f: PromoteFaults): seq<Step> {
    if !f.readsOk then [DispPick(tenant), DispCrash]
    else [DispPick(tenant), DispCheck, DispCommit(f.commit)] + LaunchSteps(f.launch)
  }

  function PromotionsSteps(tenants: seq<string>, faults: string -> PromoteFaults): seq<Step> {
    if tenants == [] then []
    else PromotionsSteps(tenants[..|tenants| - 1], faults)
         + PromotionSteps(tenants[|tenants| - 1], faults(tenants[|tenants| - 1]))
  }

  /** One tick: the retry list of length `n`, then the tenants. */
  function TickSteps(n: nat, launch: nat -> LaunchFaults, tenants: seq<string>, promote: string -> PromoteFaults): seq<Step> {
    [DispList] + RetrySteps(n, launch) + PromotionsSteps(tenants, promote)
  }

  // ---------------------------------------------------------------- interleaving

  /** What the dispatcher does in a run. */
  function DispatcherPart(es: seq<Step>): seq<Step> {
    if es == [] then []
    else (if DispStep(es[0]) then [es[0]] else []) + DispatcherPart(es[1..])
  }

  /** A run in which the dispatcher's calls are `p` and then `q` divides accordingly. */
  lemma {:induction false} Divides(es: seq<Step>, p: seq<Step>, q: seq<Step>) returns (a: seq<Step>, b: seq<Step>)
    requires DispatcherPart(es) == p + q
    ensures es == a + b && DispatcherPart(a) == p && DispatcherPart(b) == q
    decreases |es|
  {
    if p == [] {
      a, b := [], es;
      assert p + q == q;
    } else if DispStep(es[0]) {
      assert (p + q)[0] == p[0] && (p + q)[1..] == p[1..] + q;
      a, b := Divides(es[1..], p[1..], q);
      assert ([es[0]] + a)[1..] == a;
      a := [es[0]] + a;
    } else {
      a, b := Divides(es[1..], p, q);
      assert ([es[0]] + a)[1..] == a;
      a := [es[0]] + a;
    }
  }

  lemma {:induction false} SerialisedParts(s: Sys, a: seq<Step>, b: seq<Step>)
    requires SerialisedRun(s, a + b)
    ensures SerialisedRun(s, a) && SerialisedRun(Exec(s, a), b)
    decreases |a|
  {
    if a == [] {
      assert a + b == b;
    } else {
      assert (a + b)[0] == a[0] && (a + b)[1..] == a[1..] + b;
      SerialisedParts(Apply(s, a[0]), a[1..], b);
    }
  }

  /** The first part of a run. */
  lemma RunsTo(s: Sys, a: seq<Step>, b: seq<Step>)
    requires Sound(s) && SerialisedRun(s, a + b)
    ensures var u := Exec(s, a);
            Sound(u) && Evolves(s.db, u.db) && SerialisedRun(u, b) && Exec(s, a + b) == Exec(u, b)
  {
    SerialisedParts(s, a, b);
    AdmitInvHolds(s, a);
    ExecConcat(s, a, b);
  }

  lemma DividedRun(s: Sys, es: seq<Step>, p: seq<Step>, q: seq<Step>) returns (a: seq<Step>, b: seq<Step>)
    requires Sound(s) && SerialisedRun(s, es) && DispatcherPart(es) == p + q
    ensures DispatcherPart(a) == p && DispatcherPart(b) == q && SerialisedRun(s, a) && SerialisedRun(Exec(s, a), b)
    ensures Sound(Exec(s, a)) && Evolves(s.db, Exec(s, a).db) && Exec(s, es) == Exec(Exec(s, a), b)
  {
    a, b := Divides(es, p, q);
    RunsTo(s, a, b);
    SerialisedParts(s, a, b);
  }

  lemma OneCall(s: Sys, e: Step, b: seq<Step>)
    requires Sound(s) && SerialisedRun(s, [e] + b)
    ensures Sound(Apply(s, e)) && Evolves(s.db, Apply(s, e).db)
    ensures SerialisedRun(Apply(s, e), b) && Exec(s, [e] + b) == Exec(Apply(s, e), b)
  {
    assert ([e] + b)[1..] == b;
    JobsInvStep(s, e);
    DispInvStep(s, e);
    AdmitInvStep(s, e);
    StepEvolves(s, e);
  }

  /** Everybody else leaves the dispatcher where it is. */
  lemma {:induction false} OthersRun(s: Sys, es: seq<Step>)
    requires DispatcherPart(es) == []
    ensures Exec(s, es).disp == s.disp
    decreases |es|
  {
    if es != [] {
      OthersLeaveDispatcher(s, es[0]);
      OthersRun(Apply(s, es[0]), es[1..]);
    }
  }

  /** A run up to the next call of the dispatcher: `u` is the state in which it is made. */
  lemma NextCall(s: Sys, es: seq<Step>, d: Step, rest: seq<Step>) returns (u: Sys, b: seq<Step>)
    requires Sound(s) && SerialisedRun(s, es) && DispatcherPart(es) == [d] + rest
    ensures u.disp == s.disp && Sound(u) && Evolves(s.db, u.db)
    ensures Sound(Apply(u, d)) && Evolves(u.db, Apply(u, d).db)
    ensures SerialisedRun(Apply(u, d), b) && DispatcherPart(b) == rest && Exec(s, es) == Exec(Apply(u, d), b)
  {
    assert [] + ([d] + rest) == [d] + rest;
    var a, c := FirstCall(es, d, rest);
    OthersRun(s, a);
    RunsTo(s, a, c);
    u, b := Exec(s, a), c[1..];
    assert c == [d] + b;
    OneCall(u, d, b);
  }

  lemma {:induction false} FirstCall(es: seq<Step>, d: Step, rest: seq<Step>) returns (a: seq<Step>, c: seq<Step>)
    requires DispatcherPart(es) == [d] + rest
    ensures es == a + c && DispatcherPart(a) == [] && c != [] && c[0] == d && DispatcherPart(c[1..]) == rest
    decreases |es|
  {
    if DispStep(es[0]) {
      a, c := [], es;
      assert ([es[0]] + DispatcherPart(es[1..]))[1..] == DispatcherPart(es[1..]);
      assert ([d] + rest)[1..] == rest && ([d] + rest)[0] == d;
    } else {
      a, c := FirstCall(es[1..], d, rest);
      assert ([es[0]] + a)[1..] == a;
      a := [es[0]] + a;
    }
  }

  // ---------------------------------------------------------------- one promotion attempt

  /** Calls that do nothing while the dispatcher has no job in hand. */
  predicate NeedsJob(e: Step) { e.DispCheck? || e.DispCommit? || e.DispCreate? || e.DispName? }

  predicate AllNeedJob(es: seq<Step>) { forall k :: 0 <= k < |es| ==> NeedsJob(es[k]) }

  lemma IdleCall(s: Sys, e: Step)
    requires s.disp.Ready? && NeedsJob(e)
    ensures Apply(s, e).disp == s.disp
  {
  }

  lemma AllStillNeedJob(es: seq<Step>)
    requires es != [] && AllNeedJob(DispatcherPart(es))
    ensures DispStep(es[0]) ==> NeedsJob(es[0])
    ensures AllNeedJob(DispatcherPart(es[1..]))
  {
    var d, r := DispatcherPart(es), DispatcherPart(es[1..]);
    if DispStep(es[0]) {
      assert d[0] == es[0];
      forall k | 0 <= k < |r| ensures NeedsJob(r[k]) {
        assert d[k + 1] == r[k];
      }
    } else {
      assert d == r;
    }
  }

  lemma {:induction false} IdleRuns(s: Sys, es: seq<Step>)
    requires s.disp.Ready? && AllNeedJob(DispatcherPart(es))
    ensures Exec(s, es).disp == s.disp
    decreases |es|
  {
    if es != [] {
      AllStillNeedJob(es);
      if DispStep(es[0]) {
        IdleCall(s, es[0]);
      } else {
        OthersLeaveDispatcher(s, es[0]);
      }
      IdleRuns(Apply(s, es[0]), es[1..]);
    }
  }

  lemma NameEnds(u: Sys, ok: bool)
    requires u.disp.Naming?
    ensures Apply(u, DispName(ok)).disp == Ready(u.disp.todo)
  {
  }

  lemma CreateEnds(u: Sys, outcome: Outcome)
    requires u.disp.Submitting? && u.disp.job < |u.db|
    ensures var d := Apply(u, DispCreate(outcome)).disp;
            if outcome == Reached then d.Naming? && d.todo == u.disp.todo else d == Ready(u.disp.todo)
  {
  }

  lemma CommitEnds(u: Sys, job: nat, ok: bool)
    requires u.disp == Cleared(job) && job < |u.db| && u.db[job].status == PENDING
    ensures var t := Apply(u, DispCommit(ok));
            if ok then t.disp == Submitting(job, []) && job < |t.db| && t.db[job].status == QUEUED else t.disp == Ready([])
  {
  }

  lemma CheckEnds(u: Sys, job: nat)
    requires Sound(u) && u.disp == Picked(job)
    ensures Apply(u, DispCheck).disp == Cleared(job)
  {
    NeverRefused(u, job);
  }

  lemma NameRuns(s: Sys, es: seq<Step>, todo: seq<nat>, ok: bool)
    requires Sound(s) && SerialisedRun(s, es) && DispatcherPart(es) == [DispName(ok)]
    requires s.disp.Naming? && s.disp.todo == todo
    ensures Exec(s, es).disp == Ready(todo)
  {
    assert [DispName(ok)] + [] == [DispName(ok)];
    var u, b := NextCall(s, es, DispName(ok), []);
    NameEnds(u, ok);
    OthersRun(Apply(u, DispName(ok)), b);
  }

  /** submitRayJob, whichever of its calls fail, gives the dispatcher back its list. */
  lemma LaunchRuns(s: Sys, es: seq<Step>, job: nat, todo: seq<nat>, f: LaunchFaults)
    requires Sound(s) && SerialisedRun(s, es) && DispatcherPart(es) == LaunchSteps(f) && s.disp == Submitting(job, todo)
    ensures Exec(s, es).disp == Ready(todo)
  {
    assert LaunchSteps(f) == [DispCreate(f.create)] + [DispName(f.name)];
    var u, b := NextCall(s, es, DispCreate(f.create), [DispName(f.name)]);
    var t := Apply(u, DispCreate(f.create));
    CreateEnds(u, f.create);
    if f.create == Reached {
      NameRuns(t, b, todo, f.name);
    } else {
      IdleRuns(t, b);
    }
  }

  /** The commit of the picked job, which is still PENDING. */
  lemma CommitRuns(s: Sys, es: seq<Step>, job: nat, f: PromoteFaults)
    requires Sound(s) && SerialisedRun(s, es) && s.disp == Cleared(job)
    requires DispatcherPart(es) == [DispCommit(f.commit)] + LaunchSteps(f.launch)
    ensures var t := Exec(s, es); t.disp == Ready([]) && (f.commit ==> job < |t.db| && t.db[job].status != PENDING)
  {
    var u, b := NextCall(s, es, DispCommit(f.commit), LaunchSteps(f.launch));
    var t := Apply(u, DispCommit(f.commit));
    CommitEnds(u, job, f.commit);
    if f.commit {
      LaunchRuns(t, b, job, [], f.launch);
      AdmitInvHolds(t, b);
      assert RowEvolves(t.db[job], Exec(t, b).db[job]);
    } else {
      IdleRuns(t, b);
    }
  }

  /** The quota check of the picked job, which accepts it. */
  lemma CheckRuns(s: Sys, es: seq<Step>, job: nat, f: PromoteFaults)
    requires Sound(s) && SerialisedRun(s, es) && s.disp == Picked(job)
    requires DispatcherPart(es) == [DispCheck] + ([DispCommit(f.commit)] + LaunchSteps(f.launch))
    ensures var t := Exec(s, es); t.disp == Ready([]) && (f.commit ==> job < |t.db| && t.db[job].status != PENDING)
  {
    var u, b := NextCall(s, es, DispCheck, [DispCommit(f.commit)] + LaunchSteps(f.launch));
    CheckEnds(u, job);
    CommitRuns(Apply(u, DispCheck), b, job, f);
  }

  lemma {:induction false} WaitingDrops(a: Table, b: Table, tenant: string, job: nat, n: nat)
    requires Evolves(a, b) && job < n <= |a| && a[job].tenant == tenant && a[job].status == PENDING
    requires b[job].status != PENDING
    ensures Waiting(b, tenant, n) <= Waiting(a, tenant, n) - 1
    decreases n
  {
    assert RowEvolves(a[n - 1], b[n - 1]);
    if job == n - 1 {
      WaitingNeverGrows(a, b, tenant, n - 1);
    } else {
      WaitingDrops(a, b, tenant, job, n - 1);
    }
  }

  function Less(n: nat): nat { if n == 0 then 0 else n - 1 }

  /** A promotion attempt for the tenant, with anything in between its calls and whichever of them
      fail, leaves the dispatcher ready for the next; and if its reads and its commit succeed it takes
      a job off the front of the tenant's queue. */
  lemma AttemptRuns(s: Sys, es: seq<Step>, tenant: string, f: PromoteFaults, n: nat)
    requires Sound(s) && SerialisedRun(s, es) && DispatcherPart(es) == PromotionSteps(tenant, f) && s.disp == Ready([])
    requires n <= |s.db|
    ensures var t := Exec(s, es);
            && t.disp == Ready([]) && n <= |t.db|
            && (f.readsOk && f.commit ==> Waiting(t.db, tenant, n) <= Less(Waiting(s.db, tenant, n)))
  {
    AdmitInvHolds(s, es);
    WaitingNeverGrows(s.db, Exec(s, es).db, tenant, n);
    if !f.readsOk {
      FailedAttemptRuns(s, es, tenant, f);
    } else {
      var rest := [DispCheck] + ([DispCommit(f.commit)] + LaunchSteps(f.launch));
      assert PromotionSteps(tenant, f) == [DispPick(tenant)] + rest;
      var u, b := NextCall(s, es, DispPick(tenant), rest);
      PickRuns(u, b, tenant, f, n);
      WaitingNeverGrows(s.db, u.db, tenant, n);
    }
  }

  lemma CrashEnds(u: Sys)
    ensures Apply(u, DispCrash).disp == Ready([])
  {
  }

  lemma CrashRuns(s: Sys, es: seq<Step>)
    requires Sound(s) && SerialisedRun(s, es) && DispatcherPart(es) == [DispCrash]
    ensures Exec(s, es).disp == Ready([])
  {
    assert [DispCrash] + [] == [DispCrash];
    var u, b := NextCall(s, es, DispCrash, []);
    CrashEnds(u);
    OthersRun(Apply(u, DispCrash), b);
  }

  lemma FailedAttemptRuns(s: Sys, es: seq<Step>, tenant: string, f: PromoteFaults)
    requires Sound(s) && SerialisedRun(s, es) && DispatcherPart(es) == PromotionSteps(tenant, f) && s.disp == Ready([])
    requires !f.readsOk
    ensures Exec(s, es).disp == Ready([])
  {
    assert PromotionSteps(tenant, f) == [DispPick(tenant)] + [DispCrash];
    var u, b := NextCall(s, es, DispPick(tenant), [DispCrash]);
    CrashRuns(Apply(u, DispPick(tenant)), b);
  }

  /** From the pick on. */
  lemma PickRuns(u: Sys, b: seq<Step>, tenant: string, f: PromoteFaults, n: nat)
    requires Sound(u) && u.disp == Ready([]) && n <= |u.db|
    requires Sound(Apply(u, DispPick(tenant))) && SerialisedRun(Apply(u, DispPick(tenant)), b)
    requires DispatcherPart(b) == [DispCheck] + ([DispCommit(f.commit)] + LaunchSteps(f.launch))
    ensures var t := Exec(Apply(u, DispPick(tenant)), b);
            && t.disp == Ready([]) && n <= |t.db|
            && (f.commit ==> Waiting(t.db, tenant, n) <= Less(Waiting(u.db, tenant, n)))
  {
    var v := Apply(u, DispPick(tenant));
    AdmitInvHolds(v, b);
    NoneWaiting(u.db, tenant, n);
    match OldestPending(u.db, tenant)
    case None =>
      IdleRuns(u, b);
      WaitingNeverGrows(u.db, Exec(v, b).db, tenant, n);
    case Some(job) =>
      CheckRuns(v, b, job, f);
      WaitingNeverGrows(u.db, Exec(v, b).db, tenant, n);
      if f.commit && job < n {
        WaitingDrops(u.db, Exec(v, b).db, tenant, job, n);
      }
  }

  // ---------------------------------------------------------------- the two halves of a tick

  lemma TakeRuns(s: Sys, es: seq<Step>, todo: seq<nat>, f: LaunchFaults)
    requires Sound(s) && SerialisedRun(s, es) && DispatcherPart(es) == [DispTake] + LaunchSteps(f)
    requires s.disp == Ready(todo) && todo != []
    ensures Exec(s, es).disp == Ready(todo[1..])
  {
    var u, b := NextCall(s, es, DispTake, LaunchSteps(f));
    assert Apply(u, DispTake) == u.(disp := Submitting(todo[0], todo[1..]));
    LaunchRuns(Apply(u, DispTake), b, todo[0], todo[1..], f);
  }

  /** The retry list is worked off, whichever calls fail. */
  lemma {:induction false} RetryRuns(s: Sys, es: seq<Step>, todo: seq<nat>, n: nat, launch: nat -> LaunchFaults)
    requires Sound(s) && SerialisedRun(s, es) && DispatcherPart(es) == RetrySteps(n, launch)
    requires s.disp == Ready(todo) && n <= |todo|
    ensures Exec(s, es).disp == Ready(todo[n..])
    decreases n
  {
    if n == 0 {
      OthersRun(s, es);
      assert todo[0..] == todo;
    } else {
      var a, b := DividedRun(s, es, RetrySteps(n - 1, launch), [DispTake] + LaunchSteps(launch(n - 1)));
      RetryRuns(s, a, todo, n - 1, launch);
      TakeRuns(Exec(s, a), b, todo[n - 1..], launch(n - 1));
      assert todo[n - 1..][1..] == todo[n..];
    }
  }

  /** A piece of a run at whose end the dispatcher is ready, and in which, if `counts`, the queue of
      the tenant lost a job. */
  ghost predicate Shortens(s: Sys, t: Sys, tenant: string, n: nat, counts: bool) {
    && t.disp == Ready([])
    && n <= |s.db| && n <= |t.db|
    && Waiting(t.db, tenant, n) <= Waiting(s.db, tenant, n)
    && (counts ==> Waiting(t.db, tenant, n) <= Less(Waiting(s.db, tenant, n)))
  }

  /** An attempt for `other` never lengthens the queue of `tenant`. */
  lemma AttemptCounts(s: Sys, es: seq<Step>, other: string, f: PromoteFaults, tenant: string, n: nat)
    requires Sound(s) && SerialisedRun(s, es) && DispatcherPart(es) == PromotionSteps(other, f) && s.disp == Ready([])
    requires n <= |s.db|
    ensures Shortens(s, Exec(s, es), tenant, n, tenant == other && f.readsOk && f.commit)
  {
    AttemptRuns(s, es, other, f, n);
    AdmitInvHolds(s, es);
    WaitingNeverGrows(s.db, Exec(s, es).db, tenant, n);
  }

  lemma ShortensTwice(s: Sys, u: Sys, t: Sys, tenant: string, n: nat, first: bool, second: bool)
    requires Shortens(s, u, tenant, n, first) && Shortens(u, t, tenant, n, second)
    ensures Shortens(s, t, tenant, n, first || second)
  {
  }

  /** The attempts for all tenants, whichever calls fail; that of `tenant` counts. */
  lemma {:induction false} PromotionsRun(s: Sys, es: seq<Step>, tenants: seq<string>, promote: string -> PromoteFaults,
                                         tenant: string, n: nat)
    requires Sound(s) && SerialisedRun(s, es) && DispatcherPart(es) == PromotionsSteps(tenants, promote)
    requires s.disp == Ready([]) && n <= |s.db|
    ensures Shortens(s, Exec(s, es), tenant, n, tenant in tenants && promote(tenant).readsOk && promote(tenant).commit)
    decreases |tenants|
  {
    if tenants == [] {
      OthersRun(s, es);
      AdmitInvHolds(s, es);
      WaitingNeverGrows(s.db, Exec(s, es).db, tenant, n);
    } else {
      var last := tenants[|tenants| - 1];
      var rest := tenants[..|tenants| - 1];
      assert tenants == rest + [last];
      var a, b := DividedRun(s, es, PromotionsSteps(rest, promote), PromotionSteps(last, promote(last)));
      PromotionsRun(s, a, rest, promote, tenant, n);
      var u := Exec(s, a);
      AttemptCounts(u, b, last, promote(last), tenant, n);
      var ok := promote(tenant).readsOk && promote(tenant).commit;
      ShortensTwice(s, u, Exec(u, b), tenant, n, tenant in rest && ok, tenant == last && ok);
    }
  }

  // ---------------------------------------------------------------- ticks

  /** Part of a run that ends with a tick. `gap` is anything at all (failing ticks and crashes of the
      dispatcher included) up to the tick's first call; `mid` holds the calls for its retry list, of
      length `n`, and `post` those for the `tenants` that it found waiting, each together with what
      everybody else does meanwhile. */
  datatype Tick = Tick(gap: seq<Step>, mid: seq<Step>, post: seq<Step>,
                       n: nat, launch: nat -> LaunchFaults, tenants: seq<string>, promote: string -> PromoteFaults)

  function StepsOf(k: Tick): seq<Step> { k.gap + ([DispList] + (k.mid + k.post)) }

  function AllSteps(ticks: seq<Tick>): seq<Step> {
    if ticks == [] then [] else StepsOf(ticks[0]) + AllSteps(ticks[1..])
  }

  /** The tenants found have every one with a PENDING job. */
  predicate ListsWaiting(db: Table, tenants: seq<string>) {
    forall i :: 0 <= i < |db| && db[i].status == PENDING ==> db[i].tenant in tenants
  }

  /** The dispatcher's calls follow the pattern of a tick, with the lists it read, and the reads and
      the commit for `tenant` succeed. Any other call may fail. */
  predicate TickOk(s: Sys, k: Tick, tenant: string) {
    var u := Exec(s, k.gap);
    var v := Exec(Apply(u, DispList), k.mid);
    && u.disp == Ready([])
    && k.n == |UnsubmittedFrom(u.db, 0)| && DispatcherPart(k.mid) == RetrySteps(k.n, k.launch)
    && ListsWaiting(v.db, k.tenants) && DispatcherPart(k.post) == PromotionsSteps(k.tenants, k.promote)
    && k.promote(tenant).readsOk && k.promote(tenant).commit
  }

  predicate TicksOk(s: Sys, ticks: seq<Tick>, tenant: string)
    decreases |ticks|
  {
    ticks == [] || (TickOk(s, ticks[0], tenant) && TicksOk(Exec(s, StepsOf(ticks[0])), ticks[1..], tenant))
  }

  lemma ListEnds(u: Sys)
    requires u.disp == Ready([])
    ensures Apply(u, DispList).disp == Ready(UnsubmittedFrom(u.db, 0)) && Apply(u, DispList).db == u.db
  {
  }

  /** Up to the tick's first call. */
  lemma ListRuns(s: Sys, k: Tick, tenant: string)
    requires Sound(s) && SerialisedRun(s, StepsOf(k)) && TickOk(s, k, tenant)
    ensures var u := Exec(s, k.gap); var w := Apply(u, DispList);
            && Sound(w) && w.disp == Ready(UnsubmittedFrom(u.db, 0)) && w.db == u.db && Evolves(s.db, u.db)
            && SerialisedRun(w, k.mid + k.post) && Exec(s, StepsOf(k)) == Exec(w, k.mid + k.post)
  {
    RunsTo(s, k.gap, [DispList] + (k.mid + k.post));
    OneCall(Exec(s, k.gap), DispList, k.mid + k.post);
    ListEnds(Exec(s, k.gap));
  }

  /** A tick ends with the dispatcher ready for the next, and with one waiting job of the tenant less
      among the first `n`, if there was one. */
  lemma TickReduces(s: Sys, k: Tick, tenant: string, n: nat)
    requires Sound(s) && SerialisedRun(s, StepsOf(k)) && TickOk(s, k, tenant) && n <= |s.db|
    ensures var t := Exec(s, StepsOf(k));
            && Sound(t) && Evolves(s.db, t.db) && t.disp == Ready([])
            && Waiting(t.db, tenant, n) <= Less(Waiting(s.db, tenant, n))
  {
    AdmitInvHolds(s, StepsOf(k));
    ListRuns(s, k, tenant);
    var u := Exec(s, k.gap);
    var w := Apply(u, DispList);
    RunsTo(w, k.mid, k.post);
    SerialisedParts(w, k.mid, k.post);
    RetryRuns(w, k.mid, UnsubmittedFrom(u.db, 0), k.n, k.launch);
    var v := Exec(w, k.mid);
    PromotionsRun(v, k.post, k.tenants, k.promote, tenant, n);
    AdmitInvHolds(v, k.post);
    WaitingNeverGrows(s.db, u.db, tenant, n);
    WaitingNeverGrows(u.db, v.db, tenant, n);
    WaitingNeverGrows(v.db, Exec(v, k.post).db, tenant, n);
    if tenant !in k.tenants {
      NoneWaiting(v.db, tenant, n);
    }
  }

  lemma {:induction false} TicksReduce(s: Sys, tenant: string, ticks: seq<Tick>, n: nat)
    requires Sound(s) && SerialisedRun(s, AllSteps(ticks)) && TicksOk(s, ticks, tenant) && n <= |s.db|
    ensures var t := Exec(s, AllSteps(ticks));
            && Evolves(s.db, t.db)
            && Waiting(t.db, tenant, n) <= if |ticks| <= Waiting(s.db, tenant, n) then Waiting(s.db, tenant, n) - |ticks| else 0
    decreases |ticks|
  {
    AdmitInvHolds(s, AllSteps(ticks));
    if ticks != [] {
      RunsTo(s, StepsOf(ticks[0]), AllSteps(ticks[1..]));
      SerialisedParts(s, StepsOf(ticks[0]), AllSteps(ticks[1..]));
      TickReduces(s, ticks[0], tenant, n);
      TicksReduce(Exec(s, StepsOf(ticks[0])), tenant, ticks[1..], n);
    }
  }

  /** A job with k older PENDING jobs of its tenant is promoted within k + 1 ticks in which the reads
      and the commit for its tenant succeed, whatever else fails in them, whatever everybody else does
      between any two of their calls, and whatever happens in between: Waiting(.., job + 1) is k + 1
      while the job is PENDING. */
  lemma BoundedWait(s: Sys, tenant: string, job: nat, ticks: seq<Tick>)
    requires Sound(s) && SerialisedRun(s, AllSteps(ticks)) && TicksOk(s, ticks, tenant)
    requires job < |s.db| && s.db[job].tenant == tenant && Waiting(s.db, tenant, job + 1) <= |ticks|
    ensures var t := Exec(s, AllSteps(ticks)); job < |t.db| && t.db[job].status != PENDING
  {
    TicksReduce(s, tenant, ticks, job + 1);
    var t := Exec(s, AllSteps(ticks));
    assert RowEvolves(s.db[job], t.db[job]);
    NoneWaiting(t.db, tenant, job + 1);
  }

  /** The same from the start of the platform. */
  lemma BoundedWaitFromInit(quotas: map<string, TenantQuota>, retryDefault: nat, before: seq<Step>,
                            tenant: string, job: nat, ticks: seq<Tick>)
    requires var s := Exec(Init(quotas, retryDefault), before);
             && SerialisedRun(Init(quotas, retryDefault), before) && SerialisedRun(s, AllSteps(ticks))
             && TicksOk(s, ticks, tenant)
             && job < |s.db| && s.db[job].tenant == tenant && Waiting(s.db, tenant, job + 1) <= |ticks|
    ensures var t := Exec(Init(quotas, retryDefault), before + AllSteps(ticks)); job < |t.db| && t.db[job].status != PENDING
  {
    var s0 := Init(quotas, retryDefault);
    InitSound(quotas, retryDefault);
    AdmitInvHolds(s0, before);
    BoundedWait(Exec(s0, before), tenant, job, ticks);
    ExecConcat(s0, before, AllSteps(ticks));
  }

  // ---------------------------------------------------------------- names

  predicate NamedAt(db: Table, job: nat) { job < |db| && db[job].rayJobName.Some? }

  lemma NameGiven(u: Sys, job: nat)
    requires u.disp.Naming? && u.disp.job == job < |u.db|
    ensures NamedAt(Apply(u, DispName(true)).db, job)
  {
  }

  lemma NameCallNames(s: Sys, es: seq<Step>, job: nat)
    requires Sound(s) && SerialisedRun(s, es) && DispatcherPart(es) == [DispName(true)] && s.disp.Naming? && s.disp.job == job
    ensures NamedAt(Exec(s, es).db, job)
  {
    assert [DispName(true)] + [] == [DispName(true)];
    var u, b := NextCall(s, es, DispName(true), []);
    NameGiven(u, job);
    NamedRun(Apply(u, DispName(true)), b, job);
  }

  lemma CreateKeepsJob(u: Sys)
    requires u.disp.Submitting? && u.disp.job < |u.db|
    ensures var d := Apply(u, DispCreate(Reached)).disp; d.Naming? && d.job == u.disp.job
  {
  }

  lemma TakeNames(s: Sys, es: seq<Step>, todo: seq<nat>)
    requires Sound(s) && SerialisedRun(s, es) && DispatcherPart(es) == [DispTake] + LaunchSteps(NO_LAUNCH_FAULT)
    requires s.disp == Ready(todo) && todo != []
    ensures NamedAt(Exec(s, es).db, todo[0])
  {
    var u, b := NextCall(s, es, DispTake, LaunchSteps(NO_LAUNCH_FAULT));
    var v := Apply(u, DispTake);
    assert v.disp == Submitting(todo[0], todo[1..]);
    assert LaunchSteps(NO_LAUNCH_FAULT) == [DispCreate(Reached)] + [DispName(true)];
    var w, c := NextCall(v, b, DispCreate(Reached), [DispName(true)]);
    CreateKeepsJob(w);
    NameCallNames(Apply(w, DispCreate(Reached)), c, todo[0]);
  }

  /** Each entry of the retry list that was reached has a name. */
  lemma {:induction false} RetryNames(s: Sys, es: seq<Step>, todo: seq<nat>, n: nat, launch: nat -> LaunchFaults)
    requires Sound(s) && SerialisedRun(s, es) && DispatcherPart(es) == RetrySteps(n, launch)
    requires s.disp == Ready(todo) && n <= |todo| && forall k: nat :: launch(k) == NO_LAUNCH_FAULT
    ensures forall k :: 0 <= k < n ==> NamedAt(Exec(s, es).db, todo[k])
    decreases n
  {
    if n > 0 {
      var a, b := DividedRun(s, es, RetrySteps(n - 1, launch), [DispTake] + LaunchSteps(launch(n - 1)));
      RetryRuns(s, a, todo, n - 1, launch);
      RetryNames(s, a, todo, n - 1, launch);
      TakeNames(Exec(s, a), b, todo[n - 1..]);
      forall k | 0 <= k < n - 1 ensures NamedAt(Exec(s, es).db, todo[k]) {
        NamedRun(Exec(s, a), b, todo[k]);
      }
    }
  }

  /** If the launches of a tick succeed, every job that was QUEUED without a name when the tick read its
      retry list has one when it ends, whatever everybody else does meanwhile. */
  lemma TickNames(s: Sys, k: Tick, tenant: string, job: nat)
    requires Sound(s) && SerialisedRun(s, StepsOf(k)) && TickOk(s, k, tenant) && forall i: nat :: k.launch(i) == NO_LAUNCH_FAULT
    requires var u := Exec(s, k.gap); job < |u.db| && Unsubmitted(u.db[job])
    ensures NamedAt(Exec(s, StepsOf(k)).db, job)
  {
    ListRuns(s, k, tenant);
    var u := Exec(s, k.gap);
    var w := Apply(u, DispList);
    var todo := UnsubmittedFrom(u.db, 0);
    RunsTo(w, k.mid, k.post);
    SerialisedParts(w, k.mid, k.post);
    RetryNames(w, k.mid, todo, k.n, k.launch);
    var i :| 0 <= i < |todo| && todo[i] == job;
    NamedRun(Exec(w, k.mid), k.post, job);
  }

  // ---------------------------------------------------------------- the tick of the code

  lemma {:induction false} OnlyDispatcher(es: seq<Step>)
    requires forall k :: 0 <= k < |es| ==> DispStep(es[k])
    ensures DispatcherPart(es) == es
    decreases |es|
  {
    if es != [] {
      OnlyDispatcher(es[1..]);
      assert [es[0]] + es[1..] == es;
    }
  }

  lemma {:induction false} RetryIsDispatcher(n: nat, launch: nat -> LaunchFaults)
    ensures forall k :: 0 <= k < |RetrySteps(n, launch)| ==> DispStep(RetrySteps(n, launch)[k])
  {
    if n > 0 {
      RetryIsDispatcher(n - 1, launch);
    }
  }

  lemma {:induction false} PromotionsAreDispatcher(tenants: seq<string>, promote: string -> PromoteFaults)
    ensures forall k :: 0 <= k < |PromotionsSteps(tenants, promote)| ==> DispStep(PromotionsSteps(tenants, promote)[k])
    decreases |tenants|
  {
    if tenants != [] {
      PromotionsAreDispatcher(tenants[..|tenants| - 1], promote);
    }
  }

  lemma ListsFirst(s: Sys, es: seq<Step>)
    ensures Exec(s, [DispList] + es) == Exec(Apply(s, DispList), es)
  {
    assert ([DispList] + es)[1..] == es;
  }

  /** A tick that nothing interrupts. */
  function Alone(n: nat, launch: nat -> LaunchFaults, tenants: seq<string>, promote: string -> PromoteFaults): Tick {
    Tick([], RetrySteps(n, launch), PromotionsSteps(tenants, promote), n, launch, tenants, promote)
  }

  /** What a call of Tick does is a tick in this sense. */
  lemma AloneIsTick(s: Sys, n: nat, launch: nat -> LaunchFaults, tenants: seq<string>, promote: string -> PromoteFaults,
                    tenant: string)
    requires s.disp == Ready([]) && n == |UnsubmittedFrom(s.db, 0)|
    requires ListsWaiting(Exec(s, [DispList] + RetrySteps(n, launch)).db, tenants)
    requires promote(tenant).readsOk && promote(tenant).commit
    ensures TickOk(s, Alone(n, launch, tenants, promote), tenant)
  {
    RetryIsDispatcher(n, launch);
    OnlyDispatcher(RetrySteps(n, launch));
    PromotionsAreDispatcher(tenants, promote);
    OnlyDispatcher(PromotionsSteps(tenants, promote));
    ListsFirst(s, RetrySteps(n, launch));
  }

  lemma AloneSteps(n: nat, launch: nat -> LaunchFaults, tenants: seq<string>, promote: string -> PromoteFaults)
    ensures StepsOf(Alone(n, launch, tenants, promote)) == TickSteps(n, launch, tenants, promote)
  {
    assert [] + TickSteps(n, launch, tenants, promote) == TickSteps(n, launch, tenants, promote);
  }
}
