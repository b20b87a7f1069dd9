/** A tick of the deployment reconciler as a plan: which listed deployments it visits, which it skips
    because they are backing off, and what that does to the system and to the backoff state
    (operator/internal/reconciler/deployment_reconciler.go:84-132). */
module DeploymentPlan {
  import opened Prelude
  import opened Backoff
  import opened Deployments
  import opened DeploymentProtocol
  import opened DeploymentScripts
  import opened DeploymentHistory
  import opened DeploymentSafety
  import opened DeploymentVisits
  import opened DeploymentConvergence

  /** Whether a visit ends in an error: a failed call, or a report that is not accepted. */
  predicate VisitFails(s: Sys, snap: Snap, f: VisitFaults)
    requires snap.dep < |s.deps|
  {
    || f.pod != Reached || f.service != Reached
    || (var rec := Worked(s.op, snap, [], f).rec;
        rec.AtReport? && !(f.write && ValidTransition(s.deps[snap.dep].status, rec.report.status)))
  }

  // ---------------------------------------------------------------- the plan as steps

  /** The faults of a visit, or None for a deployment in its backoff window. */
  function NextSteps(next: Option<VisitFaults>): seq<Step> {
    match next case None => [Skip] case Some(f) => VisitSteps(0, f)
  }

  function PlanSteps(plan: seq<Option<VisitFaults>>): seq<Step> {
    if plan == [] then [] else PlanSteps(plan[..|plan| - 1]) + NextSteps(plan[|plan| - 1])
  }

  /** The system while this is left of the listing. */
  function Queued(s: Sys, todo: seq<Snap>): Sys { s.(op := s.op.(rec := Between(todo))) }

  /** One entry of the listing, visited or skipped. */
  function Entered(s: Sys, snap: Snap, todo: seq<Snap>, next: Option<VisitFaults>): (r: Sys)
    requires snap.dep < |s.deps|
    ensures |r.deps| == |s.deps| && r.reports == s.reports && r.op.rec == Between(todo)
  {
    match next case None => Queued(s, todo) case Some(f) => Visited(s, snap, todo, f)
  }

  predicate InTable(todo: seq<Snap>, deps: Table) { forall k :: 0 <= k < |todo| ==> todo[k].dep < |deps| }

  /** The plan carried out on the first entries of a listing. */
  function Passed(s: Sys, todo: seq<Snap>, plan: seq<Option<VisitFaults>>): (r: Sys)
    requires |plan| <= |todo| && InTable(todo, s.deps) && s.op.rec == Between([])
    ensures |r.deps| == |s.deps| && r.reports == s.reports && r.op.rec == Between([])
  {
    if plan == [] then s
    else
      var n := |plan| - 1;
      Entered(Passed(s, todo, plan[..n]), todo[n], [], plan[n])
  }

  /** The rest of the listing makes no difference to the objects' part. */
  lemma WorkedAlike(o: Operator, snap: Snap, todo: seq<Snap>, f: VisitFaults)
    ensures var a, b := Worked(o, snap, todo, f), Worked(o, snap, [], f);
            && a.pods == b.pods && a.services == b.services && a.rec.AtReport? == b.rec.AtReport?
            && (a.rec.AtReport? ==> a.rec.report == b.rec.report)
  {
    if snap.status == Deleting {
      WorkedDeleting(o, snap, todo, f);
      WorkedDeleting(o, snap, [], f);
    } else {
      WorkedServing(o, snap, todo, f);
      WorkedServing(o, snap, [], f);
    }
  }

  lemma QueuedEntry(s: Sys, snap: Snap, todo: seq<Snap>, next: Option<VisitFaults>)
    requires snap.dep < |s.deps|
    ensures Entered(s, snap, todo, next) == Queued(Entered(s, snap, [], next), todo)
  {
    if next.Some? {
      WorkedAlike(s.op, snap, todo, next.value);
    }
  }

  lemma EntryRuns(s: Sys, snap: Snap, todo: seq<Snap>, next: Option<VisitFaults>)
    requires snap.dep < |s.deps| && s.reports == map[]
    ensures Exec(Queued(s, [snap] + todo), NextSteps(next)) == Entered(s, snap, todo, next)
  {
    var q := Queued(s, [snap] + todo);
    match next
    case None =>
      assert ([snap] + todo)[1..] == todo;
      ExecOne(q, Skip);
    case Some(f) =>
      VisitRuns(q, snap, todo, 0, f);
      assert q.op.(rec := AtPod(snap, todo)) == s.op.(rec := AtPod(snap, todo));
  }

  /** Carrying out a plan is running its steps. */
  lemma {:induction false} PassedRuns(s: Sys, todo: seq<Snap>, plan: seq<Option<VisitFaults>>)
    requires |plan| <= |todo| && InTable(todo, s.deps) && s.op.rec == Between([]) && s.reports == map[]
    ensures Exec(Queued(s, todo), PlanSteps(plan)) == Queued(Passed(s, todo, plan), todo[|plan|..])
    decreases |plan|
  {
    if plan == [] {
      assert todo[0..] == todo;
    } else {
      var n := |plan| - 1;
      var here := Passed(s, todo, plan[..n]);
      PassedRuns(s, todo, plan[..n]);
      assert todo[n..] == [todo[n]] + todo[n + 1..];
      EntryRuns(here, todo[n], todo[n + 1..], plan[n]);
      QueuedEntry(here, todo[n], todo[n + 1..], plan[n]);
      ExecConcat(Queued(s, todo), PlanSteps(plan[..n]), NextSteps(plan[n]));
    }
  }

  /** A whole tick from its listing on. */
  lemma {:induction false} TickRuns(s: Sys, plan: seq<Option<VisitFaults>>)
    requires s.op.rec == Between([]) && s.reports == map[] && |plan| == |Listed(s.deps, |s.deps|)|
    requires InTable(Listed(s.deps, |s.deps|), s.deps)
    ensures Exec(s, [List] + PlanSteps(plan)) == Passed(s, Listed(s.deps, |s.deps|), plan)
  {
    var todo := Listed(s.deps, |s.deps|);
    ListRuns(s, PlanSteps(plan));
    PassedRuns(s, todo, plan);
    assert todo[|plan|..] == [];
    var r := Passed(s, todo, plan);
    assert Queued(r, []) == r;
  }

  lemma PassLength(s: Sys, h: nat)
    requires s.op.rec == Between([]) && h !in s.reports && IdsUnique(s.deps)
    ensures |Exec(s, [List] + PassSteps(|Listed(s.deps, |s.deps|)|, h)).deps| == |s.deps|
  {
    var todo := Listed(s.deps, |s.deps|);
    ListRuns(s, PassSteps(|todo|, h));
    ListedOk(s.deps, |s.deps|);
    ListedSafe(s.deps, |s.deps|);
    PassRuns(s.(op := s.op.(rec := Between(todo))), todo, h);
  }

  lemma {:induction false} PassAppends(n: nat, h: nat)
    ensures PassSteps(n + 1, h) == PassSteps(n, h) + VisitSteps(h, NO_VISIT_FAULT)
    decreases n
  {
    if n > 0 {
      PassAppends(n - 1, h);
      assert PassSteps(n + 1, h) == VisitSteps(h, NO_VISIT_FAULT) + (PassSteps(n - 1, h) + VisitSteps(h, NO_VISIT_FAULT));
    }
  }

  lemma {:induction false} CleanPlanIsPass(plan: seq<Option<VisitFaults>>)
    requires forall k :: 0 <= k < |plan| ==> plan[k] == Some(NO_VISIT_FAULT)
    ensures PlanSteps(plan) == PassSteps(|plan|, 0)
    decreases |plan|
  {
    if plan != [] {
      CleanPlanIsPass(plan[..|plan| - 1]);
      PassAppends(|plan| - 1, 0);
    }
  }

  // ---------------------------------------------------------------- backoff windows

  predicate InWindow(retryAt: map<string, int>, id: string, now: int) { id in retryAt && now < retryAt[id] }

  /** The plan for a listing: entries in their window are skipped. */
  predicate PlanFor(plan: seq<Option<VisitFaults>>, todo: seq<Snap>, retryAt: map<string, int>, now: int, faults: nat -> VisitFaults) {
    |plan| <= |todo| && forall k :: 0 <= k < |plan| ==> plan[k] == if InWindow(retryAt, todo[k].id, now) then None else Some(faults(k))
  }

  /** The windows of the entries still to come are as they were. */
  predicate SameWindows(todo: seq<Snap>, a: map<string, int>, b: map<string, int>) {
    forall j :: 0 <= j < |todo| ==> SameWindow(todo[j].id, a, b)
  }

  predicate SameWindow(id: string, a: map<string, int>, b: map<string, int>) {
    (id in a <==> id in b) && (id in a ==> a[id] == b[id])
  }

  ghost predicate SameElsewhere(a: map<string, int>, b: map<string, int>, id: string) {
    forall x :: x != id ==> SameWindow(x, a, b)
  }

  /** The ids of a listing are those of different rows. */
  lemma {:induction false} ListedIdsDiffer(deps: Table, j: nat, k: nat)
    requires IdsUnique(deps) && j < k < |Listed(deps, |deps|)|
    ensures Listed(deps, |deps|)[j].id != Listed(deps, |deps|)[k].id
  {
    ListedOk(deps, |deps|);
    ListedSafe(deps, |deps|);
    var todo := Listed(deps, |deps|);
    assert SnapOk(deps, todo[j]) && SnapOk(deps, todo[k]);
  }

  lemma {:induction false} LaterWindowsKept(deps: Table, todo: seq<Snap>, k: nat, windows: map<string, int>,
                                            a: map<string, int>, b: map<string, int>)
    requires IdsUnique(deps) && todo == Listed(deps, |deps|) && k < |todo|
    requires SameWindows(todo[k..], windows, a) && SameElsewhere(a, b, todo[k].id)
    ensures SameWindows(todo[k + 1..], windows, b)
  {
    var rest := todo[k + 1..];
    forall j | 0 <= j < |rest| ensures SameWindow(rest[j].id, windows, b) {
      ListedIdsDiffer(deps, k, k + 1 + j);
      assert rest[j] == todo[k..][j + 1];
      assert SameWindow(rest[j].id, windows, a);
      assert SameWindow(rest[j].id, a, b);
    }
  }

  /** The backoff state, with the outcomes of all visits so far (true: success) as history. */
  datatype Books = Books(counts: map<string, nat>, retryAt: map<string, int>, outcomes: map<string, seq<bool>>)

  function HistoryOf(outcomes: map<string, seq<bool>>, id: string): seq<bool> {
    if id in outcomes then outcomes[id] else []
  }

  function CountIn(b: Books, id: string): nat { if id in b.counts then b.counts[id] else 0 }

  function WithFailure(b: Books, id: string, at: int): Books {
    Books(b.counts[id := CountIn(b, id) + 1], b.retryAt[id := at], b.outcomes[id := HistoryOf(b.outcomes, id) + [false]])
  }

  function WithSuccess(b: Books, id: string): Books {
    Books(b.counts - {id}, b.retryAt - {id}, b.outcomes[id := HistoryOf(b.outcomes, id) + [true]])
  }

  /** A deployment is backing off exactly while it has failed since its last success, and its failure
      count is how often it has. */
  ghost predicate BooksOk(b: Books) {
    && b.counts.Keys == b.retryAt.Keys
    && (forall id :: id in b.counts ==> b.counts[id] > 0)
    && (forall id :: CountIn(b, id) == Streak(HistoryOf(b.outcomes, id)))
  }

  lemma FailureKeepsBooks(b: Books, id: string, at: int)
    requires BooksOk(b)
    ensures BooksOk(WithFailure(b, id, at))
  {
    var b' := WithFailure(b, id, at);
    forall x ensures CountIn(b', x) == Streak(HistoryOf(b'.outcomes, x)) {
      assert CountIn(b, x) == Streak(HistoryOf(b.outcomes, x));
      StreakExtends(HistoryOf(b.outcomes, id), false);
    }
  }

  lemma SuccessKeepsBooks(b: Books, id: string)
    requires BooksOk(b)
    ensures BooksOk(WithSuccess(b, id))
  {
    var b' := WithSuccess(b, id);
    forall x ensures CountIn(b', x) == Streak(HistoryOf(b'.outcomes, x)) {
      assert CountIn(b, x) == Streak(HistoryOf(b.outcomes, x));
      StreakExtends(HistoryOf(b.outcomes, id), true);
    }
  }

  /** The books after one entry of the listing. */
  function Booked(b: Books, id: string, visited: bool, err: bool, at: int): Books {
    if !visited then b else if err then WithFailure(b, id, at) else WithSuccess(b, id)
  }

  lemma BookedOk(b: Books, id: string, visited: bool, err: bool, at: int)
    requires BooksOk(b)
    ensures BooksOk(Booked(b, id, visited, err, at)) && SameElsewhere(b.retryAt, Booked(b, id, visited, err, at).retryAt, id)
  {
    FailureKeepsBooks(b, id, at);
    SuccessKeepsBooks(b, id);
  }

  /** The books of the entries still to come are untouched by one entry. */
  lemma {:induction false} NextEntry(deps: Table, todo: seq<Snap>, k: nat, windows: map<string, int>, b: Books, now: int,
                                     visited: bool, err: bool, at: int)
    requires IdsUnique(deps) && todo == Listed(deps, |deps|) && k < |todo|
    requires BooksOk(b) && SameWindows(todo[k..], windows, b.retryAt)
    ensures InWindow(windows, todo[k].id, now) == InWindow(b.retryAt, todo[k].id, now)
    ensures var b' := Booked(b, todo[k].id, visited, err, at); BooksOk(b') && SameWindows(todo[k + 1..], windows, b'.retryAt)
  {
    assert todo[k..][0] == todo[k];
    assert SameWindow(todo[k].id, windows, b.retryAt);
    BookedOk(b, todo[k].id, visited, err, at);
    LaterWindowsKept(deps, todo, k, windows, b.retryAt, Booked(b, todo[k].id, visited, err, at).retryAt);
  }

  /** Where a tick is after the first entries of its listing. */
  ghost predicate Underway(before: Sys, windows: map<string, int>, now: int, faults: nat -> VisitFaults,
                           plan: seq<Option<VisitFaults>>, s: Sys, b: Books)
  {
    var todo := Listed(before.deps, |before.deps|);
    && before.op.rec == Between([]) && InTable(todo, before.deps) && IdsUnique(before.deps)
    && PlanFor(plan, todo, windows, now, faults) && SameWindows(todo[|plan|..], windows, b.retryAt) && BooksOk(b)
    && s == Passed(before, todo, plan)
  }

  lemma UnderwayStart(before: Sys, now: int, faults: nat -> VisitFaults, b: Books)
    requires before.op.rec == Between([]) && IdsUnique(before.deps) && BooksOk(b)
    ensures Underway(before, b.retryAt, now, faults, [], before, b)
  {
    var todo := Listed(before.deps, |before.deps|);
    ListedOk(before.deps, |before.deps|);
    assert forall k :: 0 <= k < |todo| ==> SnapOk(before.deps, todo[k]);
  }

  lemma {:induction false} UnderwayNext(before: Sys, windows: map<string, int>, now: int, faults: nat -> VisitFaults,
                                        plan: seq<Option<VisitFaults>>, s: Sys, b: Books, err: bool, at: int)
    requires Underway(before, windows, now, faults, plan, s, b) && |plan| < |Listed(before.deps, |before.deps|)|
    ensures var snap := Listed(before.deps, |before.deps|)[|plan|];
            var next := if InWindow(b.retryAt, snap.id, now) then None else Some(faults(|plan|));
            snap.dep < |s.deps|
            && Underway(before, windows, now, faults, plan + [next], Entered(s, snap, [], next), Booked(b, snap.id, next.Some?, err, at))
  {
    var todo := Listed(before.deps, |before.deps|);
    var snap := todo[|plan|];
    var next := if InWindow(b.retryAt, snap.id, now) then None else Some(faults(|plan|));
    NextEntry(before.deps, todo, |plan|, windows, b, now, next.Some?, err, at);
    assert (plan + [next])[..|plan|] == plan;
  }

  // ---------------------------------------------------------------- from tick to tick

  /** A tick as it shows on the books: the ids that it listed, those that it visited, and those whose
      visit failed, with the time from which they are due again. */
  datatype TickLog = TickLog(now: int, listed: set<string>, visited: set<string>, due: map<string, int>)

  /** What a tick does to the books: listed deployments are visited unless their retry time is still to
      come; a failure is counted and sets the retry time, a success clears both, and the books of
      whatever was not visited stay as they are. */
  ghost predicate TickBooks(b: Books, k: TickLog, b': Books) { forall id :: TickBook(b, k, b', id) }

  predicate TickBook(b: Books, k: TickLog, b': Books, id: string) {
    && (id in k.visited <==> id in k.listed && (id !in b.retryAt || b.retryAt[id] <= k.now))
    && (id in k.due ==>
          id in k.visited && CountIn(b', id) == CountIn(b, id) + 1 && id in b'.retryAt && b'.retryAt[id] == k.due[id])
    && (id in k.visited && id !in k.due ==> id !in b'.retryAt && CountIn(b', id) == 0)
    && (id !in k.visited ==> SameWindow(id, b.retryAt, b'.retryAt) && CountIn(b', id) == CountIn(b, id))
  }

  /** What became of one entry of the listing; after a failure it is due again at `due`. */
  datatype Attempt = Attempt(id: string, visited: bool, err: bool, due: int)

  /** The books after these entries. */
  function BooksAfter(b: Books, es: seq<Attempt>): Books {
    if es == [] then b
    else
      var e := es[|es| - 1];
      Booked(BooksAfter(b, es[..|es| - 1]), e.id, e.visited, e.err, e.due)
  }

  function Logged(k: TickLog, e: Attempt): TickLog {
    k.(listed := k.listed + {e.id},
       visited := if e.visited then k.visited + {e.id} else k.visited,
       due := if e.visited && e.err then k.due[e.id := e.due] else k.due)
  }

  function LogOf(now: int, es: seq<Attempt>): TickLog {
    if es == [] then TickLog(now, {}, {}, map[]) else Logged(LogOf(now, es[..|es| - 1]), es[|es| - 1])
  }

  lemma FailuresVisited(b: Books, k: TickLog, b': Books)
    requires TickBooks(b, k, b')
    ensures k.due.Keys <= k.visited <= k.listed
  {
    forall id | id in k.due.Keys || id in k.visited ensures id in k.visited && id in k.listed {
      assert TickBook(b, k, b', id);
    }
  }

  /** One more entry. */
  lemma LogNext(b0: Books, k: TickLog, b: Books, e: Attempt)
    requires TickBooks(b0, k, b) && e.id !in k.listed
    requires e.visited <==> e.id !in b0.retryAt || b0.retryAt[e.id] <= k.now
    ensures TickBooks(b0, Logged(k, e), Booked(b, e.id, e.visited, e.err, e.due))
  {
    FailuresVisited(b0, k, b);
    forall x ensures TickBook(b0, Logged(k, e), Booked(b, e.id, e.visited, e.err, e.due), x) {
      assert TickBook(b0, k, b, x);
    }
  }

  /** The entries are different deployments, and those that were due are the ones visited. */
  predicate Attempted(now: int, b: Books, es: seq<Attempt>) {
    && (forall j, k :: 0 <= j < k < |es| ==> es[j].id != es[k].id)
    && forall k :: 0 <= k < |es| ==> (es[k].visited <==> es[k].id !in b.retryAt || b.retryAt[es[k].id] <= now)
  }

  /** The log lists the entries. */
  lemma {:induction false} LogLists(now: int, es: seq<Attempt>)
    ensures LogOf(now, es).now == now && LogOf(now, es).due.Keys <= LogOf(now, es).listed
    ensures forall id :: id in LogOf(now, es).listed <==> exists k :: 0 <= k < |es| && es[k].id == id
    decreases |es|
  {
    if es != [] {
      var n := |es| - 1;
      LogLists(now, es[..n]);
      forall k | 0 <= k < n ensures es[..n][k].id == es[k].id {}
      assert es[n].id in LogOf(now, es).listed;
    }
  }

  /** And an entry whose visit failed with the time from which it is due again. */
  lemma {:induction false} LogDues(now: int, es: seq<Attempt>, k: nat)
    requires k < |es| && forall i, j :: 0 <= i < j < |es| ==> es[i].id != es[j].id
    ensures es[k].id in LogOf(now, es).due <==> es[k].visited && es[k].err
    ensures es[k].id in LogOf(now, es).due ==> LogOf(now, es).due[es[k].id] == es[k].due
    decreases |es|
  {
    var n := |es| - 1;
    if k < n {
      LogDues(now, es[..n], k);
    } else {
      LogLists(now, es[..n]);
    }
  }

  /** What a tick leaves on the books is what its log says. */
  lemma {:induction false} TickIsLogged(now: int, b: Books, es: seq<Attempt>)
    requires Attempted(now, b, es)
    ensures TickBooks(b, LogOf(now, es), BooksAfter(b, es))
    decreases |es|
  {
    if es == [] {
      forall id ensures TickBook(b, LogOf(now, es), b, id) {}
    } else {
      var n := |es| - 1;
      assert forall k :: 0 <= k < n ==> es[..n][k] == es[k];
      TickIsLogged(now, b, es[..n]);
      LogLists(now, es[..n]);
      LogNext(b, LogOf(now, es[..n]), BooksAfter(b, es[..n]), es[n]);
    }
  }

  /** The entries of a listing with a plan carried out on them: the errors are those of the visits. */
  ghost predicate AttemptsOf(before: Sys, todo: seq<Snap>, plan: seq<Option<VisitFaults>>, faults: nat -> VisitFaults, es: seq<Attempt>)
    requires |plan| <= |todo| && InTable(todo, before.deps) && before.op.rec == Between([])
  {
    |es| == |plan| && forall k :: 0 <= k < |plan| ==> AttemptOf(before, todo, plan, faults(k), es[k], k)
  }

  ghost predicate AttemptOf(before: Sys, todo: seq<Snap>, plan: seq<Option<VisitFaults>>, f: VisitFaults, e: Attempt, k: nat)
    requires k < |plan| <= |todo| && InTable(todo, before.deps) && before.op.rec == Between([])
  {
    e.id == todo[k].id && e.visited == plan[k].Some? && e.err == VisitFails(Passed(before, todo, plan[..k]), todo[k], f)
  }

  lemma AttemptsNext(before: Sys, todo: seq<Snap>, plan: seq<Option<VisitFaults>>, faults: nat -> VisitFaults,
                     es: seq<Attempt>, next: Option<VisitFaults>, s: Sys, e: Attempt)
    requires |plan| < |todo| && InTable(todo, before.deps) && before.op.rec == Between([])
    requires AttemptsOf(before, todo, plan, faults, es) && s == Passed(before, todo, plan)
    requires e.id == todo[|plan|].id && e.visited == next.Some? && e.err == VisitFails(s, todo[|plan|], faults(|plan|))
    ensures AttemptsOf(before, todo, plan + [next], faults, es + [e])
  {
    var plan' := plan + [next];
    assert plan'[..|plan|] == plan;
    forall k | 0 <= k < |plan'| ensures AttemptOf(before, todo, plan', faults(k), (es + [e])[k], k) {
      if k < |plan| {
        assert plan'[..k] == plan[..k] && AttemptOf(before, todo, plan, faults(k), es[k], k);
      }
    }
  }

  lemma {:induction false} CountUntouched(b: Books, es: seq<Attempt>, id: string)
    requires forall k :: 0 <= k < |es| ==> es[k].id != id
    ensures CountIn(BooksAfter(b, es), id) == CountIn(b, id)
    decreases |es|
  {
    if es != [] {
      CountUntouched(b, es[..|es| - 1], id);
    }
  }

  /** The books and the retry times: a failure recorded at clock(k) makes the deployment due again after
      the delay for one more failure than it had when the tick began. */
  ghost predicate Recorded(base: int, cap: int, b: Books, clock: nat -> int, es: seq<Attempt>, here: Books) {
    here == BooksAfter(b, es) && forall k :: 0 <= k < |es| ==> RecordedAt(base, cap, b, clock(k), es[k])
  }

  predicate RecordedAt(base: int, cap: int, b: Books, at: int, e: Attempt) { e.due == at + Delay(base, cap, CountIn(b, e.id) + 1) }

  lemma RecordedNext(base: int, cap: int, b: Books, clock: nat -> int, es: seq<Attempt>, here: Books, e: Attempt)
    requires Recorded(base, cap, b, clock, es, here) && RecordedAt(base, cap, here, clock(|es|), e)
    requires forall k :: 0 <= k < |es| ==> es[k].id != e.id
    ensures Recorded(base, cap, b, clock, es + [e], Booked(here, e.id, e.visited, e.err, e.due))
  {
    CountUntouched(b, es, e.id);
    assert (es + [e])[..|es|] == es;
    assert RecordedAt(base, cap, b, clock(|es|), e);
    forall k | 0 <= k < |es| + 1 ensures RecordedAt(base, cap, b, clock(k), (es + [e])[k]) {
      if k < |es| { assert RecordedAt(base, cap, b, clock(k), es[k]); }
    }
  }

  /** The entries of a tick are of this kind, so what follows is about every tick. */
  lemma TickAttempts(before: Sys, plan: seq<Option<VisitFaults>>, now: int, faults: nat -> VisitFaults, b: Books, es: seq<Attempt>)
    requires before.op.rec == Between([]) && IdsUnique(before.deps) && InTable(Listed(before.deps, |before.deps|), before.deps)
    requires PlanFor(plan, Listed(before.deps, |before.deps|), b.retryAt, now, faults)
    requires AttemptsOf(before, Listed(before.deps, |before.deps|), plan, faults, es)
    ensures Attempted(now, b, es)
  {
    var todo := Listed(before.deps, |before.deps|);
    forall k | 0 <= k < |es| ensures es[k].id == todo[k].id && (es[k].visited <==> es[k].id !in b.retryAt || b.retryAt[es[k].id] <= now) {
      assert AttemptOf(before, todo, plan, faults(k), es[k], k);
    }
    forall j, k | 0 <= j < k < |es| ensures es[j].id != es[k].id { ListedIdsDiffer(before.deps, j, k); }
  }

  lemma NewAttempt(before: Sys, plan: seq<Option<VisitFaults>>, faults: nat -> VisitFaults, es: seq<Attempt>)
    requires before.op.rec == Between([]) && IdsUnique(before.deps) && InTable(Listed(before.deps, |before.deps|), before.deps)
    requires |plan| < |Listed(before.deps, |before.deps|)| && AttemptsOf(before, Listed(before.deps, |before.deps|), plan, faults, es)
    ensures forall k :: 0 <= k < |es| ==> es[k].id != Listed(before.deps, |before.deps|)[|plan|].id
  {
    forall k | 0 <= k < |es| ensures es[k].id != Listed(before.deps, |before.deps|)[|plan|].id {
      assert AttemptOf(before, Listed(before.deps, |before.deps|), plan, faults(k), es[k], k);
      ListedIdsDiffer(before.deps, k, |plan|);
    }
  }

  /** A tick under way, with what it has done so far. */
  ghost predicate Progress(base: int, cap: int, before: Sys, opening: Books, now: int, clock: nat -> int, faults: nat -> VisitFaults,
                           plan: seq<Option<VisitFaults>>, es: seq<Attempt>, s: Sys, b: Books)
  {
    && Underway(before, opening.retryAt, now, faults, plan, s, b)
    && AttemptsOf(before, Listed(before.deps, |before.deps|), plan, faults, es)
    && Recorded(base, cap, opening, clock, es, b)
  }

  lemma ProgressNext(base: int, cap: int, before: Sys, opening: Books, now: int, clock: nat -> int, faults: nat -> VisitFaults,
                     plan: seq<Option<VisitFaults>>, es: seq<Attempt>, s: Sys, b: Books, due: int, err: bool)
    requires Progress(base, cap, before, opening, now, clock, faults, plan, es, s, b) && |plan| < |Listed(before.deps, |before.deps|)|
    requires var snap := Listed(before.deps, |before.deps|)[|plan|];
             && (snap.dep < |s.deps| ==> err == VisitFails(s, snap, faults(|plan|)))
             && RecordedAt(base, cap, b, clock(|plan|), Attempt(snap.id, true, err, due))
    ensures var snap := Listed(before.deps, |before.deps|)[|plan|];
            var next := if InWindow(b.retryAt, snap.id, now) then None else Some(faults(|plan|));
            && snap.dep < |s.deps|
            && Progress(base, cap, before, opening, now, clock, faults, plan + [next], es + [Attempt(snap.id, next.Some?, err, due)],
                        Entered(s, snap, [], next), Booked(b, snap.id, next.Some?, err, due))
  {
    var snap := Listed(before.deps, |before.deps|)[|plan|];
    var next := if InWindow(b.retryAt, snap.id, now) then None else Some(faults(|plan|));
    var e := Attempt(snap.id, next.Some?, err, due);
    UnderwayNext(before, opening.retryAt, now, faults, plan, s, b, err, due);
    NewAttempt(before, plan, faults, es);
    AttemptsNext(before, Listed(before.deps, |before.deps|), plan, faults, es, next, s, e);
    RecordedNext(base, cap, opening, clock, es, b, e);
  }

  lemma ProgressEnds(base: int, cap: int, before: Sys, opening: Books, now: int, clock: nat -> int, faults: nat -> VisitFaults,
                     plan: seq<Option<VisitFaults>>, es: seq<Attempt>, s: Sys, b: Books)
    requires Progress(base, cap, before, opening, now, clock, faults, plan, es, s, b) && |plan| == |Listed(before.deps, |before.deps|)|
    requires before.reports == map[]
    ensures var todo := Listed(before.deps, |before.deps|);
            && InTable(todo, before.deps) && PlanFor(plan, todo, opening.retryAt, now, faults)
            && s == Exec(before, [List] + PlanSteps(plan))
            && AttemptsOf(before, todo, plan, faults, es) && TickMade(base, cap, opening, now, clock, es, b)
  {
    TickRuns(before, plan);
    TickAttempts(before, plan, now, faults, opening, es);
  }

  /** Over any sequence of ticks: after a failure that makes a deployment due again at some time, no tick
      visits it before that time, and the first tick at or after it that lists the deployment does. */
  lemma {:induction false} BackoffHolds(books: seq<Books>, ticks: seq<TickLog>, id: string, i: nat, j: nat)
    requires |books| == |ticks| + 1 && i < j < |ticks| && id in ticks[i].due
    requires forall k :: 0 <= k < |ticks| ==> TickBooks(books[k], ticks[k], books[k + 1])
    requires forall k :: i < k < j && id in ticks[k].listed ==> ticks[k].now < ticks[i].due[id]
    ensures id in ticks[j].visited <==> id in ticks[j].listed && ticks[i].due[id] <= ticks[j].now
  {
    assert TickBook(books[i], ticks[i], books[i + 1], id);
    WindowStays(books, ticks, id, i + 1, j, ticks[i].due[id]);
    assert TickBook(books[j], ticks[j], books[j + 1], id);
  }

  lemma {:induction false} WindowStays(books: seq<Books>, ticks: seq<TickLog>, id: string, i: nat, j: nat, due: int)
    requires |books| == |ticks| + 1 && i <= j < |ticks| && id in books[i].retryAt && books[i].retryAt[id] == due
    requires forall k :: 0 <= k < |ticks| ==> TickBooks(books[k], ticks[k], books[k + 1])
    requires forall k :: i <= k < j && id in ticks[k].listed ==> ticks[k].now < due
    ensures id in books[j].retryAt && books[j].retryAt[id] == due
    decreases j - i
  {
    if i < j {
      assert TickBook(books[i], ticks[i], books[i + 1], id);
      WindowStays(books, ticks, id, i + 1, j, due);
    }
  }

  /** What ReconcileAll says of each of these ticks. */
  ghost predicate TicksMade(base: int, cap: int, books: seq<Books>, nows: seq<int>, clocks: seq<nat -> int>, ticks: seq<seq<Attempt>>) {
    && |books| == |ticks| + 1 && |nows| == |clocks| == |ticks|
    && forall k :: 0 <= k < |ticks| ==> TickMade(base, cap, books[k], nows[k], clocks[k], ticks[k], books[k + 1])
  }

  ghost predicate TickMade(base: int, cap: int, b: Books, now: int, clock: nat -> int, es: seq<Attempt>, b': Books) {
    Attempted(now, b, es) && Recorded(base, cap, b, clock, es, b')
  }

  /** From tick to tick: a deployment whose visit fails, entry `m` of tick `i`, with the failure recorded
      at clock(m), is left alone by every tick that begins before that time plus the delay for its
      failures in a row, and the first tick at or after it that lists the deployment, as its entry `l`,
      visits it again. */
  lemma NotVisitedBeforeDue(base: int, cap: int, books: seq<Books>, nows: seq<int>, clocks: seq<nat -> int>, ticks: seq<seq<Attempt>>,
                            i: nat, m: nat, j: nat, l: nat, due: int)
    requires TicksMade(base, cap, books, nows, clocks, ticks) && i < j < |ticks| && m < |ticks[i]| && l < |ticks[j]|
    requires ticks[i][m].visited && ticks[i][m].err && ticks[j][l].id == ticks[i][m].id
    requires due == clocks[i](m) + Delay(base, cap, CountIn(books[i], ticks[i][m].id) + 1)
    requires forall k, x :: i < k < j && 0 <= x < |ticks[k]| && ticks[k][x].id == ticks[i][m].id ==> nows[k] < due
    ensures ticks[j][l].visited <==> due <= nows[j]
  {
    var id := ticks[i][m].id;
    var logs := seq(|ticks|, (k: nat) requires k < |ticks| && k < |nows| => LogOf(nows[k], ticks[k]));
    forall k | 0 <= k < |ticks|
      ensures TickBooks(books[k], logs[k], books[k + 1]) && logs[k].now == nows[k]
      ensures id in logs[k].listed <==> exists x :: 0 <= x < |ticks[k]| && ticks[k][x].id == id
    {
      assert TickMade(base, cap, books[k], nows[k], clocks[k], ticks[k], books[k + 1]);
      TickIsLogged(nows[k], books[k], ticks[k]);
      LogLists(nows[k], ticks[k]);
    }
    assert TickMade(base, cap, books[i], nows[i], clocks[i], ticks[i], books[i + 1]);
    assert RecordedAt(base, cap, books[i], clocks[i](m), ticks[i][m]);
    LogDues(nows[i], ticks[i], m);
    BackoffHolds(books, logs, id, i, j);
    assert TickMade(base, cap, books[j], nows[j], clocks[j], ticks[j], books[j + 1]);
    assert TickBook(books[j], logs[j], books[j + 1], id);
  }

  /** Which entries a plan visits: those without a retry time, and those whose retry time has come. */
  lemma PlanForExactly(plan: seq<Option<VisitFaults>>, todo: seq<Snap>, retryAt: map<string, int>, now: int, faults: nat -> VisitFaults)
    ensures PlanFor(plan, todo, retryAt, now, faults) <==>
            && |plan| <= |todo|
            && forall k :: 0 <= k < |plan| ==>
                 plan[k] == if todo[k].id !in retryAt || retryAt[todo[k].id] <= now then Some(faults(k)) else None
  {
  }
}
