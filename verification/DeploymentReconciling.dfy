/** The deployment reconciler of the operator
    (operator/internal/reconciler/deployment_reconciler.go) as the object it is: its backoff state,
    and the calls it makes to the cluster and to the control plane. */
module DeploymentReconciling {
  import opened Prelude
  import opened Backoff
  import opened Deployments
  import opened DeploymentProtocol
  import opened DeploymentHistory
  import opened DeploymentSafety
  import opened DeploymentVisits
  import opened DeploymentConvergence
  import opened DeploymentStore
  import opened DeploymentServices
  import opened DeploymentPlan

  class DeploymentReconciler {
    const api: DeploymentsHandler
    const retryBaseDelay: int
    const retryMaxDelay: int
    var failureCounts: map<string, nat>
    var nextRetryAt: map<string, int>
    ghost var outcomes: map<string, seq<bool>>      // of every visit so far, true for success

    constructor (api: DeploymentsHandler, retryBaseDelay: int, retryMaxDelay: int)
      ensures Valid() && outcomes == map[] && this.api == api
      ensures this.retryBaseDelay == retryBaseDelay && this.retryMaxDelay == retryMaxDelay
    {
      this.api, this.retryBaseDelay, this.retryMaxDelay := api, retryBaseDelay, retryMaxDelay;
      failureCounts, nextRetryAt, outcomes := map[], map[], map[];
    }

    ghost function TheBooks(): Books
      reads this
    {
      Books(failureCounts, nextRetryAt, outcomes)
    }

    ghost predicate Valid()
      reads this
    {
      BooksOk(TheBooks())
    }

    /** The doubling loop of recordFailure. */
    method DelayAfter(count: nat) returns (delay: int)
      requires count > 0
      ensures delay == Delay(retryBaseDelay, retryMaxDelay, count)
    {
      var base, cap := retryBaseDelay, retryMaxDelay;
      if base == 0 { base := 5_000_000_000; }
      if cap == 0 { cap := 30_000_000_000; }
      delay := base;
      var i := 1;
      while i < count
        invariant 1 <= i <= count
        invariant Doubled(base, cap, count - 1) == Doubled(delay, cap, count - i)
        decreases count - i
      {
        delay := Wrap64(delay * 2);
        if delay >= cap {
          delay := cap;
          break;
        }
        i := i + 1;
      }
      assert delay == Doubled(base, cap, count - 1);
    }

    method RecordFailure(id: string, now: int)
      modifies this
      ensures TheBooks() == WithFailure(old(TheBooks()), id,
                now + Delay(retryBaseDelay, retryMaxDelay, CountIn(old(TheBooks()), id) + 1))
    {
      var count := (if id in failureCounts then failureCounts[id] else 0) + 1;
      failureCounts := failureCounts[id := count];
      var delay := DelayAfter(count);
      nextRetryAt := nextRetryAt[id := now + delay];
      outcomes := outcomes[id := HistoryOf(outcomes, id) + [false]];
    }

    method RecordSuccess(id: string)
      modifies this
      ensures TheBooks() == WithSuccess(old(TheBooks()), id)
    {
      failureCounts, nextRetryAt := failureCounts - {id}, nextRetryAt - {id};
      outcomes := outcomes[id := HistoryOf(outcomes, id) + [true]];
    }

    method ReconcileDelete(snap: Snap, f: VisitFaults) returns (err: bool)
      requires snap.dep < |api.store.rows| && snap.status == Deleting
      modifies api.store`rows, api.gauge, api.kube
      ensures api.Now() == Visited(old(api.Now()), snap, [], f)
      ensures err == VisitFails(old(api.Now()), snap, f) && |api.store.rows| == |old(api.store.rows)|
    {
      ghost var before := api.Now();
      WorkedDeleting(before.op, snap, [], f);
      var key := KeyOf(snap.id, snap.namespace);
      err := api.kube.DropPod(key, f.pod);
      if err { return; }
      err := api.kube.DropService(key, f.service);
      if err { return; }
      var r := api.HandleUpdateDeploymentStatus(snap.dep, Report(Deleted, "", ""), f.write);
      err := r.Err?;
    }

    method ReconcileOne(snap: Snap, f: VisitFaults) returns (err: bool)
      requires snap.dep < |api.store.rows|
      modifies api.store`rows, api.gauge, api.kube
      ensures api.Now() == Visited(old(api.Now()), snap, [], f)
      ensures err == VisitFails(old(api.Now()), snap, f) && |api.store.rows| == |old(api.store.rows)|
    {
      if snap.status == Deleting {
        err := ReconcileDelete(snap, f);
        return;
      }
      ghost var before := api.Now();
      WorkedServing(before.op, snap, [], f);
      var key := KeyOf(snap.id, snap.namespace);
      var pod;
      err, pod := api.kube.EnsurePod(key, f.pod);
      if err { return; }
      err := api.kube.EnsureService(key, f.service);
      if err { return; }
      var report := Report(Provisioning, "", "");
      if pod.Some? {
        var status := MapPodPhase(pod.value.phase);
        if status == snap.status { return false; }
        var endpoint, reason := "", "";
        if status == Running { endpoint := ServingEndpoint(snap.id, snap.namespace); }
        if status == Failed { reason := pod.value.message; }
        report := Report(status, endpoint, reason);
      }
      var r := api.HandleUpdateDeploymentStatus(snap.dep, report, f.write);
      err := r.Err?;
    }

    /** When a failure recorded at `now` lets the deployment be visited again. */
    ghost function RetryTime(id: string, now: int): int
      reads this
    {
      now + Delay(retryBaseDelay, retryMaxDelay, CountIn(TheBooks(), id) + 1)
    }

    /** The body of the loop of reconcileAll. `at` is the time at which a failure is recorded. */
    method ReconcileEntry(snap: Snap, now: int, at: int, f: VisitFaults) returns (ghost next: Option<VisitFaults>)
      requires snap.dep < |api.store.rows|
      modifies this, api.store`rows, api.gauge, api.kube
      ensures |api.store.rows| == |old(api.store.rows)|
      ensures next == if snap.id in old(nextRetryAt) && now < old(nextRetryAt)[snap.id] then None else Some(f)
      ensures api.Now() == Entered(old(api.Now()), snap, [], next)
      ensures TheBooks() == Booked(old(TheBooks()), snap.id, next.Some?, VisitFails(old(api.Now()), snap, f), old(RetryTime(snap.id, at)))
    {
      if snap.id in nextRetryAt && now < nextRetryAt[snap.id] { return None; }
      next := Some(f);
      var err := ReconcileOne(snap, f);
      if err {
        RecordFailure(snap.id, at);
      } else {
        RecordSuccess(snap.id);
      }
    }

    /** One tick: visit what is listed and not backing off, and keep the books. `listed` is whether
        the listing call succeeds; without it the tick does nothing. `clock(k)` is the time at which a
        failure of the k-th visit is recorded. */
    method ReconcileAll(listed: bool, now: int, clock: nat -> int, faults: nat -> VisitFaults)
      returns (ghost plan: seq<Option<VisitFaults>>, ghost attempts: seq<Attempt>)
      requires Valid() && IdsUnique(api.store.rows)
      modifies this, api.store`rows, api.gauge, api.kube
      ensures Valid()
      ensures !listed ==> api.Now() == old(api.Now()) && TheBooks() == old(TheBooks())
      ensures listed ==>
                var todo := Listed(old(api.store.rows), |old(api.store.rows)|);
                && |plan| == |todo| && InTable(todo, old(api.store.rows))
                && PlanFor(plan, todo, old(nextRetryAt), now, faults)
                && api.Now() == Exec(old(api.Now()), [List] + PlanSteps(plan))
                && AttemptsOf(old(api.Now()), todo, plan, faults, attempts)
      ensures listed ==>
                forall k :: 0 <= k < |plan| ==>
                  var id := Listed(old(api.store.rows), |old(api.store.rows)|)[k].id;
                  plan[k].Some? <==> id !in old(nextRetryAt) || old(nextRetryAt)[id] <= now
      ensures listed ==> TickMade(retryBaseDelay, retryMaxDelay, old(TheBooks()), now, clock, attempts, TheBooks())
    {
      plan, attempts := [], [];
      if !listed { return; }
      ghost var before, opening := api.Now(), TheBooks();
      var todo := api.store.ListPendingDeployments();
      UnderwayStart(before, now, faults, opening);
      for k := 0 to |todo|
        invariant |plan| == k
        invariant Progress(retryBaseDelay, retryMaxDelay, before, opening, now, clock, faults, plan, attempts, api.Now(), TheBooks())
      {
        ghost var here, books := api.Now(), TheBooks();
        ghost var due := RetryTime(todo[k].id, clock(k));
        assert todo[k].dep < |here.deps|;
        ghost var err := VisitFails(here, todo[k], faults(k));
        ProgressNext(retryBaseDelay, retryMaxDelay, before, opening, now, clock, faults, plan, attempts, here, books, due, err);
        ghost var next := ReconcileEntry(todo[k], now, clock(k), faults(k));
        plan, attempts := plan + [next], attempts + [Attempt(todo[k].id, next.Some?, err, due)];
      }
      ProgressEnds(retryBaseDelay, retryMaxDelay, before, opening, now, clock, faults, plan, attempts, api.Now(), TheBooks());
    }

    /** After a tick in which no call fails and nothing was backing off, every deployment is settled. */
    method CleanTick(now: int, clock: nat -> int)
      requires Valid() && IdsUnique(api.store.rows) && nextRetryAt == map[]
      modifies this, api.store`rows, api.gauge, api.kube
      ensures |api.store.rows| == |old(api.store.rows)|
      ensures forall i: nat :: i < |api.store.rows| ==>
                Settled(old(api.store.rows)[i], old(api.Now()).op, api.store.rows[i], api.Now().op)
    {
      ghost var before := api.Now();
      ghost var plan, attempts := ReconcileAll(true, now, clock, k => NO_VISIT_FAULT);
      CleanPlanIsPass(plan);
      ListedOk(before.deps, |before.deps|);
      ListedSafe(before.deps, |before.deps|);
      forall i: nat | i < |before.deps|
        ensures i < |api.store.rows| && Settled(before.deps[i], before.op, api.store.rows[i], api.Now().op)
      {
        PassSettles(before, 0, i);
      }
      PassLength(before, 0);
    }
  }
}
