/** The deployment store, the gauge and the cluster API as the objects their callers update
    (control-plane/internal/deployments/store.go, control-plane/internal/observability/metrics.go).
    A call whose `ok` is false fails without effect. */
module DeploymentStore {
  import opened Prelude
  import opened Deployments
  import opened DeploymentProtocol

  datatype StoreError = DeploymentNotFound | DuplicateName | Unavailable

  predicate Listable(status: Status) { status in {Pending, Provisioning, Running, Deleting} }

  class PostgresDeploymentStore {
    var rows: Table

    constructor ()
      ensures rows == []
    {
      rows := [];
    }

    method CreateDeployment(d: Deployment, ok: bool) returns (r: Result<nat, StoreError>)
      requires d == NewDeployment(d.id, d.tenant, d.record, d.version, d.name, d.namespace)
      modifies `rows
      ensures r.Ok? <==> ok && !Conflicts(old(rows), d.id, d.tenant, d.name)
      ensures r.Ok? <==>
                ok && forall i :: 0 <= i < |old(rows)| ==>
                  old(rows)[i].id != d.id && !(old(rows)[i].tenant == d.tenant && old(rows)[i].name == d.name)
      ensures r.Ok? ==> r.value == |old(rows)| && rows == old(rows) + [d]
      ensures r.Err? ==> rows == old(rows) && r.error == if ok then DuplicateName else Unavailable
    {
      if !ok { return Err(Unavailable); }
      for i := 0 to |rows|
        invariant forall k :: 0 <= k < i ==> rows[k].id != d.id && !(rows[k].tenant == d.tenant && rows[k].name == d.name)
      {
        if rows[i].id == d.id || (rows[i].tenant == d.tenant && rows[i].name == d.name) {
          return Err(DuplicateName);
        }
      }
      r := Ok(|rows|);
      rows := rows + [d];
    }

    method GetDeployment(dep: nat, ok: bool) returns (r: Result<Deployment, StoreError>)
      ensures r == if ok && dep < |rows| then Ok(rows[dep]) else Err(if ok then DeploymentNotFound else Unavailable)
    {
      if !ok { return Err(Unavailable); }
      if dep >= |rows| { return Err(DeploymentNotFound); }
      r := Ok(rows[dep]);
    }

    method UpdateDeploymentStatus(dep: nat, report: Report, ok: bool) returns (done: bool)
      modifies `rows
      ensures done == (ok && dep < |old(rows)|)
      ensures rows == if done
                      then old(rows)[dep := WithStatus(old(rows)[dep], report.status, report.endpoint, report.failureReason)]
                      else old(rows)
      ensures done ==> rows == old(rows)[dep := old(rows)[dep].(
                         status := report.status, endpoint := report.endpoint, failureReason := report.failureReason)]
    {
      done := ok && dep < |rows|;
      if done {
        rows := rows[dep := rows[dep].(status := report.status, endpoint := report.endpoint, failureReason := report.failureReason)];
      }
    }

    /** status NOT IN ('deleting', 'deleted') */
    method DeleteDeployment(dep: nat, ok: bool) returns (done: bool)
      modifies `rows
      ensures done == (ok && dep < |old(rows)| && old(rows)[dep].status != Deleting && old(rows)[dep].status != Deleted)
      ensures rows == if done then old(rows)[dep := old(rows)[dep].(status := Deleting)] else old(rows)
    {
      done := ok && dep < |rows| && rows[dep].status != Deleting && rows[dep].status != Deleted;
      if done {
        rows := rows[dep := rows[dep].(status := Deleting)];
      }
    }

    method GetCurrentRevisionNumber(dep: nat) returns (n: int)
      ensures n == if dep < |rows| then MaxRevision(rows[dep].revisions) else 0
    {
      n := 0;
      if dep < |rows| {
        var revs := rows[dep].revisions;
        for i := 0 to |revs|
          invariant n == MaxRevision(revs[..i])
        {
          assert revs[..i + 1][..i] == revs[..i];
          if revs[i].number > n { n := revs[i].number; }
        }
        assert revs[..|revs|] == revs;
      }
    }

    method GetRevision(dep: nat, number: int) returns (r: Option<Revision>)
      ensures r == if dep < |rows| then FindRevision(rows[dep].revisions, number) else None
    {
      r := None;
      if dep < |rows| {
        var revs := rows[dep].revisions;
        for i := 0 to |revs|
          invariant r == FindRevision(revs[..i], number)
        {
          assert revs[..i + 1][..i] == revs[..i];
          if revs[i].number == number { r := Some(revs[i]); }
        }
        assert revs[..|revs|] == revs;
      }
    }

    method RollbackDeployment(dep: nat, version: nat, ok: bool) returns (done: bool)
      modifies `rows
      ensures done == (ok && dep < |old(rows)|)
      ensures rows == if done then old(rows)[dep := RolledBack(old(rows)[dep], version)] else old(rows)
    {
      var n := GetCurrentRevisionNumber(dep);
      done := ok && dep < |rows|;
      if done {
        var revised := rows[dep].(revisions := rows[dep].revisions + [Revision(n + 1, version)]);
        rows := rows[dep := revised.(version := version, status := Pending, endpoint := "", failureReason := "")];
      }
    }

    /** GROUP BY status over the rows that are not deleted. */
    method CountByStatus() returns (counts: map<Status, int>)
      ensures forall st :: st in counts <==> st != Deleted && CountOf(rows, st) > 0
      ensures forall st :: st in counts ==> counts[st] == CountOf(rows, st)
    {
      counts := map[];
      for i := 0 to |rows|
        invariant forall st :: 0 <= CountOf(rows[..i], st) && (st in counts <==> st != Deleted && CountOf(rows[..i], st) > 0)
        invariant forall st :: st in counts ==> counts[st] == CountOf(rows[..i], st)
      {
        assert rows[..i + 1][..i] == rows[..i];
        var st := rows[i].status;
        if st != Deleted {
          counts := counts[st := (if st in counts then counts[st] else 0) + 1];
        }
      }
      assert rows[..|rows|] == rows;
    }

    method ListPendingDeployments() returns (snaps: seq<Snap>)
      ensures snaps == Listed(rows, |rows|)
    {
      snaps := [];
      for i := 0 to |rows|
        invariant snaps == Listed(rows, i)
      {
        if Listable(rows[i].status) {
          snaps := snaps + [Snap(i, rows[i].id, rows[i].namespace, rows[i].status)];
        }
      }
    }
  }

  /** The deployment_count gauge, with the history that the protocol keeps of it. */
  class DeploymentCount {
    var values: map<Status, int>
    ghost var ledger: seq<Entry>
    ghost var baseline: Baseline

    constructor ()
      ensures values == map[] && ledger == [] && baseline == Baseline([], map[])
    {
      values, ledger, baseline := map[], [], Baseline([], map[]);
    }

    method Add(st: Status, delta: int)
      modifies `values
      ensures values == Bumped(old(values), st, delta)
    {
      values := values[st := (if st in values then values[st] else 0) + delta];
    }

    /** The gauge of a new process before anything is counted. */
    method Begin(ghost rows: Table)
      modifies this
      ensures values == map[] && ledger == [] && baseline == Baseline(rows, map[])
    {
      values := map[];
      ledger, baseline := [], Baseline(rows, map[]);
    }

    /** SyncDeploymentCountGauge: reset, then set every label counted. */
    method Sync(counts: map<Status, int>, ghost rows: Table)
      modifies this
      ensures values == counts && ledger == [] && baseline == Baseline(rows, counts)
    {
      values := map[];
      var left := counts.Keys;
      while left != {}
        invariant left <= counts.Keys && values == map st | st in counts.Keys - left :: counts[st]
        decreases left
      {
        var st :| st in left;
        values := values[st := counts[st]];
        left := left - {st};
      }
      ledger, baseline := [], Baseline(rows, counts);
    }
  }

  /** The pods and services of the cluster, which the environment may change between two calls. */
  class KubeClient {
    var pods: map<ObjectKey, Pod>
    var services: set<ObjectKey>

    constructor ()
      ensures pods == map[] && services == {}
    {
      pods, services := map[], {};
    }

    /** Get, then Create if it is missing. Refused covers every failure before the object exists. */
    method EnsurePod(key: ObjectKey, outcome: Outcome) returns (err: bool, found: Option<Pod>)
      modifies `pods
      ensures err == (outcome != Reached)
      ensures !err ==> found == if key in old(pods) then Some(old(pods)[key]) else None
      ensures pods == if outcome == Refused || key in old(pods) then old(pods) else old(pods)[key := Pod(PodPending, "")]
    {
      err, found := outcome != Reached, None;
      if key in pods {
        found := Some(pods[key]);
      } else if outcome != Refused {
        pods := pods[key := Pod(PodPending, "")];
      }
    }

    method EnsureService(key: ObjectKey, outcome: Outcome) returns (err: bool)
      modifies `services
      ensures err == (outcome != Reached)
      ensures services == if outcome == Refused then old(services) else old(services) + {key}
    {
      err := outcome != Reached;
      if outcome != Refused {
        services := services + {key};
      }
    }

    /** Get, then Delete if it is there; a missing pod is no error. */
    method DropPod(key: ObjectKey, outcome: Outcome) returns (err: bool)
      modifies `pods
      ensures err == (outcome != Reached)
      ensures pods == if outcome == Refused then old(pods) else old(pods) - {key}
    {
      err := outcome != Reached;
      if outcome != Refused {
        pods := pods - {key};
      }
    }

    method DropService(key: ObjectKey, outcome: Outcome) returns (err: bool)
      modifies `services
      ensures err == (outcome != Reached)
      ensures services == if outcome == Refused then old(services) else old(services) - {key}
    {
      err := outcome != Reached;
      if outcome != Refused {
        services := services - {key};
      }
    }
  }
}
