/** Registration, promotion and alias resolution as code (control-plane/internal/models/service.go,
    store.go) over the two stores it writes. Each method is proved to do what its request does in the
    registry protocol when carried to its end, whichever calls fail. */
module RegistryServices {
  import opened Prelude
  import opened Registry
  import opened RegistryProtocol
  import opened RegistryHistory
  import opened RegistryAlias
  import opened RegistryFaults
  import opened RegistryPromotions
  import Jobs

  class MlflowClient {
    var models: map<string, MlModel>

    constructor ()
      ensures models == map[]
    {
      models := map[];
    }

    /** An existing model is no error. */
    method CreateRegisteredModel(name: string, o: Outcome) returns (err: bool, created: bool)
      modifies this
      ensures err == (o != Reached) && created == (!err && name !in old(models))
      ensures models == if o == Refused then old(models) else ModelCreated(old(models), name)
    {
      err, created := o != Reached, false;
      if o != Refused && name !in models {
        created := !err;
        models := models[name := MlModel(0, map[], map[])];
      }
    }

    method CreateModelVersion(name: string, runId: string, o: Outcome) returns (err: bool, number: nat)
      modifies this
      ensures err == (o != Reached || name !in old(models))
      ensures !err ==> number == old(models)[name].last + 1
      ensures models == if o == Refused || name !in old(models) then old(models) else VersionCreated(old(models), name, runId)
    {
      err, number := o != Reached || name !in models, 0;
      if o != Refused && name in models {
        var m := models[name];
        number := m.last + 1;
        models := models[name := MlModel(number, m.live[number := runId], m.aliases)];
      }
    }

    method DeleteModelVersion(name: string, number: nat, o: Outcome)
      modifies this
      ensures models == if o == Refused then old(models) else VersionDropped(old(models), name, number)
    {
      if o != Refused && name in models {
        var m := models[name];
        var aliases := map a | a in m.aliases && m.aliases[a] != number :: m.aliases[a];
        models := models[name := MlModel(m.last, m.live - {number}, aliases)];
      }
    }

    method DeleteRegisteredModel(name: string, o: Outcome)
      modifies this
      ensures models == if o == Refused then old(models) else old(models) - {name}
    {
      if o != Refused {
        models := models - {name};
      }
    }

    method SetModelAlias(name: string, alias: Label, number: nat, o: Outcome) returns (err: bool)
      modifies this
      ensures var known := name in old(models) && number in old(models)[name].live;
              err == (o != Reached || !known)
              && models == if o == Refused || !known then old(models) else AliasSet(old(models), name, alias, number)
    {
      var known := name in models && number in models[name].live;
      err := o != Reached || !known;
      if o != Refused && known {
        models := models[name := models[name].(aliases := models[name].aliases[alias := number])];
      }
    }

    /** A missing alias is no error. */
    method DeleteModelAlias(name: string, alias: Label, o: Outcome)
      modifies this
      ensures models == if o == Refused then old(models) else AliasDropped(old(models), name, alias)
    {
      if o != Refused && name in models {
        models := models[name := models[name].(aliases := models[name].aliases - {alias})];
      }
    }

    method GetModelVersionByAlias(name: string, alias: Label) returns (r: Option<nat>)
      ensures r == if name in models && alias in models[name].aliases then Some(models[name].aliases[alias]) else None
    {
      r := None;
      if name in models && alias in models[name].aliases {
        r := Some(models[name].aliases[alias]);
      }
    }
  }

  class PostgresModelStore {
    var records: map<ModelKey, Record>
    var nextId: nat

    constructor ()
      ensures records == map[] && nextId == 0
    {
      records, nextId := map[], 0;
    }

    method CreateOrGetModelRecord(key: ModelKey, project: string, o: Outcome) returns (err: bool)
      modifies this
      ensures err == (o != Reached)
      ensures forall ml :: Reg(ml, records, nextId) ==
                if o == Refused then Reg(ml, old(records), old(nextId)) else RecordPut(Reg(ml, old(records), old(nextId)), key, project)
    {
      err := o != Reached;
      if o != Refused && key !in records {
        records := records[key := Record(nextId, project, NameOf(key), map[])];
        nextId := nextId + 1;
      }
    }

    /** (model_record_id, version_number) is unique. */
    method CreateModelVersion(key: ModelKey, number: nat, src: Source, o: Outcome) returns (err: bool)
      modifies this
      ensures var free := key in old(records) && number !in old(records)[key].versions;
              err == (o != Reached || !free)
              && forall ml :: Reg(ml, records, nextId) ==
                   if o == Refused || !free then Reg(ml, old(records), old(nextId))
                   else VersionPut(Reg(ml, old(records), old(nextId)), key, number, src)
    {
      var free := key in records && number !in records[key].versions;
      err := o != Reached || !free;
      if o != Refused && free {
        var ver := Version(nextId, src.run, src.mlflowRunId, Candidate);
        records := records[key := records[key].(versions := records[key].versions[number := ver])];
        nextId := nextId + 1;
      }
    }

    method GetModelRecordByName(key: ModelKey) returns (r: Option<Record>)
      ensures r == if key in records then Some(records[key]) else None
    {
      r := if key in records then Some(records[key]) else None;
    }

    method UpdateModelVersionStatus(key: ModelKey, number: nat, status: Label, o: Outcome) returns (err: bool)
      modifies `records
      ensures var known := key in old(records) && number in old(records)[key].versions;
              err == (o != Reached || !known)
              && records == if o == Refused || !known then old(records)
                            else old(records)[key := old(records)[key].(versions :=
                                   old(records)[key].versions[number := old(records)[key].versions[number].(status := status)])]
    {
      var known := key in records && number in records[key].versions;
      err := o != Reached || !known;
      if o != Refused && known {
        var versions := records[key].versions;
        records := records[key := records[key].(versions := versions[number := versions[number].(status := status)])];
      }
    }

    /** One transaction: first the other holders of the alias are made candidates, row by row, then
        the version is made its holder. */
    method PromoteModelVersionStatus(key: ModelKey, number: nat, alias: Label, o: Outcome) returns (err: bool)
      modifies `records
      ensures var known := key in old(records) && number in old(records)[key].versions;
              err == (o != Reached || !known)
              && records == if o == Refused || !known then old(records)
                            else old(records)[key := old(records)[key].(versions := Held(old(records)[key].versions, number, alias))]
    {
      var known := key in records && number in records[key].versions;
      err := o != Reached || !known;
      if o == Refused || !known { return; }
      var before := records[key].versions;
      var versions := before;
      var left := versions.Keys;
      while left != {}
        invariant left <= before.Keys == versions.Keys
        invariant forall n :: n in left ==> versions[n] == before[n]
        invariant forall n :: n in before && n !in left ==>
                    versions[n] == if before[n].status == alias && n != number then before[n].(status := Candidate) else before[n]
        decreases left
      {
        var n :| n in left;
        if versions[n].status == alias && n != number {
          versions := versions[n := versions[n].(status := Candidate)];
        }
        left := left - {n};
      }
      versions := versions[number := versions[number].(status := alias)];
      assert versions == Held(before, number, alias);
      records := records[key := records[key].(versions := versions)];
    }
  }

  /** What GetRunForRegistration answers. */
  datatype RunLookup = RunMissing | LookupFailed | RunFound(project: string, status: Jobs.Status, mlflowRunId: Option<string>)

  datatype RegisterError =
    | BadRequest | RunNotFound | RunLookupFailed | RunNotSucceeded | RunNoMlflowId
    | ModelNotCreated | VersionNotCreated | RecordNotPersisted | VersionNotPersisted

  datatype PromoteError =
    | InvalidAlias | ReadFailed | NoSuchModel | NoSuchVersion | VersionArchived | AliasNotSet | StatusNotSet

  /** Whether the reads at the start of Promote succeed. */
  datatype PromoteReads = PromoteReads(record: bool, version: bool)

  /** And those of ResolveAlias. */
  datatype ResolveReads = ResolveReads(record: bool, alias: bool, version: bool)

  /** Which registrations are turned down before anything is written. */
  function RegisterRefusal(runId: string, name: string, run: RunLookup): Option<RegisterError> {
    if runId == "" || name == "" then Some(BadRequest)
    else match run
      case RunMissing => Some(RunNotFound)
      case LookupFailed => Some(RunLookupFailed)
      case RunFound(_, status, mlflowRunId) =>
        if status != Jobs.SUCCEEDED then Some(RunNotSucceeded)
        else if mlflowRunId == None then Some(RunNoMlflowId)
        else None
  }

  class ModelService {
    const store: PostgresModelStore
    const mlflow: MlflowClient

    constructor (store: PostgresModelStore, mlflow: MlflowClient)
      ensures this.store == store && this.mlflow == mlflow
    {
      this.store, this.mlflow := store, mlflow;
    }

    ghost function Now(): Reg
      reads store, mlflow
    {
      Reg(mlflow.models, store.records, store.nextId)
    }

    /** Register, from the run it finds; `run` names the training_runs row of `runId`. */
    method Register(tenant: string, runId: string, name: string, lookup: RunLookup, run: RunRef, f: RegisterFaults)
      returns (r: Result<nat, RegisterError>)
      modifies store, mlflow
      ensures RegisterRefusal(runId, name, lookup).Some? ==>
                Now() == old(Now()) && r == Err(RegisterRefusal(runId, name, lookup).value)
      ensures RegisterRefusal(runId, name, lookup).None? ==>
                Now() == Carried(old(Now()), Naming(ModelKey(tenant, name), Source(lookup.project, run, lookup.mlflowRunId.value)), f)
      ensures r.Ok? ==> r.value in VersionsOf(Now(), ModelKey(tenant, name))
                        && r.value !in VersionsOf(old(Now()), ModelKey(tenant, name))
                        && VersionsOf(Now(), ModelKey(tenant, name))[r.value].run == run
      ensures var key, modelName := ModelKey(tenant, name), tenant + "-" + name;
              var number := (if modelName in old(mlflow.models) then old(mlflow.models)[modelName].last else 0) + 1;
              r == if runId == "" || name == "" then Err(BadRequest)
                   else if lookup.RunMissing? then Err(RunNotFound)
                   else if lookup.LookupFailed? then Err(RunLookupFailed)
                   else if lookup.status != Jobs.SUCCEEDED then Err(RunNotSucceeded)
                   else if lookup.mlflowRunId == None then Err(RunNoMlflowId)
                   else if f.name != Reached then Err(ModelNotCreated)
                   else if f.version != Reached then Err(VersionNotCreated)
                   else if f.record != Reached then Err(RecordNotPersisted)
                   else if f.store != Reached || (key in old(store.records) && number in old(store.records)[key].versions)
                   then Err(VersionNotPersisted)
                   else Ok(number)
    {
      if runId == "" || name == "" { return Err(BadRequest); }
      match lookup {
        case RunMissing => return Err(RunNotFound);
        case LookupFailed => return Err(RunLookupFailed);
        case RunFound(project, status, mlflowRunId) =>
          if status != Jobs.SUCCEEDED { return Err(RunNotSucceeded); }
          if mlflowRunId == None { return Err(RunNoMlflowId); }
          r := RegisterVersion(ModelKey(tenant, name), Source(project, run, mlflowRunId.value), f);
      }
    }

    /** The compensation: the version that was created goes, and the model if it was created for it. */
    method CleanUp(key: ModelKey, modelName: string, number: nat, created: bool, f: RegisterFaults)
      requires modelName == NameOf(key)
      modifies mlflow
      ensures Now() == Carried(old(Now()), Undoing(key, number, created), f)
    {
      ghost var before := Now();
      mlflow.DeleteModelVersion(modelName, number, f.undo);
      assert Carried(before, Undoing(key, number, created), f) == if created then Carried(Now(), Dropping(key), f) else Now();
      if created { mlflow.DeleteRegisteredModel(modelName, f.drop); }
    }

    /** The saga itself. */
    method RegisterVersion(key: ModelKey, src: Source, f: RegisterFaults) returns (r: Result<nat, RegisterError>)
      modifies store, mlflow
      ensures Now() == Carried(old(Now()), Naming(key, src), f)
      ensures r.Ok? ==> r.value in VersionsOf(Now(), key) && r.value !in VersionsOf(old(Now()), key)
                        && VersionsOf(Now(), key)[r.value].run == src.run
      ensures var modelName := key.tenant + "-" + key.name;
              var number := (if modelName in old(mlflow.models) then old(mlflow.models)[modelName].last else 0) + 1;
              r == if f.name != Reached then Err(ModelNotCreated)
                   else if f.version != Reached then Err(VersionNotCreated)
                   else if f.record != Reached then Err(RecordNotPersisted)
                   else if f.store != Reached || (key in old(store.records) && number in old(store.records)[key].versions)
                   then Err(VersionNotPersisted)
                   else Ok(number)
    {
      ghost var before := Now();
      var modelName := key.tenant + "-" + key.name;
      var err, created := mlflow.CreateRegisteredModel(modelName, f.name);
      if err { return Err(ModelNotCreated); }
      NextCarried(before, Naming(key, src), Now(), Versioning(key, src, created), f);
      ghost var named := Now();
      var number;
      err, number := mlflow.CreateModelVersion(modelName, src.mlflowRunId, f.version);
      if err {
        if created { NextCarried(named, Versioning(key, src, created), Now(), Dropping(key), f); }
        if created { mlflow.DeleteRegisteredModel(modelName, f.drop); }
        return Err(VersionNotCreated);
      }
      NextCarried(named, Versioning(key, src, created), Now(), Recording(key, src, created, number), f);
      ghost var versioned := Now();
      err := store.CreateOrGetModelRecord(key, src.project, f.record);
      if err {
        NextCarried(versioned, Recording(key, src, created, number), Now(), Undoing(key, number, created), f);
        CleanUp(key, modelName, number, created, f);
        return Err(RecordNotPersisted);
      }
      NextCarried(versioned, Recording(key, src, created, number), Now(), Storing(key, src, number), f);
      ghost var recorded := Now();
      err := store.CreateModelVersion(key, number, src, f.store);
      if err {
        NextCarried(recorded, Storing(key, src, number), Now(), Undoing(key, number, false), f);
        CleanUp(key, modelName, number, false, f);
        return Err(VersionNotPersisted);
      }
      r := Ok(number);
    }

    /** Promote; `alias` is what the user sent. */
    method Promote(tenant: string, name: string, number: nat, alias: Label, lookups: PromoteReads, f: PromoteFaults)
      returns (r: Result<(), PromoteError>)
      modifies store, mlflow
      ensures old(RowsOk(Now())) && Accepted(old(Now()), ModelKey(tenant, name), number, alias) && lookups == PromoteReads(true, true) ==>
                Now() == Promoted(old(Now()), PromoteRequest(ModelKey(tenant, name), number, alias), f)
      ensures !Accepted(old(Now()), ModelKey(tenant, name), number, alias) || lookups != PromoteReads(true, true) ==>
                Now() == old(Now()) && r.Err?
      ensures r == Err(ReadFailed) <==>
                Promotable(alias) && (!lookups.record || (ModelKey(tenant, name) in old(store.records) && !lookups.version))
      ensures var key := ModelKey(tenant, name);
              r == if alias != Staging && alias != Production && alias != Archived then Err(InvalidAlias)
                   else if !lookups.record then Err(ReadFailed)
                   else if key !in old(store.records) then Err(NoSuchModel)
                   else if !lookups.version then Err(ReadFailed)
                   else if number !in old(store.records)[key].versions then Err(NoSuchVersion)
                   else if old(store.records)[key].versions[number].status == Archived then Err(VersionArchived)
                   else if alias == Archived then (if f.archive == Reached then Ok(()) else Err(StatusNotSet))
                   else
                     var modelName := old(store.records)[key].mlflowName;
                     if f.alias != Reached || modelName !in old(mlflow.models) || number !in old(mlflow.models)[modelName].live
                     then Err(AliasNotSet)
                     else if f.holder != Reached then Err(StatusNotSet)
                     else Ok(())
      ensures r.Ok? ==> HasStatus(VersionsOf(Now(), ModelKey(tenant, name)), number, alias)
      ensures r.Ok? ==>
                var key := ModelKey(tenant, name);
                && key in store.records && store.records[key].versions.Keys == old(store.records)[key].versions.Keys
                && forall n :: n in store.records[key].versions ==>
                     store.records[key].versions[n].status ==
                     if n == number then alias
                     else if alias != Archived && old(store.records)[key].versions[n].status == alias then Candidate
                     else old(store.records)[key].versions[n].status
      ensures r.Ok? && alias != Archived ==>
                var modelName := old(store.records)[ModelKey(tenant, name)].mlflowName;
                && modelName in mlflow.models
                && mlflow.models[modelName].aliases == old(mlflow.models)[modelName].aliases[alias := number]
      ensures r.Ok? && alias == Archived ==>
                var modelName := old(store.records)[ModelKey(tenant, name)].mlflowName;
                && (modelName in mlflow.models <==> modelName in old(mlflow.models))
                && (modelName in mlflow.models ==>
                      forall a :: a in mlflow.models[modelName].aliases <==>
                        && a in old(mlflow.models)[modelName].aliases
                        && !(a == Staging && f.unstage != Refused) && !(a == Production && f.unproduce != Refused))
      ensures old(IsArchived(Now(), ModelKey(tenant, name), number)) && Promotable(alias) && lookups == PromoteReads(true, true) ==>
                r == Err(VersionArchived) && Now() == old(Now())
    {
      var key := ModelKey(tenant, name);
      if alias != Staging && alias != Production && alias != Archived { return Err(InvalidAlias); }
      if !lookups.record { return Err(ReadFailed); }
      var rec := store.GetModelRecordByName(key);
      if rec.None? { return Err(NoSuchModel); }
      if !lookups.version { return Err(ReadFailed); }
      var versions := rec.value.versions;
      if number !in versions { return Err(NoSuchVersion); }
      if versions[number].status == Archived { return Err(VersionArchived); }
      if alias == Archived {
        r := Archive(key, rec.value.mlflowName, number, f);
      } else {
        r := Hold(key, rec.value.mlflowName, number, alias, f);
      }
    }

    method Archive(key: ModelKey, modelName: string, number: nat, f: PromoteFaults) returns (r: Result<(), PromoteError>)
      requires key in store.records && number in store.records[key].versions
      modifies store, mlflow
      ensures r != Err(ReadFailed)
      ensures modelName == NameOf(key) ==> Now() == Promoted(old(Now()), Unstaging(key, number), f)
      ensures r == if f.archive == Reached then Ok(()) else Err(StatusNotSet)
      ensures r.Ok? ==>
                && key in store.records && store.records[key].versions.Keys == old(store.records)[key].versions.Keys
                && forall n :: n in store.records[key].versions ==>
                     store.records[key].versions[n].status == if n == number then Archived else old(store.records)[key].versions[n].status
      ensures (modelName in mlflow.models <==> modelName in old(mlflow.models))
              && (modelName in mlflow.models ==>
                    forall a :: a in mlflow.models[modelName].aliases <==>
                      && a in old(mlflow.models)[modelName].aliases
                      && !(a == Staging && f.unstage != Refused) && !(a == Production && f.unproduce != Refused))
    {
      ghost var before := Now();
      mlflow.DeleteModelAlias(modelName, Staging, f.unstage);
      assert modelName == NameOf(key) ==> Promoted(before, Unstaging(key, number), f) == Promoted(Now(), Unproducing(key, number), f);
      mlflow.DeleteModelAlias(modelName, Production, f.unproduce);
      assert modelName == NameOf(key) ==> Promoted(before, Unstaging(key, number), f) == Promoted(Now(), Archiving(key, number), f);
      var err := store.UpdateModelVersionStatus(key, number, Archived, f.archive);
      r := if err then Err(StatusNotSet) else Ok(());
    }

    method Hold(key: ModelKey, modelName: string, number: nat, alias: Label, f: PromoteFaults) returns (r: Result<(), PromoteError>)
      requires key in store.records && number in store.records[key].versions && Exclusive(alias)
      modifies store, mlflow
      ensures r != Err(ReadFailed)
      ensures modelName == NameOf(key) ==> Now() == Promoted(old(Now()), Aliasing(key, number, alias), f)
      ensures r == if f.alias != Reached || modelName !in old(mlflow.models) || number !in old(mlflow.models)[modelName].live
                   then Err(AliasNotSet)
                   else if f.holder != Reached then Err(StatusNotSet)
                   else Ok(())
      ensures r.Ok? ==>
                && key in store.records && store.records[key].versions.Keys == old(store.records)[key].versions.Keys
                && (forall n :: n in store.records[key].versions ==>
                      store.records[key].versions[n].status ==
                      if n == number then alias
                      else if old(store.records)[key].versions[n].status == alias then Candidate
                      else old(store.records)[key].versions[n].status)
                && modelName in mlflow.models
                && mlflow.models[modelName].aliases == old(mlflow.models)[modelName].aliases[alias := number]
    {
      ghost var before := Now();
      var err := mlflow.SetModelAlias(modelName, alias, number, f.alias);
      if err { return Err(AliasNotSet); }
      assert modelName == NameOf(key) ==>
          Promoted(before, Aliasing(key, number, alias), f) == Promoted(Now(), Holding(key, number, alias), f);
      HoldingPromoted(Now(), key, number, alias, f);
      err := store.PromoteModelVersionStatus(key, number, alias, f.holder);
      r := if err then Err(StatusNotSet) else Ok(());
    }

    method ResolveAlias(tenant: string, name: string, alias: Label, lookups: ResolveReads) returns (r: Result<Version, ResolveError>)
      ensures RowsOk(Now()) ==>
                var key := ModelKey(tenant, name);
                if !lookups.record || (key in store.records && (!lookups.alias || (alias in AliasesOf(Now(), key) && !lookups.version)))
                then r == Err(NotAnswered) else r == Resolve(Now(), key, alias)
      ensures var key := ModelKey(tenant, name);
              r == if !lookups.record then Err(NotAnswered)
                   else if key !in store.records then Err(ModelNotFound)
                   else if !lookups.alias then Err(NotAnswered)
                   else
                     var rec := store.records[key];
                     if rec.mlflowName !in mlflow.models || alias !in mlflow.models[rec.mlflowName].aliases then Err(AliasNotFound)
                     else if !lookups.version then Err(NotAnswered)
                     else
                       var number := mlflow.models[rec.mlflowName].aliases[alias];
                       if number in rec.versions then Ok(rec.versions[number]) else Err(VersionNotFound)
    {
      var key := ModelKey(tenant, name);
      if !lookups.record { return Err(NotAnswered); }
      var rec := store.GetModelRecordByName(key);
      if rec.None? { return Err(ModelNotFound); }
      if !lookups.alias { return Err(NotAnswered); }
      var number := mlflow.GetModelVersionByAlias(rec.value.mlflowName, alias);
      if number.None? { return Err(AliasNotFound); }
      if !lookups.version { return Err(NotAnswered); }
      if number.value !in rec.value.versions { return Err(VersionNotFound); }
      r := Ok(rec.value.versions[number.value]);
    }
  }
}
