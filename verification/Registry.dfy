/** The model registry in its two places: the registered models of MLflow
    (control-plane/internal/mlflow/client.go) and the rows of PostgreSQL
    (control-plane/internal/models/store.go), with the calls that change them. */
module Registry {
  import opened Prelude

  /** Aliases in MLflow, and the status column of a version. */
  datatype Label = Candidate | Staging | Production | Archived | Other(text: string)

  /** A registered model of MLflow: the last version number given out, the versions by number with
      the run each came from, and the aliases. */
  datatype MlModel = MlModel(last: nat, live: map<nat, string>, aliases: map<Label, nat>)

  datatype RunRef = RunRef(job: nat, attempt: nat)

  datatype Version = Version(id: nat, run: RunRef, mlflowRunId: string, status: Label)

  /** A model_records row with its model_versions rows by version_number, which is unique in it. */
  datatype Record = Record(id: nat, project: string, mlflowName: string, versions: map<nat, Version>)

  /** The unique key (tenant_id, name). */
  datatype ModelKey = ModelKey(tenant: string, name: string)

  datatype Reg = Reg(mlflow: map<string, MlModel>, records: map<ModelKey, Record>, nextId: nat)

  /** What registration takes from the source run. */
  datatype Source = Source(project: string, run: RunRef, mlflowRunId: string)

  function NameOf(key: ModelKey): string { key.tenant + "-" + key.name }

  /** Tenant ids are UUIDs in their text form. */
  const UUID_LENGTH := 36

  predicate KeyOk(key: ModelKey) { |key.tenant| == UUID_LENGTH }

  /** Different models of any tenants have different names in MLflow. */
  lemma NamesDiffer(a: ModelKey, b: ModelKey)
    requires KeyOk(a) && KeyOk(b) && NameOf(a) == NameOf(b)
    ensures a == b
  {
    assert NameOf(a)[..UUID_LENGTH] == a.tenant && NameOf(b)[..UUID_LENGTH] == b.tenant;
    assert NameOf(a)[UUID_LENGTH + 1..] == a.name && NameOf(b)[UUID_LENGTH + 1..] == b.name;
  }

  // ---------------------------------------------------------------- MLflow calls

  function ModelCreated(ml: map<string, MlModel>, name: string): map<string, MlModel> {
    if name in ml then ml else ml[name := MlModel(0, map[], map[])]
  }

  function VersionCreated(ml: map<string, MlModel>, name: string, runId: string): map<string, MlModel>
    requires name in ml
  {
    var m := ml[name];
    ml[name := m.(last := m.last + 1, live := m.live[m.last + 1 := runId])]
  }

  /** A deleted version takes its aliases with it. */
  function VersionDropped(ml: map<string, MlModel>, name: string, number: nat): map<string, MlModel> {
    if name !in ml then ml
    else
      var m := ml[name];
      ml[name := m.(live := m.live - {number}, aliases := map a | a in m.aliases && m.aliases[a] != number :: m.aliases[a])]
  }

  function AliasSet(ml: map<string, MlModel>, name: string, alias: Label, number: nat): map<string, MlModel>
    requires name in ml
  {
    ml[name := ml[name].(aliases := ml[name].aliases[alias := number])]
  }

  function AliasDropped(ml: map<string, MlModel>, name: string, alias: Label): map<string, MlModel> {
    if name !in ml then ml else ml[name := ml[name].(aliases := ml[name].aliases - {alias})]
  }

  // ---------------------------------------------------------------- PostgreSQL calls

  /** CreateOrGetModelRecord: an upsert that changes nothing of an existing row. */
  function RecordPut(r: Reg, key: ModelKey, project: string): Reg {
    if key in r.records then r
    else r.(records := r.records[key := Record(r.nextId, project, NameOf(key), map[])], nextId := r.nextId + 1)
  }

  function VersionPut(r: Reg, key: ModelKey, number: nat, src: Source): Reg
    requires key in r.records
  {
    var rec := r.records[key];
    var ver := Version(r.nextId, src.run, src.mlflowRunId, Candidate);
    r.(records := r.records[key := rec.(versions := rec.versions[number := ver])], nextId := r.nextId + 1)
  }

  /** PromoteModelVersionStatus on its own: the other holders of the alias become candidates. */
  function Held(versions: map<nat, Version>, number: nat, alias: Label): map<nat, Version> {
    map n | n in versions ::
      if n == number then versions[n].(status := alias)
      else if versions[n].status == alias then versions[n].(status := Candidate)
      else versions[n]
  }

  /** The other versions of the model that have the alias as their status. */
  function HoldersOf(versions: map<nat, Version>, number: nat, alias: Label): set<nat> {
    set n | n in versions && n != number && versions[n].status == alias
  }

  /** What PromoteModelVersionStatus commits, having found these holders. */
  function Switched(versions: map<nat, Version>, demoted: set<nat>, number: nat, alias: Label): map<nat, Version> {
    map n | n in versions ::
      if n == number then versions[n].(status := alias)
      else if n in demoted then versions[n].(status := Candidate)
      else versions[n]
  }

  function WithVersions(r: Reg, key: ModelKey, versions: map<nat, Version>): Reg
    requires key in r.records
  {
    r.(records := r.records[key := r.records[key].(versions := versions)])
  }
}
