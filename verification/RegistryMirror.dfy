/** What it means that MLflow and PostgreSQL are in step on a model, and what single calls do to that:
    every registered model has a record and every MLflow version a row, one to one. */
module RegistryMirror {
  import opened Prelude
  import opened Registry
  import opened RegistryProtocol
  import opened RegistryHistory

  /** The same numbers on both sides, from the same runs. */
  predicate Match(live: map<nat, string>, versions: map<nat, Version>) {
    live.Keys == versions.Keys && forall n :: n in live ==> live[n] == versions[n].mlflowRunId
  }

  /** Record and registered model agree but for `extra`, a version that is only in MLflow. */
  predicate Linked(r: Reg, key: ModelKey, extra: set<nat>) {
    && key in r.records && NameOf(key) in r.mlflow
    && extra <= r.mlflow[NameOf(key)].live.Keys && extra !! r.records[key].versions.Keys
    && Match(r.mlflow[NameOf(key)].live - extra, r.records[key].versions)
  }

  /** A registered model without a record, with just these versions. */
  predicate Unrecorded(r: Reg, key: ModelKey, numbers: set<nat>) {
    key !in r.records && NameOf(key) in r.mlflow && r.mlflow[NameOf(key)].live.Keys == numbers
  }

  predicate From(r: Reg, key: ModelKey, number: nat, runId: string) {
    NameOf(key) in r.mlflow && number in r.mlflow[NameOf(key)].live && r.mlflow[NameOf(key)].live[number] == runId
  }

  predicate Numbered(r: Reg, key: ModelKey) {
    NameOf(key) in r.mlflow ==> forall n :: n in r.mlflow[NameOf(key)].live ==> n <= r.mlflow[NameOf(key)].last
  }

  predicate InStep(r: Reg, key: ModelKey) {
    (NameOf(key) in r.mlflow || key in r.records) ==> Linked(r, key, {})
  }

  /** One model, with the registration that is in flight on it. */
  predicate SliceOk(r: Reg, key: ModelKey, q: Option<Request>) {
    Numbered(r, key) &&
    match q
    case None => InStep(r, key)
    case Some(q) =>
      match q
      case Naming(_, _) => InStep(r, key)
      case Versioning(_, _, created) => if created then Unrecorded(r, key, {}) else Linked(r, key, {})
      case Recording(_, src, created, number) =>
        From(r, key, number, src.mlflowRunId) && if created then Unrecorded(r, key, {number}) else Linked(r, key, {number})
      case Storing(_, src, number) => From(r, key, number, src.mlflowRunId) && Linked(r, key, {number})
      case Undoing(_, number, dropModel) => if dropModel then Unrecorded(r, key, {number}) else Linked(r, key, {number})
      case Dropping(_) => Unrecorded(r, key, {})
      case _ => true
  }

  /** The outcomes the saga is built for: no reply is lost on the way forward, and cleanup works. */
  predicate CleanCall(q: Request, o: Outcome) {
    match q
    case Naming(_, _) => o != ReplyLost
    case Versioning(_, _, _) => o != ReplyLost
    case Recording(_, _, _, _) => o != ReplyLost
    case Storing(_, _, _) => o != ReplyLost
    case Undoing(_, _, _) => o != Refused
    case Dropping(_) => o != Refused
    case _ => true
  }

  // ---------------------------------------------------------------- one call

  lemma NamingSlice(r: Reg, q: Request, o: Outcome)
    requires q.Naming? && SliceOk(r, q.key, Some(q)) && CleanCall(q, o)
    ensures SliceOk(OnNaming(r, q, o).reg, q.key, OnNaming(r, q, o).next)
  {
  }

  lemma VersioningSlice(r: Reg, q: Request, o: Outcome)
    requires q.Versioning? && SliceOk(r, q.key, Some(q)) && CleanCall(q, o)
    ensures SliceOk(OnVersioning(r, q, o).reg, q.key, OnVersioning(r, q, o).next)
  {
  }

  /** As far as the mirror is concerned, nothing changed for this model. */
  predicate SameShape(r: Reg, r': Reg, key: ModelKey) {
    var name := NameOf(key);
    && (name in r.mlflow <==> name in r'.mlflow) && (key in r.records <==> key in r'.records)
    && (name in r.mlflow ==> r'.mlflow[name].last == r.mlflow[name].last && r'.mlflow[name].live == r.mlflow[name].live)
    && (key in r.records ==> SameRuns(r.records[key].versions, r'.records[key].versions))
  }

  predicate SameRuns(a: map<nat, Version>, b: map<nat, Version>) {
    a.Keys == b.Keys && forall n :: n in a ==> a[n].mlflowRunId == b[n].mlflowRunId
  }

  lemma OtherModelsSame(r: Reg, q: Request, o: Outcome, key: ModelKey)
    requires KeyOk(key) && KeyOk(q.key) && key != q.key
    ensures SameShape(r, Next(r, q, o).reg, key)
  {
    if NameOf(key) == NameOf(q.key) { NamesDiffer(key, q.key); }
    match q
    case Naming(_, _) =>
    case Versioning(_, _, _) =>
    case Recording(_, _, _, _) =>
    case Storing(_, _, _) =>
    case Undoing(_, _, _) =>
    case Dropping(_) =>
    case Aliasing(_, _, _) =>
    case Holding(_, _, _) =>
    case Demoting(_, _, _, _) =>
    case Setting(_, _, _, _) =>
    case Unstaging(_, _) =>
    case Unproducing(_, _) =>
    case Archiving(_, _) =>
  }

  lemma PromotionKeepsShape(r: Reg, q: Request, o: Outcome, key: ModelKey)
    requires !Registers(q)
    ensures SameShape(r, Next(r, q, o).reg, key)
  {
    match q
    case Aliasing(_, _, _) =>
    case Holding(_, _, _) =>
    case Demoting(_, _, _, _) =>
    case Setting(_, _, _, _) =>
    case Unstaging(_, _) =>
    case Unproducing(_, _) =>
    case Archiving(_, _) =>
  }

  // ---------------------------------------------------------------- all models

  /** Every registered model is named after some model of a tenant. */
  ghost predicate Ours(ml: map<string, MlModel>) {
    forall name :: name in ml ==> exists key :: KeyOk(key) && NameOf(key) == name
  }

  lemma NamesStayOurs(r: Reg, q: Request, o: Outcome)
    requires Ours(r.mlflow) && KeyOk(q.key)
    ensures Ours(Next(r, q, o).reg.mlflow)
  {
  }

  /** What is promised between registrations: one to one, both ways. */
  ghost predicate Mirror(r: Reg) {
    && (forall key :: key in r.records ==> Linked(r, key, {}))
    && (forall name :: name in r.mlflow ==> exists key :: key in r.records && NameOf(key) == name)
  }
}
