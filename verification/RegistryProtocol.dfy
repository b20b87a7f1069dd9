/** Registration and promotion requests as a step system, one remote call at a time, with every call
    free to fail, to be performed with the reply lost, or to be the last of a process that stops. The
    transaction that moves the holder of an alias runs under READ COMMITTED: its first UPDATE sees the
    rows as they were when it started, waits for rows that others have changed and looks at those
    again, and its changes show when it commits. */
module RegistryProtocol {
  import opened Prelude
  import opened Registry

  /** A request inside models.Service, by its next call. */
  datatype Request =
    // Register
    | Naming(key: ModelKey, src: Source)
    | Versioning(key: ModelKey, src: Source, created: bool)
    | Recording(key: ModelKey, src: Source, created: bool, number: nat)
    | Storing(key: ModelKey, src: Source, number: nat)
    | Undoing(key: ModelKey, number: nat, dropModel: bool)
    | Dropping(key: ModelKey)
    // Promote
    | Aliasing(key: ModelKey, number: nat, alias: Label)
    | Holding(key: ModelKey, number: nat, alias: Label)                        // about to begin
    | Demoting(key: ModelKey, number: nat, alias: Label, matched: set<nat>)    // its UPDATE found these rows
    | Setting(key: ModelKey, number: nat, alias: Label, demoted: set<nat>)     // and has changed these
    | Unstaging(key: ModelKey, number: nat)
    | Unproducing(key: ModelKey, number: nat)
    | Archiving(key: ModelKey, number: nat)

  datatype Sys = Sys(reg: Reg, reqs: map<nat, Request>)

  datatype Step =
    | Register(request: nat, key: ModelKey, src: Source)
    | Promote(request: nat, key: ModelKey, number: nat, alias: Label)
    | Call(request: nat, outcome: Outcome)
    | Crash(request: nat)

  /** The state after a call, and what the request does next. */
  datatype Turn = Turn(reg: Reg, next: Option<Request>)

  predicate Registers(q: Request) {
    q.Naming? || q.Versioning? || q.Recording? || q.Storing? || q.Undoing? || q.Dropping?
  }

  function Init(): Sys { Sys(Reg(map[], map[], 0), map[]) }

  function OnNaming(r: Reg, q: Request, o: Outcome): Turn
    requires q.Naming?
  {
    var name := NameOf(q.key);
    var made := r.(mlflow := ModelCreated(r.mlflow, name));
    match o
    case Refused => Turn(r, None)
    case ReplyLost => Turn(made, None)
    case Reached => Turn(made, Some(Versioning(q.key, q.src, name !in r.mlflow)))
  }

  function OnVersioning(r: Reg, q: Request, o: Outcome): Turn
    requires q.Versioning?
  {
    var name := NameOf(q.key);
    var cleanup := if q.created then Some(Dropping(q.key)) else None;
    if name !in r.mlflow || o == Refused then Turn(r, cleanup)
    else
      var made := r.(mlflow := VersionCreated(r.mlflow, name, q.src.mlflowRunId));
      if o == ReplyLost then Turn(made, cleanup)
      else Turn(made, Some(Recording(q.key, q.src, q.created, r.mlflow[name].last + 1)))
  }

  function OnRecording(r: Reg, q: Request, o: Outcome): Turn
    requires q.Recording?
  {
    match o
    case Refused => Turn(r, Some(Undoing(q.key, q.number, q.created)))
    case ReplyLost => Turn(RecordPut(r, q.key, q.src.project), Some(Undoing(q.key, q.number, q.created)))
    case Reached => Turn(RecordPut(r, q.key, q.src.project), Some(Storing(q.key, q.src, q.number)))
  }

  function OnStoring(r: Reg, q: Request, o: Outcome): Turn
    requires q.Storing?
  {
    if o == Refused || q.key !in r.records || q.number in r.records[q.key].versions
    then Turn(r, Some(Undoing(q.key, q.number, false)))
    else Turn(VersionPut(r, q.key, q.number, q.src), if o == ReplyLost then Some(Undoing(q.key, q.number, false)) else None)
  }

  function OnUndoing(r: Reg, q: Request, o: Outcome): Turn
    requires q.Undoing?
  {
    Turn(if o == Refused then r else r.(mlflow := VersionDropped(r.mlflow, NameOf(q.key), q.number)),
         if q.dropModel then Some(Dropping(q.key)) else None)
  }

  function OnDropping(r: Reg, q: Request, o: Outcome): Turn
    requires q.Dropping?
  {
    Turn(if o == Refused then r else r.(mlflow := r.mlflow - {NameOf(q.key)}), None)
  }

  function OnAliasing(r: Reg, q: Request, o: Outcome): Turn
    requires q.Aliasing?
  {
    var name := NameOf(q.key);
    if o == Refused || name !in r.mlflow || q.number !in r.mlflow[name].live then Turn(r, None)
    else Turn(r.(mlflow := AliasSet(r.mlflow, name, q.alias, q.number)),
              if o == ReplyLost then None else Some(Holding(q.key, q.number, q.alias)))
  }

  function VersionsOf(r: Reg, key: ModelKey): map<nat, Version> {
    if key in r.records then r.records[key].versions else map[]
  }

  /** The first UPDATE of the transaction starts; it finds the other holders of the alias. If the
      connection is lost from here on, the transaction is rolled back. */
  function OnHolding(r: Reg, q: Request, o: Outcome): Turn
    requires q.Holding?
  {
    Turn(r, if o != Reached then None
            else Some(Demoting(q.key, q.number, q.alias, HoldersOf(VersionsOf(r, q.key), q.number, q.alias))))
  }

  /** The rows are locked, those that still hold the alias are changed. */
  function OnDemoting(r: Reg, q: Request, o: Outcome): Turn
    requires q.Demoting?
  {
    Turn(r, if o != Reached then None
            else Some(Setting(q.key, q.number, q.alias, q.matched * HoldersOf(VersionsOf(r, q.key), q.number, q.alias))))
  }

  /** The second UPDATE and the commit. */
  function OnSetting(r: Reg, q: Request, o: Outcome): Turn
    requires q.Setting?
  {
    Turn(if o == Refused || q.key !in r.records || q.number !in r.records[q.key].versions then r
         else WithVersions(r, q.key, Switched(r.records[q.key].versions, q.demoted, q.number, q.alias)), None)
  }

  /** The errors of both alias removals are ignored. */
  function OnUnaliasing(r: Reg, q: Request, o: Outcome): Turn
    requires q.Unstaging? || q.Unproducing?
  {
    var alias := if q.Unstaging? then Staging else Production;
    Turn(if o == Refused then r else r.(mlflow := AliasDropped(r.mlflow, NameOf(q.key), alias)),
         Some(if q.Unstaging? then Unproducing(q.key, q.number) else Archiving(q.key, q.number)))
  }

  function OnArchiving(r: Reg, q: Request, o: Outcome): Turn
    requires q.Archiving?
  {
    Turn(if o == Refused || q.key !in r.records || q.number !in r.records[q.key].versions then r
         else
           var versions := r.records[q.key].versions;
           WithVersions(r, q.key, versions[q.number := versions[q.number].(status := Archived)]), None)
  }

  /** The next call of a request. */
  function Next(r: Reg, q: Request, o: Outcome): Turn {
    match q
    case Naming(_, _) => OnNaming(r, q, o)
    case Versioning(_, _, _) => OnVersioning(r, q, o)
    case Recording(_, _, _, _) => OnRecording(r, q, o)
    case Storing(_, _, _) => OnStoring(r, q, o)
    case Undoing(_, _, _) => OnUndoing(r, q, o)
    case Dropping(_) => OnDropping(r, q, o)
    case Aliasing(_, _, _) => OnAliasing(r, q, o)
    case Holding(_, _, _) => OnHolding(r, q, o)
    case Demoting(_, _, _, _) => OnDemoting(r, q, o)
    case Setting(_, _, _, _) => OnSetting(r, q, o)
    case Unstaging(_, _) => OnUnaliasing(r, q, o)
    case Unproducing(_, _) => OnUnaliasing(r, q, o)
    case Archiving(_, _) => OnArchiving(r, q, o)
  }

  predicate Promotable(alias: Label) { alias == Staging || alias == Production || alias == Archived }

  /** The reads at the start of Promote: the version exists and is not archived. */
  predicate Accepted(r: Reg, key: ModelKey, number: nat, alias: Label) {
    Promotable(alias) && key in r.records && number in r.records[key].versions
    && r.records[key].versions[number].status != Archived
  }

  function PromoteRequest(key: ModelKey, number: nat, alias: Label): Request {
    if alias == Archived then Unstaging(key, number) else Aliasing(key, number, alias)
  }

  function WithRequest(reqs: map<nat, Request>, id: nat, next: Option<Request>): map<nat, Request> {
    match next case None => reqs - {id} case Some(q) => reqs[id := q]
  }

  /** The next call of `q` needs a row that the transaction `h` has changed and not yet committed. */
  predicate WaitsFor(q: Request, h: Request) {
    && h.Setting? && h.key == q.key
    && ((q.Demoting? && q.matched * h.demoted != {}) || ((q.Setting? || q.Archiving?) && q.number in h.demoted))
  }

  /** Such a call does not return before the other transaction has ended, unless it fails. */
  predicate Blocked(reqs: map<nat, Request>, id: nat) {
    id in reqs && exists j :: j in reqs && j != id && WaitsFor(reqs[id], reqs[j])
  }

  function Apply(s: Sys, e: Step): Sys {
    match e
    case Register(id, key, src) =>
      if id in s.reqs || !KeyOk(key) then s else s.(reqs := s.reqs[id := Naming(key, src)])
    case Promote(id, key, number, alias) =>
      if id in s.reqs || !KeyOk(key) || !Accepted(s.reg, key, number, alias) then s
      else s.(reqs := s.reqs[id := PromoteRequest(key, number, alias)])
    case Call(id, o) =>
      if id !in s.reqs || (o != Refused && Blocked(s.reqs, id)) then s
      else var t := Next(s.reg, s.reqs[id], o); Sys(t.reg, WithRequest(s.reqs, id, t.next))
    case Crash(id) => s.(reqs := s.reqs - {id})
  }

  function Exec(s: Sys, es: seq<Step>): Sys
    decreases |es|
  {
    if es == [] then s else Exec(Apply(s, es[0]), es[1..])
  }

  lemma {:induction false} ExecConcat(s: Sys, a: seq<Step>, b: seq<Step>)
    ensures Exec(s, a + b) == Exec(Exec(s, a), b)
    decreases |a|
  {
    if a == [] {
      assert a + b == b;
    } else {
      assert (a + b)[0] == a[0] && (a + b)[1..] == a[1..] + b;
      ExecConcat(Apply(s, a[0]), a[1..], b);
    }
  }
}
