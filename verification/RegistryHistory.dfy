/** What holds in every run of the registry, whatever fails and whatever interleaves: rows stay, rows
    that a transaction has locked keep their status, and a registered model that was there before is
    never deleted. */
module RegistryHistory {
  import opened Prelude
  import opened Registry
  import opened RegistryProtocol

  /** A version row: only its status may change. */
  predicate VersionEvolves(a: Version, b: Version) { b == a.(status := b.status) }

  predicate RecordEvolves(a: Record, b: Record) {
    && b == a.(versions := b.versions)
    && forall n :: n in a.versions ==> n in b.versions && VersionEvolves(a.versions[n], b.versions[n])
  }

  predicate Evolves(a: Reg, b: Reg) {
    forall k :: k in a.records ==> k in b.records && RecordEvolves(a.records[k], b.records[k])
  }

  lemma EvolvesTransitive(a: Reg, b: Reg, c: Reg)
    requires Evolves(a, b) && Evolves(b, c)
    ensures Evolves(a, c)
  {
  }

  predicate Exclusive(status: Label) { status == Staging || status == Production }

  /** Rows are under their own keys, with statuses of the lifecycle. */
  predicate RecordOk(k: ModelKey, rec: Record) {
    && KeyOk(k) && rec.mlflowName == NameOf(k)
    && forall n :: n in rec.versions ==> rec.versions[n].status in {Candidate, Staging, Production, Archived}
  }

  predicate RowsOk(r: Reg) { forall k :: k in r.records ==> RecordOk(k, r.records[k]) }

  predicate RequestOk(q: Request) {
    && KeyOk(q.key)
    && (q.Aliasing? || q.Holding? || q.Demoting? || q.Setting? ==> Exclusive(q.alias))
    && (q.Demoting? ==> q.number !in q.matched) && (q.Setting? ==> q.number !in q.demoted)
  }

  predicate RequestsOk(reqs: map<nat, Request>) { forall id :: id in reqs ==> RequestOk(reqs[id]) }

  lemma SwitchKeepsRecord(k: ModelKey, rec: Record, demoted: set<nat>, number: nat, alias: Label)
    requires RecordOk(k, rec) && Exclusive(alias)
    ensures RecordOk(k, rec.(versions := Switched(rec.versions, demoted, number, alias)))
    ensures RecordEvolves(rec, rec.(versions := Switched(rec.versions, demoted, number, alias)))
  {
  }

  lemma RecordReplaced(r: Reg, key: ModelKey, versions: map<nat, Version>)
    requires RowsOk(r) && key in r.records
    requires RecordOk(key, r.records[key].(versions := versions)) && RecordEvolves(r.records[key], r.records[key].(versions := versions))
    ensures RowsOk(WithVersions(r, key, versions)) && Evolves(r, WithVersions(r, key, versions))
  {
  }

  lemma PutsKeepRows(r: Reg, key: ModelKey, project: string, number: nat, src: Source)
    requires RowsOk(r) && KeyOk(key)
    ensures RowsOk(RecordPut(r, key, project)) && Evolves(r, RecordPut(r, key, project))
    ensures key in r.records && number !in r.records[key].versions ==>
              RowsOk(VersionPut(r, key, number, src)) && Evolves(r, VersionPut(r, key, number, src))
  {
  }

  lemma PromoteCallKeepsRows(r: Reg, q: Request, o: Outcome)
    requires RowsOk(r) && RequestOk(q) && (q.Setting? || q.Archiving?)
    ensures RowsOk(Next(r, q, o).reg) && Evolves(r, Next(r, q, o).reg)
  {
    if q.key in r.records && q.number in r.records[q.key].versions {
      var rec := r.records[q.key];
      if q.Setting? {
        SwitchKeepsRecord(q.key, rec, q.demoted, q.number, q.alias);
        RecordReplaced(r, q.key, Switched(rec.versions, q.demoted, q.number, q.alias));
      } else {
        RecordReplaced(r, q.key, rec.versions[q.number := rec.versions[q.number].(status := Archived)]);
      }
    }
  }

  lemma CallKeepsRows(r: Reg, q: Request, o: Outcome)
    requires RowsOk(r) && RequestOk(q)
    ensures RowsOk(Next(r, q, o).reg) && Evolves(r, Next(r, q, o).reg)
    ensures Next(r, q, o).next.Some? ==> RequestOk(Next(r, q, o).next.value)
  {
    match q
    case Recording(key, src, _, _) => PutsKeepRows(r, key, src.project, 0, src);
    case Storing(key, src, number) => PutsKeepRows(r, key, src.project, number, src);
    case Setting(_, _, _, _) => PromoteCallKeepsRows(r, q, o);
    case Archiving(_, _) => PromoteCallKeepsRows(r, q, o);
    case _ =>
  }

  // ---------------------------------------------------------------- row locks

  /** The rows that an open transaction has changed are as it found them, until it commits. */
  predicate LockHeld(r: Reg, q: Request) {
    q.Setting? ==> q.demoted <= HoldersOf(VersionsOf(r, q.key), q.number, q.alias)
  }

  /** No two open transactions have changed the same row. */
  predicate Disjoint(reqs: map<nat, Request>) {
    forall i, j :: i in reqs && j in reqs && i != j && reqs[i].Setting? && reqs[j].Setting? && reqs[i].key == reqs[j].key ==>
      reqs[i].demoted * reqs[j].demoted == {}
  }

  predicate LocksOk(r: Reg, reqs: map<nat, Request>) {
    (forall id :: id in reqs ==> LockHeld(r, reqs[id])) && Disjoint(reqs)
  }

  /** A status is only changed by a call that does not wait for the transaction. */
  lemma LockStays(r: Reg, q: Request, o: Outcome, h: Request)
    requires LockHeld(r, h) && h.Setting? && KeyOk(q.key) && KeyOk(h.key)
    requires o != Refused ==> !WaitsFor(q, h)
    requires q.Setting? && q.key == h.key ==> q.demoted * h.demoted == {}
    ensures LockHeld(Next(r, q, o).reg, h)
  {
    match q
    case Naming(_, _) =>
    case Versioning(_, _, _) =>
    case Recording(_, _, _, _) =>
    case Storing(_, _, _) =>
    case Undoing(_, _, _) =>
    case Dropping(_) =>
    case Aliasing(_, _, _) =>
    case Holding(_, _, _) =>
    case Demoting(_, _, _, _) =>
    case Setting(_, _, _, _) =>
      forall m | m in h.demoted ensures m in HoldersOf(VersionsOf(Next(r, q, o).reg, h.key), h.number, h.alias) {
        assert m in HoldersOf(VersionsOf(r, h.key), h.number, h.alias);
        assert q.key == h.key ==> m !in q.demoted * h.demoted;
      }
    case Unstaging(_, _) =>
    case Unproducing(_, _) =>
    case Archiving(_, _) =>
  }

  /** Only the end of a first UPDATE locks rows, and it locks none that is locked. */
  lemma LocksTaken(r: Reg, q: Request, o: Outcome)
    ensures var t := Next(r, q, o);
            t.next.Some? && t.next.value.Setting? ==>
              && q.Demoting? && o == Reached && t.reg == r && t.next.value.key == q.key
              && t.next.value.demoted <= q.matched && LockHeld(t.reg, t.next.value)
  {
  }

  /** A call that is made and does not wait. */
  predicate Proceeds(s: Sys, e: Step) {
    e.Call? && e.request in s.reqs && (e.outcome == Refused || !Blocked(s.reqs, e.request))
  }

  lemma NotWaiting(s: Sys, id: nat, o: Outcome, j: nat)
    requires Proceeds(s, Call(id, o)) && j in s.reqs && j != id && o != Refused
    ensures !WaitsFor(s.reqs[id], s.reqs[j])
  {
  }

  lemma CallKeepsLocks(s: Sys, id: nat, o: Outcome)
    requires RequestsOk(s.reqs) && LocksOk(s.reg, s.reqs) && Proceeds(s, Call(id, o))
    ensures var t := Next(s.reg, s.reqs[id], o); LocksOk(t.reg, WithRequest(s.reqs, id, t.next))
  {
    var q := s.reqs[id];
    var t := Next(s.reg, q, o);
    var reqs' := WithRequest(s.reqs, id, t.next);
    LocksTaken(s.reg, q, o);
    forall j | j in reqs' ensures LockHeld(t.reg, reqs'[j]) {
      if j != id && s.reqs[j].Setting? {
        if o != Refused { NotWaiting(s, id, o, j); }
        assert RequestOk(q) && RequestOk(s.reqs[j]) && LockHeld(s.reg, s.reqs[j]);
        LockStays(s.reg, q, o, s.reqs[j]);
      }
    }
    forall j | j in reqs' && j != id && reqs'[j].Setting? && t.next.Some? && t.next.value.Setting? && reqs'[j].key == t.next.value.key
      ensures t.next.value.demoted * reqs'[j].demoted == {}
    {
      NotWaiting(s, id, o, j);
    }
  }

  // ---------------------------------------------------------------- every run

  /** The version of a promotion is there, since rows are never removed. */
  predicate TargetsExist(r: Reg, reqs: map<nat, Request>) {
    forall id :: id in reqs && !Registers(reqs[id]) ==> reqs[id].number in VersionsOf(r, reqs[id].key)
  }

  predicate TablesOk(s: Sys) {
    RowsOk(s.reg) && RequestsOk(s.reqs) && LocksOk(s.reg, s.reqs) && TargetsExist(s.reg, s.reqs)
  }

  lemma CallKeepsTargets(s: Sys, id: nat, o: Outcome)
    requires TargetsExist(s.reg, s.reqs) && id in s.reqs && Evolves(s.reg, Next(s.reg, s.reqs[id], o).reg)
    ensures var t := Next(s.reg, s.reqs[id], o); TargetsExist(t.reg, WithRequest(s.reqs, id, t.next))
  {
    SameTarget(s.reg, s.reqs[id], o);
  }

  lemma SameTarget(r: Reg, q: Request, o: Outcome)
    ensures var n := Next(r, q, o).next;
            n.Some? && !Registers(n.value) ==> !Registers(q) && n.value.key == q.key && n.value.number == q.number
  {
  }

  lemma CallOk(s: Sys, id: nat, o: Outcome)
    requires TablesOk(s) && Proceeds(s, Call(id, o))
    ensures var t := Next(s.reg, s.reqs[id], o);
            TablesOk(Sys(t.reg, WithRequest(s.reqs, id, t.next))) && Evolves(s.reg, t.reg)
  {
    CallKeepsRows(s.reg, s.reqs[id], o);
    CallKeepsLocks(s, id, o);
    CallKeepsTargets(s, id, o);
  }

  lemma OkStep(s: Sys, e: Step)
    requires TablesOk(s)
    ensures TablesOk(Apply(s, e)) && Evolves(s.reg, Apply(s, e).reg)
  {
    match e
    case Register(_, _, _) =>
    case Promote(_, _, _, _) =>
    case Call(id, o) => if Proceeds(s, e) { CallOk(s, id, o); }
    case Crash(_) =>
  }

  /** In every run: rows are never removed, and nothing of a version but its status ever changes; and
      a row that an open transaction has changed keeps its status until that transaction commits. */
  lemma {:induction false} RowsAreKept(s: Sys, es: seq<Step>)
    requires TablesOk(s)
    ensures TablesOk(Exec(s, es)) && Evolves(s.reg, Exec(s, es).reg)
    decreases |es|
  {
    if es != [] {
      OkStep(s, es[0]);
      RowsAreKept(Apply(s, es[0]), es[1..]);
      EvolvesTransitive(s.reg, Apply(s, es[0]).reg, Exec(s, es).reg);
    }
  }

  /** All requests but these may be cut short. */
  lemma {:induction false} OthersStop(s: Sys, keep: set<nat>) returns (es: seq<Step>)
    ensures Exec(s, es) == s.(reqs := map id | id in s.reqs && id in keep :: s.reqs[id])
    ensures forall k :: 0 <= k < |es| ==> es[k].Crash? && es[k].request !in keep
    decreases |s.reqs|
  {
    if id :| id in s.reqs && id !in keep {
      var rest := OthersStop(s.(reqs := s.reqs - {id}), keep);
      es := [Crash(id)] + rest;
      assert es[1..] == rest;
      assert (map j | j in s.reqs - {id} && j in keep :: (s.reqs - {id})[j]) == map j | j in s.reqs && j in keep :: s.reqs[j];
    } else {
      es := [];
      assert s.reqs == map id | id in s.reqs && id in keep :: s.reqs[id];
    }
  }

  // ---------------------------------------------------------------- models are not deleted

  /** A request that may still delete the registered model of its key. */
  predicate MayDelete(q: Request) {
    (q.Versioning? && q.created) || (q.Recording? && q.created) || (q.Undoing? && q.dropModel) || q.Dropping?
  }

  /** The model is registered and no request is in flight that registered it. */
  predicate Safe(s: Sys, key: ModelKey) {
    NameOf(key) in s.reg.mlflow && forall id :: id in s.reqs && MayDelete(s.reqs[id]) ==> s.reqs[id].key != key
  }

  lemma CallLeavesModel(r: Reg, q: Request, o: Outcome, key: ModelKey)
    requires KeyOk(key) && KeyOk(q.key) && NameOf(key) in r.mlflow && (MayDelete(q) ==> q.key != key)
    ensures NameOf(key) in Next(r, q, o).reg.mlflow
    ensures Next(r, q, o).next.Some? ==> Next(r, q, o).next.value.key == q.key
                                         && (MayDelete(Next(r, q, o).next.value) ==> q.key != key)
  {
    if NameOf(q.key) == NameOf(key) { NamesDiffer(q.key, key); }
    match q
    case Naming(_, _) =>
    case Versioning(_, _, _) =>
    case Recording(_, _, _, _) =>
    case Storing(_, _, _) =>
    case Undoing(_, _, _) =>
    case Dropping(_) =>
    case Aliasing(_, _, _) =>
    case Holding(_, _, _) =>
    case Demoting(_, _, _, _) =>
    case Setting(_, _, _, _) =>
    case Unstaging(_, _) =>
    case Unproducing(_, _) =>
    case Archiving(_, _) =>
  }

  lemma SafeStep(s: Sys, e: Step, key: ModelKey)
    requires TablesOk(s) && KeyOk(key) && Safe(s, key)
    ensures Safe(Apply(s, e), key)
  {
    match e
    case Register(_, _, _) =>
    case Promote(_, _, _, _) =>
    case Call(id, o) => if Proceeds(s, e) { CallLeavesModel(s.reg, s.reqs[id], o, key); }
    case Crash(_) =>
  }

  /** A registered model that was there before the requests in flight is never deleted, in any run. */
  lemma {:induction false} OldModelsSurvive(s: Sys, es: seq<Step>, key: ModelKey)
    requires TablesOk(s) && KeyOk(key) && Safe(s, key)
    ensures Safe(Exec(s, es), key)
    decreases |es|
  {
    if es != [] {
      OkStep(s, es[0]);
      SafeStep(s, es[0], key);
      OldModelsSurvive(Apply(s, es[0]), es[1..], key);
    }
  }

  // ---------------------------------------------------------------- aliases

  /** An alias names a version that there is, up to the last number given out. */
  predicate AliasesLive(ml: map<string, MlModel>) {
    forall name :: name in ml ==>
      && (forall a :: a in ml[name].aliases ==> ml[name].aliases[a] in ml[name].live)
      && (forall n :: n in ml[name].live ==> 1 <= n <= ml[name].last)
  }

  lemma CallKeepsAliasesLive(r: Reg, q: Request, o: Outcome)
    requires AliasesLive(r.mlflow)
    ensures AliasesLive(Next(r, q, o).reg.mlflow)
  {
    match q
    case Naming(_, _) =>
    case Versioning(_, _, _) =>
    case Undoing(_, _, _) =>
    case Dropping(_) =>
    case Aliasing(_, _, _) =>
    case Unstaging(_, _) =>
    case Unproducing(_, _) =>
    case _ => assert Next(r, q, o).reg.mlflow == r.mlflow;
  }

  /** In every run, whatever fails: no alias in MLflow names a version that is not there, since the
      version of a registration that is undone takes its aliases with it, and no number is given out
      twice. */
  lemma {:induction false} AliasesNameVersions(s: Sys, es: seq<Step>)
    requires AliasesLive(s.reg.mlflow)
    ensures AliasesLive(Exec(s, es).reg.mlflow)
    decreases |es|
  {
    if es != [] {
      if Proceeds(s, es[0]) {
        CallKeepsAliasesLive(s.reg, s.reqs[es[0].request], es[0].outcome);
      }
      AliasesNameVersions(Apply(s, es[0]), es[1..]);
    }
  }

  // ---------------------------------------------------------------- ids

  predicate HasVersion(r: Reg, k: ModelKey, n: nat) { k in r.records && n in r.records[k].versions }

  function IdAt(r: Reg, k: ModelKey, n: nat): nat
    requires HasVersion(r, k, n)
  {
    r.records[k].versions[n].id
  }

  /** Ids are given out once: a version id names one version of one model. */
  ghost predicate VersionIdsOk(r: Reg) {
    && (forall k, n :: HasVersion(r, k, n) ==> IdAt(r, k, n) < r.nextId)
    && (forall k, m, l, n :: HasVersion(r, k, m) && HasVersion(r, l, n) && IdAt(r, k, m) == IdAt(r, l, n) ==> k == l && m == n)
  }

  predicate RecordIdsOk(r: Reg) {
    && (forall k :: k in r.records ==> r.records[k].id < r.nextId)
    && (forall k, l :: k in r.records && l in r.records && r.records[k].id == r.records[l].id ==> k == l)
  }

  ghost predicate IdsOk(r: Reg) { RecordIdsOk(r) && VersionIdsOk(r) }

  /** The same versions with the same ids, and no id taken back. */
  ghost predicate SameVersionIds(r: Reg, r': Reg) {
    && r.nextId <= r'.nextId
    && forall k, n :: (HasVersion(r, k, n) <==> HasVersion(r', k, n)) && (HasVersion(r, k, n) ==> IdAt(r', k, n) == IdAt(r, k, n))
  }

  lemma SameVersionIdsOk(r: Reg, r': Reg)
    requires VersionIdsOk(r) && SameVersionIds(r, r')
    ensures VersionIdsOk(r')
  {
  }

  lemma VersionPutIds(r: Reg, key: ModelKey, number: nat, src: Source)
    requires IdsOk(r) && key in r.records && number !in r.records[key].versions
    ensures IdsOk(VersionPut(r, key, number, src))
  {
    var r' := VersionPut(r, key, number, src);
    assert IdAt(r', key, number) == r.nextId;
    forall k, n: nat | HasVersion(r', k, n) && !(k == key && n == number)
      ensures HasVersion(r, k, n) && IdAt(r', k, n) == IdAt(r, k, n) {}
  }

  lemma RecordPutIds(r: Reg, key: ModelKey, project: string)
    requires IdsOk(r)
    ensures IdsOk(RecordPut(r, key, project))
  {
    var r' := RecordPut(r, key, project);
    forall k, n ensures (HasVersion(r, k, n) <==> HasVersion(r', k, n)) && (HasVersion(r, k, n) ==> IdAt(r', k, n) == IdAt(r, k, n)) {}
    SameVersionIdsOk(r, r');
  }

  lemma PromotionIds(r: Reg, q: Request, o: Outcome)
    requires q.Setting? || q.Archiving?
    ensures SameVersionIds(r, Next(r, q, o).reg)
  {
    var r' := Next(r, q, o).reg;
    forall k, n ensures (HasVersion(r, k, n) <==> HasVersion(r', k, n)) && (HasVersion(r, k, n) ==> IdAt(r', k, n) == IdAt(r, k, n)) {}
  }

  lemma PromotionKeepsIds(r: Reg, q: Request, o: Outcome)
    requires IdsOk(r) && (q.Setting? || q.Archiving?)
    ensures IdsOk(Next(r, q, o).reg)
  {
    PromotionIds(r, q, o);
    SameVersionIdsOk(r, Next(r, q, o).reg);
  }

  lemma CallKeepsIds(r: Reg, q: Request, o: Outcome)
    requires IdsOk(r)
    ensures IdsOk(Next(r, q, o).reg)
  {
    match q
    case Recording(key, src, _, _) => RecordPutIds(r, key, src.project);
    case Storing(key, src, number) =>
      if key in r.records && number !in r.records[key].versions { VersionPutIds(r, key, number, src); }
    case Setting(_, _, _, _) => PromotionKeepsIds(r, q, o);
    case Archiving(_, _) => PromotionKeepsIds(r, q, o);
    case _ =>
      assert Next(r, q, o).reg.records == r.records && Next(r, q, o).reg.nextId == r.nextId;
      SameVersionIdsOk(r, Next(r, q, o).reg);
  }

  /** In every run, whatever fails. */
  lemma {:induction false} IdsStayUnique(s: Sys, es: seq<Step>)
    requires IdsOk(s.reg)
    ensures IdsOk(Exec(s, es).reg)
    decreases |es|
  {
    if es != [] {
      if Proceeds(s, es[0]) {
        CallKeepsIds(s.reg, s.reqs[es[0].request], es[0].outcome);
      }
      IdsStayUnique(Apply(s, es[0]), es[1..]);
    }
  }
}
