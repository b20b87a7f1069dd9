/** Aliases in MLflow beside statuses in PostgreSQL: what calls do to them, what an alias resolves to,
    and that archiving is final. */
module RegistryAlias {
  import opened Prelude
  import opened Registry
  import opened RegistryProtocol
  import opened RegistryHistory

  function AliasesOf(r: Reg, key: ModelKey): map<Label, nat> {
    if NameOf(key) in r.mlflow then r.mlflow[NameOf(key)].aliases else map[]
  }

  /** No alias names an archived version. */
  predicate NoneArchived(aliases: map<Label, nat>, versions: map<nat, Version>) {
    forall a :: a in aliases ==> Exclusive(a) && (aliases[a] in versions ==> versions[aliases[a]].status != Archived)
  }

  /** If a version holds this status, the alias is absent or points at it. */
  predicate Agree(aliases: map<Label, nat>, versions: map<nat, Version>, alias: Label) {
    forall n :: n in versions && versions[n].status == alias ==> alias !in aliases || aliases[alias] == n
  }

  predicate AliasesOk(r: Reg, key: ModelKey) {
    && NoneArchived(AliasesOf(r, key), VersionsOf(r, key))
    && Agree(AliasesOf(r, key), VersionsOf(r, key), Staging) && Agree(AliasesOf(r, key), VersionsOf(r, key), Production)
  }

  /** MLflow knows this version. */
  predicate Known(r: Reg, key: ModelKey, number: nat) {
    NameOf(key) in r.mlflow && number in r.mlflow[NameOf(key)].live
  }

  predicate Promotes(q: Request) { !Registers(q) }

  /** In or before the transaction that moves the holder. */
  predicate MovesHolder(q: Request) { q.Holding? || q.Demoting? || q.Setting? }

  /** Aliases can only go, and the only new versions are candidates. */
  predicate Shrinks(r: Reg, r': Reg, key: ModelKey) {
    var a, a' := AliasesOf(r, key), AliasesOf(r', key);
    var v, v' := VersionsOf(r, key), VersionsOf(r', key);
    && (forall x :: x in a' ==> x in a && a'[x] == a[x])
    && (forall n :: n in v ==> n in v' && v'[n] == v[n])
    && (forall n :: n in v' && n !in v ==> v'[n].status == Candidate)
  }

  lemma RegistrationShrinks(r: Reg, q: Request, o: Outcome, key: ModelKey)
    requires Registers(q) && KeyOk(key) && KeyOk(q.key)
    ensures Shrinks(r, Next(r, q, o).reg, key)
  {
    if NameOf(key) == NameOf(q.key) { NamesDiffer(key, q.key); }
    match q
    case Naming(_, _) =>
    case Versioning(_, _, _) =>
    case Recording(_, _, _, _) =>
    case Storing(_, _, _) =>
    case Undoing(_, _, _) =>
    case Dropping(_) =>
  }

  lemma OtherModelsShrink(r: Reg, q: Request, o: Outcome, key: ModelKey)
    requires Promotes(q) && KeyOk(key) && KeyOk(q.key) && key != q.key
    ensures Shrinks(r, Next(r, q, o).reg, key)
  {
    if NameOf(key) == NameOf(q.key) { NamesDiffer(key, q.key); }
    match q
    case Aliasing(_, _, _) =>
    case Holding(_, _, _) =>
    case Demoting(_, _, _, _) =>
    case Setting(_, _, _, _) =>
    case Unstaging(_, _) =>
    case Unproducing(_, _) =>
    case Archiving(_, _) =>
  }

  /** ResolveAlias. */
  datatype ResolveError = ModelNotFound | AliasNotFound | VersionNotFound | NotAnswered

  function Resolve(r: Reg, key: ModelKey, alias: Label): Result<Version, ResolveError> {
    if key !in r.records then Err(ModelNotFound)
    else if alias !in AliasesOf(r, key) then Err(AliasNotFound)
    else
      var n := AliasesOf(r, key)[alias];
      if n in r.records[key].versions then Ok(r.records[key].versions[n]) else Err(VersionNotFound)
  }

  // ---------------------------------------------------------------- archived is final

  /** No two promotions of the same version are in flight together. */
  predicate VersionsApart(reqs: map<nat, Request>) {
    forall i, j :: i in reqs && j in reqs && i != j && Promotes(reqs[i]) && Promotes(reqs[j]) && reqs[i].key == reqs[j].key ==>
      reqs[i].number != reqs[j].number
  }

  ghost predicate ApartRun(s: Sys, es: seq<Step>)
    decreases |es|
  {
    VersionsApart(s.reqs) && (es == [] || ApartRun(Apply(s, es[0]), es[1..]))
  }

  predicate IsArchived(r: Reg, key: ModelKey, number: nat) {
    number in VersionsOf(r, key) && VersionsOf(r, key)[number].status == Archived
  }

  /** A promotion to staging or production. */
  predicate Raises(q: Request) { q.Aliasing? || MovesHolder(q) }

  /** What an alias promotion in flight promotes is not archived. */
  predicate TargetsLive(s: Sys) {
    forall id :: id in s.reqs && Raises(s.reqs[id]) ==> !IsArchived(s.reg, s.reqs[id].key, s.reqs[id].number)
  }

  /** Who is archived by a call: nobody but the target of an archiving request, and nobody comes
      back but the target of a promotion that commits. */
  lemma ArchivedBy(r: Reg, q: Request, o: Outcome, key: ModelKey, number: nat)
    requires RequestOk(q) && LockHeld(r, q)
    ensures IsArchived(Next(r, q, o).reg, key, number) ==>
              IsArchived(r, key, number) || (q.Archiving? && q.key == key && q.number == number)
    ensures IsArchived(r, key, number) ==>
              IsArchived(Next(r, q, o).reg, key, number) || (q.Setting? && q.key == key && q.number == number)
  {
    match q
    case Naming(_, _) =>
    case Versioning(_, _, _) =>
    case Recording(_, _, _, _) =>
    case Storing(_, _, _) =>
    case Undoing(_, _, _) =>
    case Dropping(_) =>
    case Aliasing(_, _, _) =>
    case Holding(_, _, _) =>
    case Demoting(_, _, _, _) =>
    case Setting(_, _, _, _) =>
      if key == q.key && IsArchived(r, key, number) {
        assert number !in HoldersOf(VersionsOf(r, key), q.number, q.alias);
      }
    case Unstaging(_, _) =>
    case Unproducing(_, _) =>
    case Archiving(_, _) =>
  }

  /** A request that raises a version has raised it from the start. */
  lemma RaisesNext(r: Reg, q: Request, o: Outcome)
    ensures var n := Next(r, q, o).next;
            n.Some? && Raises(n.value) ==> Raises(q) && n.value.key == q.key && n.value.number == q.number
    ensures Raises(q) ==> Next(r, q, o).reg.records == r.records || (q.Setting? && Next(r, q, o).next == None)
  {
  }

  lemma LiveCall(s: Sys, id: nat, o: Outcome)
    requires TablesOk(s) && TargetsLive(s) && VersionsApart(s.reqs) && id in s.reqs
    ensures var t := Next(s.reg, s.reqs[id], o); TargetsLive(Sys(t.reg, WithRequest(s.reqs, id, t.next)))
  {
    var q := s.reqs[id];
    assert RequestOk(q) && LockHeld(s.reg, q);
    var t := Next(s.reg, q, o);
    var reqs' := WithRequest(s.reqs, id, t.next);
    RaisesNext(s.reg, q, o);
    forall j | j in reqs' && Raises(reqs'[j]) ensures !IsArchived(t.reg, reqs'[j].key, reqs'[j].number) {
      ArchivedBy(s.reg, q, o, reqs'[j].key, reqs'[j].number);
      if j != id {
        assert s.reqs[j] == reqs'[j];
      }
    }
  }

  lemma LiveStep(s: Sys, e: Step)
    requires TablesOk(s) && TargetsLive(s) && VersionsApart(s.reqs)
    ensures TargetsLive(Apply(s, e))
  {
    match e
    case Register(_, _, _) =>
    case Promote(_, _, _, _) =>
    case Call(id, o) => if Proceeds(s, e) { LiveCall(s, id, o); }
    case Crash(_) =>
  }

  lemma ArchivedStays(s: Sys, e: Step, key: ModelKey, number: nat)
    requires TablesOk(s) && IsArchived(s.reg, key, number)
    requires NotPromoting(s.reqs, key, number)
    ensures IsArchived(Apply(s, e).reg, key, number)
  {
    if Proceeds(s, e) {
      assert RequestOk(s.reqs[e.request]) && LockHeld(s.reg, s.reqs[e.request]);
      ArchivedBy(s.reg, s.reqs[e.request], e.outcome, key, number);
    }
  }

  /** Whatever fails: in runs in which promotions of the same version do not overlap, a version that
      is archived stays archived. */
  lemma {:induction false} ArchivedIsFinal(s: Sys, es: seq<Step>, key: ModelKey, number: nat)
    requires TablesOk(s) && TargetsLive(s) && ApartRun(s, es) && IsArchived(s.reg, key, number)
    ensures IsArchived(Exec(s, es).reg, key, number)
    decreases |es|
  {
    if es != [] {
      OkStep(s, es[0]);
      LiveStep(s, es[0]);
      ArchivedStays(s, es[0], key, number);
      ArchivedIsFinal(Apply(s, es[0]), es[1..], key, number);
    }
  }

  /** No promotion of this version to staging or production is under way. */
  predicate NotPromoting(reqs: map<nat, Request>, key: ModelKey, number: nat) {
    forall id :: id in reqs && Raises(reqs[id]) ==> !(reqs[id].key == key && reqs[id].number == number)
  }

  lemma NotPromotingStep(s: Sys, e: Step, key: ModelKey, number: nat)
    requires TablesOk(s) && IsArchived(s.reg, key, number) && NotPromoting(s.reqs, key, number)
    ensures IsArchived(Apply(s, e).reg, key, number) && NotPromoting(Apply(s, e).reqs, key, number)
  {
    ArchivedStays(s, e, key, number);
    if Proceeds(s, e) {
      RaisesNext(s.reg, s.reqs[e.request], e.outcome);
    }
  }

  lemma {:induction false} ArchivedStaysQuietly(s: Sys, es: seq<Step>, key: ModelKey, number: nat)
    requires TablesOk(s) && IsArchived(s.reg, key, number) && NotPromoting(s.reqs, key, number)
    ensures IsArchived(Exec(s, es).reg, key, number)
    decreases |es|
  {
    if es != [] {
      OkStep(s, es[0]);
      NotPromotingStep(s, es[0], key, number);
      ArchivedStaysQuietly(Apply(s, es[0]), es[1..], key, number);
    }
  }

  /** Calls that a promotion has before it at most. */
  function RaiseRank(q: Request): nat {
    match q
    case Aliasing(_, _, _) => 4
    case Holding(_, _, _) => 3
    case Demoting(_, _, _, _) => 2
    case _ => 1
  }

  /** Left alone, a promotion goes one call further. */
  lemma RaiseCall(s: Sys, id: nat)
    requires TablesOk(s) && id in s.reqs && s.reqs == map[id := s.reqs[id]] && Raises(s.reqs[id])
    requires s.reqs[id].Aliasing? ==> Known(s.reg, s.reqs[id].key, s.reqs[id].number)
    ensures var t := Next(s.reg, s.reqs[id], Reached); Apply(s, Call(id, Reached)) == Sys(t.reg, WithRequest(s.reqs, id, t.next))
    ensures var t := Next(s.reg, s.reqs[id], Reached);
            if s.reqs[id].Setting? then t.next == None
            else t.next.Some? && MovesHolder(t.next.value) && RaiseRank(t.next.value) < RaiseRank(s.reqs[id])
                 && t.next.value.key == s.reqs[id].key && t.next.value.number == s.reqs[id].number
                 && t.reg.records == s.reg.records
  {
    assert !Blocked(s.reqs, id);
  }

  lemma CommitUnarchives(s: Sys, id: nat)
    requires TablesOk(s) && id in s.reqs && s.reqs[id].Setting? && IsArchived(s.reg, s.reqs[id].key, s.reqs[id].number)
    ensures !IsArchived(Next(s.reg, s.reqs[id], Reached).reg, s.reqs[id].key, s.reqs[id].number)
  {
    assert RequestOk(s.reqs[id]);
  }

  /** Finishing a promotion of an archived version brings it back. */
  lemma {:induction false} FinishingUnarchives(s: Sys, id: nat) returns (es: seq<Step>)
    requires TablesOk(s) && id in s.reqs && s.reqs == map[id := s.reqs[id]] && Raises(s.reqs[id])
    requires s.reqs[id].Aliasing? ==> Known(s.reg, s.reqs[id].key, s.reqs[id].number)
    requires IsArchived(s.reg, s.reqs[id].key, s.reqs[id].number)
    ensures !IsArchived(Exec(s, es).reg, s.reqs[id].key, s.reqs[id].number)
    decreases RaiseRank(s.reqs[id])
  {
    var s1 := Apply(s, Call(id, Reached));
    RaiseCall(s, id);
    OkStep(s, Call(id, Reached));
    assert Exec(s, [Call(id, Reached)]) == Exec(s1, []);
    if s.reqs[id].Setting? {
      CommitUnarchives(s, id);
      es := [Call(id, Reached)];
    } else {
      assert s1.reqs == map[id := s1.reqs[id]];
      assert VersionsOf(s1.reg, s.reqs[id].key) == VersionsOf(s.reg, s.reqs[id].key);
      var rest := FinishingUnarchives(s1, id);
      ExecConcat(s, [Call(id, Reached)], rest);
      es := [Call(id, Reached)] + rest;
    }
  }

  ghost predicate ArchivedForEver(s: Sys, key: ModelKey, number: nat) {
    forall es :: IsArchived(Exec(s, es).reg, key, number)
  }

  /** An archived version that MLflow knows stays archived in every continuation if and only if no
      promotion of it is under way at the moment. */
  lemma ArchivedIsFinalExactly(s: Sys, key: ModelKey, number: nat)
    requires TablesOk(s) && IsArchived(s.reg, key, number) && Known(s.reg, key, number)
    ensures ArchivedForEver(s, key, number) <==> NotPromoting(s.reqs, key, number)
  {
    if NotPromoting(s.reqs, key, number) {
      forall es ensures IsArchived(Exec(s, es).reg, key, number) { ArchivedStaysQuietly(s, es, key, number); }
    } else {
      var id :| id in s.reqs && Raises(s.reqs[id]) && s.reqs[id].key == key && s.reqs[id].number == number;
      var crashes := OthersStop(s, {id});
      var alone := Exec(s, crashes);
      assert alone.reqs == map[id := s.reqs[id]];
      RowsAreKept(s, crashes);
      var es := FinishingUnarchives(alone, id);
      ExecConcat(s, crashes, es);
      assert !IsArchived(Exec(s, crashes + es).reg, key, number);
    }
  }
}
