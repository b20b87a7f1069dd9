/** Single promotions, run without interruption, under every combination of faults: what they do,
    and exactly when they leave aliases and statuses in agreement; and what goes wrong when two
    promotions of one version overlap. */
module RegistryPromotions {
  import opened Prelude
  import opened Registry
  import opened RegistryProtocol
  import opened RegistryHistory
  import opened RegistryAlias
  import opened RegistryFaults

  /** The outcomes of the calls of Promote: two for an alias, three for archiving. `holder` is that of
      the transaction: if it is refused, nothing of it remains. */
  datatype PromoteFaults = PromoteFaults(alias: Outcome, holder: Outcome, unstage: Outcome, unproduce: Outcome, archive: Outcome)

  const NO_PROMOTE_FAULT := PromoteFaults(Reached, Reached, Reached, Reached, Reached)

  function PromoteOutcome(q: Request, f: PromoteFaults): Outcome
    requires Promotes(q)
  {
    match q
    case Aliasing(_, _, _) => f.alias
    case Holding(_, _, _) => if f.holder == Refused then Refused else Reached
    case Demoting(_, _, _, _) => Reached
    case Setting(_, _, _, _) => f.holder
    case Unstaging(_, _) => f.unstage
    case Unproducing(_, _) => f.unproduce
    case Archiving(_, _) => f.archive
  }

  function PromoteRank(q: Request): nat {
    match q
    case Aliasing(_, _, _) => 4
    case Holding(_, _, _) => 3
    case Demoting(_, _, _, _) => 2
    case Unstaging(_, _) => 3
    case Unproducing(_, _) => 2
    case _ => 1
  }

  /** A promotion carried to its end. */
  function Promoted(r: Reg, q: Request, f: PromoteFaults): Reg
    requires Promotes(q)
    decreases PromoteRank(q)
  {
    var t := Next(r, q, PromoteOutcome(q, f));
    if t.next.None? then t.reg else Promoted(t.reg, t.next.value, f)
  }

  function PromoteSteps(id: nat, r: Reg, q: Request, f: PromoteFaults): seq<Step>
    requires Promotes(q)
    decreases PromoteRank(q)
  {
    var t := Next(r, q, PromoteOutcome(q, f));
    [Call(id, PromoteOutcome(q, f))] + if t.next.None? then [] else PromoteSteps(id, t.reg, t.next.value, f)
  }

  /** No transaction on a row of this model is open. */
  predicate Unlocked(reqs: map<nat, Request>, key: ModelKey) {
    forall j :: j in reqs && reqs[j].Setting? ==> reqs[j].key != key
  }

  lemma {:induction false} PromotedRuns(s: Sys, id: nat, q: Request, f: PromoteFaults)
    requires Promotes(q) && id !in s.reqs && Unlocked(s.reqs, q.key)
    ensures Exec(s.(reqs := s.reqs[id := q]), PromoteSteps(id, s.reg, q, f)) == s.(reg := Promoted(s.reg, q, f))
    decreases PromoteRank(q)
  {
    var o := PromoteOutcome(q, f);
    var t := Next(s.reg, q, o);
    var s0 := s.(reqs := s.reqs[id := q]);
    var rest := if t.next.None? then [] else PromoteSteps(id, t.reg, t.next.value, f);
    assert !Blocked(s0.reqs, id);
    var s1 := Apply(s0, Call(id, o));
    assert ([Call(id, o)] + rest)[1..] == rest;
    assert Exec(s0, [Call(id, o)] + rest) == Exec(s1, rest);
    if t.next.None? {
      assert s.reqs[id := q] - {id} == s.reqs;
    } else {
      assert s.reqs[id := q][id := t.next.value] == s.reqs[id := t.next.value];
      PromotedRuns(s.(reg := t.reg), id, t.next.value, f);
    }
  }

  predicate OtherHolder(versions: map<nat, Version>, number: nat, alias: Label) {
    exists m :: m in versions && m != number && versions[m].status == alias
  }

  /** Run without interruption, the transaction makes the other holders candidates and the version the
      holder. */
  lemma HoldingPromoted(r: Reg, key: ModelKey, number: nat, alias: Label, f: PromoteFaults)
    requires key in r.records && number in r.records[key].versions
    ensures Promoted(r, Holding(key, number, alias), f) ==
            if f.holder == Refused then r else WithVersions(r, key, Held(r.records[key].versions, number, alias))
  {
    var versions := r.records[key].versions;
    var holders := HoldersOf(versions, number, alias);
    assert holders * holders == holders;
    assert Switched(versions, holders, number, alias) == Held(versions, number, alias);
    if f.holder != Refused {
      assert Promoted(r, Holding(key, number, alias), f) == Promoted(r, Demoting(key, number, alias, holders), f);
      assert Promoted(r, Demoting(key, number, alias, holders), f) == Promoted(r, Setting(key, number, alias, holders), f);
    }
  }

  /** Aliases and versions after an alias promotion. */
  lemma AliasPromoted(r: Reg, key: ModelKey, number: nat, alias: Label, f: PromoteFaults)
    requires Exclusive(alias) && Accepted(r, key, number, alias) && Known(r, key, number)
    ensures var r' := Promoted(r, PromoteRequest(key, number, alias), f);
            && AliasesOf(r', key) == (if f.alias == Refused then AliasesOf(r, key) else AliasesOf(r, key)[alias := number])
            && VersionsOf(r', key) == if f.alias == Reached && f.holder != Refused
                                      then Held(VersionsOf(r, key), number, alias) else VersionsOf(r, key)
  {
    var q := PromoteRequest(key, number, alias);
    var t := Next(r, q, f.alias);
    if f.alias == Reached {
      assert t.next == Some(Holding(key, number, alias));
      assert Promoted(r, q, f) == Promoted(t.reg, Holding(key, number, alias), f);
      HoldingPromoted(t.reg, key, number, alias, f);
    }
  }

  function Without(aliases: map<Label, nat>, alias: Label, o: Outcome): map<Label, nat> {
    if o == Refused then aliases else aliases - {alias}
  }

  /** Aliases and versions after archiving. */
  lemma ArchivePromoted(r: Reg, key: ModelKey, number: nat, f: PromoteFaults)
    requires Accepted(r, key, number, Archived)
    ensures var r' := Promoted(r, PromoteRequest(key, number, Archived), f); var v := VersionsOf(r, key);
            && AliasesOf(r', key) == Without(Without(AliasesOf(r, key), Staging, f.unstage), Production, f.unproduce)
            && VersionsOf(r', key) == if f.archive == Refused then v else v[number := v[number].(status := Archived)]
  {
    var q := Unstaging(key, number);
    var t1 := Next(r, q, f.unstage);
    var t2 := Next(t1.reg, Unproducing(key, number), f.unproduce);
    assert AliasesOf(t1.reg, key) == Without(AliasesOf(r, key), Staging, f.unstage);
    assert AliasesOf(t2.reg, key) == Without(AliasesOf(t1.reg, key), Production, f.unproduce);
    assert Promoted(r, q, f) == Promoted(t1.reg, Unproducing(key, number), f);
    assert Promoted(t1.reg, Unproducing(key, number), f) == Promoted(t2.reg, Archiving(key, number), f);
  }

  /** The alias still names this version after archiving's removals. */
  predicate KeepsName(aliases: map<Label, nat>, alias: Label, number: nat, o: Outcome) {
    o == Refused && alias in aliases && aliases[alias] == number
  }

  /** Which faults a promotion survives. For an alias: all, unless the alias was moved, the status was
      not, and another version holds it. For archiving: all, unless the status was written while an
      alias that names the version could not be removed. */
  predicate LeavesAgreement(aliases: map<Label, nat>, versions: map<nat, Version>, number: nat, alias: Label, f: PromoteFaults) {
    if alias == Archived then
      f.archive == Refused
      || !(KeepsName(aliases, Staging, number, f.unstage) || KeepsName(aliases, Production, number, f.unproduce))
    else
      f.alias == Refused || (f.alias == Reached && f.holder != Refused) || !OtherHolder(versions, number, alias)
  }

  lemma OneAliasMoved(a: map<Label, nat>, v: map<nat, Version>, number: nat, alias: Label, f: PromoteFaults,
                      a': map<Label, nat>, v': map<nat, Version>)
    requires Exclusive(alias) && number in v && v[number].status != Archived
    requires NoneArchived(a, v) && Agree(a, v, Staging) && Agree(a, v, Production)
    requires a' == if f.alias == Refused then a else a[alias := number]
    requires v' == if f.alias == Reached && f.holder != Refused then Held(v, number, alias) else v
    ensures NoneArchived(a', v') && Agree(a', v', Staging) && Agree(a', v', Production) <==>
            LeavesAgreement(a, v, number, alias, f)
  {
    if f.alias != Refused && !(f.alias == Reached && f.holder != Refused) && OtherHolder(v, number, alias) {
      var m :| m in v && m != number && v[m].status == alias;
      assert !Agree(a[alias := number], v, alias);
    }
  }

  lemma AliasLeavesAgreement(r: Reg, key: ModelKey, number: nat, alias: Label, f: PromoteFaults)
    requires Exclusive(alias) && Accepted(r, key, number, alias) && Known(r, key, number) && AliasesOk(r, key)
    ensures AliasesOk(Promoted(r, PromoteRequest(key, number, alias), f), key)
            <==> LeavesAgreement(AliasesOf(r, key), VersionsOf(r, key), number, alias, f)
  {
    AliasPromoted(r, key, number, alias, f);
    var r' := Promoted(r, PromoteRequest(key, number, alias), f);
    OneAliasMoved(AliasesOf(r, key), VersionsOf(r, key), number, alias, f, AliasesOf(r', key), VersionsOf(r', key));
  }

  lemma ArchiveLeavesAgreement(r: Reg, key: ModelKey, number: nat, f: PromoteFaults)
    requires Accepted(r, key, number, Archived) && AliasesOk(r, key)
    ensures AliasesOk(Promoted(r, PromoteRequest(key, number, Archived), f), key)
            <==> LeavesAgreement(AliasesOf(r, key), VersionsOf(r, key), number, Archived, f)
  {
    ArchivePromoted(r, key, number, f);
    var a, v := AliasesOf(r, key), VersionsOf(r, key);
    var a' := Without(Without(a, Staging, f.unstage), Production, f.unproduce);
    if f.archive != Refused {
      if KeepsName(a, Staging, number, f.unstage) {
        assert Staging in a' && a'[Staging] == number;
      } else if KeepsName(a, Production, number, f.unproduce) {
        assert Production in a' && a'[Production] == number;
      }
    }
  }

  /** Every promotion, whatever fails: aliases and statuses agree afterwards exactly for the faults
      that LeavesAgreement lists. */
  lemma PromotionLeavesAgreementExactly(r: Reg, key: ModelKey, number: nat, alias: Label, f: PromoteFaults)
    requires Accepted(r, key, number, alias) && Known(r, key, number) && AliasesOk(r, key)
    ensures AliasesOk(Promoted(r, PromoteRequest(key, number, alias), f), key)
            <==> LeavesAgreement(AliasesOf(r, key), VersionsOf(r, key), number, alias, f)
  {
    if alias == Archived {
      ArchiveLeavesAgreement(r, key, number, f);
    } else {
      AliasLeavesAgreement(r, key, number, alias, f);
    }
  }

  // ---------------------------------------------------------------- what promotions do not do

  predicate HasStatus(versions: map<nat, Version>, number: nat, status: Label) {
    number in versions && versions[number].status == status
  }

  /** The prior production version becomes a candidate, not a staging version. */
  lemma {:induction false} PriorHolderBecomesCandidate(r: Reg, key: ModelKey, number: nat, prior: nat)
    requires Accepted(r, key, number, Production) && Known(r, key, number)
    requires prior != number && HasStatus(VersionsOf(r, key), prior, Production)
    ensures var v := VersionsOf(Promoted(r, PromoteRequest(key, number, Production), NO_PROMOTE_FAULT), key);
            HasStatus(v, prior, Candidate) && HasStatus(v, number, Production)
  {
    AliasPromoted(r, key, number, Production, NO_PROMOTE_FAULT);
  }

  /** Archiving any version takes both aliases of the model away: a production version is left that
      the production alias no longer finds. */
  lemma ArchivingHidesProduction(r: Reg, key: ModelKey, number: nat, holder: nat)
    requires Accepted(r, key, number, Archived)
    requires holder != number && HasStatus(VersionsOf(r, key), holder, Production)
    ensures var r' := Promoted(r, PromoteRequest(key, number, Archived), NO_PROMOTE_FAULT);
            HasStatus(VersionsOf(r', key), holder, Production) && Resolve(r', key, Production) == Err(AliasNotFound)
  {
    ArchivePromoted(r, key, number, NO_PROMOTE_FAULT);
  }

  /** A production version is found by the production alias. */
  predicate ProductionNamed(r: Reg, key: ModelKey) {
    forall n :: n in VersionsOf(r, key) && VersionsOf(r, key)[n].status == Production ==>
      Production in AliasesOf(r, key) && AliasesOf(r, key)[Production] == n
  }

  lemma ArchivingKeepsNameExactly(r: Reg, key: ModelKey, number: nat)
    requires Accepted(r, key, number, Archived) && ProductionNamed(r, key)
    ensures ProductionNamed(Promoted(r, PromoteRequest(key, number, Archived), NO_PROMOTE_FAULT), key) <==>
            !OtherHolder(VersionsOf(r, key), number, Production)
  {
    ArchivePromoted(r, key, number, NO_PROMOTE_FAULT);
    var v := VersionsOf(r, key);
    if OtherHolder(v, number, Production) {
      var m :| m in v && m != number && v[m].status == Production;
      assert HasStatus(VersionsOf(Promoted(r, PromoteRequest(key, number, Archived), NO_PROMOTE_FAULT), key), m, Production);
    }
  }

  /** A promotion without faults keeps the production version under its alias if and only if it does not
      archive another version. */
  lemma ProductionNamedExactly(r: Reg, key: ModelKey, number: nat, alias: Label)
    requires Accepted(r, key, number, alias) && (alias != Archived ==> Known(r, key, number)) && ProductionNamed(r, key)
    ensures ProductionNamed(Promoted(r, PromoteRequest(key, number, alias), NO_PROMOTE_FAULT), key) <==>
            alias != Archived || !OtherHolder(VersionsOf(r, key), number, Production)
  {
    if alias == Archived {
      ArchivingKeepsNameExactly(r, key, number);
    } else {
      AliasPromoted(r, key, number, alias, NO_PROMOTE_FAULT);
    }
  }

  /** Moving the production version to staging leaves the production alias on it: the alias resolves
      to a version that cannot be deployed. */
  lemma {:induction false} ProductionAliasOnStaging(r: Reg, key: ModelKey, number: nat)
    requires Accepted(r, key, number, Staging) && Known(r, key, number)
    requires Production in AliasesOf(r, key) && AliasesOf(r, key)[Production] == number
    ensures var r' := Promoted(r, PromoteRequest(key, number, Staging), NO_PROMOTE_FAULT);
            Resolve(r', key, Production).Ok? && Resolve(r', key, Production).value.status == Staging
  {
    AliasPromoted(r, key, number, Staging, NO_PROMOTE_FAULT);
    var r' := Promoted(r, PromoteRequest(key, number, Staging), NO_PROMOTE_FAULT);
    assert HasStatus(VersionsOf(r', key), number, Staging) && Production in AliasesOf(r', key);
  }

  // ---------------------------------------------------------------- two promotions at once

  function One(aliases: map<Label, nat>, status: Label): Reg {
    Reg(map[NameOf(KEY) := MlModel(1, map[1 := "run"], aliases)],
        map[KEY := Record(0, "p", NameOf(KEY), map[1 := Version(1, RunRef(0, 0), "run", status)])], 2)
  }

  /** A first registration that meets no fault. */
  const REGISTER := FIRST + [Call(1, Reached), Call(1, Reached)]

  lemma RegisterRuns()
    ensures Exec(Init(), REGISTER) == Sys(One(map[], Candidate), map[])
  {
    FirstRuns();
    var s1 := Exec(Init(), FIRST);
    var s2 := Sys(Reg(s1.reg.mlflow, map[KEY := Record(0, "p", NameOf(KEY), map[])], 1), map[1 := Storing(KEY, SRC, 1)]);
    assert Apply(s1, Call(1, Reached)) == s2;
    assert s2.reqs - {1} == map[];
    assert Apply(s2, Call(1, Reached)) == Sys(One(map[], Candidate), map[]);
    Exec2(s1, Call(1, Reached), Call(1, Reached));
    ExecConcat(Init(), FIRST, [Call(1, Reached), Call(1, Reached)]);
  }

  /** Promotion to production and archiving of one version, interleaved. */
  const RACE := [Promote(1, KEY, 1, Production), Promote(2, KEY, 1, Archived), Call(1, Reached)]
    + [Call(2, Reached), Call(2, Reached), Call(2, Reached)]

  lemma RaceRuns()
    ensures Exec(Sys(One(map[], Candidate), map[]), RACE) == Sys(One(map[], Archived), map[1 := Holding(KEY, 1, Production)])
  {
    var s0 := Sys(One(map[], Candidate), map[]);
    var s1 := s0.(reqs := map[1 := Aliasing(KEY, 1, Production)]);
    var s2 := s0.(reqs := map[1 := Aliasing(KEY, 1, Production), 2 := Unstaging(KEY, 1)]);
    var s3 := Sys(One(map[Production := 1], Candidate), map[1 := Holding(KEY, 1, Production), 2 := Unstaging(KEY, 1)]);
    var s4 := s3.(reqs := map[1 := Holding(KEY, 1, Production), 2 := Unproducing(KEY, 1)]);
    var s5 := Sys(One(map[], Candidate), map[1 := Holding(KEY, 1, Production), 2 := Archiving(KEY, 1)]);
    assert Apply(s0, Promote(1, KEY, 1, Production)) == s1;
    assert Apply(s1, Promote(2, KEY, 1, Archived)) == s2;
    assert Apply(s2, Call(1, Reached)) == s3;
    RaceUnaliases(s3, s4, s5);
    RaceEnds(s5);
    Exec3(s0, Promote(1, KEY, 1, Production), Promote(2, KEY, 1, Archived), Call(1, Reached));
    Exec3(s3, Call(2, Reached), Call(2, Reached), Call(2, Reached));
    ExecConcat(s0, [Promote(1, KEY, 1, Production), Promote(2, KEY, 1, Archived), Call(1, Reached)],
               [Call(2, Reached), Call(2, Reached), Call(2, Reached)]);
  }

  lemma RaceUnaliases(s3: Sys, s4: Sys, s5: Sys)
    requires s3 == Sys(One(map[Production := 1], Candidate), map[1 := Holding(KEY, 1, Production), 2 := Unstaging(KEY, 1)])
    requires s4 == s3.(reqs := map[1 := Holding(KEY, 1, Production), 2 := Unproducing(KEY, 1)])
    requires s5 == Sys(One(map[], Candidate), map[1 := Holding(KEY, 1, Production), 2 := Archiving(KEY, 1)])
    ensures Apply(s3, Call(2, Reached)) == s4 && Apply(s4, Call(2, Reached)) == s5
  {
    assert map[Production := 1] - {Staging} == map[Production := 1];
    assert map[Production := 1] - {Production} == map[];
  }

  lemma RaceEnds(s: Sys)
    requires s == Sys(One(map[], Candidate), map[1 := Holding(KEY, 1, Production), 2 := Archiving(KEY, 1)])
    ensures Apply(s, Call(2, Reached)) == Sys(One(map[], Archived), map[1 := Holding(KEY, 1, Production)])
  {
    assert s.reqs - {2} == map[1 := Holding(KEY, 1, Production)];
    var v := s.reg.records[KEY].versions;
    assert v[1 := v[1].(status := Archived)] == One(map[], Archived).records[KEY].versions;
    assert WithVersions(s.reg, KEY, v[1 := v[1].(status := Archived)]) == One(map[], Archived);
  }

  /** Without any fault, from the start, an archived version comes back: archiving commits between the
      alias and the status of the promotion, which does not look at the status again. */
  lemma OverlappingPromotionsUnarchive()
    ensures var s := Exec(Init(), REGISTER + RACE);
            && IsArchived(s.reg, KEY, 1)
            && Exec(s, PromoteSteps(1, s.reg, Holding(KEY, 1, Production), NO_PROMOTE_FAULT)) == Sys(One(map[], Production), map[])
  {
    RegisterRuns();
    RaceRuns();
    ExecConcat(Init(), REGISTER, RACE);
    RaceResumes();
  }

  lemma RaceResumes()
    ensures var s := Sys(One(map[], Archived), map[1 := Holding(KEY, 1, Production)]);
            Exec(s, PromoteSteps(1, s.reg, Holding(KEY, 1, Production), NO_PROMOTE_FAULT)) == Sys(One(map[], Production), map[])
  {
    var q := Holding(KEY, 1, Production);
    var idle := Sys(One(map[], Archived), map[]);
    assert idle.reqs[1 := q] == map[1 := q];
    PromotedRuns(idle, 1, q, NO_PROMOTE_FAULT);
    RacePromoted();
  }

  lemma RacePromoted()
    ensures Promoted(One(map[], Archived), Holding(KEY, 1, Production), NO_PROMOTE_FAULT) == One(map[], Production)
  {
    var r := One(map[], Archived);
    HoldingPromoted(r, KEY, 1, Production, NO_PROMOTE_FAULT);
    assert Held(VersionsOf(r, KEY), 1, Production) == VersionsOf(One(map[], Production), KEY);
  }
}
