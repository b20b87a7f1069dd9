/** Exactly from which states an alias and its status agree whenever no promotion is between the two,
    at which moments setting the alias or beginning the transaction ends that, and the runs in which it
    does (control-plane/internal/models/service.go:164-169, store.go:164-194). */
module RegistryAgreementExact {
  import opened Prelude
  import opened Registry
  import opened RegistryProtocol
  import opened RegistryHistory
  import opened RegistryFaults
  import opened RegistryAlias
  import opened RegistryPromotions
  import opened RegistryHolders
  import opened RegistryAgreement

  // ---------------------------------------------------------------- carrying transactions to their end

  /** Nothing but transactions for this alias, none of which has changed a row of another one's version. */
  predicate Lone(s: Sys, key: ModelKey, alias: Label) {
    && TablesOk(s) && KeyOk(key) && Exclusive(alias)
    && (forall id :: id in s.reqs ==> Moves(s.reqs[id], key, alias))
    && (forall i, j :: i in s.reqs && j in s.reqs && s.reqs[i].Setting? && s.reqs[j].Setting? ==> s.reqs[i].number == s.reqs[j].number)
  }

  /** The request can be carried to its end at once. */
  predicate Free(reqs: map<nat, Request>, id: nat) {
    && id in reqs
    && (reqs[id].Demoting? ==> forall j :: j in reqs ==> !reqs[j].Setting?)
    && (reqs[id].Holding? ==> forall j :: j in reqs ==> !Open(reqs[j]))
  }

  predicate Missed(q: Request, h: nat) { Open(q) && h !in Found(q) }

  /** The request has been carried to its end: its version holds the status, and so does every other
      holder that an open transaction had missed. */
  predicate Finished(s: Sys, s': Sys, id: nat, key: ModelKey, alias: Label)
    requires id in s.reqs && MovesHolder(s.reqs[id])
  {
    var q := s.reqs[id];
    && s'.reqs == s.reqs - {id} && s'.reg.mlflow == s.reg.mlflow && Lone(s', key, alias)
    && HasStatus(VersionsOf(s'.reg, key), q.number, alias)
    && forall h :: Missed(q, h) && h in HoldersOf(VersionsOf(s.reg, key), q.number, alias) ==>
         h in HoldersOf(VersionsOf(s'.reg, key), q.number, alias)
  }

  lemma OneOrderly(s: Sys, e: Step, key: ModelKey, alias: Label)
    requires Orderly(s, e, key, alias)
    ensures OrderlyRun(s, [e], key, alias) && Exec(s, [e]) == Apply(s, e)
  {
    assert [e][1..] == [];
  }

  lemma {:induction false} OrderlyTogether(s: Sys, a: seq<Step>, b: seq<Step>, key: ModelKey, alias: Label)
    requires OrderlyRun(s, a, key, alias) && OrderlyRun(Exec(s, a), b, key, alias)
    ensures OrderlyRun(s, a + b, key, alias) && Exec(s, a + b) == Exec(Exec(s, a), b)
    decreases |a|
  {
    if a == [] {
      assert a + b == b;
    } else {
      assert (a + b)[0] == a[0] && (a + b)[1..] == a[1..] + b;
      OrderlyTogether(Apply(s, a[0]), a[1..], b, key, alias);
    }
  }

  lemma SettingUnblocked(s: Sys, id: nat, key: ModelKey, alias: Label)
    requires Lone(s, key, alias) && id in s.reqs && s.reqs[id].Setting?
    ensures !Blocked(s.reqs, id)
  {
    forall j | j in s.reqs && j != id ensures !WaitsFor(s.reqs[id], s.reqs[j]) {
      assert RequestOk(s.reqs[j]);
    }
  }

  lemma FinishSetting(s: Sys, id: nat, key: ModelKey, alias: Label) returns (es: seq<Step>)
    requires Lone(s, key, alias) && id in s.reqs && s.reqs[id].Setting?
    ensures OrderlyRun(s, es, key, alias) && Finished(s, Exec(s, es), id, key, alias)
  {
    es := [Call(id, Reached)];
    var q := s.reqs[id];
    SettingUnblocked(s, id, key, alias);
    assert RequestOk(q) && !Registers(q);
    OneOrderly(s, Call(id, Reached), key, alias);
    Commits(s, id);
    RowsAreKept(s, es);
    MoverLeavesAliases(s.reg, q, Reached);
  }

  lemma FinishDemoting(s: Sys, id: nat, key: ModelKey, alias: Label) returns (es: seq<Step>)
    requires Lone(s, key, alias) && Free(s.reqs, id) && s.reqs[id].Demoting?
    ensures OrderlyRun(s, es, key, alias) && Finished(s, Exec(s, es), id, key, alias)
  {
    assert !Blocked(s.reqs, id);
    Demotes(s, id);
    RowsAreKept(s, [Call(id, Reached)]);
    OneOrderly(s, Call(id, Reached), key, alias);
    var s1 := Exec(s, [Call(id, Reached)]);
    assert Lone(s1, key, alias);
    var rest := FinishSetting(s1, id, key, alias);
    OrderlyTogether(s, [Call(id, Reached)], rest, key, alias);
    es := [Call(id, Reached)] + rest;
    assert s1.reqs - {id} == s.reqs - {id};
  }

  lemma Begins(s: Sys, id: nat)
    requires id in s.reqs && s.reqs[id].Holding?
    ensures var q := s.reqs[id];
            Apply(s, Call(id, Reached)) ==
            s.(reqs := s.reqs[id := Demoting(q.key, q.number, q.alias, HoldersOf(VersionsOf(s.reg, q.key), q.number, q.alias))])
  {
    assert !Blocked(s.reqs, id);
  }

  lemma BeginsAlone(s: Sys, id: nat, key: ModelKey, alias: Label)
    requires Lone(s, key, alias) && Free(s.reqs, id) && s.reqs[id].Holding?
    ensures OrderlyRun(s, [Call(id, Reached)], key, alias)
    ensures var s1 := Exec(s, [Call(id, Reached)]); var q := s.reqs[id];
            Lone(s1, key, alias) && Free(s1.reqs, id) && s1 == s.(reqs := s.reqs[id := s1.reqs[id]])
            && s1.reqs[id] == Demoting(key, q.number, alias, HoldersOf(VersionsOf(s.reg, key), q.number, alias))
  {
    assert Orderly(s, Call(id, Reached), key, alias) by {
      assert NoRivalOpen(s.reqs, key, s.reqs[id].number, alias);
    }
    OneOrderly(s, Call(id, Reached), key, alias);
    OkStep(s, Call(id, Reached));
    Begins(s, id);
  }

  lemma FinishHolding(s: Sys, id: nat, key: ModelKey, alias: Label) returns (es: seq<Step>)
    requires Lone(s, key, alias) && Free(s.reqs, id) && s.reqs[id].Holding?
    ensures OrderlyRun(s, es, key, alias) && Finished(s, Exec(s, es), id, key, alias)
  {
    BeginsAlone(s, id, key, alias);
    var s1 := Exec(s, [Call(id, Reached)]);
    var rest := FinishDemoting(s1, id, key, alias);
    OrderlyTogether(s, [Call(id, Reached)], rest, key, alias);
    es := [Call(id, Reached)] + rest;
    assert s1.reqs - {id} == s.reqs - {id};
  }

  lemma FinishOne(s: Sys, id: nat, key: ModelKey, alias: Label) returns (es: seq<Step>)
    requires Lone(s, key, alias) && Free(s.reqs, id)
    ensures OrderlyRun(s, es, key, alias) && Finished(s, Exec(s, es), id, key, alias)
  {
    if s.reqs[id].Setting? {
      es := FinishSetting(s, id, key, alias);
    } else if s.reqs[id].Demoting? {
      es := FinishDemoting(s, id, key, alias);
    } else {
      es := FinishHolding(s, id, key, alias);
    }
  }

  // ---------------------------------------------------------------- exactly from which states

  ghost predicate StaysAgreed(s: Sys, key: ModelKey, alias: Label) {
    forall es :: OrderlyRun(s, es, key, alias) && NoneMoves(Exec(s, es).reqs, key, alias) ==>
      Agree(AliasesOf(Exec(s, es).reg, key), VersionsOf(Exec(s, es).reg, key), alias)
  }

  /** An orderly continuation after which an alias that is set misses a holder. */
  ghost predicate GoesWrong(s: Sys, es: seq<Step>, key: ModelKey, alias: Label) {
    && OrderlyRun(s, es, key, alias) && NoneMoves(Exec(s, es).reqs, key, alias)
    && !Agree(AliasesOf(Exec(s, es).reg, key), VersionsOf(Exec(s, es).reg, key), alias)
  }

  predicate IsNamed(r: Reg, key: ModelKey, number: nat, alias: Label) {
    alias in AliasesOf(r, key) && AliasesOf(r, key)[alias] == number
  }

  lemma Prefixed(s: Sys, a: seq<Step>, b: seq<Step>, key: ModelKey, alias: Label)
    requires OrderlyRun(s, a, key, alias) && GoesWrong(Exec(s, a), b, key, alias)
    ensures GoesWrong(s, a + b, key, alias)
  {
    OrderlyTogether(s, a, b, key, alias);
  }

  /** `j` may commit last. */
  predicate MayEnd(reqs: map<nat, Request>, j: nat, number: nat) {
    && j in reqs && MovesHolder(reqs[j]) && reqs[j].number != number
    && (Open(reqs[j]) ==> forall id :: id in reqs ==> MovesHolder(reqs[id]) && reqs[id].number != number)
  }

  /** There is always a request to carry on with, and one that can be last. */
  lemma PickFree(reqs: map<nat, Request>, j: nat) returns (id: nat)
    requires j in reqs && forall i :: i in reqs ==> MovesHolder(reqs[i])
    ensures Free(reqs, id) && (id == j ==> Open(reqs[j]) || reqs.Keys == {j})
  {
    if i :| i in reqs && reqs[i].Setting? {
      id := i;
    } else if i :| i in reqs && reqs[i].Demoting? {
      id := i;
    } else if i :| i in reqs && i != j {
      id := i;
    } else {
      id := j;
    }
  }

  /** A transaction for another version than the one named commits last. */
  lemma {:induction false} FinishOther(s: Sys, j: nat, number: nat, key: ModelKey, alias: Label) returns (es: seq<Step>)
    requires Lone(s, key, alias) && MayEnd(s.reqs, j, number) && IsNamed(s.reg, key, number, alias)
    ensures GoesWrong(s, es, key, alias)
    decreases |s.reqs|
  {
    var id := PickFree(s.reqs, j);
    es := FinishOne(s, id, key, alias);
    var s1 := Exec(s, es);
    assert |s1.reqs| < |s.reqs| by { assert s1.reqs.Keys == s.reqs.Keys - {id}; }
    if s1.reqs != map[] {
      var i := NextLast(s.reqs, id, j, number);
      var rest := FinishOther(s1, i, number, key, alias);
      Prefixed(s, es, rest, key, alias);
      es := es + rest;
    } else {
      assert id == j by { assert j !in s1.reqs; }
    }
  }

  lemma NextLast(reqs: map<nat, Request>, id: nat, j: nat, number: nat) returns (i: nat)
    requires MayEnd(reqs, j, number) && id in reqs && (id == j ==> Open(reqs[j]) || reqs.Keys == {j}) && reqs - {id} != map[]
    ensures MayEnd(reqs - {id}, i, number)
  {
    if id != j {
      i := j;
    } else {
      i :| i in reqs - {id};
      assert i in reqs.Keys;
    }
  }

  /** All transactions are open and for the version that the alias names, and all miss the holder `h`. */
  predicate AllMiss(s: Sys, number: nat, h: nat, key: ModelKey, alias: Label) {
    && IsNamed(s.reg, key, number, alias) && h in HoldersOf(VersionsOf(s.reg, key), number, alias)
    && forall id :: id in s.reqs ==> Missed(s.reqs[id], h) && s.reqs[id].number == number
  }

  lemma {:induction false} FinishMissing(s: Sys, number: nat, h: nat, key: ModelKey, alias: Label) returns (es: seq<Step>)
    requires Lone(s, key, alias) && AllMiss(s, number, h, key, alias)
    ensures GoesWrong(s, es, key, alias)
    decreases |s.reqs|
  {
    if j :| j in s.reqs {
      var id := PickFree(s.reqs, j);
      es := FinishOne(s, id, key, alias);
      var s1 := Exec(s, es);
      assert |s1.reqs| < |s.reqs| by { assert s1.reqs.Keys == s.reqs.Keys - {id}; }
      var rest := FinishMissing(s1, number, h, key, alias);
      Prefixed(s, es, rest, key, alias);
      es := es + rest;
    } else {
      es := [];
    }
  }

  /** Everything else may stop. */
  lemma {:induction false} StopsAreOrderly(s: Sys, es: seq<Step>, keep: set<nat>, key: ModelKey, alias: Label)
    requires forall k :: 0 <= k < |es| ==> es[k].Crash? && es[k].request !in keep
    requires forall id :: id in s.reqs && Moves(s.reqs[id], key, alias) ==> id in keep
    ensures OrderlyRun(s, es, key, alias)
    decreases |es|
  {
    if es != [] {
      assert es[0].Crash? && es[0].request !in keep;
      StopsAreOrderly(Apply(s, es[0]), es[1..], keep, key, alias);
    }
  }

  /** The transactions for the alias, left alone. */
  lemma LeftAlone(s: Sys, key: ModelKey, alias: Label) returns (es: seq<Step>)
    requires TablesOk(s)
    ensures OrderlyRun(s, es, key, alias) && TablesOk(Exec(s, es))
    ensures Exec(s, es) == s.(reqs := map id | id in s.reqs && Moves(s.reqs[id], key, alias) :: s.reqs[id])
  {
    var keep := set id | id in s.reqs && Moves(s.reqs[id], key, alias);
    es := OthersStop(s, keep);
    StopsAreOrderly(s, es, keep, key, alias);
    RowsAreKept(s, es);
  }

  /** The open transactions are for one version. */
  predicate NoRivalsFor(reqs: map<nat, Request>, key: ModelKey, alias: Label) {
    forall i, j :: i in reqs && j in reqs && OpenFor(reqs[i], key, alias) && OpenFor(reqs[j], key, alias) ==> reqs[i].number == reqs[j].number
  }

  lemma Doomed(s: Sys, key: ModelKey, alias: Label) returns (es: seq<Step>)
    requires Lone(s, key, alias) && NoRivalsFor(s.reqs, key, alias) && !Settling(s, key, alias)
    ensures GoesWrong(s, es, key, alias)
  {
    var n := AliasesOf(s.reg, key)[alias];
    if j :| j in s.reqs && Waits(s.reqs[j], key, alias) && s.reqs[j].number != n {
      es := FinishOther(s, j, n, key, alias);
    } else if j :| j in s.reqs && OpenFor(s.reqs[j], key, alias) && s.reqs[j].number != n {
      assert forall i :: i in s.reqs ==> OpenFor(s.reqs[i], key, alias);
      es := FinishOther(s, j, n, key, alias);
    } else {
      var h :| h in HoldersOf(VersionsOf(s.reg, key), n, alias) && !IsFound(s.reqs, key, alias, h);
      assert forall i :: i in s.reqs ==> OpenFor(s.reqs[i], key, alias);
      es := FinishMissing(s, n, h, key, alias);
    }
  }

  lemma NotSettlingGoesWrong(s: Sys, key: ModelKey, alias: Label) returns (es: seq<Step>)
    requires TablesOk(s) && KeyOk(key) && Exclusive(alias) && NoRivalsFor(s.reqs, key, alias) && !Settling(s, key, alias)
    ensures GoesWrong(s, es, key, alias)
  {
    var stops := LeftAlone(s, key, alias);
    var s1 := Exec(s, stops);
    if Settling(s1, key, alias) { SettlingStays(s1, s, key, alias); }
    assert forall i :: i in s1.reqs ==> i in s.reqs && s1.reqs[i] == s.reqs[i];
    assert NoRivalsFor(s1.reqs, key, alias);
    assert forall i :: i in s1.reqs && s1.reqs[i].Setting? ==> OpenFor(s1.reqs[i], key, alias);
    es := Doomed(s1, key, alias);
    Prefixed(s, stops, es, key, alias);
    es := stops + es;
  }

  /** Exactly from which states, no two open transactions being rivals: every orderly continuation
      agrees whenever no promotion is between the alias and its holder, if and only if the transactions
      under way lead to the version that the alias names, if it is set. */
  lemma AgreementExactly(s: Sys, key: ModelKey, alias: Label)
    requires TablesOk(s) && KeyOk(key) && Exclusive(alias) && NoRivalsFor(s.reqs, key, alias)
    ensures StaysAgreed(s, key, alias) <==> Settling(s, key, alias)
  {
    if Settling(s, key, alias) {
      forall es | OrderlyRun(s, es, key, alias) && NoneMoves(Exec(s, es).reqs, key, alias)
        ensures Agree(AliasesOf(Exec(s, es).reg, key), VersionsOf(Exec(s, es).reg, key), alias)
      {
        AliasAgreement(s, es, key, alias);
      }
    } else {
      var es := NotSettlingGoesWrong(s, key, alias);
    }
  }

  /** At the moment at which an alias is set: every orderly continuation agrees if and only if no
      transaction for another version of the model and the same alias is still to begin. */
  lemma AliasingExactly(s: Sys, id: nat)
    requires TablesOk(s) && id in s.reqs && s.reqs[id].Aliasing? && Known(s.reg, s.reqs[id].key, s.reqs[id].number)
    requires NoRivalsFor(s.reqs, s.reqs[id].key, s.reqs[id].alias)
    ensures var q := s.reqs[id];
            StaysAgreed(Apply(s, Call(id, Reached)), q.key, q.alias) <==> AllWaitFor(s.reqs, q.key, q.number, q.alias)
  {
    var q := s.reqs[id];
    var s1 := Apply(s, Call(id, Reached));
    OkStep(s, Call(id, Reached));
    assert RequestOk(q) && !Blocked(s.reqs, id);
    assert s1.reqs == s.reqs[id := Holding(q.key, q.number, q.alias)];
    assert forall j :: j in s1.reqs && OpenFor(s1.reqs[j], q.key, q.alias) ==> j in s.reqs && s1.reqs[j] == s.reqs[j];
    assert NoRivalsFor(s1.reqs, q.key, q.alias);
    AgreementExactly(s1, q.key, q.alias);
    assert Waits(s1.reqs[id], q.key, q.alias);
    assert AliasesOf(s1.reg, q.key)[q.alias] == q.number;
    if AllWaitFor(s1.reqs, q.key, q.number, q.alias) {
      assert forall j :: j in s.reqs && Waits(s.reqs[j], q.key, q.alias) ==> s1.reqs[j] == s.reqs[j];
    }
  }

  /** At the moment at which a request stops between the alias and its holder: every orderly continuation
      agrees if and only if the alias is not set, or what is left leads to the version it names. */
  lemma StoppingExactly(s: Sys, id: nat)
    requires TablesOk(s) && id in s.reqs && MovesHolder(s.reqs[id]) && NoRivalsFor(s.reqs, s.reqs[id].key, s.reqs[id].alias)
    ensures var q := s.reqs[id]; var aliases := AliasesOf(s.reg, q.key);
            StaysAgreed(Apply(s, Crash(id)), q.key, q.alias) <==>
            (q.alias in aliases ==> LeadsTo(VersionsOf(s.reg, q.key), s.reqs - {id}, q.key, aliases[q.alias], q.alias))
  {
    var q := s.reqs[id];
    var s1 := Apply(s, Crash(id));
    OkStep(s, Crash(id));
    assert RequestOk(q);
    assert forall j :: j in s1.reqs ==> j in s.reqs && s1.reqs[j] == s.reqs[j];
    assert NoRivalsFor(s1.reqs, q.key, q.alias);
    AgreementExactly(s1, q.key, q.alias);
  }

  lemma ReplyLostStops(s: Sys, id: nat)
    requires id in s.reqs && s.reqs[id].Aliasing? && Known(s.reg, s.reqs[id].key, s.reqs[id].number)
    ensures var q := s.reqs[id]; var s1 := Apply(s, Call(id, ReplyLost));
            && s1.reqs == s.reqs - {id} && s1.reg.records == s.reg.records && IsNamed(s1.reg, q.key, q.number, q.alias)
  {
    assert !Blocked(s.reqs, id);
  }

  /** The same at the moment at which the reply to a call that sets the alias is lost. */
  lemma ReplyLostExactly(s: Sys, id: nat)
    requires TablesOk(s) && id in s.reqs && s.reqs[id].Aliasing? && Known(s.reg, s.reqs[id].key, s.reqs[id].number)
    requires NoRivalsFor(s.reqs, s.reqs[id].key, s.reqs[id].alias)
    ensures var q := s.reqs[id];
            StaysAgreed(Apply(s, Call(id, ReplyLost)), q.key, q.alias) <==>
            LeadsTo(VersionsOf(s.reg, q.key), s.reqs - {id}, q.key, q.number, q.alias)
  {
    var q := s.reqs[id];
    var s1 := Apply(s, Call(id, ReplyLost));
    OkStep(s, Call(id, ReplyLost));
    ReplyLostStops(s, id);
    assert RequestOk(q);
    assert forall j :: j in s1.reqs ==> j in s.reqs && s1.reqs[j] == s.reqs[j];
    assert NoRivalsFor(s1.reqs, q.key, q.alias);
    AgreementExactly(s1, q.key, q.alias);
  }

  // ---------------------------------------------------------------- beginning beside a rival

  /** A transaction for the version that the alias names has just begun, beside open ones for another. */
  predicate BegunBeside(s: Sys, id: nat, other: nat, key: ModelKey, alias: Label) {
    && Lone(s, key, alias) && id in s.reqs && s.reqs[id].Demoting? && s.reqs[id].number != other
    && IsNamed(s.reg, key, s.reqs[id].number, alias)
    && forall j :: j in s.reqs && j != id ==> Open(s.reqs[j]) && s.reqs[j].number == other
  }

  /** If it has not found the other version, it commits last. */
  lemma {:induction false} BegunEndsLast(s: Sys, id: nat, other: nat, key: ModelKey, alias: Label) returns (es: seq<Step>)
    requires BegunBeside(s, id, other, key, alias) && other !in s.reqs[id].matched
    requires s.reqs.Keys == {id} ==> HasStatus(VersionsOf(s.reg, key), other, alias)
    ensures GoesWrong(s, es, key, alias)
    decreases |s.reqs|
  {
    if s.reqs.Keys == {id} {
      es := FinishMissing(s, s.reqs[id].number, other, key, alias);
    } else {
      var j :| j in s.reqs && j != id;
      if i :| i in s.reqs && s.reqs[i].Setting? { j := i; }
      es := FinishOne(s, j, key, alias);
      var s1 := Exec(s, es);
      assert |s1.reqs| < |s.reqs| by { assert s1.reqs.Keys == s.reqs.Keys - {j}; }
      var rest := BegunEndsLast(s1, id, other, key, alias);
      Prefixed(s, es, rest, key, alias);
      es := es + rest;
    }
  }

  /** While the other version is the only holder, its transactions have locked nothing. */
  lemma NothingLocked(s: Sys, other: nat, key: ModelKey, alias: Label)
    requires Lone(s, key, alias) && SingleHolder(VersionsOf(s.reg, key)) && HasStatus(VersionsOf(s.reg, key), other, alias)
    requires forall j :: j in s.reqs && s.reqs[j].Setting? ==> s.reqs[j].number == other
    ensures forall j :: j in s.reqs && s.reqs[j].Setting? ==> s.reqs[j].demoted == {}
  {
    assert HoldersOf(VersionsOf(s.reg, key), other, alias) == {};
    forall j | j in s.reqs && s.reqs[j].Setting? ensures s.reqs[j].demoted == {} {
      assert LockHeld(s.reg, s.reqs[j]);
    }
  }

  /** Then the new one can be carried to its end before them. */
  lemma BegunCommits(s: Sys, id: nat, other: nat, key: ModelKey, alias: Label) returns (es: seq<Step>)
    requires BegunBeside(s, id, other, key, alias)
    requires forall j :: j in s.reqs && s.reqs[j].Setting? ==> s.reqs[j].demoted == {}
    ensures var s' := Exec(s, es);
            OrderlyRun(s, es, key, alias) && TablesOk(s') && s'.reqs == s.reqs - {id} && s'.reg.mlflow == s.reg.mlflow
  {
    var call := Call(id, Reached);
    assert !Blocked(s.reqs, id);
    Demotes(s, id);
    RowsAreKept(s, [call]);
    OneOrderly(s, call, key, alias);
    var s1 := Exec(s, [call]);
    CommitsBeside(s1, id, key, alias);
    OrderlyTogether(s, [call], [call], key, alias);
    es := [call] + [call];
    assert s1.reqs - {id} == s.reqs - {id};
  }

  lemma CommitsBeside(s: Sys, id: nat, key: ModelKey, alias: Label)
    requires TablesOk(s) && id in s.reqs && s.reqs[id].Setting? && Moves(s.reqs[id], key, alias)
    requires forall j :: j in s.reqs && j != id && s.reqs[j].Setting? ==> s.reqs[j].demoted == {}
    ensures var s' := Exec(s, [Call(id, Reached)]);
            && OrderlyRun(s, [Call(id, Reached)], key, alias)
            && TablesOk(s') && s'.reqs == s.reqs - {id} && s'.reg.mlflow == s.reg.mlflow
  {
    assert !Blocked(s.reqs, id);
    Commits(s, id);
    RowsAreKept(s, [Call(id, Reached)]);
    OneOrderly(s, Call(id, Reached), key, alias);
    MoverLeavesAliases(s.reg, s.reqs[id], Reached);
  }

  lemma BegunGoesWrong(s: Sys, id: nat, other: nat, key: ModelKey, alias: Label) returns (es: seq<Step>)
    requires BegunBeside(s, id, other, key, alias) && s.reqs.Keys != {id} && SingleHolder(VersionsOf(s.reg, key))
    requires s.reqs[id].matched == HoldersOf(VersionsOf(s.reg, key), s.reqs[id].number, alias)
    ensures GoesWrong(s, es, key, alias)
  {
    if HasStatus(VersionsOf(s.reg, key), other, alias) {
      NothingLocked(s, other, key, alias);
      es := BegunCommits(s, id, other, key, alias);
      var j :| j in s.reqs && j != id;
      var rest := FinishOther(Exec(s, es), j, s.reqs[id].number, key, alias);
      Prefixed(s, es, rest, key, alias);
      es := es + rest;
    } else {
      es := BegunEndsLast(s, id, other, key, alias);
    }
  }

  /** The same with anything else in flight. */
  lemma BegunAmongOthers(s: Sys, id: nat, j: nat, key: ModelKey, number: nat, alias: Label) returns (es: seq<Step>)
    requires TablesOk(s) && KeyOk(key) && Exclusive(alias) && SingleHolder(VersionsOf(s.reg, key))
    requires id in s.reqs && s.reqs[id] == Demoting(key, number, alias, HoldersOf(VersionsOf(s.reg, key), number, alias))
    requires IsNamed(s.reg, key, number, alias)
    requires j in s.reqs && j != id && OpenFor(s.reqs[j], key, alias) && s.reqs[j].number != number
    requires forall i :: i in s.reqs && i != id && Moves(s.reqs[i], key, alias) ==> Open(s.reqs[i]) && s.reqs[i].number == s.reqs[j].number
    ensures GoesWrong(s, es, key, alias)
  {
    es := LeftAlone(s, key, alias);
    var s1 := Exec(s, es);
    var kept := map i | i in s.reqs && Moves(s.reqs[i], key, alias) :: s.reqs[i];
    assert s1 == s.(reqs := kept) && j in kept.Keys;
    var rest := BegunGoesWrong(s1, id, s.reqs[j].number, key, alias);
    Prefixed(s, es, rest, key, alias);
    es := es + rest;
  }

  lemma BeginningGoesWrong(s: Sys, id: nat, key: ModelKey, number: nat, alias: Label) returns (es: seq<Step>)
    requires TablesOk(s) && Singles(s.reg) && id in s.reqs && s.reqs[id] == Holding(key, number, alias)
    requires NoRivalsFor(s.reqs, key, alias) && IsNamed(s.reg, key, number, alias) && !BeginsInTurn(s.reqs, id, key, number, alias)
    ensures GoesWrong(Apply(s, Call(id, Reached)), es, key, alias)
  {
    var j :| j in s.reqs && Open(s.reqs[j]) && s.reqs[j].key == key && s.reqs[j].alias == alias && s.reqs[j].number != number;
    OkStep(s, Call(id, Reached));
    assert RequestOk(s.reqs[id]) && SingleHolder(VersionsOf(s.reg, key));
    assert OpenFor(s.reqs[j], key, alias);
    forall i | i in s.reqs && i != id && Moves(s.reqs[i], key, alias) ensures Open(s.reqs[i]) && s.reqs[i].number == s.reqs[j].number {
      assert !Waits(s.reqs[i], key, alias);
    }
    Begins(s, id);
    es := BegunAmongOthers(Apply(s, Call(id, Reached)), id, j, key, number, alias);
  }

  /** At the moment at which a transaction begins, in every orderly state with single holders: every
      orderly continuation agrees if and only if the alias is not set, or no transaction for another
      version is open, or another one is still to begin. */
  lemma BeginningAgreesExactly(s: Sys, id: nat)
    requires TablesOk(s) && Singles(s.reg) && id in s.reqs && s.reqs[id].Holding?
    requires NoRivalsFor(s.reqs, s.reqs[id].key, s.reqs[id].alias) && Settling(s, s.reqs[id].key, s.reqs[id].alias)
    ensures var q := s.reqs[id];
            StaysAgreed(Apply(s, Call(id, Reached)), q.key, q.alias) <==>
            q.alias !in AliasesOf(s.reg, q.key) || BeginsInTurn(s.reqs, id, q.key, q.number, q.alias)
  {
    var q := s.reqs[id];
    assert RequestOk(q);
    if q.alias !in AliasesOf(s.reg, q.key) || BeginsInTurn(s.reqs, id, q.key, q.number, q.alias) {
      var s1 := Apply(s, Call(id, Reached));
      OkStep(s, Call(id, Reached));
      SettlingStep(s, Call(id, Reached), q.key, q.alias);
      forall es | OrderlyRun(s1, es, q.key, q.alias) && NoneMoves(Exec(s1, es).reqs, q.key, q.alias)
        ensures Agree(AliasesOf(Exec(s1, es).reg, q.key), VersionsOf(Exec(s1, es).reg, q.key), q.alias)
      {
        AliasAgreement(s1, es, q.key, q.alias);
      }
    } else {
      assert Waits(q, q.key, q.alias);
      var es := BeginningGoesWrong(s, id, q.key, q.number, q.alias);
    }
  }

  // ---------------------------------------------------------------- what happens otherwise, from the start

  /** Both promotions have moved the alias; then the second runs its transaction, and after it the first. */
  const BOTH_ALIASED := [Promote(1, KEY, 1, Production), Promote(2, KEY, 2, Production)] + [Call(1, Reached), Call(2, Reached)]

  function HoldSteps(id: nat): seq<Step> { [Call(id, Reached)] + [Call(id, Reached), Call(id, Reached)] }

  lemma HoldStepsArePromotion(id: nat, r: Reg, number: nat)
    ensures PromoteSteps(id, r, Holding(KEY, number, Production), NO_PROMOTE_FAULT) == HoldSteps(id)
  {
    var h := HoldersOf(VersionsOf(r, KEY), number, Production);
    assert PromoteSteps(id, r, Setting(KEY, number, Production, h * h), NO_PROMOTE_FAULT) == [Call(id, Reached)];
    assert PromoteSteps(id, r, Demoting(KEY, number, Production, h), NO_PROMOTE_FAULT) == [Call(id, Reached), Call(id, Reached)];
  }

  lemma BothNamed()
    ensures Exec(Sys(Two(map[], Candidate, Candidate), map[]), BOTH_ALIASED) ==
            Sys(Two(map[Production := 2], Candidate, Candidate), map[1 := Holding(KEY, 1, Production), 2 := Holding(KEY, 2, Production)])
  {
    var s0 := Sys(Two(map[], Candidate, Candidate), map[]);
    var s2 := s0.(reqs := map[1 := Aliasing(KEY, 1, Production), 2 := Aliasing(KEY, 2, Production)]);
    var s4 := Sys(Two(map[Production := 2], Candidate, Candidate), map[1 := Holding(KEY, 1, Production), 2 := Holding(KEY, 2, Production)]);
    assert Apply(Apply(s0, Promote(1, KEY, 1, Production)), Promote(2, KEY, 2, Production)) == s2;
    BothAliased(s2, s4);
    Exec2(s0, Promote(1, KEY, 1, Production), Promote(2, KEY, 2, Production));
    ExecConcat(s0, [Promote(1, KEY, 1, Production), Promote(2, KEY, 2, Production)], [Call(1, Reached), Call(2, Reached)]);
  }

  lemma HeldTwo(first: Label, second: Label, number: nat)
    requires first == Candidate && ((number == 2 && second == Candidate) || (number == 1 && second == Production))
    ensures WithVersions(Two(map[Production := 2], first, second), KEY, Held(VersionsOf(Two(map[Production := 2], first, second), KEY), number, Production)) ==
            if number == 2 then Two(map[Production := 2], Candidate, Production) else Two(map[Production := 2], Production, Candidate)
  {
    var r := Two(map[Production := 2], first, second);
    var v := if number == 2 then Two(map[Production := 2], Candidate, Production) else Two(map[Production := 2], Production, Candidate);
    assert Held(VersionsOf(r, KEY), number, Production) == VersionsOf(v, KEY);
  }

  lemma HoldRuns(s: Sys, id: nat, number: nat, first: Label, second: Label)
    requires id !in s.reqs && s.reg == Two(map[Production := 2], first, second) && NoneSetting(s.reqs)
    requires first == Candidate && ((number == 2 && second == Candidate) || (number == 1 && second == Production))
    ensures Exec(s.(reqs := s.reqs[id := Holding(KEY, number, Production)]), HoldSteps(id)) ==
            s.(reg := if number == 2 then Two(map[Production := 2], Candidate, Production) else Two(map[Production := 2], Production, Candidate))
  {
    PromotedRuns(s, id, Holding(KEY, number, Production), NO_PROMOTE_FAULT);
    HoldStepsArePromotion(id, s.reg, number);
    HoldingPromoted(s.reg, KEY, number, Production, NO_PROMOTE_FAULT);
    HeldTwo(first, second, number);
  }

  predicate NoneSetting(reqs: map<nat, Request>) { forall j :: j in reqs ==> !reqs[j].Setting? }

  lemma BothHeld()
    ensures Exec(Sys(Two(map[Production := 2], Candidate, Candidate), map[1 := Holding(KEY, 1, Production), 2 := Holding(KEY, 2, Production)]),
                 HoldSteps(2) + HoldSteps(1)) ==
            Sys(Two(map[Production := 2], Production, Candidate), map[])
  {
    var s := Sys(Two(map[Production := 2], Candidate, Candidate), map[1 := Holding(KEY, 1, Production)]);
    assert s.reqs[2 := Holding(KEY, 2, Production)] == map[1 := Holding(KEY, 1, Production), 2 := Holding(KEY, 2, Production)];
    HoldRuns(s, 2, 2, Candidate, Candidate);
    var t := Sys(Two(map[Production := 2], Candidate, Production), map[]);
    assert t.reqs[1 := Holding(KEY, 1, Production)] == s.reqs;
    HoldRuns(t, 1, 1, Candidate, Production);
    ExecConcat(Sys(s.reg, s.reqs[2 := Holding(KEY, 2, Production)]), HoldSteps(2), HoldSteps(1));
  }

  /** Without any fault, from the start, and with transactions that do not overlap: two promotions that
      move the alias in one order and the holder in the other leave version 1 in production and the
      alias on version 2. */
  lemma CrossedPromotionsDisagree()
    ensures Exec(Init(), REGISTER + SECOND + BOTH_ALIASED + (HoldSteps(2) + HoldSteps(1))) ==
            Sys(Two(map[Production := 2], Production, Candidate), map[])
  {
    RegisterRuns();
    SecondVersion();
    BothNamed();
    BothHeld();
    ExecConcat(Init(), REGISTER, SECOND);
    ExecConcat(Init(), REGISTER + SECOND, BOTH_ALIASED);
    ExecConcat(Init(), REGISTER + SECOND + BOTH_ALIASED, HoldSteps(2) + HoldSteps(1));
  }

  /** The first transaction has begun when the second promotion moves the alias and begins its own. */
  const BEGIN_BESIDE := [Promote(1, KEY, 1, Production), Promote(2, KEY, 2, Production), Call(1, Reached)]
    + [Call(1, Reached), Call(2, Reached), Call(2, Reached)]

  lemma BesideAliased(s: Sys)
    requires s == Sys(Two(map[Production := 1], Candidate, Candidate), map[1 := Holding(KEY, 1, Production), 2 := Aliasing(KEY, 2, Production)])
    ensures Exec(s, [Call(1, Reached), Call(2, Reached), Call(2, Reached)]) ==
            Sys(Two(map[Production := 2], Candidate, Candidate), map[1 := DEMOTING_1, 2 := DEMOTING_2])
  {
    NoProduction(map[Production := 1], 1);
    FindsNone(s, 1);
    var s1 := s.(reqs := map[1 := DEMOTING_1, 2 := Aliasing(KEY, 2, Production)]);
    assert s.reqs[1 := DEMOTING_1] == s1.reqs;
    var s2 := Sys(Two(map[Production := 2], Candidate, Candidate), map[1 := DEMOTING_1, 2 := Holding(KEY, 2, Production)]);
    AliasesTwo(map[Production := 1], 2);
    Aliased(s1, 2, s2.reg);
    assert s1.reqs[2 := Holding(KEY, 2, Production)] == s2.reqs;
    NoProduction(map[Production := 2], 2);
    FindsNone(s2, 2);
    assert s2.reqs[2 := DEMOTING_2] == map[1 := DEMOTING_1, 2 := DEMOTING_2];
    Exec3(s, Call(1, Reached), Call(2, Reached), Call(2, Reached));
  }

  lemma BeginBesideRuns()
    ensures Exec(Sys(Two(map[], Candidate, Candidate), map[]), BEGIN_BESIDE) ==
            Sys(Two(map[Production := 2], Candidate, Candidate), map[1 := DEMOTING_1, 2 := DEMOTING_2])
  {
    var s0 := Sys(Two(map[], Candidate, Candidate), map[]);
    var s2 := s0.(reqs := map[1 := Aliasing(KEY, 1, Production), 2 := Aliasing(KEY, 2, Production)]);
    var s3 := Sys(Two(map[Production := 1], Candidate, Candidate), map[1 := Holding(KEY, 1, Production), 2 := Aliasing(KEY, 2, Production)]);
    assert Apply(Apply(s0, Promote(1, KEY, 1, Production)), Promote(2, KEY, 2, Production)) == s2;
    AliasesTwo(map[], 1);
    Aliased(s2, 1, s3.reg);
    assert s2.reqs[1 := Holding(KEY, 1, Production)] == s3.reqs;
    BesideAliased(s3);
    Exec3(s0, Promote(1, KEY, 1, Production), Promote(2, KEY, 2, Production), Call(1, Reached));
    ExecConcat(s0, [Promote(1, KEY, 1, Production), Promote(2, KEY, 2, Production), Call(1, Reached)],
               [Call(1, Reached), Call(2, Reached), Call(2, Reached)]);
  }

  /** Without any fault, from the start, and with no alias set while a transaction is still to begin: two
      transactions that overlap leave both versions in production, and the alias names one of them. */
  lemma OverlappingTransactionsDisagree()
    ensures Exec(Init(), REGISTER + SECOND + BEGIN_BESIDE + COMMIT_BOTH) ==
            Sys(Two(map[Production := 2], Production, Production), map[])
  {
    RegisterRuns();
    SecondVersion();
    BeginBesideRuns();
    ExecConcat(Init(), REGISTER, SECOND);
    ExecConcat(Init(), REGISTER + SECOND, BEGIN_BESIDE);
    BothCommit(Exec(Init(), REGISTER + SECOND + BEGIN_BESIDE));
    ExecConcat(Init(), REGISTER + SECOND + BEGIN_BESIDE, COMMIT_BOTH);
  }
}
