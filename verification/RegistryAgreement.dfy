/** Aliases in MLflow against statuses in PostgreSQL, for one alias of one model: whoever holds the
    status, the alias is absent or names it. Promote moves the alias before it moves the holder
    (control-plane/internal/models/service.go:164-169), so this is about the times at which no
    promotion is between the two: in which runs it holds then, and exactly from which states. */
module RegistryAgreement {
  import opened Prelude
  import opened Registry
  import opened RegistryProtocol
  import opened RegistryHistory
  import opened RegistryFaults
  import opened RegistryAlias
  import opened RegistryPromotions
  import opened RegistryHolders
  import RegistryResolve

  /** The request has moved the alias and is to move the holder. */
  predicate Moves(q: Request, key: ModelKey, alias: Label) { MovesHolder(q) && q.key == key && q.alias == alias }

  /** Its transaction has not begun. */
  predicate Waits(q: Request, key: ModelKey, alias: Label) { q.Holding? && q.key == key && q.alias == alias }

  /** Its transaction is open. */
  predicate OpenFor(q: Request, key: ModelKey, alias: Label) { Open(q) && q.key == key && q.alias == alias }

  predicate NoneMoves(reqs: map<nat, Request>, key: ModelKey, alias: Label) {
    forall id :: id in reqs ==> !Moves(reqs[id], key, alias)
  }

  predicate NoneWaits(reqs: map<nat, Request>, key: ModelKey, alias: Label) {
    forall id :: id in reqs ==> !Waits(reqs[id], key, alias)
  }

  /** All that are to begin a transaction do so for this version. */
  predicate AllWaitFor(reqs: map<nat, Request>, key: ModelKey, number: nat, alias: Label) {
    forall id :: id in reqs && Waits(reqs[id], key, alias) ==> reqs[id].number == number
  }

  predicate AnotherWaits(reqs: map<nat, Request>, id: nat, key: ModelKey, alias: Label) {
    exists j :: j in reqs && j != id && Waits(reqs[j], key, alias)
  }

  /** Some open transaction has found this holder. */
  predicate IsFound(reqs: map<nat, Request>, key: ModelKey, alias: Label, h: nat) {
    exists id :: id in reqs && OpenFor(reqs[id], key, alias) && h in Found(reqs[id])
  }

  /** The transactions under way lead to `number` as the only holder: all that have not begun are for
      it; and if there is none of those, the open ones are for it too, and have between them found
      every other holder. */
  predicate LeadsTo(versions: map<nat, Version>, reqs: map<nat, Request>, key: ModelKey, number: nat, alias: Label) {
    && AllWaitFor(reqs, key, number, alias)
    && (NoneWaits(reqs, key, alias) ==>
          && NoRivalOpen(reqs, key, number, alias)
          && forall h :: h in HoldersOf(versions, number, alias) ==> IsFound(reqs, key, alias, h))
  }

  /** If the alias is set, the holder is about to be the version that it names, or is. */
  predicate Settling(s: Sys, key: ModelKey, alias: Label) {
    var aliases := AliasesOf(s.reg, key);
    alias in aliases ==> LeadsTo(VersionsOf(s.reg, key), s.reqs, key, aliases[alias], alias)
  }

  /** With nothing under way, settling is agreement. */
  lemma SettledAgrees(s: Sys, key: ModelKey, alias: Label)
    requires NoneMoves(s.reqs, key, alias)
    ensures Settling(s, key, alias) <==> Agree(AliasesOf(s.reg, key), VersionsOf(s.reg, key), alias)
  {
    var aliases, versions := AliasesOf(s.reg, key), VersionsOf(s.reg, key);
    if alias in aliases {
      assert NoneWaits(s.reqs, key, alias);
      assert forall h :: !IsFound(s.reqs, key, alias, h);
      assert forall h :: h in versions && versions[h].status == alias && h != aliases[alias] <==>
                         h in HoldersOf(versions, aliases[alias], alias);
    }
  }

  // ---------------------------------------------------------------- orderly runs

  /** The alias of the model is set by this call, seen or unseen. */
  predicate Sets(r: Reg, q: Request, o: Outcome) { q.Aliasing? && o != Refused && Known(r, q.key, q.number) }

  /** A transaction begins while none for another version is open, unless there is another to come. */
  predicate BeginsInTurn(reqs: map<nat, Request>, id: nat, key: ModelKey, number: nat, alias: Label) {
    NoRivalOpen(reqs, key, number, alias) || AnotherWaits(reqs, id, key, alias)
  }

  predicate GoesOn(reqs: map<nat, Request>, id: nat, o: Outcome)
    requires id in reqs && MovesHolder(reqs[id])
  {
    match reqs[id]
    case Holding(key, number, alias) => o == Reached && BeginsInTurn(reqs, id, key, number, alias)
    case Demoting(_, _, _, _) => o == Reached
    case _ => o != Refused
  }

  /** What is asked of the steps of requests for this alias of this model, and of no other request: the
      reply to a call that sets the alias is not lost, and the alias is not set while a transaction for
      another version is still to begin; and as long as the alias is set, a request that has moved it
      goes on to its commit, without a fault and in turn. */
  predicate Orderly(s: Sys, e: Step, key: ModelKey, alias: Label) {
    (e.Call? || e.Crash?) && e.request in s.reqs ==>
      var q := s.reqs[e.request];
      && (e.Call? && Sets(s.reg, q, e.outcome) && q.key == key && q.alias == alias ==>
            e.outcome == Reached && AllWaitFor(s.reqs, key, q.number, alias))
      && (Moves(q, key, alias) && alias in AliasesOf(s.reg, key) ==> e.Call? && GoesOn(s.reqs, e.request, e.outcome))
  }

  ghost predicate OrderlyRun(s: Sys, es: seq<Step>, key: ModelKey, alias: Label)
    decreases |es|
  {
    es == [] || (Orderly(s, es[0], key, alias) && OrderlyRun(Apply(s, es[0]), es[1..], key, alias))
  }

  /** What is not about the alias leaves its transactions as they are, and makes neither names nor holders. */
  lemma SettlingStays(s: Sys, s': Sys, key: ModelKey, alias: Label)
    requires Settling(s, key, alias)
    requires forall id :: id in s.reqs && Moves(s.reqs[id], key, alias) ==> id in s'.reqs && s'.reqs[id] == s.reqs[id]
    requires forall id :: id in s'.reqs && Moves(s'.reqs[id], key, alias) ==> id in s.reqs && s.reqs[id] == s'.reqs[id]
    requires alias in AliasesOf(s'.reg, key) ==>
               alias in AliasesOf(s.reg, key) && AliasesOf(s'.reg, key)[alias] == AliasesOf(s.reg, key)[alias]
    requires forall n :: HoldersOf(VersionsOf(s'.reg, key), n, alias) <= HoldersOf(VersionsOf(s.reg, key), n, alias)
    ensures Settling(s', key, alias)
  {
    if alias in AliasesOf(s'.reg, key) {
      var n := AliasesOf(s'.reg, key)[alias];
      assert NoneWaits(s'.reqs, key, alias) ==> NoneWaits(s.reqs, key, alias);
      forall h | IsFound(s.reqs, key, alias, h) ensures IsFound(s'.reqs, key, alias, h) {
        var id :| id in s.reqs && OpenFor(s.reqs[id], key, alias) && h in Found(s.reqs[id]);
        assert s'.reqs[id] == s.reqs[id];
      }
    }
  }

  /** Whether a request is about this alias is decided when it begins. */
  lemma MovesNext(r: Reg, q: Request, o: Outcome, key: ModelKey, alias: Label)
    ensures var n := Next(r, q, o).next;
            n.Some? && Moves(n.value, key, alias) ==> Raises(q) && q.key == key && q.alias == alias
  {
  }

  predicate Concerns(q: Request, key: ModelKey, alias: Label) { Raises(q) && q.key == key && q.alias == alias }

  lemma UnconcernedCall(s: Sys, id: nat, o: Outcome, key: ModelKey, alias: Label)
    requires TablesOk(s) && KeyOk(key) && Exclusive(alias) && Settling(s, key, alias)
    requires id in s.reqs && !Concerns(s.reqs[id], key, alias)
    ensures var t := Next(s.reg, s.reqs[id], o); Settling(Sys(t.reg, WithRequest(s.reqs, id, t.next)), key, alias)
  {
    var q := s.reqs[id];
    var t := Next(s.reg, q, o);
    assert RequestOk(q);
    MovesNext(s.reg, q, o, key, alias);
    RegistryResolve.NamesAfter(s.reg, q, o, key);
    if alias in AliasesOf(t.reg, key) {
      assert RegistryResolve.Names(t.reg, key, alias, AliasesOf(t.reg, key)[alias]);
    }
    forall n ensures HoldersOf(VersionsOf(t.reg, key), n, alias) <= HoldersOf(VersionsOf(s.reg, key), n, alias) {
      HoldersAfter(s.reg, q, o, key, n, alias);
    }
    SettlingStays(s, Sys(t.reg, WithRequest(s.reqs, id, t.next)), key, alias);
  }

  lemma AliasingCall(s: Sys, id: nat, o: Outcome)
    requires id in s.reqs && s.reqs[id].Aliasing?
    requires Settling(s, s.reqs[id].key, s.reqs[id].alias) && Orderly(s, Call(id, o), s.reqs[id].key, s.reqs[id].alias)
    ensures var t := Next(s.reg, s.reqs[id], o);
            Settling(Sys(t.reg, WithRequest(s.reqs, id, t.next)), s.reqs[id].key, s.reqs[id].alias)
  {
    var q := s.reqs[id];
    var t := Next(s.reg, q, o);
    var s' := Sys(t.reg, WithRequest(s.reqs, id, t.next));
    if Sets(s.reg, q, o) {
      assert AliasesOf(t.reg, q.key)[q.alias] == q.number;
      assert Waits(s'.reqs[id], q.key, q.alias);
    } else {
      assert t == Turn(s.reg, None);
      SettlingStays(s, s', q.key, q.alias);
    }
  }

  /** The transaction begins and finds all the holders. */
  lemma HoldingCall(s: Sys, id: nat, n: nat)
    requires id in s.reqs && s.reqs[id].Holding? && GoesOn(s.reqs, id, Reached)
    requires var q := s.reqs[id]; LeadsTo(VersionsOf(s.reg, q.key), s.reqs, q.key, n, q.alias)
    ensures var q := s.reqs[id]; var t := Next(s.reg, q, Reached);
            LeadsTo(VersionsOf(t.reg, q.key), WithRequest(s.reqs, id, t.next), q.key, n, q.alias)
  {
    var q := s.reqs[id];
    var t := Next(s.reg, q, Reached);
    var reqs' := WithRequest(s.reqs, id, t.next);
    assert Waits(q, q.key, q.alias);
    assert OpenFor(reqs'[id], q.key, q.alias) && Found(reqs'[id]) == HoldersOf(VersionsOf(s.reg, q.key), n, q.alias);
    if AnotherWaits(s.reqs, id, q.key, q.alias) {
      var j :| j in s.reqs && j != id && Waits(s.reqs[j], q.key, q.alias);
      assert Waits(reqs'[j], q.key, q.alias);
    }
  }

  /** Whoever was found and still is a holder is demoted. */
  lemma DemotingCall(s: Sys, id: nat, n: nat)
    requires id in s.reqs && s.reqs[id].Demoting?
    requires var q := s.reqs[id]; LeadsTo(VersionsOf(s.reg, q.key), s.reqs, q.key, n, q.alias)
    ensures var q := s.reqs[id]; var t := Next(s.reg, q, Reached);
            LeadsTo(VersionsOf(t.reg, q.key), WithRequest(s.reqs, id, t.next), q.key, n, q.alias)
  {
    var q := s.reqs[id];
    var t := Next(s.reg, q, Reached);
    var reqs' := WithRequest(s.reqs, id, t.next);
    if NoneWaits(reqs', q.key, q.alias) {
      StillNoneWaits(s.reqs, reqs', id, q.key, q.alias);
      assert OpenFor(q, q.key, q.alias) && OpenFor(reqs'[id], q.key, q.alias);
      forall h | h in HoldersOf(VersionsOf(s.reg, q.key), n, q.alias) ensures IsFound(reqs', q.key, q.alias, h) {
        var j :| j in s.reqs && OpenFor(s.reqs[j], q.key, q.alias) && h in Found(s.reqs[j]);
        assert h in Found(reqs'[j]);
      }
    }
  }

  lemma StillNoneWaits(reqs: map<nat, Request>, reqs': map<nat, Request>, id: nat, key: ModelKey, alias: Label)
    requires NoneWaits(reqs', key, alias) && (id in reqs ==> !Waits(reqs[id], key, alias))
    requires forall j :: j in reqs && j != id ==> j in reqs' && reqs'[j] == reqs[j]
    ensures NoneWaits(reqs, key, alias)
  {
    forall j | j in reqs ensures !Waits(reqs[j], key, alias) {
      if j != id { assert reqs'[j] == reqs[j]; }
    }
  }

  /** The commit leaves the holders that others have found. */
  lemma SettingCall(s: Sys, id: nat, o: Outcome, n: nat)
    requires TablesOk(s) && id in s.reqs && s.reqs[id].Setting? && o != Refused
    requires var q := s.reqs[id]; LeadsTo(VersionsOf(s.reg, q.key), s.reqs, q.key, n, q.alias)
    ensures var q := s.reqs[id]; var t := Next(s.reg, q, o);
            LeadsTo(VersionsOf(t.reg, q.key), WithRequest(s.reqs, id, t.next), q.key, n, q.alias)
  {
    var q := s.reqs[id];
    var t := Next(s.reg, q, o);
    var reqs' := WithRequest(s.reqs, id, t.next);
    assert RequestOk(q) && OpenFor(q, q.key, q.alias) && !Registers(q);
    if NoneWaits(reqs', q.key, q.alias) {
      StillNoneWaits(s.reqs, reqs', id, q.key, q.alias);
      var v, v' := VersionsOf(s.reg, q.key), VersionsOf(t.reg, q.key);
      assert v' == Switched(v, q.demoted, n, q.alias);
      forall h | h in HoldersOf(v', n, q.alias) ensures IsFound(reqs', q.key, q.alias, h) {
        assert h in HoldersOf(v, n, q.alias) && h !in q.demoted;
        var j :| j in s.reqs && OpenFor(s.reqs[j], q.key, q.alias) && h in Found(s.reqs[j]);
        assert j != id && reqs'[j] == s.reqs[j];
      }
    }
  }

  /** The transaction does nothing in MLflow. */
  lemma MoverLeavesAliases(r: Reg, q: Request, o: Outcome)
    requires MovesHolder(q)
    ensures Next(r, q, o).reg.mlflow == r.mlflow
  {
  }

  lemma MoverCall(s: Sys, id: nat, o: Outcome, key: ModelKey, alias: Label)
    requires TablesOk(s) && Settling(s, key, alias) && id in s.reqs && Moves(s.reqs[id], key, alias)
    requires Orderly(s, Call(id, o), key, alias)
    ensures var t := Next(s.reg, s.reqs[id], o); Settling(Sys(t.reg, WithRequest(s.reqs, id, t.next)), key, alias)
  {
    MoverLeavesAliases(s.reg, s.reqs[id], o);
    if alias in AliasesOf(s.reg, key) {
      var n := AliasesOf(s.reg, key)[alias];
      match s.reqs[id]
      case Holding(_, _, _) => HoldingCall(s, id, n);
      case Demoting(_, _, _, _) => DemotingCall(s, id, n);
      case Setting(_, _, _, _) => SettingCall(s, id, o, n);
    }
  }

  lemma OtherStep(s: Sys, e: Step, key: ModelKey, alias: Label)
    requires Settling(s, key, alias) && Orderly(s, e, key, alias) && !e.Call?
    ensures Settling(Apply(s, e), key, alias)
  {
    if e.Crash? && e.request in s.reqs && Moves(s.reqs[e.request], key, alias) {
      assert alias !in AliasesOf(s.reg, key);
    } else {
      SettlingStays(s, Apply(s, e), key, alias);
    }
  }

  lemma SettlingStep(s: Sys, e: Step, key: ModelKey, alias: Label)
    requires TablesOk(s) && KeyOk(key) && Exclusive(alias) && Settling(s, key, alias) && Orderly(s, e, key, alias)
    ensures Settling(Apply(s, e), key, alias)
  {
    if Proceeds(s, e) {
      var q := s.reqs[e.request];
      if !Concerns(q, key, alias) {
        UnconcernedCall(s, e.request, e.outcome, key, alias);
      } else if q.Aliasing? {
        AliasingCall(s, e.request, e.outcome);
      } else {
        MoverCall(s, e.request, e.outcome, key, alias);
      }
    } else if !e.Call? {
      OtherStep(s, e, key, alias);
    }
  }

  lemma {:induction false} SettlingRun(s: Sys, es: seq<Step>, key: ModelKey, alias: Label)
    requires TablesOk(s) && KeyOk(key) && Exclusive(alias) && Settling(s, key, alias) && OrderlyRun(s, es, key, alias)
    ensures Settling(Exec(s, es), key, alias) && TablesOk(Exec(s, es))
    decreases |es|
  {
    if es != [] {
      OkStep(s, es[0]);
      SettlingStep(s, es[0], key, alias);
      SettlingRun(Apply(s, es[0]), es[1..], key, alias);
    }
  }

  /** In every orderly run, whatever registrations, archivings and promotions to the other alias do
      and fail beside it, and however promotions to this one overlap: whenever none is between the
      alias and the commit of its holder, the alias is absent or names whoever holds the status. */
  lemma AliasAgreement(s: Sys, es: seq<Step>, key: ModelKey, alias: Label)
    requires TablesOk(s) && KeyOk(key) && Exclusive(alias) && Settling(s, key, alias) && OrderlyRun(s, es, key, alias)
    ensures var s' := Exec(s, es);
            NoneMoves(s'.reqs, key, alias) ==> Agree(AliasesOf(s'.reg, key), VersionsOf(s'.reg, key), alias)
  {
    SettlingRun(s, es, key, alias);
    if NoneMoves(Exec(s, es).reqs, key, alias) {
      SettledAgrees(Exec(s, es), key, alias);
    }
  }

  lemma AliasAgreementFromInit(es: seq<Step>, key: ModelKey, alias: Label)
    requires KeyOk(key) && Exclusive(alias) && OrderlyRun(Init(), es, key, alias)
    ensures var s := Exec(Init(), es);
            NoneMoves(s.reqs, key, alias) ==> Agree(AliasesOf(s.reg, key), VersionsOf(s.reg, key), alias)
  {
    AliasAgreement(Init(), es, key, alias);
  }

  /** With what keeps archived versions unnamed, both aliases of the model are right. */
  lemma AliasesOkFromInit(es: seq<Step>, key: ModelKey)
    requires KeyOk(key) && OrderlyRun(Init(), es, key, Staging) && OrderlyRun(Init(), es, key, Production)
    requires RegistryResolve.CarefulRun(Init(), es)
    ensures var s := Exec(Init(), es);
            NoneMoves(s.reqs, key, Staging) && NoneMoves(s.reqs, key, Production) ==> AliasesOk(s.reg, key)
  {
    RegistryResolve.InitResolves();
    RegistryResolve.ResolveInvKept(Init(), es);
    AliasAgreementFromInit(es, key, Staging);
    AliasAgreementFromInit(es, key, Production);
  }
}
