/** An alias never resolves to an archived version: in which runs, and exactly from which states.
    Archiving removes the aliases first and sets the status last
    (control-plane/internal/models/service.go:157-161); a promotion of the same version may set its
    alias in between, and the removals may fail without anybody noticing. */
module RegistryResolve {
  import opened Prelude
  import opened Registry
  import opened RegistryProtocol
  import opened RegistryHistory
  import opened RegistryFaults
  import opened RegistryAlias
  import opened RegistryPromotions

  predicate Archives(q: Request) { q.Unstaging? || q.Unproducing? || q.Archiving? }

  predicate Names(r: Reg, key: ModelKey, alias: Label, number: nat) {
    alias in AliasesOf(r, key) && AliasesOf(r, key)[alias] == number
  }

  /** No alias names an archived version, and there are no aliases but the two. */
  ghost predicate NoneNamed(r: Reg) {
    forall key :: KeyOk(key) ==> NoneArchived(AliasesOf(r, key), VersionsOf(r, key))
  }

  /** The aliases that an archiving request has removed do not name its version. */
  predicate Unnamed(r: Reg, q: Request) {
    && (q.Unproducing? || q.Archiving? ==> !Names(r, q.key, Staging, q.number))
    && (q.Archiving? ==> !Names(r, q.key, Production, q.number))
  }

  predicate AllUnnamed(s: Sys) { forall id :: id in s.reqs ==> Unnamed(s.reg, s.reqs[id]) }

  /** A request that will set an alias of a version, and one that archives it. */
  predicate Opposed(q: Request, h: Request) { q.Aliasing? && Archives(h) && q.key == h.key && q.number == h.number }

  predicate NoneOpposed(reqs: map<nat, Request>) {
    forall i, j :: i in reqs && j in reqs ==> !Opposed(reqs[i], reqs[j])
  }

  /** No request is about to set an alias of an archived version. */
  predicate NewNamesLive(s: Sys) {
    forall id :: id in s.reqs && s.reqs[id].Aliasing? ==> !IsArchived(s.reg, s.reqs[id].key, s.reqs[id].number)
  }

  ghost predicate ResolveInv(s: Sys) {
    TablesOk(s) && NoneNamed(s.reg) && AllUnnamed(s) && NoneOpposed(s.reqs) && NewNamesLive(s)
  }

  /** The removal of an alias that names the version does not fail unnoticed. */
  predicate RemovalWorks(s: Sys, e: Step) {
    e.Call? && e.outcome == Refused && e.request in s.reqs ==>
      var q := s.reqs[e.request];
      && (q.Unstaging? ==> !Names(s.reg, q.key, Staging, q.number))
      && (q.Unproducing? ==> !Names(s.reg, q.key, Production, q.number))
  }

  /** A version is not promoted while it is being archived, nor archived while its alias is to be set. */
  predicate BeginsApart(s: Sys, e: Step) {
    e.Promote? ==> forall j :: j in s.reqs && s.reqs[j].key == e.key ==>
      if e.alias == Archived then s.reqs[j].Aliasing? ==> s.reqs[j].number != e.number
      else Archives(s.reqs[j]) ==> s.reqs[j].number != e.number
  }

  predicate Careful(s: Sys, e: Step) { RemovalWorks(s, e) && BeginsApart(s, e) }

  ghost predicate CarefulRun(s: Sys, es: seq<Step>)
    decreases |es|
  {
    es == [] || (Careful(s, es[0]) && CarefulRun(Apply(s, es[0]), es[1..]))
  }

  // ---------------------------------------------------------------- careful runs

  /** An alias only comes to name a version by the call that sets it. */
  lemma NamesAfter(r: Reg, q: Request, o: Outcome, key: ModelKey)
    requires KeyOk(key) && KeyOk(q.key)
    ensures forall a, n :: Names(Next(r, q, o).reg, key, a, n) ==>
              Names(r, key, a, n) || (q.Aliasing? && q.key == key && q.alias == a && q.number == n)
    ensures forall a :: a in AliasesOf(Next(r, q, o).reg, key) ==>
              a in AliasesOf(r, key) || (q.Aliasing? && q.key == key && q.alias == a)
  {
    if Registers(q) {
      RegistrationShrinks(r, q, o, key);
    } else if q.key != key {
      OtherModelsShrink(r, q, o, key);
    } else {
      match q
      case Aliasing(_, _, _) =>
      case Holding(_, _, _) =>
      case Demoting(_, _, _, _) =>
      case Setting(_, _, _, _) =>
      case Unstaging(_, _) =>
      case Unproducing(_, _) =>
      case Archiving(_, _) =>
    }
  }

  lemma NoneNamedAfter(s: Sys, id: nat, o: Outcome)
    requires ResolveInv(s) && id in s.reqs
    ensures NoneNamed(Next(s.reg, s.reqs[id], o).reg)
  {
    var q := s.reqs[id];
    var r' := Next(s.reg, q, o).reg;
    assert RequestOk(q) && LockHeld(s.reg, q) && Unnamed(s.reg, q);
    forall key | KeyOk(key) ensures NoneArchived(AliasesOf(r', key), VersionsOf(r', key)) {
      NamesAfter(s.reg, q, o, key);
      forall a | a in AliasesOf(r', key) ensures Exclusive(a) && !IsArchived(r', key, AliasesOf(r', key)[a]) {
        var n := AliasesOf(r', key)[a];
        assert Names(r', key, a, n);
        ArchivedBy(s.reg, q, o, key, n);
        assert NoneArchived(AliasesOf(s.reg, key), VersionsOf(s.reg, key));
      }
    }
  }

  /** The steps of archiving: each removal leaves its alias off the version. */
  lemma UnnamedNext(r: Reg, q: Request, o: Outcome)
    requires Unnamed(r, q)
    requires o == Refused ==> (q.Unstaging? ==> !Names(r, q.key, Staging, q.number))
                              && (q.Unproducing? ==> !Names(r, q.key, Production, q.number))
    ensures Next(r, q, o).next.Some? ==> Unnamed(Next(r, q, o).reg, Next(r, q, o).next.value)
  {
  }

  lemma AllUnnamedAfter(s: Sys, id: nat, o: Outcome)
    requires ResolveInv(s) && id in s.reqs && RemovalWorks(s, Call(id, o))
    ensures var t := Next(s.reg, s.reqs[id], o); AllUnnamed(Sys(t.reg, WithRequest(s.reqs, id, t.next)))
  {
    var q := s.reqs[id];
    var t := Next(s.reg, q, o);
    var reqs' := WithRequest(s.reqs, id, t.next);
    assert Unnamed(s.reg, q);
    UnnamedNext(s.reg, q, o);
    forall j | j in reqs' ensures Unnamed(t.reg, reqs'[j]) {
      if j != id {
        assert Unnamed(s.reg, s.reqs[j]) && RequestOk(q) && RequestOk(s.reqs[j]) && !Opposed(q, s.reqs[j]);
        NamesAfter(s.reg, q, o, s.reqs[j].key);
      }
    }
  }

  /** Setting an alias and archiving are decided when the request begins. */
  lemma KindStays(r: Reg, q: Request, o: Outcome)
    ensures var n := Next(r, q, o).next;
            n.Some? ==> !n.value.Aliasing? && (Archives(n.value) ==> Archives(q) && n.value.key == q.key && n.value.number == q.number)
  {
  }

  lemma OthersAfter(s: Sys, id: nat, o: Outcome)
    requires ResolveInv(s) && id in s.reqs
    ensures var t := Next(s.reg, s.reqs[id], o); var s' := Sys(t.reg, WithRequest(s.reqs, id, t.next));
            NoneOpposed(s'.reqs) && NewNamesLive(s')
  {
    var q := s.reqs[id];
    var t := Next(s.reg, q, o);
    var reqs' := WithRequest(s.reqs, id, t.next);
    KindStays(s.reg, q, o);
    assert RequestOk(q) && LockHeld(s.reg, q);
    forall i, j | i in reqs' && j in reqs' ensures !Opposed(reqs'[i], reqs'[j]) {
      if i != id {
        assert !Opposed(s.reqs[i], s.reqs[j]);
      }
    }
    forall j | j in reqs' && reqs'[j].Aliasing? ensures !IsArchived(t.reg, reqs'[j].key, reqs'[j].number) {
      assert j != id && !Opposed(s.reqs[j], q);
      ArchivedBy(s.reg, q, o, s.reqs[j].key, s.reqs[j].number);
    }
  }

  lemma BeginKeeps(s: Sys, id: nat, key: ModelKey, number: nat, alias: Label)
    requires ResolveInv(s) && BeginsApart(s, Promote(id, key, number, alias))
    ensures ResolveInv(Apply(s, Promote(id, key, number, alias)))
  {
    OkStep(s, Promote(id, key, number, alias));
    var s' := Apply(s, Promote(id, key, number, alias));
    forall i, j | i in s'.reqs && j in s'.reqs ensures !Opposed(s'.reqs[i], s'.reqs[j]) {
      if i in s.reqs && j in s.reqs { assert !Opposed(s.reqs[i], s.reqs[j]); }
    }
  }

  lemma ResolveStep(s: Sys, e: Step)
    requires ResolveInv(s) && Careful(s, e)
    ensures ResolveInv(Apply(s, e))
  {
    match e
    case Call(id, o) =>
      OkStep(s, e);
      if Proceeds(s, e) {
        NoneNamedAfter(s, id, o);
        AllUnnamedAfter(s, id, o);
        OthersAfter(s, id, o);
      }
    case Promote(id, key, number, alias) => BeginKeeps(s, id, key, number, alias);
    case Register(_, _, _) => OkStep(s, e);
    case Crash(_) => OkStep(s, e);
  }

  lemma {:induction false} ResolveInvKept(s: Sys, es: seq<Step>)
    requires ResolveInv(s) && CarefulRun(s, es)
    ensures ResolveInv(Exec(s, es))
    decreases |es|
  {
    if es != [] {
      ResolveStep(s, es[0]);
      ResolveInvKept(Apply(s, es[0]), es[1..]);
    }
  }

  lemma InitResolves()
    ensures ResolveInv(Init())
  {
  }

  /** In every run from the start in which no version is promoted while it is being archived, nor
      archived while its alias is to be set, and no removal of an alias that names the version fails,
      and whatever else fails, is lost, overlaps or stops: no alias ever resolves to an archived
      version, at any point. */
  lemma NeverResolvesArchived(es: seq<Step>, key: ModelKey, alias: Label)
    requires CarefulRun(Init(), es) && KeyOk(key)
    ensures var r := Exec(Init(), es).reg; Resolve(r, key, alias).Ok? ==> Resolve(r, key, alias).value.status != Archived
  {
    InitResolves();
    ResolveInvKept(Init(), es);
    var r := Exec(Init(), es).reg;
    assert NoneArchived(AliasesOf(r, key), VersionsOf(r, key));
  }

  // ---------------------------------------------------------------- exactly from which states

  predicate NewNamesKnown(s: Sys) {
    forall id :: id in s.reqs && s.reqs[id].Aliasing? ==> Known(s.reg, s.reqs[id].key, s.reqs[id].number)
  }

  ghost predicate StaysUnresolved(s: Sys) {
    forall es :: CarefulRun(s, es) ==> NoneNamed(Exec(s, es).reg)
  }

  predicate Goes(e: Step) { e.Crash? || (e.Call? && e.outcome == Reached) }

  /** Requests that go on without a fault, and requests that stop. */
  lemma {:induction false} GoingIsCareful(s: Sys, es: seq<Step>)
    requires forall k :: 0 <= k < |es| ==> Goes(es[k])
    ensures CarefulRun(s, es)
    decreases |es|
  {
    if es != [] {
      assert Goes(es[0]);
      GoingIsCareful(Apply(s, es[0]), es[1..]);
    }
  }

  lemma OneCall(s: Sys, id: nat)
    requires id in s.reqs && !Blocked(s.reqs, id)
    ensures var t := Next(s.reg, s.reqs[id], Reached); Exec(s, [Call(id, Reached)]) == Sys(t.reg, WithRequest(s.reqs, id, t.next))
  {
    assert Exec(s, [Call(id, Reached)]) == Exec(Apply(s, Call(id, Reached)), []);
  }

  lemma NamedArchived(r: Reg, key: ModelKey, alias: Label, number: nat)
    requires KeyOk(key) && Names(r, key, alias, number) && IsArchived(r, key, number)
    ensures !NoneNamed(r)
  {
    assert !NoneArchived(AliasesOf(r, key), VersionsOf(r, key));
  }

  predicate NoneSetting(reqs: map<nat, Request>) { forall j :: j in reqs ==> !reqs[j].Setting? }

  /** The commit of an archiving whose version still has, or has again, an alias. */
  lemma ArchivingEnds(s: Sys, id: nat, alias: Label)
    requires TablesOk(s) && id in s.reqs && s.reqs[id].Archiving? && NoneSetting(s.reqs)
    requires Names(s.reg, s.reqs[id].key, alias, s.reqs[id].number)
    ensures !NoneNamed(Exec(s, [Call(id, Reached)]).reg)
  {
    var q := s.reqs[id];
    assert RequestOk(q) && !Registers(q);
    OneCall(s, id);
    NamedArchived(Exec(s, [Call(id, Reached)]).reg, q.key, alias, q.number);
  }

  lemma UnproducingEnds(s: Sys, id: nat) returns (es: seq<Step>)
    requires TablesOk(s) && id in s.reqs && s.reqs[id].Unproducing? && NoneSetting(s.reqs)
    requires Names(s.reg, s.reqs[id].key, Staging, s.reqs[id].number)
    ensures !NoneNamed(Exec(s, es).reg) && forall k :: 0 <= k < |es| ==> Goes(es[k])
  {
    OneCall(s, id);
    var s1 := Exec(s, [Call(id, Reached)]);
    RowsAreKept(s, [Call(id, Reached)]);
    ArchivingEnds(s1, id, Staging);
    ExecConcat(s, [Call(id, Reached)], [Call(id, Reached)]);
    es := [Call(id, Reached)] + [Call(id, Reached)];
  }

  lemma StillNamedEnds(s: Sys, id: nat) returns (es: seq<Step>)
    requires TablesOk(s) && id in s.reqs && !Unnamed(s.reg, s.reqs[id]) && NoneSetting(s.reqs)
    ensures !NoneNamed(Exec(s, es).reg) && forall k :: 0 <= k < |es| ==> Goes(es[k])
  {
    var q := s.reqs[id];
    if q.Unproducing? {
      es := UnproducingEnds(s, id);
    } else {
      ArchivingEnds(s, id, if Names(s.reg, q.key, Staging, q.number) then Staging else Production);
      es := [Call(id, Reached)];
    }
  }

  /** Setting the alias of an archived version. */
  lemma NamingEnds(s: Sys, id: nat)
    requires TablesOk(s) && id in s.reqs && s.reqs[id].Aliasing? && Known(s.reg, s.reqs[id].key, s.reqs[id].number)
    ensures var q := s.reqs[id]; var s1 := Exec(s, [Call(id, Reached)]);
            && s1.reqs == s.reqs[id := Holding(q.key, q.number, q.alias)]
            && Names(s1.reg, q.key, q.alias, q.number) && s1.reg.records == s.reg.records
            && (IsArchived(s.reg, q.key, q.number) ==> !NoneNamed(s1.reg))
  {
    var q := s.reqs[id];
    assert RequestOk(q);
    assert !Blocked(s.reqs, id);
    OneCall(s, id);
    if IsArchived(s.reg, q.key, q.number) {
      NamedArchived(Exec(s, [Call(id, Reached)]).reg, q.key, q.alias, q.number);
    }
  }

  /** Two opposed requests: the alias is set after its removal and before the status. */
  lemma OpposedAtEnd(s: Sys, i: nat, j: nat) returns (es: seq<Step>)
    requires TablesOk(s) && i in s.reqs && j in s.reqs && Opposed(s.reqs[i], s.reqs[j]) && s.reqs[j].Archiving?
    requires NoneSetting(s.reqs) && Known(s.reg, s.reqs[i].key, s.reqs[i].number)
    ensures !NoneNamed(Exec(s, es).reg) && forall k :: 0 <= k < |es| ==> Goes(es[k])
  {
    NamingEnds(s, i);
    RowsAreKept(s, [Call(i, Reached)]);
    ArchivingEnds(Exec(s, [Call(i, Reached)]), j, s.reqs[i].alias);
    ExecConcat(s, [Call(i, Reached)], [Call(j, Reached)]);
    es := [Call(i, Reached)] + [Call(j, Reached)];
  }

  function ArchiveRank(q: Request): nat { if q.Unstaging? then 2 else if q.Unproducing? then 1 else 0 }

  /** A removal of an alias, on its own. */
  lemma Removes(s: Sys, j: nat)
    requires j in s.reqs && (s.reqs[j].Unstaging? || s.reqs[j].Unproducing?)
    ensures var q := s.reqs[j]; var s1 := Exec(s, [Call(j, Reached)]);
            && s1.reqs == s.reqs[j := if q.Unstaging? then Unproducing(q.key, q.number) else Archiving(q.key, q.number)]
            && forall key, n :: Known(s.reg, key, n) ==> Known(s1.reg, key, n)
  {
    assert !Blocked(s.reqs, j);
    OneCall(s, j);
  }

  lemma {:induction false} OpposedEnds(s: Sys, i: nat, j: nat) returns (es: seq<Step>)
    requires TablesOk(s) && i in s.reqs && j in s.reqs && Opposed(s.reqs[i], s.reqs[j])
    requires NoneSetting(s.reqs) && Known(s.reg, s.reqs[i].key, s.reqs[i].number)
    ensures !NoneNamed(Exec(s, es).reg) && forall k :: 0 <= k < |es| ==> Goes(es[k])
    decreases ArchiveRank(s.reqs[j])
  {
    if s.reqs[j].Archiving? {
      es := OpposedAtEnd(s, i, j);
    } else {
      Removes(s, j);
      RowsAreKept(s, [Call(j, Reached)]);
      var rest := OpposedEnds(Exec(s, [Call(j, Reached)]), i, j);
      ExecConcat(s, [Call(j, Reached)], rest);
      es := [Call(j, Reached)] + rest;
    }
  }

  /** With all other requests stopped. */
  lemma Left(s: Sys, keep: set<nat>) returns (s1: Sys, stops: seq<Step>)
    requires TablesOk(s) && forall id :: id in keep && id in s.reqs ==> !s.reqs[id].Setting?
    ensures s1 == Exec(s, stops) && s1 == s.(reqs := s1.reqs) && TablesOk(s1) && NoneSetting(s1.reqs)
    ensures forall id :: id in keep && id in s.reqs ==> id in s1.reqs && s1.reqs[id] == s.reqs[id]
    ensures forall k :: 0 <= k < |stops| ==> Goes(stops[k])
  {
    stops := OthersStop(s, keep);
    RowsAreKept(s, stops);
    s1 := Exec(s, stops);
  }

  lemma StillNamedViolates(s: Sys, id: nat) returns (es: seq<Step>)
    requires TablesOk(s) && id in s.reqs && !Unnamed(s.reg, s.reqs[id])
    ensures !NoneNamed(Exec(s, es).reg) && forall k :: 0 <= k < |es| ==> Goes(es[k])
  {
    var s1, stops := Left(s, {id});
    var calls := StillNamedEnds(s1, id);
    ExecConcat(s, stops, calls);
    es := stops + calls;
  }

  lemma NamingViolates(s: Sys, id: nat) returns (es: seq<Step>)
    requires TablesOk(s) && id in s.reqs && s.reqs[id].Aliasing? && IsArchived(s.reg, s.reqs[id].key, s.reqs[id].number)
    requires Known(s.reg, s.reqs[id].key, s.reqs[id].number)
    ensures !NoneNamed(Exec(s, es).reg) && forall k :: 0 <= k < |es| ==> Goes(es[k])
  {
    var s1, stops := Left(s, {id});
    NamingEnds(s1, id);
    ExecConcat(s, stops, [Call(id, Reached)]);
    es := stops + [Call(id, Reached)];
  }

  lemma OpposedViolate(s: Sys, i: nat, j: nat) returns (es: seq<Step>)
    requires TablesOk(s) && i in s.reqs && j in s.reqs && Opposed(s.reqs[i], s.reqs[j])
    requires Known(s.reg, s.reqs[i].key, s.reqs[i].number)
    ensures !NoneNamed(Exec(s, es).reg) && forall k :: 0 <= k < |es| ==> Goes(es[k])
  {
    var s1, stops := Left(s, {i, j});
    var calls := OpposedEnds(s1, i, j);
    ExecConcat(s, stops, calls);
    es := stops + calls;
  }

  lemma ViolationEnds(s: Sys) returns (es: seq<Step>)
    requires TablesOk(s) && NewNamesKnown(s) && NoneNamed(s.reg) && !(AllUnnamed(s) && NoneOpposed(s.reqs) && NewNamesLive(s))
    ensures CarefulRun(s, es) && !NoneNamed(Exec(s, es).reg)
  {
    if id :| id in s.reqs && !Unnamed(s.reg, s.reqs[id]) {
      es := StillNamedViolates(s, id);
    } else if id :| id in s.reqs && s.reqs[id].Aliasing? && IsArchived(s.reg, s.reqs[id].key, s.reqs[id].number) {
      es := NamingViolates(s, id);
    } else {
      var i, j :| i in s.reqs && j in s.reqs && Opposed(s.reqs[i], s.reqs[j]);
      es := OpposedViolate(s, i, j);
    }
    GoingIsCareful(s, es);
  }

  /** From any state in which MLflow knows the versions whose alias is about to be set: no careful
      continuation ever has an alias name an archived version, if and only if none does now, the
      aliases that archiving requests have removed are off their versions, no request that is to set an
      alias of a version stands beside one that archives it, and none is about to set an alias of an
      archived version. */
  lemma NeverResolvesExactly(s: Sys)
    requires TablesOk(s) && NewNamesKnown(s)
    ensures StaysUnresolved(s) <==> NoneNamed(s.reg) && AllUnnamed(s) && NoneOpposed(s.reqs) && NewNamesLive(s)
  {
    if NoneNamed(s.reg) && AllUnnamed(s) && NoneOpposed(s.reqs) && NewNamesLive(s) {
      forall es | CarefulRun(s, es) ensures NoneNamed(Exec(s, es).reg) { ResolveInvKept(s, es); }
    } else if !NoneNamed(s.reg) {
      assert CarefulRun(s, []) && Exec(s, []) == s;
    } else {
      var es := ViolationEnds(s);
    }
  }

  // ---------------------------------------------------------------- a run

  /** Archiving has removed both aliases when the promotion sets its own; then archiving commits. */
  const MEETING := [Promote(1, KEY, 1, Production), Promote(2, KEY, 1, Archived)] + [Call(2, Reached), Call(2, Reached)]
    + [Call(1, Reached), Call(2, Reached)]

  lemma BothUnderWay(s0: Sys)
    requires s0 == Sys(One(map[], Candidate), map[])
    ensures Exec(s0, [Promote(1, KEY, 1, Production), Promote(2, KEY, 1, Archived)]) ==
            s0.(reqs := map[1 := Aliasing(KEY, 1, Production), 2 := Unstaging(KEY, 1)])
  {
    assert Apply(s0, Promote(1, KEY, 1, Production)) == s0.(reqs := map[1 := Aliasing(KEY, 1, Production)]);
    Exec2(s0, Promote(1, KEY, 1, Production), Promote(2, KEY, 1, Archived));
  }

  lemma BothRemoved(s: Sys)
    requires s == Sys(One(map[], Candidate), map[1 := Aliasing(KEY, 1, Production), 2 := Unstaging(KEY, 1)])
    ensures Exec(s, [Call(2, Reached), Call(2, Reached)]) == s.(reqs := map[1 := Aliasing(KEY, 1, Production), 2 := Archiving(KEY, 1)])
  {
    var none: map<Label, nat> := map[];
    assert none - {Staging} == none && none - {Production} == none;
    var s1 := s.(reqs := map[1 := Aliasing(KEY, 1, Production), 2 := Unproducing(KEY, 1)]);
    assert Apply(s, Call(2, Reached)) == s1;
    Exec2(s, Call(2, Reached), Call(2, Reached));
  }

  lemma ArchivedAfterwards(s: Sys)
    requires s == Sys(One(map[Production := 1], Candidate), map[1 := Holding(KEY, 1, Production), 2 := Archiving(KEY, 1)])
    ensures Apply(s, Call(2, Reached)) == Sys(One(map[Production := 1], Archived), map[1 := Holding(KEY, 1, Production)])
  {
    var v := s.reg.records[KEY].versions;
    assert v[1 := v[1].(status := Archived)] == One(map[], Archived).records[KEY].versions;
    assert s.reqs - {2} == map[1 := Holding(KEY, 1, Production)];
  }

  lemma SetAndArchived(s: Sys)
    requires s == Sys(One(map[], Candidate), map[1 := Aliasing(KEY, 1, Production), 2 := Archiving(KEY, 1)])
    ensures Exec(s, [Call(1, Reached), Call(2, Reached)]) == Sys(One(map[Production := 1], Archived), map[1 := Holding(KEY, 1, Production)])
  {
    var s1 := Sys(One(map[Production := 1], Candidate), map[1 := Holding(KEY, 1, Production), 2 := Archiving(KEY, 1)]);
    assert Apply(s, Call(1, Reached)) == s1;
    ArchivedAfterwards(s1);
    Exec2(s, Call(1, Reached), Call(2, Reached));
  }

  /** Without any fault, from the start: the production alias resolves to an archived version. */
  lemma AliasResolvesToArchived()
    ensures var r := Exec(Init(), REGISTER + MEETING).reg;
            Resolve(r, KEY, Production).Ok? && Resolve(r, KEY, Production).value.status == Archived
  {
    RegisterRuns();
    var s0 := Sys(One(map[], Candidate), map[]);
    BothUnderWay(s0);
    var s1 := s0.(reqs := map[1 := Aliasing(KEY, 1, Production), 2 := Unstaging(KEY, 1)]);
    BothRemoved(s1);
    SetAndArchived(s1.(reqs := map[1 := Aliasing(KEY, 1, Production), 2 := Archiving(KEY, 1)]));
    var begin := [Promote(1, KEY, 1, Production), Promote(2, KEY, 1, Archived)];
    ExecConcat(s0, begin, [Call(2, Reached), Call(2, Reached)]);
    ExecConcat(s0, begin + [Call(2, Reached), Call(2, Reached)], [Call(1, Reached), Call(2, Reached)]);
    ExecConcat(Init(), REGISTER, MEETING);
  }
}
