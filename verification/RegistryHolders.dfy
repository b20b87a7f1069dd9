/** At most one version of a model is staging, and at most one production: which runs keep that. The
    transaction that moves the holder (control-plane/internal/models/store.go:164-194) runs under READ
    COMMITTED, and no constraint of the table backs it. */
module RegistryHolders {
  import opened Prelude
  import opened Registry
  import opened RegistryProtocol
  import opened RegistryHistory
  import opened RegistryFaults
  import opened RegistryPromotions

  predicate SingleHolder(versions: map<nat, Version>) {
    forall m, n :: m in versions && n in versions && Exclusive(versions[m].status) && versions[m].status == versions[n].status ==> m == n
  }

  predicate Singles(r: Reg) { forall k :: k in r.records ==> SingleHolder(r.records[k].versions) }

  /** The transaction has begun. */
  predicate Open(q: Request) { q.Demoting? || q.Setting? }

  /** The other holders it has found. */
  function Found(q: Request): set<nat>
    requires Open(q)
  {
    if q.Demoting? then q.matched else q.demoted
  }

  /** Two open transactions that make different versions of one model holder of one alias. */
  predicate Rivals(q: Request, h: Request) {
    Open(q) && Open(h) && q.key == h.key && q.alias == h.alias && q.number != h.number
  }

  predicate NoRivals(reqs: map<nat, Request>) {
    forall i, j :: i in reqs && j in reqs ==> !Rivals(reqs[i], reqs[j])
  }

  /** The transaction knows of every other holder there is. */
  predicate Covers(r: Reg, q: Request) {
    Open(q) ==> HoldersOf(VersionsOf(r, q.key), q.number, q.alias) <= Found(q)
  }

  predicate Covered(s: Sys) { forall id :: id in s.reqs ==> Covers(s.reg, s.reqs[id]) }

  /** The first UPDATE found at most one holder. */
  predicate FoundOne(q: Request) { q.Demoting? ==> forall x, y :: x in q.matched && y in q.matched ==> x == y }

  predicate AllFoundOne(reqs: map<nat, Request>) { forall id :: id in reqs ==> FoundOne(reqs[id]) }

  predicate HoldersInv(s: Sys) {
    TablesOk(s) && Singles(s.reg) && NoRivals(s.reqs) && Covered(s) && AllFoundOne(s.reqs)
  }

  /** No transaction begins while one for another version of the model and the same alias is open. */
  predicate Careful(s: Sys, e: Step) {
    e.Call? && e.request in s.reqs && s.reqs[e.request].Holding? && e.outcome == Reached ==>
      var q := s.reqs[e.request];
      forall j :: j in s.reqs && Open(s.reqs[j]) && s.reqs[j].key == q.key && s.reqs[j].alias == q.alias ==> s.reqs[j].number == q.number
  }

  ghost predicate CarefulRun(s: Sys, es: seq<Step>)
    decreases |es|
  {
    es == [] || (Careful(s, es[0]) && CarefulRun(Apply(s, es[0]), es[1..]))
  }

  // ---------------------------------------------------------------- careful runs

  /** Only a commit makes a holder, and only of its own version. */
  lemma HoldersAfter(r: Reg, q: Request, o: Outcome, key: ModelKey, number: nat, alias: Label)
    requires Exclusive(alias) && RequestOk(q)
    ensures HoldersOf(VersionsOf(Next(r, q, o).reg, key), number, alias) <=
            HoldersOf(VersionsOf(r, key), number, alias) + if q.Setting? && q.key == key && q.alias == alias then {q.number} else {}
  {
    match q
    case Naming(_, _) =>
    case Versioning(_, _, _) =>
    case Recording(_, _, _, _) =>
    case Storing(_, _, _) =>
    case Undoing(_, _, _) =>
    case Dropping(_) =>
    case Aliasing(_, _, _) =>
    case Holding(_, _, _) =>
    case Demoting(_, _, _, _) =>
    case Setting(_, _, _, _) =>
    case Unstaging(_, _) =>
    case Unproducing(_, _) =>
    case Archiving(_, _) =>
  }

  /** A transaction that knows of every other holder leaves one. */
  lemma SwitchSingle(versions: map<nat, Version>, demoted: set<nat>, number: nat, alias: Label)
    requires SingleHolder(versions) && Exclusive(alias) && HoldersOf(versions, number, alias) <= demoted
    ensures SingleHolder(Switched(versions, demoted, number, alias))
  {
    assert forall m :: m in versions && m != number && versions[m].status == alias ==> m in HoldersOf(versions, number, alias);
  }

  lemma SinglesAfter(r: Reg, q: Request, o: Outcome)
    requires Singles(r) && RequestOk(q) && (q.Setting? ==> Covers(r, q))
    ensures Singles(Next(r, q, o).reg)
  {
    match q
    case Recording(_, _, _, _) =>
    case Storing(_, _, _) =>
    case Setting(key, number, alias, demoted) =>
      if key in r.records { SwitchSingle(r.records[key].versions, demoted, number, alias); }
    case Archiving(_, _) =>
    case _ => assert Next(r, q, o).reg.records == r.records;
  }

  /** How a transaction begins, and how it goes on. */
  lemma OpenNext(r: Reg, q: Request, o: Outcome)
    ensures var t := Next(r, q, o);
            t.next.Some? && Open(t.next.value) ==>
              var n := t.next.value;
              && t.reg == r && o == Reached && (q.Holding? || q.Demoting?)
              && n.key == q.key && n.number == q.number && n.alias == q.alias
              && var holders := HoldersOf(VersionsOf(r, q.key), q.number, q.alias);
                 if q.Holding? then n.Demoting? && n.matched == holders else n.Setting? && n.demoted == q.matched * holders
  {
  }

  lemma FindsOne(r: Reg, q: Request)
    requires Singles(r) && RequestOk(q) && q.Demoting? && q.matched == HoldersOf(VersionsOf(r, q.key), q.number, q.alias)
    ensures FoundOne(q)
  {
  }

  lemma CallKeepsCover(s: Sys, id: nat, o: Outcome)
    requires HoldersInv(s) && id in s.reqs
    ensures var t := Next(s.reg, s.reqs[id], o); Covered(Sys(t.reg, WithRequest(s.reqs, id, t.next)))
  {
    var q := s.reqs[id];
    var t := Next(s.reg, q, o);
    var reqs' := WithRequest(s.reqs, id, t.next);
    OpenNext(s.reg, q, o);
    forall j | j in reqs' ensures Covers(t.reg, reqs'[j]) {
      if j == id {
        assert Covers(s.reg, q);
      } else if Open(s.reqs[j]) {
        var h := s.reqs[j];
        assert RequestOk(q) && RequestOk(h) && Covers(s.reg, h) && !Rivals(q, h);
        HoldersAfter(s.reg, q, o, h.key, h.number, h.alias);
        assert h.number !in HoldersOf(VersionsOf(t.reg, h.key), h.number, h.alias);
      }
    }
  }

  lemma CallKeepsHolders(s: Sys, id: nat, o: Outcome)
    requires HoldersInv(s) && Careful(s, Call(id, o)) && Proceeds(s, Call(id, o))
    ensures var t := Next(s.reg, s.reqs[id], o); HoldersInv(Sys(t.reg, WithRequest(s.reqs, id, t.next)))
  {
    var q := s.reqs[id];
    var t := Next(s.reg, q, o);
    assert RequestOk(q) && Covers(s.reg, q);
    CallOk(s, id, o);
    SinglesAfter(s.reg, q, o);
    CallKeepsCover(s, id, o);
    OpenNext(s.reg, q, o);
    var reqs' := WithRequest(s.reqs, id, t.next);
    if t.next.Some? && t.next.value.Demoting? {
      assert reqs'[id] == t.next.value;
      FindsOne(s.reg, t.next.value);
    }
    RivalsAfter(s, id, o);
  }

  lemma RivalsAfter(s: Sys, id: nat, o: Outcome)
    requires NoRivals(s.reqs) && Careful(s, Call(id, o)) && id in s.reqs
    ensures NoRivals(WithRequest(s.reqs, id, Next(s.reg, s.reqs[id], o).next))
  {
    var q := s.reqs[id];
    var reqs' := WithRequest(s.reqs, id, Next(s.reg, q, o).next);
    OpenNext(s.reg, q, o);
    forall j | j in s.reqs && j != id && id in reqs' ensures !Rivals(reqs'[id], s.reqs[j]) && !Rivals(s.reqs[j], reqs'[id]) {
      assert !Rivals(q, s.reqs[j]);
    }
  }

  lemma NothingOpened(s: Sys, reqs: map<nat, Request>)
    requires HoldersInv(s) && TablesOk(s.(reqs := reqs))
    requires forall id :: id in reqs && Open(reqs[id]) ==> id in s.reqs && reqs[id] == s.reqs[id]
    ensures HoldersInv(s.(reqs := reqs))
  {
  }

  lemma OtherStepKeepsHolders(s: Sys, e: Step)
    requires HoldersInv(s) && !e.Call?
    ensures HoldersInv(Apply(s, e))
  {
    OkStep(s, e);
    assert Apply(s, e) == s.(reqs := Apply(s, e).reqs);
    NothingOpened(s, Apply(s, e).reqs);
  }

  lemma HoldersStep(s: Sys, e: Step)
    requires HoldersInv(s) && Careful(s, e)
    ensures HoldersInv(Apply(s, e))
  {
    if !e.Call? {
      OtherStepKeepsHolders(s, e);
    } else if Proceeds(s, e) {
      CallKeepsHolders(s, e.request, e.outcome);
    }
  }

  /** In every run in which no transaction begins beside an open one for another version of the model
      and the same alias, whatever fails: no model ever has two staging or two production versions. */
  lemma {:induction false} OneHolderEach(s: Sys, es: seq<Step>)
    requires HoldersInv(s) && CarefulRun(s, es)
    ensures HoldersInv(Exec(s, es)) && Singles(Exec(s, es).reg)
    decreases |es|
  {
    if es != [] {
      HoldersStep(s, es[0]);
      OneHolderEach(Apply(s, es[0]), es[1..]);
    }
  }

  lemma InitHolders()
    ensures HoldersInv(Init())
  {
  }

  // ---------------------------------------------------------------- exactly which transactions

  predicate BothHold(r: Reg, key: ModelKey, m: nat, n: nat, alias: Label) {
    var v := VersionsOf(r, key);
    m != n && Exclusive(alias) && m in v && n in v && v[m].status == alias && v[n].status == alias
  }

  lemma BothHoldNotSingle(r: Reg, key: ModelKey, m: nat, n: nat, alias: Label)
    requires BothHold(r, key, m, n, alias)
    ensures !Singles(r)
  {
    assert !SingleHolder(r.records[key].versions);
  }

  predicate OnlyOpen(reqs: map<nat, Request>) { forall id :: id in reqs ==> Open(reqs[id]) }

  /** Carrying open transactions on begins no new one. */
  lemma {:induction false} CallsAreCareful(s: Sys, es: seq<Step>)
    requires OnlyOpen(s.reqs) && forall k :: 0 <= k < |es| ==> es[k].Call?
    ensures CarefulRun(s, es)
    decreases |es|
  {
    if es != [] {
      assert es[0].Call?;
      CallsAreCareful(Apply(s, es[0]), es[1..]);
    }
  }

  lemma {:induction false} StopsAreCareful(s: Sys, es: seq<Step>)
    requires forall k :: 0 <= k < |es| ==> es[k].Crash?
    ensures CarefulRun(s, es)
    decreases |es|
  {
    if es != [] {
      assert es[0].Crash?;
      StopsAreCareful(Apply(s, es[0]), es[1..]);
    }
  }

  lemma {:induction false} CarefulTogether(s: Sys, a: seq<Step>, b: seq<Step>)
    requires CarefulRun(s, a) && CarefulRun(Exec(s, a), b)
    ensures CarefulRun(s, a + b)
    decreases |a|
  {
    if a == [] {
      assert a + b == b;
    } else {
      assert (a + b)[0] == a[0] && (a + b)[1..] == a[1..] + b;
      CarefulTogether(Apply(s, a[0]), a[1..], b);
    }
  }

  /** The end of the first UPDATE. */
  lemma Demotes(s: Sys, id: nat)
    requires id in s.reqs && s.reqs[id].Demoting? && !Blocked(s.reqs, id)
    ensures var q := s.reqs[id];
            Exec(s, [Call(id, Reached)]) ==
            s.(reqs := s.reqs[id := Setting(q.key, q.number, q.alias, q.matched * HoldersOf(VersionsOf(s.reg, q.key), q.number, q.alias))])
  {
    assert Exec(s, [Call(id, Reached)]) == Exec(Apply(s, Call(id, Reached)), []);
  }

  /** The commit. */
  lemma Commits(s: Sys, id: nat)
    requires TablesOk(s) && id in s.reqs && s.reqs[id].Setting? && !Blocked(s.reqs, id)
    ensures var q := s.reqs[id]; var s' := Exec(s, [Call(id, Reached)]);
            && s'.reqs == s.reqs - {id}
            && VersionsOf(s'.reg, q.key) == Switched(VersionsOf(s.reg, q.key), q.demoted, q.number, q.alias)
  {
    assert Exec(s, [Call(id, Reached)]) == Exec(Apply(s, Call(id, Reached)), []);
    assert !Registers(s.reqs[id]);
  }

  /** A transaction that misses a holder ends with two. */
  lemma MissedStays(s: Sys, id: nat, h: nat)
    requires TablesOk(s) && id in s.reqs && s.reqs == map[id := s.reqs[id]] && s.reqs[id].Setting?
    requires var q := s.reqs[id]; h in HoldersOf(VersionsOf(s.reg, q.key), q.number, q.alias) && h !in q.demoted
    ensures var q := s.reqs[id]; BothHold(Exec(s, [Call(id, Reached)]).reg, q.key, h, q.number, q.alias)
  {
    assert RequestOk(s.reqs[id]) && !Registers(s.reqs[id]);
    Commits(s, id);
  }

  lemma UncoveredCalls(s: Sys, id: nat, h: nat) returns (es: seq<Step>)
    requires TablesOk(s) && id in s.reqs && s.reqs == map[id := s.reqs[id]] && Open(s.reqs[id])
    requires var q := s.reqs[id]; h in HoldersOf(VersionsOf(s.reg, q.key), q.number, q.alias) && h !in Found(q)
    ensures !Singles(Exec(s, es).reg) && forall k :: 0 <= k < |es| ==> es[k].Call?
  {
    var q := s.reqs[id];
    if q.Setting? {
      MissedStays(s, id, h);
      es := [Call(id, Reached)];
    } else {
      Demotes(s, id);
      RowsAreKept(s, [Call(id, Reached)]);
      var s1 := Exec(s, [Call(id, Reached)]);
      assert s1.reqs == map[id := s1.reqs[id]];
      MissedStays(s1, id, h);
      ExecConcat(s, [Call(id, Reached)], [Call(id, Reached)]);
      es := [Call(id, Reached)] + [Call(id, Reached)];
    }
    BothHoldNotSingle(Exec(s, es).reg, q.key, h, q.number, q.alias);
  }

  /** Just these two transactions, and rivals. */
  predicate Pair(s: Sys, i: nat, j: nat) {
    && TablesOk(s) && Singles(s.reg) && i != j && i in s.reqs && j in s.reqs
    && s.reqs.Keys == {i, j} && Rivals(s.reqs[i], s.reqs[j]) && AllFoundOne(s.reqs)
  }

  /** The first commit leaves the second transaction alone with a new holder. */
  lemma FirstCommits(s: Sys, i: nat, j: nat)
    requires Pair(s, i, j) && s.reqs[i].Setting? && !WaitsFor(s.reqs[i], s.reqs[j])
    requires s.reqs[i].number in VersionsOf(s.reg, s.reqs[i].key)
    ensures var s1 := Exec(s, [Call(i, Reached)]); var q := s.reqs[i];
            && TablesOk(s1) && s1.reqs == map[j := s.reqs[j]]
            && q.number in HoldersOf(VersionsOf(s1.reg, q.key), s.reqs[j].number, q.alias)
  {
    PairUnblocked(s.reqs, i, j);
    Commits(s, i);
    RowsAreKept(s, [Call(i, Reached)]);
    SwitchMakesHolder(VersionsOf(s.reg, s.reqs[i].key), s.reqs[i].demoted, s.reqs[i].number, s.reqs[j].number, s.reqs[i].alias);
  }

  lemma PairUnblocked(reqs: map<nat, Request>, i: nat, j: nat)
    requires i in reqs && j in reqs && reqs.Keys == {i, j} && !WaitsFor(reqs[i], reqs[j])
    ensures !Blocked(reqs, i)
  {
  }

  lemma SwitchMakesHolder(versions: map<nat, Version>, demoted: set<nat>, number: nat, other: nat, alias: Label)
    requires number in versions && number != other
    ensures number in HoldersOf(Switched(versions, demoted, number, alias), other, alias)
  {
  }

  /** After the first commit, the second transaction misses the new holder. */
  lemma CommitBoth(s: Sys, i: nat, j: nat)
    requires Pair(s, i, j) && s.reqs[i].Setting? && s.reqs[j].Setting? && s.reqs[j].demoted == {}
    ensures var q := s.reqs[i];
            BothHold(Exec(s, [Call(i, Reached)] + [Call(j, Reached)]).reg, q.key, q.number, s.reqs[j].number, q.alias)
  {
    assert !Registers(s.reqs[i]);
    FirstCommits(s, i, j);
    var s1 := Exec(s, [Call(i, Reached)]);
    MissedStays(s1, j, s.reqs[i].number);
    ExecConcat(s, [Call(i, Reached)], [Call(j, Reached)]);
  }

  lemma OneDemotes(s: Sys, i: nat, j: nat)
    requires Pair(s, i, j) && s.reqs[i].Setting? && s.reqs[j].Setting? && s.reqs[j].demoted != {}
    ensures s.reqs[i].demoted == {}
  {
    var q, h := s.reqs[i], s.reqs[j];
    assert RequestOk(q) && LockHeld(s.reg, q) && LockHeld(s.reg, h);
    var x :| x in h.demoted;
    assert SingleHolder(s.reg.records[q.key].versions);
    assert forall y :: y in q.demoted ==> y == x;
    assert x !in q.demoted * h.demoted;
  }

  lemma BothSettingEnds(s: Sys, i: nat, j: nat) returns (es: seq<Step>)
    requires Pair(s, i, j) && s.reqs[i].Setting? && s.reqs[j].Setting?
    ensures !Singles(Exec(s, es).reg) && forall k :: 0 <= k < |es| ==> es[k].Call?
  {
    var a, b := i, j;
    if s.reqs[j].demoted != {} {
      OneDemotes(s, i, j);
      a, b := j, i;
    }
    CommitBoth(s, a, b);
    es := [Call(a, Reached)] + [Call(b, Reached)];
    BothHoldNotSingle(Exec(s, es).reg, s.reqs[a].key, s.reqs[a].number, s.reqs[b].number, s.reqs[a].alias);
  }

  /** The second waits for the row that the first has changed; then it finds it no longer a holder. */
  lemma FoundAnother(s: Sys, i: nat, j: nat)
    requires Pair(s, i, j) && s.reqs[i].Setting? && s.reqs[j].Demoting? && WaitsFor(s.reqs[j], s.reqs[i])
    ensures s.reqs[i].number !in s.reqs[j].matched && !WaitsFor(s.reqs[i], s.reqs[j])
  {
    var q, h := s.reqs[i], s.reqs[j];
    assert RequestOk(q) && FoundOne(h);
    var x :| x in h.matched * q.demoted;
  }

  lemma WaitingEnds(s: Sys, i: nat, j: nat) returns (es: seq<Step>)
    requires Pair(s, i, j) && s.reqs[i].Setting? && s.reqs[j].Demoting? && WaitsFor(s.reqs[j], s.reqs[i])
    ensures !Singles(Exec(s, es).reg) && forall k :: 0 <= k < |es| ==> es[k].Call?
  {
    var q, h := s.reqs[i], s.reqs[j];
    FoundAnother(s, i, j);
    assert !Registers(q);
    FirstCommits(s, i, j);
    var s1 := Exec(s, [Call(i, Reached)]);
    es := UncoveredCalls(s1, j, q.number);
    ExecConcat(s, [Call(i, Reached)], es);
    es := [Call(i, Reached)] + es;
  }

  /** The first UPDATE of one of them ends. */
  lemma PairDemotes(s: Sys, i: nat, j: nat)
    requires Pair(s, i, j) && s.reqs[i].Demoting? && !WaitsFor(s.reqs[i], s.reqs[j])
    ensures var s1 := Exec(s, [Call(i, Reached)]); Pair(s1, i, j) && s1.reqs[i].Setting? && s1.reqs[j] == s.reqs[j]
  {
    PairUnblocked(s.reqs, i, j);
    Demotes(s, i);
    RowsAreKept(s, [Call(i, Reached)]);
    var q, q' := s.reqs[i], Exec(s, [Call(i, Reached)]).reqs[i];
    assert q'.key == q.key && q'.number == q.number && q'.alias == q.alias;
  }

  lemma SettingEnds(s: Sys, i: nat, j: nat) returns (es: seq<Step>)
    requires Pair(s, i, j) && s.reqs[i].Setting? && s.reqs[j].Demoting?
    ensures !Singles(Exec(s, es).reg) && forall k :: 0 <= k < |es| ==> es[k].Call?
  {
    if WaitsFor(s.reqs[j], s.reqs[i]) {
      es := WaitingEnds(s, i, j);
    } else {
      PairDemotes(s, j, i);
      es := BothSettingEnds(Exec(s, [Call(j, Reached)]), i, j);
      ExecConcat(s, [Call(j, Reached)], es);
      es := [Call(j, Reached)] + es;
    }
  }

  lemma BothDemotingEnds(s: Sys, i: nat, j: nat) returns (es: seq<Step>)
    requires Pair(s, i, j) && s.reqs[i].Demoting? && s.reqs[j].Demoting?
    ensures !Singles(Exec(s, es).reg) && forall k :: 0 <= k < |es| ==> es[k].Call?
  {
    PairDemotes(s, i, j);
    es := SettingEnds(Exec(s, [Call(i, Reached)]), i, j);
    ExecConcat(s, [Call(i, Reached)], es);
    es := [Call(i, Reached)] + es;
  }

  /** Two rivals can always be carried on to two holders. */
  lemma RivalsEnd(s: Sys, i: nat, j: nat) returns (es: seq<Step>)
    requires Pair(s, i, j)
    ensures !Singles(Exec(s, es).reg) && forall k :: 0 <= k < |es| ==> es[k].Call?
  {
    if s.reqs[i].Setting? {
      if s.reqs[j].Setting? { es := BothSettingEnds(s, i, j); } else { es := SettingEnds(s, i, j); }
    } else if s.reqs[j].Setting? {
      es := SettingEnds(s, j, i);
    } else {
      es := BothDemotingEnds(s, i, j);
    }
  }

  ghost predicate StaysSingle(s: Sys) {
    forall es :: CarefulRun(s, es) ==> Singles(Exec(s, es).reg)
  }

  lemma StopsThenCalls(s: Sys, stops: seq<Step>, calls: seq<Step>)
    requires (forall k :: 0 <= k < |stops| ==> stops[k].Crash?) && (forall k :: 0 <= k < |calls| ==> calls[k].Call?)
    requires OnlyOpen(Exec(s, stops).reqs)
    ensures CarefulRun(s, stops + calls) && Exec(s, stops + calls) == Exec(Exec(s, stops), calls)
  {
    StopsAreCareful(s, stops);
    CallsAreCareful(Exec(s, stops), calls);
    CarefulTogether(s, stops, calls);
    ExecConcat(s, stops, calls);
  }

  lemma PairLeft(s: Sys, s1: Sys, i: nat, j: nat)
    requires Singles(s.reg) && AllFoundOne(s.reqs) && i in s.reqs && j in s.reqs && Rivals(s.reqs[i], s.reqs[j])
    requires TablesOk(s1) && s1 == s.(reqs := map id | id in s.reqs && id in {i, j} :: s.reqs[id])
    ensures Pair(s1, i, j) && OnlyOpen(s1.reqs)
  {
  }

  lemma PairAlone(s: Sys, i: nat, j: nat) returns (stops: seq<Step>)
    requires TablesOk(s) && Singles(s.reg) && AllFoundOne(s.reqs) && i in s.reqs && j in s.reqs && Rivals(s.reqs[i], s.reqs[j])
    ensures Pair(Exec(s, stops), i, j) && OnlyOpen(Exec(s, stops).reqs)
    ensures forall k :: 0 <= k < |stops| ==> stops[k].Crash?
  {
    stops := OthersStop(s, {i, j});
    RowsAreKept(s, stops);
    PairLeft(s, Exec(s, stops), i, j);
  }

  lemma RivalsViolate(s: Sys, i: nat, j: nat) returns (es: seq<Step>)
    requires TablesOk(s) && Singles(s.reg) && AllFoundOne(s.reqs) && i in s.reqs && j in s.reqs && Rivals(s.reqs[i], s.reqs[j])
    ensures CarefulRun(s, es) && !Singles(Exec(s, es).reg)
  {
    var stops := PairAlone(s, i, j);
    var calls := RivalsEnd(Exec(s, stops), i, j);
    StopsThenCalls(s, stops, calls);
    es := stops + calls;
  }

  lemma CoverViolated(s: Sys, i: nat, h: nat) returns (es: seq<Step>)
    requires TablesOk(s) && i in s.reqs && Open(s.reqs[i])
    requires var q := s.reqs[i]; h in HoldersOf(VersionsOf(s.reg, q.key), q.number, q.alias) && h !in Found(q)
    ensures CarefulRun(s, es) && !Singles(Exec(s, es).reg)
  {
    var stops := OthersStop(s, {i});
    RowsAreKept(s, stops);
    var s1 := Exec(s, stops);
    assert s1.reqs == map[i := s.reqs[i]];
    var calls := UncoveredCalls(s1, i, h);
    StopsThenCalls(s, stops, calls);
    es := stops + calls;
  }

  lemma ViolationEnds(s: Sys) returns (es: seq<Step>)
    requires TablesOk(s) && Singles(s.reg) && AllFoundOne(s.reqs) && !(NoRivals(s.reqs) && Covered(s))
    ensures CarefulRun(s, es) && !Singles(Exec(s, es).reg)
  {
    if i, j :| i in s.reqs && j in s.reqs && Rivals(s.reqs[i], s.reqs[j]) {
      es := RivalsViolate(s, i, j);
    } else {
      var i :| i in s.reqs && !Covers(s.reg, s.reqs[i]);
      var h :| h in HoldersOf(VersionsOf(s.reg, s.reqs[i].key), s.reqs[i].number, s.reqs[i].alias) && h !in Found(s.reqs[i]);
      es := CoverViolated(s, i, h);
    }
  }

  /** Exactly when the promise is safe, in every state in which it holds: every continuation that
      begins no transaction beside a rival keeps it if and only if no two open transactions are rivals
      and each knows of every other holder there is. */
  lemma OneHolderExactly(s: Sys)
    requires TablesOk(s) && Singles(s.reg) && AllFoundOne(s.reqs)
    ensures StaysSingle(s) <==> NoRivals(s.reqs) && Covered(s)
  {
    if NoRivals(s.reqs) && Covered(s) {
      forall es | CarefulRun(s, es) ensures Singles(Exec(s, es).reg) { OneHolderEach(s, es); }
    } else {
      var es := ViolationEnds(s);
    }
  }

  predicate NoRivalOpen(reqs: map<nat, Request>, key: ModelKey, number: nat, alias: Label) {
    forall j :: j in reqs && Open(reqs[j]) && reqs[j].key == key && reqs[j].alias == alias ==> reqs[j].number == number
  }

  /** At the moment at which a transaction begins: the promise is safe if and only if no transaction for
      another version of the model and the same alias is open. */
  lemma BeginningExactly(s: Sys, id: nat)
    requires HoldersInv(s) && id in s.reqs && s.reqs[id].Holding?
    ensures StaysSingle(Apply(s, Call(id, Reached))) <==>
            NoRivalOpen(s.reqs, s.reqs[id].key, s.reqs[id].number, s.reqs[id].alias)
  {
    var q := s.reqs[id];
    var s1 := Apply(s, Call(id, Reached));
    assert !Blocked(s.reqs, id);
    OpenNext(s.reg, q, Reached);
    OkStep(s, Call(id, Reached));
    CallKeepsCover(s, id, Reached);
    assert RequestOk(q);
    FindsOne(s.reg, s1.reqs[id]);
    OneHolderExactly(s1);
    if NoRivals(s1.reqs) {
      forall j | j in s.reqs && Open(s.reqs[j]) && s.reqs[j].key == q.key && s.reqs[j].alias == q.alias
        ensures s.reqs[j].number == q.number
      {
        assert s1.reqs[j] == s.reqs[j] && !Rivals(s1.reqs[id], s1.reqs[j]);
      }
    } else {
      var i, j :| i in s1.reqs && j in s1.reqs && Rivals(s1.reqs[i], s1.reqs[j]);
      assert i != id && j != id ==> !Rivals(s.reqs[i], s.reqs[j]);
    }
  }

  // ---------------------------------------------------------------- two holders, from the start

  function Two(aliases: map<Label, nat>, first: Label, second: Label): Reg {
    Reg(map[NameOf(KEY) := MlModel(2, map[1 := "run", 2 := "run"], aliases)],
        map[KEY := Record(0, "p", NameOf(KEY),
                          map[1 := Version(1, RunRef(0, 0), "run", first), 2 := Version(2, RunRef(0, 0), "run", second)])], 3)
  }

  lemma SecondVersion()
    ensures Exec(Sys(One(map[], Candidate), map[]), SECOND) == Sys(Two(map[], Candidate, Candidate), map[])
  {
    var s0 := Sys(One(map[], Candidate), map[]);
    var ml := Two(map[], Candidate, Candidate).mlflow;
    var s1 := s0.(reqs := map[2 := Naming(KEY, SRC)]);
    var s2 := s0.(reqs := map[2 := Versioning(KEY, SRC, false)]);
    var s3 := Sys(s0.reg.(mlflow := ml), map[2 := Recording(KEY, SRC, false, 2)]);
    var s4 := s3.(reqs := map[2 := Storing(KEY, SRC, 2)]);
    assert Apply(s0, Register(2, KEY, SRC)) == s1;
    assert Apply(s1, Call(2, Reached)) == s2;
    assert Apply(s2, Call(2, Reached)) == s3 by { assert map[1 := "run"][2 := "run"] == map[1 := "run", 2 := "run"]; }
    assert Apply(s3, Call(2, Reached)) == s4;
    SecondStored(s4);
    Exec3(s0, Register(2, KEY, SRC), Call(2, Reached), Call(2, Reached));
    Exec2(s3, Call(2, Reached), Call(2, Reached));
    ExecConcat(s0, [Register(2, KEY, SRC), Call(2, Reached), Call(2, Reached)], [Call(2, Reached), Call(2, Reached)]);
  }

  lemma SecondStored(s: Sys)
    requires s == Sys(One(map[], Candidate).(mlflow := Two(map[], Candidate, Candidate).mlflow), map[2 := Storing(KEY, SRC, 2)])
    ensures Apply(s, Call(2, Reached)) == Sys(Two(map[], Candidate, Candidate), map[])
  {
    assert s.reqs - {2} == map[];
    assert VersionsOf(s.reg, KEY)[2 := Version(2, RunRef(0, 0), "run", Candidate)] == VersionsOf(Two(map[], Candidate, Candidate), KEY);
  }

  /** Both promotions to production have moved the alias, and both transactions have begun. */
  const BEGIN := [Promote(1, KEY, 1, Production), Promote(2, KEY, 2, Production)]
    + [Call(1, Reached), Call(2, Reached)] + [Call(1, Reached), Call(2, Reached)]

  const DEMOTING_1 := Demoting(KEY, 1, Production, {})
  const DEMOTING_2 := Demoting(KEY, 2, Production, {})

  lemma BothBegin()
    ensures Exec(Sys(Two(map[], Candidate, Candidate), map[]), BEGIN) ==
            Sys(Two(map[Production := 2], Candidate, Candidate), map[1 := DEMOTING_1, 2 := DEMOTING_2])
  {
    var s0 := Sys(Two(map[], Candidate, Candidate), map[]);
    var s2 := s0.(reqs := map[1 := Aliasing(KEY, 1, Production), 2 := Aliasing(KEY, 2, Production)]);
    var s4 := Sys(Two(map[Production := 2], Candidate, Candidate), map[1 := Holding(KEY, 1, Production), 2 := Holding(KEY, 2, Production)]);
    assert Apply(Apply(s0, Promote(1, KEY, 1, Production)), Promote(2, KEY, 2, Production)) == s2;
    BothAliased(s2, s4);
    Exec2(s0, Promote(1, KEY, 1, Production), Promote(2, KEY, 2, Production));
    BothFound(s4);
    ExecConcat(s0, [Promote(1, KEY, 1, Production), Promote(2, KEY, 2, Production)], [Call(1, Reached), Call(2, Reached)]);
    ExecConcat(s0, [Promote(1, KEY, 1, Production), Promote(2, KEY, 2, Production)] + [Call(1, Reached), Call(2, Reached)],
               [Call(1, Reached), Call(2, Reached)]);
  }

  lemma AliasesTwo(aliases: map<Label, nat>, number: nat)
    requires (number == 1 && aliases == map[]) || (number == 2 && aliases == map[Production := 1])
    ensures OnAliasing(Two(aliases, Candidate, Candidate), Aliasing(KEY, number, Production), Reached) ==
            Turn(Two(map[Production := number], Candidate, Candidate), Some(Holding(KEY, number, Production)))
  {
    assert aliases[Production := number] == map[Production := number];
  }

  lemma Aliased(s: Sys, id: nat, r: Reg)
    requires id in s.reqs && s.reqs[id].Aliasing?
    requires var q := s.reqs[id]; OnAliasing(s.reg, q, Reached) == Turn(r, Some(Holding(q.key, q.number, q.alias)))
    ensures var q := s.reqs[id]; Apply(s, Call(id, Reached)) == Sys(r, s.reqs[id := Holding(q.key, q.number, q.alias)])
  {
    assert !Blocked(s.reqs, id);
  }

  lemma BothAliased(s2: Sys, s4: Sys)
    requires s2 == Sys(Two(map[], Candidate, Candidate), map[1 := Aliasing(KEY, 1, Production), 2 := Aliasing(KEY, 2, Production)])
    requires s4 == Sys(Two(map[Production := 2], Candidate, Candidate), map[1 := Holding(KEY, 1, Production), 2 := Holding(KEY, 2, Production)])
    ensures Exec(s2, [Call(1, Reached), Call(2, Reached)]) == s4
  {
    var s3 := Sys(Two(map[Production := 1], Candidate, Candidate), map[1 := Holding(KEY, 1, Production), 2 := Aliasing(KEY, 2, Production)]);
    AliasesTwo(map[], 1);
    Aliased(s2, 1, s3.reg);
    assert s2.reqs[1 := Holding(KEY, 1, Production)] == s3.reqs;
    AliasesTwo(map[Production := 1], 2);
    Aliased(s3, 2, s4.reg);
    assert s3.reqs[2 := Holding(KEY, 2, Production)] == s4.reqs;
    Exec2(s2, Call(1, Reached), Call(2, Reached));
  }

  lemma NoProduction(aliases: map<Label, nat>, number: nat)
    ensures HoldersOf(VersionsOf(Two(aliases, Candidate, Candidate), KEY), number, Production) == {}
  {
  }

  lemma BothFound(s: Sys)
    requires s == Sys(Two(map[Production := 2], Candidate, Candidate), map[1 := Holding(KEY, 1, Production), 2 := Holding(KEY, 2, Production)])
    ensures Exec(s, [Call(1, Reached), Call(2, Reached)]) == s.(reqs := map[1 := DEMOTING_1, 2 := DEMOTING_2])
  {
    NoProduction(map[Production := 2], 1);
    NoProduction(map[Production := 2], 2);
    FindsNone(s, 1);
    var s1 := s.(reqs := map[1 := DEMOTING_1, 2 := Holding(KEY, 2, Production)]);
    assert s1.reqs == s.reqs[1 := DEMOTING_1];
    FindsNone(s1, 2);
    assert s1.reqs[2 := DEMOTING_2] == map[1 := DEMOTING_1, 2 := DEMOTING_2];
    Exec2(s, Call(1, Reached), Call(2, Reached));
  }

  lemma FindsNone(s: Sys, id: nat)
    requires id in s.reqs && s.reqs[id].Holding? && HoldersOf(VersionsOf(s.reg, s.reqs[id].key), s.reqs[id].number, s.reqs[id].alias) == {}
    ensures var q := s.reqs[id]; Apply(s, Call(id, Reached)) == s.(reqs := s.reqs[id := Demoting(q.key, q.number, q.alias, {})])
  {
    assert !Blocked(s.reqs, id);
  }

  lemma DemotesNone(s: Sys, id: nat)
    requires id in s.reqs && s.reqs[id].Demoting? && s.reqs[id].matched == {}
    ensures var q := s.reqs[id]; Apply(s, Call(id, Reached)) == s.(reqs := s.reqs[id := Setting(q.key, q.number, q.alias, {})])
  {
    var q := s.reqs[id];
    assert forall x: set<nat> :: q.matched * x == {};
    assert !Blocked(s.reqs, id);
  }

  lemma BothDemote(s: Sys)
    requires s == Sys(Two(map[Production := 2], Candidate, Candidate), map[1 := DEMOTING_1, 2 := DEMOTING_2])
    ensures Exec(s, [Call(1, Reached), Call(2, Reached)]) ==
            s.(reqs := map[1 := Setting(KEY, 1, Production, {}), 2 := Setting(KEY, 2, Production, {})])
  {
    var s1 := s.(reqs := map[1 := Setting(KEY, 1, Production, {}), 2 := DEMOTING_2]);
    DemotesNone(s, 1);
    assert s.reqs[1 := Setting(KEY, 1, Production, {})] == s1.reqs;
    DemotesNone(s1, 2);
    assert s1.reqs[2 := Setting(KEY, 2, Production, {})] == map[1 := Setting(KEY, 1, Production, {}), 2 := Setting(KEY, 2, Production, {})];
    Exec2(s, Call(1, Reached), Call(2, Reached));
  }

  const COMMIT_BOTH := [Call(1, Reached), Call(2, Reached)] + [Call(1, Reached), Call(2, Reached)]

  lemma BothSet(s: Sys)
    requires s == Sys(Two(map[Production := 2], Candidate, Candidate),
                      map[1 := Setting(KEY, 1, Production, {}), 2 := Setting(KEY, 2, Production, {})])
    ensures Exec(s, [Call(1, Reached), Call(2, Reached)]) == Sys(Two(map[Production := 2], Production, Production), map[])
  {
    var s1 := Sys(Two(map[Production := 2], Production, Candidate), map[2 := Setting(KEY, 2, Production, {})]);
    SetOne(s, s1);
    SetTwo(s1);
    Exec2(s, Call(1, Reached), Call(2, Reached));
  }

  lemma SetOne(s: Sys, s1: Sys)
    requires s == Sys(Two(map[Production := 2], Candidate, Candidate),
                      map[1 := Setting(KEY, 1, Production, {}), 2 := Setting(KEY, 2, Production, {})])
    requires s1 == Sys(Two(map[Production := 2], Production, Candidate), map[2 := Setting(KEY, 2, Production, {})])
    ensures Apply(s, Call(1, Reached)) == s1
  {
    var q := Setting(KEY, 1, Production, {});
    assert !WaitsFor(q, s.reqs[2]);
    SetFirst(s.reg, q);
    assert s.reqs - {1} == s1.reqs;
  }

  lemma SetFirst(r: Reg, q: Request)
    requires r == Two(map[Production := 2], Candidate, Candidate) && q == Setting(KEY, 1, Production, {})
    ensures OnSetting(r, q, Reached) == Turn(Two(map[Production := 2], Production, Candidate), None)
  {
    assert Switched(VersionsOf(r, KEY), {}, 1, Production) == VersionsOf(Two(map[Production := 2], Production, Candidate), KEY);
  }

  lemma SetTwo(s: Sys)
    requires s == Sys(Two(map[Production := 2], Production, Candidate), map[2 := Setting(KEY, 2, Production, {})])
    ensures Apply(s, Call(2, Reached)) == Sys(Two(map[Production := 2], Production, Production), map[])
  {
    assert Switched(VersionsOf(s.reg, KEY), {}, 2, Production) == VersionsOf(Two(map[Production := 2], Production, Production), KEY);
    assert s.reqs - {2} == map[];
  }

  lemma BothCommit(s: Sys)
    requires s == Sys(Two(map[Production := 2], Candidate, Candidate), map[1 := DEMOTING_1, 2 := DEMOTING_2])
    ensures Exec(s, COMMIT_BOTH) == Sys(Two(map[Production := 2], Production, Production), map[])
  {
    BothDemote(s);
    BothSet(Exec(s, [Call(1, Reached), Call(2, Reached)]));
    ExecConcat(s, [Call(1, Reached), Call(2, Reached)], [Call(1, Reached), Call(2, Reached)]);
  }

  /** Without any fault, from the start, two overlapping promotions can leave a model with two
      production versions. */
  lemma TwoHolders()
    ensures Exec(Init(), REGISTER + SECOND + BEGIN + COMMIT_BOTH) == Sys(Two(map[Production := 2], Production, Production), map[])
  {
    RegisterRuns();
    SecondVersion();
    BothBegin();
    ExecConcat(Init(), REGISTER, SECOND);
    ExecConcat(Init(), REGISTER + SECOND, BEGIN);
    BothCommit(Exec(Init(), REGISTER + SECOND + BEGIN));
    ExecConcat(Init(), REGISTER + SECOND + BEGIN, COMMIT_BOTH);
  }
}
