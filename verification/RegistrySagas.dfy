/** The registration saga keeps MLflow and PostgreSQL in step: whichever call of a registration is
    refused, once its cleanup calls succeed every registered model has a record and every MLflow
    version a row, one to one. Registrations of a model may overlap, since each undoes only its own
    version; what must not happen is that one finds the model while another that has just created it,
    and may delete it again, is under way (control-plane/internal/models/service.go:58-109). */
module RegistrySagas {
  import opened Prelude
  import opened Registry
  import opened RegistryProtocol
  import opened RegistryHistory
  import opened RegistryMirror

  /** A registration that has found or created its model. */
  predicate Past(q: Request) { Registers(q) && !q.Naming? }

  predicate HasNumber(q: Request) { q.Recording? || q.Storing? || q.Undoing? }

  /** A registration with a version of a model that stays: that version has no row yet. */
  predicate HasExtra(q: Request) { HasNumber(q) && !MayDelete(q) }

  function Extras(reqs: map<nat, Request>, key: ModelKey): set<nat> {
    set id | id in reqs && HasExtra(reqs[id]) && reqs[id].key == key :: reqs[id].number
  }

  predicate HasCreator(reqs: map<nat, Request>, key: ModelKey) {
    exists id :: id in reqs && MayDelete(reqs[id]) && reqs[id].key == key
  }

  predicate Busy(reqs: map<nat, Request>, key: ModelKey) {
    exists id :: id in reqs && Past(reqs[id]) && reqs[id].key == key
  }

  /** Who created the model and may delete it is the only one that knows of it. */
  predicate CreatorsAlone(reqs: map<nat, Request>) {
    forall i, j :: i in reqs && j in reqs && i != j && MayDelete(reqs[i]) && Past(reqs[j]) ==> reqs[i].key != reqs[j].key
  }

  predicate NumbersDiffer(reqs: map<nat, Request>) {
    forall i, j :: i in reqs && j in reqs && i != j && HasNumber(reqs[i]) && HasNumber(reqs[j]) && reqs[i].key == reqs[j].key ==>
      reqs[i].number != reqs[j].number
  }

  /** What a registration relies on. */
  predicate ReliesOn(r: Reg, q: Request) {
    match q
    case Versioning(key, _, created) => created ==> Unrecorded(r, key, {})
    case Recording(key, src, created, number) =>
      From(r, key, number, src.mlflowRunId) && (created ==> Unrecorded(r, key, {number}))
    case Storing(key, src, number) => From(r, key, number, src.mlflowRunId)
    case Undoing(key, number, dropModel) => dropModel ==> Unrecorded(r, key, {number})
    case Dropping(key) => Unrecorded(r, key, {})
    case _ => true
  }

  predicate AllRely(r: Reg, reqs: map<nat, Request>) { forall id :: id in reqs ==> ReliesOn(r, reqs[id]) }

  /** One model with all its registrations: in step, but for the versions under way. */
  predicate ModelOk(r: Reg, reqs: map<nat, Request>, key: ModelKey) {
    && Numbered(r, key)
    && (!HasCreator(reqs, key) && (NameOf(key) in r.mlflow || key in r.records || Busy(reqs, key)) ==>
          Linked(r, key, Extras(reqs, key)))
  }

  ghost predicate ModelsOk(r: Reg, reqs: map<nat, Request>) { forall key :: KeyOk(key) ==> ModelOk(r, reqs, key) }

  ghost predicate SagaInv(s: Sys) {
    && TablesOk(s) && Ours(s.reg.mlflow) && CreatorsAlone(s.reqs) && NumbersDiffer(s.reqs)
    && AllRely(s.reg, s.reqs) && ModelsOk(s.reg, s.reqs)
  }

  /** No reply of a forward call is lost and cleanup works; no registration stops in the middle; and
      none finds the model that another one has created and may delete. */
  predicate Careful(s: Sys, e: Step) {
    && (e.Call? && e.request in s.reqs ==>
          && CleanCall(s.reqs[e.request], e.outcome)
          && (s.reqs[e.request].Naming? && e.outcome == Reached ==> !HasCreator(s.reqs, s.reqs[e.request].key)))
    && (e.Crash? && e.request in s.reqs ==> !Past(s.reqs[e.request]))
  }

  ghost predicate CarefulRun(s: Sys, es: seq<Step>)
    decreases |es|
  {
    es == [] || (Careful(s, es[0]) && CarefulRun(Apply(s, es[0]), es[1..]))
  }

  // ---------------------------------------------------------------- requests come, move on and go

  function Own(q: Option<Request>, key: ModelKey): set<nat> {
    if q.Some? && HasExtra(q.value) && q.value.key == key then {q.value.number} else {}
  }

  lemma ExtrasAfter(reqs: map<nat, Request>, id: nat, next: Option<Request>, key: ModelKey)
    ensures Extras(WithRequest(reqs, id, next), key) == Extras(reqs - {id}, key) + Own(next, key)
  {
    var reqs' := WithRequest(reqs, id, next);
    forall n | n in Extras(reqs - {id}, key) + Own(next, key) ensures n in Extras(reqs', key) {
      if n in Extras(reqs - {id}, key) {
        var j :| j in reqs - {id} && HasExtra(reqs[j]) && reqs[j].key == key && reqs[j].number == n;
        assert j in reqs' && reqs'[j] == reqs[j];
      } else {
        assert reqs'[id] == next.value;
      }
    }
    forall n | n in Extras(reqs', key) ensures n in Extras(reqs - {id}, key) + Own(next, key) {
      var j :| j in reqs' && HasExtra(reqs'[j]) && reqs'[j].key == key && reqs'[j].number == n;
      if j != id {
        assert j in reqs - {id} && (reqs - {id})[j] == reqs'[j];
      }
    }
  }

  lemma ExtrasBefore(reqs: map<nat, Request>, id: nat, key: ModelKey)
    requires id in reqs
    ensures Extras(reqs, key) == Extras(reqs - {id}, key) + Own(Some(reqs[id]), key)
  {
    assert reqs[id := reqs[id]] == reqs;
    ExtrasAfter(reqs, id, Some(reqs[id]), key);
  }

  /** Nobody else has its number. */
  lemma OwnIsNew(reqs: map<nat, Request>, id: nat)
    requires NumbersDiffer(reqs) && id in reqs && HasNumber(reqs[id])
    ensures reqs[id].number !in Extras(reqs - {id}, reqs[id].key)
  {
  }

  /** Beside the creator of a model nobody has a version of it. */
  lemma AloneHasNoExtras(reqs: map<nat, Request>, id: nat)
    requires CreatorsAlone(reqs) && id in reqs && MayDelete(reqs[id])
    ensures Extras(reqs - {id}, reqs[id].key) == {}
    ensures forall j :: j in reqs && j != id && reqs[j].key == reqs[id].key ==> !Past(reqs[j])
  {
  }

  // ---------------------------------------------------------------- one call, seen from its model

  /** A model with one of its registrations (or none), given the numbers that others have under way, and
      whether there are others past Naming. */
  predicate Seen(r: Reg, key: ModelKey, others: set<nat>, busy: bool, q: Option<Request>) {
    && Numbered(r, key) && (q.Some? ==> q.value.key == key && ReliesOn(r, q.value))
    && (q.Some? && HasNumber(q.value) ==> q.value.number !in others)
    && (if q.Some? && MayDelete(q.value) then others == {} && !busy
        else (NameOf(key) in r.mlflow || key in r.records || busy || (q.Some? && Past(q.value)) ==> Linked(r, key, others + Own(q, key))))
  }

  lemma NamingSeen(r: Reg, q: Request, o: Outcome, others: set<nat>, busy: bool)
    requires q.Naming? && CleanCall(q, o) && Seen(r, q.key, others, busy, Some(q)) && (others != {} ==> busy)
    ensures Seen(OnNaming(r, q, o).reg, q.key, others, busy, OnNaming(r, q, o).next)
  {
  }

  lemma VersioningSeen(r: Reg, q: Request, o: Outcome, others: set<nat>, busy: bool)
    requires q.Versioning? && CleanCall(q, o) && Seen(r, q.key, others, busy, Some(q))
    ensures Seen(OnVersioning(r, q, o).reg, q.key, others, busy, OnVersioning(r, q, o).next)
  {
    if !q.created && o == Reached {
      var m := r.mlflow[NameOf(q.key)];
      var n := m.last + 1;
      assert others + Own(Some(q), q.key) == others && n !in others;
      var live' := m.live[n := q.src.mlflowRunId];
      assert live' - (others + {n}) == m.live - others;
    }
  }

  lemma RecordingSeen(r: Reg, q: Request, o: Outcome, others: set<nat>, busy: bool)
    requires q.Recording? && CleanCall(q, o) && Seen(r, q.key, others, busy, Some(q))
    ensures Seen(OnRecording(r, q, o).reg, q.key, others, busy, OnRecording(r, q, o).next)
  {
    if q.created {
      var live := r.mlflow[NameOf(q.key)].live;
      assert live - ({} + {q.number}) == map[];
    }
  }

  lemma StoringSeen(r: Reg, q: Request, o: Outcome, others: set<nat>, busy: bool)
    requires q.Storing? && CleanCall(q, o) && Seen(r, q.key, others, busy, Some(q))
    ensures Seen(OnStoring(r, q, o).reg, q.key, others, busy, OnStoring(r, q, o).next)
  {
    if o == Reached {
      var live := r.mlflow[NameOf(q.key)].live;
      assert q.number in others + {q.number};
      assert live - others == (live - (others + {q.number}))[q.number := q.src.mlflowRunId];
      assert others + {} == others;
    }
  }

  lemma UndoingSeen(r: Reg, q: Request, o: Outcome, others: set<nat>, busy: bool)
    requires q.Undoing? && CleanCall(q, o) && Seen(r, q.key, others, busy, Some(q))
    ensures Seen(OnUndoing(r, q, o).reg, q.key, others, busy, OnUndoing(r, q, o).next)
  {
    if !q.dropModel {
      var live := r.mlflow[NameOf(q.key)].live;
      assert (live - {q.number}) - others == live - (others + {q.number});
      assert others + {} == others;
    }
  }

  lemma DroppingSeen(r: Reg, q: Request, o: Outcome, others: set<nat>, busy: bool)
    requires q.Dropping? && CleanCall(q, o) && Seen(r, q.key, others, busy, Some(q))
    ensures Seen(OnDropping(r, q, o).reg, q.key, others, busy, OnDropping(r, q, o).next)
  {
  }

  lemma CallSeen(r: Reg, q: Request, o: Outcome, others: set<nat>, busy: bool)
    requires Registers(q) && CleanCall(q, o) && Seen(r, q.key, others, busy, Some(q)) && (others != {} ==> busy)
    ensures Seen(Next(r, q, o).reg, q.key, others, busy, Next(r, q, o).next)
  {
    match q
    case Naming(_, _) => NamingSeen(r, q, o, others, busy);
    case Versioning(_, _, _) => VersioningSeen(r, q, o, others, busy);
    case Recording(_, _, _, _) => RecordingSeen(r, q, o, others, busy);
    case Storing(_, _, _) => StoringSeen(r, q, o, others, busy);
    case Undoing(_, _, _) => UndoingSeen(r, q, o, others, busy);
    case Dropping(_) => DroppingSeen(r, q, o, others, busy);
  }

  // ---------------------------------------------------------------- one call, seen from everybody

  lemma ModelSeen(r: Reg, reqs: map<nat, Request>, id: nat)
    requires id in reqs && ModelOk(r, reqs, reqs[id].key) && AllRely(r, reqs) && NumbersDiffer(reqs) && CreatorsAlone(reqs)
    requires Registers(reqs[id]) && (reqs[id].Naming? ==> !HasCreator(reqs, reqs[id].key))
    ensures Seen(r, reqs[id].key, Extras(reqs - {id}, reqs[id].key), Busy(reqs - {id}, reqs[id].key), Some(reqs[id]))
    ensures !HasCreator(reqs - {id}, reqs[id].key)
    ensures Extras(reqs - {id}, reqs[id].key) != {} ==> Busy(reqs - {id}, reqs[id].key)
  {
    var q := reqs[id];
    ExtrasBefore(reqs, id, q.key);
    if HasNumber(q) { OwnIsNew(reqs, id); }
    if MayDelete(q) { AloneHasNoExtras(reqs, id); }
    if Busy(reqs - {id}, q.key) { assert Busy(reqs, q.key); }
  }

  lemma SeenModel(r: Reg, reqs: map<nat, Request>, id: nat, next: Option<Request>, key: ModelKey)
    requires Seen(r, key, Extras(reqs - {id}, key), Busy(reqs - {id}, key), next)
    requires !HasCreator(reqs - {id}, key) && (next.Some? ==> Registers(next.value))
    ensures ModelOk(r, WithRequest(reqs, id, next), key)
  {
    var reqs' := WithRequest(reqs, id, next);
    ExtrasAfter(reqs, id, next, key);
    if next.Some? && MayDelete(next.value) {
      assert reqs'[id] == next.value;
      assert HasCreator(reqs', key);
    } else if j :| j in reqs' && Past(reqs'[j]) && reqs'[j].key == key {
      assert j != id ==> Busy(reqs - {id}, key) by {
        if j != id { assert j in reqs - {id} && (reqs - {id})[j] == reqs'[j]; }
      }
    }
  }

  /** Models of other keys. */
  lemma OtherModelKept(r: Reg, r': Reg, reqs: map<nat, Request>, reqs': map<nat, Request>, key: ModelKey)
    requires SameShape(r, r', key) && ModelOk(r, reqs, key)
    requires forall j :: j in reqs && reqs[j].key == key && Past(reqs[j]) ==> j in reqs' && reqs'[j] == reqs[j]
    requires forall j :: j in reqs' && reqs'[j].key == key && Past(reqs'[j]) ==> j in reqs && reqs'[j] == reqs[j]
    ensures ModelOk(r', reqs', key)
  {
    assert Extras(reqs', key) == Extras(reqs, key) by {
      forall n ensures n in Extras(reqs', key) <==> n in Extras(reqs, key) {
        if n in Extras(reqs, key) {
          var j :| j in reqs && HasExtra(reqs[j]) && reqs[j].key == key && reqs[j].number == n;
          assert j in reqs' && reqs'[j] == reqs[j];
        }
      }
    }
    if HasCreator(reqs, key) {
      var j :| j in reqs && MayDelete(reqs[j]) && reqs[j].key == key;
      assert j in reqs' && reqs'[j] == reqs[j];
    }
  }

  lemma ShapeRelies(r: Reg, r': Reg, q: Request)
    requires SameShape(r, r', q.key) && ReliesOn(r, q)
    ensures ReliesOn(r', q)
  {
  }

  /** Another registration of the model, which is not its creator, still has what it relies on. */
  lemma SiblingRelies(r: Reg, q: Request, o: Outcome, h: Request)
    requires Registers(q) && h.key == q.key && !MayDelete(h) && ReliesOn(r, h) && Numbered(r, q.key)
    requires MayDelete(q) ==> !Past(h)
    requires HasNumber(q) && HasNumber(h) ==> q.number != h.number
    ensures ReliesOn(Next(r, q, o).reg, h)
  {
    match q
    case Naming(_, _) =>
    case Versioning(_, _, _) =>
    case Recording(_, _, _, _) =>
    case Storing(_, _, _) =>
    case Undoing(_, _, _) =>
    case Dropping(_) =>
  }

  /** A call that moves a registration on, unless it is at Naming beside a creator. */
  predicate MovesOn(s: Sys, id: nat, o: Outcome) {
    && id in s.reqs && Registers(s.reqs[id]) && CleanCall(s.reqs[id], o)
    && (s.reqs[id].Naming? ==> !HasCreator(s.reqs, s.reqs[id].key))
  }

  lemma ModelsAfter(s: Sys, id: nat, o: Outcome)
    requires SagaInv(s) && MovesOn(s, id, o)
    ensures var t := Next(s.reg, s.reqs[id], o); ModelsOk(t.reg, WithRequest(s.reqs, id, t.next))
  {
    var q := s.reqs[id];
    var t := Next(s.reg, q, o);
    var reqs' := WithRequest(s.reqs, id, t.next);
    assert RequestOk(q);
    NextRegisters(s.reg, q, o);
    forall key | KeyOk(key) ensures ModelOk(t.reg, reqs', key) {
      assert ModelOk(s.reg, s.reqs, key);
      if key == q.key {
        ModelSeen(s.reg, s.reqs, id);
        CallSeen(s.reg, q, o, Extras(s.reqs - {id}, key), Busy(s.reqs - {id}, key));
        SeenModel(t.reg, s.reqs, id, t.next, key);
      } else {
        OtherModelsSame(s.reg, q, o, key);
        OtherModelKept(s.reg, t.reg, s.reqs, reqs', key);
      }
    }
  }

  lemma NextRegisters(r: Reg, q: Request, o: Outcome)
    requires Registers(q)
    ensures var n := Next(r, q, o).next; n.Some? ==> Past(n.value) && n.value.key == q.key
    ensures var n := Next(r, q, o).next;
            n.Some? && HasNumber(n.value) ==>
              if q.Versioning? then NameOf(q.key) in r.mlflow && n.value.number == r.mlflow[NameOf(q.key)].last + 1
              else HasNumber(q) && n.value.number == q.number
    ensures var n := Next(r, q, o).next; n.Some? && MayDelete(n.value) ==> MayDelete(q) || (q.Naming? && NameOf(q.key) !in r.mlflow)
  {
  }

  lemma RelyAfter(s: Sys, id: nat, o: Outcome)
    requires SagaInv(s) && MovesOn(s, id, o)
    ensures var t := Next(s.reg, s.reqs[id], o); AllRely(t.reg, WithRequest(s.reqs, id, t.next))
  {
    var q := s.reqs[id];
    var t := Next(s.reg, q, o);
    var reqs' := WithRequest(s.reqs, id, t.next);
    assert RequestOk(q) && ModelOk(s.reg, s.reqs, q.key);
    ModelSeen(s.reg, s.reqs, id);
    CallSeen(s.reg, q, o, Extras(s.reqs - {id}, q.key), Busy(s.reqs - {id}, q.key));
    forall j | j in reqs' ensures ReliesOn(t.reg, reqs'[j]) {
      if j != id {
        assert RequestOk(s.reqs[j]) && ReliesOn(s.reg, s.reqs[j]) && s.reqs[j] == reqs'[j];
        if s.reqs[j].key == q.key {
          assert j in s.reqs - {id} && !HasCreator(s.reqs - {id}, q.key);
          if MayDelete(q) { AloneHasNoExtras(s.reqs, id); }
          SiblingRelies(s.reg, q, o, s.reqs[j]);
        } else {
          OtherModelsSame(s.reg, q, o, s.reqs[j].key);
          ShapeRelies(s.reg, t.reg, s.reqs[j]);
        }
      }
    }
  }

  /** A number under way has been given out. */
  lemma NumberGivenOut(r: Reg, reqs: map<nat, Request>, j: nat)
    requires j in reqs && HasNumber(reqs[j]) && ReliesOn(r, reqs[j]) && ModelOk(r, reqs, reqs[j].key)
    requires !HasCreator(reqs, reqs[j].key)
    ensures NameOf(reqs[j].key) in r.mlflow && reqs[j].number <= r.mlflow[NameOf(reqs[j].key)].last
  {
    assert HasExtra(reqs[j]) && Busy(reqs, reqs[j].key);
    assert reqs[j].number in Extras(reqs, reqs[j].key);
  }

  lemma NumbersAfter(s: Sys, id: nat, o: Outcome)
    requires SagaInv(s) && MovesOn(s, id, o)
    ensures NumbersDiffer(WithRequest(s.reqs, id, Next(s.reg, s.reqs[id], o).next))
  {
    var q := s.reqs[id];
    var next := Next(s.reg, q, o).next;
    NextRegisters(s.reg, q, o);
    assert RequestOk(q) && ModelOk(s.reg, s.reqs, q.key);
    if next.Some? && HasNumber(next.value) && q.Versioning? {
      forall j | j in s.reqs && j != id && HasNumber(s.reqs[j]) && s.reqs[j].key == q.key ensures s.reqs[j].number != next.value.number {
        assert ReliesOn(s.reg, s.reqs[j]);
        if q.created {
          AloneHasNoExtras(s.reqs, id);
        } else {
          NoCreatorBeside(s.reqs, id);
          NumberGivenOut(s.reg, s.reqs, j);
        }
      }
    }
  }

  lemma NoCreatorBeside(reqs: map<nat, Request>, id: nat)
    requires CreatorsAlone(reqs) && id in reqs && Past(reqs[id]) && !MayDelete(reqs[id])
    ensures !HasCreator(reqs, reqs[id].key)
  {
  }

  lemma CreatorsAfter(s: Sys, id: nat, o: Outcome)
    requires SagaInv(s) && MovesOn(s, id, o)
    ensures CreatorsAlone(WithRequest(s.reqs, id, Next(s.reg, s.reqs[id], o).next))
  {
    var q := s.reqs[id];
    var next := Next(s.reg, q, o).next;
    NextRegisters(s.reg, q, o);
    assert RequestOk(q) && ModelOk(s.reg, s.reqs, q.key);
    if next.Some? {
      forall j | j in s.reqs && j != id && s.reqs[j].key == q.key
        ensures MayDelete(next.value) ==> !Past(s.reqs[j])
        ensures !MayDelete(s.reqs[j])
      {
        if MayDelete(q) { AloneHasNoExtras(s.reqs, id); }
        if q.Naming? { assert !HasCreator(s.reqs, q.key); }
        if Past(s.reqs[j]) { assert Busy(s.reqs, q.key); }
      }
    }
  }

  lemma RegistrationKeeps(s: Sys, id: nat, o: Outcome)
    requires SagaInv(s) && MovesOn(s, id, o) && Proceeds(s, Call(id, o))
    ensures SagaInv(Apply(s, Call(id, o)))
  {
    assert RequestOk(s.reqs[id]);
    OkStep(s, Call(id, o));
    NamesStayOurs(s.reg, s.reqs[id], o);
    CreatorsAfter(s, id, o);
    NumbersAfter(s, id, o);
    RelyAfter(s, id, o);
    ModelsAfter(s, id, o);
  }

  // ---------------------------------------------------------------- the other steps

  lemma SameRelies(s: Sys, r': Reg, reqs': map<nat, Request>)
    requires RequestsOk(s.reqs) && AllRely(s.reg, s.reqs)
    requires forall key :: KeyOk(key) ==> SameShape(s.reg, r', key)
    requires forall j :: j in reqs' && Past(reqs'[j]) ==> j in s.reqs && reqs'[j] == s.reqs[j]
    ensures AllRely(r', reqs')
  {
    forall j | j in reqs' ensures ReliesOn(r', reqs'[j]) {
      if Past(reqs'[j]) {
        assert RequestOk(s.reqs[j]) && ReliesOn(s.reg, s.reqs[j]);
        ShapeRelies(s.reg, r', s.reqs[j]);
      }
    }
  }

  lemma SameModels(s: Sys, r': Reg, reqs': map<nat, Request>)
    requires ModelsOk(s.reg, s.reqs)
    requires forall key :: KeyOk(key) ==> SameShape(s.reg, r', key)
    requires forall j :: j in s.reqs && Past(s.reqs[j]) ==> j in reqs' && reqs'[j] == s.reqs[j]
    requires forall j :: j in reqs' && Past(reqs'[j]) ==> j in s.reqs && reqs'[j] == s.reqs[j]
    ensures ModelsOk(r', reqs')
  {
    forall key | KeyOk(key) ensures ModelOk(r', reqs', key) {
      OtherModelKept(s.reg, r', s.reqs, reqs', key);
    }
  }

  lemma SamePairs(reqs: map<nat, Request>, reqs': map<nat, Request>)
    requires CreatorsAlone(reqs) && NumbersDiffer(reqs)
    requires forall j :: j in reqs' && Past(reqs'[j]) ==> j in reqs && reqs'[j] == reqs[j]
    ensures CreatorsAlone(reqs') && NumbersDiffer(reqs')
  {
  }

  /** The registrations past Naming, and the shape of every model, are as they were. */
  lemma SameSagas(s: Sys, r': Reg, reqs': map<nat, Request>)
    requires SagaInv(s) && TablesOk(Sys(r', reqs')) && Ours(r'.mlflow)
    requires forall key :: KeyOk(key) ==> SameShape(s.reg, r', key)
    requires forall j :: j in s.reqs && Past(s.reqs[j]) ==> j in reqs' && reqs'[j] == s.reqs[j]
    requires forall j :: j in reqs' && Past(reqs'[j]) ==> j in s.reqs && reqs'[j] == s.reqs[j]
    ensures SagaInv(Sys(r', reqs'))
  {
    SameModels(s, r', reqs');
    SamePairs(s.reqs, reqs');
    SameRelies(s, r', reqs');
  }

  lemma PromotionKeeps(s: Sys, id: nat, o: Outcome)
    requires SagaInv(s) && Proceeds(s, Call(id, o)) && !Registers(s.reqs[id])
    ensures SagaInv(Apply(s, Call(id, o)))
  {
    var q := s.reqs[id];
    var t := Next(s.reg, q, o);
    assert RequestOk(q);
    OkStep(s, Call(id, o));
    NamesStayOurs(s.reg, q, o);
    NextPromotes(s.reg, q, o);
    forall key | KeyOk(key) ensures SameShape(s.reg, t.reg, key) { PromotionKeepsShape(s.reg, q, o, key); }
    SameSagas(s, t.reg, WithRequest(s.reqs, id, t.next));
  }

  lemma NextPromotes(r: Reg, q: Request, o: Outcome)
    requires !Registers(q)
    ensures var n := Next(r, q, o).next; n.Some? ==> !Registers(n.value)
  {
  }

  /** A registration refused at its first call. */
  lemma NamingRefusedKeeps(s: Sys, id: nat)
    requires SagaInv(s) && id in s.reqs && s.reqs[id].Naming?
    ensures SagaInv(Apply(s, Call(id, Refused)))
  {
    OkStep(s, Call(id, Refused));
    assert Apply(s, Call(id, Refused)) == Sys(s.reg, s.reqs - {id});
    SameSagas(s, s.reg, s.reqs - {id});
  }

  lemma CallKeeps(s: Sys, id: nat, o: Outcome)
    requires SagaInv(s) && Careful(s, Call(id, o))
    ensures SagaInv(Apply(s, Call(id, o)))
  {
    if Proceeds(s, Call(id, o)) {
      if !Registers(s.reqs[id]) {
        PromotionKeeps(s, id, o);
      } else if s.reqs[id].Naming? && o == Refused {
        NamingRefusedKeeps(s, id);
      } else {
        RegistrationKeeps(s, id, o);
      }
    }
  }

  lemma SagaStep(s: Sys, e: Step)
    requires SagaInv(s) && Careful(s, e)
    ensures SagaInv(Apply(s, e))
  {
    if e.Call? {
      CallKeeps(s, e.request, e.outcome);
    } else {
      OkStep(s, e);
      IdleKeepsPast(s, e);
      SameSagas(s, s.reg, Apply(s, e).reqs);
    }
  }

  /** Requests that arrive or go before they have changed anything. */
  lemma IdleKeepsPast(s: Sys, e: Step)
    requires Careful(s, e) && !e.Call?
    ensures var s' := Apply(s, e);
            && s'.reg == s.reg
            && (forall j :: j in s.reqs && Past(s.reqs[j]) ==> j in s'.reqs && s'.reqs[j] == s.reqs[j])
            && (forall j :: j in s'.reqs && Past(s'.reqs[j]) ==> j in s.reqs && s'.reqs[j] == s.reqs[j])
  {
    match e
    case Register(_, _, _) =>
    case Promote(_, _, _, _) =>
    case Crash(_) =>
  }

  lemma {:induction false} SagaInvKept(s: Sys, es: seq<Step>)
    requires SagaInv(s) && CarefulRun(s, es)
    ensures SagaInv(Exec(s, es))
    decreases |es|
  {
    if es != [] {
      SagaStep(s, es[0]);
      SagaInvKept(Apply(s, es[0]), es[1..]);
    }
  }

  predicate Quiet(reqs: map<nat, Request>, key: ModelKey) {
    forall id :: id in reqs && Registers(reqs[id]) ==> reqs[id].key != key
  }

  lemma QuietInStep(s: Sys, key: ModelKey)
    requires SagaInv(s) && KeyOk(key) && Quiet(s.reqs, key)
    ensures InStep(s.reg, key)
  {
    assert ModelOk(s.reg, s.reqs, key);
    assert Extras(s.reqs, key) == {};
  }

  lemma AtRest(s: Sys)
    requires SagaInv(s) && forall id :: id in s.reqs ==> !Registers(s.reqs[id])
    ensures Mirror(s.reg)
  {
    forall key | KeyOk(key) ensures InStep(s.reg, key) { QuietInStep(s, key); }
    assert forall key :: key in s.reg.records ==> RecordOk(key, s.reg.records[key]);
  }

  lemma InitSagas()
    ensures SagaInv(Init())
  {
  }

  /** In every run from the start in which no reply of a forward call is lost, cleanup calls work, no
      registration stops in the middle, and none finds a model that another has created and may still
      delete; however many registrations of a model overlap otherwise, whichever of their calls are
      refused, and whatever promotions do: a model without a registration in flight is in step, and once
      none is in flight at all the two sides correspond one to one. */
  lemma SagasLeaveNoOrphans(es: seq<Step>, key: ModelKey)
    requires CarefulRun(Init(), es) && KeyOk(key)
    ensures var s := Exec(Init(), es);
            && (Quiet(s.reqs, key) ==> InStep(s.reg, key))
            && ((forall id :: id in s.reqs ==> !Registers(s.reqs[id])) ==> Mirror(s.reg))
  {
    var s := Exec(Init(), es);
    InitSagas();
    SagaInvKept(Init(), es);
    if Quiet(s.reqs, key) { QuietInStep(s, key); }
    if forall id :: id in s.reqs ==> !Registers(s.reqs[id]) { AtRest(s); }
  }

  // ---------------------------------------------------------------- exactly when a model may be found

  ghost predicate StaysInStep(s: Sys, key: ModelKey) {
    forall es :: CarefulRun(s, es) && Quiet(Exec(s, es).reqs, key) ==> InStep(Exec(s, es).reg, key)
  }

  lemma {:induction false} CarefulTogether(s: Sys, a: seq<Step>, b: seq<Step>)
    requires CarefulRun(s, a) && CarefulRun(Exec(s, a), b)
    ensures CarefulRun(s, a + b)
    decreases |a|
  {
    if a == [] {
      assert a + b == b;
    } else {
      assert (a + b)[0] == a[0] && (a + b)[1..] == a[1..] + b;
      CarefulTogether(Apply(s, a[0]), a[1..], b);
    }
  }

  /** Registrations at their first call may stop. */
  lemma {:induction false} StopsAreCareful(s: Sys, es: seq<Step>, keep: set<nat>)
    requires forall k :: 0 <= k < |es| ==> es[k].Crash? && es[k].request !in keep
    requires forall id :: id in s.reqs && id !in keep ==> !Past(s.reqs[id])
    ensures CarefulRun(s, es)
    decreases |es|
  {
    if es != [] {
      assert es[0].Crash? && es[0].request !in keep;
      StopsAreCareful(Apply(s, es[0]), es[1..], keep);
    }
  }

  /** A registration past Naming makes its call. */
  lemma PastCall(s: Sys, id: nat, o: Outcome)
    requires id in s.reqs && Past(s.reqs[id]) && CleanCall(s.reqs[id], o)
    ensures var t := Next(s.reg, s.reqs[id], o);
            Exec(s, [Call(id, o)]) == Sys(t.reg, WithRequest(s.reqs, id, t.next)) && CarefulRun(s, [Call(id, o)])
  {
    assert !Blocked(s.reqs, id);
    assert [Call(id, o)][1..] == [];
    assert Exec(s, [Call(id, o)]) == Exec(Apply(s, Call(id, o)), []);
  }

  /** The second registration runs to its end, and leaves a record. */
  lemma Completes(s: Sys, id: nat) returns (es: seq<Step>)
    requires id in s.reqs && s.reqs[id].Versioning? && NameOf(s.reqs[id].key) in s.reg.mlflow && s.reqs[id].key !in s.reg.records
    ensures CarefulRun(s, es) && Exec(s, es).reqs == s.reqs - {id}
    ensures s.reqs[id].key in Exec(s, es).reg.records && NameOf(s.reqs[id].key) in Exec(s, es).reg.mlflow
  {
    var call := [Call(id, Reached)];
    PastCall(s, id, Reached);
    var s1 := Exec(s, call);
    PastCall(s1, id, Reached);
    var s2 := Exec(s1, call);
    PastCall(s2, id, Reached);
    var s3 := Exec(s2, call);
    assert s3.reqs == s.reqs - {id};
    CarefulTogether(s, call, call);
    ExecConcat(s, call, call);
    CarefulTogether(s, call + call, call);
    ExecConcat(s, call + call, call);
    es := call + call + call;
  }

  function DropRank(q: Request): nat { if q.Recording? then 2 else if q.Versioning? || q.Undoing? then 1 else 0 }

  /** The creator fails, and deletes the model. */
  lemma {:induction false} Drops(s: Sys, id: nat) returns (es: seq<Step>)
    requires id in s.reqs && MayDelete(s.reqs[id]) && NameOf(s.reqs[id].key) in s.reg.mlflow
    ensures CarefulRun(s, es) && Exec(s, es).reqs == s.reqs - {id}
    ensures NameOf(s.reqs[id].key) !in Exec(s, es).reg.mlflow && Exec(s, es).reg.records == s.reg.records
    decreases DropRank(s.reqs[id])
  {
    var o := if s.reqs[id].Versioning? || s.reqs[id].Recording? then Refused else Reached;
    var call := [Call(id, o)];
    PastCall(s, id, o);
    var s1 := Exec(s, call);
    if s.reqs[id].Dropping? {
      es := call;
    } else {
      assert s1.reqs - {id} == s.reqs - {id};
      var rest := Drops(s1, id);
      CarefulTogether(s, call, rest);
      ExecConcat(s, call, rest);
      es := call + rest;
    }
  }

  /** The state in which a registration has found a model whose creator may delete it. */
  predicate FoundToo(s: Sys, id: nat, c: nat, key: ModelKey) {
    && id in s.reqs && c in s.reqs && id != c && s.reqs[id].Versioning? && MayDelete(s.reqs[c])
    && s.reqs[id].key == s.reqs[c].key == key && NameOf(key) in s.reg.mlflow && key !in s.reg.records
    && forall j :: j in s.reqs && j != id && j != c && s.reqs[j].key == key ==> !Past(s.reqs[j])
  }

  function Waiting(reqs: map<nat, Request>, key: ModelKey): set<nat> {
    set j | j in reqs && reqs[j].Naming? && reqs[j].key == key
  }

  lemma FoundTooEnds(s: Sys, id: nat, c: nat, key: ModelKey) returns (es: seq<Step>)
    requires FoundToo(s, id, c, key)
    ensures CarefulRun(s, es) && Quiet(Exec(s, es).reqs, key) && !InStep(Exec(s, es).reg, key)
  {
    var keep := s.reqs.Keys - Waiting(s.reqs, key);
    var stops := OthersStop(s, keep);
    StopsAreCareful(s, stops, keep);
    var s1 := Exec(s, stops);
    var complete := Completes(s1, id);
    var s2 := Exec(s1, complete);
    assert c in s2.reqs && s2.reqs[c] == s.reqs[c];
    var drop := Drops(s2, c);
    CarefulTogether(s1, complete, drop);
    ExecConcat(s1, complete, drop);
    CarefulTogether(s, stops, complete + drop);
    ExecConcat(s, stops, complete + drop);
    es := stops + (complete + drop);
  }

  lemma NamingFinds(s: Sys, id: nat, c: nat)
    requires SagaInv(s) && id in s.reqs && s.reqs[id].Naming? && c in s.reqs && MayDelete(s.reqs[c])
    requires s.reqs[c].key == s.reqs[id].key
    ensures FoundToo(Apply(s, Call(id, Reached)), id, c, s.reqs[id].key)
  {
    assert !Blocked(s.reqs, id);
    assert ReliesOn(s.reg, s.reqs[c]);
    AloneHasNoExtras(s.reqs, c);
  }

  /** At the moment at which a registration looks for its model: every careful continuation leaves the
      model in step whenever no registration of it is in flight, if and only if no registration that
      created it, and may still delete it, is under way, which is the same as that none stands beside
      another past Naming afterwards. */
  lemma FindingExactly(s: Sys, id: nat)
    requires SagaInv(s) && id in s.reqs && s.reqs[id].Naming?
    ensures StaysInStep(Apply(s, Call(id, Reached)), s.reqs[id].key) <==> !HasCreator(s.reqs, s.reqs[id].key)
    ensures CreatorsAlone(Apply(s, Call(id, Reached)).reqs) <==> !HasCreator(s.reqs, s.reqs[id].key)
  {
    var s1 := Apply(s, Call(id, Reached));
    var key := s.reqs[id].key;
    assert RequestOk(s.reqs[id]);
    if c :| c in s.reqs && MayDelete(s.reqs[c]) && s.reqs[c].key == key {
      NamingFinds(s, id, c);
      assert c in s1.reqs && id in s1.reqs;
      var es := FoundTooEnds(s1, id, c, key);
      assert HasCreator(s.reqs, key);
    } else {
      SagaStep(s, Call(id, Reached));
      forall es | CarefulRun(s1, es) && Quiet(Exec(s1, es).reqs, key) ensures InStep(Exec(s1, es).reg, key) {
        SagaInvKept(s1, es);
        QuietInStep(Exec(s1, es), key);
      }
    }
  }
}
