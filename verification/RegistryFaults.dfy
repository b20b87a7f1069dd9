/** Single requests, run without interruption, under every combination of faults: exactly which ones
    leave MLflow and PostgreSQL out of step. */
module RegistryFaults {
  import opened Prelude
  import opened Registry
  import opened RegistryProtocol
  import opened RegistryHistory
  import opened RegistryMirror

  /** The outcomes of the calls of Register: the four of the way forward, and the two of the cleanup. */
  datatype RegisterFaults = RegisterFaults(name: Outcome, version: Outcome, record: Outcome, store: Outcome, undo: Outcome, drop: Outcome)

  function OutcomeOf(q: Request, f: RegisterFaults): Outcome
    requires Registers(q)
  {
    match q
    case Naming(_, _) => f.name
    case Versioning(_, _, _) => f.version
    case Recording(_, _, _, _) => f.record
    case Storing(_, _, _) => f.store
    case Undoing(_, _, _) => f.undo
    case Dropping(_) => f.drop
  }

  /** Calls a registration has before it at most. */
  function Rank(q: Request): nat {
    match q
    case Naming(_, _) => 6
    case Versioning(_, _, _) => 5
    case Recording(_, _, _, _) => 4
    case Storing(_, _, _) => 3
    case Undoing(_, _, _) => 2
    case _ => 1
  }

  /** A registration carried to its end. */
  function Carried(r: Reg, q: Request, f: RegisterFaults): Reg
    requires Registers(q)
    decreases Rank(q)
  {
    var t := Next(r, q, OutcomeOf(q, f));
    if t.next.None? then t.reg else Carried(t.reg, t.next.value, f)
  }

  /** Carrying a registration to its end is running its calls one after the other. */
  function CallSteps(id: nat, r: Reg, q: Request, f: RegisterFaults): seq<Step>
    requires Registers(q)
    decreases Rank(q)
  {
    var t := Next(r, q, OutcomeOf(q, f));
    [Call(id, OutcomeOf(q, f))] + if t.next.None? then [] else CallSteps(id, t.reg, t.next.value, f)
  }

  /** A registration whose four calls are reached and whose number is free, column by column: the model
      `m`, new or not, has the next version, from the source run; so has the record, as a candidate; and
      nothing else has changed. */
  lemma RegistrationOutcome(r: Reg, key: ModelKey, src: Source, f: RegisterFaults, name: string, m: MlModel, rec: Record)
    requires f.name == f.version == f.record == f.store == Reached && name == key.tenant + "-" + key.name
    requires m == if name in r.mlflow then r.mlflow[name] else MlModel(0, map[], map[])
    requires rec == if key in r.records then r.records[key] else Record(r.nextId, src.project, name, map[])
    requires m.last + 1 !in rec.versions
    ensures var id := if key in r.records then r.nextId else r.nextId + 1;
            Carried(r, Naming(key, src), f) ==
            Reg(r.mlflow[name := MlModel(m.last + 1, m.live[m.last + 1 := src.mlflowRunId], m.aliases)],
                r.records[key := rec.(versions := rec.versions[m.last + 1 := Version(id, src.run, src.mlflowRunId, Candidate)])],
                id + 1)
  {
    VersionedOutcome(r, key, src, f, name, m);
    var r2 := r.(mlflow := r.mlflow[name := MlModel(m.last + 1, m.live[m.last + 1 := src.mlflowRunId], m.aliases)]);
    StoredOutcome(r2, key, src, name !in r.mlflow, m.last + 1, f, rec);
  }

  lemma VersionedOutcome(r: Reg, key: ModelKey, src: Source, f: RegisterFaults, name: string, m: MlModel)
    requires f.name == f.version == Reached && name == key.tenant + "-" + key.name
    requires m == if name in r.mlflow then r.mlflow[name] else MlModel(0, map[], map[])
    ensures var r2 := r.(mlflow := r.mlflow[name := MlModel(m.last + 1, m.live[m.last + 1 := src.mlflowRunId], m.aliases)]);
            Carried(r, Naming(key, src), f) == Carried(r2, Recording(key, src, name !in r.mlflow, m.last + 1), f)
  {
    var r1 := r.(mlflow := ModelCreated(r.mlflow, name));
    var r2 := r.(mlflow := r.mlflow[name := MlModel(m.last + 1, m.live[m.last + 1 := src.mlflowRunId], m.aliases)]);
    NextCarried(r, Naming(key, src), r1, Versioning(key, src, name !in r.mlflow), f);
    assert r1.mlflow[name := MlModel(m.last + 1, m.live[m.last + 1 := src.mlflowRunId], m.aliases)] == r2.mlflow;
    NextCarried(r1, Versioning(key, src, name !in r.mlflow), r2, Recording(key, src, name !in r.mlflow, m.last + 1), f);
  }

  lemma NextCarried(r: Reg, q: Request, r': Reg, q': Request, f: RegisterFaults)
    requires Registers(q) && Registers(q') && Next(r, q, OutcomeOf(q, f)) == Turn(r', Some(q'))
    ensures Carried(r, q, f) == Carried(r', q', f)
  {
  }

  lemma StoredOutcome(r: Reg, key: ModelKey, src: Source, created: bool, number: nat, f: RegisterFaults, rec: Record)
    requires f.record == f.store == Reached
    requires rec == if key in r.records then r.records[key] else Record(r.nextId, src.project, key.tenant + "-" + key.name, map[])
    requires number !in rec.versions
    ensures var id := if key in r.records then r.nextId else r.nextId + 1;
            Carried(r, Recording(key, src, created, number), f) ==
            Reg(r.mlflow, r.records[key := rec.(versions := rec.versions[number := Version(id, src.run, src.mlflowRunId, Candidate)])], id + 1)
  {
    NextCarried(r, Recording(key, src, created, number), RecordPut(r, key, src.project), Storing(key, src, number), f);
  }

  lemma {:induction false} CarriedRuns(s: Sys, id: nat, q: Request, f: RegisterFaults)
    requires Registers(q) && id !in s.reqs
    ensures Exec(s.(reqs := s.reqs[id := q]), CallSteps(id, s.reg, q, f)) == s.(reg := Carried(s.reg, q, f))
    decreases Rank(q)
  {
    var o := OutcomeOf(q, f);
    var t := Next(s.reg, q, o);
    var s0 := s.(reqs := s.reqs[id := q]);
    var rest := if t.next.None? then [] else CallSteps(id, t.reg, t.next.value, f);
    var s1 := Apply(s0, Call(id, o));
    assert ([Call(id, o)] + rest)[1..] == rest;
    assert Exec(s0, [Call(id, o)] + rest) == Exec(s1, rest);
    if t.next.None? {
      assert s.reqs[id := q] - {id} == s.reqs;
    } else {
      assert s.reqs[id := q][id := t.next.value] == s.reqs[id := t.next.value];
      CarriedRuns(s.(reg := t.reg), id, t.next.value, f);
    }
  }

  /** Which faults a registration survives, by whether the model was registered before. A lost
      reply is one that was lost after the call took effect. */
  predicate LeavesMirror(existed: bool, f: RegisterFaults) {
    if f.name != Reached then
      f.name == Refused || existed
    else if f.version != Reached then
      if existed then f.version == Refused else f.drop != Refused
    else if f.record == Reached then
      match f.store
      case Reached => true
      case Refused => f.undo != Refused
      case ReplyLost => f.undo == Refused          // the row is there: cleaning up is the mistake
    else if existed then f.undo != Refused
    else if f.record == Refused then f.drop != Refused
    else f.undo != Refused && f.drop == Refused    // the record is there: the model must stay
  }

  /** The end of a registration, from where it stands. */
  predicate EndsInStep(r: Reg, q: Request, f: RegisterFaults)
    requires Registers(q)
  {
    InStep(Carried(r, q, f), q.key)
  }

  lemma DroppingEnds(r: Reg, key: ModelKey, f: RegisterFaults)
    requires NameOf(key) in r.mlflow
    ensures EndsInStep(r, Dropping(key), f) <==> if f.drop == Refused then InStep(r, key) else key !in r.records
  {
  }

  /** Cleaning up a version that only MLflow has. */
  lemma UndoingExtra(r: Reg, key: ModelKey, number: nat, f: RegisterFaults)
    requires Linked(r, key, {number})
    ensures EndsInStep(r, Undoing(key, number, false), f) <==> f.undo != Refused
  {
  }

  /** Cleaning up a version whose row was written after all. */
  lemma UndoingStored(r: Reg, key: ModelKey, number: nat, f: RegisterFaults)
    requires Linked(r, key, {}) && number in r.records[key].versions
    ensures EndsInStep(r, Undoing(key, number, false), f) <==> f.undo == Refused
  {
  }

  /** Cleaning up version and model, with no record. */
  lemma UndoingUnrecorded(r: Reg, key: ModelKey, number: nat, f: RegisterFaults)
    requires Unrecorded(r, key, {number})
    ensures EndsInStep(r, Undoing(key, number, true), f) <==> f.drop != Refused
  {
    DroppingEnds(Next(r, Undoing(key, number, true), f.undo).reg, key, f);
  }

  /** Cleaning up version and model although the record was written after all. */
  lemma UndoingRecorded(r: Reg, key: ModelKey, number: nat, f: RegisterFaults)
    requires Linked(r, key, {number}) && r.records[key].versions == map[]
    ensures EndsInStep(r, Undoing(key, number, true), f) <==> f.undo != Refused && f.drop == Refused
  {
    var live := r.mlflow[NameOf(key)].live;
    var r1 := Next(r, Undoing(key, number, true), f.undo).reg;
    DroppingEnds(r1, key, f);
    if f.undo == Refused {
      assert number in live - {};
    } else {
      assert r1.mlflow[NameOf(key)].live - {} == live - {number};
    }
  }

  lemma StoringEnds(r: Reg, key: ModelKey, src: Source, number: nat, f: RegisterFaults)
    requires From(r, key, number, src.mlflowRunId) && Linked(r, key, {number})
    ensures EndsInStep(r, Storing(key, src, number), f) <==>
            match f.store case Reached => true case Refused => f.undo != Refused case ReplyLost => f.undo == Refused
  {
    var live := r.mlflow[NameOf(key)].live;
    if f.store == Refused {
      UndoingExtra(r, key, number, f);
    } else {
      var r1 := VersionPut(r, key, number, src);
      assert live - {} == live && forall n :: n in live ==> n == number || n in live - {number};
      assert Linked(r1, key, {});
      if f.store == ReplyLost {
        UndoingStored(r1, key, number, f);
      }
    }
  }

  lemma RecordingEnds(r: Reg, key: ModelKey, src: Source, created: bool, number: nat, f: RegisterFaults)
    requires SliceOk(r, key, Some(Recording(key, src, created, number)))
    ensures EndsInStep(r, Recording(key, src, created, number), f) <==>
            if f.record == Reached then
              (match f.store case Reached => true case Refused => f.undo != Refused case ReplyLost => f.undo == Refused)
            else if !created then f.undo != Refused
            else if f.record == Refused then f.drop != Refused
            else f.undo != Refused && f.drop == Refused
  {
    var r1 := RecordPut(r, key, src.project);
    if created {
      assert r1.mlflow[NameOf(key)].live - {number} == map[];
    }
    if f.record == Reached {
      StoringEnds(r1, key, src, number, f);
    } else if !created {
      UndoingExtra(r, key, number, f);
    } else if f.record == Refused {
      UndoingUnrecorded(r, key, number, f);
    } else {
      UndoingRecorded(r1, key, number, f);
    }
  }

  lemma VersioningEnds(r: Reg, key: ModelKey, src: Source, created: bool, f: RegisterFaults)
    requires SliceOk(r, key, Some(Versioning(key, src, created))) && Numbered(r, key)
    ensures EndsInStep(r, Versioning(key, src, created), f) <==> LeavesMirror(!created, f.(name := Reached))
  {
    var q := Versioning(key, src, created);
    var name := NameOf(key);
    var r1 := r.(mlflow := VersionCreated(r.mlflow, name, src.mlflowRunId));
    if f.version == Reached {
      VersioningSlice(r, q, Reached);
      RecordingEnds(r1, key, src, created, r.mlflow[name].last + 1, f);
    } else if created {
      DroppingEnds(if f.version == Refused then r else r1, key, f);
    } else if f.version == ReplyLost {
      assert r.mlflow[name].last + 1 in r1.mlflow[name].live - {};
    }
  }

  /** Every failure point of a registration, and whatever becomes of its cleanup: MLflow and
      PostgreSQL agree on the model afterwards exactly for the faults that LeavesMirror lists, and
      every other model is as it was. */
  lemma RegistrationLeavesMirrorExactly(r: Reg, key: ModelKey, src: Source, f: RegisterFaults)
    requires KeyOk(key) && InStep(r, key) && Numbered(r, key)
    ensures InStep(Carried(r, Naming(key, src), f), key) <==> LeavesMirror(NameOf(key) in r.mlflow, f)
  {
    var q := Naming(key, src);
    var r1 := r.(mlflow := ModelCreated(r.mlflow, NameOf(key)));
    if f.name == Reached {
      NamingSlice(r, q, Reached);
      VersioningEnds(r1, key, src, NameOf(key) !in r.mlflow, f);
      assert LeavesMirror(NameOf(key) in r.mlflow, f) == LeavesMirror(NameOf(key) in r.mlflow, f.(name := Reached));
    }
  }

  /** A registration that stops in the middle, having met only what the saga is built for: exactly when
      it has changed nothing that it should have cleaned up. */
  lemma StoppingLeavesMirrorExactly(r: Reg, q: Request)
    requires Registers(q) && SliceOk(r, q.key, Some(q))
    ensures InStep(r, q.key) <==> q.Naming? || (q.Versioning? && !q.created)
  {
    if q.Recording? || q.Storing? || (q.Undoing? && !q.dropModel) {
      assert q.number in r.mlflow[NameOf(q.key)].live - {};
    }
  }

  lemma {:induction false} OthersUntouched(r: Reg, q: Request, f: RegisterFaults, other: ModelKey)
    requires Registers(q) && KeyOk(q.key) && KeyOk(other) && other != q.key
    ensures SameShape(r, Carried(r, q, f), other)
    decreases Rank(q)
  {
    var t := Next(r, q, OutcomeOf(q, f));
    OtherModelsSame(r, q, OutcomeOf(q, f), other);
    if t.next.Some? {
      OthersUntouched(t.reg, t.next.value, f, other);
    }
  }

  // ---------------------------------------------------------------- two registrations at once

  /** Two first registrations of one model: the second finds the model registered by the first and
      completes; then the first fails to store its record and deletes the model it created. */
  const KEY := ModelKey("00000000-0000-0000-0000-000000000000", "m")
  const SRC := Source("p", RunRef(0, 0), "run")

  const FIRST := [Register(1, KEY, SRC), Call(1, Reached), Call(1, Reached)]
  const SECOND := [Register(2, KEY, SRC), Call(2, Reached), Call(2, Reached)] + [Call(2, Reached), Call(2, Reached)]
  const CLEANUP := [Call(1, Refused), Call(1, Reached), Call(1, Reached)]

  lemma Exec3(s: Sys, a: Step, b: Step, c: Step)
    ensures Exec(s, [a, b, c]) == Apply(Apply(Apply(s, a), b), c)
  {
    assert [a, b, c][1..] == [b, c] && [b, c][1..] == [c] && [c][1..] == [];
    assert Exec(Apply(Apply(s, a), b), [c]) == Exec(Apply(Apply(Apply(s, a), b), c), []);
  }

  lemma Exec2(s: Sys, a: Step, b: Step)
    ensures Exec(s, [a, b]) == Apply(Apply(s, a), b)
  {
    assert [a, b][1..] == [b] && [b][1..] == [];
    assert Exec(Apply(s, a), [b]) == Exec(Apply(Apply(s, a), b), []);
  }

  lemma FirstRuns()
    ensures Exec(Init(), FIRST) ==
            Sys(Reg(map[NameOf(KEY) := MlModel(1, map[1 := "run"], map[])], map[], 0), map[1 := Recording(KEY, SRC, true, 1)])
  {
    var s1 := Sys(Reg(map[], map[], 0), map[1 := Naming(KEY, SRC)]);
    var s2 := Sys(Reg(map[NameOf(KEY) := MlModel(0, map[], map[])], map[], 0), map[1 := Versioning(KEY, SRC, true)]);
    assert Apply(Init(), Register(1, KEY, SRC)) == s1;
    assert Apply(s1, Call(1, Reached)) == s2;
    Exec3(Init(), Register(1, KEY, SRC), Call(1, Reached), Call(1, Reached));
  }

  /** A registration waits for no transaction. */
  lemma Calls(s: Sys, id: nat, next: Request)
    requires id in s.reqs && Registers(s.reqs[id]) && Next(s.reg, s.reqs[id], Reached).next == Some(next)
    ensures Apply(s, Call(id, Reached)) == Sys(Next(s.reg, s.reqs[id], Reached).reg, s.reqs[id := next])
  {
    assert !Blocked(s.reqs, id);
  }

  lemma SecondRuns(s: Sys)
    requires s == Sys(Reg(map[NameOf(KEY) := MlModel(1, map[1 := "run"], map[])], map[], 0), map[1 := Recording(KEY, SRC, true, 1)])
    ensures var s' := Exec(s, SECOND);
            s'.reqs == s.reqs && KEY in s'.reg.records && 2 in s'.reg.records[KEY].versions && s'.reg.mlflow.Keys == {NameOf(KEY)}
  {
    var name := NameOf(KEY);
    var ml2 := map[name := MlModel(2, map[1 := "run", 2 := "run"], map[])];
    var s1 := s.(reqs := s.reqs[2 := Naming(KEY, SRC)]);
    var s2 := s.(reqs := s.reqs[2 := Versioning(KEY, SRC, false)]);
    var s3 := Sys(Reg(ml2, map[], 0), s.reqs[2 := Recording(KEY, SRC, false, 2)]);
    var s4 := Sys(Reg(ml2, map[KEY := Record(0, "p", name, map[])], 1), s.reqs[2 := Storing(KEY, SRC, 2)]);
    assert Apply(s, Register(2, KEY, SRC)) == s1;
    Calls(s1, 2, Versioning(KEY, SRC, false));
    assert s1.reqs[2 := Versioning(KEY, SRC, false)] == s2.reqs;
    Calls(s2, 2, Recording(KEY, SRC, false, 2));
    assert s2.reqs[2 := Recording(KEY, SRC, false, 2)] == s3.reqs;
    assert map[1 := "run"][2 := "run"] == map[1 := "run", 2 := "run"];
    Calls(s3, 2, Storing(KEY, SRC, 2));
    assert s3.reqs[2 := Storing(KEY, SRC, 2)] == s4.reqs;
    assert s4.reqs - {2} == s.reqs;
    Exec3(s, Register(2, KEY, SRC), Call(2, Reached), Call(2, Reached));
    Exec2(s3, Call(2, Reached), Call(2, Reached));
    ExecConcat(s, [Register(2, KEY, SRC), Call(2, Reached), Call(2, Reached)], [Call(2, Reached), Call(2, Reached)]);
  }

  /** The model of the second registration is gone, although every cleanup call did its work. */
  lemma OverlappingRegistrationsOrphan()
    ensures var s := Exec(Init(), FIRST + SECOND + CLEANUP);
            s.reqs == map[] && KEY in s.reg.records && 2 in s.reg.records[KEY].versions && s.reg.mlflow == map[] && !Mirror(s.reg)
  {
    FirstRuns();
    var s := Exec(Init(), FIRST);
    SecondRuns(s);
    var s1 := Exec(s, SECOND);
    var s2 := s1.(reqs := map[1 := Undoing(KEY, 1, true)]);
    assert Apply(s1, Call(1, Refused)) == s2;
    var t := OnUndoing(s2.reg, Undoing(KEY, 1, true), Reached);
    var s3 := Sys(t.reg, map[1 := Dropping(KEY)]);
    assert Apply(s2, Call(1, Reached)) == s3;
    Exec3(s1, Call(1, Refused), Call(1, Reached), Call(1, Reached));
    ExecConcat(Init(), FIRST, SECOND);
    ExecConcat(Init(), FIRST + SECOND, CLEANUP);
    var end := Exec(s1, CLEANUP);
    assert end.reg.records == s1.reg.records && end.reg.mlflow == map[];
    assert !Linked(end.reg, KEY, {});
  }
}
