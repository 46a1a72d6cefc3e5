/** A program the checker accepts in which a record passed by reference is not the record: it prints 7 by its
    meaning and 1 on the machine. */
module RefWitness {
  import opened Int32
  import opened Syntax
  import opened Semantics
  import opened Machine
  import opened Codegen
  import opened Simulation
  import opened Linking
  import opened Typecheck
  import opened Behaviour
  import Correctness
  import Desugar

  const PAIR: Elem := Record("pair", [TInt, TInt])

  /** `procedure put(var y: pair); begin y.1 := 7 end` */
  const PUT: Routine := Routine("put", [Param("y", true, PAIR)], None, [], Assign(Field("y", 1), IntLit(7)))

  const PASS: Stmt := CallStmt("put", Cons(Read(Name("r")), Nil))

  const SHOW: Stmt := WriteVal(TInt, Read(Field("r", 1)))

  /** `procedure try; var n: integer; r: pair; begin r.1 := 1; put(r); write(r.1) end` */
  const TRY: Routine := Routine("try", [], None, [VarDecl("n", One(Scalar(TInt))), VarDecl("r", One(PAIR))],
                                Seq(Assign(Field("r", 1), IntLit(1)), Seq(PASS, SHOW)))

  const WITNESS: Program := Program([], [PUT, TRY], CallStmt("try", Nil))

  lemma {:induction false} Names()
    ensures FindRoutine(WITNESS.routines, "put") == Some(PUT) && FindRoutine(WITNESS.routines, "try") == Some(TRY)
    ensures FindDecl(PUT, "y") == Some(Decl(true, One(PAIR))) && FindDecl(TRY, "r") == Some(Decl(false, One(PAIR)))
  {
    assert WITNESS.routines[1..] == [TRY];
    assert TRY.locals[1..] == [VarDecl("r", One(PAIR))];
    assert FindVar(TRY.locals, "r") == FindVar(TRY.locals[1..], "r");
  }

  predicate Pair(e: Elem) { e.Record? && |e.fields| == 2 && e.fields[1] == TInt }

  lemma {:induction false} PassChecks(P: Program, sc: Scope, x: string, q: Routine)
    requires FindRoutine(P.routines, q.name) == Some(q) && |q.params| == 1
    requires ShapeOf(P, sc, x) == Some(One(q.params[0].elem))
    requires q.result.None?
    ensures CheckS(P, sc, CallStmt(q.name, Cons(Read(Name(x)), Nil)))
  {
    hide ShapeOf, FindRoutine;
    assert q.params[1..] == [];
    assert CheckE(P, sc, Read(Name(x))) == Some(q.params[0].elem);
    assert CheckArgs(P, sc, Cons(Read(Name(x)), Nil), q.params);
  }

  lemma {:induction false} FieldChecks(P: Program, sc: Scope, x: string, e: Elem, n: int)
    requires ShapeOf(P, sc, x) == Some(One(e)) && Pair(e)
    ensures CheckS(P, sc, Assign(Field(x, 1), IntLit(n))) && CheckS(P, sc, WriteVal(TInt, Read(Field(x, 1))))
  {
    hide ShapeOf;
    assert CheckE(P, sc, Read(Field(x, 1))) == Some(Scalar(TInt));
  }

  lemma {:induction false} Accepted()
    ensures CheckProgram(WITNESS)
  {
    hide CheckS;
    Names();
    FieldChecks(WITNESS, Some(PUT), "y", PAIR, 7);
    FieldChecks(WITNESS, Some(TRY), "r", PAIR, 1);
    PassChecks(WITNESS, Some(TRY), "r", PUT);
    SeqChecks(WITNESS, Some(TRY), PASS, SHOW);
    SeqChecks(WITNESS, Some(TRY), Assign(Field("r", 1), IntLit(1)), Seq(PASS, SHOW));
    assert CheckRoutine(WITNESS, PUT) && CheckRoutine(WITNESS, TRY);
    assert CheckS(WITNESS, None, WITNESS.main) by { MainChecks(); }
  }

  lemma {:induction false} SeqChecks(P: Program, sc: Scope, s1: Stmt, s2: Stmt)
    requires CheckS(P, sc, s1) && CheckS(P, sc, s2)
    ensures CheckS(P, sc, Seq(s1, s2))
  {
  }

  lemma MainChecks()
    ensures CheckS(WITNESS, None, WITNESS.main)
  {
    Names();
    assert CheckCall(WITNESS, None, "try", Nil) == Some(TRY);
  }

  // ---- its meaning ----

  /** Setting and showing the second field of a pair. */
  lemma {:induction false} SetMeans(P: Program, fuel: nat, env: Env, st: St, x: string, l: Loc, e: Elem, n: int)
    requires Pair(e) && Lookup(P, env, x) == Some(Target(l, One(e))) && IsWord(n)
    ensures EvalS(P, fuel, env, st, Assign(Field(x, 1), IntLit(n)))
            == Ok((), st.(store := st.store[Shift(l, 1) := VI(n)]))
  {
    hide Lookup;
    assert EvalP(P, fuel, env, st, Field(x, 1)) == Ok(Dest(Shift(l, 1), Scalar(TInt)), st);
    assert EvalE(P, fuel, env, st, IntLit(n)) == Ok(VI(n), st);
  }

  lemma {:induction false} ShowMeans(P: Program, fuel: nat, env: Env, st: St, x: string, l: Loc, e: Elem, n: int)
    requires Pair(e) && Lookup(P, env, x) == Some(Target(l, One(e))) && Shift(l, 1) in st.store
    requires st.store[Shift(l, 1)] == VI(n)
    ensures EvalS(P, fuel, env, st, WriteVal(TInt, Read(Field(x, 1)))) == Ok((), Tell(st, EInt(n)))
  {
    hide Lookup;
    assert EvalP(P, fuel, env, st, Field(x, 1)) == Ok(Dest(Shift(l, 1), Scalar(TInt)), st);
    assert EvalE(P, fuel, env, st, Read(Field(x, 1))) == Ok(VI(n), st);
  }

  /** Passing a record by reference binds the parameter to its first cell. */
  lemma {:induction false} PassedRef(P: Program, fuel: nat, env: Env, st: St, x: string, l: Loc, ps: seq<Param>)
    requires |ps| == 1 && ps[0].isVar && Lookup(P, env, x) == Some(Target(l, One(ps[0].elem)))
    ensures EvalArgs(P, fuel, env, st, Cons(Read(Name(x)), Nil), ps) == Ok([Ref(l)], st)
    ensures BindRefs(ps, [Ref(l)]) == map[ps[0].name := l]
    ensures forall d: nat :: BindVals(st.store, d, ps, [Ref(l)]) == st.store
  {
    hide Lookup;
    assert ps[1..] == [] && [Ref(l)][1..] == [] && [Ref(l)] + [] == [Ref(l)];
    assert EvalP(P, fuel, env, st, Name(x)) == Ok(Dest(l, ps[0].elem), st);
    assert EvalArgs(P, fuel, env, st, Nil, ps[1..]) == Ok([], st);
  }

  /** `q` sets the second field of its one parameter to 7. */
  predicate Puts7(q: Routine) {
    && |q.params| == 1 && q.params[0].isVar && Pair(q.params[0].elem) && q.result.None?
    && q.body == Assign(Field(q.params[0].name, 1), IntLit(7))
  }

  lemma SeesParam(P: Program, d: nat, q: Routine, l: Loc)
    requires Puts7(q)
    ensures Lookup(P, In(d, q, map[q.params[0].name := l]), q.params[0].name) == Some(Target(l, One(q.params[0].elem)))
  {
  }

  /** Calling it from the first level, whatever the program. */
  lemma {:induction false} PassMeans(P: Program, fuel: nat, env: Env, st: St, q: Routine, x: string)
    requires FindRoutine(P.routines, q.name) == Some(q) && Puts7(q) && fuel > 0 && env.In? && env.d == 1
    requires Lookup(P, env, x) == Some(Target(Local(1, x, 0), One(q.params[0].elem)))
    requires forall l :: l in st.store ==> l == Local(1, x, 1)
    ensures EvalS(P, fuel, env, st, CallStmt(q.name, Cons(Read(Name(x)), Nil)))
         == Ok((), st.(store := st.store[Local(1, x, 1) := VI(7)]))
  {
    hide EvalS, EvalCall, EvalArgs, BindRefs, BindVals, Lookup, Pair;
    var args, l, y := Cons(Read(Name(x)), Nil), Local(1, x, 0), q.params[0].name;
    SeesParam(P, 2, q, l);
    StmtCall(P, fuel, env, st, q.name, args);
    CallIs(P, fuel, env, st, q.name, args, q);
    PassedRef(P, fuel, env, st, x, l, q.params);
    SetMeans(P, fuel - 1, In(2, q, map[y := l]), st, y, l, q.params[0].elem, 7);
    var st' := st.(store := st.store[Shift(l, 1) := VI(7)]);
    assert Pop(st'.store, 2) == st'.store;
  }

  /** The body of `try`, whatever the program. */
  lemma {:induction false} TryMeans(P: Program, fuel: nat, env: Env, q: Routine, x: string)
    requires FindRoutine(P.routines, q.name) == Some(q) && Puts7(q) && fuel > 0 && env.In? && env.d == 1
    requires Lookup(P, env, x) == Some(Target(Local(1, x, 0), One(q.params[0].elem)))
    ensures var put, pass := Assign(Field(x, 1), IntLit(1)), CallStmt(q.name, Cons(Read(Name(x)), Nil));
            var show := WriteVal(TInt, Read(Field(x, 1)));
            EvalS(P, fuel, env, St(map[], []), Seq(put, Seq(pass, show)))
              == Ok((), St(map[Local(1, x, 1) := VI(7)], [EInt(7)]))
  {
    hide EvalS, EvalE, EvalP, EvalArgs, Lookup, FindRoutine, Pair;
    var l, e := Local(1, x, 0), q.params[0].elem;
    var put, pass := Assign(Field(x, 1), IntLit(1)), CallStmt(q.name, Cons(Read(Name(x)), Nil));
    var show := WriteVal(TInt, Read(Field(x, 1)));
    var st1, st2 := St(map[Local(1, x, 1) := VI(1)], []), St(map[Local(1, x, 1) := VI(7)], []);
    SetMeans(P, fuel, env, St(map[], []), x, l, e, 1);
    PassMeans(P, fuel, env, st1, q, x);
    assert st1.store[Local(1, x, 1) := VI(7)] == st2.store;
    ShowMeans(P, fuel, env, st2, x, l, e, 7);
    Desugar.SeqParts(P, fuel, env, St(map[], []), put, Seq(pass, show));
    Desugar.SeqParts(P, fuel, env, st1, pass, show);
  }

  lemma SeesRecord()
    ensures Lookup(WITNESS, In(1, TRY, map[]), "r") == Some(Target(Local(1, "r", 0), One(PAIR)))
  {
    Names();
  }

  lemma WitnessMeans()
    ensures EvalProgram(WITNESS, 2) == Ok((), St(map[], [EInt(7)]))
  {
    hide EvalS, EvalE, EvalP, Lookup, FindRoutine;
    Names();
    var st, st' := St(map[], []), St(map[Local(1, "r", 1) := VI(7)], [EInt(7)]);
    SeesRecord();
    TryMeans(WITNESS, 1, In(1, TRY, map[]), PUT, "r");
    CallIs(WITNESS, 2, Main, st, "try", Nil, TRY);
    assert Entered(st, 1, TRY, []) == st && BindRefs(TRY.params, []) == map[];
    assert Pop(st'.store, 1) == map[];
    StmtCall(WITNESS, 2, Main, st, "try", Nil);
    assert ZeroStore([]) == map[];
  }

  lemma StmtCall(P: Program, fuel: nat, env: Env, st: St, f: string, args: Exprs)
    ensures var r := EvalCall(P, fuel, env, st, f, args);
            EvalS(P, fuel, env, st, CallStmt(f, args)) == if r.Ok? then Ok((), r.st) else r.PropagateFailure<()>()
  {
    hide EvalCall;
  }

  // ---- its image ----

  const PUT_CODE: seq<Instr> :=
    [Lbl(LProc("put")), Push(EBP), MovRR(EBP, ESP), Load(EAX, EBP, 8), OpI(AAdd, EAX, 4), Push(EAX), MovI(EAX, I(7)),
     Pull(EDX), Save(EDX, 0, EAX), Leave, Ret]

  const TRY_CODE: seq<Instr> :=
    [Lbl(LProc("try")), Push(EBP), MovRR(EBP, ESP), OpI(ASub, ESP, 12), Lea(EAX, -8), OpI(ASub, EAX, 4), Push(EAX),
     MovI(EAX, I(1)), Pull(EDX), Save(EDX, 0, EAX), Lea(EAX, -8), Push(EAX), CallP("put"), OpI(AAdd, ESP, 4),
     Lea(EAX, -8), OpI(ASub, EAX, 4), Load(EAX, EAX, 0), CallH(PutInt), Leave, Ret]

  const MAIN_CODE: seq<Instr> := [Lbl(LMain), Push(EBP), MovRR(EBP, ESP), CallP("try"), Leave, Ret]

  lemma {:induction false} Offsets()
    ensures Resolve(Some(PUT), "y") == Some(Ent(VarParam, 8, One(PAIR)))
    ensures Resolve(Some(TRY), "r") == Some(Ent(OwnSlot, -8, One(PAIR)))
    ensures FrameSlots(PUT) == 0 && FrameSlots(TRY) == 3
  {
    assert TRY.locals[1..] == [VarDecl("r", One(PAIR))] && TRY.locals[1..][1..] == [];
    assert LocalEnt(TRY.locals, 0, "r") == LocalEnt(TRY.locals[1..], 1, "r");
    assert CellSum(TRY.locals[1..]) == 2;
  }

  lemma {:induction false} PutCode()
    ensures GenRoutine(WITNESS, PUT, 0, 0) == PUT_CODE
  {
    Offsets();
    assert GenAddr(WITNESS, Some(PUT), Field("y", 1)) == [Load(EAX, EBP, 8), OpI(AAdd, EAX, 4)];
    assert GenE(WITNESS, Some(PUT), IntLit(7)) == [MovI(EAX, I(7))];
    hide GenAddr, GenE;
    assert GenS(WITNESS, Some(PUT), PUT.body, 0, 0)
        == [Load(EAX, EBP, 8), OpI(AAdd, EAX, 4), Push(EAX), MovI(EAX, I(7)), Pull(EDX), Save(EDX, 0, EAX)];
  }

  lemma {:induction false} TryParts()
    ensures GenS(WITNESS, Some(TRY), Assign(Field("r", 1), IntLit(1)), 0, 0)
         == [Lea(EAX, -8), OpI(ASub, EAX, 4), Push(EAX), MovI(EAX, I(1)), Pull(EDX), Save(EDX, 0, EAX)]
    ensures GenS(WITNESS, Some(TRY), PASS, 0, 0) == [Lea(EAX, -8), Push(EAX), CallP("put"), OpI(AAdd, ESP, 4)]
    ensures GenS(WITNESS, Some(TRY), SHOW, 0, 0) == [Lea(EAX, -8), OpI(ASub, EAX, 4), Load(EAX, EAX, 0), CallH(PutInt)]
  {
    Names();
    Offsets();
    assert GenAddr(WITNESS, Some(TRY), Field("r", 1)) == [Lea(EAX, -8), OpI(ASub, EAX, 4)];
    assert GenE(WITNESS, Some(TRY), IntLit(1)) == [MovI(EAX, I(1))];
    assert GenE(WITNESS, Some(TRY), Read(Field("r", 1))) == [Lea(EAX, -8), OpI(ASub, EAX, 4), Load(EAX, EAX, 0)];
    assert PUT.params[1..] == [];
    assert GenArgs(WITNESS, Some(TRY), Nil, PUT.params[1..]) == [];
    assert GenArg(WITNESS, Some(TRY), Read(Name("r")), PUT.params[0]) == [Lea(EAX, -8)];
    assert GenArgs(WITNESS, Some(TRY), Cons(Read(Name("r")), Nil), PUT.params) == [Lea(EAX, -8), Push(EAX)];
  }

  lemma {:induction false} TryCode()
    ensures GenRoutine(WITNESS, TRY, 0, 0) == TRY_CODE
  {
    hide GenS, Resolve, FrameSlots;
    Offsets();
    TryParts();
    GenSeqIs(WITNESS, Some(TRY), PASS, SHOW, 0, 0);
    GenSeqIs(WITNESS, Some(TRY), Assign(Field("r", 1), IntLit(1)), Seq(PASS, SHOW), 0, 0);
  }

  lemma {:induction false} MainCodeIs()
    ensures GenMain(WITNESS, 0, 0) == MAIN_CODE
  {
    Names();
    assert GenArgs(WITNESS, None, Nil, TRY.params) == [];
    assert GenCall(WITNESS, None, "try", Nil) == [CallP("try")];
  }

  lemma {:induction false} CodeIs()
    ensures Compile(WITNESS).code == PUT_CODE + TRY_CODE + MAIN_CODE
  {
    hide GenRoutine, GenMain, GenS, GenRoutines;
    PutCode();
    TryCode();
    MainCodeIs();
    TwoRoutines(WITNESS, PUT, TRY);
  }

  /** A program of two routines without labels and literals. */
  lemma {:induction false} TwoRoutines(P: Program, q: Routine, r: Routine)
    requires P.routines == [q, r] && Labels(q.body) == Labels(r.body) == 0 && Literals(q.body) == Literals(r.body) == []
    ensures Compile(P).code == GenRoutine(P, q, 0, 0) + GenRoutine(P, r, 0, 0) + GenMain(P, 0, 0)
  {
    hide GenRoutine, GenMain, GenS, GenRoutines, Labels, Literals;
    var rs := P.routines;
    assert rs[1..] == [r] && rs[1..][1..] == [];
    GenRoutinesIs(P, rs, 0, 0);
    GenRoutinesIs(P, rs[1..], 0, 0);
    NoRoutines(P, 0, 0);
  }

  // ---- its run ----

  const CODE: seq<Instr> := PUT_CODE + TRY_CODE + MAIN_CODE

  lemma Targets()
    ensures Find(Compile(WITNESS).code, LProc("put"), 0) == 0 && Find(Compile(WITNESS).code, LProc("try"), 0) == 11
    ensures Find(Compile(WITNESS).code, LMain, 0) == 31
    ensures |Compile(WITNESS).code| == 37
  {
    hide Compile;
    CodeIs();
    assert CODE[0] == Lbl(LProc("put")) && CODE[11] == Lbl(LProc("try")) && CODE[31] == Lbl(LMain);
    forall i, j | 0 <= i < j < |CODE| && CODE[i].Lbl? && CODE[j].Lbl?
      ensures CODE[i].l != CODE[j].l
    {
      OnlyLabels(i);
      OnlyLabels(j);
    }
    FindAt(Compile(WITNESS).code, LProc("put"), 0);
    FindAt(Compile(WITNESS).code, LProc("try"), 11);
    FindAt(Compile(WITNESS).code, LMain, 31);
  }

  lemma OnlyLabels(i: nat)
    requires i < |CODE| && CODE[i].Lbl?
    ensures i == 0 || i == 11 || i == 31
  {
  }

  predicate Has(img: Image, k: int, i: Instr) { 0 <= k < |img.code| && img.code[k] == i }

  // One of `n + 1` steps, for each instruction the program uses.

  lemma {:induction false} Unroll(img: Image, s: State, i: Instr, n: nat)
    requires Has(img, s.pc, i) && s.status == Running
    ensures Run(img, s, n + 1) == Run(img, Exec(img, i, s), n)
  {
    hide Exec;
  }

  lemma {:induction false} DoLabel(img: Image, s: State, l: Label, n: nat)
    requires Has(img, s.pc, Lbl(l)) && s.status == Running
    ensures Run(img, s, n + 1) == Run(img, s.(pc := s.pc + 1), n)
  {
    hide Run, Find, RunHelper, RunIdiv, AluI, UntilNul, RunAL;
    Unroll(img, s, Lbl(l), n);
  }

  lemma {:induction false} DoPush(img: Image, s: State, r: Reg, n: nat)
    requires Has(img, s.pc, Push(r)) && s.status == Running && s.esp.A? && s.esp.a % 4 == 0
    ensures Run(img, s, n + 1) == Run(img,
            s.(pc := s.pc + 1, esp := A(s.esp.a - 4), mem := s.mem[s.esp.a - 4 := Get(s, r)]), n)
  {
    hide Run, Find, RunHelper, RunIdiv, AluI, UntilNul, RunAL;
    Unroll(img, s, Push(r), n);
  }

  lemma {:induction false} DoFrame(img: Image, s: State, n: nat)
    requires Has(img, s.pc, MovRR(EBP, ESP)) && s.status == Running
    ensures Run(img, s, n + 1) == Run(img, s.(pc := s.pc + 1, ebp := s.esp), n)
  {
    hide Run, Find, RunHelper, RunIdiv, AluI, UntilNul, RunAL;
    Unroll(img, s, MovRR(EBP, ESP), n);
  }

  lemma {:induction false} DoOffset(img: Image, s: State, o: Alu, r: Reg, k: int, n: nat)
    requires Has(img, s.pc, OpI(o, r, k)) && s.status == Running && Get(s, r).A? && (o.AAdd? || o.ASub?)
    ensures Run(img, s, n + 1) == Run(img, WithReg(s.(pc := s.pc + 1), r, A(Get(s, r).a + if o.AAdd? then k else -k)),
            n)
  {
    hide Run, Find, RunHelper, RunIdiv, AluI, UntilNul, RunAL;
    Unroll(img, s, OpI(o, r, k), n);
  }

  lemma {:induction false} DoLea(img: Image, s: State, off: int, n: nat)
    requires Has(img, s.pc, Lea(EAX, off)) && s.status == Running && s.ebp.A?
    ensures Run(img, s, n + 1) == Run(img, s.(pc := s.pc + 1, eax := A(s.ebp.a + off)), n)
  {
    hide Run, Find, RunHelper, RunIdiv, AluI, UntilNul, RunAL;
    Unroll(img, s, Lea(EAX, off), n);
  }

  lemma {:induction false} DoMov(img: Image, s: State, i: int, n: nat)
    requires Has(img, s.pc, MovI(EAX, I(i))) && s.status == Running && IsWord(i)
    ensures Run(img, s, n + 1) == Run(img, s.(pc := s.pc + 1, eax := I(i)), n)
  {
    hide Run, Find, RunHelper, RunIdiv, AluI, UntilNul, RunAL;
    Unroll(img, s, MovI(EAX, I(i)), n);
  }

  lemma {:induction false} DoPop(img: Image, s: State, n: nat)
    requires Has(img, s.pc, Pull(EDX)) && s.status == Running && s.esp.A? && s.esp.a % 4 == 0 && s.esp.a in s.mem
    ensures Run(img, s, n + 1) == Run(img, s.(pc := s.pc + 1, esp := A(s.esp.a + 4), edx := s.mem[s.esp.a]), n)
  {
    hide Run, Find, RunHelper, RunIdiv, AluI, UntilNul, RunAL;
    Unroll(img, s, Pull(EDX), n);
  }

  lemma {:induction false} DoSave(img: Image, s: State, n: nat)
    requires Has(img, s.pc, Save(EDX, 0, EAX)) && s.status == Running && s.edx.A? && s.edx.a % 4 == 0
    ensures Run(img, s, n + 1) == Run(img, s.(pc := s.pc + 1, mem := s.mem[s.edx.a := s.eax]), n)
  {
    hide Run, Find, RunHelper, RunIdiv, AluI, UntilNul, RunAL;
    Unroll(img, s, Save(EDX, 0, EAX), n);
  }

  lemma {:induction false} DoLoad(img: Image, s: State, r: Reg, off: int, n: nat)
    requires Has(img, s.pc, Load(EAX, r, off)) && s.status == Running && Get(s, r).A? && (Get(s, r).a + off) % 4 == 0
    requires Get(s, r).a + off in s.mem
    ensures Run(img, s, n + 1) == Run(img, s.(pc := s.pc + 1, eax := s.mem[Get(s, r).a + off]), n)
  {
    hide Run, Find, RunHelper, RunIdiv, AluI, UntilNul, RunAL;
    Unroll(img, s, Load(EAX, r, off), n);
  }

  lemma {:induction false} DoCall(img: Image, s: State, f: string, k: nat, n: nat)
    requires Has(img, s.pc, CallP(f)) && s.status == Running && s.esp.A? && s.esp.a % 4 == 0
    requires Find(img.code, LProc(f), 0) == k && k < |img.code|
    ensures Run(img, s, n + 1) == Run(img,
            s.(pc := k, esp := A(s.esp.a - 4), mem := s.mem[s.esp.a - 4 := C(s.pc + 1)]), n)
  {
    hide Run, Find, RunHelper, RunIdiv, AluI, UntilNul, RunAL;
    Unroll(img, s, CallP(f), n);
  }

  lemma {:induction false} DoPrint(img: Image, s: State, i: int, n: nat)
    requires Has(img, s.pc, CallH(PutInt)) && s.status == Running && s.eax == I(i)
    ensures Run(img, s, n + 1) == Run(img,
            s.(pc := s.pc + 1, out := s.out + [EInt(i)], eax := Junk, ecx := Junk, edx := Junk), n)
  {
    hide Run, Find, RunIdiv, AluI, UntilNul, RunAL;
    Unroll(img, s, CallH(PutInt), n);
  }

  lemma {:induction false} DoLeave(img: Image, s: State, n: nat)
    requires Has(img, s.pc, Leave) && s.status == Running && s.ebp.A? && s.ebp.a % 4 == 0 && s.ebp.a in s.mem
    ensures Run(img, s, n + 1) == Run(img, s.(pc := s.pc + 1, esp := A(s.ebp.a + 4), ebp := s.mem[s.ebp.a]), n)
  {
    hide Run, Find, RunHelper, RunIdiv, AluI, UntilNul, RunAL;
    Unroll(img, s, Leave, n);
  }

  lemma {:induction false} DoRet(img: Image, s: State, k: int, n: nat)
    requires Has(img, s.pc, Ret) && s.status == Running && s.esp.A? && s.esp.a % 4 == 0 && s.esp.a in s.mem
    requires s.mem[s.esp.a] == C(k)
    ensures Run(img, s, n + 1) == Run(img,
            s.(pc := k, esp := A(s.esp.a + 4), status := if k == HALT then Halted else Running), n)
  {
    hide Run, Find, RunHelper, RunIdiv, AluI, UntilNul, RunAL;
    Unroll(img, s, Ret, n);
  }

  /** `pas_main` calls `try`. */
  lemma {:induction false} EnterMain(img: Image, m: Mem)
    requires Has(img, 31, Lbl(LMain)) && Has(img, 32, Push(EBP)) && Has(img, 33, MovRR(EBP, ESP))
    requires Has(img, 34, CallP("try")) && Find(img.code, LProc("try"), 0) == 11
    requires |img.code| == 37
    ensures Run(img, State(31, Junk, Junk, Junk, A(-4), Junk, (0, 0), m, [], Running), 4)
         == State(11, Junk, Junk, Junk, A(-12), A(-8), (0, 0), m[-8 := Junk][-12 := C(35)], [], Running)
  {
    hide Run, Find, Exec, Has;
    var s0 := State(31, Junk, Junk, Junk, A(-4), Junk, (0, 0), m, [], Running);
    var s1 := State(32, Junk, Junk, Junk, A(-4), Junk, (0, 0), m, [], Running);
    DoLabel(img, s0, LMain, 3);
    var s2 := State(33, Junk, Junk, Junk, A(-8), Junk, (0, 0), m[-8 := Junk], [], Running);
    DoPush(img, s1, EBP, 2);
    var s3 := State(34, Junk, Junk, Junk, A(-8), A(-8), (0, 0), m[-8 := Junk], [], Running);
    DoFrame(img, s2, 1);
    var s4 := State(11, Junk, Junk, Junk, A(-12), A(-8), (0, 0), m[-8 := Junk][-12 := C(35)], [], Running);
    DoCall(img, s3, "try", 11, 0);
    Correctness.RunZero(img, s4);
  }

  /** The frame of `try`: n at -20, r at -24 downward. */
  lemma {:induction false} EnterTry(img: Image, m: Mem)
    requires Has(img, 11, Lbl(LProc("try"))) && Has(img, 12, Push(EBP)) && Has(img, 13, MovRR(EBP, ESP))
    requires Has(img, 14, OpI(ASub, ESP, 12))
    ensures Run(img, State(11, Junk, Junk, Junk, A(-12), A(-8), (0, 0), m, [], Running), 4)
         == State(15, Junk, Junk, Junk, A(-28), A(-16), (0, 0), m[-16 := A(-8)], [], Running)
  {
    hide Run, Find, Exec, Has;
    var s0 := State(11, Junk, Junk, Junk, A(-12), A(-8), (0, 0), m, [], Running);
    var s1 := State(12, Junk, Junk, Junk, A(-12), A(-8), (0, 0), m, [], Running);
    DoLabel(img, s0, LProc("try"), 3);
    var s2 := State(13, Junk, Junk, Junk, A(-16), A(-8), (0, 0), m[-16 := A(-8)], [], Running);
    DoPush(img, s1, EBP, 2);
    var s3 := State(14, Junk, Junk, Junk, A(-16), A(-16), (0, 0), m[-16 := A(-8)], [], Running);
    DoFrame(img, s2, 1);
    var s4 := State(15, Junk, Junk, Junk, A(-28), A(-16), (0, 0), m[-16 := A(-8)], [], Running);
    DoOffset(img, s3, ASub, ESP, 12, 0);
    Correctness.RunZero(img, s4);
  }

  /** `r.1 := 1` in `try` goes to -28. */
  lemma {:induction false} SetOwn(img: Image, m: Mem)
    requires Has(img, 15, Lea(EAX, -8)) && Has(img, 16, OpI(ASub, EAX, 4)) && Has(img, 17, Push(EAX))
    requires Has(img, 18, MovI(EAX, I(1))) && Has(img, 19, Pull(EDX)) && Has(img, 20, Save(EDX, 0, EAX))
    ensures Run(img, State(15, Junk, Junk, Junk, A(-28), A(-16), (0, 0), m, [], Running), 6)
         == State(21, I(1), Junk, A(-28), A(-28), A(-16), (0, 0), m[-32 := A(-28)][-28 := I(1)], [], Running)
  {
    hide Run, Find, Exec, Has;
    var s0 := State(15, Junk, Junk, Junk, A(-28), A(-16), (0, 0), m, [], Running);
    var s1 := State(16, A(-24), Junk, Junk, A(-28), A(-16), (0, 0), m, [], Running);
    DoLea(img, s0, -8, 5);
    var s2 := State(17, A(-28), Junk, Junk, A(-28), A(-16), (0, 0), m, [], Running);
    DoOffset(img, s1, ASub, EAX, 4, 4);
    var s3 := State(18, A(-28), Junk, Junk, A(-32), A(-16), (0, 0), m[-32 := A(-28)], [], Running);
    DoPush(img, s2, EAX, 3);
    var s4 := State(19, I(1), Junk, Junk, A(-32), A(-16), (0, 0), m[-32 := A(-28)], [], Running);
    DoMov(img, s3, 1, 2);
    var s5 := State(20, I(1), Junk, A(-28), A(-28), A(-16), (0, 0), m[-32 := A(-28)], [], Running);
    DoPop(img, s4, 1);
    var s6 := State(21, I(1), Junk, A(-28), A(-28), A(-16), (0, 0), m[-32 := A(-28)][-28 := I(1)], [], Running);
    DoSave(img, s5, 0);
    Correctness.RunZero(img, s6);
  }

  /** `put(r)` passes -24. */
  lemma {:induction false} PassRecord(img: Image, m: Mem)
    requires Has(img, 21, Lea(EAX, -8)) && Has(img, 22, Push(EAX)) && Has(img, 23, CallP("put"))
    requires Find(img.code, LProc("put"), 0) == 0
    requires |img.code| == 37
    ensures Run(img, State(21, I(1), Junk, A(-28), A(-28), A(-16), (0, 0), m, [], Running), 3)
         == State(0, A(-24), Junk, A(-28), A(-36), A(-16), (0, 0), m[-32 := A(-24)][-36 := C(24)], [], Running)
  {
    hide Run, Find, Exec, Has;
    var s0 := State(21, I(1), Junk, A(-28), A(-28), A(-16), (0, 0), m, [], Running);
    var s1 := State(22, A(-24), Junk, A(-28), A(-28), A(-16), (0, 0), m, [], Running);
    DoLea(img, s0, -8, 2);
    var s2 := State(23, A(-24), Junk, A(-28), A(-32), A(-16), (0, 0), m[-32 := A(-24)], [], Running);
    DoPush(img, s1, EAX, 1);
    var s3 := State(0, A(-24), Junk, A(-28), A(-36), A(-16), (0, 0), m[-32 := A(-24)][-36 := C(24)], [], Running);
    DoCall(img, s2, "put", 0, 0);
    Correctness.RunZero(img, s3);
  }

  lemma {:induction false} EnterPut(img: Image, m: Mem)
    requires Has(img, 0, Lbl(LProc("put"))) && Has(img, 1, Push(EBP)) && Has(img, 2, MovRR(EBP, ESP))
    ensures Run(img, State(0, A(-24), Junk, A(-28), A(-36), A(-16), (0, 0), m, [], Running), 3)
         == State(3, A(-24), Junk, A(-28), A(-40), A(-40), (0, 0), m[-40 := A(-16)], [], Running)
  {
    hide Run, Find, Exec, Has;
    var s0 := State(0, A(-24), Junk, A(-28), A(-36), A(-16), (0, 0), m, [], Running);
    var s1 := State(1, A(-24), Junk, A(-28), A(-36), A(-16), (0, 0), m, [], Running);
    DoLabel(img, s0, LProc("put"), 2);
    var s2 := State(2, A(-24), Junk, A(-28), A(-40), A(-16), (0, 0), m[-40 := A(-16)], [], Running);
    DoPush(img, s1, EBP, 1);
    var s3 := State(3, A(-24), Junk, A(-28), A(-40), A(-40), (0, 0), m[-40 := A(-16)], [], Running);
    DoFrame(img, s2, 0);
    Correctness.RunZero(img, s3);
  }

  /** `y.1 := 7` in `put` goes to -20, where n is. */
  lemma {:induction false} SetThrough(img: Image, m: Mem)
    requires Has(img, 3, Load(EAX, EBP, 8)) && Has(img, 4, OpI(AAdd, EAX, 4)) && Has(img, 5, Push(EAX))
    requires Has(img, 6, MovI(EAX, I(7))) && Has(img, 7, Pull(EDX)) && Has(img, 8, Save(EDX, 0, EAX))
    requires -32 in m && m[-32] == A(-24)
    ensures Run(img, State(3, A(-24), Junk, A(-28), A(-40), A(-40), (0, 0), m, [], Running), 6)
         == State(9, I(7), Junk, A(-20), A(-40), A(-40), (0, 0), m[-44 := A(-20)][-20 := I(7)], [], Running)
  {
    hide Run, Find, Exec, Has;
    var s0 := State(3, A(-24), Junk, A(-28), A(-40), A(-40), (0, 0), m, [], Running);
    var s1 := State(4, A(-24), Junk, A(-28), A(-40), A(-40), (0, 0), m, [], Running);
    DoLoad(img, s0, EBP, 8, 5);
    var s2 := State(5, A(-20), Junk, A(-28), A(-40), A(-40), (0, 0), m, [], Running);
    DoOffset(img, s1, AAdd, EAX, 4, 4);
    var s3 := State(6, A(-20), Junk, A(-28), A(-44), A(-40), (0, 0), m[-44 := A(-20)], [], Running);
    DoPush(img, s2, EAX, 3);
    var s4 := State(7, I(7), Junk, A(-28), A(-44), A(-40), (0, 0), m[-44 := A(-20)], [], Running);
    DoMov(img, s3, 7, 2);
    var s5 := State(8, I(7), Junk, A(-20), A(-40), A(-40), (0, 0), m[-44 := A(-20)], [], Running);
    DoPop(img, s4, 1);
    var s6 := State(9, I(7), Junk, A(-20), A(-40), A(-40), (0, 0), m[-44 := A(-20)][-20 := I(7)], [], Running);
    DoSave(img, s5, 0);
    Correctness.RunZero(img, s6);
  }

  lemma {:induction false} LeavePut(img: Image, m: Mem)
    requires Has(img, 9, Leave) && Has(img, 10, Ret)
    requires -40 in m && m[-40] == A(-16) && -36 in m && m[-36] == C(24)
    ensures Run(img, State(9, I(7), Junk, A(-20), A(-40), A(-40), (0, 0), m, [], Running), 2)
         == State(24, I(7), Junk, A(-20), A(-32), A(-16), (0, 0), m, [], Running)
  {
    hide Run, Find, Exec, Has;
    var s0 := State(9, I(7), Junk, A(-20), A(-40), A(-40), (0, 0), m, [], Running);
    var s1 := State(10, I(7), Junk, A(-20), A(-36), A(-16), (0, 0), m, [], Running);
    DoLeave(img, s0, 1);
    var s2 := State(24, I(7), Junk, A(-20), A(-32), A(-16), (0, 0), m, [], Running);
    DoRet(img, s1, 24, 0);
    Correctness.RunZero(img, s2);
  }

  /** `write(r.1)` reads -28. */
  lemma {:induction false} ShowOwn(img: Image, m: Mem)
    requires Has(img, 24, OpI(AAdd, ESP, 4)) && Has(img, 25, Lea(EAX, -8)) && Has(img, 26, OpI(ASub, EAX, 4))
    requires Has(img, 27, Load(EAX, EAX, 0)) && Has(img, 28, CallH(PutInt))
    requires -28 in m && m[-28] == I(1)
    ensures Run(img, State(24, I(7), Junk, A(-20), A(-32), A(-16), (0, 0), m, [], Running), 5)
         == State(29, Junk, Junk, Junk, A(-28), A(-16), (0, 0), m, [EInt(1)], Running)
  {
    hide Run, Find, Exec, Has;
    var s0 := State(24, I(7), Junk, A(-20), A(-32), A(-16), (0, 0), m, [], Running);
    var s1 := State(25, I(7), Junk, A(-20), A(-28), A(-16), (0, 0), m, [], Running);
    DoOffset(img, s0, AAdd, ESP, 4, 4);
    var s2 := State(26, A(-24), Junk, A(-20), A(-28), A(-16), (0, 0), m, [], Running);
    DoLea(img, s1, -8, 3);
    var s3 := State(27, A(-28), Junk, A(-20), A(-28), A(-16), (0, 0), m, [], Running);
    DoOffset(img, s2, ASub, EAX, 4, 2);
    var s4 := State(28, I(1), Junk, A(-20), A(-28), A(-16), (0, 0), m, [], Running);
    DoLoad(img, s3, EAX, 0, 1);
    var s5 := State(29, Junk, Junk, Junk, A(-28), A(-16), (0, 0), m, [EInt(1)], Running);
    assert [] + [EInt(1)] == [EInt(1)];
    DoPrint(img, s4, 1, 0);
    Correctness.RunZero(img, s5);
  }

  lemma {:induction false} LeaveAll(img: Image, m: Mem)
    requires Has(img, 29, Leave) && Has(img, 30, Ret) && Has(img, 35, Leave) && Has(img, 36, Ret)
    requires -16 in m && m[-16] == A(-8) && -12 in m && m[-12] == C(35) && -8 in m && m[-8] == Junk && -4 in m
    requires m[-4] == C(HALT)
    ensures Run(img, State(29, Junk, Junk, Junk, A(-28), A(-16), (0, 0), m, [EInt(1)], Running), 4)
         == State(HALT, Junk, Junk, Junk, A(0), Junk, (0, 0), m, [EInt(1)], Halted)
  {
    hide Run, Find, Exec, Has;
    var s0 := State(29, Junk, Junk, Junk, A(-28), A(-16), (0, 0), m, [EInt(1)], Running);
    var s1 := State(30, Junk, Junk, Junk, A(-12), A(-8), (0, 0), m, [EInt(1)], Running);
    DoLeave(img, s0, 3);
    var s2 := State(35, Junk, Junk, Junk, A(-8), A(-8), (0, 0), m, [EInt(1)], Running);
    DoRet(img, s1, 35, 2);
    var s3 := State(36, Junk, Junk, Junk, A(-4), Junk, (0, 0), m, [EInt(1)], Running);
    DoLeave(img, s2, 1);
    var s4 := State(HALT, Junk, Junk, Junk, A(0), Junk, (0, 0), m, [EInt(1)], Halted);
    DoRet(img, s3, HALT, 0);
    Correctness.RunZero(img, s4);
  }

  lemma {:induction false} EntryPlaced(img: Image)
    requires img.code == PUT_CODE + TRY_CODE + MAIN_CODE
    ensures Has(img, 31, Lbl(LMain)) && Has(img, 32, Push(EBP)) && Has(img, 33, MovRR(EBP, ESP))
    ensures Has(img, 34, CallP("try")) && Has(img, 11, Lbl(LProc("try"))) && Has(img, 12, Push(EBP))
    ensures Has(img, 13, MovRR(EBP, ESP)) && Has(img, 14, OpI(ASub, ESP, 12))
  {
  }

  lemma {:induction false} SetPlaced(img: Image)
    requires img.code == PUT_CODE + TRY_CODE + MAIN_CODE
    ensures Has(img, 15, Lea(EAX, -8)) && Has(img, 16, OpI(ASub, EAX, 4)) && Has(img, 17, Push(EAX))
  {
  }

  lemma {:induction false} ValuePlaced(img: Image)
    requires img.code == PUT_CODE + TRY_CODE + MAIN_CODE
    ensures Has(img, 18, MovI(EAX, I(1))) && Has(img, 19, Pull(EDX)) && Has(img, 20, Save(EDX, 0, EAX))
  {
  }

  lemma {:induction false} PassPlaced(img: Image)
    requires img.code == PUT_CODE + TRY_CODE + MAIN_CODE
    ensures Has(img, 21, Lea(EAX, -8)) && Has(img, 22, Push(EAX)) && Has(img, 23, CallP("put"))
  {
  }

  lemma {:induction false} PutPlaced(img: Image)
    requires img.code == PUT_CODE + TRY_CODE + MAIN_CODE
    ensures Has(img, 0, Lbl(LProc("put"))) && Has(img, 1, Push(EBP)) && Has(img, 2, MovRR(EBP, ESP))
    ensures Has(img, 3, Load(EAX, EBP, 8)) && Has(img, 4, OpI(AAdd, EAX, 4)) && Has(img, 5, Push(EAX))
    ensures Has(img, 6, MovI(EAX, I(7))) && Has(img, 7, Pull(EDX)) && Has(img, 8, Save(EDX, 0, EAX))
    ensures Has(img, 9, Leave) && Has(img, 10, Ret)
  {
  }

  lemma {:induction false} ExitPlaced(img: Image)
    requires img.code == PUT_CODE + TRY_CODE + MAIN_CODE
    ensures Has(img, 24, OpI(AAdd, ESP, 4)) && Has(img, 25, Lea(EAX, -8)) && Has(img, 26, OpI(ASub, EAX, 4))
    ensures Has(img, 27, Load(EAX, EAX, 0)) && Has(img, 28, CallH(PutInt)) && Has(img, 29, Leave) && Has(img, 30, Ret)
    ensures Has(img, 35, Leave) && Has(img, 36, Ret)
  {
  }

  const M0: Mem := map[-4 := C(HALT)]
  const M1: Mem := M0[-8 := Junk][-12 := C(35)][-16 := A(-8)]
  const M2: Mem := M1[-32 := A(-28)][-28 := I(1)][-32 := A(-24)][-36 := C(24)]
  const M3: Mem := M2[-40 := A(-16)][-44 := A(-20)][-20 := I(7)]

  lemma CallsTry(img: Image)
    requires img.code == PUT_CODE + TRY_CODE + MAIN_CODE && Find(img.code, LProc("try"), 0) == 11
    requires |img.code| == 37
    ensures Run(img, State(31, Junk, Junk, Junk, A(-4), Junk, (0, 0), M0, [], Running), 8)
         == State(15, Junk, Junk, Junk, A(-28), A(-16), (0, 0), M1, [], Running)
  {
    hide Run, Find, Has;
    EntryPlaced(img);
    EnterMain(img, M0);
    EnterTry(img, M0[-8 := Junk][-12 := C(35)]);
    var s := State(31, Junk, Junk, Junk, A(-4), Junk, (0, 0), M0, [], Running);
    Chain(img, s, 4, Run(img, s, 4), 4, Run(img, Run(img, s, 4), 4));
  }

  lemma CallsPut(img: Image)
    requires img.code == PUT_CODE + TRY_CODE + MAIN_CODE && Find(img.code, LProc("put"), 0) == 0
    ensures Run(img, State(15, Junk, Junk, Junk, A(-28), A(-16), (0, 0), M1, [], Running), 9)
         == State(0, A(-24), Junk, A(-28), A(-36), A(-16), (0, 0), M2, [], Running)
  {
    hide Run, Find, Has;
    SetPlaced(img);
    ValuePlaced(img);
    PassPlaced(img);
    SetOwn(img, M1);
    PassRecord(img, M1[-32 := A(-28)][-28 := I(1)]);
    var s := State(15, Junk, Junk, Junk, A(-28), A(-16), (0, 0), M1, [], Running);
    Chain(img, s, 6, Run(img, s, 6), 3, Run(img, Run(img, s, 6), 3));
  }

  lemma PutRuns(img: Image)
    requires img.code == PUT_CODE + TRY_CODE + MAIN_CODE
    ensures Run(img, State(0, A(-24), Junk, A(-28), A(-36), A(-16), (0, 0), M2, [], Running), 11)
         == State(24, I(7), Junk, A(-20), A(-32), A(-16), (0, 0), M3, [], Running)
  {
    hide Run, Find, Has;
    PutPlaced(img);
    var s := State(0, A(-24), Junk, A(-28), A(-36), A(-16), (0, 0), M2, [], Running);
    EnterPut(img, M2);
    SetThrough(img, M2[-40 := A(-16)]);
    LeavePut(img, M3);
    Chain(img, s, 3, Run(img, s, 3), 6, Run(img, Run(img, s, 3), 6));
    Chain(img, s, 9, Run(img, s, 9), 2, Run(img, Run(img, s, 9), 2));
  }

  lemma Returns(img: Image)
    requires img.code == PUT_CODE + TRY_CODE + MAIN_CODE
    ensures Run(img, State(24, I(7), Junk, A(-20), A(-32), A(-16), (0, 0), M3, [], Running), 9)
         == State(HALT, Junk, Junk, Junk, A(0), Junk, (0, 0), M3, [EInt(1)], Halted)
  {
    hide Run, Find, Has;
    ExitPlaced(img);
    var s := State(24, I(7), Junk, A(-20), A(-32), A(-16), (0, 0), M3, [], Running);
    ShowOwn(img, M3);
    LeaveAll(img, M3);
    Chain(img, s, 5, Run(img, s, 5), 4, Run(img, Run(img, s, 5), 4));
  }

  lemma WitnessRuns()
    ensures Run(Compile(WITNESS), Start(WITNESS), 37).status == Halted
    ensures Run(Compile(WITNESS), Start(WITNESS), 37).out == [EInt(1)]
  {
    hide Run, Find, Compile;
    CodeIs();
    Targets();
    var img := Compile(WITNESS);
    assert CellSum([]) == 0;
    assert ZeroMem(WITNESS) == map[];
    var s := Start(WITNESS);
    CallsTry(img);
    CallsPut(img);
    PutRuns(img);
    Returns(img);
    Chain(img, s, 8, Run(img, s, 8), 9, Run(img, Run(img, s, 8), 9));
    Chain(img, s, 17, Run(img, s, 17), 11, Run(img, Run(img, s, 17), 11));
    Chain(img, s, 28, Run(img, s, 28), 9, Run(img, Run(img, s, 28), 9));
  }

  /** The checker accepts the program, and its image halts with another output than the program. */
  lemma RecordNotReached()
    ensures CheckProgram(WITNESS)
    ensures EvalProgram(WITNESS, 2).Ok? && EvalProgram(WITNESS, 2).st.out == [EInt(7)]
    ensures MachineEnds(WITNESS, Halted, [EInt(1)])
  {
    hide CheckProgram, Compile, Run, EvalS, WITNESS;
    Accepted();
    WitnessMeans();
    WitnessRuns();
  }
}
