/** The main theorem: a program and its compiled image behave alike, whether they finish, fault or run
    forever. */
module Behaviour {
  import opened Int32
  import opened Syntax
  import opened Semantics
  import opened Machine
  import opened Codegen
  import opened Layout
  import opened Simulation
  import opened Instructions
  import opened Addressing
  import opened Frames
  import opened Correctness
  import opened Linking

  // ---- placement ----

  lemma {:induction false} RoutinesPlaced(P: Program, img: Image, rs: seq<Routine>, pc: nat, n: nat, k: nat, r: Routine)
    returns (pc': nat, n': nat, k': nat)
    requires Sits(img.code, pc, GenRoutines(P, rs, n, k)) && TextAt(img, k, RoutineLiterals(rs)) && r in rs
    ensures Placed(P, img, r, pc', n', k')
  {
    var g := GenRoutine(P, rs[0], n, k);
    var rest := GenRoutines(P, rs[1..], n + Labels(rs[0].body), k + |Literals(rs[0].body)|);
    hide GenRoutine, Sits, TextAt, Literals, Labels;
    SitsSplit(img.code, pc, g, rest);
    TextSplit(img, k, Literals(rs[0].body), RoutineLiterals(rs[1..]));
    if r == rs[0] {
      pc', n', k' := pc, n, k;
    } else {
      pc', n', k' := RoutinesPlaced(P, img, rs[1..], pc + |g|, n + Labels(rs[0].body), k + |Literals(rs[0].body)|, r);
    }
  }

  lemma ProgramPlaced(P: Program)
    ensures var img := Compile(P);
            && Sits(img.code, 0, GenRoutines(P, P.routines, 0, 0)) && TextAt(img, 0, RoutineLiterals(P.routines))
            && Sits(img.code, MainAt(P), MainCode(P)) && TextAt(img, |RoutineLiterals(P.routines)|, Literals(P.main))
  {
    var img := Compile(P);
    var g, m := GenRoutines(P, P.routines, 0, 0), MainCode(P);
    hide GenRoutines, GenMain, RoutineLiterals, Literals;
    assert img.code == g + m;
    assert Sits(img.code, 0, g + m);
    SitsSplit(img.code, 0, g, m);
    assert TextAt(img, 0, RoutineLiterals(P.routines) + Literals(P.main));
    TextSplit(img, 0, RoutineLiterals(P.routines), Literals(P.main));
  }

  function MainAt(P: Program): nat { |GenRoutines(P, P.routines, 0, 0)| }

  function MainCode(P: Program): seq<Instr> {
    GenMain(P, RoutineLabels(P.routines), |RoutineLiterals(P.routines)|)
  }

  /** The emitted program is linked: distinct labels, every routine in place with its literals. */
  lemma CompiledLinked(P: Program)
    requires ProgramOk(P)
    ensures Linked(P, Compile(P))
  {
    var img := Compile(P);
    AllLabelsDistinct(P);
    ProgramPlaced(P);
    assert img.gaddr == GlobalAddrs(P.globals, 0);
    hide Compile, DistinctLabels, ProgramOk, Sits, TextAt, GenRoutines, RoutineLiterals, GlobalAddrs;
    forall r | r in P.routines
      ensures exists pc, n, k :: Placed(P, img, r, pc, n, k)
    {
      var pc, n, k := RoutinesPlaced(P, img, P.routines, 0, 0, 0, r);
    }
  }

  // ---- the initial state ----

  /** `.bss` is zero. */
  function ZeroMem(P: Program): Mem {
    map i | 0 <= i < CellSum(P.globals) :: 4 * i := I(0)
  }

  /** The runtime has called `pas_main`. */
  function Start(P: Program): State {
    State(Find(Compile(P).code, LMain, 0), Junk, Junk, Junk, A(-4), Junk, (0, 0), ZeroMem(P)[-4 := C(HALT)], [],
      Running)
  }

  lemma {:induction false} GlobalSpan(gs: seq<VarDecl>, at: nat, x: string)
    requires at % 4 == 0 && FindVar(gs, x).Some?
    ensures x in GlobalAddrs(gs, at)
    ensures GlobalAddrs(gs, at)[x] + 4 * Cells(FindVar(gs, x).value) <= at + 4 * CellSum(gs)
    ensures at <= GlobalAddrs(gs, at)[x] && GlobalAddrs(gs, at)[x] % 4 == 0
  {
    if gs[0].name != x { GlobalSpan(gs[1..], at + 4 * Cells(gs[0].shape), x); }
  }

  predicate GlobNamesApart(gs: seq<VarDecl>) {
    forall i, j :: 0 <= i < j < |gs| ==> gs[i].name != gs[j].name
  }

  lemma {:induction false} ZeroStoreAt(gs: seq<VarDecl>, l: Loc)
    requires l in ZeroStore(gs) && GlobNamesApart(gs)
    ensures l.Glob? && FindVar(gs, l.x).Some? && 0 <= l.i < Cells(FindVar(gs, l.x).value)
    ensures Enc(ZeroStore(gs)[l]) == 0 && ValOk(ZeroStore(gs)[l])
  {
    if l in ZeroCells(gs[0].name, gs[0].shape) {
    } else {
      ZeroStoreAt(gs[1..], l);
      if gs[0].name == l.x {
        FindVarName(gs[1..], l.x);
      }
    }
  }

  lemma {:induction false} FindVarName(gs: seq<VarDecl>, x: string)
    requires FindVar(gs, x).Some?
    ensures exists i :: 0 <= i < |gs| && gs[i].name == x
  {
    if gs[0].name != x {
      FindVarName(gs[1..], x);
      var i :| 0 <= i < |gs[1..]| && gs[1..][i].name == x;
      assert gs[i + 1].name == x;
    }
  }

  function MainCtx(P: Program): Ctx { Ctx(P, Compile(P), [], Main) }

  function Initial(P: Program): St { St(ZeroStore(P.globals), []) }

  lemma InitialMem(P: Program, m: Mem)
    requires ProgramOk(P)
    requires forall a :: a in ZeroMem(P) ==> a in m && m[a] == ZeroMem(P)[a]
    ensures MemOk(P, [], ZeroStore(P.globals), m)
  {
    hide ProgramOk, CellSum, FindVar, Cells, ValOk, Enc, ZeroStore, ZeroMem, Valid, Addr;
    forall l | l in ZeroStore(P.globals)
      ensures Valid(P, [], l) && ValOk(ZeroStore(P.globals)[l])
      ensures Addr(P, [], l) in m && m[Addr(P, [], l)] == I(Enc(ZeroStore(P.globals)[l]))
    {
      InitialCell(P, l);
    }
  }

  lemma InitialCell(P: Program, l: Loc)
    requires ProgramOk(P) && l in ZeroStore(P.globals)
    ensures Valid(P, [], l) && ValOk(ZeroStore(P.globals)[l]) && Enc(ZeroStore(P.globals)[l]) == 0
    ensures Addr(P, [], l) in ZeroMem(P) && ZeroMem(P)[Addr(P, [], l)] == I(0)
  {
    hide CellSum, FindVar, Cells, ValOk, Enc, ZeroStore, StmtOk, DeclsOk, ShapeOk;
    assert GlobNamesApart(P.globals);
    ZeroStoreAt(P.globals, l);
    GlobalSpan(P.globals, 0, l.x);
    var a := Addr(P, [], l);
    assert 0 <= a / 4 < CellSum(P.globals) && a == 4 * (a / 4);
    assert 4 * (a / 4) in ZeroMem(P);
  }

  lemma StartExec(img: Image, s: State, pc: nat, rest: seq<Instr>)
    requires Sits(img.code, pc, [Lbl(LMain)] + (Prologue(0) + rest)) && s.pc == pc && s.status == Running
    requires s.esp == A(-4)
    ensures Run(img, s, 3) == s.(pc := pc + 3, esp := A(-8), ebp := A(-8), mem := s.mem[-8 := s.ebp])
  {
    hide Sits, Run;
    var code := [Lbl(LMain)] + (Prologue(0) + rest);
    Steps3(img, s, pc, code, 0);
  }

  /** Up to the main block's first statement. */
  lemma {:induction false} StartRuns(P: Program) returns (s: State)
    requires ProgramOk(P)
    ensures CtxOk(MainCtx(P)) && Run(Compile(P), Start(P), 3) == s && Sim(MainCtx(P), Initial(P), s)
    ensures s.pc == MainAt(P) + 3 && s.esp == A(-8) && s.mem == ZeroMem(P)[-4 := C(HALT)][-8 := Junk]
  {
    var img := Compile(P);
    CompiledLinked(P);
    ProgramPlaced(P);
    var body := GenS(P, None, P.main, RoutineLabels(P.routines), |RoutineLiterals(P.routines)|);
    assert MainCode(P) == [Lbl(LMain)] + (Prologue(0) + (body + [Leave, Ret]));
    hide ProgramOk, Linked, Compile, ZeroMem, Sits, Run, GenS, ZeroStore, MainCode, MainAt, Prologue;
    LMainAt(P, img);
    StartExec(img, Start(P), MainAt(P), body + [Leave, Ret]);
    s := Run(img, Start(P), 3);
    InitialMem(P, s.mem);
  }

  lemma LMainAt(P: Program, img: Image)
    requires Linked(P, img) && Sits(img.code, MainAt(P), MainCode(P))
    ensures Find(img.code, LMain, 0) == MainAt(P)
  {
    hide Placed, GenRoutines, GenS, Sits, GlobalAddrs, DistinctLabels;
    SitsAt(img.code, MainAt(P), MainCode(P), 0);
    FindAt(img.code, LMain, MainAt(P));
  }

  lemma EndExec(img: Image, s: State)
    requires Sits(img.code, s.pc, [Leave, Ret]) && s.status == Running && s.ebp == A(-8)
    requires -8 in s.mem && -4 in s.mem && s.mem[-4] == C(HALT)
    ensures var s' := Run(img, s, 2); s'.status == Halted && s'.out == s.out && s'.mem == s.mem
  {
    hide Sits, Run;
    Steps2(img, s, s.pc, [Leave, Ret], 0);
  }

  lemma MainKept(P: Program, m: Mem, m': Mem)
    requires Kept(P, [], m, m', -8) && -8 in m && -4 in m
    ensures -8 in m' && -4 in m' && m'[-4] == m[-4]
  {
    forall a | a < 0
      ensures !IsData(P, [], a)
    {
      NotData0(P, a);
    }
  }

  lemma NotData0(P: Program, a: int)
    requires a < 0
    ensures !IsData(P, [], a)
  {
    forall l: Loc | Valid(P, [], l)
      ensures Addr(P, [], l) != a
    {
      GlobBounds(P, [], l.x, l.i);
    }
  }

  // ---- the theorem ----

  /** The final memory holds the final value of every global cell. */
  ghost predicate Holds(P: Program, store: Store, m: Mem) {
    MemOk(P, [], store, m)
  }

  /** For every program within the stated conditions and every fuel, the machine follows the source:
      a finished run halts with the same output and globals, a fault faults with the same output, and
      a run still going after `fuel` loop turns or nested calls has made at least that many steps. */
  lemma CompilerCorrect(P: Program, fuel: nat) returns (n: nat)
    requires ProgramOk(P)
    ensures var s := Run(Compile(P), Start(P), n);
            match EvalProgram(P, fuel)
            case Ok(_, st) => s.status == Halted && s.out == st.out && Holds(P, st.store, s.mem)
            case Fault(out) => s.status == DivFault && s.out == out
            case Timeout(out) => n >= fuel && s.status == Running && s.out == out
            case _ => true
  {
    hide ProgramOk, Compile, Start, EvalS, GenS, Sits, Run, Sim, Follows, CtxOk, MemOk, ZeroMem, StmtOk, TextAt,
      Literals, Initial, Kept, Prologue, Exec;
    var c := MainCtx(P);
    var s0 := StartRuns(P);
    var nl, kl := RoutineLabels(P.routines), |RoutineLiterals(P.routines)|;
    MainParts(P);
    var n1, s1 := StmtRuns(c, fuel, Initial(P), s0, P.main, nl, kl);
    n := 3 + n1;
    Chain(c.img, Start(P), 3, s0, n1, s1);
    ProgramIs(P, fuel);
    var r := EvalProgram(P, fuel);
    if r.Ok? {
      EndRuns(P, s0, r.st, s1, |GenS(P, None, P.main, nl, kl)|);
      Chain(c.img, Start(P), n, s1, 2, Run(c.img, s1, 2));
      n := n + 2;
    }
  }

  lemma ProgramIs(P: Program, fuel: nat)
    ensures EvalProgram(P, fuel) == EvalS(P, fuel, Main, Initial(P), P.main)
  {
  }

  lemma MainParts(P: Program)
    requires ProgramOk(P)
    ensures var nl, kl := RoutineLabels(P.routines), |RoutineLiterals(P.routines)|;
            var img := Compile(P);
            && StmtOk(P, None, P.main) && TextAt(img, kl, Literals(P.main))
            && Sits(img.code, MainAt(P) + 3, GenS(P, None, P.main, nl, kl))
            && Sits(img.code, MainAt(P) + 3 + |GenS(P, None, P.main, nl, kl)|, [Leave, Ret])
  {
    hide Sits, GenS, Compile, TextAt, Literals, StmtOk, RoutineLabels, RoutineLiterals, GenRoutines, GlobalsOk, DeclsOk;
    var img := Compile(P);
    var body := GenS(P, None, P.main, RoutineLabels(P.routines), |RoutineLiterals(P.routines)|);
    assert StmtOk(P, None, P.main);
    assert MainCode(P) == ([Lbl(LMain)] + Prologue(0)) + (body + [Leave, Ret]);
    assert |[Lbl(LMain)] + Prologue(0)| == 3;
    ProgramPlaced(P);
    SitsSplit(img.code, MainAt(P), [Lbl(LMain)] + Prologue(0), body + [Leave, Ret]);
    SitsSplit(img.code, MainAt(P) + 3, body, [Leave, Ret]);
  }

  lemma EndRuns(P: Program, s0: State, st: St, s1: State, len: int)
    requires Follows(MainCtx(P), s0, st, s1, len) && s0.esp == A(-8) && s0.mem == ZeroMem(P)[-4 := C(HALT)][-8 := Junk]
    requires Sits(Compile(P).code, s0.pc + len, [Leave, Ret])
    ensures var s := Run(Compile(P), s1, 2); s.status == Halted && s.out == st.out && Holds(P, st.store, s.mem)
  {
    hide Compile, Sits, Run, ZeroMem, Kept, MemOk;
    MainKept(P, s0.mem, s1.mem);
    EndExec(Compile(P), s1);
  }

  // ---- equivalence ----

  /** The language promises something about every step: no uninitialised read, no index out of bounds,
      no type error, for any fuel. */
  ghost predicate Safe(P: Program) {
    forall fuel: nat :: !EvalProgram(P, fuel).Undef? && !EvalProgram(P, fuel).TypeErr?
  }

  ghost predicate SourceHalts(P: Program, out: seq<Event>) {
    exists fuel: nat :: EvalProgram(P, fuel).Ok? && EvalProgram(P, fuel).st.out == out
  }

  ghost predicate SourceFaults(P: Program, out: seq<Event>) {
    exists fuel: nat :: EvalProgram(P, fuel) == Fault(out)
  }

  ghost predicate SourceDiverges(P: Program) {
    forall fuel: nat :: EvalProgram(P, fuel).Timeout?
  }

  ghost predicate MachineEnds(P: Program, status: Status, out: seq<Event>) {
    exists n: nat :: Run(Compile(P), Start(P), n).status == status && Run(Compile(P), Start(P), n).out == out
  }

  ghost predicate MachineDiverges(P: Program) {
    forall n: nat :: Run(Compile(P), Start(P), n).status == Running
  }

  /** A machine that has stopped has stopped for good, so it stops in at most one way. */
  lemma StopsOnce(img: Image, s: State, n: nat, m: nat)
    requires Run(img, s, n).status != Running && Run(img, s, m).status != Running
    ensures Run(img, s, n) == Run(img, s, m)
  {
    if n <= m {
      RunAdd(img, s, n, m - n);
      RunStopped(img, Run(img, s, n), m - n);
    } else {
      RunAdd(img, s, m, n - m);
      RunStopped(img, Run(img, s, m), n - m);
    }
  }

  lemma StoppedLater(img: Image, s: State, n: nat, m: nat)
    requires Run(img, s, n).status != Running && n <= m
    ensures Run(img, s, m) == Run(img, s, n)
  {
    RunAdd(img, s, n, m - n);
    RunStopped(img, Run(img, s, n), m - n);
  }

  /** If the machine stops, the source finishes or faults with the same output. */
  lemma MachineStopMeans(P: Program, n: nat) returns (fuel: nat)
    requires ProgramOk(P) && Safe(P) && Run(Compile(P), Start(P), n).status != Running
    ensures var s := Run(Compile(P), Start(P), n);
            match EvalProgram(P, fuel)
            case Ok(_, st) => s.status == Halted && s.out == st.out
            case Fault(out) => s.status == DivFault && s.out == out
            case _ => false
  {
    hide ProgramOk, Compile, Start, Run, EvalProgram, Holds;
    fuel := n;
    var m := CompilerCorrect(P, n);
    if EvalProgram(P, n).Timeout? {
      StoppedLater(Compile(P), Start(P), n, m);
    } else {
      StopsOnce(Compile(P), Start(P), n, m);
    }
  }

  /** A safe program and its compiled image have the same observable behaviour, in both directions. */
  lemma SameBehaviour(P: Program, out: seq<Event>)
    requires ProgramOk(P) && Safe(P)
    ensures SourceHalts(P, out) <==> MachineEnds(P, Halted, out)
    ensures SourceFaults(P, out) <==> MachineEnds(P, DivFault, out)
    ensures SourceDiverges(P) <==> MachineDiverges(P)
    ensures !MachineEnds(P, Stuck, out)
  {
    hide ProgramOk, Compile, Start, Run, EvalProgram, Holds, Safe;
    if SourceHalts(P, out) {
      var fuel: nat :| EvalProgram(P, fuel).Ok? && EvalProgram(P, fuel).st.out == out;
      var n := CompilerCorrect(P, fuel);
    }
    if SourceFaults(P, out) {
      var fuel: nat :| EvalProgram(P, fuel) == Fault(out);
      var n := CompilerCorrect(P, fuel);
    }
    forall n: nat | Run(Compile(P), Start(P), n).status != Running
      ensures !SourceDiverges(P)
      ensures Run(Compile(P), Start(P), n).status == Halted ==> SourceHalts(P, Run(Compile(P), Start(P), n).out)
      ensures Run(Compile(P), Start(P), n).status == DivFault ==> SourceFaults(P, Run(Compile(P), Start(P), n).out)
      ensures Run(Compile(P), Start(P), n).status != Stuck
    {
      var fuel := MachineStopMeans(P, n);
    }
    if MachineDiverges(P) {
      forall fuel: nat
        ensures EvalProgram(P, fuel).Timeout?
      {
        var n := CompilerCorrect(P, fuel);
        SafeAt(P, fuel);
      }
    }
  }

  lemma SafeAt(P: Program, fuel: nat)
    requires Safe(P)
    ensures !EvalProgram(P, fuel).Undef? && !EvalProgram(P, fuel).TypeErr?
  {
  }
}
