/** What the emitted code never contains: a jump or call without a target, for any program, and the
    generator's internal abort, for a checked one. */
module Emission {
  import opened Syntax
  import opened Machine
  import opened Codegen
  import opened Layout
  import opened Typecheck

  // ---- jump targets ----

  function TargetOf(i: Instr): Option<Label> {
    match i
    case Jz(l) => Some(l)
    case Jmp(l) => Some(l)
    case CallP(f) => Some(LProc(f))
    case _ => None
  }

  /** Straight-line code: its only transfers are calls to routines of the program. */
  predicate Plain(P: Program, i: Instr) {
    TargetOf(i).Some? ==> i.CallP? && FindRoutine(P.routines, i.f).Some?
  }

  predicate Straight(P: Program, c: seq<Instr>) {
    forall i :: i in c ==> Plain(P, i)
  }

  /** Every transfer of `c` goes to a label of `c`, to one in `ls`, or to a routine of the program. */
  predicate Closed(P: Program, c: seq<Instr>, ls: set<Label>) {
    forall i :: i in c ==>
        Plain(P, i) || (TargetOf(i).Some? && (TargetOf(i).value in ls || Lbl(TargetOf(i).value) in c))
  }

  lemma StraightClosed(P: Program, c: seq<Instr>, ls: set<Label>)
    requires Straight(P, c)
    ensures Closed(P, c, ls)
  {
  }

  lemma Adjoin(P: Program, a: seq<Instr>, b: seq<Instr>, ls: set<Label>)
    requires Closed(P, a, ls) && Closed(P, b, ls)
    ensures Closed(P, a + b, ls)
  {
  }

  /** A statement whose own labels stand in its code jumps nowhere else. */
  lemma Seal(P: Program, c: seq<Instr>, ls: set<Label>, ls': set<Label>)
    requires Closed(P, c, ls) && forall l :: l in ls ==> l in ls' || Lbl(l) in c
    ensures Closed(P, c, ls')
  {
  }

  lemma {:induction false} ExprStraight(P: Program, sc: Scope, e: Expr)
    ensures Straight(P, GenE(P, sc, e))
    decreases e, 0
  {
    match e
    case IntLit(_) =>
    case BoolLit(_) =>
    case CharLit(_) =>
    case Read(p) => AddrStraight(P, sc, p);
    case Binop(op, l, r) =>
      ExprStraight(P, sc, l);
      ExprStraight(P, sc, r);
      BinStraight(P, GenE(P, sc, l), GenE(P, sc, r), op);
    case Unop(_, e1) => ExprStraight(P, sc, e1);
    case Call(f, args) => CallStraight(P, sc, f, args);
  }

  lemma BinStraight(P: Program, l: seq<Instr>, r: seq<Instr>, op: BinOp)
    requires Straight(P, l) && Straight(P, r)
    ensures Straight(P, l + ([Push(EAX)] + (r + ([MovRR(ECX, EAX), Pull(EAX)] + Combine(op)))))
  {
  }

  lemma {:induction false} AddrStraight(P: Program, sc: Scope, p: Place)
    ensures Straight(P, GenAddr(P, sc, p))
    decreases p, 0
  {
    match p
    case Name(_) =>
    case Field(_, _) =>
    case At(x, idx) => ElemStraight(P, sc, x, idx);
    case AtField(x, idx, _) => ElemStraight(P, sc, x, idx);
  }

  lemma {:induction false} ElemStraight(P: Program, sc: Scope, x: string, idx: Expr)
    ensures Straight(P, GenElem(P, sc, x, idx))
    decreases idx, 1
  {
    hide GenE;
    ExprStraight(P, sc, idx);
  }

  lemma {:induction false} ArgsStraight(P: Program, sc: Scope, args: Exprs, ps: seq<Param>)
    requires Length(args) == |ps|
    ensures Straight(P, GenArgs(P, sc, args, ps))
    decreases args, 0
  {
    if args.Cons? {
      ArgsStraight(P, sc, args.tl, ps[1..]);
      ExprStraight(P, sc, args.hd);
      if args.hd.Read? { AddrStraight(P, sc, args.hd.p); }
    }
  }

  lemma {:induction false} CallStraight(P: Program, sc: Scope, f: string, args: Exprs)
    ensures Straight(P, GenCall(P, sc, f, args))
    decreases args, 1
  {
    var r := FindRoutine(P.routines, f);
    if r.Some? && Length(args) == |r.value.params| { ArgsStraight(P, sc, args, r.value.params); }
  }

  lemma {:induction false} StmtClosed(P: Program, sc: Scope, s: Stmt, n: nat, k: nat)
    ensures Closed(P, GenS(P, sc, s, n, k), {})
  {
    hide Closed, Straight, GenE, GenAddr, GenCall, GenWrite, Labels, Literals;
    match s
    case Skip => assert Closed(P, [], {}) by { StraightClosed(P, [], {}); }
    case Seq(s1, s2) =>
      StmtClosed(P, sc, s1, n, k);
      StmtClosed(P, sc, s2, n + Labels(s1), k + |Literals(s1)|);
      Adjoin(P, GenS(P, sc, s1, n, k), GenS(P, sc, s2, n + Labels(s1), k + |Literals(s1)|), {});
    case Assign(p, e) => AssignStraight(P, sc, p, e, n, k);
    case CopyField(d, q) => CopyStraight(P, sc, d, q, n, k);
    case If(c, t) =>
      StmtClosed(P, sc, t, n + 1, k);
      IfClosed(P, GenE(P, sc, c), GenS(P, sc, t, n + 1, k), n) by { ExprStraight(P, sc, c); }
    case IfElse(c, t, e) =>
      StmtClosed(P, sc, t, n + 1, k);
      StmtClosed(P, sc, e, n + 1 + Labels(t), k + |Literals(t)|);
      IfElseClosed(P, GenE(P, sc, c), GenS(P, sc, t, n + 1, k), GenS(P, sc, e, n + 1 + Labels(t), k + |Literals(t)|), n)
        by { ExprStraight(P, sc, c); }
    case While(c, b) =>
      StmtClosed(P, sc, b, n + 1, k);
      WhileClosed(P, GenE(P, sc, c), GenS(P, sc, b, n + 1, k), n) by { ExprStraight(P, sc, c); }
    case CallStmt(f, args) =>
      CallStraight(P, sc, f, args);
      StraightClosed(P, GenCall(P, sc, f, args), {});
    case WriteLit(_) => WriteTextClosed(P, k);
    case WriteVal(ty, e) =>
      ExprStraight(P, sc, e);
      WriteClosed(P, GenE(P, sc, e), ty, n);
    case WriteLn => WriteTextClosed(P, k);
  }

  lemma AssignStraight(P: Program, sc: Scope, p: Place, e: Expr, n: nat, k: nat)
    ensures Closed(P, GenS(P, sc, Assign(p, e), n, k), {})
  {
    hide GenE, GenAddr;
    AddrStraight(P, sc, p);
    ExprStraight(P, sc, e);
  }

  lemma CopyStraight(P: Program, sc: Scope, d: Place, q: Place, n: nat, k: nat)
    ensures Closed(P, GenS(P, sc, CopyField(d, q), n, k), {})
  {
    hide GenE, GenAddr;
    AddrStraight(P, sc, d);
    AddrStraight(P, sc, q);
  }

  lemma IfClosed(P: Program, c: seq<Instr>, t: seq<Instr>, n: nat)
    requires Straight(P, c) && Closed(P, t, {})
    ensures Closed(P, c + ([TestEAX, Jz(LEndif(n))] + (t + [Lbl(LEndif(n))])), {})
  {
  }

  lemma IfElseClosed(P: Program, c: seq<Instr>, t: seq<Instr>, e: seq<Instr>, n: nat)
    requires Straight(P, c) && Closed(P, t, {}) && Closed(P, e, {})
    ensures Closed(P, c + ([TestEAX, Jz(LElse(n))] + (t + ([Jmp(LEndif(n)), Lbl(LElse(n))] + (e + [Lbl(LEndif(n))])))),
            {})
  {
    var ls := {LElse(n), LEndif(n)};
    var tail := [Jmp(LEndif(n)), Lbl(LElse(n))] + (e + [Lbl(LEndif(n))]);
    StraightClosed(P, c, ls);
    Seal(P, t, {}, ls);
    Seal(P, e, {}, ls);
    assert Closed(P, tail, ls);
    Adjoin(P, [TestEAX, Jz(LElse(n))], t + tail, ls);
    Adjoin(P, c, [TestEAX, Jz(LElse(n))] + (t + tail), ls);
    Seal(P, c + ([TestEAX, Jz(LElse(n))] + (t + tail)), ls, {});
  }

  lemma WhileClosed(P: Program, c: seq<Instr>, b: seq<Instr>, n: nat)
    requires Straight(P, c) && Closed(P, b, {})
    ensures Closed(P, [Lbl(LWhileTop(n))]
            + (c + ([TestEAX, Jz(LWhileEnd(n))] + (b + [Jmp(LWhileTop(n)), Lbl(LWhileEnd(n))]))), {})
  {
    var ls := {LWhileTop(n), LWhileEnd(n)};
    var tail := [TestEAX, Jz(LWhileEnd(n))] + (b + [Jmp(LWhileTop(n)), Lbl(LWhileEnd(n))]);
    StraightClosed(P, c, ls);
    Seal(P, b, {}, ls);
    assert Closed(P, tail, ls);
    Seal(P, [Lbl(LWhileTop(n))] + (c + tail), ls, {});
  }

  lemma WriteTextClosed(P: Program, k: nat)
    ensures Closed(P, [MovI(EAX, T(k)), CallH(Puts)], {}) && Closed(P, [MovAL(10), CallH(Putc)], {})
  {
  }

  lemma WriteClosed(P: Program, e: seq<Instr>, ty: Ty, n: nat)
    requires Straight(P, e)
    ensures Closed(P, e + GenWrite(ty, n), {})
  {
    var w := GenWrite(ty, n);
    if ty == TBool {
      assert w[4] == Lbl(LBFalse(n)) && w[6] == Lbl(LBDone(n));
      Seal(P, w, {LBFalse(n), LBDone(n)}, {});
    }
    StraightClosed(P, e, {});
    Adjoin(P, e, w, {});
  }

  lemma RoutineClosed(P: Program, r: Routine, n: nat, k: nat)
    ensures Closed(P, GenRoutine(P, r, n, k), {})
  {
    hide GenS, FrameSlots;
    var body := GenS(P, Some(r), r.body, n, k);
    StmtClosed(P, Some(r), r.body, n, k);
    Adjoin(P, body, Epilogue(r), {});
    Adjoin(P, Prologue(FrameSlots(r)), body + Epilogue(r), {});
    Adjoin(P, [Lbl(LProc(r.name))], Prologue(FrameSlots(r)) + (body + Epilogue(r)), {});
  }

  lemma {:induction false} RoutinesClosed(P: Program, rs: seq<Routine>, n: nat, k: nat)
    ensures Closed(P, GenRoutines(P, rs, n, k), {})
  {
    hide GenRoutine, GenRoutines, Closed, Labels, Literals;
    if rs != [] {
      var r := rs[0];
      GenRoutinesIs(P, rs, n, k);
      RoutineClosed(P, r, n, k);
      RoutinesClosed(P, rs[1..], n + Labels(r.body), k + |Literals(r.body)|);
      Adjoin(P, GenRoutine(P, r, n, k), GenRoutines(P, rs[1..], n + Labels(r.body), k + |Literals(r.body)|), {});
    } else {
      NoRoutines(P, n, k);
      StraightClosed(P, [], {});
    }
  }

  lemma {:induction false} RoutineDefined(P: Program, rs: seq<Routine>, n: nat, k: nat, f: string)
    requires FindRoutine(rs, f).Some?
    ensures Lbl(LProc(f)) in GenRoutines(P, rs, n, k)
  {
    if rs[0].name == f {
      assert GenRoutine(P, rs[0], n, k)[0] == Lbl(LProc(f));
    } else {
      RoutineDefined(P, rs[1..], n + Labels(rs[0].body), k + |Literals(rs[0].body)|, f);
    }
  }

  /** The targets meant are those of the three transfers to a label, the globals those of the three instructions
      that name one. */
  lemma OperandsAre(i: Instr, l: Label, x: string)
    ensures TargetOf(i) == Some(l) <==> i == Jz(l) || i == Jmp(l) || exists f :: i == CallP(f) && l == LProc(f)
    ensures GlobalOf(i) == Some(x) <==> i == LoadG(x) || i == StoreG(x) || i == AddrOf(x)
  {
  }

  /** Every jump and every call of every compiled program has its target in the code. */
  lemma JumpsDefined(P: Program, i: nat)
    requires i < |Compile(P).code| && TargetOf(Compile(P).code[i]).Some?
    ensures Lbl(TargetOf(Compile(P).code[i]).value) in Compile(P).code
  {
    var nl, kl := RoutineLabels(P.routines), |RoutineLiterals(P.routines)|;
    var body := GenS(P, None, P.main, nl, kl);
    var code := Compile(P).code;
    hide GenS, GenRoutines;
    RoutinesClosed(P, P.routines, 0, 0);
    StmtClosed(P, None, P.main, nl, kl);
    Adjoin(P, body, [Leave, Ret], {});
    Adjoin(P, Prologue(0), body + [Leave, Ret], {});
    Adjoin(P, [Lbl(LMain)], Prologue(0) + (body + [Leave, Ret]), {});
    Adjoin(P, GenRoutines(P, P.routines, 0, 0), GenMain(P, nl, kl), {});
    assert code[i] in code;
    if Plain(P, code[i]) { RoutineDefined(P, P.routines, 0, 0, code[i].f); }
  }

  // ---- no internal abort, no missing storage ----

  /** The global an instruction refers to. */
  function GlobalOf(i: Instr): Option<string> {
    match i
    case LoadG(x) => Some(x)
    case StoreG(x) => Some(x)
    case AddrOf(x) => Some(x)
    case _ => None
  }

  /** Not the generator's abort, and any global it refers to is declared. */
  predicate Clean(P: Program, i: Instr) {
    i != Ice && (GlobalOf(i).Some? ==> FindVar(P.globals, GlobalOf(i).value).Some?)
  }

  predicate AllClean(P: Program, c: seq<Instr>) { forall i :: i in c ==> Clean(P, i) }

  lemma Cleanly(P: Program, a: seq<Instr>, b: seq<Instr>)
    requires AllClean(P, a) && AllClean(P, b)
    ensures AllClean(P, a + b)
  {
  }

  lemma Cleanly3(P: Program, a: seq<Instr>, b: seq<Instr>, c: seq<Instr>)
    requires AllClean(P, a) && AllClean(P, b) && AllClean(P, c)
    ensures AllClean(P, a + (b + c))
  {
  }

  /** Code for a name that resolves. */
  /** A name that is not the routine's own is a global. */
  lemma ElseGlobal(P: Program, sc: Scope, x: string)
    requires ShapeOf(P, sc, x).Some?
    ensures Resolve(sc, x).None? ==> FindVar(P.globals, x).Some?
  {
    hide Resolve;
    if sc.Some? { EntOf(sc.value, x); }
  }

  lemma {:induction false} NameClean(P: Program, sc: Scope, x: string)
    requires ShapeOf(P, sc, x).Some?
    ensures AllClean(P, GenBase(sc, x)) && AllClean(P, GenReadName(sc, x)) && AllClean(P, GenWriteName(sc, x))
  {
    hide Resolve, ShapeOf, FindVar;
    ElseGlobal(P, sc, x);
  }

  lemma {:induction false} ExprClean(P: Program, sc: Scope, e: Expr)
    requires CheckE(P, sc, e).Some?
    ensures AllClean(P, GenE(P, sc, e))
    decreases e, 0
  {
    hide AllClean, GenReadName;
    match e
    case IntLit(_) => SmallClean(P, GenE(P, sc, e));
    case BoolLit(_) => SmallClean(P, GenE(P, sc, e));
    case CharLit(_) => SmallClean(P, GenE(P, sc, e));
    case Read(p) =>
      if p.Name? {
        NameClean(P, sc, p.x);
      } else {
        AddrClean(P, sc, p);
        SmallClean(P, [Load(EAX, EAX, 0)]);
        Cleanly(P, GenAddr(P, sc, p), [Load(EAX, EAX, 0)]);
      }
    case Binop(op, l, r) =>
      ExprClean(P, sc, l);
      ExprClean(P, sc, r);
      BinClean(P, GenE(P, sc, l), GenE(P, sc, r), op);
    case Unop(op, e1) =>
      ExprClean(P, sc, e1);
      SmallClean(P, GenUn(op));
      Cleanly(P, GenE(P, sc, e1), GenUn(op));
    case Call(f, args) => CallClean(P, sc, f, args);
  }

  /** Instructions that refer to no global. */
  lemma SmallClean(P: Program, c: seq<Instr>)
    requires forall i :: i in c ==> i != Ice && GlobalOf(i).None?
    ensures AllClean(P, c)
  {
  }

  lemma BinClean(P: Program, l: seq<Instr>, r: seq<Instr>, op: BinOp)
    requires AllClean(P, l) && AllClean(P, r)
    ensures AllClean(P, l + ([Push(EAX)] + (r + ([MovRR(ECX, EAX), Pull(EAX)] + Combine(op)))))
  {
  }

  lemma {:induction false} AddrClean(P: Program, sc: Scope, p: Place)
    requires CheckP(P, sc, p).Some?
    ensures AllClean(P, GenAddr(P, sc, p))
    decreases p, 0
  {
    hide AllClean, GenBase;
    match p
    case Name(x) => NameClean(P, sc, x);
    case Field(x, k) =>
      NameClean(P, sc, x);
      SmallClean(P, GenFieldOffset(IsFrameBase(sc, x), k));
      Cleanly(P, GenBase(sc, x), GenFieldOffset(IsFrameBase(sc, x), k));
    case At(x, idx) => ElemClean(P, sc, x, idx);
    case AtField(x, idx, k) =>
      ElemClean(P, sc, x, idx);
      SmallClean(P, GenFieldOffset(false, k));
      Cleanly(P, GenElem(P, sc, x, idx), GenFieldOffset(false, k));
  }

  lemma {:induction false} ElemClean(P: Program, sc: Scope, x: string, idx: Expr)
    requires ShapeOf(P, sc, x).Some? && ShapeOf(P, sc, x).value.Arr? && CheckE(P, sc, idx).Some?
    ensures AllClean(P, GenElem(P, sc, x, idx))
    decreases idx, 1
  {
    hide GenE;
    ExprClean(P, sc, idx);
    if sc.Some? { EntOf(sc.value, x); }
  }

  lemma {:induction false} ArgsClean(P: Program, sc: Scope, args: Exprs, ps: seq<Param>)
    requires Length(args) == |ps| && CheckArgs(P, sc, args, ps)
    ensures AllClean(P, GenArgs(P, sc, args, ps))
    decreases args, 0
  {
    if args.Cons? {
      ArgsClean(P, sc, args.tl, ps[1..]);
      ExprClean(P, sc, args.hd);
      if args.hd.Read? { AddrClean(P, sc, args.hd.p); }
    }
  }

  lemma {:induction false} CallClean(P: Program, sc: Scope, f: string, args: Exprs)
    requires CheckCall(P, sc, f, args).Some?
    ensures AllClean(P, GenCall(P, sc, f, args))
    decreases args, 1
  {
    hide GenArgs;
    ArgsClean(P, sc, args, CheckCall(P, sc, f, args).value.params);
  }

  lemma {:induction false} StmtClean(P: Program, sc: Scope, s: Stmt, n: nat, k: nat)
    requires CheckS(P, sc, s)
    ensures AllClean(P, GenS(P, sc, s, n, k))
    decreases s, 1
  {
    hide AllClean, GenE, GenAddr, GenCall, GenWrite, CheckE, CheckP, CheckCall, Labels, Literals;
    match s
    case Skip => SmallClean(P, []);
    case Seq(s1, s2) =>
      StmtClean(P, sc, s1, n, k);
      StmtClean(P, sc, s2, n + Labels(s1), k + |Literals(s1)|);
      Cleanly(P, GenS(P, sc, s1, n, k), GenS(P, sc, s2, n + Labels(s1), k + |Literals(s1)|));
    case Assign(_, _) => StoreClean(P, sc, s, n, k);
    case CopyField(_, _) => StoreClean(P, sc, s, n, k);
    case If(_, _) => BranchClean(P, sc, s, n, k);
    case IfElse(_, _, _) => BranchClean(P, sc, s, n, k);
    case While(_, _) => BranchClean(P, sc, s, n, k);
    case CallStmt(f, args) => CallClean(P, sc, f, args);
    case WriteLit(_) => SmallClean(P, [MovI(EAX, T(k)), CallH(Puts)]);
    case WriteVal(ty, e) =>
      ExprClean(P, sc, e);
      WriteClean(P, ty, n);
      Cleanly(P, GenE(P, sc, e), GenWrite(ty, n));
    case WriteLn => SmallClean(P, [MovAL(10), CallH(Putc)]);
  }

  lemma WriteClean(P: Program, ty: Ty, n: nat)
    ensures AllClean(P, GenWrite(ty, n))
  {
  }

  lemma StoreClean(P: Program, sc: Scope, s: Stmt, n: nat, k: nat)
    requires CheckS(P, sc, s) && (s.Assign? || s.CopyField?)
    ensures AllClean(P, GenS(P, sc, s, n, k))
  {
    hide AllClean, GenE, GenAddr, CheckE, GenWriteName;
    if s.Assign? {
      AddrClean(P, sc, s.p);
      ExprClean(P, sc, s.e);
      if s.p.Name? {
        NameClean(P, sc, s.p.x);
        Cleanly(P, GenE(P, sc, s.e), GenWriteName(sc, s.p.x));
      } else {
        var tail := [Pull(EDX), Save(EDX, 0, EAX)];
        SmallClean(P, tail);
        SmallClean(P, [Push(EAX)]);
        Cleanly(P, GenE(P, sc, s.e), tail);
        Cleanly3(P, GenAddr(P, sc, s.p), [Push(EAX)], GenE(P, sc, s.e) + tail);
      }
    } else {
      AddrClean(P, sc, s.dst);
      AddrClean(P, sc, s.src);
      var mid, tail := [Load(EAX, EAX, 0), Push(EAX)], [Pull(ECX), Save(EAX, 0, ECX)];
      SmallClean(P, tail);
      SmallClean(P, mid);
      Cleanly(P, GenAddr(P, sc, s.dst), tail);
      Cleanly3(P, GenAddr(P, sc, s.src), mid, GenAddr(P, sc, s.dst) + tail);
    }
  }

  lemma {:induction false} BranchClean(P: Program, sc: Scope, s: Stmt, n: nat, k: nat)
    requires CheckS(P, sc, s) && (s.If? || s.IfElse? || s.While?)
    ensures AllClean(P, GenS(P, sc, s, n, k))
    decreases s, 0
  {
    hide AllClean, GenE, GenS, CheckE, Labels, Literals;
    ExprClean(P, sc, s.c);
    match s
    case If(c, t) =>
      GenIfIs(P, sc, c, t, n, k);
      StmtClean(P, sc, t, n + 1, k);
      SmallClean(P, [TestEAX, Jz(LEndif(n))]);
      SmallClean(P, [Lbl(LEndif(n))]);
      Cleanly(P, GenS(P, sc, t, n + 1, k), [Lbl(LEndif(n))]);
      Cleanly3(P, GenE(P, sc, c), [TestEAX, Jz(LEndif(n))], GenS(P, sc, t, n + 1, k) + [Lbl(LEndif(n))]);
    case IfElse(c, t, e) =>
      GenIfElseIs(P, sc, c, t, e, n, k);
      StmtClean(P, sc, t, n + 1, k);
      StmtClean(P, sc, e, n + 1 + Labels(t), k + |Literals(t)|);
      ArmsClean(P, GenE(P, sc, c), GenS(P, sc, t, n + 1, k), GenS(P, sc, e, n + 1 + Labels(t), k + |Literals(t)|), n);
    case While(c, b) =>
      GenWhileIs(P, sc, c, b, n, k);
      StmtClean(P, sc, b, n + 1, k);
      var tail := GenS(P, sc, b, n + 1, k) + [Jmp(LWhileTop(n)), Lbl(LWhileEnd(n))];
      SmallClean(P, [Jmp(LWhileTop(n)), Lbl(LWhileEnd(n))]);
      SmallClean(P, [TestEAX, Jz(LWhileEnd(n))]);
      SmallClean(P, [Lbl(LWhileTop(n))]);
      Cleanly(P, GenS(P, sc, b, n + 1, k), [Jmp(LWhileTop(n)), Lbl(LWhileEnd(n))]);
      Cleanly3(P, GenE(P, sc, c), [TestEAX, Jz(LWhileEnd(n))], tail);
      Cleanly(P, [Lbl(LWhileTop(n))], GenE(P, sc, c) + ([TestEAX, Jz(LWhileEnd(n))] + tail));
  }

  lemma ArmsClean(P: Program, c: seq<Instr>, t: seq<Instr>, e: seq<Instr>, n: nat)
    requires AllClean(P, c) && AllClean(P, t) && AllClean(P, e)
    ensures AllClean(P, c + ([TestEAX, Jz(LElse(n))]
            + (t + ([Jmp(LEndif(n)), Lbl(LElse(n))] + (e + [Lbl(LEndif(n))])))))
  {
    hide AllClean;
    var test, jump, end := [TestEAX, Jz(LElse(n))], [Jmp(LEndif(n)), Lbl(LElse(n))], [Lbl(LEndif(n))];
    SmallClean(P, test);
    SmallClean(P, jump);
    SmallClean(P, end);
    Cleanly(P, e, end);
    Cleanly3(P, t, jump, e + end);
    Cleanly3(P, c, test, t + (jump + (e + end)));
  }

  lemma {:induction false} RoutinesClean(P: Program, rs: seq<Routine>, n: nat, k: nat)
    requires forall r :: r in rs ==> CheckS(P, Some(r), r.body)
    ensures AllClean(P, GenRoutines(P, rs, n, k))
  {
    hide AllClean, GenRoutines, GenS, CheckS, Labels, Literals, FrameSlots;
    if rs == [] {
      NoRoutines(P, n, k);
      SmallClean(P, []);
    } else {
      var r := rs[0];
      GenRoutinesIs(P, rs, n, k);
      StmtClean(P, Some(r), r.body, n, k);
      SmallClean(P, [Lbl(LProc(r.name))]);
      SmallClean(P, Prologue(FrameSlots(r)));
      SmallClean(P, Epilogue(r));
      Cleanly(P, GenS(P, Some(r), r.body, n, k), Epilogue(r));
      Cleanly3(P, [Lbl(LProc(r.name))], Prologue(FrameSlots(r)), GenS(P, Some(r), r.body, n, k) + Epilogue(r));
      RoutinesClean(P, rs[1..], n + Labels(r.body), k + |Literals(r.body)|);
      Cleanly(P, GenRoutine(P, r, n, k), GenRoutines(P, rs[1..], n + Labels(r.body), k + |Literals(r.body)|));
    }
  }

  /** On a checked program the generator reaches none of its aborts, and every global the code refers to has
      storage. */
  lemma CheckedClean(P: Program, i: Instr)
    requires CheckProgram(P) && i in Compile(P).code
    ensures i != Ice && (GlobalOf(i).Some? ==> GlobalOf(i).value in Compile(P).gaddr)
  {
    hide AllClean, GenRoutines, GenS, CheckS;
    var nl, kl := RoutineLabels(P.routines), |RoutineLiterals(P.routines)|;
    forall r | r in P.routines
      ensures CheckS(P, Some(r), r.body)
    {
      assert CheckRoutine(P, r);
    }
    RoutinesClean(P, P.routines, 0, 0);
    StmtClean(P, None, P.main, nl, kl);
    SmallClean(P, [Lbl(LMain)]);
    SmallClean(P, Prologue(0));
    SmallClean(P, [Leave, Ret]);
    Cleanly(P, GenS(P, None, P.main, nl, kl), [Leave, Ret]);
    Cleanly3(P, [Lbl(LMain)], Prologue(0), GenS(P, None, P.main, nl, kl) + [Leave, Ret]);
    Cleanly(P, GenRoutines(P, P.routines, 0, 0), GenMain(P, nl, kl));
    OneClean(P, Compile(P).code, i);
    if GlobalOf(i).Some? { GlobalAddrsOf(P.globals, 0, GlobalOf(i).value); }
  }

  lemma OneClean(P: Program, c: seq<Instr>, i: Instr)
    requires AllClean(P, c) && i in c
    ensures Clean(P, i)
  {
  }
}
