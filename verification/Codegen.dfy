/** The code generator: expressions, designators, statements, calls, routines and whole programs
    become instruction sequences. Local labels and write literals are numbered by counters threaded
    through emission in source order (`Labels` and `Literals` say how far a statement moves them). */
module Codegen {
  import opened Syntax
  import opened Machine

  datatype Kind = ValParam | VarParam | OwnSlot

  /** A scope entry: `off` is the EBP displacement of the variable's first dword. */
  datatype Ent = Ent(kind: Kind, off: int, shape: Shape)

  /** Parameter `i` lives at [ebp+8+4i]. */
  function ParamOffset(i: int): int { 8 + 4 * i }

  /** Frame slot `k` lives at [ebp-4(k+1)]. */
  function SlotOffset(k: int): int { -(4 * (k + 1)) }

  function ParamEnt(ps: seq<Param>, i: nat, x: string): Option<Ent> {
    if ps == [] then None
    else if ps[0].name == x then
      Some(Ent(if ps[0].isVar then VarParam else ValParam, ParamOffset(i), One(ps[0].elem)))
    else ParamEnt(ps[1..], i + 1, x)
  }

  function LocalEnt(ds: seq<VarDecl>, slot: nat, x: string): Option<Ent> {
    if ds == [] then None
    else if ds[0].name == x then Some(Ent(OwnSlot, SlotOffset(slot), ds[0].shape))
    else LocalEnt(ds[1..], slot + Cells(ds[0].shape), x)
  }

  function ResultSlots(r: Routine): nat { if r.result.Some? then 1 else 0 }

  function CellSum(ds: seq<VarDecl>): nat {
    if ds == [] then 0 else Cells(ds[0].shape) + CellSum(ds[1..])
  }

  /** Dwords a routine reserves below its saved EBP: the result, then the locals. */
  function FrameSlots(r: Routine): nat { ResultSlots(r) + CellSum(r.locals) }

  /** The scope a routine's body is generated in, or none for the main block. */
  type Scope = Option<Routine>

  function Resolve(sc: Scope, x: string): Option<Ent> {
    if sc.None? then None
    else
      var r := sc.value;
      var p := ParamEnt(r.params, 0, x);
      if p.Some? then p
      else if r.result.Some? && x == r.name then Some(Ent(OwnSlot, SlotOffset(0), One(Scalar(r.result.value))))
      else LocalEnt(r.locals, ResultSlots(r), x)
  }

  /** Scales an index held in EAX to a byte offset in EDX. */
  function ScaleIndex(lo: int, elem: Elem): seq<Instr> {
    (if lo != 0 then [OpI(ASub, EAX, lo)] else []) + [OpI(AImul, EAX, 4 * Words(elem)), MovRR(EDX, EAX)]
  }

  /** The address of a variable's first dword. */
  function GenBase(sc: Scope, x: string): seq<Instr> {
    match Resolve(sc, x)
    case Some(Ent(VarParam, off, _)) => [Load(EAX, EBP, off)]
    case Some(Ent(_, off, _)) => [Lea(EAX, off)]
    case None => [AddrOf(x)]
  }

  /** Adds field `k`'s offset to a record address: downward for a bare frame-resident record, upward
      for globals, array elements and records reached through a `var` parameter. */
  function GenFieldOffset(down: bool, k: nat): seq<Instr> {
    if k == 0 then [] else if down then [OpI(ASub, EAX, 4 * k)] else [OpI(AAdd, EAX, 4 * k)]
  }

  predicate IsFrameBase(sc: Scope, x: string) {
    var e := Resolve(sc, x);
    e.Some? && e.value.kind != VarParam
  }

  /** The address of `x[idx]`; frame-resident arrays run downward, global arrays upward. */
  function GenElem(P: Program, sc: Scope, x: string, idx: Expr): seq<Instr>
    decreases idx, 1
  {
    match Resolve(sc, x)
    case Some(Ent(OwnSlot, off, Arr(lo, _, elem))) =>
      GenE(P, sc, idx) + (ScaleIndex(lo, elem) + [Lea(EAX, off), Op(ASub, EAX, EDX)])
    case Some(_) => [Ice]
    case None =>
      match FindVar(P.globals, x)
      case Some(Arr(lo, _, elem)) => GenE(P, sc, idx) + (ScaleIndex(lo, elem) + [AddrOf(x), Op(AAdd, EAX, EDX)])
      case _ => [Ice]
  }

  function GenAddr(P: Program, sc: Scope, p: Place): seq<Instr>
    decreases p, 0
  {
    match p
    case Name(x) => GenBase(sc, x)
    case Field(x, k) => GenBase(sc, x) + GenFieldOffset(IsFrameBase(sc, x), k)
    case At(x, idx) => GenElem(P, sc, x, idx)
    case AtField(x, idx, k) => GenElem(P, sc, x, idx) + GenFieldOffset(false, k)
  }

  function GenReadName(sc: Scope, x: string): seq<Instr> {
    match Resolve(sc, x)
    case Some(Ent(VarParam, off, _)) => [Load(EAX, EBP, off), Load(EAX, EAX, 0)]
    case Some(Ent(_, off, _)) => [Load(EAX, EBP, off)]
    case None => [LoadG(x)]
  }

  function GenWriteName(sc: Scope, x: string): seq<Instr> {
    match Resolve(sc, x)
    case Some(Ent(VarParam, off, _)) => [Load(EDX, EBP, off), Save(EDX, 0, EAX)]
    case Some(Ent(_, off, _)) => [Save(EBP, off, EAX)]
    case None => [StoreG(x)]
  }

  /** Combines the left operand in EAX with the right one in ECX. */
  function Combine(op: BinOp): seq<Instr> {
    match op
    case Add => [Op(AAdd, EAX, ECX)]
    case Sub => [Op(ASub, EAX, ECX)]
    case Mul => [Op(AImul, EAX, ECX)]
    case Div => [Cdq, Idiv]
    case Mod => [Cdq, Idiv, MovRR(EAX, EDX)]
    case AndB => [Op(AAnd, EAX, ECX)]
    case OrB => [Op(AOr, EAX, ECX)]
    case _ => [Cmp, SetAL(op), MovzxAL]
  }

  function GenUn(op: UnOp): seq<Instr> {
    match op
    case Neg => [NegR(EAX)]
    case Not => [OpI(AXor, EAX, 1)]
    case Ord => []
    case Chr => [OpI(AAnd, EAX, 0xFF)]
  }

  function GenE(P: Program, sc: Scope, e: Expr): seq<Instr>
    decreases e, 0
  {
    match e
    case IntLit(n) => [MovI(EAX, I(n))]
    case BoolLit(b) => [MovI(EAX, I(if b then 1 else 0))]
    case CharLit(c) => [MovI(EAX, I(c % 256))]
    case Read(Name(x)) => GenReadName(sc, x)
    case Read(p) => GenAddr(P, sc, p) + [Load(EAX, EAX, 0)]
    case Binop(op, l, r) =>
      GenE(P, sc, l) + ([Push(EAX)] + (GenE(P, sc, r) + ([MovRR(ECX, EAX), Pull(EAX)] + Combine(op))))
    case Unop(op, e1) => GenE(P, sc, e1) + GenUn(op)
    case Call(f, args) => GenCall(P, sc, f, args)
  }

  /** Pushes the arguments right to left: a value for a value parameter, an address for a `var` one. */
  function GenArgs(P: Program, sc: Scope, args: Exprs, ps: seq<Param>): seq<Instr>
    requires Length(args) == |ps|
    decreases args, 0
  {
    match args
    case Nil => []
    case Cons(e, rest) =>
      GenArgs(P, sc, rest, ps[1..]) + (GenArg(P, sc, e, ps[0]) + [Push(EAX)])
  }

  function GenArg(P: Program, sc: Scope, e: Expr, p: Param): seq<Instr>
    decreases e, 1
  {
    if p.isVar then
      if e.Read? then GenAddr(P, sc, e.p) else [Ice]
    else GenE(P, sc, e)
  }

  function GenCall(P: Program, sc: Scope, f: string, args: Exprs): seq<Instr>
    decreases args, 1
  {
    match FindRoutine(P.routines, f)
    case None => [Ice]
    case Some(r) =>
      if Length(args) != |r.params| then [Ice]
      else GenArgs(P, sc, args, r.params) + ([CallP(f)] + CleanUp(|r.params|))
  }

  function CleanUp(n: nat): seq<Instr> {
    if n == 0 then [] else [OpI(AAdd, ESP, 4 * n)]
  }

  /** Local labels a statement uses. */
  function Labels(s: Stmt): nat {
    match s
    case Seq(s1, s2) => Labels(s1) + Labels(s2)
    case If(_, t) => 1 + Labels(t)
    case IfElse(_, t, e) => 1 + Labels(t) + Labels(e)
    case While(_, b) => 1 + Labels(b)
    case WriteVal(TBool, _) => 1
    case _ => 0
  }

  /** Write literals a statement uses, in the order of the .rodata pass. */
  function Literals(s: Stmt): seq<seq<int>> {
    match s
    case Seq(s1, s2) => Literals(s1) + Literals(s2)
    case If(_, t) => Literals(t)
    case IfElse(_, t, e) => Literals(t) + Literals(e)
    case While(_, b) => Literals(b)
    case WriteLit(text) => [text]
    case _ => []
  }

  function GenWrite(ty: Ty, n: nat): seq<Instr> {
    match ty
    case TInt => [CallH(PutInt)]
    case TChar => [CallH(Putc)]
    case TBool =>
      [TestEAX, Jz(LBFalse(n)), MovI(EAX, TB(true)), Jmp(LBDone(n)),
       Lbl(LBFalse(n)), MovI(EAX, TB(false)), Lbl(LBDone(n)), CallH(Puts)]
  }

  /** `n` is the next label ordinal, `k` the next write-literal ordinal. */
  function GenS(P: Program, sc: Scope, s: Stmt, n: nat, k: nat): seq<Instr> {
    match s
    case Skip => []
    case Seq(s1, s2) => GenS(P, sc, s1, n, k) + GenS(P, sc, s2, n + Labels(s1), k + |Literals(s1)|)
    case Assign(p, e) =>
      if p.Name? then GenE(P, sc, e) + GenWriteName(sc, p.x)
      else GenAddr(P, sc, p) + ([Push(EAX)] + (GenE(P, sc, e) + [Pull(EDX), Save(EDX, 0, EAX)]))
    case CopyField(dst, src) =>
      GenAddr(P, sc, src) + ([Load(EAX, EAX, 0), Push(EAX)] + (GenAddr(P, sc, dst) + [Pull(ECX), Save(EAX, 0, ECX)]))
    case If(c, t) =>
      GenE(P, sc, c) + ([TestEAX, Jz(LEndif(n))] + (GenS(P, sc, t, n + 1, k) + [Lbl(LEndif(n))]))
    case IfElse(c, t, e) =>
      GenE(P, sc, c) + ([TestEAX, Jz(LElse(n))] + (GenS(P, sc, t, n + 1, k)
        + ([Jmp(LEndif(n)), Lbl(LElse(n))]
        + (GenS(P, sc, e, n + 1 + Labels(t), k + |Literals(t)|) + [Lbl(LEndif(n))]))))
    case While(c, b) =>
      [Lbl(LWhileTop(n))] + (GenE(P, sc, c) + ([TestEAX, Jz(LWhileEnd(n))]
        + (GenS(P, sc, b, n + 1, k) + [Jmp(LWhileTop(n)), Lbl(LWhileEnd(n))])))
    case CallStmt(f, args) => GenCall(P, sc, f, args)
    case WriteLit(_) => [MovI(EAX, T(k)), CallH(Puts)]
    case WriteVal(ty, e) => GenE(P, sc, e) + GenWrite(ty, n)
    case WriteLn => [MovAL(10), CallH(Putc)]
  }

  function Prologue(slots: nat): seq<Instr> {
    [Push(EBP), MovRR(EBP, ESP)] + (if slots > 0 then [OpI(ASub, ESP, 4 * slots)] else [])
  }

  function Epilogue(r: Routine): seq<Instr> {
    (if r.result.Some? then [Load(EAX, EBP, SlotOffset(0))] else []) + [Leave, Ret]
  }

  function GenRoutine(P: Program, r: Routine, n: nat, k: nat): seq<Instr> {
    [Lbl(LProc(r.name))] + (Prologue(FrameSlots(r)) + (GenS(P, Some(r), r.body, n, k) + Epilogue(r)))
  }

  function GenRoutines(P: Program, rs: seq<Routine>, n: nat, k: nat): seq<Instr> {
    if rs == [] then []
    else GenRoutine(P, rs[0], n, k) + GenRoutines(P, rs[1..], n + Labels(rs[0].body), k + |Literals(rs[0].body)|)
  }

  function RoutineLabels(rs: seq<Routine>): nat {
    if rs == [] then 0 else Labels(rs[0].body) + RoutineLabels(rs[1..])
  }

  function RoutineLiterals(rs: seq<Routine>): seq<seq<int>> {
    if rs == [] then [] else Literals(rs[0].body) + RoutineLiterals(rs[1..])
  }

  function GenMain(P: Program, n: nat, k: nat): seq<Instr> {
    [Lbl(LMain)] + (Prologue(0) + (GenS(P, None, P.main, n, k) + [Leave, Ret]))
  }

  /** `.bss` lays the globals out one after the other from address 0, the first declaration of a name
      giving its address. */
  function GlobalAddrs(gs: seq<VarDecl>, at: nat): map<string, int> {
    if gs == [] then map[]
    else GlobalAddrs(gs[1..], at + 4 * Cells(gs[0].shape))[gs[0].name := at]
  }

  function Compile(P: Program): Image {
    Image(GenRoutines(P, P.routines, 0, 0)
            + GenMain(P, RoutineLabels(P.routines), |RoutineLiterals(P.routines)|),
          GlobalAddrs(P.globals, 0),
          RoutineLiterals(P.routines) + Literals(P.main))
  }

  // ---- one step of the definitions ----

  lemma NoRoutines(P: Program, n: nat, k: nat)
    ensures GenRoutines(P, [], n, k) == [] && RoutineLabels([]) == 0 && RoutineLiterals([]) == []
  {
  }

  lemma GenRoutinesIs(P: Program, rs: seq<Routine>, n: nat, k: nat)
    requires rs != []
    ensures GenRoutines(P, rs, n, k) == GenRoutine(P, rs[0], n, k)
              + GenRoutines(P, rs[1..], n + Labels(rs[0].body), k + |Literals(rs[0].body)|)
    ensures RoutineLabels(rs) == Labels(rs[0].body) + RoutineLabels(rs[1..])
    ensures |RoutineLiterals(rs)| == |Literals(rs[0].body)| + |RoutineLiterals(rs[1..])|
  {
  }

  lemma {:induction false} GenIfElseIs(P: Program, sc: Scope, c: Expr, t: Stmt, e: Stmt, n: nat, k: nat)
    ensures GenS(P, sc, IfElse(c, t, e), n, k) ==
              GenE(P, sc, c) + ([TestEAX, Jz(LElse(n))] + (GenS(P, sc, t, n + 1, k)
                + ([Jmp(LEndif(n)), Lbl(LElse(n))]
                + (GenS(P, sc, e, n + 1 + Labels(t), k + |Literals(t)|) + [Lbl(LEndif(n))]))))
    ensures Labels(IfElse(c, t, e)) == 1 + Labels(t) + Labels(e)
    ensures |Literals(IfElse(c, t, e))| == |Literals(t)| + |Literals(e)|
  {
    hide GenE;
  }

  lemma {:induction false} GenIfIs(P: Program, sc: Scope, c: Expr, t: Stmt, n: nat, k: nat)
    ensures GenS(P, sc, If(c, t), n, k) == GenE(P, sc, c)
            + ([TestEAX, Jz(LEndif(n))] + (GenS(P, sc, t, n + 1, k) + [Lbl(LEndif(n))]))
    ensures Labels(If(c, t)) == 1 + Labels(t) && Literals(If(c, t)) == Literals(t)
  {
  }

  lemma {:induction false} GenSeqIs(P: Program, sc: Scope, s1: Stmt, s2: Stmt, n: nat, k: nat)
    ensures GenS(P, sc, Seq(s1, s2), n, k) == GenS(P, sc, s1, n, k)
            + GenS(P, sc, s2, n + Labels(s1), k + |Literals(s1)|)
  {
    hide GenE, GenAddr, GenCall, Labels, Literals;
  }

  lemma {:induction false} GenWhileIs(P: Program, sc: Scope, c: Expr, b: Stmt, n: nat, k: nat)
    ensures GenS(P, sc, While(c, b), n, k) ==
              [Lbl(LWhileTop(n))] + (GenE(P, sc, c) + ([TestEAX, Jz(LWhileEnd(n))]
                + (GenS(P, sc, b, n + 1, k) + [Jmp(LWhileTop(n)), Lbl(LWhileEnd(n))])))
    ensures Labels(While(c, b)) == 1 + Labels(b) && Literals(While(c, b)) == Literals(b)
  {
  }
}
