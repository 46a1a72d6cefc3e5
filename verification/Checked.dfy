/** What acceptance by the checker adds to the compiler's correctness. */
module Checked {
  import opened Syntax
  import opened Semantics
  import opened Machine
  import opened Codegen
  import opened Layout
  import opened Simulation
  import opened Typecheck
  import opened TypeSoundness
  import opened Behaviour

  /** No run reads an uninitialised variable or indexes outside an array. */
  ghost predicate Initialised(P: Program) {
    forall fuel: nat :: !EvalProgram(P, fuel).Undef?
  }

  /** A checked program that stays initialised and in bounds and its compiled image halt, fault and
      diverge alike, with the same output. */
  lemma CheckedBehaviour(P: Program, out: seq<Event>)
    requires CheckProgram(P) && ProgramOk(P) && Initialised(P)
    ensures SourceHalts(P, out) <==> MachineEnds(P, Halted, out)
    ensures SourceFaults(P, out) <==> MachineEnds(P, DivFault, out)
    ensures SourceDiverges(P) <==> MachineDiverges(P)
    ensures !MachineEnds(P, Stuck, out)
  {
    hide CheckProgram, ProgramOk, EvalProgram;
    forall fuel: nat
      ensures !EvalProgram(P, fuel).Undef? && !EvalProgram(P, fuel).TypeErr?
    {
      CheckedIsSafe(P, fuel);
    }
    SameBehaviour(P, out);
  }

  /** When a checked program halts, every boolean cell in memory holds 0 or 1 and every character cell a
      byte, so the encodings the emitted comparisons and `xor eax, 1` rely on are the only ones there. */
  lemma CheckedCells(P: Program, fuel: nat) returns (n: nat)
    requires CheckProgram(P) && ProgramOk(P) && EvalProgram(P, fuel).Ok?
    ensures var s := Run(Compile(P), Start(P), n);
            && s.status == Halted
            && forall l :: l in EvalProgram(P, fuel).st.store ==>
                 var w := Addr(P, [], l);
                 && w in s.mem && s.mem[w].I?
                 && (LocTy(P, [], l) == Some(TBool) ==> s.mem[w].i == 0 || s.mem[w].i == 1)
                 && (LocTy(P, [], l) == Some(TChar) ==> 0 <= s.mem[w].i < 256)
  {
    hide CheckProgram, ProgramOk, EvalProgram, Compile, Start, Run, LocTy, Valid, Addr;
    n := CompilerCorrect(P, fuel);
    CheckedIsSafe(P, fuel);
  }

  // ---- which programs are covered ----

  /** Arrays have bounds in order that fit a word, and fit in memory. */
  predicate Sized(s: Shape) {
    s.Arr? ==> s.lo <= s.hi && -2147483648 <= s.lo && s.hi <= 2147483647 && 4 * Cells(s) <= 2147483647
  }

  /** No literal to write contains the byte 0. */
  predicate NoNul(s: Stmt) {
    match s
    case Seq(s1, s2) => NoNul(s1) && NoNul(s2)
    case If(_, t) => NoNul(t)
    case IfElse(_, t, e) => NoNul(t) && NoNul(e)
    case While(_, b) => NoNul(b)
    case WriteLit(text) => 0 !in text
    case _ => true
  }

  /** Declarations of sensible sizes, no NUL to write, and no local variable with records of several fields. */
  predicate Ordinary(P: Program) {
    && (forall i :: 0 <= i < |P.globals| ==> Sized(P.globals[i].shape))
    && (forall r, i :: r in P.routines && 0 <= i < |r.locals| ==>
          Sized(r.locals[i].shape) && !Fat(r.locals[i].shape.elem))
    && NoNul(P.main) && forall r :: r in P.routines ==> NoNul(r.body)
  }

  /** In such a routine no bare record of several fields is there to be lent. */
  ghost predicate Slim(P: Program, sc: Scope) {
    forall x :: IsFrameBase(sc, x) ==> ShapeOf(P, sc, x).Some? && !Fat(ShapeOf(P, sc, x).value.elem)
  }

  lemma {:induction false} LocalSlim(ds: seq<VarDecl>, x: string)
    requires (forall i :: 0 <= i < |ds| ==> !Fat(ds[i].shape.elem)) && FindVar(ds, x).Some?
    ensures !Fat(FindVar(ds, x).value.elem)
  {
    if ds[0].name != x { LocalSlim(ds[1..], x); }
  }

  lemma {:induction false} ParamSlim(ps: seq<Param>, x: string)
    requires (forall i :: 0 <= i < |ps| && !ps[i].isVar ==> ps[i].elem.Scalar?)
    requires FindParam(ps, x).Some? && !FindParam(ps, x).value.isVar
    ensures FindParam(ps, x).value.elem.Scalar?
  {
    if ps[0].name != x { ParamSlim(ps[1..], x); }
  }

  lemma RoutineSlim(P: Program, r: Routine)
    requires CheckRoutine(P, r) && forall i :: 0 <= i < |r.locals| ==> !Fat(r.locals[i].shape.elem)
    ensures Slim(P, Some(r))
  {
    hide CheckS;
    forall x | IsFrameBase(Some(r), x)
      ensures ShapeOf(P, Some(r), x).Some? && !Fat(ShapeOf(P, Some(r), x).value.elem)
    {
      EntOf(r, x);
      if FindParam(r.params, x).Some? {
        ParamSlim(r.params, x);
      } else if FindVar(r.locals, x).Some? {
        LocalSlim(r.locals, x);
      }
    }
  }

  lemma {:induction false} SlimE(P: Program, sc: Scope, e: Expr)
    requires Slim(P, sc) && CheckE(P, sc, e).Some?
    ensures ExprOk(P, sc, e)
    decreases e, 0
  {
    hide IsFrameBase;
    match e
    case Read(p) => SlimP(P, sc, p);
    case Binop(_, l, r) =>
      SlimE(P, sc, l);
      SlimE(P, sc, r);
    case Unop(_, e1) => SlimE(P, sc, e1);
    case Call(f, args) => SlimC(P, sc, f, args);
    case _ =>
  }

  lemma {:induction false} SlimP(P: Program, sc: Scope, p: Place)
    requires Slim(P, sc) && CheckP(P, sc, p).Some?
    ensures PlaceOk(P, sc, p)
    decreases p, 0
  {
    if p.At? || p.AtField? { SlimE(P, sc, p.idx); }
  }

  lemma {:induction false} SlimC(P: Program, sc: Scope, f: string, args: Exprs)
    requires Slim(P, sc) && CheckCall(P, sc, f, args).Some?
    ensures CallOk(P, sc, f, args)
    decreases args, 1
  {
    SlimA(P, sc, args, CheckCall(P, sc, f, args).value.params);
  }

  lemma {:induction false} SlimA(P: Program, sc: Scope, args: Exprs, ps: seq<Param>)
    requires Slim(P, sc) && Length(args) == |ps| && CheckArgs(P, sc, args, ps)
    ensures ArgsOk(P, sc, args, ps)
    decreases args, 0
  {
    hide IsFrameBase;
    if args.Cons? {
      SlimE(P, sc, args.hd);
      SlimA(P, sc, args.tl, ps[1..]);
    }
  }

  lemma {:induction false} SlimS(P: Program, sc: Scope, s: Stmt)
    requires Slim(P, sc) && CheckS(P, sc, s) && NoNul(s)
    ensures StmtOk(P, sc, s)
  {
    hide Slim, CheckE, CheckP, CheckCall, ExprOk, PlaceOk, Simulation.CallOk;
    match s
    case Seq(s1, s2) =>
      SlimS(P, sc, s1);
      SlimS(P, sc, s2);
    case Assign(p, e) =>
      SlimP(P, sc, p);
      SlimE(P, sc, e);
    case CopyField(d, q) =>
      SlimP(P, sc, d);
      SlimP(P, sc, q);
    case If(c, t) =>
      SlimE(P, sc, c);
      SlimS(P, sc, t);
    case IfElse(c, t, e) =>
      SlimE(P, sc, c);
      SlimS(P, sc, t);
      SlimS(P, sc, e);
    case While(c, b) =>
      SlimE(P, sc, c);
      SlimS(P, sc, b);
    case CallStmt(f, args) => SlimC(P, sc, f, args);
    case WriteVal(_, e) => SlimE(P, sc, e);
    case _ =>
  }

  /** Every accepted ordinary program is one the theorems cover. */
  lemma OrdinaryCovered(P: Program)
    requires CheckProgram(P) && Ordinary(P)
    ensures ProgramOk(P)
  {
    hide CheckS, StmtOk, NoNul, Slim;
    NoFrame(P);
    SlimS(P, None, P.main);
    forall r | r in P.routines
      ensures DeclsOk(r) && StmtOk(P, Some(r), r.body)
    {
      assert CheckRoutine(P, r);
      RoutineSlim(P, r);
      SlimS(P, Some(r), r.body);
    }
  }

  lemma NoFrame(P: Program)
    ensures Slim(P, None)
  {
  }
}
