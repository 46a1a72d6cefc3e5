/** The converse of type soundness: what runs is accepted. Evaluation checks the types of values as it goes, so
    in any program with its names in order, an expression or designator that evaluates is well typed with the
    type of its value, and a statement whose parts all come to an end somewhere is well typed too. */
module Completeness {
  import opened Int32
  import opened Syntax
  import opened Semantics
  import opened Codegen
  import opened Typecheck
  import opened TypeSoundness
  import opened Threats

  // ---- operators ----

  function TyOf(v: Value): Ty {
    match v
    case VI(_) => TInt
    case VB(_) => TBool
    case VC(_) => TChar
  }

  lemma TyOfIs(v: Value, ty: Ty)
    ensures HasTy(v, ty) <==> ty == TyOf(v)
  {
  }

  /** An operator is accepted on two types exactly if it applies to their values, whatever these are, and the
      type it is given is that of every result. */
  lemma BinaryExact(op: BinOp, a: Value, b: Value, st: St)
    ensures var t, r := BinTy(op, Scalar(TyOf(a)), Scalar(TyOf(b))), ApplyBin(op, a, b, st);
            (t.Some? <==> !r.TypeErr?) && (r.Ok? ==> t == Some(Scalar(TyOf(r.val))) && r.st == st)
  {
  }

  lemma UnaryExact(op: UnOp, a: Value, st: St)
    ensures var t, r := UnTy(op, Scalar(TyOf(a))), ApplyUn(op, a, st);
            (t.Some? <==> r.Ok?) && (r.Ok? ==> t == Some(Scalar(TyOf(r.val))) && r.st == st)
  {
  }

  /** No operator takes a record. */
  lemma RecordsRefused(op: BinOp, uop: UnOp, a: Elem, b: Elem)
    requires a.Record? || b.Record?
    ensures BinTy(op, a, b).None? && (a.Record? ==> UnTy(uop, a).None?)
  {
  }

  // ---- typed states of any program ----

  /** The rules on names: parameters, result and locals of a routine differ; globals and routines differ. */
  predicate RoutineNames(r: Routine) {
    && (forall i, j :: 0 <= i < j < |r.params| ==> r.params[i].name != r.params[j].name)
    && (forall i, j :: 0 <= i < j < |r.locals| ==> r.locals[i].name != r.locals[j].name)
    && (forall i, j :: 0 <= i < |r.params| && 0 <= j < |r.locals| ==> r.params[i].name != r.locals[j].name)
    && (r.result.Some? ==> forall i :: 0 <= i < |r.params| ==> r.params[i].name != r.name)
    && (r.result.Some? ==> forall i :: 0 <= i < |r.locals| ==> r.locals[i].name != r.name)
  }

  predicate ProgramNames(P: Program) {
    && (forall i, j :: 0 <= i < j < |P.globals| ==> P.globals[i].name != P.globals[j].name)
    && (forall i, j :: 0 <= i < j < |P.routines| ==> P.routines[i].name != P.routines[j].name)
    && (forall i, j :: 0 <= i < |P.globals| && 0 <= j < |P.routines| ==> P.globals[i].name != P.routines[j].name)
    && (forall r :: r in P.routines ==> RoutineNames(r))
  }

  /** Cells hold values of their declared types. */
  ghost predicate Typed(P: Program, rs: seq<Routine>, env: Env, st: St) {
    ProgramNames(P) && EnvTyped(P, rs, env) && StoreTyped(P, rs, st.store) && forall r :: r in rs ==> r in P.routines
  }

  lemma LookupShape(P: Program, rs: seq<Routine>, env: Env, x: string)
    requires EnvTyped(P, rs, env) && Lookup(P, env, x).Some?
    ensures ShapeOf(P, ScopeIn(env), x) == Some(Lookup(P, env, x).value.shape)
  {
  }

  // ---- expressions ----

  ghost predicate RanE(P: Program, rs: seq<Routine>, env: Env, e: Expr, r: Res<Value>) {
    r.Ok? ==> CheckE(P, ScopeIn(env), e) == Some(Scalar(TyOf(r.val))) && StoreTyped(P, rs, r.st.store)
  }

  ghost predicate RanP(P: Program, rs: seq<Routine>, env: Env, p: Place, r: Res<Dest>) {
    r.Ok? ==>
      && CheckP(P, ScopeIn(env), p) == Some(r.val.elem)
      && DestTyped(P, rs, r.val.l, r.val.elem) && StoreTyped(P, rs, r.st.store)
  }

  /** An expression that evaluates is accepted, with the type of its value. */
  lemma {:induction false} ExprAccepted(P: Program, rs: seq<Routine>, fuel: nat, env: Env, st: St, e: Expr)
    requires Typed(P, rs, env, st)
    ensures RanE(P, rs, env, e, EvalE(P, fuel, env, st, e))
    decreases fuel, e, 1
  {
    hide ApplyBin, ApplyUn, BinTy, UnTy, EvalP, EvalCall, StoreTyped, DestTyped, EnvTyped, ProgramNames, CheckP,
      CheckCall;
    match e
    case IntLit(_) =>
    case BoolLit(_) =>
    case CharLit(_) =>
    case Read(p) =>
      PlaceAccepted(P, rs, fuel, env, st, p);
      var d := EvalP(P, fuel, env, st, p);
      if d.Ok? && d.val.elem.Scalar? {
        FetchSafe(P, rs, d.st, d.val, d.val.elem.ty);
        var r := Fetch(d.st, d.val);
        if r.Ok? { TyOfIs(r.val, d.val.elem.ty); }
      }
    case Binop(op, l, r) =>
      ExprAccepted(P, rs, fuel, env, st, l);
      var a := EvalE(P, fuel, env, st, l);
      if a.Ok? {
        ExprAccepted(P, rs, fuel, env, a.st, r);
        var b := EvalE(P, fuel, env, a.st, r);
        if b.Ok? { BinaryExact(op, a.val, b.val, b.st); }
      }
    case Unop(op, e1) =>
      ExprAccepted(P, rs, fuel, env, st, e1);
      var a := EvalE(P, fuel, env, st, e1);
      if a.Ok? { UnaryExact(op, a.val, a.st); }
    case Call(f, args) =>
      CallAccepted(P, rs, fuel, env, st, f, args);
      var r := EvalCall(P, fuel, env, st, f, args);
      if r.Ok? && r.val.Some? { TyOfIs(r.val.value, CheckCall(P, ScopeIn(env), f, args).value.result.value); }
  }

  /** A designator that can be located is accepted, with the type of what it designates. */
  lemma {:induction false} PlaceAccepted(P: Program, rs: seq<Routine>, fuel: nat, env: Env, st: St, p: Place)
    requires Typed(P, rs, env, st)
    ensures RanP(P, rs, env, p, EvalP(P, fuel, env, st, p))
    decreases fuel, p, 1
  {
    hide EvalElem, StoreTyped, DestTyped, EnvTyped, ProgramNames, Lookup, ShapeOf, CheckE, Shift;
    var t := Lookup(P, env, p.x);
    if t.Some? {
      LookupShape(P, rs, env, p.x);
      var b := Dest(t.value.base, t.value.shape.elem);
      if t.value.shape.One? { CellsTyped(P, rs, env, p.x, 0); }
      match p
      case Name(_) =>
      case Field(_, k) =>
        if t.value.shape.One? && FieldOf(b, k, st).Ok? { FieldSafe(P, rs, st, b, k); }
      case At(x, idx) => ElemAccepted(P, rs, fuel, env, st, x, idx);
      case AtField(x, idx, k) =>
        ElemAccepted(P, rs, fuel, env, st, x, idx);
        var d := EvalElem(P, fuel, env, st, idx, t.value.base, t.value.shape);
        if d.Ok? && FieldOf(d.val, k, d.st).Ok? { FieldSafe(P, rs, d.st, d.val, k); }
    }
  }

  lemma {:induction false} ElemAccepted(P: Program, rs: seq<Routine>, fuel: nat, env: Env, st: St, x: string, idx: Expr)
    requires Typed(P, rs, env, st) && Lookup(P, env, x).Some?
    requires ShapeOf(P, ScopeIn(env), x) == Some(Lookup(P, env, x).value.shape)
    ensures var t := Lookup(P, env, x).value;
            var r := EvalElem(P, fuel, env, st, idx, t.base, t.shape);
            r.Ok? ==>
              && t.shape.Arr? && CheckE(P, ScopeIn(env), idx) == Some(Scalar(TInt)) && r.val.elem == t.shape.elem
              && DestTyped(P, rs, r.val.l, r.val.elem) && StoreTyped(P, rs, r.st.store)
    decreases fuel, idx, 2
  {
    hide EvalE, CheckE, Lookup, ShapeOf, StoreTyped, ProgramNames, DestTyped, Words;
    var t := Lookup(P, env, x).value;
    ExprAccepted(P, rs, fuel, env, st, idx);
    var v := EvalE(P, fuel, env, st, idx);
    if t.shape.Arr? && v.Ok? && v.val.VI? && t.shape.lo <= v.val.i <= t.shape.hi {
      CellsTyped(P, rs, env, x, v.val.i - t.shape.lo);
    }
  }

  // ---- calls ----

  ghost predicate RanA(P: Program, rs: seq<Routine>, env: Env, args: Exprs, ps: seq<Param>, r: Res<seq<Actual>>)
    requires Length(args) == |ps|
  {
    r.Ok? ==>
      && CheckArgs(P, ScopeIn(env), args, ps) && |r.val| == |ps| && StoreTyped(P, rs, r.st.store)
      && forall i :: 0 <= i < |ps| ==> ActualTyped(P, rs, ps[i], r.val[i])
  }

  lemma {:induction false} ArgsAccepted(P: Program, rs: seq<Routine>, fuel: nat, env: Env, st: St, args: Exprs,
                                        ps: seq<Param>)
    requires Typed(P, rs, env, st) && Length(args) == |ps|
    ensures RanA(P, rs, env, args, ps, EvalArgs(P, fuel, env, st, args, ps))
    decreases fuel, args, 1
  {
    hide EvalE, EvalP, CheckP, StoreTyped, DestTyped, EnvTyped, ProgramNames;
    if args.Cons? {
      var e := args.hd;
      ArgsAccepted(P, rs, fuel, env, st, args.tl, ps[1..]);
      var r1 := EvalArgs(P, fuel, env, st, args.tl, ps[1..]);
      if r1.Ok? {
        if ps[0].isVar {
          if e.Read? { PlaceAccepted(P, rs, fuel, env, r1.st, e.p); }
        } else {
          ExprAccepted(P, rs, fuel, env, r1.st, e);
          var v := EvalE(P, fuel, env, r1.st, e);
          if v.Ok? && ps[0].elem.Scalar? { TyOfIs(v.val, ps[0].elem.ty); }
        }
        var r := EvalArgs(P, fuel, env, st, args, ps);
        if r.Ok? {
          assert CheckE(P, ScopeIn(env), e) == Some(ps[0].elem);
          forall i | 0 <= i < |ps|
            ensures ActualTyped(P, rs, ps[i], r.val[i])
          {
            if i > 0 { assert ps[1..][i - 1] == ps[i] && r.val[i] == r1.val[i - 1]; }
          }
        }
      }
    }
  }

  lemma EnterKeeps(P: Program, rs: seq<Routine>, env: Env, st: St, r: Routine, avs: seq<Actual>)
    requires Typed(P, rs, env, st) && r in P.routines && |avs| == |r.params|
    requires forall i :: 0 <= i < |r.params| ==> ActualTyped(P, rs, r.params[i], avs[i])
    ensures Depth(env) == |rs|
    ensures Typed(P, rs + [r], In(|rs| + 1, r, BindRefs(r.params, avs)),
                  st.(store := BindVals(st.store, |rs| + 1, r.params, avs)))
  {
    assert RoutineNames(r);
    forall i | 0 <= i < |r.params|
      ensures FindDecl(r, r.params[i].name) == Some(Decl(r.params[i].isVar, One(r.params[i].elem)))
    {
      ParamDecl(r.params, i);
    }
    BindValsTyped(P, rs, r, st.store, r.params, avs);
    assert (rs + [r])[..|rs|] == rs;
    forall x
      ensures RefTyped(P, rs, r, BindRefs(r.params, avs), x)
    {
      var p := FindParam(r.params, x);
      if p.Some? && p.value.isVar { BindRefsTyped(P, rs, r.params, avs, x); }
    }
  }

  lemma {:induction false} NoParam(ps: seq<Param>, x: string)
    requires forall i :: 0 <= i < |ps| ==> ps[i].name != x
    ensures FindParam(ps, x).None?
  {
    if ps != [] { NoParam(ps[1..], x); }
  }

  lemma ReturnKeeps(P: Program, rs: seq<Routine>, r: Routine, st: St)
    requires RoutineNames(r) && StoreTyped(P, rs + [r], st.store)
    ensures var v := Return(st, |rs| + 1, r);
            v.Ok? ==>
              && StoreTyped(P, rs, v.st.store) && (v.val.Some? <==> r.result.Some?)
              && (v.val.Some? ==> HasTy(v.val.value, r.result.value))
  {
    PopTyped(P, rs, r, st.store);
    var l := Local(|rs| + 1, r.name, 0);
    if r.result.Some? && l in st.store {
      NoParam(r.params, r.name);
      assert LocTy(P, rs + [r], l) == Some(r.result.value);
    }
  }

  ghost predicate RanC(P: Program, rs: seq<Routine>, env: Env, f: string, args: Exprs, r: Res<Option<Value>>) {
    r.Ok? ==>
      var q := CheckCall(P, ScopeIn(env), f, args);
      && q.Some? && StoreTyped(P, rs, r.st.store) && (r.val.Some? <==> q.value.result.Some?)
      && (r.val.Some? ==> HasTy(r.val.value, q.value.result.value))
  }

  /** A call that returns is accepted: the routine is there, the arguments fit, and it is a function exactly if
      a value came back. */
  lemma {:induction false} CallAccepted(P: Program, rs: seq<Routine>, fuel: nat, env: Env, st: St, f: string,
                                        args: Exprs)
    requires Typed(P, rs, env, st)
    ensures RanC(P, rs, env, f, args, EvalCall(P, fuel, env, st, f, args))
    decreases fuel, args, 2
  {
    hide EvalArgs, EvalS, Return, CheckArgs, CheckS, StoreTyped, EnvTyped, BindVals, BindRefs, DestTyped;
    var q := FindRoutine(P.routines, f);
    if q.Some? && Length(args) == |q.value.params| {
      var r := q.value;
      ArgsAccepted(P, rs, fuel, env, st, args, r.params);
      var r1 := EvalArgs(P, fuel, env, st, args, r.params);
      if r1.Ok? && fuel > 0 {
        EnterKeeps(P, rs, env, r1.st, r, r1.val);
        var d := |rs| + 1;
        var env' := In(d, r, BindRefs(r.params, r1.val));
        var st' := r1.st.(store := BindVals(r1.st.store, d, r.params, r1.val));
        StmtKeeps(P, rs + [r], fuel - 1, env', st', r.body);
        var r2 := EvalS(P, fuel - 1, env', st', r.body);
        if r2.Ok? { ReturnKeeps(P, rs, r, r2.st); }
      }
    }
  }

  // ---- statements ----

  /** Whatever runs to its end keeps every cell typed, checked or not. */
  lemma {:induction false} StmtKeeps(P: Program, rs: seq<Routine>, fuel: nat, env: Env, st: St, s: Stmt)
    requires Typed(P, rs, env, st)
    ensures EvalS(P, fuel, env, st, s).Ok? ==> StoreTyped(P, rs, EvalS(P, fuel, env, st, s).st.store)
    decreases fuel, s, 1
  {
    hide EvalE, EvalP, EvalCall, StoreTyped, EnvTyped, ProgramNames, CheckE, CheckP, CheckCall;
    match s
    case Skip =>
    case Seq(s1, s2) =>
      StmtKeeps(P, rs, fuel, env, st, s1);
      var r := EvalS(P, fuel, env, st, s1);
      if r.Ok? { StmtKeeps(P, rs, fuel, env, r.st, s2); }
    case Assign(_, _) => StoreAccepted(P, rs, fuel, env, st, s);
    case CopyField(_, _) => StoreAccepted(P, rs, fuel, env, st, s);
    case If(c, t) =>
      ExprAccepted(P, rs, fuel, env, st, c);
      var r := EvalE(P, fuel, env, st, c);
      if r.Ok? { StmtKeeps(P, rs, fuel, env, r.st, t); }
    case IfElse(c, t, e) =>
      ExprAccepted(P, rs, fuel, env, st, c);
      var r := EvalE(P, fuel, env, st, c);
      if r.Ok? {
        StmtKeeps(P, rs, fuel, env, r.st, t);
        StmtKeeps(P, rs, fuel, env, r.st, e);
      }
    case While(c, b) => WhileKeeps(P, rs, fuel, env, st, c, b);
    case CallStmt(f, args) => CallAccepted(P, rs, fuel, env, st, f, args);
    case WriteLit(_) =>
    case WriteVal(ty, e) => ExprAccepted(P, rs, fuel, env, st, e);
    case WriteLn =>
  }

  lemma {:induction false} WhileKeeps(P: Program, rs: seq<Routine>, fuel: nat, env: Env, st: St, c: Expr, b: Stmt)
    requires Typed(P, rs, env, st)
    ensures EvalS(P, fuel, env, st, While(c, b)).Ok? ==>
              StoreTyped(P, rs, EvalS(P, fuel, env, st, While(c, b)).st.store)
    decreases fuel, While(c, b), 0
  {
    hide EvalE, StoreTyped, EnvTyped, ProgramNames, CheckE;
    ExprAccepted(P, rs, fuel, env, st, c);
    var r := EvalE(P, fuel, env, st, c);
    if r.Ok? && r.val.VB? && r.val.b {
      StmtKeeps(P, rs, fuel, env, r.st, b);
      var r2 := EvalS(P, fuel, env, r.st, b);
      if r2.Ok? && fuel > 0 { WhileKeeps(P, rs, fuel - 1, env, r2.st, c, b); }
    }
  }

  lemma DepositKeeps(P: Program, rs: seq<Routine>, st: St, d: Dest, v: Value)
    requires StoreTyped(P, rs, st.store) && DestTyped(P, rs, d.l, d.elem) && Deposit(st, d, v).Ok?
    ensures d.elem == Scalar(TyOf(v)) && StoreTyped(P, rs, Deposit(st, d, v).st.store)
  {
    TyOfIs(v, d.elem.ty);
    DepositSafe(P, rs, st, d, v, d.elem.ty);
  }

  /** An assignment or field copy that runs is accepted. */
  lemma {:induction false} StoreAccepted(P: Program, rs: seq<Routine>, fuel: nat, env: Env, st: St, s: Stmt)
    requires Typed(P, rs, env, st) && (s.Assign? || s.CopyField?)
    ensures var r := EvalS(P, fuel, env, st, s); r.Ok? ==> CheckS(P, ScopeIn(env), s) && StoreTyped(P, rs, r.st.store)
    decreases fuel, s, 0
  {
    hide EvalE, EvalP, StoreTyped, EnvTyped, ProgramNames, CheckE, CheckP, DestTyped, Deposit, Fetch;
    if s.CopyField? {
      CopyAccepted(P, rs, fuel, env, st, s.dst, s.src);
    } else if s.p.Name? {
      ExprAccepted(P, rs, fuel, env, st, s.e);
      var r1 := EvalE(P, fuel, env, st, s.e);
      if r1.Ok? {
        PlaceAccepted(P, rs, fuel, env, r1.st, s.p);
        var r2 := EvalP(P, fuel, env, r1.st, s.p);
        if r2.Ok? && Deposit(r2.st, r2.val, r1.val).Ok? { DepositKeeps(P, rs, r2.st, r2.val, r1.val); }
      }
    } else {
      PlaceAccepted(P, rs, fuel, env, st, s.p);
      var r1 := EvalP(P, fuel, env, st, s.p);
      if r1.Ok? {
        ExprAccepted(P, rs, fuel, env, r1.st, s.e);
        var r2 := EvalE(P, fuel, env, r1.st, s.e);
        if r2.Ok? && Deposit(r2.st, r1.val, r2.val).Ok? { DepositKeeps(P, rs, r2.st, r1.val, r2.val); }
      }
    }
  }

  lemma {:induction false} CopyAccepted(P: Program, rs: seq<Routine>, fuel: nat, env: Env, st: St, d: Place, q: Place)
    requires Typed(P, rs, env, st)
    ensures var r := EvalS(P, fuel, env, st, CopyField(d, q));
            r.Ok? ==> CheckS(P, ScopeIn(env), CopyField(d, q)) && StoreTyped(P, rs, r.st.store)
    decreases fuel, CopyField(d, q), -1
  {
    hide EvalP, StoreTyped, EnvTyped, ProgramNames, CheckP, DestTyped, Deposit;
    PlaceAccepted(P, rs, fuel, env, st, q);
    var r1 := EvalP(P, fuel, env, st, q);
    if r1.Ok? && Fetch(r1.st, r1.val).Ok? {
      var v := Fetch(r1.st, r1.val).val;
      FetchSafe(P, rs, r1.st, r1.val, r1.val.elem.ty);
      TyOfIs(v, r1.val.elem.ty);
      PlaceAccepted(P, rs, fuel, env, r1.st, d);
      var r2 := EvalP(P, fuel, env, r1.st, d);
      if r2.Ok? && Deposit(r2.st, r2.val, v).Ok? { DepositKeeps(P, rs, r2.st, r2.val, v); }
    }
  }

  /** In some typed state of this scope, the statement comes to its end. */
  ghost predicate RunsFrom(P: Program, sc: Scope, s: Stmt, rs: seq<Routine>, env: Env, st: St, fuel: nat) {
    Typed(P, rs, env, st) && ScopeIn(env) == sc && EvalS(P, fuel, env, st, s).Ok?
  }

  ghost predicate Runs(P: Program, sc: Scope, s: Stmt) {
    exists rs, env, st, fuel: nat :: RunsFrom(P, sc, s, rs, env, st, fuel)
  }

  /** The statement and every statement in it do, each in a state of its own; a call that is a statement calls
      a procedure, since a function's value may not be dropped. */
  ghost predicate RunsAll(P: Program, sc: Scope, s: Stmt) {
    && Runs(P, sc, s)
    && match s
       case Seq(s1, s2) => RunsAll(P, sc, s1) && RunsAll(P, sc, s2)
       case If(_, t) => RunsAll(P, sc, t)
       case IfElse(_, t, e) => RunsAll(P, sc, t) && RunsAll(P, sc, e)
       case While(_, b) => RunsAll(P, sc, b)
       case CallStmt(f, _) => IsProcedure(P, f)
       case _ => true
  }

  predicate IsProcedure(P: Program, f: string) {
    var r := FindRoutine(P.routines, f);
    r.Some? ==> r.value.result.None?
  }

  /** Then it is accepted. */
  lemma {:induction false} StmtAccepted(P: Program, sc: Scope, s: Stmt)
    requires RunsAll(P, sc, s)
    ensures CheckS(P, sc, s)
  {
    var rs, env, st, fuel: nat :| RunsFrom(P, sc, s, rs, env, st, fuel);
    StepAccepted(P, rs, fuel, env, st, s);
    match s
    case Seq(s1, s2) =>
      StmtAccepted(P, sc, s1);
      StmtAccepted(P, sc, s2);
    case If(_, t) => StmtAccepted(P, sc, t);
    case IfElse(_, t, e) =>
      StmtAccepted(P, sc, t);
      StmtAccepted(P, sc, e);
    case While(_, b) => StmtAccepted(P, sc, b);
    case _ =>
  }

  /** What a statement that comes to its end says about its own expressions. */
  lemma StepAccepted(P: Program, rs: seq<Routine>, fuel: nat, env: Env, st: St, s: Stmt)
    requires Typed(P, rs, env, st) && EvalS(P, fuel, env, st, s).Ok? && (s.CallStmt? ==> IsProcedure(P, s.f))
    ensures s.If? || s.IfElse? || s.While? ==> CheckE(P, ScopeIn(env), s.c) == Some(Scalar(TBool))
    ensures !(s.Seq? || s.If? || s.IfElse? || s.While?) ==> CheckS(P, ScopeIn(env), s)
  {
    hide EvalE, EvalP, EvalCall, StoreTyped, EnvTyped, ProgramNames, CheckE, CheckP, CheckCall;
    match s
    case Assign(_, _) => StoreAccepted(P, rs, fuel, env, st, s);
    case CopyField(_, _) => StoreAccepted(P, rs, fuel, env, st, s);
    case If(c, _) => ExprAccepted(P, rs, fuel, env, st, c);
    case IfElse(c, _, _) => ExprAccepted(P, rs, fuel, env, st, c);
    case While(c, _) => ExprAccepted(P, rs, fuel, env, st, c);
    case CallStmt(f, args) => CallAccepted(P, rs, fuel, env, st, f, args);
    case WriteVal(_, e) => ExprAccepted(P, rs, fuel, env, st, e);
    case _ =>
  }

  lemma {:induction false} NoVar(ds: seq<VarDecl>, x: string)
    requires forall i :: 0 <= i < |ds| ==> ds[i].name != x
    ensures FindVar(ds, x).None?
  {
    if ds != [] { NoVar(ds[1..], x); }
  }

  /** A program with its names in order, whose value parameters are scalars and whose statements all come to an
      end somewhere, is accepted. */
  lemma ProgramAccepted(P: Program)
    requires ProgramNames(P) && RunsAll(P, None, P.main)
    requires forall r :: r in P.routines ==> RunsAll(P, Some(r), r.body)
    requires forall r, i :: r in P.routines && 0 <= i < |r.params| && !r.params[i].isVar ==> r.params[i].elem.Scalar?
    ensures CheckProgram(P)
  {
    hide RunsAll, CheckS;
    StmtAccepted(P, None, P.main);
    forall r | r in P.routines
      ensures CheckRoutine(P, r)
    {
      assert RoutineNames(r);
      StmtAccepted(P, Some(r), r.body);
      if r.result.Some? {
        NoParam(r.params, r.name);
        NoVar(r.locals, r.name);
      }
    }
    forall i | 0 <= i < |P.routines|
      ensures FindVar(P.globals, P.routines[i].name).None?
    {
      NoVar(P.globals, P.routines[i].name);
    }
  }

  /** What acceptance demands besides types: the names are in order, value parameters are scalars, and no call
      drops a function's value. */
  lemma AcceptedNames(P: Program)
    requires CheckProgram(P)
    ensures ProgramNames(P)
    ensures forall r, i :: r in P.routines && 0 <= i < |r.params| && !r.params[i].isVar ==> r.params[i].elem.Scalar?
  {
    forall r | r in P.routines
      ensures RoutineNames(r)
    {
      assert CheckRoutine(P, r);
      if r.result.Some? {
        ParamAbsent(r.params, r.name);
        NotFound(r.locals, r.name);
      }
    }
    forall i, j | 0 <= i < |P.globals| && 0 <= j < |P.routines|
      ensures P.globals[i].name != P.routines[j].name
    {
      NotFound(P.globals, P.routines[j].name);
    }
  }

  lemma {:induction false} ParamAbsent(ps: seq<Param>, x: string)
    requires FindParam(ps, x).None?
    ensures forall i :: 0 <= i < |ps| ==> ps[i].name != x
  {
    if ps != [] {
      ParamAbsent(ps[1..], x);
      assert forall i :: 1 <= i < |ps| ==> ps[i] == ps[1..][i - 1];
    }
  }

  lemma CallsAreProcedures(P: Program, sc: Scope, f: string, args: Exprs)
    requires CheckS(P, sc, CallStmt(f, args))
    ensures FindRoutine(P.routines, f).Some? && IsProcedure(P, f)
  {
    hide CheckArgs;
  }

  // ---- constants ----

  /** A record copy reads no constant, which is never a record. */
  predicate CopiesFrom(s: Stmt, K: set<string>) {
    match s
    case Seq(s1, s2) => CopiesFrom(s1, K) || CopiesFrom(s2, K)
    case CopyField(_, q) => q.x in K
    case If(_, t) => CopiesFrom(t, K)
    case IfElse(_, t, e) => CopiesFrom(t, K) || CopiesFrom(e, K)
    case While(_, b) => CopiesFrom(b, K)
    case _ => false
  }

  /** The rule on constants refuses exactly what assigns one or passes one by reference. */
  lemma {:induction false} FairExact(P: Program, K: set<string>, s: Stmt)
    ensures FairS(P, K, s) <==> !Threatens(P, s, K) && !CopiesFrom(s, K)
  {
    match s
    case Seq(s1, s2) =>
      FairExact(P, K, s1);
      FairExact(P, K, s2);
    case Assign(p, e) =>
      FairExactP(P, K, p);
      FairExactE(P, K, e);
    case CopyField(d, q) =>
      FairExactP(P, K, d);
      FairExactP(P, K, q);
    case If(c, t) =>
      FairExactE(P, K, c);
      FairExact(P, K, t);
    case IfElse(c, t, e) =>
      FairExactE(P, K, c);
      FairExact(P, K, t);
      FairExact(P, K, e);
    case While(c, b) =>
      FairExactE(P, K, c);
      FairExact(P, K, b);
    case CallStmt(f, args) => FairExactC(P, K, f, args);
    case WriteVal(_, e) => FairExactE(P, K, e);
    case _ =>
  }

  lemma {:induction false} FairExactE(P: Program, K: set<string>, e: Expr)
    ensures FairE(P, K, e) <==> !LendsE(P, e, K)
    decreases e, 0
  {
    match e
    case Read(p) => FairExactP(P, K, p);
    case Binop(_, l, r) =>
      FairExactE(P, K, l);
      FairExactE(P, K, r);
    case Unop(_, e1) => FairExactE(P, K, e1);
    case Call(f, args) => FairExactC(P, K, f, args);
    case _ =>
  }

  lemma {:induction false} FairExactP(P: Program, K: set<string>, p: Place)
    ensures FairP(P, K, p) <==> !LendsP(P, p, K)
    decreases p, 0
  {
    if p.At? || p.AtField? { FairExactE(P, K, p.idx); }
  }

  lemma {:induction false} FairExactC(P: Program, K: set<string>, f: string, args: Exprs)
    ensures FairC(P, K, f, args) <==> !LendsC(P, f, args, K)
    decreases args, 1
  {
    var r := FindRoutine(P.routines, f);
    if r.Some? && Length(args) == |r.value.params| { FairExactA(P, K, args, r.value.params); }
  }

  lemma {:induction false} FairExactA(P: Program, K: set<string>, args: Exprs, ps: seq<Param>)
    requires Length(args) == |ps|
    ensures FairA(P, K, args, ps) <==> !LendsA(P, args, ps, K)
    decreases args, 0
  {
    if args.Cons? {
      FairExactE(P, K, args.hd);
      FairExactA(P, K, args.tl, ps[1..]);
    }
  }
}
