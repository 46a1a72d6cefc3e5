/** Constants have no storage: the parser replaces each use by a literal, under the set of names the
    current routine shadows. The meaning of a constant is what it would be if it had a cell of its own
    that nobody assigns; folding preserves it. */
module Folding {
  import opened Int32
  import opened Syntax
  import opened Semantics
  import opened Typecheck

  /** Constants with their literals. */
  type Consts = map<string, Expr>

  predicate IsLit(e: Expr) { e.IntLit? || e.BoolLit? || e.CharLit? }

  predicate Lits(K: Consts) { forall x :: x in K ==> IsLit(K[x]) }

  // ---- folding ----

  /** A name is replaced only where it stands alone as a factor. */
  function FoldE(K: Consts, e: Expr): Expr
    decreases e, 0
  {
    match e
    case Read(Name(x)) => if x in K then K[x] else e
    case Read(p) => Read(FoldP(K, p))
    case Binop(op, l, r) => Binop(op, FoldE(K, l), FoldE(K, r))
    case Unop(op, e1) => Unop(op, FoldE(K, e1))
    case Call(f, args) => Call(f, FoldA(K, args))
    case _ => e
  }

  function FoldP(K: Consts, p: Place): Place
    decreases p, 0
  {
    match p
    case At(x, idx) => At(x, FoldE(K, idx))
    case AtField(x, idx, k) => AtField(x, FoldE(K, idx), k)
    case _ => p
  }

  function FoldA(K: Consts, es: Exprs): (r: Exprs)
    ensures Length(r) == Length(es)
    decreases es, 0
  {
    match es
    case Nil => Nil
    case Cons(e, rest) => Cons(FoldE(K, e), FoldA(K, rest))
  }

  function FoldS(K: Consts, s: Stmt): Stmt {
    match s
    case Seq(s1, s2) => Seq(FoldS(K, s1), FoldS(K, s2))
    case Assign(p, e) => Assign(FoldP(K, p), FoldE(K, e))
    case CopyField(d, q) => CopyField(FoldP(K, d), FoldP(K, q))
    case If(c, t) => If(FoldE(K, c), FoldS(K, t))
    case IfElse(c, t, e) => IfElse(FoldE(K, c), FoldS(K, t), FoldS(K, e))
    case While(c, b) => While(FoldE(K, c), FoldS(K, b))
    case CallStmt(f, args) => CallStmt(f, FoldA(K, args))
    case WriteVal(ty, e) => WriteVal(ty, FoldE(K, e))
    case _ => s
  }

  /** The constants a routine's own names leave visible. */
  function Visible(K: Consts, r: Routine): Consts {
    map x | x in K && FindDecl(r, x).None? :: K[x]
  }

  function FoldR(K: Consts, r: Routine): Routine { r.(body := FoldS(Visible(K, r), r.body)) }

  function FoldRs(K: Consts, rs: seq<Routine>): seq<Routine> {
    if rs == [] then [] else [FoldR(K, rs[0])] + FoldRs(K, rs[1..])
  }

  // ---- the reference: constants as cells ----

  /** A program whose globals are the variables `vars` and one cell per constant. */
  ghost predicate Keeps(U: Program, vars: seq<VarDecl>, K: Consts) {
    && Lits(K)
    && (forall x :: x in K ==> FindVar(vars, x).None? && FindVar(U.globals, x) == Some(One(Scalar(LitTy(K[x])))))
    && (forall x :: x !in K ==> FindVar(U.globals, x) == FindVar(vars, x))
  }

  function LitTy(e: Expr): Ty { if e.BoolLit? then TBool else if e.CharLit? then TChar else TInt }

  function LitVal(e: Expr): Value {
    match e
    case IntLit(n) => VI(Wrap(n))
    case BoolLit(b) => VB(b)
    case CharLit(c) => VC(c % 256)
    case _ => VI(0)
  }

  function Cells0(K: Consts): Store { map x | x in K :: Glob(x, 0) := LitVal(K[x]) }

  /** A state with the constants' cells added. */
  function Join(st: St, K: Consts): St { st.(store := st.store + Cells0(K)) }

  function Joined<T>(r: Res<T>, K: Consts): Res<T> { if r.Ok? then Ok(r.val, Join(r.st, K)) else r }

  function Folded(U: Program, vars: seq<VarDecl>, K: Consts): Program {
    Program(vars, FoldRs(K, U.routines), FoldS(K, U.main))
  }

  // ---- scopes ----

  function Seen(K: Consts, env: Env): Consts { if env.Main? then K else Visible(K, env.r) }

  function FoldEnv(K: Consts, env: Env): Env {
    if env.Main? then Main else In(env.d, FoldR(K, env.r), env.refs)
  }

  predicate ConstCell(K: Consts, l: Loc) { l.Glob? && l.x in K }

  ghost predicate Setting(U: Program, vars: seq<VarDecl>, K: Consts, env: Env) {
    && Keeps(U, vars, K) && FairProgram(U, K.Keys)
    && (env.In? ==> env.r in U.routines && forall y :: y in env.refs ==> !ConstCell(K, env.refs[y]))
  }

  lemma {:induction false} FindFolded(K: Consts, rs: seq<Routine>, f: string)
    ensures var o := FindRoutine(rs, f);
            FindRoutine(FoldRs(K, rs), f) == if o.Some? then Some(FoldR(K, o.value)) else None
  {
    if rs != [] { FindFolded(K, rs[1..], f); }
  }

  /** Names other than visible constants mean the same in both programs. */
  lemma LookupFold(U: Program, vars: seq<VarDecl>, K: Consts, env: Env, x: string)
    requires Setting(U, vars, K, env)
    ensures x !in Seen(K, env) ==> Lookup(U, env, x) == Lookup(Folded(U, vars, K), FoldEnv(K, env), x)
    ensures x !in Seen(K, env) && Lookup(U, env, x).Some? ==> !ConstCell(K, Lookup(U, env, x).value.base)
    ensures x in Seen(K, env) ==> Lookup(U, env, x) == Some(Target(Glob(x, 0), One(Scalar(LitTy(K[x])))))
                                  && Lookup(Folded(U, vars, K), FoldEnv(K, env), x).None?
  {
    if env.In? { assert FindDecl(FoldR(K, env.r), x) == FindDecl(env.r, x); }
  }

  // ---- preservation ----

  lemma OpsJoined(op: BinOp, uop: UnOp, a: Value, b: Value, st: St, K: Consts)
    ensures ApplyBin(op, a, b, Join(st, K)) == Joined(ApplyBin(op, a, b, st), K)
    ensures ApplyUn(uop, a, Join(st, K)) == Joined(ApplyUn(uop, a, st), K)
  {
  }

  lemma CellJoined(st: St, d: Dest, v: Value, K: Consts)
    requires !ConstCell(K, d.l)
    ensures Fetch(Join(st, K), d) == Joined(Fetch(st, d), K)
    ensures Deposit(Join(st, K), d, v) == Joined(Deposit(st, d, v), K)
  {
    if Deposit(st, d, v).Ok? {
      assert st.store[d.l := v] + Cells0(K) == (st.store + Cells0(K))[d.l := v];
    }
  }

  lemma ConstRead(U: Program, vars: seq<VarDecl>, K: Consts, fuel: nat, env: Env, st: St, x: string)
    requires Setting(U, vars, K, env) && x in Seen(K, env)
    ensures EvalE(U, fuel, env, Join(st, K), Read(Name(x))) == Ok(LitVal(K[x]), Join(st, K))
    ensures EvalE(Folded(U, vars, K), fuel, FoldEnv(K, env), st, Seen(K, env)[x]) == Ok(LitVal(K[x]), st)
  {
    LookupFold(U, vars, K, env, x);
    assert IsLit(K[x]);
    assert Join(st, K).store[Glob(x, 0)] == LitVal(K[x]);
    hide Lookup, Setting;
  }

  lemma NameRead(U: Program, vars: seq<VarDecl>, K: Consts, fuel: nat, env: Env, st: St, p: Place)
    requires EvalP(U, fuel, env, Join(st, K), p)
             == Joined(EvalP(Folded(U, vars, K), fuel, FoldEnv(K, env), st, FoldP(Seen(K, env), p)), K)
    requires var d := EvalP(Folded(U, vars, K), fuel, FoldEnv(K, env), st, FoldP(Seen(K, env), p));
             d.Ok? ==> !ConstCell(K, d.val.l)
    ensures EvalE(U, fuel, env, Join(st, K), Read(p))
         == Joined(EvalE(Folded(U, vars, K), fuel, FoldEnv(K, env), st, Read(FoldP(Seen(K, env), p))), K)
  {
    hide EvalP, Join, Fetch, ConstCell, Folded, FoldEnv, FoldP, Seen;
    var d := EvalP(Folded(U, vars, K), fuel, FoldEnv(K, env), st, FoldP(Seen(K, env), p));
    if d.Ok? { CellJoined(d.st, d.val, VI(0), K); }
  }

  lemma {:induction false} KeepsE(U: Program, vars: seq<VarDecl>, K: Consts, fuel: nat, env: Env, st: St, e: Expr)
    requires Setting(U, vars, K, env) && FairE(U, Seen(K, env).Keys, e)
    ensures EvalE(U, fuel, env, Join(st, K), e)
            == Joined(EvalE(Folded(U, vars, K), fuel, FoldEnv(K, env), st, FoldE(Seen(K, env), e)), K)
    decreases fuel, e, 0
  {
    hide ApplyBin, ApplyUn, Fetch, EvalCall, EvalP, Setting, Join, Folded, FoldEnv, Seen, FairP, FairC, FoldP, FoldA;
    var F, env', N := Folded(U, vars, K), FoldEnv(K, env), Seen(K, env);
    match e
    case IntLit(_) =>
    case BoolLit(_) =>
    case CharLit(_) =>
    case Read(p) =>
      if p.Name? && p.x in N {
        ConstRead(U, vars, K, fuel, env, st, p.x);
      } else {
        KeepsP(U, vars, K, fuel, env, st, p);
        NameRead(U, vars, K, fuel, env, st, p);
        FoldRead(N, p);
      }
    case Binop(op, e1, e2) =>
      KeepsE(U, vars, K, fuel, env, st, e1);
      var a := EvalE(F, fuel, env', st, FoldE(N, e1));
      if a.Ok? {
        KeepsE(U, vars, K, fuel, env, a.st, e2);
        var b := EvalE(F, fuel, env', a.st, FoldE(N, e2));
        if b.Ok? { OpsJoined(op, Neg, a.val, b.val, b.st, K); }
      }
    case Unop(op, e1) =>
      KeepsE(U, vars, K, fuel, env, st, e1);
      var a := EvalE(F, fuel, env', st, FoldE(N, e1));
      if a.Ok? { OpsJoined(Add, op, a.val, a.val, a.st, K); }
    case Call(f, args) => KeepsCall(U, vars, K, fuel, env, st, f, args);
  }

  lemma FoldRead(N: Consts, p: Place)
    requires !(p.Name? && p.x in N)
    ensures FoldE(N, Read(p)) == Read(FoldP(N, p))
  {
  }

  lemma {:induction false} KeepsP(U: Program, vars: seq<VarDecl>, K: Consts, fuel: nat, env: Env, st: St, p: Place)
    requires Setting(U, vars, K, env) && FairP(U, Seen(K, env).Keys, p) && !(p.Name? && p.x in Seen(K, env))
    ensures EvalP(U, fuel, env, Join(st, K), p)
            == Joined(EvalP(Folded(U, vars, K), fuel, FoldEnv(K, env), st, FoldP(Seen(K, env), p)), K)
    ensures var d := EvalP(Folded(U, vars, K), fuel, FoldEnv(K, env), st, FoldP(Seen(K, env), p));
            d.Ok? ==> !ConstCell(K, d.val.l)
    decreases fuel, p, 0
  {
    hide EvalElem, Setting, Lookup, Join, Folded, FoldEnv, Seen;
    LookupFold(U, vars, K, env, p.x);
    var F, env', N := Folded(U, vars, K), FoldEnv(K, env), Seen(K, env);
    var t := Lookup(U, env, p.x);
    match p
    case Name(_) =>
    case Field(_, k) =>
    case At(_, idx) =>
      if t.Some? { KeepsElem(U, vars, K, fuel, env, st, idx, t.value.base, t.value.shape); }
      if p.x in N { NotArray(U, fuel, env, Join(st, K), idx, t.value.base, t.value.shape); }
    case AtField(_, idx, k) =>
      if t.Some? { KeepsElem(U, vars, K, fuel, env, st, idx, t.value.base, t.value.shape); }
      if p.x in N { NotArray(U, fuel, env, Join(st, K), idx, t.value.base, t.value.shape); }
  }

  lemma NotArray(U: Program, fuel: nat, env: Env, st: St, idx: Expr, base: Loc, shape: Shape)
    requires shape.One?
    ensures EvalElem(U, fuel, env, st, idx, base, shape) == TypeErr
  {
  }

  lemma {:induction false} KeepsElem(U: Program, vars: seq<VarDecl>, K: Consts, fuel: nat, env: Env, st: St, idx: Expr,
                                     base: Loc, shape: Shape)
    requires Setting(U, vars, K, env) && FairE(U, Seen(K, env).Keys, idx)
    ensures EvalElem(U, fuel, env, Join(st, K), idx, base, shape)
         == Joined(EvalElem(Folded(U, vars, K), fuel, FoldEnv(K, env), st, FoldE(Seen(K, env), idx), base, shape), K)
    ensures var d := EvalElem(Folded(U, vars, K), fuel, FoldEnv(K, env), st, FoldE(Seen(K, env), idx), base, shape);
            d.Ok? ==> ConstCell(K, d.val.l) == ConstCell(K, base)
    decreases fuel, idx, 1
  {
    hide EvalE, Setting, Join, Folded, FoldEnv, Seen, FairE, FoldE, Words;
    KeepsE(U, vars, K, fuel, env, st, idx);
  }

  lemma {:induction false} KeepsArgs(U: Program, vars: seq<VarDecl>, K: Consts, fuel: nat, env: Env, st: St,
                                     args: Exprs, ps: seq<Param>)
    requires Setting(U, vars, K, env) && Length(args) == |ps| && FairA(U, Seen(K, env).Keys, args, ps)
    ensures EvalArgs(U, fuel, env, Join(st, K), args, ps)
         == Joined(EvalArgs(Folded(U, vars, K), fuel, FoldEnv(K, env), st, FoldA(Seen(K, env), args), ps), K)
    ensures var a := EvalArgs(Folded(U, vars, K), fuel, FoldEnv(K, env), st, FoldA(Seen(K, env), args), ps);
            a.Ok? ==> NoConstRefs(K, a.val)
    decreases fuel, args, 0
  {
    hide EvalE, EvalP, Setting, Join, Folded, FoldEnv, Seen, FairE, FoldE, ConstCell;
    var F, env', N := Folded(U, vars, K), FoldEnv(K, env), Seen(K, env);
    if args.Cons? {
      KeepsArgs(U, vars, K, fuel, env, st, args.tl, ps[1..]);
      var r := EvalArgs(F, fuel, env', st, FoldA(N, args.tl), ps[1..]);
      if r.Ok? {
        if !ps[0].isVar { KeepsE(U, vars, K, fuel, env, r.st, args.hd); }
        FoldIsRead(N, args.hd);
        if ps[0].isVar && args.hd.Read? {
          FairRead(U, N.Keys, args.hd.p);
          FoldRead(N, args.hd.p);
          KeepsP(U, vars, K, fuel, env, r.st, args.hd.p);
        }
      }
    }
  }

  predicate NoConstRefs(K: Consts, acts: seq<Actual>) {
    forall i :: 0 <= i < |acts| && acts[i].Ref? ==> !ConstCell(K, acts[i].l)
  }

  lemma FoldIsRead(N: Consts, e: Expr)
    ensures !e.Read? ==> !FoldE(N, e).Read?
  {
  }

  lemma FairRead(U: Program, N: set<string>, p: Place)
    requires FairE(U, N, Read(p))
    ensures FairP(U, N, p)
  {
  }

  lemma {:induction false} RefsFree(K: Consts, ps: seq<Param>, acts: seq<Actual>)
    requires |ps| == |acts| && NoConstRefs(K, acts)
    ensures forall y :: y in BindRefs(ps, acts) ==> !ConstCell(K, BindRefs(ps, acts)[y])
  {
    if ps != [] { RefsFree(K, ps[1..], acts[1..]); }
  }

  lemma {:induction false} BindJoined(m: Store, d: nat, ps: seq<Param>, acts: seq<Actual>, K: Consts)
    requires |ps| == |acts|
    ensures BindVals(m + Cells0(K), d, ps, acts) == BindVals(m, d, ps, acts) + Cells0(K)
  {
    if ps != [] {
      BindJoined(m, d, ps[1..], acts[1..], K);
      if acts[0].Val? {
        var rest, k := BindVals(m, d, ps[1..], acts[1..]), Local(d, ps[0].name, 0);
        assert (rest + Cells0(K))[k := acts[0].v] == rest[k := acts[0].v] + Cells0(K);
      }
    }
  }

  lemma ReturnJoined(st: St, d: nat, r: Routine, K: Consts)
    ensures Return(Join(st, K), d, r) == Joined(Return(st, d, r), K)
  {
    assert Pop(st.store + Cells0(K), d) == Pop(st.store, d) + Cells0(K);
  }

  lemma EnteredJoined(st: St, d: nat, r: Routine, acts: seq<Actual>, K: Consts)
    requires |acts| == |r.params|
    ensures Entered(Join(st, K), d, r, acts) == Join(Entered(st, d, r, acts), K)
    ensures Entered(st, d, FoldR(K, r), acts) == Entered(st, d, r, acts)
  {
    BindJoined(st.store, d, r.params, acts, K);
  }

  lemma EnterSetting(U: Program, vars: seq<VarDecl>, K: Consts, env: Env, r: Routine, acts: seq<Actual>)
    requires Setting(U, vars, K, env) && r in U.routines && |acts| == |r.params| && NoConstRefs(K, acts)
    ensures var env' := In(Depth(env) + 1, r, BindRefs(r.params, acts));
            Setting(U, vars, K, env') && FairS(U, Seen(K, env').Keys, r.body)
              && FoldEnv(K, env') == In(Depth(env) + 1, FoldR(K, r), BindRefs(r.params, acts))
    ensures Depth(FoldEnv(K, env)) == Depth(env)
  {
    RefsFree(K, r.params, acts);
    assert Unhidden(K.Keys, r) == Visible(K, r).Keys;
  }

  lemma NoCall(P: Program, fuel: nat, env: Env, st: St, f: string, args: Exprs)
    requires var o := FindRoutine(P.routines, f); o.None? || Length(args) != |o.value.params|
    ensures EvalCall(P, fuel, env, st, f, args) == TypeErr
  {
  }

  lemma {:induction false} KeepsCall(U: Program, vars: seq<VarDecl>, K: Consts, fuel: nat, env: Env, st: St, f: string,
                                     args: Exprs)
    requires Setting(U, vars, K, env) && FairC(U, Seen(K, env).Keys, f, args)
    ensures EvalCall(U, fuel, env, Join(st, K), f, args)
         == Joined(EvalCall(Folded(U, vars, K), fuel, FoldEnv(K, env), st, f, FoldA(Seen(K, env), args)), K)
    decreases fuel, args, 2
  {
    var F := Folded(U, vars, K);
    hide EvalCall, Setting, Join, FoldEnv, Seen;
    FindFolded(K, U.routines, f);
    var o := FindRoutine(U.routines, f);
    if o.Some? && Length(args) == |o.value.params| {
      KeepsBody(U, vars, K, fuel, env, st, f, args, o.value);
    } else {
      NoCall(U, fuel, env, Join(st, K), f, args);
      NoCall(F, fuel, FoldEnv(K, env), st, f, FoldA(Seen(K, env), args));
    }
  }

  lemma {:induction false} KeepsBody(U: Program, vars: seq<VarDecl>, K: Consts, fuel: nat, env: Env, st: St, f: string,
                                     args: Exprs, r: Routine)
    requires Setting(U, vars, K, env) && FindRoutine(U.routines, f) == Some(r) && Length(args) == |r.params|
    requires FairA(U, Seen(K, env).Keys, args, r.params)
    requires FindRoutine(Folded(U, vars, K).routines, f) == Some(FoldR(K, r))
    ensures EvalCall(U, fuel, env, Join(st, K), f, args)
         == Joined(EvalCall(Folded(U, vars, K), fuel, FoldEnv(K, env), st, f, FoldA(Seen(K, env), args)), K)
    decreases fuel, args, 1
  {
    hide EvalCall, EvalArgs, EvalS, Return, Setting, Join, Folded, FoldEnv, Seen, Entered, FairA, BindRefs, FindRoutine,
      NoConstRefs, FairS;
    var F, env', N, d := Folded(U, vars, K), FoldEnv(K, env), Seen(K, env), Depth(env) + 1;
    CallIs(U, fuel, env, Join(st, K), f, args, r);
    CallIs(F, fuel, env', st, f, FoldA(N, args), FoldR(K, r));
    KeepsArgs(U, vars, K, fuel, env, st, args, r.params);
    var a := EvalArgs(F, fuel, env', st, FoldA(N, args), r.params);
    if a.Ok? {
      JoinOut(a.st, K);
      EnterSetting(U, vars, K, env, r, a.val);
      if fuel > 0 {
        EnteredJoined(a.st, d, r, a.val, K);
        var envB := In(d, r, BindRefs(r.params, a.val));
        KeepsS(U, vars, K, fuel - 1, envB, Entered(a.st, d, r, a.val), r.body);
        BodyFolded(K, envB);
        var b := EvalS(F, fuel - 1, FoldEnv(K, envB), Entered(a.st, d, r, a.val), FoldS(Seen(K, envB), r.body));
        if b.Ok? { ReturnJoined(b.st, d, r, K); ReturnFolded(b.st, d, r, K); }
      }
    }
  }

  lemma JoinOut(st: St, K: Consts)
    ensures Join(st, K).out == st.out
  {
  }

  lemma BodyFolded(K: Consts, env: Env)
    requires env.In?
    ensures FoldR(K, env.r).body == FoldS(Seen(K, env), env.r.body)
  {
  }

  lemma ReturnFolded(st: St, d: nat, r: Routine, K: Consts)
    ensures Return(st, d, FoldR(K, r)) == Return(st, d, r)
  {
  }

  lemma WriteJoined(ty: Ty, v: Value, st: St, e: Event, K: Consts)
    ensures Show(ty, v, Join(st, K)) == Joined(Show(ty, v, st), K)
    ensures Tell(Join(st, K), e) == Join(Tell(st, e), K)
  {
  }

  lemma {:induction false} KeepsS(U: Program, vars: seq<VarDecl>, K: Consts, fuel: nat, env: Env, st: St, s: Stmt)
    requires Setting(U, vars, K, env) && FairS(U, Seen(K, env).Keys, s)
    ensures EvalS(U, fuel, env, Join(st, K), s)
            == Joined(EvalS(Folded(U, vars, K), fuel, FoldEnv(K, env), st, FoldS(Seen(K, env), s)), K)
    decreases fuel, s, 1
  {
    hide EvalE, EvalP, EvalCall, Fetch, Deposit, Setting, Join, Folded, FoldEnv, Seen, FairE, FairP, FairC, FoldE,
      FoldP,
      FoldA, Show, Tell;
    var F, env', N := Folded(U, vars, K), FoldEnv(K, env), Seen(K, env);
    match s
    case Skip =>
    case Seq(s1, s2) =>
      KeepsS(U, vars, K, fuel, env, st, s1);
      var r := EvalS(F, fuel, env', st, FoldS(N, s1));
      if r.Ok? { KeepsS(U, vars, K, fuel, env, r.st, s2); }
    case Assign(_, _) => KeepsStore(U, vars, K, fuel, env, st, s);
    case CopyField(_, _) => KeepsStore(U, vars, K, fuel, env, st, s);
    case If(_, _) => KeepsIf(U, vars, K, fuel, env, st, s);
    case IfElse(_, _, _) => KeepsIf(U, vars, K, fuel, env, st, s);
    case While(c, b) => KeepsWhile(U, vars, K, fuel, env, st, c, b);
    case CallStmt(f, args) => KeepsCall(U, vars, K, fuel, env, st, f, args);
    case WriteLit(text) => WriteJoined(TInt, VI(0), st, EText(text), K);
    case WriteVal(ty, e) =>
      KeepsE(U, vars, K, fuel, env, st, e);
      var r := EvalE(F, fuel, env', st, FoldE(N, e));
      if r.Ok? { WriteJoined(ty, r.val, r.st, EByte(0), K); }
    case WriteLn => WriteJoined(TInt, VI(0), st, EByte(10), K);
  }

  lemma {:induction false} KeepsIf(U: Program, vars: seq<VarDecl>, K: Consts, fuel: nat, env: Env, st: St, s: Stmt)
    requires (s.If? || s.IfElse?) && Setting(U, vars, K, env) && FairS(U, Seen(K, env).Keys, s)
    ensures EvalS(U, fuel, env, Join(st, K), s)
            == Joined(EvalS(Folded(U, vars, K), fuel, FoldEnv(K, env), st, FoldS(Seen(K, env), s)), K)
    decreases fuel, s, 0
  {
    hide EvalE, Setting, Join, Folded, FoldEnv, Seen, FairE, FoldE;
    KeepsE(U, vars, K, fuel, env, st, s.c);
    var r := EvalE(Folded(U, vars, K), fuel, FoldEnv(K, env), st, FoldE(Seen(K, env), s.c));
    if r.Ok? {
      KeepsS(U, vars, K, fuel, env, r.st, s.t);
      if s.IfElse? { KeepsS(U, vars, K, fuel, env, r.st, s.els); }
    }
  }

  lemma FoldPName(N: Consts, p: Place)
    ensures FoldP(N, p).Name? == p.Name? && FoldP(N, p).x == p.x
  {
  }

  lemma KeepsStore(U: Program, vars: seq<VarDecl>, K: Consts, fuel: nat, env: Env, st: St, s: Stmt)
    requires (s.Assign? || s.CopyField?) && Setting(U, vars, K, env) && FairS(U, Seen(K, env).Keys, s)
    ensures EvalS(U, fuel, env, Join(st, K), s)
            == Joined(EvalS(Folded(U, vars, K), fuel, FoldEnv(K, env), st, FoldS(Seen(K, env), s)), K)
    decreases fuel, s, 0
  {
    hide EvalE, EvalP, Fetch, Deposit, Setting, Join, Folded, FoldEnv, Seen, FairE, FairP, FoldE, FoldP, ConstCell;
    var F, env', N := Folded(U, vars, K), FoldEnv(K, env), Seen(K, env);
    if s.Assign? {
      FoldPName(N, s.p);
      if s.p.Name? {
        KeepsE(U, vars, K, fuel, env, st, s.e);
        var r := EvalE(F, fuel, env', st, FoldE(N, s.e));
        if r.Ok? {
          KeepsP(U, vars, K, fuel, env, r.st, s.p);
          var d := EvalP(F, fuel, env', r.st, FoldP(N, s.p));
          if d.Ok? { CellJoined(d.st, d.val, r.val, K); }
        }
      } else {
        KeepsP(U, vars, K, fuel, env, st, s.p);
        var d := EvalP(F, fuel, env', st, FoldP(N, s.p));
        if d.Ok? {
          KeepsE(U, vars, K, fuel, env, d.st, s.e);
          var r := EvalE(F, fuel, env', d.st, FoldE(N, s.e));
          if r.Ok? { CellJoined(r.st, d.val, r.val, K); }
        }
      }
    } else {
      KeepsP(U, vars, K, fuel, env, st, s.src);
      var d := EvalP(F, fuel, env', st, FoldP(N, s.src));
      if d.Ok? {
        CellJoined(d.st, d.val, VI(0), K);
        var v := Fetch(d.st, d.val);
        if v.Ok? {
          KeepsP(U, vars, K, fuel, env, v.st, s.dst);
          var d' := EvalP(F, fuel, env', v.st, FoldP(N, s.dst));
          if d'.Ok? { CellJoined(d'.st, d'.val, v.val, K); }
        }
      }
    }
  }

  lemma {:induction false} KeepsWhile(U: Program, vars: seq<VarDecl>, K: Consts, fuel: nat, env: Env, st: St, c: Expr,
                                      b: Stmt)
    requires Setting(U, vars, K, env) && FairS(U, Seen(K, env).Keys, While(c, b))
    ensures EvalS(U, fuel, env, Join(st, K), While(c, b))
         == Joined(EvalS(Folded(U, vars, K), fuel, FoldEnv(K, env), st, FoldS(Seen(K, env), While(c, b))), K)
    decreases fuel, While(c, b), 0
  {
    hide EvalE, Setting, Join, Folded, FoldEnv, Seen, FairE, FoldE;
    var F, env', N := Folded(U, vars, K), FoldEnv(K, env), Seen(K, env);
    KeepsE(U, vars, K, fuel, env, st, c);
    var r := EvalE(F, fuel, env', st, FoldE(N, c));
    if r.Ok? && r.val.VB? && r.val.b {
      KeepsS(U, vars, K, fuel, env, r.st, b);
      var r2 := EvalS(F, fuel, env', r.st, FoldS(N, b));
      if r2.Ok? {
        JoinOut(r2.st, K);
        if fuel > 0 { KeepsS(U, vars, K, fuel - 1, env, r2.st, While(c, b)); }
      }
    }
  }

  /** Folding preserves meaning: for every fuel, the program with its constants in cells of their own
      ends as the folded program does, with the same output, and with the same variables. */
  lemma FoldingPreserved(U: Program, vars: seq<VarDecl>, K: Consts, fuel: nat)
    requires Keeps(U, vars, K) && FairProgram(U, K.Keys)
    ensures EvalS(U, fuel, Main, Join(St(ZeroStore(vars), []), K), U.main)
            == Joined(EvalProgram(Folded(U, vars, K), fuel), K)
  {
    hide EvalS, Keeps, FairProgram, Join;
    KeepsS(U, vars, K, fuel, Main, St(ZeroStore(vars), []), U.main) by { MainSetting(U, vars, K); }
  }

  lemma MainSetting(U: Program, vars: seq<VarDecl>, K: Consts)
    requires Keeps(U, vars, K) && FairProgram(U, K.Keys)
    ensures Setting(U, vars, K, Main) && FairS(U, Seen(K, Main).Keys, U.main)
  {
  }
}
