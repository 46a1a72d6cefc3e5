/** Fuel only decides whether evaluation is cut off: an outcome other than `Timeout` is the same for
    every larger fuel, so what a program means does not depend on it. */
module Fuel {
  import opened Syntax
  import opened Semantics

  /** A result at some fuel persists with one unit more. */
  predicate Grows<T(==)>(r: Res<T>, r': Res<T>) {
    !r.Timeout? ==> r' == r
  }

  lemma {:induction false} MoreE(P: Program, fuel: nat, env: Env, st: St, e: Expr)
    ensures Grows(EvalE(P, fuel, env, st, e), EvalE(P, fuel + 1, env, st, e))
    decreases fuel, e, 0
  {
    hide ApplyBin, ApplyUn, Fetch, EvalCall, EvalP;
    match e
    case IntLit(_) =>
    case BoolLit(_) =>
    case CharLit(_) =>
    case Read(p) => MoreP(P, fuel, env, st, p);
    case Binop(_, l, r) =>
      MoreE(P, fuel, env, st, l);
      var a := EvalE(P, fuel, env, st, l);
      if a.Ok? { MoreE(P, fuel, env, a.st, r); }
    case Unop(_, e1) => MoreE(P, fuel, env, st, e1);
    case Call(f, args) => MoreCall(P, fuel, env, st, f, args);
  }

  lemma {:induction false} MoreP(P: Program, fuel: nat, env: Env, st: St, p: Place)
    ensures Grows(EvalP(P, fuel, env, st, p), EvalP(P, fuel + 1, env, st, p))
    decreases fuel, p, 0
  {
    hide EvalElem;
    var t := Lookup(P, env, p.x);
    if t.Some? {
      match p
      case Name(_) =>
      case Field(_, _) =>
      case At(_, idx) => MoreElem(P, fuel, env, st, idx, t.value.base, t.value.shape);
      case AtField(_, idx, _) => MoreElem(P, fuel, env, st, idx, t.value.base, t.value.shape);
    }
  }

  lemma {:induction false} MoreElem(P: Program, fuel: nat, env: Env, st: St, idx: Expr, base: Loc, shape: Shape)
    ensures Grows(EvalElem(P, fuel, env, st, idx, base, shape), EvalElem(P, fuel + 1, env, st, idx, base, shape))
    decreases fuel, idx, 1
  {
    hide EvalE;
    MoreE(P, fuel, env, st, idx);
  }

  lemma {:induction false} MoreArgs(P: Program, fuel: nat, env: Env, st: St, args: Exprs, ps: seq<Param>)
    requires Length(args) == |ps|
    ensures Grows(EvalArgs(P, fuel, env, st, args, ps), EvalArgs(P, fuel + 1, env, st, args, ps))
    decreases fuel, args, 0
  {
    hide EvalE, EvalP;
    if args.Cons? {
      MoreArgs(P, fuel, env, st, args.tl, ps[1..]);
      var r := EvalArgs(P, fuel, env, st, args.tl, ps[1..]);
      if r.Ok? {
        MoreE(P, fuel, env, r.st, args.hd);
        if args.hd.Read? { MoreP(P, fuel, env, r.st, args.hd.p); }
      }
    }
  }

  lemma {:induction false} MoreCall(P: Program, fuel: nat, env: Env, st: St, f: string, args: Exprs)
    ensures Grows(EvalCall(P, fuel, env, st, f, args), EvalCall(P, fuel + 1, env, st, f, args))
    decreases fuel, args, 1
  {
    hide EvalArgs, EvalS, Return;
    var ro := FindRoutine(P.routines, f);
    if ro.Some? && Length(args) == |ro.value.params| {
      var r := ro.value;
      MoreArgs(P, fuel, env, st, args, r.params);
      var a := EvalArgs(P, fuel, env, st, args, r.params);
      if a.Ok? && fuel > 0 {
        var d := Depth(env) + 1;
        MoreS(P, fuel - 1, In(d, r, BindRefs(r.params, a.val)),
              a.st.(store := BindVals(a.st.store, d, r.params, a.val)), r.body);
      }
    }
  }

  lemma {:induction false} MoreS(P: Program, fuel: nat, env: Env, st: St, s: Stmt)
    ensures Grows(EvalS(P, fuel, env, st, s), EvalS(P, fuel + 1, env, st, s))
    decreases fuel, s, 1
  {
    hide EvalE, EvalP, EvalCall, Fetch, Deposit, Show;
    match s
    case Skip =>
    case Seq(s1, s2) =>
      MoreS(P, fuel, env, st, s1);
      var r := EvalS(P, fuel, env, st, s1);
      if r.Ok? { MoreS(P, fuel, env, r.st, s2); }
    case Assign(p, e) => MoreStore(P, fuel, env, st, s);
    case CopyField(_, _) => MoreStore(P, fuel, env, st, s);
    case If(c, t) =>
      MoreE(P, fuel, env, st, c);
      var r := EvalE(P, fuel, env, st, c);
      if r.Ok? { MoreS(P, fuel, env, r.st, t); }
    case IfElse(c, t, e) =>
      MoreE(P, fuel, env, st, c);
      var r := EvalE(P, fuel, env, st, c);
      if r.Ok? {
        MoreS(P, fuel, env, r.st, t);
        MoreS(P, fuel, env, r.st, e);
      }
    case While(c, b) => MoreWhile(P, fuel, env, st, c, b);
    case CallStmt(f, args) => MoreCall(P, fuel, env, st, f, args);
    case WriteLit(_) =>
    case WriteVal(_, e) => MoreE(P, fuel, env, st, e);
    case WriteLn =>
  }

  lemma MoreStore(P: Program, fuel: nat, env: Env, st: St, s: Stmt)
    requires s.Assign? || s.CopyField?
    ensures Grows(EvalS(P, fuel, env, st, s), EvalS(P, fuel + 1, env, st, s))
    decreases fuel, s, 0
  {
    hide EvalE, EvalP, Fetch, Deposit;
    if s.Assign? && s.p.Name? {
      MoreE(P, fuel, env, st, s.e);
      var r := EvalE(P, fuel, env, st, s.e);
      if r.Ok? { MoreP(P, fuel, env, r.st, s.p); }
    } else if s.Assign? {
      MoreP(P, fuel, env, st, s.p);
      var r := EvalP(P, fuel, env, st, s.p);
      if r.Ok? { MoreE(P, fuel, env, r.st, s.e); }
    } else {
      MoreP(P, fuel, env, st, s.src);
      var r := EvalP(P, fuel, env, st, s.src);
      if r.Ok? && Fetch(r.st, r.val).Ok? { MoreP(P, fuel, env, Fetch(r.st, r.val).st, s.dst); }
    }
  }

  lemma {:induction false} MoreWhile(P: Program, fuel: nat, env: Env, st: St, c: Expr, b: Stmt)
    ensures Grows(EvalS(P, fuel, env, st, While(c, b)), EvalS(P, fuel + 1, env, st, While(c, b)))
    decreases fuel, While(c, b), 0
  {
    hide EvalE;
    MoreE(P, fuel, env, st, c);
    var r := EvalE(P, fuel, env, st, c);
    if r.Ok? && r.val.VB? && r.val.b {
      MoreS(P, fuel, env, r.st, b);
      var r2 := EvalS(P, fuel, env, r.st, b);
      if r2.Ok? && fuel > 0 { MoreS(P, fuel - 1, env, r2.st, While(c, b)); }
    }
  }

  lemma {:induction false} AnyMoreE(P: Program, fuel: nat, more: nat, env: Env, st: St, e: Expr)
    requires fuel <= more
    ensures Grows(EvalE(P, fuel, env, st, e), EvalE(P, more, env, st, e))
    decreases more
  {
    hide EvalE;
    if fuel < more {
      AnyMoreE(P, fuel, more - 1, env, st, e);
      MoreE(P, more - 1, env, st, e);
    }
  }

  lemma {:induction false} AnyMoreS(P: Program, fuel: nat, more: nat, env: Env, st: St, s: Stmt)
    requires fuel <= more
    ensures Grows(EvalS(P, fuel, env, st, s), EvalS(P, more, env, st, s))
    decreases more - fuel
  {
    if fuel < more {
      MoreS(P, fuel, env, st, s);
      AnyMoreS(P, fuel + 1, more, env, st, s);
    }
  }

  /** A program has at most one outcome. */
  lemma OneOutcome(P: Program, f: nat, g: nat)
    requires !EvalProgram(P, f).Timeout? && !EvalProgram(P, g).Timeout?
    ensures EvalProgram(P, f) == EvalProgram(P, g)
  {
    var st := St(ZeroStore(P.globals), []);
    hide EvalS;
    AnyMoreS(P, f, if f <= g then g else f, Main, st, P.main);
    AnyMoreS(P, g, if f <= g then g else f, Main, st, P.main);
  }
}
