/** The checker as it runs: symbol, routine and local tables filled in loops, names resolved by searching
    them, the first error latched. It accepts exactly the programs the rules accept. */
module Checker {
  import opened Syntax
  import opened Codegen
  import opened Typecheck

  predicate Distinct(ds: seq<VarDecl>) { forall i, j :: 0 <= i < j < |ds| ==> ds[i].name != ds[j].name }

  function ParamDecls(ps: seq<Param>): (ds: seq<VarDecl>)
    ensures |ds| == |ps| && forall i :: 0 <= i < |ps| ==> ds[i] == VarDecl(ps[i].name, One(ps[i].elem))
  {
    seq(|ps|, i requires 0 <= i < |ps| => VarDecl(ps[i].name, One(ps[i].elem)))
  }

  function ResultDecl(r: Routine): seq<VarDecl> {
    if r.result.Some? then [VarDecl(r.name, One(Scalar(r.result.value)))] else []
  }

  /** A routine's scope in the order it is built: parameters, the result, locals. */
  function ScopeDecls(r: Routine): seq<VarDecl> { ParamDecls(r.params) + ResultDecl(r) + r.locals }

  lemma {:induction false} FindParamDecl(ps: seq<Param>, x: string)
    ensures FindVar(ParamDecls(ps), x) == if FindParam(ps, x).Some? then Some(One(FindParam(ps, x).value.elem))
            else None
  {
    if ps != [] {
      assert ParamDecls(ps)[1..] == ParamDecls(ps[1..]);
      FindParamDecl(ps[1..], x);
    }
  }

  /** Looking a name up in the local table finds what the routine declares it as. */
  lemma ScopeFinds(r: Routine, x: string)
    ensures FindVar(ScopeDecls(r), x) == if FindDecl(r, x).Some? then Some(FindDecl(r, x).value.shape) else None
  {
    FindAppend(ParamDecls(r.params) + ResultDecl(r), r.locals, x);
    FindAppend(ParamDecls(r.params), ResultDecl(r), x);
    FindParamDecl(r.params, x);
    assert FindVar([], x) == None;
  }

  // ---- distinct names ----

  predicate ParamsDistinct(r: Routine) { forall i, j :: 0 <= i < j < |r.params| ==>
      r.params[i].name != r.params[j].name }

  predicate GroupsApart(a: seq<VarDecl>, b: seq<VarDecl>) {
    forall i, j :: 0 <= i < |a| && 0 <= j < |b| ==> a[i].name != b[j].name
  }

  /** Names are distinct in a joined list exactly when they are in both parts and across them. */
  lemma DistinctAppend(a: seq<VarDecl>, b: seq<VarDecl>)
    ensures Distinct(a + b) <==> Distinct(a) && Distinct(b) && GroupsApart(a, b)
  {
    var ds := a + b;
    if Distinct(ds) {
      forall i, j | 0 <= i < j < |a|
        ensures a[i].name != a[j].name
      {
        assert ds[i].name != ds[j].name;
      }
      forall i, j | 0 <= i < j < |b|
        ensures b[i].name != b[j].name
      {
        assert ds[|a| + i].name != ds[|a| + j].name;
      }
      forall i, j | 0 <= i < |a| && 0 <= j < |b|
        ensures a[i].name != b[j].name
      {
        assert ds[i].name != ds[|a| + j].name;
      }
    }
  }

  lemma ParamGroup(r: Routine)
    ensures Distinct(ParamDecls(r.params)) <==> ParamsDistinct(r)
    ensures GroupsApart(ParamDecls(r.params), r.locals) <==>
            forall i, j :: 0 <= i < |r.params| && 0 <= j < |r.locals| ==> r.params[i].name != r.locals[j].name
  {
    var ds := ParamDecls(r.params);
    assert forall i :: 0 <= i < |r.params| ==> ds[i].name == r.params[i].name;
  }

  lemma ResultGroup(r: Routine)
    ensures Distinct(ResultDecl(r))
    ensures GroupsApart(ParamDecls(r.params), ResultDecl(r)) <==> (r.result.Some? ==> FindParam(r.params, r.name).None?)
    ensures GroupsApart(ResultDecl(r), r.locals) <==> (r.result.Some? ==> FindVar(r.locals, r.name).None?)
  {
    FindParamDecl(r.params, r.name);
    NotFound(ParamDecls(r.params), r.name);
    NotFound(r.locals, r.name);
    hide FindParam, FindVar;
    var q := ResultDecl(r);
    if r.result.Some? { assert q[0].name == r.name && |q| == 1; }
  }

  lemma JoinedApart(a: seq<VarDecl>, b: seq<VarDecl>, c: seq<VarDecl>)
    ensures GroupsApart(a + b, c) <==> GroupsApart(a, c) && GroupsApart(b, c)
  {
    var ds := a + b;
    assert forall i :: 0 <= i < |b| ==> ds[|a| + i] == b[i];
    assert forall i :: 0 <= i < |a| ==> ds[i] == a[i];
  }

  /** The names of a routine's scope are distinct exactly when the three groups are, within and across. */
  lemma DistinctScope(r: Routine)
    ensures Distinct(ScopeDecls(r)) <==>
            && ParamsDistinct(r)
            && (forall i, j :: 0 <= i < j < |r.locals| ==> r.locals[i].name != r.locals[j].name)
            && (forall i, j :: 0 <= i < |r.params| && 0 <= j < |r.locals| ==> r.params[i].name != r.locals[j].name)
            && (r.result.Some? ==> FindParam(r.params, r.name).None? && FindVar(r.locals, r.name).None?)
  {
    hide GroupsApart, FindParam, FindVar, ParamDecls, ResultDecl, ParamsDistinct;
    var ps, q := ParamDecls(r.params), ResultDecl(r);
    DistinctAppend(ps + q, r.locals);
    DistinctAppend(ps, q);
    JoinedApart(ps, q, r.locals);
    ParamGroup(r);
    ResultGroup(r);
  }

  lemma Empty(ds: seq<VarDecl>)
    requires ds == []
    ensures Distinct(ds)
  {
  }

  /** A repeated name in a part of the scope is one in the whole. */
  lemma ScopePrefix(r: Routine)
    ensures Distinct(ScopeDecls(r)) ==> Distinct(ParamDecls(r.params)) && Distinct(ParamDecls(r.params) + ResultDecl(r))
    ensures [] + ParamDecls(r.params) == ParamDecls(r.params)
  {
    hide Distinct, GroupsApart;
    DistinctAppend(ParamDecls(r.params) + ResultDecl(r), r.locals);
    DistinctAppend(ParamDecls(r.params), ResultDecl(r));
  }

  /** Routine names are distinct and no variable's. */
  predicate ProcNames(rs: seq<Routine>, gs: seq<VarDecl>) {
    && (forall i, j :: 0 <= i < j < |rs| ==> rs[i].name != rs[j].name)
    && (forall i :: 0 <= i < |rs| ==> FindVar(gs, rs[i].name).None?)
  }

  // ---- what is left once the tables are built ----

  /** The constants that can be seen. */
  function Seen(K: set<string>, sc: Scope): set<string> { if sc.Some? then Unhidden(K, sc.value) else K }

  /** Value parameters and constants are scalars when the parser is done. */
  predicate ParsedOk(P: Program, K: set<string>) {
    && (forall r, i :: r in P.routines && 0 <= i < |r.params| && !r.params[i].isVar ==> r.params[i].elem.Scalar?)
    && (Distinct(P.globals) ==>
          forall i :: 0 <= i < |P.globals| && P.globals[i].name in K ==>
              P.globals[i].shape.One? && P.globals[i].shape.elem.Scalar?)
  }

  lemma {:induction false} SymbolAt(ds: seq<VarDecl>, x: string) returns (i: nat)
    requires FindVar(ds, x).Some?
    ensures i < |ds| && ds[i].name == x && ds[i].shape == FindVar(ds, x).value
  {
    if ds[0].name == x {
      i := 0;
    } else {
      i := SymbolAt(ds[1..], x);
      i := i + 1;
    }
  }

  /** A visible constant is no array and no record, so only its bare name needs the lvalue test. */
  lemma ConstIsScalar(P: Program, K: set<string>, sc: Scope, x: string)
    requires ParsedOk(P, K) && Distinct(P.globals) && x in Seen(K, sc) && ShapeOf(P, sc, x).Some?
    ensures ShapeOf(P, sc, x).value.One? && ShapeOf(P, sc, x).value.elem.Scalar?
  {
    var i := SymbolAt(P.globals, x);
  }

  /** So a designator other than a bare name that checks does not start with a constant. */
  lemma PathIsVariable(P: Program, K: set<string>, sc: Scope, p: Place)
    requires ParsedOk(P, K) && Distinct(P.globals) && !p.Name? && CheckP(P, sc, p).Some?
    ensures p.x !in Seen(K, sc)
  {
    hide CheckE;
    if p.x in Seen(K, sc) { ConstIsScalar(P, K, sc, p.x); }
  }

  /** A routine is fine: its names are distinct and its body passes both rules. */
  lemma RoutineIs(P: Program, K: set<string>, r: Routine)
    requires ParsedOk(P, K) && r in P.routines
    ensures CheckRoutine(P, r) && FairS(P, Unhidden(K, r), r.body) <==>
            Distinct(ScopeDecls(r)) && CheckS(P, Some(r), r.body) && FairS(P, Unhidden(K, r), r.body)
  {
    hide CheckS, FairS, Distinct, FindParam, FindVar;
    DistinctScope(r);
  }

  predicate RoutineFine(P: Program, K: set<string>, r: Routine) { CheckRoutine(P, r)
    && FairS(P, Unhidden(K, r), r.body) }

  lemma AcceptsIs(P: Program, K: set<string>)
    ensures Accepts(P, K) <==>
            && Distinct(P.globals) && ProcNames(P.routines, P.globals)
            && (forall i :: 0 <= i < |P.routines| ==> RoutineFine(P, K, P.routines[i]))
            && CheckS(P, None, P.main) && FairS(P, K, P.main)
  {
    hide CheckRoutine, CheckS, FairS, Unhidden;
    if forall i :: 0 <= i < |P.routines| ==> RoutineFine(P, K, P.routines[i]) {
      forall r | r in P.routines
        ensures CheckRoutine(P, r) && FairS(P, Unhidden(K, r), r.body)
      {
        assert RoutineFine(P, K, r);
      }
    }
    if Accepts(P, K) {
      forall i | 0 <= i < |P.routines|
        ensures RoutineFine(P, K, P.routines[i])
      {
        assert P.routines[i] in P.routines;
      }
    }
  }

  class Tc {
    const P: Program
    const K: set<string>
    var syms: seq<VarDecl>
    var constant: seq<bool>
    var procs: seq<Routine>
    var locals: seq<VarDecl>
    var inRoutine: bool
    var failed: bool
    ghost var sc: Scope

    constructor (program: Program, consts: set<string>)
      ensures P == program && K == consts && syms == [] && constant == [] && procs == [] && locals == []
      ensures !inRoutine && !failed && sc == None
    {
      P, K := program, consts;
      syms, constant, procs, locals, inRoutine, failed := [], [], [], [], false, false;
      sc := None;
    }

    /** The global tables are complete. */
    ghost predicate Collected()
      reads this
    {
      && ParsedOk(P, K) && Distinct(P.globals) && syms == P.globals && procs == P.routines
      && |constant| == |syms| && forall i :: 0 <= i < |syms| ==> constant[i] == (syms[i].name in K)
    }

    /** And the local table is that of the routine being checked, if any. */
    ghost predicate Ready()
      reads this
    {
      Collected() && if inRoutine then sc.Some? && locals == ScopeDecls(sc.value) else sc.None?
    }

    /** The first entry of that name, or -1. */
    method FindIn(ds: seq<VarDecl>, x: string) returns (i: int)
      ensures i == -1 ==> FindVar(ds, x).None?
      ensures i != -1 ==> 0 <= i < |ds| && ds[i].name == x && FindVar(ds, x) == Some(ds[i].shape)
    {
      i := 0;
      while i < |ds|
        invariant 0 <= i <= |ds| && (forall j :: 0 <= j < i ==> ds[j].name != x)
        invariant FindVar(ds, x) == FindVar(ds[i..], x)
      {
        if ds[i].name == x { return; }
        assert ds[i..][1..] == ds[i + 1..];
        i := i + 1;
      }
      assert ds[i..] == [];
      i := -1;
    }

    /** A name in scope: the routine's own first, always writable, then the program's, writable unless
        constant. */
    method ResolveName(x: string) returns (sh: Option<Shape>, lvalue: bool)
      requires Ready()
      ensures sh == ShapeOf(P, sc, x) && (sh.Some? ==> (lvalue <==> x !in Seen(K, sc)))
    {
      if inRoutine {
        ScopeFinds(sc.value, x);
        var i := FindIn(locals, x);
        if i >= 0 { return Some(locals[i].shape), true; }
      }
      var j := FindIn(syms, x);
      if j >= 0 { return Some(syms[j].shape), !constant[j]; }
      return None, false;
    }

    method ProcFind(f: string) returns (r: Option<Routine>)
      requires procs == P.routines
      ensures r == FindRoutine(P.routines, f)
    {
      var i := 0;
      while i < |procs|
        invariant 0 <= i <= |procs|
        invariant FindRoutine(P.routines, f) == FindRoutine(procs[i..], f)
      {
        if procs[i].name == f { return Some(procs[i]); }
        assert procs[i..][1..] == procs[i + 1..];
        i := i + 1;
      }
      assert procs[i..] == [];
      return None;
    }

    // ---- expressions ----

    /** The verdict on an expression: a type, or an error. */
    ghost predicate Judged(ok: bool, e: Expr, t: Elem)
      reads this
    {
      (ok <==> CheckE(P, sc, e).Some? && FairE(P, Seen(K, sc), e)) && (ok ==> CheckE(P, sc, e) == Some(t))
    }

    ghost predicate JudgedPlace(ok: bool, p: Place, t: Elem)
      reads this
    {
      (ok <==> CheckP(P, sc, p).Some? && FairP(P, Seen(K, sc), p)) && (ok ==> CheckP(P, sc, p) == Some(t))
    }

    method CheckExpr(e: Expr) returns (t: Elem)
      requires Ready() && !failed
      modifies this`failed
      ensures Judged(!failed, e, t)
      decreases SizeE(e), 1
    {
      t := Scalar(TInt);
      match e {
        case IntLit(_) =>
        case BoolLit(_) => t := Scalar(TBool);
        case CharLit(_) => t := Scalar(TChar);
        case Read(p) => t := CheckPlace(p);
        case Binop(op, l, r) =>
          var a := CheckExpr(l);
          if failed { return; }
          var b := CheckExpr(r);
          if failed { return; }
          t := CheckBinop(op, a, b);
        case Unop(op, e1) =>
          var a := CheckExpr(e1);
          if failed { return; }
          t := CheckUnop(op, a);
        case Call(f, args) =>
          var r := CheckCallTo(f, args);
          if failed { return; }
          if r.result.Some? { t := Scalar(r.result.value); } else { failed := true; }
      }
    }

    /** Arithmetic takes integers, `and`/`or` booleans, a relation two scalars of one type. */
    method CheckBinop(op: BinOp, a: Elem, b: Elem) returns (t: Elem)
      requires !failed
      modifies this`failed
      ensures failed <==> BinTy(op, a, b).None?
      ensures !failed ==> BinTy(op, a, b) == Some(t)
    {
      t := Scalar(TBool);
      if op.Add? || op.Sub? || op.Mul? || op.Div? || op.Mod? {
        t := Scalar(TInt);
        if a != Scalar(TInt) || b != Scalar(TInt) { failed := true; }
      } else if op.AndB? || op.OrB? {
        if a != Scalar(TBool) || b != Scalar(TBool) { failed := true; }
      } else {
        if a.Record? || b.Record? || a != b { failed := true; }
      }
    }

    method CheckUnop(op: UnOp, a: Elem) returns (t: Elem)
      requires !failed
      modifies this`failed
      ensures failed <==> UnTy(op, a).None?
      ensures !failed ==> UnTy(op, a) == Some(t)
    {
      t := Scalar(TInt);
      match op {
        case Neg => if a != Scalar(TInt) { failed := true; }
        case Not =>
          t := Scalar(TBool);
          if a != Scalar(TBool) { failed := true; }
        case Ord => if a.Record? { failed := true; }
        case Chr =>
          t := Scalar(TChar);
          if a != Scalar(TInt) { failed := true; }
      }
    }

    /** A designator: the name resolves, an index only into an array and only by an integer, a field only of
        a record. */
    method CheckPlace(p: Place) returns (t: Elem)
      requires Ready() && !failed
      modifies this`failed
      ensures JudgedPlace(!failed, p, t)
      decreases SizeP(p), 0
    {
      t := Scalar(TInt);
      var sh, _ := ResolveName(p.x);
      if sh.None? {
        failed := true;
        return;
      }
      t := sh.value.elem;
      if p.At? || p.AtField? {
        if !sh.value.Arr? {
          failed := true;
          return;
        }
        var it := CheckExpr(p.idx);
        if failed { return; }
        if it != Scalar(TInt) {
          failed := true;
          return;
        }
      } else if sh.value.Arr? {
        failed := true;
        return;
      }
      if p.Field? || p.AtField? {
        if t.Record? && p.k < |t.fields| { t := Scalar(t.fields[p.k]); } else { failed := true; }
      }
    }

    /** Arguments first to last: a `var` parameter takes a designator, by name only if it is an lvalue; every
        argument has exactly its parameter's type. */
    method CheckCallTo(f: string, args: Exprs) returns (r: Routine)
      requires Ready() && !failed
      modifies this`failed
      ensures failed <==> !(CheckCall(P, sc, f, args).Some? && FairC(P, Seen(K, sc), f, args))
      ensures !failed ==> CheckCall(P, sc, f, args) == Some(r)
      decreases SizeA(args), 2
    {
      var ro := ProcFind(f);
      r := if ro.Some? then ro.value else Routine("", [], None, [], Skip);
      if ro.None? || Length(args) != |r.params| {
        failed := true;
        return;
      }
      var ps := r.params;
      var i := 0;
      while i < |ps| && !failed
        invariant 0 <= i <= |ps| == Length(args)
        invariant ArgsGood(args, ps) <==> !failed && ArgsGood(From(args, i), ps[i..])
        decreases |ps| - i, !failed
      {
        FromStep(args, i);
        assert ps[i..][1..] == ps[i + 1..] && ps[i..][0] == ps[i];
        ArgsGoodStep(From(args, i), ps[i..]);
        var e := From(args, i).hd;
        CheckArg(e, ps[i]);
        if !failed { i := i + 1; }
      }
      if !failed { assert From(args, i).Nil?; }
    }

    ghost predicate ArgsGood(args: Exprs, ps: seq<Param>)
      requires Length(args) == |ps|
      reads this
    {
      CheckArgs(P, sc, args, ps) && FairA(P, Seen(K, sc), args, ps)
    }

    ghost predicate ArgGood(e: Expr, p: Param)
      reads this
    {
      && (p.isVar ==> e.Read?) && CheckE(P, sc, e) == Some(p.elem) && FairE(P, Seen(K, sc), e)
      && (p.isVar && e.Read? ==> e.p.x !in Seen(K, sc))
    }

    lemma ArgsGoodStep(args: Exprs, ps: seq<Param>)
      requires Length(args) == |ps| && args.Cons?
      ensures ArgsGood(args, ps) <==> ArgGood(args.hd, ps[0]) && ArgsGood(args.tl, ps[1..])
    {
    }

    method CheckArg(e: Expr, p: Param)
      requires Ready() && !failed
      modifies this`failed
      ensures failed <==> !ArgGood(e, p)
      decreases SizeE(e), 2
    {
      if p.isVar {
        if !e.Read? {
          failed := true;
          return;
        }
        if e.p.Name? {
          var sh, lvalue := ResolveName(e.p.x);
          assert sh.None? ==> CheckP(P, sc, e.p).None? && CheckE(P, sc, e).None?;
          if sh.None? || !lvalue {
            failed := true;
            return;
          }
        }
      }
      var t := CheckExpr(e);
      if !failed && t != p.elem { failed := true; }
      if p.isVar && !e.p.Name? && CheckP(P, sc, e.p).Some? { PathIsVariable(P, K, sc, e.p); }
    }

    // ---- statements ----

    /** An assignment target or a side of a record copy: a designator, by name only if it is an lvalue. */
    method CheckTarget(p: Place) returns (t: Elem)
      requires Ready() && !failed
      modifies this`failed
      ensures failed <==> !(CheckP(P, sc, p).Some? && FairP(P, Seen(K, sc), p) && p.x !in Seen(K, sc))
      ensures !failed ==> CheckP(P, sc, p) == Some(t)
    {
      if p.Name? {
        var sh, lvalue := ResolveName(p.x);
        if sh.Some? && !lvalue {
          failed := true;
          return Scalar(TInt);
        }
      }
      t := CheckPlace(p);
      if !p.Name? && CheckP(P, sc, p).Some? { PathIsVariable(P, K, sc, p); }
    }

    method CheckGuard(c: Expr)
      requires Ready() && !failed
      modifies this`failed
      ensures failed <==> !(CheckE(P, sc, c) == Some(Scalar(TBool)) && FairE(P, Seen(K, sc), c))
    {
      var t := CheckExpr(c);
      if !failed && t != Scalar(TBool) { failed := true; }
    }

    ghost predicate StmtGood(s: Stmt)
      reads this
    {
      CheckS(P, sc, s) && FairS(P, Seen(K, sc), s)
    }

    method CheckStmt(s: Stmt)
      requires Ready() && !failed
      modifies this`failed
      ensures failed <==> !StmtGood(s)
      decreases s
    {
      match s {
        case Skip =>
        case Seq(s1, s2) =>
          CheckStmt(s1);
          if failed { return; }
          CheckStmt(s2);
        case Assign(p, e) =>
          var t := CheckTarget(p);
          if failed { return; }
          if t.Record? {
            failed := true;
            return;
          }
          var u := CheckExpr(e);
          if !failed && u != t { failed := true; }
        case CopyField(d, q) =>
          var t := CheckTarget(d);
          if failed { return; }
          if t.Record? {
            failed := true;
            return;
          }
          var u := CheckTarget(q);
          if !failed && u != t { failed := true; }
        case If(c, t) =>
          CheckGuard(c);
          if failed { return; }
          CheckStmt(t);
        case IfElse(c, t, e) =>
          CheckGuard(c);
          if failed { return; }
          CheckStmt(t);
          if failed { return; }
          CheckStmt(e);
        case While(c, b) =>
          CheckGuard(c);
          if failed { return; }
          CheckStmt(b);
        case CallStmt(f, args) =>
          var r := CheckCallTo(f, args);
          if !failed && r.result.Some? { failed := true; }
        case WriteLit(_) =>
        case WriteVal(ty, e) =>
          var t := CheckExpr(e);
          if !failed && t != Scalar(ty) { failed := true; }
        case WriteLn =>
      }
    }

    // ---- tables ----

    method CollectDecls()
      requires syms == [] && constant == [] && !failed
      modifies this`syms, this`constant, this`failed
      ensures failed <==> !Distinct(P.globals)
      ensures !failed ==> syms == P.globals && |constant| == |syms| && forall i :: 0 <= i < |syms| ==>
                constant[i] == (syms[i].name in K)
    {
      var i := 0;
      while i < |P.globals| && !failed
        invariant 0 <= i <= |P.globals|
        invariant if failed then !Distinct(P.globals) else syms == P.globals[..i] && Distinct(P.globals[..i])
        invariant |constant| == |syms| && forall i :: 0 <= i < |syms| ==> constant[i] == (syms[i].name in K)
        decreases |P.globals| - i, !failed
      {
        var d := P.globals[i];
        var k := FindIn(syms, d.name);
        if k >= 0 {
          assert P.globals[k].name == P.globals[i].name;
          failed := true;
        } else {
          NotFound(syms, d.name);
          syms, constant := syms + [d], constant + [d.name in K];
          i := i + 1;
          assert P.globals[..i] == P.globals[..i - 1] + [d];
        }
      }
      assert !failed ==> P.globals[..i] == P.globals;
    }

    method CollectProcs()
      requires syms == P.globals && procs == [] && !failed
      modifies this`procs, this`failed
      ensures failed <==> !ProcNames(P.routines, P.globals)
      ensures !failed ==> procs == P.routines
    {
      var i := 0;
      while i < |P.routines| && !failed
        invariant 0 <= i <= |P.routines|
        invariant if failed then !ProcNames(P.routines, P.globals)
                  else procs == P.routines[..i] && ProcNames(P.routines[..i], P.globals)
        decreases |P.routines| - i, !failed
      {
        var r := P.routines[i];
        var k := FindIn(syms, r.name);
        var j := 0;
        while j < |procs| && procs[j].name != r.name
          invariant 0 <= j <= |procs|
          invariant forall m :: 0 <= m < j ==> procs[m].name != r.name
        {
          j := j + 1;
        }
        if k >= 0 {
          failed := true;
        } else if j < |procs| {
          assert P.routines[j].name == P.routines[i].name;
          failed := true;
        } else {
          procs := procs + [r];
          i := i + 1;
          assert P.routines[..i] == P.routines[..i - 1] + [r];
        }
      }
      assert !failed ==> P.routines[..i] == P.routines;
    }

    /** Adds declarations one by one; the first repeated name is an error. */
    method AddLocals(ds: seq<VarDecl>)
      requires !failed ==> Distinct(locals)
      modifies this`locals, this`failed
      ensures old(failed) ==> failed
      ensures !old(failed) ==> (failed <==> !Distinct(old(locals) + ds))
      ensures !failed ==> locals == old(locals) + ds && Distinct(locals)
    {
      var i := 0;
      while i < |ds| && !failed
        invariant 0 <= i <= |ds| && (old(failed) ==> failed)
        invariant !failed ==> locals == old(locals) + ds[..i] && Distinct(locals)
        invariant !old(failed) && failed ==> !Distinct(old(locals) + ds)
        decreases |ds| - i, !failed
      {
        var k := FindIn(locals, ds[i].name);
        ghost var all := old(locals) + ds;
        assert all[|locals|] == ds[i] && locals == all[..|locals|];
        if k >= 0 {
          assert all[k].name == all[|locals|].name;
          failed := true;
        } else {
          NotFound(locals, ds[i].name);
          locals := locals + [ds[i]];
          i := i + 1;
          assert ds[..i] == ds[..i - 1] + [ds[i - 1]];
        }
      }
      assert !failed ==> ds[..i] == ds;
    }

    /** Parameters, then the result, then locals. */
    method BuildScope(r: Routine)
      requires !failed && locals == []
      modifies this`locals, this`failed
      ensures failed <==> !Distinct(ScopeDecls(r))
      ensures !failed ==> locals == ScopeDecls(r)
    {
      hide Distinct;
      assert Distinct(locals) by { Empty(locals); }
      ScopePrefix(r);
      AddLocals(ParamDecls(r.params));
      if failed { return; }
      AddLocals(ResultDecl(r));
      if failed { return; }
      AddLocals(r.locals);
    }

    /** Builds the routine's scope, checks its body, drops the scope. */
    method CheckOne(r: Routine)
      requires Collected() && !inRoutine && sc == None && !failed && r in P.routines
      modifies this`locals, this`failed, this`inRoutine, this`sc
      ensures failed <==> !RoutineFine(P, K, r)
      ensures !inRoutine && sc == None
    {
      hide CheckRoutine, CheckS, FairS, Distinct, ParsedOk;
      RoutineIs(P, K, r);
      locals, inRoutine := [], true;
      BuildScope(r);
      if !failed {
        sc := Some(r);
        CheckStmt(r.body);
      }
      locals, inRoutine := [], false;
      sc := None;
    }

    /** The whole check. */
    method Check() returns (ok: bool)
      requires ParsedOk(P, K)
      requires syms == [] && constant == [] && procs == [] && locals == [] && !inRoutine && !failed && sc == None
      modifies this
      ensures ok <==> Accepts(P, K)
    {
      hide RoutineFine, CheckS, FairS, Distinct, ProcNames, Accepts;
      AcceptsIs(P, K);
      CollectDecls();
      if failed { return false; }
      CollectProcs();
      if failed { return false; }
      var i := 0;
      while i < |P.routines| && !failed
        invariant 0 <= i <= |P.routines| && Collected() && !inRoutine && sc == None
        invariant forall j :: 0 <= j < i ==> RoutineFine(P, K, P.routines[j])
        invariant failed ==> i < |P.routines| && !RoutineFine(P, K, P.routines[i])
        decreases |P.routines| - i, !failed
      {
        CheckOne(P.routines[i]);
        if !failed { i := i + 1; }
      }
      if failed { return false; }
      CheckStmt(P.main);
      ok := !failed;
    }
  }
}
