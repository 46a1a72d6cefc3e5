/** The type rules, and the rule that constants are not assigned. */
module Typecheck {
  import opened Syntax
  import opened Codegen

  /** What a name is declared as: a routine's own names hide globals. */
  function ShapeOf(P: Program, sc: Scope, x: string): Option<Shape> {
    var d := if sc.Some? then FindDecl(sc.value, x) else None;
    if d.Some? then Some(d.value.shape) else FindVar(P.globals, x)
  }

  function FieldTy(e: Elem, k: nat): Option<Elem> {
    if e.Record? && k < |e.fields| then Some(Scalar(e.fields[k])) else None
  }

  function CheckP(P: Program, sc: Scope, p: Place): Option<Elem>
    decreases p, 0
  {
    match ShapeOf(P, sc, p.x)
    case None => None
    case Some(sh) =>
      match p
      case Name(_) => if sh.One? then Some(sh.elem) else None
      case Field(_, k) => if sh.One? then FieldTy(sh.elem, k) else None
      case At(_, idx) => if sh.Arr? && CheckE(P, sc, idx) == Some(Scalar(TInt)) then Some(sh.elem) else None
      case AtField(_, idx, k) =>
        if sh.Arr? && CheckE(P, sc, idx) == Some(Scalar(TInt)) then FieldTy(sh.elem, k) else None
  }

  function BinTy(op: BinOp, a: Elem, b: Elem): Option<Elem> {
    match op
    case Add => if a == b == Scalar(TInt) then Some(a) else None
    case Sub => if a == b == Scalar(TInt) then Some(a) else None
    case Mul => if a == b == Scalar(TInt) then Some(a) else None
    case Div => if a == b == Scalar(TInt) then Some(a) else None
    case Mod => if a == b == Scalar(TInt) then Some(a) else None
    case AndB => if a == b == Scalar(TBool) then Some(a) else None
    case OrB => if a == b == Scalar(TBool) then Some(a) else None
    case _ => if a.Scalar? && a == b then Some(Scalar(TBool)) else None
  }

  function UnTy(op: UnOp, a: Elem): Option<Elem> {
    match op
    case Neg => if a == Scalar(TInt) then Some(a) else None
    case Not => if a == Scalar(TBool) then Some(a) else None
    case Ord => if a.Scalar? then Some(Scalar(TInt)) else None
    case Chr => if a == Scalar(TInt) then Some(Scalar(TChar)) else None
  }

  function CheckE(P: Program, sc: Scope, e: Expr): Option<Elem>
    decreases e, 0
  {
    match e
    case IntLit(_) => Some(Scalar(TInt))
    case BoolLit(_) => Some(Scalar(TBool))
    case CharLit(_) => Some(Scalar(TChar))
    case Read(p) => CheckP(P, sc, p)
    case Binop(op, l, r) =>
      var a, b := CheckE(P, sc, l), CheckE(P, sc, r);
      if a.Some? && b.Some? then BinTy(op, a.value, b.value) else None
    case Unop(op, e1) =>
      var a := CheckE(P, sc, e1);
      if a.Some? then UnTy(op, a.value) else None
    case Call(f, args) =>
      var r := CheckCall(P, sc, f, args);
      if r.Some? && r.value.result.Some? then Some(Scalar(r.value.result.value)) else None
  }

  /** The routine called, if the arguments fit its parameters. */
  function CheckCall(P: Program, sc: Scope, f: string, args: Exprs): (o: Option<Routine>)
    ensures o.Some? ==> FindRoutine(P.routines, f) == o && Length(args) == |o.value.params|
                        && CheckArgs(P, sc, args, o.value.params)
    decreases args, 1
  {
    var r := FindRoutine(P.routines, f);
    if r.Some? && Length(args) == |r.value.params| && CheckArgs(P, sc, args, r.value.params) then r else None
  }

  /** A `var` parameter takes a designator, any parameter exactly its own type. */
  predicate CheckArgs(P: Program, sc: Scope, args: Exprs, ps: seq<Param>)
    requires Length(args) == |ps|
    decreases args, 0
  {
    match args
    case Nil => true
    case Cons(e, rest) =>
      (ps[0].isVar ==> e.Read?) && CheckE(P, sc, e) == Some(ps[0].elem) && CheckArgs(P, sc, rest, ps[1..])
  }

  predicate CheckS(P: Program, sc: Scope, s: Stmt) {
    match s
    case Skip => true
    case Seq(s1, s2) => CheckS(P, sc, s1) && CheckS(P, sc, s2)
    case Assign(p, e) =>
      var a := CheckP(P, sc, p);
      a.Some? && a.value.Scalar? && CheckE(P, sc, e) == a
    case CopyField(d, q) =>
      var a := CheckP(P, sc, d);
      a.Some? && a.value.Scalar? && CheckP(P, sc, q) == a
    case If(c, t) => CheckE(P, sc, c) == Some(Scalar(TBool)) && CheckS(P, sc, t)
    case IfElse(c, t, e) => CheckE(P, sc, c) == Some(Scalar(TBool)) && CheckS(P, sc, t) && CheckS(P, sc, e)
    case While(c, b) => CheckE(P, sc, c) == Some(Scalar(TBool)) && CheckS(P, sc, b)
    case CallStmt(f, args) =>
      var r := CheckCall(P, sc, f, args);
      r.Some? && r.value.result.None?
    case WriteLit(_) => true
    case WriteVal(ty, e) => CheckE(P, sc, e) == Some(Scalar(ty))
    case WriteLn => true
  }

  /** A routine's parameters, result and locals have different names; value parameters are scalars. */
  predicate CheckRoutine(P: Program, r: Routine) {
    && (forall i, j :: 0 <= i < j < |r.params| ==> r.params[i].name != r.params[j].name)
    && (forall i, j :: 0 <= i < j < |r.locals| ==> r.locals[i].name != r.locals[j].name)
    && (forall i, j :: 0 <= i < |r.params| && 0 <= j < |r.locals| ==> r.params[i].name != r.locals[j].name)
    && (r.result.Some? ==> FindParam(r.params, r.name).None? && FindVar(r.locals, r.name).None?)
    && (forall i :: 0 <= i < |r.params| && !r.params[i].isVar ==> r.params[i].elem.Scalar?)
    && CheckS(P, Some(r), r.body)
  }

  predicate CheckProgram(P: Program) {
    && (forall i, j :: 0 <= i < j < |P.globals| ==> P.globals[i].name != P.globals[j].name)
    && (forall i, j :: 0 <= i < j < |P.routines| ==> P.routines[i].name != P.routines[j].name)
    && (forall i :: 0 <= i < |P.routines| ==> FindVar(P.globals, P.routines[i].name).None?)
    && (forall r :: r in P.routines ==> CheckRoutine(P, r))
    && CheckS(P, None, P.main)
  }

  // ---- constants ----

  /** The names in `K` are constants: they resolve like variables but are not lvalues, so none is assigned
      nor passed to a `var` parameter. */
  predicate FairE(P: Program, K: set<string>, e: Expr)
    decreases e, 0
  {
    match e
    case Read(p) => FairP(P, K, p)
    case Binop(_, l, r) => FairE(P, K, l) && FairE(P, K, r)
    case Unop(_, e1) => FairE(P, K, e1)
    case Call(f, args) => FairC(P, K, f, args)
    case _ => true
  }

  predicate FairP(P: Program, K: set<string>, p: Place)
    decreases p, 0
  {
    (p.At? ==> FairE(P, K, p.idx)) && (p.AtField? ==> FairE(P, K, p.idx))
  }

  predicate FairC(P: Program, K: set<string>, f: string, args: Exprs)
    decreases args, 1
  {
    var r := FindRoutine(P.routines, f);
    r.Some? && Length(args) == |r.value.params| ==> FairA(P, K, args, r.value.params)
  }

  predicate FairA(P: Program, K: set<string>, args: Exprs, ps: seq<Param>)
    requires Length(args) == |ps|
    decreases args, 0
  {
    args.Cons? ==>
      && FairE(P, K, args.hd) && FairA(P, K, args.tl, ps[1..])
      && (ps[0].isVar && args.hd.Read? ==> args.hd.p.x !in K)
  }

  predicate FairS(P: Program, K: set<string>, s: Stmt) {
    match s
    case Seq(s1, s2) => FairS(P, K, s1) && FairS(P, K, s2)
    case Assign(p, e) => p.x !in K && FairP(P, K, p) && FairE(P, K, e)
    case CopyField(d, q) => d.x !in K && q.x !in K && FairP(P, K, d) && FairP(P, K, q)
    case If(c, t) => FairE(P, K, c) && FairS(P, K, t)
    case IfElse(c, t, e) => FairE(P, K, c) && FairS(P, K, t) && FairS(P, K, e)
    case While(c, b) => FairE(P, K, c) && FairS(P, K, b)
    case CallStmt(f, args) => FairC(P, K, f, args)
    case WriteVal(_, e) => FairE(P, K, e)
    case _ => true
  }

  /** The constants a routine's own names leave visible. */
  function Unhidden(K: set<string>, r: Routine): set<string> { set x | x in K && FindDecl(r, x).None? }

  predicate FairProgram(P: Program, K: set<string>) {
    FairS(P, K, P.main) && forall r :: r in P.routines ==> FairS(P, Unhidden(K, r), r.body)
  }

  /** What the checker accepts: `P.globals` are all symbols of the program, those in `K` constants. */
  predicate Accepts(P: Program, K: set<string>) { CheckProgram(P) && FairProgram(P, K) }

  /** A program without constants is judged by the type rules alone. */
  lemma {:induction false} FairWithoutConstsS(P: Program, s: Stmt)
    ensures FairS(P, {}, s)
  {
    match s
    case Seq(s1, s2) =>
      FairWithoutConstsS(P, s1);
      FairWithoutConstsS(P, s2);
    case Assign(p, e) =>
      FairWithoutConstsE(P, e);
      FairWithoutConstsP(P, p);
    case CopyField(d, q) =>
      FairWithoutConstsP(P, d);
      FairWithoutConstsP(P, q);
    case If(c, t) =>
      FairWithoutConstsE(P, c);
      FairWithoutConstsS(P, t);
    case IfElse(c, t, e) =>
      FairWithoutConstsE(P, c);
      FairWithoutConstsS(P, t);
      FairWithoutConstsS(P, e);
    case While(c, b) =>
      FairWithoutConstsE(P, c);
      FairWithoutConstsS(P, b);
    case CallStmt(f, args) => FairWithoutConstsC(P, f, args);
    case WriteVal(_, e) => FairWithoutConstsE(P, e);
    case _ =>
  }

  lemma {:induction false} FairWithoutConstsE(P: Program, e: Expr)
    ensures FairE(P, {}, e)
    decreases e, 0
  {
    match e
    case Read(p) => FairWithoutConstsP(P, p);
    case Binop(_, l, r) =>
      FairWithoutConstsE(P, l);
      FairWithoutConstsE(P, r);
    case Unop(_, e1) => FairWithoutConstsE(P, e1);
    case Call(f, args) => FairWithoutConstsC(P, f, args);
    case _ =>
  }

  lemma {:induction false} FairWithoutConstsP(P: Program, p: Place)
    ensures FairP(P, {}, p)
    decreases p, 0
  {
    if p.At? || p.AtField? { FairWithoutConstsE(P, p.idx); }
  }

  lemma {:induction false} FairWithoutConstsC(P: Program, f: string, args: Exprs)
    ensures FairC(P, {}, f, args)
    decreases args, 1
  {
    var r := FindRoutine(P.routines, f);
    if r.Some? && Length(args) == |r.value.params| { FairWithoutConstsA(P, args, r.value.params); }
  }

  lemma {:induction false} FairWithoutConstsA(P: Program, args: Exprs, ps: seq<Param>)
    requires Length(args) == |ps|
    ensures FairA(P, {}, args, ps)
    decreases args, 0
  {
    if args.Cons? {
      FairWithoutConstsE(P, args.hd);
      FairWithoutConstsA(P, args.tl, ps[1..]);
    }
  }

  lemma AcceptsWithoutConsts(P: Program)
    ensures Accepts(P, {}) <==> CheckProgram(P)
  {
    FairWithoutConstsS(P, P.main);
    forall r | r in P.routines
      ensures FairS(P, Unhidden({}, r), r.body)
    {
      assert Unhidden({}, r) == {};
      FairWithoutConstsS(P, r.body);
    }
  }
}
