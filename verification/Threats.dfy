/** Which code can read or write a given variable. A statement that does not mention a variable is
    blind to it; one that never assigns it nor passes it by reference leaves it alone, whatever the
    routines it calls do to everything else. */
module Threats {
  import opened Syntax
  import opened Semantics

  // ---- syntax ----

  /** A name in `X` occurs in a designator. */
  predicate MentionsE(e: Expr, X: set<string>)
    decreases e, 0
  {
    match e
    case Read(p) => MentionsP(p, X)
    case Binop(_, l, r) => MentionsE(l, X) || MentionsE(r, X)
    case Unop(_, e1) => MentionsE(e1, X)
    case Call(_, args) => MentionsA(args, X)
    case _ => false
  }

  predicate MentionsP(p: Place, X: set<string>)
    decreases p, 0
  {
    p.x in X || (p.At? && MentionsE(p.idx, X)) || (p.AtField? && MentionsE(p.idx, X))
  }

  predicate MentionsA(es: Exprs, X: set<string>)
    decreases es, 0
  {
    es.Cons? && (MentionsE(es.hd, X) || MentionsA(es.tl, X))
  }

  predicate MentionsS(s: Stmt, X: set<string>) {
    match s
    case Seq(s1, s2) => MentionsS(s1, X) || MentionsS(s2, X)
    case Assign(p, e) => MentionsP(p, X) || MentionsE(e, X)
    case CopyField(d, q) => MentionsP(d, X) || MentionsP(q, X)
    case If(c, t) => MentionsE(c, X) || MentionsS(t, X)
    case IfElse(c, t, e) => MentionsE(c, X) || MentionsS(t, X) || MentionsS(e, X)
    case While(c, b) => MentionsE(c, X) || MentionsS(b, X)
    case CallStmt(_, args) => MentionsA(args, X)
    case WriteVal(_, e) => MentionsE(e, X)
    case _ => false
  }

  /** A variable named in `X` is passed to a `var` parameter somewhere in `e`. */
  predicate LendsE(P: Program, e: Expr, X: set<string>)
    decreases e, 0
  {
    match e
    case Read(p) => LendsP(P, p, X)
    case Binop(_, l, r) => LendsE(P, l, X) || LendsE(P, r, X)
    case Unop(_, e1) => LendsE(P, e1, X)
    case Call(f, args) => LendsC(P, f, args, X)
    case _ => false
  }

  predicate LendsP(P: Program, p: Place, X: set<string>)
    decreases p, 0
  {
    (p.At? && LendsE(P, p.idx, X)) || (p.AtField? && LendsE(P, p.idx, X))
  }

  predicate LendsC(P: Program, f: string, args: Exprs, X: set<string>)
    decreases args, 1
  {
    var r := FindRoutine(P.routines, f);
    r.Some? && Length(args) == |r.value.params| && LendsA(P, args, r.value.params, X)
  }

  predicate LendsA(P: Program, args: Exprs, ps: seq<Param>, X: set<string>)
    requires Length(args) == |ps|
    decreases args, 0
  {
    args.Cons? &&
    (LendsE(P, args.hd, X) || (ps[0].isVar && args.hd.Read? && args.hd.p.x in X) || LendsA(P, args.tl, ps[1..], X))
  }

  /** `s` threatens a variable named in `X`: assigns it or lends it. */
  predicate Threatens(P: Program, s: Stmt, X: set<string>) {
    match s
    case Seq(s1, s2) => Threatens(P, s1, X) || Threatens(P, s2, X)
    case Assign(p, e) => p.x in X || LendsP(P, p, X) || LendsE(P, e, X)
    case CopyField(d, q) => d.x in X || LendsP(P, d, X) || LendsP(P, q, X)
    case If(c, t) => LendsE(P, c, X) || Threatens(P, t, X)
    case IfElse(c, t, e) => LendsE(P, c, X) || Threatens(P, t, X) || Threatens(P, e, X)
    case While(c, b) => LendsE(P, c, X) || Threatens(P, b, X)
    case CallStmt(f, args) => LendsC(P, f, args, X)
    case WriteVal(_, e) => LendsE(P, e, X)
    case _ => false
  }

  /** No routine that sees the global `x` mentions it, or threatens it. */
  predicate RoutinesIgnore(P: Program, x: string) {
    forall r :: r in P.routines ==> FindDecl(r, x).Some? || !MentionsS(r.body, {x})
  }

  predicate RoutinesSpare(P: Program, x: string) {
    forall r :: r in P.routines ==> FindDecl(r, x).Some? || !Threatens(P, r.body, {x})
  }

  // ---- cells ----

  /** Two cells of one variable. */
  predicate SameVar(l: Loc, k: Loc) {
    match (l, k)
    case (Glob(x, _), Glob(y, _)) => x == y
    case (Local(d, x, _), Local(e, y, _)) => d == e && x == y
    case _ => false
  }

  predicate Reaches(P: Program, env: Env, y: string, l: Loc) {
    var t := Lookup(P, env, y);
    t.Some? && SameVar(t.value.base, l)
  }

  /** In this scope, the variable of `l` is known by names in `X` only. */
  ghost predicate Covered(P: Program, env: Env, l: Loc, X: set<string>) {
    forall y :: Reaches(P, env, y, l) ==> y in X
  }

  /** The variable of `l` is global or belongs to an activation at or above `env`. */
  predicate Lives(env: Env, l: Loc) { (l.Local? ==> 1 <= l.d <= Depth(env)) && (env.In? ==> env.d >= 1) }

  /** Some of these names does mean that variable. */
  ghost predicate Sees(P: Program, env: Env, l: Loc, X: set<string>) {
    exists y :: y in X && Reaches(P, env, y, l)
  }

  lemma LookupOther(P: Program, env: Env, l: Loc, X: set<string>, y: string)
    requires Covered(P, env, l, X) && Lookup(P, env, y).Some? && (y in X ==> !Sees(P, env, l, X))
    ensures !SameVar(Lookup(P, env, y).value.base, l)
  {
    hide Lookup;
    assert Reaches(P, env, y, l) ==> y in X;
  }

  lemma SameVarShift(l: Loc, k: int, m: Loc)
    ensures SameVar(Shift(l, k), m) == SameVar(l, m)
  {
  }

  /** A callee knows the variable only as an undisturbed global. */
  lemma CalleeSees(P: Program, env: Env, r: Routine, refs: map<string, Loc>, l: Loc)
    requires Lives(env, l) && (forall y :: y in refs ==> !SameVar(refs[y], l))
    ensures var env' := In(Depth(env) + 1, r, refs);
            && Covered(P, env', l, {l.x}) && Lives(env', l)
            && (Sees(P, env', l, {l.x}) ==> l.Glob? && FindDecl(r, l.x).None?)
  {
  }

  lemma {:induction false} RefsUnlent(ps: seq<Param>, acts: seq<Actual>, l: Loc)
    requires |ps| == |acts| && forall i :: 0 <= i < |acts| && acts[i].Ref? ==> !SameVar(acts[i].l, l)
    ensures forall y :: y in BindRefs(ps, acts) ==> !SameVar(BindRefs(ps, acts)[y], l)
  {
    if ps != [] { RefsUnlent(ps[1..], acts[1..], l); }
  }

  /** No actual refers to the variable of `l`. */
  predicate ActsUnlent(acts: seq<Actual>, l: Loc) {
    forall i :: 0 <= i < |acts| && acts[i].Ref? ==> !SameVar(acts[i].l, l)
  }

  // ---- blindness ----

  function Patch(st: St, l: Loc, w: Value): St { st.(store := st.store[l := w]) }

  function Patched<T>(r: Res<T>, l: Loc, w: Value): Res<T> {
    if r.Ok? then Ok(r.val, Patch(r.st, l, w)) else r
  }

  /** What is needed of the scope and the rest of the program. */
  ghost predicate Blind(P: Program, env: Env, l: Loc, X: set<string>) {
    Covered(P, env, l, X) && Lives(env, l) && (l.Glob? ==> RoutinesIgnore(P, l.x))
  }

  lemma OpsPatched(op: BinOp, uop: UnOp, a: Value, b: Value, st: St, l: Loc, w: Value)
    ensures ApplyBin(op, a, b, Patch(st, l, w)) == Patched(ApplyBin(op, a, b, st), l, w)
    ensures ApplyUn(uop, a, Patch(st, l, w)) == Patched(ApplyUn(uop, a, st), l, w)
  {
  }

  lemma CellPatched(st: St, d: Dest, v: Value, l: Loc, w: Value)
    requires !SameVar(d.l, l)
    ensures Fetch(Patch(st, l, w), d) == Patched(Fetch(st, d), l, w)
    ensures Deposit(Patch(st, l, w), d, v) == Patched(Deposit(st, d, v), l, w)
    ensures Deposit(st, d, v).Ok? && l in st.store ==>
              l in Deposit(st, d, v).st.store && Deposit(st, d, v).st.store[l] == st.store[l]
  {
    if Deposit(st, d, v).Ok? { assert st.store[d.l := v][l := w] == st.store[l := w][d.l := v]; }
  }

  lemma {:induction false} BlindE(P: Program, fuel: nat, env: Env, st: St, e: Expr, l: Loc, X: set<string>, w: Value)
    requires Blind(P, env, l, X) && (Sees(P, env, l, X) ==> !MentionsE(e, X))
    ensures EvalE(P, fuel, env, Patch(st, l, w), e) == Patched(EvalE(P, fuel, env, st, e), l, w)
    decreases fuel, e, 0
  {
    hide ApplyBin, ApplyUn, Fetch, EvalCall, EvalP, Blind, Sees, Patch;
    match e
    case IntLit(_) =>
    case BoolLit(_) =>
    case CharLit(_) =>
    case Read(p) =>
      BlindP(P, fuel, env, st, p, l, X, w);
      var d := EvalP(P, fuel, env, st, p);
      if d.Ok? { CellPatched(d.st, d.val, VI(0), l, w); }
    case Binop(op, e1, e2) =>
      BlindE(P, fuel, env, st, e1, l, X, w);
      var a := EvalE(P, fuel, env, st, e1);
      if a.Ok? {
        BlindE(P, fuel, env, a.st, e2, l, X, w);
        var b := EvalE(P, fuel, env, a.st, e2);
        if b.Ok? { OpsPatched(op, Neg, a.val, b.val, b.st, l, w); }
      }
    case Unop(op, e1) =>
      BlindE(P, fuel, env, st, e1, l, X, w);
      var a := EvalE(P, fuel, env, st, e1);
      if a.Ok? { OpsPatched(Add, op, a.val, a.val, a.st, l, w); }
    case Call(f, args) => BlindCall(P, fuel, env, st, f, args, l, X, w);
  }

  lemma {:induction false} BlindP(P: Program, fuel: nat, env: Env, st: St, p: Place, l: Loc, X: set<string>, w: Value)
    requires Blind(P, env, l, X) && (Sees(P, env, l, X) ==> !MentionsP(p, X))
    ensures EvalP(P, fuel, env, Patch(st, l, w), p) == Patched(EvalP(P, fuel, env, st, p), l, w)
    ensures EvalP(P, fuel, env, st, p).Ok? ==> !SameVar(EvalP(P, fuel, env, st, p).val.l, l)
    decreases fuel, p, 0
  {
    hide EvalElem, Sees, Lookup, Patch, SameVar, Shift, RoutinesIgnore;
    var t := Lookup(P, env, p.x);
    if t.Some? {
      LookupOther(P, env, l, X, p.x);
      var b := t.value.base;
      match p
      case Name(_) =>
      case Field(_, k) => SameVarShift(b, k, l);
      case At(_, idx) => BlindElem(P, fuel, env, st, idx, b, t.value.shape, l, X, w);
      case AtField(_, idx, k) =>
        BlindElem(P, fuel, env, st, idx, b, t.value.shape, l, X, w);
        var d := EvalElem(P, fuel, env, st, idx, b, t.value.shape);
        if d.Ok? { SameVarShift(d.val.l, k, l); }
    }
  }

  lemma {:induction false} BlindElem(P: Program, fuel: nat, env: Env, st: St, idx: Expr, base: Loc, shape: Shape,
                                     l: Loc, X: set<string>, w: Value)
    requires Blind(P, env, l, X) && (Sees(P, env, l, X) ==> !MentionsE(idx, X)) && !SameVar(base, l)
    ensures EvalElem(P, fuel, env, Patch(st, l, w), idx, base, shape)
            == Patched(EvalElem(P, fuel, env, st, idx, base, shape), l, w)
    ensures EvalElem(P, fuel, env, st, idx, base, shape).Ok?
            ==> !SameVar(EvalElem(P, fuel, env, st, idx, base, shape).val.l, l)
    decreases fuel, idx, 1
  {
    hide EvalE, Blind, Sees, Patch, SameVar, Shift, Words, EvalElem;
    BlindE(P, fuel, env, st, idx, l, X, w);
    ElemIs(P, fuel, env, st, idx, base, shape);
    ElemIs(P, fuel, env, Patch(st, l, w), idx, base, shape);
    var v := EvalE(P, fuel, env, st, idx);
    if v.Ok? && v.val.VI? && shape.Arr? { SameVarShift(base, (v.val.i - shape.lo) * Words(shape.elem), l); }
  }

  lemma ElemIs(P: Program, fuel: nat, env: Env, st: St, idx: Expr, base: Loc, shape: Shape)
    ensures var v := EvalE(P, fuel, env, st, idx);
            EvalElem(P, fuel, env, st, idx, base, shape) ==
              if !shape.Arr? then TypeErr
              else if !v.Ok? then v.PropagateFailure<Dest>()
              else if !v.val.VI? then TypeErr
              else if shape.lo <= v.val.i <= shape.hi
                then Ok(Dest(Shift(base, (v.val.i - shape.lo) * Words(shape.elem)), shape.elem), v.st) else Undef
  {
    hide EvalE, Shift, Words;
  }

  lemma {:induction false} BlindArgs(P: Program, fuel: nat, env: Env, st: St, args: Exprs, ps: seq<Param>, l: Loc,
                                     X: set<string>, w: Value)
    requires Length(args) == |ps| && Blind(P, env, l, X) && (Sees(P, env, l, X) ==> !MentionsA(args, X))
    ensures EvalArgs(P, fuel, env, Patch(st, l, w), args, ps) == Patched(EvalArgs(P, fuel, env, st, args, ps), l, w)
    ensures EvalArgs(P, fuel, env, st, args, ps).Ok? ==> ActsUnlent(EvalArgs(P, fuel, env, st, args, ps).val, l)
    decreases fuel, args, 0
  {
    hide EvalE, EvalP, Blind, Sees, Patch, SameVar;
    if args.Cons? {
      BlindArgs(P, fuel, env, st, args.tl, ps[1..], l, X, w);
      var r := EvalArgs(P, fuel, env, st, args.tl, ps[1..]);
      if r.Ok? {
        if !ps[0].isVar { BlindE(P, fuel, env, r.st, args.hd, l, X, w); }
        if ps[0].isVar && args.hd.Read? { BlindP(P, fuel, env, r.st, args.hd.p, l, X, w); }
      }
    }
  }

  lemma {:induction false} BindPatched(m: Store, d: nat, ps: seq<Param>, acts: seq<Actual>, l: Loc, w: Value)
    requires |ps| == |acts| && (l.Local? ==> l.d < d)
    ensures BindVals(m[l := w], d, ps, acts) == BindVals(m, d, ps, acts)[l := w]
    ensures l in m ==> l in BindVals(m, d, ps, acts) && BindVals(m, d, ps, acts)[l] == m[l]
  {
    if ps != [] {
      BindPatched(m, d, ps[1..], acts[1..], l, w);
      if acts[0].Val? {
        var rest, k := BindVals(m, d, ps[1..], acts[1..]), Local(d, ps[0].name, 0);
        assert rest[l := w][k := acts[0].v] == rest[k := acts[0].v][l := w];
      }
    }
  }

  lemma ReturnPatched(st: St, d: nat, r: Routine, l: Loc, w: Value)
    requires l.Local? ==> l.d < d
    ensures Return(Patch(st, l, w), d, r) == Patched(Return(st, d, r), l, w)
    ensures Return(st, d, r).Ok? && l in st.store ==>
              l in Return(st, d, r).st.store && Return(st, d, r).st.store[l] == st.store[l]
  {
    assert Pop(st.store[l := w], d) == Pop(st.store, d)[l := w];
  }

  /** Entering a routine keeps the variable out of reach. */
  lemma EnterBlind(P: Program, env: Env, r: Routine, acts: seq<Actual>, l: Loc, X: set<string>)
    requires r in P.routines && |r.params| == |acts| && Blind(P, env, l, X) && ActsUnlent(acts, l)
    ensures var env' := In(Depth(env) + 1, r, BindRefs(r.params, acts));
            Blind(P, env', l, {l.x}) && (Sees(P, env', l, {l.x}) ==> !MentionsS(r.body, {l.x}))
              && (l.Local? ==> l.d < Depth(env) + 1)
  {
    hide Sees, SameVar, MentionsS;
    RefsUnlent(r.params, acts, l);
    CalleeSees(P, env, r, BindRefs(r.params, acts), l);
  }

  lemma EnteredPatched(st: St, d: nat, r: Routine, acts: seq<Actual>, l: Loc, w: Value)
    requires |acts| == |r.params| && (l.Local? ==> l.d < d)
    ensures Entered(Patch(st, l, w), d, r, acts) == Patch(Entered(st, d, r, acts), l, w)
  {
    BindPatched(st.store, d, r.params, acts, l, w);
  }

  lemma {:induction false} BlindCall(P: Program, fuel: nat, env: Env, st: St, f: string, args: Exprs, l: Loc,
                                     X: set<string>, w: Value)
    requires Blind(P, env, l, X) && (Sees(P, env, l, X) ==> !MentionsA(args, X))
    ensures EvalCall(P, fuel, env, Patch(st, l, w), f, args) == Patched(EvalCall(P, fuel, env, st, f, args), l, w)
    decreases fuel, args, 2
  {
    var ro := FindRoutine(P.routines, f);
    if ro.Some? && Length(args) == |ro.value.params| { BlindBody(P, fuel, env, st, f, args, ro.value, l, X, w); }
  }

  lemma {:induction false} BlindBody(P: Program, fuel: nat, env: Env, st: St, f: string, args: Exprs, r: Routine,
                                     l: Loc, X: set<string>, w: Value)
    requires Blind(P, env, l, X) && (Sees(P, env, l, X) ==> !MentionsA(args, X))
    requires FindRoutine(P.routines, f) == Some(r) && Length(args) == |r.params|
    ensures EvalCall(P, fuel, env, Patch(st, l, w), f, args) == Patched(EvalCall(P, fuel, env, st, f, args), l, w)
    decreases fuel, args, 1
  {
    hide EvalCall, EvalArgs, EvalS, Return, Sees, ActsUnlent, BindVals, BindRefs, MentionsS, MentionsA, Blind, Entered,
      Patch;
    CallIs(P, fuel, env, st, f, args, r);
    CallIs(P, fuel, env, Patch(st, l, w), f, args, r);
    BlindArgs(P, fuel, env, st, args, r.params, l, X, w);
    var a := EvalArgs(P, fuel, env, st, args, r.params);
    if a.Ok? {
      WritePatched(TInt, w, a.st, EByte(0), l, w);
      if fuel > 0 {
        var d := Depth(env) + 1;
        EnterBlind(P, env, r, a.val, l, X);
        EnteredPatched(a.st, d, r, a.val, l, w);
        var env' := In(d, r, BindRefs(r.params, a.val));
        BlindS(P, fuel - 1, env', Entered(a.st, d, r, a.val), r.body, l, {l.x}, w);
        var b := EvalS(P, fuel - 1, env', Entered(a.st, d, r, a.val), r.body);
        if b.Ok? { ReturnPatched(b.st, d, r, l, w); }
      }
    }
  }

  lemma WritePatched(ty: Ty, v: Value, st: St, e: Event, l: Loc, w: Value)
    ensures Show(ty, v, Patch(st, l, w)) == Patched(Show(ty, v, st), l, w)
    ensures Tell(Patch(st, l, w), e) == Patch(Tell(st, e), l, w)
    ensures Patch(st, l, w).out == st.out
  {
  }

  lemma {:induction false} BlindS(P: Program, fuel: nat, env: Env, st: St, s: Stmt, l: Loc, X: set<string>, w: Value)
    requires Blind(P, env, l, X) && (Sees(P, env, l, X) ==> !MentionsS(s, X))
    ensures EvalS(P, fuel, env, Patch(st, l, w), s) == Patched(EvalS(P, fuel, env, st, s), l, w)
    decreases fuel, s, 1
  {
    hide EvalE, EvalP, EvalCall, Fetch, Deposit, Blind, Sees, MentionsE, MentionsP, MentionsA, Show, Tell, Patch;
    match s
    case Skip =>
    case Seq(s1, s2) =>
      BlindS(P, fuel, env, st, s1, l, X, w);
      var r := EvalS(P, fuel, env, st, s1);
      if r.Ok? { BlindS(P, fuel, env, r.st, s2, l, X, w); }
    case Assign(_, _) => BlindStore(P, fuel, env, st, s, l, X, w);
    case CopyField(_, _) => BlindStore(P, fuel, env, st, s, l, X, w);
    case If(_, _) => BlindIf(P, fuel, env, st, s, l, X, w);
    case IfElse(_, _, _) => BlindIf(P, fuel, env, st, s, l, X, w);
    case While(c, b) => BlindWhile(P, fuel, env, st, c, b, l, X, w);
    case CallStmt(f, args) => BlindCall(P, fuel, env, st, f, args, l, X, w);
    case WriteLit(text) => WritePatched(TInt, w, st, EText(text), l, w);
    case WriteVal(ty, e) =>
      BlindE(P, fuel, env, st, e, l, X, w);
      var r := EvalE(P, fuel, env, st, e);
      if r.Ok? { WritePatched(ty, r.val, r.st, EByte(0), l, w); }
    case WriteLn => WritePatched(TInt, w, st, EByte(10), l, w);
  }

  lemma {:induction false} BlindIf(P: Program, fuel: nat, env: Env, st: St, s: Stmt, l: Loc, X: set<string>, w: Value)
    requires s.If? || s.IfElse?
    requires Blind(P, env, l, X) && (Sees(P, env, l, X) ==> !MentionsS(s, X))
    ensures EvalS(P, fuel, env, Patch(st, l, w), s) == Patched(EvalS(P, fuel, env, st, s), l, w)
    decreases fuel, s, 0
  {
    hide EvalE, Blind, Sees, MentionsE, Patch;
    BlindE(P, fuel, env, st, s.c, l, X, w);
    var r := EvalE(P, fuel, env, st, s.c);
    if r.Ok? {
      BlindS(P, fuel, env, r.st, s.t, l, X, w);
      if s.IfElse? { BlindS(P, fuel, env, r.st, s.els, l, X, w); }
    }
  }

  lemma BlindStore(P: Program, fuel: nat, env: Env, st: St, s: Stmt, l: Loc, X: set<string>, w: Value)
    requires s.Assign? || s.CopyField?
    requires Blind(P, env, l, X) && (Sees(P, env, l, X) ==> !MentionsS(s, X))
    ensures EvalS(P, fuel, env, Patch(st, l, w), s) == Patched(EvalS(P, fuel, env, st, s), l, w)
    decreases fuel, s, 0
  {
    hide EvalE, EvalP, Fetch, Deposit, Blind, Sees, MentionsE, MentionsP, Patch, SameVar;
    if s.Assign? && s.p.Name? {
      BlindE(P, fuel, env, st, s.e, l, X, w);
      var r := EvalE(P, fuel, env, st, s.e);
      if r.Ok? {
        BlindP(P, fuel, env, r.st, s.p, l, X, w);
        var d := EvalP(P, fuel, env, r.st, s.p);
        if d.Ok? { CellPatched(d.st, d.val, r.val, l, w); }
      }
    } else if s.Assign? {
      BlindP(P, fuel, env, st, s.p, l, X, w);
      var d := EvalP(P, fuel, env, st, s.p);
      if d.Ok? {
        BlindE(P, fuel, env, d.st, s.e, l, X, w);
        var r := EvalE(P, fuel, env, d.st, s.e);
        if r.Ok? { CellPatched(r.st, d.val, r.val, l, w); }
      }
    } else {
      BlindP(P, fuel, env, st, s.src, l, X, w);
      var d := EvalP(P, fuel, env, st, s.src);
      if d.Ok? {
        CellPatched(d.st, d.val, VI(0), l, w);
        var v := Fetch(d.st, d.val);
        if v.Ok? {
          BlindP(P, fuel, env, v.st, s.dst, l, X, w);
          var d' := EvalP(P, fuel, env, v.st, s.dst);
          if d'.Ok? { CellPatched(d'.st, d'.val, v.val, l, w); }
        }
      }
    }
  }

  lemma {:induction false} BlindWhile(P: Program, fuel: nat, env: Env, st: St, c: Expr, b: Stmt, l: Loc, X: set<string>,
                                      w: Value)
    requires Blind(P, env, l, X) && (Sees(P, env, l, X) ==> !MentionsS(While(c, b), X))
    ensures EvalS(P, fuel, env, Patch(st, l, w), While(c, b)) == Patched(EvalS(P, fuel, env, st, While(c, b)), l, w)
    decreases fuel, While(c, b), 0
  {
    hide EvalE, Blind, Sees, MentionsE;
    BlindE(P, fuel, env, st, c, l, X, w);
    var r := EvalE(P, fuel, env, st, c);
    if r.Ok? && r.val.VB? && r.val.b {
      BlindS(P, fuel, env, r.st, b, l, X, w);
      var r2 := EvalS(P, fuel, env, r.st, b);
      if r2.Ok? && fuel > 0 { BlindS(P, fuel - 1, env, r2.st, While(c, b), l, X, w); }
    }
  }

  // ---- sparing ----

  /** A finished evaluation left cell `l` as it was. */
  predicate Stays<T>(r: Res<T>, st: St, l: Loc) {
    r.Ok? && l in st.store ==> l in r.st.store && r.st.store[l] == st.store[l]
  }

  ghost predicate Spared(P: Program, env: Env, l: Loc, X: set<string>) {
    Covered(P, env, l, X) && Lives(env, l) && (l.Glob? ==> RoutinesSpare(P, l.x))
  }

  lemma {:induction false} SparesE(P: Program, fuel: nat, env: Env, st: St, e: Expr, l: Loc, X: set<string>)
    requires Spared(P, env, l, X) && (Sees(P, env, l, X) ==> !LendsE(P, e, X))
    ensures Stays(EvalE(P, fuel, env, st, e), st, l)
    decreases fuel, e, 0
  {
    hide ApplyBin, ApplyUn, Fetch, EvalCall, EvalP, Spared, Sees;
    match e
    case IntLit(_) =>
    case BoolLit(_) =>
    case CharLit(_) =>
    case Read(p) =>
      SparesP(P, fuel, env, st, p, l, X);
      var d := EvalP(P, fuel, env, st, p);
      if d.Ok? { FetchKeeps(d.st, d.val); }
    case Binop(op, e1, e2) =>
      SparesE(P, fuel, env, st, e1, l, X);
      var a := EvalE(P, fuel, env, st, e1);
      if a.Ok? {
        SparesE(P, fuel, env, a.st, e2, l, X);
        var b := EvalE(P, fuel, env, a.st, e2);
        if b.Ok? { OpsKeep(op, Neg, a.val, b.val, b.st); }
      }
    case Unop(op, e1) =>
      SparesE(P, fuel, env, st, e1, l, X);
      var a := EvalE(P, fuel, env, st, e1);
      if a.Ok? { OpsKeep(Add, op, a.val, a.val, a.st); }
    case Call(f, args) => SparesCall(P, fuel, env, st, f, args, l, X);
  }

  lemma OpsKeep(op: BinOp, uop: UnOp, a: Value, b: Value, st: St)
    ensures ApplyBin(op, a, b, st).Ok? ==> ApplyBin(op, a, b, st).st == st
    ensures ApplyUn(uop, a, st).Ok? ==> ApplyUn(uop, a, st).st == st
  {
  }

  lemma FetchKeeps(st: St, d: Dest)
    ensures Fetch(st, d).Ok? ==> Fetch(st, d).st == st
  {
  }

  lemma {:induction false} SparesP(P: Program, fuel: nat, env: Env, st: St, p: Place, l: Loc, X: set<string>)
    requires Spared(P, env, l, X) && (Sees(P, env, l, X) ==> !LendsP(P, p, X))
    ensures Stays(EvalP(P, fuel, env, st, p), st, l)
    ensures EvalP(P, fuel, env, st, p).Ok? && (p.x in X ==> !Sees(P, env, l, X))
            ==> !SameVar(EvalP(P, fuel, env, st, p).val.l, l)
    decreases fuel, p, 0
  {
    hide EvalElem, Sees, Lookup, SameVar, Shift, RoutinesSpare;
    var t := Lookup(P, env, p.x);
    if t.Some? {
      if p.x in X ==> !Sees(P, env, l, X) { LookupOther(P, env, l, X, p.x); }
      var b := t.value.base;
      match p
      case Name(_) =>
      case Field(_, k) => SameVarShift(b, k, l);
      case At(_, idx) => SparesElem(P, fuel, env, st, idx, b, t.value.shape, l, X);
      case AtField(_, idx, k) =>
        SparesElem(P, fuel, env, st, idx, b, t.value.shape, l, X);
        var d := EvalElem(P, fuel, env, st, idx, b, t.value.shape);
        if d.Ok? { SameVarShift(d.val.l, k, l); }
    }
  }

  lemma {:induction false} SparesElem(P: Program, fuel: nat, env: Env, st: St, idx: Expr, base: Loc, shape: Shape,
                                      l: Loc, X: set<string>)
    requires Spared(P, env, l, X) && (Sees(P, env, l, X) ==> !LendsE(P, idx, X))
    ensures Stays(EvalElem(P, fuel, env, st, idx, base, shape), st, l)
    ensures EvalElem(P, fuel, env, st, idx, base, shape).Ok?
            ==> SameVar(EvalElem(P, fuel, env, st, idx, base, shape).val.l, l) == SameVar(base, l)
    decreases fuel, idx, 1
  {
    hide EvalE, Spared, Sees, SameVar, Shift, Words;
    SparesE(P, fuel, env, st, idx, l, X);
    var v := EvalE(P, fuel, env, st, idx);
    if v.Ok? && v.val.VI? && shape.Arr? { SameVarShift(base, (v.val.i - shape.lo) * Words(shape.elem), l); }
  }

  lemma {:induction false} SparesArgs(P: Program, fuel: nat, env: Env, st: St, args: Exprs, ps: seq<Param>, l: Loc,
                                      X: set<string>)
    requires Length(args) == |ps| && Spared(P, env, l, X) && (Sees(P, env, l, X) ==> !LendsA(P, args, ps, X))
    ensures Stays(EvalArgs(P, fuel, env, st, args, ps), st, l)
    ensures EvalArgs(P, fuel, env, st, args, ps).Ok? ==> ActsUnlent(EvalArgs(P, fuel, env, st, args, ps).val, l)
    decreases fuel, args, 0
  {
    hide EvalE, EvalP, Spared, Sees, SameVar;
    if args.Cons? {
      SparesArgs(P, fuel, env, st, args.tl, ps[1..], l, X);
      var r := EvalArgs(P, fuel, env, st, args.tl, ps[1..]);
      if r.Ok? {
        if !ps[0].isVar { SparesE(P, fuel, env, r.st, args.hd, l, X); }
        if ps[0].isVar && args.hd.Read? { SparesP(P, fuel, env, r.st, args.hd.p, l, X); }
      }
    }
  }

  lemma EnterSpared(P: Program, env: Env, r: Routine, acts: seq<Actual>, l: Loc, X: set<string>)
    requires r in P.routines && |r.params| == |acts| && Spared(P, env, l, X) && ActsUnlent(acts, l)
    ensures var env' := In(Depth(env) + 1, r, BindRefs(r.params, acts));
            Spared(P, env', l, {l.x}) && (Sees(P, env', l, {l.x}) ==> !Threatens(P, r.body, {l.x}))
              && (l.Local? ==> l.d < Depth(env) + 1)
  {
    hide Sees, SameVar, Threatens;
    RefsUnlent(r.params, acts, l);
    CalleeSees(P, env, r, BindRefs(r.params, acts), l);
  }

  lemma {:induction false} SparesCall(P: Program, fuel: nat, env: Env, st: St, f: string, args: Exprs, l: Loc,
                                      X: set<string>)
    requires Spared(P, env, l, X) && (Sees(P, env, l, X) ==> !LendsC(P, f, args, X))
    ensures Stays(EvalCall(P, fuel, env, st, f, args), st, l)
    decreases fuel, args, 1
  {
    hide EvalArgs, EvalS, Return, Sees, ActsUnlent, BindVals, BindRefs, Threatens, LendsA, Spared;
    var ro := FindRoutine(P.routines, f);
    if ro.Some? && Length(args) == |ro.value.params| {
      var r := ro.value;
      SparesArgs(P, fuel, env, st, args, r.params, l, X);
      var a := EvalArgs(P, fuel, env, st, args, r.params);
      if a.Ok? && fuel > 0 {
        var d := Depth(env) + 1;
        EnterSpared(P, env, r, a.val, l, X);
        BindPatched(a.st.store, d, r.params, a.val, l, VI(0));
        var env' := In(d, r, BindRefs(r.params, a.val));
        var st' := a.st.(store := BindVals(a.st.store, d, r.params, a.val));
        SparesS(P, fuel - 1, env', st', r.body, l, {l.x});
        var b := EvalS(P, fuel - 1, env', st', r.body);
        if b.Ok? { ReturnPatched(b.st, d, r, l, VI(0)); }
      }
    }
  }

  lemma {:induction false} SparesS(P: Program, fuel: nat, env: Env, st: St, s: Stmt, l: Loc, X: set<string>)
    requires Spared(P, env, l, X) && (Sees(P, env, l, X) ==> !Threatens(P, s, X))
    ensures Stays(EvalS(P, fuel, env, st, s), st, l)
    decreases fuel, s, 1
  {
    hide EvalE, EvalP, EvalCall, Fetch, Deposit, Spared, Sees, LendsE, LendsP, LendsC;
    match s
    case Skip =>
    case Seq(s1, s2) =>
      SparesS(P, fuel, env, st, s1, l, X);
      var r := EvalS(P, fuel, env, st, s1);
      if r.Ok? { SparesS(P, fuel, env, r.st, s2, l, X); }
    case Assign(_, _) => SparesStore(P, fuel, env, st, s, l, X);
    case CopyField(_, _) => SparesStore(P, fuel, env, st, s, l, X);
    case If(c, t) =>
      SparesE(P, fuel, env, st, c, l, X);
      var r := EvalE(P, fuel, env, st, c);
      if r.Ok? { SparesS(P, fuel, env, r.st, t, l, X); }
    case IfElse(c, t, e) =>
      SparesE(P, fuel, env, st, c, l, X);
      var r := EvalE(P, fuel, env, st, c);
      if r.Ok? {
        SparesS(P, fuel, env, r.st, t, l, X);
        SparesS(P, fuel, env, r.st, e, l, X);
      }
    case While(c, b) => SparesWhile(P, fuel, env, st, c, b, l, X);
    case CallStmt(f, args) => SparesCall(P, fuel, env, st, f, args, l, X);
    case WriteLit(_) =>
    case WriteVal(_, e) => SparesE(P, fuel, env, st, e, l, X);
    case WriteLn =>
  }

  lemma SparesStore(P: Program, fuel: nat, env: Env, st: St, s: Stmt, l: Loc, X: set<string>)
    requires s.Assign? || s.CopyField?
    requires Spared(P, env, l, X) && (Sees(P, env, l, X) ==> !Threatens(P, s, X))
    ensures Stays(EvalS(P, fuel, env, st, s), st, l)
    decreases fuel, s, 0
  {
    hide EvalE, EvalP, Fetch, Deposit, Spared, Sees, LendsE, LendsP, SameVar;
    if s.Assign? && s.p.Name? {
      SparesE(P, fuel, env, st, s.e, l, X);
      var r := EvalE(P, fuel, env, st, s.e);
      if r.Ok? {
        NameLendsNothing(P, s.p, X);
        SparesP(P, fuel, env, r.st, s.p, l, X);
        var d := EvalP(P, fuel, env, r.st, s.p);
        if d.Ok? { CellPatched(d.st, d.val, r.val, l, r.val); }
      }
    } else if s.Assign? {
      SparesP(P, fuel, env, st, s.p, l, X);
      var d := EvalP(P, fuel, env, st, s.p);
      if d.Ok? {
        SparesE(P, fuel, env, d.st, s.e, l, X);
        var r := EvalE(P, fuel, env, d.st, s.e);
        if r.Ok? { CellPatched(r.st, d.val, r.val, l, r.val); }
      }
    } else {
      SparesP(P, fuel, env, st, s.src, l, X);
      var d := EvalP(P, fuel, env, st, s.src);
      if d.Ok? {
        FetchKeeps(d.st, d.val);
        var v := Fetch(d.st, d.val);
        if v.Ok? {
          SparesP(P, fuel, env, v.st, s.dst, l, X);
          var d' := EvalP(P, fuel, env, v.st, s.dst);
          if d'.Ok? { CellPatched(d'.st, d'.val, v.val, l, v.val); }
        }
      }
    }
  }

  lemma NameLendsNothing(P: Program, p: Place, X: set<string>)
    requires p.Name?
    ensures !LendsP(P, p, X)
  {
  }

  lemma {:induction false} SparesWhile(P: Program, fuel: nat, env: Env, st: St, c: Expr, b: Stmt, l: Loc,
    X: set<string>)
    requires Spared(P, env, l, X) && (Sees(P, env, l, X) ==> !Threatens(P, While(c, b), X))
    ensures Stays(EvalS(P, fuel, env, st, While(c, b)), st, l)
    decreases fuel, While(c, b), 0
  {
    hide EvalE, Spared, Sees, LendsE;
    SparesE(P, fuel, env, st, c, l, X);
    var r := EvalE(P, fuel, env, st, c);
    if r.Ok? && r.val.VB? && r.val.b {
      SparesS(P, fuel, env, r.st, b, l, X);
      var r2 := EvalS(P, fuel, env, r.st, b);
      if r2.Ok? && fuel > 0 { SparesS(P, fuel - 1, env, r2.st, While(c, b), l, X); }
    }
  }
}
