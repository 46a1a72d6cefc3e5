/** Checked programs do not go wrong: evaluation never meets an operation the type rules exclude, and
    every cell keeps a value of its declared type. */
module TypeSoundness {
  import opened Int32
  import opened Syntax
  import opened Semantics
  import opened Machine
  import opened Codegen
  import opened Typecheck

  /** The declared type of a cell; `rs` are the routines active below the main block. */
  function LocTy(P: Program, rs: seq<Routine>, l: Loc): Option<Ty> {
    match l
    case Glob(x, i) => ShapeTy(FindVar(P.globals, x), i)
    case Local(d, x, i) =>
      if 1 <= d <= |rs| && FindDecl(rs[d - 1], x).Some? && !FindDecl(rs[d - 1], x).value.isRef then
        ShapeTy(Some(FindDecl(rs[d - 1], x).value.shape), i)
      else None
  }

  function ShapeTy(s: Option<Shape>, i: int): Option<Ty> {
    if s.Some? && 0 <= i < Cells(s.value) then Some(CellTy(s.value, i)) else None
  }

  function ElemTy(e: Elem, k: nat): Ty {
    match e
    case Scalar(ty) => ty
    case Record(_, fs) => if k < |fs| then fs[k] else TInt
  }

  /** The cells from `l` on hold what an `elem` holds. */
  predicate DestTyped(P: Program, rs: seq<Routine>, l: Loc, e: Elem) {
    forall k :: 0 <= k < Words(e) ==> LocTy(P, rs, Shift(l, k)) == Some(ElemTy(e, k))
  }

  ghost predicate StoreTyped(P: Program, rs: seq<Routine>, m: Store) {
    forall l :: l in m ==> LocTy(P, rs, l).Some? && HasTy(m[l], LocTy(P, rs, l).value)
  }

  /** A `var` parameter denotes caller cells of its type. */
  predicate RefTyped(P: Program, rs: seq<Routine>, r: Routine, refs: map<string, Loc>, x: string) {
    var d := FindDecl(r, x);
    d.Some? && d.value.isRef ==> x in refs && d.value.shape.One? && DestTyped(P, rs, refs[x], d.value.shape.elem)
  }

  ghost predicate RefsTyped(P: Program, rs: seq<Routine>, r: Routine, refs: map<string, Loc>) {
    forall x :: RefTyped(P, rs, r, refs, x)
  }

  ghost predicate EnvTyped(P: Program, rs: seq<Routine>, env: Env) {
    match env
    case Main => rs == []
    case In(d, r, refs) =>
      && d == |rs| && d >= 1 && rs[d - 1] == r
      && RefsTyped(P, rs[..d - 1], r, refs)
  }

  function ScopeIn(env: Env): Scope { if env.Main? then None else Some(env.r) }

  ghost predicate Good(P: Program, rs: seq<Routine>, env: Env, st: St) {
    CheckProgram(P) && EnvTyped(P, rs, env) && StoreTyped(P, rs, st.store) && forall r :: r in rs ==> r in P.routines
  }

  // ---- cells ----

  lemma CellTyOf(s: Shape, j: int, k: nat)
    requires s.Arr? ==> 0 <= j <= s.hi - s.lo
    requires s.One? ==> j == 0
    requires k < Words(s.elem)
    ensures 0 <= j * Words(s.elem) + k < Cells(s) && CellTy(s, j * Words(s.elem) + k) == ElemTy(s.elem, k)
  {
    var w := Words(s.elem);
    Nonneg(j, w);
    ModUnique(j * w + k, w, j, k);
    if s.Arr? {
      Nonneg(s.hi - s.lo - j, w);
      assert (s.hi - s.lo - j) * w == (s.hi - s.lo + 1) * w - w - j * w;
    }
  }

  lemma LocTyPrefix(P: Program, rs: seq<Routine>, r: Routine, l: Loc)
    requires LocTy(P, rs, l).Some?
    ensures LocTy(P, rs + [r], l) == LocTy(P, rs, l)
  {
  }

  /** What a name denotes agrees with its declaration, cell by cell. */
  lemma LookupTyped(P: Program, rs: seq<Routine>, env: Env, x: string, j: int, k: nat)
    requires EnvTyped(P, rs, env) && ShapeOf(P, ScopeIn(env), x).Some?
    requires var sh := ShapeOf(P, ScopeIn(env), x).value;
             (sh.Arr? ==> 0 <= j <= sh.hi - sh.lo) && (sh.One? ==> j == 0) && k < Words(sh.elem)
    ensures var sh := ShapeOf(P, ScopeIn(env), x).value;
            var t := Lookup(P, env, x);
            && t.Some? && t.value.shape == sh
            && LocTy(P, rs, Shift(t.value.base, j * Words(sh.elem) + k)) == Some(ElemTy(sh.elem, k))
  {
    hide FindDecl, FindVar, CellTy, Words, Cells, ElemTy;
    var sh := ShapeOf(P, ScopeIn(env), x).value;
    CellTyOf(sh, j, k);
    if env.In? && FindDecl(env.r, x).Some? && FindDecl(env.r, x).value.isRef {
      RefCellTyped(P, rs, env, x, k);
    }
  }

  lemma RefCellTyped(P: Program, rs: seq<Routine>, env: Env, x: string, k: nat)
    requires EnvTyped(P, rs, env) && env.In? && FindDecl(env.r, x).Some? && FindDecl(env.r, x).value.isRef
    requires k < Words(FindDecl(env.r, x).value.shape.elem)
    ensures x in env.refs && FindDecl(env.r, x).value.shape.One?
    ensures LocTy(P, rs, Shift(env.refs[x], k)) == Some(ElemTy(FindDecl(env.r, x).value.shape.elem, k))
  {
    hide FindDecl, FindVar, CellTy, Words, Cells, ElemTy, LocTy;
    var n := |rs| - 1;
    assert RefTyped(P, rs[..n], env.r, env.refs, x);
    LocTyPrefix(P, rs[..n], rs[n], Shift(env.refs[x], k));
    assert rs[..n] + [rs[n]] == rs;
  }

  lemma LookupAgrees(P: Program, rs: seq<Routine>, env: Env, x: string)
    requires EnvTyped(P, rs, env) && ShapeOf(P, ScopeIn(env), x).Some?
    ensures Lookup(P, env, x).Some? && Lookup(P, env, x).value.shape == ShapeOf(P, ScopeIn(env), x).value
  {
    if env.In? { assert RefTyped(P, rs[..|rs| - 1], env.r, env.refs, x); }
  }

  // ---- results ----

  ghost predicate SafeE(P: Program, rs: seq<Routine>, r: Res<Value>, ty: Ty) {
    !r.TypeErr? && (r.Ok? ==> HasTy(r.val, ty) && StoreTyped(P, rs, r.st.store))
  }

  ghost predicate SafeP(P: Program, rs: seq<Routine>, r: Res<Dest>, e: Elem) {
    !r.TypeErr? && (r.Ok? ==> r.val.elem == e && DestTyped(P, rs, r.val.l, e) && StoreTyped(P, rs, r.st.store))
  }

  lemma BinSafe(op: BinOp, a: Value, b: Value, ta: Ty, tb: Ty, st: St)
    requires HasTy(a, ta) && HasTy(b, tb) && BinTy(op, Scalar(ta), Scalar(tb)).Some?
    ensures var t := BinTy(op, Scalar(ta), Scalar(tb)).value;
            var r := ApplyBin(op, a, b, st);
            t.Scalar? && !r.TypeErr? && (r.Ok? ==> HasTy(r.val, t.ty) && r.st == st)
  {
  }

  lemma UnSafe(op: UnOp, a: Value, ta: Ty, st: St)
    requires HasTy(a, ta) && UnTy(op, Scalar(ta)).Some?
    ensures var t := UnTy(op, Scalar(ta)).value;
            var r := ApplyUn(op, a, st);
            t.Scalar? && r.Ok? && HasTy(r.val, t.ty) && r.st == st
  {
  }

  lemma {:induction false} ExprSafe(P: Program, rs: seq<Routine>, fuel: nat, env: Env, st: St, e: Expr, ty: Ty)
    requires Good(P, rs, env, st) && CheckE(P, ScopeIn(env), e) == Some(Scalar(ty))
    ensures SafeE(P, rs, EvalE(P, fuel, env, st, e), ty)
    decreases fuel, e, 1
  {
    match e
    case IntLit(_) =>
    case BoolLit(_) =>
    case CharLit(_) =>
    case Read(p) =>
      PlaceSafe(P, rs, fuel, env, st, p, Scalar(ty));
      var r := EvalP(P, fuel, env, st, p);
      if r.Ok? { FetchSafe(P, rs, r.st, r.val, ty); }
    case Binop(op, l, r) => BinopSafe(P, rs, fuel, env, st, op, l, r, ty);
    case Unop(op, e1) =>
      var ta := CheckE(P, ScopeIn(env), e1).value;
      ExprSafe(P, rs, fuel, env, st, e1, ta.ty);
      var r1 := EvalE(P, fuel, env, st, e1);
      if r1.Ok? { UnSafe(op, r1.val, ta.ty, r1.st); }
    case Call(f, args) => CallSafe(P, rs, fuel, env, st, f, args);
  }

  lemma FetchSafe(P: Program, rs: seq<Routine>, st: St, d: Dest, ty: Ty)
    requires StoreTyped(P, rs, st.store) && d.elem == Scalar(ty) && DestTyped(P, rs, d.l, d.elem)
    ensures var r := Fetch(st, d); !r.TypeErr? && (r.Ok? ==> HasTy(r.val, ty) && r.st == st)
  {
    assert LocTy(P, rs, Shift(d.l, 0)) == Some(ElemTy(d.elem, 0));
    assert Shift(d.l, 0) == d.l;
  }

  lemma DepositSafe(P: Program, rs: seq<Routine>, st: St, d: Dest, v: Value, ty: Ty)
    requires StoreTyped(P, rs, st.store) && d.elem == Scalar(ty) && DestTyped(P, rs, d.l, d.elem) && HasTy(v, ty)
    ensures var r := Deposit(st, d, v); r.Ok? && StoreTyped(P, rs, r.st.store)
  {
    assert LocTy(P, rs, Shift(d.l, 0)) == Some(ElemTy(d.elem, 0));
    assert Shift(d.l, 0) == d.l;
  }

  lemma {:induction false} BinopSafe(P: Program, rs: seq<Routine>, fuel: nat, env: Env, st: St, op: BinOp, l: Expr,
                                     r: Expr, ty: Ty)
    requires Good(P, rs, env, st) && CheckE(P, ScopeIn(env), Binop(op, l, r)) == Some(Scalar(ty))
    ensures SafeE(P, rs, EvalE(P, fuel, env, st, Binop(op, l, r)), ty)
    decreases fuel, Binop(op, l, r), 0
  {
    var ta, tb := CheckE(P, ScopeIn(env), l).value, CheckE(P, ScopeIn(env), r).value;
    assert ta.Scalar? && tb.Scalar?;
    ExprSafe(P, rs, fuel, env, st, l, ta.ty);
    var r1 := EvalE(P, fuel, env, st, l);
    if r1.Ok? {
      ExprSafe(P, rs, fuel, env, r1.st, r, tb.ty);
      var r2 := EvalE(P, fuel, env, r1.st, r);
      if r2.Ok? { BinSafe(op, r1.val, r2.val, ta.ty, tb.ty, r2.st); }
    }
  }

  lemma {:induction false} PlaceSafe(P: Program, rs: seq<Routine>, fuel: nat, env: Env, st: St, p: Place, e: Elem)
    requires Good(P, rs, env, st) && CheckP(P, ScopeIn(env), p) == Some(e)
    ensures SafeP(P, rs, EvalP(P, fuel, env, st, p), e)
    decreases fuel, p, 1
  {
    LookupAgrees(P, rs, env, p.x);
    var t := Lookup(P, env, p.x).value;
    match p
    case Name(x) => CellsTyped(P, rs, env, x, 0);
    case Field(x, k) => CellsTyped(P, rs, env, x, 0);
    case At(x, idx) => ElemSafe(P, rs, fuel, env, st, x, idx);
    case AtField(x, idx, k) =>
      ElemSafe(P, rs, fuel, env, st, x, idx);
      var r := EvalElem(P, fuel, env, st, idx, t.base, t.shape);
      if r.Ok? { FieldSafe(P, rs, r.st, r.val, k); }
  }

  lemma FieldSafe(P: Program, rs: seq<Routine>, st: St, d: Dest, k: nat)
    requires DestTyped(P, rs, d.l, d.elem) && FieldTy(d.elem, k).Some?
    ensures var r := FieldOf(d, k, st);
            r.Ok? && r.st == st && Some(r.val.elem) == FieldTy(d.elem, k) && DestTyped(P, rs, r.val.l, r.val.elem)
  {
    assert LocTy(P, rs, Shift(d.l, k)) == Some(ElemTy(d.elem, k));
    assert Shift(Shift(d.l, k), 0) == Shift(d.l, k);
  }

  lemma CellsTyped(P: Program, rs: seq<Routine>, env: Env, x: string, j: int)
    requires EnvTyped(P, rs, env) && ShapeOf(P, ScopeIn(env), x).Some?
    requires var sh := ShapeOf(P, ScopeIn(env), x).value; (sh.Arr? ==> 0 <= j <= sh.hi - sh.lo) && (sh.One? ==> j == 0)
    ensures var sh := ShapeOf(P, ScopeIn(env), x).value;
            && Lookup(P, env, x).Some?
            && DestTyped(P, rs, Shift(Lookup(P, env, x).value.base, j * Words(sh.elem)), sh.elem)
            && Shift(Lookup(P, env, x).value.base, 0) == Lookup(P, env, x).value.base
            && (j == 0 ==> DestTyped(P, rs, Lookup(P, env, x).value.base, sh.elem))
            && (sh.One? && sh.elem.Record? ==> forall k: nat :: k < |sh.elem.fields| ==>
                  DestTyped(P, rs, Shift(Lookup(P, env, x).value.base, k), Scalar(sh.elem.fields[k])))
  {
    var sh := ShapeOf(P, ScopeIn(env), x).value;
    LookupAgrees(P, rs, env, x);
    var b := Lookup(P, env, x).value.base;
    var l := Shift(b, j * Words(sh.elem));
    assert j == 0 ==> l == b;
    forall k | 0 <= k < Words(sh.elem)
      ensures LocTy(P, rs, Shift(l, k)) == Some(ElemTy(sh.elem, k))
    {
      LookupTyped(P, rs, env, x, j, k);
      assert Shift(l, k) == Shift(b, j * Words(sh.elem) + k);
    }
    if sh.One? && sh.elem.Record? {
      forall k: nat | k < |sh.elem.fields|
        ensures DestTyped(P, rs, Shift(b, k), Scalar(sh.elem.fields[k]))
      {
        FieldSafe(P, rs, St(map[], []), Dest(b, sh.elem), k);
      }
    }
  }

  lemma {:induction false} ElemSafe(P: Program, rs: seq<Routine>, fuel: nat, env: Env, st: St, x: string, idx: Expr)
    requires Good(P, rs, env, st) && ShapeOf(P, ScopeIn(env), x).Some? && ShapeOf(P, ScopeIn(env), x).value.Arr?
    requires CheckE(P, ScopeIn(env), idx) == Some(Scalar(TInt))
    requires Lookup(P, env, x).Some? && Lookup(P, env, x).value.shape == ShapeOf(P, ScopeIn(env), x).value
    ensures var t := Lookup(P, env, x).value;
            SafeP(P, rs, EvalElem(P, fuel, env, st, idx, t.base, t.shape), t.shape.elem)
    decreases fuel, idx, 2
  {
    hide EvalE, CheckE, Lookup, ShapeOf, StoreTyped, CheckProgram, DestTyped, Words;
    var t := Lookup(P, env, x).value;
    ExprSafe(P, rs, fuel, env, st, idx, TInt);
    var r := EvalE(P, fuel, env, st, idx);
    if r.Ok? && t.shape.lo <= r.val.i <= t.shape.hi { CellsTyped(P, rs, env, x, r.val.i - t.shape.lo); }
  }

  // ---- calls ----

  predicate ActualTyped(P: Program, rs: seq<Routine>, p: Param, a: Actual) {
    match a
    case Val(v) => !p.isVar && p.elem.Scalar? && HasTy(v, p.elem.ty)
    case Ref(l) => p.isVar && DestTyped(P, rs, l, p.elem)
  }

  ghost predicate SafeArgs(P: Program, rs: seq<Routine>, r: Res<seq<Actual>>, ps: seq<Param>) {
    !r.TypeErr? && (r.Ok? ==> && |r.val| == |ps| && StoreTyped(P, rs, r.st.store)
                              && forall i :: 0 <= i < |ps| ==> ActualTyped(P, rs, ps[i], r.val[i]))
  }

  lemma {:induction false} ArgsSafe(P: Program, rs: seq<Routine>, fuel: nat, env: Env, st: St, args: Exprs,
                                    ps: seq<Param>)
    requires Good(P, rs, env, st) && Length(args) == |ps| && CheckArgs(P, ScopeIn(env), args, ps)
    requires forall i :: 0 <= i < |ps| && !ps[i].isVar ==> ps[i].elem.Scalar?
    ensures SafeArgs(P, rs, EvalArgs(P, fuel, env, st, args, ps), ps)
    decreases fuel, args, 1
  {
    if args.Cons? {
      var e := args.hd;
      ArgsSafe(P, rs, fuel, env, st, args.tl, ps[1..]);
      var r1 := EvalArgs(P, fuel, env, st, args.tl, ps[1..]);
      if r1.Ok? {
        assert CheckE(P, ScopeIn(env), e) == Some(ps[0].elem);
        if ps[0].isVar {
          PlaceSafe(P, rs, fuel, env, r1.st, e.p, ps[0].elem);
        } else {
          ExprSafe(P, rs, fuel, env, r1.st, e, ps[0].elem.ty);
        }
        var r := EvalArgs(P, fuel, env, st, args, ps);
        if r.Ok? {
          forall i | 0 <= i < |ps|
            ensures ActualTyped(P, rs, ps[i], r.val[i])
          {
            if i > 0 { assert ps[1..][i - 1] == ps[i] && r.val[i] == r1.val[i - 1]; }
          }
        }
      }
    }
  }

  lemma {:induction false} BindValsTyped(P: Program, rs: seq<Routine>, r: Routine, m: Store, ps: seq<Param>,
                                         avs: seq<Actual>)
    requires |ps| == |avs| && StoreTyped(P, rs, m)
    requires forall i :: 0 <= i < |ps| ==> ActualTyped(P, rs, ps[i], avs[i])
    requires forall i :: 0 <= i < |ps| ==> FindDecl(r, ps[i].name) == Some(Decl(ps[i].isVar, One(ps[i].elem)))
    ensures StoreTyped(P, rs + [r], BindVals(m, |rs| + 1, ps, avs))
  {
    if ps == [] {
      forall l | l in m
        ensures LocTy(P, rs + [r], l) == LocTy(P, rs, l)
      {
        LocTyPrefix(P, rs, r, l);
      }
    } else {
      BindValsTyped(P, rs, r, m, ps[1..], avs[1..]);
      assert ActualTyped(P, rs, ps[0], avs[0]);
      if avs[0].Val? {
        assert LocTy(P, rs + [r], Local(|rs| + 1, ps[0].name, 0)) == Some(ps[0].elem.ty);
      }
    }
  }

  lemma {:induction false} ParamDecl(ps: seq<Param>, i: nat)
    requires i < |ps| && forall i, j :: 0 <= i < j < |ps| ==> ps[i].name != ps[j].name
    ensures FindParam(ps, ps[i].name) == Some(ps[i])
  {
    if i > 0 {
      assert ps[1..][i - 1] == ps[i];
      ParamDecl(ps[1..], i - 1);
    }
  }

  lemma {:induction false} BindRefsTyped(P: Program, rs: seq<Routine>, ps: seq<Param>, avs: seq<Actual>, x: string)
    requires |ps| == |avs| && (forall i :: 0 <= i < |ps| ==> ActualTyped(P, rs, ps[i], avs[i]))
    requires FindParam(ps, x).Some? && FindParam(ps, x).value.isVar
    ensures x in BindRefs(ps, avs) && DestTyped(P, rs, BindRefs(ps, avs)[x], FindParam(ps, x).value.elem)
  {
    assert ActualTyped(P, rs, ps[0], avs[0]);
    if ps[0].name != x { BindRefsTyped(P, rs, ps[1..], avs[1..], x); }
  }

  lemma PopTyped(P: Program, rs: seq<Routine>, r: Routine, m: Store)
    requires StoreTyped(P, rs + [r], m)
    ensures StoreTyped(P, rs, Pop(m, |rs| + 1))
  {
  }

  ghost predicate SafeCall(P: Program, rs: seq<Routine>, r: Res<Option<Value>>, result: Option<Ty>) {
    && !r.TypeErr?
    && (r.Ok? ==> && StoreTyped(P, rs, r.st.store) && (r.val.Some? <==> result.Some?)
                  && (r.val.Some? ==> HasTy(r.val.value, result.value)))
  }

  lemma {:induction false} CallSafe(P: Program, rs: seq<Routine>, fuel: nat, env: Env, st: St, f: string, args: Exprs)
    requires Good(P, rs, env, st) && CheckCall(P, ScopeIn(env), f, args).Some?
    ensures SafeCall(P, rs, EvalCall(P, fuel, env, st, f, args), CheckCall(P, ScopeIn(env), f, args).value.result)
    decreases fuel, args, 2
  {
    hide EvalArgs, EvalS, Return, CheckArgs, CheckS, StoreTyped, EnvTyped, BindVals, BindRefs, DestTyped;
    var r := CheckCall(P, ScopeIn(env), f, args).value;
    assert CheckRoutine(P, r);
    ArgsSafe(P, rs, fuel, env, st, args, r.params);
    var r1 := EvalArgs(P, fuel, env, st, args, r.params);
    if r1.Ok? && fuel > 0 {
      EnterTyped(P, rs, env, r1.st, r, r1.val);
      var d := |rs| + 1;
      var env' := In(d, r, BindRefs(r.params, r1.val));
      var st' := r1.st.(store := BindVals(r1.st.store, d, r.params, r1.val));
      StmtSafe(P, rs + [r], fuel - 1, env', st', r.body);
      var r2 := EvalS(P, fuel - 1, env', st', r.body);
      if r2.Ok? { ReturnSafe(P, rs, r, r2.st); }
    }
  }

  lemma ReturnSafe(P: Program, rs: seq<Routine>, r: Routine, st: St)
    requires CheckProgram(P) && r in P.routines && StoreTyped(P, rs + [r], st.store)
    ensures SafeCall(P, rs, Return(st, |rs| + 1, r), r.result)
  {
    PopTyped(P, rs, r, st.store);
    assert CheckRoutine(P, r);
    var l := Local(|rs| + 1, r.name, 0);
    if r.result.Some? && l in st.store {
      assert LocTy(P, rs + [r], l) == Some(r.result.value);
    }
  }

  lemma EnterTyped(P: Program, rs: seq<Routine>, env: Env, st: St, r: Routine, avs: seq<Actual>)
    requires Good(P, rs, env, st) && r in P.routines && |avs| == |r.params|
    requires forall i :: 0 <= i < |r.params| ==> ActualTyped(P, rs, r.params[i], avs[i])
    ensures Depth(env) == |rs|
    ensures Good(P, rs + [r], In(|rs| + 1, r, BindRefs(r.params, avs)),
            st.(store := BindVals(st.store, |rs| + 1, r.params, avs)))
  {
    assert CheckRoutine(P, r);
    forall i | 0 <= i < |r.params|
      ensures FindDecl(r, r.params[i].name) == Some(Decl(r.params[i].isVar, One(r.params[i].elem)))
    {
      ParamDecl(r.params, i);
    }
    BindValsTyped(P, rs, r, st.store, r.params, avs);
    assert (rs + [r])[..|rs|] == rs;
    forall x
      ensures RefTyped(P, rs, r, BindRefs(r.params, avs), x)
    {
      var p := FindParam(r.params, x);
      if p.Some? && p.value.isVar { BindRefsTyped(P, rs, r.params, avs, x); }
    }
  }

  // ---- statements ----

  ghost predicate SafeS(P: Program, rs: seq<Routine>, r: Res<()>) {
    !r.TypeErr? && (r.Ok? ==> StoreTyped(P, rs, r.st.store))
  }

  lemma {:induction false} StmtSafe(P: Program, rs: seq<Routine>, fuel: nat, env: Env, st: St, s: Stmt)
    requires Good(P, rs, env, st) && CheckS(P, ScopeIn(env), s)
    ensures SafeS(P, rs, EvalS(P, fuel, env, st, s))
    decreases fuel, s, 1
  {
    match s
    case Skip =>
    case Seq(s1, s2) =>
      StmtSafe(P, rs, fuel, env, st, s1);
      var r := EvalS(P, fuel, env, st, s1);
      if r.Ok? { StmtSafe(P, rs, fuel, env, r.st, s2); }
    case Assign(p, e) => AssignSafe(P, rs, fuel, env, st, p, e);
    case CopyField(d, q) => CopySafe(P, rs, fuel, env, st, d, q);
    case If(c, t) =>
      ExprSafe(P, rs, fuel, env, st, c, TBool);
      var r := EvalE(P, fuel, env, st, c);
      if r.Ok? { StmtSafe(P, rs, fuel, env, r.st, t); }
    case IfElse(c, t, e) =>
      ExprSafe(P, rs, fuel, env, st, c, TBool);
      var r := EvalE(P, fuel, env, st, c);
      if r.Ok? {
        StmtSafe(P, rs, fuel, env, r.st, t);
        StmtSafe(P, rs, fuel, env, r.st, e);
      }
    case While(c, b) => WhileSafe(P, rs, fuel, env, st, c, b);
    case CallStmt(f, args) => CallSafe(P, rs, fuel, env, st, f, args);
    case WriteLit(_) =>
    case WriteVal(ty, e) => ExprSafe(P, rs, fuel, env, st, e, ty);
    case WriteLn =>
  }

  lemma {:induction false} AssignSafe(P: Program, rs: seq<Routine>, fuel: nat, env: Env, st: St, p: Place, e: Expr)
    requires Good(P, rs, env, st) && CheckS(P, ScopeIn(env), Assign(p, e))
    ensures SafeS(P, rs, EvalS(P, fuel, env, st, Assign(p, e)))
    decreases fuel, Assign(p, e), 0
  {
    var t := CheckP(P, ScopeIn(env), p).value;
    if p.Name? {
      ExprSafe(P, rs, fuel, env, st, e, t.ty);
      var r1 := EvalE(P, fuel, env, st, e);
      if r1.Ok? {
        PlaceSafe(P, rs, fuel, env, r1.st, p, t);
        var r2 := EvalP(P, fuel, env, r1.st, p);
        if r2.Ok? { DepositSafe(P, rs, r2.st, r2.val, r1.val, t.ty); }
      }
    } else {
      PlaceSafe(P, rs, fuel, env, st, p, t);
      var r1 := EvalP(P, fuel, env, st, p);
      if r1.Ok? {
        ExprSafe(P, rs, fuel, env, r1.st, e, t.ty);
        var r2 := EvalE(P, fuel, env, r1.st, e);
        if r2.Ok? { DepositSafe(P, rs, r2.st, r1.val, r2.val, t.ty); }
      }
    }
  }

  lemma {:induction false} CopySafe(P: Program, rs: seq<Routine>, fuel: nat, env: Env, st: St, d: Place, q: Place)
    requires Good(P, rs, env, st) && CheckS(P, ScopeIn(env), CopyField(d, q))
    ensures SafeS(P, rs, EvalS(P, fuel, env, st, CopyField(d, q)))
    decreases fuel, CopyField(d, q), 0
  {
    var t := CheckP(P, ScopeIn(env), d).value;
    PlaceSafe(P, rs, fuel, env, st, q, t);
    var r1 := EvalP(P, fuel, env, st, q);
    if r1.Ok? {
      FetchSafe(P, rs, r1.st, r1.val, t.ty);
      PlaceSafe(P, rs, fuel, env, r1.st, d, t);
      var v, r2 := Fetch(r1.st, r1.val), EvalP(P, fuel, env, r1.st, d);
      if v.Ok? && r2.Ok? { DepositSafe(P, rs, r2.st, r2.val, v.val, t.ty); }
    }
  }

  lemma {:induction false} WhileSafe(P: Program, rs: seq<Routine>, fuel: nat, env: Env, st: St, c: Expr, b: Stmt)
    requires Good(P, rs, env, st) && CheckS(P, ScopeIn(env), While(c, b))
    ensures SafeS(P, rs, EvalS(P, fuel, env, st, While(c, b)))
    decreases fuel, While(c, b), 0
  {
    ExprSafe(P, rs, fuel, env, st, c, TBool);
    var r := EvalE(P, fuel, env, st, c);
    if r.Ok? && r.val.b {
      StmtSafe(P, rs, fuel, env, r.st, b);
      var r2 := EvalS(P, fuel, env, r.st, b);
      if r2.Ok? && fuel > 0 { WhileSafe(P, rs, fuel - 1, env, r2.st, c, b); }
    }
  }

  // ---- whole programs ----

  lemma {:induction false} ZeroTyped(gs: seq<VarDecl>, l: Loc)
    requires l in ZeroStore(gs) && forall i, j :: 0 <= i < j < |gs| ==> gs[i].name != gs[j].name
    ensures l.Glob? && ShapeTy(FindVar(gs, l.x), l.i).Some?
    ensures HasTy(ZeroStore(gs)[l], ShapeTy(FindVar(gs, l.x), l.i).value)
  {
    if l !in ZeroCells(gs[0].name, gs[0].shape) {
      ZeroTyped(gs[1..], l);
      if gs[0].name == l.x { NotFound(gs[1..], l.x); }
    }
  }

  /** Type soundness: a checked program never meets a type error, whatever its fuel, and if it finishes
      every global cell holds a value of its declared type. */
  lemma CheckedIsSafe(P: Program, fuel: nat)
    requires CheckProgram(P)
    ensures !EvalProgram(P, fuel).TypeErr?
    ensures EvalProgram(P, fuel).Ok? ==> StoreTyped(P, [], EvalProgram(P, fuel).st.store)
  {
    var st := St(ZeroStore(P.globals), []);
    forall l | l in st.store
      ensures LocTy(P, [], l).Some? && HasTy(st.store[l], LocTy(P, [], l).value)
    {
      ZeroTyped(P.globals, l);
    }
    StmtSafe(P, [], fuel, Main, st, P.main);
  }
}
