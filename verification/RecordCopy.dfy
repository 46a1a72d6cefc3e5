/** A whole-record assignment is emitted field by field, and the addresses of both sides, index
    expressions included, are computed again for every field. This says when that is the assignment a
    reader expects: both designators located once, then the fields copied. */
module RecordCopy {
  import opened Int32
  import opened Syntax
  import opened Semantics
  import opened Codegen
  import opened Typecheck
  import opened TypeSoundness

  /** The statement the generator unrolls, from field `k` on. */
  function CopyRecord(dst: Place, src: Place, k: nat, n: nat): Stmt
    decreases n - k
  {
    if k >= n then Skip else Seq(CopyField(FieldPlace(dst, k), FieldPlace(src, k)), CopyRecord(dst, src, k + 1, n))
  }

  function CopyCells(st: St, d: Dest, s: Dest, k: nat, n: nat): Res<()>
    decreases n - k
  {
    if k >= n then Ok((), st)
    else
      var (from, _) :- FieldOf(s, k, st);
      var (v, _) :- Fetch(st, from);
      var (to, _) :- FieldOf(d, k, st);
      var (_, st1) :- Deposit(st, to, v);
      CopyCells(st1, d, s, k + 1, n)
  }

  /** Record assignment with each designator evaluated once. */
  function CopyOnce(P: Program, fuel: nat, env: Env, st: St, dst: Place, src: Place, n: nat): Res<()> {
    var (s, st1) :- EvalP(P, fuel, env, st, src);
    var (d, st2) :- EvalP(P, fuel, env, st1, dst);
    CopyCells(st2, d, s, 0, n)
  }

  /** A scalar variable of the scope itself, not reached through a `var` parameter. */
  predicate OwnScalar(P: Program, sc: Scope, x: string) {
    && (sc.Some? && FindDecl(sc.value, x).Some? ==> !FindDecl(sc.value, x).value.isRef)
    && ShapeOf(P, sc, x).Some? && ShapeOf(P, sc, x).value.One? && ShapeOf(P, sc, x).value.elem.Scalar?
  }

  /** An index expression without calls that reads only such variables. */
  predicate Stable(P: Program, sc: Scope, e: Expr) {
    match e
    case Read(p) => p.Name? && OwnScalar(P, sc, p.x)
    case Binop(_, l, r) => Stable(P, sc, l) && Stable(P, sc, r)
    case Unop(_, e1) => Stable(P, sc, e1)
    case Call(_, _) => false
    case _ => true
  }

  predicate StablePlace(P: Program, sc: Scope, p: Place) {
    p.Name? || (p.At? && Stable(P, sc, p.idx))
  }

  /** The two states have the same output and the same scope scalars. */
  ghost predicate Agree(P: Program, env: Env, st: St, st': St) {
    && st.out == st'.out
    && forall x :: OwnScalar(P, ScopeIn(env), x) && Lookup(P, env, x).Some? ==>
        SameAt(st, st', Lookup(P, env, x).value.base)
  }

  predicate SameAt(st: St, st': St, l: Loc) {
    (l in st.store <==> l in st'.store) && (l in st.store ==> st.store[l] == st'.store[l])
  }

  /** The same outcome from another starting state. */
  function Rebased<T>(r: Res<T>, st: St): Res<T> {
    if r.Ok? then Ok(r.val, st) else r
  }

  lemma OpsRebased(op: BinOp, uop: UnOp, a: Value, b: Value, st: St, st': St)
    requires st.out == st'.out
    ensures ApplyBin(op, a, b, st') == Rebased(ApplyBin(op, a, b, st), st')
    ensures ApplyUn(uop, a, st') == Rebased(ApplyUn(uop, a, st), st')
    ensures ApplyBin(op, a, b, st).Ok? ==> ApplyBin(op, a, b, st).st == st
    ensures ApplyUn(uop, a, st).Ok? ==> ApplyUn(uop, a, st).st == st
  {
  }

  lemma ReadRebased(P: Program, fuel: nat, env: Env, st: St, st': St, x: string)
    requires OwnScalar(P, ScopeIn(env), x) && Agree(P, env, st, st')
    ensures EvalE(P, fuel, env, st', Read(Name(x))) == Rebased(EvalE(P, fuel, env, st, Read(Name(x))), st')
    ensures EvalE(P, fuel, env, st, Read(Name(x))).Ok? ==> EvalE(P, fuel, env, st, Read(Name(x))).st == st
  {
    hide OwnScalar, Lookup;
    if Lookup(P, env, x).Some? { assert SameAt(st, st', Lookup(P, env, x).value.base); }
  }

  lemma {:induction false} StableEval(P: Program, fuel: nat, env: Env, st: St, st': St, e: Expr)
    requires Stable(P, ScopeIn(env), e) && Agree(P, env, st, st')
    ensures EvalE(P, fuel, env, st', e) == Rebased(EvalE(P, fuel, env, st, e), st')
    ensures EvalE(P, fuel, env, st, e).Ok? ==> EvalE(P, fuel, env, st, e).st == st
  {
    hide ApplyBin, ApplyUn, OwnScalar, Lookup, SameAt, EvalP;
    match e
    case IntLit(_) =>
    case BoolLit(_) =>
    case CharLit(_) =>
    case Read(p) => ReadRebased(P, fuel, env, st, st', p.x);
    case Binop(op, l, r) =>
      StableEval(P, fuel, env, st, st', l);
      StableEval(P, fuel, env, st, st', r);
      var a, b := EvalE(P, fuel, env, st, l), EvalE(P, fuel, env, st, r);
      if a.Ok? && b.Ok? { OpsRebased(op, Neg, a.val, b.val, st, st'); }
    case Unop(op, e1) =>
      StableEval(P, fuel, env, st, st', e1);
      var a := EvalE(P, fuel, env, st, e1);
      if a.Ok? { OpsRebased(Add, op, a.val, a.val, st, st'); }
  }

  lemma StableElem(P: Program, fuel: nat, env: Env, st: St, st': St, idx: Expr, base: Loc, shape: Shape)
    requires Stable(P, ScopeIn(env), idx) && Agree(P, env, st, st')
    ensures EvalElem(P, fuel, env, st', idx, base, shape) == Rebased(EvalElem(P, fuel, env, st, idx, base, shape), st')
    ensures EvalElem(P, fuel, env, st, idx, base, shape).Ok? ==> EvalElem(P, fuel, env, st, idx, base, shape).st == st
  {
    hide EvalE, Agree;
    StableEval(P, fuel, env, st, st', idx);
  }

  /** A stable designator keeps denoting the same cells. */
  lemma StableEvalP(P: Program, fuel: nat, env: Env, st: St, st': St, p: Place)
    requires StablePlace(P, ScopeIn(env), p) && Agree(P, env, st, st')
    ensures EvalP(P, fuel, env, st', p) == Rebased(EvalP(P, fuel, env, st, p), st')
    ensures EvalP(P, fuel, env, st, p).Ok? ==> EvalP(P, fuel, env, st, p).st == st
  {
    hide EvalElem, Agree;
    var t := Lookup(P, env, p.x);
    if p.At? && t.Some? { StableElem(P, fuel, env, st, st', p.idx, t.value.base, t.value.shape); }
  }

  lemma FieldIs(P: Program, fuel: nat, env: Env, st: St, p: Place, k: nat)
    requires p.Name? || p.At?
    ensures var r := EvalP(P, fuel, env, st, p);
            EvalP(P, fuel, env, st, FieldPlace(p, k)) == if r.Ok? then FieldOf(r.val, k, r.st) else r
  {
    hide EvalElem;
  }

  // ---- copying fields leaves scalars alone ----

  lemma {:induction false} ScalarApart(P: Program, rs: seq<Routine>, env: Env, l: Loc, e: Elem, k: nat, x: string)
    requires EnvTyped(P, rs, env) && DestTyped(P, rs, l, e) && k < Words(e) && Words(e) >= 2
    requires OwnScalar(P, ScopeIn(env), x) && Lookup(P, env, x).Some?
    ensures Shift(l, k) != Lookup(P, env, x).value.base
  {
    var other := if k == 0 then 1 else 0;
    assert LocTy(P, rs, Shift(l, other)) == Some(ElemTy(e, other));
  }

  lemma DepositAgrees(P: Program, rs: seq<Routine>, env: Env, st0: St, st: St, d: Dest, k: nat, ty: Ty, v: Value)
    requires EnvTyped(P, rs, env) && DestTyped(P, rs, d.l, d.elem) && k < Words(d.elem) && Words(d.elem) >= 2
    requires Agree(P, env, st0, st) && Deposit(st, Dest(Shift(d.l, k), Scalar(ty)), v).Ok?
    ensures Agree(P, env, st0, Deposit(st, Dest(Shift(d.l, k), Scalar(ty)), v).st)
  {
    forall x | OwnScalar(P, ScopeIn(env), x) && Lookup(P, env, x).Some?
      ensures Shift(d.l, k) != Lookup(P, env, x).value.base
    {
      ScalarApart(P, rs, env, d.l, d.elem, k, x);
    }
  }

  /** One unrolled field copy, with the designators' values known. */
  lemma FieldStep(P: Program, fuel: nat, env: Env, st: St, dst: Place, src: Place, d: Dest, s: Dest, k: nat)
    requires (dst.Name? || dst.At?) && (src.Name? || src.At?)
    requires EvalP(P, fuel, env, st, src) == Ok(s, st) && EvalP(P, fuel, env, st, dst) == Ok(d, st)
    ensures var from := FieldOf(s, k, st);
            var r := EvalS(P, fuel, env, st, CopyField(FieldPlace(dst, k), FieldPlace(src, k)));
            if !from.Ok? then r == TypeErr
            else if !Fetch(st, from.val).Ok? then r == Fetch(st, from.val).PropagateFailure<()>()
            else if !FieldOf(d, k, st).Ok? then r == TypeErr
            else r == Deposit(st, FieldOf(d, k, st).val, Fetch(st, from.val).val)
  {
    FieldIs(P, fuel, env, st, src, k);
    FieldIs(P, fuel, env, st, dst, k);
    hide EvalP;
  }

  lemma {:induction false} CopyRest(P: Program, rs: seq<Routine>, fuel: nat, env: Env, st0: St, st: St, dst: Place,
                                    src: Place,
                                    d: Dest, s: Dest, k: nat, n: nat)
    requires EnvTyped(P, rs, env) && DestTyped(P, rs, d.l, d.elem) && n <= Words(d.elem)
    requires StablePlace(P, ScopeIn(env), dst) && StablePlace(P, ScopeIn(env), src)
    requires EvalP(P, fuel, env, st0, src) == Ok(s, st0) && EvalP(P, fuel, env, st0, dst) == Ok(d, st0)
    requires k <= n && (k < n ==> Agree(P, env, st0, st))
    ensures EvalS(P, fuel, env, st, CopyRecord(dst, src, k, n)) == CopyCells(st, d, s, k, n)
    decreases n - k
  {
    hide EvalP, Agree, DestTyped, EnvTyped, Lookup, StablePlace;
    if k < n {
      StableEvalP(P, fuel, env, st0, st, src);
      StableEvalP(P, fuel, env, st0, st, dst);
      assert (dst.Name? || dst.At?) && (src.Name? || src.At?) by { PlaceForm(P, env, dst); PlaceForm(P, env, src); }
      FieldStep(P, fuel, env, st, dst, src, d, s, k);
      var r := EvalS(P, fuel, env, st, CopyField(FieldPlace(dst, k), FieldPlace(src, k)));
      SeqIs(P, fuel, env, st, dst, src, k, n);
      if r.Ok? {
        var v := Fetch(st, FieldOf(s, k, st).val).val;
        if k + 1 < n { DepositAgrees(P, rs, env, st0, st, d, k, d.elem.fields[k], v); }
        CopyRest(P, rs, fuel, env, st0, r.st, dst, src, d, s, k + 1, n);
      }
    }
  }

  lemma PlaceForm(P: Program, env: Env, p: Place)
    requires StablePlace(P, ScopeIn(env), p)
    ensures p.Name? || p.At?
  {
  }

  lemma SeqIs(P: Program, fuel: nat, env: Env, st: St, dst: Place, src: Place, k: nat, n: nat)
    requires k < n
    ensures var r := EvalS(P, fuel, env, st, CopyField(FieldPlace(dst, k), FieldPlace(src, k)));
            EvalS(P, fuel, env, st, CopyRecord(dst, src, k, n)) ==
              if r.Ok? then EvalS(P, fuel, env, r.st, CopyRecord(dst, src, k + 1, n)) else r
  {
    var first := CopyField(FieldPlace(dst, k), FieldPlace(src, k));
    assert CopyRecord(dst, src, k, n) == Seq(first, CopyRecord(dst, src, k + 1, n));
  }

  /** The unrolled copy is the record assignment whenever both index expressions are stable. The one
      difference in failures: it may read an uninitialised source field before the target's index
      fails. (A record without fields is not copied at all.) */
  lemma {:induction false} CopyIsAssignment(P: Program, rs: seq<Routine>, fuel: nat, env: Env, st: St, dst: Place,
                                            src: Place, e: Elem)
    requires Good(P, rs, env, st) && e.Record?
    requires CheckP(P, ScopeIn(env), dst) == Some(e) && CheckP(P, ScopeIn(env), src) == Some(e)
    requires StablePlace(P, ScopeIn(env), dst) && StablePlace(P, ScopeIn(env), src)
    ensures var unrolled := EvalS(P, fuel, env, st, CopyRecord(dst, src, 0, |e.fields|));
            var once := CopyOnce(P, fuel, env, st, dst, src, |e.fields|);
            if e.fields == [] then unrolled == Ok((), st) else unrolled == once || (unrolled.Undef? && !once.Ok?)
  {
    hide EvalP, CheckP, Agree, StablePlace, CheckProgram;
    if e.fields == [] { return; }
    AgreeSelf(P, env, st);
    PlaceForm(P, env, dst);
    PlaceForm(P, env, src);
    PlaceSafe(P, rs, fuel, env, st, src, e);
    PlaceSafe(P, rs, fuel, env, st, dst, e);
    StableEvalP(P, fuel, env, st, st, src);
    StableEvalP(P, fuel, env, st, st, dst);
    FieldIs(P, fuel, env, st, src, 0);
    FieldIs(P, fuel, env, st, dst, 0);
    SeqIs(P, fuel, env, st, dst, src, 0, |e.fields|);
    var s, d := EvalP(P, fuel, env, st, src), EvalP(P, fuel, env, st, dst);
    if s.Ok? && d.Ok? {
      CopyRest(P, rs, fuel, env, st, st, dst, src, d.val, s.val, 0, |e.fields|);
    }
  }

  lemma AgreeSelf(P: Program, env: Env, st: St)
    ensures Agree(P, env, st, st)
  {
  }

  // ---- the counterexample ----

  /** `a: array[1..2] of pair; r: pair` and the statement `a[a[1].0] := r`. */
  function PairProgram(): Program {
    var pair := Record("pair", [TInt, TInt]);
    Program([VarDecl("a", Arr(1, 2, pair)), VarDecl("r", One(pair))], [], Skip)
  }

  const INDEX: Expr := Read(AtField("a", IntLit(1), 0))

  /** a[1] = (1, 0), a[2] = (0, 0), r = (2, 9) */
  const BEFORE: Store := map[Glob("a", 0) := VI(1), Glob("a", 1) := VI(0), Glob("a", 2) := VI(0), Glob("a", 3) := VI(0),
                             Glob("r", 0) := VI(2), Glob("r", 1) := VI(9)]

  lemma IndexIs(fuel: nat, store: Store, i: int)
    requires Glob("a", 0) in store && store[Glob("a", 0)] == VI(i) && 1 <= i <= 2
    ensures EvalP(PairProgram(), fuel, Main, St(store, []), At("a", INDEX))
              == Ok(Dest(Glob("a", 2 * i - 2), Record("pair", [TInt, TInt])), St(store, []))
    ensures EvalP(PairProgram(), fuel, Main, St(store, []), Name("r"))
              == Ok(Dest(Glob("r", 0), Record("pair", [TInt, TInt])), St(store, []))
  {
    var P, pair, st := PairProgram(), Record("pair", [TInt, TInt]), St(store, []);
    assert P.globals[0] == VarDecl("a", Arr(1, 2, pair)) && P.globals[1..] == [VarDecl("r", One(pair))];
    assert FindVar(P.globals, "a") == Some(Arr(1, 2, pair));
    assert FindVar(P.globals, "r") == FindVar(P.globals[1..], "r") == Some(One(pair));
    assert EvalElem(P, fuel, Main, st, IntLit(1), Glob("a", 0), Arr(1, 2, pair)) == Ok(Dest(Glob("a", 0), pair), st);
    assert EvalE(P, fuel, Main, st, INDEX) == Ok(VI(i), st);
    assert EvalElem(P, fuel, Main, st, INDEX, Glob("a", 0), Arr(1, 2, pair))
           == Ok(Dest(Glob("a", 2 * i - 2), pair), st);
  }

  /** An index that reads the target record moves between fields: the second field lands in `a[2]`,
      while the assignment would have put both in `a[1]`. */
  lemma CopyTears(fuel: nat)
    ensures var P, st := PairProgram(), St(BEFORE, []);
            var unrolled := EvalS(P, fuel, Main, st, CopyRecord(At("a", INDEX), Name("r"), 0, 2));
            var once := CopyOnce(P, fuel, Main, st, At("a", INDEX), Name("r"), 2);
            && unrolled == Ok((), St(BEFORE[Glob("a", 0) := VI(2)][Glob("a", 3) := VI(9)], []))
            && once == Ok((), St(BEFORE[Glob("a", 0) := VI(2)][Glob("a", 1) := VI(9)], []))
  {
    var P, st, pair := PairProgram(), St(BEFORE, []), Record("pair", [TInt, TInt]);
    var a, r := At("a", INDEX), Name("r");
    var st1 := St(BEFORE[Glob("a", 0) := VI(2)], []);
    hide EvalP, PairProgram, INDEX;
    IndexIs(fuel, st.store, 1);
    IndexIs(fuel, st1.store, 2);
    FieldStep(P, fuel, Main, st, a, r, Dest(Glob("a", 0), pair), Dest(Glob("r", 0), pair), 0);
    FieldStep(P, fuel, Main, st1, a, r, Dest(Glob("a", 2), pair), Dest(Glob("r", 0), pair), 1);
    SeqIs(P, fuel, Main, st, a, r, 0, 2);
    SeqIs(P, fuel, Main, st1, a, r, 1, 2);
    assert CopyCells(st1, Dest(Glob("a", 0), pair), Dest(Glob("r", 0), pair), 1, 2)
        == Ok((), St(BEFORE[Glob("a", 0) := VI(2)][Glob("a", 1) := VI(9)], []));
  }

  // ---- the whole family of that counterexample ----

  /** `a[a[j].f] := r`: the array's cells start at `base`, the record's at `from`. */
  datatype Self = Self(base: Loc, from: Loc, lo: int, hi: int, e: Elem, j: int, f: nat) {
    function N(): nat { if e.Record? then |e.fields| else 0 }

    function Cell(i: int, m: int): Loc { Shift(base, (i - lo) * N() + m) }

    function Index(a: string): Expr { Read(AtField(a, IntLit(j), f)) }

    /** Array and record are different variables of the block or the program. */
    predicate Fits(P: Program, env: Env, a: string, r: string) {
      && e.Record? && f < N() && e.fields[f] == TInt && lo <= j <= hi && IsWord(j)
      && Lookup(P, env, a) == Some(Target(base, Arr(lo, hi, e))) && Lookup(P, env, r) == Some(Target(from, One(e)))
      && base.(i := 0) != from.(i := 0)
    }

    /** The record is initialised. */
    predicate Filled(st: St) {
      forall m :: 0 <= m < N() ==> Shift(from, m) in st.store && HasTy(st.store[Shift(from, m)], e.fields[m])
    }
  }

  predicate Holds(st: St, l: Loc, v: Value) { l in st.store && st.store[l] == v }

  function Put(st: St, l: Loc, v: Value): St { st.(store := st.store[l := v]) }

  /** Fields `k..n` of the record put into element `i`. */
  function PutAll(c: Self, st: St, i: int, k: nat, n: nat): St
    requires c.e.Record? && n <= c.N() && c.Filled(st) && c.base.(i := 0) != c.from.(i := 0)
    decreases n - k
  {
    if k >= n then st else PutAll(c, Put(st, c.Cell(i, k), st.store[Shift(c.from, k)]), i, k + 1, n)
  }

  lemma RowsApart(n: nat, x: int, m: int, y: int, m': int)
    requires x < y && 0 <= m < n && 0 <= m' < n
    ensures x * n + m < y * n + m'
  {
    assert (y - x) * n == n + (y - x - 1) * n;
    assert y * n == x * n + (y - x) * n;
  }

  lemma CellApart(c: Self, i: int, m: int, i': int, m': int)
    requires 0 <= m < c.N() && 0 <= m' < c.N() && c.Cell(i, m) == c.Cell(i', m')
    ensures i == i' && m == m'
  {
    if i < i' { RowsApart(c.N(), i - c.lo, m, i' - c.lo, m'); }
    if i > i' { RowsApart(c.N(), i' - c.lo, m', i - c.lo, m); }
  }

  /** Where both designators stand while the index cell holds `i`. */
  lemma Locate(P: Program, fuel: nat, env: Env, st: St, a: string, r: string, c: Self, i: int)
    requires c.Fits(P, env, a, r) && Holds(st, c.Cell(c.j, c.f), VI(i))
    ensures EvalP(P, fuel, env, st, At(a, c.Index(a))) == if c.lo <= i <= c.hi then Ok(Dest(c.Cell(i, 0), c.e), st)
            else Undef
    ensures EvalP(P, fuel, env, st, Name(r)) == Ok(Dest(c.from, c.e), st)
  {
    hide Lookup;
    assert EvalE(P, fuel, env, st, IntLit(c.j)) == Ok(VI(c.j), st);
    assert EvalElem(P, fuel, env, st, IntLit(c.j), c.base, Arr(c.lo, c.hi, c.e)) == Ok(Dest(c.Cell(c.j, 0), c.e), st);
    assert EvalP(P, fuel, env, st, AtField(a, IntLit(c.j), c.f)) == Ok(Dest(c.Cell(c.j, c.f), Scalar(TInt)), st);
    assert EvalE(P, fuel, env, st, c.Index(a)) == Ok(VI(i), st);
  }

  /** One unrolled field copy, and the rest after it. */
  lemma OneField(P: Program, fuel: nat, env: Env, st: St, a: string, r: string, c: Self, i: int, k: nat)
    requires c.Fits(P, env, a, r) && c.Filled(st) && Holds(st, c.Cell(c.j, c.f), VI(i)) && k < c.N()
    ensures var dst, src := At(a, c.Index(a)), Name(r);
            EvalS(P, fuel, env, st, CopyRecord(dst, src, k, c.N())) ==
              if c.lo <= i <= c.hi then
                EvalS(P, fuel, env, Put(st, c.Cell(i, k), st.store[Shift(c.from, k)]),
                  CopyRecord(dst, src, k + 1, c.N()))
              else Undef
  {
    var dst, src := At(a, c.Index(a)), Name(r);
    Locate(P, fuel, env, st, a, r, c, i);
    SeqIs(P, fuel, env, st, dst, src, k, c.N());
    assert Shift(c.Cell(i, 0), k) == c.Cell(i, k);
    if c.lo <= i <= c.hi {
      FieldStep(P, fuel, env, st, dst, src, Dest(c.Cell(i, 0), c.e), Dest(c.from, c.e), k);
    } else {
      FieldIs(P, fuel, env, st, src, k);
      FieldIs(P, fuel, env, st, dst, k);
    }
  }

  lemma {:induction false} CellsArePut(c: Self, st: St, i: int, k: nat)
    requires c.e.Record? && c.Filled(st) && c.base.(i := 0) != c.from.(i := 0)
    ensures CopyCells(st, Dest(c.Cell(i, 0), c.e), Dest(c.from, c.e), k, c.N()) == Ok((), PutAll(c, st, i, k, c.N()))
    decreases c.N() - k
  {
    if k < c.N() {
      assert Shift(c.Cell(i, 0), k) == c.Cell(i, k);
      CellsArePut(c, Put(st, c.Cell(i, k), st.store[Shift(c.from, k)]), i, k + 1);
    }
  }

  /** What putting fields does to every cell. */
  lemma {:induction false} PutAt(c: Self, st: St, i: int, k: nat, n: nat, l: Loc)
    requires c.e.Record? && n <= c.N() && c.Filled(st) && c.base.(i := 0) != c.from.(i := 0)
    ensures var st' := PutAll(c, st, i, k, n);
            && c.Filled(st') && st'.out == st.out
            && (forall m :: k <= m < n && l == c.Cell(i, m) ==> Holds(st', l, st.store[Shift(c.from, m)]))
            && ((forall m :: k <= m < n ==> l != c.Cell(i, m)) ==> SameAt(st, st', l))
    decreases n - k
  {
    if k < n {
      var st1 := Put(st, c.Cell(i, k), st.store[Shift(c.from, k)]);
      PutAt(c, st1, i, k + 1, n, l);
      forall m | k <= m < n && l == c.Cell(i, m)
        ensures Holds(PutAll(c, st, i, k, n), l, st.store[Shift(c.from, m)])
      {
        if m == k {
          forall m' | k + 1 <= m' < n
            ensures l != c.Cell(i, m')
          {
            if l == c.Cell(i, m') { CellApart(c, i, k, i, m'); }
          }
        }
      }
    }
  }

  /** Once the index no longer changes, the rest is the assignment to one element. */
  lemma {:induction false} Steady(P: Program, fuel: nat, env: Env, st: St, a: string, r: string, c: Self, i: int,
    k: nat)
    requires c.Fits(P, env, a, r) && c.Filled(st) && Holds(st, c.Cell(c.j, c.f), VI(i)) && c.lo <= i <= c.hi
    requires k <= c.N()
    requires i != c.j || k > c.f || Holds(st, Shift(c.from, c.f), VI(i))
    ensures EvalS(P, fuel, env, st, CopyRecord(At(a, c.Index(a)), Name(r), k, c.N()))
            == Ok((), PutAll(c, st, i, k, c.N()))
    decreases c.N() - k
  {
    if k < c.N() {
      hide EvalS, Lookup;
      OneField(P, fuel, env, st, a, r, c, i, k);
      if c.Cell(i, k) == c.Cell(c.j, c.f) { CellApart(c, i, k, c.j, c.f); }
      Steady(P, fuel, env, Put(st, c.Cell(i, k), st.store[Shift(c.from, k)]), a, r, c, i, k + 1);
    }
  }

  /** With the index pointing at its own element, fields up to `f` still land there. */
  lemma {:induction false} UpToIndex(P: Program, fuel: nat, env: Env, st: St, a: string, r: string, c: Self, k: nat)
    requires c.Fits(P, env, a, r) && c.Filled(st) && Holds(st, c.Cell(c.j, c.f), VI(c.j)) && k <= c.f
    ensures var st1 := PutAll(c, st, c.j, k, c.f + 1);
            && c.Filled(st1) && Holds(st1, c.Cell(c.j, c.f), st.store[Shift(c.from, c.f)])
            && (forall m :: 0 <= m < c.N() ==> SameAt(st, st1, Shift(c.from, m)))
            && PutAll(c, st, c.j, k, c.N()) == PutAll(c, st1, c.j, c.f + 1, c.N())
            && EvalS(P, fuel, env, st, CopyRecord(At(a, c.Index(a)), Name(r), k, c.N()))
               == EvalS(P, fuel, env, st1, CopyRecord(At(a, c.Index(a)), Name(r), c.f + 1, c.N()))
    decreases c.f - k
  {
    hide EvalS, Lookup;
    OneField(P, fuel, env, st, a, r, c, c.j, k);
    var st1 := Put(st, c.Cell(c.j, k), st.store[Shift(c.from, k)]);
    if k < c.f {
      if c.Cell(c.j, k) == c.Cell(c.j, c.f) { CellApart(c, c.j, k, c.j, c.f); }
      UpToIndex(P, fuel, env, st1, a, r, c, k + 1);
    } else {
      assert PutAll(c, st, c.j, k, c.f + 1) == st1;
    }
  }

  /** The fields from `k` on stand in element `i` already. */
  ghost predicate There(c: Self, st: St, i: int, k: nat)
    requires c.e.Record? && c.Filled(st)
  {
    forall m :: k <= m < c.N() ==> Holds(st, c.Cell(i, m), st.store[Shift(c.from, m)])
  }

  lemma {:induction false} PutThere(c: Self, st: St, i: int, k: nat)
    requires c.e.Record? && c.Filled(st) && c.base.(i := 0) != c.from.(i := 0) && There(c, st, i, k)
    ensures PutAll(c, st, i, k, c.N()) == st
    decreases c.N() - k
  {
    if k < c.N() {
      assert Put(st, c.Cell(i, k), st.store[Shift(c.from, k)]).store == st.store;
      PutThere(c, st, i, k + 1);
    }
  }

  /** Two elements receive the same fields with the same effect only if both hold them already. */
  lemma PutBoth(c: Self, st: St, i: int, i': int, k: nat)
    requires c.e.Record? && c.Filled(st) && c.base.(i := 0) != c.from.(i := 0) && i != i'
    ensures PutAll(c, st, i, k, c.N()) == PutAll(c, st, i', k, c.N()) <==> There(c, st, i, k) && There(c, st, i', k)
  {
    if PutAll(c, st, i, k, c.N()) == PutAll(c, st, i', k, c.N()) {
      PutOne(c, st, i, i', k);
      PutOne(c, st, i', i, k);
    }
    if There(c, st, i, k) && There(c, st, i', k) {
      PutThere(c, st, i, k);
      PutThere(c, st, i', k);
    }
  }

  lemma PutOne(c: Self, st: St, i: int, i': int, k: nat)
    requires c.e.Record? && c.Filled(st) && c.base.(i := 0) != c.from.(i := 0) && i != i'
    requires PutAll(c, st, i, k, c.N()) == PutAll(c, st, i', k, c.N())
    ensures There(c, st, i', k)
  {
    hide PutAll;
    forall m | k <= m < c.N()
      ensures Holds(st, c.Cell(i', m), st.store[Shift(c.from, m)])
    {
      var l := c.Cell(i', m);
      forall m' | k <= m' < c.N()
        ensures l != c.Cell(i, m')
      {
        if l == c.Cell(i, m') { CellApart(c, i', m, i, m'); }
      }
      PutAt(c, st, i, k, c.N(), l);
      PutAt(c, st, i', k, c.N(), l);
    }
  }

  /** `a[a[j].f] := r` is the assignment exactly if the index designates another element than `j`, or the new
      index is the old one, or the fields after the index stand already in both elements concerned. */
  ghost predicate Harmless(c: Self, st: St, i: int)
    requires c.e.Record? && c.f < c.N() && c.e.fields[c.f] == TInt && c.Filled(st)
  {
    var next := st.store[Shift(c.from, c.f)];
    || i != c.j || next == VI(c.j) || c.f + 1 == c.N()
    || (c.lo <= next.i <= c.hi && There(c, st, c.j, c.f + 1) && There(c, st, next.i, c.f + 1))
  }

  lemma SelfIndexExact(P: Program, fuel: nat, env: Env, st: St, a: string, r: string, c: Self, i: int)
    requires c.Fits(P, env, a, r) && c.Filled(st) && Holds(st, c.Cell(c.j, c.f), VI(i)) && c.lo <= i <= c.hi
    ensures EvalS(P, fuel, env, st, CopyRecord(At(a, c.Index(a)), Name(r), 0, c.N()))
            == CopyOnce(P, fuel, env, st, At(a, c.Index(a)), Name(r), c.N())
            <==> Harmless(c, st, i)
  {
    hide EvalS, EvalP, Lookup;
    Locate(P, fuel, env, st, a, r, c, i);
    CellsArePut(c, st, i, 0);
    var next := st.store[Shift(c.from, c.f)];
    if i != c.j || next == VI(c.j) {
      Steady(P, fuel, env, st, a, r, c, i, 0);
    } else {
      Torn(P, fuel, env, st, a, r, c, next.i);
    }
  }

  lemma Torn(P: Program, fuel: nat, env: Env, st: St, a: string, r: string, c: Self, next: int)
    requires c.Fits(P, env, a, r) && c.Filled(st) && Holds(st, c.Cell(c.j, c.f), VI(c.j))
    requires Holds(st, Shift(c.from, c.f), VI(next)) && next != c.j
    ensures EvalS(P, fuel, env, st, CopyRecord(At(a, c.Index(a)), Name(r), 0, c.N()))
            == Ok((), PutAll(c, st, c.j, 0, c.N()))
            <==> Harmless(c, st, c.j)
  {
    hide EvalS, EvalP, Lookup, PutAll, There;
    UpToIndex(P, fuel, env, st, a, r, c, 0);
    var st1, k := PutAll(c, st, c.j, 0, c.f + 1), c.f + 1;
    if k == c.N() {
      Done(P, fuel, env, st1, a, r, c);
    } else if c.lo <= next <= c.hi {
      Steady(P, fuel, env, st1, a, r, c, next, k);
      PutBoth(c, st1, c.j, next, k);
      SameThere(c, st, st1, c.j);
      SameThere(c, st, st1, next);
    } else {
      OneField(P, fuel, env, st1, a, r, c, next, k);
    }
  }

  lemma Done(P: Program, fuel: nat, env: Env, st: St, a: string, r: string, c: Self)
    requires c.Fits(P, env, a, r) && c.Filled(st)
    ensures EvalS(P, fuel, env, st, CopyRecord(At(a, c.Index(a)), Name(r), c.N(), c.N()))
            == Ok((), PutAll(c, st, c.j, c.N(), c.N()))
  {
  }

  lemma SameThere(c: Self, st: St, st1: St, i: int)
    requires c.e.Record? && c.Filled(st) && c.base.(i := 0) != c.from.(i := 0) && c.f < c.N()
    requires st1 == PutAll(c, st, c.j, 0, c.f + 1) && c.Filled(st1)
    requires forall m :: 0 <= m < c.N() ==> SameAt(st, st1, Shift(c.from, m))
    ensures There(c, st1, i, c.f + 1) <==> There(c, st, i, c.f + 1)
  {
    forall m | c.f + 1 <= m < c.N()
      ensures SameAt(st, st1, c.Cell(i, m)) && SameAt(st, st1, Shift(c.from, m))
    {
      forall m' | 0 <= m' < c.f + 1
        ensures c.Cell(i, m) != c.Cell(c.j, m')
      {
        if c.Cell(i, m) == c.Cell(c.j, m') { CellApart(c, i, m, c.j, m'); }
      }
      PutAt(c, st, c.j, 0, c.f + 1, c.Cell(i, m));
    }
  }

  // ---- an index that calls ----

  /** `function f: integer; begin g := g + 1; f := g end` */
  predicate Counts(F: Routine, g: string) {
    && F.params == [] && F.result == Some(TInt) && F.locals == [] && g != F.name
    && F.body == Seq(Assign(Name(g), Binop(Add, Read(Name(g)), IntLit(1))), Assign(Name(F.name), Read(Name(g))))
  }

  /** The counter, an array of `hi` records and a record, in a program that has the function. */
  predicate Calling(P: Program, F: Routine, g: string, a: string, r: string, hi: int, e: Elem) {
    && Counts(F, g) && FindRoutine(P.routines, F.name) == Some(F) && e.Record? && g != a && g != r && a != r
    && FindVar(P.globals, g) == Some(One(Scalar(TInt)))
    && FindVar(P.globals, a) == Some(Arr(1, hi, e)) && FindVar(P.globals, r) == Some(One(e))
  }

  /** Only globals live, the counter is at `i`, the record is initialised. */
  predicate CountAt(st: St, g: string, r: string, e: Elem, i: int)
    requires e.Record?
  {
    && (forall l :: l in st.store ==> l.Glob?) && Holds(st, Glob(g, 0), VI(i))
    && forall m :: 0 <= m < |e.fields| ==> Glob(r, m) in st.store && HasTy(st.store[Glob(r, m)], e.fields[m])
  }

  lemma {:induction false} CountBody(P: Program, fuel: nat, F: Routine, g: string, st: St, i: int)
    requires Counts(F, g) && FindVar(P.globals, g) == Some(One(Scalar(TInt))) && Holds(st, Glob(g, 0), VI(i))
    requires 0 <= i < MAX
    ensures EvalS(P, fuel, In(1, F, map[]), st, F.body)
         == Ok((), Put(Put(st, Glob(g, 0), VI(i + 1)), Local(1, F.name, 0), VI(i + 1)))
  {
    var env := In(1, F, map[]);
    assert Lookup(P, env, g) == Some(Target(Glob(g, 0), One(Scalar(TInt))));
    assert Lookup(P, env, F.name) == Some(Target(Local(1, F.name, 0), One(Scalar(TInt))));
    hide Lookup;
    var st1 := Put(st, Glob(g, 0), VI(i + 1));
    assert EvalE(P, fuel, env, st, Read(Name(g))) == Ok(VI(i), st);
    assert EvalE(P, fuel, env, st, IntLit(1)) == Ok(VI(1), st);
    assert EvalE(P, fuel, env, st, Binop(Add, Read(Name(g)), IntLit(1))) == Ok(VI(i + 1), st);
    assert EvalS(P, fuel, env, st, F.body.s1) == Ok((), st1);
    assert EvalE(P, fuel, env, st1, Read(Name(g))) == Ok(VI(i + 1), st1);
    assert EvalS(P, fuel, env, st1, F.body.s2) == Ok((), Put(st1, Local(1, F.name, 0), VI(i + 1)));
  }

  /** A call counts one up and returns the count. */
  lemma {:induction false} CountMeans(P: Program, fuel: nat, F: Routine, g: string, st: St, i: int)
    requires Counts(F, g) && FindRoutine(P.routines, F.name) == Some(F)
    requires FindVar(P.globals, g) == Some(One(Scalar(TInt)))
    requires fuel > 0 && (forall l :: l in st.store ==> l.Glob?) && Holds(st, Glob(g, 0), VI(i)) && 0 <= i < MAX
    ensures EvalE(P, fuel, Main, st, Call(F.name, Nil)) == Ok(VI(i + 1), Put(st, Glob(g, 0), VI(i + 1)))
  {
    hide EvalS, EvalCall;
    CallIs(P, fuel, Main, st, F.name, Nil, F);
    assert EvalArgs(P, fuel, Main, st, Nil, []) == Ok([], st);
    assert Entered(st, 1, F, []) == st && BindRefs([], []) == map[];
    CountBody(P, fuel - 1, F, g, st, i);
    var st1 := Put(st, Glob(g, 0), VI(i + 1));
    assert Pop(Put(st1, Local(1, F.name, 0), VI(i + 1)).store, 1) == st1.store;
  }

  lemma {:induction false} CountedElem(P: Program, fuel: nat, F: Routine, g: string, a: string, r: string, hi: int,
                                       e: Elem, st: St, i: int)
    requires e.Record? && Calling(P, F, g, a, r, hi, e) && CountAt(st, g, r, e, i) && 0 <= i < hi <= MAX && fuel > 0
    ensures EvalP(P, fuel, Main, st, At(a, Call(F.name, Nil)))
         == Ok(Dest(Glob(a, i * Words(e)), e), Put(st, Glob(g, 0), VI(i + 1)))
    ensures EvalP(P, fuel, Main, st, Name(r)) == Ok(Dest(Glob(r, 0), e), st)
  {
    hide EvalE, Words;
    CountMeans(P, fuel, F, g, st, i);
  }

  /** Field `k` goes to element `i + 1`, and the counter moves. */
  lemma {:induction false} CountedField(P: Program, fuel: nat, F: Routine, g: string, a: string, r: string, hi: int,
                                        e: Elem, st: St, i: int, k: nat)
    requires e.Record? && Calling(P, F, g, a, r, hi, e) && CountAt(st, g, r, e, i) && 0 <= i < hi <= MAX && fuel > 0
    requires k < |e.fields|
    ensures var st' := Put(Put(st, Glob(g, 0), VI(i + 1)), Glob(a, i * Words(e) + k), st.store[Glob(r, k)]);
            && EvalS(P, fuel, Main, st, CopyField(FieldPlace(At(a, Call(F.name, Nil)), k), Field(r, k))) == Ok((), st')
            && CountAt(st', g, r, e, i + 1)
  {
    hide EvalE, EvalP, Words, Calling;
    assert g != a && a != r && g != r by { Apart3(P, F, g, a, r, hi, e); }
    CountedElem(P, fuel, F, g, a, r, hi, e, st, i);
    FieldIs(P, fuel, Main, st, Name(r), k);
    FieldIs(P, fuel, Main, st, At(a, Call(F.name, Nil)), k);
    var st1 := Put(st, Glob(g, 0), VI(i + 1));
    assert EvalP(P, fuel, Main, st, Field(r, k)) == Ok(Dest(Glob(r, k), Scalar(e.fields[k])), st);
    assert EvalP(P, fuel, Main, st, AtField(a, Call(F.name, Nil), k))
           == Ok(Dest(Glob(a, i * Words(e) + k), Scalar(e.fields[k])), st1);
    assert forall m :: 0 <= m < |e.fields| ==> Glob(r, m) != Glob(a, i * Words(e) + k) && Glob(r, m) != Glob(g, 0);
  }

  lemma Apart3(P: Program, F: Routine, g: string, a: string, r: string, hi: int, e: Elem)
    requires Calling(P, F, g, a, r, hi, e)
    ensures g != a && a != r && g != r
  {
  }

  /** The unrolled copy calls the function once for every field. */
  lemma {:induction false} CopyCounts(P: Program, fuel: nat, F: Routine, g: string, a: string, r: string, hi: int,
                                      e: Elem, st: St, i: int, k: nat)
    requires e.Record? && Calling(P, F, g, a, r, hi, e) && CountAt(st, g, r, e, i) && 0 <= i && fuel > 0
    requires k <= |e.fields| && i + |e.fields| - k <= hi <= MAX
    ensures var res := EvalS(P, fuel, Main, st, CopyRecord(At(a, Call(F.name, Nil)), Name(r), k, |e.fields|));
            res.Ok? && Holds(res.st, Glob(g, 0), VI(i + |e.fields| - k))
    decreases |e.fields| - k
  {
    hide EvalP, EvalE, Calling, Words;
    if k < |e.fields| {
      CountedField(P, fuel, F, g, a, r, hi, e, st, i, k);
      SeqIs(P, fuel, Main, st, At(a, Call(F.name, Nil)), Name(r), k, |e.fields|);
      hide EvalS;
      CopyCounts(P, fuel, F, g, a, r, hi, e,
                 Put(Put(st, Glob(g, 0), VI(i + 1)), Glob(a, i * Words(e) + k), st.store[Glob(r, k)]), i + 1, k + 1);
    }
  }

  lemma {:induction false} CellsSpare(st: St, d: Dest, s: Dest, k: nat, n: nat, l: Loc, v: Value)
    requires Holds(st, l, v) && forall m :: Shift(d.l, m) != l
    ensures var r := CopyCells(st, d, s, k, n); r.Ok? ==> Holds(r.st, l, v)
    decreases n - k
  {
    hide HasTy;
    if k < n && FieldOf(s, k, st).Ok? && Fetch(st, FieldOf(s, k, st).val).Ok? && FieldOf(d, k, st).Ok? {
      var r := Deposit(st, FieldOf(d, k, st).val, Fetch(st, FieldOf(s, k, st).val).val);
      if r.Ok? { CellsSpare(r.st, d, s, k + 1, n, l, v); }
    }
  }

  /** `a[f()] := r`, for every record type: the copy is the assignment exactly if there is one field. */
  lemma CallIndexExact(P: Program, fuel: nat, F: Routine, g: string, a: string, r: string, hi: int, e: Elem, st: St,
                       i: int)
    requires e.Record? && Calling(P, F, g, a, r, hi, e) && CountAt(st, g, r, e, i) && 0 <= i && fuel > 0
    requires 1 <= |e.fields| && i + |e.fields| <= hi <= MAX
    ensures EvalS(P, fuel, Main, st, CopyRecord(At(a, Call(F.name, Nil)), Name(r), 0, |e.fields|))
            == CopyOnce(P, fuel, Main, st, At(a, Call(F.name, Nil)), Name(r), |e.fields|)
            <==> |e.fields| == 1
  {
    hide EvalS, EvalP, Words, Calling;
    var dst, src, n := At(a, Call(F.name, Nil)), Name(r), |e.fields|;
    assert g != a && a != r && g != r by { Apart3(P, F, g, a, r, hi, e); }
    CountedElem(P, fuel, F, g, a, r, hi, e, st, i);
    CountedField(P, fuel, F, g, a, r, hi, e, st, i, 0);
    CopyCounts(P, fuel, F, g, a, r, hi, e, st, i, 0);
    var st1, d, s := Put(st, Glob(g, 0), VI(i + 1)), Dest(Glob(a, i * Words(e)), e), Dest(Glob(r, 0), e);
    CellsSpare(st1, d, s, 0, n, Glob(g, 0), VI(i + 1));
    if n == 1 {
      SeqIs(P, fuel, Main, st, dst, src, 0, 1);
      CopiedNothing(P, fuel, dst, src, Put(st1, Glob(a, i * Words(e)), st.store[Glob(r, 0)]));
      assert CopyCells(st1, d, s, 0, 1) == Ok((), Put(st1, Glob(a, i * Words(e)), st.store[Glob(r, 0)]));
    }
  }

  lemma CopiedNothing(P: Program, fuel: nat, dst: Place, src: Place, st: St)
    ensures EvalS(P, fuel, Main, st, CopyRecord(dst, src, 1, 1)) == Ok((), st)
  {
  }
}
