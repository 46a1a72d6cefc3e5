/** What programs mean, without reference to any machine: a big-step evaluator over a store of named
    cells. Integers wrap at 32 bits, `div` and `mod` truncate toward zero, `and`/`or` evaluate both
    sides, arguments are evaluated right to left, an indexed or field target is located before the
    assigned value is computed, and `var` parameters denote the caller's cell.

    `fuel` bounds loop iterations and call depth only; running out of it is the outcome `Timeout`,
    so a diverging program times out for every fuel. */
module Semantics {
  import opened Int32
  import opened Syntax

  datatype Value = VI(i: int) | VB(b: bool) | VC(c: int)

  /** A storage cell: cell `i` of a global, or of variable `x` in the activation at call depth `d`. */
  datatype Loc = Glob(x: string, i: int) | Local(d: nat, x: string, i: int)

  datatype Event = EInt(i: int) | EByte(c: int) | EText(bytes: seq<int>)

  type Store = map<Loc, Value>

  datatype St = St(store: Store, out: seq<Event>)

  /** Outcomes: a value and a state; the divide error, with the output produced before it; fuel
      exhaustion, with the output so far; a read of an uninitialised cell or an index outside its
      bounds, on which the language promises nothing; an operation the type rules exclude. */
  datatype Res<+T> = Ok(val: T, st: St) | Fault(out: seq<Event>) | Timeout(out: seq<Event>) | Undef | TypeErr {
    predicate IsFailure() { !Ok? }

    function PropagateFailure<U>(): Res<U>
      requires !Ok?
    {
      match this
      case Fault(o) => Fault(o)
      case Timeout(o) => Timeout(o)
      case Undef => Undef
      case TypeErr => TypeErr
    }

    function Extract(): (T, St)
      requires Ok?
    {
      (val, st)
    }
  }

  /** The main block, or an activation of `r` at depth `d` whose `var` parameters denote `refs`. */
  datatype Env = Main | In(d: nat, r: Routine, refs: map<string, Loc>)

  function Depth(env: Env): nat { if env.Main? then 0 else env.d }

  /** What a name denotes: its first cell and its shape. */
  datatype Target = Target(base: Loc, shape: Shape)

  function Shift(l: Loc, k: int): Loc {
    match l
    case Glob(x, i) => Glob(x, i + k)
    case Local(d, x, i) => Local(d, x, i + k)
  }

  /** A routine's own names hide globals. */
  function Lookup(P: Program, env: Env, x: string): Option<Target> {
    var own := if env.In? then FindDecl(env.r, x) else None;
    if own.Some? then
      if own.value.isRef then
        if x in env.refs then Some(Target(env.refs[x], own.value.shape)) else None
      else Some(Target(Local(env.d, x, 0), own.value.shape))
    else
      var g := FindVar(P.globals, x);
      if g.Some? then Some(Target(Glob(x, 0), g.value)) else None
  }

  /** What a designator denotes: its first cell and what it holds. */
  datatype Dest = Dest(l: Loc, elem: Elem)

  predicate HasTy(v: Value, ty: Ty) {
    match ty
    case TInt => v.VI?
    case TBool => v.VB?
    case TChar => v.VC?
  }

  function Fetch(st: St, d: Dest): Res<Value> {
    if !d.elem.Scalar? then TypeErr else if d.l in st.store then Ok(st.store[d.l], st) else Undef
  }

  function Deposit(st: St, d: Dest, v: Value): Res<()> {
    if d.elem.Scalar? && HasTy(v, d.elem.ty) then Ok((), st.(store := st.store[d.l := v])) else TypeErr
  }

  function Tell(st: St, e: Event): St { st.(out := st.out + [e]) }

  function ApplyBin(op: BinOp, a: Value, b: Value, st: St): Res<Value> {
    match (op, a, b)
    case (Add, VI(x), VI(y)) => Ok(VI(Wrap(x + y)), st)
    case (Sub, VI(x), VI(y)) => Ok(VI(Wrap(x - y)), st)
    case (Mul, VI(x), VI(y)) => Ok(VI(Wrap(x * y)), st)
    case (Div, VI(x), VI(y)) =>
      if y == 0 || (x == MIN && y == -1) then Fault(st.out) else Ok(VI(TruncDiv(x, y)), st)
    case (Mod, VI(x), VI(y)) =>
      if y == 0 || (x == MIN && y == -1) then Fault(st.out) else Ok(VI(TruncMod(x, y)), st)
    case (AndB, VB(x), VB(y)) => Ok(VB(x && y), st)
    case (OrB, VB(x), VB(y)) => Ok(VB(x || y), st)
    case (_, VI(x), VI(y)) => if IsRel(op) then Ok(VB(Compare(op, x, y)), st) else TypeErr
    case (_, VC(x), VC(y)) => if IsRel(op) then Ok(VB(Compare(op, x, y)), st) else TypeErr
    case (_, VB(x), VB(y)) =>
      if IsRel(op) then Ok(VB(Compare(op, if x then 1 else 0, if y then 1 else 0)), st) else TypeErr
    case _ => TypeErr
  }

  predicate IsRel(op: BinOp) { op in {Eq, Ne, Lt, Le, Gt, Ge} }

  predicate Compare(op: BinOp, x: int, y: int) {
    match op
    case Eq => x == y
    case Ne => x != y
    case Lt => x < y
    case Le => x <= y
    case Gt => x > y
    case Ge => x >= y
    case _ => false
  }

  function ApplyUn(op: UnOp, v: Value, st: St): Res<Value> {
    match (op, v)
    case (Neg, VI(x)) => Ok(VI(Wrap(-x)), st)
    case (Not, VB(x)) => Ok(VB(!x), st)
    case (Ord, VI(x)) => Ok(VI(x), st)
    case (Ord, VB(x)) => Ok(VI(if x then 1 else 0), st)
    case (Ord, VC(x)) => Ok(VI(x), st)
    case (Chr, VI(x)) => Ok(VC(Unsigned(x) % 256), st)
    case _ => TypeErr
  }

  /** An actual parameter: a copied value or the cell a `var` parameter will denote. */
  datatype Actual = Val(v: Value) | Ref(l: Loc)

  function BindVals(m: Store, d: nat, ps: seq<Param>, acts: seq<Actual>): Store
    requires |ps| == |acts|
  {
    if ps == [] then m
    else
      var rest := BindVals(m, d, ps[1..], acts[1..]);
      if acts[0].Val? then rest[Local(d, ps[0].name, 0) := acts[0].v] else rest
  }

  function BindRefs(ps: seq<Param>, acts: seq<Actual>): map<string, Loc>
    requires |ps| == |acts|
  {
    if ps == [] then map[]
    else
      var rest := BindRefs(ps[1..], acts[1..]);
      if acts[0].Ref? then rest[ps[0].name := acts[0].l] else rest
  }

  /** Returning discards the cells of the finished activation. */
  function Pop(m: Store, d: nat): Store {
    map l | l in m && !(l.Local? && l.d >= d) :: m[l]
  }

  function EvalE(P: Program, fuel: nat, env: Env, st: St, e: Expr): Res<Value>
    decreases fuel, e, 0
  {
    match e
    case IntLit(n) => Ok(VI(Wrap(n)), st)
    case BoolLit(b) => Ok(VB(b), st)
    case CharLit(c) => Ok(VC(c % 256), st)
    case Read(p) =>
      var (d, st1) :- EvalP(P, fuel, env, st, p);
      Fetch(st1, d)
    case Binop(op, l, r) =>
      var (v1, st1) :- EvalE(P, fuel, env, st, l);
      var (v2, st2) :- EvalE(P, fuel, env, st1, r);
      ApplyBin(op, v1, v2, st2)
    case Unop(op, e1) =>
      var (v, st1) :- EvalE(P, fuel, env, st, e1);
      ApplyUn(op, v, st1)
    case Call(f, args) =>
      var (v, st1) :- EvalCall(P, fuel, env, st, f, args);
      if v.Some? then Ok(v.value, st1) else TypeErr
  }

  /** What a designator names, evaluating its index if it has one. */
  function EvalP(P: Program, fuel: nat, env: Env, st: St, p: Place): Res<Dest>
    decreases fuel, p, 0
  {
    var t := Lookup(P, env, p.x);
    if t.None? then TypeErr
    else
      var Target(base, shape) := t.value;
      match p
      case Name(_) => if shape.One? then Ok(Dest(base, shape.elem), st) else TypeErr
      case Field(_, k) => if shape.One? then FieldOf(Dest(base, shape.elem), k, st) else TypeErr
      case At(_, idx) => EvalElem(P, fuel, env, st, idx, base, shape)
      case AtField(_, idx, k) =>
        var (d, st1) :- EvalElem(P, fuel, env, st, idx, base, shape);
        FieldOf(d, k, st1)
  }

  function FieldOf(d: Dest, k: nat, st: St): Res<Dest> {
    if d.elem.Record? && k < |d.elem.fields| then Ok(Dest(Shift(d.l, k), Scalar(d.elem.fields[k])), st) else TypeErr
  }

  /** An array element: the index must be an integer within the bounds. */
  function EvalElem(P: Program, fuel: nat, env: Env, st: St, idx: Expr, base: Loc, shape: Shape): Res<Dest>
    decreases fuel, idx, 1
  {
    if !shape.Arr? then TypeErr
    else
      var (v, st1) :- EvalE(P, fuel, env, st, idx);
      if !v.VI? then TypeErr
      else if shape.lo <= v.i <= shape.hi then
        Ok(Dest(Shift(base, (v.i - shape.lo) * Words(shape.elem)), shape.elem), st1)
      else Undef
  }

  function EvalArgs(P: Program, fuel: nat, env: Env, st: St, args: Exprs, ps: seq<Param>): (res: Res<seq<Actual>>)
    requires Length(args) == |ps|
    ensures res.Ok? ==> |res.val| == |ps|
    decreases fuel, args, 0
  {
    match args
    case Nil => Ok([], st)
    case Cons(e, rest) =>
      var (acts, st1) :- EvalArgs(P, fuel, env, st, rest, ps[1..]);
      if ps[0].isVar then
        if !e.Read? then TypeErr
        else
          var (d, st2) :- EvalP(P, fuel, env, st1, e.p);
          if d.elem == ps[0].elem then Ok([Ref(d.l)] + acts, st2) else TypeErr
      else
        var (v, st2) :- EvalE(P, fuel, env, st1, e);
        if ps[0].elem.Scalar? && HasTy(v, ps[0].elem.ty) then Ok([Val(v)] + acts, st2) else TypeErr
  }

  /** A call yields the function's result cell, or nothing for a procedure. */
  function EvalCall(P: Program, fuel: nat, env: Env, st: St, f: string, args: Exprs): Res<Option<Value>>
    decreases fuel, args, 1
  {
    var ro := FindRoutine(P.routines, f);
    if ro.None? || Length(args) != |ro.value.params| then TypeErr
    else
      var r := ro.value;
      var (acts, st1) :- EvalArgs(P, fuel, env, st, args, r.params);
      if fuel == 0 then Timeout(st1.out)
      else
        var d := Depth(env) + 1;
        var env' := In(d, r, BindRefs(r.params, acts));
        var st2 := st1.(store := BindVals(st1.store, d, r.params, acts));
        var (_, st3) :- EvalS(P, fuel - 1, env', st2, r.body);
        Return(st3, d, r)
  }

  function Return(st: St, d: nat, r: Routine): Res<Option<Value>> {
    var st' := st.(store := Pop(st.store, d));
    if r.result.None? then Ok(None, st')
    else if Local(d, r.name, 0) in st.store then Ok(Some(st.store[Local(d, r.name, 0)]), st')
    else Undef
  }

  /** The state a body starts in. */
  function Entered(st: St, d: nat, r: Routine, acts: seq<Actual>): St
    requires |acts| == |r.params|
  {
    st.(store := BindVals(st.store, d, r.params, acts))
  }

  /** A call after its arguments are evaluated. */
  lemma CallIs(P: Program, fuel: nat, env: Env, st: St, f: string, args: Exprs, r: Routine)
    requires FindRoutine(P.routines, f) == Some(r) && Length(args) == |r.params|
    ensures var a := EvalArgs(P, fuel, env, st, args, r.params);
            var d := Depth(env) + 1;
            && (!a.Ok? ==> EvalCall(P, fuel, env, st, f, args) == a.PropagateFailure<Option<Value>>())
            && (a.Ok? && fuel == 0 ==> EvalCall(P, fuel, env, st, f, args) == Timeout(a.st.out))
            && (a.Ok? && fuel > 0 ==>
                  var b := EvalS(P, fuel - 1, In(d, r, BindRefs(r.params, a.val)), Entered(a.st, d, r, a.val), r.body);
                  EvalCall(P, fuel, env, st, f, args) == if b.Ok? then Return(b.st, d, r)
                    else b.PropagateFailure<Option<Value>>())
  {
    hide EvalArgs, EvalS, Return, BindRefs, BindVals;
  }

  const TRUE_TEXT: seq<int> := [84, 82, 85, 69]
  const FALSE_TEXT: seq<int> := [70, 65, 76, 83, 69]

  function Show(ty: Ty, v: Value, st: St): Res<()> {
    match (ty, v)
    case (TInt, VI(i)) => Ok((), Tell(st, EInt(i)))
    case (TBool, VB(b)) => Ok((), Tell(st, EText(if b then TRUE_TEXT else FALSE_TEXT)))
    case (TChar, VC(c)) => Ok((), Tell(st, EByte(c)))
    case _ => TypeErr
  }

  function EvalS(P: Program, fuel: nat, env: Env, st: St, s: Stmt): Res<()>
    decreases fuel, s, 0
  {
    match s
    case Skip => Ok((), st)
    case Seq(s1, s2) =>
      var (_, st1) :- EvalS(P, fuel, env, st, s1);
      EvalS(P, fuel, env, st1, s2)
    case Assign(p, e) =>
      if p.Name? then
        var (v, st1) :- EvalE(P, fuel, env, st, e);
        var (d, st2) :- EvalP(P, fuel, env, st1, p);
        Deposit(st2, d, v)
      else
        var (d, st1) :- EvalP(P, fuel, env, st, p);
        var (v, st2) :- EvalE(P, fuel, env, st1, e);
        Deposit(st2, d, v)
    case CopyField(dst, src) =>
      var (d, st1) :- EvalP(P, fuel, env, st, src);
      var (v, st2) :- Fetch(st1, d);
      var (d', st3) :- EvalP(P, fuel, env, st2, dst);
      Deposit(st3, d', v)
    case If(c, t) =>
      var (v, st1) :- EvalE(P, fuel, env, st, c);
      if !v.VB? then TypeErr else if v.b then EvalS(P, fuel, env, st1, t) else Ok((), st1)
    case IfElse(c, t, e) =>
      var (v, st1) :- EvalE(P, fuel, env, st, c);
      if !v.VB? then TypeErr else if v.b then EvalS(P, fuel, env, st1, t) else EvalS(P, fuel, env, st1, e)
    case While(c, body) =>
      var (v, st1) :- EvalE(P, fuel, env, st, c);
      if !v.VB? then TypeErr
      else if !v.b then Ok((), st1)
      else
        var (_, st2) :- EvalS(P, fuel, env, st1, body);
        if fuel == 0 then Timeout(st2.out) else EvalS(P, fuel - 1, env, st2, s)
    case CallStmt(f, args) =>
      var (_, st1) :- EvalCall(P, fuel, env, st, f, args);
      Ok((), st1)
    case WriteLit(text) => Ok((), Tell(st, EText(text)))
    case WriteVal(ty, e) =>
      var (v, st1) :- EvalE(P, fuel, env, st, e);
      Show(ty, v, st1)
    case WriteLn => Ok((), Tell(st, EByte(10)))
  }

  /** A program starts with every global cell zero, like `.bss`. */
  function ZeroOf(ty: Ty): Value {
    match ty
    case TInt => VI(0)
    case TBool => VB(false)
    case TChar => VC(0)
  }

  function CellTy(s: Shape, i: int): Ty {
    match s.elem
    case Scalar(ty) => ty
    case Record(_, fs) => if |fs| == 0 || i < 0 then TInt else fs[i % |fs|]
  }

  function ZeroCells(x: string, s: Shape): (m: Store) {
    map i | 0 <= i < Cells(s) :: Glob(x, i) := ZeroOf(CellTy(s, i))
  }

  function ZeroStore(gs: seq<VarDecl>): Store {
    if gs == [] then map[] else ZeroStore(gs[1..]) + ZeroCells(gs[0].name, gs[0].shape)
  }

  function EvalProgram(P: Program, fuel: nat): Res<()> {
    EvalS(P, fuel, Main, St(ZeroStore(P.globals), []), P.main)
  }
}
