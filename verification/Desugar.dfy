/** The parser rewrites `for` and `repeat` into assignments and `while`. Each rewriting is compared with
    the statement's own meaning: the `for` statement of section 6.8.3.9 of ISO 7185, whose bounds are
    evaluated once and whose body runs for each value in between, and body-then-test for `repeat`. */
module Desugar {
  import opened Int32
  import opened Syntax
  import opened Semantics
  import opened Fuel
  import opened Threats

  // ---- what the parser builds ----

  function Guard(v: string, lim: string, down: bool): Expr {
    Binop(if down then Ge else Le, Read(Name(v)), Read(Name(lim)))
  }

  function Step(v: string, down: bool): Stmt {
    Assign(Name(v), Binop(if down then Sub else Add, Read(Name(v)), IntLit(1)))
  }

  function Loop(v: string, lim: string, down: bool, body: Stmt): Stmt {
    While(Guard(v, lim, down), Seq(body, Step(v, down)))
  }

  /** `lim` is the hidden limit variable the parser invents. */
  function For(v: string, lim: string, e1: Expr, e2: Expr, down: bool, body: Stmt): Stmt {
    Seq(Assign(Name(v), e1), Seq(Assign(Name(lim), e2), Loop(v, lim, down, body)))
  }

  function Repeat(body: Stmt, until: Expr): Stmt {
    Seq(body, While(Unop(Not, until), body))
  }

  // ---- what the statements mean ----

  predicate Past(i: int, b: int, down: bool) { if down then i < b else i > b }

  function After(i: int, down: bool): int { if down then i - 1 else i + 1 }

  /** The variable that `x` names. */
  function CellOf(P: Program, env: Env, x: string): Loc {
    var t := Lookup(P, env, x);
    if t.Some? then t.value.base else Glob(x, 0)
  }

  /** The turns of a `for` statement from value `i` on: assign the control variable, run the body, stop
      at the final value. */
  function ForTurns(P: Program, fuel: nat, env: Env, st: St, v: string, i: int, b: int, down: bool, body: Stmt): Res<()>
    decreases fuel
  {
    if Past(i, b, down) then Ok((), st)
    else
      var (_, st1) :- EvalS(P, fuel, env, Patch(st, CellOf(P, env, v), VI(i)), body);
      if i == b then Ok((), st1)
      else if fuel == 0 then Timeout(st1.out)
      else ForTurns(P, fuel - 1, env, st1, v, After(i, down), b, down, body)
  }

  /** Both bounds are evaluated, once, before anything is assigned. */
  function ForMeaning(P: Program, fuel: nat, env: Env, st: St, v: string, e1: Expr, e2: Expr, down: bool,
    body: Stmt): Res<()> {
    var (a, st1) :- EvalE(P, fuel, env, st, e1);
    if !a.VI? then TypeErr
    else
      var (b, st2) :- EvalE(P, fuel, env, st1, e2);
      if !b.VI? then TypeErr else ForTurns(P, fuel, env, st2, v, a.i, b.i, down, body)
  }

  /** Body, then test, until the test holds. */
  function RepeatMeaning(P: Program, fuel: nat, env: Env, st: St, body: Stmt, until: Expr): Res<()>
    decreases fuel
  {
    var (_, st1) :- EvalS(P, fuel, env, st, body);
    var (v, st2) :- EvalE(P, fuel, env, st1, until);
    if !v.VB? then TypeErr
    else if v.b then Ok((), st2)
    else if fuel == 0 then Timeout(st2.out)
    else RepeatMeaning(P, fuel - 1, env, st2, body, until)
  }

  // ---- conditions ----

  /** `x` is an integer variable: the block's own, a global, a parameter of either kind. */
  predicate IntVar(P: Program, env: Env, x: string) {
    Lookup(P, env, x).Some? && Lookup(P, env, x).value.shape == One(Scalar(TInt))
  }

  /** `x` is an integer variable declared in the block itself, as the parser declares its limit variables. */
  predicate Declared(P: Program, env: Env, x: string) {
    match env
    case Main => FindVar(P.globals, x) == Some(One(Scalar(TInt)))
    case In(d, r, _) => d >= 1 && FindDecl(r, x) == Some(Decl(false, One(Scalar(TInt))))
  }

  /** `var` parameters denote cells of callers, as every call establishes. */
  predicate RefsBelow(env: Env) {
    env.In? ==> forall y :: y in env.refs && env.refs[y].Local? ==> env.refs[y].d < env.d
  }

  predicate CallFree(e: Expr)
    decreases e
  {
    match e
    case Read(p) => (p.At? || p.AtField?) ==> CallFree(p.idx)
    case Binop(_, l, r) => CallFree(l) && CallFree(r)
    case Unop(_, e1) => CallFree(e1)
    case Call(_, _) => false
    case _ => true
  }

  /** The final value does not depend on the control variable, under whatever name, directly or through a
      routine. */
  ghost predicate BoundApart(P: Program, env: Env, v: string, e2: Expr) {
    var l := CellOf(P, env, v);
    && (exists X :: Covered(P, env, l, X) && !MentionsE(e2, X))
    && (l.Glob? ==> CallFree(e2) || RoutinesIgnore(P, l.x))
  }

  /** Nothing in the body, nor a routine it can reach, assigns the control variable, under whatever name. */
  ghost predicate BodySpares(P: Program, env: Env, v: string, body: Stmt) {
    var l := CellOf(P, env, v);
    && (exists X :: Covered(P, env, l, X) && !Threatens(P, body, X))
    && (l.Glob? ==> RoutinesSpare(P, l.x))
  }

  /** The limit variable is the parser's own. */
  predicate Fresh(P: Program, env: Env, lim: string, body: Stmt) {
    !MentionsS(body, {lim}) && (env.Main? ==> RoutinesIgnore(P, lim))
  }

  ghost predicate ForOk(P: Program, env: Env, v: string, lim: string, e2: Expr, body: Stmt) {
    && IntVar(P, env, v) && Lives(env, CellOf(P, env, v)) && Declared(P, env, lim) && v != lim && RefsBelow(env)
    && BoundApart(P, env, v, e2) && BodySpares(P, env, v, body) && Fresh(P, env, lim, body)
  }

  /** The bounds are integers and the final value is not the last one in the loop's direction. */
  predicate InRange(a: int, b: int, down: bool) {
    if down then MIN < b && a <= MAX else MIN <= a && b < MAX
  }

  // ---- variables of the block ----

  /** A variable of the block itself is known by its own name only. */
  lemma OwnVar(P: Program, env: Env, x: string)
    requires Declared(P, env, x) && RefsBelow(env)
    ensures IntVar(P, env, x) && Lives(env, CellOf(P, env, x)) && Covered(P, env, CellOf(P, env, x), {x})
    ensures CellOf(P, env, x) == if env.Main? then Glob(x, 0) else Local(env.d, x, 0)
  {
  }

  /** A global control variable in a routine is known by its own name only, if no `var` parameter denotes it. */
  lemma GlobalVar(P: Program, env: Env, x: string)
    requires env.In? && env.d >= 1 && FindDecl(env.r, x).None? && FindVar(P.globals, x) == Some(One(Scalar(TInt)))
    requires forall y :: y in env.refs ==> !SameVar(env.refs[y], Glob(x, 0))
    ensures IntVar(P, env, x) && Lives(env, CellOf(P, env, x)) && Covered(P, env, CellOf(P, env, x), {x})
  {
  }

  /** A `var` parameter is known by its own name only, and if it denotes a global, by that one's name. */
  lemma ParamVar(P: Program, env: Env, x: string)
    requires env.In? && env.d >= 1 && FindDecl(env.r, x) == Some(Decl(true, One(Scalar(TInt)))) && x in env.refs
    requires env.refs[x].Local? ==> 1 <= env.refs[x].d < env.d
    requires forall y :: y in env.refs && y != x ==> !SameVar(env.refs[y], env.refs[x])
    ensures IntVar(P, env, x) && Lives(env, CellOf(P, env, x)) && CellOf(P, env, x) == env.refs[x]
    ensures Covered(P, env, env.refs[x], {x, env.refs[x].x})
    ensures (env.refs[x].Local? ==> Covered(P, env, env.refs[x], {x}))
  {
  }

  lemma ReadOwn(P: Program, fuel: nat, env: Env, st: St, x: string, i: int)
    requires IntVar(P, env, x) && CellOf(P, env, x) in st.store && st.store[CellOf(P, env, x)] == VI(i)
    ensures EvalE(P, fuel, env, st, Read(Name(x))) == Ok(VI(i), st)
  {
    hide Lookup;
  }

  lemma AssignOwn(P: Program, fuel: nat, env: Env, st: St, x: string, e: Expr)
    requires IntVar(P, env, x)
    ensures var r := EvalE(P, fuel, env, st, e);
            EvalS(P, fuel, env, st, Assign(Name(x), e)) ==
              if !r.Ok? then r.PropagateFailure<()>()
                else if r.val.VI? then Ok((), Patch(r.st, CellOf(P, env, x), r.val)) else TypeErr
  {
    hide Lookup, EvalE;
  }

  lemma PlaceBelow(P: Program, fuel: nat, env: Env, st: St, p: Place)
    requires RefsBelow(env) && EvalP(P, fuel, env, st, p).Ok? && EvalP(P, fuel, env, st, p).val.l.Local?
    ensures EvalP(P, fuel, env, st, p).val.l.d <= Depth(env)
  {
    hide EvalE;
  }

  lemma {:induction false} ArgsBelow(P: Program, fuel: nat, env: Env, st: St, args: Exprs, ps: seq<Param>)
    requires RefsBelow(env) && Length(args) == |ps| && EvalArgs(P, fuel, env, st, args, ps).Ok?
    ensures var refs := BindRefs(ps, EvalArgs(P, fuel, env, st, args, ps).val);
            forall y :: y in refs && refs[y].Local? ==> refs[y].d <= Depth(env)
    decreases args
  {
    hide EvalE, EvalP, RefsBelow;
    if args.Cons? {
      ArgsBelow(P, fuel, env, st, args.tl, ps[1..]);
      var rest := EvalArgs(P, fuel, env, st, args.tl, ps[1..]);
      var acts := EvalArgs(P, fuel, env, st, args, ps).val;
      assert acts[1..] == rest.val;
      assert BindRefs(ps, acts) == if acts[0].Ref? then BindRefs(ps[1..], rest.val)[ps[0].name := acts[0].l]
             else BindRefs(ps[1..], rest.val);
      if acts[0].Ref? && acts[0].l.Local? { PlaceBelow(P, fuel, env, rest.st, args.hd.p); }
    } else {
      assert ps == [];
    }
  }

  /** The main block and every routine entered by a call satisfy `RefsBelow`. */
  lemma CallsRefsBelow(P: Program, fuel: nat, env: Env, st: St, args: Exprs, r: Routine)
    requires RefsBelow(env) && Length(args) == |r.params| && EvalArgs(P, fuel, env, st, args, r.params).Ok?
    ensures RefsBelow(Main)
    ensures RefsBelow(In(Depth(env) + 1, r, BindRefs(r.params, EvalArgs(P, fuel, env, st, args, r.params).val)))
  {
    hide EvalArgs;
    ArgsBelow(P, fuel, env, st, args, r.params);
  }

  // ---- the final value's independence ----

  lemma {:induction false} CallFreeE(P: Program, Q: Program, fuel: nat, env: Env, st: St, e: Expr)
    requires CallFree(e) && P.globals == Q.globals
    ensures EvalE(P, fuel, env, st, e) == EvalE(Q, fuel, env, st, e)
    decreases e, 0
  {
    hide ApplyBin, ApplyUn, Fetch;
    match e
    case IntLit(_) =>
    case BoolLit(_) =>
    case CharLit(_) =>
    case Read(p) =>
      var t := Lookup(P, env, p.x);
      assert t == Lookup(Q, env, p.x);
      if (p.At? || p.AtField?) && t.Some? {
        CallFreeE(P, Q, fuel, env, st, p.idx);
        assert EvalElem(P, fuel, env, st, p.idx, t.value.base, t.value.shape)
            == EvalElem(Q, fuel, env, st, p.idx, t.value.base, t.value.shape);
      }
      assert EvalP(P, fuel, env, st, p) == EvalP(Q, fuel, env, st, p);
    case Binop(_, l, r) =>
      CallFreeE(P, Q, fuel, env, st, l);
      var a := EvalE(P, fuel, env, st, l);
      if a.Ok? { CallFreeE(P, Q, fuel, env, a.st, r); }
    case Unop(_, e1) => CallFreeE(P, Q, fuel, env, st, e1);
  }

  lemma BoundPatched(P: Program, fuel: nat, env: Env, st: St, v: string, e2: Expr, w: Value)
    requires Lives(env, CellOf(P, env, v)) && BoundApart(P, env, v, e2)
    ensures EvalE(P, fuel, env, Patch(st, CellOf(P, env, v), w), e2)
            == Patched(EvalE(P, fuel, env, st, e2), CellOf(P, env, v), w)
  {
    hide EvalE, Patch, MentionsE, CallFree, Lookup;
    var l := CellOf(P, env, v);
    var X :| Covered(P, env, l, X) && !MentionsE(e2, X);
    if l.Glob? && !RoutinesIgnore(P, l.x) {
      var Q := P.(routines := []);
      SameNames(P, Q, env);
      CallFreeE(P, Q, fuel, env, st, e2);
      CallFreeE(P, Q, fuel, env, Patch(st, l, w), e2);
      BlindE(Q, fuel, env, st, e2, l, X, w);
    } else {
      BlindE(P, fuel, env, st, e2, l, X, w);
    }
  }

  lemma SameNames(P: Program, Q: Program, env: Env)
    requires P.globals == Q.globals
    ensures forall y :: Lookup(P, env, y) == Lookup(Q, env, y)
  {
  }

  // ---- one turn ----

  /** The state of the rewritten loop: the reference state with both variables set. */
  function Head(P: Program, env: Env, st: St, v: string, i: int, lim: string, b: int): St {
    Patch(Patch(st, CellOf(P, env, v), VI(i)), CellOf(P, env, lim), VI(b))
  }

  lemma GuardIs(P: Program, fuel: nat, env: Env, st: St, v: string, lim: string, i: int, b: int, down: bool)
    requires IntVar(P, env, v) && IntVar(P, env, lim) && CellOf(P, env, v) != CellOf(P, env, lim)
    ensures EvalE(P, fuel, env, Head(P, env, st, v, i, lim, b), Guard(v, lim, down))
              == Ok(VB(!Past(i, b, down)), Head(P, env, st, v, i, lim, b))
  {
    var s := Head(P, env, st, v, i, lim, b);
    assert s.store[CellOf(P, env, v)] == VI(i) && s.store[CellOf(P, env, lim)] == VI(b);
    ReadOwn(P, fuel, env, s, v, i);
    ReadOwn(P, fuel, env, s, lim, b);
    hide IntVar, Head, CellOf, EvalP;
  }

  lemma StepIs(P: Program, fuel: nat, env: Env, st: St, v: string, i: int, down: bool)
    requires IntVar(P, env, v) && CellOf(P, env, v) in st.store && st.store[CellOf(P, env, v)] == VI(i)
    ensures EvalS(P, fuel, env, st, Step(v, down)) == Ok((), Patch(st, CellOf(P, env, v), VI(Wrap(After(i, down)))))
  {
    hide IntVar, CellOf, EvalP, Patch, Wrap;
    ReadOwn(P, fuel, env, st, v, i);
    assert Wrap(1) == 1;
    AssignOwn(P, fuel, env, st, v, Binop(if down then Sub else Add, Read(Name(v)), IntLit(1)));
  }

  /** The limit variable is not the control variable. */
  lemma CellsApart(P: Program, env: Env, v: string, lim: string)
    requires IntVar(P, env, v) && Declared(P, env, lim) && RefsBelow(env) && v != lim
    ensures CellOf(P, env, v) != CellOf(P, env, lim)
  {
    hide Lookup, Declared, RefsBelow;
    OwnVar(P, env, lim);
    assert Reaches(P, env, v, CellOf(P, env, lim)) ==> v in {lim};
  }

  /** The body, run with the limit variable set, followed by the step. */
  lemma BodyStep(P: Program, fuel: nat, env: Env, st: St, v: string, lim: string, e2: Expr, i: int, b: int, down: bool,
                 body: Stmt)
    requires ForOk(P, env, v, lim, e2, body)
    ensures var r := EvalS(P, fuel, env, Patch(st, CellOf(P, env, v), VI(i)), body);
            EvalS(P, fuel, env, Head(P, env, st, v, i, lim, b), Seq(body, Step(v, down))) ==
              if r.Ok? then Ok((), Head(P, env, r.st, v, Wrap(After(i, down)), lim, b)) else r
  {
    hide EvalS, Wrap, Step, Threatens, MentionsS, RoutinesIgnore, RoutinesSpare, BoundApart, Declared, RefsBelow;
    var lv, ll := CellOf(P, env, v), CellOf(P, env, lim);
    OwnVar(P, env, lim);
    CellsApart(P, env, v, lim);
    var s := Patch(st, lv, VI(i));
    var r := EvalS(P, fuel, env, s, body);
    BlindS(P, fuel, env, s, body, ll, {lim}, VI(b));
    var X :| Covered(P, env, lv, X) && !Threatens(P, body, X);
    SparesS(P, fuel, env, s, body, lv, X);
    SeqParts(P, fuel, env, Head(P, env, st, v, i, lim, b), body, Step(v, down));
    if r.Ok? {
      assert r.st.store[lv] == VI(i);
      StepIs(P, fuel, env, Patch(r.st, ll, VI(b)), v, i, down);
      assert r.st.store[ll := VI(b)][lv := VI(Wrap(After(i, down)))]
             == r.st.store[lv := VI(Wrap(After(i, down)))][ll := VI(b)];
    }
  }

  lemma SeqParts(P: Program, fuel: nat, env: Env, st: St, s1: Stmt, s2: Stmt)
    ensures var r := EvalS(P, fuel, env, st, s1);
            EvalS(P, fuel, env, st, Seq(s1, s2)) == if r.Ok? then EvalS(P, fuel, env, r.st, s2) else r
  {
  }

  lemma WhileParts(P: Program, fuel: nat, env: Env, st: St, c: Expr, s: Stmt, go: bool)
    requires EvalE(P, fuel, env, st, c) == Ok(VB(go), st)
    ensures var r := EvalS(P, fuel, env, st, s);
            EvalS(P, fuel, env, st, While(c, s)) ==
              if !go then Ok((), st) else if !r.Ok? then r
              else if fuel == 0 then Timeout(r.st.out) else EvalS(P, fuel - 1, env, r.st, While(c, s))
  {
  }

  /** A turn of the rewritten loop is a turn of the statement. */
  lemma Turn(P: Program, fuel: nat, env: Env, st: St, v: string, lim: string, e2: Expr, i: int, b: int, down: bool,
             body: Stmt)
    requires ForOk(P, env, v, lim, e2, body)
    ensures var r := EvalS(P, fuel, env, Patch(st, CellOf(P, env, v), VI(i)), body);
            EvalS(P, fuel, env, Head(P, env, st, v, i, lim, b), Loop(v, lim, down, body)) ==
              if Past(i, b, down) then Ok((), Head(P, env, st, v, i, lim, b))
              else if !r.Ok? then r
              else if fuel == 0 then Timeout(r.st.out)
              else EvalS(P, fuel - 1, env, Head(P, env, r.st, v, Wrap(After(i, down)), lim, b),
                Loop(v, lim, down, body))
  {
    hide EvalS, EvalE, Wrap, Step, Guard, Threatens, MentionsS, RoutinesIgnore, RoutinesSpare, BoundApart, Declared,
      RefsBelow;
    OwnVar(P, env, lim);
    CellsApart(P, env, v, lim);
    GuardIs(P, fuel, env, st, v, lim, i, b, down);
    BodyStep(P, fuel, env, st, v, lim, e2, i, b, down, body);
    WhileParts(P, fuel, env, Head(P, env, st, v, i, lim, b), Guard(v, lim, down), Seq(body, Step(v, down)),
      !Past(i, b, down));
  }

  // ---- for ----

  /** Two outcomes that differ at most in the control and the limit variable. */
  predicate SameBut2(r: Res<()>, r': Res<()>, l: Loc, k: Loc) {
    if r.Ok? && r'.Ok? then r.st.out == r'.st.out && r.st.store - {l, k} == r'.st.store - {l, k} else r == r'
  }

  lemma HeadSame(P: Program, env: Env, st: St, v: string, i: int, lim: string, b: int)
    ensures SameBut2(Ok((), st), Ok((), Head(P, env, st, v, i, lim, b)), CellOf(P, env, v), CellOf(P, env, lim))
  {
    var l, k := CellOf(P, env, v), CellOf(P, env, lim);
    assert st.store[l := VI(i)][k := VI(b)] - {l, k} == st.store - {l, k};
  }

  lemma {:induction false} TurnsDown(P: Program, fuel: nat, env: Env, st: St, v: string, lim: string, e2: Expr, i: int,
                                     b: int, down: bool, body: Stmt)
    requires ForOk(P, env, v, lim, e2, body) && InRange(i, b, down)
    requires !EvalS(P, fuel, env, Head(P, env, st, v, i, lim, b), Loop(v, lim, down, body)).Timeout?
    ensures SameBut2(ForTurns(P, fuel, env, st, v, i, b, down, body),
                     EvalS(P, fuel, env, Head(P, env, st, v, i, lim, b), Loop(v, lim, down, body)), CellOf(P, env, v),
                       CellOf(P, env, lim))
    decreases fuel
  {
    hide EvalS, Loop, ForOk, CellOf, SameBut2, Head, Patch;
    Turn(P, fuel, env, st, v, lim, e2, i, b, down, body);
    HeadSame(P, env, st, v, i, lim, b);
    if !Past(i, b, down) {
      var r := EvalS(P, fuel, env, Patch(st, CellOf(P, env, v), VI(i)), body);
      if r.Ok? {
        assert Wrap(After(i, down)) == After(i, down);
        if i == b {
          Turn(P, fuel - 1, env, r.st, v, lim, e2, After(i, down), b, down, body);
          HeadSame(P, env, r.st, v, After(i, down), lim, b);
        } else {
          TurnsDown(P, fuel - 1, env, r.st, v, lim, e2, After(i, down), b, down, body);
        }
      } else {
        SameSelf(r, CellOf(P, env, v), CellOf(P, env, lim));
      }
    }
  }

  lemma SameSelf(r: Res<()>, l: Loc, k: Loc)
    ensures SameBut2(r, r, l, k)
  {
  }

  lemma {:induction false} TurnsUp(P: Program, fuel: nat, env: Env, st: St, v: string, lim: string, e2: Expr, i: int,
                                   b: int, down: bool, body: Stmt)
    requires ForOk(P, env, v, lim, e2, body) && InRange(i, b, down)
    requires !ForTurns(P, fuel, env, st, v, i, b, down, body).Timeout?
    ensures SameBut2(ForTurns(P, fuel, env, st, v, i, b, down, body),
                     EvalS(P, fuel + 1, env, Head(P, env, st, v, i, lim, b), Loop(v, lim, down, body)),
                       CellOf(P, env, v), CellOf(P, env, lim))
    decreases fuel
  {
    hide EvalS, Loop, ForOk, CellOf, SameBut2, Head, Patch;
    Turn(P, fuel + 1, env, st, v, lim, e2, i, b, down, body);
    HeadSame(P, env, st, v, i, lim, b);
    if !Past(i, b, down) {
      var r := EvalS(P, fuel, env, Patch(st, CellOf(P, env, v), VI(i)), body);
      MoreS(P, fuel, env, Patch(st, CellOf(P, env, v), VI(i)), body);
      if r.Ok? {
        assert Wrap(After(i, down)) == After(i, down);
        if i == b {
          Turn(P, fuel, env, r.st, v, lim, e2, After(i, down), b, down, body);
          HeadSame(P, env, r.st, v, After(i, down), lim, b);
        } else {
          TurnsUp(P, fuel - 1, env, r.st, v, lim, e2, After(i, down), b, down, body);
        }
      } else {
        SameSelf(r, CellOf(P, env, v), CellOf(P, env, lim));
      }
    }
  }

  /** Up to the loop, the rewritten statement has evaluated both bounds, once each. */
  lemma ForEntry(P: Program, fuel: nat, env: Env, st: St, v: string, lim: string, e1: Expr, e2: Expr, down: bool,
                 body: Stmt)
    requires ForOk(P, env, v, lim, e2, body)
    ensures var a := EvalE(P, fuel, env, st, e1);
            var r := EvalS(P, fuel, env, st, For(v, lim, e1, e2, down, body));
            if !a.Ok? then r == a.PropagateFailure<()>() else if !a.val.VI? then r == TypeErr
            else
              var b := EvalE(P, fuel, env, a.st, e2);
              if !b.Ok? then r == b.PropagateFailure<()>() else if !b.val.VI? then r == TypeErr
              else r == EvalS(P, fuel, env, Head(P, env, b.st, v, a.val.i, lim, b.val.i), Loop(v, lim, down, body))
  {
    hide EvalS, EvalE, Loop, Declared, CellOf, RefsBelow, BoundApart, BodySpares, Fresh, Patch;
    OwnVar(P, env, lim);
    AssignOwn(P, fuel, env, st, v, e1);
    var rest := Seq(Assign(Name(lim), e2), Loop(v, lim, down, body));
    SeqParts(P, fuel, env, st, Assign(Name(v), e1), rest);
    var a := EvalE(P, fuel, env, st, e1);
    if a.Ok? && a.val.VI? {
      var s := Patch(a.st, CellOf(P, env, v), a.val);
      BoundPatched(P, fuel, env, a.st, v, e2, a.val);
      AssignOwn(P, fuel, env, s, lim, e2);
      SeqParts(P, fuel, env, s, Assign(Name(lim), e2), Loop(v, lim, down, body));
    }
  }

  /** The values of the two bounds, when both evaluate. */
  predicate BoundsInRange(P: Program, fuel: nat, env: Env, st: St, e1: Expr, e2: Expr, down: bool) {
    var a := EvalE(P, fuel, env, st, e1);
    a.Ok? && a.val.VI? ==>
      var b := EvalE(P, fuel, env, a.st, e2);
      b.Ok? && b.val.VI? ==> InRange(a.val.i, b.val.i, down)
  }

  /** The rewritten `for` is the `for` statement: whenever either comes to an end, both do, with the same
      outcome, output and store, the control and limit variables aside. */
  lemma ForPreserved(P: Program, fuel: nat, env: Env, st: St, v: string, lim: string, e1: Expr, e2: Expr, down: bool,
                     body: Stmt)
    requires ForOk(P, env, v, lim, e2, body)
    requires BoundsInRange(P, fuel, env, st, e1, e2, down)
    ensures var m, m1 := ForMeaning(P, fuel, env, st, v, e1, e2, down, body),
            EvalS(P, fuel + 1, env, st, For(v, lim, e1, e2, down, body));
            var r := EvalS(P, fuel, env, st, For(v, lim, e1, e2, down, body));
            && (!m.Timeout? ==> SameBut2(m, m1, CellOf(P, env, v), CellOf(P, env, lim)))
            && (!r.Timeout? ==> SameBut2(m, r, CellOf(P, env, v), CellOf(P, env, lim)))
  {
    hide EvalS, EvalE, Loop, CellOf, Head, ForOk, ForTurns, SameBut2, For;
    ForEntry(P, fuel, env, st, v, lim, e1, e2, down, body);
    ForEntry(P, fuel + 1, env, st, v, lim, e1, e2, down, body);
    var a := EvalE(P, fuel, env, st, e1);
    MoreE(P, fuel, env, st, e1);
    var m := ForMeaning(P, fuel, env, st, v, e1, e2, down, body);
    SameSelf(m, CellOf(P, env, v), CellOf(P, env, lim));
    if a.Ok? && a.val.VI? {
      var b := EvalE(P, fuel, env, a.st, e2);
      MoreE(P, fuel, env, a.st, e2);
      if b.Ok? && b.val.VI? {
        if !m.Timeout? { TurnsUp(P, fuel, env, b.st, v, lim, e2, a.val.i, b.val.i, down, body); }
        if !EvalS(P, fuel, env, st, For(v, lim, e1, e2, down, body)).Timeout? {
          TurnsDown(P, fuel, env, b.st, v, lim, e2, a.val.i, b.val.i, down, body);
        }
      }
    }
  }

  /** Where the `for` statement finishes, the rewritten one does, having put out the same, and every cell but those
      of the control and the limit variable is the same. */
  lemma ForSame(P: Program, fuel: nat, env: Env, st: St, v: string, lim: string, e1: Expr, e2: Expr, down: bool,
                body: Stmt)
    requires ForOk(P, env, v, lim, e2, body)
    requires BoundsInRange(P, fuel, env, st, e1, e2, down) && ForMeaning(P, fuel, env, st, v, e1, e2, down, body).Ok?
    ensures var m := ForMeaning(P, fuel, env, st, v, e1, e2, down, body);
            var r := EvalS(P, fuel + 1, env, st, For(v, lim, e1, e2, down, body));
            && r.Ok? && r.st.out == m.st.out
            && forall l :: l != CellOf(P, env, v) && l != CellOf(P, env, lim) ==>
                 (l in r.st.store <==> l in m.st.store) && (l in m.st.store ==> r.st.store[l] == m.st.store[l])
  {
    hide EvalS, CellOf, ForOk, ForMeaning, For, BoundsInRange;
    ForPreserved(P, fuel, env, st, v, lim, e1, e2, down, body);
    var m := ForMeaning(P, fuel, env, st, v, e1, e2, down, body);
    SameCells(m, EvalS(P, fuel + 1, env, st, For(v, lim, e1, e2, down, body)), CellOf(P, env, v), CellOf(P, env, lim));
  }

  lemma SameCells(m: Res<()>, r: Res<()>, a: Loc, b: Loc)
    requires m.Ok? && SameBut2(m, r, a, b)
    ensures r.Ok? && r.st.out == m.st.out
    ensures forall l :: l != a && l != b ==>
              (l in r.st.store <==> l in m.st.store) && (l in m.st.store ==> r.st.store[l] == m.st.store[l])
  {
    var x, y := r.st.store - {a, b}, m.st.store - {a, b};
    forall l | l != a && l != b
      ensures (l in r.st.store <==> l in m.st.store) && (l in m.st.store ==> r.st.store[l] == m.st.store[l])
    {
      assert l in x <==> l in r.st.store;
      assert l in y <==> l in m.st.store;
      if l in y { assert x[l] == y[l]; }
    }
  }

  // ---- where the rewriting differs ----

  /** When the final value is the largest (smallest) integer, the guard never fails: the rewritten loop
      ends in no finite time, whatever its body does, although the statement runs up to that value. */
  lemma {:induction false} ExtremeNeverEnds(P: Program, fuel: nat, env: Env, st: St, v: string, lim: string, e2: Expr,
                                            i: int, down: bool, body: Stmt)
    requires ForOk(P, env, v, lim, e2, body) && IsWord(i)
    ensures !EvalS(P, fuel, env, Head(P, env, st, v, i, lim, if down then MIN else MAX), Loop(v, lim, down, body)).Ok?
    decreases fuel
  {
    var b := if down then MIN else MAX;
    hide EvalS, Loop, ForOk, CellOf, Head, Patch, Wrap;
    Turn(P, fuel, env, st, v, lim, e2, i, b, down, body);
    var r := EvalS(P, fuel, env, Patch(st, CellOf(P, env, v), VI(i)), body);
    if r.Ok? && fuel > 0 { ExtremeNeverEnds(P, fuel - 1, env, r.st, v, lim, e2, Wrap(After(i, down)), down, body); }
  }

  ghost predicate Finishes(P: Program, env: Env, st: St, s: Stmt) {
    exists fuel: nat :: EvalS(P, fuel, env, st, s).Ok?
  }

  /** Exactly that value: where the `for` statement finishes, the rewritten one does if and only if the final
      value is not the last integer in the loop's direction. */
  lemma ForExact(P: Program, fuel: nat, env: Env, st: St, v: string, lim: string, e1: Expr, e2: Expr, down: bool,
                 body: Stmt, i: int, b: int)
    requires ForOk(P, env, v, lim, e2, body) && ForMeaning(P, fuel, env, st, v, e1, e2, down, body).Ok? && IsWord(i)
    requires IsWord(b)
    requires EvalE(P, fuel, env, st, e1).Ok? && EvalE(P, fuel, env, st, e1).val == VI(i)
    requires var st1 := EvalE(P, fuel, env, st, e1).st;
             EvalE(P, fuel, env, st1, e2).Ok? && EvalE(P, fuel, env, st1, e2).val == VI(b)
    ensures Finishes(P, env, st, For(v, lim, e1, e2, down, body)) <==> b != if down then MIN else MAX
  {
    hide EvalS, EvalE, Loop, CellOf, Head, ForOk, ForMeaning, For;
    var s := For(v, lim, e1, e2, down, body);
    if b == if down then MIN else MAX {
      if Finishes(P, env, st, s) {
        var f: nat :| EvalS(P, f, env, st, s).Ok?;
        var g := if f < fuel then fuel else f;
        AnyMoreS(P, f, g, env, st, s);
        AnyMoreE(P, fuel, g, env, st, e1);
        var st1 := EvalE(P, fuel, env, st, e1).st;
        AnyMoreE(P, fuel, g, env, st1, e2);
        ForEntry(P, g, env, st, v, lim, e1, e2, down, body);
        ExtremeNeverEnds(P, g, env, EvalE(P, g, env, st1, e2).st, v, lim, e2, i, down, body);
      }
    } else {
      ForPreserved(P, fuel, env, st, v, lim, e1, e2, down, body);
      assert EvalS(P, fuel + 1, env, st, s).Ok?;
    }
  }

  /** The last turn of the statement itself, at any final value. */
  lemma LastTurnEnds(P: Program, fuel: nat, env: Env, st: St, v: string, b: int, down: bool)
    ensures ForTurns(P, fuel, env, st, v, b, b, down, Skip) == Ok((), Patch(st, CellOf(P, env, v), VI(b)))
  {
  }

  /** The numbers from `i` up to `b`, or down to it. */
  function Counted(i: int, b: int, down: bool): seq<Event> {
    var n := if down then i - b + 1 else b - i + 1;
    seq(if n < 0 then 0 else n, k => EInt(if down then i - k else i + k))
  }

  /** `for v := i to b do write(v)` prints i, i+1 and so on to b; `downto` prints i, i-1 and so on to b. */
  lemma {:induction false} ForCounts(P: Program, fuel: nat, env: Env, st: St, v: string, i: int, b: int, down: bool)
    requires IntVar(P, env, v) && |Counted(i, b, down)| <= fuel
    ensures var r := ForTurns(P, fuel, env, st, v, i, b, down, WriteVal(TInt, Read(Name(v))));
            r.Ok? && r.st.out == st.out + Counted(i, b, down)
    decreases fuel
  {
    hide IntVar, CellOf, EvalE;
    var body, n := WriteVal(TInt, Read(Name(v))), |Counted(i, b, down)|;
    if n > 0 {
      var st1 := Patch(st, CellOf(P, env, v), VI(i));
      ReadOwn(P, fuel, env, st1, v, i);
      WriteIs(P, fuel, env, st1, Read(Name(v)), i);
      assert EvalS(P, fuel, env, st1, body) == Ok((), Tell(st1, EInt(i)));
      var next := if down then i - 1 else i + 1;
      assert Counted(i, b, down) == [EInt(i)] + Counted(next, b, down);
      if i == b {
        assert Counted(next, b, down) == [];
      } else {
        ForCounts(P, fuel - 1, env, Tell(st1, EInt(i)), v, next, b, down);
      }
    }
  }

  /** A final value that reads the control variable sees the initial value instead of the old one:
      `for v := 1 to v do write(v)` with v = 2 prints one number, not two. */
  lemma BoundReadsControl(P: Program, env: Env, st: St, v: string, lim: string)
    requires IntVar(P, env, v) && IntVar(P, env, lim) && CellOf(P, env, v) != CellOf(P, env, lim)
    requires CellOf(P, env, v) in st.store && st.store[CellOf(P, env, v)] == VI(2) && st.out == []
    ensures var body, e2 := WriteVal(TInt, Read(Name(v))), Read(Name(v));
            var m := ForMeaning(P, 2, env, st, v, IntLit(1), e2, false, body);
            var r := EvalS(P, 2, env, st, For(v, lim, IntLit(1), e2, false, body));
            m.Ok? && m.st.out == [EInt(1), EInt(2)] && r.Ok? && r.st.out == [EInt(1)]
  {
    var l, e2 := CellOf(P, env, v), Read(Name(v));
    var body := WriteVal(TInt, e2);
    hide EvalE, Lookup, Declared, RefsBelow, EvalP;
    assert EvalE(P, 2, env, st, IntLit(1)) == Ok(VI(1), st) by { LitIs(P, 2, env, st); }
    ReadOwn(P, 2, env, st, v, 2);
    var s1 := Patch(st, l, VI(1));
    ReadOwn(P, 2, env, s1, v, 1);
    var t1 := Tell(s1, EInt(1));
    var s2 := Patch(t1, l, VI(2));
    ReadOwn(P, 1, env, s2, v, 2);
    assert ForTurns(P, 1, env, t1, v, 2, 2, false, body) == Ok((), Tell(s2, EInt(2)));
    assert ForTurns(P, 2, env, st, v, 1, 2, false, body) == ForTurns(P, 1, env, t1, v, 2, 2, false, body);
    OneTurn(P, env, st, v, lim);
  }

  lemma LitIs(P: Program, fuel: nat, env: Env, st: St)
    ensures EvalE(P, fuel, env, st, IntLit(1)) == Ok(VI(1), st)
  {
  }

  lemma OneTurn(P: Program, env: Env, st: St, v: string, lim: string)
    requires IntVar(P, env, v) && IntVar(P, env, lim) && CellOf(P, env, v) != CellOf(P, env, lim) && st.out == []
    ensures var r := EvalS(P, 2, env, st, For(v, lim, IntLit(1), Read(Name(v)), false, WriteVal(TInt, Read(Name(v)))));
            r.Ok? && r.st.out == [EInt(1)]
  {
    var e2 := Read(Name(v));
    var body := WriteVal(TInt, e2);
    hide EvalE, EvalS, Lookup, Declared, RefsBelow, EvalP;
    LitIs(P, 2, env, st);
    AssignOwn(P, 2, env, st, v, IntLit(1));
    var s1 := Patch(st, CellOf(P, env, v), VI(1));
    ReadOwn(P, 2, env, s1, v, 1);
    AssignOwn(P, 2, env, s1, lim, e2);
    var s2 := Head(P, env, st, v, 1, lim, 1);
    SeqParts(P, 2, env, st, Assign(Name(v), IntLit(1)), Seq(Assign(Name(lim), e2), Loop(v, lim, false, body)));
    SeqParts(P, 2, env, s1, Assign(Name(lim), e2), Loop(v, lim, false, body));
    GuardIs(P, 2, env, st, v, lim, 1, 1, false);
    WhileParts(P, 2, env, s2, Guard(v, lim, false), Seq(body, Step(v, false)), true);
    ReadOwn(P, 2, env, s2, v, 1);
    WriteIs(P, 2, env, s2, e2, 1);
    var s3 := Tell(s2, EInt(1));
    SeqParts(P, 2, env, s2, body, Step(v, false));
    StepIs(P, 2, env, s3, v, 1, false);
    var s4 := Head(P, env, s3, v, 2, lim, 1);
    assert Patch(s3, CellOf(P, env, v), VI(2)).store == s4.store;
    GuardIs(P, 1, env, s3, v, lim, 2, 1, false);
    WhileParts(P, 1, env, s4, Guard(v, lim, false), Seq(body, Step(v, false)), false);
  }

  lemma WriteIs(P: Program, fuel: nat, env: Env, st: St, e: Expr, i: int)
    requires EvalE(P, fuel, env, st, e) == Ok(VI(i), st)
    ensures EvalS(P, fuel, env, st, WriteVal(TInt, e)) == Ok((), Tell(st, EInt(i)))
  {
  }

  // ---- repeat ----

  lemma NotIs(P: Program, fuel: nat, env: Env, st: St, e: Expr)
    ensures var r := EvalE(P, fuel, env, st, e);
            EvalE(P, fuel, env, st, Unop(Not, e)) ==
              if !r.Ok? then r else if r.val.VB? then Ok(VB(!r.val.b), r.st) else TypeErr
  {
  }

  /** The rewritten loop from its test on. */
  lemma Test(P: Program, fuel: nat, env: Env, st: St, body: Stmt, until: Expr)
    ensures var v := EvalE(P, fuel, env, st, until);
            EvalS(P, fuel, env, st, While(Unop(Not, until), body)) ==
              if !v.Ok? then v.PropagateFailure<()>() else if !v.val.VB? then TypeErr
              else if v.val.b then Ok((), v.st)
              else
                var r := EvalS(P, fuel, env, v.st, body);
                if !r.Ok? then r else if fuel == 0 then Timeout(r.st.out)
                else EvalS(P, fuel - 1, env, r.st, While(Unop(Not, until), body))
  {
    NotIs(P, fuel, env, st, until);
    hide EvalE;
  }

  lemma {:induction false} RepeatUp(P: Program, fuel: nat, env: Env, st: St, body: Stmt, until: Expr)
    requires !RepeatMeaning(P, fuel, env, st, body, until).Timeout?
    ensures EvalS(P, fuel, env, st, Repeat(body, until)) == RepeatMeaning(P, fuel, env, st, body, until)
    decreases fuel
  {
    hide EvalS, EvalE;
    var loop := While(Unop(Not, until), body);
    SeqParts(P, fuel, env, st, body, loop);
    var r := EvalS(P, fuel, env, st, body);
    if r.Ok? {
      Test(P, fuel, env, r.st, body, until);
      var v := EvalE(P, fuel, env, r.st, until);
      if v.Ok? && v.val.VB? && !v.val.b {
        RepeatUp(P, fuel - 1, env, v.st, body, until);
        SeqParts(P, fuel - 1, env, v.st, body, loop);
        MoreS(P, fuel - 1, env, v.st, body);
      }
    }
  }

  lemma {:induction false} RepeatDown(P: Program, fuel: nat, env: Env, st: St, body: Stmt, until: Expr)
    requires !EvalS(P, fuel, env, st, Repeat(body, until)).Timeout?
    ensures RepeatMeaning(P, fuel + 1, env, st, body, until) == EvalS(P, fuel, env, st, Repeat(body, until))
    decreases fuel
  {
    hide EvalS, EvalE;
    var loop := While(Unop(Not, until), body);
    SeqParts(P, fuel, env, st, body, loop);
    var r := EvalS(P, fuel, env, st, body);
    MoreS(P, fuel, env, st, body);
    if r.Ok? { RepeatTests(P, fuel, env, r.st, body, until); }
  }

  /** From the test on, the rewritten loop does what the remaining turns do. */
  lemma {:induction false} RepeatTests(P: Program, fuel: nat, env: Env, st: St, body: Stmt, until: Expr)
    requires !EvalS(P, fuel, env, st, While(Unop(Not, until), body)).Timeout?
    ensures var w := EvalS(P, fuel, env, st, While(Unop(Not, until), body));
            var v := EvalE(P, fuel + 1, env, st, until);
            w == if !v.Ok? then v.PropagateFailure<()>() else if !v.val.VB? then TypeErr
                 else if v.val.b then Ok((), v.st) else RepeatMeaning(P, fuel, env, v.st, body, until)
    decreases fuel
  {
    hide EvalS, EvalE;
    Test(P, fuel, env, st, body, until);
    MoreE(P, fuel, env, st, until);
    var v := EvalE(P, fuel, env, st, until);
    if v.Ok? && v.val.VB? && !v.val.b {
      var r := EvalS(P, fuel, env, v.st, body);
      if r.Ok? { RepeatTests(P, fuel - 1, env, r.st, body, until); }
    }
  }

  /** The rewritten `repeat` is body-then-test, for every body and every guard. */
  lemma RepeatPreserved(P: Program, fuel: nat, env: Env, st: St, body: Stmt, until: Expr)
    ensures var m, r := RepeatMeaning(P, fuel, env, st, body, until), EvalS(P, fuel, env, st, Repeat(body, until));
            && (!m.Timeout? ==> r == m)
            && (!r.Timeout? ==> RepeatMeaning(P, fuel + 1, env, st, body, until) == r)
  {
    hide EvalS, RepeatMeaning;
    if !RepeatMeaning(P, fuel, env, st, body, until).Timeout? { RepeatUp(P, fuel, env, st, body, until); }
    if !EvalS(P, fuel, env, st, Repeat(body, until)).Timeout? { RepeatDown(P, fuel, env, st, body, until); }
  }

  /** `repeat body until true` runs the body once, in either form. */
  lemma RepeatOnce(P: Program, fuel: nat, env: Env, st: St, body: Stmt)
    ensures RepeatMeaning(P, fuel, env, st, body, BoolLit(true)) == EvalS(P, fuel, env, st, body)
    ensures EvalS(P, fuel, env, st, Repeat(body, BoolLit(true))) == EvalS(P, fuel, env, st, body)
  {
    hide EvalS, EvalE;
    var r := EvalS(P, fuel, env, st, body);
    SeqParts(P, fuel, env, st, body, While(Unop(Not, BoolLit(true)), body));
    if r.Ok? {
      TrueIs(P, fuel, env, r.st);
      Test(P, fuel, env, r.st, body, BoolLit(true));
      assert r.val == ();
    }
  }

  lemma TrueIs(P: Program, fuel: nat, env: Env, st: St)
    ensures EvalE(P, fuel, env, st, BoolLit(true)) == Ok(VB(true), st)
  {
  }
}
