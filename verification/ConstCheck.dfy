/** What the checker's verdict means for constants. It runs on the parsed program, with the constants among
    its symbols but not as lvalues. Acceptance gives folding everything it needs; and an accepted program
    that uses a constant before its declaration ends up reading storage that does not exist. */
module ConstCheck {
  import opened Syntax
  import opened Semantics
  import opened Machine
  import opened Codegen
  import opened Layout
  import opened Typecheck
  import opened Folding
  import opened ConstTable
  import opened Emission

  /** The program as the checker sees it: parsed, with a symbol for every variable and every constant. */
  function Viewed(items: seq<Item>, main: Stmt): Program {
    Parsed(items, main).(globals := Vars(items) + ConstVars(items))
  }

  function Constants(items: seq<Item>): Consts { After(items, map[]) }

  // ---- the source is as fair as what was parsed from it ----

  /** The same routines, up to their bodies. */
  ghost predicate SameHeads(Q: Program, U: Program) {
    forall f :: SameHead(FindRoutine(Q.routines, f), FindRoutine(U.routines, f))
  }

  predicate SameHead(a: Option<Routine>, b: Option<Routine>) {
    (a.Some? <==> b.Some?) && (a.Some? ==> a.value.params == b.value.params)
  }

  lemma {:induction false} FairSourceE(Q: Program, U: Program, sc: Scope, N: Consts, e: Expr)
    requires SameHeads(Q, U) && Lits(N) && CheckE(Q, sc, FoldE(N, e)).Some? && FairE(Q, N.Keys, FoldE(N, e))
    ensures FairE(U, N.Keys, e)
    decreases e, 0
  {
    match e
    case IntLit(_) =>
    case BoolLit(_) =>
    case CharLit(_) =>
    case Read(p) => if !p.Name? { FairSourceP(Q, U, sc, N, p); }
    case Binop(_, l, r) =>
      FairSourceE(Q, U, sc, N, l);
      FairSourceE(Q, U, sc, N, r);
    case Unop(_, e1) => FairSourceE(Q, U, sc, N, e1);
    case Call(f, args) => FairSourceC(Q, U, sc, N, f, args);
  }

  lemma {:induction false} FairSourceP(Q: Program, U: Program, sc: Scope, N: Consts, p: Place)
    requires SameHeads(Q, U) && Lits(N) && CheckP(Q, sc, FoldP(N, p)).Some? && FairP(Q, N.Keys, FoldP(N, p))
    ensures FairP(U, N.Keys, p)
    decreases p, 0
  {
    if p.At? || p.AtField? { FairSourceE(Q, U, sc, N, p.idx); }
  }

  lemma {:induction false} FairSourceC(Q: Program, U: Program, sc: Scope, N: Consts, f: string, args: Exprs)
    requires SameHeads(Q, U) && Lits(N) && CheckCall(Q, sc, f, FoldA(N, args)).Some?
    requires FairC(Q, N.Keys, f, FoldA(N, args))
    ensures FairC(U, N.Keys, f, args)
    decreases args, 1
  {
    assert SameHead(FindRoutine(Q.routines, f), FindRoutine(U.routines, f));
    FairSourceA(Q, U, sc, N, args, FindRoutine(Q.routines, f).value.params);
  }

  /** A constant passed to a `var` parameter was folded to a literal, which the checker refuses there. */
  lemma {:induction false} FairSourceA(Q: Program, U: Program, sc: Scope, N: Consts, args: Exprs, ps: seq<Param>)
    requires SameHeads(Q, U) && Lits(N) && Length(args) == |ps| && CheckArgs(Q, sc, FoldA(N, args), ps)
    requires FairA(Q, N.Keys, FoldA(N, args), ps)
    ensures FairA(U, N.Keys, args, ps)
    decreases args, 0
  {
    if args.Cons? {
      FairSourceE(Q, U, sc, N, args.hd);
      if args.hd.Read? && args.hd.p.Name? && args.hd.p.x in N { assert IsLit(N[args.hd.p.x]); }
      FairSourceA(Q, U, sc, N, args.tl, ps[1..]);
    }
  }

  lemma {:induction false} FairSourceS(Q: Program, U: Program, sc: Scope, N: Consts, s: Stmt)
    requires SameHeads(Q, U) && Lits(N) && CheckS(Q, sc, FoldS(N, s)) && FairS(Q, N.Keys, FoldS(N, s))
    ensures FairS(U, N.Keys, s)
  {
    hide CheckE, CheckP, CheckCall, FoldE, FoldA, FairE, FairP, FairC, SameHeads;
    match s
    case Skip =>
    case Seq(s1, s2) =>
      FairSourceS(Q, U, sc, N, s1);
      FairSourceS(Q, U, sc, N, s2);
    case Assign(p, e) =>
      FairSourceP(Q, U, sc, N, p);
      FairSourceE(Q, U, sc, N, e);
    case CopyField(d, q) =>
      FairSourceP(Q, U, sc, N, d);
      FairSourceP(Q, U, sc, N, q);
    case If(c, t) =>
      FairSourceE(Q, U, sc, N, c);
      FairSourceS(Q, U, sc, N, t);
    case IfElse(c, t, e) =>
      FairSourceE(Q, U, sc, N, c);
      FairSourceS(Q, U, sc, N, t);
      FairSourceS(Q, U, sc, N, e);
    case While(c, b) =>
      FairSourceE(Q, U, sc, N, c);
      FairSourceS(Q, U, sc, N, b);
    case CallStmt(f, args) => FairSourceC(Q, U, sc, N, f, args);
    case WriteLit(_) =>
    case WriteVal(_, e) => FairSourceE(Q, U, sc, N, e);
    case WriteLn =>
  }

  lemma {:induction false} FoldedIn(K: Consts, rs: seq<Routine>, r: Routine)
    requires r in rs
    ensures FoldR(K, r) in FoldRs(K, rs)
  {
    if r != rs[0] { FoldedIn(K, rs[1..], r); }
  }

  lemma FoldedHeads(Q: Program, U: Program, K: Consts)
    requires Q.routines == FoldRs(K, U.routines)
    ensures SameHeads(Q, U)
  {
    forall f
      ensures SameHead(FindRoutine(Q.routines, f), FindRoutine(U.routines, f))
    {
      FindFolded(K, U.routines, f);
    }
  }

  lemma RoutineFair(Q: Program, U: Program, K: Consts, r: Routine)
    requires SameHeads(Q, U) && Lits(K) && Accepts(Q, K.Keys) && FoldR(K, r) in Q.routines
    ensures FairS(U, Unhidden(K.Keys, r), r.body)
  {
    var r' := FoldR(K, r);
    assert CheckRoutine(Q, r');
    assert forall x :: FindDecl(r', x) == FindDecl(r, x);
    assert Unhidden(K.Keys, r') == Unhidden(K.Keys, r) == Visible(K, r).Keys;
    FairSourceS(Q, U, Some(r'), Visible(K, r), r.body);
  }

  /** Acceptance of what was parsed makes the source fair to its constants. */
  lemma AcceptedFair(items: seq<Item>, main: Stmt)
    requires LitItems(items) && Accepts(Viewed(items, main), Constants(items).Keys)
    requires DeclaredBeforeUse(items, map[], Constants(items))
    ensures FairProgram(Unfolded(items, main), Constants(items).Keys)
  {
    var Q, U, K := Viewed(items, main), Unfolded(items, main), Constants(items);
    hide CheckS, FairS, FoldS, DeclaredBeforeUse, CheckRoutine;
    TableGrows(items, map[]);
    ForwardExact(items);
    FoldedHeads(Q, U, K);
    FairSourceS(Q, U, None, K, main);
    forall r | r in U.routines
      ensures FairS(U, Unhidden(K.Keys, r), r.body)
    {
      FoldedIn(K, U.routines, r);
      RoutineFair(Q, U, K, r);
    }
  }

  lemma {:induction false} VarListed(items: seq<Item>, j: nat) returns (k: nat)
    requires j < |items| && items[j].VarDef?
    ensures k < |Vars(items)| && Vars(items)[k] == items[j].d
  {
    if j == 0 {
      k := 0;
    } else {
      k := VarListed(items[1..], j - 1);
      if items[0].VarDef? { k := k + 1; }
    }
  }

  lemma {:induction false} ConstListed(items: seq<Item>, i: nat) returns (k: nat)
    requires i < |items| && items[i].ConstDef?
    ensures k < |ConstVars(items)| && ConstVars(items)[k].name == items[i].name
  {
    if i == 0 {
      k := 0;
    } else {
      k := ConstListed(items[1..], i - 1);
      if items[0].ConstDef? { k := k + 1; }
    }
  }

  /** Distinct symbols keep constants and variables apart. */
  lemma AcceptedApart(items: seq<Item>, main: Stmt)
    requires Accepts(Viewed(items, main), Constants(items).Keys)
    ensures NamesApart(items)
  {
    var gs := Vars(items) + ConstVars(items);
    assert forall i, j :: 0 <= i < j < |gs| ==> gs[i].name != gs[j].name;
    hide CheckS, FairS, CheckRoutine;
    forall i, j | 0 <= i < |items| && 0 <= j < |items| && items[i].ConstDef? && items[j].VarDef?
      ensures items[i].name != items[j].d.name
    {
      var a := VarListed(items, j);
      var b := ConstListed(items, i);
      assert gs[a].name != gs[|Vars(items)| + b].name;
    }
  }

  /** For every program the checker accepts, with constants declared before use, what the parser produces
      evaluates as the source does with its constants in cells of their own. */
  lemma AcceptedPreserves(items: seq<Item>, main: Stmt, fuel: nat)
    requires LitItems(items) && Accepts(Viewed(items, main), Constants(items).Keys)
    requires DeclaredBeforeUse(items, map[], Constants(items))
    ensures EvalS(Unfolded(items, main), fuel, Main, Join(St(ZeroStore(Vars(items)), []), Constants(items)), main)
         == Joined(EvalProgram(Parsed(items, main), fuel), Constants(items))
  {
    hide EvalS, EvalProgram, Join, DeclaredBeforeUse, Accepts, FairProgram;
    AcceptedFair(items, main);
    AcceptedApart(items, main);
    ParsedPreserves(items, main, fuel);
  }

  // ---- a constant used before its declaration ----

  /** Folding with a table that lacks `x` leaves its uses. */
  lemma {:induction false} UseSurvivesE(N: Consts, e: Expr, x: string)
    requires UsesE(e, x) && x !in N
    ensures UsesE(FoldE(N, e), x)
    decreases e, 0
  {
    match e
    case Read(p) => if !p.Name? { UseSurvivesP(N, p, x); }
    case Binop(_, l, r) => if UsesE(l, x) { UseSurvivesE(N, l, x); } else { UseSurvivesE(N, r, x); }
    case Unop(_, e1) => UseSurvivesE(N, e1, x);
    case Call(_, args) => UseSurvivesA(N, args, x);
  }

  lemma {:induction false} UseSurvivesP(N: Consts, p: Place, x: string)
    requires UsesP(p, x) && x !in N
    ensures UsesP(FoldP(N, p), x)
    decreases p, 0
  {
    UseSurvivesE(N, p.idx, x);
  }

  lemma {:induction false} UseSurvivesA(N: Consts, es: Exprs, x: string)
    requires UsesA(es, x) && x !in N
    ensures UsesA(FoldA(N, es), x)
    decreases es, 0
  {
    if UsesE(es.hd, x) { UseSurvivesE(N, es.hd, x); } else { UseSurvivesA(N, es.tl, x); }
  }

  lemma {:induction false} UseSurvivesS(N: Consts, s: Stmt, x: string)
    requires UsesS(s, x) && x !in N
    ensures UsesS(FoldS(N, s), x)
  {
    match s
    case Seq(s1, s2) => if UsesS(s1, x) { UseSurvivesS(N, s1, x); } else { UseSurvivesS(N, s2, x); }
    case Assign(p, e) => if UsesP(p, x) { UseSurvivesP(N, p, x); } else { UseSurvivesE(N, e, x); }
    case CopyField(d, q) => if UsesP(d, x) { UseSurvivesP(N, d, x); } else { UseSurvivesP(N, q, x); }
    case If(c, t) => if UsesE(c, x) { UseSurvivesE(N, c, x); } else { UseSurvivesS(N, t, x); }
    case IfElse(c, t, e) =>
      if UsesE(c, x) { UseSurvivesE(N, c, x); } else if UsesS(t, x) { UseSurvivesS(N, t, x); }
        else { UseSurvivesS(N, e, x); }
    case While(c, b) => if UsesE(c, x) { UseSurvivesE(N, c, x); } else { UseSurvivesS(N, b, x); }
    case CallStmt(_, args) => UseSurvivesA(N, args, x);
    case WriteVal(_, e) => UseSurvivesE(N, e, x);
  }

  /** `P` is what is generated from, `Q` what is checked: the same routines, and every array the checker
      knows has storage. */
  ghost predicate Backed(P: Program, Q: Program) {
    P.routines == Q.routines
    && forall y :: FindVar(Q.globals, y).Some? && FindVar(Q.globals, y).value.Arr? ==>
        FindVar(P.globals, y) == FindVar(Q.globals, y)
  }

  /** `x` is a constant that is visible in the scope. */
  predicate Visibly(sc: Scope, K: set<string>, x: string) { x in K && Resolve(sc, x).None? }

  /** The generator turns a use of a name the scope does not declare into a load from global storage. */
  lemma {:induction false} UseEmitsE(P: Program, Q: Program, sc: Scope, K: set<string>, e: Expr, x: string)
    requires Backed(P, Q) && Visibly(sc, K, x) && UsesE(e, x) && CheckE(Q, sc, e).Some? && FairE(Q, K, e)
    ensures LoadG(x) in GenE(P, sc, e)
    decreases e, 0
  {
    match e
    case Read(p) => if !p.Name? { UseEmitsP(P, Q, sc, K, p, x); }
    case Binop(_, l, r) => if UsesE(l, x) { UseEmitsE(P, Q, sc, K, l, x); } else { UseEmitsE(P, Q, sc, K, r, x); }
    case Unop(_, e1) => UseEmitsE(P, Q, sc, K, e1, x);
    case Call(f, args) => UseEmitsC(P, Q, sc, K, f, args, x);
  }

  lemma {:induction false} UseEmitsP(P: Program, Q: Program, sc: Scope, K: set<string>, p: Place, x: string)
    requires Backed(P, Q) && Visibly(sc, K, x) && UsesP(p, x) && CheckP(Q, sc, p).Some? && FairP(Q, K, p)
    ensures LoadG(x) in GenAddr(P, sc, p)
    decreases p, 0
  {
    if sc.Some? { EntOf(sc.value, p.x); }
    UseEmitsE(P, Q, sc, K, p.idx, x);
    assert LoadG(x) in GenElem(P, sc, p.x, p.idx);
  }

  lemma {:induction false} UseEmitsC(P: Program, Q: Program, sc: Scope, K: set<string>, f: string, args: Exprs,
                                     x: string)
    requires Backed(P, Q) && Visibly(sc, K, x) && UsesA(args, x) && CheckCall(Q, sc, f, args).Some?
    requires FairC(Q, K, f, args)
    ensures LoadG(x) in GenCall(P, sc, f, args)
    decreases args, 1
  {
    UseEmitsA(P, Q, sc, K, args, FindRoutine(P.routines, f).value.params, x);
  }

  lemma {:induction false} UseEmitsA(P: Program, Q: Program, sc: Scope, K: set<string>, args: Exprs, ps: seq<Param>,
                                     x: string)
    requires Backed(P, Q) && Visibly(sc, K, x) && UsesA(args, x) && Length(args) == |ps|
    requires CheckArgs(Q, sc, args, ps) && FairA(Q, K, args, ps)
    ensures LoadG(x) in GenArgs(P, sc, args, ps)
    decreases args, 0
  {
    if UsesE(args.hd, x) {
      if ps[0].isVar {
        FairPart(Q, K, args.hd.p);
        UseEmitsP(P, Q, sc, K, args.hd.p, x);
      } else {
        UseEmitsE(P, Q, sc, K, args.hd, x);
      }
      assert LoadG(x) in GenArg(P, sc, args.hd, ps[0]);
    } else {
      UseEmitsA(P, Q, sc, K, args.tl, ps[1..], x);
    }
  }

  lemma FairPart(Q: Program, K: set<string>, p: Place)
    requires FairE(Q, K, Read(p))
    ensures FairP(Q, K, p)
  {
  }

  lemma {:induction false} UseEmitsS(P: Program, Q: Program, sc: Scope, K: set<string>, s: Stmt, x: string, n: nat,
                                     k: nat)
    requires Backed(P, Q) && Visibly(sc, K, x) && UsesS(s, x) && CheckS(Q, sc, s) && FairS(Q, K, s)
    ensures LoadG(x) in GenS(P, sc, s, n, k)
    decreases s, 1
  {
    hide CheckS, FairS, UsesE, UsesP, UsesA, GenS, Backed, Visibly;
    if s.Seq? || s.If? || s.IfElse? || s.While? {
      UseEmitsBranch(P, Q, sc, K, s, x, n, k);
    } else {
      UseEmitsPlain(P, Q, sc, K, s, x, n, k);
    }
  }

  lemma {:induction false} UseEmitsPlain(P: Program, Q: Program, sc: Scope, K: set<string>, s: Stmt, x: string, n: nat,
                                         k: nat)
    requires Backed(P, Q) && Visibly(sc, K, x) && UsesS(s, x) && CheckS(Q, sc, s) && FairS(Q, K, s)
    requires s.Assign? || s.CopyField? || s.CallStmt? || s.WriteVal?
    ensures LoadG(x) in GenS(P, sc, s, n, k)
  {
    hide CheckE, CheckP, CheckCall, FairE, FairP, FairC, UsesE, UsesP, UsesA, GenE, GenAddr, GenCall, Backed, Visibly;
    match s
    case Assign(p, e) => if UsesP(p, x) { NotName(p, x); UseEmitsP(P, Q, sc, K, p, x); }
      else { UseEmitsE(P, Q, sc, K, e, x); }
    case CopyField(d, q) => if UsesP(d, x) { UseEmitsP(P, Q, sc, K, d, x); } else { UseEmitsP(P, Q, sc, K, q, x); }
    case CallStmt(f, args) => UseEmitsC(P, Q, sc, K, f, args, x);
    case WriteVal(_, e) => UseEmitsE(P, Q, sc, K, e, x);
  }

  lemma {:induction false} UseEmitsBranch(P: Program, Q: Program, sc: Scope, K: set<string>, s: Stmt, x: string, n: nat,
                                          k: nat)
    requires (s.Seq? || s.If? || s.IfElse? || s.While?) && Backed(P, Q) && Visibly(sc, K, x) && UsesS(s, x)
    requires CheckS(Q, sc, s) && FairS(Q, K, s)
    ensures LoadG(x) in GenS(P, sc, s, n, k)
    decreases s, 0
  {
    hide CheckE, FairE, UsesE, GenE, GenS, Labels, Literals, Backed, Visibly;
    if !s.Seq? && UsesE(s.c, x) { UseEmitsE(P, Q, sc, K, s.c, x); }
    match s
    case Seq(s1, s2) =>
      GenSeqIs(P, sc, s1, s2, n, k);
      if UsesS(s1, x) { UseEmitsS(P, Q, sc, K, s1, x, n, k); }
      if UsesS(s2, x) { UseEmitsS(P, Q, sc, K, s2, x, n + Labels(s1), k + |Literals(s1)|); }
    case If(c, t) =>
      GenIfIs(P, sc, c, t, n, k);
      if UsesS(t, x) { UseEmitsS(P, Q, sc, K, t, x, n + 1, k); }
    case IfElse(c, t, e) =>
      GenIfElseIs(P, sc, c, t, e, n, k);
      if UsesS(t, x) { UseEmitsS(P, Q, sc, K, t, x, n + 1, k); }
      if UsesS(e, x) { UseEmitsS(P, Q, sc, K, e, x, n + 1 + Labels(t), k + |Literals(t)|); }
    case While(c, b) =>
      GenWhileIs(P, sc, c, b, n, k);
      if UsesS(b, x) { UseEmitsS(P, Q, sc, K, b, x, n + 1, k); }
  }

  lemma NotName(p: Place, x: string)
    requires UsesP(p, x)
    ensures !p.Name?
  {
  }

  lemma {:induction false} EmittedIn(P: Program, rs: seq<Routine>, n: nat, k: nat, r: Routine, i: Instr)
    requires r in rs && forall n: nat, k: nat :: i in GenS(P, Some(r), r.body, n, k)
    ensures i in GenRoutines(P, rs, n, k)
  {
    hide GenS, GenRoutines, Labels, Literals;
    GenRoutinesIs(P, rs, n, k);
    if r == rs[0] {
      assert i in GenS(P, Some(r), r.body, n, k);
      assert i in GenRoutine(P, r, n, k);
    } else {
      EmittedIn(P, rs[1..], n + Labels(rs[0].body), k + |Literals(rs[0].body)|, r, i);
    }
  }

  /** The routine, the table at its place and a constant it uses too early. */
  lemma {:induction false} EarlyRoutine(items: seq<Item>, K: Consts, L: Consts)
    returns (r: Routine, K1: Consts, x: string)
    requires LitItems(items) && Lits(K) && !DeclaredBeforeUse(items, K, L)
    ensures Missed(Visible(K1, r), Visible(L, r), x) && UsesS(r.body, x) && FoldR(K1, r) in Forward(items, K)
  {
    hide UsesS, Visible, FoldR;
    var rest := items[1..];
    assert forall i :: 0 <= i < |rest| ==> rest[i] == items[i + 1];
    match items[0]
    case ConstDef(c, lit) => r, K1, x := EarlyRoutine(rest, Register(K, c, lit), L);
    case VarDef(_) => r, K1, x := EarlyRoutine(rest, K, L);
    case RoutineDef(q) =>
      if RoutineUses(K, L, q) {
        r, K1, x := EarlyRoutine(rest, K, L);
      } else {
        r, K1 := q, K;
        x :| Missed(Visible(K, q), Visible(L, q), x) && UsesS(q.body, x);
      }
  }

  lemma ViewedBacked(items: seq<Item>, main: Stmt)
    requires LitItems(items)
    ensures Backed(Parsed(items, main), Viewed(items, main))
  {
    forall y | FindVar(Viewed(items, main).globals, y).Some? && FindVar(Viewed(items, main).globals, y).value.Arr?
      ensures FindVar(Vars(items), y) == FindVar(Viewed(items, main).globals, y)
    {
      FindAppend(Vars(items), ConstVars(items), y);
      FindConst(items, map[], y);
    }
  }

  /** An accepted program that uses a constant too early loads from a global that is not there. */
  lemma EarlyUseDangles(items: seq<Item>, main: Stmt) returns (x: string)
    requires LitItems(items) && Accepts(Viewed(items, main), Constants(items).Keys)
    requires !DeclaredBeforeUse(items, map[], Constants(items))
    ensures var img := Compile(Parsed(items, main)); LoadG(x) in img.code && x !in img.gaddr
  {
    var P, Q, K := Parsed(items, main), Viewed(items, main), Constants(items);
    var r, K1, c := EarlyRoutine(items, map[], K);
    x := c;
    var r' := FoldR(K1, r);
    hide GenS, GenRoutines, FoldS, UsesS, DeclaredBeforeUse, CheckS, FairS, FindDecl;
    SameScope(K1, r);
    EarlyVisible(Q, K, K1, r, x);
    UseSurvivesS(Visible(K1, r), r.body, x);
    ViewedBacked(items, main);
    forall n: nat, k: nat
      ensures LoadG(x) in GenS(P, Some(r'), r'.body, n, k)
    {
      UseEmitsS(P, Q, Some(r'), Unhidden(K.Keys, r'), r'.body, x, n, k);
    }
    EmittedIn(P, P.routines, 0, 0, r', LoadG(x));
    AcceptedApart(items, main);
    NoStorage(items, x);
  }

  lemma SameScope(K1: Consts, r: Routine)
    ensures forall x :: FindDecl(FoldR(K1, r), x) == FindDecl(r, x)
  {
  }

  lemma EarlyVisible(Q: Program, K: Consts, K1: Consts, r: Routine, x: string)
    requires Accepts(Q, K.Keys) && FoldR(K1, r) in Q.routines && Missed(Visible(K1, r), Visible(K, r), x)
    ensures var r' := FoldR(K1, r);
            && Visibly(Some(r'), Unhidden(K.Keys, r'), x) && CheckS(Q, Some(r'), r'.body)
              && FairS(Q, Unhidden(K.Keys, r'), r'.body)
  {
    hide CheckS, FairS;
    var r' := FoldR(K1, r);
    assert CheckRoutine(Q, r');
    EntOf(r', x);
    assert FindDecl(r', x) == FindDecl(r, x);
  }

  lemma NoStorage(items: seq<Item>, x: string)
    requires LitItems(items) && NamesApart(items) && x in Constants(items)
    ensures x !in GlobalAddrs(Vars(items), 0)
  {
    GlobalAddrsOf(Vars(items), 0, x);
    FindConstDef(items, map[], x);
    if FindVar(Vars(items), x).Some? { FindVarDef(items, x); }
  }

  // ---- declared before use: the parsed program stands on its own ----

  /** In scope `sc`, the names in `N` are scalar symbols of `Q` that `P` lacks; all others are the same. */
  ghost predicate Without(P: Program, Q: Program, sc: Scope, N: Consts) {
    && P.routines == Q.routines && Lits(N)
    && (forall x :: x !in N ==> ShapeOf(P, sc, x) == ShapeOf(Q, sc, x))
    && (forall x :: x in N ==> ShapeOf(Q, sc, x) == Some(One(Scalar(LitTy(N[x])))))
  }

  lemma {:induction false} SameTypeE(P: Program, Q: Program, sc: Scope, N: Consts, e: Expr)
    requires Without(P, Q, sc, N) && CheckE(Q, sc, FoldE(N, e)).Some? && FairE(Q, N.Keys, FoldE(N, e))
    ensures CheckE(P, sc, FoldE(N, e)) == CheckE(Q, sc, FoldE(N, e))
    decreases e, 0
  {
    match e
    case IntLit(_) =>
    case BoolLit(_) =>
    case CharLit(_) =>
    case Read(p) =>
      if p.Name? && p.x in N {
        assert IsLit(N[p.x]);
      } else {
        SameTypeP(P, Q, sc, N, p);
        FoldRead(N, p);
      }
    case Binop(_, l, r) =>
      SameTypeE(P, Q, sc, N, l);
      SameTypeE(P, Q, sc, N, r);
    case Unop(_, e1) => SameTypeE(P, Q, sc, N, e1);
    case Call(f, args) => SameTypeC(P, Q, sc, N, f, args);
  }

  lemma {:induction false} SameTypeP(P: Program, Q: Program, sc: Scope, N: Consts, p: Place)
    requires Without(P, Q, sc, N) && CheckP(Q, sc, FoldP(N, p)).Some? && FairP(Q, N.Keys, FoldP(N, p))
    requires !(p.Name? && p.x in N)
    ensures CheckP(P, sc, FoldP(N, p)) == CheckP(Q, sc, FoldP(N, p))
    decreases p, 0
  {
    assert p.x !in N;
    if p.At? || p.AtField? { SameTypeE(P, Q, sc, N, p.idx); }
  }

  lemma {:induction false} SameTypeC(P: Program, Q: Program, sc: Scope, N: Consts, f: string, args: Exprs)
    requires Without(P, Q, sc, N) && CheckCall(Q, sc, f, FoldA(N, args)).Some? && FairC(Q, N.Keys, f, FoldA(N, args))
    ensures CheckCall(P, sc, f, FoldA(N, args)) == CheckCall(Q, sc, f, FoldA(N, args))
    decreases args, 1
  {
    SameTypeA(P, Q, sc, N, args, FindRoutine(Q.routines, f).value.params);
  }

  lemma {:induction false} SameTypeA(P: Program, Q: Program, sc: Scope, N: Consts, args: Exprs, ps: seq<Param>)
    requires Without(P, Q, sc, N) && Length(args) == |ps| && CheckArgs(Q, sc, FoldA(N, args), ps)
    requires FairA(Q, N.Keys, FoldA(N, args), ps)
    ensures CheckArgs(P, sc, FoldA(N, args), ps)
    decreases args, 0
  {
    if args.Cons? {
      SameTypeE(P, Q, sc, N, args.hd);
      SameTypeA(P, Q, sc, N, args.tl, ps[1..]);
    }
  }

  lemma {:induction false} SameTypeS(P: Program, Q: Program, sc: Scope, N: Consts, s: Stmt)
    requires Without(P, Q, sc, N) && CheckS(Q, sc, FoldS(N, s)) && FairS(Q, N.Keys, FoldS(N, s))
    ensures CheckS(P, sc, FoldS(N, s))
  {
    hide CheckE, CheckP, CheckCall, FoldE, FoldA, FairE, FairP, FairC, Without;
    match s
    case Skip =>
    case Seq(s1, s2) =>
      SameTypeS(P, Q, sc, N, s1);
      SameTypeS(P, Q, sc, N, s2);
    case Assign(p, e) =>
      SameTypeP(P, Q, sc, N, p);
      SameTypeE(P, Q, sc, N, e);
    case CopyField(d, q) =>
      SameTypeP(P, Q, sc, N, d);
      SameTypeP(P, Q, sc, N, q);
    case If(c, t) =>
      SameTypeE(P, Q, sc, N, c);
      SameTypeS(P, Q, sc, N, t);
    case IfElse(c, t, e) =>
      SameTypeE(P, Q, sc, N, c);
      SameTypeS(P, Q, sc, N, t);
      SameTypeS(P, Q, sc, N, e);
    case While(c, b) =>
      SameTypeE(P, Q, sc, N, c);
      SameTypeS(P, Q, sc, N, b);
    case CallStmt(f, args) => SameTypeC(P, Q, sc, N, f, args);
    case WriteLit(_) =>
    case WriteVal(_, e) => SameTypeE(P, Q, sc, N, e);
    case WriteLn =>
  }

  /** What a symbol is, with and without the constants among the globals. */
  lemma SymbolIs(items: seq<Item>, x: string)
    requires LitItems(items) && NamesApart(items)
    ensures var K := Constants(items);
            && (x !in K ==> FindVar(Vars(items) + ConstVars(items), x) == FindVar(Vars(items), x))
            && (x in K ==>
                FindVar(Vars(items) + ConstVars(items), x) == Some(One(Scalar(LitTy(K[x]))))
                && FindVar(Vars(items), x).None?)
  {
    UnfoldedKeeps(items, Skip);
  }

  lemma ScopeWithout(items: seq<Item>, main: Stmt, sc: Scope, N: Consts)
    requires LitItems(items) && NamesApart(items)
    requires N == (if sc.Some? then map x | x in Constants(items) && FindDecl(sc.value, x).None? :: Constants(items)[x]
             else Constants(items))
    ensures Without(Parsed(items, main), Viewed(items, main), sc, N)
  {
    TableGrows(items, map[]);
    forall x
      ensures x !in N ==> ShapeOf(Parsed(items, main), sc, x) == ShapeOf(Viewed(items, main), sc, x)
      ensures x in N ==> ShapeOf(Viewed(items, main), sc, x) == Some(One(Scalar(LitTy(N[x]))))
    {
      SymbolIs(items, x);
    }
  }

  lemma ParsedRoutineChecks(items: seq<Item>, main: Stmt, r: Routine)
    requires LitItems(items) && NamesApart(items) && Accepts(Viewed(items, main), Constants(items).Keys)
    requires FoldR(Constants(items), r) in Viewed(items, main).routines
    ensures CheckRoutine(Parsed(items, main), FoldR(Constants(items), r))
  {
    var P, Q, K := Parsed(items, main), Viewed(items, main), Constants(items);
    var r', N := FoldR(K, r), Visible(K, r);
    assert CheckRoutine(Q, r');
    assert Unhidden(K.Keys, r') == N.Keys;
    hide CheckS, FairS, FoldS;
    ScopeWithout(items, main, Some(r'), N);
    SameTypeS(P, Q, Some(r'), N, r.body);
  }

  lemma {:induction false} FoldedFrom(K: Consts, rs: seq<Routine>, r': Routine) returns (r: Routine)
    requires r' in FoldRs(K, rs)
    ensures r in rs && r' == FoldR(K, r)
  {
    if r' == FoldR(K, rs[0]) { r := rs[0]; } else { r := FoldedFrom(K, rs[1..], r'); }
  }

  /** With constants declared before use, the parsed program checks without them. */
  lemma {:induction false} ParsedChecks(items: seq<Item>, main: Stmt)
    requires LitItems(items) && Accepts(Viewed(items, main), Constants(items).Keys)
    requires DeclaredBeforeUse(items, map[], Constants(items))
    ensures CheckProgram(Parsed(items, main))
  {
    var P, Q, K := Parsed(items, main), Viewed(items, main), Constants(items);
    hide CheckS, FairS, FoldS, CheckRoutine, DeclaredBeforeUse;
    AcceptedApart(items, main);
    ForwardExact(items);
    ScopeWithout(items, main, None, K);
    SameTypeS(P, Q, None, K, main);
    forall r' | r' in P.routines
      ensures CheckRoutine(P, r')
    {
      var r := FoldedFrom(K, Routines(items), r');
      ParsedRoutineChecks(items, main, r);
    }
    assert forall i, j :: 0 <= i < j < |P.globals| ==> P.globals[i] == Q.globals[i] && P.globals[j] == Q.globals[j];
    forall i | 0 <= i < |P.routines|
      ensures FindVar(P.globals, P.routines[i].name).None?
    {
      SymbolIs(items, P.routines[i].name);
    }
  }

  /** For every accepted program: the code refers only to globals that exist if and only if every constant is
      declared before the routines that use it. */
  lemma StorageExact(items: seq<Item>, main: Stmt)
    requires LitItems(items) && Accepts(Viewed(items, main), Constants(items).Keys)
    ensures var img := Compile(Parsed(items, main));
            DeclaredBeforeUse(items, map[], Constants(items)) <==>
            forall i :: i in img.code && GlobalOf(i).Some? ==> GlobalOf(i).value in img.gaddr
  {
    hide Compile, DeclaredBeforeUse, Accepts, CheckProgram, Parsed, Viewed;
    if DeclaredBeforeUse(items, map[], Constants(items)) {
      ParsedChecks(items, main);
      forall i | i in Compile(Parsed(items, main)).code
        ensures GlobalOf(i).Some? ==> GlobalOf(i).value in Compile(Parsed(items, main)).gaddr
      {
        CheckedClean(Parsed(items, main), i);
      }
    } else {
      var x := EarlyUseDangles(items, main);
      assert GlobalOf(LoadG(x)) == Some(x);
    }
  }
}
