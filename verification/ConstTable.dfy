/** The parser's constant table and shadow set. Declarations are read in one forward pass, so a use is
    folded only by the constants declared before it; the pass is right exactly when no routine uses a
    constant declared after it. */
module ConstTable {
  import opened Syntax
  import opened Semantics
  import opened Machine
  import opened Codegen
  import opened Typecheck
  import opened Folding

  /** The sections of a program in source order. */
  datatype Item = ConstDef(name: string, lit: Expr) | VarDef(d: VarDecl) | RoutineDef(r: Routine)

  predicate LitItems(items: seq<Item>) {
    forall i :: 0 <= i < |items| && items[i].ConstDef? ==> IsLit(items[i].lit)
  }

  /** The first registration of a name wins. */
  function Register(K: Consts, x: string, lit: Expr): Consts { if x in K then K else K[x := lit] }

  function After(items: seq<Item>, K: Consts): Consts {
    if items == [] then K
    else if items[0].ConstDef? then After(items[1..], Register(K, items[0].name, items[0].lit))
    else After(items[1..], K)
  }

  function Routines(items: seq<Item>): seq<Routine> {
    if items == [] then [] else if items[0].RoutineDef? then [items[0].r] + Routines(items[1..])
      else Routines(items[1..])
  }

  function Vars(items: seq<Item>): seq<VarDecl> {
    if items == [] then [] else if items[0].VarDef? then [items[0].d] + Vars(items[1..]) else Vars(items[1..])
  }

  /** Each routine folded under the table of its place. */
  function Forward(items: seq<Item>, K: Consts): seq<Routine> {
    if items == [] then []
    else match items[0]
      case ConstDef(x, lit) => Forward(items[1..], Register(K, x, lit))
      case VarDef(_) => Forward(items[1..], K)
      case RoutineDef(r) => [FoldR(K, r)] + Forward(items[1..], K)
  }

  function Parsed(items: seq<Item>, main: Stmt): Program {
    Program(Vars(items), Forward(items, map[]), FoldS(After(items, map[]), main))
  }

  // ---- uses ----

  /** `x` stands alone as a factor somewhere. */
  predicate UsesE(e: Expr, x: string)
    decreases e, 0
  {
    match e
    case Read(p) => (p.Name? && p.x == x) || UsesP(p, x)
    case Binop(_, l, r) => UsesE(l, x) || UsesE(r, x)
    case Unop(_, e1) => UsesE(e1, x)
    case Call(_, args) => UsesA(args, x)
    case _ => false
  }

  predicate UsesP(p: Place, x: string)
    decreases p, 0
  {
    (p.At? && UsesE(p.idx, x)) || (p.AtField? && UsesE(p.idx, x))
  }

  predicate UsesA(es: Exprs, x: string)
    decreases es, 0
  {
    es.Cons? && (UsesE(es.hd, x) || UsesA(es.tl, x))
  }

  predicate UsesS(s: Stmt, x: string) {
    match s
    case Seq(s1, s2) => UsesS(s1, x) || UsesS(s2, x)
    case Assign(p, e) => UsesP(p, x) || UsesE(e, x)
    case CopyField(d, q) => UsesP(d, x) || UsesP(q, x)
    case If(c, t) => UsesE(c, x) || UsesS(t, x)
    case IfElse(c, t, e) => UsesE(c, x) || UsesS(t, x) || UsesS(e, x)
    case While(c, b) => UsesE(c, x) || UsesS(b, x)
    case CallStmt(_, args) => UsesA(args, x)
    case WriteVal(_, e) => UsesE(e, x)
    case _ => false
  }

  /** `K` is a part of `L`. */
  predicate Within(K: Consts, L: Consts) { forall x :: x in K ==> x in L && K[x] == L[x] }

  predicate Missed(K: Consts, L: Consts, x: string) { x in L && x !in K }

  lemma {:induction false} SameFoldE(K: Consts, L: Consts, e: Expr)
    requires Within(K, L) && Lits(L)
    ensures FoldE(K, e) == FoldE(L, e) <==> forall x :: Missed(K, L, x) ==> !UsesE(e, x)
    decreases e, 0
  {
    match e
    case IntLit(_) =>
    case BoolLit(_) =>
    case CharLit(_) =>
    case Read(p) =>
      if p.Name? {
        if p.x in L { assert IsLit(L[p.x]); }
        if Missed(K, L, p.x) { assert UsesE(e, p.x); }
      } else {
        SameFoldP(K, L, p);
      }
    case Binop(_, l, r) =>
      SameFoldE(K, L, l);
      SameFoldE(K, L, r);
    case Unop(_, e1) => SameFoldE(K, L, e1);
    case Call(_, args) => SameFoldA(K, L, args);
  }

  lemma {:induction false} SameFoldP(K: Consts, L: Consts, p: Place)
    requires Within(K, L) && Lits(L)
    ensures FoldP(K, p) == FoldP(L, p) <==> forall x :: Missed(K, L, x) ==> !UsesP(p, x)
    decreases p, 0
  {
    match p
    case Name(_) =>
    case Field(_, _) =>
    case At(_, idx) => SameFoldE(K, L, idx);
    case AtField(_, idx, _) => SameFoldE(K, L, idx);
  }

  lemma {:induction false} SameFoldA(K: Consts, L: Consts, es: Exprs)
    requires Within(K, L) && Lits(L)
    ensures FoldA(K, es) == FoldA(L, es) <==> forall x :: Missed(K, L, x) ==> !UsesA(es, x)
    decreases es, 0
  {
    if es.Cons? {
      SameFoldE(K, L, es.hd);
      SameFoldA(K, L, es.tl);
    }
  }

  lemma {:induction false} SameFoldS(K: Consts, L: Consts, s: Stmt)
    requires Within(K, L) && Lits(L)
    ensures FoldS(K, s) == FoldS(L, s) <==> forall x :: Missed(K, L, x) ==> !UsesS(s, x)
  {
    hide FoldE, FoldP, FoldA, UsesE, UsesP, UsesA, Within, Lits;
    match s
    case Skip =>
    case Seq(s1, s2) =>
      SameFoldS(K, L, s1);
      SameFoldS(K, L, s2);
    case Assign(p, e) =>
      SameFoldP(K, L, p);
      SameFoldE(K, L, e);
    case CopyField(d, q) =>
      SameFoldP(K, L, d);
      SameFoldP(K, L, q);
    case If(c, t) =>
      SameFoldE(K, L, c);
      SameFoldS(K, L, t);
    case IfElse(c, t, e) =>
      SameFoldE(K, L, c);
      SameFoldS(K, L, t);
      SameFoldS(K, L, e);
    case While(c, b) =>
      SameFoldE(K, L, c);
      SameFoldS(K, L, b);
    case CallStmt(_, args) => SameFoldA(K, L, args);
    case WriteLit(_) =>
    case WriteVal(_, e) => SameFoldE(K, L, e);
    case WriteLn =>
  }

  /** A routine uses only constants the table already holds. */
  ghost predicate RoutineUses(K: Consts, L: Consts, r: Routine) {
    forall x :: Missed(Visible(K, r), Visible(L, r), x) ==> !UsesS(r.body, x)
  }

  lemma SameFoldR(K: Consts, L: Consts, r: Routine)
    requires Within(K, L) && Lits(L)
    ensures FoldR(K, r) == FoldR(L, r) <==> RoutineUses(K, L, r)
  {
    hide FoldS, UsesS, FindDecl;
    SameFoldS(Visible(K, r), Visible(L, r), r.body);
  }

  /** Every constant is declared before the routines that use it. */
  ghost predicate DeclaredBeforeUse(items: seq<Item>, K: Consts, L: Consts) {
    items == [] ||
    match items[0]
    case ConstDef(x, lit) => DeclaredBeforeUse(items[1..], Register(K, x, lit), L)
    case VarDef(_) => DeclaredBeforeUse(items[1..], K, L)
    case RoutineDef(r) => RoutineUses(K, L, r) && DeclaredBeforeUse(items[1..], K, L)
  }

  lemma {:induction false} TableGrows(items: seq<Item>, K: Consts)
    requires LitItems(items) && Lits(K)
    ensures Within(K, After(items, K)) && Lits(After(items, K))
  {
    if items != [] {
      assert forall i :: 0 <= i < |items[1..]| ==> items[1..][i] == items[i + 1];
      TableGrows(items[1..], if items[0].ConstDef? then Register(K, items[0].name, items[0].lit) else K);
    }
  }

  lemma {:induction false} ForwardFrom(items: seq<Item>, K: Consts)
    requires LitItems(items) && Lits(K)
    ensures Forward(items, K) == FoldRs(After(items, K), Routines(items))
            <==> DeclaredBeforeUse(items, K, After(items, K))
  {
    hide FoldR, RoutineUses;
    if items != [] {
      var rest := items[1..];
      assert forall i :: 0 <= i < |rest| ==> rest[i] == items[i + 1];
      var K' := if items[0].ConstDef? then Register(K, items[0].name, items[0].lit) else K;
      ForwardFrom(rest, K');
      if items[0].RoutineDef? {
        TableGrows(items, K);
        var L := After(items, K);
        SameFoldR(K, L, items[0].r);
        var f, g := Forward(items, K), FoldRs(L, Routines(items));
        assert f == [FoldR(K, items[0].r)] + Forward(rest, K) && f[1..] == Forward(rest, K);
        assert g == [FoldR(L, items[0].r)] + FoldRs(L, Routines(rest)) && g[1..] == FoldRs(L, Routines(rest));
        assert f == g <==> f[0] == g[0] && f[1..] == g[1..] by { HeadTail(f, g); }
      }
    }
  }

  lemma HeadTail<T>(f: seq<T>, g: seq<T>)
    requires f != [] && g != []
    ensures f == g <==> f[0] == g[0] && f[1..] == g[1..]
  {
    if f[0] == g[0] && f[1..] == g[1..] {
      assert f == [f[0]] + f[1..] && g == [g[0]] + g[1..];
    }
  }

  /** The forward pass folds as if it knew all constants exactly when each is declared before its uses. */
  lemma ForwardExact(items: seq<Item>)
    requires LitItems(items)
    ensures (Forward(items, map[]) == FoldRs(After(items, map[]), Routines(items))) <==>
            DeclaredBeforeUse(items, map[], After(items, map[]))
  {
    ForwardFrom(items, map[]);
  }

  // ---- the parsed program means what the source means ----

  function ConstVars(items: seq<Item>): seq<VarDecl> {
    if items == [] then []
    else if items[0].ConstDef? then [VarDecl(items[0].name, One(Scalar(LitTy(items[0].lit))))] + ConstVars(items[1..])
    else ConstVars(items[1..])
  }

  /** The source program with a cell for every constant. */
  function Unfolded(items: seq<Item>, main: Stmt): Program {
    Program(Vars(items) + ConstVars(items), Routines(items), main)
  }

  /** No constant has the name of a variable. */
  predicate NamesApart(items: seq<Item>) {
    forall i, j :: 0 <= i < |items| && 0 <= j < |items| && items[i].ConstDef? && items[j].VarDef?
      ==> items[i].name != items[j].d.name
  }

  lemma {:induction false} FindConst(items: seq<Item>, K: Consts, x: string)
    requires LitItems(items)
    ensures After(items, K).Keys >= K.Keys
    ensures x in K ==> x in After(items, K) && After(items, K)[x] == K[x]
    ensures x !in K ==>
              (x in After(items, K) <==> FindVar(ConstVars(items), x).Some?)
              && (x in After(items, K) ==> FindVar(ConstVars(items), x) == Some(One(Scalar(LitTy(After(items, K)[x])))))
  {
    if items != [] {
      assert forall i :: 0 <= i < |items[1..]| ==> items[1..][i] == items[i + 1];
      FindConst(items[1..], if items[0].ConstDef? then Register(K, items[0].name, items[0].lit) else K, x);
    }
  }

  lemma {:induction false} FindVarDef(items: seq<Item>, x: string)
    requires FindVar(Vars(items), x).Some?
    ensures exists j :: 0 <= j < |items| && items[j].VarDef? && items[j].d.name == x
  {
    if items[0].VarDef? && items[0].d.name == x {
    } else {
      FindVarDef(items[1..], x);
      var j :| 0 <= j < |items[1..]| && items[1..][j].VarDef? && items[1..][j].d.name == x;
      assert items[j + 1] == items[1..][j];
    }
  }

  lemma {:induction false} FindConstDef(items: seq<Item>, K: Consts, x: string)
    requires x in After(items, K) && x !in K
    ensures exists j :: 0 <= j < |items| && items[j].ConstDef? && items[j].name == x
  {
    if items[0].ConstDef? && items[0].name == x {
    } else {
      FindConstDef(items[1..], if items[0].ConstDef? then Register(K, items[0].name, items[0].lit) else K, x);
      var j :| 0 <= j < |items[1..]| && items[1..][j].ConstDef? && items[1..][j].name == x;
      assert items[j + 1] == items[1..][j];
    }
  }

  lemma UnfoldedKeeps(items: seq<Item>, main: Stmt)
    requires LitItems(items) && NamesApart(items)
    ensures Keeps(Unfolded(items, main), Vars(items), After(items, map[]))
  {
    var K := After(items, map[]);
    TableGrows(items, map[]);
    forall x
      ensures x in K ==>
                FindVar(Vars(items), x).None?
                && FindVar(Unfolded(items, main).globals, x) == Some(One(Scalar(LitTy(K[x]))))
      ensures x !in K ==> FindVar(Unfolded(items, main).globals, x) == FindVar(Vars(items), x)
    {
      FindAppend(Vars(items), ConstVars(items), x);
      FindConst(items, map[], x);
      if x in K && FindVar(Vars(items), x).Some? {
        FindVarDef(items, x);
        FindConstDef(items, map[], x);
      }
    }
  }

  /** What the parser produces evaluates, for every fuel, as the source does with its constants in cells. */
  lemma ParsedPreserves(items: seq<Item>, main: Stmt, fuel: nat)
    requires LitItems(items) && NamesApart(items) && DeclaredBeforeUse(items, map[], After(items, map[]))
    requires FairProgram(Unfolded(items, main), After(items, map[]).Keys)
    ensures EvalS(Unfolded(items, main), fuel, Main, Join(St(ZeroStore(Vars(items)), []), After(items, map[])), main)
         == Joined(EvalProgram(Parsed(items, main), fuel), After(items, map[]))
  {
    var K := After(items, map[]);
    var U := Unfolded(items, main);
    hide EvalS, Keeps, FairProgram, Join, FoldS, After;
    UnfoldedKeeps(items, main);
    ForwardExact(items);
    FoldingPreserved(U, Vars(items), K, fuel);
    assert Folded(U, Vars(items), K) == Parsed(items, main);
  }

  // ---- a constant used before its declaration ----

  /** `procedure p; begin write(c) end; const c = 5; begin p end.` */
  function Early(): seq<Item> {
    [RoutineDef(Routine("p", [], None, [], WriteVal(TInt, Read(Name("c"))))), ConstDef("c", IntLit(5))]
  }

  /** The checker has collected every name before it looks at a body, so it accepts the program; the
      parser has left the name in, the variable does not exist, and the generator refers to storage that
      is not there. Folding with all constants known would have printed 5. */
  lemma EarlyUse()
    ensures var main := CallStmt("p", Nil);
            var P := Parsed(Early(), main);
            && CheckProgram(P.(globals := P.globals + ConstVars(Early())))
            && EvalProgram(P, 1) == TypeErr
            && GenReadName(Some(P.routines[0]), "c") == [LoadG("c")] && "c" !in Compile(P).gaddr
            && EvalProgram(Folded(Unfolded(Early(), main), [], After(Early(), map[])), 1).Ok?
            && EvalProgram(Folded(Unfolded(Early(), main), [], After(Early(), map[])), 1).st.out == [EInt(5)]
  {
    var main := CallStmt("p", Nil);
    var r := Routine("p", [], None, [], WriteVal(TInt, Read(Name("c"))));
    hide EvalProgram, CheckProgram, Folded, Unfolded, After, Parsed, ConstVars, Early;
    EarlyParsed(r);
    EarlyFolded(r);
    EarlyChecks(r);
    assert FindDecl(r, "c").None?;
    EarlyRuns(Parsed(Early(), main), r);
    assert Parsed(Early(), main).(globals := [] + ConstVars(Early()))
           == Program([VarDecl("c", One(Scalar(TInt)))], [r], main);
    FoldedRuns(r.(body := WriteVal(TInt, IntLit(5))));
  }

  lemma EarlyParsed(r: Routine)
    requires r == Routine("p", [], None, [], WriteVal(TInt, Read(Name("c"))))
    ensures Parsed(Early(), CallStmt("p", Nil)) == Program([], [r], CallStmt("p", Nil))
    ensures ConstVars(Early()) == [VarDecl("c", One(Scalar(TInt)))]
    ensures After(Early(), map[]) == map["c" := IntLit(5)] && Routines(Early()) == [r]
  {
    var items := Early();
    assert items[1..] == [ConstDef("c", IntLit(5))] && items[1..][1..] == [];
    var K: Consts := map["c" := IntLit(5)];
    assert After(items, map[]) == After(items[1..], map[]) == After(items[1..][1..], K) == K;
    assert Forward(items[1..], map[]) == Forward(items[1..][1..], K) == [];
    assert FoldR(map[], r) == r by { assert Visible(map[], r) == map[]; }
    assert Vars(items) == Vars(items[1..]) == Vars(items[1..][1..]) == [];
    assert ConstVars(items) == ConstVars(items[1..]) == [VarDecl("c", One(Scalar(TInt)))] + ConstVars(items[1..][1..]);
    assert Routines(items) == [r] + Routines(items[1..]) == [r] + Routines(items[1..][1..]);
  }

  lemma EarlyFolded(r: Routine)
    requires r == Routine("p", [], None, [], WriteVal(TInt, Read(Name("c"))))
    ensures Folded(Unfolded(Early(), CallStmt("p", Nil)), [], After(Early(), map[]))
         == Program([], [r.(body := WriteVal(TInt, IntLit(5)))], CallStmt("p", Nil))
  {
    EarlyParsed(r);
    var K: Consts := map["c" := IntLit(5)];
    assert FindDecl(r, "c").None?;
    assert Visible(K, r) == K;
    var r' := r.(body := WriteVal(TInt, IntLit(5)));
    assert FoldR(K, r) == r';
    assert FoldRs(K, [r]) == [r'];
  }

  lemma EarlyChecks(r: Routine)
    requires r == Routine("p", [], None, [], WriteVal(TInt, Read(Name("c"))))
    ensures CheckProgram(Program([VarDecl("c", One(Scalar(TInt)))], [r], CallStmt("p", Nil)))
  {
    var Q := Program([VarDecl("c", One(Scalar(TInt)))], [r], CallStmt("p", Nil));
    assert FindDecl(r, "c").None?;
    assert FindVar(Q.globals, "c") == Some(One(Scalar(TInt)));
    assert FindVar(Q.globals, "p") == FindVar(Q.globals[1..], "p") == None;
    assert CheckE(Q, Some(r), Read(Name("c"))) == Some(Scalar(TInt));
    assert CheckCall(Q, None, "p", Nil) == Some(r);
  }

  lemma EarlyRuns(P: Program, r: Routine)
    requires P == Program([], [r], CallStmt("p", Nil))
    requires r == Routine("p", [], None, [], WriteVal(TInt, Read(Name("c"))))
    ensures EvalProgram(P, 1) == TypeErr
  {
    var st := St(map[], []);
    assert ZeroStore(P.globals) == map[];
    var env := In(1, r, map[]);
    assert FindDecl(r, "c").None?;
    assert EvalE(P, 0, env, st, Read(Name("c"))) == TypeErr;
    assert EvalS(P, 0, env, st, r.body) == TypeErr;
    assert Entered(st, 1, r, []) == st;
    CallIs(P, 1, Main, st, "p", Nil, r);
    assert EvalCall(P, 1, Main, st, "p", Nil) == TypeErr;
  }

  lemma FoldedRuns(r: Routine)
    requires r == Routine("p", [], None, [], WriteVal(TInt, IntLit(5)))
    ensures EvalProgram(Program([], [r], CallStmt("p", Nil)), 1).Ok?
    ensures EvalProgram(Program([], [r], CallStmt("p", Nil)), 1).st.out == [EInt(5)]
  {
    var P, st := Program([], [r], CallStmt("p", Nil)), St(map[], []);
    assert ZeroStore(P.globals) == map[];
    var env := In(1, r, map[]);
    assert EvalE(P, 0, env, st, IntLit(5)) == Ok(VI(5), st);
    assert EvalS(P, 0, env, st, r.body) == Ok((), Tell(st, EInt(5)));
    assert Entered(st, 1, r, []) == st;
    CallIs(P, 1, Main, st, "p", Nil, r);
  }

  // ---- the parser's state ----

  datatype Entry = Entry(name: string, lit: Expr)

  function Table(es: seq<Entry>): Consts {
    if es == [] then map[] else Table(es[1..])[es[0].name := es[0].lit]
  }

  lemma {:induction false} TableSnoc(es: seq<Entry>, e: Entry)
    ensures Table(es + [e]) == Register(Table(es), e.name, e.lit)
  {
    if es == [] {
      assert es + [e] == [e] && [e][1..] == [];
    } else {
      assert (es + [e])[1..] == es[1..] + [e];
      TableSnoc(es[1..], e);
    }
  }

  lemma {:induction false} TableAt(es: seq<Entry>, x: string, i: nat)
    requires i <= |es| && (forall j :: 0 <= j < i ==> es[j].name != x)
    ensures i < |es| && es[i].name == x ==> x in Table(es) && Table(es)[x] == es[i].lit
    ensures i == |es| ==> x !in Table(es)
  {
    if i > 0 { TableAt(es[1..], x, i - 1); }
  }

  function NamesOf(ps: seq<Param>): seq<string> { if ps == [] then [] else [ps[0].name] + NamesOf(ps[1..]) }

  function LocalNames(ds: seq<VarDecl>): seq<string> { if ds == [] then [] else [ds[0].name] + LocalNames(ds[1..]) }

  /** What a routine's header and variables push: parameters, a function's own name, locals. */
  function ShadowOf(r: Routine): seq<string> {
    NamesOf(r.params) + (if r.result.Some? then [r.name] else []) + LocalNames(r.locals)
  }

  lemma {:induction false} ParamNamed(ps: seq<Param>, x: string)
    ensures x in NamesOf(ps) <==> FindParam(ps, x).Some?
  {
    if ps != [] { ParamNamed(ps[1..], x); }
  }

  lemma {:induction false} LocalNamed(ds: seq<VarDecl>, x: string)
    ensures x in LocalNames(ds) <==> FindVar(ds, x).Some?
  {
    if ds != [] { LocalNamed(ds[1..], x); }
  }

  /** Capture-free: the shadow set holds exactly the names the routine declares. */
  lemma ShadowsDeclared(r: Routine, x: string)
    ensures x in ShadowOf(r) <==> FindDecl(r, x).Some?
  {
    ParamNamed(r.params, x);
    LocalNamed(r.locals, x);
  }

  lemma {:induction false} ParamsSnoc(ps: seq<Param>, p: Param)
    ensures NamesOf(ps + [p]) == NamesOf(ps) + [p.name]
  {
    if ps == [] {
      assert ps + [p] == [p];
    } else {
      assert (ps + [p])[1..] == ps[1..] + [p];
      ParamsSnoc(ps[1..], p);
    }
  }

  lemma {:induction false} LocalsSnoc(ds: seq<VarDecl>, d: VarDecl)
    ensures LocalNames(ds + [d]) == LocalNames(ds) + [d.name]
  {
    if ds == [] {
      assert ds + [d] == [d];
    } else {
      assert (ds + [d])[1..] == ds[1..] + [d];
      LocalsSnoc(ds[1..], d);
    }
  }

  class Scopes {
    var consts: seq<Entry>
    var shadow: seq<string>

    constructor ()
      ensures consts == [] && shadow == []
    {
      consts, shadow := [], [];
    }

    /** The constants a name folds to here. */
    ghost function Active(): Consts
      reads this
    {
      map x | x in Table(consts) && x !in shadow :: Table(consts)[x]
    }

    method ConstFind(x: string) returns (i: int)
      ensures i == -1 ==> x !in Table(consts)
      ensures i != -1 ==> 0 <= i < |consts| && x in Table(consts) && Table(consts)[x] == consts[i].lit
    {
      i := 0;
      while i < |consts|
        invariant 0 <= i <= |consts|
        invariant forall j :: 0 <= j < i ==> consts[j].name != x
      {
        if consts[i].name == x {
          TableAt(consts, x, i);
          return;
        }
        i := i + 1;
      }
      TableAt(consts, x, i);
      i := -1;
    }

    method ShadowFind(x: string) returns (found: bool)
      ensures found <==> x in shadow
    {
      var i := 0;
      while i < |shadow|
        invariant 0 <= i <= |shadow|
        invariant forall j :: 0 <= j < i ==> shadow[j] != x
      {
        if shadow[i] == x { return true; }
        i := i + 1;
      }
      return false;
    }

    /** An identifier standing alone as a factor. */
    method FoldName(x: string) returns (e: Expr)
      ensures e == FoldE(Active(), Read(Name(x)))
    {
      var i := ConstFind(x);
      var hidden := ShadowFind(x);
      if i >= 0 && !hidden { e := consts[i].lit; } else { e := Read(Name(x)); }
    }

    /** An expression as the parser builds it: every identifier that stands alone goes through `FoldName`. */
    method FoldExpr(e: Expr) returns (r: Expr)
      ensures r == FoldE(Active(), e)
      decreases e, 0
    {
      match e {
        case Read(p) =>
          if p.Name? {
            r := FoldName(p.x);
          } else {
            var q := FoldPlace(p);
            r := Read(q);
          }
        case Binop(op, a, b) =>
          var x := FoldExpr(a);
          var y := FoldExpr(b);
          r := Binop(op, x, y);
        case Unop(op, a) =>
          var x := FoldExpr(a);
          r := Unop(op, x);
        case Call(f, args) =>
          var xs := FoldArgs(args);
          r := Call(f, xs);
        case _ => r := e;
      }
    }

    method FoldPlace(p: Place) returns (q: Place)
      ensures q == FoldP(Active(), p)
      decreases p, 0
    {
      match p {
        case At(x, idx) =>
          var i := FoldExpr(idx);
          q := At(x, i);
        case AtField(x, idx, k) =>
          var i := FoldExpr(idx);
          q := AtField(x, i, k);
        case _ => q := p;
      }
    }

    method FoldArgs(es: Exprs) returns (r: Exprs)
      ensures r == FoldA(Active(), es)
      decreases es, 0
    {
      match es {
        case Nil => r := Nil;
        case Cons(e, rest) =>
          var x := FoldExpr(e);
          var xs := FoldArgs(rest);
          r := Cons(x, xs);
      }
    }

    method FoldStmt(s: Stmt) returns (r: Stmt)
      ensures r == FoldS(Active(), s)
      decreases s
    {
      match s {
        case Seq(s1, s2) =>
          var a := FoldStmt(s1);
          var b := FoldStmt(s2);
          r := Seq(a, b);
        case Assign(p, e) =>
          var q := FoldPlace(p);
          var x := FoldExpr(e);
          r := Assign(q, x);
        case CopyField(d, q) =>
          var d' := FoldPlace(d);
          var q' := FoldPlace(q);
          r := CopyField(d', q');
        case If(c, t) =>
          var x := FoldExpr(c);
          var a := FoldStmt(t);
          r := If(x, a);
        case IfElse(c, t, e) =>
          var x := FoldExpr(c);
          var a := FoldStmt(t);
          var b := FoldStmt(e);
          r := IfElse(x, a, b);
        case While(c, b) =>
          var x := FoldExpr(c);
          var a := FoldStmt(b);
          r := While(x, a);
        case CallStmt(f, args) =>
          var xs := FoldArgs(args);
          r := CallStmt(f, xs);
        case WriteVal(ty, e) =>
          var x := FoldExpr(e);
          r := WriteVal(ty, x);
        case _ => r := s;
      }
    }

    /** The constants' names, for the checker's flags. */
    method Names() returns (K: set<string>)
      ensures K == Table(consts).Keys
    {
      K := {};
      var i := |consts|;
      while i > 0
        invariant 0 <= i <= |consts| && K == Table(consts[i..]).Keys
      {
        i := i - 1;
        assert consts[i..][1..] == consts[i + 1..];
        K := K + {consts[i].name};
      }
      assert consts[0..] == consts;
    }

    method RegisterConst(x: string, lit: Expr)
      modifies this
      ensures Table(consts) == Register(old(Table(consts)), x, lit) && shadow == old(shadow)
    {
      TableSnoc(consts, Entry(x, lit));
      consts := consts + [Entry(x, lit)];
    }

    method Enter(r: Routine)
      modifies this
      ensures shadow == old(shadow) + ShadowOf(r) && consts == old(consts)
    {
      var i := 0;
      while i < |r.params|
        invariant 0 <= i <= |r.params| && consts == old(consts)
        invariant shadow == old(shadow) + NamesOf(r.params[..i])
      {
        ParamsSnoc(r.params[..i], r.params[i]);
        assert r.params[..i + 1] == r.params[..i] + [r.params[i]];
        shadow := shadow + [r.params[i].name];
        i := i + 1;
      }
      assert r.params[..i] == r.params;
      if r.result.Some? { shadow := shadow + [r.name]; }
      ghost var header := shadow;
      i := 0;
      while i < |r.locals|
        invariant 0 <= i <= |r.locals| && consts == old(consts)
        invariant shadow == header + LocalNames(r.locals[..i])
      {
        LocalsSnoc(r.locals[..i], r.locals[i]);
        assert r.locals[..i + 1] == r.locals[..i] + [r.locals[i]];
        shadow := shadow + [r.locals[i].name];
        i := i + 1;
      }
      assert r.locals[..i] == r.locals;
    }

    method Leave(saved: nat)
      requires saved <= |shadow|
      modifies this
      ensures shadow == old(shadow)[..saved] && consts == old(consts)
    {
      shadow := shadow[..saved];
    }

    /** A routine is folded under its own shadows, which are gone again afterwards. */
    method ParseRoutine(r: Routine) returns (r': Routine)
      requires shadow == []
      modifies this
      ensures r' == FoldR(Table(consts), r) && consts == old(consts) && shadow == []
    {
      var saved := |shadow|;
      Enter(r);
      ghost var active := Active();
      assert active == Visible(Table(consts), r) by {
        forall x
          ensures x in active <==> x in Visible(Table(consts), r)
        {
          ShadowsDeclared(r, x);
        }
      }
      var body := FoldStmt(r.body);
      r' := r.(body := body);
      Leave(saved);
    }

    /** The forward pass over all sections and the main block. */
    method ParseProgram(items: seq<Item>, main: Stmt) returns (P: Program)
      requires consts == [] && shadow == []
      modifies this
      ensures P == Parsed(items, main) && Table(consts) == After(items, map[])
    {
      var i, rs, vs := 0, [], [];
      while i < |items|
        invariant 0 <= i <= |items| && shadow == []
        invariant rs + Forward(items[i..], Table(consts)) == Forward(items, map[])
        invariant vs + Vars(items[i..]) == Vars(items)
        invariant After(items[i..], Table(consts)) == After(items, map[])
      {
        assert items[i..][1..] == items[i + 1..];
        match items[i] {
          case ConstDef(x, lit) => RegisterConst(x, lit);
          case VarDef(d) => vs := vs + [d];
          case RoutineDef(r) =>
            var r' := ParseRoutine(r);
            rs := rs + [r'];
        }
        i := i + 1;
      }
      assert items[i..] == [];
      assert Active() == Table(consts);
      var body := FoldStmt(main);
      P := Program(vs, rs, body);
    }
  }
}
