/** Whole programs: the emitted labels are distinct, every routine is where calls find it, both passes
    over the write literals agree, and so the compiled program behaves as its source. */
module Linking {
  import opened Int32
  import opened Syntax
  import opened Semantics
  import opened Machine
  import opened Codegen
  import opened Layout
  import opened Simulation
  import opened Instructions
  import opened Addressing
  import opened Frames
  import opened Correctness

  // ---- labels ----

  function LabelsOf(code: seq<Instr>): seq<Label> {
    if code == [] then []
    else if code[0].Lbl? then [code[0].l] + LabelsOf(code[1..])
    else LabelsOf(code[1..])
  }

  predicate NoDup<T(==)>(s: seq<T>) { forall i, j :: 0 <= i < j < |s| ==> s[i] != s[j] }

  lemma {:induction false} LabelsAppend(a: seq<Instr>, b: seq<Instr>)
    ensures LabelsOf(a + b) == LabelsOf(a) + LabelsOf(b)
  {
    if a == [] {
      assert a + b == b;
    } else {
      assert (a + b)[1..] == a[1..] + b;
      LabelsAppend(a[1..], b);
    }
  }

  lemma {:induction false} LabelIn(code: seq<Instr>, i: nat) returns (k: nat)
    requires i < |code| && code[i].Lbl?
    ensures k < |LabelsOf(code)| && LabelsOf(code)[k] == code[i].l
  {
    if i == 0 {
      k := 0;
    } else {
      k := LabelIn(code[1..], i - 1);
      if code[0].Lbl? { k := k + 1; }
    }
  }

  lemma {:induction false} NoDupDistinct(code: seq<Instr>)
    requires NoDup(LabelsOf(code))
    ensures DistinctLabels(code)
  {
    if code != [] {
      var rest := code[1..];
      var ls := LabelsOf(code);
      assert NoDup(LabelsOf(rest)) by {
        if code[0].Lbl? { assert ls[1..] == LabelsOf(rest); }
      }
      NoDupDistinct(rest);
      forall i, j | 0 <= i < j < |code| && code[i].Lbl? && code[j].Lbl?
        ensures code[i].l != code[j].l
      {
        if i == 0 {
          var k := LabelIn(rest, j - 1);
          assert ls[0] == code[0].l && ls[k + 1] == rest[j - 1].l;
        } else {
          assert rest[i - 1] == code[i] && rest[j - 1] == code[j];
        }
      }
    }
  }

  /** The ordinal of a local label. */
  predicate Numbered(l: Label, lo: nat, hi: nat) {
    !l.LProc? && !l.LMain? && lo <= l.n < hi
  }

  predicate AllNumbered(ls: seq<Label>, lo: nat, hi: nat) {
    forall i :: 0 <= i < |ls| ==> Numbered(ls[i], lo, hi)
  }

  lemma {:induction false} ExprNoLabels(P: Program, sc: Scope, e: Expr)
    ensures LabelsOf(GenE(P, sc, e)) == []
    decreases e, 0
  {
    match e
    case IntLit(_) =>
    case BoolLit(_) =>
    case CharLit(_) =>
    case Read(p) =>
      if !p.Name? {
        AddrNoLabels(P, sc, p);
        LabelsAppend(GenAddr(P, sc, p), [Load(EAX, EAX, 0)]);
      } else {
        NameNoLabels(sc, p.x);
      }
    case Binop(op, l, r) =>
      ExprNoLabels(P, sc, l);
      ExprNoLabels(P, sc, r);
      CombineNoLabels(op);
      LabelsAppend([MovRR(ECX, EAX), Pull(EAX)], Combine(op));
      LabelsAppend(GenE(P, sc, r), [MovRR(ECX, EAX), Pull(EAX)] + Combine(op));
      LabelsAppend([Push(EAX)], GenE(P, sc, r) + ([MovRR(ECX, EAX), Pull(EAX)] + Combine(op)));
      LabelsAppend(GenE(P, sc, l), [Push(EAX)] + (GenE(P, sc, r) + ([MovRR(ECX, EAX), Pull(EAX)] + Combine(op))));
    case Unop(op, e1) =>
      ExprNoLabels(P, sc, e1);
      assert LabelsOf(GenUn(op)) == [];
      LabelsAppend(GenE(P, sc, e1), GenUn(op));
    case Call(f, args) => CallNoLabels(P, sc, f, args);
  }

  lemma CombineNoLabels(op: BinOp)
    ensures LabelsOf(Combine(op)) == []
    ensures LabelsOf([MovRR(ECX, EAX), Pull(EAX)]) == []
  {
    NoLabels(Combine(op));
  }

  lemma {:induction false} NoLabels(code: seq<Instr>)
    requires forall i :: 0 <= i < |code| ==> !code[i].Lbl?
    ensures LabelsOf(code) == []
  {
    if code != [] { NoLabels(code[1..]); }
  }

  lemma NameNoLabels(sc: Scope, x: string)
    ensures LabelsOf(GenBase(sc, x)) == [] && LabelsOf(GenReadName(sc, x)) == [] && LabelsOf(GenWriteName(sc, x)) == []
  {
    NoLabels(GenBase(sc, x));
    NoLabels(GenReadName(sc, x));
    NoLabels(GenWriteName(sc, x));
  }

  lemma {:induction false} AddrNoLabels(P: Program, sc: Scope, p: Place)
    ensures LabelsOf(GenAddr(P, sc, p)) == []
    decreases p, 1
  {
    NameNoLabels(sc, p.x);
    match p
    case Name(x) =>
    case Field(x, k) =>
      NoLabels(GenFieldOffset(IsFrameBase(sc, x), k));
      LabelsAppend(GenBase(sc, x), GenFieldOffset(IsFrameBase(sc, x), k));
    case At(x, idx) => ElemNoLabels(P, sc, x, idx);
    case AtField(x, idx, k) =>
      ElemNoLabels(P, sc, x, idx);
      NoLabels(GenFieldOffset(false, k));
      LabelsAppend(GenElem(P, sc, x, idx), GenFieldOffset(false, k));
  }

  lemma {:induction false} ElemNoLabels(P: Program, sc: Scope, x: string, idx: Expr)
    ensures LabelsOf(GenElem(P, sc, x, idx)) == []
    decreases idx, 1
  {
    ExprNoLabels(P, sc, idx);
    var tail := ElemTail(P, sc, x);
    NoLabels(tail);
    LabelsAppend(GenE(P, sc, idx), tail);
    assert GenElem(P, sc, x, idx) == GenE(P, sc, idx) + tail || GenElem(P, sc, x, idx) == [Ice];
    NoLabels([Ice]);
  }

  lemma {:induction false} CallNoLabels(P: Program, sc: Scope, f: string, args: Exprs)
    ensures LabelsOf(GenCall(P, sc, f, args)) == []
    decreases args, 1
  {
    NoLabels([Ice]);
    var r := FindRoutine(P.routines, f);
    if r.Some? && Length(args) == |r.value.params| {
      ArgsNoLabels(P, sc, args, r.value.params);
      var tail := [CallP(f)] + CleanUp(|r.value.params|);
      NoLabels(tail);
      LabelsAppend(GenArgs(P, sc, args, r.value.params), tail);
    }
  }

  lemma {:induction false} ArgsNoLabels(P: Program, sc: Scope, args: Exprs, ps: seq<Param>)
    requires Length(args) == |ps|
    ensures LabelsOf(GenArgs(P, sc, args, ps)) == []
    decreases args, 0
  {
    if args.Cons? {
      ArgsNoLabels(P, sc, args.tl, ps[1..]);
      NoLabels([Ice]);
      ExprNoLabels(P, sc, args.hd);
      if args.hd.Read? { AddrNoLabels(P, sc, args.hd.p); }
      var g := GenArg(P, sc, args.hd, ps[0]);
      LabelsAppend(g, [Push(EAX)]);
      LabelsAppend(GenArgs(P, sc, args.tl, ps[1..]), g + [Push(EAX)]);
    }
  }

  lemma NoDupAppend(a: seq<Label>, b: seq<Label>, lo: nat, mid: nat, hi: nat)
    requires NoDup(a) && NoDup(b) && AllNumbered(a, lo, mid) && AllNumbered(b, mid, hi) && lo <= mid <= hi
    ensures NoDup(a + b) && AllNumbered(a + b, lo, hi)
  {
    forall i, j | 0 <= i < j < |a + b|
      ensures (a + b)[i] != (a + b)[j]
    {
      if i < |a| <= j { assert Numbered(a[i], lo, mid) && Numbered(b[j - |a|], mid, hi); }
    }
  }

  /** All local labels of a statement are distinct and use exactly its range of ordinals. */
  lemma {:induction false} StmtLabels(P: Program, sc: Scope, s: Stmt, n: nat, k: nat)
    ensures NoDup(LabelsOf(GenS(P, sc, s, n, k)))
    ensures AllNumbered(LabelsOf(GenS(P, sc, s, n, k)), n, n + Labels(s))
    decreases s
  {
    hide LabelsOf, NoDup, AllNumbered, GenE, GenAddr, GenCall, GenWrite;
    match s
    case Skip => PlainLabels([], n, n);
    case Seq(s1, s2) => SeqLabels(P, sc, s1, s2, n, k);
    case Assign(p, e) =>
      AssignLabels(P, sc, p, e, n, k);
      NoneFine(GenS(P, sc, s, n, k), n, n);
    case CopyField(d, q) =>
      CopyLabels(P, sc, d, q, n, k);
      NoneFine(GenS(P, sc, s, n, k), n, n);
    case If(c, t) => IfLabels(P, sc, c, t, n, k);
    case IfElse(c, t, e) => IfElseLabels(P, sc, c, t, e, n, k);
    case While(c, b) => WhileLabels(P, sc, c, b, n, k);
    case CallStmt(f, args) =>
      CallNoLabels(P, sc, f, args);
      NoneFine(GenCall(P, sc, f, args), n, n);
    case WriteLit(_) => PlainLabels([MovI(EAX, T(k)), CallH(Puts)], n, n);
    case WriteVal(ty, e) => WriteLabels(P, sc, ty, e, n);
    case WriteLn => PlainLabels([MovAL(10), CallH(Putc)], n, n);
  }

  lemma NoneFine(code: seq<Instr>, lo: nat, hi: nat)
    requires LabelsOf(code) == []
    ensures NoDup(LabelsOf(code)) && AllNumbered(LabelsOf(code), lo, hi)
  {
  }

  lemma PlainLabels(code: seq<Instr>, lo: nat, hi: nat)
    requires forall i :: 0 <= i < |code| ==> !code[i].Lbl?
    ensures NoDup(LabelsOf(code)) && AllNumbered(LabelsOf(code), lo, hi)
  {
    NoLabels(code);
  }

  lemma {:induction false} SeqLabels(P: Program, sc: Scope, s1: Stmt, s2: Stmt, n: nat, k: nat)
    ensures NoDup(LabelsOf(GenS(P, sc, Seq(s1, s2), n, k)))
    ensures AllNumbered(LabelsOf(GenS(P, sc, Seq(s1, s2), n, k)), n, n + Labels(Seq(s1, s2)))
    decreases Seq(s1, s2), 0
  {
    hide LabelsOf, NoDup, AllNumbered;
    StmtLabels(P, sc, s1, n, k);
    StmtLabels(P, sc, s2, n + Labels(s1), k + |Literals(s1)|);
    var g1, g2 := GenS(P, sc, s1, n, k), GenS(P, sc, s2, n + Labels(s1), k + |Literals(s1)|);
    LabelsAppend(g1, g2);
    NoDupAppend(LabelsOf(g1), LabelsOf(g2), n, n + Labels(s1), n + Labels(Seq(s1, s2)));
  }

  lemma CopyLabels(P: Program, sc: Scope, d: Place, q: Place, n: nat, k: nat)
    ensures LabelsOf(GenS(P, sc, CopyField(d, q), n, k)) == []
  {
    hide LabelsOf;
    AddrNoLabels(P, sc, d);
    AddrNoLabels(P, sc, q);
    var t := [Pull(ECX), Save(EAX, 0, ECX)];
    NoLabels(t);
    NoLabels([Load(EAX, EAX, 0), Push(EAX)]);
    LabelsAppend(GenAddr(P, sc, d), t);
    LabelsAppend([Load(EAX, EAX, 0), Push(EAX)], GenAddr(P, sc, d) + t);
    LabelsAppend(GenAddr(P, sc, q), [Load(EAX, EAX, 0), Push(EAX)] + (GenAddr(P, sc, d) + t));
  }

  lemma AssignLabels(P: Program, sc: Scope, p: Place, e: Expr, n: nat, k: nat)
    ensures LabelsOf(GenS(P, sc, Assign(p, e), n, k)) == []
  {
    ExprNoLabels(P, sc, e);
    AddrNoLabels(P, sc, p);
    NameNoLabels(sc, p.x);
    if p.Name? {
      LabelsAppend(GenE(P, sc, e), GenWriteName(sc, p.x));
    } else {
      var t := [Pull(EDX), Save(EDX, 0, EAX)];
      NoLabels(t);
      LabelsAppend(GenE(P, sc, e), t);
      LabelsAppend([Push(EAX)], GenE(P, sc, e) + t);
      LabelsAppend(GenAddr(P, sc, p), [Push(EAX)] + (GenE(P, sc, e) + t));
    }
  }

  lemma WriteLabels(P: Program, sc: Scope, ty: Ty, e: Expr, n: nat)
    ensures NoDup(LabelsOf(GenE(P, sc, e) + GenWrite(ty, n)))
    ensures AllNumbered(LabelsOf(GenE(P, sc, e) + GenWrite(ty, n)), n, n + Labels(WriteVal(ty, e)))
  {
    hide LabelsOf, GenE;
    ExprNoLabels(P, sc, e);
    LabelsAppend(GenE(P, sc, e), GenWrite(ty, n));
    if ty.TBool? {
      var a := [TestEAX, Jz(LBFalse(n)), MovI(EAX, TB(true)), Jmp(LBDone(n))];
      var b := [MovI(EAX, TB(false))];
      NoLabels(a);
      NoLabels(b);
      NoLabels([CallH(Puts)]);
      assert GenWrite(ty, n) == a + ([Lbl(LBFalse(n))] + (b + ([Lbl(LBDone(n))] + [CallH(Puts)])));
      LabelsAppend([Lbl(LBDone(n))], [CallH(Puts)]);
      LabelsAppend(b, [Lbl(LBDone(n))] + [CallH(Puts)]);
      LabelsAppend([Lbl(LBFalse(n))], b + ([Lbl(LBDone(n))] + [CallH(Puts)]));
      LabelsAppend(a, [Lbl(LBFalse(n))] + (b + ([Lbl(LBDone(n))] + [CallH(Puts)])));
      OneLabel(LBFalse(n));
      OneLabel(LBDone(n));
      assert LabelsOf(GenWrite(ty, n)) == [LBFalse(n), LBDone(n)];
    } else {
      NoLabels(GenWrite(ty, n));
    }
  }

  lemma OneLabel(l: Label)
    ensures LabelsOf([Lbl(l)]) == [l]
  {
  }

  lemma {:induction false} IfLabels(P: Program, sc: Scope, c: Expr, t: Stmt, n: nat, k: nat)
    ensures NoDup(LabelsOf(GenS(P, sc, If(c, t), n, k)))
    ensures AllNumbered(LabelsOf(GenS(P, sc, If(c, t), n, k)), n, n + Labels(If(c, t)))
    decreases If(c, t), 0
  {
    hide LabelsOf, NoDup, AllNumbered;
    StmtLabels(P, sc, t, n + 1, k);
    ExprNoLabels(P, sc, c);
    var g, h := GenS(P, sc, t, n + 1, k), [TestEAX, Jz(LEndif(n))];
    NoLabels(h);
    OneLabel(LEndif(n));
    LabelsAppend(g, [Lbl(LEndif(n))]);
    LabelsAppend(h, g + [Lbl(LEndif(n))]);
    LabelsAppend(GenE(P, sc, c), h + (g + [Lbl(LEndif(n))]));
    assert LabelsOf(GenS(P, sc, If(c, t), n, k)) == LabelsOf(g) + [LEndif(n)];
    Fresh(LabelsOf(g), LEndif(n), n, n + Labels(If(c, t)));
  }

  /** Adding a label with a smaller ordinal behind a run of labels. */
  lemma Fresh(ls: seq<Label>, l: Label, n: nat, hi: nat)
    requires NoDup(ls) && AllNumbered(ls, n + 1, hi) && Numbered(l, n, n + 1) && n < hi
    ensures NoDup(ls + [l]) && AllNumbered(ls + [l], n, hi)
    ensures NoDup([l] + ls) && AllNumbered([l] + ls, n, hi)
  {
    forall i | 0 <= i < |ls|
      ensures ls[i] != l && Numbered(ls[i], n, hi)
    {
      assert Numbered(ls[i], n + 1, hi);
    }
  }

  lemma {:induction false} WhileLabels(P: Program, sc: Scope, c: Expr, b: Stmt, n: nat, k: nat)
    ensures NoDup(LabelsOf(GenS(P, sc, While(c, b), n, k)))
    ensures AllNumbered(LabelsOf(GenS(P, sc, While(c, b), n, k)), n, n + Labels(While(c, b)))
    decreases While(c, b), 0
  {
    hide LabelsOf, NoDup, AllNumbered;
    StmtLabels(P, sc, b, n + 1, k);
    ExprNoLabels(P, sc, c);
    var g, h, t := GenS(P, sc, b, n + 1, k), [TestEAX, Jz(LWhileEnd(n))], [Lbl(LWhileTop(n))];
    NoLabels(h);
    NoLabels([Jmp(LWhileTop(n))]);
    OneLabel(LWhileTop(n));
    OneLabel(LWhileEnd(n));
    var m := [Jmp(LWhileTop(n)), Lbl(LWhileEnd(n))];
    assert m == [Jmp(LWhileTop(n))] + [Lbl(LWhileEnd(n))];
    LabelsAppend([Jmp(LWhileTop(n))], [Lbl(LWhileEnd(n))]);
    LabelsAppend(g, m);
    LabelsAppend(h, g + m);
    LabelsAppend(GenE(P, sc, c), h + (g + m));
    LabelsAppend(t, GenE(P, sc, c) + (h + (g + m)));
    assert LabelsOf(GenS(P, sc, While(c, b), n, k)) == [LWhileTop(n)] + (LabelsOf(g) + [LWhileEnd(n)]);
    Bracket(LabelsOf(g), LWhileTop(n), LWhileEnd(n), n, n + Labels(While(c, b)));
  }

  lemma Bracket(ls: seq<Label>, l: Label, r: Label, n: nat, hi: nat)
    requires NoDup(ls) && AllNumbered(ls, n + 1, hi) && Numbered(l, n, n + 1) && Numbered(r, n, n + 1) && l != r
    requires n < hi
    ensures NoDup([l] + (ls + [r])) && AllNumbered([l] + (ls + [r]), n, hi)
  {
    forall i | 0 <= i < |ls|
      ensures ls[i] != l && ls[i] != r && Numbered(ls[i], n, hi)
    {
      assert Numbered(ls[i], n + 1, hi);
    }
  }

  lemma {:induction false} IfElseLabels(P: Program, sc: Scope, c: Expr, t: Stmt, e: Stmt, n: nat, k: nat)
    ensures NoDup(LabelsOf(GenS(P, sc, IfElse(c, t, e), n, k)))
    ensures AllNumbered(LabelsOf(GenS(P, sc, IfElse(c, t, e), n, k)), n, n + Labels(IfElse(c, t, e)))
    decreases IfElse(c, t, e), 0
  {
    hide LabelsOf, NoDup, AllNumbered, GenS, GenE, Labels, Literals;
    GenIfElseIs(P, sc, c, t, e, n, k);
    var mid := n + 1 + Labels(t);
    StmtLabels(P, sc, t, n + 1, k);
    StmtLabels(P, sc, e, mid, k + |Literals(t)|);
    ExprNoLabels(P, sc, c);
    var g, d, h := GenS(P, sc, t, n + 1, k), GenS(P, sc, e, mid, k + |Literals(t)|), [TestEAX, Jz(LElse(n))];
    var m, z := [Jmp(LEndif(n)), Lbl(LElse(n))], [Lbl(LEndif(n))];
    NoLabels(h);
    NoLabels([Jmp(LEndif(n))]);
    OneLabel(LElse(n));
    OneLabel(LEndif(n));
    assert m == [Jmp(LEndif(n))] + [Lbl(LElse(n))];
    LabelsAppend([Jmp(LEndif(n))], [Lbl(LElse(n))]);
    LabelsAppend(d, z);
    LabelsAppend(m, d + z);
    LabelsAppend(g, m + (d + z));
    LabelsAppend(h, g + (m + (d + z)));
    LabelsAppend(GenE(P, sc, c), h + (g + (m + (d + z))));
    assert LabelsOf(GenS(P, sc, IfElse(c, t, e), n, k)) == LabelsOf(g) + ([LElse(n)] + (LabelsOf(d) + [LEndif(n)]));
    TwoArms(LabelsOf(g), LabelsOf(d), LElse(n), LEndif(n), n, mid, n + Labels(IfElse(c, t, e)));
  }

  lemma TwoArms(a: seq<Label>, b: seq<Label>, l: Label, r: Label, n: nat, mid: nat, hi: nat)
    requires NoDup(a) && NoDup(b) && AllNumbered(a, n + 1, mid) && AllNumbered(b, mid, hi) && n < mid <= hi
    requires Numbered(l, n, n + 1) && Numbered(r, n, n + 1) && l != r
    ensures NoDup(a + ([l] + (b + [r]))) && AllNumbered(a + ([l] + (b + [r])), n, hi)
  {
    var w := a + ([l] + (b + [r]));
    forall i | 0 <= i < |a|
      ensures a[i] != l && a[i] != r && Numbered(a[i], n, hi)
    {
      assert Numbered(a[i], n + 1, mid);
    }
    forall i | 0 <= i < |b|
      ensures b[i] != l && b[i] != r && Numbered(b[i], n, hi)
    {
      assert Numbered(b[i], mid, hi);
    }
    forall i, j | 0 <= i < |a| && 0 <= j < |b|
      ensures a[i] != b[j]
    {
      assert Numbered(a[i], n + 1, mid) && Numbered(b[j], mid, hi);
    }
  }

  // ---- routines and the main block ----

  /** A routine's code contributes its own label, then its body's. */
  lemma RoutineLabelsOf(P: Program, r: Routine, n: nat, k: nat)
    ensures LabelsOf(GenRoutine(P, r, n, k)) == [LProc(r.name)] + LabelsOf(GenS(P, Some(r), r.body, n, k))
  {
    hide LabelsOf, GenS;
    var b, p, e := GenS(P, Some(r), r.body, n, k), Prologue(FrameSlots(r)), Epilogue(r);
    NoLabels(p);
    NoLabels(e);
    OneLabel(LProc(r.name));
    LabelsAppend(b, e);
    LabelsAppend(p, b + e);
    LabelsAppend([Lbl(LProc(r.name))], p + (b + e));
  }

  lemma MainLabelsOf(P: Program, n: nat, k: nat)
    ensures LabelsOf(GenMain(P, n, k)) == [LMain] + LabelsOf(GenS(P, None, P.main, n, k))
  {
    hide LabelsOf, GenS;
    var b, p := GenS(P, None, P.main, n, k), Prologue(0);
    NoLabels(p);
    NoLabels([Leave, Ret]);
    OneLabel(LMain);
    LabelsAppend(b, [Leave, Ret]);
    LabelsAppend(p, b + [Leave, Ret]);
    LabelsAppend([Lbl(LMain)], p + (b + [Leave, Ret]));
  }

  /** A label of a group of routines: one of their own labels, or a local one in their range. */
  predicate Owned(l: Label, rs: seq<Routine>, lo: nat, hi: nat) {
    Numbered(l, lo, hi) || exists i :: 0 <= i < |rs| && l == LProc(rs[i].name)
  }

  predicate AllOwned(ls: seq<Label>, rs: seq<Routine>, lo: nat, hi: nat) {
    forall i :: 0 <= i < |ls| ==> Owned(ls[i], rs, lo, hi)
  }

  predicate NamesApart(rs: seq<Routine>) {
    forall i, j :: 0 <= i < j < |rs| ==> rs[i].name != rs[j].name
  }

  lemma {:induction false} RoutinesLabels(P: Program, rs: seq<Routine>, n: nat, k: nat)
    requires NamesApart(rs)
    ensures NoDup(LabelsOf(GenRoutines(P, rs, n, k)))
    ensures AllOwned(LabelsOf(GenRoutines(P, rs, n, k)), rs, n, n + RoutineLabels(rs))
  {
    hide GenRoutine, GenRoutines, Labels, Literals, RoutineLabels;
    if rs == [] {
      NoRoutines(P, n, k);
    } else {
      GenRoutinesIs(P, rs, n, k);
      var mid, k' := n + Labels(rs[0].body), k + |Literals(rs[0].body)|;
      RoutinesLabels(P, rs[1..], mid, k');
      StmtLabels(P, Some(rs[0]), rs[0].body, n, k);
      RoutineLabelsOf(P, rs[0], n, k);
      LabelsAppend(GenRoutine(P, rs[0], n, k), GenRoutines(P, rs[1..], mid, k'));
      JoinRoutines(LabelsOf(GenS(P, Some(rs[0]), rs[0].body, n, k)), LabelsOf(GenRoutines(P, rs[1..], mid, k')),
                   rs, n, mid, n + RoutineLabels(rs));
    }
  }

  lemma JoinRoutines(a: seq<Label>, b: seq<Label>, rs: seq<Routine>, lo: nat, mid: nat, hi: nat)
    requires rs != [] && NamesApart(rs) && lo <= mid <= hi
    requires NoDup(a) && AllNumbered(a, lo, mid) && NoDup(b) && AllOwned(b, rs[1..], mid, hi)
    ensures NoDup([LProc(rs[0].name)] + a + b) && AllOwned([LProc(rs[0].name)] + a + b, rs, lo, hi)
  {
    var w := [LProc(rs[0].name)] + a + b;
    forall i | 0 <= i < |a|
      ensures Numbered(a[i], lo, hi)
    {
      assert Numbered(a[i], lo, mid);
    }
    forall j | 0 <= j < |b|
      ensures b[j] != LProc(rs[0].name) && Owned(b[j], rs, lo, hi)
      ensures forall i :: 0 <= i < |a| ==> a[i] != b[j]
    {
      assert Owned(b[j], rs[1..], mid, hi);
      if !Numbered(b[j], mid, hi) {
        var m :| 0 <= m < |rs[1..]| && b[j] == LProc(rs[1..][m].name);
        assert rs[1..][m] == rs[m + 1];
      }
      forall i | 0 <= i < |a|
        ensures a[i] != b[j]
      {
        assert Numbered(a[i], lo, mid);
      }
    }
    assert w[0] == LProc(rs[0].name);
    assert Owned(LProc(rs[0].name), rs, lo, hi);
  }

  /** No two labels of the emitted program are the same. */
  lemma AllLabelsDistinct(P: Program)
    requires NamesApart(P.routines)
    ensures DistinctLabels(Compile(P).code)
  {
    hide LabelsOf, GenRoutines, GenMain;
    var n, k := RoutineLabels(P.routines), |RoutineLiterals(P.routines)|;
    var g, m := GenRoutines(P, P.routines, 0, 0), GenMain(P, n, k);
    RoutinesLabels(P, P.routines, 0, 0);
    StmtLabels(P, None, P.main, n, k);
    MainLabelsOf(P, n, k);
    LabelsAppend(g, m);
    JoinMain(LabelsOf(g), LabelsOf(GenS(P, None, P.main, n, k)), P.routines, n, n + Labels(P.main));
    NoDupDistinct(g + m);
  }

  lemma JoinMain(a: seq<Label>, b: seq<Label>, rs: seq<Routine>, mid: nat, hi: nat)
    requires NoDup(a) && AllOwned(a, rs, 0, mid) && NoDup(b) && AllNumbered(b, mid, hi)
    ensures NoDup(a + ([LMain] + b))
  {
    forall i | 0 <= i < |a|
      ensures a[i] != LMain && forall j :: 0 <= j < |b| ==> a[i] != b[j]
    {
      assert Owned(a[i], rs, 0, mid);
      forall j | 0 <= j < |b|
        ensures a[i] != b[j]
      {
        assert Numbered(b[j], mid, hi);
      }
    }
    forall j | 0 <= j < |b|
      ensures b[j] != LMain
    {
      assert Numbered(b[j], mid, hi);
    }
  }
}
