/** The generator as it runs: an output that grows, a label counter, a write-literal counter and the scope
    table of the routine being emitted. Each method appends exactly the code `Codegen` defines. */
module Emitter {
  import opened Syntax
  import opened Machine
  import opened Codegen
  import opened Layout

  // ---- the scope table ----

  datatype Entry = Entry(name: string, ent: Ent)

  function ParamTable(ps: seq<Param>, i: nat): seq<Entry> {
    if ps == [] then []
    else
      [Entry(ps[0].name, Ent(if ps[0].isVar then VarParam else ValParam, ParamOffset(i), One(ps[0].elem)))]
      + ParamTable(ps[1..], i + 1)
  }

  function LocalTable(ds: seq<VarDecl>, slot: nat): seq<Entry> {
    if ds == [] then []
    else
      [Entry(ds[0].name, Ent(OwnSlot, SlotOffset(slot), ds[0].shape))] + LocalTable(ds[1..], slot + Cells(ds[0].shape))
  }

  function ResultTable(r: Routine): seq<Entry> {
    if r.result.Some? then [Entry(r.name, Ent(OwnSlot, SlotOffset(0), One(Scalar(r.result.value))))] else []
  }

  function Table(r: Routine): seq<Entry> {
    ParamTable(r.params, 0) + ResultTable(r) + LocalTable(r.locals, ResultSlots(r))
  }

  function Search(t: seq<Entry>, x: string): Option<Ent> {
    if t == [] then None else if t[0].name == x then Some(t[0].ent) else Search(t[1..], x)
  }

  lemma {:induction false} SearchAppend(a: seq<Entry>, b: seq<Entry>, x: string)
    ensures Search(a + b, x) == if Search(a, x).Some? then Search(a, x) else Search(b, x)
  {
    if a == [] {
      assert a + b == b;
    } else {
      assert (a + b)[1..] == a[1..] + b;
      SearchAppend(a[1..], b, x);
    }
  }

  lemma {:induction false} SearchParams(ps: seq<Param>, i: nat, x: string)
    ensures Search(ParamTable(ps, i), x) == ParamEnt(ps, i, x)
  {
    if ps != [] { SearchParams(ps[1..], i + 1, x); }
  }

  lemma {:induction false} SearchLocals(ds: seq<VarDecl>, slot: nat, x: string)
    ensures Search(LocalTable(ds, slot), x) == LocalEnt(ds, slot, x)
  {
    if ds != [] { SearchLocals(ds[1..], slot + Cells(ds[0].shape), x); }
  }

  /** Searching the table from the front is resolving the name. */
  lemma SearchResolves(r: Routine, x: string)
    ensures Search(Table(r), x) == Resolve(Some(r), x)
  {
    SearchAppend(ParamTable(r.params, 0) + ResultTable(r), LocalTable(r.locals, ResultSlots(r)), x);
    SearchAppend(ParamTable(r.params, 0), ResultTable(r), x);
    SearchParams(r.params, 0, x);
    SearchLocals(r.locals, ResultSlots(r), x);
  }

  lemma {:induction false} SearchFrom(t: seq<Entry>, x: string, i: nat)
    requires i <= |t| && forall j :: 0 <= j < i ==> t[j].name != x
    ensures Search(t, x) == Search(t[i..], x)
  {
    if i == 0 {
      assert t[0..] == t;
    } else {
      SearchFrom(t[1..], x, i - 1);
      assert t[1..][i - 1..] == t[i..];
    }
  }

  /** Every own cell of the routine has an address of its own in the table, among the arguments or inside
      the `slots` dwords the prologue reserves. */
  ghost predicate Separates(t: seq<Entry>, r: Routine, slots: nat) {
    && (forall x, i :: OwnCell(r, x, i) ==>
          Search(t, x).Some? &&
          var o := Search(t, x).value.off - 4 * i;
          -4 * slots <= o <= -4 || 8 <= o < 8 + 4 * |r.params|)
    && (forall x, i, y, j :: OwnCell(r, x, i) && OwnCell(r, y, j) && (x != y || i != j) ==>
          Search(t, x).value.off - 4 * i != Search(t, y).value.off - 4 * j)
  }

  lemma CellInTable(r: Routine, x: string, i: int)
    requires DeclsOk(r) && OwnCell(r, x, i)
    ensures Search(Table(r), x).Some? && Search(Table(r), x).value.off - 4 * i == CellOff(r, x, i)
    ensures var o := CellOff(r, x, i); -4 * FrameSlots(r) <= o <= -4 || 8 <= o < 8 + 4 * |r.params|
  {
    SearchResolves(r, x);
    EntOf(r, x);
    hide FrameSlots, Table, Search, FindDecl, Resolve;
    OwnCellBounds(r, x, i);
  }

  lemma TableSeparates(r: Routine)
    requires DeclsOk(r)
    ensures Separates(Table(r), r, FrameSlots(r))
  {
    hide DeclsOk, OwnCell, Table, Search, CellOff, FrameSlots;
    forall x, i | OwnCell(r, x, i)
      ensures Search(Table(r), x).Some? && Search(Table(r), x).value.off - 4 * i == CellOff(r, x, i)
      ensures var o := CellOff(r, x, i); -4 * FrameSlots(r) <= o <= -4 || 8 <= o < 8 + 4 * |r.params|
    {
      CellInTable(r, x, i);
    }
    forall x, i, y, j | OwnCell(r, x, i) && OwnCell(r, y, j) && (x != y || i != j)
      ensures CellOff(r, x, i) != CellOff(r, y, j)
    {
      OwnCellsApart(r, x, i, y, j);
    }
  }

  // ---- joining code ----

  lemma Join3<T>(o: seq<T>, a: seq<T>, b: seq<T>)
    ensures o + a + b == o + (a + b)
  {
  }

  lemma Join4<T>(o: seq<T>, a: seq<T>, b: seq<T>, c: seq<T>)
    ensures o + a + b + c == o + (a + (b + c))
  {
  }

  class Cg {
    const P: Program
    var out: seq<Instr>
    var lblCount: nat
    var strIdx: nat
    var table: seq<Entry>
    var inRoutine: bool
    ghost var sc: Scope

    /** The table is that of the routine being emitted, if any. */
    ghost predicate Valid()
      reads this
    {
      if inRoutine then sc.Some? && table == Table(sc.value) else sc.None?
    }

    constructor (program: Program)
      ensures Valid() && P == program && out == [] && lblCount == 0 && strIdx == 0 && sc == None
    {
      P, out, lblCount, strIdx, table, inRoutine := program, [], 0, 0, [], false;
      sc := None;
    }

    method Resolved(x: string) returns (e: Option<Ent>)
      requires Valid()
      ensures e == Resolve(sc, x)
    {
      if !inRoutine { return None; }
      SearchResolves(sc.value, x);
      var i := 0;
      while i < |table|
        invariant 0 <= i <= |table|
        invariant forall j :: 0 <= j < i ==> table[j].name != x
      {
        if table[i].name == x {
          SearchFrom(table, x, i);
          return Some(table[i].ent);
        }
        i := i + 1;
      }
      SearchFrom(table, x, i);
      return None;
    }

    method Emit(code: seq<Instr>)
      requires Valid()
      modifies this`out
      ensures out == old(out) + code
    {
      out := out + code;
    }

    /** The address of a variable's first dword. */
    method GenBaseAddr(x: string)
      requires Valid()
      modifies this`out
      ensures out == old(out) + GenBase(sc, x)
    {
      var e := Resolved(x);
      if e.None? {
        Emit([AddrOf(x)]);
      } else if e.value.kind == VarParam {
        Emit([Load(EAX, EBP, e.value.off)]);
      } else {
        Emit([Lea(EAX, e.value.off)]);
      }
    }

    method GenElemAddr(x: string, idx: Expr)
      requires Valid()
      modifies this`out
      ensures out == old(out) + GenElem(P, sc, x, idx)
      decreases SizeE(idx), 1
    {
      var e := Resolved(x);
      if e.Some? {
        if e.value.kind == OwnSlot && e.value.shape.Arr? {
          GenExpr(idx);
          Emit(ScaleIndex(e.value.shape.lo, e.value.shape.elem) + [Lea(EAX, e.value.off), Op(ASub, EAX, EDX)]);
          Join3(old(out), GenE(P, sc, idx), ScaleIndex(e.value.shape.lo, e.value.shape.elem)
            + [Lea(EAX, e.value.off), Op(ASub, EAX, EDX)]);
        } else {
          Emit([Ice]);
        }
      } else {
        var g := FindVar(P.globals, x);
        if g.Some? && g.value.Arr? {
          GenExpr(idx);
          Emit(ScaleIndex(g.value.lo, g.value.elem) + [AddrOf(x), Op(AAdd, EAX, EDX)]);
          Join3(old(out), GenE(P, sc, idx), ScaleIndex(g.value.lo, g.value.elem) + [AddrOf(x), Op(AAdd, EAX, EDX)]);
        } else {
          Emit([Ice]);
        }
      }
    }

    method GenAddress(p: Place)
      requires Valid()
      modifies this`out
      ensures out == old(out) + GenAddr(P, sc, p)
      decreases SizeP(p), 0
    {
      match p {
        case Name(x) => GenBaseAddr(x);
        case Field(x, k) =>
          var e := Resolved(x);
          GenBaseAddr(x);
          var down := e.Some? && e.value.kind != VarParam;
          Emit(GenFieldOffset(down, k));
          Join3(old(out), GenBase(sc, x), GenFieldOffset(down, k));
        case At(x, idx) => GenElemAddr(x, idx);
        case AtField(x, idx, k) =>
          GenElemAddr(x, idx);
          Emit(GenFieldOffset(false, k));
          Join3(old(out), GenElem(P, sc, x, idx), GenFieldOffset(false, k));
      }
    }

    method GenReadVar(x: string)
      requires Valid()
      modifies this`out
      ensures out == old(out) + GenReadName(sc, x)
    {
      var e := Resolved(x);
      if e.None? {
        Emit([LoadG(x)]);
      } else if e.value.kind == VarParam {
        Emit([Load(EAX, EBP, e.value.off), Load(EAX, EAX, 0)]);
      } else {
        Emit([Load(EAX, EBP, e.value.off)]);
      }
    }

    method GenWriteVar(x: string)
      requires Valid()
      modifies this`out
      ensures out == old(out) + GenWriteName(sc, x)
    {
      var e := Resolved(x);
      if e.None? {
        Emit([StoreG(x)]);
      } else if e.value.kind == VarParam {
        Emit([Load(EDX, EBP, e.value.off), Save(EDX, 0, EAX)]);
      } else {
        Emit([Save(EBP, e.value.off, EAX)]);
      }
    }

    method GenExpr(e: Expr)
      requires Valid()
      modifies this`out
      ensures out == old(out) + GenE(P, sc, e)
      decreases SizeE(e), 0
    {
      match e {
        case IntLit(n) => Emit([MovI(EAX, I(n))]);
        case BoolLit(b) => Emit([MovI(EAX, I(if b then 1 else 0))]);
        case CharLit(c) => Emit([MovI(EAX, I(c % 256))]);
        case Read(p) =>
          if p.Name? {
            GenReadVar(p.x);
          } else {
            GenAddress(p);
            Emit([Load(EAX, EAX, 0)]);
            Join3(old(out), GenAddr(P, sc, p), [Load(EAX, EAX, 0)]);
          }
        case Binop(op, l, r) => GenBinop(op, l, r);
        case Unop(op, e1) =>
          GenExpr(e1);
          Emit(GenUn(op));
          Join3(old(out), GenE(P, sc, e1), GenUn(op));
        case Call(f, args) => GenCallTo(f, args);
      }
    }

    method GenBinop(op: BinOp, l: Expr, r: Expr)
      requires Valid()
      modifies this`out
      ensures out == old(out) + GenE(P, sc, Binop(op, l, r))
      decreases SizeE(l) + SizeE(r), 1
    {
      hide Combine;
      GenExpr(l);
      Emit([Push(EAX)]);
      ghost var mid := out;
      GenExpr(r);
      Emit([MovRR(ECX, EAX), Pull(EAX)]);
      Emit(Combine(op));
      Join4(mid, GenE(P, sc, r), [MovRR(ECX, EAX), Pull(EAX)], Combine(op));
      Join4(old(out), GenE(P, sc, l), [Push(EAX)], GenE(P, sc, r) + ([MovRR(ECX, EAX), Pull(EAX)] + Combine(op)));
    }

    /** Arguments last to first, each pushed; the call; the caller's clean-up. */
    method GenCallTo(f: string, args: Exprs)
      requires Valid()
      modifies this`out
      ensures out == old(out) + GenCall(P, sc, f, args)
      decreases SizeA(args), 1
    {
      hide GenE, GenAddr;
      var ro := FindRoutine(P.routines, f);
      if ro.None? || Length(args) != |ro.value.params| {
        Emit([Ice]);
        return;
      }
      var ps := ro.value.params;
      var i := |ps|;
      assert From(args, i).Nil? && ps[i..] == [];
      while i > 0
        invariant 0 <= i <= |ps| == Length(args)
        invariant out == old(out) + GenArgs(P, sc, From(args, i), ps[i..])
      {
        i := i - 1;
        FromStep(args, i);
        ghost var mid := out;
        var e := From(args, i).hd;
        assert SizeE(e) < SizeA(args);
        if ps[i].isVar {
          if e.Read? { GenAddress(e.p); } else { Emit([Ice]); }
        } else {
          GenExpr(e);
        }
        Emit([Push(EAX)]);
        assert ps[i..][1..] == ps[i + 1..] && ps[i..][0] == ps[i];
        Join3(mid, GenArg(P, sc, e, ps[i]), [Push(EAX)]);
        Join3(old(out), GenArgs(P, sc, From(args, i + 1), ps[i + 1..]), GenArg(P, sc, e, ps[i]) + [Push(EAX)]);
      }
      assert From(args, 0) == args && ps[0..] == ps;
      Emit([CallP(f)]);
      if |ps| > 0 { Emit([OpI(AAdd, ESP, 4 * |ps|)]); }
      Join4(old(out), GenArgs(P, sc, args, ps), [CallP(f)], CleanUp(|ps|));
    }

    /** Statements also move the two counters. */
    method GenStmt(s: Stmt)
      requires Valid()
      modifies this`out, this`lblCount, this`strIdx
      ensures out == old(out) + GenS(P, sc, s, old(lblCount), old(strIdx))
      ensures lblCount == old(lblCount) + Labels(s) && strIdx == old(strIdx) + |Literals(s)|
      decreases s, 1
    {
      hide GenE, GenAddr, GenCall;
      match s {
        case Skip =>
        case Seq(s1, s2) =>
          GenStmt(s1);
          ghost var n, k := lblCount, strIdx;
          GenStmt(s2);
          Join3(old(out), GenS(P, sc, s1, old(lblCount), old(strIdx)), GenS(P, sc, s2, n, k));
        case Assign(p, e) => GenAssign(p, e);
        case CopyField(dst, src) => GenCopy(dst, src);
        case If(c, t) => GenIf(c, t);
        case IfElse(c, t, e) => GenIfElse(c, t, e);
        case While(c, b) => GenWhile(c, b);
        case CallStmt(f, args) => GenCallTo(f, args);
        case WriteLit(_) =>
          Emit([MovI(EAX, T(strIdx)), CallH(Puts)]);
          strIdx := strIdx + 1;
        case WriteVal(ty, e) => GenWriteOf(ty, e);
        case WriteLn => Emit([MovAL(10), CallH(Putc)]);
      }
    }

    /** A written value; only a boolean needs labels. */
    method GenWriteOf(ty: Ty, e: Expr)
      requires Valid()
      modifies this`out, this`lblCount
      ensures out == old(out) + GenS(P, sc, WriteVal(ty, e), old(lblCount), strIdx)
      ensures lblCount == old(lblCount) + Labels(WriteVal(ty, e))
    {
      hide GenE, GenWrite;
      GenExpr(e);
      var n := lblCount;
      if ty == TBool { lblCount := lblCount + 1; }
      Emit(GenWrite(ty, n));
      Join3(old(out), GenE(P, sc, e), GenWrite(ty, n));
    }

    method GenAssign(p: Place, e: Expr)
      requires Valid()
      modifies this`out
      ensures out == old(out) + GenS(P, sc, Assign(p, e), lblCount, strIdx)
    {
      if p.Name? {
        GenExpr(e);
        GenWriteVar(p.x);
        Join3(old(out), GenE(P, sc, e), GenWriteName(sc, p.x));
      } else {
        GenAddress(p);
        Emit([Push(EAX)]);
        ghost var mid := out;
        GenExpr(e);
        Emit([Pull(EDX), Save(EDX, 0, EAX)]);
        Join3(mid, GenE(P, sc, e), [Pull(EDX), Save(EDX, 0, EAX)]);
        Join4(old(out), GenAddr(P, sc, p), [Push(EAX)], GenE(P, sc, e) + [Pull(EDX), Save(EDX, 0, EAX)]);
      }
    }

    method GenCopy(dst: Place, src: Place)
      requires Valid()
      modifies this`out
      ensures out == old(out) + GenS(P, sc, CopyField(dst, src), lblCount, strIdx)
    {
      hide GenAddr;
      GenAddress(src);
      Emit([Load(EAX, EAX, 0), Push(EAX)]);
      ghost var mid := out;
      GenAddress(dst);
      Emit([Pull(ECX), Save(EAX, 0, ECX)]);
      Join3(mid, GenAddr(P, sc, dst), [Pull(ECX), Save(EAX, 0, ECX)]);
      Join4(old(out), GenAddr(P, sc, src), [Load(EAX, EAX, 0), Push(EAX)], GenAddr(P, sc, dst)
        + [Pull(ECX), Save(EAX, 0, ECX)]);
    }

    method GenIf(c: Expr, t: Stmt)
      requires Valid()
      modifies this`out, this`lblCount, this`strIdx
      ensures out == old(out) + GenS(P, sc, If(c, t), old(lblCount), old(strIdx))
      ensures lblCount == old(lblCount) + Labels(If(c, t)) && strIdx == old(strIdx) + |Literals(If(c, t))|
      decreases If(c, t), 0
    {
      hide GenE, GenS, Labels, Literals;
      GenIfIs(P, sc, c, t, lblCount, strIdx);
      var n := lblCount;
      lblCount := lblCount + 1;
      ghost var k := strIdx;
      GenExpr(c);
      Emit([TestEAX, Jz(LEndif(n))]);
      ghost var mid := out;
      GenStmt(t);
      Emit([Lbl(LEndif(n))]);
      ghost var tc := GenS(P, sc, t, n + 1, k);
      Join3(mid, tc, [Lbl(LEndif(n))]);
      Join4(old(out), GenE(P, sc, c), [TestEAX, Jz(LEndif(n))], tc + [Lbl(LEndif(n))]);
    }

    method GenIfElse(c: Expr, t: Stmt, e: Stmt)
      requires Valid()
      modifies this`out, this`lblCount, this`strIdx
      ensures out == old(out) + GenS(P, sc, IfElse(c, t, e), old(lblCount), old(strIdx))
      ensures lblCount == old(lblCount) + Labels(IfElse(c, t, e)) && strIdx == old(strIdx) + |Literals(IfElse(c, t, e))|
      decreases IfElse(c, t, e), 0
    {
      hide GenE, GenS, Labels, Literals;
      GenIfElseIs(P, sc, c, t, e, lblCount, strIdx);
      var n := lblCount;
      lblCount := lblCount + 1;
      ghost var k := strIdx;
      GenExpr(c);
      Emit([TestEAX, Jz(LElse(n))]);
      ghost var mid := out;
      GenStmt(t);
      ghost var tc := GenS(P, sc, t, n + 1, k);
      Emit([Jmp(LEndif(n)), Lbl(LElse(n))]);
      ghost var mid2 := out;
      GenStmt(e);
      ghost var ec := GenS(P, sc, e, n + 1 + Labels(t), k + |Literals(t)|);
      Emit([Lbl(LEndif(n))]);
      Join3(mid2, ec, [Lbl(LEndif(n))]);
      Join4(mid, tc, [Jmp(LEndif(n)), Lbl(LElse(n))], ec + [Lbl(LEndif(n))]);
      Join4(old(out), GenE(P, sc, c), [TestEAX, Jz(LElse(n))], tc
        + ([Jmp(LEndif(n)), Lbl(LElse(n))] + (ec + [Lbl(LEndif(n))])));
    }

    method GenWhile(c: Expr, b: Stmt)
      requires Valid()
      modifies this`out, this`lblCount, this`strIdx
      ensures out == old(out) + GenS(P, sc, While(c, b), old(lblCount), old(strIdx))
      ensures lblCount == old(lblCount) + Labels(While(c, b)) && strIdx == old(strIdx) + |Literals(While(c, b))|
      decreases While(c, b), 0
    {
      hide GenE, GenS, Labels, Literals;
      GenWhileIs(P, sc, c, b, lblCount, strIdx);
      var n := lblCount;
      lblCount := lblCount + 1;
      ghost var k := strIdx;
      Emit([Lbl(LWhileTop(n))]);
      GenExpr(c);
      Emit([TestEAX, Jz(LWhileEnd(n))]);
      ghost var mid := out;
      GenStmt(b);
      Emit([Jmp(LWhileTop(n)), Lbl(LWhileEnd(n))]);
      ghost var bc := GenS(P, sc, b, n + 1, k);
      ghost var tail := bc + [Jmp(LWhileTop(n)), Lbl(LWhileEnd(n))];
      Join3(mid, bc, [Jmp(LWhileTop(n)), Lbl(LWhileEnd(n))]);
      Join4(old(out) + [Lbl(LWhileTop(n))], GenE(P, sc, c), [TestEAX, Jz(LWhileEnd(n))], tail);
      Join3(old(out), [Lbl(LWhileTop(n))], GenE(P, sc, c) + ([TestEAX, Jz(LWhileEnd(n))] + tail));
    }

    method PushParams(r: Routine)
      modifies this`table
      ensures table == ParamTable(r.params, 0)
    {
      table := [];
      var i := 0;
      while i < |r.params|
        invariant 0 <= i <= |r.params|
        invariant table + ParamTable(r.params[i..], i) == ParamTable(r.params, 0)
      {
        var p := r.params[i];
        assert r.params[i..][1..] == r.params[i + 1..];
        table := table + [Entry(p.name, Ent(if p.isVar then VarParam else ValParam, ParamOffset(i), One(p.elem)))];
        i := i + 1;
      }
      assert r.params[i..] == [];
    }

    method PushLocals(ds: seq<VarDecl>, first: nat) returns (slots: nat)
      modifies this`table
      ensures table == old(table) + LocalTable(ds, first) && slots == first + CellSum(ds)
    {
      slots := first;
      var i := 0;
      while i < |ds|
        invariant 0 <= i <= |ds|
        invariant table + LocalTable(ds[i..], slots) == old(table) + LocalTable(ds, first)
        invariant slots + CellSum(ds[i..]) == first + CellSum(ds)
      {
        var d := ds[i];
        assert ds[i..][1..] == ds[i + 1..];
        table := table + [Entry(d.name, Ent(OwnSlot, SlotOffset(slots), d.shape))];
        slots := slots + Cells(d.shape);
        i := i + 1;
      }
      assert ds[i..] == [];
    }

    /** Fills the table: parameters at their positive offsets, then the result and the locals downward. The
        table resolves every name as the scope does, and no two cells in it share an address. */
    method BuildScope(r: Routine) returns (slots: nat)
      modifies this`table
      ensures table == Table(r) && slots == FrameSlots(r)
      ensures forall x :: Search(table, x) == Resolve(Some(r), x)
      ensures DeclsOk(r) ==> Separates(table, r, slots)
    {
      PushParams(r);
      slots := 0;
      if r.result.Some? {
        table := table + [Entry(r.name, Ent(OwnSlot, SlotOffset(slots), One(Scalar(r.result.value))))];
        slots := slots + 1;
      }
      assert table == ParamTable(r.params, 0) + ResultTable(r);
      slots := PushLocals(r.locals, slots);
      forall x
        ensures Search(table, x) == Resolve(Some(r), x)
      {
        SearchResolves(r, x);
      }
      if DeclsOk(r) { TableSeparates(r); }
    }

    method EmitRoutine(r: Routine)
      requires Valid() && sc == None
      modifies this
      ensures Valid() && sc == None
      ensures out == old(out) + GenRoutine(P, r, old(lblCount), old(strIdx))
      ensures lblCount == old(lblCount) + Labels(r.body) && strIdx == old(strIdx) + |Literals(r.body)|
    {
      var slots := BuildScope(r);
      inRoutine := true;
      sc := Some(r);
      Emit([Lbl(LProc(r.name))]);
      Emit(Prologue(slots));
      ghost var mid := out;
      GenStmt(r.body);
      ghost var body := GenS(P, Some(r), r.body, old(lblCount), old(strIdx));
      inRoutine := false;
      sc := None;
      Emit(Epilogue(r));
      Join3(mid, body, Epilogue(r));
      Join4(old(out), [Lbl(LProc(r.name))], Prologue(slots), body + Epilogue(r));
    }

    /** All routines in source order, then the main block: the code of the compiled image. */
    method EmitProgram()
      requires Valid() && sc == None && out == [] && lblCount == 0 && strIdx == 0
      modifies this
      ensures out == Compile(P).code
    {
      hide GenS, GenRoutines, RoutineLabels, RoutineLiterals;
      assert P.routines[0..] == P.routines;
      var i := 0;
      while i < |P.routines|
        invariant 0 <= i <= |P.routines| && Valid() && sc == None
        invariant out + GenRoutines(P, P.routines[i..], lblCount, strIdx) == GenRoutines(P, P.routines, 0, 0)
        invariant lblCount + RoutineLabels(P.routines[i..]) == RoutineLabels(P.routines)
        invariant strIdx + |RoutineLiterals(P.routines[i..])| == |RoutineLiterals(P.routines)|
      {
        assert P.routines[i..][1..] == P.routines[i + 1..];
        ghost var n, k, before := lblCount, strIdx, out;
        EmitRoutine(P.routines[i]);
        GenRoutinesIs(P, P.routines[i..], n, k);
        Join3(before, GenRoutine(P, P.routines[i], n, k), GenRoutines(P, P.routines[i + 1..], lblCount, strIdx));
        i := i + 1;
      }
      assert P.routines[i..] == [];
      NoRoutines(P, lblCount, strIdx);
      ghost var n, k, routines := lblCount, strIdx, out;
      Emit([Lbl(LMain)]);
      Emit(Prologue(0));
      ghost var mid := out;
      GenStmt(P.main);
      Emit([Leave, Ret]);
      Join3(mid, GenS(P, None, P.main, n, k), [Leave, Ret]);
      Join4(routines, [Lbl(LMain)], Prologue(0), GenS(P, None, P.main, n, k) + [Leave, Ret]);
    }
  }
}
