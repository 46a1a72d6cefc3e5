/** Effects of the fixed instruction sequences the generator emits around subexpressions. */
module Instructions {
  import opened Int32
  import opened Syntax
  import opened Semantics
  import opened Machine
  import opened Codegen
  import opened Layout
  import opened Simulation

  predicate Goes(s: State, s': State) { s'.status == Running && s'.pc == s.pc + 1 }

  lemma Steps2(img: Image, s: State, pc: int, c: seq<Instr>, i: nat)
    requires Sits(img.code, pc, c) && i + 1 < |c| && s.pc == pc + i && s.status == Running
    requires Goes(s, Exec(img, c[i], s))
    ensures Run(img, s, 2) == Exec(img, c[i + 1], Exec(img, c[i], s))
  {
    var s1 := Exec(img, c[i], s);
    StepAt(img, s, pc, c, i);
    StepAt(img, s1, pc, c, i + 1);
    Chain(img, s, 1, s1, 1, Exec(img, c[i + 1], s1));
  }

  lemma Steps3(img: Image, s: State, pc: int, c: seq<Instr>, i: nat)
    requires Sits(img.code, pc, c) && i + 2 < |c| && s.pc == pc + i && s.status == Running
    requires Goes(s, Exec(img, c[i], s))
    requires var s1 := Exec(img, c[i], s); Goes(s1, Exec(img, c[i + 1], s1))
    ensures Run(img, s, 3) == Exec(img, c[i + 2], Exec(img, c[i + 1], Exec(img, c[i], s)))
  {
    var s1 := Exec(img, c[i], s);
    var s2 := Exec(img, c[i + 1], s1);
    Steps2(img, s, pc, c, i);
    StepAt(img, s2, pc, c, i + 2);
    Chain(img, s, 2, s2, 1, Exec(img, c[i + 2], s2));
  }

  // ---- names ----

  /** The source lookup and the generator's scope agree on what a name is. */
  lemma LookupEnt(c: Ctx, x: string)
    requires CtxOk(c) && Lookup(c.P, c.env, x).Some?
    ensures var t := Lookup(c.P, c.env, x).value;
            match Resolve(ScopeOf(c.env), x)
            case Some(Ent(VarParam, off, sh)) =>
              && c.acts != [] && x in RefNames(c.env.r) && x in c.env.refs
              && t == Target(c.env.refs[x], sh) && sh.One?
              && off == CellOff(c.env.r, x, 0)
            case Some(Ent(_, off, sh)) =>
              && c.acts != [] && t == Target(Local(|c.acts|, x, 0), sh) && off == CellOff(c.env.r, x, 0)
              && FindDecl(c.env.r, x) == Some(Decl(false, sh))
              && (forall i :: 0 <= i < Cells(sh) ==> OwnCell(c.env.r, x, i))
            case None => FindVar(c.P.globals, x).Some? && t == Target(Glob(x, 0), FindVar(c.P.globals, x).value)
  {
    if c.env.In? {
      EntOf(c.env.r, x);
      RefNameIs(c.env.r, x);
    }
  }

  /** A name's whole extent is valid. */
  lemma TargetValid(c: Ctx, m: Mem, x: string, i: int)
    requires CtxOk(c) && RefsOk(c.P, c.acts, m) && Lookup(c.P, c.env, x).Some?
    requires 0 <= i < Cells(Lookup(c.P, c.env, x).value.shape)
    ensures Valid(c.P, c.acts, Shift(Lookup(c.P, c.env, x).value.base, i))
  {
    LookupEnt(c, x);
    var n := |c.acts|;
    match Resolve(ScopeOf(c.env), x)
    case Some(Ent(VarParam, off, sh)) =>
      RefNameIs(c.env.r, x);
      var a := c.acts[n - 1];
      assert RefOk(c.P, c.acts[..n - 1], a.refs[x], FindDecl(a.r, x).value.shape.elem);
      assert Valid(c.P, c.acts[..n - 1], Shift(a.refs[x], i));
      AddrPrefix(c.P, c.acts[..n - 1], a, Shift(a.refs[x], i));
      assert c.acts[..n - 1] + [a] == c.acts;
    case Some(Ent(_, off, sh)) =>
      assert OwnCell(c.env.r, x, i);
    case None =>
  }

  lemma {:induction false} FindVarIn(ds: seq<VarDecl>, x: string) returns (i: nat)
    requires FindVar(ds, x).Some?
    ensures i < |ds| && ds[i].shape == FindVar(ds, x).value
  {
    if ds[0].name == x {
      i := 0;
    } else {
      i := FindVarIn(ds[1..], x);
      i := i + 1;
    }
  }

  /** A name denotes at least one cell. */
  lemma BaseValid(c: Ctx, m: Mem, x: string)
    requires CtxOk(c) && RefsOk(c.P, c.acts, m) && Lookup(c.P, c.env, x).Some?
    ensures Valid(c.P, c.acts, Lookup(c.P, c.env, x).value.base)
    ensures ShapeOk(Lookup(c.P, c.env, x).value.shape)
  {
    var t := Lookup(c.P, c.env, x).value;
    LookupShape(c, x);
    assert Cells(t.shape) >= 1 by {
      if t.shape.Arr? { MulAtLeast(Words(t.shape.elem), t.shape.hi - t.shape.lo + 1); }
    }
    TargetValid(c, m, x, 0);
    assert Shift(t.base, 0) == t.base;
  }

  lemma LookupShape(c: Ctx, x: string)
    requires CtxOk(c) && Lookup(c.P, c.env, x).Some?
    ensures ShapeOk(Lookup(c.P, c.env, x).value.shape)
  {
    if c.env.In? && FindDecl(c.env.r, x).Some? {
      if FindParam(c.env.r.params, x).None? && FindVar(c.env.r.locals, x).Some? {
        var i := FindVarIn(c.env.r.locals, x);
      }
    } else {
      var i := FindVarIn(c.P.globals, x);
    }
  }

  lemma RefEntry(P: Program, acts: Acts, m: Mem, x: string)
    requires acts != [] && RefsOk(P, acts, m) && x in RefNames(acts[|acts| - 1].r)
    ensures var a := acts[|acts| - 1];
            var p := a.ebp + CellOff(a.r, x, 0);
            && x in a.refs && Valid(P, acts[..|acts| - 1], a.refs[x])
            && p in m && m[p] == A(Addr(P, acts[..|acts| - 1], a.refs[x]))
  {
    var a := acts[|acts| - 1];
    hide CellOff, Addr, RefNames, FindDecl;
    assert RefOk(P, acts[..|acts| - 1], a.refs[x], FindDecl(a.r, x).value.shape.elem);
    assert Valid(P, acts[..|acts| - 1], Shift(a.refs[x], 0));
    assert Shift(a.refs[x], 0) == a.refs[x];
  }

  /** The address a `var` parameter's slot holds, seen from the current frame. */
  lemma RefAddr(c: Ctx, m: Mem, x: string)
    requires CtxOk(c) && c.acts != [] && RefsOk(c.P, c.acts, m) && x in RefNames(c.env.r)
    ensures var p := Ebp(c.acts) + CellOff(c.env.r, x, 0);
            && p % 4 == 0 && p in m && x in c.env.refs
            && m[p] == A(Addr(c.P, c.acts, c.env.refs[x]))
  {
    var n := |c.acts|;
    var a := c.acts[n - 1];
    hide RefsOk, Valid, Addr, FindDecl, Resolve, CellOff, ActsOk, RefNames, ProgramOk, Linked;
    RefEntry(c.P, c.acts, m, x);
    AddrPrefix(c.P, c.acts[..n - 1], a, a.refs[x]);
    assert c.acts[..n - 1] + [a] == c.acts;
    ActsOrdered(c.P, c.acts, n);
    RefSlotAligned(a.r, x);
  }

  lemma RefSlotAligned(r: Routine, x: string)
    requires x in RefNames(r)
    ensures CellOff(r, x, 0) % 4 == 0
  {
    RefNameIs(r, x);
    EntOf(r, x);
  }

  lemma OwnAddr(c: Ctx, x: string)
    requires CtxOk(c) && c.acts != []
    ensures Addr(c.P, c.acts, Local(|c.acts|, x, 0)) == Ebp(c.acts) + CellOff(c.env.r, x, 0)
  {
  }

  lemma GlobAddr(c: Ctx, x: string)
    requires CtxOk(c) && FindVar(c.P.globals, x).Some?
    ensures x in c.img.gaddr && c.img.gaddr[x] == Addr(c.P, c.acts, Glob(x, 0)) && c.img.gaddr[x] % 4 == 0
  {
    GlobalAddrsOf(c.P.globals, 0, x);
  }

  // ---- staying in step ----

  /** Registers, flags and program counter aside, nothing changed. */
  predicate SameBut(s: State, s': State) {
    s'.mem == s.mem && s'.esp == s.esp && s'.ebp == s.ebp && s'.out == s.out && s'.status == s.status
  }

  lemma Stay(c: Ctx, st: St, s: State, s': State, len: int)
    requires Sim(c, st, s) && SameBut(s, s') && s'.pc == s.pc + len
    ensures Follows(c, s, st, s', len)
  {
  }

  lemma SimFacts(c: Ctx, st: St, s: State)
    requires Sim(c, st, s)
    ensures s.status == Running && s.ebp == A(Ebp(c.acts)) && s.esp.A? && s.esp.a % 4 == 0 && s.esp.a <= Lo(c.acts)
    ensures RefsOk(c.P, c.acts, s.mem) && s.out == st.out
  {
  }

  lemma SimCell(c: Ctx, st: St, s: State, l: Loc)
    requires CtxOk(c) && Sim(c, st, s) && l in st.store
    ensures Valid(c.P, c.acts, l) && ValOk(st.store[l]) && Addr(c.P, c.acts, l) % 4 == 0
    ensures Addr(c.P, c.acts, l) in s.mem && s.mem[Addr(c.P, c.acts, l)] == I(Enc(st.store[l]))
  {
    AddrBounds(c.P, c.acts, l);
  }

  /** Storing a source value at a cell's address. */
  lemma Stored(c: Ctx, st: St, s: State, s': State, l: Loc, v: Value, len: int)
    requires CtxOk(c) && Sim(c, st, s) && Valid(c.P, c.acts, l) && ValOk(v)
    requires SameBut(s.(mem := s.mem[Addr(c.P, c.acts, l) := I(Enc(v))]), s') && s'.pc == s.pc + len
    ensures Follows(c, s, st.(store := st.store[l := v]), s', len)
  {
    StoreCell(c.P, c.acts, st.store, s.mem, l, v, s.esp.a);
  }

  /** The generator's operand for a name leads to address `a` in state `s`. */
  predicate Leads(img: Image, s: State, e: Option<Ent>, x: string, a: int) {
    && a % 4 == 0
    && match e
       case Some(Ent(VarParam, off, _)) =>
         s.ebp.A? && (s.ebp.a + off) % 4 == 0 && s.ebp.a + off in s.mem && s.mem[s.ebp.a + off] == A(a)
       case Some(Ent(_, off, _)) => s.ebp == A(a - off)
       case None => x in img.gaddr && img.gaddr[x] == a
  }

  /** Where a name's first cell is, in terms of the operand the generator uses. */
  lemma CtxActs(c: Ctx)
    requires CtxOk(c)
    ensures ActsOk(c.P, c.acts) && (c.acts != [] ==> c.env.In?)
  {
  }

  lemma Located(c: Ctx, st: St, s: State, x: string)
    requires CtxOk(c) && Sim(c, st, s) && Lookup(c.P, c.env, x).Some?
    ensures Leads(c.img, s, Resolve(ScopeOf(c.env), x), x, Addr(c.P, c.acts, Lookup(c.P, c.env, x).value.base))
  {
    hide Sim, RefsOk, CtxOk, RefNames, CellOff, FindDecl, FindVar, Addr, Lookup, ActsOk, Valid, Resolve;
    CtxActs(c);
    LookupEnt(c, x);
    SimFacts(c, st, s);
    BaseValid(c, s.mem, x);
    AddrBounds(c.P, c.acts, Lookup(c.P, c.env, x).value.base);
    match Resolve(ScopeOf(c.env), x)
    case Some(Ent(VarParam, off, _)) => RefAddr(c, s.mem, x);
    case Some(Ent(_, off, _)) => OwnAddr(c, x);
    case None => GlobAddr(c, x);
  }

  lemma BaseExec(img: Image, s: State, sc: Scope, x: string, a: int)
    requires Sits(img.code, s.pc, GenBase(sc, x)) && s.status == Running && Leads(img, s, Resolve(sc, x), x, a)
    ensures var s' := Run(img, s, 1); SameBut(s, s') && s'.pc == s.pc + 1 && s'.eax == A(a) && |GenBase(sc, x)| == 1
  {
    hide Sits, Run, Resolve;
    StepAt(img, s, s.pc, GenBase(sc, x), 0);
  }

  lemma ReadExec(img: Image, s: State, sc: Scope, x: string, a: int)
    requires Sits(img.code, s.pc, GenReadName(sc, x)) && s.status == Running && Leads(img, s, Resolve(sc, x), x, a)
    requires a in s.mem
    ensures var s' := Run(img, s, |GenReadName(sc, x)|);
            SameBut(s, s') && s'.pc == s.pc + |GenReadName(sc, x)| && s'.eax == s.mem[a]
  {
    hide Sits, Run, Resolve;
    var code := GenReadName(sc, x);
    if |code| == 2 {
      Steps2(img, s, s.pc, code, 0);
    } else {
      StepAt(img, s, s.pc, code, 0);
    }
  }

  lemma {:induction false} WriteExec(img: Image, s: State, sc: Scope, x: string, a: int)
    requires Sits(img.code, s.pc, GenWriteName(sc, x)) && s.status == Running && Leads(img, s, Resolve(sc, x), x, a)
    ensures var s' := Run(img, s, |GenWriteName(sc, x)|);
            SameBut(s.(mem := s.mem[a := s.eax]), s') && s'.pc == s.pc + |GenWriteName(sc, x)|
  {
    hide Sits, Run, Resolve;
    var code := GenWriteName(sc, x);
    if |code| == 2 {
      Steps2(img, s, s.pc, code, 0);
    } else {
      StepAt(img, s, s.pc, code, 0);
    }
  }

  /** Loading a variable's address. */
  lemma BaseRuns(c: Ctx, st: St, s: State, x: string) returns (n: nat, s': State)
    requires CtxOk(c) && Sim(c, st, s) && Sits(c.img.code, s.pc, GenBase(ScopeOf(c.env), x))
    requires Lookup(c.P, c.env, x).Some?
    ensures Run(c.img, s, n) == s' && Follows(c, s, st, s', |GenBase(ScopeOf(c.env), x)|)
    ensures s'.eax == A(Addr(c.P, c.acts, Lookup(c.P, c.env, x).value.base))
  {
    hide *;
    SimFacts(c, st, s);
    Located(c, st, s, x);
    BaseExec(c.img, s, ScopeOf(c.env), x, Addr(c.P, c.acts, Lookup(c.P, c.env, x).value.base));
    n, s' := 1, Run(c.img, s, 1);
    Stay(c, st, s, s', 1);
  }

  /** Reading a scalar variable. */
  lemma ReadRuns(c: Ctx, st: St, s: State, x: string) returns (n: nat, s': State)
    requires CtxOk(c) && Sim(c, st, s) && Sits(c.img.code, s.pc, GenReadName(ScopeOf(c.env), x))
    requires Lookup(c.P, c.env, x).Some? && Lookup(c.P, c.env, x).value.base in st.store
    ensures Run(c.img, s, n) == s' && Follows(c, s, st, s', |GenReadName(ScopeOf(c.env), x)|)
    ensures s'.eax == I(Enc(st.store[Lookup(c.P, c.env, x).value.base]))
  {
    hide *;
    var l := Lookup(c.P, c.env, x).value.base;
    SimFacts(c, st, s);
    Located(c, st, s, x);
    SimCell(c, st, s, l);
    ReadExec(c.img, s, ScopeOf(c.env), x, Addr(c.P, c.acts, l));
    n := |GenReadName(ScopeOf(c.env), x)|;
    s' := Run(c.img, s, n);
    Stay(c, st, s, s', n);
  }

  /** Writing a scalar variable. */
  lemma WriteRuns(c: Ctx, st: St, s: State, x: string, v: Value) returns (n: nat, s': State)
    requires CtxOk(c) && Sim(c, st, s) && Sits(c.img.code, s.pc, GenWriteName(ScopeOf(c.env), x))
    requires Lookup(c.P, c.env, x).Some? && s.eax == I(Enc(v)) && ValOk(v)
    requires Valid(c.P, c.acts, Lookup(c.P, c.env, x).value.base)
    ensures Run(c.img, s, n) == s'
    ensures Follows(c, s, st.(store := st.store[Lookup(c.P, c.env, x).value.base := v]), s',
            |GenWriteName(ScopeOf(c.env), x)|)
  {
    hide *;
    var l := Lookup(c.P, c.env, x).value.base;
    SimFacts(c, st, s);
    Located(c, st, s, x);
    WriteExec(c.img, s, ScopeOf(c.env), x, Addr(c.P, c.acts, l));
    n := |GenWriteName(ScopeOf(c.env), x)|;
    s' := Run(c.img, s, n);
    Stored(c, st, s, s', l, v, n);
  }

  // ---- operators ----

  /** Replacing the low byte and reading it back. */
  lemma LowByte(x: int, b: int)
    requires 0 <= b < 256
    ensures Unsigned(Wrap(Unsigned(x) - Unsigned(x) % 256 + b)) % 256 == b
  {
    hide Wrap, Unsigned;
    var u := Unsigned(x);
    var q := u / 256;
    assert u == 256 * q + u % 256;
    UnsignedWrap(256 * q + b);
    ModUnique(256 * q + b, 256, q, b);
  }

  lemma UnsignedWrap(w: int)
    requires 0 <= w < MODULUS
    ensures Unsigned(Wrap(w)) == w
  {
    assert Wrap(w) == w || Wrap(w) == w - MODULUS;
  }

  /** After `cdq`, EDX:EAX is the sign-extended dividend. */
  lemma SignExtend(x: int)
    requires IsWord(x)
    ensures (if x < 0 then -1 else 0) * MODULUS + Unsigned(x) == x
  {
  }

  lemma PlainOp(img: Image, s: State, op: BinOp, a: Value, b: Value, st: St)
    requires Sits(img.code, s.pc, Combine(op)) && s.status == Running
    requires op in {Add, Sub, Mul, AndB, OrB} && ApplyBin(op, a, b, st).Ok?
    requires s.eax == I(Enc(a)) && s.ecx == I(Enc(b))
    ensures var s' := Run(img, s, 1);
            && SameBut(s, s') && s'.pc == s.pc + 1
            && s'.eax == I(Enc(ApplyBin(op, a, b, st).val)) && ValOk(ApplyBin(op, a, b, st).val)
  {
    hide Wrap, Sits, Run, ApplyBin, AluI, ValOk, Enc;
    PlainMeaning(op, a, b, st);
    StepAt(img, s, s.pc, [Op(AluOf(op), EAX, ECX)], 0);
  }

  /** The instruction of a one-instruction operator. */
  function AluOf(op: BinOp): Alu {
    match op
    case Add => AAdd
    case Sub => ASub
    case Mul => AImul
    case AndB => AAnd
    case _ => AOr
  }

  lemma PlainMeaning(op: BinOp, a: Value, b: Value, st: St)
    requires op in {Add, Sub, Mul, AndB, OrB} && ApplyBin(op, a, b, st).Ok?
    ensures Combine(op) == [Op(AluOf(op), EAX, ECX)]
    ensures var v := ApplyBin(op, a, b, st).val; Enc(v) == AluI(AluOf(op), Enc(a), Enc(b)) && ValOk(v)
  {
    hide Wrap, And, Or, Xor, TruncDiv, TruncMod, Compare;
    if op.AndB? || op.OrB? { BoolBits(a.b, b.b); }
  }

  lemma DivOp(img: Image, s: State, x: int, y: int, isMod: bool)
    requires Sits(img.code, s.pc, Combine(if isMod then Mod else Div)) && s.status == Running
    requires IsWord(x) && IsWord(y) && s.eax == I(x) && s.ecx == I(y)
    ensures y == 0 || (x == MIN && y == -1) ==> Run(img, s, 2) == Exec(img, Cdq, s).(status := DivFault)
    ensures y != 0 && !(x == MIN && y == -1) ==>
              var s' := Run(img, s, if isMod then 3 else 2);
              && SameBut(s, s') && s'.pc == s.pc + (if isMod then 3 else 2)
              && s'.eax == I(if isMod then TruncMod(x, y) else TruncDiv(x, y))
              && IsWord(TruncDiv(x, y)) && IsWord(TruncMod(x, y))
  {
    hide TruncMod, TruncDiv, Unsigned, Sits, Run;
    SignExtend(x);
    if y != 0 { QuotientInRange(x, y); }
    var code := Combine(if isMod then Mod else Div);
    Steps2(img, s, s.pc, code, 0);
    if isMod && y != 0 && !(x == MIN && y == -1) { Steps3(img, s, s.pc, code, 0); }
  }

  /** The flags of a difference decide the relation of its operands. */
  lemma FlagsMean(op: BinOp, x: int, y: int)
    requires IsRel(op) && IsWord(x) && IsWord(y)
    ensures Machine.Holds(op, (x, y)) <==> Compare(op, x, y)
  {
    DifferenceFlags(x, y);
  }

  lemma DifferenceFlags(x: int, y: int)
    requires IsWord(x) && IsWord(y)
    ensures ZeroFlag((x, y)) <==> x == y
    ensures SignNotOverflow((x, y)) <==> x < y
  {
    var d := x - y;
    assert Wrap(d) == d || Wrap(d) == d - MODULUS || Wrap(d) == d + MODULUS;
  }

  lemma {:induction false} RelOp(img: Image, s: State, op: BinOp, x: int, y: int)
    requires IsRel(op) && Sits(img.code, s.pc, Combine(op)) && s.status == Running
    requires s.eax == I(x) && s.ecx == I(y) && IsWord(x) && IsWord(y)
    ensures var s' := Run(img, s, 3);
            SameBut(s, s') && s'.pc == s.pc + 3 && s'.eax == I(if Compare(op, x, y) then 1 else 0)
  {
    hide Wrap, Unsigned, Sits, Run, Compare, Machine.Holds;
    FlagsMean(op, x, y);
    LowByte(x, if Compare(op, x, y) then 1 else 0);
    var code := Combine(op);
    assert code == [Cmp, SetAL(op), MovzxAL];
    Steps3(img, s, s.pc, code, 0);
  }

  /** A relation on two values of one type compares their representations. */
  lemma RelMeaning(op: BinOp, a: Value, b: Value, st: St)
    requires IsRel(op) && ApplyBin(op, a, b, st).Ok?
    ensures ApplyBin(op, a, b, st) == Ok(VB(Compare(op, Enc(a), Enc(b))), st)
  {
  }

  /** The steps `Combine(op)` takes on operands `a` and `b`. */
  function CombineSteps(op: BinOp, res: Res<Value>): nat {
    if op in {Add, Sub, Mul, AndB, OrB} then 1 else if op.Div? || (op.Mod? && res.Fault?) then 2 else 3
  }

  /** The operator's instructions compute what the source operator means, faulting exactly when it does. */
  lemma CombineExec(img: Image, s: State, op: BinOp, a: Value, b: Value, st: St)
    requires Sits(img.code, s.pc, Combine(op)) && s.status == Running && s.out == st.out
    requires ValOk(a) && ValOk(b) && s.eax == I(Enc(a)) && s.ecx == I(Enc(b))
    ensures var res := ApplyBin(op, a, b, st);
            var s' := Run(img, s, CombineSteps(op, res));
            && (res.Ok? ==>
                SameBut(s, s') && s'.pc == s.pc + |Combine(op)| && s'.eax == I(Enc(res.val))
                && ValOk(res.val) && res.st == st)
            && (res.Fault? ==> s'.status == DivFault && s'.out == res.out) && !res.Timeout?
  {
    var res := ApplyBin(op, a, b, st);
    hide Sits, Run, Wrap, TruncDiv, TruncMod, Compare;
    if res.TypeErr? { return; }
    if op in {Add, Sub, Mul, AndB, OrB} {
      PlainOp(img, s, op, a, b, st);
    } else if op.Div? {
      DivOp(img, s, a.i, b.i, false);
    } else if op.Mod? {
      DivOp(img, s, a.i, b.i, true);
    } else {
      RelMeaning(op, a, b, st);
      RelOp(img, s, op, Enc(a), Enc(b));
    }
  }

  lemma CombineRuns(c: Ctx, st: St, s: State, op: BinOp, a: Value, b: Value) returns (n: nat, s': State)
    requires CtxOk(c) && Sim(c, st, s) && Sits(c.img.code, s.pc, Combine(op))
    requires ValOk(a) && ValOk(b) && s.eax == I(Enc(a)) && s.ecx == I(Enc(b))
    ensures Run(c.img, s, n) == s'
    ensures var res := ApplyBin(op, a, b, st);
            && (res.Ok? ==>
                Follows(c, s, st, s', |Combine(op)|) && s'.eax == I(Enc(res.val)) && ValOk(res.val) && res.st == st)
            && (res.Fault? ==> s'.status == DivFault && s'.out == res.out) && !res.Timeout?
  {
    hide *;
    SimFacts(c, st, s);
    CombineExec(c.img, s, op, a, b, st);
    n := CombineSteps(op, ApplyBin(op, a, b, st));
    s' := Run(c.img, s, n);
    if ApplyBin(op, a, b, st).Ok? { Stay(c, st, s, s', |Combine(op)|); }
  }

  predicate Yields(s: State, s': State, len: int, w: int) {
    SameBut(s, s') && s'.pc == s.pc + len && s'.eax == I(w)
  }

  lemma NegExec(img: Image, s: State, x: int)
    requires Sits(img.code, s.pc, [NegR(EAX)]) && s.status == Running && s.eax == I(x)
    ensures Yields(s, Run(img, s, 1), 1, Wrap(-x))
  {
    hide Sits, Run, Wrap;
    StepAt(img, s, s.pc, [NegR(EAX)], 0);
  }

  lemma NotExec(img: Image, s: State, b: bool)
    requires Sits(img.code, s.pc, [OpI(AXor, EAX, 1)]) && s.status == Running && s.eax == I(if b then 1 else 0)
    ensures Yields(s, Run(img, s, 1), 1, if b then 0 else 1)
  {
    hide Sits, Run, Wrap, Xor, And, Or;
    BoolBits(b, true);
    StepAt(img, s, s.pc, [OpI(AXor, EAX, 1)], 0);
  }

  lemma ChrExec(img: Image, s: State, x: int)
    requires Sits(img.code, s.pc, [OpI(AAnd, EAX, 0xFF)]) && s.status == Running && s.eax == I(x)
    ensures Yields(s, Run(img, s, 1), 1, Unsigned(x) % 256)
  {
    hide Sits, Run, And, Unsigned;
    MaskByte(x);
    StepAt(img, s, s.pc, [OpI(AAnd, EAX, 0xFF)], 0);
  }

  lemma UnExec(img: Image, s: State, op: UnOp, v: Value, st: St)
    requires Sits(img.code, s.pc, GenUn(op)) && s.status == Running
    requires ValOk(v) && s.eax == I(Enc(v))
    ensures var res := ApplyUn(op, v, st);
            && (res.Ok? ==>
                Yields(s, Run(img, s, |GenUn(op)|), |GenUn(op)|, Enc(res.val)) && ValOk(res.val) && res.st == st)
            && !res.Fault? && !res.Timeout?
  {
    assert Run(img, s, 0) == s;
    hide Sits, Run, Wrap, Unsigned, Exec;
    if ApplyUn(op, v, st).Ok? {
      match op
      case Ord =>
      case Neg => NegExec(img, s, v.i);
      case Not => NotExec(img, s, v.b);
      case Chr => ChrExec(img, s, v.i);
    }
  }

  lemma Yielded(c: Ctx, st: St, s: State, s': State, len: int, w: int)
    requires Sim(c, st, s) && Yields(s, s', len, w)
    ensures Follows(c, s, st, s', len) && s'.eax == I(w)
  {
    Stay(c, st, s, s', len);
  }

  lemma UnRuns(c: Ctx, st: St, s: State, op: UnOp, v: Value) returns (n: nat, s': State)
    requires CtxOk(c) && Sim(c, st, s) && Sits(c.img.code, s.pc, GenUn(op))
    requires ValOk(v) && s.eax == I(Enc(v))
    ensures Run(c.img, s, n) == s'
    ensures var res := ApplyUn(op, v, st);
            && (res.Ok? ==>
                Follows(c, s, st, s', |GenUn(op)|) && s'.eax == I(Enc(res.val)) && ValOk(res.val) && res.st == st)
            && !res.Fault? && !res.Timeout?
  {
    hide *;
    SimFacts(c, st, s);
    UnExec(c.img, s, op, v, st);
    n := |GenUn(op)|;
    s' := Run(c.img, s, n);
    if ApplyUn(op, v, st).Ok? { Yielded(c, st, s, s', n, Enc(ApplyUn(op, v, st).val)); }
  }
}
