/** Designators: the emitted address arithmetic reaches exactly the cell the source designator names. */
module Addressing {
  import opened Int32
  import opened Syntax
  import opened Semantics
  import opened Machine
  import opened Codegen
  import opened Layout
  import opened Simulation
  import opened Instructions

  // ---- composing runs ----

  lemma FollowsTrans(c: Ctx, s: State, st1: St, s1: State, len1: int, st2: St, s2: State, len2: int)
    requires Follows(c, s, st1, s1, len1) && Follows(c, s1, st2, s2, len2)
    ensures Follows(c, s, st2, s2, len1 + len2)
  {
    hide Sim, IsData;
    KeptTrans(c.P, c.acts, s.mem, s1.mem, s2.mem, s.esp.a, s.esp.a, s.esp.a);
  }

  lemma PushRuns(c: Ctx, st: St, s: State) returns (s': State)
    requires CtxOk(c) && Sim(c, st, s) && Sits(c.img.code, s.pc, [Push(EAX)])
    ensures Run(c.img, s, 1) == s' && Spilled(c, st, s, s')
  {
    s' := Exec(c.img, Push(EAX), s);
    StepAt(c.img, s, s.pc, [Push(EAX)], 0);
    PushStep(c, st, s, EAX);
  }

  /** `s'` is `s` after `push eax`. */
  ghost predicate Spilled(c: Ctx, st: St, s: State, s': State) {
    && Sim(c, st, s') && s.esp.A? && s'.esp == A(s.esp.a - 4) && s'.pc == s.pc + 1
    && s'.esp.a in s'.mem && s'.mem[s'.esp.a] == s.eax
    && Kept(c.P, c.acts, s.mem, s'.mem, s.esp.a)
  }

  /** After balanced code the spilled word is still on top, and dropping it restores the stack. */
  lemma Unspill(c: Ctx, st: St, s: State, s1: State, st': St, s2: State, len: int, s3: State)
    requires CtxOk(c) && Sim(c, st, s) && Spilled(c, st, s, s1) && Follows(c, s1, st', s2, len)
    requires SameBut(s2.(esp := s.esp), s3) && s3.pc == s2.pc + (s3.pc - s2.pc)
    ensures Sim(c, st', s3) && Kept(c.P, c.acts, s.mem, s3.mem, s.esp.a)
  {
    hide IsData, MemOk, RefsOk;
    KeptTrans(c.P, c.acts, s.mem, s1.mem, s2.mem, s.esp.a, s.esp.a, s1.esp.a);
  }

  lemma SpillTop(c: Ctx, st: St, s: State, s1: State, st': St, s2: State, len: int)
    requires CtxOk(c) && Sim(c, st, s) && Spilled(c, st, s, s1) && Follows(c, s1, st', s2, len)
    ensures s2.esp == s1.esp && s1.esp.A? && s1.esp.a % 4 == 0 && s.esp == A(s1.esp.a + 4) && s2.status == Running
    ensures s1.esp.a in s2.mem && s2.mem[s1.esp.a] == s.eax
  {
    SpillKept(c, st, s1, st', s2, len);
  }

  // ---- array elements ----

  lemma ScaleBound(j: int, n: int, w: int)
    requires 0 <= j < n && w >= 1 && 4 * (n * w) <= MAX
    ensures 0 <= j * w && j * w + w <= n * w && j < n * w + 1
    ensures IsWord(j * (4 * w)) && j * (4 * w) == 4 * (j * w) && IsWord(j)
  {
    Nonneg(j, w);
    Nonneg(n - 1 - j, w);
    Nonneg(n, w - 1);
    assert (n - 1 - j) * w == n * w - w - j * w;
    assert n * (w - 1) == n * w - n;
  }

  /** Index scaling: EDX receives the byte offset of element `i`. */
  lemma ScaleExec(img: Image, s: State, lo: int, hi: int, elem: Elem, i: int)
    requires Sits(img.code, s.pc, ScaleIndex(lo, elem)) && s.status == Running && s.eax == I(i)
    requires lo <= i <= hi && ShapeOk(Arr(lo, hi, elem))
    ensures var s' := Run(img, s, |ScaleIndex(lo, elem)|);
            && SameBut(s, s') && s'.pc == s.pc + |ScaleIndex(lo, elem)|
            && s'.edx == I(4 * ((i - lo) * Words(elem)))
  {
    hide Sits, Run, Words, Wrap, ShapeOk;
    ScaleWraps(lo, hi, elem, i);
    var code := ScaleIndex(lo, elem);
    if lo == 0 {
      Steps2(img, s, s.pc, code, 0);
    } else {
      Steps3(img, s, s.pc, code, 0);
    }
  }

  /** Scaling an index in range does not wrap. */
  lemma ScaleWraps(lo: int, hi: int, elem: Elem, i: int)
    requires lo <= i <= hi && ShapeOk(Arr(lo, hi, elem))
    ensures Wrap(i - lo) == i - lo && Wrap((i - lo) * (4 * Words(elem))) == 4 * ((i - lo) * Words(elem))
  {
    ScaleBound(i - lo, hi - lo + 1, Words(elem));
  }

  lemma LocalElemExec(img: Image, s: State, off: int, b: int, d: int)
    requires Sits(img.code, s.pc, [Lea(EAX, off), Op(ASub, EAX, EDX)]) && s.status == Running
    requires s.ebp == A(b) && s.edx == I(d)
    ensures var s' := Run(img, s, 2); SameBut(s, s') && s'.pc == s.pc + 2 && s'.eax == A(b + off - d)
  {
    hide Sits, Run;
    Steps2(img, s, s.pc, [Lea(EAX, off), Op(ASub, EAX, EDX)], 0);
  }

  lemma GlobalElemExec(img: Image, s: State, x: string, d: int)
    requires Sits(img.code, s.pc, [AddrOf(x), Op(AAdd, EAX, EDX)]) && s.status == Running
    requires x in img.gaddr && s.edx == I(d)
    ensures var s' := Run(img, s, 2); SameBut(s, s') && s'.pc == s.pc + 2 && s'.eax == A(img.gaddr[x] + d)
  {
    hide Sits, Run;
    Steps2(img, s, s.pc, [AddrOf(x), Op(AAdd, EAX, EDX)], 0);
  }

  lemma SameButTrans(s: State, s1: State, s2: State)
    requires SameBut(s, s1) && SameBut(s1, s2)
    ensures SameBut(s, s2)
  {
  }

  /** The instructions after an array index. */
  function ElemTail(P: Program, sc: Scope, x: string): seq<Instr> {
    match Resolve(sc, x)
    case Some(Ent(OwnSlot, off, Arr(lo, _, elem))) => ScaleIndex(lo, elem) + [Lea(EAX, off), Op(ASub, EAX, EDX)]
    case Some(_) => [Ice]
    case None =>
      match FindVar(P.globals, x)
      case Some(Arr(lo, _, elem)) => ScaleIndex(lo, elem) + [AddrOf(x), Op(AAdd, EAX, EDX)]
      case _ => [Ice]
  }

  lemma GenElemSplit(c: Ctx, x: string, idx: Expr)
    requires CtxOk(c) && Lookup(c.P, c.env, x).Some? && Lookup(c.P, c.env, x).value.shape.Arr?
    ensures GenElem(c.P, ScopeOf(c.env), x, idx) == GenE(c.P, ScopeOf(c.env), idx) + ElemTail(c.P, ScopeOf(c.env), x)
  {
    LookupEnt(c, x);
    if c.env.In? {
      EntOf(c.env.r, x);
    }
    hide GenE, CtxOk, Lookup, FindDecl;
  }

  /** From an index value in EAX to the element's address. */
  lemma ElemRuns(c: Ctx, st: St, s: State, x: string, i: int) returns (n: nat, s': State)
    requires CtxOk(c) && Sim(c, st, s) && Sits(c.img.code, s.pc, ElemTail(c.P, ScopeOf(c.env), x))
    requires Lookup(c.P, c.env, x).Some? && Lookup(c.P, c.env, x).value.shape.Arr? && s.eax == I(i)
    requires var sh := Lookup(c.P, c.env, x).value.shape; sh.lo <= i <= sh.hi
    ensures Run(c.img, s, n) == s' && Follows(c, s, st, s', |ElemTail(c.P, ScopeOf(c.env), x)|)
    ensures var t := Lookup(c.P, c.env, x).value;
            s'.eax == A(Addr(c.P, c.acts, Shift(t.base, (i - t.shape.lo) * Words(t.shape.elem))))
  {
    hide *;
    var t := Lookup(c.P, c.env, x).value;
    var j := (i - t.shape.lo) * Words(t.shape.elem);
    var e := Resolve(ScopeOf(c.env), x);
    ElemTailIs(c, x);
    ElemAddr(c, x, j);
    SimFacts(c, st, s);
    LookupShape(c, x);
    n := |ElemTail(c.P, ScopeOf(c.env), x)|;
    s' := Run(c.img, s, n);
    if e.Some? {
      LocalScaled(c.img, s, t.shape.lo, t.shape.hi, t.shape.elem, i, e.value.off, Ebp(c.acts));
      assert s'.eax == A(Addr(c.P, c.acts, Shift(t.base, j)));
    } else {
      GlobalScaled(c.img, s, t.shape.lo, t.shape.hi, t.shape.elem, i, x);
      assert s'.eax == A(Addr(c.P, c.acts, Shift(t.base, j)));
    }
    Stay(c, st, s, s', n);
  }

  lemma LocalScaled(img: Image, s: State, lo: int, hi: int, elem: Elem, i: int, off: int, b: int)
    requires Sits(img.code, s.pc, ScaleIndex(lo, elem) + [Lea(EAX, off), Op(ASub, EAX, EDX)])
    requires s.status == Running && s.eax == I(i) && s.ebp == A(b) && lo <= i <= hi && ShapeOk(Arr(lo, hi, elem))
    ensures var len := |ScaleIndex(lo, elem) + [Lea(EAX, off), Op(ASub, EAX, EDX)]|;
            var s' := Run(img, s, len);
            SameBut(s, s') && s'.pc == s.pc + len && s'.eax == A(b + off - 4 * ((i - lo) * Words(elem)))
  {
    var scale := ScaleIndex(lo, elem);
    hide Sits, Run, ScaleIndex, Words, ShapeOk;
    SitsSplit(img.code, s.pc, scale, [Lea(EAX, off), Op(ASub, EAX, EDX)]);
    ScaleExec(img, s, lo, hi, elem, i);
    var s1 := Run(img, s, |scale|);
    LocalElemExec(img, s1, off, b, 4 * ((i - lo) * Words(elem)));
    Chain(img, s, |scale|, s1, 2, Run(img, s1, 2));
  }

  lemma GlobalScaled(img: Image, s: State, lo: int, hi: int, elem: Elem, i: int, x: string)
    requires Sits(img.code, s.pc, ScaleIndex(lo, elem) + [AddrOf(x), Op(AAdd, EAX, EDX)])
    requires s.status == Running && s.eax == I(i) && x in img.gaddr && lo <= i <= hi && ShapeOk(Arr(lo, hi, elem))
    ensures var len := |ScaleIndex(lo, elem) + [AddrOf(x), Op(AAdd, EAX, EDX)]|;
            var s' := Run(img, s, len);
            SameBut(s, s') && s'.pc == s.pc + len && s'.eax == A(img.gaddr[x] + 4 * ((i - lo) * Words(elem)))
  {
    var scale := ScaleIndex(lo, elem);
    hide Sits, Run, ScaleIndex, Words, ShapeOk;
    SitsSplit(img.code, s.pc, scale, [AddrOf(x), Op(AAdd, EAX, EDX)]);
    ScaleExec(img, s, lo, hi, elem, i);
    var s1 := Run(img, s, |scale|);
    GlobalElemExec(img, s1, x, 4 * ((i - lo) * Words(elem)));
    Chain(img, s, |scale|, s1, 2, Run(img, s1, 2));
  }

  lemma ElemTailIs(c: Ctx, x: string)
    requires CtxOk(c) && Lookup(c.P, c.env, x).Some? && Lookup(c.P, c.env, x).value.shape.Arr?
    ensures var t := Lookup(c.P, c.env, x).value;
            var e := Resolve(ScopeOf(c.env), x);
            && ElemTail(c.P, ScopeOf(c.env), x) == ScaleIndex(t.shape.lo, t.shape.elem)
                 + (if e.Some? then [Lea(EAX, e.value.off), Op(ASub, EAX, EDX)] else [AddrOf(x), Op(AAdd, EAX, EDX)])
            && (e.None? ==> FindVar(c.P.globals, x).Some?)
  {
    LookupEnt(c, x);
    if c.env.In? { EntOf(c.env.r, x); }
    hide ScaleIndex, CtxOk, Lookup, FindDecl;
  }

  lemma ElemAddr(c: Ctx, x: string, j: int)
    requires CtxOk(c) && Lookup(c.P, c.env, x).Some? && Lookup(c.P, c.env, x).value.shape.Arr?
    ensures var a := Addr(c.P, c.acts, Shift(Lookup(c.P, c.env, x).value.base, j));
            var e := Resolve(ScopeOf(c.env), x);
            if e.Some? then a == Ebp(c.acts) + e.value.off - 4 * j else a == GlobalAddr(c.P, x) + 4 * j
    ensures Resolve(ScopeOf(c.env), x).None? ==> x in c.img.gaddr && c.img.gaddr[x] == GlobalAddr(c.P, x)
  {
    LookupEnt(c, x);
    if Resolve(ScopeOf(c.env), x).None? { GlobAddr(c, x); }
  }

  // ---- fields ----

  /** Adding a field offset, upward or downward. */
  lemma FieldExec(img: Image, s: State, down: bool, k: nat, a: int)
    requires Sits(img.code, s.pc, GenFieldOffset(down, k)) && s.status == Running && s.eax == A(a)
    ensures var s' := Run(img, s, |GenFieldOffset(down, k)|);
            && SameBut(s, s') && s'.pc == s.pc + |GenFieldOffset(down, k)|
            && s'.eax == A(if down then a - 4 * k else a + 4 * k)
  {
    assert Run(img, s, 0) == s;
    hide Sits, Run;
    if k != 0 { StepAt(img, s, s.pc, GenFieldOffset(down, k), 0); }
  }

  lemma FieldRuns(c: Ctx, st: St, s: State, down: bool, k: nat, l: Loc) returns (n: nat, s': State)
    requires CtxOk(c) && Sim(c, st, s) && Sits(c.img.code, s.pc, GenFieldOffset(down, k))
    requires s.eax == A(Addr(c.P, c.acts, l))
    requires Addr(c.P, c.acts, Shift(l, k)) == Addr(c.P, c.acts, l) + (if down then -4 * k else 4 * k)
    ensures Run(c.img, s, n) == s' && Follows(c, s, st, s', |GenFieldOffset(down, k)|)
    ensures s'.eax == A(Addr(c.P, c.acts, Shift(l, k)))
  {
    hide *;
    SimFacts(c, st, s);
    FieldExec(c.img, s, down, k, Addr(c.P, c.acts, l));
    n := |GenFieldOffset(down, k)|;
    s' := Run(c.img, s, n);
    Stay(c, st, s, s', n);
  }

  /** By-reference transparency: the offset direction the generator picks for `x.k` reaches field `k`. */
  lemma {:induction false} FieldAddr(c: Ctx, m: Mem, x: string, k: nat)
    requires CtxOk(c) && RefsOk(c.P, c.acts, m) && Lookup(c.P, c.env, x).Some?
    requires var sh := Lookup(c.P, c.env, x).value.shape; sh.One? && sh.elem.Record? && k < |sh.elem.fields|
    ensures var l := Lookup(c.P, c.env, x).value.base;
            Addr(c.P, c.acts, Shift(l, k)) == Addr(c.P, c.acts, l)
              + (if IsFrameBase(ScopeOf(c.env), x) then -4 * k else 4 * k)
  {
    LookupEnt(c, x);
    match Resolve(ScopeOf(c.env), x)
    case Some(Ent(VarParam, _, _)) =>
      if k >= 1 { RefIsGlob(c, m, x); }
      assert Shift(c.env.refs[x], 0) == c.env.refs[x];
    case Some(_) =>
    case None =>
  }

  lemma RefIsGlob(c: Ctx, m: Mem, x: string)
    requires CtxOk(c) && c.acts != [] && RefsOk(c.P, c.acts, m) && x in RefNames(c.env.r)
    ensures x in c.env.refs && FindDecl(c.env.r, x).Some?
    ensures Fat(FindDecl(c.env.r, x).value.shape.elem) ==> c.env.refs[x].Glob?
  {
    RefNameIs(c.env.r, x);
    var a := c.acts[|c.acts| - 1];
    assert RefOk(c.P, c.acts[..|c.acts| - 1], a.refs[x], FindDecl(a.r, x).value.shape.elem);
  }

  /** Fields of array elements run upward, which is right except in a frame-resident array of records
      with more than one field. */
  lemma ElemFieldAddr(c: Ctx, x: string, j: int, k: nat)
    requires CtxOk(c) && Lookup(c.P, c.env, x).Some?
    requires var sh := Lookup(c.P, c.env, x).value.shape; sh.Arr? && sh.elem.Record? && k < |sh.elem.fields|
    ensures var l := Shift(Lookup(c.P, c.env, x).value.base, j);
            Addr(c.P, c.acts, Shift(l, k)) == Addr(c.P, c.acts, l) + 4 * k
  {
    LookupEnt(c, x);
    match Resolve(ScopeOf(c.env), x)
    case Some(Ent(VarParam, _, _)) =>
    case Some(_) =>
      assert k == 0 by {
        if FindParam(c.env.r.params, x).None? && FindVar(c.env.r.locals, x).Some? {
          var i := FindVarIn(c.env.r.locals, x);
          assert LocalOk(c.env.r.locals[i].shape);
        }
      }
    case None =>
  }

  // ---- what designators denote ----

  /** A designator's cells exist, and a record reached other than by a bare frame name is global. */
  lemma PlaceValid(c: Ctx, m: Mem, fuel: nat, st: St, p: Place)
    requires CtxOk(c) && RefsOk(c.P, c.acts, m) && EvalP(c.P, fuel, c.env, st, p).Ok?
    ensures var d := EvalP(c.P, fuel, c.env, st, p).val;
            && DestOk(c.P, c.acts, d.l, d.elem)
            && (Fat(d.elem) && !IsFrameBase(ScopeOf(c.env), p.x) ==> d.l.Glob?)
  {
    hide CtxOk, RefsOk, EvalElem, Lookup, Valid, IsFrameBase;
    var t := Lookup(c.P, c.env, p.x).value;
    var d := EvalP(c.P, fuel, c.env, st, p).val;
    match p
    case Name(x) =>
      WholeValid(c, m, x, 0, t.shape.elem);
      if Fat(d.elem) { NameGlob(c, m, x); }
    case Field(x, k) =>
      WholeValid(c, m, x, k, Scalar(TInt));
    case At(x, idx) =>
      ElemDest(c.P, fuel, c.env, st, idx, t.base, t.shape);
      ElemValid(c, m, fuel, st, x, idx, 0, t.shape.elem);
      NameGlob(c, m, x);
    case AtField(x, idx, k) =>
      ElemDest(c.P, fuel, c.env, st, idx, t.base, t.shape);
      ElemValid(c, m, fuel, st, x, idx, k, Scalar(TInt));
  }

  lemma ElemDest(P: Program, fuel: nat, env: Env, st: St, idx: Expr, base: Loc, shape: Shape)
    requires EvalElem(P, fuel, env, st, idx, base, shape).Ok?
    ensures var d := EvalElem(P, fuel, env, st, idx, base, shape).val;
            shape.Arr? && d.elem == shape.elem && (d.l.Glob? <==> base.Glob?)
  {
    hide EvalE;
  }

  lemma NameGlob(c: Ctx, m: Mem, x: string)
    requires CtxOk(c) && RefsOk(c.P, c.acts, m) && Lookup(c.P, c.env, x).Some?
    requires !IsFrameBase(ScopeOf(c.env), x)
             ==> Fat(Lookup(c.P, c.env, x).value.shape.elem) || Lookup(c.P, c.env, x).value.shape.Arr?
    ensures !IsFrameBase(ScopeOf(c.env), x) ==> Lookup(c.P, c.env, x).value.base.Glob?
  {
    if !IsFrameBase(ScopeOf(c.env), x) {
      LookupEnt(c, x);
      if Resolve(ScopeOf(c.env), x).Some? {
        RefIsGlob(c, m, x);
      }
    }
  }

  lemma WholeValid(c: Ctx, m: Mem, x: string, k: nat, elem: Elem)
    requires CtxOk(c) && RefsOk(c.P, c.acts, m) && Lookup(c.P, c.env, x).Some?
    requires k + Words(elem) <= Cells(Lookup(c.P, c.env, x).value.shape)
    ensures DestOk(c.P, c.acts, Shift(Lookup(c.P, c.env, x).value.base, k), elem)
  {
    var b := Lookup(c.P, c.env, x).value.base;
    forall i | 0 <= i < Words(elem)
      ensures Valid(c.P, c.acts, Shift(Shift(b, k), i))
    {
      TargetValid(c, m, x, k + i);
      assert Shift(Shift(b, k), i) == Shift(b, k + i);
    }
  }

  lemma CellsIs(sh: Shape)
    ensures Words(sh.elem) >= 1
    ensures sh.Arr? && sh.lo <= sh.hi ==> Cells(sh) == (sh.hi - sh.lo + 1) * Words(sh.elem)
  {
  }

  lemma ElemValid(c: Ctx, m: Mem, fuel: nat, st: St, x: string, idx: Expr, k: nat, elem: Elem)
    requires CtxOk(c) && RefsOk(c.P, c.acts, m) && Lookup(c.P, c.env, x).Some?
    requires var t := Lookup(c.P, c.env, x).value;
             && EvalElem(c.P, fuel, c.env, st, idx, t.base, t.shape).Ok?
             && k + Words(elem) <= Words(t.shape.elem)
    ensures var t := Lookup(c.P, c.env, x).value;
            var d := EvalElem(c.P, fuel, c.env, st, idx, t.base, t.shape).val;
            DestOk(c.P, c.acts, Shift(d.l, k), elem) && Shift(d.l, 0) == d.l
  {
    hide CtxOk, RefsOk, EvalE, Lookup, Valid, Cells, Words;
    var t := Lookup(c.P, c.env, x).value;
    var i := EvalE(c.P, fuel, c.env, st, idx).val.i - t.shape.lo;
    LookupShape(c, x);
    CellsIs(t.shape);
    ScaleBound(i, t.shape.hi - t.shape.lo + 1, Words(t.shape.elem));
    WholeValid(c, m, x, i * Words(t.shape.elem) + k, elem);
    assert Shift(Shift(t.base, i * Words(t.shape.elem)), k) == Shift(t.base, i * Words(t.shape.elem) + k);
  }
}
