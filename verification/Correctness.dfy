/** The compiler is correct: running the emitted code does what the source means. One proof by
    induction on fuel and syntax covers expressions, designators, calls and statements. */
module Correctness {
  import opened Int32
  import opened Syntax
  import opened Semantics
  import opened Machine
  import opened Codegen
  import opened Layout
  import opened Simulation
  import opened Instructions
  import opened Addressing
  import opened Frames

  // ---- what running code achieves, per kind of code ----

  ghost predicate Computes(c: Ctx, s: State, r: Res<Value>, s': State, n: nat, fuel: nat, len: int) {
    && (r.Ok? ==> Follows(c, s, r.st, s', len) && s'.eax == I(Enc(r.val)) && ValOk(r.val))
    && Aborts(r, s', n, fuel)
  }

  ghost predicate Locates(c: Ctx, s: State, r: Res<Dest>, s': State, n: nat, fuel: nat, len: int) {
    && (r.Ok? ==> Follows(c, s, r.st, s', len) && s'.eax == A(Addr(c.P, c.acts, r.val.l)))
    && Aborts(r, s', n, fuel)
  }

  ghost predicate Returns(c: Ctx, s: State, r: Res<Option<Value>>, s': State, n: nat, fuel: nat, len: int) {
    && (r.Ok? ==> && Follows(c, s, r.st, s', len)
                  && (r.val.Some? ==> s'.eax == I(Enc(r.val.value)) && ValOk(r.val.value)))
    && Aborts(r, s', n, fuel)
  }

  ghost predicate Does(c: Ctx, s: State, r: Res<()>, s': State, n: nat, fuel: nat, len: int) {
    && (r.Ok? ==> Follows(c, s, r.st, s', len))
    && Aborts(r, s', n, fuel)
  }

  /** A failure of a part is the same failure of the whole, after any number of steps before it. */
  lemma AbortsUp<T, U>(r: Res<T>, q: Res<U>, s': State, n: nat, m: nat, fuel: nat)
    requires Aborts(r, s', n, fuel) && !r.Ok? && q == r.PropagateFailure() && m >= n
    ensures Aborts(q, s', m, fuel)
  {
  }

  // ---- unfolding ----

  lemma UnfoldBinop(c: Ctx, fuel: nat, st: St, op: BinOp, l: Expr, r: Expr)
    ensures var sc := ScopeOf(c.env);
            GenE(c.P, sc, Binop(op, l, r)) ==
            GenE(c.P, sc, l) + ([Push(EAX)] + (GenE(c.P, sc, r) + ([MovRR(ECX, EAX), Pull(EAX)] + Combine(op))))
    ensures var r1 := EvalE(c.P, fuel, c.env, st, l);
            EvalE(c.P, fuel, c.env, st, Binop(op, l, r)) ==
            if !r1.Ok? then r1.PropagateFailure()
            else
              var r2 := EvalE(c.P, fuel, c.env, r1.st, r);
              if !r2.Ok? then r2.PropagateFailure() else ApplyBin(op, r1.val, r2.val, r2.st)
    ensures ExprOk(c.P, ScopeOf(c.env), Binop(op, l, r)) ==>
              ExprOk(c.P, ScopeOf(c.env), l) && ExprOk(c.P, ScopeOf(c.env), r)
  {
  }

  lemma UnfoldUnop(c: Ctx, fuel: nat, st: St, op: UnOp, e: Expr)
    ensures GenE(c.P, ScopeOf(c.env), Unop(op, e)) == GenE(c.P, ScopeOf(c.env), e) + GenUn(op)
    ensures var r1 := EvalE(c.P, fuel, c.env, st, e);
            EvalE(c.P, fuel, c.env, st, Unop(op, e)) ==
            if !r1.Ok? then r1.PropagateFailure() else ApplyUn(op, r1.val, r1.st)
    ensures ExprOk(c.P, ScopeOf(c.env), Unop(op, e)) ==> ExprOk(c.P, ScopeOf(c.env), e)
  {
  }

  lemma UnfoldRead(c: Ctx, fuel: nat, st: St, p: Place)
    ensures GenE(c.P, ScopeOf(c.env), Read(p)) ==
            if p.Name? then GenReadName(ScopeOf(c.env), p.x) else GenAddr(c.P, ScopeOf(c.env), p) + [Load(EAX, EAX, 0)]
    ensures var r1 := EvalP(c.P, fuel, c.env, st, p);
            EvalE(c.P, fuel, c.env, st, Read(p)) == if !r1.Ok? then r1.PropagateFailure() else Fetch(r1.st, r1.val)
    ensures p.Name? && EvalP(c.P, fuel, c.env, st, p).Ok? ==>
              && Lookup(c.P, c.env, p.x).Some? && EvalP(c.P, fuel, c.env, st, p).st == st
              && EvalP(c.P, fuel, c.env, st, p).val.l == Lookup(c.P, c.env, p.x).value.base
    ensures p.Name? ==> !EvalP(c.P, fuel, c.env, st, p).Fault? && !EvalP(c.P, fuel, c.env, st, p).Timeout?
    ensures ExprOk(c.P, ScopeOf(c.env), Read(p)) ==> PlaceOk(c.P, ScopeOf(c.env), p)
  {
  }

  lemma UnfoldCall(c: Ctx, fuel: nat, st: St, f: string, args: Exprs)
    ensures GenE(c.P, ScopeOf(c.env), Call(f, args)) == GenCall(c.P, ScopeOf(c.env), f, args)
    ensures var r1 := EvalCall(c.P, fuel, c.env, st, f, args);
            EvalE(c.P, fuel, c.env, st, Call(f, args)) ==
            if !r1.Ok? then r1.PropagateFailure() else if r1.val.Some? then Ok(r1.val.value, r1.st) else TypeErr
    ensures ExprOk(c.P, ScopeOf(c.env), Call(f, args)) ==> CallOk(c.P, ScopeOf(c.env), f, args)
  {
  }

  lemma UnfoldElem(c: Ctx, fuel: nat, st: St, idx: Expr, base: Loc, sh: Shape)
    ensures var r1 := EvalE(c.P, fuel, c.env, st, idx);
            EvalElem(c.P, fuel, c.env, st, idx, base, sh) ==
            if !sh.Arr? then TypeErr
            else if !r1.Ok? then r1.PropagateFailure()
            else if !r1.val.VI? then TypeErr
            else if sh.lo <= r1.val.i <= sh.hi
              then Ok(Dest(Shift(base, (r1.val.i - sh.lo) * Words(sh.elem)), sh.elem), r1.st)
            else Undef
  {
  }

  lemma UnfoldPlace(c: Ctx, fuel: nat, st: St, p: Place)
    requires Lookup(c.P, c.env, p.x).Some?
    ensures var t := Lookup(c.P, c.env, p.x).value;
            var r := EvalP(c.P, fuel, c.env, st, p);
            && (p.Name? ==> r == if t.shape.One? then Ok(Dest(t.base, t.shape.elem), st) else TypeErr)
            && (p.Field? ==> r == if t.shape.One? then FieldOf(Dest(t.base, t.shape.elem), p.k, st) else TypeErr)
            && (p.At? ==> r == EvalElem(c.P, fuel, c.env, st, p.idx, t.base, t.shape))
            && (p.AtField? ==> var q := EvalElem(c.P, fuel, c.env, st, p.idx, t.base, t.shape);
                               r == if q.Ok? then FieldOf(q.val, p.k, q.st) else q.PropagateFailure())
    ensures var g, sc := GenAddr(c.P, ScopeOf(c.env), p), ScopeOf(c.env);
            && (p.Name? ==> g == GenBase(sc, p.x))
            && (p.Field? ==> g == GenBase(sc, p.x) + GenFieldOffset(IsFrameBase(sc, p.x), p.k))
            && (p.At? ==> g == GenElem(c.P, sc, p.x, p.idx))
            && (p.AtField? ==> g == GenElem(c.P, sc, p.x, p.idx) + GenFieldOffset(false, p.k))
    ensures PlaceOk(c.P, ScopeOf(c.env), p) && (p.At? || p.AtField?) ==> ExprOk(c.P, ScopeOf(c.env), p.idx)
  {
  }

  // ---- expressions ----

  lemma ExprRuns(c: Ctx, fuel: nat, st: St, s: State, e: Expr) returns (n: nat, s': State)
    requires CtxOk(c) && Sim(c, st, s) && ExprOk(c.P, ScopeOf(c.env), e)
    requires Sits(c.img.code, s.pc, GenE(c.P, ScopeOf(c.env), e))
    ensures Run(c.img, s, n) == s'
    ensures Computes(c, s, EvalE(c.P, fuel, c.env, st, e), s', n, fuel, |GenE(c.P, ScopeOf(c.env), e)|)
    decreases fuel, e, 1
  {
    hide *;
    match e
    case IntLit(_) => n, s' := LiteralRuns(c, fuel, st, s, e);
    case BoolLit(_) => n, s' := LiteralRuns(c, fuel, st, s, e);
    case CharLit(_) => n, s' := LiteralRuns(c, fuel, st, s, e);
    case Read(p) => n, s' := ReadPlaceRuns(c, fuel, st, s, p);
    case Binop(op, l, r) => n, s' := BinopRuns(c, fuel, st, s, op, l, r);
    case Unop(op, e1) => n, s' := UnopRuns(c, fuel, st, s, op, e1);
    case Call(f, args) =>
      UnfoldCall(c, fuel, st, f, args);
      n, s' := CallRuns(c, fuel, st, s, f, args);
      CallValue(c, s, EvalCall(c.P, fuel, c.env, st, f, args), s', n, fuel, |GenE(c.P, ScopeOf(c.env), e)|);
  }

  lemma CallValue(c: Ctx, s: State, r: Res<Option<Value>>, s': State, n: nat, fuel: nat, len: int)
    requires Returns(c, s, r, s', n, fuel, len)
    ensures Computes(c, s, if !r.Ok? then r.PropagateFailure() else if r.val.Some? then Ok(r.val.value, r.st)
            else TypeErr, s', n, fuel, len)
  {
    hide Follows;
  }

  lemma LiteralRuns(c: Ctx, fuel: nat, st: St, s: State, e: Expr) returns (n: nat, s': State)
    requires CtxOk(c) && Sim(c, st, s) && (e.IntLit? || e.BoolLit? || e.CharLit?)
    requires Sits(c.img.code, s.pc, GenE(c.P, ScopeOf(c.env), e))
    ensures Run(c.img, s, n) == s'
    ensures Computes(c, s, EvalE(c.P, fuel, c.env, st, e), s', n, fuel, |GenE(c.P, ScopeOf(c.env), e)|)
  {
    var code := GenE(c.P, ScopeOf(c.env), e);
    hide CtxOk, Sim, Follows, Sits, Run;
    SimFacts(c, st, s);
    StepAt(c.img, s, s.pc, code, 0);
    n, s' := 1, Exec(c.img, code[0], s);
    Stay(c, st, s, s', 1);
  }

  lemma UnopRuns(c: Ctx, fuel: nat, st: St, s: State, op: UnOp, e: Expr) returns (n: nat, s': State)
    requires CtxOk(c) && Sim(c, st, s) && ExprOk(c.P, ScopeOf(c.env), Unop(op, e))
    requires Sits(c.img.code, s.pc, GenE(c.P, ScopeOf(c.env), Unop(op, e)))
    ensures Run(c.img, s, n) == s'
    ensures Computes(c, s, EvalE(c.P, fuel, c.env, st, Unop(op, e)), s', n, fuel,
            |GenE(c.P, ScopeOf(c.env), Unop(op, e))|)
    decreases fuel, Unop(op, e), 0
  {
    hide CtxOk, Sim, Follows, Sits, Run, ExprOk, GenE, EvalE, ApplyUn, GenUn, Enc, ValOk;
    var sc := ScopeOf(c.env);
    UnfoldUnop(c, fuel, st, op, e);
    var c1 := GenE(c.P, sc, e);
    SitsSplit(c.img.code, s.pc, c1, GenUn(op));
    n, s' := ExprRuns(c, fuel, st, s, e);
    var r1 := EvalE(c.P, fuel, c.env, st, e);
    if r1.Ok? {
      var s1, n1 := s', n;
      FollowsSim(c, s, r1.st, s1, |c1|);
      var n2: nat;
      n2, s' := UnRuns(c, r1.st, s1, op, r1.val);
      n := n1 + n2;
      Chain(c.img, s, n1, s1, n2, s');
      if ApplyUn(op, r1.val, r1.st).Ok? {
        FollowsTrans(c, s, r1.st, s1, |c1|, r1.st, s', |GenUn(op)|);
      }
    }
  }

  lemma FollowsSim(c: Ctx, s: State, st': St, s': State, len: int)
    requires Follows(c, s, st', s', len)
    ensures Sim(c, st', s') && s'.pc == s.pc + len && s'.esp == s.esp
    ensures Kept(c.P, c.acts, s.mem, s'.mem, s.esp.a)
  {
  }

  /** `mov ecx, eax` and `pop eax` after the right operand. */
  lemma RhsExec(img: Image, s: State, esp: int)
    requires Sits(img.code, s.pc, [MovRR(ECX, EAX), Pull(EAX)]) && s.status == Running
    requires s.esp == A(esp) && esp % 4 == 0 && esp in s.mem
    ensures var s' := Run(img, s, 2);
            && SameBut(s.(esp := A(esp + 4)), s') && s'.pc == s.pc + 2 && s'.ecx == s.eax && s'.eax == s.mem[esp]
  {
    hide Sits, Run;
    Steps2(img, s, s.pc, [MovRR(ECX, EAX), Pull(EAX)], 0);
  }

  lemma BinopRuns(c: Ctx, fuel: nat, st: St, s: State, op: BinOp, l: Expr, r: Expr) returns (n: nat, s': State)
    requires CtxOk(c) && Sim(c, st, s) && ExprOk(c.P, ScopeOf(c.env), Binop(op, l, r))
    requires Sits(c.img.code, s.pc, GenE(c.P, ScopeOf(c.env), Binop(op, l, r)))
    ensures Run(c.img, s, n) == s'
    ensures Computes(c, s, EvalE(c.P, fuel, c.env, st, Binop(op, l, r)), s', n, fuel,
            |GenE(c.P, ScopeOf(c.env), Binop(op, l, r))|)
    decreases fuel, Binop(op, l, r), 0
  {
    hide CtxOk, Sim, Follows, Sits, Run, ExprOk, GenE, EvalE, ApplyBin, Combine, Enc, ValOk, Kept, Spilled, Lo;
    var sc := ScopeOf(c.env);
    UnfoldBinop(c, fuel, st, op, l, r);
    var cl, cr, tail := GenE(c.P, sc, l), GenE(c.P, sc, r), [MovRR(ECX, EAX), Pull(EAX)] + Combine(op);
    SitsSplit(c.img.code, s.pc, cl, [Push(EAX)] + (cr + tail));
    SitsSplit(c.img.code, s.pc + |cl|, [Push(EAX)], cr + tail);
    SitsSplit(c.img.code, s.pc + |cl| + 1, cr, tail);
    SitsSplit(c.img.code, s.pc + |cl| + 1 + |cr|, [MovRR(ECX, EAX), Pull(EAX)], Combine(op));
    n, s' := ExprRuns(c, fuel, st, s, l);
    var r1 := EvalE(c.P, fuel, c.env, st, l);
    if !r1.Ok? { return; }
    var s1, n1 := s', n;
    FollowsSim(c, s, r1.st, s1, |cl|);
    var s2 := PushRuns(c, r1.st, s1);
    Chain(c.img, s, n1, s1, 1, s2);
    SpilledSim(c, r1.st, s1, s2);
    var n3, s3 := ExprRuns(c, fuel, r1.st, s2, r);
    Chain(c.img, s, n1 + 1, s2, n3, s3);
    n, s' := n1 + 1 + n3, s3;
    var r2 := EvalE(c.P, fuel, c.env, r1.st, r);
    if !r2.Ok? { return; }
    FollowsSim(c, s2, r2.st, s3, |cr|);
    var n4;
    n4, s' := OperandsRun(c, r1.st, s1, s2, r2.st, s3, |cr|, op, r1.val, r2.val);
    n := n1 + 1 + n3 + n4;
    Chain(c.img, s, n1 + 1 + n3, s3, n4, s');
    if ApplyBin(op, r1.val, r2.val, r2.st).Ok? {
      FollowsTrans(c, s, r1.st, s1, |cl|, r2.st, s', 1 + |cr| + |tail|);
    }
  }

  lemma SpilledSim(c: Ctx, st: St, s: State, s': State)
    requires Spilled(c, st, s, s')
    ensures Sim(c, st, s') && s'.pc == s.pc + 1
  {
  }

  /** Both operands done, the left one spilled: the tail of a binary operation. */
  lemma OperandsRun(c: Ctx, st1: St, s1: State, s2: State, st2: St, s3: State, len: int, op: BinOp, a: Value, b: Value)
    returns (n: nat, s': State)
    requires CtxOk(c) && Sim(c, st1, s1) && Spilled(c, st1, s1, s2) && Follows(c, s2, st2, s3, len)
    requires ValOk(a) && ValOk(b) && s1.eax == I(Enc(a)) && s3.eax == I(Enc(b))
    requires Sits(c.img.code, s3.pc, [MovRR(ECX, EAX), Pull(EAX)]) && Sits(c.img.code, s3.pc + 2, Combine(op))
    ensures Run(c.img, s3, n) == s'
    ensures var res := ApplyBin(op, a, b, st2);
            && (res.Ok? ==> && Follows(c, s1, st2, s', 1 + len + 2 + |Combine(op)|) && res.st == st2
                            && s'.eax == I(Enc(res.val)) && ValOk(res.val))
            && (res.Fault? ==> s'.status == DivFault && s'.out == res.out) && !res.Timeout?
  {
    hide CtxOk, Sim, Sits, Run, ApplyBin, Combine, Enc, ValOk, Kept, Spilled, Follows, Exec;
    SpillTop(c, st1, s1, s2, st2, s3, len);
    RhsExec(c.img, s3, s2.esp.a);
    var s4 := Run(c.img, s3, 2);
    Unspill(c, st1, s1, s2, st2, s3, len, s4);
    var n5;
    n5, s' := CombineRuns(c, st2, s4, op, a, b);
    n := 2 + n5;
    Chain(c.img, s3, 2, s4, n5, s');
    if ApplyBin(op, a, b, st2).Ok? {
      SpilledSim(c, st1, s1, s2);
      FollowsSim(c, s2, st2, s3, len);
      Rejoin(c, s1, st2, s4, s4.pc - s1.pc);
      FollowsTrans(c, s1, st2, s4, s4.pc - s1.pc, st2, s', |Combine(op)|);
    }
  }

  lemma Rejoin(c: Ctx, s: State, st': St, s': State, len: int)
    requires Sim(c, st', s') && s'.pc == s.pc + len && s.esp.A? && s'.esp == s.esp
    requires Kept(c.P, c.acts, s.mem, s'.mem, s.esp.a)
    ensures Follows(c, s, st', s', len)
  {
  }

  lemma ReadPlaceRuns(c: Ctx, fuel: nat, st: St, s: State, p: Place) returns (n: nat, s': State)
    requires CtxOk(c) && Sim(c, st, s) && ExprOk(c.P, ScopeOf(c.env), Read(p))
    requires Sits(c.img.code, s.pc, GenE(c.P, ScopeOf(c.env), Read(p)))
    ensures Run(c.img, s, n) == s'
    ensures Computes(c, s, EvalE(c.P, fuel, c.env, st, Read(p)), s', n, fuel, |GenE(c.P, ScopeOf(c.env), Read(p))|)
    decreases fuel, Read(p), 0
  {
    hide CtxOk, Sim, Follows, Sits, Run, ExprOk, GenE, EvalE, EvalP, Enc, ValOk, Kept, Lookup, Addr, GenAddr,
      GenReadName, PlaceOk, Exec;
    UnfoldRead(c, fuel, st, p);
    var r1 := EvalP(c.P, fuel, c.env, st, p);
    if p.Name? {
      n, s' := 0, s;
      if r1.Ok? && Fetch(r1.st, r1.val).Ok? {
        n, s' := ReadRuns(c, st, s, p.x);
        SimCell(c, st, s, r1.val.l);
      } else {
        RunZero(c.img, s);
      }
    } else {
      var ca := GenAddr(c.P, ScopeOf(c.env), p);
      SitsSplit(c.img.code, s.pc, ca, [Load(EAX, EAX, 0)]);
      n, s' := PlaceRuns(c, fuel, st, s, p);
      if r1.Ok? && Fetch(r1.st, r1.val).Ok? {
        var s1 := s';
        FollowsSim(c, s, r1.st, s1, |ca|);
        s' := LoadRuns(c, r1.st, s1, r1.val.l);
        Chain(c.img, s, n, s1, 1, s');
        n := n + 1;
        FollowsTrans(c, s, r1.st, s1, |ca|, r1.st, s', 1);
      }
    }
  }

  lemma RunZero(img: Image, s: State)
    ensures Run(img, s, 0) == s
  {
  }

  /** `mov eax, [eax]` at a cell's address. */
  lemma LoadRuns(c: Ctx, st: St, s: State, l: Loc) returns (s': State)
    requires CtxOk(c) && Sim(c, st, s) && l in st.store && s.eax == A(Addr(c.P, c.acts, l))
    requires Sits(c.img.code, s.pc, [Load(EAX, EAX, 0)])
    ensures Run(c.img, s, 1) == s' && Follows(c, s, st, s', 1)
    ensures s'.eax == I(Enc(st.store[l])) && ValOk(st.store[l])
  {
    hide CtxOk, Sim, Follows, Sits, Run, Enc, ValOk, Addr;
    SimFacts(c, st, s);
    SimCell(c, st, s, l);
    StepAt(c.img, s, s.pc, [Load(EAX, EAX, 0)], 0);
    s' := Exec(c.img, Load(EAX, EAX, 0), s);
    Stay(c, st, s, s', 1);
  }

  // ---- designators ----

  lemma UnboundPlace(c: Ctx, fuel: nat, st: St, p: Place)
    requires Lookup(c.P, c.env, p.x).None?
    ensures EvalP(c.P, fuel, c.env, st, p) == TypeErr
  {
    hide Lookup;
  }

  lemma {:induction false} PlaceRuns(c: Ctx, fuel: nat, st: St, s: State, p: Place) returns (n: nat, s': State)
    requires CtxOk(c) && Sim(c, st, s) && PlaceOk(c.P, ScopeOf(c.env), p)
    requires Sits(c.img.code, s.pc, GenAddr(c.P, ScopeOf(c.env), p))
    ensures Run(c.img, s, n) == s'
    ensures Locates(c, s, EvalP(c.P, fuel, c.env, st, p), s', n, fuel, |GenAddr(c.P, ScopeOf(c.env), p)|)
    decreases fuel, p, 1
  {
    hide CtxOk, Sim, Follows, Sits, Run, EvalP, Kept, Lookup, Addr, GenAddr, GenBase, GenFieldOffset, IsFrameBase,
      GenElem, PlaceOk, Shift, Exec;
    n, s' := 0, s;
    RunZero(c.img, s);
    if Lookup(c.P, c.env, p.x).None? {
      UnboundPlace(c, fuel, st, p);
      return;
    }
    UnfoldPlace(c, fuel, st, p);
    SimFacts(c, st, s);
    var t := Lookup(c.P, c.env, p.x).value;
    match p
    case Name(x) =>
      if t.shape.One? { n, s' := BaseRuns(c, st, s, x); }
    case Field(x, k) =>
      if t.shape.One? && FieldOf(Dest(t.base, t.shape.elem), k, st).Ok? { n, s' := FieldPlaceRuns(c, st, s, x, k); }
    case At(x, idx) =>
      if t.shape.Arr? { n, s' := ElemPlaceRuns(c, fuel, st, s, x, idx); }
        else { UnfoldElem(c, fuel, st, idx, t.base, t.shape); }
    case AtField(x, idx, k) =>
      if t.shape.Arr? { n, s' := ElemFieldRuns(c, fuel, st, s, x, idx, k); }
        else { UnfoldElem(c, fuel, st, idx, t.base, t.shape); }
  }

  lemma FieldPlaceRuns(c: Ctx, st: St, s: State, x: string, k: nat) returns (n: nat, s': State)
    requires CtxOk(c) && Sim(c, st, s) && Lookup(c.P, c.env, x).Some?
    requires var sh := Lookup(c.P, c.env, x).value.shape; sh.One? && sh.elem.Record? && k < |sh.elem.fields|
    requires Sits(c.img.code, s.pc, GenBase(ScopeOf(c.env), x) + GenFieldOffset(IsFrameBase(ScopeOf(c.env), x), k))
    ensures Run(c.img, s, n) == s'
    ensures Follows(c, s, st, s', |GenBase(ScopeOf(c.env), x) + GenFieldOffset(IsFrameBase(ScopeOf(c.env), x), k)|)
    ensures s'.eax == A(Addr(c.P, c.acts, Shift(Lookup(c.P, c.env, x).value.base, k)))
  {
    hide *;
    var cb, cf := GenBase(ScopeOf(c.env), x), GenFieldOffset(IsFrameBase(ScopeOf(c.env), x), k);
    SitsSplit(c.img.code, s.pc, cb, cf);
    var n1, s1 := BaseRuns(c, st, s, x);
    FollowsSim(c, s, st, s1, |cb|);
    SimFacts(c, st, s);
    FieldAddr(c, s.mem, x, k);
    var n2;
    n2, s' := FieldRuns(c, st, s1, IsFrameBase(ScopeOf(c.env), x), k, Lookup(c.P, c.env, x).value.base);
    n := n1 + n2;
    Chain(c.img, s, n1, s1, n2, s');
    FollowsTrans(c, s, st, s1, |cb|, st, s', |cf|);
  }

  lemma ElemPlaceRuns(c: Ctx, fuel: nat, st: St, s: State, x: string, idx: Expr) returns (n: nat, s': State)
    requires CtxOk(c) && Sim(c, st, s) && ExprOk(c.P, ScopeOf(c.env), idx)
    requires Lookup(c.P, c.env, x).Some? && Lookup(c.P, c.env, x).value.shape.Arr?
    requires Sits(c.img.code, s.pc, GenElem(c.P, ScopeOf(c.env), x, idx))
    ensures Run(c.img, s, n) == s'
    ensures var t := Lookup(c.P, c.env, x).value;
            Locates(c, s, EvalElem(c.P, fuel, c.env, st, idx, t.base, t.shape), s', n, fuel,
              |GenElem(c.P, ScopeOf(c.env), x, idx)|)
    decreases fuel, idx, 2
  {
    hide CtxOk, Sim, Follows, Sits, Run, ExprOk, EvalE, EvalElem, Kept, Lookup, Addr, GenElem, GenE, ElemTail, Shift,
      Words;
    var t := Lookup(c.P, c.env, x).value;
    UnfoldElem(c, fuel, st, idx, t.base, t.shape);
    GenElemSplit(c, x, idx);
    var ci, ct := GenE(c.P, ScopeOf(c.env), idx), ElemTail(c.P, ScopeOf(c.env), x);
    SitsSplit(c.img.code, s.pc, ci, ct);
    n, s' := ExprRuns(c, fuel, st, s, idx);
    var r1 := EvalE(c.P, fuel, c.env, st, idx);
    if r1.Ok? && r1.val.VI? && t.shape.lo <= r1.val.i <= t.shape.hi {
      var s1, n1 := s', n;
      FollowsSim(c, s, r1.st, s1, |ci|);
      var n2;
      n2, s' := ElemRuns(c, r1.st, s1, x, r1.val.i);
      n := n1 + n2;
      Chain(c.img, s, n1, s1, n2, s');
      FollowsTrans(c, s, r1.st, s1, |ci|, r1.st, s', |ct|);
    }
  }

  lemma ElemFieldRuns(c: Ctx, fuel: nat, st: St, s: State, x: string, idx: Expr, k: nat) returns (n: nat, s': State)
    requires CtxOk(c) && Sim(c, st, s) && PlaceOk(c.P, ScopeOf(c.env), AtField(x, idx, k))
    requires Lookup(c.P, c.env, x).Some? && Lookup(c.P, c.env, x).value.shape.Arr?
    requires Sits(c.img.code, s.pc, GenAddr(c.P, ScopeOf(c.env), AtField(x, idx, k)))
    ensures Run(c.img, s, n) == s'
    ensures Locates(c, s, EvalP(c.P, fuel, c.env, st, AtField(x, idx, k)), s', n, fuel,
            |GenAddr(c.P, ScopeOf(c.env), AtField(x, idx, k))|)
    decreases fuel, AtField(x, idx, k), 0
  {
    hide CtxOk, Sim, Follows, Sits, Run, ExprOk, EvalP, EvalE, EvalElem, Kept, Lookup, Addr, GenElem, GenAddr, GenE,
      GenFieldOffset, Shift, Words, PlaceOk;
    var t := Lookup(c.P, c.env, x).value;
    UnfoldPlace(c, fuel, st, AtField(x, idx, k));
    UnfoldElem(c, fuel, st, idx, t.base, t.shape);
    var ce, cf := GenElem(c.P, ScopeOf(c.env), x, idx), GenFieldOffset(false, k);
    SitsSplit(c.img.code, s.pc, ce, cf);
    n, s' := ElemPlaceRuns(c, fuel, st, s, x, idx);
    var r1 := EvalElem(c.P, fuel, c.env, st, idx, t.base, t.shape);
    if r1.Ok? && FieldOf(r1.val, k, r1.st).Ok? {
      var s1, n1 := s', n;
      FollowsSim(c, s, r1.st, s1, |ce|);
      ElemFieldAddr(c, x, (EvalE(c.P, fuel, c.env, st, idx).val.i - t.shape.lo) * Words(t.shape.elem), k);
      var n2;
      n2, s' := FieldRuns(c, r1.st, s1, false, k, r1.val.l);
      n := n1 + n2;
      Chain(c.img, s, n1, s1, n2, s');
      FollowsTrans(c, s, r1.st, s1, |ce|, r1.st, s', |cf|);
    }
  }

  // ---- calls ----

  lemma UnfoldArgs(c: Ctx, fuel: nat, st: St, e: Expr, rest: Exprs, ps: seq<Param>)
    requires Length(Cons(e, rest)) == |ps|
    ensures |ps| >= 1 && Length(rest) == |ps[1..]|
    ensures GenArgs(c.P, ScopeOf(c.env), Cons(e, rest), ps) ==
            GenArgs(c.P, ScopeOf(c.env), rest, ps[1..]) + (GenArg(c.P, ScopeOf(c.env), e, ps[0]) + [Push(EAX)])
    ensures var r1 := EvalArgs(c.P, fuel, c.env, st, rest, ps[1..]);
            EvalArgs(c.P, fuel, c.env, st, Cons(e, rest), ps) ==
            if !r1.Ok? then r1.PropagateFailure()
            else
              var r2 := EvalArg(c, fuel, r1.st, e, ps[0]);
              if !r2.Ok? then r2.PropagateFailure() else Ok([r2.val] + r1.val, r2.st)
    ensures ArgsOk(c.P, ScopeOf(c.env), Cons(e, rest), ps) ==>
              && ArgOk(ScopeOf(c.env), e, ps[0]) && ExprOk(c.P, ScopeOf(c.env), e)
              && ArgsOk(c.P, ScopeOf(c.env), rest, ps[1..])
  {
  }

  /** One actual parameter. */
  function EvalArg(c: Ctx, fuel: nat, st: St, e: Expr, p: Param): Res<Actual> {
    if p.isVar then
      if !e.Read? then TypeErr
      else
        var (d, st1) :- EvalP(c.P, fuel, c.env, st, e.p);
        if d.elem == p.elem then Ok(Ref(d.l), st1) else TypeErr
    else
      var (v, st1) :- EvalE(c.P, fuel, c.env, st, e);
      if p.elem.Scalar? && HasTy(v, p.elem.ty) then Ok(Val(v), st1) else TypeErr
  }

  /** One actual parameter is in EAX: its value, or its address for a `var` parameter. */
  ghost predicate Evaluates(c: Ctx, s: State, r: Res<Actual>, p: Param, s': State, n: nat, fuel: nat, len: int) {
    && (r.Ok? ==> && Follows(c, s, r.st, s', len) && ActualOk(c.P, c.acts, p, r.val)
                  && s'.eax == EncActual(c.P, c.acts, r.val))
    && Aborts(r, s', n, fuel)
  }

  lemma ArgRuns(c: Ctx, fuel: nat, st: St, s: State, e: Expr, p: Param) returns (n: nat, s': State)
    requires CtxOk(c) && Sim(c, st, s) && ExprOk(c.P, ScopeOf(c.env), e) && ArgOk(ScopeOf(c.env), e, p)
    requires Sits(c.img.code, s.pc, GenArg(c.P, ScopeOf(c.env), e, p))
    ensures Run(c.img, s, n) == s'
    ensures Evaluates(c, s, EvalArg(c, fuel, st, e, p), p, s', n, fuel, |GenArg(c.P, ScopeOf(c.env), e, p)|)
    decreases fuel, e, 2
  {
    hide *;
    UnfoldArg(c, fuel, st, e, p);
    if !p.isVar {
      n, s' := ExprRuns(c, fuel, st, s, e);
      ValueArg(c, s, EvalE(c.P, fuel, c.env, st, e), p, s', n, fuel, |GenE(c.P, ScopeOf(c.env), e)|);
    } else if e.Read? {
      n, s' := PlaceRuns(c, fuel, st, s, e.p);
      SimFacts(c, st, s);
      VarArg(c, s, fuel, st, e.p, p, s', n, |GenAddr(c.P, ScopeOf(c.env), e.p)|);
    } else {
      n, s' := 0, s;
      RunZero(c.img, s);
      BadArg(c, s, p, s', n, fuel, |GenArg(c.P, ScopeOf(c.env), e, p)|);
    }
  }

  lemma UnfoldArg(c: Ctx, fuel: nat, st: St, e: Expr, p: Param)
    ensures p.isVar && e.Read? ==>
              && GenArg(c.P, ScopeOf(c.env), e, p) == GenAddr(c.P, ScopeOf(c.env), e.p)
              && EvalArg(c, fuel, st, e, p) == RefActualOf(EvalP(c.P, fuel, c.env, st, e.p), p)
              && (ExprOk(c.P, ScopeOf(c.env), e) ==> PlaceOk(c.P, ScopeOf(c.env), e.p))
    ensures p.isVar && !e.Read? ==> EvalArg(c, fuel, st, e, p) == TypeErr
    ensures !p.isVar ==> && GenArg(c.P, ScopeOf(c.env), e, p) == GenE(c.P, ScopeOf(c.env), e)
                         && EvalArg(c, fuel, st, e, p) == ValActualOf(EvalE(c.P, fuel, c.env, st, e), p)
  {
  }

  function ValActualOf(r: Res<Value>, p: Param): Res<Actual> {
    if !r.Ok? then r.PropagateFailure()
    else if p.elem.Scalar? && HasTy(r.val, p.elem.ty) then Ok(Val(r.val), r.st) else TypeErr
  }

  function RefActualOf(r: Res<Dest>, p: Param): Res<Actual> {
    if !r.Ok? then r.PropagateFailure() else if r.val.elem == p.elem then Ok(Ref(r.val.l), r.st) else TypeErr
  }

  lemma ValueArg(c: Ctx, s: State, r: Res<Value>, p: Param, s': State, n: nat, fuel: nat, len: int)
    requires Computes(c, s, r, s', n, fuel, len) && !p.isVar
    ensures Evaluates(c, s, ValActualOf(r, p), p, s', n, fuel, len)
  {
    hide Follows, ValOk, Enc, HasTy;
  }

  lemma VarArg(c: Ctx, s: State, fuel: nat, st: St, q: Place, p: Param, s': State, n: nat, len: int)
    requires CtxOk(c) && RefsOk(c.P, c.acts, s.mem) && ArgOk(ScopeOf(c.env), Read(q), p) && p.isVar
    requires Locates(c, s, EvalP(c.P, fuel, c.env, st, q), s', n, fuel, len)
    ensures Evaluates(c, s, RefActualOf(EvalP(c.P, fuel, c.env, st, q), p), p, s', n, fuel, len)
  {
    hide CtxOk, RefsOk, Follows, Addr, EvalP, RefOk, IsFrameBase, Fat;
    var r := EvalP(c.P, fuel, c.env, st, q);
    if r.Ok? && r.val.elem == p.elem { RefArgOk(c, s.mem, fuel, st, q, p.elem); }
  }

  lemma BadArg(c: Ctx, s: State, p: Param, s': State, n: nat, fuel: nat, len: int)
    ensures Evaluates(c, s, TypeErr, p, s', n, fuel, len)
  {
  }

  lemma RefArgOk(c: Ctx, m: Mem, fuel: nat, st: St, p: Place, elem: Elem)
    requires CtxOk(c) && RefsOk(c.P, c.acts, m) && EvalP(c.P, fuel, c.env, st, p).Ok?
    requires EvalP(c.P, fuel, c.env, st, p).val.elem == elem && (Fat(elem) ==> !IsFrameBase(ScopeOf(c.env), p.x))
    ensures RefOk(c.P, c.acts, EvalP(c.P, fuel, c.env, st, p).val.l, elem)
  {
    hide CtxOk, RefsOk, EvalP, IsFrameBase, DestOk;
    PlaceValid(c, m, fuel, st, p);
  }

  /** The arguments are pushed: the first one is on top, and each fits its parameter. */
  ghost predicate Loads(c: Ctx, s: State, r: Res<seq<Actual>>, ps: seq<Param>, s': State, n: nat, fuel: nat, len: int) {
    && (r.Ok? ==> && Sim(c, r.st, s') && s'.pc == s.pc + len && s.esp.A? && s'.esp == A(s.esp.a - 4 * |ps|)
                  && Kept(c.P, c.acts, s.mem, s'.mem, s.esp.a)
                  && ActualsOk(c.P, c.acts, ps, r.val) && Pushed(c.P, c.acts, r.val, s'.mem, s'.esp.a))
    && Aborts(r, s', n, fuel)
  }

  lemma ArgsRuns(c: Ctx, fuel: nat, st: St, s: State, args: Exprs, ps: seq<Param>) returns (n: nat, s': State)
    requires CtxOk(c) && Sim(c, st, s) && Length(args) == |ps| && ArgsOk(c.P, ScopeOf(c.env), args, ps)
    requires Sits(c.img.code, s.pc, GenArgs(c.P, ScopeOf(c.env), args, ps))
    ensures Run(c.img, s, n) == s'
    ensures Loads(c, s, EvalArgs(c.P, fuel, c.env, st, args, ps), ps, s', n, fuel,
            |GenArgs(c.P, ScopeOf(c.env), args, ps)|)
    decreases fuel, args, 1
  {
    hide *;
    if args.Nil? {
      n, s' := 0, s;
      NoArgs(c, fuel, st, s, ps);
    } else {
      n, s' := MoreArgsRun(c, fuel, st, s, args.hd, args.tl, ps);
    }
  }

  lemma NoArgs(c: Ctx, fuel: nat, st: St, s: State, ps: seq<Param>)
    requires Sim(c, st, s) && |ps| == Length(Nil)
    ensures Run(c.img, s, 0) == s
    ensures Loads(c, s, EvalArgs(c.P, fuel, c.env, st, Nil, ps), ps, s, 0, fuel,
            |GenArgs(c.P, ScopeOf(c.env), Nil, ps)|)
  {
    hide MemOk, RefsOk;
  }

  lemma MoreArgsRun(c: Ctx, fuel: nat, st: St, s: State, e: Expr, rest: Exprs, ps: seq<Param>)
    returns (n: nat, s': State)
    requires CtxOk(c) && Sim(c, st, s) && Length(Cons(e, rest)) == |ps|
    requires ArgsOk(c.P, ScopeOf(c.env), Cons(e, rest), ps)
    requires Sits(c.img.code, s.pc, GenArgs(c.P, ScopeOf(c.env), Cons(e, rest), ps))
    ensures Run(c.img, s, n) == s'
    ensures Loads(c, s, EvalArgs(c.P, fuel, c.env, st, Cons(e, rest), ps), ps, s', n, fuel,
            |GenArgs(c.P, ScopeOf(c.env), Cons(e, rest), ps)|)
    decreases fuel, Cons(e, rest), 0
  {
    hide CtxOk, Sim, Follows, Sits, Run, GenArgs, EvalArgs, GenArg, EvalArg, Kept, ArgsOk, ArgOk, ExprOk, Length,
      Pushed,
      ActualsOk, ActualOk, EncActual, Exec, Spilled, Lo;
    var sc := ScopeOf(c.env);
    UnfoldArgs(c, fuel, st, e, rest, ps);
    var c1, c2 := GenArgs(c.P, sc, rest, ps[1..]), GenArg(c.P, sc, e, ps[0]);
    SitsSplit(c.img.code, s.pc, c1, c2 + [Push(EAX)]);
    SitsSplit(c.img.code, s.pc + |c1|, c2, [Push(EAX)]);
    n, s' := ArgsRuns(c, fuel, st, s, rest, ps[1..]);
    var r1 := EvalArgs(c.P, fuel, c.env, st, rest, ps[1..]);
    if !r1.Ok? { return; }
    var s1, n1 := s', n;
    var n2, s2 := ArgRuns(c, fuel, r1.st, s1, e, ps[0]);
    Chain(c.img, s, n1, s1, n2, s2);
    n, s' := n1 + n2, s2;
    var r2 := EvalArg(c, fuel, r1.st, e, ps[0]);
    if !r2.Ok? { return; }
    FollowsSim(c, s1, r2.st, s2, |c2|);
    s' := PushRuns(c, r2.st, s2);
    Chain(c.img, s, n1 + n2, s2, 1, s');
    n := n1 + n2 + 1;
    SimFacts(c, st, s);
    OneMore(c, s, s1, r1.val, ps, r2.st, s2, r2.val, s', |c2|);
  }

  /** Pushing one more argument in front of those already pushed. */
  lemma OneMore(c: Ctx, s: State, s1: State, avs: seq<Actual>, ps: seq<Param>, st2: St, s2: State, a: Actual, s3: State,
                len: int)
    requires CtxOk(c) && |ps| == |avs| + 1 && ActualsOk(c.P, c.acts, ps[1..], avs) && ActualOk(c.P, c.acts, ps[0], a)
    requires s.esp.A? && s1.esp == A(s.esp.a - 4 * |ps[1..]|) && s.esp.a <= Lo(c.acts)
    requires Kept(c.P, c.acts, s.mem, s1.mem, s.esp.a) && Pushed(c.P, c.acts, avs, s1.mem, s1.esp.a)
    requires Follows(c, s1, st2, s2, len) && s2.eax == EncActual(c.P, c.acts, a) && Spilled(c, st2, s2, s3)
    ensures Sim(c, st2, s3) && s3.pc == s1.pc + len + 1 && s3.esp == A(s.esp.a - 4 * |ps|)
    ensures Kept(c.P, c.acts, s.mem, s3.mem, s.esp.a)
    ensures ActualsOk(c.P, c.acts, ps, [a] + avs) && Pushed(c.P, c.acts, [a] + avs, s3.mem, s3.esp.a)
  {
    hide Sim, IsData, ActualOk, EncActual, ProgramOk, Linked;
    KeptTrans(c.P, c.acts, s.mem, s1.mem, s2.mem, s.esp.a, s.esp.a, s1.esp.a);
    KeptTrans(c.P, c.acts, s.mem, s2.mem, s3.mem, s.esp.a, s.esp.a, s1.esp.a);
    forall i | 0 <= i < |ps|
      ensures ActualOk(c.P, c.acts, ps[i], ([a] + avs)[i])
      ensures s3.esp.a + 4 * i in s3.mem && s3.mem[s3.esp.a + 4 * i] == EncActual(c.P, c.acts, ([a] + avs)[i])
    {
      if i > 0 {
        assert ps[1..][i - 1] == ps[i];
        var p := s1.esp.a + 4 * (i - 1);
        assert p in s1.mem && s1.mem[p] == EncActual(c.P, c.acts, avs[i - 1]);
        NotDataBelow(c.P, c.acts, p);
      }
    }
  }

  lemma UnfoldGenCall(c: Ctx, fuel: nat, st: St, f: string, args: Exprs, r: Routine)
    requires FindRoutine(c.P.routines, f) == Some(r) && Length(args) == |r.params|
    ensures r in c.P.routines && r.name == f
    ensures GenCall(c.P, ScopeOf(c.env), f, args) ==
            GenArgs(c.P, ScopeOf(c.env), args, r.params) + ([CallP(f)] + CleanUp(|r.params|))
    ensures CallOk(c.P, ScopeOf(c.env), f, args) ==> ArgsOk(c.P, ScopeOf(c.env), args, r.params)
    ensures var r1 := EvalArgs(c.P, fuel, c.env, st, args, r.params);
            EvalCall(c.P, fuel, c.env, st, f, args) ==
            if !r1.Ok? then r1.PropagateFailure()
            else if fuel == 0 then Timeout(r1.st.out)
            else
              var d := Depth(c.env) + 1;
              var r2 := EvalS(c.P, fuel - 1, In(d, r, BindRefs(r.params, r1.val)),
                              r1.st.(store := BindVals(r1.st.store, d, r.params, r1.val)), r.body);
              if !r2.Ok? then r2.PropagateFailure() else Return(r2.st, d, r)
  {
  }

  lemma NoCall(c: Ctx, fuel: nat, st: St, s: State, f: string, args: Exprs, len: int)
    requires var r := FindRoutine(c.P.routines, f); r.None? || Length(args) != |r.value.params|
    ensures Run(c.img, s, 0) == s
    ensures Returns(c, s, EvalCall(c.P, fuel, c.env, st, f, args), s, 0, fuel, len)
  {
  }

  lemma FindPlaced(c: Ctx, r: Routine) returns (pc: nat, n: nat, k: nat)
    requires CtxOk(c) && r in c.P.routines
    ensures Placed(c.P, c.img, r, pc, n, k) && DistinctLabels(c.img.code)
    ensures StmtOk(c.P, Some(r), r.body)
  {
    hide Placed, ActsOk, DistinctLabels, StmtOk, DeclsOk;
    pc, n, k :| Placed(c.P, c.img, r, pc, n, k);
  }

  lemma UnfoldRoutine(c: Ctx, r: Routine, pc: nat, n: nat, k: nat)
    requires Placed(c.P, c.img, r, pc, n, k)
    ensures var slots, body := FrameSlots(r), GenS(c.P, Some(r), r.body, n, k);
            && Sits(c.img.code, pc, [Lbl(LProc(r.name))] + Prologue(slots))
            && Sits(c.img.code, pc + 1 + |Prologue(slots)|, body)
            && Sits(c.img.code, pc + 1 + |Prologue(slots)| + |body|, Epilogue(r))
    ensures TextAt(c.img, k, Literals(r.body))
  {
    var slots, body := FrameSlots(r), GenS(c.P, Some(r), r.body, n, k);
    hide Sits, Prologue, Epilogue, GenS, TextAt, FrameSlots;
    var head := [Lbl(LProc(r.name))] + Prologue(slots);
    assert GenRoutine(c.P, r, n, k) == head + (body + Epilogue(r));
    SitsSplit(c.img.code, pc, head, body + Epilogue(r));
    SitsSplit(c.img.code, pc + |head|, body, Epilogue(r));
  }

  /** The callee's frame is set up: its store is represented, the way back is saved, and everything
      from the arguments upward is as the caller left it. */
  ghost predicate Entered(c: Ctx, c': Ctx, s1: State, st2: St, s2: State, pc: int) {
    && Sim(c', st2, s2) && s2.pc == pc && s1.esp.A? && s2.esp == A(Lo(c'.acts))
    && s1.esp.a - 8 in s2.mem && s2.mem[s1.esp.a - 8] == s1.ebp
    && s1.esp.a - 4 in s2.mem && s2.mem[s1.esp.a - 4] == C(s1.pc + 1)
    && (forall a :: a >= s1.esp.a && a in s1.mem ==> a in s2.mem && s2.mem[a] == s1.mem[a])
  }

  lemma EnterRuns(c: Ctx, st1: St, s1: State, r: Routine, avs: seq<Actual>, pcR: nat) returns (s2: State)
    requires CtxOk(c) && Sim(c, st1, s1) && r in c.P.routines && |r.params| == |avs|
    requires ActualsOk(c.P, c.acts, r.params, avs)
    requires Pushed(c.P, c.acts, avs, s1.mem, s1.esp.a) && s1.esp.a + 4 * |r.params| <= Lo(c.acts)
    requires Sits(c.img.code, s1.pc, [CallP(r.name)]) && DistinctLabels(c.img.code)
    requires Sits(c.img.code, pcR, [Lbl(LProc(r.name))] + Prologue(FrameSlots(r)))
    ensures Run(c.img, s1, EntrySteps(FrameSlots(r))) == s2
    ensures Entered(c, Callee(c, r, avs, s1.esp.a), s1,
                    st1.(store := BindVals(st1.store, |c.acts| + 1, r.params, avs)), s2, pcR + 1
                      + |Prologue(FrameSlots(r))|)
  {
    hide CtxOk, MemOk, RefsOk, Sits, Run, Pushed, ActualsOk, Exec, Lo, Ebp, Prologue, Callee, DistinctLabels,
      FrameSlots,
      BindVals;
    var esp := s1.esp.a;
    EnterExec(c.img, s1, r.name, pcR, FrameSlots(r), esp);
    s2 := Run(c.img, s1, EntrySteps(FrameSlots(r)));
    CalleeOk(c, r, avs, esp);
    CalleeP(c, r, avs, esp);
    EntryMem(c, st1.store, s1.mem, s2.mem, r, avs, esp);
    EntryRefs(c, s1.mem, s2.mem, r, avs, esp);
  }

  lemma CalleeP(c: Ctx, r: Routine, avs: seq<Actual>, esp: int)
    requires |r.params| == |avs|
    ensures Callee(c, r, avs, esp).P == c.P && Callee(c, r, avs, esp).img == c.img
    ensures Callee(c, r, avs, esp).env == In(|c.acts| + 1, r, BindRefs(r.params, avs))
    ensures |Callee(c, r, avs, esp).acts| == |c.acts| + 1 && Callee(c, r, avs, esp).acts[..|c.acts|] == c.acts
    ensures Callee(c, r, avs, esp).acts[|c.acts|] == Act(esp - 8, r, BindRefs(r.params, avs))
  {
  }

  /** What survives the callee's body: the saved frame pointer and the return address. */
  lemma LinkKept(c: Ctx, c': Ctx, s1: State, st2: St, s2: State, pc: int, st3: St, s3: State, len: int)
    requires CtxOk(c') && c'.acts != [] && s1.esp.A? && c'.acts[|c'.acts| - 1].ebp == s1.esp.a - 8
    requires Entered(c, c', s1, st2, s2, pc) && Follows(c', s2, st3, s3, len)
    ensures s1.esp.a - 8 in s3.mem && s3.mem[s1.esp.a - 8] == s1.ebp
    ensures s1.esp.a - 4 in s3.mem && s3.mem[s1.esp.a - 4] == C(s1.pc + 1)
  {
    var b := s1.esp.a - 8;
    hide Sim, ProgramOk, Linked, MemOk, RefsOk, FrameSlots, RefNames, CellOff;
    ControlNotData(c'.P, c'.acts, b);
    ControlNotData(c'.P, c'.acts, b + 4);
  }

  /** The function result is in its slot, slot 0 of the frame. */
  lemma ResultCell(c: Ctx, c': Ctx, r: Routine, st3: St, s3: State)
    requires CtxOk(c') && |c'.acts| == |c.acts| + 1 && c'.acts[|c.acts|].r == r && Sim(c', st3, s3) && r.result.Some?
    requires Local(|c.acts| + 1, r.name, 0) in st3.store
    ensures var b := c'.acts[|c.acts|].ebp - 4;
            && b in s3.mem && s3.mem[b] == I(Enc(st3.store[Local(|c.acts| + 1, r.name, 0)]))
            && ValOk(st3.store[Local(|c.acts| + 1, r.name, 0)])
  {
    var l := Local(|c.acts| + 1, r.name, 0);
    hide CtxOk, RefsOk, Enc, ValOk, Valid;
    ParamEntOf(r.params, 0, r.name);
    TopEbp(c, c');
    assert Addr(c'.P, c'.acts, l) == c'.acts[|c.acts|].ebp - 4;
    assert l in st3.store;
  }

  lemma LeaveRuns(c: Ctx, c': Ctx, s: State, s1: State, st2: St, s2: State, pc: int, r: Routine, st3: St, s3: State,
                  len: int)
    returns (n: nat, s': State)
    requires CtxOk(c) && CtxOk(c') && c'.P == c.P && c'.img == c.img && |c'.acts| == |c.acts| + 1
    requires c'.acts[..|c.acts|] == c.acts
    requires s.esp.A? && s1.esp == A(s.esp.a - 4 * |r.params|) && s1.ebp == A(Ebp(c.acts)) && s1.pc >= 0
    requires s.esp.a <= Lo(c.acts) && s.esp.a % 4 == 0 && RefsOk(c.P, c.acts, s1.mem)
    requires c'.acts[|c.acts|].ebp == s1.esp.a - 8 && c'.acts[|c.acts|].r == r
    requires Kept(c.P, c.acts, s.mem, s1.mem, s.esp.a)
    requires Entered(c, c', s1, st2, s2, pc) && Follows(c', s2, st3, s3, len)
    requires Sits(c.img.code, s3.pc, Epilogue(r)) && Sits(c.img.code, s1.pc + 1, CleanUp(|r.params|))
    requires Return(st3, |c.acts| + 1, r).Ok?
    ensures Run(c.img, s3, n) == s'
    ensures var q := Return(st3, |c.acts| + 1, r);
            && Follows(c, s, q.st, s', s1.pc + 1 + |CleanUp(|r.params|)| - s.pc)
            && (q.val.Some? ==> s'.eax == I(Enc(q.val.value)) && ValOk(q.val.value))
  {
    hide CtxOk, MemOk, RefsOk, Sits, Run, Exec, Lo, Ebp, Epilogue, CleanUp, Kept, Pop, Enc, ValOk, Entered, Follows,
      FrameSlots, FindParam, Sim;
    var esp := s1.esp.a;
    FollowsSim(c', s2, st3, s3, len);
    SimFacts(c', st3, s3);
    TopEbp(c, c');
    LinkKept(c, c', s1, st2, s2, pc, st3, s3, len);
    if r.result.Some? { ResultCell(c, c', r, st3, s3); }
    ExitExec(c.img, s3, r, esp - 8, s1.pc + 1, s1.ebp);
    var s4 := Run(c.img, s3, |Epilogue(r)|);
    CleanExec(c.img, s4, |r.params|, esp);
    s' := Run(c.img, s4, |CleanUp(|r.params|)|);
    n := |Epilogue(r)| + |CleanUp(|r.params|)|;
    Chain(c.img, s3, |Epilogue(r)|, s4, |CleanUp(|r.params|)|, s');
    BackInCaller(c, c', s, s1, st2, s2, pc, r, st3, s3, len, s');
  }

  lemma TopEbp(c: Ctx, c': Ctx)
    requires CtxOk(c') && |c'.acts| == |c.acts| + 1
    ensures Ebp(c'.acts) == c'.acts[|c.acts|].ebp && c'.acts[|c.acts|].ebp % 4 == 0 && Lo(c'.acts) <= Ebp(c'.acts)
    ensures c'.acts[|c.acts|].r.result.Some? ==> FindParam(c'.acts[|c.acts|].r.params, c'.acts[|c.acts|].r.name).None?
  {
  }

  /** Registers and stack restored, the caller's view of memory is as the source says. */
  lemma BackInCaller(c: Ctx, c': Ctx, s: State, s1: State, st2: St, s2: State, pc: int, r: Routine, st3: St, s3: State,
                     len: int, s': State)
    requires CtxOk(c) && CtxOk(c') && c'.P == c.P && |c'.acts| == |c.acts| + 1 && c'.acts[..|c.acts|] == c.acts
    requires s.esp.A? && s1.esp == A(s.esp.a - 4 * |r.params|) && s1.ebp == A(Ebp(c.acts))
    requires s.esp.a <= Lo(c.acts) && s.esp.a % 4 == 0 && RefsOk(c.P, c.acts, s1.mem)
    requires c'.acts[|c.acts|].ebp == s1.esp.a - 8 && c'.acts[|c.acts|].r == r
    requires Kept(c.P, c.acts, s.mem, s1.mem, s.esp.a)
    requires Entered(c, c', s1, st2, s2, pc) && Follows(c', s2, st3, s3, len)
    requires s'.mem == s3.mem && s'.out == s3.out && s'.status == Running && s'.esp == s.esp && s'.ebp == s1.ebp
    ensures Follows(c, s, st3.(store := Pop(st3.store, |c.acts| + 1)), s', s'.pc - s.pc)
  {
    hide CtxOk, MemOk, RefsOk, IsData, Pop, Lo, Ebp, FrameSlots;
    ReturnMem(c, c', st3.store, s3.mem);
    TopEbp(c, c');
    KeptAbove(c, c', s2.mem, s3.mem, s2.esp.a, s.esp.a);
    assert Kept(c.P, c.acts, s1.mem, s2.mem, s.esp.a);
    KeptTrans(c.P, c.acts, s1.mem, s2.mem, s3.mem, s.esp.a, s.esp.a, s.esp.a);
    KeptTrans(c.P, c.acts, s.mem, s1.mem, s3.mem, s.esp.a, s.esp.a, s.esp.a);
    KeptRefs(c, s1.mem, s3.mem, s.esp.a);
  }

  lemma KeptRefs(c: Ctx, m: Mem, m': Mem, esp: int)
    requires CtxOk(c) && RefsOk(c.P, c.acts, m) && Kept(c.P, c.acts, m, m', esp) && esp <= Lo(c.acts)
    ensures RefsOk(c.P, c.acts, m')
  {
    hide RefsOk, Kept, Lo, ProgramOk, Linked, ActsOk;
    RefsKept(c.P, c.acts, m, m', esp);
  }

  lemma CallRuns(c: Ctx, fuel: nat, st: St, s: State, f: string, args: Exprs) returns (n: nat, s': State)
    requires CtxOk(c) && Sim(c, st, s) && CallOk(c.P, ScopeOf(c.env), f, args)
    requires Sits(c.img.code, s.pc, GenCall(c.P, ScopeOf(c.env), f, args))
    ensures Run(c.img, s, n) == s'
    ensures Returns(c, s, EvalCall(c.P, fuel, c.env, st, f, args), s', n, fuel, |GenCall(c.P, ScopeOf(c.env), f, args)|)
    decreases fuel, args, 3
  {
    hide *;
    var ro := FindRoutine(c.P.routines, f);
    if ro.None? || Length(args) != |ro.value.params| {
      n, s' := 0, s;
      NoCall(c, fuel, st, s, f, args, |GenCall(c.P, ScopeOf(c.env), f, args)|);
    } else {
      n, s' := CallRoutineRuns(c, fuel, st, s, f, args, ro.value);
    }
  }

  lemma CallRoutineRuns(c: Ctx, fuel: nat, st: St, s: State, f: string, args: Exprs, r: Routine)
    returns (n: nat, s': State)
    requires CtxOk(c) && Sim(c, st, s) && CallOk(c.P, ScopeOf(c.env), f, args)
    requires Sits(c.img.code, s.pc, GenCall(c.P, ScopeOf(c.env), f, args))
    requires FindRoutine(c.P.routines, f) == Some(r) && Length(args) == |r.params|
    ensures Run(c.img, s, n) == s'
    ensures Returns(c, s, EvalCall(c.P, fuel, c.env, st, f, args), s', n, fuel, |GenCall(c.P, ScopeOf(c.env), f, args)|)
    decreases fuel, args, 2
  {
    hide CtxOk, Sim, Follows, Sits, Run, GenArgs, EvalArgs, EvalCall, GenCall, EvalS, CallOk, ArgsOk, CleanUp, Kept,
      Return, Pushed, ActualsOk, Length, BindRefs, BindVals, FindRoutine, Exec;
    var sc := ScopeOf(c.env);
    UnfoldGenCall(c, fuel, st, f, args, r);
    var ca, cu := GenArgs(c.P, sc, args, r.params), CleanUp(|r.params|);
    SitsSplit(c.img.code, s.pc, ca, [CallP(f)] + cu);
    SitsSplit(c.img.code, s.pc + |ca|, [CallP(f)], cu);
    n, s' := ArgsRuns(c, fuel, st, s, args, r.params);
    var r1 := EvalArgs(c.P, fuel, c.env, st, args, r.params);
    if !r1.Ok? { return; }
    SimFacts(c, r1.st, s');
    if fuel == 0 { return; }
    var s1, n1 := s', n;
    SimFacts(c, st, s);
    DepthIs(c);
    var n2;
    n2, s' := BodyRuns(c, fuel, s, r1.st, s1, r, r1.val);
    n := n1 + n2;
    Chain(c.img, s, n1, s1, n2, s');
  }

  lemma DepthIs(c: Ctx)
    requires CtxOk(c)
    ensures Depth(c.env) == |c.acts|
  {
  }

  /** From the pushed arguments through the callee's body and back. */
  lemma BodyRuns(c: Ctx, fuel: nat, s: State, st1: St, s1: State, r: Routine, avs: seq<Actual>)
    returns (n: nat, s': State)
    requires fuel > 0 && CtxOk(c) && Sim(c, st1, s1) && r in c.P.routines && |r.params| == |avs|
    requires ActualsOk(c.P, c.acts, r.params, avs)
    requires Pushed(c.P, c.acts, avs, s1.mem, s1.esp.a)
    requires s.esp.A? && s1.esp == A(s.esp.a - 4 * |r.params|) && s.esp.a <= Lo(c.acts) && s.esp.a % 4 == 0
    requires Kept(c.P, c.acts, s.mem, s1.mem, s.esp.a)
    requires Sits(c.img.code, s1.pc, [CallP(r.name)]) && Sits(c.img.code, s1.pc + 1, CleanUp(|r.params|))
    ensures Run(c.img, s1, n) == s'
    ensures var d := |c.acts| + 1;
            var r2 := EvalS(c.P, fuel - 1, In(d, r, BindRefs(r.params, avs)),
              st1.(store := BindVals(st1.store, d, r.params, avs)), r.body);
            Returns(c, s, if !r2.Ok? then r2.PropagateFailure() else Return(r2.st, d, r), s', n, fuel,
                    s1.pc + 1 + |CleanUp(|r.params|)| - s.pc)
    decreases fuel - 1
  {
    hide CtxOk, Sim, Follows, Sits, Run, EvalS, CleanUp, Kept, Return, Pushed, ActualsOk, BindRefs, BindVals, Entered,
      Placed, Callee, Lo, FrameSlots, Prologue, Epilogue, GenS, DistinctLabels, StmtOk, TextAt, Literals, RefsOk;
    var pc, nl, kl := FindPlaced(c, r);
    UnfoldRoutine(c, r, pc, nl, kl);
    SimFacts(c, st1, s1);
    PcOk(c, s1, r.name);
    var st2 := st1.(store := BindVals(st1.store, |c.acts| + 1, r.params, avs));
    var c' := Callee(c, r, avs, s1.esp.a);
    var s2 := EnterRuns(c, st1, s1, r, avs, pc);
    CalleeP(c, r, avs, s1.esp.a);
    CalleeOk(c, r, avs, s1.esp.a);
    EnteredSim(c, c', s1, st2, s2, pc + 1 + |Prologue(FrameSlots(r))|);
    var m := EntrySteps(FrameSlots(r));
    var n3, s3 := StmtRuns(c', fuel - 1, st2, s2, r.body, nl, kl);
    n, s' := m + n3, s3;
    Chain(c.img, s1, m, s2, n3, s3);
    var r2 := EvalS(c.P, fuel - 1, c'.env, st2, r.body);
    if r2.Ok? {
      FollowsSim(c', s2, r2.st, s3, |GenS(c.P, Some(r), r.body, nl, kl)|);
      if Return(r2.st, |c.acts| + 1, r).Ok? {
        var n4;
        n4, s' := LeaveRuns(c, c', s, s1, st2, s2, pc + 1 + |Prologue(FrameSlots(r))|, r, r2.st, s3,
          |GenS(c.P, Some(r), r.body, nl, kl)|);
        Chain(c.img, s1, m + n3, s3, n4, s');
        n := m + n3 + n4;
      }
      ReturnIs(r2.st, |c.acts| + 1, r);
    }
  }

  lemma ReturnIs(st: St, d: nat, r: Routine)
    ensures !Return(st, d, r).Fault? && !Return(st, d, r).Timeout?
  {
  }

  lemma PcOk(c: Ctx, s: State, f: string)
    requires Sits(c.img.code, s.pc, [CallP(f)])
    ensures s.pc >= 0
  {
  }

  lemma EnteredSim(c: Ctx, c': Ctx, s1: State, st2: St, s2: State, pc: int)
    requires Entered(c, c', s1, st2, s2, pc)
    ensures Sim(c', st2, s2) && s2.pc == pc
  {
  }

  lemma StmtRuns(c: Ctx, fuel: nat, st: St, s: State, t: Stmt, nl: nat, kl: nat) returns (n: nat, s': State)
    requires CtxOk(c) && Sim(c, st, s) && StmtOk(c.P, ScopeOf(c.env), t) && TextAt(c.img, kl, Literals(t))
    requires Sits(c.img.code, s.pc, GenS(c.P, ScopeOf(c.env), t, nl, kl))
    ensures Run(c.img, s, n) == s'
    ensures Does(c, s, EvalS(c.P, fuel, c.env, st, t), s', n, fuel, |GenS(c.P, ScopeOf(c.env), t, nl, kl)|)
    decreases fuel, t, 1
  {
    hide *;
    match t
    case Skip => n, s' := SkipRuns(c, fuel, st, s, nl, kl);
    case Seq(t1, t2) => n, s' := SeqRuns(c, fuel, st, s, t1, t2, nl, kl);
    case Assign(p, e) =>
      if p.Name? {
        n, s' := AssignNameRuns(c, fuel, st, s, p.x, e, nl, kl);
      } else {
        n, s' := AssignPlaceRuns(c, fuel, st, s, p, e, nl, kl);
      }
    case CopyField(d, q) => n, s' := CopyRuns(c, fuel, st, s, d, q, nl, kl);
    case If(b, t1) => n, s' := IfRuns(c, fuel, st, s, b, t1, nl, kl);
    case IfElse(b, t1, t2) => n, s' := IfElseRuns(c, fuel, st, s, b, t1, t2, nl, kl);
    case While(b, t1) => n, s' := WhileRuns(c, fuel, st, s, b, t1, nl, kl);
    case CallStmt(f, args) =>
      UnfoldCallStmt(c, fuel, st, f, args, nl, kl);
      n, s' := CallRuns(c, fuel, st, s, f, args);
      CallDone(c, s, EvalCall(c.P, fuel, c.env, st, f, args), s', n, fuel, |GenCall(c.P, ScopeOf(c.env), f, args)|);
    case WriteLit(text) => n, s' := WriteLitRuns(c, fuel, st, s, text, nl, kl);
    case WriteVal(ty, e) => n, s' := WriteValRuns(c, fuel, st, s, ty, e, nl, kl);
    case WriteLn => n, s' := WriteLnRuns(c, fuel, st, s, nl, kl);
  }

  lemma UnfoldCallStmt(c: Ctx, fuel: nat, st: St, f: string, args: Exprs, nl: nat, kl: nat)
    ensures GenS(c.P, ScopeOf(c.env), CallStmt(f, args), nl, kl) == GenCall(c.P, ScopeOf(c.env), f, args)
    ensures EvalS(c.P, fuel, c.env, st, CallStmt(f, args)) == Discard(EvalCall(c.P, fuel, c.env, st, f, args))
    ensures StmtOk(c.P, ScopeOf(c.env), CallStmt(f, args)) ==> CallOk(c.P, ScopeOf(c.env), f, args)
  {
  }

  function Discard<T>(r: Res<T>): Res<()> {
    if !r.Ok? then r.PropagateFailure() else Ok((), r.st)
  }

  lemma CallDone(c: Ctx, s: State, r: Res<Option<Value>>, s': State, n: nat, fuel: nat, len: int)
    requires Returns(c, s, r, s', n, fuel, len)
    ensures Does(c, s, Discard(r), s', n, fuel, len)
  {
    hide Follows, Enc, ValOk;
  }

  lemma SkipRuns(c: Ctx, fuel: nat, st: St, s: State, nl: nat, kl: nat) returns (n: nat, s': State)
    requires Sim(c, st, s)
    ensures Run(c.img, s, n) == s'
    ensures Does(c, s, EvalS(c.P, fuel, c.env, st, Skip), s', n, fuel, |GenS(c.P, ScopeOf(c.env), Skip, nl, kl)|)
  {
    hide MemOk, RefsOk;
    n, s' := 0, s;
  }

  // ---- sequencing ----

  lemma UnfoldSeq(c: Ctx, fuel: nat, st: St, t1: Stmt, t2: Stmt, nl: nat, kl: nat)
    ensures GenS(c.P, ScopeOf(c.env), Seq(t1, t2), nl, kl) ==
            GenS(c.P, ScopeOf(c.env), t1, nl, kl) + GenS(c.P, ScopeOf(c.env), t2, nl + Labels(t1), kl + |Literals(t1)|)
    ensures var r1 := EvalS(c.P, fuel, c.env, st, t1);
            EvalS(c.P, fuel, c.env, st, Seq(t1, t2)) ==
            if !r1.Ok? then r1.PropagateFailure() else EvalS(c.P, fuel, c.env, r1.st, t2)
    ensures StmtOk(c.P, ScopeOf(c.env), Seq(t1, t2)) ==>
              StmtOk(c.P, ScopeOf(c.env), t1) && StmtOk(c.P, ScopeOf(c.env), t2)
    ensures Literals(Seq(t1, t2)) == Literals(t1) + Literals(t2)
  {
  }

  lemma TextSplit(img: Image, k: nat, a: seq<seq<int>>, b: seq<seq<int>>)
    requires TextAt(img, k, a + b)
    ensures TextAt(img, k, a) && TextAt(img, k + |a|, b)
  {
    var w := img.text[k..k + |a + b|];
    assert a == w[..|a|] && b == w[|a|..];
    assert img.text[k..k + |a|] == w[..|a|];
    assert img.text[k + |a|..k + |a| + |b|] == w[|a|..];
  }

  lemma SeqRuns(c: Ctx, fuel: nat, st: St, s: State, t1: Stmt, t2: Stmt, nl: nat, kl: nat) returns (n: nat, s': State)
    requires CtxOk(c) && Sim(c, st, s) && StmtOk(c.P, ScopeOf(c.env), Seq(t1, t2))
    requires TextAt(c.img, kl, Literals(Seq(t1, t2)))
    requires Sits(c.img.code, s.pc, GenS(c.P, ScopeOf(c.env), Seq(t1, t2), nl, kl))
    ensures Run(c.img, s, n) == s'
    ensures Does(c, s, EvalS(c.P, fuel, c.env, st, Seq(t1, t2)), s', n, fuel,
            |GenS(c.P, ScopeOf(c.env), Seq(t1, t2), nl, kl)|)
    decreases fuel, Seq(t1, t2), 0
  {
    hide CtxOk, Sim, Follows, Sits, Run, GenS, EvalS, StmtOk, TextAt, Literals, Labels;
    UnfoldSeq(c, fuel, st, t1, t2, nl, kl);
    TextSplit(c.img, kl, Literals(t1), Literals(t2));
    var c1 := GenS(c.P, ScopeOf(c.env), t1, nl, kl);
    var c2 := GenS(c.P, ScopeOf(c.env), t2, nl + Labels(t1), kl + |Literals(t1)|);
    SitsSplit(c.img.code, s.pc, c1, c2);
    n, s' := StmtRuns(c, fuel, st, s, t1, nl, kl);
    var r1 := EvalS(c.P, fuel, c.env, st, t1);
    if r1.Ok? {
      var s1, n1 := s', n;
      FollowsSim(c, s, r1.st, s1, |c1|);
      var n2;
      n2, s' := StmtRuns(c, fuel, r1.st, s1, t2, nl + Labels(t1), kl + |Literals(t1)|);
      n := n1 + n2;
      Chain(c.img, s, n1, s1, n2, s');
      var r2 := EvalS(c.P, fuel, c.env, r1.st, t2);
      if r2.Ok? { FollowsTrans(c, s, r1.st, s1, |c1|, r2.st, s', |c2|); }
    }
  }

  // ---- assignment ----

  lemma UnfoldAssign(c: Ctx, fuel: nat, st: St, p: Place, e: Expr, nl: nat, kl: nat)
    ensures GenS(c.P, ScopeOf(c.env), Assign(p, e), nl, kl) ==
            if p.Name? then GenE(c.P, ScopeOf(c.env), e) + GenWriteName(ScopeOf(c.env), p.x)
            else
              GenAddr(c.P, ScopeOf(c.env), p)
              + ([Push(EAX)] + (GenE(c.P, ScopeOf(c.env), e) + [Pull(EDX), Save(EDX, 0, EAX)]))
    ensures p.Name? ==>
              var r1 := EvalE(c.P, fuel, c.env, st, e);
              EvalS(c.P, fuel, c.env, st, Assign(p, e)) ==
              if !r1.Ok? then r1.PropagateFailure()
              else
                var r2 := EvalP(c.P, fuel, c.env, r1.st, p);
                if !r2.Ok? then r2.PropagateFailure() else Deposit(r2.st, r2.val, r1.val)
    ensures !p.Name? ==>
              var r1 := EvalP(c.P, fuel, c.env, st, p);
              EvalS(c.P, fuel, c.env, st, Assign(p, e)) ==
              if !r1.Ok? then r1.PropagateFailure()
              else
                var r2 := EvalE(c.P, fuel, c.env, r1.st, e);
                if !r2.Ok? then r2.PropagateFailure() else Deposit(r2.st, r1.val, r2.val)
    ensures StmtOk(c.P, ScopeOf(c.env), Assign(p, e)) ==>
              PlaceOk(c.P, ScopeOf(c.env), p) && ExprOk(c.P, ScopeOf(c.env), e)
  {
  }

  lemma AssignNameRuns(c: Ctx, fuel: nat, st: St, s: State, x: string, e: Expr, nl: nat, kl: nat)
    returns (n: nat, s': State)
    requires CtxOk(c) && Sim(c, st, s) && StmtOk(c.P, ScopeOf(c.env), Assign(Name(x), e))
    requires Sits(c.img.code, s.pc, GenS(c.P, ScopeOf(c.env), Assign(Name(x), e), nl, kl))
    ensures Run(c.img, s, n) == s'
    ensures Does(c, s, EvalS(c.P, fuel, c.env, st, Assign(Name(x), e)), s', n, fuel,
            |GenS(c.P, ScopeOf(c.env), Assign(Name(x), e), nl, kl)|)
    decreases fuel, Assign(Name(x), e), 0
  {
    hide CtxOk, Sim, Follows, Sits, Run, GenS, EvalS, EvalE, EvalP, StmtOk, ExprOk, PlaceOk, GenE, GenWriteName, Lookup,
      HasTy, ValOk, Enc, Valid, RefsOk;
    UnfoldAssign(c, fuel, st, Name(x), e, nl, kl);
    var c1, c2 := GenE(c.P, ScopeOf(c.env), e), GenWriteName(ScopeOf(c.env), x);
    SitsSplit(c.img.code, s.pc, c1, c2);
    n, s' := ExprRuns(c, fuel, st, s, e);
    var r1 := EvalE(c.P, fuel, c.env, st, e);
    if !r1.Ok? { return; }
    var s1, n1 := s', n;
    FollowsSim(c, s, r1.st, s1, |c1|);
    UnfoldRead(c, fuel, r1.st, Name(x));
    var r2 := EvalP(c.P, fuel, c.env, r1.st, Name(x));
    if r2.Ok? && Deposit(r2.st, r2.val, r1.val).Ok? {
      SimFacts(c, r1.st, s1);
      BaseValid(c, s1.mem, x);
      var n2;
      n2, s' := WriteRuns(c, r1.st, s1, x, r1.val);
      n := n1 + n2;
      Chain(c.img, s, n1, s1, n2, s');
      FollowsTrans(c, s, r1.st, s1, |c1|, Deposit(r2.st, r2.val, r1.val).st, s', |c2|);
    }
  }

  /** `pop edx` and `mov [edx], eax`. */
  lemma PutExec(img: Image, s: State, esp: int, a: int)
    requires Sits(img.code, s.pc, [Pull(EDX), Save(EDX, 0, EAX)]) && s.status == Running
    requires s.esp == A(esp) && esp % 4 == 0 && esp in s.mem && s.mem[esp] == A(a) && a % 4 == 0
    ensures var s' := Run(img, s, 2);
            SameBut(s.(esp := A(esp + 4), mem := s.mem[a := s.eax]), s') && s'.pc == s.pc + 2
  {
    hide Sits, Run;
    Steps2(img, s, s.pc, [Pull(EDX), Save(EDX, 0, EAX)], 0);
  }

  lemma AssignPlaceRuns(c: Ctx, fuel: nat, st: St, s: State, p: Place, e: Expr, nl: nat, kl: nat)
    returns (n: nat, s': State)
    requires CtxOk(c) && Sim(c, st, s) && StmtOk(c.P, ScopeOf(c.env), Assign(p, e)) && !p.Name?
    requires Sits(c.img.code, s.pc, GenS(c.P, ScopeOf(c.env), Assign(p, e), nl, kl))
    ensures Run(c.img, s, n) == s'
    ensures Does(c, s, EvalS(c.P, fuel, c.env, st, Assign(p, e)), s', n, fuel,
            |GenS(c.P, ScopeOf(c.env), Assign(p, e), nl, kl)|)
    decreases fuel, Assign(p, e), 0
  {
    hide CtxOk, Sim, Follows, Sits, Run, GenS, EvalS, EvalE, EvalP, StmtOk, ExprOk, PlaceOk, GenE, GenAddr, HasTy,
      ValOk,
      Enc, Valid, RefsOk, Spilled, Kept, Addr, Lo;
    UnfoldAssign(c, fuel, st, p, e, nl, kl);
    var ca, ce, ct := GenAddr(c.P, ScopeOf(c.env), p), GenE(c.P, ScopeOf(c.env), e), [Pull(EDX), Save(EDX, 0, EAX)];
    SitsSplit(c.img.code, s.pc, ca, [Push(EAX)] + (ce + ct));
    SitsSplit(c.img.code, s.pc + |ca|, [Push(EAX)], ce + ct);
    SitsSplit(c.img.code, s.pc + |ca| + 1, ce, ct);
    n, s' := PlaceRuns(c, fuel, st, s, p);
    var r1 := EvalP(c.P, fuel, c.env, st, p);
    if !r1.Ok? { return; }
    var s1, n1 := s', n;
    FollowsSim(c, s, r1.st, s1, |ca|);
    var s2 := PushRuns(c, r1.st, s1);
    Chain(c.img, s, n1, s1, 1, s2);
    SpilledSim(c, r1.st, s1, s2);
    var n3, s3 := ExprRuns(c, fuel, r1.st, s2, e);
    Chain(c.img, s, n1 + 1, s2, n3, s3);
    n, s' := n1 + 1 + n3, s3;
    var r2 := EvalE(c.P, fuel, c.env, r1.st, e);
    if r2.Ok? && Deposit(r2.st, r1.val, r2.val).Ok? {
      FollowsSim(c, s2, r2.st, s3, |ce|);
      DestValid(c, s, fuel, st, p);
      s' := PutRuns(c, r1.st, s1, s2, r2.st, s3, |ce|, r1.val.l, r2.val);
      Chain(c.img, s, n1 + 1 + n3, s3, 2, s');
      n := n1 + 1 + n3 + 2;
      FollowsTrans(c, s, r1.st, s1, |ca|, Deposit(r2.st, r1.val, r2.val).st, s', 1 + |ce| + 2);
    }
  }

  lemma DestValid(c: Ctx, s: State, fuel: nat, st: St, p: Place)
    requires CtxOk(c) && Sim(c, st, s) && EvalP(c.P, fuel, c.env, st, p).Ok?
    ensures Valid(c.P, c.acts, EvalP(c.P, fuel, c.env, st, p).val.l)
  {
    hide CtxOk, MemOk, RefsOk, EvalP, Valid, IsFrameBase;
    PlaceValid(c, s.mem, fuel, st, p);
    var d := EvalP(c.P, fuel, c.env, st, p).val;
    assert Valid(c.P, c.acts, Shift(d.l, 0));
    assert Shift(d.l, 0) == d.l;
  }

  lemma PutRuns(c: Ctx, st1: St, s1: State, s2: State, st2: St, s3: State, len: int, l: Loc, v: Value)
    returns (s': State)
    requires CtxOk(c) && Sim(c, st1, s1) && Spilled(c, st1, s1, s2) && Follows(c, s2, st2, s3, len)
    requires s1.eax == A(Addr(c.P, c.acts, l)) && Valid(c.P, c.acts, l) && s3.eax == I(Enc(v)) && ValOk(v)
    requires Sits(c.img.code, s3.pc, [Pull(EDX), Save(EDX, 0, EAX)])
    ensures Run(c.img, s3, 2) == s'
    ensures Follows(c, s1, st2.(store := st2.store[l := v]), s', 1 + len + 2)
  {
    hide CtxOk, Sim, Sits, Run, Enc, ValOk, Kept, Spilled, Follows, Exec, Addr, Valid, Lo;
    SpillTop(c, st1, s1, s2, st2, s3, len);
    CellAligned(c, l);
    PutExec(c.img, s3, s2.esp.a, Addr(c.P, c.acts, l));
    s' := Run(c.img, s3, 2);
    var s4 := s3.(esp := s1.esp);
    Unspill(c, st1, s1, s2, st2, s3, len, s4);
    SpilledSim(c, st1, s1, s2);
    FollowsSim(c, s2, st2, s3, len);
    Rejoin(c, s1, st2, s4, 1 + len);
    Stored(c, st2, s4, s', l, v, 2);
    FollowsTrans(c, s1, st2, s4, 1 + len, st2.(store := st2.store[l := v]), s', 2);
  }

  lemma CellAligned(c: Ctx, l: Loc)
    requires CtxOk(c) && Valid(c.P, c.acts, l)
    ensures Addr(c.P, c.acts, l) % 4 == 0
  {
    hide Addr, Valid, ProgramOk, Linked, Lo;
    AddrBounds(c.P, c.acts, l);
  }

  // ---- field copies ----

  lemma UnfoldCopy(c: Ctx, fuel: nat, st: St, d: Place, q: Place, nl: nat, kl: nat)
    ensures GenS(c.P, ScopeOf(c.env), CopyField(d, q), nl, kl) ==
            GenAddr(c.P, ScopeOf(c.env), q)
              + ([Load(EAX, EAX, 0), Push(EAX)] + (GenAddr(c.P, ScopeOf(c.env), d) + [Pull(ECX), Save(EAX, 0, ECX)]))
    ensures var r1 := EvalP(c.P, fuel, c.env, st, q);
            EvalS(c.P, fuel, c.env, st, CopyField(d, q)) ==
            if !r1.Ok? then r1.PropagateFailure()
            else
              var v := Fetch(r1.st, r1.val);
              if !v.Ok? then v.PropagateFailure()
              else
                var r2 := EvalP(c.P, fuel, c.env, r1.st, d);
                if !r2.Ok? then r2.PropagateFailure() else Deposit(r2.st, r2.val, v.val)
    ensures StmtOk(c.P, ScopeOf(c.env), CopyField(d, q)) ==>
              PlaceOk(c.P, ScopeOf(c.env), d) && PlaceOk(c.P, ScopeOf(c.env), q)
  {
  }

  /** `pop ecx` and `mov [eax], ecx`. */
  lemma CopyExec(img: Image, s: State, esp: int, a: int)
    requires Sits(img.code, s.pc, [Pull(ECX), Save(EAX, 0, ECX)]) && s.status == Running
    requires s.esp == A(esp) && esp % 4 == 0 && esp in s.mem && s.eax == A(a) && a % 4 == 0
    ensures var s' := Run(img, s, 2);
            SameBut(s.(esp := A(esp + 4), mem := s.mem[a := s.mem[esp]]), s') && s'.pc == s.pc + 2
  {
    hide Sits, Run;
    Steps2(img, s, s.pc, [Pull(ECX), Save(EAX, 0, ECX)], 0);
  }

  lemma {:induction false} CopyRuns(c: Ctx, fuel: nat, st: St, s: State, d: Place, q: Place, nl: nat, kl: nat)
    returns (n: nat, s': State)
    requires CtxOk(c) && Sim(c, st, s) && StmtOk(c.P, ScopeOf(c.env), CopyField(d, q))
    requires Sits(c.img.code, s.pc, GenS(c.P, ScopeOf(c.env), CopyField(d, q), nl, kl))
    ensures Run(c.img, s, n) == s'
    ensures Does(c, s, EvalS(c.P, fuel, c.env, st, CopyField(d, q)), s', n, fuel,
            |GenS(c.P, ScopeOf(c.env), CopyField(d, q), nl, kl)|)
    decreases fuel, CopyField(d, q), 0
  {
    hide CtxOk, Sim, Follows, Sits, Run, GenS, EvalS, EvalP, StmtOk, PlaceOk, GenAddr, HasTy, ValOk, Enc, Valid, RefsOk,
      Spilled, Kept, Addr, Lo;
    UnfoldCopy(c, fuel, st, d, q, nl, kl);
    var cq, cd, ct := GenAddr(c.P, ScopeOf(c.env), q), GenAddr(c.P, ScopeOf(c.env), d), [Pull(ECX), Save(EAX, 0, ECX)];
    assert [Load(EAX, EAX, 0), Push(EAX)] == [Load(EAX, EAX, 0)] + [Push(EAX)];
    SitsSplit(c.img.code, s.pc, cq, [Load(EAX, EAX, 0), Push(EAX)] + (cd + ct));
    SitsSplit(c.img.code, s.pc + |cq|, [Load(EAX, EAX, 0), Push(EAX)], cd + ct);
    SitsSplit(c.img.code, s.pc + |cq|, [Load(EAX, EAX, 0)], [Push(EAX)]);
    SitsSplit(c.img.code, s.pc + |cq| + 2, cd, ct);
    n, s' := PlaceRuns(c, fuel, st, s, q);
    var r1 := EvalP(c.P, fuel, c.env, st, q);
    if !r1.Ok? || !Fetch(r1.st, r1.val).Ok? { return; }
    var v := r1.st.store[r1.val.l];
    var s0, n0 := s', n;
    FollowsSim(c, s, r1.st, s0, |cq|);
    var s1 := LoadRuns(c, r1.st, s0, r1.val.l);
    FollowsTrans(c, s, r1.st, s0, |cq|, r1.st, s1, 1);
    Chain(c.img, s, n0, s0, 1, s1);
    FollowsSim(c, s, r1.st, s1, |cq| + 1);
    var s2 := PushRuns(c, r1.st, s1);
    Chain(c.img, s, n0 + 1, s1, 1, s2);
    SpilledSim(c, r1.st, s1, s2);
    var n3, s3 := PlaceRuns(c, fuel, r1.st, s2, d);
    Chain(c.img, s, n0 + 2, s2, n3, s3);
    n, s' := n0 + 2 + n3, s3;
    var r2 := EvalP(c.P, fuel, c.env, r1.st, d);
    if r2.Ok? && Deposit(r2.st, r2.val, v).Ok? {
      FollowsSim(c, s2, r2.st, s3, |cd|);
      DestValid(c, s2, fuel, r1.st, d);
      s' := CopyTail(c, r1.st, s1, s2, r2.st, s3, |cd|, r2.val.l, v);
      Chain(c.img, s, n0 + 2 + n3, s3, 2, s');
      n := n0 + 2 + n3 + 2;
      FollowsTrans(c, s, r1.st, s1, |cq| + 1, Deposit(r2.st, r2.val, v).st, s', 1 + |cd| + 2);
    }
  }

  lemma CopyTail(c: Ctx, st1: St, s1: State, s2: State, st2: St, s3: State, len: int, l: Loc, v: Value)
    returns (s': State)
    requires CtxOk(c) && Sim(c, st1, s1) && Spilled(c, st1, s1, s2) && Follows(c, s2, st2, s3, len)
    requires s3.eax == A(Addr(c.P, c.acts, l)) && Valid(c.P, c.acts, l) && s1.eax == I(Enc(v)) && ValOk(v)
    requires Sits(c.img.code, s3.pc, [Pull(ECX), Save(EAX, 0, ECX)])
    ensures Run(c.img, s3, 2) == s'
    ensures Follows(c, s1, st2.(store := st2.store[l := v]), s', 1 + len + 2)
  {
    hide CtxOk, Sim, Sits, Run, Enc, ValOk, Kept, Spilled, Follows, Exec, Addr, Valid, Lo;
    SpillTop(c, st1, s1, s2, st2, s3, len);
    CellAligned(c, l);
    CopyExec(c.img, s3, s2.esp.a, Addr(c.P, c.acts, l));
    s' := Run(c.img, s3, 2);
    var s4 := s3.(esp := s1.esp);
    Unspill(c, st1, s1, s2, st2, s3, len, s4);
    SpilledSim(c, st1, s1, s2);
    FollowsSim(c, s2, st2, s3, len);
    Rejoin(c, s1, st2, s4, 1 + len);
    Stored(c, st2, s4, s', l, v, 2);
    FollowsTrans(c, s1, st2, s4, 1 + len, st2.(store := st2.store[l := v]), s', 2);
  }

  // ---- control flow ----

  /** `test eax, eax` and `jz`: a guard falls through when true and jumps when false. */
  lemma GuardExec(img: Image, s: State, l: Label, k: nat, b: bool)
    requires Sits(img.code, s.pc, [TestEAX, Jz(l)]) && s.status == Running && s.eax == I(if b then 1 else 0)
    requires DistinctLabels(img.code) && k < |img.code| && img.code[k] == Lbl(l)
    ensures var s' := Run(img, s, 2); SameBut(s, s') && s'.pc == if b then s.pc + 2 else k
  {
    hide Sits, Run, DistinctLabels, Find;
    FindAt(img.code, l, k);
    Steps2(img, s, s.pc, [TestEAX, Jz(l)], 0);
  }

  lemma GuardRuns(c: Ctx, st: St, s: State, l: Label, k: int, v: Value) returns (s': State)
    requires CtxOk(c) && Sim(c, st, s) && v.VB? && s.eax == I(Enc(v))
    requires Sits(c.img.code, s.pc, [TestEAX, Jz(l)]) && Sits(c.img.code, k, [Lbl(l)])
    ensures Run(c.img, s, 2) == s' && s'.pc == (if v.b then s.pc + 2 else k) && Follows(c, s, st, s', s'.pc - s.pc)
  {
    hide CtxOk, Sim, Follows, Sits, Run, DistinctLabels, Exec;
    SimFacts(c, st, s);
    Distinct(c);
    SitsAt(c.img.code, k, [Lbl(l)], 0);
    GuardExec(c.img, s, l, k, v.b);
    s' := Run(c.img, s, 2);
    Stay(c, st, s, s', s'.pc - s.pc);
  }

  lemma Distinct(c: Ctx)
    requires CtxOk(c)
    ensures DistinctLabels(c.img.code)
  {
  }

  /** Passing a label. */
  lemma LabelRuns(c: Ctx, st: St, s: State, l: Label) returns (s': State)
    requires CtxOk(c) && Sim(c, st, s) && Sits(c.img.code, s.pc, [Lbl(l)])
    ensures Run(c.img, s, 1) == s' && Follows(c, s, st, s', 1)
  {
    hide CtxOk, Sim, Follows, Sits, Run;
    SimFacts(c, st, s);
    StepAt(c.img, s, s.pc, [Lbl(l)], 0);
    s' := Exec(c.img, Lbl(l), s);
    Stay(c, st, s, s', 1);
  }

  lemma JumpRuns(c: Ctx, st: St, s: State, l: Label, k: int) returns (s': State)
    requires CtxOk(c) && Sim(c, st, s) && Sits(c.img.code, s.pc, [Jmp(l)]) && Sits(c.img.code, k, [Lbl(l)])
    ensures Run(c.img, s, 1) == s' && s'.pc == k && Follows(c, s, st, s', k - s.pc)
  {
    hide CtxOk, Sim, Follows, Sits, Run, DistinctLabels, Find;
    SimFacts(c, st, s);
    Distinct(c);
    SitsAt(c.img.code, k, [Lbl(l)], 0);
    FindAt(c.img.code, l, k);
    StepAt(c.img, s, s.pc, [Jmp(l)], 0);
    s' := Exec(c.img, Jmp(l), s);
    Stay(c, st, s, s', k - s.pc);
  }

  lemma UnfoldIf(c: Ctx, fuel: nat, st: St, b: Expr, t: Stmt, nl: nat, kl: nat)
    ensures GenS(c.P, ScopeOf(c.env), If(b, t), nl, kl) ==
            GenE(c.P, ScopeOf(c.env), b)
              + ([TestEAX, Jz(LEndif(nl))] + (GenS(c.P, ScopeOf(c.env), t, nl + 1, kl) + [Lbl(LEndif(nl))]))
    ensures var r1 := EvalE(c.P, fuel, c.env, st, b);
            EvalS(c.P, fuel, c.env, st, If(b, t)) ==
            if !r1.Ok? then r1.PropagateFailure()
            else if !r1.val.VB? then TypeErr
            else if r1.val.b then EvalS(c.P, fuel, c.env, r1.st, t) else Ok((), r1.st)
    ensures StmtOk(c.P, ScopeOf(c.env), If(b, t)) ==> ExprOk(c.P, ScopeOf(c.env), b) && StmtOk(c.P, ScopeOf(c.env), t)
    ensures Literals(If(b, t)) == Literals(t)
  {
  }

  lemma IfRuns(c: Ctx, fuel: nat, st: St, s: State, b: Expr, t: Stmt, nl: nat, kl: nat) returns (n: nat, s': State)
    requires CtxOk(c) && Sim(c, st, s) && StmtOk(c.P, ScopeOf(c.env), If(b, t)) && TextAt(c.img, kl, Literals(If(b, t)))
    requires Sits(c.img.code, s.pc, GenS(c.P, ScopeOf(c.env), If(b, t), nl, kl))
    ensures Run(c.img, s, n) == s'
    ensures Does(c, s, EvalS(c.P, fuel, c.env, st, If(b, t)), s', n, fuel,
            |GenS(c.P, ScopeOf(c.env), If(b, t), nl, kl)|)
    decreases fuel, If(b, t), 0
  {
    hide CtxOk, Sim, Follows, Sits, Run, GenS, EvalS, EvalE, StmtOk, ExprOk, GenE, ValOk, Enc, TextAt, Literals;
    UnfoldIf(c, fuel, st, b, t, nl, kl);
    var sc := ScopeOf(c.env);
    var cc, cg, ct, cl := GenE(c.P, sc, b), [TestEAX, Jz(LEndif(nl))], GenS(c.P, sc, t, nl + 1, kl), [Lbl(LEndif(nl))];
    SitsSplit(c.img.code, s.pc, cc, cg + (ct + cl));
    SitsSplit(c.img.code, s.pc + |cc|, cg, ct + cl);
    SitsSplit(c.img.code, s.pc + |cc| + 2, ct, cl);
    n, s' := ExprRuns(c, fuel, st, s, b);
    var r1 := EvalE(c.P, fuel, c.env, st, b);
    if !r1.Ok? || !r1.val.VB? { return; }
    var s1, n1 := s', n;
    FollowsSim(c, s, r1.st, s1, |cc|);
    var s2 := GuardRuns(c, r1.st, s1, LEndif(nl), s.pc + |cc| + 2 + |ct|, r1.val);
    Chain(c.img, s, n1, s1, 2, s2);
    FollowsTrans(c, s, r1.st, s1, |cc|, r1.st, s2, s2.pc - s1.pc);
    FollowsSim(c, s1, r1.st, s2, s2.pc - s1.pc);
    n, s' := n1 + 2, s2;
    var st3 := r1.st;
    if r1.val.b {
      var n3, s3 := StmtRuns(c, fuel, r1.st, s2, t, nl + 1, kl);
      Chain(c.img, s, n1 + 2, s2, n3, s3);
      n, s' := n1 + 2 + n3, s3;
      var r3 := EvalS(c.P, fuel, c.env, r1.st, t);
      if !r3.Ok? { return; }
      st3 := r3.st;
      FollowsTrans(c, s, r1.st, s2, s2.pc - s.pc, st3, s3, |ct|);
      FollowsSim(c, s2, st3, s3, |ct|);
    }
    var s4 := s';
    FollowsSim(c, s, st3, s4, s4.pc - s.pc);
    s' := LabelRuns(c, st3, s4, LEndif(nl));
    Chain(c.img, s, n, s4, 1, s');
    FollowsTrans(c, s, st3, s4, s4.pc - s.pc, st3, s', 1);
    n := n + 1;
  }

  lemma {:induction false} UnfoldIfElse(c: Ctx, fuel: nat, st: St, b: Expr, t: Stmt, e: Stmt, nl: nat, kl: nat)
    ensures GenS(c.P, ScopeOf(c.env), IfElse(b, t, e), nl, kl) ==
            GenE(c.P, ScopeOf(c.env), b) + ([TestEAX, Jz(LElse(nl))] + (GenS(c.P, ScopeOf(c.env), t, nl + 1, kl)
              + ([Jmp(LEndif(nl)), Lbl(LElse(nl))]
              + (GenS(c.P, ScopeOf(c.env), e, nl + 1 + Labels(t), kl + |Literals(t)|) + [Lbl(LEndif(nl))]))))
    ensures var r1 := EvalE(c.P, fuel, c.env, st, b);
            EvalS(c.P, fuel, c.env, st, IfElse(b, t, e)) ==
            if !r1.Ok? then r1.PropagateFailure()
            else if !r1.val.VB? then TypeErr
            else if r1.val.b then EvalS(c.P, fuel, c.env, r1.st, t) else EvalS(c.P, fuel, c.env, r1.st, e)
    ensures StmtOk(c.P, ScopeOf(c.env), IfElse(b, t, e)) ==>
              ExprOk(c.P, ScopeOf(c.env), b) && StmtOk(c.P, ScopeOf(c.env), t) && StmtOk(c.P, ScopeOf(c.env), e)
    ensures Literals(IfElse(b, t, e)) == Literals(t) + Literals(e)
  {
    hide GenS, GenE, EvalE, ExprOk, Labels;
    GenIfElseIs(c.P, ScopeOf(c.env), b, t, e, nl, kl);
  }

  lemma IfElseSits(code: seq<Instr>, pc: int, cc: seq<Instr>, ct: seq<Instr>, ce: seq<Instr>, nl: nat)
    requires Sits(code, pc, cc + ([TestEAX, Jz(LElse(nl))]
             + (ct + ([Jmp(LEndif(nl)), Lbl(LElse(nl))] + (ce + [Lbl(LEndif(nl))])))))
    ensures Sits(code, pc, cc) && Sits(code, pc + |cc|, [TestEAX, Jz(LElse(nl))]) && Sits(code, pc + |cc| + 2, ct)
    ensures Sits(code, pc + |cc| + 2 + |ct|, [Jmp(LEndif(nl))])
    ensures Sits(code, pc + |cc| + 2 + |ct| + 1, [Lbl(LElse(nl))])
    ensures Sits(code, pc + |cc| + 2 + |ct| + 2, ce) && Sits(code, pc + |cc| + 2 + |ct| + 2 + |ce|, [Lbl(LEndif(nl))])
  {
    hide Sits;
    var cg, cm, cl := [TestEAX, Jz(LElse(nl))], [Jmp(LEndif(nl)), Lbl(LElse(nl))], [Lbl(LEndif(nl))];
    assert cm == [Jmp(LEndif(nl))] + [Lbl(LElse(nl))];
    SitsSplit(code, pc, cc, cg + (ct + (cm + (ce + cl))));
    SitsSplit(code, pc + |cc|, cg, ct + (cm + (ce + cl)));
    SitsSplit(code, pc + |cc| + 2, ct, cm + (ce + cl));
    SitsSplit(code, pc + |cc| + 2 + |ct|, cm, ce + cl);
    SitsSplit(code, pc + |cc| + 2 + |ct|, [Jmp(LEndif(nl))], [Lbl(LElse(nl))]);
    SitsSplit(code, pc + |cc| + 2 + |ct| + 2, ce, cl);
  }

  lemma IfElseRuns(c: Ctx, fuel: nat, st: St, s: State, b: Expr, t: Stmt, e: Stmt, nl: nat, kl: nat)
    returns (n: nat, s': State)
    requires CtxOk(c) && Sim(c, st, s) && StmtOk(c.P, ScopeOf(c.env), IfElse(b, t, e))
    requires TextAt(c.img, kl, Literals(IfElse(b, t, e)))
    requires Sits(c.img.code, s.pc, GenS(c.P, ScopeOf(c.env), IfElse(b, t, e), nl, kl))
    ensures Run(c.img, s, n) == s'
    ensures Does(c, s, EvalS(c.P, fuel, c.env, st, IfElse(b, t, e)), s', n, fuel,
            |GenS(c.P, ScopeOf(c.env), IfElse(b, t, e), nl, kl)|)
    decreases fuel, IfElse(b, t, e), 0
  {
    hide CtxOk, Sim, Follows, Sits, Run, GenS, EvalS, EvalE, StmtOk, ExprOk, GenE, ValOk, Enc, TextAt, Literals, Labels;
    UnfoldIfElse(c, fuel, st, b, t, e, nl, kl);
    TextSplit(c.img, kl, Literals(t), Literals(e));
    var sc := ScopeOf(c.env);
    var cc, ct := GenE(c.P, sc, b), GenS(c.P, sc, t, nl + 1, kl);
    var ce := GenS(c.P, sc, e, nl + 1 + Labels(t), kl + |Literals(t)|);
    IfElseSits(c.img.code, s.pc, cc, ct, ce, nl);
    n, s' := ExprRuns(c, fuel, st, s, b);
    var r1 := EvalE(c.P, fuel, c.env, st, b);
    if !r1.Ok? || !r1.val.VB? { return; }
    var s1, n1 := s', n;
    FollowsSim(c, s, r1.st, s1, |cc|);
    var s2 := GuardRuns(c, r1.st, s1, LElse(nl), s.pc + |cc| + 2 + |ct| + 1, r1.val);
    Chain(c.img, s, n1, s1, 2, s2);
    FollowsTrans(c, s, r1.st, s1, |cc|, r1.st, s2, s2.pc - s1.pc);
    FollowsSim(c, s1, r1.st, s2, s2.pc - s1.pc);
    var pend := s.pc + |cc| + 2 + |ct| + 2 + |ce|;
    var n3;
    if r1.val.b {
      n3, s' := ThenArm(c, fuel, r1.st, s2, t, nl, kl, pend);
    } else {
      n3, s' := ElseArm(c, fuel, r1.st, s2, e, nl + 1 + Labels(t), kl + |Literals(t)|, nl);
    }
    n := n1 + 2 + n3;
    Chain(c.img, s, n1 + 2, s2, n3, s');
    var r3 := EvalS(c.P, fuel, c.env, r1.st, if r1.val.b then t else e);
    if r3.Ok? { FollowsTrans(c, s, r1.st, s2, s2.pc - s.pc, r3.st, s', pend + 1 - s2.pc); }
  }

  /** The then-branch, the jump over the else-branch and the final label. */
  lemma ThenArm(c: Ctx, fuel: nat, st: St, s: State, t: Stmt, nl: nat, kl: nat, pend: int) returns (n: nat, s': State)
    requires CtxOk(c) && Sim(c, st, s) && StmtOk(c.P, ScopeOf(c.env), t) && TextAt(c.img, kl, Literals(t))
    requires Sits(c.img.code, s.pc, GenS(c.P, ScopeOf(c.env), t, nl + 1, kl))
    requires Sits(c.img.code, s.pc + |GenS(c.P, ScopeOf(c.env), t, nl + 1, kl)|, [Jmp(LEndif(nl))])
    requires Sits(c.img.code, pend, [Lbl(LEndif(nl))])
    ensures Run(c.img, s, n) == s'
    ensures Does(c, s, EvalS(c.P, fuel, c.env, st, t), s', n, fuel, pend + 1 - s.pc)
    decreases fuel, t, 2
  {
    hide CtxOk, Sim, Follows, Sits, Run, GenS, EvalS, StmtOk, TextAt, Literals;
    var ct := GenS(c.P, ScopeOf(c.env), t, nl + 1, kl);
    n, s' := StmtRuns(c, fuel, st, s, t, nl + 1, kl);
    var r := EvalS(c.P, fuel, c.env, st, t);
    if r.Ok? {
      var s1, n1 := s', n;
      FollowsSim(c, s, r.st, s1, |ct|);
      var s2 := JumpRuns(c, r.st, s1, LEndif(nl), pend);
      Chain(c.img, s, n1, s1, 1, s2);
      FollowsTrans(c, s, r.st, s1, |ct|, r.st, s2, pend - s1.pc);
      FollowsSim(c, s1, r.st, s2, pend - s1.pc);
      s' := LabelRuns(c, r.st, s2, LEndif(nl));
      Chain(c.img, s, n1 + 1, s2, 1, s');
      FollowsTrans(c, s, r.st, s2, pend - s.pc, r.st, s', 1);
      n := n1 + 2;
    }
  }

  /** From the else-label through the else-branch and the final label. */
  lemma ElseArm(c: Ctx, fuel: nat, st: St, s: State, e: Stmt, ne: nat, ke: nat, nl: nat) returns (n: nat, s': State)
    requires CtxOk(c) && Sim(c, st, s) && StmtOk(c.P, ScopeOf(c.env), e) && TextAt(c.img, ke, Literals(e))
    requires Sits(c.img.code, s.pc, [Lbl(LElse(nl))])
    requires Sits(c.img.code, s.pc + 1, GenS(c.P, ScopeOf(c.env), e, ne, ke))
    requires Sits(c.img.code, s.pc + 1 + |GenS(c.P, ScopeOf(c.env), e, ne, ke)|, [Lbl(LEndif(nl))])
    ensures Run(c.img, s, n) == s'
    ensures Does(c, s, EvalS(c.P, fuel, c.env, st, e), s', n, fuel, 2 + |GenS(c.P, ScopeOf(c.env), e, ne, ke)|)
    decreases fuel, e, 2
  {
    hide CtxOk, Sim, Follows, Sits, Run, GenS, EvalS, StmtOk, TextAt, Literals;
    var ce := GenS(c.P, ScopeOf(c.env), e, ne, ke);
    var s1 := LabelRuns(c, st, s, LElse(nl));
    FollowsSim(c, s, st, s1, 1);
    n, s' := StmtRuns(c, fuel, st, s1, e, ne, ke);
    Chain(c.img, s, 1, s1, n, s');
    var r := EvalS(c.P, fuel, c.env, st, e);
    if r.Ok? {
      var s2 := s';
      FollowsTrans(c, s, st, s1, 1, r.st, s2, |ce|);
      FollowsSim(c, s1, r.st, s2, |ce|);
      s' := LabelRuns(c, r.st, s2, LEndif(nl));
      Chain(c.img, s, 1 + n, s2, 1, s');
      FollowsTrans(c, s, r.st, s2, 1 + |ce|, r.st, s', 1);
      n := n + 1;
    }
    n := n + 1;
  }

  lemma UnfoldWhile(c: Ctx, fuel: nat, st: St, b: Expr, t: Stmt, nl: nat, kl: nat)
    ensures GenS(c.P, ScopeOf(c.env), While(b, t), nl, kl) ==
            [Lbl(LWhileTop(nl))] + (GenE(c.P, ScopeOf(c.env), b) + ([TestEAX, Jz(LWhileEnd(nl))]
              + (GenS(c.P, ScopeOf(c.env), t, nl + 1, kl) + [Jmp(LWhileTop(nl)), Lbl(LWhileEnd(nl))])))
    ensures var r1 := EvalE(c.P, fuel, c.env, st, b);
            EvalS(c.P, fuel, c.env, st, While(b, t)) ==
            if !r1.Ok? then r1.PropagateFailure()
            else if !r1.val.VB? then TypeErr
            else if !r1.val.b then Ok((), r1.st)
            else
              var r2 := EvalS(c.P, fuel, c.env, r1.st, t);
              if !r2.Ok? then r2.PropagateFailure()
              else if fuel == 0 then Timeout(r2.st.out) else EvalS(c.P, fuel - 1, c.env, r2.st, While(b, t))
    ensures StmtOk(c.P, ScopeOf(c.env), While(b, t)) ==>
              ExprOk(c.P, ScopeOf(c.env), b) && StmtOk(c.P, ScopeOf(c.env), t)
    ensures Literals(While(b, t)) == Literals(t)
  {
  }

  lemma WhileRuns(c: Ctx, fuel: nat, st: St, s: State, b: Expr, t: Stmt, nl: nat, kl: nat) returns (n: nat, s': State)
    requires CtxOk(c) && Sim(c, st, s) && StmtOk(c.P, ScopeOf(c.env), While(b, t))
    requires TextAt(c.img, kl, Literals(While(b, t)))
    requires Sits(c.img.code, s.pc, GenS(c.P, ScopeOf(c.env), While(b, t), nl, kl))
    ensures Run(c.img, s, n) == s'
    ensures Does(c, s, EvalS(c.P, fuel, c.env, st, While(b, t)), s', n, fuel,
            |GenS(c.P, ScopeOf(c.env), While(b, t), nl, kl)|)
    decreases fuel, While(b, t), 0
  {
    hide CtxOk, Sim, Follows, Sits, Run, GenS, EvalS, EvalE, StmtOk, ExprOk, GenE, ValOk, Enc, TextAt, Literals;
    UnfoldWhile(c, fuel, st, b, t, nl, kl);
    var sc := ScopeOf(c.env);
    var code := GenS(c.P, sc, While(b, t), nl, kl);
    var top, cc, cg, ct := [Lbl(LWhileTop(nl))], GenE(c.P, sc, b), [TestEAX, Jz(LWhileEnd(nl))],
      GenS(c.P, sc, t, nl + 1, kl);
    var cm := [Jmp(LWhileTop(nl)), Lbl(LWhileEnd(nl))];
    assert cm == [Jmp(LWhileTop(nl))] + [Lbl(LWhileEnd(nl))];
    SitsSplit(c.img.code, s.pc, top, cc + (cg + (ct + cm)));
    SitsSplit(c.img.code, s.pc + 1, cc, cg + (ct + cm));
    SitsSplit(c.img.code, s.pc + 1 + |cc|, cg, ct + cm);
    SitsSplit(c.img.code, s.pc + 1 + |cc| + 2, ct, cm);
    SitsSplit(c.img.code, s.pc + 1 + |cc| + 2 + |ct|, [Jmp(LWhileTop(nl))], [Lbl(LWhileEnd(nl))]);
    var s0 := LabelRuns(c, st, s, LWhileTop(nl));
    FollowsSim(c, s, st, s0, 1);
    n, s' := ExprRuns(c, fuel, st, s0, b);
    Chain(c.img, s, 1, s0, n, s');
    n := 1 + n;
    var r1 := EvalE(c.P, fuel, c.env, st, b);
    if !r1.Ok? || !r1.val.VB? { return; }
    var s1, n1 := s', n;
    FollowsTrans(c, s, st, s0, 1, r1.st, s1, |cc|);
    FollowsSim(c, s0, r1.st, s1, |cc|);
    var pend := s.pc + 1 + |cc| + 2 + |ct| + 1;
    var s2 := GuardRuns(c, r1.st, s1, LWhileEnd(nl), pend, r1.val);
    Chain(c.img, s, n1, s1, 2, s2);
    FollowsTrans(c, s, r1.st, s1, 1 + |cc|, r1.st, s2, s2.pc - s1.pc);
    FollowsSim(c, s1, r1.st, s2, s2.pc - s1.pc);
    if r1.val.b {
      var n3;
      n3, s' := IterateRuns(c, fuel, s, r1.st, s2, b, t, nl, kl);
      Chain(c.img, s, n1 + 2, s2, n3, s');
      n := n1 + 2 + n3;
    } else {
      s' := LabelRuns(c, r1.st, s2, LWhileEnd(nl));
      Chain(c.img, s, n1 + 2, s2, 1, s');
      n := n1 + 2 + 1;
      FollowsTrans(c, s, r1.st, s2, s2.pc - s.pc, r1.st, s', 1);
    }
  }

  /** One iteration from a true guard: the body, the jump back, and the rest of the loop. */
  lemma IterateRuns(c: Ctx, fuel: nat, s: State, st1: St, s2: State, b: Expr, t: Stmt, nl: nat, kl: nat)
    returns (n: nat, s': State)
    requires CtxOk(c) && StmtOk(c.P, ScopeOf(c.env), While(b, t)) && TextAt(c.img, kl, Literals(While(b, t)))
    requires Follows(c, s, st1, s2, 1 + |GenE(c.P, ScopeOf(c.env), b)| + 2)
    requires Sits(c.img.code, s.pc, GenS(c.P, ScopeOf(c.env), While(b, t), nl, kl))
    requires Sits(c.img.code, s.pc, [Lbl(LWhileTop(nl))])
    requires Sits(c.img.code, s2.pc, GenS(c.P, ScopeOf(c.env), t, nl + 1, kl))
    requires Sits(c.img.code, s2.pc + |GenS(c.P, ScopeOf(c.env), t, nl + 1, kl)|, [Jmp(LWhileTop(nl))])
    ensures Run(c.img, s2, n) == s'
    ensures var r2 := EvalS(c.P, fuel, c.env, st1, t);
            Does(c, s, if !r2.Ok? then r2.PropagateFailure()
                       else if fuel == 0 then Timeout(r2.st.out) else EvalS(c.P, fuel - 1, c.env, r2.st, While(b, t)),
                 s', n, fuel, |GenS(c.P, ScopeOf(c.env), While(b, t), nl, kl)|)
    decreases fuel, t, 2
  {
    hide CtxOk, Sim, Follows, Sits, Run, GenS, EvalS, EvalE, StmtOk, ExprOk, GenE, TextAt, Literals;
    UnfoldWhile(c, fuel, st1, b, t, nl, kl);
    var ct, len := GenS(c.P, ScopeOf(c.env), t, nl + 1, kl), 1 + |GenE(c.P, ScopeOf(c.env), b)| + 2;
    FollowsSim(c, s, st1, s2, len);
    n, s' := StmtRuns(c, fuel, st1, s2, t, nl + 1, kl);
    var r2 := EvalS(c.P, fuel, c.env, st1, t);
    if !r2.Ok? { return; }
    var s3, n3 := s', n;
    FollowsTrans(c, s, st1, s2, len, r2.st, s3, |ct|);
    FollowsSim(c, s2, r2.st, s3, |ct|);
    SimFacts(c, r2.st, s3);
    if fuel == 0 { return; }
    var s4 := JumpRuns(c, r2.st, s3, LWhileTop(nl), s.pc);
    Chain(c.img, s2, n3, s3, 1, s4);
    FollowsTrans(c, s, r2.st, s3, len + |ct|, r2.st, s4, s.pc - s3.pc);
    FollowsSim(c, s3, r2.st, s4, s.pc - s3.pc);
    var n5;
    n5, s' := WhileRuns(c, fuel - 1, r2.st, s4, b, t, nl, kl);
    Chain(c.img, s2, n3 + 1, s4, n5, s');
    n := n3 + 1 + n5;
    var r5 := EvalS(c.P, fuel - 1, c.env, r2.st, While(b, t));
    if r5.Ok? { FollowsTrans(c, s, r2.st, s4, 0, r5.st, s', |GenS(c.P, ScopeOf(c.env), While(b, t), nl, kl)|); }
  }

  // ---- output ----

  /** An output event on both sides. */
  lemma Told(c: Ctx, st: St, s: State, s': State, ev: Event, len: int)
    requires Sim(c, st, s) && SameBut(s.(out := s.out + [ev]), s') && s'.pc == s.pc + len
    ensures Follows(c, s, Tell(st, ev), s', len)
  {
    hide MemOk, RefsOk;
  }

  lemma {:induction false} NoNul(bs: seq<int>)
    requires 0 !in bs
    ensures UntilNul(bs) == bs
  {
    if bs != [] {
      NoNul(bs[1..]);
      assert bs == [bs[0]] + bs[1..];
    }
  }

  lemma PutsExec(img: Image, s: State, k: nat)
    requires Sits(img.code, s.pc, [MovI(EAX, T(k)), CallH(Puts)]) && s.status == Running && k < |img.text|
    ensures var s' := Run(img, s, 2);
            SameBut(s.(out := s.out + [EText(UntilNul(img.text[k]))]), s') && s'.pc == s.pc + 2
  {
    hide Sits, Run, UntilNul;
    Steps2(img, s, s.pc, [MovI(EAX, T(k)), CallH(Puts)], 0);
  }

  lemma WriteLitRuns(c: Ctx, fuel: nat, st: St, s: State, text: seq<int>, nl: nat, kl: nat) returns (n: nat, s': State)
    requires CtxOk(c) && Sim(c, st, s) && StmtOk(c.P, ScopeOf(c.env), WriteLit(text))
    requires TextAt(c.img, kl, Literals(WriteLit(text)))
    requires Sits(c.img.code, s.pc, GenS(c.P, ScopeOf(c.env), WriteLit(text), nl, kl))
    ensures Run(c.img, s, n) == s'
    ensures Does(c, s, EvalS(c.P, fuel, c.env, st, WriteLit(text)), s', n, fuel,
            |GenS(c.P, ScopeOf(c.env), WriteLit(text), nl, kl)|)
  {
    hide CtxOk, Sim, Follows, Sits, Run, UntilNul, Exec;
    SimFacts(c, st, s);
    assert c.img.text[kl..kl + 1][0] == text;
    NoNul(text);
    PutsExec(c.img, s, kl);
    n, s' := 2, Run(c.img, s, 2);
    Told(c, st, s, s', EText(text), 2);
  }

  lemma NewlineExec(img: Image, s: State)
    requires Sits(img.code, s.pc, [MovAL(10), CallH(Putc)]) && s.status == Running
    ensures var s' := Run(img, s, 2); SameBut(s.(out := s.out + [EByte(10)]), s') && s'.pc == s.pc + 2
  {
    hide Sits, Run, Wrap, Unsigned;
    if s.eax.I? { LowByte(s.eax.i, 10); }
    Ten();
    Steps2(img, s, s.pc, [MovAL(10), CallH(Putc)], 0);
  }

  lemma Ten()
    ensures Unsigned(10) % 256 == 10
  {
  }

  lemma WriteLnRuns(c: Ctx, fuel: nat, st: St, s: State, nl: nat, kl: nat) returns (n: nat, s': State)
    requires CtxOk(c) && Sim(c, st, s)
    requires Sits(c.img.code, s.pc, GenS(c.P, ScopeOf(c.env), WriteLn, nl, kl))
    ensures Run(c.img, s, n) == s'
    ensures Does(c, s, EvalS(c.P, fuel, c.env, st, WriteLn), s', n, fuel, |GenS(c.P, ScopeOf(c.env), WriteLn, nl, kl)|)
  {
    hide CtxOk, Sim, Follows, Sits, Run, Exec;
    SimFacts(c, st, s);
    NewlineExec(c.img, s);
    n, s' := 2, Run(c.img, s, 2);
    Told(c, st, s, s', EByte(10), 2);
  }

  lemma UnfoldWrite(c: Ctx, fuel: nat, st: St, ty: Ty, e: Expr, nl: nat, kl: nat)
    ensures GenS(c.P, ScopeOf(c.env), WriteVal(ty, e), nl, kl) == GenE(c.P, ScopeOf(c.env), e) + GenWrite(ty, nl)
    ensures var r1 := EvalE(c.P, fuel, c.env, st, e);
            EvalS(c.P, fuel, c.env, st, WriteVal(ty, e)) == if !r1.Ok? then r1.PropagateFailure()
              else Show(ty, r1.val, r1.st)
    ensures StmtOk(c.P, ScopeOf(c.env), WriteVal(ty, e)) ==> ExprOk(c.P, ScopeOf(c.env), e)
  {
  }

  /** The event a written value produces. */
  function ShowEvent(v: Value): Event {
    match v
    case VI(i) => EInt(i)
    case VB(b) => EText(if b then TRUE_TEXT else FALSE_TEXT)
    case VC(c) => EByte(c)
  }

  lemma ShowIs(ty: Ty, v: Value, st: St)
    ensures Show(ty, v, st) == if HasTy(v, ty) then Ok((), Tell(st, ShowEvent(v))) else TypeErr
  {
  }

  lemma ScalarWriteExec(img: Image, s: State, ty: Ty, v: Value, n: nat)
    requires !ty.TBool? && HasTy(v, ty) && ValOk(v) && s.eax == I(Enc(v)) && s.status == Running
    requires Sits(img.code, s.pc, GenWrite(ty, n))
    ensures var s' := Run(img, s, 1); SameBut(s.(out := s.out + [ShowEvent(v)]), s') && s'.pc == s.pc + 1
  {
    hide Sits, Run;
    StepAt(img, s, s.pc, GenWrite(ty, n), 0);
  }

  /** TRUE or FALSE is printed through two local labels. */
  lemma BoolWriteExec(img: Image, s: State, b: bool, n: nat)
    requires Sits(img.code, s.pc, GenWrite(TBool, n)) && DistinctLabels(img.code)
    requires s.status == Running && s.eax == I(if b then 1 else 0)
    ensures var s' := Run(img, s, 6);
            SameBut(s.(out := s.out + [EText(if b then TRUE_TEXT else FALSE_TEXT)]), s') && s'.pc == s.pc + 8
  {
    hide Sits, Run, DistinctLabels, Find, Exec;
    var code := GenWrite(TBool, n);
    SitsAt(img.code, s.pc, code, 4);
    assert code == [TestEAX, Jz(LBFalse(n))] + code[2..];
    SitsSplit(img.code, s.pc, [TestEAX, Jz(LBFalse(n))], code[2..]);
    GuardExec(img, s, LBFalse(n), s.pc + 4, b);
    var s2 := Run(img, s, 2);
    if b { TrueExec(img, s2, s.pc, n); } else { FalseExec(img, s2, s.pc, n); }
    Chain(img, s, 2, s2, 4, Run(img, s2, 4));
  }

  lemma {:induction false} TrueExec(img: Image, s: State, pc: int, n: nat)
    requires Sits(img.code, pc, GenWrite(TBool, n)) && DistinctLabels(img.code) && s.status == Running && s.pc == pc + 2
    ensures var s' := Run(img, s, 4); SameBut(s.(out := s.out + [EText(TRUE_TEXT)]), s') && s'.pc == pc + 8
  {
    hide Sits, Run, DistinctLabels, Find;
    var code := GenWrite(TBool, n);
    SitsAt(img.code, pc, code, 6);
    FindAt(img.code, LBDone(n), pc + 6);
    Steps2(img, s, pc, code, 2);
    var s2 := Run(img, s, 2);
    Steps2(img, s2, pc, code, 6);
    Chain(img, s, 2, s2, 2, Run(img, s2, 2));
  }

  lemma FalseExec(img: Image, s: State, pc: int, n: nat)
    requires Sits(img.code, pc, GenWrite(TBool, n)) && s.status == Running && s.pc == pc + 4
    ensures var s' := Run(img, s, 4); SameBut(s.(out := s.out + [EText(FALSE_TEXT)]), s') && s'.pc == pc + 8
  {
    hide Sits, Run;
    var code := GenWrite(TBool, n);
    Steps3(img, s, pc, code, 4);
    var s3 := Run(img, s, 3);
    StepAt(img, s3, pc, code, 7);
    Chain(img, s, 3, s3, 1, Run(img, s3, 1));
  }

  lemma WriteValRuns(c: Ctx, fuel: nat, st: St, s: State, ty: Ty, e: Expr, nl: nat, kl: nat) returns (n: nat, s': State)
    requires CtxOk(c) && Sim(c, st, s) && StmtOk(c.P, ScopeOf(c.env), WriteVal(ty, e))
    requires Sits(c.img.code, s.pc, GenS(c.P, ScopeOf(c.env), WriteVal(ty, e), nl, kl))
    ensures Run(c.img, s, n) == s'
    ensures Does(c, s, EvalS(c.P, fuel, c.env, st, WriteVal(ty, e)), s', n, fuel,
            |GenS(c.P, ScopeOf(c.env), WriteVal(ty, e), nl, kl)|)
    decreases fuel, WriteVal(ty, e), 0
  {
    hide CtxOk, Sim, Follows, Sits, Run, GenS, EvalS, EvalE, StmtOk, ExprOk, GenE, GenWrite, Show, ValOk, Enc;
    UnfoldWrite(c, fuel, st, ty, e, nl, kl);
    var ce, cw := GenE(c.P, ScopeOf(c.env), e), GenWrite(ty, nl);
    SitsSplit(c.img.code, s.pc, ce, cw);
    n, s' := ExprRuns(c, fuel, st, s, e);
    var r1 := EvalE(c.P, fuel, c.env, st, e);
    if !r1.Ok? { return; }
    ShowIs(ty, r1.val, r1.st);
    if HasTy(r1.val, ty) {
      var s1, n1 := s', n;
      FollowsSim(c, s, r1.st, s1, |ce|);
      var n2;
      n2, s' := ShowRuns(c, r1.st, s1, ty, r1.val, nl);
      n := n1 + n2;
      Chain(c.img, s, n1, s1, n2, s');
      FollowsTrans(c, s, r1.st, s1, |ce|, Tell(r1.st, ShowEvent(r1.val)), s', |cw|);
    }
  }

  lemma ShowRuns(c: Ctx, st: St, s: State, ty: Ty, v: Value, nl: nat) returns (n: nat, s': State)
    requires CtxOk(c) && Sim(c, st, s) && HasTy(v, ty) && ValOk(v) && s.eax == I(Enc(v))
    requires Sits(c.img.code, s.pc, GenWrite(ty, nl))
    ensures Run(c.img, s, n) == s' && Follows(c, s, Tell(st, ShowEvent(v)), s', |GenWrite(ty, nl)|)
  {
    hide CtxOk, Sim, Follows, Sits, Run, Exec;
    SimFacts(c, st, s);
    if ty.TBool? {
      Distinct(c);
      BoolWriteExec(c.img, s, v.b, nl);
      n := 6;
    } else {
      ScalarWriteExec(c.img, s, ty, v, nl);
      n := 1;
    }
    s' := Run(c.img, s, n);
    Told(c, st, s, s', ShowEvent(v), |GenWrite(ty, nl)|);
  }
}
