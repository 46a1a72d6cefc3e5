/** Entering and leaving a routine: the cdecl protocol seen from the source store. */
module Frames {
  import opened Int32
  import opened Syntax
  import opened Semantics
  import opened Machine
  import opened Codegen
  import opened Layout
  import opened Simulation
  import opened Instructions
  import opened Addressing

  function EncActual(P: Program, acts: Acts, a: Actual): Word {
    match a
    case Val(v) => I(Enc(v))
    case Ref(l) => A(Addr(P, acts, l))
  }

  /** An actual fits its parameter. */
  predicate ActualOk(P: Program, acts: Acts, p: Param, a: Actual) {
    match a
    case Val(v) => !p.isVar && ValOk(v)
    case Ref(l) => p.isVar && RefOk(P, acts, l, p.elem)
  }

  predicate ActualsOk(P: Program, acts: Acts, ps: seq<Param>, avs: seq<Actual>) {
    |ps| == |avs| && forall i :: 0 <= i < |ps| ==> ActualOk(P, acts, ps[i], avs[i])
  }

  /** The arguments stand on the stack from `esp` upward, the first one lowest. */
  predicate Pushed(P: Program, acts: Acts, avs: seq<Actual>, m: Mem, esp: int) {
    forall i :: 0 <= i < |avs| ==> esp + 4 * i in m && m[esp + 4 * i] == EncActual(P, acts, avs[i])
  }

  // ---- binding ----

  lemma {:induction false} BindValsAt(m: Store, d: nat, ps: seq<Param>, avs: seq<Actual>, l: Loc)
    requires |ps| == |avs| && l in BindVals(m, d, ps, avs)
    requires forall i, j :: 0 <= i < j < |ps| ==> ps[i].name != ps[j].name
    ensures (l in m && m[l] == BindVals(m, d, ps, avs)[l])
         || (exists i ::
               0 <= i < |ps| && avs[i].Val? && l == Local(d, ps[i].name, 0) && BindVals(m, d, ps, avs)[l] == avs[i].v)
  {
    if ps != [] {
      if avs[0].Val? && l == Local(d, ps[0].name, 0) {
        assert avs[0].Val? && l == Local(d, ps[0].name, 0) && BindVals(m, d, ps, avs)[l] == avs[0].v;
      } else {
        BindValsAt(m, d, ps[1..], avs[1..], l);
        if !(l in m && m[l] == BindVals(m, d, ps, avs)[l]) {
          var i :| 0 <= i < |ps[1..]| && avs[1..][i].Val? && l == Local(d, ps[1..][i].name, 0)
                   && BindVals(m, d, ps[1..], avs[1..])[l] == avs[1..][i].v;
          assert ps[1..][i] == ps[i + 1] && avs[1..][i] == avs[i + 1];
        }
      }
    }
  }

  lemma {:induction false} BindRefsAt(ps: seq<Param>, avs: seq<Actual>, i: nat)
    requires |ps| == |avs| && i < |ps| && avs[i].Ref?
    requires forall i, j :: 0 <= i < j < |ps| ==> ps[i].name != ps[j].name
    ensures ps[i].name in BindRefs(ps, avs) && BindRefs(ps, avs)[ps[i].name] == avs[i].l
  {
    if i > 0 {
      assert ps[1..][i - 1] == ps[i] && avs[1..][i - 1] == avs[i];
      BindRefsAt(ps[1..], avs[1..], i - 1);
    }
  }

  lemma {:induction false} FindParamAt(ps: seq<Param>, i: nat)
    requires i < |ps|
    requires forall i, j :: 0 <= i < j < |ps| ==> ps[i].name != ps[j].name
    ensures FindParam(ps, ps[i].name) == Some(ps[i])
  {
    if i > 0 {
      assert ps[1..][i - 1] == ps[i];
      FindParamAt(ps[1..], i - 1);
    }
  }

  lemma {:induction false} ParamEntAt(ps: seq<Param>, b: nat, i: nat)
    requires i < |ps|
    requires forall i, j :: 0 <= i < j < |ps| ==> ps[i].name != ps[j].name
    ensures ParamEnt(ps, b, ps[i].name) ==
            Some(Ent(if ps[i].isVar then VarParam else ValParam, ParamOffset(b + i), One(ps[i].elem)))
  {
    if i > 0 {
      assert ps[1..][i - 1] == ps[i];
      ParamEntAt(ps[1..], b + 1, i - 1);
    }
  }

  /** Parameter `i` is declared as such and lives at [ebp+8+4i]. */
  lemma ParamAt(r: Routine, i: nat)
    requires DeclsOk(r) && i < |r.params|
    ensures FindDecl(r, r.params[i].name) == Some(Decl(r.params[i].isVar, One(r.params[i].elem)))
    ensures CellOff(r, r.params[i].name, 0) == 8 + 4 * i
  {
    FindParamAt(r.params, i);
    ParamEntAt(r.params, 0, i);
  }

  // ---- the new frame ----

  /** The callee's context, given the stack pointer after the arguments were pushed. */
  function Callee(c: Ctx, r: Routine, avs: seq<Actual>, esp: int): Ctx
    requires |r.params| == |avs|
  {
    var refs := BindRefs(r.params, avs);
    Ctx(c.P, c.img, c.acts + [Act(esp - 8, r, refs)], In(|c.acts| + 1, r, refs))
  }

  lemma {:induction false} CalleeOk(c: Ctx, r: Routine, avs: seq<Actual>, esp: int)
    requires CtxOk(c) && r in c.P.routines && |r.params| == |avs|
    requires esp % 4 == 0 && esp + 4 * |r.params| <= Lo(c.acts)
    ensures CtxOk(Callee(c, r, avs, esp))
    ensures Depth(c.env) == |c.acts| && DeclsOk(r)
    ensures Ebp(Callee(c, r, avs, esp).acts) == esp - 8
    ensures Lo(Callee(c, r, avs, esp).acts) == esp - 8 - 4 * FrameSlots(r)
  {
    var a := Act(esp - 8, r, BindRefs(r.params, avs));
    assert (c.acts + [a])[..|c.acts|] == c.acts;
    hide FrameSlots, Linked;
  }

  /** A cell of the callee's store that is not one of its value parameters was the caller's. */
  lemma EntryMem(c: Ctx, store: Store, m: Mem, m': Mem, r: Routine, avs: seq<Actual>, esp: int)
    requires CtxOk(c) && r in c.P.routines && ActualsOk(c.P, c.acts, r.params, avs)
    requires esp % 4 == 0 && esp + 4 * |r.params| <= Lo(c.acts)
    requires MemOk(c.P, c.acts, store, m) && Pushed(c.P, c.acts, avs, m, esp)
    requires forall a :: a >= esp && a in m ==> a in m' && m'[a] == m[a]
    ensures MemOk(c.P, Callee(c, r, avs, esp).acts, BindVals(store, |c.acts| + 1, r.params, avs), m')
  {
    var c' := Callee(c, r, avs, esp);
    var store' := BindVals(store, |c.acts| + 1, r.params, avs);
    CalleeOk(c, r, avs, esp);
    forall l | l in store'
      ensures Valid(c.P, c'.acts, l) && ValOk(store'[l])
      ensures Addr(c.P, c'.acts, l) in m' && m'[Addr(c.P, c'.acts, l)] == I(Enc(store'[l]))
    {
      BindValsAt(store, |c.acts| + 1, r.params, avs, l);
      if l in store && store[l] == store'[l] {
        CallerCell(c, store, m, m', l, c'.acts[|c.acts|], esp);
      } else {
        var i :| 0 <= i < |r.params| && avs[i].Val? && l == Local(|c.acts| + 1, r.params[i].name, 0)
          && store'[l] == avs[i].v;
        ParamCell(c, m, m', r, avs, esp, i);
      }
    }
  }

  lemma CallerCell(c: Ctx, store: Store, m: Mem, m': Mem, l: Loc, a: Act, esp: int)
    requires CtxOk(c) && MemOk(c.P, c.acts, store, m) && l in store && esp <= Lo(c.acts)
    requires forall a :: a >= esp && a in m ==> a in m' && m'[a] == m[a]
    ensures Valid(c.P, c.acts + [a], l) && ValOk(store[l])
    ensures Addr(c.P, c.acts + [a], l) in m' && m'[Addr(c.P, c.acts + [a], l)] == I(Enc(store[l]))
  {
    hide Addr, Valid, Lo, ProgramOk, Linked;
    AddrPrefix(c.P, c.acts, a, l);
    AddrBounds(c.P, c.acts, l);
  }

  lemma ParamCell(c: Ctx, m: Mem, m': Mem, r: Routine, avs: seq<Actual>, esp: int, i: nat)
    requires |r.params| == |avs| && DeclsOk(r) && i < |avs| && ActualOk(c.P, c.acts, r.params[i], avs[i]) && avs[i].Val?
    requires Pushed(c.P, c.acts, avs, m, esp)
    requires forall a :: a >= esp && a in m ==> a in m' && m'[a] == m[a]
    ensures var l := Local(|c.acts| + 1, r.params[i].name, 0);
            var acts' := Callee(c, r, avs, esp).acts;
            && Valid(c.P, acts', l) && ValOk(avs[i].v)
            && Addr(c.P, acts', l) in m' && m'[Addr(c.P, acts', l)] == I(Enc(avs[i].v))
  {
    ParamAt(r, i);
    hide CellOff, FindDecl, Resolve;
    assert esp + 4 * i in m && m[esp + 4 * i] == EncActual(c.P, c.acts, avs[i]);
  }

  lemma EntryRefs(c: Ctx, m: Mem, m': Mem, r: Routine, avs: seq<Actual>, esp: int)
    requires CtxOk(c) && r in c.P.routines && ActualsOk(c.P, c.acts, r.params, avs)
    requires esp % 4 == 0 && esp + 4 * |r.params| <= Lo(c.acts)
    requires Pushed(c.P, c.acts, avs, m, esp)
    requires forall a :: a >= esp && a in m ==> a in m' && m'[a] == m[a]
    ensures RefsOk(c.P, Callee(c, r, avs, esp).acts, m')
  {
    CalleeOk(c, r, avs, esp);
    var act := Act(esp - 8, r, BindRefs(r.params, avs));
    hide *;
    forall x | x in RefNames(act.r)
      ensures RefSlot(c.P, c.acts, act, m', x)
    {
      RefActual(c, m, m', r, avs, esp, x);
    }
    RefsIntro(c.P, c.acts, act, m');
    CalleeActs(c, r, avs, esp);
  }

  lemma CalleeActs(c: Ctx, r: Routine, avs: seq<Actual>, esp: int)
    requires |r.params| == |avs|
    ensures Callee(c, r, avs, esp).acts == c.acts + [Act(esp - 8, r, BindRefs(r.params, avs))]
  {
  }

  /** The `var` parameter `x` of the activation `a` on top of `acts`. */
  predicate RefSlot(P: Program, acts: Acts, a: Act, m: Mem, x: string) {
    && x in a.refs && FindDecl(a.r, x).Some? && RefOk(P, acts, a.refs[x], FindDecl(a.r, x).value.shape.elem)
    && var p := a.ebp + CellOff(a.r, x, 0);
       p in m && m[p] == A(Addr(P, acts, a.refs[x]))
  }

  lemma RefsIntro(P: Program, acts: Acts, a: Act, m: Mem)
    requires forall x :: x in RefNames(a.r) ==> RefSlot(P, acts, a, m, x)
    ensures RefsOk(P, acts + [a], m)
  {
    hide RefNames, CellOff, Addr, FindDecl, RefOk;
    assert (acts + [a])[..|acts|] == acts;
  }

  lemma RefActual(c: Ctx, m: Mem, m': Mem, r: Routine, avs: seq<Actual>, esp: int, x: string)
    requires DeclsOk(r) && ActualsOk(c.P, c.acts, r.params, avs) && x in RefNames(r)
    requires Pushed(c.P, c.acts, avs, m, esp)
    requires forall a :: a >= esp && a in m ==> a in m' && m'[a] == m[a]
    ensures RefSlot(c.P, c.acts, Act(esp - 8, r, BindRefs(r.params, avs)), m', x)
  {
    var i :| 0 <= i < |r.params| && FindDecl(r, r.params[i].name) == Some(Decl(true, One(r.params[i].elem)))
      && r.params[i].name == x;
    ParamAt(r, i);
    assert ActualOk(c.P, c.acts, r.params[i], avs[i]);
    BindRefsAt(r.params, avs, i);
    hide CellOff, FindDecl, Resolve, RefNames, DeclsOk, RefOk, BindRefs;
    assert esp + 4 * i in m && m[esp + 4 * i] == EncActual(c.P, c.acts, avs[i]);
  }

  // ---- coming back ----

  /** An address at or above the callee's arguments is data for the callee exactly if it is for the caller. */
  lemma DataAbove(c: Ctx, c': Ctx, a: int)
    requires CtxOk(c) && CtxOk(c') && c'.P == c.P && |c'.acts| == |c.acts| + 1 && c'.acts[..|c.acts|] == c.acts
    requires a >= Hi(c'.acts[|c.acts|])
    ensures IsData(c.P, c'.acts, a) ==> IsData(c.P, c.acts, a)
  {
    if IsData(c.P, c'.acts, a) {
      var l :| Valid(c.P, c'.acts, l) && Addr(c.P, c'.acts, l) == a;
      if l.Local? && l.d == |c'.acts| {
        LocalBounds(c.P, c'.acts, l.d, l.x, l.i);
      } else {
        assert Valid(c.P, c.acts, l) && Addr(c.P, c.acts, l) == a;
      }
    }
  }

  /** What the callee kept, seen by the caller. */
  lemma KeptAbove(c: Ctx, c': Ctx, m: Mem, m': Mem, esp': int, esp: int)
    requires CtxOk(c) && CtxOk(c') && c'.P == c.P && |c'.acts| == |c.acts| + 1 && c'.acts[..|c.acts|] == c.acts
    requires Kept(c.P, c'.acts, m, m', esp') && esp' <= esp && Hi(c'.acts[|c.acts|]) <= esp
    ensures Kept(c.P, c.acts, m, m', esp)
  {
    forall a | a >= esp && !IsData(c.P, c.acts, a) && a in m
      ensures a in m' && m'[a] == m[a]
    {
      DataAbove(c, c', a);
    }
  }

  /** Discarding the callee's cells leaves the caller's, at the same addresses. */
  lemma ReturnMem(c: Ctx, c': Ctx, store: Store, m: Mem)
    requires c'.P == c.P && |c'.acts| == |c.acts| + 1 && c'.acts[..|c.acts|] == c.acts
    requires MemOk(c.P, c'.acts, store, m)
    ensures MemOk(c.P, c.acts, Pop(store, |c.acts| + 1), m)
  {
    var store' := Pop(store, |c.acts| + 1);
    forall l | l in store'
      ensures Valid(c.P, c.acts, l) && Addr(c.P, c.acts, l) == Addr(c.P, c'.acts, l)
    {
    }
  }

  // ---- prologue and epilogue ----

  function EntrySteps(slots: nat): nat { 2 + |Prologue(slots)| }

  /** `call`, then the prologue: the return address and the caller's EBP are below the arguments and
      `slots` dwords are reserved below them. */
  lemma EnterExec(img: Image, s: State, f: string, pcR: nat, slots: nat, esp: int)
    requires Sits(img.code, s.pc, [CallP(f)]) && Sits(img.code, pcR, [Lbl(LProc(f))] + Prologue(slots))
    requires DistinctLabels(img.code) && s.status == Running && s.esp == A(esp) && esp % 4 == 0
    ensures Run(img, s, EntrySteps(slots)) ==
            s.(pc := pcR + 1 + |Prologue(slots)|, esp := A(esp - 8 - 4 * slots), ebp := A(esp - 8),
               mem := s.mem[esp - 4 := C(s.pc + 1)][esp - 8 := s.ebp])
  {
    hide Sits, Run, Find, DistinctLabels;
    StepAt(img, s, s.pc, [CallP(f)], 0);
    var code := [Lbl(LProc(f))] + Prologue(slots);
    SitsAt(img.code, pcR, code, 0);
    FindAt(img.code, LProc(f), pcR);
    var s1 := s.(esp := A(esp - 4), mem := s.mem[esp - 4 := C(s.pc + 1)], pc := pcR);
    assert Run(img, s, 1) == s1;
    EnterRest(img, s1, code, slots, esp);
    Chain(img, s, 1, s1, 1 + |Prologue(slots)|, Run(img, s1, 1 + |Prologue(slots)|));
  }

  /** The label, `push ebp`, `mov ebp, esp`. */
  lemma LinkExec(img: Image, s: State, code: seq<Instr>, esp: int)
    requires |code| >= 3 && code[0].Lbl? && code[1] == Push(EBP) && code[2] == MovRR(EBP, ESP)
    requires Sits(img.code, s.pc, code) && s.status == Running && s.esp == A(esp - 4) && esp % 4 == 0
    ensures Run(img, s, 3) == s.(pc := s.pc + 3, esp := A(esp - 8), ebp := A(esp - 8), mem := s.mem[esp - 8 := s.ebp])
  {
    hide Sits, Run;
    Steps3(img, s, s.pc, code, 0);
  }

  lemma EnterRest(img: Image, s: State, code: seq<Instr>, slots: nat, esp: int)
    requires exists f :: code == [Lbl(LProc(f))] + Prologue(slots)
    requires Sits(img.code, s.pc, code) && s.status == Running && s.esp == A(esp - 4) && esp % 4 == 0
    ensures Run(img, s, 1 + |Prologue(slots)|) ==
            s.(pc := s.pc + 1 + |Prologue(slots)|, esp := A(esp - 8 - 4 * slots), ebp := A(esp - 8),
              mem := s.mem[esp - 8 := s.ebp])
  {
    hide Sits, Run;
    var s3 := s.(pc := s.pc + 3, esp := A(esp - 8), ebp := A(esp - 8), mem := s.mem[esp - 8 := s.ebp]);
    LinkExec(img, s, code, esp);
    if slots > 0 {
      StepAt(img, s3, s.pc, code, 3);
      Chain(img, s, 3, s3, 1, Exec(img, code[3], s3));
    }
  }

  /** Epilogue: result to EAX, frame dropped, back behind the call with the arguments still pushed. */
  lemma {:induction false} ExitExec(img: Image, s: State, r: Routine, b: int, ret: int, saved: Word)
    requires Sits(img.code, s.pc, Epilogue(r)) && s.status == Running && s.ebp == A(b) && b % 4 == 0 && ret != HALT
    requires b in s.mem && s.mem[b] == saved && b + 4 in s.mem && s.mem[b + 4] == C(ret)
    requires r.result.Some? ==> b - 4 in s.mem
    ensures Run(img, s, |Epilogue(r)|) ==
            s.(pc := ret, esp := A(b + 8), ebp := saved, eax := if r.result.Some? then s.mem[b - 4] else s.eax)
  {
    hide Sits, Run;
    if r.result.Some? {
      Steps3(img, s, s.pc, Epilogue(r), 0);
    } else {
      Steps2(img, s, s.pc, Epilogue(r), 0);
    }
  }

  lemma CleanExec(img: Image, s: State, n: nat, esp: int)
    requires Sits(img.code, s.pc, CleanUp(n)) && s.status == Running && s.esp == A(esp)
    ensures Run(img, s, |CleanUp(n)|) == s.(pc := s.pc + |CleanUp(n)|, esp := A(esp + 4 * n))
  {
    assert Run(img, s, 0) == s;
    hide Sits, Run;
    if n > 0 { StepAt(img, s, s.pc, CleanUp(n), 0); }
  }
}
