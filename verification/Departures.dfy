/** Where the generator's addressing leaves its own layout: the exact conditions, each tied to the
    address the emitted instructions compute. */
module Departures {
  import opened Int32
  import opened Syntax
  import opened Semantics
  import opened Machine
  import opened Codegen
  import opened Layout
  import opened Simulation
  import opened Instructions
  import opened Addressing

  // ---- frame-resident arrays of records ----

  /** The EBP displacement of field `k` of element `i`: elements run downward, fields upward. */
  function ElemFieldOff(off: int, lo: int, elem: Elem, i: int, k: nat): int {
    off - 4 * ((i - lo) * Words(elem)) + 4 * k
  }

  /** That is the address the emitted code for `x[i].k` leaves in EAX. */
  lemma LocalElemFieldExec(img: Image, s: State, lo: int, hi: int, elem: Elem, i: int, k: nat, off: int, b: int)
    requires Sits(img.code, s.pc, (ScaleIndex(lo, elem) + [Lea(EAX, off), Op(ASub, EAX, EDX)])
             + GenFieldOffset(false, k))
    requires s.status == Running && s.eax == I(i) && s.ebp == A(b) && lo <= i <= hi && ShapeOk(Arr(lo, hi, elem))
    ensures var len := |(ScaleIndex(lo, elem) + [Lea(EAX, off), Op(ASub, EAX, EDX)]) + GenFieldOffset(false, k)|;
            Run(img, s, len).eax == A(b + ElemFieldOff(off, lo, elem, i, k))
  {
    var tail := ScaleIndex(lo, elem) + [Lea(EAX, off), Op(ASub, EAX, EDX)];
    hide Sits, Run, ScaleIndex, Words, ShapeOk, GenFieldOffset;
    SitsSplit(img.code, s.pc, tail, GenFieldOffset(false, k));
    LocalScaled(img, s, lo, hi, elem, i, off, b);
    var s1 := Run(img, s, |tail|);
    FieldExec(img, s1, false, k, b + off - 4 * ((i - lo) * Words(elem)));
    Chain(img, s, |tail|, s1, |GenFieldOffset(false, k)|, Run(img, s1, |GenFieldOffset(false, k)|));
  }

  /** An access stays inside the array's own slots exactly unless it names a later field of the first
      element. */
  lemma ElemFieldInside(off: int, lo: int, hi: int, elem: Elem, i: int, k: nat)
    requires lo <= i <= hi && k < Words(elem)
    ensures var o := ElemFieldOff(off, lo, elem, i, k);
            off - 4 * (Cells(Arr(lo, hi, elem)) - 1) <= o <= off <==> (k == 0 || i > lo)
  {
    var j, n, w := i - lo, hi - lo + 1, Words(elem);
    Nonneg(n - 1 - j, w);
    assert (n - 1 - j) * w == n * w - w - j * w;
    if j >= 1 {
      MulAtLeast(w, j);
      assert j * w == w * j;
    }
  }

  /** All accesses of an array stay inside it: the layout a frame-resident array of records needs. */
  predicate StaysInside(off: int, lo: int, hi: int, elem: Elem) {
    forall i, k: nat :: lo <= i <= hi && k < Words(elem) ==>
      off - 4 * (Cells(Arr(lo, hi, elem)) - 1) <= ElemFieldOff(off, lo, elem, i, k) <= off
  }

  /** Exactly the arrays of one-dword elements do. */
  lemma LocalRecordArray(off: int, lo: int, hi: int, elem: Elem)
    requires lo <= hi
    ensures StaysInside(off, lo, hi, elem) <==> Words(elem) == 1
  {
    if Words(elem) == 1 {
      forall i, k: nat | lo <= i <= hi && k < Words(elem)
        ensures off - 4 * (Cells(Arr(lo, hi, elem)) - 1) <= ElemFieldOff(off, lo, elem, i, k) <= off
      {
        ElemFieldInside(off, lo, hi, elem, i, k);
      }
    } else {
      ElemFieldInside(off, lo, hi, elem, lo, 1);
      assert !(off - 4 * (Cells(Arr(lo, hi, elem)) - 1) <= ElemFieldOff(off, lo, elem, lo, 1) <= off);
    }
  }

  /** In a procedure whose first local is such an array, field `k` of the first element stands at
      EBP + 4k - 4: the second field, if there is one, is the saved EBP (EBP + 0) and the third the return
      address (EBP + 4). */
  lemma FirstElementHitsControl(r: Routine, x: string, lo: int, hi: int, elem: Elem)
    requires r.result.None? && FindParam(r.params, x).None?
    requires r.locals != [] && r.locals[0] == VarDecl(x, Arr(lo, hi, elem)) && lo <= hi
    ensures Resolve(Some(r), x).Some?
    ensures var off := Resolve(Some(r), x).value.off;
            forall k: nat :: k < Words(elem) ==> ElemFieldOff(off, lo, elem, lo, k) == 4 * k - 4
  {
    ParamEntOf(r.params, 0, x);
    assert (lo - lo) * Words(elem) == 0;
  }

  // ---- records by reference ----

  /** A bare record of the routine's own frame; its fields run downward. */
  predicate FrameRecord(sc: Scope, p: Place) { p.Name? && IsFrameBase(sc, p.x) }

  /** The code for a field is the code that passes the record to a `var` parameter, then an offset. */
  lemma FieldCode(P: Program, sc: Scope, p: Place, k: nat)
    requires p.Name? || p.At?
    ensures GenAddr(P, sc, FieldPlace(p, k)) == GenAddr(P, sc, p) + GenFieldOffset(FrameRecord(sc, p), k)
  {
  }

  /** The address of `p.k` in the code of the scope that declares `p`, whose first field is at `a`. */
  function OwnField(sc: Scope, p: Place, a: int, k: nat): int { if FrameRecord(sc, p) then a - 4 * k else a + 4 * k }

  lemma OwnFieldExec(img: Image, P: Program, sc: Scope, p: Place, k: nat, s: State, n: nat, a: int)
    requires (p.Name? || p.At?) && Sits(img.code, s.pc, GenAddr(P, sc, FieldPlace(p, k)))
    requires Run(img, s, n).status == Running && Run(img, s, n).pc == s.pc + |GenAddr(P, sc, p)|
    requires Run(img, s, n).eax == A(a)
    ensures var own := Run(img, s, n + |GenFieldOffset(FrameRecord(sc, p), k)|);
            own.pc == s.pc + |GenAddr(P, sc, FieldPlace(p, k))| && own.eax == A(OwnField(sc, p, a, k))
  {
    hide Sits, Run, GenFieldOffset, GenAddr, IsFrameBase, FieldPlace;
    var off := GenFieldOffset(FrameRecord(sc, p), k);
    FieldCode(P, sc, p, k);
    SitsSplit(img.code, s.pc, GenAddr(P, sc, p), off);
    var s1 := Run(img, s, n);
    FieldExec(img, s1, FrameRecord(sc, p), k, a);
    Chain(img, s, n, s1, |off|, Run(img, s1, |off|));
  }

  lemma ThroughCode(P: Program, r: Routine, y: string, k: nat)
    requires Resolve(Some(r), y).Some? && Resolve(Some(r), y).value.kind == VarParam
    ensures GenAddr(P, Some(r), Field(y, k)) == GenBase(Some(r), y) + GenFieldOffset(false, k)
  {
    hide Resolve;
  }

  lemma ThroughExec(img: Image, P: Program, r: Routine, y: string, k: nat, t: State, a: int)
    requires Resolve(Some(r), y).Some? && Resolve(Some(r), y).value.kind == VarParam
    requires Sits(img.code, t.pc, GenAddr(P, Some(r), Field(y, k))) && t.status == Running
    requires Leads(img, t, Resolve(Some(r), y), y, a)
    ensures var through := Run(img, t, |GenAddr(P, Some(r), Field(y, k))|);
            through.pc == t.pc + |GenAddr(P, Some(r), Field(y, k))| && through.eax == A(a + 4 * k)
  {
    hide Sits, Run, Resolve, GenFieldOffset, GenAddr, GenBase, Leads;
    ThroughCode(P, r, y, k);
    var base, up := GenBase(Some(r), y), GenFieldOffset(false, k);
    SitsSplit(img.code, t.pc, base, up);
    BaseExec(img, t, Some(r), y, a);
    var t1 := Run(img, t, 1);
    FieldExec(img, t1, false, k, a);
    Chain(img, t, 1, t1, |up|, Run(img, t1, |up|));
  }

  /** Both ways to a field, as the emitted instructions compute them. The caller's code for `p.k`, from a
      state `s`, has just found the record's address `a` after `n` steps; its code for the argument `p` pushes
      that same `a` (`FieldCode`). A routine whose `var` parameter `y` holds `a` runs its own code for `y.k`
      from `t`. The two addresses are the same exactly if `p` is no bare record of the caller's frame, or `k`
      is 0. */
  lemma RefFieldTransparent(img: Image, P: Program, sc: Scope, p: Place, k: nat, s: State, n: nat, a: int,
                            r: Routine, y: string, t: State)
    requires (p.Name? || p.At?) && Sits(img.code, s.pc, GenAddr(P, sc, FieldPlace(p, k)))
    requires Run(img, s, n).status == Running && Run(img, s, n).pc == s.pc + |GenAddr(P, sc, p)|
    requires Run(img, s, n).eax == A(a)
    requires Resolve(Some(r), y).Some? && Resolve(Some(r), y).value.kind == VarParam
    requires Sits(img.code, t.pc, GenAddr(P, Some(r), Field(y, k))) && t.status == Running
    requires Leads(img, t, Resolve(Some(r), y), y, a)
    ensures var own := Run(img, s, n + |GenFieldOffset(FrameRecord(sc, p), k)|);
            var through := Run(img, t, |GenAddr(P, Some(r), Field(y, k))|);
            && own.pc == s.pc + |GenAddr(P, sc, FieldPlace(p, k))| && own.eax.A?
            && through.pc == t.pc + |GenAddr(P, Some(r), Field(y, k))| && through.eax.A?
            && (own.eax == through.eax <==> !FrameRecord(sc, p) || k == 0)
  {
    hide Sits, Run, Resolve, GenFieldOffset, GenAddr, IsFrameBase, FieldPlace, Leads;
    OwnFieldExec(img, P, sc, p, k, s, n, a);
    ThroughExec(img, P, r, y, k, t, a);
  }

  /** A `var` parameter reaches every field of the record that `p` designates. */
  ghost predicate Transparent(sc: Scope, p: Place, elem: Elem) {
    forall a: int, k: nat :: k < Words(elem) ==> OwnField(sc, p, a, k) == a + 4 * k
  }

  /** So a record may be passed by reference unless it is a bare record of the frame with two or more fields.
      Globals, elements of any array, and records that are themselves `var` parameters may. */
  lemma ByReference(sc: Scope, p: Place, elem: Elem)
    ensures Transparent(sc, p, elem) <==> !FrameRecord(sc, p) || !Fat(elem)
    ensures FrameRecord(sc, p) <==>
              p.Name? && sc.Some? && FindDecl(sc.value, p.x).Some? && !FindDecl(sc.value, p.x).value.isRef
  {
    if sc.Some? { EntOf(sc.value, p.x); }
    if FrameRecord(sc, p) && Fat(elem) { assert OwnField(sc, p, 0, 1) != 0 + 4 * 1; }
  }

  // ---- literals with a NUL ----

  /** The runtime prints a write literal up to its first NUL: all of it exactly when it has none. */
  lemma {:induction false} PrintsWhole(bs: seq<int>)
    ensures UntilNul(bs) == bs <==> 0 !in bs
  {
    if bs != [] {
      PrintsWhole(bs[1..]);
      assert bs == [bs[0]] + bs[1..];
      if bs[0] != 0 && UntilNul(bs) == bs {
        assert UntilNul(bs[1..]) == UntilNul(bs)[1..] == bs[1..];
      }
    }
  }
}
