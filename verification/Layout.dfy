/** Where the cells of the source store live in memory, and why no two of them overlap. */
module Layout {
  import opened Int32
  import opened Syntax
  import opened Semantics
  import opened Machine
  import opened Codegen

  /** An activation on the stack: its frame pointer, its routine and what its `var` parameters denote. */
  datatype Act = Act(ebp: int, r: Routine, refs: map<string, Loc>)

  /** The activations below the main block, outermost first; call depth d is entry d-1. */
  type Acts = seq<Act>

  /** The main block's frame pointer: one dword below the return address at -4. */
  const MAIN_EBP: int := -8

  function Ebp(acts: Acts): int { if acts == [] then MAIN_EBP else acts[|acts| - 1].ebp }

  /** The lowest address of the current frame; the expression stack lies below it. */
  function Lo(acts: Acts): int {
    if acts == [] then MAIN_EBP else acts[|acts| - 1].ebp - 4 * FrameSlots(acts[|acts| - 1].r)
  }

  /** The first address above an activation's frame and arguments. */
  function Hi(a: Act): int { a.ebp + 8 + 4 * |a.r.params| }

  // ---- conditions on declarations ----

  /** An array has bounds in range and fits in the address space. */
  predicate ShapeOk(s: Shape) {
    s.Arr? ==> s.lo <= s.hi && IsWord(s.lo) && IsWord(s.hi) && 4 * Cells(s) <= MAX
  }

  /** A frame-resident array of records with two or more fields is where the generator's downward
      elements and upward fields collide. */
  predicate LocalOk(s: Shape) {
    ShapeOk(s) && (s.Arr? && s.elem.Record? ==> |s.elem.fields| <= 1)
  }

  predicate DeclsOk(r: Routine) {
    && (forall i, j :: 0 <= i < j < |r.params| ==> r.params[i].name != r.params[j].name)
    && (forall i :: 0 <= i < |r.params| && !r.params[i].isVar ==> r.params[i].elem.Scalar?)
    && (forall i :: 0 <= i < |r.locals| ==> LocalOk(r.locals[i].shape))
    && (r.result.Some? ==> FindParam(r.params, r.name).None?)
  }

  predicate GlobalsOk(P: Program) {
    && (forall i :: 0 <= i < |P.globals| ==> ShapeOk(P.globals[i].shape))
    && (forall i, j :: 0 <= i < j < |P.globals| ==> P.globals[i].name != P.globals[j].name)
  }

  // ---- scope entries agree with declarations ----

  lemma {:induction false} ParamEntOf(ps: seq<Param>, i: nat, x: string)
    ensures ParamEnt(ps, i, x).Some? <==> FindParam(ps, x).Some?
    ensures ParamEnt(ps, i, x).Some? ==>
              exists j: nat :: j < |ps| && ps[j].name == x && FindParam(ps, x).value == ps[j] &&
                ParamEnt(ps, i, x).value ==
                  Ent(if ps[j].isVar then VarParam else ValParam, ParamOffset(i + j), One(ps[j].elem))
  {
    if ps != [] {
      if ps[0].name != x {
        ParamEntOf(ps[1..], i + 1, x);
        if ParamEnt(ps, i, x).Some? {
          var j: nat :| j < |ps[1..]| && ps[1..][j].name == x && FindParam(ps[1..], x).value == ps[1..][j] &&
                        ParamEnt(ps[1..], i + 1, x).value ==
                          Ent(if ps[1..][j].isVar then VarParam
                            else ValParam, ParamOffset(i + 1 + j), One(ps[1..][j].elem));
          assert ps[j + 1] == ps[1..][j];
        }
      } else {
        assert ps[0].name == x;
      }
    }
  }

  lemma {:induction false} LocalEntOf(ds: seq<VarDecl>, slot: nat, x: string)
    ensures LocalEnt(ds, slot, x).Some? <==> FindVar(ds, x).Some?
    ensures LocalEnt(ds, slot, x).Some? ==>
              var e := LocalEnt(ds, slot, x).value;
              && e.kind == OwnSlot && e.shape == FindVar(ds, x).value
              && (exists i :: 0 <= i < |ds| && ds[i].shape == e.shape)
              && SlotOffset(slot + CellSum(ds)) < e.off - 4 * Cells(e.shape) + 4
              && e.off <= SlotOffset(slot) && e.off % 4 == 0
  {
    if ds != [] {
      if ds[0].name != x {
        LocalEntOf(ds[1..], slot + Cells(ds[0].shape), x);
        if LocalEnt(ds, slot, x).Some? {
          var i :| 0 <= i < |ds[1..]| && ds[1..][i].shape == LocalEnt(ds, slot, x).value.shape;
          assert ds[i + 1] == ds[1..][i];
        }
      } else {
        assert ds[0].shape == LocalEnt(ds, slot, x).value.shape;
      }
    }
  }

  lemma {:induction false} LocalEntsApart(ds: seq<VarDecl>, slot: nat, x: string, y: string)
    requires x != y && LocalEnt(ds, slot, x).Some? && LocalEnt(ds, slot, y).Some?
    ensures var e, f := LocalEnt(ds, slot, x).value, LocalEnt(ds, slot, y).value;
            f.off <= e.off - 4 * Cells(e.shape) || e.off <= f.off - 4 * Cells(f.shape)
  {
    var s := slot + Cells(ds[0].shape);
    if ds[0].name == x {
      LocalEntOf(ds[1..], s, y);
    } else if ds[0].name == y {
      LocalEntOf(ds[1..], s, x);
    } else {
      LocalEntsApart(ds[1..], s, x, y);
    }
  }

  /** The scope table resolves exactly the names the routine declares, with the same shapes, and every
      own cell lies inside the frame: below the saved EBP, or among the arguments. */
  lemma EntOf(r: Routine, x: string)
    ensures Resolve(Some(r), x).Some? <==> FindDecl(r, x).Some?
    ensures Resolve(Some(r), x).Some? ==>
              var e, d := Resolve(Some(r), x).value, FindDecl(r, x).value;
              && e.shape == d.shape && (e.kind == VarParam <==> d.isRef) && e.off % 4 == 0
              && (e.kind != OwnSlot ==> 8 <= e.off < 8 + 4 * |r.params| && e.shape.One?)
              && (e.kind == OwnSlot ==> e.off <= -4 && -4 * FrameSlots(r) <= e.off - 4 * Cells(e.shape) + 4)
  {
    ParamEntOf(r.params, 0, x);
    LocalEntOf(r.locals, ResultSlots(r), x);
  }

  lemma ValParamOne(r: Routine, x: string)
    requires DeclsOk(r) && Resolve(Some(r), x).Some? && Resolve(Some(r), x).value.kind == ValParam
    ensures Cells(Resolve(Some(r), x).value.shape) == 1
  {
    ParamEntOf(r.params, 0, x);
    LocalEntOf(r.locals, ResultSlots(r), x);
  }

  /** An own cell's byte offset from EBP. */
  function CellOff(r: Routine, x: string, i: int): int {
    var e := Resolve(Some(r), x);
    if e.Some? then e.value.off - 4 * i else 0
  }

  predicate OwnCell(r: Routine, x: string, i: int) {
    var d := FindDecl(r, x);
    d.Some? && !d.value.isRef && 0 <= i < Cells(d.value.shape)
  }

  lemma OwnCellBounds(r: Routine, x: string, i: int)
    requires DeclsOk(r) && OwnCell(r, x, i)
    ensures var o := CellOff(r, x, i);
            o % 4 == 0 && ((-4 * FrameSlots(r) <= o <= -4) || (8 <= o < 8 + 4 * |r.params|))
  {
    EntOf(r, x);
    if Resolve(Some(r), x).value.kind == ValParam { ValParamOne(r, x); }
  }

  /** Frame separation: two different own cells of a routine never share an address. */
  lemma OwnCellsApart(r: Routine, x: string, i: int, y: string, j: int)
    requires DeclsOk(r) && OwnCell(r, x, i) && OwnCell(r, y, j) && (x != y || i != j)
    ensures CellOff(r, x, i) != CellOff(r, y, j)
  {
    EntOf(r, x);
    EntOf(r, y);
    if Resolve(Some(r), x).value.kind == ValParam { ValParamOne(r, x); }
    if Resolve(Some(r), y).value.kind == ValParam { ValParamOne(r, y); }
    if x != y {
      ParamEntOf(r.params, 0, x);
      ParamEntOf(r.params, 0, y);
      LocalEntOf(r.locals, ResultSlots(r), x);
      LocalEntOf(r.locals, ResultSlots(r), y);
      if LocalEnt(r.locals, ResultSlots(r), x).Some? && LocalEnt(r.locals, ResultSlots(r), y).Some? {
        LocalEntsApart(r.locals, ResultSlots(r), x, y);
      }
    }
  }

  lemma ParamSlot(r: Routine, x: string) returns (j: nat)
    requires Resolve(Some(r), x).Some? && Resolve(Some(r), x).value.kind != OwnSlot
    ensures j < |r.params| && r.params[j].name == x
    ensures FindDecl(r, x) == Some(Decl(r.params[j].isVar, One(r.params[j].elem)))
    ensures Resolve(Some(r), x).value.off == ParamOffset(j)
  {
    ParamEntOf(r.params, 0, x);
    LocalEntOf(r.locals, ResultSlots(r), x);
    j :| j < |r.params| && r.params[j].name == x && FindParam(r.params, x).value == r.params[j] &&
         ParamEnt(r.params, 0, x).value ==
           Ent(if r.params[j].isVar then VarParam else ValParam, ParamOffset(0 + j), One(r.params[j].elem));
  }

  /** A `var` parameter's pointer slot is no own cell. */
  lemma RefSlotApart(r: Routine, x: string, y: string, j: int)
    requires DeclsOk(r) && OwnCell(r, y, j)
    requires FindDecl(r, x).Some? && FindDecl(r, x).value.isRef
    ensures CellOff(r, x, 0) != CellOff(r, y, j)
  {
    EntOf(r, x);
    EntOf(r, y);
    if Resolve(Some(r), y).value.kind == ValParam {
      ValParamOne(r, y);
      var i := ParamSlot(r, x);
      var k := ParamSlot(r, y);
      assert i != k;
    }
  }

  // ---- globals ----

  function GlobalAddr(P: Program, x: string): int {
    var m := GlobalAddrs(P.globals, 0);
    if x in m then m[x] else 0
  }

  lemma {:induction false} GlobalAddrsOf(gs: seq<VarDecl>, at: nat, x: string)
    requires at % 4 == 0
    ensures x in GlobalAddrs(gs, at) <==> FindVar(gs, x).Some?
    ensures x in GlobalAddrs(gs, at) ==> GlobalAddrs(gs, at)[x] >= at && GlobalAddrs(gs, at)[x] % 4 == 0
  {
    if gs != [] { GlobalAddrsOf(gs[1..], at + 4 * Cells(gs[0].shape), x); }
  }

  lemma {:induction false} GlobalsApart(gs: seq<VarDecl>, at: nat, x: string, y: string)
    requires at % 4 == 0 && x != y && FindVar(gs, x).Some? && FindVar(gs, y).Some?
    ensures x in GlobalAddrs(gs, at) && y in GlobalAddrs(gs, at)
    ensures var a, b := GlobalAddrs(gs, at)[x], GlobalAddrs(gs, at)[y];
            a + 4 * Cells(FindVar(gs, x).value) <= b || b + 4 * Cells(FindVar(gs, y).value) <= a
  {
    var at' := at + 4 * Cells(gs[0].shape);
    GlobalAddrsOf(gs[1..], at', x);
    GlobalAddrsOf(gs[1..], at', y);
    if gs[0].name != x && gs[0].name != y { GlobalsApart(gs[1..], at', x, y); }
  }

  // ---- the whole store ----

  predicate Valid(P: Program, acts: Acts, l: Loc) {
    match l
    case Glob(x, i) => FindVar(P.globals, x).Some? && 0 <= i < Cells(FindVar(P.globals, x).value)
    case Local(d, x, i) => 1 <= d <= |acts| && OwnCell(acts[d - 1].r, x, i)
  }

  function Addr(P: Program, acts: Acts, l: Loc): int {
    match l
    case Glob(x, i) => GlobalAddr(P, x) + 4 * i
    case Local(d, x, i) => if 1 <= d <= |acts| then acts[d - 1].ebp + CellOff(acts[d - 1].r, x, i) else 0
  }

  /** Frames stack downward without overlapping, aligned, below the main block's. */
  predicate ActsOk(P: Program, acts: Acts) {
    acts == [] ||
    (var n := |acts| - 1;
     && ActsOk(P, acts[..n])
     && acts[n].ebp % 4 == 0 && Hi(acts[n]) <= Lo(acts[..n])
     && acts[n].r in P.routines && DeclsOk(acts[n].r))
  }

  lemma {:induction false} ActsOrdered(P: Program, acts: Acts, d: nat)
    requires ActsOk(P, acts) && 1 <= d <= |acts|
    ensures Lo(acts) <= Lo(acts[..d]) && acts[d - 1].ebp % 4 == 0 && DeclsOk(acts[d - 1].r)
    ensures Hi(acts[d - 1]) <= Lo(acts[..d - 1]) && Lo(acts[..d - 1]) <= MAIN_EBP
    decreases |acts|
  {
    var n := |acts| - 1;
    if d == |acts| {
      assert acts[..d] == acts;
      if n > 0 {
        ActsOrdered(P, acts[..n], n);
        assert acts[..n][..n] == acts[..n];
        assert Lo(acts[..n]) <= Hi(acts[n - 1]);
        assert acts[..n][..n - 1] == acts[..n - 1];
      }
    } else {
      ActsOrdered(P, acts[..n], d);
      assert acts[..n][..d] == acts[..d] && acts[..n][..d - 1] == acts[..d - 1];
    }
  }

  lemma LoBelowMain(P: Program, acts: Acts)
    requires ActsOk(P, acts)
    ensures Lo(acts) <= MAIN_EBP
  {
    if acts != [] {
      ActsOrdered(P, acts, |acts|);
      assert acts[..|acts|] == acts;
    }
  }

  lemma GlobBounds(P: Program, acts: Acts, x: string, i: int)
    requires Valid(P, acts, Glob(x, i))
    ensures Addr(P, acts, Glob(x, i)) % 4 == 0 && Addr(P, acts, Glob(x, i)) >= 0
    ensures x in GlobalAddrs(P.globals, 0)
  {
    GlobalAddrsOf(P.globals, 0, x);
  }

  lemma LocalBounds(P: Program, acts: Acts, d: nat, x: string, i: int)
    requires ActsOk(P, acts) && Valid(P, acts, Local(d, x, i))
    ensures var a := Addr(P, acts, Local(d, x, i));
            && a % 4 == 0 && a >= Lo(acts) && a != acts[d - 1].ebp && a != acts[d - 1].ebp + 4
            && Lo(acts[..d]) <= a < Hi(acts[d - 1]) <= MAIN_EBP
  {
    ActsOrdered(P, acts, d);
    var r := acts[d - 1].r;
    OwnCellBounds(r, x, i);
    var o := CellOff(r, x, i);
    assert Addr(P, acts, Local(d, x, i)) == acts[d - 1].ebp + o;
    assert Lo(acts[..d]) == acts[d - 1].ebp - 4 * FrameSlots(r);
    hide CellOff;
    hide ActsOk;
    hide FrameSlots;
  }

  /** Every cell is aligned and lies at or above the current frame's low end. */
  lemma AddrBounds(P: Program, acts: Acts, l: Loc)
    requires ActsOk(P, acts) && Valid(P, acts, l)
    ensures Addr(P, acts, l) % 4 == 0 && Addr(P, acts, l) >= Lo(acts)
  {
    match l
    case Glob(x, i) =>
      GlobBounds(P, acts, x, i);
      LoBelowMain(P, acts);
    case Local(d, x, i) =>
      LocalBounds(P, acts, d, x, i);
  }

  /** Distinct cells of the whole store, globals and every activation together, have distinct addresses. */
  lemma AddrApart(P: Program, acts: Acts, l: Loc, k: Loc)
    requires ActsOk(P, acts) && Valid(P, acts, l) && Valid(P, acts, k) && l != k
    ensures Addr(P, acts, l) != Addr(P, acts, k)
  {
    match (l, k)
    case (Glob(x, i), Glob(y, j)) =>
      if x != y { GlobalsApart(P.globals, 0, x, y); }
    case (Local(d, x, i), Local(c, y, j)) =>
      if d == c {
        ActsOrdered(P, acts, d);
        OwnCellsApart(acts[d - 1].r, x, i, y, j);
      } else {
        LocalBounds(P, acts, d, x, i);
        LocalBounds(P, acts, c, y, j);
        if d < c { FramesApart(P, acts, d, c); } else { FramesApart(P, acts, c, d); }
      }
    case (Glob(x, i), Local(d, y, j)) =>
      GlobBounds(P, acts, x, i);
      LocalBounds(P, acts, d, y, j);
    case (Local(d, y, j), Glob(x, i)) =>
      GlobBounds(P, acts, x, i);
      LocalBounds(P, acts, d, y, j);
  }

  lemma FramesApart(P: Program, acts: Acts, d: nat, c: nat)
    requires ActsOk(P, acts) && 1 <= d < c <= |acts|
    ensures Hi(acts[c - 1]) <= Lo(acts[..d])
  {
    ActsOrdered(P, acts, c);
    ActsOkPrefix(P, acts, c - 1);
    ActsOrdered(P, acts[..c - 1], d);
    assert acts[..c - 1][..d] == acts[..d];
  }

  lemma {:induction false} ActsOkPrefix(P: Program, acts: Acts, d: nat)
    requires ActsOk(P, acts) && d <= |acts|
    ensures ActsOk(P, acts[..d])
    decreases |acts|
  {
    if d == |acts| {
      assert acts[..d] == acts;
    } else {
      ActsOkPrefix(P, acts[..|acts| - 1], d);
      assert acts[..|acts| - 1][..d] == acts[..d];
    }
  }

  /** Cells of callers keep their addresses when a new activation is pushed. */
  lemma AddrPrefix(P: Program, acts: Acts, a: Act, l: Loc)
    requires Valid(P, acts, l)
    ensures Valid(P, acts + [a], l) && Addr(P, acts + [a], l) == Addr(P, acts, l)
  {
  }

  ghost predicate IsData(P: Program, acts: Acts, a: int) {
    exists l: Loc :: Valid(P, acts, l) && Addr(P, acts, l) == a
  }
}
