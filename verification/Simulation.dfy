/** What it means for a machine state to represent a source state, and the building blocks of the
    proof that emitted code keeps them in step. */
module Simulation {
  import opened Int32
  import opened Syntax
  import opened Semantics
  import opened Machine
  import opened Codegen
  import opened Layout

  /** Representation of values: booleans are 0/1, characters zero-extended bytes. */
  function Enc(v: Value): int {
    match v
    case VI(i) => i
    case VB(b) => if b then 1 else 0
    case VC(c) => c
  }

  predicate ValOk(v: Value) {
    match v
    case VI(i) => IsWord(i)
    case VB(_) => true
    case VC(c) => 0 <= c < 256
  }

  // ---- conditions on programs ----

  predicate Fat(e: Elem) { e.Record? && |e.fields| >= 2 }

  /** A record with two or more fields goes to a `var` parameter only if it is no bare frame-resident
      record: there the caller's fields run downward and the callee's upward. */
  predicate ArgOk(sc: Scope, e: Expr, p: Param) {
    p.isVar && Fat(p.elem) ==> e.Read? && !IsFrameBase(sc, e.p.x)
  }

  predicate ExprOk(P: Program, sc: Scope, e: Expr)
    decreases e, 0
  {
    match e
    case Read(p) => PlaceOk(P, sc, p)
    case Binop(_, l, r) => ExprOk(P, sc, l) && ExprOk(P, sc, r)
    case Unop(_, e1) => ExprOk(P, sc, e1)
    case Call(f, args) => CallOk(P, sc, f, args)
    case _ => true
  }

  predicate PlaceOk(P: Program, sc: Scope, p: Place)
    decreases p, 0
  {
    match p
    case At(_, idx) => ExprOk(P, sc, idx)
    case AtField(_, idx, _) => ExprOk(P, sc, idx)
    case _ => true
  }

  predicate CallOk(P: Program, sc: Scope, f: string, args: Exprs)
    decreases args, 1
  {
    var r := FindRoutine(P.routines, f);
    r.Some? && Length(args) == |r.value.params| ==> ArgsOk(P, sc, args, r.value.params)
  }

  predicate ArgsOk(P: Program, sc: Scope, args: Exprs, ps: seq<Param>)
    requires Length(args) == |ps|
    decreases args, 0
  {
    match args
    case Nil => true
    case Cons(e, rest) => ArgOk(sc, e, ps[0]) && ExprOk(P, sc, e) && ArgsOk(P, sc, rest, ps[1..])
  }

  predicate StmtOk(P: Program, sc: Scope, s: Stmt) {
    match s
    case Seq(s1, s2) => StmtOk(P, sc, s1) && StmtOk(P, sc, s2)
    case Assign(p, e) => PlaceOk(P, sc, p) && ExprOk(P, sc, e)
    case CopyField(d, s) => PlaceOk(P, sc, d) && PlaceOk(P, sc, s)
    case If(c, t) => ExprOk(P, sc, c) && StmtOk(P, sc, t)
    case IfElse(c, t, e) => ExprOk(P, sc, c) && StmtOk(P, sc, t) && StmtOk(P, sc, e)
    case While(c, b) => ExprOk(P, sc, c) && StmtOk(P, sc, b)
    case CallStmt(f, args) => CallOk(P, sc, f, args)
    case WriteLit(text) => 0 !in text
    case WriteVal(_, e) => ExprOk(P, sc, e)
    case _ => true
  }

  /** The programs the generator compiles faithfully. */
  predicate ProgramOk(P: Program) {
    && GlobalsOk(P)
    && (forall r :: r in P.routines ==> DeclsOk(r) && StmtOk(P, Some(r), r.body))
    && (forall i, j :: 0 <= i < j < |P.routines| ==> P.routines[i].name != P.routines[j].name)
    && StmtOk(P, None, P.main)
  }

  // ---- the linked image ----

  predicate TextAt(img: Image, k: nat, lits: seq<seq<int>>) {
    k + |lits| <= |img.text| && img.text[k..k + |lits|] == lits
  }

  predicate Placed(P: Program, img: Image, r: Routine, pc: nat, n: nat, k: nat) {
    Sits(img.code, pc, GenRoutine(P, r, n, k)) && TextAt(img, k, Literals(r.body))
  }

  ghost predicate Linked(P: Program, img: Image) {
    && img.gaddr == GlobalAddrs(P.globals, 0)
    && DistinctLabels(img.code)
    && forall r :: r in P.routines ==> exists pc, n, k :: Placed(P, img, r, pc, n, k)
  }

  // ---- the relation ----

  /** Where a piece of code runs: the program, its image, the activations and the current scope. */
  datatype Ctx = Ctx(P: Program, img: Image, acts: Acts, env: Env)

  function ScopeOf(env: Env): Scope { if env.Main? then None else Some(env.r) }

  ghost predicate CtxOk(c: Ctx) {
    && ProgramOk(c.P) && Linked(c.P, c.img) && ActsOk(c.P, c.acts)
    && (if c.acts == [] then c.env == Main
        else c.env == In(|c.acts|, c.acts[|c.acts| - 1].r, c.acts[|c.acts| - 1].refs))
  }

  /** Every cell of the store is in memory at its address. */
  ghost predicate MemOk(P: Program, acts: Acts, store: Store, m: Mem) {
    forall l :: l in store ==>
                  && Valid(P, acts, l) && ValOk(store[l])
                  && Addr(P, acts, l) in m && m[Addr(P, acts, l)] == I(Enc(store[l]))
  }

  /** What `l` denotes, as an `elem`, is wholly valid. */
  predicate DestOk(P: Program, acts: Acts, l: Loc, elem: Elem) {
    (forall k :: 0 <= k < Words(elem) ==> Valid(P, acts, Shift(l, k)))
  }

  /** A `var` parameter may denote it: a record of two or more fields only in global storage. */
  predicate RefOk(P: Program, acts: Acts, l: Loc, elem: Elem) {
    DestOk(P, acts, l, elem) && (Fat(elem) ==> l.Glob?)
  }

  /** The current activation's `var` parameters: each slot holds the address of the caller's cell. */
  ghost predicate RefsOk(P: Program, acts: Acts, m: Mem) {
    acts != [] ==>
      var n := |acts| - 1;
      var a := acts[n];
      forall x :: x in RefNames(a.r) ==>
        && x in a.refs && RefOk(P, acts[..n], a.refs[x], FindDecl(a.r, x).value.shape.elem)
        && var p := a.ebp + CellOff(a.r, x, 0);
           p in m && m[p] == A(Addr(P, acts[..n], a.refs[x]))
  }

  function RefNames(r: Routine): set<string> {
    set i | 0 <= i < |r.params| && FindDecl(r, r.params[i].name) == Some(Decl(true, One(r.params[i].elem)))
      :: r.params[i].name
  }

  ghost predicate Sim(c: Ctx, st: St, s: State) {
    && s.status == Running && s.out == st.out
    && s.ebp == A(Ebp(c.acts)) && s.esp.A? && s.esp.a % 4 == 0 && s.esp.a <= Lo(c.acts)
    && MemOk(c.P, c.acts, st.store, s.mem) && RefsOk(c.P, c.acts, s.mem)
  }

  /** Between `m` and `m'`, nothing at or above `esp` changed except cells of the source store. */
  ghost predicate Kept(P: Program, acts: Acts, m: Mem, m': Mem, esp: int) {
    forall a :: a >= esp && !IsData(P, acts, a) && a in m ==> a in m' && m'[a] == m[a]
  }

  /** `s'` follows `s` across `len` instructions of balanced code and represents `st'`. */
  ghost predicate Follows(c: Ctx, s: State, st': St, s': State, len: int) {
    && Sim(c, st', s') && s'.pc == s.pc + len && s.esp.A? && s'.esp == s.esp
    && Kept(c.P, c.acts, s.mem, s'.mem, s.esp.a)
  }

  /** A run that does not complete: the machine faults or is still running after `fuel` steps, with
      the same output. */
  predicate Aborts<T>(res: Res<T>, s': State, n: nat, fuel: nat) {
    && (res.Fault? ==> s'.status == DivFault && s'.out == res.out)
    && (res.Timeout? ==> n >= fuel && s'.status == Running && s'.out == res.out)
  }

  // ---- composition ----

  lemma Chain(img: Image, s: State, n: nat, s1: State, m: nat, s2: State)
    requires Run(img, s, n) == s1 && Run(img, s1, m) == s2
    ensures Run(img, s, n + m) == s2
  {
    RunAdd(img, s, n, m);
  }

  lemma KeptTrans(P: Program, acts: Acts, m: Mem, m1: Mem, m2: Mem, e: int, e1: int, e2: int)
    requires Kept(P, acts, m, m1, e1) && Kept(P, acts, m1, m2, e2) && e1 <= e && e2 <= e
    ensures Kept(P, acts, m, m2, e)
  {
  }

  // ---- what is and is not data ----

  lemma DataIntro(P: Program, acts: Acts, l: Loc)
    requires Valid(P, acts, l)
    ensures IsData(P, acts, Addr(P, acts, l))
  {
  }

  lemma NotDataBelow(P: Program, acts: Acts, a: int)
    requires ActsOk(P, acts) && a < Lo(acts)
    ensures !IsData(P, acts, a)
  {
    forall l | Valid(P, acts, l)
      ensures Addr(P, acts, l) != a
    {
      AddrBounds(P, acts, l);
    }
  }

  lemma RefNameIs(r: Routine, x: string)
    ensures x in RefNames(r) <==> FindDecl(r, x).Some? && FindDecl(r, x).value.isRef
    ensures x in RefNames(r) ==> FindDecl(r, x).value.shape.One? && Resolve(Some(r), x).Some?
                                 && Resolve(Some(r), x).value.kind == VarParam
                                 && Resolve(Some(r), x).value.shape == FindDecl(r, x).value.shape
  {
    EntOf(r, x);
    if FindDecl(r, x).Some? && FindDecl(r, x).value.isRef {
      var j := ParamSlot(r, x);
      assert r.params[j].name in RefNames(r);
    }
  }

  /** The slots of the current frame that hold no source cell: the saved EBP, the return address and
      the pointers of `var` parameters. */
  lemma ControlNotData(P: Program, acts: Acts, a: int)
    requires ActsOk(P, acts) && acts != []
    requires var t := acts[|acts| - 1];
             a == t.ebp || a == t.ebp + 4 || (exists x :: x in RefNames(t.r) && a == t.ebp + CellOff(t.r, x, 0))
    ensures !IsData(P, acts, a)
  {
    var n := |acts|;
    var t := acts[n - 1];
    ActsOrdered(P, acts, n);
    assert acts[..n] == acts;
    assert Lo(acts) <= a < Hi(t) by {
      if x :| x in RefNames(t.r) && a == t.ebp + CellOff(t.r, x, 0) {
        RefNameIs(t.r, x);
        EntOf(t.r, x);
      }
    }
    forall l | Valid(P, acts, l)
      ensures Addr(P, acts, l) != a
    {
      if l.Glob? {
        GlobBounds(P, acts, l.x, l.i);
      } else if l.d < n {
        LocalBounds(P, acts, l.d, l.x, l.i);
        FramesApart(P, acts, l.d, n);
      } else {
        LocalBounds(P, acts, l.d, l.x, l.i);
        if x :| x in RefNames(t.r) && a == t.ebp + CellOff(t.r, x, 0) {
          RefNameIs(t.r, x);
          RefSlotApart(t.r, x, l.x, l.i);
        }
      }
    }
  }

  lemma RefSlotNotData(P: Program, acts: Acts, x: string)
    requires ActsOk(P, acts) && acts != [] && x in RefNames(acts[|acts| - 1].r)
    ensures var t := acts[|acts| - 1]; !IsData(P, acts, t.ebp + CellOff(t.r, x, 0))
    ensures var t := acts[|acts| - 1]; t.ebp + CellOff(t.r, x, 0) >= Lo(acts)
  {
    var t := acts[|acts| - 1];
    ControlNotData(P, acts, t.ebp + CellOff(t.r, x, 0));
    RefNameIs(t.r, x);
    EntOf(t.r, x);
  }

  /** Pointer slots survive whatever keeps non-data memory. */
  lemma RefsKept(P: Program, acts: Acts, m: Mem, m': Mem, esp: int)
    requires ActsOk(P, acts) && RefsOk(P, acts, m) && Kept(P, acts, m, m', esp) && esp <= Lo(acts)
    ensures RefsOk(P, acts, m')
  {
    if acts != [] {
      var a := acts[|acts| - 1];
      forall x | x in RefNames(a.r)
        ensures var p := a.ebp + CellOff(a.r, x, 0); p in m' && m'[p] == m[p]
      {
        RefSlotNotData(P, acts, x);
      }
    }
  }

  // ---- memory updates ----

  /** Storing a value in a cell of the source store. */
  lemma StoreCell(P: Program, acts: Acts, store: Store, m: Mem, l: Loc, v: Value, esp: int)
    requires ActsOk(P, acts) && MemOk(P, acts, store, m) && RefsOk(P, acts, m)
    requires Valid(P, acts, l) && ValOk(v)
    ensures MemOk(P, acts, store[l := v], m[Addr(P, acts, l) := I(Enc(v))])
    ensures RefsOk(P, acts, m[Addr(P, acts, l) := I(Enc(v))])
    ensures Kept(P, acts, m, m[Addr(P, acts, l) := I(Enc(v))], esp)
    ensures Addr(P, acts, l) % 4 == 0
  {
    var m' := m[Addr(P, acts, l) := I(Enc(v))];
    AddrBounds(P, acts, l);
    DataIntro(P, acts, l);
    forall k | k in store[l := v]
      ensures Valid(P, acts, k) && ValOk(store[l := v][k])
      ensures Addr(P, acts, k) in m' && m'[Addr(P, acts, k)] == I(Enc(store[l := v][k]))
    {
      if k != l { AddrApart(P, acts, l, k); }
    }
    assert Kept(P, acts, m, m', Lo(acts));
    RefsKept(P, acts, m, m', Lo(acts));
  }

  /** Writing below the current frame touches nothing of the source store. */
  lemma ScratchWrite(P: Program, acts: Acts, store: Store, m: Mem, a: int, w: Word, esp: int)
    requires ActsOk(P, acts) && MemOk(P, acts, store, m) && RefsOk(P, acts, m)
    requires a < esp <= Lo(acts)
    ensures MemOk(P, acts, store, m[a := w]) && RefsOk(P, acts, m[a := w])
    ensures Kept(P, acts, m, m[a := w], esp)
  {
    forall l | l in store
      ensures Addr(P, acts, l) != a
    {
      AddrBounds(P, acts, l);
    }
    assert Kept(P, acts, m, m[a := w], esp);
    RefsKept(P, acts, m, m[a := w], esp);
  }

  // ---- single instructions ----

  /** A push onto an aligned stack. */
  lemma PushExec(img: Image, s: State, r: Reg)
    requires s.esp.A? && s.esp.a % 4 == 0
    ensures Exec(img, Push(r), s)
            == s.(pc := s.pc + 1, esp := A(s.esp.a - 4), mem := s.mem[s.esp.a - 4 := Get(s, r)])
  {
    hide Find, RunHelper, AluI, RunIdiv, RunAL, Get;
  }

  /** `push`: the source state is untouched and the pushed word is on top. */
  lemma {:induction false} PushStep(c: Ctx, st: St, s: State, r: Reg)
    requires CtxOk(c) && Sim(c, st, s)
    ensures var s' := Exec(c.img, Push(r), s);
            && Sim(c, st, s') && s'.esp == A(s.esp.a - 4) && s'.pc == s.pc + 1
            && s'.esp.a in s'.mem && s'.mem[s'.esp.a] == Get(s, r)
            && s'.eax == s.eax && s'.edx == s.edx && s'.ecx == s.ecx
            && Kept(c.P, c.acts, s.mem, s'.mem, s.esp.a)
  {
    hide MemOk, RefsOk, Kept, ActsOk, Exec;
    PushExec(c.img, s, r);
    ScratchWrite(c.P, c.acts, st.store, s.mem, s.esp.a - 4, Get(s, r), s.esp.a);
  }

  /** What a push left on the stack is still there after balanced code. */
  lemma SpillKept(c: Ctx, st: St, s: State, st': St, s': State, len: int)
    requires CtxOk(c) && Sim(c, st, s) && Follows(c, s, st', s', len) && s.esp.a < Lo(c.acts)
    requires s.esp.a in s.mem
    ensures s.esp.a in s'.mem && s'.mem[s.esp.a] == s.mem[s.esp.a]
  {
    NotDataBelow(c.P, c.acts, s.esp.a);
  }

  /** Popping what was pushed before balanced code restores the stack pointer. */
  lemma PopSim(c: Ctx, st: St, s: State, st1: St, s1: State)
    requires CtxOk(c) && Sim(c, st, s) && Sim(c, st1, s1) && s1.esp.a == s.esp.a - 4
    requires Kept(c.P, c.acts, s.mem, s1.mem, s.esp.a)
    ensures Sim(c, st1, s1.(esp := s.esp))
  {
  }
}
