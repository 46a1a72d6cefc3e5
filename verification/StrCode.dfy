/** Code for string expressions: what the emitted instructions leave in the planned temporaries, and that
    nothing else changes. The emitted code has no jumps of its own; the string routines act as
    `StrIntrinsics` shows, calls and record cells as the frame's parameters say. */
module StrCode {
  import opened Int32
  import opened StrPlan
  import opened StrIntrinsics
  import Operators

  /** What variables hold: strings, and dwords. A scalar variable `x` is the dword (x, 0); element `i` of a
      scalar array, or of one field of an array of records, is (x, i). */
  datatype Vars = Vars(strs: map<string, Text>, nums: map<(string, int), int>)

  /** A string variable's storage: byte 0 at `addr`, capacity `cap`. */
  datatype Slot = Slot(addr: int, cap: int)

  /** The active frame. Temporary `k` occupies the 256 bytes below `tb - 256 * k`; `max` of them are
      reserved. `lo..hi` is .rodata with content `ro`. A called routine maps variables to variables
      (`call`) and memory to memory (`mcall`), within the addresses `world`; `junk` is what a routine
      leaves in registers. */
  datatype Frame = Frame(tb: int, max: nat, vars: map<string, Slot>, nums: map<(string, int), int>, lo: int, hi: int,
                         ro: Mem, world: iset<int>, call: (nat, seq<int>, Vars) -> (Vars, int),
                         mcall: (nat, seq<int>, Mem) -> (Mem, int), junk: int)

  function Temp(F: Frame, k: int): int { F.tb - 256 * (k + 1) }

  /** An address of temporary `k` or above. */
  predicate InTempsFrom(F: Frame, k: int, a: int) { F.tb - 256 * F.max <= a < F.tb - 256 * k }

  predicate InSlot(F: Frame, x: string, a: int)
    requires x in F.vars
  {
    F.vars[x].addr <= a <= F.vars[x].addr + F.vars[x].cap
  }

  predicate Apart(a: int, n: int, b: int, m: int) { a + n < b || b + m < a }

  predicate OffTemps(F: Frame, a: int, n: int) { Apart(a, n, F.tb - 256 * F.max, 256 * F.max - 1) }

  /** The reserved temporaries and the literals are this frame's own. Two names of string variables denote
      either different storage or, when one is a `var` parameter, the same. */
  ghost predicate Separated(F: Frame) {
    && (forall x :: x in F.vars ==>
          && 1 <= F.vars[x].cap <= 255
          && OffTemps(F, F.vars[x].addr, F.vars[x].cap)
          && Apart(F.vars[x].addr, F.vars[x].cap, F.lo, F.hi - F.lo))
    && (forall x, y :: x in F.vars && y in F.vars ==>
          F.vars[x] == F.vars[y] || Apart(F.vars[x].addr, F.vars[x].cap, F.vars[y].addr, F.vars[y].cap))
    && (forall k :: k in F.nums ==> OffTemps(F, F.nums[k], 3))
    && (forall k, x :: k in F.nums && x in F.vars ==> Apart(F.nums[k], 3, F.vars[x].addr, F.vars[x].cap))
    && (forall a :: a in F.world ==> !InTempsFrom(F, 0, a) && !(F.lo <= a <= F.hi))
    && OffTemps(F, F.lo, F.hi - F.lo)
  }

  /** The dword at an address, read as a signed number. */
  function Dword(m: Mem, a: int): int {
    Wrap(At(m, a) + 0x100 * At(m, a + 1) + 0x10000 * At(m, a + 2) + 0x1000000 * At(m, a + 3))
  }

  ghost predicate Encoded(F: Frame, vs: Vars, m: Mem) {
    && (forall x :: x in F.vars ==>
          x in vs.strs && IsText(vs.strs[x]) && |vs.strs[x]| <= F.vars[x].cap && Stored(m, F.vars[x].addr, vs.strs[x]))
    && (forall k :: k in F.nums ==> k in vs.nums && Dword(m, F.nums[k]) == vs.nums[k])
  }

  ghost predicate RoOk(F: Frame, m: Mem) { forall a :: F.lo <= a <= F.hi ==> At(m, a) == At(F.ro, a) }

  /** A call keeps memory in step with the variables and changes nothing outside `world`. */
  ghost predicate CallOk(F: Frame, g: nat, args: seq<int>, vs: Vars, m: Mem) {
    && Encoded(F, F.call(g, args, vs).0, F.mcall(g, args, m).0)
    && F.mcall(g, args, m).1 == F.call(g, args, vs).1
    && forall a :: a !in F.world ==> At(F.mcall(g, args, m).0, a) == At(m, a)
  }

  ghost predicate CallsOk(F: Frame) {
    forall g, args, vs, m :: Encoded(F, vs, m) ==> CallOk(F, g, args, vs, m)
  }

  // ---- meaning ----

  datatype Res<+T> = None | Some(val: T, vs: Vars)

  function Apply(o: Op, x: int, y: int): int {
    match o case Plus => Wrap(x + y) case Minus => Wrap(x - y) case Both => And(x, y) case Either => Or(x, y)
  }

  function ApplyUn(u: Un, x: int): int {
    match u case Negate => Wrap(-x) case Invert => Xor(x, 1) case Ordinal => x case Character => And(x, 0xFF)
  }

  predicate Holds(rel: Rel, c: int) {
    match rel case Eq => c == 0 case Ne => c != 0 case Lt => c < 0 case Le => c <= 0 case Gt => c > 0 case Ge => c >= 0
  }

  /** Strings evaluate left to right; a concatenation keeps its first 255 bytes. */
  function EvalS(F: Frame, vs: Vars, e: S): Res<Text>
    decreases e, 0
  {
    match e
    case Lit(text, _) => Some(text, vs)
    case Var(x) => if x in vs.strs then Some(vs.strs[x], vs) else None
    case Cat(_, l, r) =>
      var u := EvalS(F, vs, l);
      if u.None? then None
      else
        var v := EvalS(F, u.vs, r);
        if v.None? then None else Some(Cut(u.val + v.val, 255), v.vs)
    case Chr(_, c) =>
      var n := EvalV(F, vs, c);
      if n.None? then None else Some([Low(n.val)], n.vs)
  }

  function NumAt(F: Frame, vs: Vars, x: string, i: int): Res<int> {
    if (x, i) in F.nums && (x, i) in vs.nums then Some(vs.nums[(x, i)], vs) else None
  }

  /** No meaning is given to an index outside the string or array, nor to a comparison whose right side changes
      the variable on its left. */
  function EvalV(F: Frame, vs: Vars, v: V): Res<int>
    decreases v, 0
  {
    match v
    case Num(n) => Some(n, vs)
    case Scalar(x) => NumAt(F, vs, x, 0)
    case Elem(x, idx) =>
      var i := EvalV(F, vs, idx);
      if i.None? then None else NumAt(F, i.vs, x, i.val)
    case ByteAt(x, idx) =>
      var i := EvalV(F, vs, idx);
      if i.None? || x !in i.vs.strs || !(0 <= i.val <= |i.vs.strs[x]|) then None
      else Some(if i.val == 0 then |i.vs.strs[x]| else i.vs.strs[x][i.val - 1], i.vs)
    case Length(s) =>
      var t := EvalS(F, vs, s);
      if t.None? then None else Some(|t.val|, t.vs)
    case Field(x, idx) =>
      var i := EvalV(F, vs, idx);
      if i.None? then None else NumAt(F, i.vs, x, i.val)
    case Bin(o, a, b) =>
      var x := EvalV(F, vs, a);
      if x.None? then None
      else
        var y := EvalV(F, x.vs, b);
        if y.None? then None else Some(Apply(o, x.val, y.val), y.vs)
    case Unary(u, a) =>
      var x := EvalV(F, vs, a);
      if x.None? then None else Some(ApplyUn(u, x.val), x.vs)
    case Related(rel, l, r) =>
      var u := EvalS(F, vs, l);
      if u.None? then None
      else
        var t := EvalS(F, u.vs, r);
        if t.None? || (l.Var? && !(l.x in t.vs.strs && t.vs.strs[l.x] == u.val)) then None
        else Some(if Holds(rel, Lex(u.val, t.val)) then 1 else 0, t.vs)
    case Call(g, args) =>
      var a := EvalA(F, vs, args);
      if a.None? then None
      else
        var r := F.call(g, a.val, a.vs);
        Some(r.1, r.0)
  }

  /** Arguments are evaluated right to left. */
  function EvalA(F: Frame, vs: Vars, es: Vs): Res<seq<int>>
    decreases es, 0
  {
    match es
    case End => Some([], vs)
    case More(e, rest) =>
      var r := EvalA(F, vs, rest);
      if r.None? then None
      else
        var x := EvalV(F, r.vs, e);
        if x.None? then None else Some([x.val] + r.val, x.vs)
  }

  // ---- code ----

  datatype I =
    | Imm(n: int)              // mov eax, n or a label
    | Lea(r: Reg, k: int)      // lea r, [temporary k]
    | Mov(r: Reg, src: Reg)
    | MovC(n: int)             // mov ecx, n
    | PushA                    // push eax
    | PopR(r: Reg)
    | StoreLen1                // mov byte [edx], 1
    | StoreChar                // mov [edx+1], al
    | LoadLen                  // movzx eax, byte [eax]
    | LoadAt                   // movzx eax, byte [edx+eax]
    | LoadNum(x: string)       // the load of a scalar
    | LoadCell(x: string)      // the scaled load of an element or of a record field
    | Alu(o: Op)               // eax := eax o ecx
    | AluUn(u: Un)
    | SetRel(rel: Rel)         // cmp eax, 0; setcc al; movzx eax, al
    | CallAssign | CallConcat | CallCmp
    | CallF(g: nat, arity: nat) // call pf_g; add esp, 4n

  datatype St = St(eax: int, ecx: int, edx: int, esi: int, edi: int, stk: seq<int>, mem: Mem)

  function GetR(s: St, r: Reg): int {
    match r case EAX => s.eax case ECX => s.ecx case EDX => s.edx case ESI => s.esi case EDI => s.edi
  }

  function PutR(s: St, r: Reg, v: int): St {
    match r
    case EAX => s.(eax := v)
    case ECX => s.(ecx := v)
    case EDX => s.(edx := v)
    case ESI => s.(esi := v)
    case EDI => s.(edi := v)
  }

  function Clobber(F: Frame,
    s: St): St { s.(eax := F.junk, ecx := F.junk, edx := F.junk, esi := F.junk, edi := F.junk) }

  /** The string a memory address denotes. */
  function TextAt(m: Mem,
    a: int): Text { seq(if At(m, a) >= 0 then At(m, a) else 0, i requires 0 <= i => At(m, a + 1 + i)) }

  /** The condition of `setcc` after `cmp eax, 0`: equal, or below zero. */
  predicate Flagged(rel: Rel, a: int) {
    match rel
    case Eq => a == 0
    case Ne => a != 0
    case Lt => a < 0
    case Le => a < 0 || a == 0
    case Gt => !(a < 0) && a != 0
    case Ge => !(a < 0)
  }

    function Do(F: Frame, i: I, s: St): St {
    match i
    case Imm(n) => s.(eax := n)
    case Lea(r, k) => PutR(s, r, Temp(F, k))
    case Mov(r, q) => PutR(s, r, GetR(s, q))
    case MovC(n) => s.(ecx := n)
    case PushA => s.(stk := [s.eax] + s.stk)
    case PopR(r) => if s.stk == [] then s else PutR(s, r, s.stk[0]).(stk := s.stk[1..])
    case StoreLen1 => s.(mem := s.mem[s.edx := 1])
    case StoreChar => s.(mem := s.mem[s.edx + 1 := Low(s.eax)])
    case LoadLen => s.(eax := At(s.mem, s.eax))
    case LoadAt => s.(eax := At(s.mem, s.edx + s.eax))
    case LoadNum(x) => s.(eax := Dword(s.mem, NumAddr(F, x, 0)))
    case LoadCell(x) => s.(eax := Dword(s.mem, NumAddr(F, x, s.eax)))
    case Alu(o) => s.(eax := Apply(o, s.eax, s.ecx))
    case AluUn(u) => s.(eax := ApplyUn(u, s.eax))
    case SetRel(rel) => s.(eax := if Flagged(rel, s.eax) then 1 else 0)
    case CallAssign => Clobber(F, s.(mem := AssignMem(s.mem, s.edi, s.esi, s.ecx)))
    case CallConcat => Clobber(F, s.(mem := ConcatMem(s.mem, s.edi, s.esi)))
    case CallCmp => Clobber(F, s).(eax := Lex(TextAt(s.mem, s.esi), TextAt(s.mem, s.edi)))
    case CallF(g, n) =>
      if n > |s.stk| then s
      else
        var r := F.mcall(g, s.stk[..n], s.mem);
        Clobber(F, s).(eax := r.1, mem := r.0, stk := s.stk[n..])
  }

  function DoAll(F: Frame, code: seq<I>, s: St): St {
    if code == [] then s else DoAll(F, code[1..], Do(F, code[0], s))
  }

  function VarAddr(F: Frame, x: string): int { if x in F.vars then F.vars[x].addr else 0 }

  function NumAddr(F: Frame, x: string, i: int): int { if (x, i) in F.nums then F.nums[(x, i)] else 0 }

  /** Leaves the address of a string value in EAX. */
  function GenStr(F: Frame, e: S): seq<I>
    decreases e, 1
  {
    match e
    case Lit(_, a) => [Imm(a)]
    case Var(x) => [Imm(VarAddr(F, x))]
    case Cat(t, _, _) => GenConcat(F, e) + [Lea(EAX, t)]
    case Chr(t, c) => GenVal(F, c) + [Lea(EDX, t), StoreLen1, StoreChar, Mov(EAX, EDX)]
  }

  /** Builds a concatenation in its temporary: the left side first, then the right side appended. */
  function GenConcat(F: Frame, e: S): seq<I>
    requires e.Cat?
    decreases e, 0
  {
    GenFirst(F, e.l, e.t) + (GenStr(F, e.r) + [Mov(ESI, EAX), Lea(EDI, e.t), CallConcat])
  }

  function GenFirst(F: Frame, l: S, t: int): seq<I>
    decreases l, 2
  {
    if l.Cat? then GenConcat(F, l)
    else if l.Chr? then GenVal(F, l.c) + [Lea(EDX, t), StoreLen1, StoreChar]
    else GenStr(F, l) + [Mov(ESI, EAX), Lea(EDI, t), MovC(255), CallAssign]
  }

  function GenVal(F: Frame, v: V): seq<I>
    decreases v, 0
  {
    match v
    case Num(n) => [Imm(n)]
    case Scalar(x) => [LoadNum(x)]
    case Elem(x, idx) => GenVal(F, idx) + [LoadCell(x)]
    case ByteAt(x, idx) => [Imm(VarAddr(F, x)), PushA] + (GenVal(F, idx) + [PopR(EDX), LoadAt])
    case Length(s) => GenStr(F, s) + [LoadLen]
    case Field(x, idx) => GenVal(F, idx) + [LoadCell(x)]
    case Bin(o, a, b) => GenVal(F, a) + ([PushA] + (GenVal(F, b) + [Mov(ECX, EAX), PopR(EAX), Alu(o)]))
    case Unary(u, a) => GenVal(F, a) + [AluUn(u)]
    case Related(rel, l, r) =>
      GenStr(F, l) + ([PushA] + (GenStr(F, r) + [Mov(EDI, EAX), PopR(ESI), CallCmp, SetRel(rel)]))
    case Call(g, args) => GenVals(F, args) + [CallF(g, Count(args))]
  }

  function Count(es: Vs): nat { if es.End? then 0 else 1 + Count(es.tl) }

  function GenVals(F: Frame, es: Vs): seq<I>
    decreases es, 0
  {
    match es
    case End => []
    case More(e, rest) => GenVals(F, rest) + (GenVal(F, e) + [PushA])
  }

  // ---- running code ----

  lemma {:induction false} DoAppend(F: Frame, a: seq<I>, b: seq<I>, s: St)
    ensures DoAll(F, a + b, s) == DoAll(F, b, DoAll(F, a, s))
    decreases |a|
  {
    hide Do;
    if a == [] {
      assert a + b == b;
    } else {
      assert (a + b)[1..] == a[1..] + b;
      DoAppend(F, a[1..], b, Do(F, a[0], s));
    }
  }

  lemma Do1(F: Frame, i: I, s: St)
    ensures DoAll(F, [i], s) == Do(F, i, s)
  {
    hide Do;
    assert [i][1..] == [];
  }

  lemma Do2(F: Frame, i: I, j: I, s: St)
    ensures DoAll(F, [i, j], s) == Do(F, j, Do(F, i, s))
  {
    hide Do, DoAll;
    assert [i, j] == [i] + [j];
    DoAppend(F, [i], [j], s);
    Do1(F, i, s);
    Do1(F, j, Do(F, i, s));
  }

  lemma Do3(F: Frame, i: I, j: I, k: I, s: St)
    ensures DoAll(F, [i, j, k], s) == Do(F, k, Do(F, j, Do(F, i, s)))
  {
    hide Do, DoAll;
    assert [i, j, k] == [i, j] + [k];
    DoAppend(F, [i, j], [k], s);
    Do2(F, i, j, s);
    Do1(F, k, Do(F, j, Do(F, i, s)));
  }

  lemma Do4(F: Frame, i: I, j: I, k: I, n: I, s: St)
    ensures DoAll(F, [i, j, k, n], s) == Do(F, n, Do(F, k, Do(F, j, Do(F, i, s))))
  {
    hide Do, DoAll;
    assert [i, j, k, n] == [i, j] + [k, n];
    DoAppend(F, [i, j], [k, n], s);
    Do2(F, i, j, s);
    Do2(F, k, n, Do(F, j, Do(F, i, s)));
  }

  /** The machine state in which a string routine is called. */
  function Entering(l: Label, s: St): State {
    State(l, 0, s.eax, s.ecx, s.edx, s.esi, s.edi, (0, 0), s.stk, s.mem, [], false)
  }

  /** The calls stand for the routines' own instructions: run to their return, they have the same effect
      on memory, stack and result. */
  lemma AssignAgrees(F: Frame, s: St) returns (n: nat)
    requires 0 <= At(s.mem, s.esi) && s.ecx >= 0
    ensures var t := Run(Entering(StrAssign, s), n); t.done && t.mem == Do(F, CallAssign, s).mem && t.stk == s.stk
  {
    hide Run, AssignMem;
    n := AssignRuns(Entering(StrAssign, s));
  }

  lemma ConcatAgrees(F: Frame, s: St) returns (n: nat)
    requires 0 <= At(s.mem, s.edi) <= 255 && 0 <= At(s.mem, s.esi)
    ensures var t := Run(Entering(StrConcat, s), n); t.done && t.mem == Do(F, CallConcat, s).mem && t.stk == s.stk
  {
    hide Run, ConcatMem;
    n := StrIntrinsics.ConcatRuns(Entering(StrConcat, s));
  }

  lemma CompareAgrees(F: Frame, s: St, u: Text, v: Text) returns (n: nat)
    requires IsText(u) && IsText(v) && Stored(s.mem, s.esi, u) && Stored(s.mem, s.edi, v)
    ensures var t := Run(Entering(StrCmp, s), n); Compared(Entering(StrCmp, s), t, Do(F, CallCmp, s).eax, s.stk)
  {
    hide Run, Lex, TextAt;
    n := CompareRuns(Entering(StrCmp, s), u, v);
    TextOf(s.mem, s.esi, u);
    TextOf(s.mem, s.edi, v);
  }

  /** A temporary lies wholly in the reserved area exactly when its index was allocated; index -1, which
      unplanned strings keep, names the locals above it. */
  lemma TempInside(F: Frame, k: int)
    ensures F.tb - 256 * F.max <= Temp(F, k) && Temp(F, k) + 255 < F.tb <==> 0 <= k < F.max
    ensures Temp(F, -1) == F.tb
  {
  }

  // ---- what is kept ----

  ghost predicate Good(F: Frame, vs: Vars, s: St) { Separated(F) && CallsOk(F) && Encoded(F, vs, s.mem)
    && RoOk(F, s.mem) }

  /** Only temporaries from `b` on, and what calls may write, have changed. */
  ghost predicate Kept(F: Frame, b: int, m: Mem, m': Mem) {
    forall a :: a !in F.world && !InTempsFrom(F, b, a) ==> At(m', a) == At(m, a)
  }

  lemma KeptTrans(F: Frame, b: int, c: int, m: Mem, m1: Mem, m2: Mem)
    requires Kept(F, b, m, m1) && Kept(F, c, m1, m2) && b <= c
    ensures Kept(F, b, m, m2)
  {
    forall a | a !in F.world && !InTempsFrom(F, b, a)
      ensures At(m2, a) == At(m, a)
    {
      assert !InTempsFrom(F, c, a);
    }
  }

  /** Such frames and states exist: a string, an integer, two temporaries and routines that do nothing. */
  lemma FramesExist() returns (F: Frame, vs: Vars, s: St)
    ensures Good(F, vs, s) && F.max == 2 && "s" in F.vars && ("i", 0) in F.nums
  {
    F := Frame(0, 2, map["s" := Slot(0, 255)], map[("i", 0) := 1000], 2000, 2000, map[], iset{},
               (g, args, vs) => (vs, 0), (g, args, m) => (m, 0), 0);
    vs := Vars(map["s" := []], map[("i", 0) := 0]);
    s := St(0, 0, 0, 0, 0, [], map[]);
    assert Dword(s.mem, 1000) == 0;
  }

  /** The names and literals of a string expression exist. */
  predicate KnownS(F: Frame, e: S)
    decreases e, 0
  {
    match e
    case Lit(text, a) => IsText(text) && Stored(F.ro, a, text) && F.lo <= a && a + |text| <= F.hi
    case Var(x) => x in F.vars
    case Cat(_, l, r) => KnownS(F, l) && KnownS(F, r)
    case Chr(_, c) => KnownV(F, c)
  }

  predicate KnownV(F: Frame, v: V)
    decreases v, 0
  {
    match v
    case Num(_) => true
    case Scalar(x) => (x, 0) in F.nums
    case Elem(x, idx) => KnownV(F, idx)
    case ByteAt(x, idx) => x in F.vars && KnownV(F, idx)
    case Length(s) => KnownS(F, s)
    case Field(x, idx) => KnownV(F, idx)
    case Bin(_, a, b) => KnownV(F, a) && KnownV(F, b)
    case Unary(_, a) => KnownV(F, a)
    case Related(_, l, r) => KnownS(F, l) && KnownS(F, r)
    case Call(_, args) => KnownA(F, args)
  }

  predicate KnownA(F: Frame, es: Vs)
    decreases es, 0
  {
    es.More? ==> KnownV(F, es.hd) && KnownA(F, es.tl)
  }

  /** After a scalar: its value in EAX, the stack as before, memory in step. */
  ghost predicate RanV(F: Frame, b: int, s: St, r: Res<int>, s': St) {
    r.Some? && Good(F, r.vs, s') && s'.eax == r.val && s'.stk == s.stk && Kept(F, b, s.mem, s'.mem)
  }

  /** Where a string expression laid out from `b` leaves its value. */
  predicate Home(F: Frame, e: S, b: int, a: int) {
    match e
    case Lit(_, addr) => a == addr
    case Var(x) => a == VarAddr(F, x)
    case _ => a == Temp(F, b)
  }

  ghost predicate RanS(F: Frame, e: S, b: int, s: St, r: Res<Text>, s': St) {
    && r.Some? && Good(F, r.vs, s') && s'.stk == s.stk && Kept(F, b, s.mem, s'.mem)
    && IsText(r.val) && Stored(s'.mem, s'.eax, r.val) && Home(F, e, b, s'.eax)
  }

  /** The temporary `t` holds a string. */
  ghost predicate Built(F: Frame, t: int, s: St, r: Res<Text>, s': St) {
    && r.Some? && Good(F, r.vs, s') && s'.stk == s.stk && Kept(F, t, s.mem, s'.mem)
    && IsText(r.val) && Stored(s'.mem, Temp(F, t), r.val)
  }

  // ---- memory facts ----

  lemma StoredKept(m: Mem, m': Mem, a: int, v: Text)
    requires Stored(m, a, v) && forall k :: a <= k <= a + |v| ==> At(m', k) == At(m, k)
    ensures Stored(m', a, v)
  {
    assert At(m', a) == At(m, a);
  }

  lemma DwordKept(m: Mem, m': Mem, a: int)
    requires forall k :: a <= k <= a + 3 ==> At(m', k) == At(m, k)
    ensures Dword(m', a) == Dword(m, a)
  {
    assert At(m', a) == At(m, a) && At(m', a + 1) == At(m, a + 1);
    assert At(m', a + 2) == At(m, a + 2) && At(m', a + 3) == At(m, a + 3);
  }

  /** A write confined to temporary `t` keeps everything but temporaries from `t` on. */
  lemma TempWrite(F: Frame, vs: Vars, m: Mem, m': Mem, t: int)
    requires Separated(F) && Encoded(F, vs, m) && RoOk(F, m) && 0 <= t < F.max
    requires Only(m, m', Temp(F, t), Temp(F, t) + 255)
    ensures Encoded(F, vs, m') && RoOk(F, m') && Kept(F, t, m, m')
  {
    hide Dword;
    assert Temp(F, t) >= F.tb - 256 * F.max && Temp(F, t) + 255 < F.tb - 256 * t;
    forall x | x in F.vars
      ensures Stored(m', F.vars[x].addr, vs.strs[x])
    {
      assert OffTemps(F, F.vars[x].addr, F.vars[x].cap);
      StoredKept(m, m', F.vars[x].addr, vs.strs[x]);
    }
    forall k | k in F.nums
      ensures Dword(m', F.nums[k]) == Dword(m, F.nums[k])
    {
      assert OffTemps(F, F.nums[k], 3);
      DwordKept(m, m', F.nums[k]);
    }
    assert OffTemps(F, F.lo, F.hi - F.lo);
  }

  lemma TempOwn(F: Frame, t: int, a: int)
    requires Separated(F) && 0 <= t < F.max && Temp(F, t) <= a <= Temp(F, t) + 255
    ensures a !in F.world
  {
    assert InTempsFrom(F, 0, a);
  }

  /** What stands in a temporary survives code that uses only higher ones. */
  lemma TempSurvives(F: Frame, t: int, b: int, m: Mem, m': Mem, v: Text)
    requires Separated(F) && 0 <= t < F.max && t < b && IsText(v) && Stored(m, Temp(F, t), v) && Kept(F, b, m, m')
    ensures Stored(m', Temp(F, t), v)
  {
    forall k | Temp(F, t) <= k <= Temp(F, t) + |v|
      ensures At(m', k) == At(m, k)
    {
      TempOwn(F, t, k);
      assert !InTempsFrom(F, b, k);
    }
    StoredKept(m, m', Temp(F, t), v);
  }

  /** A string's home never overlaps a lower temporary. */
  lemma HomeApart(F: Frame, e: S, b: int, hi: int, a: int, v: Text, t: int)
    requires Separated(F) && KnownS(F, e) && LaidS(e, b, hi) && hi < F.max && 0 <= t < b && t < F.max
    requires Home(F, e, b, a)
    requires IsText(v) && (e.Lit? ==> v == e.text) && (e.Var? ==> |v| <= F.vars[e.x].cap)
    ensures Temp(F, t) + 255 < a || a + |v| < Temp(F, t)
  {
    match e
    case Lit(_, _) =>
    case Var(x) => assert OffTemps(F, F.vars[x].addr, F.vars[x].cap);
    case _ => assert Temp(F, b) + 256 <= Temp(F, t);
  }

  lemma TextOf(m: Mem, a: int, v: Text)
    requires Stored(m, a, v)
    ensures TextAt(m, a) == v
  {
  }

  lemma VarStored(F: Frame, vs: Vars, m: Mem, x: string)
    requires Encoded(F, vs, m) && x in F.vars
    ensures x in vs.strs && IsText(vs.strs[x]) && |vs.strs[x]| <= F.vars[x].cap && Stored(m, F.vars[x].addr, vs.strs[x])
  {
  }

  lemma LitStored(F: Frame, m: Mem, e: S)
    requires RoOk(F, m) && e.Lit? && KnownS(F, e)
    ensures Stored(m, e.addr, e.text)
  {
    StoredKept(F.ro, m, e.addr, e.text);
  }

  lemma GoodParts(F: Frame, vs: Vars, s: St)
    ensures Good(F, vs, s) <==> Separated(F) && CallsOk(F) && Encoded(F, vs, s.mem) && RoOk(F, s.mem)
  {
  }

  lemma KeptSelf(F: Frame, b: int, m: Mem)
    ensures Kept(F, b, m, m)
  {
  }

  /** Scalars and stack operations leave memory in step. */
  lemma SameMem(F: Frame, vs: Vars, s: St, s': St)
    requires Good(F, vs, s) && s'.mem == s.mem
    ensures Good(F, vs, s')
  {
  }

  // ---- straight-line pieces ----

  /** A one-character string is stored in a temporary. */
  lemma CharStored(F: Frame, vs: Vars, s: St, t: int)
    requires Good(F, vs, s) && 0 <= t < F.max
    ensures var s' := DoAll(F, [Lea(EDX, t), StoreLen1, StoreChar], s);
            && Good(F, vs, s') && s'.stk == s.stk && Kept(F, t, s.mem, s'.mem) && s'.edx == Temp(F, t)
            && Stored(s'.mem, Temp(F, t), [Low(s.eax)]) && IsText([Low(s.eax)])
  {
    hide DoAll, Encoded, RoOk, CallsOk, Separated, Kept;
    Do3(F, Lea(EDX, t), StoreLen1, StoreChar, s);
    var m' := s.mem[Temp(F, t) := 1][Temp(F, t) + 1 := Low(s.eax)];
    assert Only(s.mem, m', Temp(F, t), Temp(F, t) + 255);
    TempWrite(F, vs, s.mem, m', t);
  }

  /** A stored string is copied into a temporary. */
  lemma FirstStored(F: Frame, vs: Vars, s: St, t: int, v: Text)
    requires Good(F, vs, s) && 0 <= t < F.max && IsText(v) && Stored(s.mem, s.eax, v)
    requires Temp(F, t) + 255 < s.eax || s.eax + |v| < Temp(F, t)
    ensures var s' := DoAll(F, [Mov(ESI, EAX), Lea(EDI, t), MovC(255), CallAssign], s);
            && Good(F, vs, s') && s'.stk == s.stk && Kept(F, t, s.mem, s'.mem) && Stored(s'.mem, Temp(F, t), v)
  {
    hide DoAll, Encoded, RoOk, CallsOk, Separated, Kept, AssignMem, Stored, Only;
    Do4(F, Mov(ESI, EAX), Lea(EDI, t), MovC(255), CallAssign, s);
    var m' := AssignMem(s.mem, Temp(F, t), s.eax, 255);
    AssignMeans(s.mem, Temp(F, t), s.eax, 255, v);
    OnlyWider(s.mem, m', Temp(F, t), Temp(F, t) + |v|, Temp(F, t) + 255);
    TempWrite(F, vs, s.mem, m', t);
  }

  lemma OnlyWider(m: Mem, m': Mem, lo: int, hi: int, hi': int)
    requires Only(m, m', lo, hi) && hi <= hi'
    ensures Only(m, m', lo, hi')
  {
  }

  /** A stored string is appended to the one in a temporary. */
  lemma RightAppended(F: Frame, vs: Vars, s: St, t: int, u: Text, v: Text)
    requires Good(F, vs, s) && 0 <= t < F.max && IsText(u) && IsText(v) && Stored(s.mem, Temp(F, t), u)
    requires Stored(s.mem, s.eax, v)
    requires Temp(F, t) + 255 < s.eax || s.eax + |v| < Temp(F, t)
    ensures var s' := DoAll(F, [Mov(ESI, EAX), Lea(EDI, t), CallConcat], s);
            && Good(F, vs, s') && s'.stk == s.stk && Kept(F, t, s.mem, s'.mem)
            && Stored(s'.mem, Temp(F, t), Cut(u + v, 255)) && IsText(Cut(u + v, 255))
  {
    hide DoAll, Encoded, RoOk, CallsOk, Separated, Kept, ConcatMem, Stored, Only, Cut;
    Do3(F, Mov(ESI, EAX), Lea(EDI, t), CallConcat, s);
    ConcatMeans(s.mem, Temp(F, t), s.eax, u, v);
    TempWrite(F, vs, s.mem, ConcatMem(s.mem, Temp(F, t), s.eax), t);
  }

  lemma FlaggedHolds(rel: Rel, c: int)
    ensures Flagged(rel, c) <==> Holds(rel, c)
  {
  }

  lemma Compared2(F: Frame, s: St, rel: Rel, a: int, u: Text, v: Text, stk: seq<int>)
    requires s.stk == [a] + stk && Stored(s.mem, a, u) && Stored(s.mem, s.eax, v)
    ensures var s' := DoAll(F, [Mov(EDI, EAX), PopR(ESI), CallCmp, SetRel(rel)], s);
            s'.mem == s.mem && s'.stk == stk && s'.eax == if Holds(rel, Lex(u, v)) then 1 else 0
  {
    hide DoAll, Stored, Lex, TextAt;
    FlaggedHolds(rel, Lex(u, v));
    Do4(F, Mov(EDI, EAX), PopR(ESI), CallCmp, SetRel(rel), s);
    TextOf(s.mem, a, u);
    TextOf(s.mem, s.eax, v);
  }

  // ---- the theorem ----

  lemma {:induction false} StrRuns(F: Frame, e: S, b: int, hi: int, vs: Vars, s: St)
    requires Good(F, vs, s) && KnownS(F, e) && LaidS(e, b, hi) && 0 <= b <= F.max && hi < F.max && EvalS(F, vs, e).Some?
    ensures RanS(F, e, b, s, EvalS(F, vs, e), DoAll(F, GenStr(F, e), s))
    decreases e, 3
  {
    match e
    case Lit(text, a) => LeafRuns(F, e, b, vs, s);
    case Var(x) => LeafRuns(F, e, b, vs, s);
    case Cat(t, l, r) =>
      CatRuns(F, e, b, hi, vs, s);
      CatAddress(F, e, b, vs, s);
    case Chr(t, c) =>
      ValRuns(F, c, b, hi, vs, s);
      ChrRuns(F, e, b, vs, s);
  }

  lemma LeafRuns(F: Frame, e: S, b: int, vs: Vars, s: St)
    requires Good(F, vs, s) && KnownS(F, e) && (e.Lit? || e.Var?)
    ensures RanS(F, e, b, s, EvalS(F, vs, e), DoAll(F, GenStr(F, e), s))
  {
    hide DoAll, Encoded, RoOk, CallsOk, Separated, Kept, Stored;
    Do1(F, GenStr(F, e)[0], s);
    KeptSelf(F, b, s.mem);
    if e.Lit? { LitStored(F, s.mem, e); } else { VarStored(F, vs, s.mem, e.x); }
  }

  lemma CatAddress(F: Frame, e: S, b: int, vs: Vars, s: St)
    requires e.Cat? && e.t == b && Built(F, b, s, EvalS(F, vs, e), DoAll(F, GenConcat(F, e), s))
    ensures RanS(F, e, b, s, EvalS(F, vs, e), DoAll(F, GenStr(F, e), s))
  {
    hide DoAll, GenConcat, EvalS, Encoded, RoOk, CallsOk, Separated, Kept, Stored;
    DoAppend(F, GenConcat(F, e), [Lea(EAX, b)], s);
    Do1(F, Lea(EAX, b), DoAll(F, GenConcat(F, e), s));
  }

  lemma ChrRuns(F: Frame, e: S, b: int, vs: Vars, s: St)
    requires e.Chr? && e.t == b && 0 <= b < F.max && RanV(F, b, s, EvalV(F, vs, e.c), DoAll(F, GenVal(F, e.c), s))
    ensures RanS(F, e, b, s, EvalS(F, vs, e), DoAll(F, GenStr(F, e), s))
  {
    hide DoAll, GenVal, EvalV, Encoded, RoOk, CallsOk, Separated, Kept, Stored, IsText;
    var n := EvalV(F, vs, e.c);
    var s1 := DoAll(F, GenVal(F, e.c), s);
    var put := [Lea(EDX, b), StoreLen1, StoreChar];
    DoAppend(F, GenVal(F, e.c), [Lea(EDX, b), StoreLen1, StoreChar, Mov(EAX, EDX)], s);
    assert [Lea(EDX, b), StoreLen1, StoreChar, Mov(EAX, EDX)] == put + [Mov(EAX, EDX)];
    DoAppend(F, put, [Mov(EAX, EDX)], s1);
    CharStored(F, n.vs, s1, b);
    var s2 := DoAll(F, put, s1);
    Do1(F, Mov(EAX, EDX), s2);
    KeptTrans(F, b, b, s.mem, s1.mem, s2.mem);
  }

  /** A concatenation tree: left side, right side above it, appended. */
  lemma {:induction false} CatRuns(F: Frame, e: S, b: int, hi: int, vs: Vars, s: St)
    requires Good(F, vs, s) && e.Cat? && KnownS(F, e) && LaidS(e, b, hi) && 0 <= b && hi < F.max
    requires EvalS(F, vs, e).Some?
    ensures Built(F, b, s, EvalS(F, vs, e), DoAll(F, GenConcat(F, e), s))
    decreases e, 2
  {
    FirstRuns(F, e.l, b, hi, vs, s);
    var u := EvalS(F, vs, e.l);
    var s1 := DoAll(F, GenFirst(F, e.l, b), s);
    StrRuns(F, e.r, b + 1, hi, u.vs, s1);
    CatJoins(F, e, b, hi, vs, s);
  }

  lemma CatJoins(F: Frame, e: S, b: int, hi: int, vs: Vars, s: St)
    requires e.Cat? && e.t == b && KnownS(F, e.r) && LaidS(e.r, b + 1, hi) && 0 <= b <= hi < F.max
    requires EvalS(F, vs, e).Some?
    requires var u, s1 := EvalS(F, vs, e.l), DoAll(F, GenFirst(F, e.l, b), s);
             Built(F, b, s, u, s1) && RanS(F, e.r, b + 1, s1, EvalS(F, u.vs, e.r), DoAll(F, GenStr(F, e.r), s1))
    ensures Built(F, b, s, EvalS(F, vs, e), DoAll(F, GenConcat(F, e), s))
  {
    hide DoAll, GenFirst, GenStr, Encoded, RoOk, CallsOk, Separated, Kept, Stored, IsText, Home, KnownS, LaidS, Cut;
    var u := EvalS(F, vs, e.l);
    var s1 := DoAll(F, GenFirst(F, e.l, b), s);
    var v := EvalS(F, u.vs, e.r);
    var s2 := DoAll(F, GenStr(F, e.r), s1);
    var tail := [Mov(ESI, EAX), Lea(EDI, b), CallConcat];
    DoAppend(F, GenFirst(F, e.l, b), GenStr(F, e.r) + tail, s);
    DoAppend(F, GenStr(F, e.r), tail, s1);
    TempSurvives(F, b, b + 1, s1.mem, s2.mem, u.val);
    assert (e.r.Lit? ==> v.val == e.r.text)
           && (e.r.Var? ==> |v.val| <= F.vars[e.r.x].cap) by { LeafValue(F, e.r, u.vs, s2); }
    HomeApart(F, e.r, b + 1, hi, s2.eax, v.val, b);
    RightAppended(F, v.vs, s2, b, u.val, v.val);
    var s3 := DoAll(F, tail, s2);
    KeptTrans(F, b, b + 1, s.mem, s1.mem, s2.mem);
    KeptTrans(F, b, b, s.mem, s2.mem, s3.mem);
  }

  lemma LeafValue(F: Frame, e: S, vs: Vars, s: St)
    requires KnownS(F, e) && EvalS(F, vs, e).Some? && Good(F, EvalS(F, vs, e).vs, s)
    ensures (e.Lit? ==> EvalS(F, vs, e).val == e.text)
    ensures (e.Var? ==> e.x in F.vars && |EvalS(F, vs, e).val| <= F.vars[e.x].cap)
  {
  }

  /** The leftmost operand initializes the temporary. */
  lemma {:induction false} FirstRuns(F: Frame, l: S, b: int, hi: int, vs: Vars, s: St)
    requires Good(F, vs, s) && KnownS(F, l) && 0 <= b <= hi < F.max && EvalS(F, vs, l).Some?
    requires (l.Cat? ==> LaidS(l, b, hi)) && (l.Chr? ==> DryV(l.c))
    ensures Built(F, b, s, EvalS(F, vs, l), DoAll(F, GenFirst(F, l, b), s))
    decreases l, 4
  {
    if l.Cat? {
      CatRuns(F, l, b, hi, vs, s);
    } else if l.Chr? {
      DryLaid(l.c, b, hi);
      ValRuns(F, l.c, b, hi, vs, s);
      FirstChar(F, l, b, vs, s);
    } else {
      LeafRuns(F, l, b, vs, s);
      FirstLeaf(F, l, b, vs, s);
    }
  }

  lemma FirstChar(F: Frame, l: S, b: int, vs: Vars, s: St)
    requires l.Chr? && 0 <= b < F.max && RanV(F, b, s, EvalV(F, vs, l.c), DoAll(F, GenVal(F, l.c), s))
    ensures Built(F, b, s, EvalS(F, vs, l), DoAll(F, GenFirst(F, l, b), s))
  {
    hide DoAll, GenVal, EvalV, Encoded, RoOk, CallsOk, Separated, Kept, Stored, IsText;
    var s1 := DoAll(F, GenVal(F, l.c), s);
    var put := [Lea(EDX, b), StoreLen1, StoreChar];
    DoAppend(F, GenVal(F, l.c), put, s);
    CharStored(F, EvalV(F, vs, l.c).vs, s1, b);
    KeptTrans(F, b, b, s.mem, s1.mem, DoAll(F, put, s1).mem);
  }

  lemma FirstLeaf(F: Frame, l: S, b: int, vs: Vars, s: St)
    requires (l.Lit? || l.Var?) && KnownS(F, l) && 0 <= b < F.max && EvalS(F, vs, l).Some?
    requires RanS(F, l, b, s, EvalS(F, vs, l), DoAll(F, GenStr(F, l), s))
    ensures Built(F, b, s, EvalS(F, vs, l), DoAll(F, GenFirst(F, l, b), s))
  {
    hide DoAll, GenStr, Encoded, RoOk, CallsOk, Separated, Kept, Stored, IsText, Home, KnownS, EvalS;
    var s1 := DoAll(F, GenStr(F, l), s);
    var v := EvalS(F, vs, l);
    var tail := [Mov(ESI, EAX), Lea(EDI, b), MovC(255), CallAssign];
    DoAppend(F, GenStr(F, l), tail, s);
    LeafApart(F, l, b, vs, s1);
    FirstStored(F, v.vs, s1, b, v.val);
    KeptTrans(F, b, b, s.mem, s1.mem, DoAll(F, tail, s1).mem);
  }

  lemma LeafApart(F: Frame, l: S, b: int, vs: Vars, s: St)
    requires (l.Lit? || l.Var?) && KnownS(F, l) && 0 <= b < F.max && EvalS(F, vs, l).Some?
    requires Good(F, EvalS(F, vs, l).vs, s) && Home(F, l, b, s.eax)
    ensures Temp(F, b) + 255 < s.eax || s.eax + |EvalS(F, vs, l).val| < Temp(F, b)
  {
    if l.Var? { assert OffTemps(F, F.vars[l.x].addr, F.vars[l.x].cap); }
  }

  // ---- scalars ----

  lemma {:induction false} ValRuns(F: Frame, v: V, b: int, hi: int, vs: Vars, s: St)
    requires Good(F, vs, s) && KnownV(F, v) && LaidV(v, b, hi) && 0 <= b <= F.max && hi < F.max && EvalV(F, vs, v).Some?
    ensures RanV(F, b, s, EvalV(F, vs, v), DoAll(F, GenVal(F, v), s))
    decreases v, 3
  {
    hide DoAll, Encoded, RoOk, CallsOk, Separated, Kept, Stored, IsText, Home;
    match v
    case Num(n) =>
      Do1(F, Imm(n), s);
      SameMem(F, vs, s, s.(eax := n));
      KeptSelf(F, b, s.mem);
    case Scalar(x) => ScalarRuns(F, x, b, vs, s);
    case Elem(_, idx) =>
      ValRuns(F, idx, b, hi, vs, s);
      CellRuns(F, v, b, vs, s);
    case ByteAt(x, idx) =>
      var s1 := s.(eax := VarAddr(F, x), stk := [VarAddr(F, x)] + s.stk);
      SameMem(F, vs, s, s1);
      ValRuns(F, idx, b, hi, vs, s1);
      ByteRuns(F, v, b, vs, s, s1);
    case Length(t) =>
      LeafRuns(F, t, b, vs, s);
      LengthRuns(F, v, b, vs, s);
    case Field(_, idx) =>
      DryLaid(idx, b, Max(b - 1, hi));
      ValRuns(F, idx, b, Max(b - 1, hi), vs, s);
      CellRuns(F, v, b, vs, s);
    case Unary(_, x) =>
      ValRuns(F, x, b, hi, vs, s);
      UnaryRuns(F, v, b, vs, s);
    case Bin(_, x, y) =>
      ValRuns(F, x, b, hi, vs, s);
      var r := EvalV(F, vs, x);
      var s1 := DoAll(F, GenVal(F, x), s);
      var s2 := s1.(stk := [s1.eax] + s1.stk);
      SameMem(F, r.vs, s1, s2);
      ValRuns(F, y, b, hi, r.vs, s2);
      BinRuns(F, v, b, vs, s);
    case Related(_, l, r) =>
      StrRuns(F, l, b, HiS(l, b), vs, s);
      var u := EvalS(F, vs, l);
      var s1 := DoAll(F, GenStr(F, l), s);
      var s2 := s1.(stk := [s1.eax] + s1.stk);
      SameMem(F, u.vs, s1, s2);
      HiAtLeastS(l, b);
      StrRuns(F, r, HiS(l, b) + 1, hi, u.vs, s2);
      RelatedRuns(F, v, b, hi, vs, s);
    case Call(g, args) =>
      ValsRuns(F, args, b, hi, vs, s);
      CallRuns(F, v, b, vs, s);
  }

  lemma {:induction false} ByteRuns(F: Frame, v: V, b: int, vs: Vars, s: St, s1: St)
    requires v.ByteAt? && v.x in F.vars && EvalV(F, vs, v).Some?
    requires s1 == s.(eax := VarAddr(F, v.x), stk := [VarAddr(F, v.x)] + s.stk)
    requires RanV(F, b, s1, EvalV(F, vs, v.idx), DoAll(F, GenVal(F, v.idx), s1))
    ensures RanV(F, b, s, EvalV(F, vs, v), DoAll(F, GenVal(F, v), s))
  {
    hide DoAll, GenVal, Encoded, RoOk, CallsOk, Separated, Kept, IsText, Stored;
    var x := v.x;
    var i := EvalV(F, vs, v.idx);
    var s2 := DoAll(F, GenVal(F, v.idx), s1);
    ByteCode(F, v, s);
    VarStored(F, i.vs, s2.mem, x);
    ByteLoaded(F, s2, F.vars[x].addr, i.vs.strs[x], i.val, s.stk);
  }

  lemma ByteCode(F: Frame, v: V, s: St)
    requires v.ByteAt?
    ensures var s1 := s.(eax := VarAddr(F, v.x), stk := [VarAddr(F, v.x)] + s.stk);
            DoAll(F, GenVal(F, v), s) == DoAll(F, [PopR(EDX), LoadAt], DoAll(F, GenVal(F, v.idx), s1))
  {
    hide DoAll;
    var s1 := s.(eax := VarAddr(F, v.x), stk := [VarAddr(F, v.x)] + s.stk);
    var code := GenVal(F, v.idx);
    DoAppend(F, [Imm(VarAddr(F, v.x)), PushA], code + [PopR(EDX), LoadAt], s);
    Do2(F, Imm(VarAddr(F, v.x)), PushA, s);
    DoAppend(F, code, [PopR(EDX), LoadAt], s1);
  }

  lemma ByteLoaded(F: Frame, s: St, a: int, v: Text, i: int, stk: seq<int>)
    requires s.stk == [a] + stk && Stored(s.mem, a, v) && s.eax == i && 0 <= i <= |v|
    ensures DoAll(F, [PopR(EDX), LoadAt], s) == s.(edx := a, stk := stk, eax := if i == 0 then |v| else v[i - 1])
  {
    Do2(F, PopR(EDX), LoadAt, s);
    assert i > 0 ==> At(s.mem, a + 1 + (i - 1)) == v[i - 1];
  }

  lemma LengthRuns(F: Frame, v: V, b: int, vs: Vars, s: St)
    requires v.Length? && RanS(F, v.s, b, s, EvalS(F, vs, v.s), DoAll(F, GenStr(F, v.s), s))
    ensures RanV(F, b, s, EvalV(F, vs, v), DoAll(F, GenVal(F, v), s))
  {
    hide DoAll, GenStr, EvalS, Encoded, RoOk, CallsOk, Separated, Kept;
    DoAppend(F, GenStr(F, v.s), [LoadLen], s);
    Do1(F, LoadLen, DoAll(F, GenStr(F, v.s), s));
  }

  lemma NumStored(F: Frame, vs: Vars, m: Mem, x: string, i: int)
    requires Encoded(F, vs, m) && (x, i) in F.nums
    ensures (x, i) in vs.nums && Dword(m, NumAddr(F, x, i)) == vs.nums[(x, i)]
  {
    hide Dword;
  }

  lemma ScalarRuns(F: Frame, x: string, b: int, vs: Vars, s: St)
    requires Good(F, vs, s) && (x, 0) in F.nums
    ensures RanV(F, b, s, EvalV(F, vs, Scalar(x)), DoAll(F, GenVal(F, Scalar(x)), s))
  {
    hide DoAll, Encoded, RoOk, CallsOk, Separated, Kept, Dword, NumAddr;
    Do1(F, LoadNum(x), s);
    NumStored(F, vs, s.mem, x, 0);
    KeptSelf(F, b, s.mem);
  }

  lemma CellRuns(F: Frame, v: V, b: int, vs: Vars, s: St)
    requires (v.Elem? || v.Field?) && EvalV(F, vs, v).Some?
    requires RanV(F, b, s, EvalV(F, vs, v.idx), DoAll(F, GenVal(F, v.idx), s))
    ensures RanV(F, b, s, EvalV(F, vs, v), DoAll(F, GenVal(F, v), s))
  {
    hide DoAll, Encoded, RoOk, CallsOk, Separated, Kept, Dword, NumAddr;
    var i := EvalV(F, vs, v.idx);
    var s1 := DoAll(F, GenVal(F, v.idx), s);
    DoAppend(F, GenVal(F, v.idx), [LoadCell(v.x)], s);
    Do1(F, LoadCell(v.x), s1);
    NumStored(F, i.vs, s1.mem, v.x, i.val);
  }

  lemma UnaryRuns(F: Frame, v: V, b: int, vs: Vars, s: St)
    requires v.Unary? && RanV(F, b, s, EvalV(F, vs, v.a), DoAll(F, GenVal(F, v.a), s))
    ensures RanV(F, b, s, EvalV(F, vs, v), DoAll(F, GenVal(F, v), s))
  {
    hide DoAll, Encoded, RoOk, CallsOk, Separated, Kept, ApplyUn;
    DoAppend(F, GenVal(F, v.a), [AluUn(v.u)], s);
    Do1(F, AluUn(v.u), DoAll(F, GenVal(F, v.a), s));
  }

  lemma BinRuns(F: Frame, v: V, b: int, vs: Vars, s: St)
    requires v.Bin? && EvalV(F, vs, v).Some? && RanV(F, b, s, EvalV(F, vs, v.a), DoAll(F, GenVal(F, v.a), s))
    requires var s1 := DoAll(F, GenVal(F, v.a), s);
             var s2 := s1.(stk := [s1.eax] + s1.stk);
             RanV(F, b, s2, EvalV(F, EvalV(F, vs, v.a).vs, v.b), DoAll(F, GenVal(F, v.b), s2))
    ensures RanV(F, b, s, EvalV(F, vs, v), DoAll(F, GenVal(F, v), s))
  {
    hide DoAll, Encoded, RoOk, CallsOk, Separated, Kept, Apply;
    var s1 := DoAll(F, GenVal(F, v.a), s);
    var s2 := s1.(stk := [s1.eax] + s1.stk);
    var s3 := DoAll(F, GenVal(F, v.b), s2);
    var tail := [Mov(ECX, EAX), PopR(EAX), Alu(v.o)];
    DoAppend(F, GenVal(F, v.a), [PushA] + (GenVal(F, v.b) + tail), s);
    DoAppend(F, [PushA], GenVal(F, v.b) + tail, s1);
    Do1(F, PushA, s1);
    DoAppend(F, GenVal(F, v.b), tail, s2);
    Do3(F, Mov(ECX, EAX), PopR(EAX), Alu(v.o), s3);
    KeptTrans(F, b, b, s.mem, s1.mem, s3.mem);
  }

  /** The left string, wherever it is, is still there when the right one has been built. */
  lemma LeftSurvives(F: Frame, l: S, b: int, u: Res<Text>, t: Res<Text>, s1: St, s3: St)
    requires KnownS(F, l) && LaidS(l, b, HiS(l, b)) && 0 <= b && HiS(l, b) < F.max
    requires u.Some? && IsText(u.val) && Stored(s1.mem, s1.eax, u.val) && Home(F, l, b, s1.eax)
    requires l.Lit? ==> u.val == l.text
    requires t.Some? && Good(F, t.vs, s3) && Kept(F, HiS(l, b) + 1, s1.mem, s3.mem) && Separated(F)
    requires l.Var? ==> l.x in t.vs.strs && t.vs.strs[l.x] == u.val
    ensures Stored(s3.mem, s1.eax, u.val)
  {
    hide EvalS, CallsOk;
    match l
    case Lit(_, _) => LitStored(F, s3.mem, l);
    case Var(x) => VarStored(F, t.vs, s3.mem, x);
    case _ =>
      HiAtLeastS(l, b);
      TempSurvives(F, b, HiS(l, b) + 1, s1.mem, s3.mem, u.val);
  }

  lemma RelatedRuns(F: Frame, v: V, b: int, hi: int, vs: Vars, s: St)
    requires v.Related? && KnownV(F, v) && LaidV(v, b, hi) && 0 <= b && hi < F.max && EvalV(F, vs, v).Some?
    requires RanS(F, v.l, b, s, EvalS(F, vs, v.l), DoAll(F, GenStr(F, v.l), s))
    requires var s1 := DoAll(F, GenStr(F, v.l), s);
             var s2 := s1.(stk := [s1.eax] + s1.stk);
             RanS(F, v.r, HiS(v.l, b) + 1, s2, EvalS(F, EvalS(F, vs, v.l).vs, v.r), DoAll(F, GenStr(F, v.r), s2))
    ensures RanV(F, b, s, EvalV(F, vs, v), DoAll(F, GenVal(F, v), s))
  {
    hide DoAll, GenStr, EvalS, Encoded, RoOk, CallsOk, Separated, Kept, Stored, IsText, Home, KnownS, LaidS, Lex;
    var u := EvalS(F, vs, v.l);
    var t := EvalS(F, u.vs, v.r);
    var s1 := DoAll(F, GenStr(F, v.l), s);
    var s2 := s1.(stk := [s1.eax] + s1.stk);
    var s3 := DoAll(F, GenStr(F, v.r), s2);
    var tail := [Mov(EDI, EAX), PopR(ESI), CallCmp, SetRel(v.rel)];
    DoAppend(F, GenStr(F, v.l), [PushA] + (GenStr(F, v.r) + tail), s);
    DoAppend(F, [PushA], GenStr(F, v.r) + tail, s1);
    Do1(F, PushA, s1);
    DoAppend(F, GenStr(F, v.r), tail, s2);
    LeafValue(F, v.l, vs, s1);
    LeftSurvives(F, v.l, b, u, t, s1, s3);
    Compared2(F, s3, v.rel, s1.eax, u.val, t.val, s1.stk);
    HiAtLeastS(v.l, b);
    KeptTrans(F, b, HiS(v.l, b) + 1, s.mem, s1.mem, s3.mem);
  }

  /** Arguments pile up on the stack, the first on top. */
  ghost predicate RanA(F: Frame, b: int, s: St, r: Res<seq<int>>, s': St) {
    r.Some? && Good(F, r.vs, s') && s'.stk == r.val + s.stk && Kept(F, b, s.mem, s'.mem)
  }

  lemma {:induction false} ValsRuns(F: Frame, es: Vs, b: int, hi: int, vs: Vars, s: St)
    requires Good(F, vs, s) && KnownA(F, es) && LaidA(es, b, hi) && 0 <= b <= F.max && hi < F.max
    requires EvalA(F, vs, es).Some?
    ensures RanA(F, b, s, EvalA(F, vs, es), DoAll(F, GenVals(F, es), s)) && |EvalA(F, vs, es).val| == Count(es)
    decreases es, 3
  {
    match es
    case End => KeptSelf(F, b, s.mem);
    case More(e, rest) =>
      ValsRuns(F, rest, b, hi, vs, s);
      var r := EvalA(F, vs, rest);
      var s1 := DoAll(F, GenVals(F, rest), s);
      ValRuns(F, e, b, hi, r.vs, s1);
      PushRuns(F, es, b, vs, s);
  }

  lemma PushRuns(F: Frame, es: Vs, b: int, vs: Vars, s: St)
    requires es.More? && RanA(F, b, s, EvalA(F, vs, es.tl), DoAll(F, GenVals(F, es.tl), s))
    requires var s1 := DoAll(F, GenVals(F, es.tl), s);
             RanV(F, b, s1, EvalV(F, EvalA(F, vs, es.tl).vs, es.hd), DoAll(F, GenVal(F, es.hd), s1))
    ensures RanA(F, b, s, EvalA(F, vs, es), DoAll(F, GenVals(F, es), s))
  {
    hide DoAll, GenVal, EvalV, Encoded, RoOk, CallsOk, Separated, Kept;
    var s1 := DoAll(F, GenVals(F, es.tl), s);
    var s2 := DoAll(F, GenVal(F, es.hd), s1);
    DoAppend(F, GenVals(F, es.tl), GenVal(F, es.hd) + [PushA], s);
    DoAppend(F, GenVal(F, es.hd), [PushA], s1);
    Do1(F, PushA, s2);
    KeptTrans(F, b, b, s.mem, s1.mem, s2.mem);
  }

  lemma CallRuns(F: Frame, v: V, b: int, vs: Vars, s: St)
    requires v.Call? && RanA(F, b, s, EvalA(F, vs, v.args), DoAll(F, GenVals(F, v.args), s))
    requires |EvalA(F, vs, v.args).val| == Count(v.args)
    ensures RanV(F, b, s, EvalV(F, vs, v), DoAll(F, GenVal(F, v), s))
  {
    hide DoAll, GenVals, EvalA, Count, Encoded, Separated, Stored, IsText;
    var a := EvalA(F, vs, v.args);
    var s1 := DoAll(F, GenVals(F, v.args), s);
    DoAppend(F, GenVals(F, v.args), [CallF(v.g, Count(v.args))], s);
    Do1(F, CallF(v.g, Count(v.args)), s1);
    assert s1.stk[..Count(v.args)] == a.val && s1.stk[Count(v.args)..] == s.stk;
    CallKeeps(F, v.g, a.val, a.vs, s1.mem);
    KeptTrans(F, b, b, s.mem, s1.mem, F.mcall(v.g, a.val, s1.mem).0);
  }

  lemma CallKeeps(F: Frame, g: nat, args: seq<int>, vs: Vars, m: Mem)
    requires Separated(F) && CallsOk(F) && Encoded(F, vs, m) && RoOk(F, m)
    ensures var r, q := F.call(g, args, vs), F.mcall(g, args, m);
            Encoded(F, r.0, q.0) && RoOk(F, q.0) && q.1 == r.1 && forall b :: Kept(F, b, m, q.0)
  {
    assert CallOk(F, g, args, vs, m);
    var m' := F.mcall(g, args, m).0;
    forall a | F.lo <= a <= F.hi
      ensures At(m', a) == At(F.ro, a)
    {
      assert a !in F.world;
    }
  }

  // ---- statements ----

  /** `x := e` for a string variable. A character is stored in place, anything else is copied. */
  function GenAssign(F: Frame, x: string, e: S): seq<I>
    requires x in F.vars
  {
    if e.Chr? then [Imm(F.vars[x].addr), PushA] + (GenVal(F, e.c) + [PopR(EDX), StoreLen1, StoreChar])
    else GenStr(F, e) + [Mov(ESI, EAX), Imm(F.vars[x].addr), Mov(EDI, EAX), MovC(F.vars[x].cap), CallAssign]
  }

  /** The planner numbers what the code for `x := e` builds. */
  predicate LaidAssign(e: S, hi: int) { if e.Chr? then LaidV(e.c, 0, hi) else LaidS(e, 0, hi) }

  /** Every name of `x`'s storage now denotes `w`. */
  function Update(F: Frame, vs: Vars, x: string, w: Text): Vars
    requires x in F.vars
  {
    vs.(strs := map y | y in vs.strs :: if y in F.vars && F.vars[y] == F.vars[x] then w else vs.strs[y])
  }

  /** Besides temporaries and what calls write, only the storage of `x` has changed. */
  ghost predicate KeptBut(F: Frame, x: string, m: Mem, m': Mem)
    requires x in F.vars
  {
    forall a :: a !in F.world && !InTempsFrom(F, 0, a) && !InSlot(F, x, a) ==> At(m', a) == At(m, a)
  }

  /** Names of the same storage denote the same string. */
  lemma AliasesAgree(F: Frame, vs: Vars, m: Mem, x: string, y: string)
    requires Encoded(F, vs, m) && x in F.vars && y in F.vars && F.vars[x] == F.vars[y]
    ensures vs.strs[x] == vs.strs[y]
  {
    var a, u, v := F.vars[x].addr, vs.strs[x], vs.strs[y];
    forall i | 0 <= i < |u|
      ensures u[i] == v[i]
    {
      assert At(m, a + 1 + i) == u[i];
    }
  }

  /** Other storage keeps its strings and dwords. */
  lemma OthersKept(F: Frame, vs: Vars, m: Mem, m': Mem, x: string, y: string)
    requires Separated(F) && Encoded(F, vs, m) && x in F.vars && y in F.vars && F.vars[y] != F.vars[x]
    requires Only(m, m', F.vars[x].addr, F.vars[x].addr + F.vars[x].cap)
    ensures y in vs.strs && Stored(m', F.vars[y].addr, vs.strs[y])
  {
    hide Dword;
    assert Apart(F.vars[x].addr, F.vars[x].cap, F.vars[y].addr, F.vars[y].cap);
    StoredKept(m, m', F.vars[y].addr, vs.strs[y]);
  }

  lemma NumKept(F: Frame, m: Mem, m': Mem, x: string, k: (string, int))
    requires Separated(F) && x in F.vars && k in F.nums && Only(m, m', F.vars[x].addr, F.vars[x].addr + F.vars[x].cap)
    ensures Dword(m', F.nums[k]) == Dword(m, F.nums[k])
  {
    hide Dword;
    assert Apart(F.nums[k], 3, F.vars[x].addr, F.vars[x].cap);
    DwordKept(m, m', F.nums[k]);
  }

  /** A write confined to a variable's storage that leaves a string there. */
  lemma VarWrite(F: Frame, vs: Vars, m: Mem, m': Mem, x: string, w: Text)
    requires Separated(F) && Encoded(F, vs, m) && RoOk(F, m) && x in F.vars && IsText(w) && |w| <= F.vars[x].cap
    requires Stored(m', F.vars[x].addr, w) && Only(m, m', F.vars[x].addr, F.vars[x].addr + F.vars[x].cap)
    ensures Encoded(F, Update(F, vs, x, w), m') && RoOk(F, m') && KeptBut(F, x, m, m')
  {
    hide Dword, Stored, IsText;
    forall y | y in F.vars && F.vars[y] != F.vars[x]
      ensures y in vs.strs && Stored(m', F.vars[y].addr, vs.strs[y])
    {
      OthersKept(F, vs, m, m', x, y);
    }
    forall k | k in F.nums
      ensures Dword(m', F.nums[k]) == Dword(m, F.nums[k])
    {
      NumKept(F, m, m', x, k);
    }
    assert Apart(F.vars[x].addr, F.vars[x].cap, F.lo, F.hi - F.lo);
  }

  lemma KeptThen(F: Frame, x: string, m: Mem, m1: Mem, m2: Mem)
    requires x in F.vars && Kept(F, 0, m, m1) && KeptBut(F, x, m1, m2)
    ensures KeptBut(F, x, m, m2)
  {
  }

  /** Where the value of `e` lies, it is the target itself or apart from it. */
  lemma SourceApart(F: Frame, e: S, hi: int, a: int, v: Text, x: string)
    requires Separated(F) && KnownS(F, e) && LaidS(e, 0, hi) && hi < F.max && Home(F, e, 0, a) && x in F.vars
    requires IsText(v)
    requires (e.Lit? ==> v == e.text) && (e.Var? ==> |v| <= F.vars[e.x].cap)
    ensures var d, cap := F.vars[x].addr, F.vars[x].cap;
            (d == a && |v| <= cap) || d + cap < a || a + |v| < d
  {
    assert OffTemps(F, F.vars[x].addr, F.vars[x].cap);
    assert Apart(F.vars[x].addr, F.vars[x].cap, F.lo, F.hi - F.lo);
    match e
    case Var(y) =>
      assert F.vars[x] == F.vars[y] || Apart(F.vars[x].addr, F.vars[x].cap, F.vars[y].addr, F.vars[y].cap);
    case _ =>
  }

  lemma AssignTail(F: Frame, vs: Vars, s: St, x: string, v: Text)
    requires Good(F, vs, s) && x in F.vars && IsText(v) && Stored(s.mem, s.eax, v) && 0 <= F.vars[x].cap <= 255
    requires var d, cap := F.vars[x].addr, F.vars[x].cap;
             (d == s.eax && |v| <= cap) || d + cap < s.eax || s.eax + |v| < d
    ensures var cap := F.vars[x].cap;
            var s' := DoAll(F, [Mov(ESI, EAX), Imm(F.vars[x].addr), Mov(EDI, EAX), MovC(cap), CallAssign], s);
            Good(F, Update(F, vs, x, Cut(v, cap)), s') && s'.stk == s.stk && KeptBut(F, x, s.mem, s'.mem)
  {
    hide DoAll, Encoded, RoOk, CallsOk, Separated, KeptBut, AssignMem, Stored, Only, Update;
    var d, cap := F.vars[x].addr, F.vars[x].cap;
    var first, rest := [Mov(ESI, EAX), Imm(d)], [Mov(EDI, EAX), MovC(cap), CallAssign];
    assert [Mov(ESI, EAX), Imm(d), Mov(EDI, EAX), MovC(cap), CallAssign] == first + rest;
    DoAppend(F, first, rest, s);
    Do2(F, Mov(ESI, EAX), Imm(d), s);
    Do3(F, Mov(EDI, EAX), MovC(cap), CallAssign, Do(F, Imm(d), Do(F, Mov(ESI, EAX), s)));
    var m' := AssignMem(s.mem, d, s.eax, cap);
    AssignMeans(s.mem, d, s.eax, cap, v);
    OnlyWider(s.mem, m', d, d + |Cut(v, cap)|, d + cap);
    VarWrite(F, vs, s.mem, m', x, Cut(v, cap));
  }

  lemma CharTail(F: Frame, vs: Vars, s: St, x: string, stk: seq<int>)
    requires Good(F, vs, s) && x in F.vars && s.stk == [F.vars[x].addr] + stk && 1 <= F.vars[x].cap <= 255
    ensures var s' := DoAll(F, [PopR(EDX), StoreLen1, StoreChar], s);
            Good(F, Update(F, vs, x, [Low(s.eax)]), s') && s'.stk == stk && KeptBut(F, x, s.mem, s'.mem)
  {
    hide DoAll, Encoded, RoOk, CallsOk, Separated, KeptBut, Update;
    Do3(F, PopR(EDX), StoreLen1, StoreChar, s);
    var d := F.vars[x].addr;
    var m' := s.mem[d := 1][d + 1 := Low(s.eax)];
    assert Only(s.mem, m', d, d + F.vars[x].cap);
    VarWrite(F, vs, s.mem, m', x, [Low(s.eax)]);
  }

  /** `x := e` stores the first cap(x) bytes of the value of `e`, also when `x` or another name of its storage
      occurs in `e`; all names of that storage then denote the new value, and no other variable changes. */
  lemma AssignStrRuns(F: Frame, x: string, e: S, hi: int, vs: Vars, s: St)
    requires Good(F, vs, s) && x in F.vars && KnownS(F, e) && LaidAssign(e, hi) && hi < F.max && EvalS(F, vs, e).Some?
    ensures var r, s' := EvalS(F, vs, e), DoAll(F, GenAssign(F, x, e), s);
            Good(F, Update(F, r.vs, x, Cut(r.val, F.vars[x].cap)), s') && s'.stk == s.stk
              && KeptBut(F, x, s.mem, s'.mem)
  {
    if e.Chr? { AssignCharRuns(F, x, e, hi, vs, s); } else { AssignCopyRuns(F, x, e, hi, vs, s); }
  }

  lemma AssignCharRuns(F: Frame, x: string, e: S, hi: int, vs: Vars, s: St)
    requires Good(F, vs, s) && x in F.vars && e.Chr? && KnownS(F, e) && LaidAssign(e, hi) && hi < F.max
    requires EvalS(F, vs, e).Some?
    ensures var r, s' := EvalS(F, vs, e), DoAll(F, GenAssign(F, x, e), s);
            Good(F, Update(F, r.vs, x, Cut(r.val, F.vars[x].cap)), s') && s'.stk == s.stk
              && KeptBut(F, x, s.mem, s'.mem)
  {
    hide DoAll, GenVal, EvalV, Encoded, RoOk, CallsOk, Kept, KeptBut, KnownV, LaidV, Update;
    var d, c := F.vars[x].addr, e.c;
    var s1 := s.(eax := d, stk := [d] + s.stk);
    DoAppend(F, [Imm(d), PushA], GenVal(F, c) + [PopR(EDX), StoreLen1, StoreChar], s);
    Do2(F, Imm(d), PushA, s);
    SameMem(F, vs, s, s1);
    ValRuns(F, c, 0, hi, vs, s1);
    var n, s2 := EvalV(F, vs, c), DoAll(F, GenVal(F, c), s1);
    DoAppend(F, GenVal(F, c), [PopR(EDX), StoreLen1, StoreChar], s1);
    CharTail(F, n.vs, s2, x, s.stk);
    KeptThen(F, x, s.mem, s2.mem, DoAll(F, [PopR(EDX), StoreLen1, StoreChar], s2).mem);
  }

  lemma AssignCopyRuns(F: Frame, x: string, e: S, hi: int, vs: Vars, s: St)
    requires Good(F, vs, s) && x in F.vars && !e.Chr? && KnownS(F, e) && LaidAssign(e, hi) && hi < F.max
    requires EvalS(F, vs, e).Some?
    ensures var r, s' := EvalS(F, vs, e), DoAll(F, GenAssign(F, x, e), s);
            Good(F, Update(F, r.vs, x, Cut(r.val, F.vars[x].cap)), s') && s'.stk == s.stk
              && KeptBut(F, x, s.mem, s'.mem)
  {
    hide DoAll, GenStr, EvalS, Encoded, RoOk, CallsOk, Kept, KeptBut, Stored, IsText, Home, KnownS, LaidS, Update;
    StrRuns(F, e, 0, hi, vs, s);
    var r := EvalS(F, vs, e);
    var s1 := DoAll(F, GenStr(F, e), s);
    var tail := [Mov(ESI, EAX), Imm(F.vars[x].addr), Mov(EDI, EAX), MovC(F.vars[x].cap), CallAssign];
    DoAppend(F, GenStr(F, e), tail, s);
    LeafValue(F, e, vs, s1);
    SourceApart(F, e, hi, s1.eax, r.val, x);
    AssignTail(F, r.vs, s1, x, r.val);
    KeptThen(F, x, s.mem, s1.mem, DoAll(F, tail, s1).mem);
  }

  /** `g := p + g` where the `var` parameter `p` is bound to `g`: both names end up with the doubled string. */
  lemma AppendToAlias(F: Frame, p: string, g: string, vs: Vars, s: St)
    requires Good(F, vs, s) && p in F.vars && g in F.vars && F.vars[p] == F.vars[g] && F.max >= 1
    ensures var v := vs.strs[g];
            var w := Cut(Cut(v + v, 255), F.vars[g].cap);
            var s' := DoAll(F, GenAssign(F, g, Cat(0, Var(p), Var(g))), s);
            && Good(F, Update(F, vs, g, w), s') && s'.stk == s.stk
            && Update(F, vs, g, w).strs[p] == w && Update(F, vs, g, w).strs[g] == w
  {
    hide DoAll, GenAssign, Stored, IsText, Separated, CallsOk, RoOk;
    var e := Cat(0, Var(p), Var(g));
    AliasesAgree(F, vs, s.mem, p, g);
    assert EvalS(F, vs, Var(p)) == Some(vs.strs[g], vs) && EvalS(F, vs, Var(g)) == Some(vs.strs[g], vs);
    AssignStrRuns(F, g, e, 0, vs, s);
  }

  // ---- planning does not change meaning ----

  lemma {:induction false} StampMeansS(F: Frame, vs: Vars, e: S, b: int)
    ensures EvalS(F, vs, StampS(e, b)) == EvalS(F, vs, e) && KnownS(F, StampS(e, b)) == KnownS(F, e)
    decreases e, 0
  {
    match e
    case Lit(_, _) =>
    case Var(_) =>
    case Cat(_, l, r) =>
      if l.Cat? { StampMeansS(F, vs, l, b); }
      var u := EvalS(F, vs, l);
      if Materializes(r) { StampMeansS(F, if u.Some? then u.vs else vs, r, b + 1); }
    case Chr(_, c) => StampMeansV(F, vs, c, b);
  }

  lemma {:induction false} StampMeansV(F: Frame, vs: Vars, v: V, b: int)
    ensures EvalV(F, vs, StampV(v, b)) == EvalV(F, vs, v) && KnownV(F, StampV(v, b)) == KnownV(F, v)
    decreases v, 0
  {
    match v
    case Num(_) =>
    case Scalar(_) =>
    case Elem(_, idx) => StampMeansV(F, vs, idx, b);
    case ByteAt(_, idx) => StampMeansV(F, vs, idx, b);
    case Length(s) => StampMeansIn(F, vs, s, b);
    case Field(_, _) =>
    case Bin(_, x, y) =>
      StampMeansV(F, vs, x, b);
      var r := EvalV(F, vs, x);
      StampMeansV(F, if r.Some? then r.vs else vs, y, b);
    case Unary(_, x) => StampMeansV(F, vs, x, b);
    case Related(_, l, r) =>
      StampMeansS(F, vs, l, b);
      var u := EvalS(F, vs, l);
      StampMeansS(F, if u.Some? then u.vs else vs, r, HiS(l, b) + 1);
    case Call(_, args) => StampMeansA(F, vs, args, b);
  }

  lemma {:induction false} StampMeansA(F: Frame, vs: Vars, es: Vs, b: int)
    ensures EvalA(F, vs, StampA(es, b)) == EvalA(F, vs, es) && KnownA(F, StampA(es, b)) == KnownA(F, es)
    decreases es, 0
  {
    if es.More? {
      StampMeansA(F, vs, es.tl, b);
      var r := EvalA(F, vs, es.tl);
      StampMeansV(F, if r.Some? then r.vs else vs, es.hd, b);
    }
  }

  lemma {:induction false} StampMeansIn(F: Frame, vs: Vars, e: S, b: int)
    ensures EvalS(F, vs, StampIn(e, b)) == EvalS(F, vs, e) && KnownS(F, StampIn(e, b)) == KnownS(F, e)
    decreases e, 0
  {
    match e
    case Lit(_, _) =>
    case Var(_) =>
    case Cat(_, l, r) =>
      StampMeansIn(F, vs, l, b);
      var u := EvalS(F, vs, l);
      StampMeansIn(F, if u.Some? then u.vs else vs, r, b);
    case Chr(_, c) => StampMeansV(F, vs, c, b);
  }

  /** From the tree the checker leaves to the string in memory: planned from index 0, any fine string
      expression runs correctly in a frame that reserves what its plan asks for. */
  lemma PlannedStrRuns(F: Frame, e: S, vs: Vars, s: St)
    requires Good(F, vs, s) && KnownS(F, e) && FineS(e) && HiS(e, 0) < F.max && EvalS(F, vs, e).Some?
    ensures RanS(F, StampS(e, 0), 0, s, EvalS(F, vs, e), DoAll(F, GenStr(F, StampS(e, 0)), s))
  {
    hide EvalS, KnownS, GenStr, DoAll, Good, RanS, FineS;
    PlanLaysS(e, 0, HiS(e, 0));
    StampMeansS(F, vs, e, 0);
    StrRuns(F, StampS(e, 0), 0, HiS(e, 0), vs, s);
  }

  /** The same for scalar expressions with strings inside. */
  lemma PlannedValRuns(F: Frame, v: V, vs: Vars, s: St)
    requires Good(F, vs, s) && KnownV(F, v) && FineV(v) && HiV(v, 0) < F.max && EvalV(F, vs, v).Some?
    ensures RanV(F, 0, s, EvalV(F, vs, v), DoAll(F, GenVal(F, StampV(v, 0)), s))
  {
    hide EvalV, KnownV, GenVal, DoAll, Good, RanV, FineV;
    PlanLaysV(v, 0, HiV(v, 0));
    StampMeansV(F, vs, v, 0);
    ValRuns(F, StampV(v, 0), 0, HiV(v, 0), vs, s);
  }

  // ---- concatenation as one string ----

  /** The leaves of a concatenation, evaluated in order and joined without any limit. */
  function Joined(F: Frame, vs: Vars, e: S): Res<Text>
    decreases e
  {
    if !e.Cat? then EvalS(F, vs, e)
    else
      var u := Joined(F, vs, e.l);
      if u.None? then None
      else
        var v := Joined(F, u.vs, e.r);
        if v.None? then None else Some(u.val + v.val, v.vs)
  }

  lemma CutJoin(u: Text, v: Text)
    ensures Cut(Cut(u, 255) + Cut(v, 255), 255) == Cut(u + v, 255)
  {
  }

  /** Every leaf evaluates to at most 255 bytes. */
  predicate ShortLeaves(F: Frame, vs: Vars, e: S)
    decreases e
  {
    if !e.Cat? then EvalS(F, vs, e).Some? ==> |EvalS(F, vs, e).val| <= 255
    else ShortLeaves(F, vs, e.l) && (EvalS(F, vs, e.l).Some? ==> ShortLeaves(F, EvalS(F, vs, e.l).vs, e.r))
  }

  /** Cutting at every step keeps exactly the first 255 bytes of the whole. */
  lemma {:induction false} CatIsJoined(F: Frame, vs: Vars, e: S)
    requires ShortLeaves(F, vs, e)
    ensures var j, r := Joined(F, vs, e), EvalS(F, vs, e);
            (j.Some? <==> r.Some?) && (j.Some? ==> r == Some(Cut(j.val, 255), j.vs))
    decreases e
  {
    if e.Cat? {
      CatIsJoined(F, vs, e.l);
      var u := Joined(F, vs, e.l);
      if u.Some? {
        CatIsJoined(F, u.vs, e.r);
        var v := Joined(F, u.vs, e.r);
        if v.Some? { CutJoin(u.val, v.val); }
      }
    }
  }

  // ---- the relations ----

  /** The six relations of a string comparison are those of one total order in which equality is equality
      of contents. */
  lemma RelationsConsistent(u: Text, v: Text, w: Text)
    ensures Holds(Eq, Lex(u, v)) <==> u == v
    ensures Holds(Ne, Lex(u, v)) <==> u != v
    ensures Holds(Le, Lex(u, v)) <==> Holds(Lt, Lex(u, v)) || u == v
    ensures Holds(Ge, Lex(u, v)) <==> Holds(Le, Lex(v, u))
    ensures Holds(Gt, Lex(u, v)) <==> Holds(Lt, Lex(v, u))
    ensures Holds(Lt, Lex(u, v)) <==> !Holds(Ge, Lex(u, v))
    ensures Holds(Le, Lex(u, v)) && Holds(Le, Lex(v, w)) ==> Holds(Le, Lex(u, w))
    ensures Holds(Le, Lex(u, v)) || Holds(Le, Lex(v, u))
  {
    LexOrder(u, v, w);
  }

  /** `u` comes before `v` in the dictionary: it is a proper beginning of `v`, or has the smaller byte where they
      first differ. */
  ghost predicate Before(u: Text, v: Text) {
    (|u| < |v| && v[..|u|] == u) || exists k :: DiffersAt(u, v, k) && u[k] < v[k]
  }

  predicate DiffersAt(u: Text, v: Text, k: int) { 0 <= k < |u| && k < |v| && u[..k] == v[..k] && u[k] != v[k] }

  lemma {:induction false} LexBefore(u: Text, v: Text)
    ensures Lex(u, v) < 0 <==> Before(u, v)
    decreases |u|
  {
    if u == [] || v == [] {
      if |u| < |v| { assert v[..|u|] == u; }
    } else if u[0] != v[0] {
      assert DiffersAt(u, v, 0);
      FirstDiffers(u, v);
    } else {
      LexBefore(u[1..], v[1..]);
      BeforeTails(u, v);
    }
  }

  lemma FirstDiffers(u: Text, v: Text)
    requires u != [] && v != [] && u[0] != v[0]
    ensures Before(u, v) <==> u[0] < v[0]
  {
    assert DiffersAt(u, v, 0);
    forall k: nat | k <= |u| && k <= |v|
      ensures k > 0 && u[..k] == v[..k] ==> u[0] == v[0]
    {
      if k > 0 { SameHead(u, v, k); }
    }
    assert u[..|u|] == u;
  }

  lemma SameHead(u: Text, v: Text, k: nat)
    requires 0 < k <= |u| && k <= |v|
    ensures u[..k] == v[..k] ==> u[0] == v[0]
  {
    assert u[..k][0] == u[0] && v[..k][0] == v[0];
  }

  lemma BeforeTails(u: Text, v: Text)
    requires u != [] && v != [] && u[0] == v[0]
    ensures Before(u, v) <==> Before(u[1..], v[1..])
  {
    var u1, v1 := u[1..], v[1..];
    assert u == [u[0]] + u1 && v == [v[0]] + v1;
    if |u| < |v| {
      assert v[..|u|] == [v[0]] + v1[..|u1|];
      assert v[..|u|] == u <==> v1[..|u1|] == u1 by {
        if v[..|u|] == u { assert v1[..|u1|] == v[..|u|][1..]; }
      }
    }
    forall k | 0 <= k < |u1| && k < |v1|
      ensures DiffersAt(u, v, k + 1) <==> DiffersAt(u1, v1, k)
    {
      assert u[..k + 1] == [u[0]] + u1[..k] && v[..k + 1] == [v[0]] + v1[..k];
      if u[..k + 1] == v[..k + 1] { assert u1[..k] == u[..k + 1][1..] && v1[..k] == v[..k + 1][1..]; }
    }
    if k :| DiffersAt(u, v, k) && u[k] < v[k] {
      assert DiffersAt(u1, v1, k - 1);
    }
    if k :| DiffersAt(u1, v1, k) && u1[k] < v1[k] {
      assert DiffersAt(u, v, k + 1);
    }
  }

  /** What a relation says of two strings. */
  ghost predicate Ordered(rel: Rel, u: Text, v: Text) {
    (rel == Eq ==> u == v) && (rel == Ne ==> u != v) && (rel == Lt ==> Before(u, v))
    && (rel == Le ==> Before(u, v) || u == v) && (rel == Gt ==> Before(v, u)) && (rel == Ge ==> Before(v, u) || u == v)
  }

  lemma HoldsIs(rel: Rel, u: Text, v: Text)
    ensures Holds(rel, Lex(u, v)) <==> Ordered(rel, u, v)
  {
    hide Lex, Before;
    LexOrder(u, v, u);
    LexBefore(u, v);
    LexBefore(v, u);
  }

  /** A string comparison is 1 if the strings are so related in dictionary order, and 0 if not. */
  lemma StringsCompare(F: Frame, vs: Vars, rel: Rel, l: S, r: S)
    requires EvalV(F, vs, Related(rel, l, r)).Some?
    ensures var u := EvalS(F, vs, l);
            u.Some? && EvalS(F, u.vs, r).Some?
            && EvalV(F, vs, Related(rel, l, r)).val == if Ordered(rel, u.val, EvalS(F, u.vs, r).val) then 1 else 0
  {
    hide EvalS, Lex, Ordered, Holds;
    var u := EvalS(F, vs, l);
    if u.Some? && EvalS(F, u.vs, r).Some? { HoldsIs(rel, u.val, EvalS(F, u.vs, r).val); }
  }

  /** And so is what `call __str_cmp; cmp eax, 0; setcc al; movzx eax, al` leaves. */
  lemma CompareComputes(F: Frame, s: St, rel: Rel, u: Text, v: Text)
    requires Stored(s.mem, s.esi, u) && Stored(s.mem, s.edi, v)
    ensures DoAll(F, [CallCmp, SetRel(rel)], s).eax == if Ordered(rel, u, v) then 1 else 0
  {
    hide DoAll, Stored, Lex, TextAt, Ordered, Holds, Flagged;
    Do2(F, CallCmp, SetRel(rel), s);
    TextOf(s.mem, s.esi, u);
    TextOf(s.mem, s.edi, v);
    FlaggedHolds(rel, Lex(u, v));
    HoldsIs(rel, u, v);
  }

  // ---- the operators ----

  /** Sums and differences wrap, `and` and `or` combine 0 and 1, `not` exchanges them, `chr` and a stored byte take
      the number modulo 256. */
  lemma OperatorsCompute(x: int, y: int, p: bool, q: bool)
    ensures Operators.Wrapped(x + y, Apply(Plus, x, y)) && Operators.Wrapped(x - y, Apply(Minus, x, y))
    ensures Operators.Wrapped(-x, ApplyUn(Negate, x)) && ApplyUn(Ordinal, x) == x
    ensures Apply(Both, if p then 1 else 0, if q then 1 else 0) == if p && q then 1 else 0
    ensures Apply(Either, if p then 1 else 0, if q then 1 else 0) == if p || q then 1 else 0
    ensures ApplyUn(Invert, if p then 1 else 0) == if p then 0 else 1
    ensures 0 <= ApplyUn(Character, x) < 256 && (x - ApplyUn(Character, x)) % 256 == 0
    ensures 0 <= Low(x) < 256 && (x - Low(x)) % 256 == 0
  {
    hide Wrap, And, Or, Xor, Unsigned, Operators.Wrapped;
    Operators.WordIs(x + y);
    Operators.WordIs(x - y);
    Operators.WordIs(-x);
    BoolBits(p, q);
    MaskByte(x);
    Operators.ByteIs(x);
    ModUnique(x - x % 256, 256, x / 256, 0);
  }

  /** The emitted instructions for them do the same to the registers. */
  lemma OperatorCode(F: Frame, s: St, o: Op, u: Un)
    ensures Do(F, Alu(o), s).eax == Apply(o, s.eax, s.ecx) && Do(F, AluUn(u), s).eax == ApplyUn(u, s.eax)
  {
    hide Apply, ApplyUn;
  }
}
