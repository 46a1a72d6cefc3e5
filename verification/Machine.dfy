/** The target machine: the registers and the instructions the generator emits, over dword memory.

    A word is tagged with what it is: a number, an address, a code address or the label of a
    constant. Numbers wrap at 32 bits; addresses do not, so the stack has no lower end. Mixing tags in
    a way the emitted code never should, reading an address nothing was stored at, or touching a
    misaligned dword makes the machine `Stuck`, so a theorem that a run ends otherwise also says that
    none of this happens. */
module Machine {
  import opened Int32
  import opened Syntax
  import opened Semantics

  datatype Label =
    | LElse(n: nat) | LEndif(n: nat) | LWhileTop(n: nat) | LWhileEnd(n: nat)
    | LBFalse(n: nat) | LBDone(n: nat)
    | LProc(f: string) | LMain

  datatype Reg = EAX | ECX | EDX | ESP | EBP

  datatype Word =
    | I(i: int)        // a number
    | A(a: int)        // a byte address
    | C(pc: int)       // a return address
    | T(k: int)        // the label of write literal `k`
    | TB(b: bool)      // the label of the text TRUE or FALSE
    | Junk             // whatever a runtime helper leaves behind

  /** Serial helpers of the runtime, which take their argument in EAX. */
  datatype Helper = Puts | Putc | PutInt

  datatype Alu = AAdd | ASub | AImul | AAnd | AOr | AXor

  datatype Instr =
    | MovI(r: Reg, w: Word)              // mov r, immediate or label
    | MovRR(r: Reg, src: Reg)
    | MovAL(n: int)                      // mov al, n
    | AddrOf(x: string)                  // mov eax, v_x
    | LoadG(x: string)                   // mov eax, [v_x]
    | StoreG(x: string)                  // mov [v_x], eax
    | Load(r: Reg, base: Reg, off: int)  // mov r, [base+off]
    | Save(base: Reg, off: int, src: Reg)// mov [base+off], src
    | Lea(r: Reg, off: int)              // lea r, [ebp+off]
    | Push(r: Reg)
    | Pull(r: Reg)                       // pop r
    | Op(o: Alu, r: Reg, src: Reg)       // add/sub/imul/and/or/xor r, src
    | OpI(o: Alu, r: Reg, n: int)        // the same with an immediate
    | NegR(r: Reg)
    | Cdq
    | Idiv                               // idiv ecx
    | Cmp                                // cmp eax, ecx
    | SetAL(op: BinOp)                   // setcc al
    | MovzxAL                            // movzx eax, al
    | TestEAX                            // test eax, eax
    | Jz(l: Label)
    | Jmp(l: Label)
    | Lbl(l: Label)
    | CallP(f: string)                   // call pf_f
    | CallH(h: Helper)
    | Leave
    | Ret
    | Ice                                // the generator aborts instead of emitting

  type Mem = map<int, Word>

  datatype Status = Running | Halted | DivFault | Stuck

  datatype State = State(pc: int, eax: Word, ecx: Word, edx: Word, esp: Word, ebp: Word,
                         fl: (int, int), mem: Mem, out: seq<Event>, status: Status)

  /** A linked program: code, the addresses of globals, the write literals. */
  datatype Image = Image(code: seq<Instr>, gaddr: map<string, int>, text: seq<seq<int>>)

  function Get(s: State, r: Reg): Word {
    match r
    case EAX => s.eax
    case ECX => s.ecx
    case EDX => s.edx
    case ESP => s.esp
    case EBP => s.ebp
  }

  function WithReg(s: State, r: Reg, w: Word): State {
    match r
    case EAX => s.(eax := w)
    case ECX => s.(ecx := w)
    case EDX => s.(edx := w)
    case ESP => s.(esp := w)
    case EBP => s.(ebp := w)
  }

  function Next(s: State): State { s.(pc := s.pc + 1) }

  function Jam(s: State): State { s.(status := Stuck) }

  function Into(s: State, r: Reg, w: Word): State { Next(WithReg(s, r, w)) }

  function LoadAt(s: State, r: Reg, w: Word, off: int): State {
    if w.A? && (w.a + off) % 4 == 0 && w.a + off in s.mem then Into(s, r, s.mem[w.a + off]) else Jam(s)
  }

  function SaveAt(s: State, w: Word, off: int, v: Word): State {
    if w.A? && (w.a + off) % 4 == 0 then Next(s.(mem := s.mem[w.a + off := v])) else Jam(s)
  }

  /** The position of a label, or the code's length when it is not defined. */
  function Find(code: seq<Instr>, l: Label, i: nat): (k: nat)
    requires i <= |code|
    ensures i <= k <= |code|
    ensures k < |code| ==> code[k] == Lbl(l)
    ensures forall j :: i <= j < k ==> code[j] != Lbl(l)
    decreases |code| - i
  {
    if i == |code| || code[i] == Lbl(l) then i else Find(code, l, i + 1)
  }

  function Goto(img: Image, s: State, l: Label): State {
    var k := Find(img.code, l, 0);
    if k < |img.code| then s.(pc := k) else Jam(s)
  }

  /** Numbers combine modulo 2^32; a number may be added to or subtracted from an address. */
  function AluW(o: Alu, v: Word, w: Word): Option<Word> {
    match (v, w)
    case (I(x), I(y)) => Some(I(AluI(o, x, y)))
    case (A(x), I(y)) => if o.AAdd? then Some(A(x + y)) else if o.ASub? then Some(A(x - y)) else None
    case _ => None
  }

  function AluI(o: Alu, x: int, y: int): int {
    match o
    case AAdd => Wrap(x + y)
    case ASub => Wrap(x - y)
    case AImul => Wrap(x * y)
    case AAnd => And(x, y)
    case AOr => Or(x, y)
    case AXor => Xor(x, y)
  }

  function IntoO(s: State, r: Reg, w: Option<Word>): State {
    if w.Some? then Into(s, r, w.value) else Jam(s)
  }

  /** The bytes a NUL-terminated literal prints. */
  function UntilNul(bs: seq<int>): seq<int> {
    if bs == [] || bs[0] == 0 then [] else [bs[0]] + UntilNul(bs[1..])
  }

  // the two fixed texts of .rodata
  const STR_BOOL_TRUE: seq<int> := [84, 82, 85, 69]
  const STR_BOOL_FALSE: seq<int> := [70, 65, 76, 83, 69]

  function RunHelper(img: Image, h: Helper, s: State): State {
    var e := match (h, s.eax)
      case (Puts, T(k)) => if 0 <= k < |img.text| then Some(EText(UntilNul(img.text[k]))) else None
      case (Puts, TB(b)) => Some(EText(if b then STR_BOOL_TRUE else STR_BOOL_FALSE))
      case (Putc, I(i)) => Some(EByte(Unsigned(i) % 256))
      case (PutInt, I(i)) => Some(EInt(i))
      case _ => None;
    if e.None? then Jam(s)
    else Next(s.(out := s.out + [e.value], eax := Junk, ecx := Junk, edx := Junk))
  }

  /** `idiv ecx`: EDX:EAX by ECX, faulting on a zero divisor or a quotient that does not fit. */
  function RunIdiv(s: State): State {
    if !(s.eax.I? && s.ecx.I? && s.edx.I?) then Jam(s)
    else
      var n := s.edx.i * MODULUS + Unsigned(s.eax.i);
      var d := s.ecx.i;
      if d == 0 || !IsWord(TruncDiv(n, d)) then s.(status := DivFault)
      else Next(s.(eax := I(TruncDiv(n, d)), edx := I(TruncMod(n, d))))
  }

  /** Replaces the low byte of EAX; above a non-number the other bytes do not matter. */
  function RunAL(s: State, b: int): State {
    if s.eax.I? then Into(s, EAX, I(Wrap(Unsigned(s.eax.i) - Unsigned(s.eax.i) % 256 + b)))
    else Into(s, EAX, I(b))
  }

  function RunPush(s: State, w: Word): State {
    if s.esp.A? then SaveAt(s, s.esp, -4, w).(esp := A(s.esp.a - 4)) else Jam(s)
  }

  function RunPop(s: State, r: Reg): State {
    if s.esp.A? then LoadAt(s.(esp := A(s.esp.a + 4)), r, s.esp, 0) else Jam(s)
  }

  function RunMovzx(s: State): State {
    if s.eax.I? then Into(s, EAX, I(Unsigned(s.eax.i) % 256)) else Jam(s)
  }

  function RunNeg(s: State, r: Reg): State {
    if Get(s, r).I? then Into(s, r, I(Wrap(-Get(s, r).i))) else Jam(s)
  }

  function RunCdq(s: State): State {
    if s.eax.I? then Into(s, EDX, I(if s.eax.i < 0 then -1 else 0)) else Jam(s)
  }

  function RunCmp(s: State, w: Word): State {
    if s.eax.I? && w.I? then Next(s.(fl := (s.eax.i, w.i))) else Jam(s)
  }

  function RunCall(img: Image, s: State, f: string): State {
    if s.esp.A? && s.esp.a % 4 == 0 then
      Goto(img, s.(esp := A(s.esp.a - 4), mem := s.mem[s.esp.a - 4 := C(s.pc + 1)]), LProc(f))
    else Jam(s)
  }

  function RunLeave(s: State): State {
    if s.ebp.A? then LoadAt(s.(esp := A(s.ebp.a + 4)), EBP, s.ebp, 0) else Jam(s)
  }

  function RunRet(s: State): State {
    if s.esp.A? && s.esp.a % 4 == 0 && s.esp.a in s.mem && s.mem[s.esp.a].C? then
      var k := s.mem[s.esp.a].pc;
      s.(esp := A(s.esp.a + 4), pc := k, status := if k == HALT then Halted else Running)
    else Jam(s)
  }

  /** The flags after `cmp`: zero, and sign different from overflow, of the difference of the operands. */
  predicate ZeroFlag(fl: (int, int)) { Wrap(fl.0 - fl.1) == 0 }

  predicate SignNotOverflow(fl: (int, int)) {
    var d := fl.0 - fl.1;
    (Wrap(d) < 0) != (Wrap(d) != d)
  }

  /** The condition of `setcc`. */
  predicate Holds(cc: BinOp, fl: (int, int)) {
    match cc
    case Eq => ZeroFlag(fl)
    case Ne => !ZeroFlag(fl)
    case Lt => SignNotOverflow(fl)
    case Le => SignNotOverflow(fl) || ZeroFlag(fl)
    case Gt => !SignNotOverflow(fl) && !ZeroFlag(fl)
    case Ge => !SignNotOverflow(fl)
    case _ => false
  }

  function GlobalAt(img: Image, x: string): Word {
    if x in img.gaddr then A(img.gaddr[x]) else Junk
  }

  function Imm(w: Word): Word { if w.I? then I(Wrap(w.i)) else w }

  function Exec(img: Image, i: Instr, s: State): State {
    match i
    case MovI(r, w) => Into(s, r, Imm(w))
    case MovRR(r, q) => Into(s, r, Get(s, q))
    case MovAL(n) => RunAL(s, n)
    case AddrOf(x) => Into(s, EAX, GlobalAt(img, x))
    case LoadG(x) => LoadAt(s, EAX, GlobalAt(img, x), 0)
    case StoreG(x) => SaveAt(s, GlobalAt(img, x), 0, s.eax)
    case Load(r, b, off) => LoadAt(s, r, Get(s, b), off)
    case Save(b, off, q) => SaveAt(s, Get(s, b), off, Get(s, q))
    case Lea(r, off) => IntoO(s, r, AluW(AAdd, s.ebp, I(off)))
    case Push(r) => RunPush(s, Get(s, r))
    case Pull(r) => RunPop(s, r)
    case Op(o, r, q) => IntoO(s, r, AluW(o, Get(s, r), Get(s, q)))
    case OpI(o, r, n) => IntoO(s, r, AluW(o, Get(s, r), I(n)))
    case NegR(r) => RunNeg(s, r)
    case Cdq => RunCdq(s)
    case Idiv => RunIdiv(s)
    case Cmp => RunCmp(s, s.ecx)
    case SetAL(op) => RunAL(s, if Holds(op, s.fl) then 1 else 0)
    case MovzxAL => RunMovzx(s)
    case TestEAX => RunCmp(s, I(0))
    case Jz(l) => if s.fl.0 == s.fl.1 then Goto(img, s, l) else Next(s)
    case Jmp(l) => Goto(img, s, l)
    case Lbl(_) => Next(s)
    case CallP(f) => RunCall(img, s, f)
    case CallH(h) => RunHelper(img, h, s)
    case Leave => RunLeave(s)
    case Ret => RunRet(s)
    case Ice => Jam(s)
  }

  /** The runtime's return address from `pas_main`. */
  const HALT: int := -1

  function Step(img: Image, s: State): State {
    if s.status != Running then s
    else if 0 <= s.pc < |img.code| then Exec(img, img.code[s.pc], s)
    else Jam(s)
  }

  /** The state after `n` steps; a machine that has stopped stays as it is. */
  function Run(img: Image, s: State, n: nat): State
    decreases n
  {
    if n == 0 then s else Run(img, Step(img, s), n - 1)
  }

  lemma {:induction false} RunAdd(img: Image, s: State, n: nat, m: nat)
    ensures Run(img, Run(img, s, n), m) == Run(img, s, n + m)
    decreases n
  {
    if n > 0 { RunAdd(img, Step(img, s), n - 1, m); }
  }

  lemma {:induction false} RunStopped(img: Image, s: State, n: nat)
    requires s.status != Running
    ensures Run(img, s, n) == s
  {
    if n > 0 { RunStopped(img, s, n - 1); }
  }

  /** `c` stands at position `pc` of the code. */
  predicate Sits(code: seq<Instr>, pc: int, c: seq<Instr>) {
    0 <= pc && pc + |c| <= |code| && code[pc..pc + |c|] == c
  }

  lemma SitsSplit(code: seq<Instr>, pc: int, c: seq<Instr>, d: seq<Instr>)
    requires Sits(code, pc, c + d)
    ensures Sits(code, pc, c) && Sits(code, pc + |c|, d)
  {
    var w := code[pc..pc + |c + d|];
    assert c == w[..|c|] && d == w[|c|..];
    assert code[pc..pc + |c|] == w[..|c|];
    assert code[pc + |c|..pc + |c| + |d|] == w[|c|..];
  }

  lemma SitsAt(code: seq<Instr>, pc: int, c: seq<Instr>, i: nat)
    requires Sits(code, pc, c) && i < |c|
    ensures 0 <= pc + i < |code| && code[pc + i] == c[i]
  {
    assert code[pc..pc + |c|][i] == c[i];
  }

  /** One step from a position where `c` sits. */
  lemma StepAt(img: Image, s: State, pc: int, c: seq<Instr>, i: nat)
    requires Sits(img.code, pc, c) && i < |c| && s.pc == pc + i && s.status == Running
    ensures Run(img, s, 1) == Exec(img, c[i], s)
  {
    hide Exec, Sits;
    SitsAt(img.code, pc, c, i);
    assert Run(img, s, 1) == Run(img, Step(img, s), 0);
  }

  predicate DistinctLabels(code: seq<Instr>) {
    forall i, j :: 0 <= i < j < |code| && code[i].Lbl? && code[j].Lbl? ==> code[i].l != code[j].l
  }

  lemma FindAt(code: seq<Instr>, l: Label, k: nat)
    requires DistinctLabels(code) && k < |code| && code[k] == Lbl(l)
    ensures Find(code, l, 0) == k
  {
    assert code[Find(code, l, 0)] == Lbl(l);
  }
}
