/** The four hand-written string routines the generator adds to a program that uses strings, run
    instruction by instruction. A ShortString is a length byte followed by that many content bytes.
    Registers are unbounded here and the data stack is kept apart from byte memory. */
module StrIntrinsics {

  type Mem = map<int, int>

  function At(m: Mem, a: int): int { if a in m then m[a] else 0 }

  datatype Reg = EAX | ECX | EDX | ESI | EDI

  /** The routines' own labels; the text from one label up to the next is a block. */
  datatype Label =
    | StrAssign | LenOk
    | StrConcat | NOk
    | StrCmp | HaveMin | CmpLoop | ALess | AGreater | PrefixEqual | LenLess | LenGreater
    | StrWrite | WLoop | WDone

  datatype Instr =
    | MovzxB(r: Reg, base: Reg)        // movzx r, byte [base]
    | LoadB(r: Reg, base: Reg)         // mov r.low, [base]
    | StoreAL(base: Reg)               // mov [base], al
    | MovR(r: Reg, src: Reg)
    | MovI(r: Reg, n: int)
    | AddR(r: Reg, src: Reg)
    | SubR(r: Reg, src: Reg)
    | LeaSum                           // lea edx, [edi+eax+1]
    | Inc(r: Reg)
    | Dec(r: Reg)
    | Cmp(r: Reg, src: Reg)
    | CmpB                             // cmp al, dl
    | TestECX                          // test ecx, ecx
    | Jbe(l: Label) | Jae(l: Label) | Jb(l: Label) | Ja(l: Label) | Jz(l: Label) | Jmp(l: Label)
    | RepMovsb
    | Push(r: Reg)
    | Pull(r: Reg)
    | Drop2                            // add esp, 8
    | CallPutc                         // call serial_putc
    | Ret

  /** The instructions under a label. */
  function Block(l: Label): seq<Instr> {
    match l
    // edi = destination, esi = source, ecx = capacity
    case StrAssign => [MovzxB(EAX, ESI), Cmp(EAX, ECX), Jbe(LenOk), MovR(EAX, ECX)]
    case LenOk => [StoreAL(EDI), MovR(ECX, EAX), Inc(ESI), Inc(EDI), RepMovsb, Ret]
    // edi = destination, esi = source
    case StrConcat => [MovzxB(EAX, EDI), MovzxB(ECX, ESI), MovI(EDX, 255), SubR(EDX, EAX), Cmp(ECX, EDX), Jbe(NOk),
      MovR(ECX, EDX)]
    case NOk => [LeaSum, AddR(EAX, ECX), StoreAL(EDI), Inc(ESI), MovR(EDI, EDX), RepMovsb, Ret]
    // esi, edi = the strings; eax = -1, 0 or +1
    case StrCmp => [MovzxB(EAX, ESI), MovzxB(EDX, EDI), MovR(ECX, EAX), Cmp(EDX, ECX), Jae(HaveMin), MovR(ECX, EDX)]
    case HaveMin => [Push(EAX), Push(EDX), Inc(ESI), Inc(EDI)]
    case CmpLoop =>
      [TestECX, Jz(PrefixEqual), LoadB(EAX, ESI), LoadB(EDX, EDI), CmpB, Jb(ALess), Ja(AGreater),
       Inc(ESI), Inc(EDI), Dec(ECX), Jmp(CmpLoop)]
    case ALess => [Drop2, MovI(EAX, -1), Ret]
    case AGreater => [Drop2, MovI(EAX, 1), Ret]
    case PrefixEqual => [Pull(EDX), Pull(EAX), Cmp(EAX, EDX), Jb(LenLess), Ja(LenGreater), MovI(EAX, 0), Ret]
    case LenLess => [MovI(EAX, -1), Ret]
    case LenGreater => [MovI(EAX, 1), Ret]
    // esi = the string
    case StrWrite => [MovzxB(ECX, ESI), Inc(ESI)]
    case WLoop => [TestECX, Jz(WDone), LoadB(EAX, ESI), CallPutc, Inc(ESI), Dec(ECX), Jmp(WLoop)]
    case WDone => [Ret]
  }

  /** The label a block runs into at its end. */
  function Below(l: Label): Label {
    match l
    case StrAssign => LenOk
    case StrConcat => NOk
    case StrCmp => HaveMin
    case HaveMin => CmpLoop
    case StrWrite => WLoop
    case _ => l
  }

  datatype State = State(at: Label, i: nat, eax: int, ecx: int, edx: int, esi: int, edi: int,
                         fl: (int, int), stk: seq<int>, mem: Mem, out: seq<int>, done: bool)

  function Get(s: State, r: Reg): int {
    match r case EAX => s.eax case ECX => s.ecx case EDX => s.edx case ESI => s.esi case EDI => s.edi
  }

  function Put(s: State, r: Reg, v: int): State {
    match r
    case EAX => s.(eax := v)
    case ECX => s.(ecx := v)
    case EDX => s.(edx := v)
    case ESI => s.(esi := v)
    case EDI => s.(edi := v)
  }

  function Low(v: int): int { v % 256 }

  function Next(s: State): State { s.(i := s.i + 1) }

  function Branch(s: State, taken: bool, l: Label): State {
    if taken then s.(at := l, i := 0) else Next(s)
  }

  /** Copies `n` bytes upward, one at a time, as `rep movsb` does. */
  function Copy(m: Mem, from: int, to: int, n: nat): Mem
    decreases n
  {
    if n == 0 then m else Copy(m[to := At(m, from)], from + 1, to + 1, n - 1)
  }

  function Exec(i: Instr, s: State): State {
    match i
    case MovzxB(r, b) => Next(Put(s, r, At(s.mem, Get(s, b))))
    case LoadB(r, b) => Next(Put(s, r, Get(s, r) - Low(Get(s, r)) + At(s.mem, Get(s, b))))
    case StoreAL(b) => Next(s.(mem := s.mem[Get(s, b) := Low(s.eax)]))
    case MovR(r, q) => Next(Put(s, r, Get(s, q)))
    case MovI(r, n) => Next(Put(s, r, n))
    case AddR(r, q) => Next(Put(s, r, Get(s, r) + Get(s, q)))
    case SubR(r, q) => Next(Put(s, r, Get(s, r) - Get(s, q)))
    case LeaSum => Next(s.(edx := s.edi + s.eax + 1))
    case Inc(r) => Next(Put(s, r, Get(s, r) + 1))
    case Dec(r) => Next(Put(s, r, Get(s, r) - 1))
    case Cmp(r, q) => Next(s.(fl := (Get(s, r), Get(s, q))))
    case CmpB => Next(s.(fl := (Low(s.eax), Low(s.edx))))
    case TestECX => Next(s.(fl := (s.ecx, 0)))
    case Jbe(l) => Branch(s, s.fl.0 <= s.fl.1, l)
    case Jae(l) => Branch(s, s.fl.0 >= s.fl.1, l)
    case Jb(l) => Branch(s, s.fl.0 < s.fl.1, l)
    case Ja(l) => Branch(s, s.fl.0 > s.fl.1, l)
    case Jz(l) => Branch(s, s.fl.0 == s.fl.1, l)
    case Jmp(l) => Branch(s, true, l)
    case RepMovsb =>
      if s.ecx < 0 then s
      else Next(s.(mem := Copy(s.mem, s.esi, s.edi, s.ecx), esi := s.esi + s.ecx, edi := s.edi + s.ecx, ecx := 0))
    case Push(r) => Next(s.(stk := [Get(s, r)] + s.stk))
    case Pull(r) => if s.stk == [] then s else Next(Put(s, r, s.stk[0]).(stk := s.stk[1..]))
    case Drop2 => if |s.stk| < 2 then s else Next(s.(stk := s.stk[2..]))
    case CallPutc => Next(s.(out := s.out + [Low(s.eax)]))
    case Ret => s.(done := true)
  }

  /** One instruction, or running into the next label. */
  function Step(s: State): State {
    if s.done then s
    else if s.i < |Block(s.at)| then Exec(Block(s.at)[s.i], s)
    else s.(at := Below(s.at), i := 0)
  }

  function Run(s: State, n: nat): State
    decreases n
  {
    if n == 0 then s else Run(Step(s), n - 1)
  }

  lemma {:induction false} RunAdd(s: State, n: nat, m: nat)
    ensures Run(Run(s, n), m) == Run(s, n + m)
    decreases n
  {
    hide Step;
    if n > 0 { RunAdd(Step(s), n - 1, m); }
  }

  lemma RunZero(s: State)
    ensures Run(s, 0) == s
  {
  }

  /** One more step of a run. */
  lemma Go(s0: State, n: nat, s: State, i: Instr) returns (m: nat, s': State)
    requires Run(s0, n) == s && !s.done && s.i < |Block(s.at)| && Block(s.at)[s.i] == i
    ensures m == n + 1 && Run(s0, m) == s' == Exec(i, s)
  {
    RunAdd(s0, n, 1);
    assert Run(s, 1) == Run(Step(s), 0);
    m, s' := n + 1, Step(s);
  }

  lemma Fall(s0: State, n: nat, s: State) returns (m: nat, s': State)
    requires Run(s0, n) == s && !s.done && s.i == |Block(s.at)|
    ensures m == n + 1 && Run(s0, m) == s' == s.(at := Below(s.at), i := 0)
  {
    RunAdd(s0, n, 1);
    assert Run(s, 1) == Run(Step(s), 0);
    m, s' := n + 1, Step(s);
  }

  // ---- strings in memory ----

  type Text = seq<int>

  predicate IsText(v: Text) { |v| <= 255 && forall i :: 0 <= i < |v| ==> 0 <= v[i] < 256 }

  /** `v` is stored at `a`. */
  predicate Stored(m: Mem, a: int, v: Text) {
    At(m, a) == |v| && forall i :: 0 <= i < |v| ==> At(m, a + 1 + i) == v[i]
  }

  /** Nothing outside `lo..hi` changed. */
  ghost predicate Only(m: Mem, m': Mem, lo: int, hi: int) {
    forall a :: !(lo <= a <= hi) ==> At(m', a) == At(m, a)
  }

  function Cut(v: Text, n: nat): Text { if |v| <= n then v else v[..n] }

  lemma {:induction false} CopyAt(m: Mem, from: int, to: int, n: nat, a: int)
    requires to <= from || from + n <= to
    ensures At(Copy(m, from, to, n), a) == At(m, if to <= a < to + n then a - to + from else a)
    decreases n
  {
    if n > 0 { CopyAt(m[to := At(m, from)], from + 1, to + 1, n - 1, a); }
  }

  /** An upward copy is right unless its target starts inside its source, after the first byte. */
  lemma CopyMeans(m: Mem, from: int, to: int, n: nat)
    requires to <= from || from + n <= to
    ensures forall a :: to <= a < to + n ==> At(Copy(m, from, to, n), a) == At(m, a - to + from)
    ensures Only(m, Copy(m, from, to, n), to, to + n - 1)
  {
    hide Copy;
    forall a
      ensures At(Copy(m, from, to, n), a) == At(m, if to <= a < to + n then a - to + from else a)
    {
      CopyAt(m, from, to, n, a);
    }
  }

  // ---- __str_assign ----

  /** What `__str_assign` does to memory. */
  function AssignMem(m: Mem, dst: int, src: int, cap: int): Mem {
    var n := if At(m, src) <= cap then At(m, src) else cap;
    if n < 0 then m else Copy(m[dst := Low(n)], src + 1, dst + 1, n)
  }

  /** A routine has returned with its stack balanced. */
  predicate Back(s: State, s': State) { s'.done && s'.stk == s.stk }

  lemma AssignRuns(s: State) returns (n: nat)
    requires s.at == StrAssign && s.i == 0 && !s.done && 0 <= s.ecx && 0 <= At(s.mem, s.esi)
    ensures Back(s, Run(s, n)) && Run(s, n).out == s.out && Run(s, n).mem == AssignMem(s.mem, s.edi, s.esi, s.ecx)
  {
    hide Copy, Run, Step;
    RunZero(s);
    var t;
    n, t := Go(s, 0, s, MovzxB(EAX, ESI));
    n, t := Go(s, n, t, Cmp(EAX, ECX));
    n, t := Go(s, n, t, Jbe(LenOk));
    if At(s.mem, s.esi) > s.ecx {
      n, t := Go(s, n, t, MovR(EAX, ECX));
      n, t := Fall(s, n, t);
    }
    var k := AssignTail(t);
    RunAdd(s, n, k);
    n := n + k;
  }

  lemma AssignTail(s: State) returns (n: nat)
    requires s.at == LenOk && s.i == 0 && !s.done && s.eax >= 0
    ensures Back(s, Run(s, n)) && Run(s, n).out == s.out
    ensures Run(s, n).mem == Copy(s.mem[s.edi := Low(s.eax)], s.esi + 1, s.edi + 1, s.eax)
  {
    hide Copy, Run, Step, Low;
    RunZero(s);
    var t;
    n, t := Go(s, 0, s, StoreAL(EDI));
    n, t := Go(s, n, t, MovR(ECX, EAX));
    n, t := Go(s, n, t, Inc(ESI));
    n, t := Go(s, n, t, Inc(EDI));
    n, t := Go(s, n, t, RepMovsb);
    n, t := Go(s, n, t, Ret);
  }

  /** The destination receives the source cut to the capacity; the two are the same string or apart. */
  lemma {:induction false} AssignMeans(m: Mem, dst: int, src: int, cap: int, v: Text)
    requires 0 <= cap <= 255 && IsText(v) && Stored(m, src, v)
    requires (dst == src && |v| <= cap) || dst + cap < src || src + |v| < dst
    ensures Stored(AssignMem(m, dst, src, cap), dst, Cut(v, cap))
    ensures Only(m, AssignMem(m, dst, src, cap), dst, dst + |Cut(v, cap)|)
  {
    hide Copy;
    var w := Cut(v, cap);
    var n := |w|;
    var m1 := m[dst := Low(n)];
    CopyMeans(m1, src + 1, dst + 1, n);
    var m' := Copy(m1, src + 1, dst + 1, n);
    assert m' == AssignMem(m, dst, src, cap);
    forall i | 0 <= i < n
      ensures At(m', dst + 1 + i) == w[i]
    {
      assert At(m', dst + 1 + i) == At(m1, src + 1 + i) == At(m, src + 1 + i) == v[i];
    }
  }

  // ---- __str_concat ----

  function ConcatMem(m: Mem, dst: int, src: int): Mem {
    var room := 255 - At(m, dst);
    var n := if At(m, src) <= room then At(m, src) else room;
    if n < 0 then m else Copy(m[dst := Low(At(m, dst) + n)], src + 1, dst + At(m, dst) + 1, n)
  }

  lemma ConcatRuns(s: State) returns (n: nat)
    requires s.at == StrConcat && s.i == 0 && !s.done && 0 <= At(s.mem, s.edi) <= 255 && 0 <= At(s.mem, s.esi)
    ensures Back(s, Run(s, n)) && Run(s, n).out == s.out && Run(s, n).mem == ConcatMem(s.mem, s.edi, s.esi)
  {
    hide Copy, Run, Step;
    RunZero(s);
    var t;
    n, t := ConcatHead(s);
    n, t := Go(s, n, t, Cmp(ECX, EDX));
    n, t := Go(s, n, t, Jbe(NOk));
    if At(s.mem, s.esi) > 255 - At(s.mem, s.edi) {
      n, t := Go(s, n, t, MovR(ECX, EDX));
      n, t := Fall(s, n, t);
    }
    var k := ConcatTail(t);
    RunAdd(s, n, k);
    n := n + k;
  }

  lemma ConcatHead(s: State) returns (n: nat, t: State)
    requires s.at == StrConcat && s.i == 0 && !s.done
    ensures Run(s, n) == t
    ensures t == s.(i := 4, eax := At(s.mem, s.edi), ecx := At(s.mem, s.esi), edx := 255 - At(s.mem, s.edi))
  {
    hide Run, Step, Low;
    RunZero(s);
    n, t := Go(s, 0, s, MovzxB(EAX, EDI));
    n, t := Go(s, n, t, MovzxB(ECX, ESI));
    n, t := Go(s, n, t, MovI(EDX, 255));
    n, t := Go(s, n, t, SubR(EDX, EAX));
  }

  lemma ConcatTail(s: State) returns (n: nat)
    requires s.at == NOk && s.i == 0 && !s.done && s.ecx >= 0
    ensures Back(s, Run(s, n)) && Run(s, n).out == s.out
    ensures Run(s, n).mem == Copy(s.mem[s.edi := Low(s.eax + s.ecx)], s.esi + 1, s.edi + s.eax + 1, s.ecx)
  {
    hide Copy, Run, Step, Low;
    RunZero(s);
    var t;
    n, t := Go(s, 0, s, LeaSum);
    n, t := Go(s, n, t, AddR(EAX, ECX));
    n, t := Go(s, n, t, StoreAL(EDI));
    var k := ConcatCopy(t);
    RunAdd(s, n, k);
    n := n + k;
  }

  lemma ConcatCopy(s: State) returns (n: nat)
    requires s.at == NOk && s.i == 3 && !s.done && s.ecx >= 0
    ensures Back(s, Run(s, n)) && Run(s, n).out == s.out && Run(s, n).mem == Copy(s.mem, s.esi + 1, s.edx, s.ecx)
  {
    hide Copy, Run, Step, Low, At;
    RunZero(s);
    var t;
    n, t := Go(s, 0, s, Inc(ESI));
    n, t := Go(s, n, t, MovR(EDI, EDX));
    var k := ConcatEnd(t);
    RunAdd(s, n, k);
    n := n + k;
  }

  lemma ConcatEnd(s: State) returns (n: nat)
    requires s.at == NOk && s.i == 5 && !s.done && s.ecx >= 0
    ensures Back(s, Run(s, n)) && Run(s, n).out == s.out && Run(s, n).mem == Copy(s.mem, s.esi, s.edi, s.ecx)
  {
    hide Copy, Run, Step, Low, At;
    RunZero(s);
    var t;
    n, t := Go(s, 0, s, RepMovsb);
    n, t := Go(s, n, t, Ret);
  }

  /** The destination becomes the first 255 bytes of both strings in order. */
  lemma ConcatMeans(m: Mem, dst: int, src: int, u: Text, v: Text)
    requires IsText(u) && IsText(v) && Stored(m, dst, u) && Stored(m, src, v)
    requires dst + 255 < src || src + |v| < dst
    ensures Stored(ConcatMem(m, dst, src), dst, Cut(u + v, 255)) && IsText(Cut(u + v, 255))
    ensures Only(m, ConcatMem(m, dst, src), dst, dst + 255)
  {
    hide Copy;
    var w := Cut(u + v, 255);
    var k, n := |u|, |w| - |u|;
    var m1 := m[dst := Low(k + n)];
    CopyMeans(m1, src + 1, dst + k + 1, n);
    var m' := Copy(m1, src + 1, dst + k + 1, n);
    assert m' == ConcatMem(m, dst, src);
    forall i | 0 <= i < |w|
      ensures At(m', dst + 1 + i) == w[i]
    {
      if i >= k {
        assert At(m', dst + 1 + i) == At(m1, src + 1 + (i - k)) == v[i - k];
      } else {
        assert At(m', dst + 1 + i) == At(m1, dst + 1 + i) == u[i];
      }
    }
  }

  // ---- __str_cmp ----

  /** Lexicographic order of unsigned bytes, a proper prefix first. */
  function Lex(u: Text, v: Text): int {
    if u == [] then (if v == [] then 0 else -1)
    else if v == [] then 1
    else if u[0] < v[0] then -1
    else if u[0] > v[0] then 1
    else Lex(u[1..], v[1..])
  }

  /** At the loop head, with the rest of both strings ahead and both lengths saved. */
  predicate AtLoop(s: State, u: Text, v: Text, a: int, b: int, stk: seq<int>) {
    && s.at == CmpLoop && s.i == 0 && !s.done && IsText(u) && IsText(v) && s.stk == [b, a] + stk
    && s.ecx == (if |v| >= |u| then |u| else |v|) && a - |u| == b - |v|
    && (forall i :: 0 <= i < |u| ==> At(s.mem, s.esi + i) == u[i])
    && (forall i :: 0 <= i < |v| ==> At(s.mem, s.edi + i) == v[i])
  }

  /** The comparison has returned: a result, a balanced stack, untouched memory. */
  predicate Compared(s: State, s': State, r: int, stk: seq<int>) {
    s'.done && s'.eax == r && s'.stk == stk && s'.mem == s.mem && s'.out == s.out
  }

  lemma CompareEntry(s: State) returns (n: nat, t: State)
    requires s.at == StrCmp && s.i == 0 && !s.done
    ensures Run(s, n) == t && t.at == CmpLoop && t.i == 0 && !t.done && t.mem == s.mem && t.out == s.out
    ensures var a, b := At(s.mem, s.esi), At(s.mem, s.edi);
            t.ecx == (if b >= a then a else b) && t.esi == s.esi + 1 && t.edi == s.edi + 1 && t.stk == [b, a] + s.stk
  {
    hide Run, Step;
    RunZero(s);
    n, t := Go(s, 0, s, MovzxB(EAX, ESI));
    n, t := Go(s, n, t, MovzxB(EDX, EDI));
    n, t := Go(s, n, t, MovR(ECX, EAX));
    n, t := Go(s, n, t, Cmp(EDX, ECX));
    n, t := Go(s, n, t, Jae(HaveMin));
    if At(s.mem, s.edi) < At(s.mem, s.esi) {
      n, t := Go(s, n, t, MovR(ECX, EDX));
      n, t := Fall(s, n, t);
    }
    var k, r := SaveLengths(t);
    RunAdd(s, n, k);
    n, t := n + k, r;
  }

  lemma SaveLengths(s: State) returns (n: nat, t: State)
    requires s.at == HaveMin && s.i == 0 && !s.done
    ensures Run(s, n) == t && t.stk == [s.edx, s.eax] + s.stk
    ensures t == s.(at := CmpLoop, esi := s.esi + 1, edi := s.edi + 1, stk := t.stk)
  {
    hide Run, Step;
    RunZero(s);
    n, t := Go(s, 0, s, Push(EAX));
    n, t := Go(s, n, t, Push(EDX));
    n, t := Go(s, n, t, Inc(ESI));
    n, t := Go(s, n, t, Inc(EDI));
    n, t := Fall(s, n, t);
  }

  /** Both saved lengths popped, the lengths decide. */
  lemma CompareEnd(s: State, a: int, b: int, stk: seq<int>) returns (n: nat)
    requires s.at == PrefixEqual && s.i == 0 && !s.done && s.stk == [b, a] + stk
    ensures Compared(s, Run(s, n), if a < b then -1 else if a > b then 1 else 0, stk)
  {
    hide Run, Step;
    RunZero(s);
    var t;
    n, t := Go(s, 0, s, Pull(EDX));
    n, t := Go(s, n, t, Pull(EAX));
    assert t.stk == stk;
    n, t := Go(s, n, t, Cmp(EAX, EDX));
    n, t := Go(s, n, t, Jb(LenLess));
    if a < b {
      n, t := Go(s, n, t, MovI(EAX, -1));
    } else {
      n, t := Go(s, n, t, Ja(LenGreater));
      if a > b {
        n, t := Go(s, n, t, MovI(EAX, 1));
      } else {
        n, t := Go(s, n, t, MovI(EAX, 0));
      }
    }
    n, t := Go(s, n, t, Ret);
  }

  /** A byte decided. */
  lemma CompareDecided(s: State, less: bool, a: int, b: int, stk: seq<int>) returns (n: nat)
    requires s.at == (if less then ALess else AGreater) && s.i == 0 && !s.done && s.stk == [b, a] + stk
    ensures Compared(s, Run(s, n), if less then -1 else 1, stk)
  {
    hide Run, Step;
    RunZero(s);
    var t;
    n, t := Go(s, 0, s, Drop2);
    assert t.stk == stk;
    n, t := Go(s, n, t, MovI(EAX, if less then -1 else 1));
    n, t := Go(s, n, t, Ret);
  }

  lemma LowOf(x: int, b: int)
    requires 0 <= b < 256
    ensures Low(x - Low(x) + b) == b
  {
    var q := x / 256;
    assert x - x % 256 == 256 * q;
  }

  lemma LoopHead(s: State, u: Text, v: Text, a: int, b: int, stk: seq<int>)
    requires AtLoop(s, u, v, a, b, stk)
    ensures s.at == CmpLoop && s.i == 0 && !s.done && (s.ecx == 0 <==> u == [] || v == [])
    ensures u != [] && v != [] ==>
              At(s.mem, s.esi) == u[0] && At(s.mem, s.edi) == v[0] && 0 <= u[0] < 256 && 0 <= v[0] < 256
  {
    if u != [] && v != [] {
      assert At(s.mem, s.esi + 0) == u[0] && At(s.mem, s.edi + 0) == v[0];
    }
  }

  lemma LoopTest(s: State) returns (n: nat, t: State)
    requires s.at == CmpLoop && s.i == 0 && !s.done
    ensures Run(s, n) == t == s.(at := if s.ecx == 0 then PrefixEqual else CmpLoop, i := if s.ecx == 0 then 0
            else 2, fl := (s.ecx, 0))
  {
    hide Run, Step;
    RunZero(s);
    n, t := Go(s, 0, s, TestECX);
    n, t := Go(s, n, t, Jz(PrefixEqual));
  }

  lemma LoopBytes(s: State, x: int, y: int) returns (n: nat, t: State)
    requires s.at == CmpLoop && s.i == 2 && !s.done && 0 <= x < 256 && 0 <= y < 256
    requires At(s.mem, s.esi) == x && At(s.mem, s.edi) == y
    ensures Run(s, n) == t && t.fl == (x, y) && t.at == (if x < y then ALess else CmpLoop)
    ensures t.i == (if x < y then 0 else 6)
    ensures !t.done && t.mem == s.mem && t.stk == s.stk && t.out == s.out && t.esi == s.esi && t.edi == s.edi
    ensures t.ecx == s.ecx
  {
    hide Run, Step, Low;
    LowOf(s.eax, x);
    LowOf(s.edx, y);
    RunZero(s);
    n, t := Go(s, 0, s, LoadB(EAX, ESI));
    n, t := Go(s, n, t, LoadB(EDX, EDI));
    n, t := Go(s, n, t, CmpB);
    n, t := Go(s, n, t, Jb(ALess));
  }

  lemma LoopRest(s: State) returns (n: nat, t: State)
    requires s.at == CmpLoop && s.i == 6 && !s.done
    ensures Run(s, n) == t && !t.done && t.i == 0 && t.mem == s.mem && t.stk == s.stk && t.out == s.out
    ensures if s.fl.0 > s.fl.1 then t.at == AGreater
            else t.at == CmpLoop && t.esi == s.esi + 1 && t.edi == s.edi + 1 && t.ecx == s.ecx - 1
  {
    hide Run, Step, Low;
    RunZero(s);
    n, t := Go(s, 0, s, Ja(AGreater));
    if s.fl.0 <= s.fl.1 {
      var k, r := LoopNext(t);
      RunAdd(s, n, k);
      n, t := n + k, r;
    }
  }

  lemma LoopNext(s: State) returns (n: nat, t: State)
    requires s.at == CmpLoop && s.i == 7 && !s.done
    ensures Run(s, n) == t == s.(i := 0, esi := s.esi + 1, edi := s.edi + 1, ecx := s.ecx - 1)
  {
    hide Run, Step, Low, At;
    RunZero(s);
    n, t := Go(s, 0, s, Inc(ESI));
    n, t := Go(s, n, t, Inc(EDI));
    var k, r := LoopBack(t);
    RunAdd(s, n, k);
    n, t := n + k, r;
  }

  lemma LoopBack(s: State) returns (n: nat, t: State)
    requires s.at == CmpLoop && s.i == 9 && !s.done
    ensures Run(s, n) == t == s.(i := 0, ecx := s.ecx - 1)
  {
    hide Run, Step, Low, At;
    RunZero(s);
    n, t := Go(s, 0, s, Dec(ECX));
    n, t := Go(s, n, t, Jmp(CmpLoop));
  }

  /** One pass over the loop's comparison: to the end of a prefix, to a decision, or back to its head. */
  lemma CompareTurn(s: State, u: Text, v: Text, a: int, b: int, stk: seq<int>) returns (n: nat, t: State)
    requires AtLoop(s, u, v, a, b, stk)
    ensures Run(s, n) == t && !t.done && t.stk == s.stk && t.mem == s.mem && t.out == s.out
    ensures u == [] || v == [] ==> t.at == PrefixEqual && t.i == 0
    ensures u != [] && v != [] && u[0] < v[0] ==> t.at == ALess && t.i == 0
    ensures u != [] && v != [] && u[0] > v[0] ==> t.at == AGreater && t.i == 0
    ensures u != [] && v != [] && u[0] == v[0] ==>
              t.at == CmpLoop && t.i == 0 && t.esi == s.esi + 1 && t.edi == s.edi + 1 && t.ecx == s.ecx - 1
  {
    hide Run, Step, Block, Exec;
    LoopHead(s, u, v, a, b, stk);
    n, t := LoopTest(s);
    if u != [] && v != [] {
      var k, r := LoopBytes(t, u[0], v[0]);
      RunAdd(s, n, k);
      n, t := n + k, r;
      if u[0] >= v[0] {
        k, r := LoopRest(t);
        RunAdd(s, n, k);
        n, t := n + k, r;
      }
    }
  }

  lemma NextLoop(s: State, t: State, u: Text, v: Text, a: int, b: int, stk: seq<int>)
    requires AtLoop(s, u, v, a, b, stk) && u != [] && v != [] && t.at == CmpLoop && t.i == 0 && !t.done
    requires t.esi == s.esi + 1 && t.edi == s.edi + 1 && t.ecx == s.ecx - 1 && t.stk == s.stk && t.mem == s.mem
    ensures AtLoop(t, u[1..], v[1..], a, b, stk)
  {
    forall i | 0 <= i < |u[1..]|
      ensures At(t.mem, t.esi + i) == u[1..][i]
    {
      assert At(s.mem, s.esi + (i + 1)) == u[i + 1];
    }
    forall i | 0 <= i < |v[1..]|
      ensures At(t.mem, t.edi + i) == v[1..][i]
    {
      assert At(s.mem, s.edi + (i + 1)) == v[i + 1];
    }
  }

  lemma {:induction false} CompareLoop(s: State, u: Text, v: Text, a: int, b: int, stk: seq<int>) returns (n: nat)
    requires AtLoop(s, u, v, a, b, stk)
    ensures Compared(s, Run(s, n), Lex(u, v), stk)
    decreases |u|
  {
    hide Run;
    var k, t := CompareTurn(s, u, v, a, b, stk);
    var j;
    if u == [] || v == [] {
      j := CompareEnd(t, a, b, stk);
    } else if u[0] != v[0] {
      j := CompareDecided(t, u[0] < v[0], a, b, stk);
    } else {
      NextLoop(s, t, u, v, a, b, stk);
      j := CompareLoop(t, u[1..], v[1..], a, b, stk);
    }
    RunAdd(s, k, j);
    n := k + j;
  }

  /** The comparison routine computes lexicographic order, leaves memory alone and balances its stack on
      every exit. */
  lemma CompareRuns(s: State, u: Text, v: Text) returns (n: nat)
    requires s.at == StrCmp && s.i == 0 && !s.done && IsText(u) && IsText(v) && Stored(s.mem, s.esi, u)
    requires Stored(s.mem, s.edi, v)
    ensures Compared(s, Run(s, n), Lex(u, v), s.stk)
  {
    hide Run, Lex;
    var k, t := CompareEntry(s);
    var j := CompareLoop(t, u, v, |u|, |v|, s.stk);
    RunAdd(s, k, j);
    n := k + j;
  }

  /** The order is total: trichotomous, antisymmetric, transitive. */
  lemma {:induction false} LexOrder(u: Text, v: Text, w: Text)
    ensures Lex(u, v) in {-1, 0, 1} && Lex(v, u) == -Lex(u, v) && (Lex(u, v) == 0 <==> u == v)
    ensures Lex(u, v) <= 0 && Lex(v, w) <= 0 ==> Lex(u, w) <= 0 && (Lex(u, v) < 0 || Lex(v, w) < 0 ==> Lex(u, w) < 0)
    decreases |u| + |v| + |w|
  {
    if u != [] && v != [] && w != [] {
      LexOrder(u[1..], v[1..], w[1..]);
      assert u == [u[0]] + u[1..] && v == [v[0]] + v[1..];
    } else if u != [] && v != [] {
      LexOrder(u[1..], v[1..], w);
      assert u == [u[0]] + u[1..] && v == [v[0]] + v[1..];
    }
  }

  // ---- __str_write ----

  /** One byte written, or the return. */
  lemma WriteTurn(s: State, c: int) returns (n: nat, t: State)
    requires s.at == WLoop && s.i == 0 && !s.done && 0 <= c < 256 && (s.ecx != 0 ==> At(s.mem, s.esi) == c)
    ensures Run(s, n) == t && t.mem == s.mem && t.stk == s.stk
    ensures if s.ecx == 0 then t.done && t.out == s.out
            else
              !t.done && t.at == WLoop && t.i == 0 && t.out == s.out + [c] && t.esi == s.esi + 1 && t.ecx == s.ecx - 1
  {
    hide Run, Step, Low, At;
    RunZero(s);
    n, t := Go(s, 0, s, TestECX);
    n, t := Go(s, n, t, Jz(WDone));
    if s.ecx == 0 {
      n, t := Go(s, n, t, Ret);
    } else {
      var k, r := WriteByte(t, c);
      RunAdd(s, n, k);
      n, t := n + k, r;
    }
  }

  lemma WriteByte(s: State, c: int) returns (n: nat, t: State)
    requires s.at == WLoop && s.i == 2 && !s.done && 0 <= c < 256 && At(s.mem, s.esi) == c
    ensures Run(s, n) == t && t.mem == s.mem && t.stk == s.stk && !t.done && t.at == WLoop && t.i == 0
    ensures t.out == s.out + [c] && t.esi == s.esi + 1 && t.ecx == s.ecx - 1
  {
    hide Run, Step, Low, At;
    LowOf(s.eax, c);
    RunZero(s);
    n, t := Go(s, 0, s, LoadB(EAX, ESI));
    n, t := Go(s, n, t, CallPutc);
    var k, r := WriteNext(t);
    RunAdd(s, n, k);
    n, t := n + k, r;
  }

  lemma WriteNext(s: State) returns (n: nat, t: State)
    requires s.at == WLoop && s.i == 4 && !s.done
    ensures Run(s, n) == t == s.(i := 0, esi := s.esi + 1, ecx := s.ecx - 1)
  {
    hide Run, Step, Low, At;
    RunZero(s);
    n, t := Go(s, 0, s, Inc(ESI));
    n, t := Go(s, n, t, Dec(ECX));
    n, t := Go(s, n, t, Jmp(WLoop));
  }

  lemma {:induction false} WriteLoop(s: State, v: Text) returns (n: nat)
    requires s.at == WLoop && s.i == 0 && !s.done && s.ecx == |v| && IsText(v)
    requires forall i :: 0 <= i < |v| ==> At(s.mem, s.esi + i) == v[i]
    ensures Back(s, Run(s, n)) && Run(s, n).out == s.out + v && Run(s, n).mem == s.mem
    decreases |v|
  {
    hide Run, Step, Block, Exec, Low;
    var t;
    if v == [] {
      n, t := WriteTurn(s, 0);
      assert s.out + v == s.out;
    } else {
      assert At(s.mem, s.esi + 0) == v[0];
      n, t := WriteTurn(s, v[0]);
      forall i | 0 <= i < |v[1..]|
        ensures At(t.mem, t.esi + i) == v[1..][i]
      {
        assert At(s.mem, s.esi + (i + 1)) == v[i + 1];
      }
      var k := WriteLoop(t, v[1..]);
      RunAdd(s, n, k);
      n := n + k;
      assert s.out + [v[0]] + v[1..] == s.out + v;
    }
  }

  /** Every content byte is written in order, NUL bytes included. */
  lemma WriteRuns(s: State, v: Text) returns (n: nat)
    requires s.at == StrWrite && s.i == 0 && !s.done && IsText(v) && Stored(s.mem, s.esi, v)
    ensures Back(s, Run(s, n)) && Run(s, n).out == s.out + v && Run(s, n).mem == s.mem
  {
    hide Run, Step;
    RunZero(s);
    var t;
    n, t := Go(s, 0, s, MovzxB(ECX, ESI));
    n, t := Go(s, n, t, Inc(ESI));
    n, t := Fall(s, n, t);
    var k := WriteLoop(t, v);
    RunAdd(s, n, k);
    n := n + k;
  }

  // ---- literals ----

  /** An expression literal in .rodata: its length as the assembler truncates it to a byte, then its text. */
  function LitBlob(text: Text): Text { [|text| % 256] + text }

  /** The string a length-prefixed blob denotes. */
  function Denotes(blob: Text): Text {
    if blob == [] || !(0 <= blob[0] < |blob|) then [] else blob[1..1 + blob[0]]
  }

  /** A literal denotes its text exactly up to 255 bytes; beyond, the unclamped prefix cuts it. */
  lemma LiteralExact(text: Text)
    ensures Denotes(LitBlob(text)) == text[..|text| % 256]
    ensures Denotes(LitBlob(text)) == text <==> |text| <= 255
  {
    assert LitBlob(text)[1..] == text;
    assert Denotes(LitBlob(text)) == text[..|text| % 256];
    assert |text| >= 256 ==> |text[..|text| % 256]| < |text|;
  }
}
