/** What each operator and each printing statement means, in plain arithmetic and bytes: first of the
    language's evaluator, then of the instructions generated for them. Words are written with their bounds. */
module Operators {
  import opened Int32
  import opened Syntax
  import opened Semantics
  import opened Machine
  import opened Codegen
  import opened Simulation
  import opened Instructions

  /** A 32-bit signed number. */
  predicate Word(x: int) { -2147483648 <= x <= 2147483647 }

  /** `r` is the word congruent to `x`. */
  predicate Wrapped(x: int, r: int) { Word(r) && (x - r) % 4294967296 == 0 }

  /** There is only one. */
  lemma WrappedOnce(x: int, r: int, q: int)
    requires Wrapped(x, r) && Wrapped(x, q)
    ensures r == q
  {
    var a, b := (x - r) / 4294967296, (x - q) / 4294967296;
    assert x - r == 4294967296 * a && x - q == 4294967296 * b;
    assert r - q == 4294967296 * (b - a);
  }

  /** `q` and `m` are quotient and remainder of `x` by `y`, truncated toward zero. */
  predicate Truncated(x: int, y: int, q: int, m: int) {
    x == q * y + m && (if y < 0 then y < m < -y else -y < m < y) && (m == 0 || (m < 0 <==> x < 0))
  }

  lemma TruncatedOnce(x: int, y: int, q: int, m: int, q': int, m': int)
    requires y != 0 && Truncated(x, y, q, m) && Truncated(x, y, q', m')
    ensures q == q' && m == m'
  {
    assert (q - q') * y == m' - m;
    if q > q' {
      Beyond(q - q', y);
    } else if q < q' {
      assert (q' - q) * y == m - m';
      Beyond(q' - q, y);
    }
  }

  lemma Beyond(k: int, y: int)
    requires k >= 1
    ensures y > 0 ==> k * y >= y
    ensures y < 0 ==> k * y <= y
  {
    if y > 0 { MulAtLeast(y, k); }
    if y < 0 {
      MulAtLeast(-y, k);
      assert (-y) * k == -(k * y);
    }
  }

  lemma WordIs(x: int)
    ensures Word(x) <==> IsWord(x)
    ensures Wrapped(x, Wrap(x))
  {
  }

  lemma TruncIs(x: int, y: int)
    requires Word(x) && Word(y) && y != 0
    ensures Truncated(x, y, TruncDiv(x, y), TruncMod(x, y))
    ensures Word(TruncMod(x, y)) && (Word(TruncDiv(x, y)) <==> !(x == -2147483648 && y == -1))
  {
    hide TruncDiv;
    QuotientInRange(x, y);
    assert y * TruncDiv(x, y) == TruncDiv(x, y) * y;
  }

  // ---- the evaluator ----

  /** The operands of `l op r`, evaluated from left to right. */
  ghost predicate Operands(P: Program, fuel: nat, env: Env, st: St, l: Expr, r: Expr, a: Value, b: Value, st2: St) {
    var x := EvalE(P, fuel, env, st, l);
    x.Ok? && x.val == a && EvalE(P, fuel, env, x.st, r) == Ok(b, st2)
  }

  lemma BinopIs(P: Program, fuel: nat, env: Env, st: St, op: BinOp, l: Expr, r: Expr, a: Value, b: Value, st2: St)
    requires Operands(P, fuel, env, st, l, r, a, b, st2)
    ensures EvalE(P, fuel, env, st, Binop(op, l, r)) == ApplyBin(op, a, b, st2)
  {
    hide ApplyBin;
  }

  /** Arithmetic on words: sums, differences and products wrap; division truncates, and faults on a zero divisor
      and on the one quotient that is no word. */
  lemma IntegersCompute(P: Program, fuel: nat, env: Env, st: St, l: Expr, r: Expr, x: int, y: int, st2: St)
    returns (sum: int, difference: int, product: int, q: int, m: int)
    requires Word(x) && Word(y) && Operands(P, fuel, env, st, l, r, VI(x), VI(y), st2)
    ensures EvalE(P, fuel, env, st, Binop(Add, l, r)) == Ok(VI(sum), st2) && Wrapped(x + y, sum)
    ensures EvalE(P, fuel, env, st, Binop(Sub, l, r)) == Ok(VI(difference), st2) && Wrapped(x - y, difference)
    ensures EvalE(P, fuel, env, st, Binop(Mul, l, r)) == Ok(VI(product), st2) && Wrapped(x * y, product)
    ensures y == 0 || (x == -2147483648 && y == -1) ==>
              EvalE(P, fuel, env, st, Binop(Div, l, r)) == EvalE(P, fuel, env, st, Binop(Mod, l, r)) == Fault(st2.out)
    ensures !(y == 0 || (x == -2147483648 && y == -1)) ==>
              && EvalE(P, fuel, env, st, Binop(Div, l, r)) == Ok(VI(q), st2) && Word(q)
              && EvalE(P, fuel, env, st, Binop(Mod, l, r)) == Ok(VI(m), st2) && Truncated(x, y, q, m)
  {
    hide EvalE, Operands, Wrap, TruncDiv, TruncMod, Wrapped, Truncated, Compare;
    BinopIs(P, fuel, env, st, Add, l, r, VI(x), VI(y), st2);
    BinopIs(P, fuel, env, st, Sub, l, r, VI(x), VI(y), st2);
    BinopIs(P, fuel, env, st, Mul, l, r, VI(x), VI(y), st2);
    BinopIs(P, fuel, env, st, Div, l, r, VI(x), VI(y), st2);
    BinopIs(P, fuel, env, st, Mod, l, r, VI(x), VI(y), st2);
    WordIs(x + y);
    WordIs(x - y);
    WordIs(x * y);
    sum, difference, product, q, m := Wrap(x + y), Wrap(x - y), Wrap(x * y), 0, 0;
    if y != 0 {
      TruncIs(x, y);
      q, m := TruncDiv(x, y), TruncMod(x, y);
    }
  }

  /** A relation, its value and the value of the relation's opposite. */
  ghost predicate Says(P: Program, fuel: nat, env: Env, st: St, l: Expr, r: Expr, st2: St, less: bool, equal: bool) {
    && EvalE(P, fuel, env, st, Binop(Lt, l, r)) == Ok(VB(less), st2)
    && EvalE(P, fuel, env, st, Binop(Ge, l, r)) == Ok(VB(!less), st2)
    && EvalE(P, fuel, env, st, Binop(Eq, l, r)) == Ok(VB(equal), st2)
    && EvalE(P, fuel, env, st, Binop(Ne, l, r)) == Ok(VB(!equal), st2)
    && EvalE(P, fuel, env, st, Binop(Le, l, r)) == Ok(VB(less || equal), st2)
    && EvalE(P, fuel, env, st, Binop(Gt, l, r)) == Ok(VB(!less && !equal), st2)
  }

  lemma RelationsAre(P: Program, fuel: nat, env: Env, st: St, l: Expr, r: Expr, a: Value, b: Value, st2: St)
    requires Operands(P, fuel, env, st, l, r, a, b, st2)
    ensures a.VI? && b.VI? ==> Says(P, fuel, env, st, l, r, st2, a.i < b.i, a.i == b.i)
    ensures a.VC? && b.VC? ==> Says(P, fuel, env, st, l, r, st2, a.c < b.c, a.c == b.c)
    ensures a.VB? && b.VB? ==> Says(P, fuel, env, st, l, r, st2, !a.b && b.b, a.b == b.b)
  {
    hide EvalE, Operands;
    BinopIs(P, fuel, env, st, Lt, l, r, a, b, st2);
    BinopIs(P, fuel, env, st, Le, l, r, a, b, st2);
    BinopIs(P, fuel, env, st, Eq, l, r, a, b, st2);
    BinopIs(P, fuel, env, st, Ne, l, r, a, b, st2);
    BinopIs(P, fuel, env, st, Gt, l, r, a, b, st2);
    BinopIs(P, fuel, env, st, Ge, l, r, a, b, st2);
  }

  /** The six relations on literals: `x op y` is the relation of the numbers. */
  lemma LiteralsCompare(P: Program, fuel: nat, env: Env, st: St, x: int, y: int)
    requires Word(x) && Word(y)
    ensures EvalE(P, fuel, env, st, Binop(Lt, IntLit(x), IntLit(y))) == Ok(VB(x < y), st)
    ensures EvalE(P, fuel, env, st, Binop(Le, IntLit(x), IntLit(y))) == Ok(VB(x <= y), st)
    ensures EvalE(P, fuel, env, st, Binop(Gt, IntLit(x), IntLit(y))) == Ok(VB(x > y), st)
    ensures EvalE(P, fuel, env, st, Binop(Ge, IntLit(x), IntLit(y))) == Ok(VB(x >= y), st)
    ensures EvalE(P, fuel, env, st, Binop(Eq, IntLit(x), IntLit(y))) == Ok(VB(x == y), st)
    ensures EvalE(P, fuel, env, st, Binop(Ne, IntLit(x), IntLit(y))) == Ok(VB(x != y), st)
  {
    assert Operands(P, fuel, env, st, IntLit(x), IntLit(y), VI(x), VI(y), st) by { LiteralsAre(P, fuel, env, st, x);
           LiteralsAre(P, fuel, env, st, y); }
    hide EvalE, Operands;
    RelationsAre(P, fuel, env, st, IntLit(x), IntLit(y), VI(x), VI(y), st);
  }

  lemma LiteralsAre(P: Program, fuel: nat, env: Env, st: St, x: int)
    ensures Word(x) ==> EvalE(P, fuel, env, st, IntLit(x)) == Ok(VI(x), st)
    ensures EvalE(P, fuel, env, st, BoolLit(true)) == Ok(VB(true), st)
    ensures EvalE(P, fuel, env, st, BoolLit(false)) == Ok(VB(false), st)
    ensures 0 <= x < 256 ==> EvalE(P, fuel, env, st, CharLit(x)) == Ok(VC(x), st)
  {
  }

  /** `and` and `or`, both sides evaluated. */
  lemma ConnectivesCompute(P: Program, fuel: nat, env: Env, st: St, l: Expr, r: Expr, p: bool, q: bool, st2: St)
    requires Operands(P, fuel, env, st, l, r, VB(p), VB(q), st2)
    ensures EvalE(P, fuel, env, st, Binop(AndB, l, r)) == Ok(VB(p && q), st2)
    ensures EvalE(P, fuel, env, st, Binop(OrB, l, r)) == Ok(VB(p || q), st2)
  {
    hide EvalE, Operands;
    BinopIs(P, fuel, env, st, AndB, l, r, VB(p), VB(q), st2);
    BinopIs(P, fuel, env, st, OrB, l, r, VB(p), VB(q), st2);
  }

  lemma UnopIs(P: Program, fuel: nat, env: Env, st: St, op: UnOp, e: Expr, a: Value, st1: St)
    requires EvalE(P, fuel, env, st, e) == Ok(a, st1)
    ensures EvalE(P, fuel, env, st, Unop(op, e)) == ApplyUn(op, a, st1)
  {
    hide ApplyUn;
  }

  /** Negation wraps; `chr` takes the number modulo 256; `ord` gives a character's code, 0 or 1 for a boolean,
      and a number itself. */
  lemma UnaryComputes(P: Program, fuel: nat, env: Env, st: St, e: Expr, a: Value, st1: St) returns (neg: int, c: int)
    requires EvalE(P, fuel, env, st, e) == Ok(a, st1)
    ensures a.VI? ==> EvalE(P, fuel, env, st, Unop(Neg, e)) == Ok(VI(neg), st1) && Wrapped(-a.i, neg)
    ensures a.VI? ==> EvalE(P, fuel, env, st, Unop(Chr, e)) == Ok(VC(c), st1) && 0 <= c < 256 && (a.i - c) % 256 == 0
    ensures a.VI? ==> EvalE(P, fuel, env, st, Unop(Ord, e)) == Ok(VI(a.i), st1)
    ensures a.VC? ==> EvalE(P, fuel, env, st, Unop(Ord, e)) == Ok(VI(a.c), st1)
    ensures a.VB? ==> EvalE(P, fuel, env, st, Unop(Ord, e)) == Ok(VI(if a.b then 1 else 0), st1)
    ensures a.VB? ==> EvalE(P, fuel, env, st, Unop(Not, e)) == Ok(VB(!a.b), st1)
  {
    hide EvalE, Wrap, Unsigned;
    UnopIs(P, fuel, env, st, Neg, e, a, st1);
    UnopIs(P, fuel, env, st, Not, e, a, st1);
    UnopIs(P, fuel, env, st, Ord, e, a, st1);
    UnopIs(P, fuel, env, st, Chr, e, a, st1);
    neg, c := 0, 0;
    if a.VI? {
      WordIs(-a.i);
      neg, c := Wrap(-a.i), Unsigned(a.i) % 256;
      ByteIs(a.i);
    }
  }

  lemma ByteIs(i: int)
    ensures 0 <= Unsigned(i) % 256 < 256 && (i - Unsigned(i) % 256) % 256 == 0
  {
    var k := i / 4294967296;
    assert i == 4294967296 * k + Unsigned(i);
    assert Unsigned(i) == 256 * (Unsigned(i) / 256) + Unsigned(i) % 256;
    assert i - Unsigned(i) % 256 == 256 * (16777216 * k + Unsigned(i) / 256);
    ModUnique(i - Unsigned(i) % 256, 256, 16777216 * k + Unsigned(i) / 256, 0);
  }

  // ---- statements ----

  /** What is printed: a number as a number, a character as its byte, a boolean as TRUE or FALSE, a literal as
      its bytes, the end of a line as the byte 10. */
  lemma WritesPrint(P: Program, fuel: nat, env: Env, st: St, e: Expr, a: Value, st1: St, text: seq<int>)
    requires EvalE(P, fuel, env, st, e) == Ok(a, st1)
    ensures a.VI? ==> EvalS(P, fuel, env, st, WriteVal(TInt, e)) == Ok((), st1.(out := st1.out + [EInt(a.i)]))
    ensures a.VC? ==> EvalS(P, fuel, env, st, WriteVal(TChar, e)) == Ok((), st1.(out := st1.out + [EByte(a.c)]))
    ensures a == VB(true) ==>
              EvalS(P, fuel, env, st, WriteVal(TBool, e)) == Ok((), st1.(out := st1.out + [EText([84, 82, 85, 69])]))
    ensures a == VB(false) ==>
              EvalS(P, fuel, env, st, WriteVal(TBool, e))
                == Ok((), st1.(out := st1.out + [EText([70, 65, 76, 83, 69])]))
    ensures EvalS(P, fuel, env, st, WriteLit(text)) == Ok((), st.(out := st.out + [EText(text)]))
    ensures EvalS(P, fuel, env, st, WriteLn) == Ok((), st.(out := st.out + [EByte(10)]))
  {
    hide EvalE;
  }

  /** A condition chooses its branch, and keeps a loop going. */
  lemma ConditionsChoose(P: Program, fuel: nat, env: Env, st: St, c: Expr, p: bool, st1: St, t: Stmt, e: Stmt)
    requires EvalE(P, fuel, env, st, c) == Ok(VB(p), st1)
    ensures EvalS(P, fuel, env, st, If(c, t)) == if p then EvalS(P, fuel, env, st1, t) else Ok((), st1)
    ensures EvalS(P, fuel, env, st, IfElse(c, t, e)) == if p then EvalS(P, fuel, env, st1, t)
            else EvalS(P, fuel, env, st1, e)
    ensures !p ==> EvalS(P, fuel, env, st, While(c, t)) == Ok((), st1)
    ensures p && EvalS(P, fuel, env, st1, t).Ok? && fuel > 0 ==>
              EvalS(P, fuel, env, st, While(c, t))
                == EvalS(P, fuel - 1, env, EvalS(P, fuel, env, st1, t).st, While(c, t))
  {
    hide EvalE;
  }

  // ---- the instructions ----

  /** `cmp eax, ecx; setcc al; movzx eax, al` leaves 1 exactly if the numbers are so related. */
  lemma SetccComputes(img: Image, s: State, op: BinOp, x: int, y: int)
    requires Sits(img.code, s.pc, [Cmp, SetAL(op), MovzxAL]) && s.status == Running
    requires s.eax == I(x) && s.ecx == I(y) && Word(x) && Word(y)
    ensures var r := Run(img, s, 3).eax;
            && (op == Lt ==> r == I(if x < y then 1 else 0)) && (op == Le ==> r == I(if x <= y then 1 else 0))
            && (op == Gt ==> r == I(if x > y then 1 else 0)) && (op == Ge ==> r == I(if x >= y then 1 else 0))
            && (op == Eq ==> r == I(if x == y then 1 else 0)) && (op == Ne ==> r == I(if x != y then 1 else 0))
  {
    hide Sits, Run;
    if IsRel(op) {
      assert Combine(op) == [Cmp, SetAL(op), MovzxAL];
      RelOp(img, s, op, x, y);
    }
  }

  /** The same for the operators of one instruction, and for `cdq; idiv ecx`. */
  lemma AluComputes(img: Image, s: State, op: BinOp, x: int, y: int) returns (r: int)
    requires op == Add || op == Sub || op == Mul
    requires Sits(img.code, s.pc, Combine(op)) && s.status == Running && s.eax == I(x) && s.ecx == I(y)
    ensures Run(img, s, 1).eax == I(r)
    ensures Wrapped(if op == Add then x + y else if op == Sub then x - y else x * y, r)
  {
    hide Sits, Run, Wrapped, Wrap;
    StepAt(img, s, s.pc, Combine(op), 0);
    var v := if op == Add then x + y else if op == Sub then x - y else x * y;
    WordIs(v);
    r := Wrap(v);
  }

  /** What the two fixed texts and the end of a line put out. */
  lemma HelpersPrint(img: Image, s: State)
    requires s.status == Running
    ensures s.eax == TB(true) ==> Exec(img, CallH(Puts), s).out == s.out + [EText([84, 82, 85, 69])]
    ensures s.eax == TB(false) ==> Exec(img, CallH(Puts), s).out == s.out + [EText([70, 65, 76, 83, 69])]
    ensures forall i :: s.eax == I(i) ==> Exec(img, CallH(PutInt), s).out == s.out + [EInt(i)]
    ensures forall c :: 0 <= c < 256 && s.eax == I(c) ==> Exec(img, CallH(Putc), s).out == s.out + [EByte(c)]
  {
  }
}
