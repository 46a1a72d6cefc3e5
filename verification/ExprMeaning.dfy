/** What parsed expressions mean: each operator token does its own arithmetic, each literal stands for itself,
    and operators group by the four levels of precedence. */
module ExprMeaning {
  import opened Int32
  import opened ExprParser
  import opened ExprGrammar
  import Syntax
  import Semantics
  import Operators

  /** A parsed tree as an expression of the language; `field` numbers a record's fields. Strings are left to the
      string code. */
  function ToExpr(field: (string, string) -> nat, t: Tree): Syntax.Option<Syntax.Expr>
    decreases t
  {
    match t
    case Int(n) => Syntax.Some(Syntax.IntLit(n))
    case Bool(b) => Syntax.Some(Syntax.BoolLit(b))
    case Char(c) => Syntax.Some(Syntax.CharLit(c))
    case Str(_) => Syntax.None
    case Name(x) => Syntax.Some(Syntax.Read(Syntax.Name(x)))
    case Field(x, f) => Syntax.Some(Syntax.Read(Syntax.Field(x, field(x, f))))
    case Index(x, idx) =>
      var i := ToExpr(field, idx);
      if i.Some? then Syntax.Some(Syntax.Read(Syntax.At(x, i.value))) else Syntax.None
    case IndexField(x, idx, f) =>
      var i := ToExpr(field, idx);
      if i.Some? then Syntax.Some(Syntax.Read(Syntax.AtField(x, i.value, field(x, f)))) else Syntax.None
    case Call(f, args) =>
      var es := ToExprs(field, args);
      if es.Some? then Syntax.Some(Syntax.Call(f, es.value)) else Syntax.None
    case Unary(op, e) =>
      var e' := ToExpr(field, e);
      if e'.None? || op.Len? then Syntax.None
      else
        var u := match op case Neg => Syntax.Neg case Not => Syntax.Not case Ord => Syntax.Ord case _ => Syntax.Chr;
        Syntax.Some(Syntax.Unop(u, e'.value))
    case Mul(op, l, r) =>
      var o := match op
        case OMul => Syntax.Mul
        case ODiv => Syntax.Div
        case OMod => Syntax.Mod
        case OAnd => Syntax.AndB;
      Both(o, ToExpr(field, l), ToExpr(field, r))
    case Add(op, l, r) =>
      var o := match op case OAdd => Syntax.Add case OSub => Syntax.Sub case OOr => Syntax.OrB;
      Both(o, ToExpr(field, l), ToExpr(field, r))
    case Relate(op, l, r) =>
      var o := match op
        case REq => Syntax.Eq
        case RNe => Syntax.Ne
        case RLt => Syntax.Lt
        case RLe => Syntax.Le
        case RGt => Syntax.Gt
        case RGe => Syntax.Ge;
      Both(o, ToExpr(field, l), ToExpr(field, r))
  }

  function Both(o: Syntax.BinOp, l: Syntax.Option<Syntax.Expr>,
    r: Syntax.Option<Syntax.Expr>): Syntax.Option<Syntax.Expr> {
    if l.Some? && r.Some? then Syntax.Some(Syntax.Binop(o, l.value, r.value)) else Syntax.None
  }

  function ToExprs(field: (string, string) -> nat, ts: seq<Tree>): Syntax.Option<Syntax.Exprs>
    decreases ts
  {
    if ts == [] then Syntax.Some(Syntax.Nil)
    else
      var e, es := ToExpr(field, ts[0]), ToExprs(field, ts[1..]);
      if e.Some? && es.Some? then Syntax.Some(Syntax.Cons(e.value, es.value)) else Syntax.None
  }

  /** Where expressions are evaluated. */
  datatype Place = Place(P: Syntax.Program, fuel: nat, env: Semantics.Env, st: Semantics.St,
    field: (string, string) -> nat)

  /** A token sequence parsed as a whole expression and evaluated. */
  function Value(c: Place, ts: seq<Tok>): Semantics.Res<Semantics.Value> {
    var p := Expr(ts);
    if p.Got? && p.rest == [] && ToExpr(c.field, p.e).Some?
    then Semantics.EvalE(c.P, c.fuel, c.env, c.st, ToExpr(c.field, p.e).value)
    else Semantics.TypeErr
  }

  // ---- parsing with literals ----

  /** A literal token and its tree. */
  predicate Literal(t: Tok, e: Tree) {
    match t
    case TInt(n) => 0 <= n <= 2147483647 && e == Int(n)
    case TTrue => e == Bool(true)
    case TFalse => e == Bool(false)
    case TStr(text) => |text| == 1 && 0 <= text[0] < 256 && e == Char(text[0])
    case TIdent(x) => e == Name(x)
    case _ => false
  }

  lemma LiteralPrints(t: Tok, e: Tree)
    requires Literal(t, e)
    ensures Writable(e) && Level(e) == 3 && Print(e) == [t] && (forall l: nat :: l <= 3 ==> PrintAt(e, l) == [t])
  {
    if t.TStr? { assert t.text == [t.text[0]]; }
  }

  /** A literal or a name alone. */
  lemma OneParses(t: Tok, e: Tree)
    requires Literal(t, e)
    ensures Expr([t]) == Got(e, [])
  {
    hide Expr;
    LiteralPrints(t, e);
    ExprInverts(e, []);
    assert [t] + [] == [t];
  }

  lemma {:induction false} NodePrints(t: Tok, l: Tree, r: Tree)
    requires Tightness(t) > 0 && Writable(l) && Writable(r)
    ensures var n := Node(t, l, r);
            && Writable(n) && Level(n) == Tightness(t) - 1
            && Print(n) == PrintAt(l, LeftLevel(t)) + ([t] + PrintAt(r, RightLevel(t)))
  {
    hide PrintAt, Writable, Print;
    if Tightness(t) == 3 {
      MulPrints(MulOf(t), l, r);
    } else if Tightness(t) == 2 {
      AddPrints(AddOf(t), l, r);
    } else {
      RelatePrints(t.rel, l, r);
    }
  }

  /** The levels from which operands stand without parentheses. */
  function LeftLevel(t: Tok): nat { if Tightness(t) == 3 then 2 else 1 }

  function RightLevel(t: Tok): nat { if Tightness(t) == 3 then 3 else if Tightness(t) == 2 then 2 else 1 }

  lemma {:induction false} MulPrints(o: MulOp, l: Tree, r: Tree)
    requires Writable(l) && Writable(r)
    ensures Writable(Mul(o, l, r)) && Print(Mul(o, l, r)) == PrintAt(l, 2) + ([MulTok(o)] + PrintAt(r, 3))
  {
    hide PrintAt;
  }

  lemma {:induction false} AddPrints(o: AddOp, l: Tree, r: Tree)
    requires Writable(l) && Writable(r)
    ensures Writable(Add(o, l, r)) && Print(Add(o, l, r)) == PrintAt(l, 1) + ([AddTok(o)] + PrintAt(r, 2))
  {
    hide PrintAt;
  }

  lemma {:induction false} RelatePrints(o: Rel, l: Tree, r: Tree)
    requires Writable(l) && Writable(r)
    ensures Writable(Relate(o, l, r)) && Print(Relate(o, l, r)) == PrintAt(l, 1) + ([TRel(o)] + PrintAt(r, 1))
  {
    hide PrintAt;
  }

  lemma Bare(e: Tree, l: nat)
    requires Level(e) >= l
    ensures PrintAt(e, l) == Print(e)
  {
    hide Print;
  }

  /** One operator between two literals. */
  lemma TwoParse(a: Tok, t: Tok, b: Tok, x: Tree, y: Tree)
    requires Literal(a, x) && Literal(b, y) && Tightness(t) > 0
    ensures Expr([a, t, b]) == Got(Node(t, x, y), [])
  {
    hide Expr, Node;
    LiteralPrints(a, x);
    LiteralPrints(b, y);
    NodePrints(t, x, y);
    assert Print(Node(t, x, y)) == [a, t, b];
    ExprInverts(Node(t, x, y), []);
    assert [a, t, b] + [] == [a, t, b];
  }

  /** Two operators: the tighter one first, the left one among equals, and a second relation is an error. */
  lemma ThreeParse(a: Tok, t: Tok, b: Tok, u: Tok, c: Tok, x: Tree, y: Tree, z: Tree)
    requires Literal(a, x) && Literal(b, y) && Literal(c, z) && Tightness(t) > 0 && Tightness(u) > 0
    requires !(t.TRel? && u.TRel?)
    ensures Expr([a, t, b, u, c])
            == Got(if Tightness(u) > Tightness(t) then Node(t, x, Node(u, y, z)) else Node(u, Node(t, x, y), z), [])
  {
    hide Expr, Node, Print, PrintAt, Writable, Literal;
    LiteralPrints(a, x);
    LiteralPrints(b, y);
    LiteralPrints(c, z);
    NodePrints(t, x, y);
    NodePrints(u, y, z);
    var e;
    if Tightness(u) > Tightness(t) {
      e := Node(t, x, Node(u, y, z));
      NodePrints(t, x, Node(u, y, z));
      Bare(Node(u, y, z), RightLevel(t));
    } else {
      e := Node(u, Node(t, x, y), z);
      NodePrints(u, Node(t, x, y), z);
      Bare(Node(t, x, y), LeftLevel(u));
    }
    assert Print(e) == [a, t, b, u, c];
    ExprInverts(e, []);
    assert [a, t, b, u, c] + [] == [a, t, b, u, c];
  }

  /** Parentheses come first, on the left and on the right. */
  lemma GroupLeft(a: Tok, t: Tok, b: Tok, u: Tok, c: Tok, x: Tree, y: Tree, z: Tree)
    requires Literal(a, x) && Literal(b, y) && Literal(c, z) && Tightness(t) > 0 && Tightness(u) > Tightness(t)
    ensures Expr([TLParen, a, t, b, TRParen, u, c]) == Got(Node(u, Node(t, x, y), z), [])
  {
    hide Expr, Node, Print, Writable, Literal, PrintAt;
    var n := Node(t, x, y);
    NodeBare(a, t, b, x, y);
    LiteralPrints(c, z);
    NodePrints(u, n, z);
    Parenthesized(n, LeftLevel(u), [a, t, b]);
    PrintedParses(Node(u, n, z), [TLParen, a, t, b, TRParen, u, c]);
  }

  lemma GroupRight(a: Tok, t: Tok, b: Tok, u: Tok, c: Tok, x: Tree, y: Tree, z: Tree)
    requires Literal(a, x) && Literal(b, y) && Literal(c, z) && Tightness(t) > 0 && Tightness(u) >= Tightness(t)
    requires Tightness(u) > 1
    ensures Expr([c, u, TLParen, a, t, b, TRParen]) == Got(Node(u, z, Node(t, x, y)), [])
  {
    hide Expr, Node, Print, Writable, Literal, PrintAt;
    var n := Node(t, x, y);
    NodeBare(a, t, b, x, y);
    LiteralPrints(c, z);
    NodePrints(u, z, n);
    Parenthesized(n, RightLevel(u), [a, t, b]);
    PrintedParses(Node(u, z, n), [c, u, TLParen, a, t, b, TRParen]);
  }

  lemma NodeBare(a: Tok, t: Tok, b: Tok, x: Tree, y: Tree)
    requires Literal(a, x) && Literal(b, y) && Tightness(t) > 0
    ensures var n := Node(t, x, y); Writable(n) && Level(n) == Tightness(t) - 1 && Print(n) == [a, t, b]
  {
    hide Node, Print, Writable, Literal, PrintAt;
    LiteralPrints(a, x);
    LiteralPrints(b, y);
    NodePrints(t, x, y);
  }

  lemma Parenthesized(e: Tree, l: nat, ts: seq<Tok>)
    requires Level(e) < l && Print(e) == ts
    ensures PrintAt(e, l) == [TLParen] + (ts + [TRParen])
  {
    hide Print;
  }

  /** Arguments stand in the order written; elements and fields are read as such. */
  lemma ShapesParse(f: string, g: string, a: Tok, b: Tok, x: Tree, y: Tree)
    requires Literal(a, x) && Literal(b, y)
    ensures Expr([TIdent(f), TLParen, TRParen]) == Got(Call(f, []), [])
    ensures Expr([TIdent(f), TLParen, a, TComma, b, TRParen]) == Got(Call(f, [x, y]), [])
    ensures Expr([TIdent(f), TLBracket, a, TRBracket]) == Got(Index(f, x), [])
    ensures Expr([TIdent(f), TDot, TIdent(g)]) == Got(Field(f, g), [])
    ensures Expr([TIdent(f), TLBracket, a, TRBracket, TDot, TIdent(g)]) == Got(IndexField(f, x, g), [])
  {
    hide Expr, Literal;
    LiteralPrints(a, x);
    LiteralPrints(b, y);
    PrintedParses(Call(f, []), [TIdent(f), TLParen, TRParen]);
    assert PrintArgs([x, y]) == Print(x) + ([TComma] + PrintArgs([x, y][1..])) && [x, y][1..] == [y];
    PrintedParses(Call(f, [x, y]), [TIdent(f), TLParen, a, TComma, b, TRParen]);
    PrintedParses(Index(f, x), [TIdent(f), TLBracket, a, TRBracket]);
    PrintedParses(Field(f, g), [TIdent(f), TDot, TIdent(g)]);
    PrintedParses(IndexField(f, x, g), [TIdent(f), TLBracket, a, TRBracket, TDot, TIdent(g)]);
  }

  lemma PrintedParses(e: Tree, ts: seq<Tok>)
    requires Writable(e) && Print(e) == ts
    ensures Expr(ts) == Got(e, [])
  {
    hide Expr, Print, Writable;
    ExprInverts(e, []);
    assert ts + [] == ts;
  }

  // ---- meaning ----

  lemma NodeMeans(c: Place, a: Tok, t: Tok, b: Tok, x: Tree, y: Tree, o: Syntax.BinOp)
    requires Literal(a, x) && Literal(b, y) && Tightness(t) > 0
    requires ToExpr(c.field, x).Some? && ToExpr(c.field, y).Some?
    requires ToExpr(c.field, Node(t, x, y)) == Both(o, ToExpr(c.field, x), ToExpr(c.field, y))
    ensures Value(c, [a, t, b]) == Semantics.EvalE(c.P, c.fuel, c.env, c.st,
                                                   Syntax.Binop(o, ToExpr(c.field, x).value, ToExpr(c.field, y).value))
  {
    hide Expr, Node, ToExpr, Literal, Semantics.EvalE;
    TwoParse(a, t, b, x, y);
  }

  lemma AtomMeans(c: Place, t: Tok, e: Tree)
    requires Literal(t, e) && ToExpr(c.field, e).Some?
    ensures Value(c, [t]) == Semantics.EvalE(c.P, c.fuel, c.env, c.st, ToExpr(c.field, e).value)
  {
    hide Expr, Semantics.EvalE, ToExpr, Literal;
    OneParses(t, e);
  }

  /** Literals and names stand for themselves. */
  lemma AtomsMean(c: Place, n: nat, ch: int, x: string)
    requires n <= 2147483647 && 0 <= ch < 256
    ensures Value(c, [TInt(n)]) == Semantics.Ok(Semantics.VI(n), c.st)
    ensures Value(c, [TTrue]) == Semantics.Ok(Semantics.VB(true), c.st)
    ensures Value(c, [TFalse]) == Semantics.Ok(Semantics.VB(false), c.st)
    ensures Value(c, [TStr([ch])]) == Semantics.Ok(Semantics.VC(ch), c.st)
    ensures Value(c, [TIdent(x)])
            == Semantics.EvalE(c.P, c.fuel, c.env, c.st, Syntax.Read(Syntax.Name(x)))
  {
    hide Value, Semantics.EvalE;
    AtomMeans(c, TInt(n), Int(n));
    AtomMeans(c, TTrue, Bool(true));
    AtomMeans(c, TFalse, Bool(false));
    AtomMeans(c, TStr([ch]), Char(ch));
    AtomMeans(c, TIdent(x), Name(x));
    Operators.LiteralsAre(c.P, c.fuel, c.env, c.st, n);
    Operators.LiteralsAre(c.P, c.fuel, c.env, c.st, ch);
  }

  lemma LiteralOperands(c: Place, a: nat, b: nat)
    requires a <= 2147483647 && b <= 2147483647
    ensures Operators.Operands(c.P, c.fuel, c.env, c.st, Syntax.IntLit(a), Syntax.IntLit(b), Semantics.VI(a),
                               Semantics.VI(b), c.st)
  {
    hide Semantics.EvalE;
    Operators.LiteralsAre(c.P, c.fuel, c.env, c.st, a);
    Operators.LiteralsAre(c.P, c.fuel, c.env, c.st, b);
  }

  /** `a + b`, `a - b`, `a * b`, `a div b` and `a mod b` between numbers. */
  lemma ArithmeticMeans(c: Place, a: nat, b: nat) returns (sum: int, difference: int, product: int, q: int, m: int)
    requires a <= 2147483647 && b <= 2147483647
    ensures Value(c, [TInt(a), TPlus, TInt(b)]) == Semantics.Ok(Semantics.VI(sum), c.st)
    ensures Operators.Wrapped(a + b, sum)
    ensures Value(c, [TInt(a), TMinus, TInt(b)]) == Semantics.Ok(Semantics.VI(difference), c.st)
    ensures Operators.Wrapped(a - b, difference)
    ensures Value(c, [TInt(a), TStar, TInt(b)]) == Semantics.Ok(Semantics.VI(product), c.st)
    ensures Operators.Wrapped(a * b, product)
    ensures b == 0 ==>
              Value(c, [TInt(a), TDiv, TInt(b)]) == Value(c, [TInt(a), TMod, TInt(b)]) == Semantics.Fault(c.st.out)
    ensures b != 0 ==>
              && Value(c, [TInt(a), TDiv, TInt(b)]) == Semantics.Ok(Semantics.VI(q), c.st)
              && Value(c, [TInt(a), TMod, TInt(b)]) == Semantics.Ok(Semantics.VI(m), c.st)
              && a == q * b + m && 0 <= m < b
  {
    hide Value, Semantics.EvalE, Operators.Wrapped, Operators.Operands;
    var x, y := Syntax.IntLit(a), Syntax.IntLit(b);
    NodeMeans(c, TInt(a), TPlus, TInt(b), Int(a), Int(b), Syntax.Add);
    NodeMeans(c, TInt(a), TMinus, TInt(b), Int(a), Int(b), Syntax.Sub);
    NodeMeans(c, TInt(a), TStar, TInt(b), Int(a), Int(b), Syntax.Mul);
    NodeMeans(c, TInt(a), TDiv, TInt(b), Int(a), Int(b), Syntax.Div);
    NodeMeans(c, TInt(a), TMod, TInt(b), Int(a), Int(b), Syntax.Mod);
    LiteralOperands(c, a, b);
    sum, difference, product, q, m := Operators.IntegersCompute(c.P, c.fuel, c.env, c.st, x, y, a, b, c.st);
  }

  /** The six relations between numbers. */
  lemma RelationsMean(c: Place, a: nat, b: nat)
    requires a <= 2147483647 && b <= 2147483647
    ensures Value(c, [TInt(a), TRel(REq), TInt(b)]) == Semantics.Ok(Semantics.VB(a == b), c.st)
    ensures Value(c, [TInt(a), TRel(RNe), TInt(b)]) == Semantics.Ok(Semantics.VB(a != b), c.st)
    ensures Value(c, [TInt(a), TRel(RLt), TInt(b)]) == Semantics.Ok(Semantics.VB(a < b), c.st)
    ensures Value(c, [TInt(a), TRel(RLe), TInt(b)]) == Semantics.Ok(Semantics.VB(a <= b), c.st)
    ensures Value(c, [TInt(a), TRel(RGt), TInt(b)]) == Semantics.Ok(Semantics.VB(a > b), c.st)
    ensures Value(c, [TInt(a), TRel(RGe), TInt(b)]) == Semantics.Ok(Semantics.VB(a >= b), c.st)
  {
    hide Value, Semantics.EvalE;
    NodeMeans(c, TInt(a), TRel(REq), TInt(b), Int(a), Int(b), Syntax.Eq);
    NodeMeans(c, TInt(a), TRel(RNe), TInt(b), Int(a), Int(b), Syntax.Ne);
    NodeMeans(c, TInt(a), TRel(RLt), TInt(b), Int(a), Int(b), Syntax.Lt);
    NodeMeans(c, TInt(a), TRel(RLe), TInt(b), Int(a), Int(b), Syntax.Le);
    NodeMeans(c, TInt(a), TRel(RGt), TInt(b), Int(a), Int(b), Syntax.Gt);
    NodeMeans(c, TInt(a), TRel(RGe), TInt(b), Int(a), Int(b), Syntax.Ge);
    Operators.LiteralsCompare(c.P, c.fuel, c.env, c.st, a, b);
  }

  function Truth(p: bool): Tok { if p then TTrue else TFalse }

  /** `and`, `or` and `not` between truth values. */
  lemma ConnectivesMean(c: Place, p: bool, q: bool)
    ensures Value(c, [Truth(p), TAnd, Truth(q)]) == Semantics.Ok(Semantics.VB(p && q), c.st)
    ensures Value(c, [Truth(p), TOr, Truth(q)]) == Semantics.Ok(Semantics.VB(p || q), c.st)
    ensures Value(c, [TNot, Truth(p)]) == Semantics.Ok(Semantics.VB(!p), c.st)
  {
    hide Value, Semantics.EvalE, Operators.Operands;
    var x, y := Syntax.BoolLit(p), Syntax.BoolLit(q);
    NodeMeans(c, Truth(p), TAnd, Truth(q), Bool(p), Bool(q), Syntax.AndB);
    NodeMeans(c, Truth(p), TOr, Truth(q), Bool(p), Bool(q), Syntax.OrB);
    TruthOperands(c, p, q);
    Operators.ConnectivesCompute(c.P, c.fuel, c.env, c.st, x, y, p, q, c.st);
    PrefixMeans(c, TNot, Truth(p), Bool(p), Not);
    var _, _ := Operators.UnaryComputes(c.P, c.fuel, c.env, c.st, x, Semantics.VB(p), c.st);
  }

  lemma TruthOperands(c: Place, p: bool, q: bool)
    ensures Semantics.EvalE(c.P, c.fuel, c.env, c.st, Syntax.BoolLit(p)) == Semantics.Ok(Semantics.VB(p), c.st)
    ensures Operators.Operands(c.P, c.fuel, c.env, c.st, Syntax.BoolLit(p), Syntax.BoolLit(q), Semantics.VB(p),
                               Semantics.VB(q), c.st)
  {
  }

  /** `op a` for a literal `a`. */
  lemma PrefixMeans(c: Place, t: Tok, a: Tok, x: Tree, op: Un)
    requires Literal(a, x) && ToExpr(c.field, x).Some? && ((t == TMinus && op == Neg) || (t == TNot && op == Not))
    ensures Value(c, [t, a]) == Semantics.EvalE(c.P, c.fuel, c.env, c.st, ToExpr(c.field, Unary(op, x)).value)
  {
    hide Expr, Semantics.EvalE;
    LiteralPrints(a, x);
    assert Print(Unary(op, x)) == [t, a];
    ExprInverts(Unary(op, x), []);
    assert [t, a] + [] == [t, a];
  }

  /** `ord(a)` and `chr(a)`. */
  lemma CallMeans(c: Place, t: Tok, a: Tok, x: Tree, op: Un)
    requires Literal(a, x) && ToExpr(c.field, x).Some? && ((t == TOrd && op == Ord) || (t == TChr && op == Chr))
    ensures Value(c, [t, TLParen, a, TRParen])
            == Semantics.EvalE(c.P, c.fuel, c.env, c.st, ToExpr(c.field, Unary(op, x)).value)
  {
    hide Expr, Semantics.EvalE;
    LiteralPrints(a, x);
    assert Print(Unary(op, x)) == [t, TLParen, a, TRParen];
    ExprInverts(Unary(op, x), []);
    assert [t, TLParen, a, TRParen] + [] == [t, TLParen, a, TRParen];
  }

  /** Unary minus and `chr`. */
  lemma MinusAndChrMean(c: Place, n: int)
    requires 0 <= n <= 2147483647
    ensures Value(c, [TMinus, TInt(n)]) == Semantics.Ok(Semantics.VI(-n), c.st)
    ensures Value(c, [TChr, TLParen, TInt(n), TRParen]) == Semantics.Ok(Semantics.VC(n % 256), c.st)
  {
    hide Value, Semantics.EvalE, Print, Expr;
    PrefixMeans(c, TMinus, TInt(n), Int(n), Neg);
    CallMeans(c, TChr, TInt(n), Int(n), Chr);
    Operators.LiteralsAre(c.P, c.fuel, c.env, c.st, n);
    var neg, code := Operators.UnaryComputes(c.P, c.fuel, c.env, c.st, Syntax.IntLit(n), Semantics.VI(n), c.st);
    Operators.WrappedOnce(-n, neg, -n);
    SameByte(n, code);
  }

  lemma SameByte(n: int, code: int)
    requires 0 <= code < 256 && (n - code) % 256 == 0
    ensures code == n % 256
  {
    ModUnique(n, 256, (n - code) / 256, code);
  }

  /** `ord` of a number, a character and a truth value. */
  lemma OrdMeans(c: Place, n: int, ch: int, p: bool)
    requires 0 <= n <= 2147483647 && 0 <= ch < 256
    ensures Value(c, [TOrd, TLParen, TInt(n), TRParen]) == Semantics.Ok(Semantics.VI(n), c.st)
    ensures Value(c, [TOrd, TLParen, TStr([ch]), TRParen]) == Semantics.Ok(Semantics.VI(ch), c.st)
    ensures Value(c, [TOrd, TLParen, Truth(p), TRParen]) == Semantics.Ok(Semantics.VI(if p then 1 else 0), c.st)
  {
    hide Value, Semantics.EvalE, Print, Expr;
    CallMeans(c, TOrd, TInt(n), Int(n), Ord);
    CallMeans(c, TOrd, TStr([ch]), Char(ch), Ord);
    CallMeans(c, TOrd, Truth(p), Bool(p), Ord);
    Operators.LiteralsAre(c.P, c.fuel, c.env, c.st, n);
    Operators.LiteralsAre(c.P, c.fuel, c.env, c.st, ch);
    TruthOperands(c, p, p);
    var _, _ := Operators.UnaryComputes(c.P, c.fuel, c.env, c.st, Syntax.IntLit(n), Semantics.VI(n), c.st);
    var _, _ := Operators.UnaryComputes(c.P, c.fuel, c.env, c.st, Syntax.CharLit(ch), Semantics.VC(ch), c.st);
    var _, _ := Operators.UnaryComputes(c.P, c.fuel, c.env, c.st, Syntax.BoolLit(p), Semantics.VB(p), c.st);
  }
}
