/** The expression parser: a four-level precedence ladder over the token stream. Relations bind weakest
    and do not chain, then `+ - or`, then `* div mod and`, then unary `-` and `not`; the binary levels
    are left-associative (section 6.7 of ISO 7185, with unary minus at factor level). */
module ExprParser {
  import opened Int32

  datatype Rel = REq | RNe | RLt | RLe | RGt | RGe
  datatype AddOp = OAdd | OSub | OOr
  datatype MulOp = OMul | ODiv | OMod | OAnd

  datatype Tok =
    | TPlus | TMinus | TOr | TStar | TDiv | TMod | TAnd | TNot
    | TRel(rel: Rel)
    | TTrue | TFalse | TOrd | TChr | TLength
    | TInt(n: int) | TIdent(name: string) | TStr(text: seq<int>)
    | TLParen | TRParen | TLBracket | TRBracket | TComma | TDot
    | TOther(code: int)

  datatype Un = Neg | Not | Ord | Chr | Len

  /** A designator: a name or an array element, optionally a field of it. */
  datatype Tree =
    | Int(n: int) | Bool(b: bool) | Char(c: int) | Str(text: seq<int>)
    | Name(x: string) | Index(x: string, idx: Tree)
    | Field(x: string, f: string) | IndexField(x: string, idx: Tree, f: string)
    | Call(f: string, args: seq<Tree>)
    | Unary(op: Un, e: Tree)
    | Mul(mop: MulOp, l: Tree, r: Tree)
    | Add(aop: AddOp, l: Tree, r: Tree)
    | Relate(rop: Rel, l: Tree, r: Tree)

  // ---- tokens of operators ----

  function MulTok(o: MulOp): Tok {
    match o case OMul => TStar case ODiv => TDiv case OMod => TMod case OAnd => TAnd
  }

  function AddTok(o: AddOp): Tok {
    match o case OAdd => TPlus case OSub => TMinus case OOr => TOr
  }

  predicate IsMul(t: Tok) { t.TStar? || t.TDiv? || t.TMod? || t.TAnd? }

  predicate IsAdd(t: Tok) { t.TPlus? || t.TMinus? || t.TOr? }

  function MulOf(t: Tok): (o: MulOp)
    requires IsMul(t)
    ensures MulTok(o) == t
  {
    if t.TStar? then OMul else if t.TDiv? then ODiv else if t.TMod? then OMod else OAnd
  }

  function AddOf(t: Tok): (o: AddOp)
    requires IsAdd(t)
    ensures AddTok(o) == t
  {
    if t.TPlus? then OAdd else if t.TMinus? then OSub else OOr
  }

  // ---- the grammar as functions ----

  datatype Parse = Fail | Got(e: Tree, rest: seq<Tok>)

  predicate At(ts: seq<Tok>, t: Tok) { ts != [] && ts[0] == t }

  function Factor(ts: seq<Tok>): (p: Parse)
    ensures p.Got? ==> |p.rest| < |ts|
    decreases |ts|, 0
  {
    if ts == [] then Fail
    else match ts[0]
      case TMinus => Prefixed(Neg, ts)
      case TNot => Prefixed(Not, ts)
      case TTrue => Got(Bool(true), ts[1..])
      case TFalse => Got(Bool(false), ts[1..])
      case TStr(text) => Got(if |text| == 1 then Char(text[0]) else Str(text), ts[1..])
      case TOrd => Builtin(Ord, ts[1..])
      case TChr => Builtin(Chr, ts[1..])
      case TLength => Builtin(Len, ts[1..])
      case TInt(n) => Got(Int(n), ts[1..])
      case TIdent(x) => AfterName(x, ts[1..])
      case TLParen =>
        var p := Expr(ts[1..]);
        if p.Got? && At(p.rest, TRParen) then Got(p.e, p.rest[1..]) else Fail
      case _ => Fail
  }

  function Prefixed(op: Un, ts: seq<Tok>): (p: Parse)
    requires ts != []
    ensures p.Got? ==> |p.rest| < |ts|
    decreases |ts| - 1, 1
  {
    var p := Factor(ts[1..]);
    if p.Got? then Got(Unary(op, p.e), p.rest) else Fail
  }

  function Builtin(op: Un, ts: seq<Tok>): (p: Parse)
    ensures p.Got? ==> |p.rest| < |ts|
    decreases |ts|, 0
  {
    if !At(ts, TLParen) then Fail
    else
      var p := Expr(ts[1..]);
      if p.Got? && At(p.rest, TRParen) then Got(Unary(op, p.e), p.rest[1..]) else Fail
  }

  /** After an identifier: a call, an element, a field, or the name alone. */
  function AfterName(x: string, ts: seq<Tok>): (p: Parse)
    ensures p.Got? ==> |p.rest| <= |ts|
    decreases |ts|, 0
  {
    if At(ts, TLParen) then
      if At(ts[1..], TRParen) then Got(Call(x, []), ts[2..]) else Args(x, [], ts[1..])
    else if At(ts, TLBracket) then
      var p := Expr(ts[1..]);
      if !p.Got? || !At(p.rest, TRBracket) then Fail
      else if At(p.rest[1..], TDot) then
        if |p.rest| > 2 && p.rest[2].TIdent? then Got(IndexField(x, p.e, p.rest[2].name), p.rest[3..]) else Fail
      else Got(Index(x, p.e), p.rest[1..])
    else if At(ts, TDot) then
      if |ts| > 1 && ts[1].TIdent? then Got(Field(x, ts[1].name), ts[2..]) else Fail
    else Got(Name(x), ts)
  }

  /** One or more arguments separated by commas, and the closing parenthesis. */
  function Args(f: string, acc: seq<Tree>, ts: seq<Tok>): (p: Parse)
    ensures p.Got? ==> |p.rest| < |ts|
    decreases |ts|, 7
  {
    var p := Expr(ts);
    if !p.Got? then Fail
    else if At(p.rest, TComma) then Args(f, acc + [p.e], p.rest[1..])
    else if At(p.rest, TRParen) then Got(Call(f, acc + [p.e]), p.rest[1..])
    else Fail
  }

  function Term(ts: seq<Tok>): (p: Parse)
    ensures p.Got? ==> |p.rest| < |ts|
    decreases |ts|, 2
  {
    var p := Factor(ts);
    if p.Got? then TermRest(p.e, p.rest) else Fail
  }

  function TermRest(lhs: Tree, ts: seq<Tok>): (p: Parse)
    ensures p.Got? ==> |p.rest| <= |ts|
    decreases |ts|, 1
  {
    if ts == [] || !IsMul(ts[0]) then Got(lhs, ts)
    else
      var p := Factor(ts[1..]);
      if p.Got? then TermRest(Mul(MulOf(ts[0]), lhs, p.e), p.rest) else Fail
  }

  function Simple(ts: seq<Tok>): (p: Parse)
    ensures p.Got? ==> |p.rest| < |ts|
    decreases |ts|, 4
  {
    var p := Term(ts);
    if p.Got? then SimpleRest(p.e, p.rest) else Fail
  }

  function SimpleRest(lhs: Tree, ts: seq<Tok>): (p: Parse)
    ensures p.Got? ==> |p.rest| <= |ts|
    decreases |ts|, 3
  {
    if ts == [] || !IsAdd(ts[0]) then Got(lhs, ts)
    else
      var p := Term(ts[1..]);
      if p.Got? then SimpleRest(Add(AddOf(ts[0]), lhs, p.e), p.rest) else Fail
  }

  /** A second relation right after the first is an error. */
  function Expr(ts: seq<Tok>): (p: Parse)
    ensures p.Got? ==> |p.rest| < |ts| && (p.rest == [] || !p.rest[0].TRel?)
    decreases |ts|, 6
  {
    var p := Simple(ts);
    if !p.Got? then Fail
    else if p.rest == [] || !p.rest[0].TRel? then p
    else
      var q := Simple(p.rest[1..]);
      if !q.Got? || (q.rest != [] && q.rest[0].TRel?) then Fail
      else Got(Relate(p.rest[0].rel, p.e, q.e), q.rest)
  }

  // ---- printing with as few parentheses as the ladder allows ----

  function Level(e: Tree): nat {
    match e
    case Relate(_, _, _) => 0
    case Add(_, _, _) => 1
    case Mul(_, _, _) => 2
    case _ => 3
  }

  function Print(e: Tree): seq<Tok>
    decreases e, 0
  {
    match e
    case Int(n) => [TInt(n)]
    case Bool(b) => [if b then TTrue else TFalse]
    case Char(c) => [TStr([c])]
    case Str(text) => [TStr(text)]
    case Name(x) => [TIdent(x)]
    case Index(x, idx) => [TIdent(x), TLBracket] + (Print(idx) + [TRBracket])
    case Field(x, f) => [TIdent(x), TDot, TIdent(f)]
    case IndexField(x, idx, f) => [TIdent(x), TLBracket] + (Print(idx) + [TRBracket, TDot, TIdent(f)])
    case Call(f, args) => [TIdent(f), TLParen] + PrintArgs(args)
    case Unary(Neg, e1) => [TMinus] + PrintAt(e1, 3)
    case Unary(Not, e1) => [TNot] + PrintAt(e1, 3)
    case Unary(op, e1) => [BuiltinTok(op), TLParen] + (Print(e1) + [TRParen])
    case Mul(op, l, r) => PrintAt(l, 2) + ([MulTok(op)] + PrintAt(r, 3))
    case Add(op, l, r) => PrintAt(l, 1) + ([AddTok(op)] + PrintAt(r, 2))
    case Relate(op, l, r) => PrintAt(l, 1) + ([TRel(op)] + PrintAt(r, 1))
  }

  function BuiltinTok(op: Un): Tok { if op.Ord? then TOrd else if op.Chr? then TChr else TLength }

  function PrintArgs(args: seq<Tree>): seq<Tok>
    decreases args, 0
  {
    if args == [] then [TRParen]
    else if |args| == 1 then Print(args[0]) + [TRParen]
    else Print(args[0]) + ([TComma] + PrintArgs(args[1..]))
  }

  /** Parentheses where a tree of a weaker level stands. */
  function PrintAt(e: Tree, lvl: nat): seq<Tok>
    decreases e, 1
  {
    if Level(e) < lvl then [TLParen] + (Print(e) + [TRParen]) else Print(e)
  }

  /** Trees the language can express: literals in range, and a one-character string is a character. */
  predicate Writable(e: Tree) {
    match e
    case Int(n) => 0 <= n <= MAX
    case Char(c) => 0 <= c < 256
    case Str(text) => |text| != 1
    case Index(_, idx) => Writable(idx)
    case IndexField(_, idx, _) => Writable(idx)
    case Call(_, args) => forall i :: 0 <= i < |args| ==> Writable(args[i])
    case Unary(_, e1) => Writable(e1)
    case Mul(_, l, r) => Writable(l) && Writable(r)
    case Add(_, l, r) => Writable(l) && Writable(r)
    case Relate(_, l, r) => Writable(l) && Writable(r)
    case _ => true
  }

  // ---- parsing inverts printing ----

  /** What may follow an expression printed at a level without being taken as part of it. */
  predicate EndsFactor(ts: seq<Tok>) {
    ts != [] ==> !ts[0].TLParen? && !ts[0].TLBracket? && !ts[0].TDot?
  }

  predicate EndsTerm(ts: seq<Tok>) { EndsFactor(ts) && (ts != [] ==> !IsMul(ts[0])) }

  predicate EndsSimple(ts: seq<Tok>) { EndsTerm(ts) && (ts != [] ==> !IsAdd(ts[0])) }

  predicate EndsExpr(ts: seq<Tok>) { EndsSimple(ts) && (ts != [] ==> !ts[0].TRel?) }

  /** Exactly the tokens that would continue it may not: operators, and what opens a call, an index or a field. */
  lemma FollowsAre(t: Tok, rest: seq<Tok>)
    ensures EndsExpr([]) && (EndsExpr([t] + rest) <==>
              t !in {TPlus, TMinus, TOr, TStar, TDiv, TMod, TAnd, TLParen, TLBracket, TDot}
              && t !in {TRel(REq), TRel(RNe), TRel(RLt), TRel(RLe), TRel(RGt), TRel(RGe)})
  {
    assert ([t] + rest)[0] == t;
    if t.TRel? {
      match t.rel {
        case REq =>
        case RNe =>
        case RLt =>
        case RLe =>
        case RGt =>
        case RGe =>
      }
    }
  }

  lemma {:induction false} FactorInverts(e: Tree, rest: seq<Tok>)
    requires Writable(e) && EndsFactor(rest)
    ensures Factor(PrintAt(e, 3) + rest) == Got(e, rest)
    decreases e, if Level(e) < 3 then 6 else 2
  {
    if Level(e) < 3 {
      ExprInverts(e, [TRParen] + rest);
      GroupParses(Print(e), e, rest);
    } else {
      PrimaryInverts(e, rest);
    }
  }

  lemma {:induction false} PrimaryInverts(e: Tree, rest: seq<Tok>)
    requires Writable(e) && EndsFactor(rest) && Level(e) == 3
    ensures Factor(Print(e) + rest) == Got(e, rest)
    decreases e, 1
  {
    hide Expr, Args;
    var ts := Print(e) + rest;
    match e
    case Int(_) => assert ts[1..] == rest;
    case Bool(_) => assert ts[1..] == rest;
    case Char(_) => assert ts[1..] == rest;
    case Str(_) => assert ts[1..] == rest;
    case Name(_) => assert ts[1..] == rest;
    case Field(x, f) => assert ts[1..] == [TDot, TIdent(f)] + rest && ts[1..][2..] == rest;
    case Index(x, idx) => IndexInverts(e, rest);
    case IndexField(x, idx, f) => IndexInverts(e, rest);
    case Call(f, args) => CallInverts(f, args, rest);
    case Unary(op, e1) => UnaryInverts(op, e1, rest);
  }

  /** Bracketed input, given how its inside parses. */
  lemma IndexParses(x: string, inner: seq<Tok>, idx: Tree, rest: seq<Tok>)
    requires EndsFactor(rest) && Expr(inner + ([TRBracket] + rest)) == Got(idx, [TRBracket] + rest)
    ensures Factor(([TIdent(x), TLBracket] + (inner + [TRBracket])) + rest) == Got(Index(x, idx), rest)
  {
    hide Expr;
    var ts := ([TIdent(x), TLBracket] + (inner + [TRBracket])) + rest;
    assert ts[1..] == [TLBracket] + (inner + ([TRBracket] + rest)) && ts[1..][1..] == inner + ([TRBracket] + rest);
    assert ([TRBracket] + rest)[1..] == rest;
  }

  lemma IndexFieldParses(x: string, f: string, inner: seq<Tok>, idx: Tree, rest: seq<Tok>)
    requires Expr(inner + ([TRBracket, TDot, TIdent(f)] + rest)) == Got(idx, [TRBracket, TDot, TIdent(f)] + rest)
    ensures Factor(([TIdent(x), TLBracket] + (inner + [TRBracket, TDot, TIdent(f)])) + rest)
            == Got(IndexField(x, idx, f), rest)
  {
    hide Expr;
    var us := ([TIdent(x), TLBracket] + (inner + [TRBracket, TDot, TIdent(f)])) + rest;
    var tail := [TRBracket, TDot, TIdent(f)] + rest;
    assert us[1..] == [TLBracket] + (inner + tail) && us[1..][1..] == inner + tail && tail[3..] == rest;
  }

  lemma ParenParses(op: Un, inner: seq<Tok>, e: Tree, rest: seq<Tok>)
    requires Expr(inner + ([TRParen] + rest)) == Got(e, [TRParen] + rest) && op != Neg && op != Not
    ensures Factor(([BuiltinTok(op), TLParen] + (inner + [TRParen])) + rest) == Got(Unary(op, e), rest)
  {
    hide Expr, AfterName;
    var tail := [TRParen] + rest;
    var ts := ([BuiltinTok(op), TLParen] + (inner + [TRParen])) + rest;
    assert ts[1..] == [TLParen] + (inner + tail) && ts[1..][1..] == inner + tail && tail[1..] == rest;
  }

  lemma GroupParses(inner: seq<Tok>, e: Tree, rest: seq<Tok>)
    requires Expr(inner + ([TRParen] + rest)) == Got(e, [TRParen] + rest)
    ensures Factor(([TLParen] + (inner + [TRParen])) + rest) == Got(e, rest)
  {
    hide Expr, AfterName, Builtin;
    var tail := [TRParen] + rest;
    assert (([TLParen] + (inner + [TRParen])) + rest)[1..] == inner + tail && tail[1..] == rest;
  }

  lemma {:induction false} IndexInverts(e: Tree, rest: seq<Tok>)
    requires (e.Index? || e.IndexField?) && Writable(e) && EndsFactor(rest)
    ensures Factor(Print(e) + rest) == Got(e, rest)
    decreases e, 0
  {
    hide Factor, Expr;
    if e.Index? {
      ExprInverts(e.idx, [TRBracket] + rest);
      IndexParses(e.x, Print(e.idx), e.idx, rest);
    } else {
      ExprInverts(e.idx, [TRBracket, TDot, TIdent(e.f)] + rest);
      IndexFieldParses(e.x, e.f, Print(e.idx), e.idx, rest);
    }
  }

  lemma {:induction false} UnaryInverts(op: Un, e: Tree, rest: seq<Tok>)
    requires Writable(e) && EndsFactor(rest)
    ensures Factor(Print(Unary(op, e)) + rest) == Got(Unary(op, e), rest)
    decreases Unary(op, e), 0
  {
    var ts := Print(Unary(op, e)) + rest;
    hide Expr, AfterName, Builtin;
    if op.Neg? || op.Not? {
      assert ts[1..] == PrintAt(e, 3) + rest;
      FactorInverts(e, rest);
    } else {
      ExprInverts(e, [TRParen] + rest);
      ParenParses(op, Print(e), e, rest);
    }
  }

  lemma {:induction false} CallInverts(f: string, args: seq<Tree>, rest: seq<Tok>)
    requires Writable(Call(f, args)) && EndsFactor(rest)
    ensures Factor(Print(Call(f, args)) + rest) == Got(Call(f, args), rest)
    decreases Call(f, args), 0
  {
    if args == [] {
      CallParses(f, PrintArgs(args), rest);
    } else {
      ArgsInvert(f, [], args, rest);
      ArgsStart(args);
      CallParses(f, PrintArgs(args), rest);
      assert [] + args == args;
    }
  }

  lemma CallParses(f: string, inner: seq<Tok>, rest: seq<Tok>)
    requires inner != []
    ensures Factor(([TIdent(f), TLParen] + inner) + rest) ==
              if inner[0].TRParen? then Got(Call(f, []), inner[1..] + rest) else Args(f, [], inner + rest)
  {
    hide Args;
    var ts := ([TIdent(f), TLParen] + inner) + rest;
    assert ts[1..] == [TLParen] + (inner + rest) && ts[1..][1..] == inner + rest && ts[1..][2..] == inner[1..] + rest;
  }

  lemma ArgsStart(args: seq<Tree>)
    requires args != []
    ensures PrintArgs(args) != [] && !PrintArgs(args)[0].TRParen?
  {
    FirstNotParen(args[0], []);
    assert Print(args[0]) + [] == Print(args[0]);
  }

  /** The argument loop, one step. */
  lemma ArgsStep(f: string, acc: seq<Tree>, inner: seq<Tok>, e: Tree, more: seq<Tok>, rest: seq<Tok>)
    ensures Expr(inner + ([TRParen] + rest)) == Got(e, [TRParen] + rest) ==>
              Args(f, acc, (inner + [TRParen]) + rest) == Got(Call(f, acc + [e]), rest)
    ensures Expr(inner + ([TComma] + (more + rest))) == Got(e, [TComma] + (more + rest)) ==>
              Args(f, acc, (inner + ([TComma] + more)) + rest) == Args(f, acc + [e], more + rest)
  {
    hide Expr;
    assert (inner + [TRParen]) + rest == inner + ([TRParen] + rest) && ([TRParen] + rest)[1..] == rest;
    var tail := [TComma] + (more + rest);
    assert (inner + ([TComma] + more)) + rest == inner + tail && tail[1..] == more + rest;
  }

  lemma {:induction false} ArgsInvert(f: string, acc: seq<Tree>, args: seq<Tree>, rest: seq<Tok>)
    requires args != [] && forall i :: 0 <= i < |args| ==> Writable(args[i])
    ensures Args(f, acc, PrintArgs(args) + rest) == Got(Call(f, acc + args), rest)
    decreases args, 0
  {
    hide Args, Expr, Print, Writable;
    if |args| == 1 {
      ExprInverts(args[0], [TRParen] + rest);
      ArgsStep(f, acc, Print(args[0]), args[0], [], rest);
      assert acc + [args[0]] == acc + args;
    } else {
      var more := PrintArgs(args[1..]);
      ExprInverts(args[0], [TComma] + (more + rest));
      ArgsStep(f, acc, Print(args[0]), args[0], more, rest);
      ArgsInvert(f, acc + [args[0]], args[1..], rest);
      assert acc + [args[0]] + args[1..] == acc + args;
    }
  }

  /** No expression starts with a closing parenthesis. */
  lemma {:induction false} FirstNotParen(e: Tree, rest: seq<Tok>)
    ensures Print(e) != [] && (Print(e) + rest)[0] != TRParen
  {
    match e
    case Mul(_, l, _) => FirstNotParen(l, []);
    case Add(_, l, _) => FirstNotParen(l, []);
    case Relate(_, l, _) => FirstNotParen(l, []);
    case _ =>
  }

  lemma OpEnds(t: Tok, rest: seq<Tok>)
    ensures IsMul(t) ==> EndsFactor([t] + rest)
    ensures IsAdd(t) ==> EndsTerm([t] + rest)
  {
  }

  lemma EndsParts(rest: seq<Tok>)
    ensures EndsTerm(rest) <==> EndsFactor(rest) && (rest != [] ==> !IsMul(rest[0]))
  {
  }

  /** A printed term leaves the parser where its left-associative loop stands with the whole tree. */
  lemma {:induction false} TermInverts(e: Tree, rest: seq<Tok>)
    requires Writable(e) && EndsFactor(rest)
    ensures Term(PrintAt(e, 2) + rest) == TermRest(e, rest)
    decreases e, if Level(e) < 2 then 7 else 3
  {
    hide Factor, Expr, EndsFactor;
    if e.Mul? {
      assert EndsFactor([MulTok(e.mop)] + (PrintAt(e.r, 3) + rest)) by { OpEnds(MulTok(e.mop), PrintAt(e.r, 3) + rest);
             }
      var tail := [MulTok(e.mop)] + (PrintAt(e.r, 3) + rest);
      assert PrintAt(e, 2) + rest == PrintAt(e.l, 2) + tail;
      TermInverts(e.l, tail);
      assert tail[1..] == PrintAt(e.r, 3) + rest;
      FactorInverts(e.r, rest);
    } else {
      assert PrintAt(e, 2) == PrintAt(e, 3);
      FactorInverts(e, rest);
    }
  }

  lemma {:induction false} SimpleInverts(e: Tree, rest: seq<Tok>)
    requires Writable(e) && EndsTerm(rest)
    ensures Simple(PrintAt(e, 1) + rest) == SimpleRest(e, rest)
    decreases e, if Level(e) < 1 then 8 else 4
  {
    hide Term, Expr, EndsTerm, EndsFactor;
    EndsParts(rest);
    if e.Add? {
      OpEnds(AddTok(e.aop), PrintAt(e.r, 2) + rest);
      var tail := [AddTok(e.aop)] + (PrintAt(e.r, 2) + rest);
      assert PrintAt(e, 1) + rest == PrintAt(e.l, 1) + tail;
      SimpleInverts(e.l, tail);
      assert tail[1..] == PrintAt(e.r, 2) + rest;
      TermInverts(e.r, rest);
    } else {
      assert PrintAt(e, 1) == PrintAt(e, 2);
      TermInverts(e, rest);
    }
  }

  /** Parsing a printed tree gives the tree back and stops where the text after it starts. */
  lemma {:induction false} ExprInverts(e: Tree, rest: seq<Tok>)
    requires Writable(e) && EndsExpr(rest)
    ensures Expr(Print(e) + rest) == Got(e, rest)
    decreases e, 5
  {
    if e.Relate? {
      var tail := [TRel(e.rop)] + (PrintAt(e.r, 1) + rest);
      assert Print(e) + rest == PrintAt(e.l, 1) + tail;
      SimpleInverts(e.l, tail);
      assert tail[1..] == PrintAt(e.r, 1) + rest;
      SimpleInverts(e.r, rest);
    } else {
      assert Print(e) == PrintAt(e, 1);
      SimpleInverts(e, rest);
    }
  }

  // ---- printing is canonical and shortest ----

  /** Tokens as the lexer delivers them. */
  predicate Lexed(ts: seq<Tok>) {
    forall i :: 0 <= i < |ts| ==> LexedTok(ts[i])
  }

  predicate LexedTok(t: Tok) {
    && (t.TInt? ==> 0 <= t.n <= MAX)
    && (t.TStr? ==> forall j :: 0 <= j < |t.text| ==> 0 <= t.text[j] < 256)
  }

  /** The tree is writable and its printed form at a level is no longer than `n` tokens. */
  predicate Short(e: Tree, lvl: nat, n: int) { Writable(e) && |PrintAt(e, lvl)| <= n }

  /** A parse result is short for the tokens it consumed, and what remains is still lexed. */
  predicate Economical(p: Parse, lvl: nat, n: int) {
    p.Got? ==> Lexed(p.rest) && Short(p.e, lvl, n - |p.rest|)
  }

  lemma ShortWeaker(e: Tree, lvl: nat, n: int)
    requires Short(e, lvl, n)
    ensures lvl > 0 ==> Short(e, lvl - 1, n)
    ensures Short(e, 3, n + 2)
  {
  }

  // How printed sizes add up.

  lemma UnaryShort(op: Un, e: Tree, n: int)
    requires Short(e, if op.Neg? || op.Not? then 3 else 0, n)
    ensures Short(Unary(op, e), 3, if op.Neg? || op.Not? then n + 1 else n + 3)
  {
    assert |Print(Unary(op, e))| == if op.Neg? || op.Not? then 1 + |PrintAt(e, 3)| else 3 + |Print(e)|;
  }

  lemma MulShort(op: MulOp, l: Tree, r: Tree, n: int, m: int)
    requires Short(l, 2, n) && Short(r, 3, m)
    ensures Short(Mul(op, l, r), 2, n + m + 1)
  {
    assert |Print(Mul(op, l, r))| == |PrintAt(l, 2)| + 1 + |PrintAt(r, 3)|;
  }

  lemma AddShort(op: AddOp, l: Tree, r: Tree, n: int, m: int)
    requires Short(l, 1, n) && Short(r, 2, m)
    ensures Short(Add(op, l, r), 1, n + m + 1)
  {
    assert |Print(Add(op, l, r))| == |PrintAt(l, 1)| + 1 + |PrintAt(r, 2)|;
  }

  lemma RelShort(op: Rel, l: Tree, r: Tree, n: int, m: int)
    requires Short(l, 1, n) && Short(r, 1, m)
    ensures Short(Relate(op, l, r), 0, n + m + 1)
  {
    assert |Print(Relate(op, l, r))| == |PrintAt(l, 1)| + 1 + |PrintAt(r, 1)|;
  }

  lemma {:induction false} FactorShort(ts: seq<Tok>)
    requires Lexed(ts)
    ensures Economical(Factor(ts), 3, |ts|)
    decreases |ts|, 0
  {
    if ts != [] {
      var rest := ts[1..];
      assert LexedTok(ts[0]) && Lexed(rest);
      hide Expr, AfterName, Builtin, Lexed, PrintAt;
      match ts[0]
      case TMinus => PrefixShort(Neg, ts);
      case TNot => PrefixShort(Not, ts);
      case TOrd => BuiltinShort(Ord, rest);
      case TChr => BuiltinShort(Chr, rest);
      case TLength => BuiltinShort(Len, rest);
      case TIdent(x) => NameShort(x, rest);
      case TLParen =>
        ExprShort(rest);
        var p := Expr(rest);
        if p.Got? && At(p.rest, TRParen) {
          ShortWeaker(p.e, 0, |rest| - |p.rest|);
          DropLexed(p.rest);
        }
      case TTrue => AtomShort(Bool(true));
      case TFalse => AtomShort(Bool(false));
      case TStr(text) => AtomShort(if |text| == 1 then Char(text[0]) else Str(text));
      case TInt(n) => AtomShort(Int(n));
      case _ =>
    }
  }

  lemma AtomShort(e: Tree)
    requires Writable(e) && |Print(e)| == 1 && Level(e) == 3
    ensures Short(e, 3, 1)
  {
  }

  lemma DropLexed(ts: seq<Tok>)
    requires Lexed(ts) && ts != []
    ensures Lexed(ts[1..])
  {
  }

  lemma {:induction false} PrefixShort(op: Un, ts: seq<Tok>)
    requires Lexed(ts) && ts != [] && (op.Neg? || op.Not?)
    ensures Economical(Prefixed(op, ts), 3, |ts|)
    decreases |ts| - 1, 1
  {
    hide Factor, Lexed, Short;
    DropLexed(ts);
    FactorShort(ts[1..]);
    var p := Factor(ts[1..]);
    if p.Got? { UnaryShort(op, p.e, |ts| - 1 - |p.rest|); }
  }

  lemma {:induction false} BuiltinShort(op: Un, ts: seq<Tok>)
    requires Lexed(ts) && !op.Neg? && !op.Not?
    ensures Economical(Builtin(op, ts), 3, |ts| + 1)
    decreases |ts|, 0
  {
    hide Expr, Lexed, Short;
    if At(ts, TLParen) {
      DropLexed(ts);
      ExprShort(ts[1..]);
      var p := Expr(ts[1..]);
      if p.Got? && At(p.rest, TRParen) {
        DropLexed(p.rest);
        UnaryShort(op, p.e, |ts| - 1 - |p.rest|);
      }
    }
  }

  lemma {:induction false} NameShort(x: string, ts: seq<Tok>)
    requires Lexed(ts)
    ensures Economical(AfterName(x, ts), 3, |ts| + 1)
    decreases |ts|, 0
  {
    hide Args, Lexed, Expr, Short;
    if At(ts, TLParen) {
      DropLexed(ts);
      if At(ts[1..], TRParen) {
        DropLexed(ts[1..]);
        assert ts[1..][1..] == ts[2..];
        NamesShort(x, "");
      } else {
        assert ArgsSoFar([], 2);
        ArgsShort(x, [], ts[1..], 2);
      }
    } else if At(ts, TLBracket) {
      DropLexed(ts);
      ExprShort(ts[1..]);
      var p := Expr(ts[1..]);
      if p.Got? && At(p.rest, TRBracket) { IndexShort(x, p.e, p.rest, |ts| - 1 - |p.rest|); }
    } else if At(ts, TDot) {
      if |ts| > 1 && ts[1].TIdent? {
        DropLexed(ts);
        DropLexed(ts[1..]);
        assert ts[1..][1..] == ts[2..];
        NamesShort(x, ts[1].name);
      }
    } else {
      NamesShort(x, "");
    }
  }

  lemma NamesShort(x: string, f: string)
    ensures Short(Name(x), 3, 1) && Short(Call(x, []), 3, 3) && Short(Field(x, f), 3, 3)
  {
    assert PrintArgs([]) == [TRParen];
  }

  lemma IndexShort(x: string, idx: Tree, ts: seq<Tok>, n: int)
    requires Lexed(ts) && At(ts, TRBracket) && Short(idx, 0, n)
    ensures Lexed(ts[1..]) && Short(Index(x, idx), 3, n + 3)
    ensures |ts| > 2 && ts[2].TIdent? ==> Lexed(ts[3..]) && Short(IndexField(x, idx, ts[2].name), 3, n + 5)
  {
  }

  /** Arguments read so far, with `n` tokens to print the call up to and including the next separator. */
  predicate ArgsSoFar(acc: seq<Tree>, n: int) {
    (forall i :: 0 <= i < |acc| ==> Writable(acc[i])) && 2 + Sizes(acc) <= n
  }

  /** Tokens of arguments, each with the separator after it. */
  function Sizes(args: seq<Tree>): nat {
    if args == [] then 0 else |Print(args[0])| + 1 + Sizes(args[1..])
  }

  lemma {:induction false} SizesAre(args: seq<Tree>)
    requires args != []
    ensures |PrintArgs(args)| == Sizes(args)
  {
    if |args| > 1 {
      SizesAre(args[1..]);
    } else {
      assert args[1..] == [];
    }
  }

  lemma {:induction false} SizesSnoc(args: seq<Tree>, e: Tree)
    ensures Sizes(args + [e]) == Sizes(args) + |Print(e)| + 1
  {
    if args == [] {
      assert args + [e] == [e] && [e][1..] == [];
    } else {
      assert (args + [e])[1..] == args[1..] + [e];
      SizesSnoc(args[1..], e);
    }
  }

  lemma {:induction false} ArgsShort(f: string, acc: seq<Tree>, ts: seq<Tok>, n: int)
    requires Lexed(ts) && ArgsSoFar(acc, n)
    ensures Economical(Args(f, acc, ts), 3, n + |ts|)
    decreases |ts|, 7
  {
    ExprShort(ts);
    var p := Expr(ts);
    hide Expr, Lexed, Print, Writable;
    if p.Got? && p.rest != [] {
      SizesSnoc(acc, p.e);
      DropLexed(p.rest);
      ShortIs(p.e, |ts| - |p.rest|);
      if At(p.rest, TComma) {
        ArgsShort(f, acc + [p.e], p.rest[1..], n + |ts| - |p.rest| + 1);
      } else if At(p.rest, TRParen) {
        CallShort(f, acc + [p.e], n + |ts| - |p.rest| + 1);
      }
    }
  }

  lemma ShortIs(e: Tree, n: int)
    requires Short(e, 0, n)
    ensures |Print(e)| <= n && Writable(e)
  {
  }

  lemma CallShort(f: string, args: seq<Tree>, n: int)
    requires ArgsSoFar(args, n) && args != []
    ensures Short(Call(f, args), 3, n)
  {
    SizesAre(args);
  }

  lemma {:induction false} TermShort(ts: seq<Tok>)
    requires Lexed(ts)
    ensures Economical(Term(ts), 2, |ts|)
    decreases |ts|, 2
  {
    FactorShort(ts);
    var p := Factor(ts);
    hide Factor, Lexed, PrintAt;
    if p.Got? {
      ShortWeaker(p.e, 3, |ts| - |p.rest|);
      TermRestShort(p.e, p.rest, |ts| - |p.rest|);
    }
  }

  lemma {:induction false} TermRestShort(lhs: Tree, ts: seq<Tok>, n: int)
    requires Lexed(ts) && Short(lhs, 2, n)
    ensures Economical(TermRest(lhs, ts), 2, n + |ts|)
    decreases |ts|, 1
  {
    hide Factor, Lexed, Short;
    if ts != [] && IsMul(ts[0]) {
      DropLexed(ts);
      FactorShort(ts[1..]);
      var p := Factor(ts[1..]);
      if p.Got? {
        var m := n + |ts| - |p.rest|;
        MulShort(MulOf(ts[0]), lhs, p.e, n, |ts| - 1 - |p.rest|);
        TermRestShort(Mul(MulOf(ts[0]), lhs, p.e), p.rest, m);
      }
    }
  }

  lemma {:induction false} SimpleShort(ts: seq<Tok>)
    requires Lexed(ts)
    ensures Economical(Simple(ts), 1, |ts|)
    decreases |ts|, 4
  {
    TermShort(ts);
    var p := Term(ts);
    hide Term, Lexed, PrintAt;
    if p.Got? {
      ShortWeaker(p.e, 2, |ts| - |p.rest|);
      SimpleRestShort(p.e, p.rest, |ts| - |p.rest|);
    }
  }

  lemma {:induction false} SimpleRestShort(lhs: Tree, ts: seq<Tok>, n: int)
    requires Lexed(ts) && Short(lhs, 1, n)
    ensures Economical(SimpleRest(lhs, ts), 1, n + |ts|)
    decreases |ts|, 3
  {
    hide Term, Lexed, Short;
    if ts != [] && IsAdd(ts[0]) {
      DropLexed(ts);
      TermShort(ts[1..]);
      var p := Term(ts[1..]);
      if p.Got? {
        var m := n + |ts| - |p.rest|;
        AddShort(AddOf(ts[0]), lhs, p.e, n, |ts| - 1 - |p.rest|);
        SimpleRestShort(Add(AddOf(ts[0]), lhs, p.e), p.rest, m);
      }
    }
  }

  lemma {:induction false} ExprShort(ts: seq<Tok>)
    requires Lexed(ts)
    ensures Economical(Expr(ts), 0, |ts|)
    decreases |ts|, 6
  {
    hide Simple, Lexed, Short;
    SimpleShort(ts);
    var p := Simple(ts);
    if p.Got? {
      ShortWeaker(p.e, 1, |ts| - |p.rest|);
      if p.rest != [] && p.rest[0].TRel? {
        DropLexed(p.rest);
        SimpleShort(p.rest[1..]);
        var q := Simple(p.rest[1..]);
        if q.Got? { RelShort(p.rest[0].rel, p.e, q.e, |ts| - |p.rest|, |p.rest| - 1 - |q.rest|); }
      }
    }
  }

  /** Whatever the parser accepts, printing the result and parsing again gives the same tree, and the
      printed form is no longer than the input it came from: no parenthesis in it is superfluous. */
  lemma PrintIsShortest(ts: seq<Tok>)
    requires Lexed(ts) && Expr(ts).Got?
    ensures var p := Expr(ts); Expr(Print(p.e)) == Got(p.e, []) && |Print(p.e)| <= |ts| - |p.rest|
  {
    var p := Expr(ts);
    hide Expr;
    ExprShort(ts);
    ExprInverts(p.e, []);
    assert Print(p.e) + [] == Print(p.e);
  }

  // ---- the parser itself ----

  lemma PrefixIs(op: Un, ts: seq<Tok>)
    requires ts != [] && ((op.Neg? && ts[0].TMinus?) || (op.Not? && ts[0].TNot?))
    ensures var p := Factor(ts[1..]); Factor(ts) == if p.Got? then Got(Unary(op, p.e), p.rest) else Fail
  {
    assert Factor(ts) == Prefixed(op, ts);
  }

  /** A cursor over the tokens, moved by the parsing methods; the first error is latched in `failed`. */
  lemma BracketIs(x: string, us: seq<Tok>)
    requires At(us, TLBracket)
    ensures var p := Expr(us[1..]);
            AfterName(x, us) ==
              if !p.Got? || !At(p.rest, TRBracket) then Fail
              else if !At(p.rest[1..], TDot) then Got(Index(x, p.e), p.rest[1..])
              else if |p.rest| > 2 && p.rest[2].TIdent? then Got(IndexField(x, p.e, p.rest[2].name), p.rest[3..])
              else Fail
  {
    hide Expr, Args;
  }

  class Cursor {
    const toks: seq<Tok>
    var pos: nat
    var failed: bool

    ghost predicate Valid()
      reads this
    {
      pos <= |toks|
    }

    constructor (ts: seq<Tok>)
      ensures Valid() && toks == ts && pos == 0 && !failed
    {
      toks, pos, failed := ts, 0, false;
    }

    /** The cursor did what the grammar says from where it stood. */
    ghost predicate Followed(p: Parse, e: Tree)
      reads this
    {
      Valid() && if p.Got? then !failed && e == p.e && toks[pos..] == p.rest else failed
    }

    predicate Check(t: Tok)
      requires Valid()
      reads this
    {
      pos < |toks| && toks[pos] == t
    }

    method Expect(t: Tok) returns (ok: bool)
      requires Valid() && !failed
      modifies this
      ensures Valid() && ok == old(At(toks[pos..], t))
      ensures if ok then !failed && pos == old(pos) + 1 else failed && pos == old(pos)
    {
      ok := Check(t);
      if ok { pos := pos + 1; } else { failed := true; }
    }

    method ParseFactor() returns (e: Tree)
      requires Valid() && !failed
      modifies this
      ensures Followed(Factor(old(toks[pos..])), e)
      decreases |toks| - pos, 0
    {
      hide Expr, AfterName, Builtin, Args, Prefixed;
      e := Int(0);
      ghost var ts := toks[pos..];
      if pos == |toks| {
        failed := true;
        return;
      }
      var t := toks[pos];
      assert ts[1..] == toks[pos + 1..];
      match t {
        case TMinus =>
          pos := pos + 1;
          e := ParseFactor();
          e := Unary(Neg, e);
          PrefixIs(Neg, ts);
        case TNot =>
          pos := pos + 1;
          e := ParseFactor();
          e := Unary(Not, e);
          PrefixIs(Not, ts);
        case TTrue => pos := pos + 1; e := Bool(true);
        case TFalse => pos := pos + 1; e := Bool(false);
        case TStr(text) => pos := pos + 1; e := if |text| == 1 then Char(text[0]) else Str(text);
        case TOrd => pos := pos + 1; e := ParseBuiltin(Ord);
        case TChr => pos := pos + 1; e := ParseBuiltin(Chr);
        case TLength => pos := pos + 1; e := ParseBuiltin(Len);
        case TInt(n) => pos := pos + 1; e := Int(n);
        case TIdent(x) => pos := pos + 1; e := ParseAfterName(x);
        case TLParen =>
          pos := pos + 1;
          e := ParseExpr();
          if !failed {
            ghost var rest := toks[pos..];
            var ok := Expect(TRParen);
            assert ok ==> rest[1..] == toks[pos..];
          }
        case _ => failed := true;
      }
    }

    method ParseBuiltin(op: Un) returns (e: Tree)
      requires Valid() && !failed
      modifies this
      ensures Followed(Builtin(op, old(toks[pos..])), e)
      decreases |toks| - pos, 0
    {
      e := Int(0);
      ghost var ts := toks[pos..];
      var ok := Expect(TLParen);
      if !ok { return; }
      assert ts[1..] == toks[pos..];
      e := ParseExpr();
      if failed { return; }
      ghost var rest := toks[pos..];
      ok := Expect(TRParen);
      if ok {
        assert rest[1..] == toks[pos..];
        e := Unary(op, e);
      }
    }

    method ParseAfterName(x: string) returns (e: Tree)
      requires Valid() && !failed
      modifies this
      ensures Followed(AfterName(x, old(toks[pos..])), e)
      decreases |toks| - pos, 0
    {
      ghost var ts := toks[pos..];
      if Check(TLParen) {
        e := ParseCall(x);
      } else if Check(TLBracket) {
        e := ParseIndex(x);
      } else if Check(TDot) {
        pos := pos + 1;
        assert ts[1..] == toks[pos..];
        e := Name(x);
        if pos < |toks| && toks[pos].TIdent? {
          e := Field(x, toks[pos].name);
          pos := pos + 1;
          assert ts[2..] == toks[pos..];
        } else {
          failed := true;
        }
      } else {
        e := Name(x);
      }
    }

    method ParseIndex(x: string) returns (e: Tree)
      requires Valid() && !failed && Check(TLBracket)
      modifies this
      ensures Followed(AfterName(x, old(toks[pos..])), e)
      decreases |toks| - pos - 1, 7
    {
      hide Expr, Args, AfterName;
      BracketIs(x, toks[pos..]);
      ghost var ts := toks[pos..];
      e := Name(x);
      pos := pos + 1;
      assert ts[1..] == toks[pos..];
      var idx := ParseExpr();
      if failed { return; }
      ghost var rest := toks[pos..];
      var ok := Expect(TRBracket);
      if !ok { return; }
      assert rest[1..] == toks[pos..];
      if Check(TDot) {
        pos := pos + 1;
        assert |rest| > 2 ==> rest[2] == toks[pos];
        if pos < |toks| && toks[pos].TIdent? {
          e := IndexField(x, idx, toks[pos].name);
          pos := pos + 1;
          assert rest[3..] == toks[pos..];
        } else {
          failed := true;
        }
      } else {
        e := Index(x, idx);
      }
    }

    /** Arguments are pushed one by one until no comma follows. */
    method ParseCall(f: string) returns (e: Tree)
      requires Valid() && !failed && Check(TLParen)
      modifies this
      ensures Followed(AfterName(f, old(toks[pos..])), e)
      decreases |toks| - pos - 1, 8
    {
      ghost var ts := toks[pos..];
      ghost var start := pos;
      e := Call(f, []);
      pos := pos + 1;
      assert ts[1..] == toks[pos..];
      if Check(TRParen) {
        pos := pos + 1;
        assert ts[2..] == toks[pos..];
        return;
      }
      var acc, more := [], true;
      while more
        invariant Valid() && !failed && pos > start
        invariant more ==> Args(f, acc, toks[pos..]) == Args(f, [], ts[1..])
        invariant !more ==> Args(f, [], ts[1..]) ==
                            if At(toks[pos..], TRParen) then Got(Call(f, acc), toks[pos..][1..]) else Fail
        decreases more, |toks| - pos
      {
        ghost var here := toks[pos..];
        var arg := ParseExpr();
        if failed { return; }
        ghost var rest := toks[pos..];
        acc := acc + [arg];
        if Check(TComma) {
          pos := pos + 1;
          assert rest[1..] == toks[pos..];
        } else {
          more := false;
        }
      }
      ghost var rest := toks[pos..];
      var ok := Expect(TRParen);
      if ok {
        assert rest[1..] == toks[pos..];
        e := Call(f, acc);
      }
    }

    method ParseTerm() returns (e: Tree)
      requires Valid() && !failed
      modifies this
      ensures Followed(Term(old(toks[pos..])), e)
      decreases |toks| - pos, 2
    {
      ghost var all := Term(toks[pos..]);
      ghost var start := pos;
      e := ParseFactor();
      while !failed && pos < |toks| && IsMul(toks[pos])
        invariant Valid() && (!failed ==> pos > start)
        invariant if failed then !all.Got? else TermRest(e, toks[pos..]) == all
        decreases !failed, |toks| - pos
      {
        var op := MulOf(toks[pos]);
        ghost var here := toks[pos..];
        pos := pos + 1;
        assert here[1..] == toks[pos..];
        var rhs := ParseFactor();
        if failed { return; }
        e := Mul(op, e, rhs);
      }
    }

    method ParseSimple() returns (e: Tree)
      requires Valid() && !failed
      modifies this
      ensures Followed(Simple(old(toks[pos..])), e)
      decreases |toks| - pos, 4
    {
      ghost var all := Simple(toks[pos..]);
      ghost var start := pos;
      e := ParseTerm();
      while !failed && pos < |toks| && IsAdd(toks[pos])
        invariant Valid() && (!failed ==> pos > start)
        invariant if failed then !all.Got? else SimpleRest(e, toks[pos..]) == all
        decreases !failed, |toks| - pos
      {
        var op := AddOf(toks[pos]);
        ghost var here := toks[pos..];
        pos := pos + 1;
        assert here[1..] == toks[pos..];
        var rhs := ParseTerm();
        if failed { return; }
        e := Add(op, e, rhs);
      }
    }

    method ParseExpr() returns (e: Tree)
      requires Valid() && !failed
      modifies this
      ensures Followed(Expr(old(toks[pos..])), e)
      decreases |toks| - pos, 6
    {
      e := ParseSimple();
      if failed || pos == |toks| || !toks[pos].TRel? { return; }
      var op := toks[pos].rel;
      ghost var here := toks[pos..];
      pos := pos + 1;
      assert here[1..] == toks[pos..];
      var rhs := ParseSimple();
      if failed { return; }
      e := Relate(op, e, rhs);
      if pos < |toks| && toks[pos].TRel? { failed := true; }
    }
  }

  /** One expression from the front of a token stream: whatever is accepted reprints to the same tree in no
      more tokens than were read, and a printed tree is read back whole and exactly, whatever follows it. */
  method ReadExpression(ts: seq<Tok>) returns (ok: bool, e: Tree, used: nat)
    requires Lexed(ts)
    ensures used <= |ts|
    ensures Expr(ts) == if ok then Got(e, ts[used..]) else Fail
    ensures ok ==> |Print(e)| <= used && Expr(Print(e)) == Got(e, [])
    ensures forall t, rest :: Writable(t) && EndsExpr(rest) && ts == Print(t) + rest ==>
              ok && e == t && used == |Print(t)|
  {
    hide Expr;
    var c := new Cursor(ts);
    assert ts[0..] == ts;
    e := c.ParseExpr();
    ok, used := !c.failed, c.pos;
    assert Expr(ts).Got? ==> Expr(ts).rest == ts[used..];
    if ok { PrintIsShortest(ts); }
    forall t, rest | Writable(t) && EndsExpr(rest) && ts == Print(t) + rest
      ensures ok && e == t && used == |Print(t)|
    {
      ExprInverts(t, rest);
    }
  }
}
