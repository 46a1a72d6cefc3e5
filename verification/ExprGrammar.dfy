/** The grammar of expressions as derivations, with every parenthesis that was written, and the parser as exact
    for it: a token sequence is accepted with a tree if and only if it is the text of a derivation of that
    tree. */
module ExprGrammar {
  import opened ExprParser

  // ---- trees of operator tokens ----

  /** The tree of `l t r`. */
  function Node(t: Tok, l: Tree, r: Tree): Tree {
    match t
    case TStar => Mul(OMul, l, r)
    case TDiv => Mul(ODiv, l, r)
    case TMod => Mul(OMod, l, r)
    case TAnd => Mul(OAnd, l, r)
    case TPlus => Add(OAdd, l, r)
    case TMinus => Add(OSub, l, r)
    case TOr => Add(OOr, l, r)
    case TRel(o) => Relate(o, l, r)
    case _ => l
  }

  /** How tightly an operator binds; 0 for what is no operator. */
  function Tightness(t: Tok): nat {
    match t
    case TRel(_) => 1
    case TPlus => 2
    case TMinus => 2
    case TOr => 2
    case TStar => 3
    case TDiv => 3
    case TMod => 3
    case TAnd => 3
    case _ => 0
  }

  // ---- derivations ----

  /** What was written. */
  datatype Src =
    | Atom(t: Tok)                            // a number, a truth value, a text or a name
    | Group(inner: Src)                       // ( inner )
    | Signed(t: Tok, arg: Src)                // - arg, not arg
    | Applied(t: Tok, arg: Src)               // ord ( arg ), chr ( arg ), length ( arg )
    | Called(f: string, args: seq<Src>)       // f ( args )
    | Indexed(x: string, idx: Src)            // x [ idx ]
    | Dotted(x: string, f: string)            // x . f
    | IndexedDot(x: string, idx: Src, f: string)
    | Joined(l: Src, t: Tok, r: Src)          // l t r

  function Text(c: Src): seq<Tok>
    decreases c, 0
  {
    match c
    case Atom(t) => [t]
    case Group(e) => [TLParen] + (Text(e) + [TRParen])
    case Signed(t, e) => [t] + Text(e)
    case Applied(t, e) => [t, TLParen] + (Text(e) + [TRParen])
    case Called(f, args) => [TIdent(f), TLParen] + ArgsText(args)
    case Indexed(x, idx) => [TIdent(x), TLBracket] + (Text(idx) + [TRBracket])
    case Dotted(x, f) => [TIdent(x), TDot, TIdent(f)]
    case IndexedDot(x, idx, f) => [TIdent(x), TLBracket] + (Text(idx) + [TRBracket, TDot, TIdent(f)])
    case Joined(l, t, r) => Text(l) + ([t] + Text(r))
  }

  function ArgsText(args: seq<Src>): seq<Tok>
    decreases args, 0
  {
    if args == [] then [TRParen]
    else if |args| == 1 then Text(args[0]) + [TRParen]
    else Text(args[0]) + ([TComma] + ArgsText(args[1..]))
  }

  /** How tightly it holds together: 4 for what needs no parentheses anywhere. */
  function Rank(c: Src): nat { if c.Joined? then Tightness(c.t) else 4 }

  /** The rules: the left operand may be of the operator's own level, except for relations, the right one must be
      tighter; signs stand before what is tightest. */
  predicate Formed(c: Src) {
    match c
    case Atom(t) => t.TInt? || t.TTrue? || t.TFalse? || t.TStr? || t.TIdent?
    case Group(e) => Formed(e)
    case Signed(t, e) => (t.TMinus? || t.TNot?) && Formed(e) && Rank(e) == 4
    case Applied(t, e) => (t.TOrd? || t.TChr? || t.TLength?) && Formed(e)
    case Called(_, args) => forall i :: 0 <= i < |args| ==> Formed(args[i])
    case Indexed(_, idx) => Formed(idx)
    case Dotted(_, _) => true
    case IndexedDot(_, idx, _) => Formed(idx)
    case Joined(l, t, r) =>
      && Tightness(t) > 0 && Formed(l) && Formed(r) && Rank(r) > Tightness(t)
      && if Tightness(t) == 1 then Rank(l) > 1 else Rank(l) >= Tightness(t)
  }

  function TreeOf(c: Src): Tree
    decreases c
  {
    match c
    case Atom(TInt(n)) => Int(n)
    case Atom(TTrue) => Bool(true)
    case Atom(TFalse) => Bool(false)
    case Atom(TStr(text)) => if |text| == 1 then Char(text[0]) else Str(text)
    case Atom(TIdent(x)) => Name(x)
    case Atom(_) => Int(0)
    case Group(e) => TreeOf(e)
    case Signed(t, e) => Unary(if t.TMinus? then Neg else Not, TreeOf(e))
    case Applied(t, e) => Unary(if t.TOrd? then Ord else if t.TChr? then Chr else Len, TreeOf(e))
    case Called(f, args) => Call(f, seq(|args|, i requires 0 <= i < |args| => TreeOf(args[i])))
    case Indexed(x, idx) => Index(x, TreeOf(idx))
    case Dotted(x, f) => Field(x, f)
    case IndexedDot(x, idx, f) => IndexField(x, TreeOf(idx), f)
    case Joined(l, t, r) => Node(t, TreeOf(l), TreeOf(r))
  }

  function TreesOf(args: seq<Src>): seq<Tree> { seq(|args|, i requires 0 <= i < |args| => TreeOf(args[i])) }

  // ---- what is accepted has a derivation ----

  lemma {:induction false} FactorDerives(ts: seq<Tok>) returns (c: Src)
    requires Factor(ts).Got?
    ensures Formed(c) && Rank(c) == 4 && TreeOf(c) == Factor(ts).e && Text(c) + Factor(ts).rest == ts
    decreases |ts|, 0
  {
    hide Expr, AfterName, Text, TreeOf, Formed;
    if ts[0].TMinus? {
      c := PrefixDerives(Neg, ts);
    } else if ts[0].TNot? {
      c := PrefixDerives(Not, ts);
    } else if ts[0].TOrd? {
      c := BuiltinDerives(Ord, ts);
    } else if ts[0].TChr? {
      c := BuiltinDerives(Chr, ts);
    } else if ts[0].TLength? {
      c := BuiltinDerives(Len, ts);
    } else if ts[0].TIdent? {
      c := NameDerives(ts[0].name, ts);
    } else if ts[0].TLParen? {
      var e := ExprDerives(ts[1..]);
      c := GroupDerives(ts, e);
    } else {
      c := AtomDerives(ts);
    }
  }

  lemma GroupDerives(ts: seq<Tok>, e: Src) returns (c: Src)
    requires ts != [] && ts[0] == TLParen && Factor(ts).Got?
    requires Formed(e) && TreeOf(e) == Expr(ts[1..]).e && Text(e) + Expr(ts[1..]).rest == ts[1..]
    ensures Formed(c) && Rank(c) == 4 && TreeOf(c) == Factor(ts).e && Text(c) + Factor(ts).rest == ts
  {
    hide Expr, Factor;
    GroupIs(ts);
    c := Group(e);
    Enclosed([TLParen], Text(e), [TRParen], Expr(ts[1..]).rest, ts);
  }

  /** Text with something in front and behind, out of the input it came from. */
  lemma Enclosed(open: seq<Tok>, inner: seq<Tok>, close: seq<Tok>, rest: seq<Tok>, ts: seq<Tok>)
    requires |open| <= |ts| && ts[..|open|] == open && inner + rest == ts[|open|..]
    requires |close| <= |rest| && rest[..|close|] == close
    ensures (open + (inner + close)) + rest[|close|..] == ts
  {
    assert ts == open + ts[|open|..] && rest == close + rest[|close|..];
    assert (open + (inner + close)) + rest[|close|..] == open + (inner + (close + rest[|close|..]));
  }

  lemma GroupIs(ts: seq<Tok>)
    requires ts != [] && ts[0] == TLParen && Factor(ts).Got?
    ensures var p := Expr(ts[1..]);
            p.Got? && At(p.rest, TRParen) && Factor(ts) == Got(p.e, p.rest[1..]) && p.rest[..1] == [TRParen]
              && ts[..1] == [TLParen]
  {
    hide Expr;
  }

  lemma AtomDerives(ts: seq<Tok>) returns (c: Src)
    requires ts != [] && Factor(ts).Got?
    requires ts[0].TInt? || ts[0].TTrue? || ts[0].TFalse? || ts[0].TStr?
    ensures Formed(c) && Rank(c) == 4 && TreeOf(c) == Factor(ts).e && Text(c) + Factor(ts).rest == ts
  {
    hide Expr;
    c := Atom(ts[0]);
    assert Text(c) + ts[1..] == ts;
  }

  lemma {:induction false} PrefixDerives(op: Un, ts: seq<Tok>) returns (c: Src)
    requires ts != [] && ((op == Neg && ts[0] == TMinus) || (op == Not && ts[0] == TNot)) && Factor(ts).Got?
    ensures Formed(c) && Rank(c) == 4 && TreeOf(c) == Factor(ts).e && Text(c) + Factor(ts).rest == ts
    decreases |ts| - 1, 1
  {
    hide Factor;
    SignIs(op, ts);
    var e := FactorDerives(ts[1..]);
    c := Signed(ts[0], e);
    Enclosed([ts[0]], Text(e), [], Factor(ts[1..]).rest, ts);
    assert Text(e) + [] == Text(e) && Factor(ts[1..]).rest[0..] == Factor(ts[1..]).rest;
  }

  lemma SignIs(op: Un, ts: seq<Tok>)
    requires ts != [] && ((op == Neg && ts[0] == TMinus) || (op == Not && ts[0] == TNot)) && Factor(ts).Got?
    ensures Factor(ts[1..]).Got? && Factor(ts) == Got(Unary(op, Factor(ts[1..]).e), Factor(ts[1..]).rest)
    ensures ts[..1] == [ts[0]] && Factor(ts[1..]).rest[..0] == []
  {
    hide Expr, AfterName;
  }

  lemma {:induction false} BuiltinDerives(op: Un, ts: seq<Tok>) returns (c: Src)
    requires ts != [] && (op == Ord || op == Chr || op == Len) && ts[0] == BuiltinTok(op) && Factor(ts).Got?
    ensures Formed(c) && Rank(c) == 4 && TreeOf(c) == Factor(ts).e && Text(c) + Factor(ts).rest == ts
    decreases |ts| - 1, 1
  {
    hide Expr, Factor;
    BuiltinIs(op, ts);
    var e := ExprDerives(ts[2..]);
    c := Applied(ts[0], e);
    Enclosed([ts[0], TLParen], Text(e), [TRParen], Expr(ts[2..]).rest, ts);
  }

  lemma BuiltinIs(op: Un, ts: seq<Tok>)
    requires ts != [] && (op == Ord || op == Chr || op == Len) && ts[0] == BuiltinTok(op) && Factor(ts).Got?
    ensures |ts| >= 2 && ts[..2] == [ts[0], TLParen]
    ensures var p := Expr(ts[2..]);
            p.Got? && At(p.rest, TRParen) && Factor(ts) == Got(Unary(op, p.e), p.rest[1..]) && p.rest[..1] == [TRParen]
  {
    hide Expr, Factor, Builtin;
    FactorBuiltin(op, ts);
    BuiltinParts(op, ts[1..]);
    Tails(ts);
    FirstIs(Expr(ts[2..]).rest);
  }

  lemma Tails(ts: seq<Tok>)
    requires |ts| >= 2
    ensures ts[1..][0] == ts[1] && ts[1..][1..] == ts[2..] && ts[..2] == [ts[0], ts[1]]
  {
  }

  lemma FirstIs(ts: seq<Tok>)
    ensures ts != [] ==> ts[..1] == [ts[0]]
  {
  }

  lemma BuiltinParts(op: Un, us: seq<Tok>)
    requires Builtin(op, us).Got?
    ensures At(us, TLParen)
    ensures var p := Expr(us[1..]); p.Got? && At(p.rest, TRParen) && Builtin(op, us) == Got(Unary(op, p.e), p.rest[1..])
  {
    hide Expr;
  }

  lemma FactorBuiltin(op: Un, ts: seq<Tok>)
    requires ts != [] && (op == Ord || op == Chr || op == Len) && ts[0] == BuiltinTok(op)
    ensures Factor(ts) == Builtin(op, ts[1..])
  {
    hide Expr, AfterName, Builtin, Prefixed;
  }

  lemma {:induction false} NameDerives(x: string, ts: seq<Tok>) returns (c: Src)
    requires ts != [] && ts[0] == TIdent(x) && Factor(ts).Got?
    ensures Formed(c) && Rank(c) == 4 && TreeOf(c) == Factor(ts).e && Text(c) + Factor(ts).rest == ts
    decreases |ts| - 1, 8
  {
    hide Expr, Args, Text, TreeOf, Formed, AfterName, Factor;
    if At(ts[1..], TLParen) {
      c := CallDerives(x, ts);
    } else if At(ts[1..], TLBracket) {
      IndexIs(x, ts);
      var e := ExprDerives(ts[2..]);
      c := IndexDerives(x, ts, e);
    } else {
      c := PlainDerives(x, ts);
    }
  }

  lemma PlainDerives(x: string, ts: seq<Tok>) returns (c: Src)
    requires ts != [] && ts[0] == TIdent(x) && Factor(ts).Got? && !At(ts[1..], TLParen) && !At(ts[1..], TLBracket)
    ensures Formed(c) && Rank(c) == 4 && TreeOf(c) == Factor(ts).e && Text(c) + Factor(ts).rest == ts
  {
    hide Expr, Args;
    var us := ts[1..];
    if At(us, TDot) {
      c := Dotted(x, us[1].name);
      assert Text(c) + us[2..] == ts;
    } else {
      c := Atom(ts[0]);
      assert Text(c) + us == ts;
    }
  }

  lemma IndexDerives(x: string, ts: seq<Tok>, e: Src) returns (c: Src)
    requires |ts| >= 2 && ts[0] == TIdent(x) && At(ts[1..], TLBracket) && Factor(ts).Got?
    requires Formed(e) && Expr(ts[2..]).Got? && TreeOf(e) == Expr(ts[2..]).e && Text(e) + Expr(ts[2..]).rest == ts[2..]
    ensures Formed(c) && Rank(c) == 4 && TreeOf(c) == Factor(ts).e && Text(c) + Factor(ts).rest == ts
  {
    hide Expr, Args, Factor, Text, TreeOf, Formed;
    IndexIs(x, ts);
    var p := Expr(ts[2..]);
    if At(p.rest[1..], TDot) {
      var f := p.rest[2].name;
      c := IndexedDot(x, e, f);
      IndexedIs(x, e, f);
      Enclosed([TIdent(x), TLBracket], Text(e), [TRBracket, TDot, TIdent(f)], p.rest, ts);
    } else {
      c := Indexed(x, e);
      IndexedIs(x, e, x);
      Enclosed([TIdent(x), TLBracket], Text(e), [TRBracket], p.rest, ts);
    }
  }

  lemma IndexedIs(x: string, e: Src, f: string)
    ensures Text(Indexed(x, e)) == [TIdent(x), TLBracket] + (Text(e) + [TRBracket])
    ensures Text(IndexedDot(x, e, f)) == [TIdent(x), TLBracket] + (Text(e) + [TRBracket, TDot, TIdent(f)])
    ensures TreeOf(Indexed(x, e)) == Index(x, TreeOf(e)) && TreeOf(IndexedDot(x, e, f)) == IndexField(x, TreeOf(e), f)
    ensures Formed(Indexed(x, e)) == Formed(e) == Formed(IndexedDot(x, e, f))
  {
  }

  lemma IndexIs(x: string, ts: seq<Tok>)
    requires ts != [] && ts[0] == TIdent(x) && At(ts[1..], TLBracket) && Factor(ts).Got?
    ensures |ts| >= 2 && ts[..2] == [TIdent(x), TLBracket]
    ensures var p := Expr(ts[2..]);
            && p.Got? && At(p.rest, TRBracket) && p.rest[..1] == [TRBracket]
            && if At(p.rest[1..], TDot)
               then |p.rest| > 2 && p.rest[2].TIdent? && p.rest[..3] == [TRBracket, TDot, TIdent(p.rest[2].name)]
                    && Factor(ts) == Got(IndexField(x, p.e, p.rest[2].name), p.rest[3..])
               else Factor(ts) == Got(Index(x, p.e), p.rest[1..])
  {
    hide Expr, Args;
    assert ts[1..][1..] == ts[2..];
  }

  lemma {:induction false} CallDerives(f: string, ts: seq<Tok>) returns (c: Src)
    requires |ts| >= 2 && ts[0] == TIdent(f) && ts[1] == TLParen && Factor(ts).Got?
    ensures Formed(c) && Rank(c) == 4 && TreeOf(c) == Factor(ts).e && Text(c) + Factor(ts).rest == ts
    decreases |ts| - 1, 7
  {
    hide Expr, Args, Factor, Formed, ArgsText;
    CallIs(f, ts);
    if At(ts[2..], TRParen) {
      c := Called(f, []);
      NoArgs(f, ts);
      assert TreeOf(c).args == [];
    } else {
      var args := ArgsDerive(f, [], ts[2..]);
      c := Called(f, args);
      CalledFormed(f, args);
      assert [] + TreesOf(args) == TreesOf(args);
      assert ts == [TIdent(f), TLParen] + ts[2..];
      assert Text(c) + Factor(ts).rest == [TIdent(f), TLParen] + (ArgsText(args) + Factor(ts).rest);
    }
  }

  lemma CalledFormed(f: string, args: seq<Src>)
    ensures Formed(Called(f, args)) <==> forall i :: 0 <= i < |args| ==> Formed(args[i])
  {
  }

  lemma NoArgs(f: string, ts: seq<Tok>)
    requires |ts| >= 3 && ts[0] == TIdent(f) && ts[1] == TLParen && ts[2] == TRParen
    ensures Formed(Called(f, [])) && Text(Called(f, [])) + ts[3..] == ts
  {
  }

  lemma CallIs(f: string, ts: seq<Tok>)
    requires |ts| >= 2 && ts[0] == TIdent(f) && ts[1] == TLParen
    ensures Factor(ts) == if At(ts[2..], TRParen) then Got(Call(f, []), ts[3..]) else Args(f, [], ts[2..])
  {
    hide Expr, Args;
    assert ts[1..][1..] == ts[2..];
    if |ts| > 2 { assert ts[1..][2..] == ts[3..]; }
  }

  lemma {:induction false} ArgsDerive(f: string, acc: seq<Tree>, ts: seq<Tok>) returns (args: seq<Src>)
    requires Args(f, acc, ts).Got?
    ensures args != [] && forall i :: 0 <= i < |args| ==> Formed(args[i])
    ensures Args(f, acc, ts).e == Call(f, acc + TreesOf(args)) && ArgsText(args) + Args(f, acc, ts).rest == ts
    decreases |ts|, 7
  {
    hide Expr, TreeOf, ArgsText, Text, Formed;
    var e := ExprDerives(ts);
    var p := Expr(ts);
    if At(p.rest, TComma) {
      var more := ArgsDerive(f, acc + [p.e], p.rest[1..]);
      args := [e] + more;
      assert acc + [p.e] + TreesOf(more) == acc + TreesOf(args);
      ArgsTextIs(e, more);
      assert p.rest[..1] == [TComma];
      MoreText(Text(e), p.rest, ArgsText(more), Args(f, acc, ts).rest, ts);
    } else {
      args := [e];
      assert [e] + [] == args && TreesOf(args) == [p.e];
      ArgsTextIs(e, []);
      assert p.rest[..1] == [TRParen] && ts[..0] == [] && ts[0..] == ts;
      Enclosed([], Text(e), [TRParen], p.rest, ts);
      assert [] + (Text(e) + [TRParen]) == Text(e) + [TRParen];
    }
  }

  lemma ArgsTextIs(e: Src, more: seq<Src>)
    ensures ArgsText([e] + more) == Text(e) + (if more == [] then [TRParen] else [TComma] + ArgsText(more))
  {
    assert ([e] + more)[1..] == more;
  }

  lemma MoreText(inner: seq<Tok>, rest: seq<Tok>, more: seq<Tok>, last: seq<Tok>, ts: seq<Tok>)
    requires inner + rest == ts && rest != [] && rest[..1] == [TComma] && more + last == rest[1..]
    ensures (inner + ([TComma] + more)) + last == ts
  {
    assert rest == [TComma] + rest[1..];
    assert (inner + ([TComma] + more)) + last == inner + ([TComma] + (more + last));
  }

  lemma {:induction false} TermDerives(ts: seq<Tok>) returns (c: Src)
    requires Term(ts).Got?
    ensures Formed(c) && Rank(c) >= 3 && TreeOf(c) == Term(ts).e && Text(c) + Term(ts).rest == ts
    decreases |ts|, 2
  {
    hide Factor, TermRest;
    var l := FactorDerives(ts);
    c := TermRestDerives(l, Factor(ts).rest);
  }

  lemma JoinedMul(l: Src, ts: seq<Tok>, r: Src, rest: seq<Tok>)
    requires Formed(l) && Rank(l) >= 3 && Formed(r) && Rank(r) == 4 && ts != [] && IsMul(ts[0])
    requires Text(r) + rest == ts[1..]
    ensures var j := Joined(l, ts[0], r);
            && Formed(j) && Rank(j) == 3 && TreeOf(j) == Mul(MulOf(ts[0]), TreeOf(l), TreeOf(r))
            && Text(j) + rest == Text(l) + ts
  {
    assert Text(Joined(l, ts[0], r)) + rest == Text(l) + ([ts[0]] + (Text(r) + rest));
  }

  lemma JoinedAdd(l: Src, ts: seq<Tok>, r: Src, rest: seq<Tok>)
    requires Formed(l) && Rank(l) >= 2 && Formed(r) && Rank(r) >= 3 && ts != [] && IsAdd(ts[0])
    requires Text(r) + rest == ts[1..]
    ensures var j := Joined(l, ts[0], r);
            && Formed(j) && Rank(j) == 2 && TreeOf(j) == Add(AddOf(ts[0]), TreeOf(l), TreeOf(r))
            && Text(j) + rest == Text(l) + ts
  {
    assert Text(Joined(l, ts[0], r)) + rest == Text(l) + ([ts[0]] + (Text(r) + rest));
  }

  /** The loop extends the derivation it starts with. */
  lemma {:induction false} TermRestDerives(l: Src, ts: seq<Tok>) returns (c: Src)
    requires Formed(l) && Rank(l) >= 3 && TermRest(TreeOf(l), ts).Got?
    ensures var p := TermRest(TreeOf(l), ts);
            Formed(c) && Rank(c) >= 3 && TreeOf(c) == p.e && Text(c) + p.rest == Text(l) + ts
    decreases |ts|, 1
  {
    hide Factor, Text, TreeOf, Formed;
    if ts == [] || !IsMul(ts[0]) {
      c := l;
    } else {
      var r := FactorDerives(ts[1..]);
      JoinedMul(l, ts, r, Factor(ts[1..]).rest);
      c := TermRestDerives(Joined(l, ts[0], r), Factor(ts[1..]).rest);
    }
  }

  lemma {:induction false} SimpleDerives(ts: seq<Tok>) returns (c: Src)
    requires Simple(ts).Got?
    ensures Formed(c) && Rank(c) >= 2 && TreeOf(c) == Simple(ts).e && Text(c) + Simple(ts).rest == ts
    decreases |ts|, 4
  {
    hide Term, SimpleRest;
    var l := TermDerives(ts);
    c := SimpleRestDerives(l, Term(ts).rest);
  }

  lemma {:induction false} SimpleRestDerives(l: Src, ts: seq<Tok>) returns (c: Src)
    requires Formed(l) && Rank(l) >= 2 && SimpleRest(TreeOf(l), ts).Got?
    ensures var p := SimpleRest(TreeOf(l), ts);
            Formed(c) && Rank(c) >= 2 && TreeOf(c) == p.e && Text(c) + p.rest == Text(l) + ts
    decreases |ts|, 3
  {
    hide Term, Text, TreeOf, Formed;
    if ts == [] || !IsAdd(ts[0]) {
      c := l;
    } else {
      var r := TermDerives(ts[1..]);
      JoinedAdd(l, ts, r, Term(ts[1..]).rest);
      c := SimpleRestDerives(Joined(l, ts[0], r), Term(ts[1..]).rest);
    }
  }

  /** Whatever is accepted was written by the rules, and nothing of it is lost: its derivation has the tree the
      parser returns, and its text with the rest is the whole input. */
  lemma {:induction false} ExprDerives(ts: seq<Tok>) returns (c: Src)
    requires Expr(ts).Got?
    ensures Formed(c) && TreeOf(c) == Expr(ts).e && Text(c) + Expr(ts).rest == ts
    decreases |ts|, 6
  {
    hide Simple, Text, TreeOf, Formed;
    var l := SimpleDerives(ts);
    var p := Simple(ts);
    if p.rest == [] || !p.rest[0].TRel? {
      c := l;
    } else {
      var r := SimpleDerives(p.rest[1..]);
      c := Joined(l, p.rest[0], r);
      JoinedRel(l, p.rest, r, Simple(p.rest[1..]).rest);
    }
  }

  lemma JoinedRel(l: Src, ts: seq<Tok>, r: Src, rest: seq<Tok>)
    requires Formed(l) && Rank(l) >= 2 && Formed(r) && Rank(r) >= 2 && ts != [] && ts[0].TRel?
    requires Text(r) + rest == ts[1..]
    ensures var j := Joined(l, ts[0], r);
            && Formed(j) && Rank(j) == 1 && TreeOf(j) == Relate(ts[0].rel, TreeOf(l), TreeOf(r))
            && Text(j) + rest == Text(l) + ts
  {
    assert Text(Joined(l, ts[0], r)) + rest == Text(l) + ([ts[0]] + (Text(r) + rest));
  }

  // ---- what has a derivation is accepted ----

  lemma {:induction false} FactorReads(c: Src, rest: seq<Tok>)
    requires Formed(c) && Rank(c) == 4 && EndsFactor(rest)
    ensures Factor(Text(c) + rest) == Got(TreeOf(c), rest)
    decreases c, 0
  {
    hide Expr, Args, Factor, EndsFactor;
    match c
    case Atom(_) => ShortReads(c, rest);
    case Dotted(_, _) => ShortReads(c, rest);
    case Group(e) =>
      Closers(rest, "");
      ExprReads(e, [TRParen] + rest);
      GroupParses(Text(e), TreeOf(e), rest);
    case Signed(t, e) =>
      FactorReads(e, rest);
      SignReads(c, rest);
    case Applied(t, e) =>
      Closers(rest, "");
      ExprReads(e, [TRParen] + rest);
      AppliedReads(c, rest);
    case Called(f, args) => CallReads(f, args, rest);
    case Indexed(x, idx) =>
      Closers(rest, "");
      ExprReads(idx, [TRBracket] + rest);
      IndexParses(x, Text(idx), TreeOf(idx), rest);
    case IndexedDot(x, idx, f) =>
      Closers(rest, f);
      ExprReads(idx, [TRBracket, TDot, TIdent(f)] + rest);
      IndexFieldParses(x, f, Text(idx), TreeOf(idx), rest);
  }

  lemma Closers(rest: seq<Tok>, f: string)
    ensures EndsExpr([TRParen] + rest) && EndsExpr([TRBracket] + rest) && EndsExpr([TRBracket, TDot, TIdent(f)] + rest)
  {
  }

  lemma ShortReads(c: Src, rest: seq<Tok>)
    requires Formed(c) && (c.Atom? || c.Dotted?) && EndsFactor(rest)
    ensures Factor(Text(c) + rest) == Got(TreeOf(c), rest)
  {
    hide Expr, Args;
    var ts := Text(c) + rest;
    if c.Dotted? {
      assert ts[1..] == [TDot, TIdent(c.f)] + rest && ts[1..][2..] == rest;
    } else {
      assert ts[1..] == rest;
    }
  }

  lemma SignReads(c: Src, rest: seq<Tok>)
    requires Formed(c) && c.Signed? && Factor(Text(c.arg) + rest) == Got(TreeOf(c.arg), rest)
    ensures Factor(Text(c) + rest) == Got(TreeOf(c), rest)
  {
    hide Expr, AfterName;
    assert (Text(c) + rest)[1..] == Text(c.arg) + rest;
  }

  lemma AppliedReads(c: Src, rest: seq<Tok>)
    requires Formed(c) && c.Applied? && Expr(Text(c.arg) + ([TRParen] + rest)) == Got(TreeOf(c.arg), [TRParen] + rest)
    ensures Factor(Text(c) + rest) == Got(TreeOf(c), rest)
  {
    hide Expr, Factor;
    ParenParses(if c.t.TOrd? then Ord else if c.t.TChr? then Chr else Len, Text(c.arg), TreeOf(c.arg), rest);
  }

  lemma {:induction false} CallReads(f: string, args: seq<Src>, rest: seq<Tok>)
    requires forall i :: 0 <= i < |args| ==> Formed(args[i])
    ensures Factor(Text(Called(f, args)) + rest) == Got(TreeOf(Called(f, args)), rest)
    decreases args, 9
  {
    hide Expr, Args, Factor, Formed;
    CallParses(f, ArgsText(args), rest);
    if args == [] {
      assert [TRParen][1..] + rest == rest;
      assert TreesOf(args) == [];
    } else {
      ArgsRead(f, [], args, rest);
      ArgsBegin(args);
      assert [] + TreesOf(args) == TreesOf(args);
    }
  }

  lemma {:induction false} NotClosing(c: Src)
    requires Formed(c)
    ensures Text(c) != [] && Text(c)[0] != TRParen
  {
    if c.Joined? { NotClosing(c.l); }
  }

  lemma ArgsBegin(args: seq<Src>)
    requires args != [] && Formed(args[0])
    ensures ArgsText(args) != [] && !ArgsText(args)[0].TRParen?
  {
    hide Text, Formed;
    NotClosing(args[0]);
  }

  lemma {:induction false} ArgsRead(f: string, acc: seq<Tree>, args: seq<Src>, rest: seq<Tok>)
    requires args != [] && forall i :: 0 <= i < |args| ==> Formed(args[i])
    ensures Args(f, acc, ArgsText(args) + rest) == Got(Call(f, acc + TreesOf(args)), rest)
    decreases args, 8
  {
    hide Args, Expr, Text, TreeOf, Formed;
    if |args| == 1 {
      ExprReads(args[0], [TRParen] + rest);
      ArgsStep(f, acc, Text(args[0]), TreeOf(args[0]), [], rest);
      assert acc + [TreeOf(args[0])] == acc + TreesOf(args);
    } else {
      var more := ArgsText(args[1..]);
      ExprReads(args[0], [TComma] + (more + rest));
      ArgsStep(f, acc, Text(args[0]), TreeOf(args[0]), more, rest);
      ArgsRead(f, acc + [TreeOf(args[0])], args[1..], rest);
      assert acc + [TreeOf(args[0])] + TreesOf(args[1..]) == acc + TreesOf(args);
    }
  }

  /** An operator's derivation in pieces, with `rest` behind it. */
  lemma JoinedParts(c: Src, rest: seq<Tok>)
    requires c.Joined? && Formed(c)
    ensures Formed(c.l) && Formed(c.r) && Tightness(c.t) > 0 && Rank(c.r) > Rank(c) == Tightness(c.t)
    ensures if Rank(c) == 1 then Rank(c.l) > 1 else Rank(c.l) >= Rank(c)
    ensures TreeOf(c) == Node(c.t, TreeOf(c.l), TreeOf(c.r))
    ensures Text(c) + rest == Text(c.l) + ([c.t] + (Text(c.r) + rest))
  {
  }

  lemma {:induction false} TermReads(c: Src, rest: seq<Tok>)
    requires Formed(c) && Rank(c) >= 3 && EndsFactor(rest)
    ensures Term(Text(c) + rest) == TermRest(TreeOf(c), rest)
    decreases c, 1
  {
    hide Factor, Expr, EndsFactor, Text, TreeOf, Formed;
    if c.Joined? {
      JoinedParts(c, rest);
      var more := Text(c.r) + rest;
      OpEnds(c.t, more);
      TermReads(c.l, [c.t] + more);
      FactorReads(c.r, rest);
      MulLoop(TreeOf(c.l), c.t, more);
    } else {
      FactorReads(c, rest);
    }
  }

  /** One turn of the loops. */
  lemma MulLoop(l: Tree, t: Tok, more: seq<Tok>)
    requires Tightness(t) == 3
    ensures TermRest(l, [t] + more) ==
              var p := Factor(more); if p.Got? then TermRest(Node(t, l, p.e), p.rest) else Fail
  {
    hide Factor;
    assert ([t] + more)[1..] == more;
  }

  lemma AddLoop(l: Tree, t: Tok, more: seq<Tok>)
    requires Tightness(t) == 2
    ensures SimpleRest(l, [t] + more) ==
              var p := Term(more); if p.Got? then SimpleRest(Node(t, l, p.e), p.rest) else Fail
  {
    hide Term;
    assert ([t] + more)[1..] == more;
  }

  lemma {:induction false} SimpleReads(c: Src, rest: seq<Tok>)
    requires Formed(c) && Rank(c) >= 2 && EndsTerm(rest)
    ensures Simple(Text(c) + rest) == SimpleRest(TreeOf(c), rest)
    decreases c, 2
  {
    hide Term, Expr, EndsTerm, EndsFactor, Text, TreeOf, Formed;
    EndsParts(rest);
    if c.Joined? && Rank(c) == 2 {
      JoinedParts(c, rest);
      var more := Text(c.r) + rest;
      OpEnds(c.t, more);
      SimpleReads(c.l, [c.t] + more);
      TermReads(c.r, rest);
      TermStops(TreeOf(c.r), rest);
      AddLoop(TreeOf(c.l), c.t, more);
    } else {
      TermReads(c, rest);
      TermStops(TreeOf(c), rest);
    }
  }

  lemma TermStops(e: Tree, rest: seq<Tok>)
    requires EndsTerm(rest)
    ensures TermRest(e, rest) == Got(e, rest)
  {
    hide Factor, EndsFactor;
  }

  lemma SimpleStops(e: Tree, rest: seq<Tok>)
    requires EndsSimple(rest)
    ensures SimpleRest(e, rest) == Got(e, rest)
  {
    hide Term, EndsTerm;
  }

  /** Whatever is written by the rules is accepted with its tree, up to a token that cannot continue it. */
  lemma {:induction false} ExprReads(c: Src, rest: seq<Tok>)
    requires Formed(c) && EndsExpr(rest)
    ensures Expr(Text(c) + rest) == Got(TreeOf(c), rest)
    decreases c, 3
  {
    hide Simple, Text, TreeOf, Formed, EndsSimple, EndsTerm;
    EndsSimply(rest);
    if c.Joined? && Rank(c) == 1 {
      JoinedParts(c, rest);
      var more := Text(c.r) + rest;
      RelEnds(c.t, more);
      SimpleReads(c.l, [c.t] + more);
      SimpleStops(TreeOf(c.l), [c.t] + more);
      SimpleReads(c.r, rest);
      SimpleStops(TreeOf(c.r), rest);
      assert ([c.t] + more)[1..] == more;
    } else {
      if c.Joined? { JoinedParts(c, rest); }
      SimpleReads(c, rest);
      SimpleStops(TreeOf(c), rest);
    }
  }

  lemma EndsSimply(rest: seq<Tok>)
    requires EndsExpr(rest)
    ensures EndsSimple(rest) && EndsTerm(rest)
  {
  }

  lemma RelEnds(t: Tok, more: seq<Tok>)
    requires t.TRel?
    ensures EndsSimple([t] + more) && EndsTerm([t] + more)
  {
  }

  /** The parser and the grammar agree: a whole token sequence is accepted with a tree exactly if it is the text of
      a derivation of that tree. */
  lemma ParserExact(ts: seq<Tok>, e: Tree)
    ensures Expr(ts) == Got(e, []) <==> exists c :: Formed(c) && Text(c) == ts && TreeOf(c) == e
  {
    hide Expr, Formed, Text, TreeOf;
    if Expr(ts) == Got(e, []) {
      var c := ExprDerives(ts);
      assert Text(c) + [] == Text(c);
    }
    forall c | Formed(c) && Text(c) == ts && TreeOf(c) == e
      ensures Expr(ts) == Got(e, [])
    {
      ExprReads(c, []);
      assert ts + [] == ts;
    }
  }

  /** In particular an operator between two operands is never read another way. */
  lemma Unambiguous(c: Src, d: Src)
    requires Formed(c) && Formed(d) && Text(c) == Text(d)
    ensures TreeOf(c) == TreeOf(d)
  {
    hide Expr, Formed, Text, TreeOf;
    ExprReads(c, []);
    ExprReads(d, []);
  }
}
