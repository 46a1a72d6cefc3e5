/** The abstract syntax of the seed Pascal subset after parsing and checking: names are case-folded
    strings, record fields are declaration-order indices, `for` and `repeat` are gone. A block is a
    right-nested `Seq`, a `write` with several arguments is the sequence of its items, and a
    whole-record assignment is the sequence of its field copies (seed/codegen.c:1133-1146). */
module Syntax {

  datatype Option<+T> = None | Some(value: T)

  datatype Ty = TInt | TBool | TChar

  /** What one variable, parameter or array element holds: a scalar or a record of scalars.
      Records are compared by type name. */
  datatype Elem = Scalar(ty: Ty) | Record(rname: string, fields: seq<Ty>)

  datatype Shape = One(elem: Elem) | Arr(lo: int, hi: int, elem: Elem)

  datatype VarDecl = VarDecl(name: string, shape: Shape)

  datatype Param = Param(name: string, isVar: bool, elem: Elem)

  datatype Routine = Routine(name: string, params: seq<Param>, result: Option<Ty>, locals: seq<VarDecl>, body: Stmt)

  datatype Program = Program(globals: seq<VarDecl>, routines: seq<Routine>, main: Stmt)

  datatype BinOp = Add | Sub | Mul | Div | Mod | Eq | Ne | Lt | Le | Gt | Ge | AndB | OrB

  datatype UnOp = Neg | Not | Ord | Chr

  datatype Expr =
    | IntLit(n: int)
    | BoolLit(b: bool)
    | CharLit(c: int)
    | Read(p: Place)
    | Binop(op: BinOp, l: Expr, r: Expr)
    | Unop(uop: UnOp, e: Expr)
    | Call(f: string, args: Exprs)

  datatype Exprs = Nil | Cons(hd: Expr, tl: Exprs)

  /** A designator: `x`, `x[idx]`, `x.k` or `x[idx].k`. */
  datatype Place =
    | Name(x: string)
    | At(x: string, idx: Expr)
    | Field(x: string, k: nat)
    | AtField(x: string, idx: Expr, k: nat)

  datatype Stmt =
    | Skip
    | Seq(s1: Stmt, s2: Stmt)
    | Assign(p: Place, e: Expr)
    | CopyField(dst: Place, src: Place)
    | If(c: Expr, t: Stmt)
    | IfElse(c: Expr, t: Stmt, els: Stmt)
    | While(c: Expr, body: Stmt)
    | CallStmt(f: string, args: Exprs)
    | WriteLit(text: seq<int>)
    | WriteVal(ty: Ty, e: Expr)
    | WriteLn

  /** Dword count of an element; a record without fields still takes one (seed/codegen.c:975). */
  function Words(e: Elem): (w: nat)
    ensures w >= 1
  {
    match e
    case Scalar(_) => 1
    case Record(_, fs) => if |fs| == 0 then 1 else |fs|
  }

  /** Dword count of a variable. */
  function Cells(s: Shape): nat {
    match s
    case One(e) => Words(e)
    case Arr(lo, hi, e) => if lo <= hi then (hi - lo + 1) * Words(e) else 0
  }

  /** The variable `x` among declarations, the first one winning. */
  function FindVar(ds: seq<VarDecl>, x: string): Option<Shape> {
    if ds == [] then None
    else if ds[0].name == x then Some(ds[0].shape)
    else FindVar(ds[1..], x)
  }

  function FindRoutine(rs: seq<Routine>, f: string): (o: Option<Routine>)
    ensures o.Some? ==> o.value in rs && o.value.name == f
  {
    if rs == [] then None
    else if rs[0].name == f then Some(rs[0])
    else FindRoutine(rs[1..], f)
  }

  function FindParam(ps: seq<Param>, x: string): Option<Param> {
    if ps == [] then None
    else if ps[0].name == x then Some(ps[0])
    else FindParam(ps[1..], x)
  }

  function Length(es: Exprs): nat {
    match es
    case Nil => 0
    case Cons(_, tl) => 1 + Length(tl)
  }

  /** How a routine declares a name: parameters, then the function result under the routine's own
      name, then locals. `isRef` marks a `var` parameter. */
  datatype Decl = Decl(isRef: bool, shape: Shape)

  function FindDecl(r: Routine, x: string): Option<Decl> {
    var p := FindParam(r.params, x);
    if p.Some? then Some(Decl(p.value.isVar, One(p.value.elem)))
    else if r.result.Some? && x == r.name then Some(Decl(false, One(Scalar(r.result.value))))
    else
      var l := FindVar(r.locals, x);
      if l.Some? then Some(Decl(false, l.value)) else None
  }

  /** Declarations after others are found when the others do not have the name. */
  lemma {:induction false} FindAppend(a: seq<VarDecl>, b: seq<VarDecl>, x: string)
    ensures FindVar(a + b, x) == if FindVar(a, x).Some? then FindVar(a, x) else FindVar(b, x)
  {
    if a == [] {
      assert a + b == b;
    } else {
      assert (a + b)[1..] == a[1..] + b;
      FindAppend(a[1..], b, x);
    }
  }

  lemma {:induction false} NotFound(ds: seq<VarDecl>, x: string)
    ensures FindVar(ds, x).None? <==> forall i :: 0 <= i < |ds| ==> ds[i].name != x
  {
    if ds != [] {
      NotFound(ds[1..], x);
      assert forall i :: 1 <= i < |ds| ==> ds[i] == ds[1..][i - 1];
      if FindVar(ds, x).None? {
        forall i | 0 <= i < |ds|
          ensures ds[i].name != x
        {
          if i > 0 { assert ds[1..][i - 1].name != x; }
        }
      }
    }
  }

  /** Field `k` of the record a name or an array element designates. */
  function FieldPlace(p: Place, k: nat): Place {
    match p
    case Name(x) => Field(x, k)
    case At(x, idx) => AtField(x, idx, k)
    case _ => p
  }

  // ---- sizes, for termination ----

  function SizeE(e: Expr): nat
    decreases e, 0
  {
    match e
    case Read(p) => 1 + SizeP(p)
    case Binop(_, l, r) => 1 + SizeE(l) + SizeE(r)
    case Unop(_, e1) => 1 + SizeE(e1)
    case Call(_, args) => 1 + SizeA(args)
    case _ => 1
  }

  function SizeP(p: Place): nat
    decreases p, 0
  {
    match p
    case At(_, idx) => 1 + SizeE(idx)
    case AtField(_, idx, _) => 1 + SizeE(idx)
    case _ => 1
  }

  function SizeA(es: Exprs): nat
    decreases es, 0
  {
    match es
    case Nil => 0
    case Cons(e, rest) => 1 + SizeE(e) + SizeA(rest)
  }

  /** The arguments from position `i` on. */
  function From(es: Exprs, i: nat): (r: Exprs)
    requires i <= Length(es)
    ensures Length(r) == Length(es) - i && SizeA(r) <= SizeA(es)
  {
    if i == 0 then es else From(es.tl, i - 1)
  }

  lemma {:induction false} FromStep(es: Exprs, i: nat)
    requires i < Length(es)
    ensures From(es, i).Cons? && From(es, i).tl == From(es, i + 1)
  {
    if i > 0 { FromStep(es.tl, i - 1); }
  }
}
