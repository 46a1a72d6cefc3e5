/** String literals are written to .rodata by one walk over the program and referred to by another. A
    literal after `write` is found again by counting, so both walks must meet these in the same order. A
    literal inside an expression stores its ordinal on its syntax node; there the orders differ, since
    arguments are emitted last to first and the indices of a record copy once for every field, and a node may
    be reached twice, since the body of `repeat` is shared by both places it stands in. */
module LiteralPool {

  type Bytes = seq<int>

  /** An expression literal's syntax node. */
  class Node {
    const text: Bytes
    var ord: int

    constructor (bytes: Bytes)
      ensures text == bytes && ord == -1
    {
      text, ord := bytes, -1;
    }
  }

  // ---- syntax, as far as literals occur in it ----

  datatype E =
    | Leaf                      // numbers, characters, variables
    | Lit(node: Node)
    | Bin(l: E, r: E)
    | Un(e: E)
    | Index(idx: E)             // x[idx]
    | Field(base: E)            // x.f, x[idx].f
    | Call(args: Es)

  datatype Es = Nil | Cons(hd: E, tl: Es)

  /** An argument of `write`: a bare literal or an expression. */
  datatype Arg = Bare(text: Bytes) | Value(e: E)

  /** Without an index, `index` is a leaf; `fields` is 0 unless a whole record is assigned. */
  datatype S =
    | Skip
    | Then(s1: S, s2: S)
    | Assign(index: E, value: E, fields: nat)
    | If(c: E, t: S, els: S)
    | While(c: E, body: S)
    | Do(args: Es)
    | Write(items: seq<Arg>)

  // ---- what the .rodata walk reaches ----

  function NodesE(e: E): set<Node> {
    match e
    case Leaf => {}
    case Lit(n) => {n}
    case Bin(l, r) => NodesE(l) + NodesE(r)
    case Un(e1) => NodesE(e1)
    case Index(idx) => NodesE(idx)
    case Field(b) => NodesE(b)
    case Call(args) => NodesA(args)
  }

  function NodesA(es: Es): set<Node> { if es.Nil? then {} else NodesE(es.hd) + NodesA(es.tl) }

  function NodesW(args: seq<Arg>): set<Node> {
    if args == [] then {} else (if args[0].Bare? then {} else NodesE(args[0].e)) + NodesW(args[1..])
  }

  function NodesS(s: S): set<Node> {
    match s
    case Skip => {}
    case Then(s1, s2) => NodesS(s1) + NodesS(s2)
    case Assign(i, v, _) => NodesE(i) + NodesE(v)
    case If(c, t, e) => NodesE(c) + NodesS(t) + NodesS(e)
    case While(c, b) => NodesE(c) + NodesS(b)
    case Do(args) => NodesA(args)
    case Write(args) => NodesW(args)
  }

  /** The bare literals of a statement, in source order. */
  function BareW(args: seq<Arg>): seq<Bytes> {
    if args == [] then [] else (if args[0].Bare? then [args[0].text] else []) + BareW(args[1..])
  }

  function BareS(s: S): seq<Bytes> {
    match s
    case Then(s1, s2) => BareS(s1) + BareS(s2)
    case If(_, t, e) => BareS(t) + BareS(e)
    case While(_, b) => BareS(b)
    case Write(args) => BareW(args)
    case _ => []
  }

  // ---- what the .text walk means to refer to, operand by operand ----

  function MeantE(e: E): seq<Bytes> {
    match e
    case Leaf => []
    case Lit(n) => [n.text]
    case Bin(l, r) => MeantE(l) + MeantE(r)
    case Un(e1) => MeantE(e1)
    case Index(idx) => MeantE(idx)
    case Field(b) => MeantE(b)
    case Call(args) => MeantA(args)
  }

  /** Arguments are emitted last to first. */
  function MeantA(es: Es): seq<Bytes> { if es.Nil? then [] else MeantA(es.tl) + MeantE(es.hd) }

  function MeantW(args: seq<Arg>): seq<Bytes> {
    if args == [] then [] else (if args[0].Bare? then [args[0].text] else MeantE(args[0].e)) + MeantW(args[1..])
  }

  /** A record copy computes both addresses again for each field, the source first. */
  function MeantCopy(i: E, v: E, n: nat): seq<Bytes> {
    if n == 0 then [] else MeantCopy(i, v, n - 1) + (MeantE(v) + MeantE(i))
  }

  function MeantS(s: S): seq<Bytes> {
    match s
    case Skip => []
    case Then(s1, s2) => MeantS(s1) + MeantS(s2)
    case Assign(i, v, n) => if n > 0 then MeantCopy(i, v, n) else MeantE(i) + MeantE(v)
    case If(c, t, e) => MeantE(c) + (MeantS(t) + MeantS(e))
    case While(c, b) => MeantE(c) + MeantS(b)
    case Do(args) => MeantA(args)
    case Write(args) => MeantW(args)
  }

  /** The operand of an emitted instruction: label str_k or strlit_k. */
  datatype Ref = StrRef(k: nat) | LitRef(ord: int)

  /** `texts` stand from position `k` on. */
  predicate Stands(all: seq<Bytes>, k: nat, texts: seq<Bytes>) {
    k + |texts| <= |all| && all[k..k + |texts|] == texts
  }

  lemma StandsSplit(all: seq<Bytes>, k: nat, a: seq<Bytes>, b: seq<Bytes>)
    requires Stands(all, k, a + b)
    ensures Stands(all, k, a) && Stands(all, k + |a|, b)
  {
    var w := all[k..k + |a + b|];
    assert all[k..k + |a|] == w[..|a|];
    assert all[k + |a|..k + |a| + |b|] == w[|a|..];
  }

  lemma StandsAt(all: seq<Bytes>, k: nat, text: Bytes)
    requires Stands(all, k, [text])
    ensures k < |all| && all[k] == text
  {
    assert all[k..k + 1][0] == text;
  }

  class Generator {
    var strs: seq<Bytes>
    var lits: seq<Bytes>

    constructor ()
      ensures strs == [] && lits == []
    {
      strs, lits := [], [];
    }

    /** The node's ordinal names a label that holds its bytes. */
    predicate Labelled(n: Node)
      reads this, n
    {
      0 <= n.ord < |lits| && lits[n.ord] == n.text
    }

    // ---- the .rodata walk ----

    method RodataE(e: E)
      requires forall n :: n in NodesE(e) ==> allocated(n)
      modifies this`lits, NodesE(e)
      ensures forall n :: n in NodesE(e) ==> Labelled(n)
      ensures forall n: Node :: old(allocated(n)) && old(Labelled(n)) ==> Labelled(n)
      decreases e
    {
      match e {
        case Leaf =>
        case Lit(n) =>
          n.ord := |lits|;
          lits := lits + [n.text];
        case Bin(l, r) =>
          RodataE(l);
          RodataE(r);
        case Un(e1) => RodataE(e1);
        case Index(idx) => RodataE(idx);
        case Field(b) => RodataE(b);
        case Call(args) => RodataA(args);
      }
    }

    method RodataA(es: Es)
      requires forall n :: n in NodesA(es) ==> allocated(n)
      modifies this`lits, NodesA(es)
      ensures forall n :: n in NodesA(es) ==> Labelled(n)
      ensures forall n: Node :: old(allocated(n)) && old(Labelled(n)) ==> Labelled(n)
      decreases es
    {
      if es.Cons? {
        RodataE(es.hd);
        RodataA(es.tl);
      }
    }

    method RodataW(args: seq<Arg>)
      requires forall n :: n in NodesW(args) ==> allocated(n)
      modifies this, NodesW(args)
      ensures strs == old(strs) + BareW(args)
      ensures forall n :: n in NodesW(args) ==> Labelled(n)
      ensures forall n: Node :: old(allocated(n)) && old(Labelled(n)) ==> Labelled(n)
      decreases |args|
    {
      if args != [] {
        if args[0].Bare? { strs := strs + [args[0].text]; } else { RodataE(args[0].e); }
        RodataW(args[1..]);
      }
    }

    method Rodata(s: S)
      requires forall n :: n in NodesS(s) ==> allocated(n)
      modifies this, NodesS(s)
      ensures strs == old(strs) + BareS(s)
      ensures forall n :: n in NodesS(s) ==> Labelled(n)
      ensures forall n: Node :: old(allocated(n)) && old(Labelled(n)) ==> Labelled(n)
      decreases s
    {
      match s {
        case Skip =>
        case Then(s1, s2) =>
          Rodata(s1);
          Rodata(s2);
        case Assign(i, v, _) =>
          RodataE(i);
          RodataE(v);
        case If(c, t, e) =>
          RodataE(c);
          Rodata(t);
          Rodata(e);
        case While(c, b) =>
          RodataE(c);
          Rodata(b);
        case Do(args) => RodataA(args);
        case Write(args) => RodataW(args);
      }
    }

    // ---- the .text walk ----

    /** The bytes an operand refers to. */
    function BytesOf(r: Ref): Bytes
      reads this
    {
      match r
      case StrRef(k) => if k < |strs| then strs[k] else []
      case LitRef(i) => if 0 <= i < |lits| then lits[i] else []
    }

    /** Operand by operand, the bytes meant. */
    ghost predicate Right(refs: seq<Ref>, meant: seq<Bytes>)
      reads this
    {
      |refs| == |meant| && forall i :: 0 <= i < |refs| ==> BytesOf(refs[i]) == meant[i]
    }

    lemma RightJoin(r1: seq<Ref>, m1: seq<Bytes>, r2: seq<Ref>, m2: seq<Bytes>)
      requires Right(r1, m1) && Right(r2, m2)
      ensures Right(r1 + r2, m1 + m2)
    {
    }

    ghost predicate AllLabelled(ns: set<Node>)
      reads this, ns
    {
      forall n :: n in ns ==> Labelled(n)
    }

    method TextE(e: E) returns (refs: seq<Ref>)
      requires (forall n :: n in NodesE(e) ==> allocated(n)) && AllLabelled(NodesE(e))
      ensures Right(refs, MeantE(e))
      decreases e
    {
      hide Right;
      match e {
        case Leaf => refs := Nothing();
        case Lit(n) => refs := NodeRef(n);
        case Bin(l, r) =>
          var r1 := TextE(l);
          var r2 := TextE(r);
          RightJoin(r1, MeantE(l), r2, MeantE(r));
          refs := r1 + r2;
        case Un(e1) => refs := TextE(e1);
        case Index(idx) => refs := TextE(idx);
        case Field(b) => refs := TextE(b);
        case Call(args) => refs := TextA(args);
      }
    }

    method Nothing() returns (refs: seq<Ref>)
      ensures Right(refs, []) && refs == []
    {
      refs := [];
    }

    method NodeRef(n: Node) returns (refs: seq<Ref>)
      requires Labelled(n)
      ensures Right(refs, [n.text])
    {
      refs := [LitRef(n.ord)];
    }

    /** Last argument first. */
    method TextA(es: Es) returns (refs: seq<Ref>)
      requires (forall n :: n in NodesA(es) ==> allocated(n)) && AllLabelled(NodesA(es))
      ensures Right(refs, MeantA(es))
      decreases es
    {
      hide Right;
      if es.Nil? {
        refs := Nothing();
      } else {
        var r1 := TextA(es.tl);
        var r2 := TextE(es.hd);
        RightJoin(r1, MeantA(es.tl), r2, MeantE(es.hd));
        refs := r1 + r2;
      }
    }

    /** The unrolled record copy. */
    method TextCopy(i: E, v: E, n: nat) returns (refs: seq<Ref>)
      requires (forall m :: m in NodesE(i) + NodesE(v) ==> allocated(m)) && AllLabelled(NodesE(i) + NodesE(v))
      ensures Right(refs, MeantCopy(i, v, n))
    {
      hide Right;
      refs := Nothing();
      var k := 0;
      while k < n
        invariant 0 <= k <= n && Right(refs, MeantCopy(i, v, k))
      {
        var r1 := TextE(v);
        var r2 := TextE(i);
        RightJoin(r1, MeantE(v), r2, MeantE(i));
        RightJoin(refs, MeantCopy(i, v, k), r1 + r2, MeantE(v) + MeantE(i));
        refs := refs + (r1 + r2);
        k := k + 1;
      }
    }

    /** With the next bare literal's ordinal `k`. */
    method TextW(args: seq<Arg>, k: nat) returns (refs: seq<Ref>, k': nat)
      requires Stands(strs, k, BareW(args)) && (forall n :: n in NodesW(args) ==> allocated(n))
      requires AllLabelled(NodesW(args))
      ensures k' == k + |BareW(args)| && Right(refs, MeantW(args))
      decreases |args|
    {
      hide Right, Stands;
      if args == [] {
        refs := Nothing();
        k' := k;
      } else if args[0].Bare? {
        StandsSplit(strs, k, [args[0].text], BareW(args[1..]));
        var r1 := BareRef(args[0].text, k);
        var r2;
        r2, k' := TextW(args[1..], k + 1);
        RightJoin(r1, [args[0].text], r2, MeantW(args[1..]));
        refs := r1 + r2;
      } else {
        assert [] + BareW(args[1..]) == BareW(args[1..]);
        var r1 := TextE(args[0].e);
        var r2;
        r2, k' := TextW(args[1..], k);
        RightJoin(r1, MeantE(args[0].e), r2, MeantW(args[1..]));
        refs := r1 + r2;
      }
    }

    method BareRef(text: Bytes, k: nat) returns (refs: seq<Ref>)
      requires Stands(strs, k, [text])
      ensures Right(refs, [text])
    {
      StandsAt(strs, k, text);
      refs := [StrRef(k)];
    }

    method Text(s: S, k: nat) returns (refs: seq<Ref>, k': nat)
      requires Stands(strs, k, BareS(s)) && (forall n :: n in NodesS(s) ==> allocated(n)) && AllLabelled(NodesS(s))
      ensures k' == k + |BareS(s)| && Right(refs, MeantS(s))
      decreases s
    {
      hide Right, Stands;
      match s {
        case Skip =>
          refs := Nothing();
          k' := k;
        case Then(s1, s2) =>
          StandsSplit(strs, k, BareS(s1), BareS(s2));
          var r1, k1 := Text(s1, k);
          var r2;
          r2, k' := Text(s2, k1);
          RightJoin(r1, MeantS(s1), r2, MeantS(s2));
          refs := r1 + r2;
        case Assign(i, v, n) =>
          k' := k;
          if n > 0 {
            refs := TextCopy(i, v, n);
          } else {
            var r1 := TextE(i);
            var r2 := TextE(v);
            RightJoin(r1, MeantE(i), r2, MeantE(v));
            refs := r1 + r2;
          }
        case If(c, t, e) =>
          StandsSplit(strs, k, BareS(t), BareS(e));
          var r0 := TextE(c);
          var r1, k1 := Text(t, k);
          var r2;
          r2, k' := Text(e, k1);
          RightJoin(r1, MeantS(t), r2, MeantS(e));
          RightJoin(r0, MeantE(c), r1 + r2, MeantS(t) + MeantS(e));
          refs := r0 + (r1 + r2);
        case While(c, b) =>
          var r0 := TextE(c);
          var r1;
          r1, k' := Text(b, k);
          RightJoin(r0, MeantE(c), r1, MeantS(b));
          refs := r0 + r1;
        case Do(args) =>
          refs := TextA(args);
          k' := k;
        case Write(args) => refs, k' := TextW(args, k);
      }
    }

    /** Both walks over a program, which is its routines' bodies in order and then the main block: every
        operand the second emits refers to the bytes meant at that place, for literals on shared nodes as
        well, and the bare literals are used up exactly. */
    method Emit(s: S) returns (refs: seq<Ref>)
      requires strs == [] && lits == [] && forall n :: n in NodesS(s) ==> allocated(n)
      modifies this, NodesS(s)
      ensures Right(refs, MeantS(s)) && strs == BareS(s)
    {
      Rodata(s);
      assert Stands(strs, 0, BareS(s)) by { assert strs == BareS(s) && strs[0..|strs|] == strs; }
      var k;
      refs, k := Text(s, 0);
    }
  }
}
