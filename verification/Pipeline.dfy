/** Parser, checker and generator one after the other, as the driver runs them, and what the result is for
    the source program. */
module Pipeline {
  import opened Syntax
  import opened Semantics
  import opened Machine
  import opened Codegen
  import opened Simulation
  import opened Typecheck
  import opened TypeSoundness
  import opened Behaviour
  import opened Checked
  import opened Folding
  import opened ConstTable
  import opened ConstCheck
  import Checker
  import Emitter
  import Emission

  /** A source run: constants in cells of their own, every other global zero. */
  function Meaning(items: seq<Item>, main: Stmt, fuel: nat): Res<()> {
    EvalS(Unfolded(items, main), fuel, Main, Folding.Join(St(ZeroStore(Vars(items)), []), Constants(items)), main)
  }

  ghost predicate Halts(items: seq<Item>, main: Stmt, out: seq<Event>) {
    exists fuel: nat :: Meaning(items, main, fuel).Ok? && Meaning(items, main, fuel).st.out == out
  }

  ghost predicate Faults(items: seq<Item>, main: Stmt, out: seq<Event>) {
    exists fuel: nat :: Meaning(items, main, fuel) == Fault(out)
  }

  ghost predicate Diverges(items: seq<Item>, main: Stmt) {
    forall fuel: nat :: Meaning(items, main, fuel).Timeout?
  }

  /** No run of the source reads an uninitialised variable or indexes outside an array. */
  ghost predicate Defined(items: seq<Item>, main: Stmt) {
    forall fuel: nat :: !Meaning(items, main, fuel).Undef?
  }

  lemma MeaningIs(items: seq<Item>, main: Stmt, fuel: nat)
    requires LitItems(items) && Accepts(Viewed(items, main), Constants(items).Keys)
    requires DeclaredBeforeUse(items, map[], Constants(items))
    ensures var m, r := Meaning(items, main, fuel), EvalProgram(Parsed(items, main), fuel);
            if r.Ok? then m.Ok? && m.st.out == r.st.out else m == r
  {
    hide EvalS, EvalProgram, Accepts, DeclaredBeforeUse;
    AcceptedPreserves(items, main, fuel);
  }

  /** The whole way: an accepted source program with constants declared before use, which stays defined, and
      the image made from it halt, fault and diverge alike, with the same output. */
  lemma SourceBehaviour(items: seq<Item>, main: Stmt, out: seq<Event>)
    requires LitItems(items) && Accepts(Viewed(items, main), Constants(items).Keys)
    requires DeclaredBeforeUse(items, map[], Constants(items))
    requires ProgramOk(Parsed(items, main)) && Defined(items, main)
    ensures Halts(items, main, out) <==> MachineEnds(Parsed(items, main), Halted, out)
    ensures Faults(items, main, out) <==> MachineEnds(Parsed(items, main), DivFault, out)
    ensures Diverges(items, main) <==> MachineDiverges(Parsed(items, main))
    ensures !MachineEnds(Parsed(items, main), Stuck, out)
  {
    hide EvalProgram, Meaning, Accepts, DeclaredBeforeUse, ProgramOk, CheckProgram, MachineEnds, MachineDiverges,
      Parsed;
    var P := Parsed(items, main);
    forall fuel: nat
      ensures var m, r := Meaning(items, main, fuel), EvalProgram(P, fuel);
              if r.Ok? then m.Ok? && m.st.out == r.st.out else m == r
    {
      MeaningIs(items, main, fuel);
    }
    ParsedChecks(items, main);
    CheckedBehaviour(P, out);
  }

  /** What the parser guarantees of its output: literals as constants, scalars as value parameters. */
  predicate WellFormed(items: seq<Item>) {
    && LitItems(items)
    && forall i, j ::
         0 <= i < |items| && items[i].RoutineDef? && 0 <= j < |items[i].r.params| && !items[i].r.params[j].isVar ==>
           items[i].r.params[j].elem.Scalar?
  }

  lemma {:induction false} ForwardParams(items: seq<Item>, K: Consts, r: Routine, j: nat)
    requires WellFormed(items) && r in Forward(items, K) && j < |r.params| && !r.params[j].isVar
    ensures r.params[j].elem.Scalar?
  {
    hide FoldS, Visible;
    var rest := items[1..];
    assert forall i :: 0 <= i < |rest| ==> rest[i] == items[i + 1];
    match items[0]
    case ConstDef(x, lit) => ForwardParams(rest, Register(K, x, lit), r, j);
    case VarDef(_) => ForwardParams(rest, K, r, j);
    case RoutineDef(q) =>
      if r == FoldR(K, q) { assert q.params[j] == r.params[j]; } else { ForwardParams(rest, K, r, j); }
  }

  lemma {:induction false} ConstVarScalar(items: seq<Item>, i: nat)
    requires i < |ConstVars(items)|
    ensures ConstVars(items)[i].shape.One? && ConstVars(items)[i].shape.elem.Scalar?
  {
    if items[0].ConstDef? {
      if i > 0 { ConstVarScalar(items[1..], i - 1); }
    } else {
      ConstVarScalar(items[1..], i);
    }
  }

  lemma {:induction false} ConstNamed(items: seq<Item>, K: Consts, x: string) returns (i: nat)
    requires x in After(items, K) && x !in K
    ensures i < |ConstVars(items)| && ConstVars(items)[i].name == x
  {
    if items[0].ConstDef? && items[0].name == x {
      i := 0;
    } else {
      i := ConstNamed(items[1..], if items[0].ConstDef? then Register(K, items[0].name, items[0].lit) else K, x);
      if items[0].ConstDef? { i := i + 1; }
    }
  }

  /** So the checker can start on it. */
  lemma ViewedOk(items: seq<Item>, main: Stmt)
    requires WellFormed(items)
    ensures Checker.ParsedOk(Viewed(items, main), Constants(items).Keys)
  {
    var gs, n := Vars(items) + ConstVars(items), |Vars(items)|;
    forall r, j | r in Forward(items, map[]) && 0 <= j < |r.params| && !r.params[j].isVar
      ensures r.params[j].elem.Scalar?
    {
      ForwardParams(items, map[], r, j);
    }
    if Checker.Distinct(gs) {
      forall i | 0 <= i < |gs| && gs[i].name in Constants(items)
        ensures gs[i].shape.One? && gs[i].shape.elem.Scalar?
      {
        var k := ConstNamed(items, map[], gs[i].name);
        assert gs[n + k] == ConstVars(items)[k];
        assert i == n + k;
        ConstVarScalar(items, k);
      }
    }
  }

  /** Parses, checks and, if the check passes, generates. The verdict is the rules'; the code never contains
      the generator's abort, all its jumps land, all its globals exist exactly when constants are declared
      before use, and then it behaves as the source does. */
  method CompileSource(items: seq<Item>, main: Stmt) returns (ok: bool, img: Image)
    requires WellFormed(items)
    ensures ok <==> Accepts(Viewed(items, main), Constants(items).Keys)
    ensures ok ==> img == Compile(Parsed(items, main))
    ensures ok ==> forall k :: 0 <= k < |img.code| && Emission.TargetOf(img.code[k]).Some? ==>
                     Lbl(Emission.TargetOf(img.code[k]).value) in img.code
    ensures ok ==> (DeclaredBeforeUse(items, map[], Constants(items)) <==>
                    forall i :: i in img.code && Emission.GlobalOf(i).Some? ==> Emission.GlobalOf(i).value in img.gaddr)
    ensures ok && DeclaredBeforeUse(items, map[], Constants(items)) ==> Ice !in img.code
    ensures ok && DeclaredBeforeUse(items, map[], Constants(items)) && ProgramOk(Parsed(items, main))
            && Defined(items, main) ==>
              forall out ::
                && (Halts(items, main, out) <==> MachineEnds(Parsed(items, main), Halted, out))
                && (Faults(items, main, out) <==> MachineEnds(Parsed(items, main), DivFault, out))
                && !MachineEnds(Parsed(items, main), Stuck, out)
    ensures ok && DeclaredBeforeUse(items, map[], Constants(items)) && ProgramOk(Parsed(items, main))
            && Defined(items, main) ==>
              (Diverges(items, main) <==> MachineDiverges(Parsed(items, main)))
  {
    hide *;
    var P, K := ParseOnly(items, main);
    ok := CheckOnly(items, main, P, K);
    img := GenerateOnly(P);
    CompiledMeans(items, main, ok);
  }

  /** The parser and its constant table. */
  method ParseOnly(items: seq<Item>, main: Stmt) returns (P: Program, K: set<string>)
    ensures P == Parsed(items, main) && K == Constants(items).Keys
  {
    var scopes := new Scopes();
    P := scopes.ParseProgram(items, main);
    K := scopes.Names();
  }

  method CheckOnly(items: seq<Item>, main: Stmt, P: Program, K: set<string>) returns (ok: bool)
    requires WellFormed(items) && P == Parsed(items, main) && K == Constants(items).Keys
    ensures ok <==> Accepts(Viewed(items, main), Constants(items).Keys)
  {
    ViewedOk(items, main);
    var tc := new Checker.Tc(P.(globals := P.globals + ConstVars(items)), K);
    ok := tc.Check();
  }

  method GenerateOnly(P: Program) returns (img: Image)
    ensures img == Compile(P)
  {
    var cg := new Emitter.Cg(P);
    cg.EmitProgram();
    img := Image(cg.out, GlobalAddrs(P.globals, 0), RoutineLiterals(P.routines) + Literals(P.main));
  }

  lemma CompiledMeans(items: seq<Item>, main: Stmt, ok: bool)
    requires WellFormed(items) && (ok <==> Accepts(Viewed(items, main), Constants(items).Keys))
    ensures var img := Compile(Parsed(items, main));
            && (ok ==> forall k :: 0 <= k < |img.code| && Emission.TargetOf(img.code[k]).Some? ==>
                         Lbl(Emission.TargetOf(img.code[k]).value) in img.code)
            && (ok ==> (DeclaredBeforeUse(items, map[], Constants(items)) <==>
                        forall i :: i in img.code && Emission.GlobalOf(i).Some?
                          ==> Emission.GlobalOf(i).value in img.gaddr))
            && (ok && DeclaredBeforeUse(items, map[], Constants(items)) ==> Ice !in img.code)
    ensures ok && DeclaredBeforeUse(items, map[], Constants(items)) && ProgramOk(Parsed(items, main))
            && Defined(items, main) ==>
              forall out ::
                && (Halts(items, main, out) <==> MachineEnds(Parsed(items, main), Halted, out))
                && (Faults(items, main, out) <==> MachineEnds(Parsed(items, main), DivFault, out))
                && !MachineEnds(Parsed(items, main), Stuck, out)
    ensures ok && DeclaredBeforeUse(items, map[], Constants(items)) && ProgramOk(Parsed(items, main))
            && Defined(items, main) ==>
              (Diverges(items, main) <==> MachineDiverges(Parsed(items, main)))
  {
    var P := Parsed(items, main);
    hide Compile, Parsed, Accepts, DeclaredBeforeUse, ProgramOk, Defined, Halts, Faults, Diverges, MachineEnds,
      MachineDiverges;
    if ok {
      var img := Compile(P);
      forall k | 0 <= k < |img.code| && Emission.TargetOf(img.code[k]).Some?
        ensures Lbl(Emission.TargetOf(img.code[k]).value) in img.code
      {
        Emission.JumpsDefined(P, k);
      }
      StorageExact(items, main);
      if DeclaredBeforeUse(items, map[], Constants(items)) {
        ParsedChecks(items, main);
        if Ice in img.code { Emission.CheckedClean(P, Ice); }
        if ProgramOk(P) && Defined(items, main) {
          forall out
            ensures Halts(items, main, out) <==> MachineEnds(P, Halted, out)
            ensures Faults(items, main, out) <==> MachineEnds(P, DivFault, out)
            ensures !MachineEnds(P, Stuck, out)
            ensures Diverges(items, main) <==> MachineDiverges(P)
          {
            SourceBehaviour(items, main, out);
          }
          SourceBehaviour(items, main, []);
        }
      }
    }
  }
}
