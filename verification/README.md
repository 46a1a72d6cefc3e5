# The seed Pascal compiler, modelled and verified

The repository's `seed/` directory holds a small compiler from a Turbo-Pascal-like language to 32-bit x86
assembly: a lexer, a recursive-descent parser that rewrites `for` and `repeat` and folds constants, a type
checker and a stack-machine code generator. This project models that pipeline in Dafny and proves what each
stage promises, up to one theorem about whole programs: a program and the image generated for it halt,
fault and diverge alike, with the same output. A second, small part is the glob-intersection decision of
`harness/check_fixture_volumes.c`.

## How the pieces fit

**Programs and their meaning.** `Syntax` is the abstract syntax after checking. `Semantics` is a big-step
evaluator that knows nothing of machines: 32-bit wrapping integers, `div`/`mod` truncating toward zero,
complete evaluation of `and`/`or`, right-to-left arguments, `var` parameters as references to the caller's
cell, a fault for a zero divisor and for MinInt div -1. Fuel bounds loop turns and call depth only, and
`Fuel` shows that an outcome does not depend on it. `Operators` says in plain arithmetic what each operator and
each way of printing means, for the evaluator and for the instructions.

**The generator.** `Machine` is the target: registers, tagged words, dword memory, labels and exactly the
instructions the generator emits. `Codegen` is the generator as functions, `Emitter` the same generator as
the stateful program it is, with its output, label counter, literal counter and scope table. `Layout` and
`FrameMap` say where variables live; `Simulation`, `Instructions`, `Addressing`, `Frames` and `Correctness`
prove that emitted code keeps memory in step with the source store; `Linking` and `Emission` are about
labels and jumps; `Departures`, `RefWitness` and `RecordCopy` are about the places where the emitted code
leaves its own conventions; `Behaviour` and `Checked` state the theorems about generated code, and
`Pipeline` the one about parser, checker and generator together.

**The checker.** `Typecheck` holds the type rules, `Checker` the checker with its tables and latched error,
`TypeSoundness` the proof that checked programs do not go wrong, `Completeness` the converse, `ConstCheck` what acceptance means for
constants.

**The front end.** `Lexer`, `ExprParser` with `ExprGrammar`, the rules it is exact for, and `ExprMeaning`,
which evaluates what is parsed, `Desugar` (with `Threats`, which says what code can read or write
a variable), `Folding` and `ConstTable`.

**Strings.** `StrPlan` is the allocation of temporaries, `StrIntrinsics` the hand-written string routines
run instruction by instruction, `StrCode` the code for string expressions, `LiteralPool` the two walks that
write and refer to literals.

## Where the code departs from its intent

The model follows the code. Each departure is stated with the condition under which the code does what its
comments say; the conditions are exact unless "Left out" says otherwise.

- A frame-resident array of records mixes downward elements with upward fields: a later field of the first
  element leaves the array (`Departures.ElemFieldInside`, `Departures.LocalRecordArray`); in a procedure
  whose first local it is, that field is the saved EBP (`Departures.FirstElementHitsControl`).
- A bare local record of two or more fields passed to a `var` parameter: the callee finds only field 0 where
  the caller has it. Global records, elements of any array and records that are `var` parameters themselves
  are passed right (`Departures.RefFieldTransparent`, `Departures.ByReference`); `RefWitness.RecordNotReached`
  is an accepted program that means 7 and prints 1.
- A whole-record assignment computes index expressions again for every field. `a[a[1].k] := r` tears the
  record (`RecordCopy.CopyTears`), and `RecordCopy.SelfIndexExact` says exactly when such a statement does; an
  index that calls a function calls it for every field (`RecordCopy.CallIndexExact`); with indices that read only the block's own scalars it is always the assignment
  (`RecordCopy.CopyIsAssignment`).
- `write` of a literal containing a NUL prints the text before it (`Departures.PrintsWhole`).
- `for` with the largest (smallest) integer as final value never ends (`Desugar.ExtremeNeverEnds`,
  `Desugar.ForExact`), and a final value that reads the control variable sees the initial value
  (`Desugar.BoundReadsControl`).
- A constant used in a routine before its declaration is accepted by the checker, is not folded, and names
  storage that does not exist (`ConstTable.EarlyUse`). Declaration before use is the exact condition, for
  folding (`ConstTable.ForwardExact`) and for the code (`ConstCheck.StorageExact`).
- Strings that need a temporary in one of four positions get index -1: under `length`, in the index of a
  record field, in the indices of a whole-record assignment, in the first character of a concatenation
  (`StrPlan.PlanSoundS`, `StrPlan.PlanSoundV`, `StrPlan.PlanRoutine`); that index names the locals
  (`StrCode.TempInside`).
- An expression literal of more than 255 bytes keeps its length only modulo 256
  (`StrIntrinsics.LiteralExact`).

## Model

| member | source | states |
|---|---|---|
| Behaviour.CompilerCorrect | seed/codegen.c:2587-2793 | For every program within `ProgramOk` and every fuel: if the source finishes, the machine halts with the same output and every global cell holds its source value; if it faults, the machine raises the divide error after the same output; if it is still running, so is the machine, after at least as many steps. Covers recursion, mutual recursion and `var` parameters |
| Behaviour.SameBehaviour | seed/codegen.c:2587-2793 | Observable equivalence in both directions for programs that stay defined: halts iff halts, faults iff faults, diverges iff diverges, and the machine is never stuck |
| Checked.CheckedBehaviour | seed/typecheck.c:2076-2152 | The same equivalence for every accepted program whose runs stay initialised and in bounds |
| Checked.CheckedCells | seed/codegen.c:1540-1588 | When an accepted program halts, every boolean global in machine memory is 0 or 1 and every character global 0..255, so the `xor eax,1` and setcc encodings hold |
| Checked.OrdinaryCovered | seed/codegen.c:1098-1120 | Every accepted program whose declarations have sensible sizes, which writes no NUL and has no local variable with records of several fields is within `ProgramOk`, so the theorems above cover it |
| Pipeline.CompileSource | seed/initechc.c:131-164 | Parses, checks and generates; the verdict is the rules' verdict, every jump lands, every global referred to exists iff constants are declared before use, and then the image contains no abort and halts, faults and diverges as the source program does, with the same output |
| Pipeline.SourceBehaviour | seed/initechc.c:131-164 | From source to machine: a source program with its constants in cells of their own and the image made from its folded form behave alike, in both directions |
| Correctness.ExprRuns | seed/codegen.c:1444-1598 | Running an expression's code leaves its 32-bit value in EAX with ESP and EBP restored and nothing at or above the entry ESP changed except source cells, faulting exactly when the source does |
| Correctness.BinopRuns | seed/codegen.c:1317-1442 | Both operands are evaluated, left first, through the data stack, and combined as the source operator says |
| Instructions.CombineExec | seed/codegen.c:1346-1425 | The operator's instructions compute the source operation on encoded values and fault exactly on a zero divisor or MinInt div -1 |
| Int32.QuotientInRange | seed/codegen.c:1373-1381 | The quotient of two words leaves the word range only for MinInt div -1; the remainder is smaller than the divisor and has the dividend's sign |
| Operators.IntegersCompute | seed/codegen.c:1346-1381 | On words, `+ - *` give the congruent word, `div` and `mod` the truncated quotient and the remainder, with a fault exactly on a zero divisor and on -2147483648 div -1, for operands of any form |
| Operators.RelationsAre | seed/codegen.c:1382-1425 | The six relations, written out: numbers by size, characters by code, false below true |
| Operators.LiteralsCompare | seed/codegen.c:1382-1425 | `x op y` on two literals is the relation of the numbers, for each of the six operators |
| Operators.ConnectivesCompute | seed/codegen.c:1346-1371 | `and` is conjunction and `or` disjunction |
| Operators.UnaryComputes | seed/codegen.c:1528-1560 | Negation gives the congruent word, `not` the opposite, `ord` the code, 0 or 1, or the number itself, `chr` the number modulo 256 |
| Operators.SetccComputes | seed/codegen.c:1382-1425 | `cmp eax, ecx; setcc al; movzx eax, al` leaves 1 iff the numbers are so related; the machine decides by the zero flag and by sign against overflow of the difference |
| Operators.AluComputes | seed/codegen.c:1346-1371 | `add`, `sub` and `imul` leave the congruent word |
| Operators.WritesPrint | seed/codegen.c:1602-1672 | A number is put out as a number, a character as its byte, true as 84 82 85 69, false as 70 65 76 83 69, a literal as its bytes, the end of a line as 10 |
| Operators.HelpersPrint | seed/codegen.c:2725-2726 | The runtime calls put out the same, given the labels of the two texts |
| Operators.ConditionsChoose | seed/codegen.c:1791-1839 | A true condition takes the branch or another turn, a false one the other branch or the exit |
| Correctness.PlaceRuns | seed/codegen.c:1065-1120 | Address code for `x`, `x[i]`, `x.k`, `x[i].k` leaves the address of exactly the designated cell in EAX |
| Addressing.ElemRuns | seed/codegen.c:919-994 | Index scaling does not wrap and reaches the element, downward in frames and upward in `.bss` |
| Addressing.FieldAddr | seed/codegen.c:1098-1120 | The field-offset direction the generator picks reaches field k of a global, of a frame record and of a record seen through any chain of `var` parameters |
| Correctness.ArgsRuns | seed/codegen.c:1985-1992 | Arguments are evaluated right to left; afterwards argument i stands i dwords above ESP, a value or the address of the caller's cell |
| Frames.ParamAt | seed/codegen.c:561-564 | Parameter i is resolved to [ebp+8+4i] |
| Frames.EntryMem | seed/codegen.c:2322-2347 | After call and prologue the callee's store is in memory: value parameters in their slots, every caller cell where it was |
| Correctness.CallRuns | seed/codegen.c:1969-1997 | A call at any depth computes what the source call computes, returns the result in EAX, restores ESP and EBP, and changes only source cells above the caller's stack pointer |
| Correctness.BodyRuns | seed/codegen.c:2322-2384 | From pushed arguments through prologue, body and epilogue back to the caller |
| Correctness.StmtRuns | seed/codegen.c:1676-1844 | Running a statement's code with its labels and jumps reaches a state encoding the source store with the same output, for every statement, including loops that do not end |
| Correctness.WhileRuns | seed/codegen.c:1828-1839 | The loop's code follows the source loop turn by turn |
| Correctness.WriteLitRuns | seed/codegen.c:1602-1611 | The k-th write literal visited by the text pass prints the bytes the rodata pass stored under label k |
| Linking.StmtLabels | seed/codegen.c:1791-1839 | The labels a statement emits are pairwise distinct and numbered inside the range the counter moved over |
| Linking.AllLabelsDistinct | seed/codegen.c:2740-2766 | All labels of the emitted program are distinct |
| Emission.JumpsDefined | seed/codegen.c:1667-1844 | Every jump and call target in every emitted program is defined |
| Emission.OperandsAre | seed/codegen.c:1667-1844 | The targets meant are those of `jz`, `jmp` and `call`, the globals those of the three instructions that name one |
| Emission.CheckedClean | seed/codegen.c:510-516 | On an accepted program the generator reaches none of its internal aborts and refers only to globals that have storage |
| Layout.OwnCellsApart | seed/codegen.c:2224-2318 | Two different cells of a routine never share an address |
| Layout.AddrApart | seed/codegen.c:2387-2456 | Cells of the whole store, globals and all activations together, have distinct addresses |
| FrameMap.BuildFrame | seed/codegen.c:2224-2318 | The scope builder's loop packs result, scalars, records, arrays, strings and files one after the other |
| FrameMap.FrameSeparated | seed/codegen.c:1158-1163 | Result, every local and every string temporary have disjoint bytes inside the reserved frame |
| FrameMap.AccessInside | seed/codegen.c:970-994 | An in-range access stays inside its variable's bytes if and only if it is not a later field of the first element of an array of records |
| FrameMap.TempBytes | seed/codegen.c:1158-1163 | A temporary has 256 bytes, they are those the string code takes for it, and the lowest is at the displacement of its last slot |
| FrameMap.StringFits | seed/codegen.c:2224-2318 | A string takes the fewest dwords that hold its length byte and its characters, a file 65 |
| FrameMap.SameSize | seed/codegen.c:2224-2318 | The frame map and the code generator count the same dwords for every shape |
| Departures.LocalElemFieldExec | seed/codegen.c:970-994 | The address the emitted code computes for a field of an element of a frame-resident array |
| Departures.ElemFieldInside | seed/codegen.c:1108-1120 | That address stays inside the array exactly unless it is a later field of the first element |
| Departures.LocalRecordArray | seed/codegen.c:1108-1120 | All accesses stay inside exactly for one-dword elements |
| Departures.FirstElementHitsControl | seed/codegen.c:2224-2318 | In a procedure whose first local is such an array, field k of the first element, if there is one, stands at EBP + 4k - 4: the second field is the saved EBP, the third the return address |
| Departures.RefFieldTransparent | seed/codegen.c:1861-1877 | Run side by side, the caller's code for `p.k` and the code for `y.k` of a routine whose `var` parameter holds the address pushed for `p` reach the same address iff `p` is no bare record of the caller's frame or k is 0 |
| Departures.ByReference | seed/codegen.c:1065-1120 | All fields of the record a designator names are reached through a `var` parameter iff it is no bare frame record or has at most one field; bare frame records are exactly the names the routine itself declares without `var` |
| RefWitness.RecordNotReached | seed/codegen.c:1861-1877 | A program the checker accepts whose meaning prints 7 and whose compiled image halts after printing 1, because `put(r)` with a local record writes its field into another local |
| Departures.PrintsWhole | seed/codegen.c:710-720 | A NUL-terminated write literal prints whole iff it has no NUL |
| RecordCopy.CopyIsAssignment | seed/codegen.c:1131-1146 | The unrolled field-by-field copy equals evaluating both designators once when indices read only the block's own scalars |
| RecordCopy.SelfIndexExact | seed/codegen.c:1131-1146 | `a[a[j].f] := r` equals the assignment iff the index designates another element than j, or r.f is j, or f is the last field, or r.f is in bounds and the later fields stand already in both elements |
| RecordCopy.CopyTears | seed/codegen.c:1131-1146 | An index that reads the target record makes the two fields land in different elements |
| RecordCopy.CallIndexExact | seed/codegen.c:1131-1146 | `a[f()] := r` with a function that counts up: for every record type the emitted copy is the assignment iff the record has one field, since f runs once for each |
| Emitter.Cg.BuildScope | seed/codegen.c:2224-2318 | The table filled in loops resolves every name as the scope does; for a routine whose parameter names differ and which has no local array of records with several fields, all its cells have different addresses, each among the arguments or inside the counted frame |
| Emitter.SearchResolves | seed/codegen.c:627-638 | Searching the table from the front is scope resolution |
| TypeSoundness.CheckedIsSafe | seed/typecheck.c:1015-1942 | An accepted program never meets an operation the type rules exclude, whatever its fuel, and every global cell ends with a value of its declared type |
| TypeSoundness.ExprSafe | seed/typecheck.c:1368-1558 | An expression of type T evaluates to a value of type T and keeps every cell typed |
| TypeSoundness.CallSafe | seed/typecheck.c:1015-1187 | A checked call binds typed actuals, keeps cells typed and returns a value of the result type |
| TypeSoundness.StmtSafe | seed/typecheck.c:1560-1942 | A checked statement keeps every cell typed |
| Completeness.BinaryExact | seed/typecheck.c:1189-1293 | A binary operator is accepted on two types iff applying it to values of them is no type error, and the type given is that of every result |
| Completeness.UnaryExact | seed/typecheck.c:1295-1366 | The same for the unary operators |
| Completeness.RecordsRefused | seed/typecheck.c:1189-1366 | No operator takes a record |
| Completeness.ExprAccepted | seed/typecheck.c:1368-1558 | The converse of soundness: in any program with its names in order, an expression that evaluates in a typed state is accepted, with the type of its value |
| Completeness.PlaceAccepted | seed/typecheck.c:1368-1558 | A designator that can be located is accepted, with the type of what it designates |
| Completeness.CallAccepted | seed/typecheck.c:1015-1187 | A call that returns is accepted, and is one of a function iff a value came back |
| Completeness.StmtAccepted | seed/typecheck.c:1560-1942 | A statement each part of which comes to its end in some typed state is accepted |
| Completeness.ProgramAccepted | seed/typecheck.c:2076-2152 | A program with its names in order, scalar value parameters and statements that come to their ends is accepted |
| Completeness.AcceptedNames | seed/typecheck.c:1957-2071 | Acceptance implies that all names within and across scopes differ as they must |
| Completeness.CallsAreProcedures | seed/typecheck.c:1039-1047 | An accepted call statement names a procedure |
| Completeness.FairExact | seed/typecheck.c:328-359 | The rule on constants refuses exactly the statements that assign one, pass one by reference, or copy a record from one |
| Checker.Tc.Check | seed/typecheck.c:2076-2152 | The checker with its tables, constant flags and latched error accepts exactly the programs that are well typed and assign no constant |
| Checker.Tc.CollectDecls | seed/typecheck.c:443-596 | Fails iff two symbols, variables or constants, share a name; otherwise each symbol is in the table with its constant flag |
| Checker.Tc.CheckOne | seed/typecheck.c:2017-2071 | Fails iff a name of the routine repeats, its body is ill typed, or the body writes a constant that the routine's names leave visible |
| Checker.Tc.ResolveName | seed/typecheck.c:328-359 | Locals before globals; a name is an lvalue iff it is not a visible constant |
| Checker.Tc.CheckCallTo | seed/typecheck.c:1015-1187 | The argument loop fails iff the routine is unknown, the counts differ, an argument has another type than its parameter, or a `var` parameter gets anything but a variable |
| Checker.DistinctScope | seed/typecheck.c:1957-2071 | The single table of parameters, result and locals has no repetition iff parameters differ, locals differ, no local is named like a parameter, and neither is named like the function itself |
| Desugar.ForPreserved | seed/parser.c:972-1045 | The rewritten `for` ends iff the `for` of section 6.8.3.9 of ISO 7185 does, with the same outcome, output and store apart from the control and limit variables, when the final value is not the extreme integer, does not read the control variable and the body does not threaten it. The control variable may be the block's own, a global or a `var` parameter, under as many names as it has |
| Desugar.ForSame | seed/parser.c:972-1045 | Where the `for` finishes, the rewritten one finishes with the same output and with the same value in every cell but the control and limit variables |
| Desugar.ForExact | seed/parser.c:972-1045 | Where the `for` statement finishes, the rewritten one does iff the final value is not the last integer in the loop's direction |
| Desugar.ExtremeNeverEnds | seed/parser.c:1013-1027 | With the extreme integer as final value the rewritten loop never finishes, whatever the body |
| Desugar.LastTurnEnds | seed/parser.c:946-970 | The statement itself does finish there |
| Desugar.ForCounts | seed/parser.c:946-970 | `for v := i to b do write(v)` prints i, i+1, ..., b, and `downto` prints i, i-1, ..., b |
| Desugar.BoundReadsControl | seed/parser.c:1010-1011 | A final value reading the control variable gives a different number of turns |
| Desugar.CallsRefsBelow | seed/codegen.c:1969-1997 | Every call gives `var` parameters cells of callers only, which the `for` theorem assumes of its scope |
| Desugar.RepeatPreserved | seed/parser.c:1069-1110 | The shared-body form of `repeat` equals body-then-test for all bodies and guards |
| Desugar.RepeatOnce | seed/parser.c:1069-1110 | `repeat body until true` runs the body once, in either form |
| Folding.FoldingPreserved | seed/parser.c:425-466 | Folding under the shadow set preserves meaning: for every fuel the folded program ends as the program whose constants have cells of their own, with the same output and variables |
| ConstTable.ForwardExact | seed/parser.c:1430-1526 | The single forward pass folds as if all constants were known iff each is declared before its uses |
| ConstTable.ParsedPreserves | seed/parser.c:1963-2034 | For programs that declare constants before use, what the parser produces means what the source means |
| ConstCheck.AcceptedFair | seed/typecheck.c:328-359 | Acceptance of the parsed program implies that the source assigns no constant and passes none by reference |
| ConstCheck.AcceptedPreserves | seed/parser.c:1963-2034 | For every accepted program that declares constants before use, what the parser produces means what the source means, for every fuel |
| ConstCheck.ParsedChecks | seed/typecheck.c:443-496 | Such a program checks without the constants' symbols too |
| ConstCheck.StorageExact | seed/typecheck.c:443-496 | For every accepted program the code refers only to existing globals iff every constant is declared before the routines that use it |
| ConstCheck.EarlyUseDangles | seed/typecheck.c:443-496 | Otherwise the code loads from a global that is not there |
| ConstTable.EarlyUse | seed/typecheck.c:443-496 | A constant used before its declaration typechecks, escapes folding and refers to storage that is not there |
| ConstTable.ShadowsDeclared | seed/parser.c:1899-1957 | Capture-free: the shadow set holds exactly the routine's parameters, result name and locals |
| ConstTable.Scopes.FoldName | seed/parser.c:425-466 | An identifier folds iff the table has it and the shadow set does not |
| ConstTable.Scopes.ParseRoutine | seed/parser.c:1850-1957 | Table and shadow searches at every identifier fold the body with exactly the constants the routine's names leave visible; the shadows are gone afterwards |
| ConstTable.Scopes.ParseProgram | seed/parser.c:1963-2034 | The loop over sections, registering constants as it meets them, computes the forward folding |
| ExprParser.ExprInverts | seed/parser.c:612-640 | Parsing the minimally parenthesized rendering of any expression tree, followed by anything that cannot continue it, returns that tree and stops there |
| ExprParser.TermInverts | seed/parser.c:524-545 | Multiplying operators associate to the left |
| ExprParser.SimpleInverts | seed/parser.c:547-579 | Adding operators associate to the left |
| ExprParser.PrintIsShortest | seed/parser.c:309-640 | Whatever the parser accepts reprints to the same tree, in no more tokens than were read |
| ExprParser.ReadExpression | seed/parser.c:309-640 | The parser with its cursor and loops accepts exactly the grammar; what it accepts reprints to the same tree in no more tokens, and a printed tree, followed by anything that cannot continue it, is read back exactly |
| ExprParser.FollowsAre | seed/parser.c:309-640 | What may follow a printed expression is everything but operators and the three tokens that open a call, an index or a field |
| ExprGrammar.ParserExact | seed/parser.c:309-640 | A whole token sequence is accepted with a tree iff it is the text of a derivation of that tree, with every parenthesis written; what the rules do not derive is rejected |
| ExprGrammar.ExprDerives | seed/parser.c:309-640 | Whatever is accepted has a derivation whose text, with the rest, is the input: nothing is dropped, invented or moved |
| ExprGrammar.ExprReads | seed/parser.c:309-640 | Every derivation is read back as its tree up to a token that cannot continue it |
| ExprGrammar.Unambiguous | seed/parser.c:309-640 | Two derivations of one text have the same tree |
| ExprMeaning.AtomsMean | seed/parser.c:309-522 | Number, character and truth literals parse to their own values, a name to a read of it |
| ExprMeaning.ArithmeticMeans | seed/parser.c:524-579 | `a + b`, `a - b`, `a * b`, `a div b`, `a mod b`, parsed and evaluated, are sum, difference and product as words, quotient and remainder |
| ExprMeaning.RelationsMean | seed/parser.c:581-640 | The six relation tokens, parsed and evaluated, are the six relations of numbers |
| ExprMeaning.ConnectivesMean | seed/parser.c:309-579 | `and`, `or` and `not`, parsed and evaluated, are conjunction, disjunction and negation |
| ExprMeaning.MinusAndChrMean | seed/parser.c:309-522 | A leading minus negates; `chr(n)` is the character n modulo 256 |
| ExprMeaning.OrdMeans | seed/parser.c:309-522 | `ord` of a number, a character and a truth value |
| ExprMeaning.ThreeParse | seed/parser.c:524-640 | Of two operators the tighter one is taken first and the left one among equals, for every pair of operator tokens |
| ExprMeaning.GroupLeft | seed/parser.c:309-522 | Parentheses on the left come first |
| ExprMeaning.GroupRight | seed/parser.c:309-522 | Parentheses on the right come first |
| ExprMeaning.ShapesParse | seed/parser.c:769-823 | Calls with arguments in the order written, elements and fields |
| Lexer.Scanner.Advance | seed/lexer.c:69-79 | Line and column are those of the byte position after every step |
| Lexer.Scanner.ScanNumber | seed/lexer.c:268-288 | A written number up to 2147483647, followed by no digit, is read to its end and gives itself, a larger one is rejected; in general the literal is accepted iff its decimal value is in range, and no intermediate exceeds 32 bits |
| Lexer.NumeralRead | seed/lexer.c:30-33 | The digits `0` to `9` rendering a number, followed by none of them, are exactly what is taken as the number, and their value is the number |
| Lexer.Scanner.ScanString | seed/lexer.c:295-374 | From every pool cursor: the token's slice holds exactly the decoded bytes and a NUL inside the 1025-byte pool, the cursor invariant is kept, and earlier slices below the cursor survive unless the string had to move to the start |
| Lexer.Scanner.Append | seed/lexer.c:338-365 | A byte is refused only by a full pool; relocation keeps the bytes decoded so far |
| Lexer.QuoteInverts | seed/lexer.c:295-374 | Quoting a newline-free string with doubled quotes and scanning returns it if it has at most 1024 bytes; a longer one is rejected |
| Lexer.BodyMeans | seed/lexer.c:318-336 | Whatever is decoded stood there with its quotes doubled |
| Lexer.PlainText | seed/lexer.c:295-374 | Text between apostrophes, without apostrophes and line ends, is that text up to 1024 bytes and rejected beyond |
| Lexer.Scanner.SkipTrivia | seed/lexer.c:128-176 | Blanks and both comment forms are skipped; an open comment is an error |
| Lexer.TriviaSkipped | seed/lexer.c:128-176 | Any sequence of blanks and comments is skipped exactly up to the next token |
| Lexer.BlanksAre | seed/lexer.c:24-28 | Space, tab, line feed, vertical tab, form feed and carriage return are skipped, and a token starts wherever neither they nor a comment opening stands |
| Lexer.CommentsAre | seed/lexer.c:128-176 | Comments from `{` to `}` and from `(*` to `*)` are skipped |
| Lexer.OpenCommentsAre | seed/lexer.c:146-170 | A comment of either kind that is never closed is an error located at its opening |
| Lexer.LinesCounted | seed/lexer.c:69-79 | The line number is one more than the line feeds before the position |
| StrIntrinsics.AssignRuns | seed/codegen.c:2474-2486 | The instructions of `__str_assign` return with a balanced stack and the copied bytes |
| StrIntrinsics.AssignMeans | seed/codegen.c:2472-2486 | The destination receives the source cut to the capacity and nothing else changes |
| StrIntrinsics.ConcatRuns | seed/codegen.c:2490-2506 | The same for `__str_concat` |
| StrIntrinsics.ConcatMeans | seed/codegen.c:2488-2506 | The destination becomes the first 255 bytes of both strings in order |
| StrIntrinsics.CompareRuns | seed/codegen.c:2508-2566 | The comparison loop returns -1/0/+1 as unsigned lexicographic order with the shorter prefix first, leaves memory alone and balances its stack on every exit |
| StrIntrinsics.LexOrder | seed/codegen.c:2508-2510 | That order is total: antisymmetric, transitive, zero only on equal strings |
| StrIntrinsics.WriteRuns | seed/codegen.c:2568-2584 | Every content byte is written, in order, NUL included |
| StrIntrinsics.LiteralExact | seed/codegen.c:724-734 | A literal blob denotes its text iff it has at most 255 bytes |
| StrPlan.PlanSoundS | seed/codegen.c:2108-2137 | Planned at base b, a string's emission uses only indices b..hi if no skipped position needs a temporary, and index -1 otherwise |
| StrPlan.PlanSoundV | seed/codegen.c:2067-2104 | The same for scalar expressions with strings inside |
| StrPlan.PlanExactS | seed/codegen.c:2108-2137 | A fine string planned at b uses every index from b to the highest, and no other |
| StrPlan.PlanExactV | seed/codegen.c:2067-2104 | The same for scalar expressions |
| StrPlan.PlanRoutine | seed/codegen.c:2140-2222 | Over a routine: every index used is below the reserved count iff every expression is free of skipped positions that need one |
| StrPlan.LeftDeepUsesOne | seed/codegen.c:2112-2130 | A left-deep chain whose right operands need no temporary uses one |
| StrCode.StrRuns | seed/codegen.c:1207-1271 | Code for a laid-out string expression leaves its value where the expression lives; lower temporaries and everything else keep their bytes |
| StrCode.CatRuns | seed/codegen.c:1244-1271 | A concatenation's temporary holds its value |
| StrCode.CatIsJoined | seed/codegen.c:1244-1271 | That value is exactly the first 255 bytes of the leaves joined in order |
| StrCode.ValRuns | seed/codegen.c:1444-1598 | Scalar code with embedded strings computes its value and restores the stack |
| StrCode.RelatedRuns | seed/codegen.c:1282-1315 | A comparison sees both strings: the left one survives the building of the right one |
| StrCode.AssignStrRuns | seed/codegen.c:1688-1721 | `s := e` stores the first cap(s) bytes, by the copying code or the in-place code for a character, also when s or another name of its storage occurs in e; all names of that storage then denote the new value and no other variable changes |
| StrCode.AppendToAlias | seed/codegen.c:1688-1721 | `g := p + g` with the `var` parameter p bound to g leaves the doubled string under both names |
| StrCode.PlannedStrRuns | seed/codegen.c:2108-2137 | From an unplanned tree: planning and emission together are correct in a frame that reserves what the plan asks for |
| StrCode.PlannedValRuns | seed/codegen.c:2067-2104 | The same for scalar expressions |
| StrCode.RelationsConsistent | seed/codegen.c:1292-1313 | The six relations are those of one total order |
| StrCode.StringsCompare | seed/codegen.c:1282-1315 | A string comparison is 1 iff the values are so related in dictionary order: a proper beginning, or the smaller byte at the first difference, comes first |
| StrCode.CompareComputes | seed/codegen.c:1292-1313 | `call __str_cmp; cmp eax, 0; setcc al; movzx eax, al` leaves 1 iff the strings are so related |
| StrCode.LexBefore | seed/codegen.c:2508-2566 | The comparison routine's result is negative iff the first string comes before the second in dictionary order |
| StrCode.OperatorsCompute | seed/codegen.c:1317-1442 | The scalar operators around strings: congruent words, connectives on 0 and 1, bytes modulo 256 |
| StrCode.FramesExist | seed/codegen.c:2224-2318 | There are frames and states as the string theorems assume them |
| StrCode.AssignAgrees | seed/codegen.c:2474-2486 | The call in generated code has the effect of the routine's own instructions |
| StrCode.ConcatAgrees | seed/codegen.c:2490-2506 | The same for `__str_concat` |
| StrCode.CompareAgrees | seed/codegen.c:2508-2566 | The same for `__str_cmp` |
| StrCode.TempInside | seed/codegen.c:1158-1163 | A temporary lies in the reserved area iff its index was allocated; index -1 names the locals |
| LiteralPool.Generator.Rodata | seed/codegen.c:707-831 | The rodata walk over the statement syntax appends the bare literals in source order and labels every expression literal it reaches with its bytes, shared nodes included, without spoiling a label given before |
| LiteralPool.Generator.Text | seed/codegen.c:1676-1844 | The text walk, with arguments last to first and record copies repeated per field, refers to the bytes meant operand by operand and uses up exactly the bare literals the other walk wrote |
| LiteralPool.Generator.Emit | seed/codegen.c:2738-2783 | Run one after the other on a program, the two differently ordered walks agree on every literal |
| Glob.OverlapExact | harness/check_fixture_volumes.c:216-228 | The decision is true iff some string matches both patterns, for any number of stars on either side |
| Glob.StarIsWild | harness/check_fixture_volumes.c:216-228 | The pattern `*` matches every string |
| Glob.PlainIsItself | harness/check_fixture_volumes.c:216-228 | A pattern without `*` matches exactly itself |

## Left out

- File I/O: the `file` type's statements and the runtime behind them; their frame space is in `FrameMap`.
- Strings in the whole-program theorem: string code is verified expression by expression and statement by statement, on its own machine, and is not part of `Behaviour`.
- Machine limits: addresses are unbounded, so running out of stack or address space does not occur in the model.
- Runtime helpers: `serial_puts`, `serial_putc` and `serial_put_int` are output events; string code calls other routines through the frame's `call` parameter.
- Undefined runs: reading an uninitialised variable or indexing outside an array has no promised behaviour; the theorems say nothing about such runs.
- Programs outside `ProgramOk`: local arrays of records with two or more fields, bare local records with two or more fields passed by reference, and write literals with a NUL are excluded from the main theorem; the departures above are about them.
- Table capacities, name truncation and arena allocation: assumed sufficient; names are case-folded strings.
- `forward` declarations: a program's routines are its defining occurrences; calls may refer to any of them.
- Statement parsing and declarations: the parser model covers expressions, the rewriting of `for` and `repeat` and constants; statements, declarations and types are taken as trees.
- Folding.FoldingPreserved: covers integer, boolean and character constants in bodies, not string constants nor constants in array bounds, which are numbers already in the trees.
- Names of file routines: the checker's refusal of variables and routines named like them goes with file I/O.
- Keywords, identifiers and punctuation in the lexer: only numbers, strings, comments and positions are modelled.
- Diagnostics: error texts and locations beyond line and column tracking.
- The mutation switches `SEED_MUT_*`: only the default branches.
- The driver's options and file handling in `seed/initechc.c`, `spec/*.h` and the remaining harness programs.
- RecordCopy.CopyIsAssignment: states sufficiency only; the exact condition is given for an index that is a field of an element of the target array (`SelfIndexExact`) and for one that calls a counting function (`CallIndexExact`).
- Desugar.ForPreserved: states sufficiency of its syntactic conditions on the body and the final value; they are those of the standard, asked of every name of the control variable.
- StrCode.CatIsJoined: assumes leaves of at most 255 bytes, which literals beyond that length violate.
- StrCode.ValRuns: what called routines do to variables and memory is the frame's parameter; the theorem needs that they keep the two in step and leave this frame's temporaries and the literals alone.
- Checked.CheckedCells: about global cells when the program has halted; the typed store behind it holds at every statement (`TypeSoundness.StmtSafe`).
- Pipeline.CompileSource: takes statements and declarations as trees, and covers the language without strings and files.
- Pipeline.SourceBehaviour: covers the language without strings and files.
- Emitter.Cg.BuildScope: without string and file variables, whose places in the frame `FrameMap.FrameSeparated` covers.
- Checker.Tc.Check: without strings, files, `forward` declarations and names reserved for file routines.
- Checker.Tc.CollectDecls: variables and constants only; type declarations are resolved in the trees, and names reserved for file routines are not refused.
- Checker.Tc.CheckOne: without strings, files and `forward` declarations.
- Checker.Tc.CheckCallTo: without the rule that a `var string` parameter takes only strings of capacity 255.
- ConstTable.Scopes.ParseRoutine: without `forward` declarations and local types.
- ConstTable.Scopes.ParseProgram: without `forward` declarations and type sections.
