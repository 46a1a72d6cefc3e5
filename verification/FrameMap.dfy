/** The frame of a routine with every kind of variable: result, scalars, records, arrays, strings and
    files, and below them the string temporaries. Everything in it gets bytes of its own. */
module FrameMap {
  import Codegen
  import Syntax
  import StrCode

  datatype Kind =
    | ScalarVar
    | RecordVar(fields: nat)
    | ArrayVar(count: nat, fields: nat)  // `fields` is 0 for scalar elements
    | StringVar(cap: nat)
    | FileVar

  const FILE_DWORDS: nat := 65
  const TEMP_DWORDS: nat := 64

  function ElemWords(fields: nat): nat { if fields > 0 then fields else 1 }

  /** Frame dwords a variable takes. */
  function WordsOf(k: Kind): nat {
    match k
    case ScalarVar => 1
    case RecordVar(n) => ElemWords(n)
    case ArrayVar(count, n) => count * ElemWords(n)
    case StringVar(cap) => (cap + 4) / 4
    case FileVar => FILE_DWORDS
  }

  /** The displacement recorded for a variable whose first slot is `slot`: its first dword, or for strings
      and files its lowest byte. */
  function Offset(k: Kind, slot: nat): int {
    if k.StringVar? || k.FileVar? then Codegen.SlotOffset(slot + WordsOf(k) - 1) else Codegen.SlotOffset(slot)
  }

  datatype Range = Range(lo: int, hi: int) {
    predicate Has(r: Range) { lo <= r.lo && r.hi <= hi }
  }

  /** The bytes of `words` slots from `slot` on. */
  function Slots(slot: nat, words: nat): Range { Range(-4 * (slot + words), -4 * slot - 1) }

  /** An access the language allows. */
  datatype Access = Whole | FieldOf(k: nat) | Elem(j: nat) | ElemField(j: nat, k: nat) | Byte(i: nat)

  predicate InBounds(k: Kind, a: Access) {
    match (k, a)
    case (ScalarVar, Whole) => true
    case (RecordVar(n), FieldOf(f)) => f < n
    case (ArrayVar(count, 0), Elem(j)) => j < count
    case (ArrayVar(count, n), ElemField(j, f)) => j < count && f < n
    case (StringVar(cap), Byte(i)) => i <= cap
    case (FileVar, Byte(i)) => i < 4 * FILE_DWORDS
    case _ => false
  }

  /** The bytes the generated address arithmetic reaches: records, arrays and their elements run downward,
      fields of elements, strings and files upward. */
  function Reach(k: Kind, off: int, a: Access): Range {
    match a
    case Whole => Range(off, off + 3)
    case FieldOf(f) => Range(off - 4 * f, off - 4 * f + 3)
    case Elem(j) => Range(off - 4 * j, off - 4 * j + 3)
    case ElemField(j, f) =>
      var at := off - 4 * (j * (if k.ArrayVar? then ElemWords(k.fields) else 1)) + 4 * f;
      Range(at, at + 3)
    case Byte(i) => Range(off + i, off + i)
  }

  lemma Product(j: nat, n: nat, w: nat)
    requires j < n && w >= 1
    ensures j * w + w <= n * w && (j >= 1 ==> j * w >= w)
  {
    var d := n - 1 - j;
    assert d * w >= 0;
    assert n * w == (d + 1 + j) * w == d * w + w + j * w;
    if j >= 1 { assert j * w == (j - 1) * w + w && (j - 1) * w >= 0; }
  }

  /** An access in bounds stays inside the bytes of its variable, with one exception: a later field of the
      first element of an array of records. */
  lemma AccessInside(k: Kind, slot: nat, a: Access)
    requires InBounds(k, a)
    ensures Slots(slot, WordsOf(k)).Has(Reach(k, Offset(k, slot), a)) <==> !(a.ElemField? && a.j == 0 && a.k > 0)
  {
    if a.ElemField? { Product(a.j, k.count, ElemWords(k.fields)); }
    if a.Elem? { assert k.count * 1 == k.count; }
  }

  // ---- the whole frame ----

  /** Where the scope builder puts things: the result in slot 0, then each local after the one before. */
  datatype Frame = Frame(hasResult: bool, kinds: seq<Kind>, starts: seq<nat>, slots: nat, temps: nat)

  predicate WellPacked(f: Frame) {
    && |f.starts| == |f.kinds|
    && (f.hasResult ==> f.slots >= 1)
    && (forall i :: 0 <= i < |f.kinds| ==>
        (f.hasResult ==> f.starts[i] >= 1) && f.starts[i] + WordsOf(f.kinds[i]) <= f.slots)
    && (forall i, j :: 0 <= i < j < |f.kinds| ==> f.starts[i] + WordsOf(f.kinds[i]) <= f.starts[j])
  }

  method BuildFrame(hasResult: bool, kinds: seq<Kind>, temps: nat) returns (f: Frame)
    ensures f.hasResult == hasResult && f.kinds == kinds && f.temps == temps && WellPacked(f)
    ensures f.slots == (if hasResult then 1 else 0) + Total(kinds)
  {
    var slot: nat := if hasResult then 1 else 0;
    var starts: seq<nat> := [];
    for i := 0 to |kinds|
      invariant |starts| == i && slot + Total(kinds[i..]) == (if hasResult then 1 else 0) + Total(kinds)
      invariant hasResult ==> slot >= 1
      invariant forall j :: 0 <= j < i ==> (hasResult ==> starts[j] >= 1) && starts[j] + WordsOf(kinds[j]) <= slot
      invariant forall j, k :: 0 <= j < k < i ==> starts[j] + WordsOf(kinds[j]) <= starts[k]
    {
      assert kinds[i..][1..] == kinds[i + 1..];
      starts := starts + [slot];
      slot := slot + WordsOf(kinds[i]);
    }
    assert kinds[|kinds|..] == [];
    f := Frame(hasResult, kinds, starts, slot, temps);
  }

  function Total(kinds: seq<Kind>): nat { if kinds == [] then 0 else WordsOf(kinds[0]) + Total(kinds[1..]) }

  /** What lives in a frame. */
  datatype Owner = Result | Local(i: nat) | Temp(k: nat)

  predicate Present(f: Frame, o: Owner) {
    match o case Result => f.hasResult case Local(i) => i < |f.kinds| case Temp(k) => k < f.temps
  }

  function RangeOf(f: Frame, o: Owner): Range
    requires WellPacked(f) && Present(f, o)
  {
    match o
    case Result => Slots(0, 1)
    case Local(i) => Slots(f.starts[i], WordsOf(f.kinds[i]))
    case Temp(k) => Slots(f.slots + k * TEMP_DWORDS, TEMP_DWORDS)
  }

  /** Two things in a frame never share a byte, and all of them are inside what is reserved. */
  lemma FrameSeparated(f: Frame, a: Owner, b: Owner)
    requires WellPacked(f) && Present(f, a) && Present(f, b) && a != b
    ensures var p, q := RangeOf(f, a), RangeOf(f, b);
            p.hi < q.lo || q.hi < p.lo || p.lo > p.hi || q.lo > q.hi
    ensures -4 * (f.slots + 64 * f.temps) <= RangeOf(f, a).lo && RangeOf(f, a).hi <= -1
  {
    match (a, b)
    case (Local(i), Local(j)) =>
      if i < j { assert f.starts[i] + WordsOf(f.kinds[i]) <= f.starts[j]; }
        else { assert f.starts[j] + WordsOf(f.kinds[j]) <= f.starts[i]; }
    case _ =>
  }

  /** A temporary has the 256 bytes the string code counts on, where it takes them to be, and its lowest byte is
      at the displacement of its last slot. */
  lemma TempBytes(f: Frame, F: StrCode.Frame, ebp: int, k: nat)
    requires WellPacked(f) && k < f.temps && F.tb == ebp - 4 * f.slots && F.max == f.temps
    ensures var r := RangeOf(f, Temp(k));
            && ebp + r.lo == StrCode.Temp(F, k) && ebp + r.hi == StrCode.Temp(F, k) + 255 && r.hi - r.lo + 1 == 256
            && r.lo == Codegen.SlotOffset(f.slots + (k + 1) * 64 - 1)
  {
  }

  /** The kind of a declared variable. */
  function KindOf(s: Syntax.Shape): Kind {
    match s
    case One(Scalar(_)) => ScalarVar
    case One(Record(_, fs)) => RecordVar(|fs|)
    case Arr(lo, hi, e) => ArrayVar(if lo <= hi then hi - lo + 1 else 0, if e.Record? then |e.fields| else 0)
  }

  /** It takes as many dwords as the code for it counts. */
  lemma SameSize(s: Syntax.Shape)
    ensures WordsOf(KindOf(s)) == Syntax.Cells(s)
  {
  }

  /** A string takes the fewest dwords that hold its length byte and its characters; a file 65. */
  lemma StringFits(cap: nat)
    ensures 4 * WordsOf(StringVar(cap)) >= cap + 1 > 4 * (WordsOf(StringVar(cap)) - 1) && WordsOf(FileVar) == 65
  {
  }
}
