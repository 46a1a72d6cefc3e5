/** The allocation of string temporaries. Before code is emitted, each routine's expressions are walked
    and every string that must be built in memory, a concatenation or a character used as a string, is
    stamped with the index of a frame temporary. This says exactly when every index the emitted code
    uses has been allocated. */
module StrPlan {

  import StrIntrinsics

  /** String expressions. `t` is the stamped temporary, -1 when there is none. */
  datatype S =
    | Lit(text: StrIntrinsics.Text, addr: int)      // a literal in .rodata
    | Var(x: string)                  // a string variable
    | Cat(t: int, l: S, r: S)         // concatenation
    | Chr(t: int, c: V)               // a character used as a string

  datatype Rel = Eq | Ne | Lt | Le | Gt | Ge

  datatype Op = Plus | Minus | Both | Either

  datatype Un = Negate | Invert | Ordinal | Character

  /** Scalar expressions in which strings may be embedded. */
  datatype V =
    | Num(n: int)
    | Scalar(x: string)               // a scalar variable
    | Elem(x: string, idx: V)         // a[i] of a scalar array
    | ByteAt(x: string, idx: V)       // s[i]
    | Length(s: S)
    | Field(x: string, idx: V)        // a[i].f
    | Bin(o: Op, a: V, b: V)
    | Unary(u: Un, a: V)
    | Related(rel: Rel, l: S, r: S)       // a string comparison
    | Call(g: nat, args: Vs)

  datatype Vs = End | More(hd: V, tl: Vs)

  /** Used as a string value, does it need a temporary? */
  predicate Materializes(e: S) { e.Cat? || e.Chr? }

  function Max(a: int, b: int): int { if a > b then a else b }

  // ---- the planner ----

  /** The highest index used for a string planned at base `b`, or b-1. */
  function HiS(e: S, b: int): int
    decreases e, 0
  {
    match e
    case Lit(_, _) => b - 1
    case Var(_) => b - 1
    case Cat(_, l, r) =>
      var hi := if l.Cat? then Max(b, HiS(l, b)) else b;
      if Materializes(r) then Max(hi, HiS(r, b + 1)) else hi
    case Chr(_, c) => Max(b, HiV(c, b))
  }

  function HiV(v: V, b: int): int
    decreases v, 0
  {
    match v
    case Num(_) => b - 1
    case Scalar(_) => b - 1
    case Elem(_, idx) => HiV(idx, b)
    case ByteAt(_, idx) => HiV(idx, b)
    case Length(s) => HiIn(s, b)
    case Field(_, _) => b - 1
    case Bin(_, x, y) => Max(HiV(x, b), HiV(y, b))
    case Unary(_, x) => HiV(x, b)
    case Related(_, l, r) => HiS(r, HiS(l, b) + 1)
    case Call(_, args) => HiA(args, b)
  }

  function HiA(vs: Vs, b: int): int
    decreases vs, 0
  {
    match vs
    case End => b - 1
    case More(v, rest) => Max(HiV(v, b), HiA(rest, b))
  }

  /** A string under `length` is walked as if it were a scalar: its own nodes get no index. */
  function HiIn(e: S, b: int): int
    decreases e, 0
  {
    match e
    case Cat(_, l, r) => Max(HiIn(l, b), HiIn(r, b))
    case Chr(_, c) => HiV(c, b)
    case _ => b - 1
  }

  /** The stamped tree: the left spine of a concatenation shares its temporary, the right operand starts
      one above; the first character of a concatenation is not walked, nor is the index of a field. */
  function StampS(e: S, b: int): S
    decreases e, 0
  {
    match e
    case Cat(_, l, r) =>
      Cat(b, if l.Cat? then StampS(l, b) else l, if Materializes(r) then StampS(r, b + 1) else r)
    case Chr(_, c) => Chr(b, StampV(c, b))
    case _ => e
  }

  function StampV(v: V, b: int): V
    decreases v, 0
  {
    match v
    case Elem(x, idx) => Elem(x, StampV(idx, b))
    case ByteAt(x, idx) => ByteAt(x, StampV(idx, b))
    case Length(s) => Length(StampIn(s, b))
    case Bin(o, x, y) => Bin(o, StampV(x, b), StampV(y, b))
    case Unary(u, x) => Unary(u, StampV(x, b))
    case Related(rel, l, r) => Related(rel, StampS(l, b), StampS(r, HiS(l, b) + 1))
    case Call(g, args) => Call(g, StampA(args, b))
    case _ => v
  }

  function StampA(vs: Vs, b: int): Vs
    decreases vs, 0
  {
    match vs
    case End => End
    case More(v, rest) => More(StampV(v, b), StampA(rest, b))
  }

  function StampIn(e: S, b: int): S
    decreases e, 0
  {
    match e
    case Cat(t, l, r) => Cat(t, StampIn(l, b), StampIn(r, b))
    case Chr(t, c) => Chr(t, StampV(c, b))
    case _ => e
  }

  // ---- the indices emission uses ----

  function UsedS(e: S): set<int>
    decreases e, 0
  {
    match e
    case Cat(t, l, r) => {t} + (if l.Cat? then UsedS(l) else if l.Chr? then UsedV(l.c) else {}) + UsedS(r)
    case Chr(t, c) => {t} + UsedV(c)
    case _ => {}
  }

  function UsedV(v: V): set<int>
    decreases v, 0
  {
    match v
    case Num(_) => {}
    case Scalar(_) => {}
    case Elem(_, idx) => UsedV(idx)
    case ByteAt(_, idx) => UsedV(idx)
    case Length(s) => UsedS(s)
    case Field(_, idx) => UsedV(idx)
    case Bin(_, x, y) => UsedV(x) + UsedV(y)
    case Unary(_, x) => UsedV(x)
    case Related(_, l, r) => UsedS(l) + UsedS(r)
    case Call(_, args) => UsedA(args)
  }

  function UsedA(vs: Vs): set<int>
    decreases vs, 0
  {
    match vs
    case End => {}
    case More(v, rest) => UsedV(v) + UsedA(rest)
  }

  predicate Within(ts: set<int>, lo: int, hi: int) { forall t :: t in ts ==> lo <= t <= hi }

  // ---- trees before planning ----

  predicate FreshS(e: S)
    decreases e, 0
  {
    match e
    case Cat(t, l, r) => t == -1 && FreshS(l) && FreshS(r)
    case Chr(t, c) => t == -1 && FreshV(c)
    case _ => true
  }

  predicate FreshV(v: V)
    decreases v, 0
  {
    match v
    case Num(_) => true
    case Scalar(_) => true
    case Elem(_, idx) => FreshV(idx)
    case ByteAt(_, idx) => FreshV(idx)
    case Length(s) => FreshS(s)
    case Field(_, idx) => FreshV(idx)
    case Bin(_, x, y) => FreshV(x) && FreshV(y)
    case Unary(_, x) => FreshV(x)
    case Related(_, l, r) => FreshS(l) && FreshS(r)
    case Call(_, args) => FreshA(args)
  }

  predicate FreshA(vs: Vs)
    decreases vs, 0
  {
    vs.More? ==> FreshV(vs.hd) && FreshA(vs.tl)
  }

  /** No string in it needs a temporary. */
  predicate DryV(v: V) {
    match v
    case Num(_) => true
    case Scalar(_) => true
    case Elem(_, idx) => DryV(idx)
    case ByteAt(_, idx) => DryV(idx)
    case Length(s) => !Materializes(s)
    case Field(_, idx) => DryV(idx)
    case Bin(_, x, y) => DryV(x) && DryV(y)
    case Unary(_, x) => DryV(x)
    case Related(_, l, r) => !Materializes(l) && !Materializes(r)
    case Call(_, args) => DryA(args)
  }

  predicate DryA(vs: Vs) { vs.More? ==> DryV(vs.hd) && DryA(vs.tl) }

  /** None of the positions the planner skips holds a string that needs a temporary: the argument of
      `length`, the index of a field, the first character of a concatenation. */
  predicate FineS(e: S)
    decreases e, 0
  {
    match e
    case Cat(_, l, r) => (l.Cat? ==> FineS(l)) && (l.Chr? ==> DryV(l.c)) && FineS(r)
    case Chr(_, c) => FineV(c)
    case _ => true
  }

  predicate FineV(v: V)
    decreases v, 0
  {
    match v
    case Num(_) => true
    case Scalar(_) => true
    case Elem(_, idx) => FineV(idx)
    case ByteAt(_, idx) => FineV(idx)
    case Length(s) => !Materializes(s)
    case Field(_, idx) => DryV(idx)
    case Bin(_, x, y) => FineV(x) && FineV(y)
    case Unary(_, x) => FineV(x)
    case Related(_, l, r) => FineS(l) && FineS(r)
    case Call(_, args) => FineA(args)
  }

  predicate FineA(vs: Vs)
    decreases vs, 0
  {
    vs.More? ==> FineV(vs.hd) && FineA(vs.tl)
  }

  // ---- soundness ----

  /** An unplanned tree uses only the index -1, and none exactly when it is dry. */
  lemma {:induction false} FreshUse(v: V)
    requires FreshV(v)
    ensures UsedV(v) == if DryV(v) then {} else {-1}
    decreases v, 0
  {
    match v
    case Num(_) =>
    case Scalar(_) =>
    case Elem(_, idx) => FreshUse(idx);
    case ByteAt(_, idx) => FreshUse(idx);
    case Length(s) => FreshUseS(s);
    case Field(_, idx) => FreshUse(idx);
    case Bin(_, x, y) =>
      FreshUse(x);
      FreshUse(y);
    case Unary(_, x) => FreshUse(x);
    case Related(_, l, r) =>
      FreshUseS(l);
      FreshUseS(r);
    case Call(_, args) => FreshUseA(args);
  }

  lemma {:induction false} FreshUseS(e: S)
    requires FreshS(e)
    ensures UsedS(e) == if Materializes(e) then {-1} else {}
    decreases e, 0
  {
    match e
    case Cat(_, l, r) =>
      FreshUseS(l);
      FreshUseS(r);
      if l.Chr? { FreshUse(l.c); }
    case Chr(_, c) => FreshUse(c);
    case _ =>
  }

  lemma {:induction false} FreshUseA(vs: Vs)
    requires FreshA(vs)
    ensures UsedA(vs) == if DryA(vs) then {} else {-1}
    decreases vs, 0
  {
    if vs.More? {
      FreshUse(vs.hd);
      FreshUseA(vs.tl);
    }
  }

  /** What planning achieves: all indices within `lo..hi`, or -1 among them. */
  predicate Allocated(used: set<int>, fine: bool, lo: int, hi: int) {
    hi >= lo - 1 && (if fine then Within(used, lo, hi) else -1 in used)
  }

  lemma {:induction false} PlanSoundS(e: S, b: int)
    requires FreshS(e)
    ensures Allocated(UsedS(StampS(e, b)), FineS(e), b, HiS(e, b))
    ensures Materializes(e) ==> HiS(e, b) >= b
    decreases e, 0
  {
    match e
    case Lit(_, _) =>
    case Var(_) =>
    case Cat(_, l, r) =>
      if l.Cat? { PlanSoundS(l, b); }
      if l.Chr? { FreshUse(l.c); }
      PlanSoundS(r, b + 1);
      if !Materializes(r) { FreshUseS(r); }
    case Chr(_, c) => PlanSoundV(c, b);
  }

  lemma {:induction false} PlanSoundV(v: V, b: int)
    requires FreshV(v)
    ensures Allocated(UsedV(StampV(v, b)), FineV(v), b, HiV(v, b))
    decreases v, 0
  {
    match v
    case Num(_) =>
    case Scalar(_) =>
    case Elem(_, idx) => PlanSoundV(idx, b);
    case ByteAt(_, idx) => PlanSoundV(idx, b);
    case Length(s) => PlanSoundIn(s, b);
    case Field(_, idx) => FreshUse(idx);
    case Bin(_, x, y) =>
      PlanSoundV(x, b);
      PlanSoundV(y, b);
    case Unary(_, x) => PlanSoundV(x, b);
    case Related(_, l, r) =>
      PlanSoundS(l, b);
      PlanSoundS(r, HiS(l, b) + 1);
    case Call(_, args) => PlanSoundA(args, b);
  }

  lemma {:induction false} PlanSoundA(vs: Vs, b: int)
    requires FreshA(vs)
    ensures Allocated(UsedA(StampA(vs, b)), FineA(vs), b, HiA(vs, b))
    decreases vs, 0
  {
    if vs.More? {
      PlanSoundV(vs.hd, b);
      PlanSoundA(vs.tl, b);
    }
  }

  /** Under `length`, a string that needs a temporary keeps the index -1. */
  lemma {:induction false} PlanSoundIn(e: S, b: int)
    requires FreshS(e)
    ensures HiIn(e, b) >= b - 1 && (if Materializes(e) then -1 in UsedS(StampIn(e, b)) else UsedS(StampIn(e, b)) == {})
    decreases e, 0
  {
    match e
    case Lit(_, _) =>
    case Var(_) =>
    case Cat(_, l, r) =>
      PlanSoundIn(l, b);
      PlanSoundIn(r, b);
    case Chr(_, c) => PlanSoundV(c, b);
  }

  /** Nothing is allocated in vain: a fine tree uses every index from its base to its highest. */
  ghost predicate Exactly(used: set<int>, lo: int, hi: int) { forall i :: i in used <==> lo <= i <= hi }

  lemma {:induction false} PlanExactS(e: S, b: int)
    requires FreshS(e) && FineS(e)
    ensures Exactly(UsedS(StampS(e, b)), b, HiS(e, b)) && HiS(e, b) >= b - 1
    decreases e, 0
  {
    match e
    case Lit(_, _) =>
    case Var(_) =>
    case Cat(_, l, r) =>
      if l.Cat? { PlanExactS(l, b); }
      if l.Chr? { FreshUse(l.c); }
      PlanExactS(r, b + 1);
      if !Materializes(r) { FreshUseS(r); }
    case Chr(_, c) => PlanExactV(c, b);
  }

  lemma {:induction false} PlanExactV(v: V, b: int)
    requires FreshV(v) && FineV(v)
    ensures Exactly(UsedV(StampV(v, b)), b, HiV(v, b)) && HiV(v, b) >= b - 1
    decreases v, 0
  {
    match v
    case Num(_) =>
    case Scalar(_) =>
    case Elem(_, idx) => PlanExactV(idx, b);
    case ByteAt(_, idx) => PlanExactV(idx, b);
    case Length(s) => PlanSoundIn(s, b);
    case Field(_, idx) => FreshUse(idx);
    case Bin(_, x, y) =>
      PlanExactV(x, b);
      PlanExactV(y, b);
    case Unary(_, x) => PlanExactV(x, b);
    case Related(_, l, r) =>
      PlanExactS(l, b);
      PlanExactS(r, HiS(l, b) + 1);
    case Call(_, args) => PlanExactA(args, b);
  }

  lemma {:induction false} PlanExactA(vs: Vs, b: int)
    requires FreshA(vs) && FineA(vs)
    ensures Exactly(UsedA(StampA(vs, b)), b, HiA(vs, b)) && HiA(vs, b) >= b - 1
    decreases vs, 0
  {
    if vs.More? {
      PlanExactV(vs.hd, b);
      PlanExactA(vs.tl, b);
    }
  }

  /** A concatenation nested to the left, whose right operands need no temporary, uses one. */
  predicate LeftDeep(e: S) { e.Cat? && !Materializes(e.r) && (e.l.Cat? ==> LeftDeep(e.l)) }

  lemma {:induction false} LeftDeepUsesOne(e: S, b: int)
    requires LeftDeep(e)
    ensures HiS(e, b) == b
  {
    if e.l.Cat? { LeftDeepUsesOne(e.l, b); }
  }

  // ---- a routine ----

  /** The expressions of a routine's statements, planned one after the other from index 0: string values,
      scalar values, and the indices of whole-record assignments, which are not walked. */
  datatype Top = StrTop(e: S) | ValTop(v: V) | RecordTop(v: V)

  function HiTop(t: Top): int {
    match t case StrTop(e) => HiS(e, 0) case ValTop(v) => HiV(v, 0) case RecordTop(_) => -1
  }

  function StampTop(t: Top): Top {
    match t case StrTop(e) => StrTop(StampS(e, 0)) case ValTop(v) => ValTop(StampV(v, 0)) case RecordTop(_) => t
  }

  function UsedTop(t: Top): set<int> {
    match t case StrTop(e) => UsedS(e) case ValTop(v) => UsedV(v) case RecordTop(v) => UsedV(v)
  }

  predicate FreshTop(t: Top) {
    match t case StrTop(e) => FreshS(e) case ValTop(v) => FreshV(v) case RecordTop(v) => FreshV(v)
  }

  predicate FineTop(t: Top) {
    match t case StrTop(e) => FineS(e) case ValTop(v) => FineV(v) case RecordTop(v) => DryV(v)
  }

  lemma TopSound(t: Top)
    requires FreshTop(t)
    ensures Allocated(UsedTop(StampTop(t)), FineTop(t), 0, HiTop(t))
  {
    match t
    case StrTop(e) => PlanSoundS(e, 0);
    case ValTop(v) => PlanSoundV(v, 0);
    case RecordTop(v) => FreshUse(v);
  }

  /** Plans a routine and counts the temporaries to reserve: every index emission uses is one of them if
      and only if no skipped position holds a string that needs one. */
  method PlanRoutine(tops: seq<Top>) returns (planned: seq<Top>, max: int)
    requires forall i :: 0 <= i < |tops| ==> FreshTop(tops[i])
    ensures |planned| == |tops| && max >= 0
    ensures forall i :: 0 <= i < |tops| ==> planned[i] == StampTop(tops[i])
    ensures (forall i :: 0 <= i < |tops| ==> Within(UsedTop(planned[i]), 0, max - 1)) <==>
            (forall i :: 0 <= i < |tops| ==> FineTop(tops[i]))
    ensures forall i :: 0 <= i < |tops| && !FineTop(tops[i]) ==> -1 in UsedTop(planned[i])
  {
    planned, max := [], 0;
    for k := 0 to |tops|
      invariant |planned| == k && max >= 0
      invariant forall i :: 0 <= i < k ==> planned[i] == StampTop(tops[i])
      invariant forall i :: 0 <= i < k ==> Allocated(UsedTop(planned[i]), FineTop(tops[i]), 0, max - 1)
    {
      TopSound(tops[k]);
      var hi := HiTop(tops[k]);
      planned := planned + [StampTop(tops[k])];
      if hi + 1 > max { max := hi + 1; }
    }
    assert forall i :: 0 <= i < |tops| && FineTop(tops[i]) ==> Within(UsedTop(planned[i]), 0, max - 1);
    assert forall i :: 0 <= i < |tops| && !FineTop(tops[i]) ==> -1 in UsedTop(planned[i]);
  }

  // ---- what later lemmas need of a planned tree ----

  /** `e` is laid out from index `b` and uses none above `hi`. */
  predicate LaidS(e: S, b: int, hi: int)
    decreases e, 0
  {
    match e
    case Cat(t, l, r) =>
      && t == b <= hi && LaidS(r, b + 1, hi)
      && (l.Cat? ==> LaidS(l, b, hi)) && (l.Chr? ==> DryV(l.c))
    case Chr(t, c) => t == b <= hi && LaidV(c, b, hi)
    case _ => true
  }

  predicate LaidV(v: V, b: int, hi: int)
    decreases v, 0
  {
    match v
    case Num(_) => true
    case Scalar(_) => true
    case Elem(_, idx) => LaidV(idx, b, hi)
    case ByteAt(_, idx) => LaidV(idx, b, hi)
    case Length(s) => !Materializes(s)
    case Field(_, idx) => DryV(idx)
    case Bin(_, x, y) => LaidV(x, b, hi) && LaidV(y, b, hi)
    case Unary(_, x) => LaidV(x, b, hi)
    case Related(_, l, r) => LaidS(l, b, HiS(l, b)) && HiS(l, b) <= hi && LaidS(r, HiS(l, b) + 1, hi)
    case Call(_, args) => LaidA(args, b, hi)
  }

  predicate LaidA(vs: Vs, b: int, hi: int)
    decreases vs, 0
  {
    vs.More? ==> LaidV(vs.hd, b, hi) && LaidA(vs.tl, b, hi)
  }

  lemma {:induction false} HiAtLeastS(e: S, b: int)
    ensures HiS(e, b) >= b - 1 && (Materializes(e) ==> HiS(e, b) >= b)
    decreases e, 0
  {
    match e
    case Lit(_, _) =>
    case Var(_) =>
    case Cat(_, l, r) =>
    case Chr(_, c) =>
  }

  /** Stamping does not change how high a tree reaches. */
  lemma {:induction false} HiStampS(e: S, b: int, c: int)
    ensures HiS(StampS(e, b), c) == HiS(e, c)
    decreases e, 0
  {
    match e
    case Lit(_, _) =>
    case Var(_) =>
    case Cat(_, l, r) =>
      if l.Cat? { HiStampS(l, b, c); }
      if Materializes(r) { HiStampS(r, b + 1, c + 1); }
    case Chr(_, v) => HiStampV(v, b, c);
  }

  lemma {:induction false} HiStampV(v: V, b: int, c: int)
    ensures HiV(StampV(v, b), c) == HiV(v, c)
    decreases v, 0
  {
    match v
    case Num(_) =>
    case Scalar(_) =>
    case Elem(_, idx) => HiStampV(idx, b, c);
    case ByteAt(_, idx) => HiStampV(idx, b, c);
    case Length(s) => HiStampIn(s, b, c);
    case Field(_, _) =>
    case Bin(_, x, y) =>
      HiStampV(x, b, c);
      HiStampV(y, b, c);
    case Unary(_, x) => HiStampV(x, b, c);
    case Related(_, l, r) =>
      HiStampS(l, b, c);
      HiStampS(r, HiS(l, b) + 1, HiS(l, c) + 1);
    case Call(_, args) => HiStampA(args, b, c);
  }

  lemma {:induction false} HiStampA(vs: Vs, b: int, c: int)
    ensures HiA(StampA(vs, b), c) == HiA(vs, c)
    decreases vs, 0
  {
    if vs.More? {
      HiStampV(vs.hd, b, c);
      HiStampA(vs.tl, b, c);
    }
  }

  lemma {:induction false} HiStampIn(e: S, b: int, c: int)
    ensures HiIn(StampIn(e, b), c) == HiIn(e, c)
    decreases e, 0
  {
    match e
    case Lit(_, _) =>
    case Var(_) =>
    case Cat(_, l, r) =>
      HiStampIn(l, b, c);
      HiStampIn(r, b, c);
    case Chr(_, v) => HiStampV(v, b, c);
  }

  /** Planning lays a fine tree out; anything above what it needs may be allowed as well. */
  lemma {:induction false} PlanLaysS(e: S, b: int, hi: int)
    requires FineS(e) && HiS(e, b) <= hi
    ensures LaidS(StampS(e, b), b, hi)
    decreases e, 0
  {
    match e
    case Lit(_, _) =>
    case Var(_) =>
    case Cat(_, l, r) =>
      if l.Cat? { PlanLaysS(l, b, hi); }
      if Materializes(r) { PlanLaysS(r, b + 1, hi); }
    case Chr(_, c) => PlanLaysV(c, b, hi);
  }

  lemma {:induction false} PlanLaysV(v: V, b: int, hi: int)
    requires FineV(v) && HiV(v, b) <= hi
    ensures LaidV(StampV(v, b), b, hi)
    decreases v, 0
  {
    match v
    case Num(_) =>
    case Scalar(_) =>
    case Elem(_, idx) => PlanLaysV(idx, b, hi);
    case ByteAt(_, idx) => PlanLaysV(idx, b, hi);
    case Length(s) =>
    case Field(_, idx) =>
    case Bin(_, x, y) =>
      PlanLaysV(x, b, hi);
      PlanLaysV(y, b, hi);
    case Unary(_, x) => PlanLaysV(x, b, hi);
    case Related(_, l, r) =>
      HiAtLeastS(r, HiS(l, b) + 1);
      PlanLaysS(l, b, HiS(l, b));
      PlanLaysS(r, HiS(l, b) + 1, hi);
      HiStampS(l, b, b);
    case Call(_, args) => PlanLaysA(args, b, hi);
  }

  lemma {:induction false} PlanLaysA(vs: Vs, b: int, hi: int)
    requires FineA(vs) && HiA(vs, b) <= hi
    ensures LaidA(StampA(vs, b), b, hi)
    decreases vs, 0
  {
    if vs.More? {
      PlanLaysV(vs.hd, b, hi);
      PlanLaysA(vs.tl, b, hi);
    }
  }

  /** A dry tree is laid out wherever. */
  lemma {:induction false} DryLaid(v: V, b: int, hi: int)
    requires DryV(v) && hi >= b - 1
    ensures LaidV(v, b, hi)
    decreases v, 0
  {
    match v
    case Num(_) =>
    case Scalar(_) =>
    case Elem(_, idx) => DryLaid(idx, b, hi);
    case ByteAt(_, idx) => DryLaid(idx, b, hi);
    case Length(_) =>
    case Field(_, _) =>
    case Bin(_, x, y) =>
      DryLaid(x, b, hi);
      DryLaid(y, b, hi);
    case Unary(_, x) => DryLaid(x, b, hi);
    case Related(_, _, _) =>
    case Call(_, args) => DryLaidA(args, b, hi);
  }

  lemma {:induction false} DryLaidA(vs: Vs, b: int, hi: int)
    requires DryA(vs) && hi >= b - 1
    ensures LaidA(vs, b, hi)
    decreases vs, 0
  {
    if vs.More? {
      DryLaid(vs.hd, b, hi);
      DryLaidA(vs.tl, b, hi);
    }
  }
}
