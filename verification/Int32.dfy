/** 32-bit two's-complement arithmetic, as the emitted x86 instructions compute it.
    A word is represented by its signed value. */
module Int32 {

  const MIN: int := -0x8000_0000
  const MAX: int := 0x7FFF_FFFF
  const MODULUS: int := 0x1_0000_0000

  predicate IsWord(x: int) {
    MIN <= x <= MAX
  }

  /** The signed word congruent to `x` modulo 2^32. */
  function Wrap(x: int): (r: int)
    ensures IsWord(r)
    ensures IsWord(x) ==> r == x
  {
    (x + 0x8000_0000) % MODULUS - 0x8000_0000
  }

  /** The same word read as an unsigned number. */
  function Unsigned(x: int): (r: int)
    ensures 0 <= r < MODULUS
    ensures 0 <= x < MODULUS ==> r == x
  {
    x % MODULUS
  }

  /** Division truncating toward zero: Turbo Pascal's `div`. */
  function TruncDiv(a: int, b: int): int
    requires b != 0
  {
    var q := (if a < 0 then -a else a) / (if b < 0 then -b else b);
    if (a < 0) == (b < 0) then q else -q
  }

  /** The remainder with the dividend's sign: Turbo Pascal's `mod`. */
  function TruncMod(a: int, b: int): int
    requires b != 0
  {
    a - b * TruncDiv(a, b)
  }

  /** Bitwise operations on unsigned numbers of `n` bits, bit by bit. */
  function BitAnd(a: nat, b: nat, n: nat): nat {
    if n == 0 then 0 else (if a % 2 == 1 && b % 2 == 1 then 1 else 0) + 2 * BitAnd(a / 2, b / 2, n - 1)
  }

  function BitOr(a: nat, b: nat, n: nat): nat {
    if n == 0 then 0 else (if a % 2 == 1 || b % 2 == 1 then 1 else 0) + 2 * BitOr(a / 2, b / 2, n - 1)
  }

  function BitXor(a: nat, b: nat, n: nat): nat {
    if n == 0 then 0 else (if a % 2 != b % 2 then 1 else 0) + 2 * BitXor(a / 2, b / 2, n - 1)
  }

  function And(a: int, b: int): int { Wrap(BitAnd(Unsigned(a), Unsigned(b), 32)) }
  function Or(a: int, b: int): int { Wrap(BitOr(Unsigned(a), Unsigned(b), 32)) }
  function Xor(a: int, b: int): int { Wrap(BitXor(Unsigned(a), Unsigned(b), 32)) }

  /** Two raised to `k`. */
  function Pow2(k: nat): (r: nat)
    ensures r > 0
  {
    if k == 0 then 1 else 2 * Pow2(k - 1)
  }

  lemma {:induction false} BitZero(n: nat)
    ensures BitAnd(0, 0, n) == 0 && BitOr(0, 0, n) == 0 && BitXor(0, 0, n) == 0
  {
    if n > 0 { BitZero(n - 1); }
  }

  /** On the 0/1 encoding of booleans the bitwise instructions are the logical connectives. */
  lemma BoolBits(p: bool, q: bool)
    ensures And(if p then 1 else 0, if q then 1 else 0) == if p && q then 1 else 0
    ensures Or(if p then 1 else 0, if q then 1 else 0) == if p || q then 1 else 0
    ensures Xor(if p then 1 else 0, 1) == if p then 0 else 1
  {
    var a, b := if p then 1 else 0, if q then 1 else 0;
    BitZero(31);
    assert a / 2 == 0 && b / 2 == 0;
    assert BitAnd(a, b, 32) == (if p && q then 1 else 0) + 2 * BitAnd(0, 0, 31);
    assert BitOr(a, b, 32) == (if p || q then 1 else 0) + 2 * BitOr(0, 0, 31);
    assert BitXor(a, 1, 32) == (if p then 0 else 1) + 2 * BitXor(0, 0, 31);
  }

  lemma {:induction false} MaskBits(a: nat, k: nat, n: nat)
    requires k <= n
    ensures BitAnd(a, Pow2(k) - 1, n) == a % Pow2(k)
  {
    if k == 0 {
      MaskZero(a, n);
      assert a % 1 == 0;
    } else {
      MaskBits(a / 2, k - 1, n - 1);
      var p := Pow2(k - 1);
      assert (2 * p - 1) / 2 == p - 1 && (2 * p - 1) % 2 == 1;
      HalfMod(a, p);
    }
  }

  lemma {:induction false} MaskZero(a: nat, n: nat)
    ensures BitAnd(a, 0, n) == 0
  {
    if n > 0 { MaskZero(a / 2, n - 1); }
  }

  lemma HalfMod(a: nat, p: nat)
    requires p > 0
    ensures a % (2 * p) == a % 2 + 2 * ((a / 2) % p)
  {
    var h := a / 2;
    var q, r := h / p, h % p;
    assert h == p * q + r;
    assert a == (2 * p) * q + (a % 2 + 2 * r);
    ModUnique(a, 2 * p, q, a % 2 + 2 * r);
  }

  lemma MulAtLeast(m: int, k: int)
    requires m > 0 && k >= 1
    ensures m * k >= m
  {
  }

  lemma ModUnique(a: int, m: int, q: int, r: int)
    requires m > 0 && 0 <= r < m && a == m * q + r
    ensures a % m == r && a / m == q
  {
    var q', r' := a / m, a % m;
    assert a == m * q' + r';
    assert m * (q - q') == r' - r;
    assert m * (q' - q) == r - r';
    if q - q' >= 1 {
      MulAtLeast(m, q - q');
    } else if q' - q >= 1 {
      MulAtLeast(m, q' - q);
    }
  }

  /** `and eax, 0xFF` keeps the low byte. */
  lemma MaskByte(a: int)
    ensures And(a, 0xFF) == Unsigned(a) % 256
  {
    assert Pow2(8) == 256 by {
      assert Pow2(4) == 16;
      assert Pow2(6) == 64;
    }
    MaskBits(Unsigned(a), 8, 32);
  }

  /** Truncating division works on magnitudes: the signs only choose the sign of the result. */
  lemma TruncSigns(a: int, b: int)
    requires b != 0
    ensures var x, y := if a < 0 then -a else a, if b < 0 then -b else b;
            && TruncMod(a, b) == (if a < 0 then -(x % y) else x % y)
            && TruncDiv(a, b) == (if (a < 0) == (b < 0) then x / y else -(x / y))
  {
    var x, y := if a < 0 then -a else a, if b < 0 then -b else b;
    var q := x / y;
    assert x == y * q + x % y;
    assert (-y) * q == -(y * q) && y * (-q) == -(y * q) && (-y) * (-q) == y * q;
  }

  lemma HalfBound(x: int, y: int)
    requires x >= 0 && y >= 1
    ensures 0 <= x / y <= x
    ensures y >= 2 ==> x / y <= x / 2
  {
    var q := x / y;
    assert x == y * q + x % y;
    assert y * -q == -(y * q);
    if q < 0 { MulAtLeast(y, -q); }
    assert (y - 1) * q == y * q - q;
    assert y >= 2 ==> (y - 2) * q == y * q - 2 * q;
    Nonneg(y - 1, q);
    if y >= 2 { Nonneg(y - 2, q); }
  }

  lemma Nonneg(a: int, b: int)
    requires a >= 0 && b >= 0
    ensures a * b >= 0
  {
  }

  /** The quotient of two words leaves the word range only for MinInt div -1: the one case,
      besides a zero divisor, in which `idiv` after `cdq` raises the divide error. The remainder
      never does, is smaller than the divisor and has the dividend's sign. */
  lemma QuotientInRange(a: int, b: int)
    requires IsWord(a) && IsWord(b) && b != 0
    ensures IsWord(TruncDiv(a, b)) <==> !(a == MIN && b == -1)
    ensures IsWord(TruncMod(a, b))
    ensures -(if b < 0 then -b else b) < TruncMod(a, b) < (if b < 0 then -b else b)
    ensures TruncMod(a, b) == 0 || (TruncMod(a, b) < 0 <==> a < 0)
  {
    var x, y := if a < 0 then -a else a, if b < 0 then -b else b;
    TruncSigns(a, b);
    HalfBound(x, y);
    assert y == 1 ==> x / y == x;
    hide TruncDiv;
    hide TruncMod;
  }
}
