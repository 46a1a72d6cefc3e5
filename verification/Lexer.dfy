/** The lexer's scanners: comments and blanks, integer literals, and string literals decoded into a
    finite pool whose write cursor wraps. Bytes are integers 0..255. */
module Lexer {
  import opened Int32

  type Bytes = seq<int>

  const NEWLINE: int := 10
  const QUOTE: int := 39
  const LPAREN: int := 40
  const RPAREN: int := 41
  const STAR: int := 42
  const LBRACE: int := 123
  const RBRACE: int := 125

  const CAP: nat := 1024

  predicate IsSpace(c: int) { c == 32 || 9 <= c <= 13 }

  predicate IsDigit(c: int) { 48 <= c <= 57 }

  // ---- positions ----

  /** 1-based line and column of the byte after the first `n`. */
  function LineOf(src: Bytes, n: nat): nat
    requires n <= |src|
  {
    if n == 0 then 1 else LineOf(src, n - 1) + (if src[n - 1] == NEWLINE then 1 else 0)
  }

  function ColOf(src: Bytes, n: nat): nat
    requires n <= |src|
  {
    if n == 0 || src[n - 1] == NEWLINE then 1 else ColOf(src, n - 1) + 1
  }

  // ---- integer literals ----

  /** The decimal value of a string of digits. */
  function Decimal(ds: Bytes): int {
    if ds == [] then 0 else Decimal(ds[..|ds| - 1]) * 10 + (ds[|ds| - 1] - 48)
  }

  predicate Digits(ds: Bytes) { forall i :: 0 <= i < |ds| ==> IsDigit(ds[i]) }

  /** The first position from `i` on that holds no digit. */
  function DigitsEnd(src: Bytes, i: nat): (j: nat)
    requires i <= |src|
    ensures i <= j <= |src| && (forall k :: i <= k < j ==> IsDigit(src[k])) && (j < |src| ==> !IsDigit(src[j]))
    decreases |src| - i
  {
    if i == |src| || !IsDigit(src[i]) then i else DigitsEnd(src, i + 1)
  }

  /** More digits never make a number smaller. */
  lemma {:induction false} DecimalGrows(ds: Bytes, n: nat)
    requires Digits(ds) && n <= |ds|
    ensures 0 <= Decimal(ds[..n]) <= Decimal(ds)
    decreases |ds|
  {
    if n == |ds| {
      assert ds[..n] == ds;
      if n > 0 { DecimalGrows(ds[..n - 1], n - 1); assert ds[..n - 1][..n - 1] == ds[..n - 1]; }
    } else {
      var m := |ds| - 1;
      DecimalGrows(ds[..m], n);
      assert ds[..m][..n] == ds[..n];
    }
  }

  lemma DecimalSnoc(src: Bytes, i: nat, k: nat)
    requires i <= k < |src|
    ensures Decimal(src[i..k + 1]) == Decimal(src[i..k]) * 10 + (src[k] - 48)
  {
    assert src[i..k + 1][..k - i] == src[i..k];
  }

  lemma NoDigits()
    ensures Decimal([]) == 0
  {
  }

  /** Before the last digit of a number, its value so far and one digit more is no more than the whole. */
  lemma NextDigit(src: Bytes, i: nat, k: nat)
    requires i <= |src| && i <= k < DigitsEnd(src, i)
    ensures IsDigit(src[k]) && Decimal(src[i..k + 1]) == Decimal(src[i..k]) * 10 + (src[k] - 48)
    ensures Decimal(src[i..k + 1]) <= Decimal(src[i..DigitsEnd(src, i)])
  {
    hide Decimal;
    var ds := src[i..DigitsEnd(src, i)];
    DecimalSnoc(src, i, k);
    assert ds[..k + 1 - i] == src[i..k + 1];
    DecimalGrows(ds, k + 1 - i);
  }

  // ---- numerals ----

  /** The ten digits as characters. */
  const TEN: Bytes := ['0' as int, '1' as int, '2' as int, '3' as int, '4' as int,
                       '5' as int, '6' as int, '7' as int, '8' as int, '9' as int]

  /** How a number is written. */
  function Numeral(n: nat): (t: Bytes)
    ensures t != [] && forall k :: 0 <= k < |t| ==> t[k] in TEN
  {
    if n < 10 then [TEN[n]] else Numeral(n / 10) + [TEN[n % 10]]
  }

  /** The number `n` stands written out at `i`, and no digit follows it. */
  predicate Reads(src: Bytes, i: nat, n: nat) {
    var j := i + |Numeral(n)|;
    j <= |src| && src[i..j] == Numeral(n) && (j == |src| || src[j] !in TEN)
  }

  lemma DigitIs(c: int)
    ensures IsDigit(c) <==> c in TEN
    ensures forall d: nat :: d < 10 ==> TEN[d] == 48 + d
  {
  }

  lemma {:induction false} NumeralValue(n: nat)
    ensures Decimal(Numeral(n)) == n
    decreases n
  {
    DigitIs(0);
    if n < 10 {
      assert Numeral(n)[..0] == [];
    } else {
      NumeralValue(n / 10);
      var t := Numeral(n);
      assert t[..|t| - 1] == Numeral(n / 10) && t[|t| - 1] == TEN[n % 10];
    }
  }

  lemma {:induction false} DigitsRun(src: Bytes, i: nat, j: nat)
    requires i <= j <= |src| && (forall k :: i <= k < j ==> IsDigit(src[k])) && (j < |src| ==> !IsDigit(src[j]))
    ensures DigitsEnd(src, i) == j
    decreases j - i
  {
    if i < j { DigitsRun(src, i + 1, j); }
  }

  /** A written number is read to its end and has its value. */
  lemma NumeralRead(src: Bytes, i: nat, n: nat)
    requires i <= |src| && Reads(src, i, n)
    ensures DigitsEnd(src, i) == i + |Numeral(n)| && Decimal(src[i..DigitsEnd(src, i)]) == n
  {
    hide Decimal, DigitsEnd, IsDigit, TEN, Numeral;
    var t, j := Numeral(n), i + |Numeral(n)|;
    forall k | i <= k < j
      ensures IsDigit(src[k])
    {
      assert src[k] == src[i..j][k - i] == t[k - i];
      DigitIs(src[k]);
    }
    if j < |src| { DigitIs(src[j]); }
    DigitsRun(src, i, j);
    NumeralValue(n);
  }

  // ---- string literals ----

  datatype Scan = Text(text: Bytes, next: nat) | Unterminated(next: nat) | TooLong(next: nat)

  /** Decodes from `i`, just after the opening quote, with `acc` decoded so far. */
  function Body(src: Bytes, i: nat, acc: Bytes): (s: Scan)
    requires i <= |src| && |acc| <= CAP
    ensures i <= s.next <= |src|
    decreases |src| - i
  {
    if i == |src| || src[i] == NEWLINE then Unterminated(i)
    else
      var doubled := src[i] == QUOTE && i + 1 < |src| && src[i + 1] == QUOTE;
      if src[i] == QUOTE && !doubled then Text(acc, i + 1)
      else
        var j := if doubled then i + 2 else i + 1;
        if |acc| == CAP then TooLong(j) else Body(src, j, acc + [src[i]])
  }

  datatype Decoded = Byte(c: int, next: nat) | Close(next: nat) | Broken(next: nat)

  /** What stands at `i` inside a string literal. */
  function DecodedAt(src: Bytes, i: nat): Decoded
    requires i <= |src|
  {
    if i == |src| || src[i] == NEWLINE then Broken(i)
    else if src[i] != QUOTE then Byte(src[i], i + 1)
    else if i + 1 < |src| && src[i + 1] == QUOTE then Byte(QUOTE, i + 2)
    else Close(i + 1)
  }

  lemma BodyIs(src: Bytes, i: nat, acc: Bytes)
    requires i <= |src| && |acc| <= CAP
    ensures var d := DecodedAt(src, i);
            && (d.Broken? ==> Body(src, i, acc) == Unterminated(d.next))
            && (d.Close? ==> Body(src, i, acc) == Text(acc, d.next))
            && (d.Byte? ==> i < d.next <= |src| && Body(src, i, acc) == if |acc| == CAP then TooLong(d.next)
              else Body(src, d.next, acc + [d.c]))
  {
  }

  /** How a string is written: every quote doubled. */
  function Escaped(s: Bytes): Bytes {
    if s == [] then [] else (if s[0] == QUOTE then [QUOTE, QUOTE] else [s[0]]) + Escaped(s[1..])
  }

  function Quoted(s: Bytes): Bytes { [QUOTE] + Escaped(s) + [QUOTE] }

  /** `text` stands at position `i`. */
  predicate Holds(src: Bytes, i: nat, text: Bytes) {
    i + |text| <= |src| && src[i..i + |text|] == text
  }

  lemma HoldsSplit(src: Bytes, i: nat, a: Bytes, b: Bytes)
    requires Holds(src, i, a + b)
    ensures Holds(src, i, a) && Holds(src, i + |a|, b)
  {
    assert src[i..i + |a|] == src[i..i + |a + b|][..|a|];
    assert src[i + |a|..i + |a| + |b|] == src[i..i + |a + b|][|a|..];
  }

  lemma HoldsAt(src: Bytes, i: nat, text: Bytes, k: nat)
    requires Holds(src, i, text) && k < |text|
    ensures src[i + k] == text[k]
  {
    assert src[i..i + |text|][k] == text[k];
  }

  lemma HoldsFits(src: Bytes, i: nat, t: Bytes)
    requires Holds(src, i, t)
    ensures i + |t| <= |src|
  {
  }

  /** The written form of a byte. */
  function Written(c: int): Bytes { if c == QUOTE then [QUOTE, QUOTE] else [c] }

  /** Where a written string starts, its first byte stands, and the rest after it. */
  lemma FirstWritten(src: Bytes, i: nat, s: Bytes)
    requires s != [] && Holds(src, i, Escaped(s) + [QUOTE])
    ensures i + |Written(s[0])| <= |src| && src[i] == s[0] && (s[0] == QUOTE ==> src[i + 1] == QUOTE)
    ensures Holds(src, i + |Written(s[0])|, Escaped(s[1..]) + [QUOTE])
    ensures |Escaped(s)| == |Written(s[0])| + |Escaped(s[1..])|
  {
    hide Holds;
    var first, rest := Written(s[0]), Escaped(s[1..]) + [QUOTE];
    assert Escaped(s) + [QUOTE] == first + rest;
    HoldsSplit(src, i, first, rest);
    HoldsFits(src, i, first);
    HoldsAt(src, i, first, 0);
    if s[0] == QUOTE { HoldsAt(src, i, first, 1); }
  }

  /** The closing quote ends the string. */
  lemma BodyCloses(src: Bytes, i: nat, acc: Bytes)
    requires |acc| <= CAP && Holds(src, i, [QUOTE]) && (i + 1 == |src| || src[i + 1] != QUOTE)
    ensures Body(src, i, acc) == Text(acc, i + 1)
  {
    HoldsAt(src, i, [QUOTE], 0);
  }

  /** A string written out and closed decodes to itself if it fits, and is rejected otherwise. */
  lemma {:induction false} BodyInverts(src: Bytes, i: nat, acc: Bytes, s: Bytes)
    requires |acc| <= CAP && NEWLINE !in s && Holds(src, i, Escaped(s) + [QUOTE])
    requires var j := i + |Escaped(s)| + 1; j == |src| || src[j] != QUOTE
    ensures if |acc| + |s| <= CAP then Body(src, i, acc) == Text(acc + s, i + |Escaped(s)| + 1)
            else Body(src, i, acc).TooLong?
    decreases |s|
  {
    hide Holds, Body, Escaped;
    if s == [] {
      EscapedNothing();
      assert [] + [QUOTE] == [QUOTE] && acc + s == acc;
      BodyCloses(src, i, acc);
    } else {
      FirstWritten(src, i, s);
      assert s[0] in s;
      BodyStep(src, i, acc, s[0]);
      if |acc| < CAP {
        HoldsFits(src, i + |Written(s[0])|, Escaped(s[1..]) + [QUOTE]);
        BodyInverts(src, i + |Written(s[0])|, acc + [s[0]], s[1..]);
        assert acc + [s[0]] + s[1..] == acc + s;
      }
    }
  }

  lemma EscapedNothing()
    ensures Escaped([]) == []
  {
  }

  /** One decoded byte. */
  lemma BodyStep(src: Bytes, i: nat, acc: Bytes, c: int)
    requires |acc| <= CAP && i < |src| && src[i] == c && c != NEWLINE
    requires c == QUOTE ==> i + 1 < |src| && src[i + 1] == QUOTE
    ensures var j := if c == QUOTE then i + 2 else i + 1;
            Body(src, i, acc) == if |acc| == CAP then TooLong(j) else Body(src, j, acc + [c])
  {
  }

  /** Whatever is decoded stood there with its quotes doubled, fits, and has no newline. */
  lemma {:induction false} BodyMeans(src: Bytes, i: nat, acc: Bytes) returns (s: Bytes)
    requires i <= |src| && |acc| <= CAP && Body(src, i, acc).Text?
    ensures Body(src, i, acc).text == acc + s && |acc + s| <= CAP && NEWLINE !in s
    ensures src[i..Body(src, i, acc).next] == Escaped(s) + [QUOTE]
    ensures var j := Body(src, i, acc).next; j == |src| || src[j] != QUOTE
    decreases |src| - i
  {
    var doubled := src[i] == QUOTE && i + 1 < |src| && src[i + 1] == QUOTE;
    var j := Body(src, i, acc).next;
    if src[i] == QUOTE && !doubled {
      s := [];
      assert acc + s == acc;
    } else {
      var k := if doubled then i + 2 else i + 1;
      var rest := BodyMeans(src, k, acc + [src[i]]);
      s := [src[i]] + rest;
      assert acc + s == acc + [src[i]] + rest;
      assert s[1..] == rest;
      assert src[i..j] == src[i..k] + src[k..j];
      assert src[i..k] == if doubled then [QUOTE, QUOTE] else [src[i]];
    }
  }

  // ---- blanks and comments ----

  datatype Skip = Token(next: nat) | OpenComment(at: nat)

  /** The first position from `i` on that holds `c`, or the end. */
  function Seek(src: Bytes, i: nat, c: int): (j: nat)
    requires i <= |src|
    ensures i <= j <= |src| && (forall k :: i <= k < j ==> src[k] != c) && (j < |src| ==> src[j] == c)
    decreases |src| - i
  {
    if i == |src| || src[i] == c then i else Seek(src, i + 1, c)
  }

  predicate StarParenAt(src: Bytes, j: nat) { j + 1 < |src| && src[j] == STAR && src[j + 1] == RPAREN }

  /** The first `*)` from `i` on, or the end. */
  function SeekStar(src: Bytes, i: nat): (j: nat)
    requires i <= |src|
    ensures i <= j <= |src| && (j < |src| ==> StarParenAt(src, j))
    ensures forall k :: i <= k < j ==> !StarParenAt(src, k)
    decreases |src| - i
  {
    if i == |src| || StarParenAt(src, i) then i else SeekStar(src, i + 1)
  }

  /** Where the next token starts, or the comment that never ends. */
  function Trivia(src: Bytes, i: nat): (s: Skip)
    requires i <= |src|
    ensures s.Token? ==> i <= s.next <= |src|
    decreases |src| - i
  {
    if i == |src| then Token(i)
    else if IsSpace(src[i]) then Trivia(src, i + 1)
    else if src[i] == LBRACE then
      var j := Seek(src, i + 1, RBRACE);
      if j == |src| then OpenComment(i) else Trivia(src, j + 1)
    else if src[i] == LPAREN && i + 1 < |src| && src[i + 1] == STAR then
      var j := SeekStar(src, i + 2);
      if j == |src| then OpenComment(i) else Trivia(src, j + 2)
    else Token(i)
  }

  /** A blank, a brace comment, or a paren-star comment. */
  datatype Piece = Blank(c: int) | Brace(body: Bytes) | Star(body: Bytes)

  predicate PieceOk(p: Piece) {
    match p
    case Blank(c) => IsSpace(c)
    case Brace(body) => RBRACE !in body
    case Star(body) => forall k :: 0 <= k < |body| ==> !StarParenAt(body + [STAR, RPAREN], k)
  }

  function PieceText(p: Piece): (t: Bytes)
    ensures |t| > 0
  {
    match p
    case Blank(c) => [c]
    case Brace(body) => [LBRACE] + body + [RBRACE]
    case Star(body) => [LPAREN, STAR] + body + [STAR, RPAREN]
  }

  function PiecesText(ps: seq<Piece>): Bytes { if ps == [] then [] else PieceText(ps[0]) + PiecesText(ps[1..]) }

  /** A token can start here. */
  predicate Solid(src: Bytes, i: nat) {
    i == |src| || (i < |src| && !IsSpace(src[i]) && src[i] != LBRACE
                   && !(src[i] == LPAREN && i + 1 < |src| && src[i + 1] == STAR))
  }

  lemma {:induction false} SeekFinds(src: Bytes, i: nat, c: int, k: nat)
    requires i <= k < |src| && src[k] == c && c !in src[i..k]
    ensures Seek(src, i, c) == k
    decreases k - i
  {
    if i < k {
      assert src[i..k] == [src[i]] + src[i + 1..k];
      SeekFinds(src, i + 1, c, k);
    }
  }

  lemma BraceSkipped(src: Bytes, i: nat, body: Bytes)
    requires RBRACE !in body && Holds(src, i, [LBRACE] + body + [RBRACE])
    ensures Trivia(src, i) == Trivia(src, i + |body| + 2)
  {
    var t := [LBRACE] + body + [RBRACE];
    HoldsAt(src, i, t, 0);
    HoldsAt(src, i, t, |t| - 1);
    forall q | i + 1 <= q < i + |t| - 1
      ensures src[q] == body[q - i - 1]
    {
      HoldsAt(src, i, t, q - i);
      assert t[q - i] == body[q - i - 1];
    }
    assert src[i + 1..i + |t| - 1] == body;
    SeekFinds(src, i + 1, RBRACE, i + |t| - 1);
  }

  lemma StarFound(src: Bytes, i: nat, body: Bytes)
    requires (forall k :: 0 <= k < |body| ==> !StarParenAt(body + [STAR, RPAREN], k))
    requires Holds(src, i, body + [STAR, RPAREN])
    ensures SeekStar(src, i) == i + |body|
  {
    var t, m := body + [STAR, RPAREN], i + |body|;
    HoldsAt(src, i, t, |body|);
    HoldsAt(src, i, t, |body| + 1);
    assert StarParenAt(src, m);
    forall k | i <= k < m
      ensures !StarParenAt(src, k)
    {
      assert !StarParenAt(t, k - i);
      HoldsAt(src, i, t, k - i);
      HoldsAt(src, i, t, k - i + 1);
    }
    assert SeekStar(src, i) >= m;
  }

  lemma StarSkipped(src: Bytes, i: nat, body: Bytes)
    requires PieceOk(Star(body)) && Holds(src, i, [LPAREN, STAR] + body + [STAR, RPAREN])
    ensures Trivia(src, i) == Trivia(src, i + |body| + 4)
  {
    var t := [LPAREN, STAR] + body + [STAR, RPAREN];
    hide Holds, StarParenAt;
    HoldsAt(src, i, t, 0);
    HoldsAt(src, i, t, 1);
    assert t == [LPAREN, STAR] + (body + [STAR, RPAREN]);
    HoldsSplit(src, i, [LPAREN, STAR], body + [STAR, RPAREN]);
    StarFound(src, i + 2, body);
    HoldsFits(src, i, t);
  }

  /** One piece of trivia is skipped whole. */
  lemma PieceSkipped(src: Bytes, i: nat, p: Piece)
    requires PieceOk(p) && Holds(src, i, PieceText(p))
    ensures i + |PieceText(p)| <= |src| && Trivia(src, i) == Trivia(src, i + |PieceText(p)|)
  {
    HoldsFits(src, i, PieceText(p));
    match p
    case Blank(c) => HoldsAt(src, i, [c], 0);
    case Brace(body) => BraceSkipped(src, i, body);
    case Star(body) => StarSkipped(src, i, body);
  }

  lemma SolidStops(src: Bytes, i: nat)
    requires Solid(src, i) && i <= |src|
    ensures Trivia(src, i) == Token(i)
  {
  }

  /** Blanks and comments in any number are skipped up to the next token. */
  lemma {:induction false} TriviaSkipped(src: Bytes, i: nat, ps: seq<Piece>)
    requires (forall k :: 0 <= k < |ps| ==> PieceOk(ps[k])) && Holds(src, i, PiecesText(ps))
    requires Solid(src, i + |PiecesText(ps)|)
    ensures i <= |src| && Trivia(src, i) == Token(i + |PiecesText(ps)|)
    decreases |ps|
  {
    hide Trivia, Holds, Solid, PieceText, PieceOk;
    HoldsFits(src, i, PiecesText(ps));
    if ps == [] {
      SolidStops(src, i);
    } else {
      HoldsSplit(src, i, PieceText(ps[0]), PiecesText(ps[1..]));
      PieceSkipped(src, i, ps[0]);
      TriviaSkipped(src, i + |PieceText(ps[0])|, ps[1..]);
    }
  }

  // ---- the lexer ----

  datatype Tok = IntTok(value: int) | StrTok(start: nat, length: nat) | BlankTok | ErrorTok

  class Scanner {
    const src: Bytes
    var pos: nat
    var line: nat
    var col: nat
    var strpos: nat
    const strbuf: array<int>

    ghost predicate Valid()
      reads this
    {
      && pos <= |src| && line == LineOf(src, pos) && col == ColOf(src, pos)
      && strbuf.Length == CAP + 1 && strpos <= CAP
    }

    constructor (text: Bytes)
      ensures Valid() && src == text && pos == 0 && strpos == 0 && fresh(strbuf)
    {
      src, pos, line, col, strpos := text, 0, 1, 1, 0;
      strbuf := new int[CAP + 1];
    }

    function Peek(): int
      requires Valid()
      reads this
    {
      if pos == |src| then 0 else src[pos]
    }

    function Peek2(): int
      requires Valid()
      reads this
    {
      if pos + 1 >= |src| then 0 else src[pos + 1]
    }

    /** One byte on, keeping line and column in step. */
    method Advance() returns (c: int)
      requires Valid() && pos < |src|
      modifies this`pos, this`line, this`col
      ensures Valid() && pos == old(pos) + 1 && c == src[old(pos)]
    {
      c := src[pos];
      pos := pos + 1;
      if c == NEWLINE {
        line, col := line + 1, 1;
      } else {
        col := col + 1;
      }
    }

    /** The guard before each multiply-add keeps every intermediate within 32 bits; a literal is
        accepted exactly when its value is. */
    method ScanNumber() returns (t: Tok)
      requires Valid()
      modifies this`pos, this`line, this`col
      ensures Valid()
      ensures var ds := old(src[pos..DigitsEnd(src, pos)]);
              if Decimal(ds) <= MAX then t == IntTok(Decimal(ds)) && pos == DigitsEnd(src, old(pos)) else t == ErrorTok
      ensures forall n: nat :: old(Reads(src, pos, n)) ==>
                if n <= 2147483647 then t == IntTok(n) && pos == old(pos) + |Numeral(n)| else t == ErrorTok
    {
      hide Decimal, DigitsEnd, Reads, Numeral;
      forall n: nat | Reads(src, pos, n)
        ensures DigitsEnd(src, pos) == pos + |Numeral(n)| && Decimal(src[pos..DigitsEnd(src, pos)]) == n
      {
        NumeralRead(src, pos, n);
      }
      ghost var end := DigitsEnd(src, pos);
      assert src[pos..pos] == [];
      NoDigits();
      var value := 0;
      while IsDigit(Peek())
        invariant Valid() && old(pos) <= pos <= end
        invariant value == Decimal(src[old(pos)..pos]) && 0 <= value <= MAX
        decreases |src| - pos
      {
        assert pos < end;
        NextDigit(src, old(pos), pos);
        var c := Advance();
        var digit := c - 48;
        if value > (MAX - digit) / 10 { return ErrorTok; }
        value := value * 10 + digit;
        assert IsWord(value);
      }
      return IntTok(value);
    }

    /** Reads one byte of a string literal. */
    method DecodeByte() returns (d: Decoded)
      requires Valid()
      modifies this`pos, this`line, this`col
      ensures Valid() && d == DecodedAt(src, old(pos)) && pos == d.next && pos >= old(pos)
    {
      hide LineOf, ColOf;
      if pos == |src| { return Broken(pos); }
      var c := Peek();
      if c == QUOTE {
        var doubled := Peek2() == QUOTE;
        var _ := Advance();
        if !doubled { return Close(pos); }
        var _ := Advance();
      } else if c == NEWLINE {
        return Broken(pos);
      } else {
        var _ := Advance();
      }
      return Byte(c, pos);
    }

    /** Adds a byte to the string being decoded at `base`. When the tail of the pool is used up, the
        bytes decoded so far move to its start; only a full pool refuses. */
    method Append(base: nat, out: nat, c: int) returns (ok: bool, base': nat)
      requires Valid() && strpos == base && out <= CAP - base
      modifies this`strpos, strbuf
      ensures Valid() && (ok <==> out < CAP)
      ensures ok ==> && strpos == base' && (base' == base || base' == 0) && base' + out < CAP
                     && strbuf[base'..base' + out + 1] == old(strbuf[base..base + out]) + [c]
      ensures ok && base' == base ==> forall i :: 0 <= i <= CAP && i != base + out ==> strbuf[i] == old(strbuf[i])
      ensures ok && base' != base ==> forall i :: out < i <= CAP ==> strbuf[i] == old(strbuf[i])
    {
      base' := base;
      var avail := CAP - base;
      if out >= avail {
        if base == 0 { return false, base; }
        forall i | 0 <= i < out { strbuf[i] := strbuf[base + i]; }
        base', strpos := 0, 0;
      }
      strbuf[base' + out] := c;
      ok := true;
    }

    /** Decodes a string literal into the pool. The token's slice holds exactly the decoded bytes and a
        NUL; the cursor stays in the pool; bytes below the old cursor survive unless the slice had to
        move to the start, and then those beyond the new slice still do. */
    method ScanString() returns (t: Tok)
      requires Valid() && pos < |src| && src[pos] == QUOTE
      modifies this`pos, this`line, this`col, this`strpos, strbuf
      ensures Valid()
      ensures var s := Body(src, old(pos) + 1, []);
              && pos == s.next
              && (t.StrTok? <==> s.Text?) && (t.StrTok? || t.ErrorTok?)
              && (s.Text? ==> && t.length == |s.text| && t.start + t.length <= CAP
                              && strbuf[t.start..t.start + t.length] == s.text && strbuf[t.start + t.length] == 0
                              && (t.start == old(strpos) || t.start == 0)
                              && strpos == (if t.start + t.length + 1 > CAP then 0 else t.start + t.length + 1))
      ensures t.StrTok? ==> forall i :: 0 <= i < old(strpos) && !(t.start <= i <= t.start + t.length) ==>
                strbuf[i] == old(strbuf[i])
      ensures t.StrTok? && t.start == old(strpos) ==>
                forall i :: 0 <= i <= CAP && !(t.start <= i <= t.start + t.length) ==> strbuf[i] == old(strbuf[i])
    {
      hide LineOf, ColOf, Body, DecodedAt;
      var _ := Advance();
      ghost var full := Body(src, pos, []);
      var base, out := strpos, 0;
      assert strbuf[base..base + out] == [];
      while true
        invariant Valid() && strpos == base && (base == old(strpos) || base == 0)
        invariant 0 <= out <= CAP - base
        invariant Body(src, pos, strbuf[base..base + out]) == full
        invariant forall i :: 0 <= i < old(strpos) && !(base <= i < base + out) ==> strbuf[i] == old(strbuf[i])
        invariant base == old(strpos) ==> forall i :: 0 <= i <= CAP && !(base <= i < base + out) ==>
                    strbuf[i] == old(strbuf[i])
        decreases |src| - pos
      {
        BodyIs(src, pos, strbuf[base..base + out]);
        var d := DecodeByte();
        if d.Broken? { return ErrorTok; }
        if d.Close? { break; }
        var ok;
        ok, base := Append(base, out, d.c);
        if !ok { return ErrorTok; }
        out := out + 1;
      }
      strbuf[base + out] := 0;
      t := StrTok(base, out);
      strpos := strpos + out + 1;
      if strpos > CAP { strpos := 0; }
    }

    method SkipBrace() returns (ok: bool)
      requires Valid() && pos < |src|
      modifies this`pos, this`line, this`col
      ensures Valid() && pos > old(pos)
      ensures var j := Seek(src, old(pos) + 1, RBRACE);
              if j < |src| then ok && pos == j + 1 else !ok && pos == |src|
    {
      hide LineOf, ColOf;
      var _ := Advance();
      ghost var from := pos;
      while pos < |src| && Peek() != RBRACE
        invariant Valid() && from <= pos && Seek(src, pos, RBRACE) == Seek(src, from, RBRACE)
        decreases |src| - pos
      {
        var _ := Advance();
      }
      if pos == |src| { return false; }
      var _ := Advance();
      return true;
    }

    method SkipStar() returns (ok: bool)
      requires Valid() && pos + 1 < |src|
      modifies this`pos, this`line, this`col
      ensures Valid() && pos > old(pos)
      ensures var j := SeekStar(src, old(pos) + 2);
              if j < |src| then ok && pos == j + 2 else !ok && pos == |src|
    {
      hide LineOf, ColOf;
      var _ := Advance();
      var _ := Advance();
      ghost var from := pos;
      while pos < |src| && !(Peek() == STAR && Peek2() == RPAREN)
        invariant Valid() && from <= pos && SeekStar(src, pos) == SeekStar(src, from)
        decreases |src| - pos
      {
        var _ := Advance();
      }
      if pos == |src| { return false; }
      var _ := Advance();
      var _ := Advance();
      return true;
    }

    /** Comments and blanks, up to the next token or to the end of an open comment. */
    method SkipTrivia() returns (t: Tok)
      requires Valid()
      modifies this`pos, this`line, this`col
      ensures Valid()
      ensures var s := Trivia(src, old(pos));
              if s.Token? then t == BlankTok && pos == s.next else t == ErrorTok && pos == |src|
    {
      hide LineOf, ColOf;
      ghost var all := Trivia(src, pos);
      while true
        invariant Valid() && Trivia(src, pos) == all
        decreases |src| - pos
      {
        if pos == |src| { return BlankTok; }
        var c := Peek();
        if IsSpace(c) {
          var _ := Advance();
        } else if c == LBRACE {
          var ok := SkipBrace();
          if !ok { return ErrorTok; }
        } else if c == LPAREN && Peek2() == STAR {
          var ok := SkipStar();
          if !ok { return ErrorTok; }
        } else {
          return BlankTok;
        }
      }
    }
  }

  /** Quoting a newline-free string and scanning it gives it back from every cursor position, if it has
      at most 1024 bytes; a longer one is rejected. */
  lemma QuoteInverts(src: Bytes, i: nat, s: Bytes)
    requires NEWLINE !in s && Holds(src, i, Quoted(s))
    requires var j := i + |Quoted(s)|; j == |src| || src[j] != QUOTE
    ensures i + 1 <= |src|
    ensures if |s| <= CAP then Body(src, i + 1, []) == Text(s, i + |Quoted(s)|) else Body(src, i + 1, []).TooLong?
  {
    assert Quoted(s) == [QUOTE] + (Escaped(s) + [QUOTE]);
    HoldsSplit(src, i, [QUOTE], Escaped(s) + [QUOTE]);
    BodyInverts(src, i + 1, [], s);
    assert [] + s == s;
  }

  // ---- the characters themselves ----

  /** Quoted text without quotes and line ends, in characters: what stands between the apostrophes, if it is no
      longer than 1024 bytes. */
  lemma PlainText(src: Bytes, i: nat, s: Bytes)
    requires '\'' as int !in s && '\n' as int !in s
    requires Holds(src, i, ['\'' as int] + s + ['\'' as int])
    requires var j := i + |s| + 2; j == |src| || src[j] != '\'' as int
    ensures i + 1 <= |src|
    ensures if |s| <= 1024 then Body(src, i + 1, []) == Text(s, i + |s| + 2) else Body(src, i + 1, []).TooLong?
  {
    PlainEscaped(s);
    assert [QUOTE] + s + [QUOTE] == Quoted(s);
    QuoteInverts(src, i, s);
  }

  lemma {:induction false} PlainEscaped(s: Bytes)
    requires QUOTE !in s
    ensures Escaped(s) == s
  {
    if s != [] {
      assert s == [s[0]] + s[1..];
      PlainEscaped(s[1..]);
    }
  }

  /** Exactly the six blanks, space, tab, line feed, vertical tab, form feed and carriage return, are skipped as
      such; a token starts wherever no blank and no comment does. */
  lemma {:induction false} BlanksAre(src: Bytes, i: nat)
    requires i < |src|
    ensures src[i] in [' ' as int, '\t' as int, '\n' as int, 11, 12, '\r' as int] ==>
              Trivia(src, i) == Trivia(src, i + 1)
    ensures Trivia(src, i) == Token(i) <==>
            && src[i] !in [' ' as int, '\t' as int, '\n' as int, 11, 12, '\r' as int, '{' as int]
            && !(src[i] == '(' as int && i + 1 < |src| && src[i + 1] == '*' as int)
  {
  }

  /** A comment starts with a brace, or with a parenthesis and a star, and ends with its own counterpart. */
  lemma {:induction false} CommentsAre(src: Bytes, i: nat, body: Bytes)
    requires i <= |src|
    ensures '}' as int !in body && Holds(src, i, ['{' as int] + body + ['}' as int]) ==>
              Trivia(src, i) == Trivia(src, i + |body| + 2)
    ensures var close := ['*' as int, ')' as int];
            ((forall k :: 0 <= k < |body| ==> !StarParenAt(body + close, k))
             && Holds(src, i, ['(' as int, '*' as int] + body + close)) ==>
              Trivia(src, i) == Trivia(src, i + |body| + 4)
    ensures StarParenAt(src, i) <==> i + 1 < |src| && src[i] == '*' as int && src[i + 1] == ')' as int
  {
    hide Trivia, Holds, StarParenAt;
    EndsAre(src, i);
    if RBRACE !in body && Holds(src, i, [LBRACE] + body + [RBRACE]) { BraceSkipped(src, i, body); }
    if (forall k :: 0 <= k < |body| ==> !StarParenAt(body + [STAR, RPAREN], k))
       && Holds(src, i, [LPAREN, STAR] + body + [STAR, RPAREN])
    {
      StarSkipped(src, i, body);
    }
  }

  lemma EndsAre(src: Bytes, i: nat)
    ensures StarParenAt(src, i) <==> i + 1 < |src| && src[i] == '*' as int && src[i + 1] == ')' as int
  {
  }

  /** A comment that is never closed is an error, where it began. */
  lemma {:induction false} OpenCommentsAre(src: Bytes, i: nat)
    requires i < |src|
    ensures src[i] == '{' as int && '}' as int !in src[i + 1..] ==> Trivia(src, i) == OpenComment(i)
    ensures (i + 1 < |src| && src[i] == '(' as int && src[i + 1] == '*' as int
             && forall k :: i + 2 <= k < |src| ==> !StarParenAt(src, k)) ==> Trivia(src, i) == OpenComment(i)
  {
    hide StarParenAt;
    if src[i] == LBRACE && RBRACE !in src[i + 1..] { NeverFound(src, i + 1, RBRACE); }
  }

  lemma NeverFound(src: Bytes, i: nat, c: int)
    requires i <= |src| && c !in src[i..]
    ensures Seek(src, i, c) == |src|
  {
    hide Seek;
    forall k | i <= k < |src|
      ensures src[k] != c
    {
      assert src[i..][k - i] == src[k];
    }
  }

  /** A line ends with a line feed: the line number counts them. */
  lemma {:induction false} LinesCounted(src: Bytes, n: nat)
    requires n <= |src|
    ensures LineOf(src, n) == 1 + |set k | 0 <= k < n && src[k] == '\n' as int|
    ensures n > 0 ==> ColOf(src, n) == if src[n - 1] == '\n' as int then 1 else ColOf(src, n - 1) + 1
  {
    var ends := set k | 0 <= k < n && src[k] == '\n' as int;
    if n == 0 {
      assert ends == {};
    } else {
      LinesCounted(src, n - 1);
      var before := set k | 0 <= k < n - 1 && src[k] == '\n' as int;
      assert ends == if src[n - 1] == '\n' as int then before + {n - 1} else before;
    }
  }
}
