/** The drop notice's own formatter (os_log.c): decimal digits are produced backwards into a scratch buffer
    and turned round, with no library behind it. */
module LogText {
  import opened Ring

  const WORD: nat := 0x1_0000_0000
  const ZERO: byte := 48
  const SPACE: byte := 32

  // ---------- decimal numerals ----------

  /** The numeral of n, most significant digit first. */
  function Decimal(n: nat): (r: seq<byte>)
    ensures |r| > 0
    decreases n
  {
    if n < 10 then [ZERO + n] else Decimal(n / 10) + [ZERO + n % 10]
  }

  predicate Numeral(s: seq<byte>) { forall i :: 0 <= i < |s| ==> ZERO <= s[i] < ZERO + 10 }

  /** The number a numeral stands for. */
  function ValueOf(s: seq<byte>): int
    decreases |s|
  {
    if s == [] then 0 else ValueOf(s[..|s| - 1]) * 10 + (s[|s| - 1] as int - ZERO as int)
  }

  /** A numeral can be read back, and has no leading zero. */
  lemma {:induction false} DecimalReadsBack(n: nat)
    ensures Numeral(Decimal(n)) && ValueOf(Decimal(n)) == n
    ensures n > 0 ==> Decimal(n)[0] != ZERO
    decreases n
  {
    if n >= 10 {
      DecimalReadsBack(n / 10);
      var d := Decimal(n / 10);
      assert (d + [ZERO + n % 10])[..|d|] == d;
    } else {
      assert ValueOf([]) == 0;
      assert [ZERO + n][..0] == [];
    }
  }

  function Pow10(k: nat): nat
    decreases k
  {
    if k == 0 then 1 else 10 * Pow10(k - 1)
  }

  /** Ten digits hold every 32-bit number. */
  lemma {:induction false} DecimalLength(n: nat, k: nat)
    requires k > 0 && n < Pow10(k)
    ensures |Decimal(n)| <= k
    decreases k
  {
    if n >= 10 {
      assert k > 1 by { assert Pow10(0) == 1; }
      DecimalLength(n / 10, k - 1);
    }
  }

  lemma WordFits()
    ensures WORD <= Pow10(10)
  {
    assert Pow10(3) == 1000 by { assert Pow10(0) == 1 && Pow10(1) == 10 && Pow10(2) == 100; }
    assert Pow10(6) == 1000000 by { assert Pow10(4) == 10000 && Pow10(5) == 100000; }
    assert Pow10(9) == 1000000000 by { assert Pow10(7) == 10000000 && Pow10(8) == 100000000; }
  }

  function Reversed(s: seq<byte>): (r: seq<byte>)
    ensures |r| == |s|
    decreases |s|
  {
    if s == [] then [] else [s[|s| - 1]] + Reversed(s[..|s| - 1])
  }

  function Spaces(n: nat): (r: seq<byte>)
    ensures |r| == n
  {
    seq(n, _ => SPACE)
  }

  /** Right-aligned in at least width columns. */
  function Padded(s: seq<byte>, width: nat): seq<byte> { Spaces(if width > |s| then width - |s| else 0) + s }

  // ---------- the loops ----------

  /** os_log_append_text. */
  method AppendText(dst: array<byte>, offset: nat, text: seq<byte>) returns (next: nat)
    requires offset + |text| <= dst.Length
    modifies dst
    ensures next == offset + |text| && dst[..next] == old(dst[..offset]) + text
    ensures dst[..] == old(dst[..offset]) + text + old(dst[next..])
  {
    CopyIn(dst, offset, text);
    next := offset + |text|;
  }

  /** The first loop: digits, least significant first. */
  method Digits(value: nat) returns (digits: seq<byte>)
    requires value < WORD
    ensures |digits| <= 10 && Reversed(digits) == Decimal(value)
  {
    var rest: nat := value / 10;
    digits := [ZERO + value % 10];
    assert Reversed(digits) == digits by { assert digits[..0] == []; }
    while rest != 0
      invariant |digits| > 0
      invariant Decimal(value) == (if rest == 0 then [] else Decimal(rest)) + Reversed(digits)
    {
      var d: byte := ZERO + rest % 10;
      assert (digits + [d])[..|digits|] == digits;
      digits := digits + [d];
      rest := rest / 10;
    }
    WordFits();
    DecimalLength(value, 10);
  }

  lemma {:induction false} ReversedAt(s: seq<byte>, i: nat)
    requires i < |s|
    ensures Reversed(s)[i] == s[|s| - 1 - i]
    decreases |s|
  {
    if i > 0 { ReversedAt(s[..|s| - 1], i - 1); }
  }

  method AppendSpaces(dst: array<byte>, offset: nat, n: nat) returns (next: nat)
    requires offset + n <= dst.Length
    modifies dst
    ensures next == offset + n
    ensures dst[..] == old(dst[..offset]) + Spaces(n) + old(dst[next..])
  {
    ghost var before := dst[..];
    next := offset;
    while next < offset + n
      invariant offset <= next <= offset + n
      invariant forall j :: 0 <= j < dst.Length ==> dst[j] == if offset <= j < next then SPACE else before[j]
    {
      dst[next] := SPACE;
      next := next + 1;
    }
  }

  /** From the digit produced last to the first. */
  method AppendReversed(dst: array<byte>, offset: nat, digits: seq<byte>) returns (next: nat)
    requires offset + |digits| <= dst.Length
    modifies dst
    ensures next == offset + |digits|
    ensures dst[..] == old(dst[..offset]) + Reversed(digits) + old(dst[next..])
  {
    ghost var before := dst[..];
    var count := |digits|;
    next := offset;
    while count > 0
      invariant 0 <= count <= |digits| && next == offset + |digits| - count
      invariant forall j :: 0 <= j < dst.Length ==> dst[j] == if offset <= j < next then digits[|digits| - 1 - (j - offset)] else before[j]
    {
      count := count - 1;
      dst[next] := digits[count];
      next := next + 1;
    }
    forall i | 0 <= i < |digits| ensures Reversed(digits)[i] == dst[offset + i] { ReversedAt(digits, i); }
  }

  /** os_log_append_u32: digits, padding, then the digits turned round. */
  method AppendU32(dst: array<byte>, offset: nat, value: nat, width: nat) returns (next: nat)
    requires value < WORD && offset + |Padded(Decimal(value), width)| <= dst.Length
    modifies dst
    ensures next == offset + |Padded(Decimal(value), width)| && dst[..next] == old(dst[..offset]) + Padded(Decimal(value), width)
    ensures dst[..] == old(dst[..offset]) + Padded(Decimal(value), width) + old(dst[next..])
  {
    var digits := Digits(value);
    ghost var front, all := dst[..offset], dst[..];
    hide Decimal, Reversed, Spaces;
    next := AppendSpaces(dst, offset, if width > |digits| then width - |digits| else 0);
    next := AppendReversed(dst, next, digits);
    assert dst[..] == front + Padded(Decimal(value), width) + all[next..];
    assert dst[..next] == dst[..][..next];
  }

  // ---------- the notice ----------

  const OPENING: seq<byte> := [91]
  const BEFORE_COUNT: seq<byte> := [93, 32, 87, 32, 42, 42, 42, 32]
  const CLOSING: seq<byte> :=
    [32, 108, 111, 103, 32, 108, 105, 110, 101, 115, 32, 100, 114, 111, 112, 112, 101, 100, 32, 42, 42, 42, 13, 10]

  /** "[    tick] W *** count log lines dropped ***" and the line ending. */
  function NoticeText(tick: nat, count: nat): seq<byte> {
    OPENING + Padded(Decimal(tick), 8) + BEFORE_COUNT + Decimal(count) + CLOSING
  }

  /** The worst case the source's comment names: the 64-byte buffer is never exceeded. */
  lemma NoticeFits(tick: nat, count: nat)
    requires tick < WORD && count < WORD
    ensures |NoticeText(tick, count)| <= 53
  {
    WordFits();
    DecimalLength(tick, 10);
    DecimalLength(count, 10);
  }

  /** The count survives formatting: two notices of the same tick with the same text name the same count. */
  lemma NoticeNamesItsCount(tick: nat, a: nat, b: nat)
    requires NoticeText(tick, a) == NoticeText(tick, b)
    ensures a == b
  {
    var front := OPENING + Padded(Decimal(tick), 8) + BEFORE_COUNT;
    var x, y := NoticeText(tick, a), NoticeText(tick, b);
    assert x == front + Decimal(a) + CLOSING && y == front + Decimal(b) + CLOSING;
    assert Decimal(a) == x[|front|..|x| - |CLOSING|] == y[|front|..|y| - |CLOSING|] == Decimal(b);
    DecimalReadsBack(a);
    DecimalReadsBack(b);
  }

  /** os_log_emit_dropped up to the transport call. */
  method FormatNotice(tick: nat, count: nat) returns (line: array<byte>, length: nat)
    requires tick < WORD && count < WORD
    ensures length <= line.Length == 64 && fresh(line) && line[..length] == NoticeText(tick, count)
  {
    NoticeFits(tick, count);
    assert Padded(Decimal(count), 0) == Decimal(count);
    ghost var p2 := OPENING + Padded(Decimal(tick), 8);
    ghost var p3 := p2 + BEFORE_COUNT;
    ghost var p4 := p3 + Padded(Decimal(count), 0);
    assert NoticeText(tick, count) == p4 + CLOSING;
    assert |OPENING| <= |p2| <= |p3| <= |p4| <= |p4 + CLOSING| <= 53;
    hide *;
    line := new byte[64](_ => 0);
    length := AppendText(line, 0, OPENING);
    assert line[..length] == OPENING;
    length := AppendU32(line, length, tick, 8);
    assert line[..length] == p2;
    length := AppendText(line, length, BEFORE_COUNT);
    length := AppendU32(line, length, count, 0);
    length := AppendText(line, length, CLOSING);
  }
}
