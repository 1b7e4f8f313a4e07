/**
 The log stream: a fixed buffer that never passes its end, and integers printed into it digit by digit,
 least significant first, then reversed in place.
 */
module LogStream {

  const MAX_NUMERIC_SIZE: nat := 32

  // ----- Numerals -----

  const DIGITS := "9876543210123456789"
  const ZERO: nat := 9
  const DIGITS_HEX := "0123456789abcdef"

  predicate ValidBase(base: nat) {
    base == 10 || base == 16
  }

  function DigitChar(d: nat): char
    requires d < 16
  {
    DIGITS_HEX[d]
  }

  function DigitValue(c: char): nat {
    if '0' <= c <= '9' then (c - '0') as nat else if 'a' <= c <= 'f' then 10 + (c - 'a') as nat else 0
  }

  /** The numeral of a number, most significant digit first. */
  function Numeral(n: nat, base: nat): seq<char>
    requires ValidBase(base)
    decreases n
  {
    (if n < base then [] else Numeral(n / base, base)) + [DigitChar(n % base)]
  }

  /** The number that a digit string denotes. */
  function Value(s: seq<char>, base: nat): nat {
    if s == [] then 0 else Value(s[..|s| - 1], base) * base + DigitValue(s[|s| - 1])
  }

  lemma SplitOff(n: nat, base: nat)
    requires ValidBase(base)
    ensures n / base * base + n % base == n && 0 <= n % base < base
    ensures forall limit: nat :: n < base * limit ==> n / base < limit
  {
    if base == 10 {
    } else {
    }
  }

  lemma {:induction false} NumeralHasValue(n: nat, base: nat)
    requires ValidBase(base)
    ensures Value(Numeral(n, base), base) == n
    decreases n
  {
    var s := Numeral(n, base);
    assert s[..|s| - 1] == if n < base then [] else Numeral(n / base, base);
    SplitOff(n, base);
    DigitHasValue(n % base);
    if n >= base {
      NumeralHasValue(n / base, base);
    }
  }

  lemma DigitHasValue(d: nat)
    requires d < 16
    ensures DigitValue(DigitChar(d)) == d
  {
  }

  lemma {:induction false} NoLeadingZero(n: nat, base: nat)
    requires ValidBase(base)
    ensures Numeral(n, base)[0] == '0' <==> n == 0
    ensures n == 0 ==> |Numeral(n, base)| == 1
    decreases n
  {
    if n >= base {
      NoLeadingZero(n / base, base);
      assert n / base >= 1;
      assert Numeral(n, base)[0] == Numeral(n / base, base)[0];
    }
  }

  function Power(base: nat, k: nat): nat {
    if k == 0 then 1 else base * Power(base, k - 1)
  }

  lemma {:induction false} NumeralLength(n: nat, base: nat, k: nat)
    requires ValidBase(base) && k > 0 && n < Power(base, k)
    ensures |Numeral(n, base)| <= k
    decreases k
  {
    if n >= base {
      assert k > 1;
      SplitOff(n, base);
      NumeralLength(n / base, base, k - 1);
    }
  }

  /** The order in which the loops produce the digits. */
  function LowDigits(n: nat, base: nat): (s: seq<char>)
    requires ValidBase(base)
    decreases n
  {
    [DigitChar(n % base)] + (if n < base then [] else LowDigits(n / base, base))
  }

  function Reversed(s: seq<char>): (r: seq<char>)
    ensures |r| == |s| && forall k :: 0 <= k < |s| ==> r[k] == s[|s| - 1 - k]
  {
    seq(|s|, k requires 0 <= k < |s| => s[|s| - 1 - k])
  }

  lemma {:induction false} LowDigitsReversed(n: nat, base: nat)
    requires ValidBase(base)
    ensures Reversed(LowDigits(n, base)) == Numeral(n, base)
    decreases n
  {
    if n >= base {
      LowDigitsReversed(n / base, base);
    }
  }

  // ----- Printing -----

  /** `std::reverse` on part of an array. */
  method Reverse(a: array<char>, from: nat, to: nat)
    requires from <= to <= a.Length
    modifies a
    ensures a[from..to] == Reversed(old(a[from..to]))
    ensures a[..from] == old(a[..from]) && a[to..] == old(a[to..])
  {
    ghost var was := a[..];
    var i, j := from, to;
    while i + 1 < j
      invariant from <= i <= j <= to && j == from + to - i
      invariant forall k :: from <= k < i ==> a[k] == was[from + to - 1 - k]
      invariant forall k :: i <= k < j ==> a[k] == was[k]
      invariant forall k :: j <= k < to ==> a[k] == was[from + to - 1 - k]
      invariant forall k :: 0 <= k < from ==> a[k] == was[k]
      invariant forall k :: to <= k < a.Length ==> a[k] == was[k]
    {
      j := j - 1;
      a[i], a[j] := a[j], a[i];
      i := i + 1;
    }
    IsReversed(a[..], was, from, to);
  }

  lemma IsReversed(now: seq<char>, was: seq<char>, from: nat, to: nat)
    requires from <= to <= |now| == |was|
    requires forall k :: from <= k < to ==> now[k] == was[from + to - 1 - k]
    ensures now[from..to] == Reversed(was[from..to])
  {
  }

  /** The text of an integer. */
  function Decimal(value: int): seq<char> {
    if value < 0 then ['-'] + Numeral(-value, 10) else Numeral(value, 10)
  }

  /** Every value of every integer type that is printed, signed or not, up to 64 bits. */
  predicate FitsInteger(value: int) {
    -0x8000_0000_0000_0000 <= value < 0x1_0000_0000_0000_0000
  }

  /** C++ remainder and quotient by ten. */
  function Rem10(i: int): int {
    if i >= 0 then i % 10 else -(-i % 10)
  }

  function Quot10(i: int): int {
    if i >= 0 then i / 10 else -(-i / 10)
  }

  function Abs(i: int): nat {
    if i < 0 then -i else i
  }

  /** The digit table is centred on '0', so the remainder's sign does not matter. */
  lemma DigitStep(i: int)
    ensures -9 <= Rem10(i) <= 9
    ensures DIGITS[ZERO + Rem10(i)] == DigitChar(Abs(i) % 10)
    ensures Abs(Quot10(i)) == Abs(i) / 10
    ensures Quot10(i) != 0 <==> Abs(i) >= 10
  {
    var d := Abs(i) % 10;
    assert d in {0, 1, 2, 3, 4, 5, 6, 7, 8, 9};
    assert DIGITS[ZERO + d] == DIGITS[ZERO - d] == DigitChar(d);
  }

  /** What is written so far, and what the rest of the number still adds. */
  ghost predicate Progress(written: seq<char>, more: bool, rest: nat, n: nat, base: nat)
    requires ValidBase(base)
  {
    LowDigits(n, base) == written + (if more then LowDigits(rest, base) else [])
  }

  lemma DigitWritten(written: seq<char>, rest: nat, n: nat, base: nat)
    requires ValidBase(base) && Progress(written, true, rest, n, base)
    ensures |written| < |LowDigits(n, base)|
    ensures Progress(written + [DigitChar(rest % base)], rest >= base, rest / base, n, base)
  {
  }

  /** The loop of `convert`, which writes the digits of the absolute value. */
  method ConvertDigits(buf: array<char>, start: nat, value: int) returns (p: nat)
    requires FitsInteger(value) && start + MAX_NUMERIC_SIZE <= buf.Length
    modifies buf
    ensures start < p <= start + 20
    ensures buf[start..p] == LowDigits(Abs(value), 10)
    ensures buf[..start] == old(buf[..start])
  {
    var n := Abs(value);
    TwentyDigits(n);
    LowDigitsReversed(n, 10);
    hide Rem10, Quot10, LowDigits, Numeral;
    assert Progress([], true, n, n, 10);
    var i := value;
    p := start;
    var more := true;
    while more
      invariant start <= p && p - start <= |LowDigits(n, 10)|
      invariant Progress(buf[start..p], more, Abs(i), n, 10)
      invariant buf[..start] == old(buf[..start])
      decreases |LowDigits(n, 10)| - (p - start)
    {
      DigitStep(i);
      DigitWritten(buf[start..p], Abs(i), n, 10);
      ghost var written := buf[start..p];
      var lsd := Rem10(i);
      i := Quot10(i);
      buf[p] := DIGITS[ZERO + lsd];
      p := p + 1;
      assert buf[start..p] == written + [buf[p - 1]];
      more := i != 0;
    }
  }

  lemma TwentyDigits(n: nat)
    requires n < 0x1_0000_0000_0000_0000
    ensures |Numeral(n, 10)| <= 20
  {
    assert Power(10, 5) == 100_000;
    assert Power(10, 10) == 100_000 * Power(10, 5);
    assert Power(10, 15) == 100_000 * Power(10, 10);
    assert Power(10, 20) == 100_000 * Power(10, 15);
    NumeralLength(n, 10, 20);
  }

  /** Writes an integer and a NUL. Both fit into MAX_NUMERIC_SIZE characters. */
  method Convert(buf: array<char>, start: nat, value: int) returns (len: nat)
    requires FitsInteger(value) && start + MAX_NUMERIC_SIZE <= buf.Length
    modifies buf
    ensures len < MAX_NUMERIC_SIZE
    ensures buf[start..start + len] == Decimal(value) && buf[start + len] == '\0'
    ensures buf[..start] == old(buf[..start])
  {
    hide LowDigits, Numeral, Reversed;
    var p := ConvertDigits(buf, start, value);
    ghost var low, sign := buf[start..p], if value < 0 then ['-'] else [];
    if value < 0 {
      buf[p] := '-';
      p := p + 1;
    }
    buf[p] := '\0';
    assert buf[start..p] == low + sign;
    Reverse(buf, start, p);
    assert buf[p] == buf[p..][0];
    SignComesFirst(low, sign);
    LowDigitsReversed(Abs(value), 10);
    len := p - start;
  }

  lemma SignComesFirst(low: seq<char>, sign: seq<char>)
    requires |sign| <= 1
    ensures Reversed(low + sign) == sign + Reversed(low)
  {
  }

  lemma SixteenDigits(n: nat)
    requires n < 0x1_0000_0000_0000_0000
    ensures |Numeral(n, 16)| <= 16
  {
    assert Power(16, 4) == 0x1_0000;
    assert Power(16, 8) == 0x1_0000 * Power(16, 4);
    assert Power(16, 16) == 0x1_0000 * (0x1_0000 * Power(16, 8));
    NumeralLength(n, 16, 16);
  }

  /** The loop of `convertHex`. */
  method ConvertHexDigits(buf: array<char>, start: nat, value: nat) returns (p: nat)
    requires value < 0x1_0000_0000_0000_0000 && start + MAX_NUMERIC_SIZE - 2 <= buf.Length
    modifies buf
    ensures start < p <= start + 16
    ensures buf[start..p] == LowDigits(value, 16)
    ensures buf[..start] == old(buf[..start])
  {
    SixteenDigits(value);
    LowDigitsReversed(value, 16);
    hide LowDigits, Numeral;
    assert Progress([], true, value, value, 16);
    var i := value;
    p := start;
    var more := true;
    while more
      invariant start <= p && p - start <= |LowDigits(value, 16)|
      invariant Progress(buf[start..p], more, i, value, 16)
      invariant buf[..start] == old(buf[..start])
      decreases |LowDigits(value, 16)| - (p - start)
    {
      DigitWritten(buf[start..p], i, value, 16);
      ghost var written := buf[start..p];
      var lsd := i % 16;
      i := i / 16;
      buf[p] := DIGITS_HEX[lsd];
      p := p + 1;
      assert buf[start..p] == written + [buf[p - 1]];
      more := i != 0;
    }
  }

  /** Writes a hexadecimal number and a NUL. */
  method ConvertHex(buf: array<char>, start: nat, value: nat) returns (len: nat)
    requires value < 0x1_0000_0000_0000_0000 && start + MAX_NUMERIC_SIZE - 2 <= buf.Length
    modifies buf
    ensures len <= 16
    ensures buf[start..start + len] == Numeral(value, 16) && buf[start + len] == '\0'
    ensures buf[..start] == old(buf[..start])
  {
    hide LowDigits, Numeral, Reversed;
    var p := ConvertHexDigits(buf, start, value);
    buf[p] := '\0';
    assert buf[start..p] == LowDigits(value, 16);
    Reverse(buf, start, p);
    assert buf[p] == buf[p..][0];
    LowDigitsReversed(value, 16);
    len := p - start;
  }

  // ----- Reading back -----

  /** The integer that a text denotes. */
  function Parse(text: seq<char>): int {
    if text != [] && text[0] == '-' then -(Value(text[1..], 10) as int) else Value(text, 10)
  }

  /** Reading a printed integer gives it back; there is no leading zero and no minus before zero. */
  lemma DecimalRoundTrip(value: int)
    ensures Parse(Decimal(value)) == value
    ensures Decimal(value)[0] == '0' ==> value == 0 && Decimal(value) == "0"
    ensures Decimal(value)[0] == '-' ==> value < 0 && |Decimal(value)| > 1 && Decimal(value)[1] != '0'
  {
    NumeralHasValue(Abs(value), 10);
    NoLeadingZero(Abs(value), 10);
    FirstIsDigit(Abs(value), 10);
    assert value < 0 ==> Decimal(value)[1..] == Numeral(-value, 10);
  }

  lemma {:induction false} FirstIsDigit(n: nat, base: nat)
    requires ValidBase(base)
    ensures Numeral(n, base)[0] != '-'
    decreases n
  {
    if n >= base {
      FirstIsDigit(n / base, base);
    }
  }

  lemma Joined(s: seq<char>, from: nat, to: nat)
    requires from <= to <= |s|
    ensures s[..to] == s[..from] + s[from..to]
  {
  }

  // ----- The stream's buffer -----

  /** The size is a template argument of the source. */
  class FixedBuffer {
    var data: array<char>
    var cur: nat

    ghost predicate Valid()
      reads this
    {
      cur <= data.Length
    }

    ghost function Contents(): seq<char>
      requires Valid()
      reads this, data
    {
      data[..cur]
    }

    constructor (size: nat)
      ensures Valid() && fresh(data) && data.Length == size && Contents() == []
    {
      data := new char[size](_ => '\0');
      cur := 0;
    }

    function Avail(): nat
      requires Valid()
      reads this
    {
      data.Length - cur
    }

    /** Appends everything or, without room for one character more, nothing. */
    method Append(bytes: seq<char>)
      requires Valid()
      modifies this`cur, data
      ensures Valid()
      ensures Contents() == old(Contents()) + (if old(Avail()) > |bytes| then bytes else [])
    {
      if Avail() > |bytes| {
        forall i | 0 <= i < |bytes| {
          data[cur + i] := bytes[i];
        }
        cur := cur + |bytes|;
      }
    }

    method Add(len: nat)
      requires Valid() && len <= Avail()
      modifies this`cur
      ensures Valid() && cur == old(cur) + len
    {
      cur := cur + len;
    }

    method Reset()
      modifies this`cur
      ensures Valid() && Contents() == []
    {
      cur := 0;
    }

    /** Prints an integer if there is room for any integer. */
    method FormatInteger(v: int)
      requires Valid() && FitsInteger(v)
      modifies this`cur, data
      ensures Valid()
      ensures Contents() == old(Contents()) + (if old(Avail()) >= MAX_NUMERIC_SIZE then Decimal(v) else [])
    {
      if Avail() >= MAX_NUMERIC_SIZE {
        var len := Convert(data, cur, v);
        Add(len);
        assert Contents() == data[..old(cur)] + data[old(cur)..cur];
      }
    }

    /** Written behind the contents, which stay as they are. */
    method WritePrefix()
      requires Valid() && Avail() >= 2
      modifies data
      ensures data[cur..cur + 2] == "0x" && data[..cur] == old(Contents())
    {
      data[cur] := '0';
      data[cur + 1] := 'x';
    }

    /** The digits go behind a prefix that has been written, and then both are contents. */
    method AppendHex(ghost prefix: seq<char>, v: nat)
      requires Valid() && v < 0x1_0000_0000_0000_0000 && Avail() >= MAX_NUMERIC_SIZE && |prefix| == 2
      requires data[cur..cur + 2] == prefix
      modifies this`cur, data
      ensures Valid() && Contents() == old(Contents()) + prefix + Numeral(v, 16)
    {
      hide Numeral;
      ghost var contents := data[..cur];
      Joined(data[..], cur, cur + 2);
      var len := ConvertHex(data, cur + 2, v);
      assert data[..cur + 2] == contents + prefix;
      Joined(data[..], cur + 2, cur + 2 + len);
      Add(len + 2);
    }

    method FormatPointer(v: nat)
      requires Valid() && v < 0x1_0000_0000_0000_0000
      modifies this`cur, data
      ensures Valid()
      ensures Contents() == old(Contents()) + (if old(Avail()) >= MAX_NUMERIC_SIZE then "0x" + Numeral(v, 16) else [])
    {
      if Avail() >= MAX_NUMERIC_SIZE {
        WritePrefix();
        AppendHex("0x", v);
      }
    }
  }
}
