/** Text as the program sees it: code-point order, decimal numerals and UTF-8. */
module Text {
  import opened Options
  import Sorting

  type Byte = b: int | 0 <= b < 256

  // ---------------------------------------------------------------- order

  /** The order of Python's str: code point by code point, a prefix first. */
  predicate Leq(a: string, b: string) {
    if a == "" then true
    else if b == "" then false
    else a[0] < b[0] || (a[0] == b[0] && Leq(a[1..], b[1..]))
  }

  lemma {:induction false} LeqTotal(a: string, b: string)
    ensures Leq(a, b) || Leq(b, a)
  {
    if a != "" && b != "" { LeqTotal(a[1..], b[1..]); }
  }

  lemma {:induction false} LeqAntisymmetric(a: string, b: string)
    requires Leq(a, b) && Leq(b, a)
    ensures a == b
  {
    if a != "" && b != "" {
      LeqAntisymmetric(a[1..], b[1..]);
      assert a == [a[0]] + a[1..] && b == [b[0]] + b[1..];
    }
  }

  lemma {:induction false} LeqTransitive(a: string, b: string, c: string)
    requires Leq(a, b) && Leq(b, c)
    ensures Leq(a, c)
  {
    if a != "" && a[0] == b[0] && b[0] == c[0] { LeqTransitive(a[1..], b[1..], c[1..]); }
  }

  /** Text order: a prefix comes first, otherwise the first difference decides. */
  lemma {:induction false} LeqExactly(a: string, b: string)
    ensures Leq(a, b) <==> a <= b || exists n: nat :: DiffersAt(a, b, n) && a[n] < b[n]
  {
    if a != "" && b != "" && a[0] == b[0] {
      LeqExactly(a[1..], b[1..]);
      forall n: nat ensures DiffersAt(a[1..], b[1..], n) <==> DiffersAt(a, b, n + 1) {
        DifferenceMoves(a, b, n);
      }
      if exists n: nat :: DiffersAt(a, b, n) && a[n] < b[n] {
        var n: nat :| DiffersAt(a, b, n) && a[n] < b[n];
        assert n > 0;
        assert DiffersAt(a[1..], b[1..], n - 1);
      }
      if exists n: nat :: DiffersAt(a[1..], b[1..], n) && a[1..][n] < b[1..][n] {
        var n: nat :| DiffersAt(a[1..], b[1..], n) && a[1..][n] < b[1..][n];
        assert DiffersAt(a, b, n + 1);
      }
      assert a <= b <==> a[1..] <= b[1..];
    } else if a != "" && b != "" {
      assert DiffersAt(a, b, 0);
      if exists n: nat :: DiffersAt(a, b, n) && a[n] < b[n] {
        var n: nat :| DiffersAt(a, b, n) && a[n] < b[n];
        assert n == 0;
      }
    }
  }

  predicate DiffersAt(a: string, b: string, n: nat) {
    n < |a| && n < |b| && (forall i :: 0 <= i < n ==> a[i] == b[i]) && a[n] != b[n]
  }

  lemma DifferenceMoves(a: string, b: string, n: nat)
    requires a != "" && b != "" && a[0] == b[0]
    ensures DiffersAt(a[1..], b[1..], n) <==> DiffersAt(a, b, n + 1)
  {
    var x, y := a[1..], b[1..];
    if DiffersAt(x, y, n) {
      forall i | 0 <= i < n + 1 ensures a[i] == b[i] {
        if i > 0 { assert x[i - 1] == y[i - 1]; }
      }
    }
    if DiffersAt(a, b, n + 1) {
      forall i | 0 <= i < n ensures x[i] == y[i] {
        assert a[i + 1] == b[i + 1];
      }
    }
  }

  lemma LeqIsTotalOrder()
    ensures Sorting.TotalOrder(Leq)
  {
    forall a, b ensures Leq(a, b) || Leq(b, a) { LeqTotal(a, b); }
    forall a, b | Leq(a, b) && Leq(b, a) ensures a == b { LeqAntisymmetric(a, b); }
    forall a, b, c | Leq(a, b) && Leq(b, c) ensures Leq(a, c) { LeqTransitive(a, b, c); }
  }

  // ---------------------------------------------------------- white space

  /** What str.strip removes. */
  predicate Space(c: char) {
    || '\U{9}' <= c <= '\U{D}' || '\U{1C}' <= c <= '\U{20}' || c == '\U{85}' || c == '\U{A0}' || c == '\U{1680}'
    || '\U{2000}' <= c <= '\U{200A}' || c == '\U{2028}' || c == '\U{2029}' || c == '\U{202F}' || c == '\U{205F}'
    || c == '\U{3000}'
  }

  /** not value.strip(): what require_non_empty refuses. */
  predicate Blank(s: string) { s == "" || (Space(s[0]) && Blank(s[1..])) }

  lemma {:induction false} BlankExactly(s: string)
    ensures Blank(s) <==> forall i :: 0 <= i < |s| ==> Space(s[i])
  {
    if s != "" { BlankExactly(s[1..]); }
  }

  // ------------------------------------------------------------- numerals

  predicate IsDigit(c: char) { '0' <= c <= '9' }

  predicate AllDigits(s: string) { forall i :: 0 <= i < |s| ==> IsDigit(s[i]) }

  function DigitChar(d: nat): (c: char)
    requires d < 10
    ensures IsDigit(c) && c as int - '0' as int == d
  {
    ('0' as int + d) as char
  }

  function Decimal(n: nat): (s: string)
    ensures s != "" && AllDigits(s)
    ensures s[0] == '0' ==> n == 0
    ensures n == 0 ==> s == "0"
  {
    if n < 10 then [DigitChar(n)] else Decimal(n / 10) + [DigitChar(n % 10)]
  }

  function DigitsValue(s: string): nat
    requires AllDigits(s)
  {
    if s == "" then 0
    else DigitsValue(s[..|s| - 1]) * 10 + (s[|s| - 1] as int - '0' as int)
  }

  /** Decimal is positional: a digit more is ten times the value and the digit. */
  lemma OneDigitMore(s: string, c: char)
    requires AllDigits(s) && '0' <= c <= '9'
    ensures AllDigits(s + [c]) && DigitsValue(s + [c]) == 10 * DigitsValue(s) + (c as int - '0' as int)
  {
    assert (s + [c])[..|s + [c]| - 1] == s;
  }

  lemma {:induction false} DecimalValue(n: nat)
    ensures DigitsValue(Decimal(n)) == n
  {
    if n >= 10 {
      DecimalValue(n / 10);
      OneDigitMore(Decimal(n / 10), DigitChar(n % 10));
    } else {
      assert Decimal(n)[..0] == "";
    }
  }

  /** int.__repr__ */
  function Numeral(i: int): (s: string)
    ensures s != ""
  {
    if i < 0 then "-" + Decimal(-i) else Decimal(i)
  }

  function NumeralValue(s: string): Option<int> {
    if s != "" && AllDigits(s) then Some(DigitsValue(s))
    else if |s| > 1 && s[0] == '-' && AllDigits(s[1..]) then Some(0 - DigitsValue(s[1..]))
    else None
  }

  lemma NumeralRoundTrip(i: int)
    ensures NumeralValue(Numeral(i)) == Some(i)
  {
    if i < 0 {
      DecimalValue(-i);
      assert Numeral(i)[1..] == Decimal(-i);
    } else {
      DecimalValue(i);
    }
  }

  // ---------------------------------------------------------------- UTF-8

  /** Section 3 of RFC 3629, one scalar value at a time. */
  function EncodeChar(c: char): (bs: seq<Byte>)
    ensures bs != []
  {
    var n := c as int;
    if n < 0x80 then [n]
    else if n < 0x800 then [0xC0 + n / 0x40] + Continuation(n)
    else if n < 0x1_0000 then [0xE0 + n / 0x40 / 0x40] + Continuation(n / 0x40) + Continuation(n)
    else [0xF0 + n / 0x40 / 0x40 / 0x40] + Continuation(n / 0x40 / 0x40) + Continuation(n / 0x40) + Continuation(n)
  }

  function Continuation(n: nat): (bs: seq<Byte>)
    ensures |bs| == 1
  {
    [0x80 + n % 0x40]
  }

  function Encode(s: string): seq<Byte> {
    if s == "" then [] else EncodeChar(s[0]) + Encode(s[1..])
  }

  function LeadLength(b: Byte): (n: nat)
    ensures 1 <= n <= 4
  {
    if b < 0x80 then 1 else if b < 0xE0 then 2 else if b < 0xF0 then 3 else 4
  }

  function LeadValue(bs: seq<Byte>): int
    requires bs != [] && LeadLength(bs[0]) <= |bs|
  {
    match LeadLength(bs[0])
    case 1 => bs[0]
    case 2 => Append(bs[0] as int - 0xC0, bs[1])
    case 3 => Append(Append(bs[0] as int - 0xE0, bs[1]), bs[2])
    case _ => Append(Append(Append(bs[0] as int - 0xF0, bs[1]), bs[2]), bs[3])
  }

  function Append(high: int, b: Byte): int {
    high * 0x40 + (b as int - 0x80)
  }

  lemma AppendContinuation(n: nat)
    ensures Append(n / 0x40, Continuation(n)[0]) == n
  {
  }

  lemma CharRoundTrip(c: char, rest: seq<Byte>)
    ensures var bs := EncodeChar(c) + rest;
            && LeadLength(bs[0]) == |EncodeChar(c)|
            && LeadValue(bs) == c as int
  {
    var n := c as int;
    AppendContinuation(n);
    AppendContinuation(n / 0x40);
    AppendContinuation(n / 0x40 / 0x40);
  }

  /** The examples of section 7 of RFC 3629. */
  lemma KnownEncodings()
    ensures Encode("A\U{2262}\U{391}.") == [0x41, 0xE2, 0x89, 0xA2, 0xCE, 0x91, 0x2E]
    ensures Encode("\U{233B4}") == [0xF0, 0xA3, 0x8E, 0xB4]
  {
    assert EncodeChar('A') == [0x41] && EncodeChar('\U{2262}') == [0xE2, 0x89, 0xA2];
    assert EncodeChar('\U{391}') == [0xCE, 0x91] && EncodeChar('.') == [0x2E];
    assert EncodeChar('\U{233B4}') == [0xF0, 0xA3, 0x8E, 0xB4];
    var s := "A\U{2262}\U{391}.";
    assert s[1..] == "\U{2262}\U{391}." && s[1..][1..] == "\U{391}." && s[1..][1..][1..] == ".";
    assert s[1..][1..][1..][1..] == "" && "\U{233B4}"[1..] == "";
    assert Encode(".") == [0x2E];
    assert Encode("\U{391}.") == [0xCE, 0x91, 0x2E];
    assert Encode("\U{2262}\U{391}.") == [0xE2, 0x89, 0xA2, 0xCE, 0x91, 0x2E];
  }

  /** Different texts have different UTF-8 encodings. */
  lemma {:induction false} EncodeInjective(s: string, t: string)
    requires Encode(s) == Encode(t)
    ensures s == t
  {
    if s == "" || t == "" {
    } else {
      CharRoundTrip(s[0], Encode(s[1..]));
      CharRoundTrip(t[0], Encode(t[1..]));
      assert s[0] == t[0];
      var n := |EncodeChar(s[0])|;
      assert Encode(s)[n..] == Encode(s[1..]) && Encode(t)[n..] == Encode(t[1..]);
      EncodeInjective(s[1..], t[1..]);
      assert s == [s[0]] + s[1..] && t == [t[0]] + t[1..];
    }
  }
}
