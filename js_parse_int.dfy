/**
  JavaScript's global `parseInt(text)` with no radix, as the dashboard applies it to each
  lead's budget (App.js:79): skip leading white space, read an optional sign, switch to
  base 16 after a `0x`/`0X` prefix, then read the longest run of digits of that base.
  No digit at all gives NaN, written here as `None`.
*/
module JsParseInt {
  import opened Common

  /** The white space and line terminators `parseInt` skips (ECMAScript's StrWhiteSpaceChar). */
  predicate IsStrWhiteSpace(c: char)
  {
    c in {'\t', '\n', '\U{B}', '\U{C}', '\r', ' ', '\U{A0}', '\U{1680}', '\U{2028}', '\U{2029}',
          '\U{202F}', '\U{205F}', '\U{3000}', '\U{FEFF}'}
    || ('\U{2000}' <= c <= '\U{200A}')
  }

  predicate IsDecimalDigit(c: char)
  {
    '0' <= c <= '9'
  }

  /** A digit of base 10 or base 16 (either letter case). */
  predicate IsDigitIn(c: char, hex: bool)
  {
    IsDecimalDigit(c) || (hex && ('a' <= c <= 'f' || 'A' <= c <= 'F'))
  }

  function DigitValue(c: char): (v: nat)
    requires IsDigitIn(c, false) || IsDigitIn(c, true)
    ensures v < 16
    ensures IsDecimalDigit(c) ==> v < 10
  {
    if IsDecimalDigit(c) then c as int - '0' as int
    else if 'a' <= c <= 'f' then c as int - 'a' as int + 10
    else c as int - 'A' as int + 10
  }

  /** The text with its leading white space removed. */
  function TrimStart(s: string): (t: string)
    ensures |t| <= |s| && t == s[|s| - |t|..]
    ensures t == [] || !IsStrWhiteSpace(t[0])
    ensures forall i :: 0 <= i < |s| - |t| ==> IsStrWhiteSpace(s[i])
  {
    if |s| > 0 && IsStrWhiteSpace(s[0]) then TrimStart(s[1..]) else s
  }

  /** The length of the longest prefix made of digits. */
  function DigitRunLength(s: string, hex: bool): (n: nat)
    ensures n <= |s|
    ensures forall i :: 0 <= i < n ==> IsDigitIn(s[i], hex)
    ensures n == |s| || !IsDigitIn(s[n], hex)
  {
    if |s| > 0 && IsDigitIn(s[0], hex) then 1 + DigitRunLength(s[1..], hex) else 0
  }

  /** The value of a run of digits, most significant first. */
  function DigitsValue(ds: string, hex: bool): nat
    requires forall i :: 0 <= i < |ds| ==> IsDigitIn(ds[i], hex)
  {
    if ds == [] then 0
    else DigitsValue(ds[..|ds| - 1], hex) * (if hex then 16 else 10) + DigitValue(ds[|ds| - 1])
  }

  /** The digits after the sign: base 16 after a `0x`/`0X` prefix, base 10 otherwise;
      `None` when no digit of that base follows. */
  function UnsignedValue(u: string): Option<nat>
  {
    var hex := |u| >= 2 && u[0] == '0' && (u[1] == 'x' || u[1] == 'X');
    var body := if hex then u[2..] else u;
    var n := DigitRunLength(body, hex);
    if n == 0 then None else Some(DigitsValue(body[..n], hex))
  }

  /** The number read after leading white space: an optional sign, then the digits. */
  function SignedValue(t: string): Option<int>
  {
    if t != [] && (t[0] == '-' || t[0] == '+') then
      match UnsignedValue(t[1..])
      case Some(m) => Some(if t[0] == '-' then 0 - m else m)
      case None => None
    else
      match UnsignedValue(t)
      case Some(m) => Some(m)
      case None => None
  }

  /** `parseInt(text)`: `Some(n)` for a number, `None` for NaN. The value is exact;
      JavaScript would round it to a double above 2^53 in magnitude. */
  function ParseInt(text: string): Option<int>
  {
    SignedValue(TrimStart(text))
  }

  /** `parseInt(text) || 0`: NaN, and a zero of either sign, count as 0. */
  function ParsedOrZero(text: string): int
  {
    match ParseInt(text)
    case Some(n) => n
    case None => 0
  }

  // ----- decimal text of an integer, the inverse direction -----

  function DigitChar(d: nat): (c: char)
    requires d < 10
    ensures IsDecimalDigit(c) && DigitValue(c) == d
  {
    ('0' as int + d) as char
  }

  /** The decimal text of a natural number, without leading zeros. */
  function NatText(n: nat): (s: string)
    ensures |s| >= 1
    ensures forall i :: 0 <= i < |s| ==> IsDecimalDigit(s[i])
  {
    if n < 10 then [DigitChar(n)] else NatText(n / 10) + [DigitChar(n % 10)]
  }

  /** The decimal text of an integer, with a leading `-` when it is negative. */
  function IntText(n: int): string
  {
    if n < 0 then "-" + NatText(-n) else NatText(n)
  }

  lemma {:induction false} NatTextValue(n: nat)
    ensures DigitsValue(NatText(n), false) == n
  {
    if n >= 10 {
      var s := NatText(n);
      assert s[..|s| - 1] == NatText(n / 10);
      NatTextValue(n / 10);
    }
  }

  lemma {:induction false} NatTextLeadingDigit(n: nat)
    ensures n >= 1 ==> NatText(n)[0] != '0'
    ensures n >= 10 ==> |NatText(n)| >= 2
  {
    if n >= 10 {
      NatTextLeadingDigit(n / 10);
      assert NatText(n)[0] == NatText(n / 10)[0];
    }
  }

  lemma {:induction false} DigitRunOfPrefix(a: string, b: string, hex: bool)
    requires forall i :: 0 <= i < |a| ==> IsDigitIn(a[i], hex)
    ensures DigitRunLength(a + b, hex) == |a| + DigitRunLength(b, hex)
  {
    if a != [] {
      assert (a + b)[1..] == a[1..] + b;
      DigitRunOfPrefix(a[1..], b, hex);
    } else {
      assert a + b == b;
    }
  }

  lemma {:induction false} TrimStartSkipsSpaces(ws: string, t: string)
    requires forall i :: 0 <= i < |ws| ==> IsStrWhiteSpace(ws[i])
    requires t != [] && !IsStrWhiteSpace(t[0])
    ensures TrimStart(ws + t) == t
  {
    if ws != [] {
      assert (ws + t)[1..] == ws[1..] + t;
      TrimStartSkipsSpaces(ws[1..], t);
    } else {
      assert ws + t == t;
    }
  }

  /** The unsigned reader gives back the number whose decimal text it is given, whatever
      non-digit text follows, unless that text starts with `x`/`X`. */
  lemma {:induction false} UnsignedValueOfNatText(m: nat, tail: string)
    requires tail == [] || (!IsDecimalDigit(tail[0]) && tail[0] != 'x' && tail[0] != 'X')
    ensures UnsignedValue(NatText(m) + tail) == Some(m)
  {
    var digits := NatText(m);
    var u := digits + tail;
    NatTextLeadingDigit(m);
    assert !(|u| >= 2 && u[0] == '0' && (u[1] == 'x' || u[1] == 'X')) by {
      if |digits| == 1 && tail != [] {
        assert u[1] == tail[0];
      }
    }
    DigitRunOfPrefix(digits, tail, false);
    assert DigitRunLength(tail, false) == 0;
    assert u[..|digits|] == digits;
    NatTextValue(m);
  }

  /** Parsing the decimal text of an integer gives the integer back, whatever white space
      precedes it and whatever non-digit text follows it (so `" 5000.75"` parses to 5000).
      A tail starting with `x` or `X` is excluded: after a lone `0` it would select base 16. */
  lemma ParseIntText(ws: string, n: int, tail: string)
    requires forall i :: 0 <= i < |ws| ==> IsStrWhiteSpace(ws[i])
    requires tail == [] || (!IsDecimalDigit(tail[0]) && tail[0] != 'x' && tail[0] != 'X')
    ensures ParseInt(ws + IntText(n) + tail) == Some(n)
  {
    var t := IntText(n) + tail;
    assert ws + IntText(n) + tail == ws + t;
    SignedValueOfIntText(n, tail);
    assert t[0] == '-' || IsDecimalDigit(t[0]);
    TrimStartSkipsSpaces(ws, t);
  }

  lemma SignedValueOfIntText(n: int, tail: string)
    requires tail == [] || (!IsDecimalDigit(tail[0]) && tail[0] != 'x' && tail[0] != 'X')
    ensures |IntText(n) + tail| > 0
    ensures (IntText(n) + tail)[0] == '-' || IsDecimalDigit((IntText(n) + tail)[0])
    ensures SignedValue(IntText(n) + tail) == Some(n)
  {
    if n < 0 {
      SignedValueOfNegative(n, tail);
    } else {
      UnsignedValueOfNatText(n, tail);
      assert IntText(n) + tail == NatText(n) + tail;
    }
  }

  lemma SignedValueOfNegative(n: int, tail: string)
    requires n < 0
    requires tail == [] || (!IsDecimalDigit(tail[0]) && tail[0] != 'x' && tail[0] != 'X')
    ensures IntText(n) + tail == "-" + (NatText(-n) + tail)
    ensures SignedValue("-" + (NatText(-n) + tail)) == Some(n)
  {
    var m: nat := -n;
    var u := NatText(m) + tail;
    assert IntText(n) == "-" + NatText(m);
    assert IntText(n) + tail == "-" + u;
    UnsignedValueOfNatText(m, tail);
    SignedValueOfMinus(u, m);
  }

  lemma SignedValueOfMinus(u: string, m: nat)
    requires UnsignedValue(u) == Some(m)
    ensures SignedValue("-" + u) == Some(0 - m)
  {
    assert ("-" + u)[1..] == u;
  }

  /** `parseInt(text) || 0` of the decimal text of `n` followed by non-digit text is `n`. */
  lemma ParsedOrZeroText(n: int, tail: string)
    requires tail == [] || (!IsDecimalDigit(tail[0]) && tail[0] != 'x' && tail[0] != 'X')
    ensures ParsedOrZero(IntText(n) + tail) == n
  {
    var s := IntText(n) + tail;
    SignedValueOfIntText(n, tail);
    TrimStartOfVisible(s);
  }

  lemma TrimStartOfVisible(s: string)
    requires s != [] && !IsStrWhiteSpace(s[0])
    ensures TrimStart(s) == s
    ensures ParseInt(s) == SignedValue(s)
  {
  }

  /** A budget whose first visible character is neither a sign nor a digit is NaN. */
  lemma ParseIntRejectsNonNumeric(ws: string, rest: string)
    requires forall i :: 0 <= i < |ws| ==> IsStrWhiteSpace(ws[i])
    requires rest != [] && !IsStrWhiteSpace(rest[0])
    requires !IsDecimalDigit(rest[0]) && rest[0] != '-' && rest[0] != '+'
    ensures ParseInt(ws + rest) == None
    ensures ParsedOrZero(ws + rest) == 0
  {
    TrimStartSkipsSpaces(ws, rest);
  }

  /** The `0x` (or `0X`) prefix selects base 16: it is followed by the value of the hex
      digits after it, whatever non-hex text follows them, and `0x` with no hex digit after
      it is NaN. */
  lemma ParseIntHexPrefix(x: char, digits: string, tail: string)
    requires x == 'x' || x == 'X'
    requires forall i :: 0 <= i < |digits| ==> IsDigitIn(digits[i], true)
    requires tail == [] || !IsDigitIn(tail[0], true)
    ensures digits != [] ==> UnsignedValue("0" + [x] + digits + tail) == Some(DigitsValue(digits, true))
    ensures UnsignedValue("0" + [x] + tail) == None
  {
    var body := digits + tail;
    assert "0" + [x] + digits + tail == "0" + [x] + body;
    HexBody(x, body);
    HexBody(x, tail);
    DigitRunOfPrefix(digits, tail, true);
    assert DigitRunLength(tail, true) == 0;
    assert DigitRunLength(body, true) == |digits|;
    assert body[..|digits|] == digits;
  }

  lemma HexBody(x: char, body: string)
    requires x == 'x' || x == 'X'
    ensures var n := DigitRunLength(body, true);
      UnsignedValue("0" + [x] + body) == if n == 0 then None else Some(DigitsValue(body[..n], true))
  {
    assert ("0" + [x] + body)[2..] == body;
  }


}
