/** Python's `int(x)` and `int(s, 16)` on the values the builders pass to
    it: surrounding whitespace is ignored, one sign is allowed, base 16
    accepts a `0x`/`0X` prefix (optionally followed by one underscore),
    and single underscores may separate digits. Failure is `None`, which
    stands for the `ValueError`/`TypeError` the source catches. */
module PyInt {
  import opened Wrappers
  import Text
  import opened PyValue

  /** The value of an ASCII letter or digit as a digit in bases up to 36;
      36 for anything else, which is a digit in no base handled here. */
  function DigitValue(c: char): (d: nat)
    ensures d <= 36
  {
    if '0' <= c <= '9' then c as int - '0' as int
    else if 'a' <= c <= 'z' then c as int - 'a' as int + 10
    else if 'A' <= c <= 'Z' then c as int - 'A' as int + 10
    else 36
  }

  predicate IsDigitIn(c: char, base: nat) { DigitValue(c) < base }

  /** One or more digits of `base`, with single underscores allowed
      between two digits. */
  predicate Grouped(s: string, base: nat)
    decreases |s|
  {
    |s| >= 1 && IsDigitIn(s[0], base)
    && (|s| == 1 || (if s[1] == '_' then Grouped(s[2..], base) else Grouped(s[1..], base)))
  }

  /** The number a digit string denotes, underscores ignored. */
  function DigitsValue(s: string, base: nat): nat
  {
    if s == [] then 0
    else if s[|s| - 1] == '_' then DigitsValue(s[..|s| - 1], base)
    else DigitsValue(s[..|s| - 1], base) * base + DigitValue(s[|s| - 1])
  }

  /** The sign of a stripped literal and the rest after it. */
  function SplitSign(t: string): (bool, string)
  {
    if t != [] && (t[0] == '+' || t[0] == '-') then (t[0] == '-', t[1..]) else (false, t)
  }

  /** The digits after an optional `0x`/`0X` (and one underscore) in base 16. */
  function DropPrefix(body: string, base: nat): string
  {
    if base == 16 && |body| >= 2 && body[0] == '0' && (body[1] == 'x' || body[1] == 'X') then
      (if |body| >= 3 && body[2] == '_' then body[3..] else body[2..])
    else body
  }

  /** `int(s, base)` for base 10 or 16: `None` where Python raises. */
  function ParseInt(s: string, base: nat): (r: Option<int>)
    requires base == 10 || base == 16
    ensures r.Some? <==> Grouped(DropPrefix(SplitSign(Text.Strip(s)).1, base), base)
  {
    var (neg, body) := SplitSign(Text.Strip(s));
    var digits := DropPrefix(body, base);
    if Grouped(digits, base) then
      Some(if neg then -(DigitsValue(digits, base) as int) else DigitsValue(digits, base) as int)
    else None
  }

  /** `int(v)` on a JSON-shaped value: integers pass, booleans are 0/1,
      strings are parsed in base 10, and `None`, lists and dicts raise. */
  function IntOf(v: Value): (r: Option<int>)
    ensures v.VInt? ==> r == Some(v.i)
    ensures v.VBool? ==> r == Some(if v.b then 1 else 0)
    ensures (v.VNone? || v.VList? || v.VDict?) ==> r == None
  {
    match v
    case VInt(i) => Some(i)
    case VBool(b) => Some(if b then 1 else 0)
    case VStr(s) => ParseInt(s, 10)
    case _ => None
  }

  // ---------------------------------------------------------------------
  // Round trip with `str(i)`

  lemma {:induction false} DigitStringGrouped(s: string)
    requires |s| >= 1 && forall i :: 0 <= i < |s| ==> '0' <= s[i] <= '9'
    ensures Grouped(s, 10)
    decreases |s|
  {
    if |s| > 1 {
      DigitStringGrouped(s[1..]);
    }
  }

  lemma {:induction false} DigitsValueIsParseDigits(s: string)
    requires forall i :: 0 <= i < |s| ==> '0' <= s[i] <= '9'
    ensures DigitsValue(s, 10) == Text.ParseDigits(s)
    decreases |s|
  {
    if s != [] {
      DigitsValueIsParseDigits(s[..|s| - 1]);
    }
  }

  /** A string that neither starts nor ends with whitespace is its own strip. */
  lemma StripOfUnpadded(s: string)
    requires s != [] && !Text.IsSpace(s[0]) && !Text.IsSpace(s[|s| - 1])
    ensures Text.Strip(s) == s
  {
    assert Text.TrimLeft(s, Text.Whitespace) == s;
  }

  lemma ParseIntUnpadded(s: string, neg: bool, digits: string, n: nat)
    requires Text.Strip(s) == s && SplitSign(s) == (neg, digits)
    requires DropPrefix(digits, 10) == digits && Grouped(digits, 10) && DigitsValue(digits, 10) == n
    ensures ParseInt(s, 10) == Some(if neg then -(n as int) else n as int)
  {
  }

  lemma NatStringUnpadded(n: nat, neg: bool, s: string)
    requires s == if neg then "-" + Text.NatToString(n) else Text.NatToString(n)
    ensures Text.Strip(s) == s && SplitSign(s) == (neg, Text.NatToString(n))
  {
    var digits := Text.NatToString(n);
    DigitNotSpace(digits[|digits| - 1]);
    assert s[|s| - 1] == digits[|digits| - 1];
    if neg {
      assert s[0] == '-' && s[1..] == digits;
    } else {
      DigitNotSpace(digits[0]);
    }
    StripOfUnpadded(s);
  }

  lemma DigitNotSpace(c: char)
    requires '0' <= c <= '9'
    ensures !Text.IsSpace(c) && c != '+' && c != '-'
  {
  }

  lemma ParseIntOfNatString(n: nat, neg: bool, s: string)
    requires s == if neg then "-" + Text.NatToString(n) else Text.NatToString(n)
    ensures ParseInt(s, 10) == Some(if neg then -(n as int) else n as int)
  {
    var digits := Text.NatToString(n);
    NatStringUnpadded(n, neg, s);
    DigitStringGrouped(digits);
    DigitsValueIsParseDigits(digits);
    Text.NatToStringRoundTrip(n);
    ParseIntUnpadded(s, neg, digits, n);
  }

  /** `int(str(i)) == i`: the base-10 parser reads back every number Python
      prints. */
  lemma ParseIntOfIntToString(i: int)
    ensures ParseInt(Text.IntToString(i), 10) == Some(i)
  {
    if i < 0 {
      ParseIntOfNatString(-i, true, Text.IntToString(i));
    } else {
      ParseIntOfNatString(i, false, Text.IntToString(i));
    }
  }

  /** Every string of hexadecimal digits is accepted by `int(s, 16)`. */
  lemma {:induction false} HexDigitsAccepted(s: string)
    requires |s| >= 1 && forall i :: 0 <= i < |s| ==> IsDigitIn(s[i], 16)
    ensures Grouped(s, 16)
    decreases |s|
  {
    if |s| > 1 {
      HexDigitsAccepted(s[1..]);
    }
  }

  /** `int(d, 16)` accepts a non-empty string of hexadecimal digits. */
  lemma ParseHexDigits(d: string)
    requires |d| >= 1 && forall i :: 0 <= i < |d| ==> IsDigitIn(d[i], 16)
    ensures ParseInt(d, 16).Some?
  {
    assert !Text.IsSpace(d[0]) && !Text.IsSpace(d[|d| - 1]) by {
      assert DigitValue(d[0]) < 16 && DigitValue(d[|d| - 1]) < 16;
    }
    StripOfUnpadded(d);
    assert SplitSign(d) == (false, d);
    assert DropPrefix(d, 16) == d by {
      if |d| >= 2 {
        assert DigitValue(d[1]) < 16;
      }
    }
    HexDigitsAccepted(d);
  }

  /** `int("0x" + digits, 16)` is accepted as well. */
  lemma ParseHexPrefixed(s: string, digits: string)
    requires |digits| >= 1 && forall i :: 0 <= i < |digits| ==> IsDigitIn(digits[i], 16)
    requires s == "0x" + digits
    ensures ParseInt(s, 16).Some?
  {
    assert DigitValue(digits[|digits| - 1]) < 16;
    assert s[|s| - 1] == digits[|digits| - 1];
    StripOfUnpadded(s);
    assert SplitSign(s) == (false, s);
    assert DigitValue(digits[0]) < 16;
    assert DropPrefix(s, 16) == digits;
    HexDigitsAccepted(digits);
  }

  /** `int(d, 16)` of two hexadecimal digits is their value as a byte. */
  lemma TwoHexDigitsValue(d: string)
    requires |d| == 2 && IsDigitIn(d[0], 16) && IsDigitIn(d[1], 16)
    ensures ParseInt(d, 16) == Some(16 * DigitValue(d[0]) + DigitValue(d[1]))
  {
    ParseHexDigits(d);
    StripOfUnpadded(d);
    assert SplitSign(d) == (false, d);
    assert DropPrefix(d, 16) == d;
    assert d[1] != '_' && d[0] != '_';
    assert d[..1][..0] == [];
    assert DigitsValue(d[..1], 16) == DigitValue(d[0]);
    assert DigitsValue(d, 16) == 16 * DigitValue(d[0]) + DigitValue(d[1]);
  }
}
