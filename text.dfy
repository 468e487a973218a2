/** The Python `str` operations the document pipeline relies on: strip,
    lower/upper, prefix and substring tests, split/join and integer
    formatting. Whitespace is Python's ASCII whitespace plus U+0085 and
    U+00A0; case mapping covers ASCII letters. */
module Text {

  /** Characters Python's `str.strip()` removes that the model knows about. */
  const Whitespace: set<char> :=
    {' ', '\t', '\n', '\r', '\U{B}', '\U{C}', '\U{1C}', '\U{1D}', '\U{1E}', '\U{1F}', '\U{85}', '\U{A0}'}

  predicate IsSpace(c: char) { c in Whitespace }

  predicate IsBlank(s: string) { forall i :: 0 <= i < |s| ==> IsSpace(s[i]) }

  /** `s.lstrip(chars)`: drop the longest prefix made of characters in `cs`. */
  function TrimLeft(s: string, cs: set<char>): (r: string)
    ensures |r| <= |s|
    decreases |s|
  {
    if s != [] && s[0] in cs then TrimLeft(s[1..], cs) else s
  }

  /** What `lstrip` keeps is a suffix of `s`, and what it cuts away are
      characters of `cs`. */
  lemma {:induction false} TrimLeftSpec(s: string, cs: set<char>)
    ensures TrimLeft(s, cs) == s[|s| - |TrimLeft(s, cs)|..]
    ensures forall i :: 0 <= i < |s| - |TrimLeft(s, cs)| ==> s[i] in cs
    ensures TrimLeft(s, cs) == [] || TrimLeft(s, cs)[0] !in cs
    decreases |s|
  {
    if s != [] && s[0] in cs {
      TrimLeftSpec(s[1..], cs);
      assert s[1..][|s| - 1 - |TrimLeft(s, cs)|..] == s[|s| - |TrimLeft(s, cs)|..];
      forall i | 1 <= i < |s| - |TrimLeft(s, cs)|
        ensures s[i] in cs
      {
        assert s[i] == s[1..][i - 1];
      }
    }
  }

  /** Once `lstrip` stops inside `s`, whatever follows `s` is kept whole. */
  lemma {:induction false} TrimLeftAppend(s: string, rest: string, cs: set<char>)
    requires TrimLeft(s, cs) != []
    ensures TrimLeft(s + rest, cs) == TrimLeft(s, cs) + rest
    decreases |s|
  {
    if s[0] in cs {
      assert (s + rest)[1..] == s[1..] + rest;
      TrimLeftAppend(s[1..], rest, cs);
    }
  }

  /** `s.rstrip(chars)`: drop the longest suffix made of characters in `cs`. */
  function TrimRight(s: string, cs: set<char>): (r: string)
    ensures |r| <= |s|
    decreases |s|
  {
    if s != [] && s[|s| - 1] in cs then TrimRight(s[..|s| - 1], cs) else s
  }

  /** What `rstrip` keeps is a prefix of `s`, and what it cuts away are
      characters of `cs`. */
  lemma {:induction false} TrimRightSpec(s: string, cs: set<char>)
    ensures TrimRight(s, cs) == s[..|TrimRight(s, cs)|]
    ensures forall i :: |TrimRight(s, cs)| <= i < |s| ==> s[i] in cs
    ensures TrimRight(s, cs) == [] || TrimRight(s, cs)[|TrimRight(s, cs)| - 1] !in cs
    decreases |s|
  {
    if s != [] && s[|s| - 1] in cs {
      TrimRightSpec(s[..|s| - 1], cs);
      assert s[..|s| - 1][..|TrimRight(s, cs)|] == s[..|TrimRight(s, cs)|];
      forall i | |TrimRight(s, cs)| <= i < |s| - 1
        ensures s[i] in cs
      {
        assert s[i] == s[..|s| - 1][i];
      }
    }
  }

  /** `s.strip(chars)`. */
  function StripSet(s: string, cs: set<char>): string
  {
    TrimRight(TrimLeft(s, cs), cs)
  }

  /** `s.strip()`. */
  function Strip(s: string): string
  {
    StripSet(s, Whitespace)
  }

  /** `s.lstrip()` with no argument. */
  function LStrip(s: string): string
  {
    TrimLeft(s, Whitespace)
  }

  /** How many leading characters `strip` cuts away. */
  function StripStart(s: string, cs: set<char>): nat
  {
    |s| - |TrimLeft(s, cs)|
  }

  /** What `strip` means: the result is the piece of `s` starting at
      `StripStart`, only characters of `cs` were cut away on either side,
      and the result neither starts nor ends with one of them. */
  lemma StripSetSpec(s: string, cs: set<char>)
    ensures var r := StripSet(s, cs); var i := StripStart(s, cs);
      i + |r| <= |s| && r == s[i..i + |r|]
      && (forall k :: 0 <= k < i ==> s[k] in cs)
      && (forall k :: i + |r| <= k < |s| ==> s[k] in cs)
      && (r == [] || (r[0] !in cs && r[|r| - 1] !in cs))
  {
    var l := TrimLeft(s, cs);
    var r := TrimRight(l, cs);
    var i := |s| - |l|;
    TrimLeftSpec(s, cs);
    TrimRightSpec(l, cs);
    SliceOfSlice(s, l, r, i);
    forall k | i + |r| <= k < |s|
      ensures s[k] in cs
    {
      assert s[k] == l[k - i];
    }
    if r != [] {
      assert r[0] == l[0];
    }
  }

  /** A prefix `r` of the suffix `l` of `s` from `i` is the slice
      `s[i..i + |r|]`, and what follows it in `s` is what follows it in `l`. */
  lemma SliceOfSlice(s: string, l: string, r: string, i: nat)
    requires i <= |s| && l == s[i..] && |r| <= |l| && r == l[..|r|]
    ensures i + |r| <= |s| && r == s[i..i + |r|]
    ensures forall k :: i + |r| <= k < |s| ==> s[k] == l[k - i]
  {
  }

  /** Stripping twice is stripping once. */
  lemma StripSetIdempotent(s: string, cs: set<char>)
    ensures StripSet(StripSet(s, cs), cs) == StripSet(s, cs)
  {
    var r := StripSet(s, cs);
    if r != [] {
      assert r[0] !in cs by { StripSetSpec(s, cs); }
      assert TrimLeft(r, cs) == r;
      assert r[|r| - 1] !in cs by { StripSetSpec(s, cs); }
    }
  }

  /** A stripped string is empty exactly when the input is all whitespace,
      which is Python's `not s.strip()`. */
  lemma StripEmptyIffBlank(s: string)
    ensures Strip(s) == [] <==> IsBlank(s)
  {
    var l := TrimLeft(s, Whitespace);
    TrimLeftSpec(s, Whitespace);
    TrimRightSpec(l, Whitespace);
    if !IsBlank(s) {
      var k :| 0 <= k < |s| && !IsSpace(s[k]);
      assert k >= |s| - |l|;
      assert l[0] !in Whitespace;
    }
  }

  function LowerChar(c: char): char
  {
    if 'A' <= c <= 'Z' then (c as int + 32) as char else c
  }

  function UpperChar(c: char): char
  {
    if 'a' <= c <= 'z' then (c as int - 32) as char else c
  }

  /** `s.lower()`. */
  function Lower(s: string): (r: string)
    ensures |r| == |s| && forall i :: 0 <= i < |s| ==> r[i] == LowerChar(s[i])
  {
    if s == [] then [] else [LowerChar(s[0])] + Lower(s[1..])
  }

  /** `s.upper()`. */
  function Upper(s: string): (r: string)
    ensures |r| == |s| && forall i :: 0 <= i < |s| ==> r[i] == UpperChar(s[i])
  {
    if s == [] then [] else [UpperChar(s[0])] + Upper(s[1..])
  }

  /** `s.startswith(p)`. */
  predicate StartsWith(s: string, p: string) { p <= s }

  /** `s.endswith(p)`. */
  predicate EndsWith(s: string, p: string) { |p| <= |s| && s[|s| - |p|..] == p }

  /** `sep` occurs in `s` at position `j`. */
  predicate OccursAt(s: string, sep: string, j: int)
  {
    0 <= j && j + |sep| <= |s| && s[j..j + |sep|] == sep
  }

  /** `sub in s`. */
  predicate Contains(s: string, sub: string)
  {
    exists j | 0 <= j <= |s| - |sub| :: OccursAt(s, sub, j)
  }

  /** `s.find(sep)`: the first position where `sep` occurs, or -1. */
  function IndexOf(s: string, sep: string): (r: int)
    ensures -1 <= r <= |s|
    ensures r >= 0 ==> OccursAt(s, sep, r)
    ensures forall j :: 0 <= j && (r < 0 || j < r) ==> !OccursAt(s, sep, j)
    decreases |s|
  {
    if |s| < |sep| then -1
    else if sep <= s then 0
    else
      var k := IndexOf(s[1..], sep);
      assert forall j :: 1 <= j ==> (OccursAt(s[1..], sep, j - 1) <==> OccursAt(s, sep, j)) by {
        forall j | 1 <= j ensures OccursAt(s[1..], sep, j - 1) <==> OccursAt(s, sep, j) {
          if j + |sep| <= |s| {
            assert s[1..][j - 1..j - 1 + |sep|] == s[j..j + |sep|];
          }
        }
      }
      assert !OccursAt(s, sep, 0);
      if k < 0 then -1 else k + 1
  }

  lemma ContainsIffIndexOf(s: string, sub: string)
    ensures Contains(s, sub) <==> IndexOf(s, sub) >= 0
  {
    var r := IndexOf(s, sub);
    if r >= 0 {
      assert OccursAt(s, sub, r);
    }
  }

  /** `sep.join(parts)`. */
  function Join(parts: seq<string>, sep: string): string
  {
    if |parts| == 0 then ""
    else if |parts| == 1 then parts[0]
    else parts[0] + sep + Join(parts[1..], sep)
  }

  /** `s.split(sep)` for a non-empty separator: cut at every occurrence,
      scanning left to right. Joining the pieces gives `s` back, and no
      piece contains the separator. */
  function Split(s: string, sep: string): (parts: seq<string>)
    requires sep != []
    ensures |parts| >= 1
    ensures Join(parts, sep) == s
    ensures forall k :: 0 <= k < |parts| ==> IndexOf(parts[k], sep) < 0
    decreases |s|
  {
    var k := IndexOf(s, sep);
    if k < 0 then [s]
    else
      var head := s[..k];
      var rest := Split(s[k + |sep|..], sep);
      assert s == head + sep + s[k + |sep|..];
      assert IndexOf(head, sep) < 0 by {
        forall j | 0 <= j ensures !OccursAt(head, sep, j) {
          if OccursAt(head, sep, j) {
            assert head[j..j + |sep|] == s[j..j + |sep|];
            assert OccursAt(s, sep, j);
          }
        }
      }
      [head] + rest
  }

  /** A string without the separator splits into itself alone. */
  lemma SplitNoSeparator(s: string, sep: string)
    requires sep != [] && IndexOf(s, sep) < 0
    ensures Split(s, sep) == [s]
  {
  }

  /** The characters Python's `str(n)` prints for a natural number. */
  function DigitChar(d: nat): (c: char)
    requires d < 10
    ensures '0' <= c <= '9' && c as int - '0' as int == d
  {
    ('0' as int + d) as char
  }

  /** `str(n)` for `n >= 0`. */
  function NatToString(n: nat): (r: string)
    ensures |r| >= 1 && forall i :: 0 <= i < |r| ==> '0' <= r[i] <= '9'
    ensures r[0] == '0' ==> n == 0
    decreases n
  {
    if n < 10 then [DigitChar(n)] else NatToString(n / 10) + [DigitChar(n % 10)]
  }

  /** Reading a digit string back as a number. */
  function ParseDigits(s: string): nat
    requires forall i :: 0 <= i < |s| ==> '0' <= s[i] <= '9'
  {
    if s == [] then 0 else ParseDigits(s[..|s| - 1]) * 10 + (s[|s| - 1] as int - '0' as int)
  }

  /** `NatToString` is faithful: parsing its output gives the number back,
      so different numbers print differently. */
  lemma {:induction false} NatToStringRoundTrip(n: nat)
    ensures ParseDigits(NatToString(n)) == n
    decreases n
  {
    if n >= 10 {
      NatToStringRoundTrip(n / 10);
      var s := NatToString(n);
      assert s[..|s| - 1] == NatToString(n / 10);
    }
  }

  /** `str(i)` for any integer. */
  function IntToString(i: int): (r: string)
    ensures |r| >= 1
    ensures i < 0 <==> r[0] == '-'
  {
    if i < 0 then "-" + NatToString(-i) else NatToString(i)
  }

  /** `c * n`. */
  function Repeat(c: char, n: nat): (r: string)
    ensures |r| == n && forall i :: 0 <= i < n ==> r[i] == c
  {
    if n == 0 then "" else [c] + Repeat(c, n - 1)
  }

  /** `s.strip() == s`. */
  predicate IsStripped(s: string) { Strip(s) == s }

  /** The non-blank chunks of `text.split(sep)`, stripped, in order: the
      recurring `[p.strip() for p in text.split("\n\n") if p.strip()]`. */
  function NonBlankStripped(chunks: seq<string>): (r: seq<string>)
    ensures |r| <= |chunks|
    ensures forall k :: 0 <= k < |r| ==> r[k] != [] && IsStripped(r[k])
  {
    if chunks == [] then []
    else
      var p := Strip(chunks[0]);
      var rest := NonBlankStripped(chunks[1..]);
      if p == [] then rest
      else
        StripSetIdempotent(chunks[0], Whitespace);
        [p] + rest
  }

  /** Filtering chunk by chunk: one more chunk adds its stripped text
      when that is not empty. */
  lemma {:induction false} NonBlankStrippedSnoc(chunks: seq<string>, x: string)
    ensures NonBlankStripped(chunks + [x]) == NonBlankStripped(chunks) + (if Strip(x) == [] then [] else [Strip(x)])
  {
    if chunks != [] {
      assert (chunks + [x])[1..] == chunks[1..] + [x];
      NonBlankStrippedSnoc(chunks[1..], x);
    }
  }

  /** Blank-line separated paragraphs of a text. */
  function Paragraphs(text: string): seq<string>
  {
    NonBlankStripped(Split(text, "\n\n"))
  }

  /** A non-blank text without a blank line is a single paragraph. */
  lemma ParagraphsSingle(text: string)
    requires IndexOf(text, "\n\n") < 0 && !IsBlank(text)
    ensures Paragraphs(text) == [Strip(text)]
  {
    StripEmptyIffBlank(text);
  }

  /** An all-whitespace text yields no paragraphs at all. */
  lemma {:induction false} NonBlankStrippedOfBlanks(chunks: seq<string>)
    requires forall k :: 0 <= k < |chunks| ==> IsBlank(chunks[k])
    ensures NonBlankStripped(chunks) == []
  {
    if chunks != [] {
      StripEmptyIffBlank(chunks[0]);
      NonBlankStrippedOfBlanks(chunks[1..]);
    }
  }
}
