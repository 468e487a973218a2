/** The translation batcher. Several texts travel to the language model
    as one request, each line opened by a numbered delimiter `|||i|||`;
    the reply is cut back apart at the delimiters it contains, each piece
    is cleaned of the usual model artifacts (code fences, "Translation:"
    prefixes, trailing notes), and texts are grouped greedily into batches
    bounded by an item count and a character budget. */
module Batcher {
  import opened Wrappers
  import opened Text
  import opened TextPaths

  /** A translatable text and the place in the document it came from. */
  datatype TextItem = TextItem(path: Path, text: string)

  /** Texts sent to the model in one request. */
  datatype TranslationBatch = TranslationBatch(items: seq<TextItem>)

  function Texts(items: seq<TextItem>): (r: seq<string>)
    ensures |r| == |items| && forall i :: 0 <= i < |items| ==> r[i] == items[i].text
  {
    seq(|items|, i requires 0 <= i < |items| => items[i].text)
  }

  /** `[""] * n`. */
  function Blanks(n: nat): (r: seq<string>)
    ensures |r| == n && forall i :: 0 <= i < n ==> r[i] == ""
  {
    seq(n, _ => "")
  }

  // ---------------------------------------------------------------------
  // Serialising a batch

  /** The delimiter `|||i|||`. */
  function Delimiter(i: nat): string
  {
    "|||" + NatToString(i) + "|||"
  }

  /** Line `i` of a batched request: the delimiter, a space, the text. */
  function Line(i: nat, text: string): string
  {
    Delimiter(i) + " " + text
  }

  /** Lines `j`, `j + 1`, ... of a batched request. */
  function LinesFrom(texts: seq<string>, j: nat): seq<string>
    requires j <= |texts|
  {
    seq(|texts| - j, k requires 0 <= k < |texts| - j => Line(j + k, texts[j + k]))
  }

  /** The request text for a list of texts: one delimited line each,
      joined by newlines. */
  function BatchedText(texts: seq<string>): string
  {
    Join(LinesFrom(texts, 0), "\n")
  }

  /** `TranslationBatch.to_batched_text`. */
  method ToBatchedText(batch: TranslationBatch) returns (s: string)
    ensures s == BatchedText(Texts(batch.items))
  {
    var parts: seq<string> := [];
    var i := 0;
    while i < |batch.items|
      invariant 0 <= i <= |batch.items|
      invariant |parts| == i
      invariant forall k :: 0 <= k < i ==> parts[k] == Line(k, batch.items[k].text)
    {
      parts := parts + [Line(i, batch.items[i].text)];
      i := i + 1;
    }
    assert parts == LinesFrom(Texts(batch.items), 0);
    s := Join(parts, "\n");
  }

  // ---------------------------------------------------------------------
  // Finding the delimiters in a reply: `\|\|\|(\d+)\|\|\|`

  predicate IsDigit(c: char) { '0' <= c <= '9' }

  /** Length of the run of ASCII digits `s` starts with. */
  function DigitRun(s: string): (k: nat)
    ensures k <= |s|
    ensures forall i :: 0 <= i < k ==> IsDigit(s[i])
    ensures k == |s| || !IsDigit(s[k])
    decreases |s|
  {
    if s != [] && IsDigit(s[0]) then
      var k := DigitRun(s[1..]);
      assert forall i :: 1 <= i < k + 1 ==> s[i] == s[1..][i - 1];
      k + 1
    else 0
  }

  /** Length of the delimiter match at the very start of `s`, or 0 when
      none starts there. Three bars, a maximal run of digits, three bars:
      backtracking cannot find a shorter digit run that works, because a
      bar is not a digit. */
  function MatchLength(s: string): (n: nat)
    ensures n == 0 || 7 <= n <= |s|
  {
    if |s| >= 3 && s[..3] == "|||" then
      var k := DigitRun(s[3..]);
      if k > 0 && 6 + k <= |s| && s[3 + k..6 + k] == "|||" then 6 + k else 0
    else 0
  }

  /** The number a delimiter at the start of `s` carries: `int(group(1))`. */
  function MatchIndex(s: string): nat
    requires MatchLength(s) > 0
  {
    var k := MatchLength(s) - 6;
    assert forall i :: 0 <= i < k ==> s[3..3 + k][i] == s[3..][i];
    ParseDigits(s[3..3 + k])
  }

  /** One delimiter found in a reply: where it starts and ends, and its number. */
  datatype Match = Match(start: nat, end: nat, index: nat)

  /** Matches found from position `p` on lie inside `s`, in order, without
      overlapping. */
  predicate Ordered(s: string, ms: seq<Match>, p: nat)
  {
    (forall i :: 0 <= i < |ms| ==> p <= ms[i].start < ms[i].end <= |s|)
    && (forall i, j :: 0 <= i < j < |ms| ==> ms[i].end <= ms[j].start)
  }

  /** `DELIMITER_PATTERN.finditer(s)` from position `p`: try every
      position from the left; after a match, go on from its end. */
  function MatchesFrom(s: string, p: nat): seq<Match>
    requires p <= |s|
    decreases |s| - p
  {
    if p == |s| then []
    else
      var n := MatchLength(s[p..]);
      if n > 0 then [Match(p, p + n, MatchIndex(s[p..]))] + MatchesFrom(s, p + n)
      else MatchesFrom(s, p + 1)
  }

  /** The matches of a scan lie inside the text, in order, without
      overlapping. */
  lemma {:induction false} MatchesOrdered(s: string, p: nat)
    requires p <= |s|
    ensures Ordered(s, MatchesFrom(s, p), p)
    decreases |s| - p
  {
    if p < |s| {
      var n := MatchLength(s[p..]);
      if n > 0 {
        var q := p + n;
        MatchesOrdered(s, q);
        assert MatchesFrom(s, p) == [Match(p, q, MatchIndex(s[p..]))] + MatchesFrom(s, q);
        OrderedCons(s, Match(p, q, MatchIndex(s[p..])), MatchesFrom(s, q), p);
      } else {
        var q := p + 1;
        MatchesOrdered(s, q);
        assert MatchesFrom(s, p) == MatchesFrom(s, q);
        OrderedLater(s, MatchesFrom(s, q), q, p);
      }
    }
  }

  lemma OrderedCons(s: string, m: Match, rest: seq<Match>, p: nat)
    requires p <= m.start < m.end <= |s| && Ordered(s, rest, m.end)
    ensures Ordered(s, [m] + rest, p)
  {
    var ms := [m] + rest;
    assert forall i :: 1 <= i < |ms| ==> ms[i] == rest[i - 1];
  }

  lemma OrderedLater(s: string, ms: seq<Match>, q: nat, p: nat)
    requires p <= q && Ordered(s, ms, q)
    ensures Ordered(s, ms, p)
  {
  }

  /** No delimiter occurs anywhere in `t`. */
  predicate NoDelimiter(t: string)
  {
    forall r {:trigger MatchLength(t[r..])} :: 0 <= r <= |t| ==> MatchLength(t[r..]) == 0
  }

  // ---------------------------------------------------------------------
  // Cleaning one translation (`clean_translation`)

  const Fence: string := "```"

  /** A fenced reply loses its opening line, and its closing line when
      that one is a fence too. */
  function FenceBody(lines: seq<string>): seq<string>
  {
    var a := if lines != [] && StartsWith(lines[0], Fence) then lines[1..] else lines;
    if a != [] && StartsWith(Strip(a[|a| - 1]), Fence) then a[..|a| - 1] else a
  }

  function WithoutFence(t: string): string
  {
    if StartsWith(t, Fence) then Strip(Join(FenceBody(Split(t, "\n")), "\n")) else t
  }

  /** `s` starts with the lower-case `p`, ignoring ASCII case. */
  predicate StartsWithCI(s: string, p: string)
  {
    |p| <= |s| && Lower(s[..|p|]) == p
  }

  /** Length of the whitespace run `s` starts with (`\s*`). */
  function SpaceRun(s: string): (n: nat)
    ensures n <= |s|
  {
    |s| - |TrimLeft(s, Whitespace)|
  }

  /** `\w` on a `str` pattern: the underscore and the characters for
      which `str.isalnum()` holds, written out for Latin-1: ASCII letters
      and digits, the ordinal indicators, the superscripts, the fractions,
      the micro sign and the accented letters (all but the multiplication
      and division signs). */
  predicate IsWordChar(c: char)
  {
    || 'a' <= c <= 'z' || 'A' <= c <= 'Z' || '0' <= c <= '9' || c == '_'
    || c == '\U{AA}' || c == '\U{B2}' || c == '\U{B3}' || c == '\U{B5}' || c == '\U{B9}' || c == '\U{BA}'
    || '\U{BC}' <= c <= '\U{BE}'
    || ('\U{C0}' <= c <= '\U{FF}' && c != '\U{D7}' && c != '\U{F7}')
  }

  /** Length of the word-character run `s` starts with (`\w*`). */
  function WordRun(s: string): (n: nat)
    ensures n <= |s|
    decreases |s|
  {
    if s != [] && IsWordChar(s[0]) then 1 + WordRun(s[1..]) else 0
  }

  /** `(?:Here is the |The )?`, tried in the regex engine's order. */
  const Articles: seq<string> := ["here is the ", "the ", ""]

  /** `\s+in\s+\w+` at the start of `u`. Each run is maximal; a shorter
      one could never be followed by what the pattern needs next. */
  function InLanguage(u: string): Option<nat>
  {
    var a := SpaceRun(u);
    if a == 0 || !StartsWithCI(u[a..], "in") then None
    else
      var b := SpaceRun(u[a + 2..]);
      if b == 0 then None
      else
        var c := WordRun(u[a + 2 + b..]);
        if c == 0 then None else Some(a + 2 + b + c)
  }

  /** `translation(?:\s+in\s+\w+)?:\s*` at the start of `t`: the optional
      group is tried first, then the colon straight away. */
  function TranslationLabel(t: string): Option<nat>
  {
    if !StartsWithCI(t, "translation") then None
    else
      var u := t[11..];
      var g := InLanguage(u);
      if g.Some? && g.value < |u| && u[g.value] == ':' then
        Some(11 + g.value + 1 + SpaceRun(u[g.value + 1..]))
      else if u != [] && u[0] == ':' then Some(12 + SpaceRun(u[1..]))
      else None
  }

  /** `translation:\s*` at the start of `t`: the third pattern, without
      the optional language group. */
  function ColonLabel(t: string): Option<nat>
  {
    if StartsWithCI(t, "translation:") then Some(12 + SpaceRun(t[12..])) else None
  }

  /** `translated text:\s*` at the start of `t`. */
  function TranslatedTextLabel(t: string): Option<nat>
  {
    if StartsWithCI(t, "translated text:") then Some(16 + SpaceRun(t[16..])) else None
  }

  /** An optional article from `Articles[i..]` followed by what `follow`
      accepts, at the start of `s`: the length of the first alternative
      that leads to a match. */
  function WithArticle(s: string, i: nat, follow: string -> Option<nat>): (r: Option<nat>)
    requires i <= |Articles|
    ensures r.Some? ==> r.value <= |s|
    decreases |Articles| - i
  {
    if i == |Articles| then None
    else
      var a := Articles[i];
      if StartsWithCI(s, a) then
        match follow(s[|a|..])
        case Some(n) => if |a| + n <= |s| then Some(|a| + n) else None
        case None => WithArticle(s, i + 1, follow)
      else WithArticle(s, i + 1, follow)
  }

  /** `re.sub` of an anchored pattern: drop the matched prefix, if any. */
  function DropPrefix(s: string, m: Option<nat>): string
  {
    if m.Some? && m.value <= |s| then s[m.value..] else s
  }

  /** The three wrapper patterns, applied one after the other. */
  function WithoutWrappers(t: string): string
  {
    var t1 := DropPrefix(t, WithArticle(t, 0, TranslationLabel));
    var t2 := DropPrefix(t1, WithArticle(t1, 0, TranslatedTextLabel));
    DropPrefix(t2, ColonLabel(t2))
  }

  /** `$`: the end of the text, or just before a final newline. */
  predicate AtEnd(s: string, e: nat)
  {
    e == |s| || (e + 1 == |s| && s[e] == '\n')
  }

  /** `\s*[\(\[]Note:.*?[\)\]]$` matches from position `p`: whitespace,
      an opening bracket, "note:" in any case, then anything up to a
      closing bracket at the end. */
  predicate NoteAt(s: string, p: nat)
    requires p <= |s|
  {
    var w := p + SpaceRun(s[p..]);
    w < |s| && (s[w] == '(' || s[w] == '[') && StartsWithCI(s[w + 1..], "note:")
    && exists e :: w + 6 <= e < |s| && (s[e] == ')' || s[e] == ']') && AtEnd(s, e + 1)
  }

  /** The leftmost position from `p` on where a trailing note starts. */
  function FirstNote(s: string, p: nat): (r: Option<nat>)
    requires p <= |s|
    ensures r.Some? ==> p <= r.value <= |s| && NoteAt(s, r.value)
    ensures r.None? ==> forall q :: p <= q <= |s| ==> !NoteAt(s, q)
    decreases |s| - p
  {
    if NoteAt(s, p) then Some(p) else if p == |s| then None else FirstNote(s, p + 1)
  }

  /** Removing the trailing note; a final newline `$` stopped before stays. */
  function WithoutNote(s: string): string
  {
    match FirstNote(s, 0)
    case None => s
    case Some(p) => s[..p] + (if s != [] && s[|s| - 1] == '\n' then "\n" else "")
  }

  /** `clean_translation`. */
  function CleanTranslation(text: string): string
  {
    if text == "" then ""
    else Strip(WithoutNote(WithoutWrappers(WithoutFence(Strip(text)))))
  }

  /** A cleaned translation never starts or ends with whitespace. */
  lemma CleanStripped(text: string)
    ensures IsStripped(CleanTranslation(text))
  {
    if text != "" {
      StripSetIdempotent(WithoutNote(WithoutWrappers(WithoutFence(Strip(text)))), Whitespace);
    }
  }

  /** A text with no fence, no wrapper and no note is already clean. */
  predicate PlainText(t: string)
  {
    IsStripped(t) && !StartsWith(t, Fence)
    && WithArticle(t, 0, TranslationLabel).None?
    && WithArticle(t, 0, TranslatedTextLabel).None?
    && ColonLabel(t).None?
    && FirstNote(t, 0).None?
  }

  lemma CleanKeepsPlain(t: string)
    requires PlainText(t)
    ensures CleanTranslation(t) == t
  {
  }

  /** A text without an opening bracket holds no trailing note. */
  lemma NoBracketNoNote(s: string)
    requires '(' !in s && '[' !in s
    ensures WithoutNote(s) == s
  {
    forall q | 0 <= q <= |s| ensures !NoteAt(s, q) {
      var w := q + SpaceRun(s[q..]);
      if w < |s| {
        assert s[w] in s;
      }
    }
  }

  /** A text that neither starts nor ends with whitespace is stripped. */
  lemma StrippedByEnds(s: string)
    requires s != [] && !IsSpace(s[0]) && !IsSpace(s[|s| - 1])
    ensures IsStripped(s)
  {
    StripSetSpec(s, Whitespace);
  }

  /** `p` is a prefix of `s` ignoring case when each character lowers
      to `p`'s, and is not when one does not. */
  lemma StartsWithCIAt(s: string, p: string)
    requires |p| <= |s|
    ensures StartsWithCI(s, p) <==> forall k :: 0 <= k < |p| ==> LowerChar(s[k]) == p[k]
  {
    if forall k :: 0 <= k < |p| ==> LowerChar(s[k]) == p[k] {
      assert Lower(s[..|p|]) == p;
    }
  }

  /** A run of one whitespace character. */
  lemma SpaceRunOne(s: string)
    requires |s| >= 2 && IsSpace(s[0]) && !IsSpace(s[1])
    ensures SpaceRun(s) == 1
  {
    assert TrimLeft(s[1..], Whitespace) == s[1..];
  }

  /** A word followed by a non-word character is one word run. */
  lemma {:induction false} WordRunOf(w: string, rest: string)
    requires forall k :: 0 <= k < |w| ==> IsWordChar(w[k])
    requires rest == [] || !IsWordChar(rest[0])
    ensures WordRun(w + rest) == |w|
    decreases |w|
  {
    if w != [] {
      assert (w + rest)[1..] == w[1..] + rest;
      WordRunOf(w[1..], rest);
    }
  }

  /** `\s+in\s+\w+` on " in " and a language word. */
  lemma LanguageGroup(lang: string, rest: string)
    requires lang != [] && forall k :: 0 <= k < |lang| ==> IsWordChar(lang[k])
    requires rest == [] || !IsWordChar(rest[0])
    ensures InLanguage(" in " + lang + rest) == Some(4 + |lang|)
  {
    var u := " in " + lang + rest;
    SpaceRunOne(u);
    StartsWithCIAt(u[1..], "in");
    SpaceRunOne(u[3..]);
    assert u[4..] == lang + rest;
    WordRunOf(lang, rest);
  }

  /** A text opening with the word "Translation" and what follows it. */
  lemma TranslationWord(u: string)
    ensures StartsWithCI("Translation" + u, "translation")
    ensures ("Translation" + u)[11..] == u
  {
    var t := "Translation" + u;
    StartsWithCIAt(t, "translation");
  }

  /** The first pattern when the optional language group matches `g`
      characters after the word and a colon follows. */
  lemma LabelWithGroup(t: string, g: nat)
    requires StartsWithCI(t, "translation") && InLanguage(t[11..]) == Some(g)
    requires 11 + g < |t| && t[11 + g] == ':'
    ensures TranslationLabel(t) == Some(12 + g + SpaceRun(t[12 + g..]))
  {
    assert t[11..][g + 1..] == t[12 + g..];
  }

  /** The third pattern refuses a text whose twelfth character is not a colon. */
  lemma NoColonLabel(t: string)
    requires |t| > 11 && t[11] != ':'
    ensures ColonLabel(t) == None
  {
    StartsWithCIAt(t, "translation:");
    assert "translation:"[11] == ':';
  }

  /** The first pattern cuts "Translation in <language>: " whatever the
      language's word characters, Latin-1 accents included; the third,
      a bare "translation:", does not match there. */
  lemma LanguageLabelCut(lang: string, x: string)
    requires lang != [] && forall k :: 0 <= k < |lang| ==> IsWordChar(lang[k])
    requires x == [] || !IsSpace(x[0])
    ensures TranslationLabel("Translation" + (" in " + lang + ": " + x)) == Some(17 + |lang|)
    ensures ColonLabel("Translation" + (" in " + lang + ": " + x)) == None
  {
    var u := " in " + lang + ": " + x;
    LanguageText(lang, x);
    LanguageGroup(lang, ": " + x);
    LabelColon(u, 4 + |lang|, x);
    LabelAfterWord(u, 4 + |lang|);
    NoColonAfterWord(u);
  }

  /** The word "Translation", a language group of `g` characters, a colon
      and one space. */
  lemma LabelAfterWord(u: string, g: nat)
    requires InLanguage(u) == Some(g) && g < |u| && u[g] == ':' && SpaceRun(u[g + 1..]) == 1
    ensures TranslationLabel("Translation" + u) == Some(13 + g)
  {
    var t := "Translation" + u;
    TranslationWord(u);
    assert t[11 + g] == u[g];
    assert t[12 + g..] == u[g + 1..];
    LabelWithGroup(t, g);
  }

  /** The word "Translation" followed by anything but a colon. */
  lemma NoColonAfterWord(u: string)
    requires u != [] && u[0] != ':'
    ensures ColonLabel("Translation" + u) == None
  {
    var t := "Translation" + u;
    assert t[11] == u[0];
    NoColonLabel(t);
  }

  /** Neither article opens a text that starts with the word "Translation",
      and neither does "translated text:". */
  lemma WordNoArticle(u: string)
    ensures !StartsWithCI("Translation" + u, "here is the ")
    ensures !StartsWithCI("Translation" + u, "the ")
    ensures !StartsWithCI("Translation" + u, "translated text:")
  {
    var t := "Translation" + u;
    if |t| >= 12 {
      StartsWithCIAt(t, "here is the ");
      assert LowerChar(t[0]) != "here is the "[0];
    }
    StartsWithCIAt(t, "the ");
    assert LowerChar(t[1]) != "the "[1];
    if |t| >= 16 {
      StartsWithCIAt(t, "translated text:");
      assert LowerChar(t[8]) != "translated text:"[8];
    }
  }

  /** Without an article, only the empty alternative is left. */
  lemma BareArticle(t: string, follow: string -> Option<nat>)
    requires !StartsWithCI(t, "here is the ") && !StartsWithCI(t, "the ")
    ensures WithArticle(t, 0, follow) == WithArticle(t, 2, follow)
  {
    assert Articles[0] == "here is the ";
    ArticleSkipped(t, 0, follow);
    assert Articles[1] == "the ";
    ArticleSkipped(t, 1, follow);
  }

  /** An article that does not open the text is passed over. */
  lemma ArticleSkipped(t: string, i: nat, follow: string -> Option<nat>)
    requires i < |Articles| && !StartsWithCI(t, Articles[i])
    ensures WithArticle(t, i, follow) == WithArticle(t, i + 1, follow)
  {
  }

  /** The last alternative, no article at all. */
  lemma EmptyArticle(t: string, follow: string -> Option<nat>)
    ensures WithArticle(t, 2, follow)
      == if follow(t).Some? && follow(t).value <= |t| then follow(t) else None
  {
    assert Articles[2] == "";
    assert t[..0] == [] && t[0..] == t;
    assert StartsWithCI(t, "");
  }

  /** "Translation: " and text that does not start with whitespace: the
      first pattern cuts the label without the language group. */
  lemma ColonAfterWord(v: string)
    requires v == [] || !IsSpace(v[0])
    ensures TranslationLabel("Translation" + (": " + v)) == Some(13)
  {
    var u := ": " + v;
    var t := "Translation" + u;
    TranslationWord(u);
    assert u[0..] == ": " + v;
    LabelColon(u, 0, v);
    assert SpaceRun(u) == 0;
  }

  /** The whole of the wrapper removal on "Translation in <language>: x":
      what remains is `x` when `x` carries no further wrapper. */
  lemma LanguageLabelDropped(lang: string, x: string)
    requires lang != [] && forall k :: 0 <= k < |lang| ==> IsWordChar(lang[k])
    requires x == [] || !IsSpace(x[0])
    requires WithArticle(x, 0, TranslatedTextLabel).None? && ColonLabel(x).None?
    ensures WithoutWrappers("Translation" + (" in " + lang + ": " + x)) == x
  {
    var u := " in " + lang + ": " + x;
    var t := "Translation" + u;
    LanguageLabelCut(lang, x);
    WordNoArticle(u);
    BareArticle(t, TranslationLabel);
    EmptyArticle(t, TranslationLabel);
    assert t[17 + |lang|..] == x;
  }

  /** A bare "Translation: " before a language label: the first pattern
      takes the bare label, the second and third patterns do not apply,
      and the language label stays. */
  lemma StackedLabelKept(lang: string, x: string)
    requires lang != [] && forall k :: 0 <= k < |lang| ==> IsWordChar(lang[k])
    requires x == [] || !IsSpace(x[0])
    ensures var w := "Translation" + (" in " + lang + ": " + x);
      WithoutWrappers("Translation" + (": " + w)) == w
  {
    var u := " in " + lang + ": " + x;
    var w := "Translation" + u;
    var t := "Translation" + (": " + w);
    ColonAfterWord(w);
    WordNoArticle(": " + w);
    BareArticle(t, TranslationLabel);
    EmptyArticle(t, TranslationLabel);
    assert t[13..] == w;
    WordNoArticle(u);
    BareArticle(w, TranslatedTextLabel);
    EmptyArticle(w, TranslatedTextLabel);
    LanguageLabelCut(lang, x);
  }

  /** The pieces of " in <language>: <x>". */
  lemma LanguageText(lang: string, x: string)
    ensures var u := " in " + lang + ": " + x;
      u == " in " + lang + (": " + x) && u[4 + |lang|..] == ": " + x && u[0] == ' '
  {
    var u := " in " + lang + ": " + x;
    assert u == " in " + lang + (": " + x);
  }

  /** After the language group, the colon and a single space. */
  lemma LabelColon(u: string, g: nat, x: string)
    requires g < |u| && u[g..] == ": " + x
    requires x == [] || !IsSpace(x[0])
    ensures u[g] == ':' && SpaceRun(u[g + 1..]) == 1
  {
    assert u[g] == u[g..][0];
    var v := u[g + 1..];
    assert v == " " + x;
    if x == [] {
      assert TrimLeft(v, Whitespace) == [];
    } else {
      SpaceRunOne(v);
    }
  }

  // ---------------------------------------------------------------------
  // Parsing a reply (`parse_response`)

  /** Where the piece after match `i` ends: at the next match, or at the
      end of the reply. */
  function SegmentEnd(s: string, ms: seq<Match>, i: nat): nat
    requires i < |ms|
  {
    if i + 1 < |ms| then ms[i + 1].start else |s|
  }

  /** `response[start:end]` for the piece after match `i`; like a Python
      slice it is empty when the bounds are out of order. */
  function Segment(s: string, ms: seq<Match>, i: nat): string
    requires i < |ms|
  {
    var a := ms[i].end;
    var b := SegmentEnd(s, ms, i);
    if a <= b <= |s| then s[a..b] else ""
  }

  /** The matches of a scan always leave the piece between them in
      bounds. */
  lemma SegmentInBounds(s: string, ms: seq<Match>, i: nat)
    requires Ordered(s, ms, 0) && i < |ms|
    ensures ms[i].end <= SegmentEnd(s, ms, i) <= |s|
    ensures Segment(s, ms, i) == s[ms[i].end..SegmentEnd(s, ms, i)]
  {
  }

  /** The piece after each match: the text up to the next match (or the
      end), stripped and then cleaned by `clean`. */
  function Pieces(s: string, ms: seq<Match>, clean: string -> string): (ps: seq<string>)
    ensures |ps| == |ms|
  {
    seq(|ms|, i requires 0 <= i < |ms| => clean(Strip(Segment(s, ms, i))))
  }

  /** The `result` dictionary after the first `n` matches: each match's
      number maps to its piece, and a later match of the same number
      overwrites an earlier one. */
  function Filed(ms: seq<Match>, ps: seq<string>, n: nat): map<nat, string>
    requires n <= |ms| && n <= |ps|
  {
    if n == 0 then map[]
    else Filed(ms, ps, n - 1)[ms[n - 1].index := ps[n - 1]]
  }

  /** Slots `0 .. n - 1` filled from `m`, empty where `m` has no entry. */
  function Numbered(m: map<nat, string>, n: nat): (r: seq<string>)
    ensures |r| == n && forall i :: 0 <= i < n ==> r[i] == if i in m then m[i] else ""
  {
    seq(n, i => if i in m then m[i] else "")
  }

  /** What `parse_response(response, expected)` returns when each piece
      is cleaned by `clean`. */
  function ParsedWith(response: string, expected: nat, clean: string -> string): seq<string>
  {
    if response == "" then Blanks(expected)
    else
      var ms := MatchesFrom(response, 0);
      if ms == [] then
        if expected == 1 then [clean(response)]
        else [Strip(response)] + (if expected == 0 then [] else Blanks(expected - 1))
      else
        Numbered(Filed(ms, Pieces(response, ms, clean), |ms|), expected)
  }

  /** What `parse_response(response, expected)` returns: its pieces are
      cleaned by `clean_translation`. */
  function Parsed(response: string, expected: nat): seq<string>
  {
    ParsedWith(response, expected, CleanTranslation)
  }

  /** `TranslationBatch.parse_response`. */
  method ParseResponse(response: string, expected: nat) returns (translations: seq<string>)
    ensures translations == Parsed(response, expected)
  {
    if response == "" {
      return Blanks(expected);
    }
    var ms := MatchesFrom(response, 0);
    if ms == [] {
      if expected == 1 {
        return [CleanTranslation(response)];
      }
      return [Strip(response)] + (if expected == 0 then [] else Blanks(expected - 1));
    }
    var result := CollectPieces(response, ms, CleanTranslation);
    translations := InOrder(result, expected);
  }

  /** The first loop of `parse_response`: clean the piece after each match
      and file it under the match's number. */
  method CollectPieces(response: string, ms: seq<Match>, clean: string -> string) returns (result: map<nat, string>)
    ensures result == Filed(ms, Pieces(response, ms, clean), |ms|)
  {
    result := map[];
    ghost var done: seq<string> := [];
    var i := 0;
    while i < |ms|
      invariant 0 <= i <= |ms| && |done| == i
      invariant forall k :: 0 <= k < i ==> done[k] == Pieces(response, ms, clean)[k]
      invariant result == Filed(ms, done, i)
    {
      var text := Strip(Segment(response, ms, i));
      result := result[ms[i].index := clean(text)];
      FiledSnoc(ms, done, clean(text), i);
      done := done + [clean(text)];
      i := i + 1;
    }
    assert done == Pieces(response, ms, clean);
  }

  /** Filing looks only at the pieces it has reached. */
  lemma {:induction false} FiledSnoc(ms: seq<Match>, ps: seq<string>, p: string, n: nat)
    requires n < |ms| && n <= |ps|
    ensures Filed(ms, ps + [p], n) == Filed(ms, ps, n)
    ensures |ps| == n ==> Filed(ms, ps + [p], n + 1) == Filed(ms, ps, n)[ms[n].index := p]
  {
    if n > 0 {
      FiledSnoc(ms, ps, p, n - 1);
    }
  }

  /** The second loop of `parse_response`: the translations numbered
      `0 .. expected - 1`, with `""` where a number is missing. */
  method InOrder(result: map<nat, string>, expected: nat) returns (translations: seq<string>)
    ensures translations == Numbered(result, expected)
  {
    translations := [];
    var i := 0;
    while i < expected
      invariant 0 <= i <= expected
      invariant |translations| == i
      invariant forall k :: 0 <= k < i ==> translations[k] == (if k in result then result[k] else "")
    {
      if i in result {
        translations := translations + [result[i]];
      } else {
        translations := translations + [""];
      }
      i := i + 1;
    }
  }

  /** However the reply looks, a batch of one or more texts gets exactly
      one translation per text; an empty reply gets only empty ones. */
  lemma ParsedLength(response: string, expected: nat)
    ensures expected >= 1 ==> |Parsed(response, expected)| == expected
    ensures expected == 0 ==> |Parsed(response, expected)| <= 1
    ensures response == "" ==> Parsed(response, expected) == Blanks(expected)
  {
  }

  /** A reply without any delimiter is taken whole: cleaned for a single
      text, otherwise stripped into the first slot with the rest empty. */
  lemma ParsedWithoutDelimiters(response: string, expected: nat)
    requires response != "" && NoDelimiter(response) && expected >= 1
    ensures Parsed(response, expected)
      == if expected == 1 then [CleanTranslation(response)] else [Strip(response)] + Blanks(expected - 1)
  {
    NoMatches(response, 0);
  }

  /** Without a delimiter in the text, the scan finds nothing. */
  lemma {:induction false} NoMatches(s: string, p: nat)
    requires p <= |s| && NoDelimiter(s)
    ensures MatchesFrom(s, p) == []
    decreases |s| - p
  {
    if p < |s| {
      assert MatchLength(s[p..]) == 0;
      NoMatches(s, p + 1);
    }
  }

  // ---------------------------------------------------------------------
  // The round trip: parsing the request text gives the texts back

  /** A scan that meets no match on `[p, q)` goes on unchanged from `q`. */
  lemma {:induction false} MatchesSkip(s: string, p: nat, q: nat)
    requires p <= q <= |s|
    requires forall r {:trigger MatchLength(s[r..])} :: p <= r < q ==> MatchLength(s[r..]) == 0
    ensures MatchesFrom(s, p) == MatchesFrom(s, q)
    decreases q - p
  {
    if p < q {
      assert MatchLength(s[p..]) == 0;
      MatchesSkip(s, p + 1, q);
    }
  }

  /** A digit run followed by a non-digit ends where the digits end. */
  lemma {:induction false} DigitRunAppend(x: string, b: string)
    requires b == [] || !IsDigit(b[0])
    ensures DigitRun(x + b) == DigitRun(x)
    decreases |x|
  {
    if x == [] {
      assert x + b == b;
    } else {
      assert (x + b)[1..] == x[1..] + b;
      DigitRunAppend(x[1..], b);
    }
  }

  /** What follows `a` cannot extend or create a match at its start when it
      begins with neither a bar nor a digit. */
  lemma MatchConfined(a: string, b: string)
    requires b == [] || (b[0] != '|' && !IsDigit(b[0]))
    ensures MatchLength(a + b) == MatchLength(a)
  {
    var s := a + b;
    if b == [] {
      assert s == a;
    } else if |a| < 3 {
      assert s[|a|] == b[0];
      if |s| >= 3 { assert s[..3][|a|] == b[0]; }
    } else {
      assert s[..3] == a[..3];
      assert s[3..] == a[3..] + b;
      DigitRunAppend(a[3..], b);
      var k := DigitRun(a[3..]);
      if k > 0 && 6 + k <= |s| && 6 + k > |a| {
        assert s[3 + k..6 + k][|a| - 3 - k] == b[0];
      }
      if 6 + k <= |a| {
        assert s[3 + k..6 + k] == a[3 + k..6 + k];
      }
    }
  }

  /** A line of the request starts with its own delimiter, and nothing
      longer matches there. */
  lemma DelimiterMatch(i: nat, rest: string)
    requires rest != [] && rest[0] == ' '
    ensures MatchLength(Delimiter(i) + rest) == |Delimiter(i)|
    ensures MatchIndex(Delimiter(i) + rest) == i
  {
    var d := NatToString(i);
    var s := Delimiter(i) + rest;
    assert s[..3] == "|||";
    assert s[3..] == d + ("|||" + rest);
    DigitRunAppend(d, "|||" + rest);
    assert DigitRun(d) == |d| by {
      assert d + [] == d;
      DigitRunAppendAll(d);
    }
    assert s[3 + |d|..6 + |d|] == "|||";
    assert s[3..3 + |d|] == d;
    NatToStringRoundTrip(i);
  }

  /** A string of digits is one digit run. */
  lemma {:induction false} DigitRunAppendAll(d: string)
    requires forall k :: 0 <= k < |d| ==> IsDigit(d[k])
    ensures DigitRun(d) == |d|
    decreases |d|
  {
    if d != [] {
      DigitRunAppendAll(d[1..]);
    }
  }

  /** Delimiter `d` opens a match numbered `k` whenever a space follows it. */
  ghost predicate Opens(d: string, k: nat)
  {
    |d| > 0 && forall rest {:trigger MatchLength(d + rest)} :: rest != [] && rest[0] == ' ' ==>
      MatchLength(d + rest) == |d| && MatchIndex(d + rest) == k
  }

  lemma DelimiterOpens(k: nat)
    ensures Opens(Delimiter(k), k)
  {
    forall rest | rest != [] && rest[0] == ' '
      ensures MatchLength(Delimiter(k) + rest) == |Delimiter(k)| && MatchIndex(Delimiter(k) + rest) == k
    {
      DelimiterMatch(k, rest);
    }
  }

  /** Delimiter `k` of `ds` opens match number `k`, one per text. */
  ghost predicate Numbering(ds: seq<string>, texts: seq<string>)
  {
    |ds| == |texts| && forall k :: 0 <= k < |ds| ==> Opens(ds[k], k)
  }

  /** The delimiters of a batched request. */
  function Delimiters(n: nat): (ds: seq<string>)
    ensures |ds| == n && forall k :: 0 <= k < n ==> ds[k] == Delimiter(k)
  {
    seq(n, k requires 0 <= k => Delimiter(k))
  }

  /** The request text from line `j` on, with delimiters `ds`. */
  function RequestFrom(ds: seq<string>, texts: seq<string>, j: nat): string
    requires |ds| == |texts| && j < |texts|
    decreases |texts| - j
  {
    ds[j] + " " + texts[j] + (if j + 1 < |texts| then "\n" + RequestFrom(ds, texts, j + 1) else "")
  }

  /** Joining the lines with newlines is the request text. */
  lemma {:induction false} JoinLines(texts: seq<string>, j: nat)
    requires j < |texts|
    ensures Join(LinesFrom(texts, j), "\n") == RequestFrom(Delimiters(|texts|), texts, j)
    decreases |texts| - j
  {
    var ls := LinesFrom(texts, j);
    assert ls[0] == Line(j, texts[j]);
    if j + 1 < |texts| {
      assert ls[1..] == LinesFrom(texts, j + 1);
      JoinLines(texts, j + 1);
    }
  }

  /** Where line `j` starts in the request text. */
  function Offset(ds: seq<string>, texts: seq<string>, j: nat): nat
    requires |ds| == |texts| && j <= |texts|
  {
    if j == 0 then 0 else Offset(ds, texts, j - 1) + |ds[j - 1]| + 1 + |texts[j - 1]| + 1
  }

  /** The matches the request text holds from line `j` on: each line's
      delimiter, at its offset, carrying its own number. */
  function LineMatches(ds: seq<string>, texts: seq<string>, j: nat): (ms: seq<Match>)
    requires |ds| == |texts| && j <= |texts|
    ensures |ms| == |texts| - j
    decreases |texts| - j
  {
    if j == |texts| then []
    else [Match(Offset(ds, texts, j), Offset(ds, texts, j) + |ds[j]|, j)] + LineMatches(ds, texts, j + 1)
  }

  lemma {:induction false} LineMatchesAt(ds: seq<string>, texts: seq<string>, j: nat, k: nat)
    requires |ds| == |texts| && j <= k < |texts|
    ensures LineMatches(ds, texts, j)[k - j] == Match(Offset(ds, texts, k), Offset(ds, texts, k) + |ds[k]|, k)
    decreases k - j
  {
    if j < k {
      LineMatchesAt(ds, texts, j + 1, k);
    }
  }

  /** No match starts inside the body `" " + t` of a line when `t` holds no
      delimiter and the line ends the text or a newline follows it. */
  lemma NoMatchInBody(s: string, o: nat, t: string, tail: string, r: nat)
    requires o + 1 + |t| <= |s| && s[o..] == " " + t + tail
    requires tail == [] || tail[0] == '\n'
    requires NoDelimiter(t) && o <= r < o + 1 + |t| + (if tail == [] then 0 else 1)
    ensures MatchLength(s[r..]) == 0
  {
    if r == o {
      assert s[r..][0] == ' ';
      if |s[r..]| >= 3 { assert s[r..][..3][0] == ' '; }
    } else if r < o + 1 + |t| {
      var x := r - o - 1;
      assert s[r..] == t[x..] + tail by {
        assert s[r..] == s[o..][r - o..];
        assert (" " + t + tail)[1 + x..] == t[x..] + tail;
      }
      MatchConfined(t[x..], tail);
    } else {
      assert s[r..] == tail by {
        assert s[r..] == s[o..][r - o..];
        assert (" " + t + tail)[1 + |t|..] == tail;
      }
      assert s[r..][0] == '\n';
      if |s[r..]| >= 3 { assert s[r..][..3][0] == '\n'; }
    }
  }

  /** One line of the request: a scan standing on its delimiter records
      that match and then finds nothing before the next line starts. */
  lemma LineStep(s: string, o: nat, t: string, tail: string, q: nat)
    requires o < |s| && MatchLength(s[o..]) > 0
    requires s[o + MatchLength(s[o..])..] == " " + t + tail && (tail == [] || tail[0] == '\n')
    requires NoDelimiter(t) && q == o + MatchLength(s[o..]) + 1 + |t| + (if tail == [] then 0 else 1)
    ensures q <= |s|
    ensures MatchesFrom(s, o) == [Match(o, o + MatchLength(s[o..]), MatchIndex(s[o..]))] + MatchesFrom(s, q)
  {
    LineSkip(s, o, t, tail, q);
    MatchesAtSkip(s, o, q);
  }

  /** No delimiter starts inside a line's body or at its newline, so the
      scan moves on to where the next line starts. */
  lemma LineSkip(s: string, o: nat, t: string, tail: string, q: nat)
    requires o < |s| && MatchLength(s[o..]) > 0
    requires s[o + MatchLength(s[o..])..] == " " + t + tail && (tail == [] || tail[0] == '\n')
    requires NoDelimiter(t) && q == o + MatchLength(s[o..]) + 1 + |t| + (if tail == [] then 0 else 1)
    ensures q <= |s| && MatchesFrom(s, q) == MatchesFrom(s, o + MatchLength(s[o..]))
  {
    var e := o + MatchLength(s[o..]);
    assert |s| == e + |s[e..]|;
    forall r | e <= r < q
      ensures MatchLength(s[r..]) == 0
    {
      NoMatchInBody(s, e, t, tail, r);
    }
    MatchesSkip(s, e, q);
  }

  /** A scan standing on a delimiter records it and goes on from its end,
      which finds what a scan from a later position `q` finds. */
  lemma MatchesAtSkip(s: string, p: nat, q: nat)
    requires p < |s| && q <= |s| && MatchLength(s[p..]) > 0
    requires MatchesFrom(s, q) == MatchesFrom(s, p + MatchLength(s[p..]))
    ensures MatchesFrom(s, p) == [Match(p, p + MatchLength(s[p..]), MatchIndex(s[p..]))] + MatchesFrom(s, q)
  {
  }

  /** What a text holds where the request from line `j` starts: the
      line's delimiter, then its body, then the newline and the request
      from the next line on, or the end. */
  lemma RequestLine(ds: seq<string>, texts: seq<string>, j: nat, s: string, o: nat)
    requires Numbering(ds, texts) && j < |texts|
    requires o <= |s| && s[o..] == RequestFrom(ds, texts, j)
    ensures var n := |ds[j]|;
      var tail := if j + 1 < |texts| then "\n" + RequestFrom(ds, texts, j + 1) else "";
      o + n <= |s| && n > 0 && MatchLength(s[o..]) == n && MatchIndex(s[o..]) == j
      && s[o + n..] == " " + texts[j] + tail
      && |s| == o + n + 1 + |texts[j]| + |tail|
  {
    var t := texts[j];
    var d := ds[j];
    var tail := if j + 1 < |texts| then "\n" + RequestFrom(ds, texts, j + 1) else "";
    assert s[o..] == d + (" " + t + tail);
    assert Opens(d, j);
    DelimiterAt(s, o, d, " " + t + tail, j);
  }

  /** A text holding an opening delimiter `d` for line `j` at offset `o`,
      followed by a space, has a match of length `|d|` and number `j` there. */
  lemma DelimiterAt(s: string, o: nat, d: string, rest: string, j: nat)
    requires o <= |s| && s[o..] == d + rest && Opens(d, j) && rest != [] && rest[0] == ' '
    ensures o + |d| <= |s| && MatchLength(s[o..]) == |d| && MatchIndex(s[o..]) == j
    ensures s[o + |d|..] == rest && |s| == o + |d| + |rest|
  {
    assert MatchLength(d + rest) == |d|;
    assert s[o + |d|..] == s[o..][|d|..];
    assert |s| == o + |s[o..]|;
  }

  /** The request from the next line on follows the current line. */
  lemma RequestNext(ds: seq<string>, texts: seq<string>, j: nat, s: string)
    requires |ds| == |texts| && j + 1 < |texts|
    requires Offset(ds, texts, j) <= |s| && s[Offset(ds, texts, j)..] == RequestFrom(ds, texts, j)
    ensures Offset(ds, texts, j + 1) <= |s|
    ensures s[Offset(ds, texts, j + 1)..] == RequestFrom(ds, texts, j + 1)
  {
    var o := Offset(ds, texts, j);
    var l := ds[j] + " " + texts[j];
    assert s[o..] == l + "\n" + RequestFrom(ds, texts, j + 1);
    assert s[o + |l| + 1..] == s[o..][|l| + 1..];
  }

  /** At line `k`'s offset the scan records the line's delimiter and next
      stops at the following line, or at the end. */
  predicate ScanStep(ds: seq<string>, texts: seq<string>, s: string, k: nat)
    requires |ds| == |texts| && k < |texts|
  {
    Offset(ds, texts, k) <= |s|
    && (k + 1 < |texts| ==> Offset(ds, texts, k + 1) <= |s|)
    && MatchesFrom(s, Offset(ds, texts, k))
       == [Match(Offset(ds, texts, k), Offset(ds, texts, k) + |ds[k]|, k)]
          + (if k + 1 < |texts| then MatchesFrom(s, Offset(ds, texts, k + 1)) else [])
  }

  lemma MatchesAtLine(ds: seq<string>, texts: seq<string>, j: nat, s: string)
    requires Numbering(ds, texts) && j < |texts| && NoDelimiter(texts[j])
    requires Offset(ds, texts, j) <= |s| && s[Offset(ds, texts, j)..] == RequestFrom(ds, texts, j)
    ensures ScanStep(ds, texts, s, j)
  {
    var o := Offset(ds, texts, j);
    RequestLine(ds, texts, j, s, o);
    if j + 1 < |texts| {
      MatchesAtInnerLine(ds, texts, j, s);
    } else {
      MatchesAtLastLine(ds, texts, j, s);
    }
  }

  /** The last line: the scan ends after it. */
  lemma MatchesAtLastLine(ds: seq<string>, texts: seq<string>, j: nat, s: string)
    requires |ds| == |texts| && j + 1 == |texts| && NoDelimiter(texts[j])
    requires var o := Offset(ds, texts, j); var n := |ds[j]|;
      o + n <= |s| && n > 0 && MatchLength(s[o..]) == n && MatchIndex(s[o..]) == j
      && s[o + n..] == " " + texts[j] + "" && |s| == o + n + 1 + |texts[j]|
    ensures MatchesFrom(s, Offset(ds, texts, j)) == [Match(Offset(ds, texts, j), Offset(ds, texts, j) + |ds[j]|, j)]
  {
    var o := Offset(ds, texts, j);
    LineStep(s, o, texts[j], "", |s|);
    assert MatchesFrom(s, |s|) == [];
  }

  /** A line followed by another: the scan moves on to the next line's
      offset. */
  lemma MatchesAtInnerLine(ds: seq<string>, texts: seq<string>, j: nat, s: string)
    requires |ds| == |texts| && j + 1 < |texts| && NoDelimiter(texts[j])
    requires var o := Offset(ds, texts, j); var n := |ds[j]|;
      o + n <= |s| && n > 0 && MatchLength(s[o..]) == n && MatchIndex(s[o..]) == j
      && s[o + n..] == " " + texts[j] + ("\n" + RequestFrom(ds, texts, j + 1))
    ensures Offset(ds, texts, j + 1) <= |s|
    ensures MatchesFrom(s, Offset(ds, texts, j))
       == [Match(Offset(ds, texts, j), Offset(ds, texts, j) + |ds[j]|, j)] + MatchesFrom(s, Offset(ds, texts, j + 1))
  {
    var o := Offset(ds, texts, j);
    var n := |ds[j]|;
    var q := Offset(ds, texts, j + 1);
    var tail := "\n" + RequestFrom(ds, texts, j + 1);
    assert q == o + n + 1 + |texts[j]| + 1;
    assert tail != [] && tail[0] == '\n';
    LineStep(s, o, texts[j], tail, q);
  }

  /** A scan whose every step from line `j` on records that line's
      delimiter finds exactly the line delimiters from `j` on. */
  lemma {:induction false} MatchesOfLines(ds: seq<string>, texts: seq<string>, j: nat, s: string)
    requires |ds| == |texts| && j < |texts|
    requires forall k :: j <= k < |texts| ==> ScanStep(ds, texts, s, k)
    ensures Offset(ds, texts, j) <= |s|
    ensures MatchesFrom(s, Offset(ds, texts, j)) == LineMatches(ds, texts, j)
    decreases |texts| - j
  {
    assert ScanStep(ds, texts, s, j);
    if j + 1 < |texts| {
      MatchesOfLines(ds, texts, j + 1, s);
    } else {
      assert LineMatches(ds, texts, j + 1) == [];
    }
  }

  /** From line `j` on, every line's offset in the text starts the request
      from that line on. */
  lemma {:induction false} RequestSuffixes(ds: seq<string>, texts: seq<string>, j: nat, s: string, k: nat)
    requires |ds| == |texts| && j <= k < |texts|
    requires Offset(ds, texts, j) <= |s| && s[Offset(ds, texts, j)..] == RequestFrom(ds, texts, j)
    ensures Offset(ds, texts, k) <= |s| && s[Offset(ds, texts, k)..] == RequestFrom(ds, texts, k)
    decreases k - j
  {
    if j < k {
      RequestNext(ds, texts, j, s);
      RequestSuffixes(ds, texts, j + 1, s, k);
    }
  }

  /** The piece after a match that stands before `" " + t + tail` and whose
      next match starts right after the line. */
  lemma SegmentAt(s: string, ms: seq<Match>, k: nat, t: string, tail: string)
    requires Ordered(s, ms, 0) && k < |ms|
    requires s[ms[k].end..] == " " + t + tail && (tail == [] || tail[0] == '\n')
    requires SegmentEnd(s, ms, k) == ms[k].end + 1 + |t| + (if tail == [] then 0 else 1)
    ensures Segment(s, ms, k) == " " + t + (if tail == [] then "" else "\n")
  {
    var e := ms[k].end;
    SegmentInBounds(s, ms, k);
    assert Segment(s, ms, k) == s[e..][..SegmentEnd(s, ms, k) - e];
  }

  /** `strip` undoes the padding a line puts around a stripped text. */
  lemma StripPadding(t: string, tail: string)
    requires IsStripped(t) && (tail == "" || tail == "\n")
    ensures Strip(" " + t + tail) == t
  {
    var cs := Whitespace;
    var s := " " + t + tail;
    assert s[1..] == t + tail;
    if t == [] {
      assert TrimLeft(tail, cs) == [];
    } else {
      StripSetSpec(t, cs);
      assert t[0] !in cs && t[|t| - 1] !in cs;
      assert TrimLeft(t, cs) == t;
      TrimLeftAppend(t, tail, cs);
      assert TrimLeft(s, cs) == t + tail;
      if tail != [] {
        assert (t + tail)[..|t + tail| - 1] == t;
      }
      assert TrimRight(t, cs) == t;
    }
  }

  /** The piece after delimiter `k` of the request is its text, padded. */
  lemma SegmentOfRequest(ds: seq<string>, texts: seq<string>, k: nat, s: string, ms: seq<Match>)
    requires Numbering(ds, texts) && k < |texts| && IsStripped(texts[k])
    requires Ordered(s, ms, 0) && |ms| == |texts|
    requires ms[k] == Match(Offset(ds, texts, k), Offset(ds, texts, k) + |ds[k]|, k)
    requires k + 1 < |ms| ==> ms[k + 1].start == Offset(ds, texts, k + 1)
    requires Offset(ds, texts, k) <= |s| && s[Offset(ds, texts, k)..] == RequestFrom(ds, texts, k)
    ensures Strip(Segment(s, ms, k)) == texts[k]
  {
    var tail := if k + 1 < |texts| then "\n" + RequestFrom(ds, texts, k + 1) else "";
    RequestLine(ds, texts, k, s, Offset(ds, texts, k));
    SegmentAt(s, ms, k, texts[k], tail);
    StripPadding(texts[k], if tail == [] then "" else "\n");
  }

  /** Each stripped piece of the request is its text again. */
  lemma PieceOfRequest(ds: seq<string>, texts: seq<string>, k: nat, s: string)
    requires Numbering(ds, texts) && k < |texts| && IsStripped(texts[k])
    requires Ordered(s, LineMatches(ds, texts, 0), 0)
    requires s == RequestFrom(ds, texts, 0)
    ensures Strip(Segment(s, LineMatches(ds, texts, 0), k)) == texts[k]
  {
    var ms := LineMatches(ds, texts, 0);
    assert s[0..] == s;
    RequestSuffixes(ds, texts, 0, s, k);
    LineMatchesAt(ds, texts, 0, k);
    if k + 1 < |texts| {
      LineMatchesAt(ds, texts, 0, k + 1);
    }
    SegmentOfRequest(ds, texts, k, s, ms);
  }

  /** Matches numbered `0, 1, ...` file each piece under its own number. */
  lemma {:induction false} FiledInOrder(ms: seq<Match>, ps: seq<string>, n: nat)
    requires n <= |ms| && n <= |ps|
    requires forall k :: 0 <= k < |ms| ==> ms[k].index == k
    ensures Filed(ms, ps, n) == map i | 0 <= i < n :: ps[i]
  {
    if n > 0 {
      FiledInOrder(ms, ps, n - 1);
    }
  }

  /** The scan of a request finds one match per line, numbered in order. */
  lemma RequestMatches(s: string, ds: seq<string>, texts: seq<string>)
    requires Numbering(ds, texts) && texts != []
    requires forall i :: 0 <= i < |texts| ==> NoDelimiter(texts[i])
    requires s == RequestFrom(ds, texts, 0)
    ensures s != "" && MatchesFrom(s, 0) == LineMatches(ds, texts, 0)
    ensures forall k :: 0 <= k < |texts| ==> LineMatches(ds, texts, 0)[k].index == k
  {
    RequestScan(s, ds, texts);
    MatchesOfLines(ds, texts, 0, s);
    LineMatchesNumbered(ds, texts);
    assert s != "" by { assert |ds[0]| > 0; }
  }

  lemma RequestScan(s: string, ds: seq<string>, texts: seq<string>)
    requires Numbering(ds, texts) && texts != []
    requires forall i :: 0 <= i < |texts| ==> NoDelimiter(texts[i])
    requires s == RequestFrom(ds, texts, 0)
    ensures forall k :: 0 <= k < |texts| ==> ScanStep(ds, texts, s, k)
  {
    assert s[0..] == s;
    forall k | 0 <= k < |texts|
      ensures ScanStep(ds, texts, s, k)
    {
      RequestSuffixes(ds, texts, 0, s, k);
      MatchesAtLine(ds, texts, k, s);
    }
  }

  lemma LineMatchesNumbered(ds: seq<string>, texts: seq<string>)
    requires |ds| == |texts|
    ensures forall k :: 0 <= k < |texts| ==> LineMatches(ds, texts, 0)[k].index == k
  {
    forall k | 0 <= k < |texts|
      ensures LineMatches(ds, texts, 0)[k].index == k
    {
      LineMatchesAt(ds, texts, 0, k);
    }
  }

  /** The stripped piece after each delimiter of a request is that line's
      text. */
  lemma RequestPieces(s: string, ds: seq<string>, texts: seq<string>)
    requires Numbering(ds, texts) && texts != []
    requires forall i :: 0 <= i < |texts| ==> IsStripped(texts[i])
    requires s == RequestFrom(ds, texts, 0)
    requires Ordered(s, LineMatches(ds, texts, 0), 0)
    ensures forall k :: 0 <= k < |texts| ==> Strip(Segment(s, LineMatches(ds, texts, 0), k)) == texts[k]
  {
    forall k | 0 <= k < |texts|
      ensures Strip(Segment(s, LineMatches(ds, texts, 0), k)) == texts[k]
    {
      PieceOfRequest(ds, texts, k, s);
    }
  }

  /** A reply whose matches are numbered `0, 1, ...`, one per text, and
      whose pieces clean to the texts parses to the texts. */
  lemma ParsedInOrder(s: string, ms: seq<Match>, texts: seq<string>, clean: string -> string)
    requires s != "" && MatchesFrom(s, 0) == ms
    requires |ms| == |texts| && texts != []
    requires forall k :: 0 <= k < |ms| ==> ms[k].index == k
    requires forall k :: 0 <= k < |ms| ==> Strip(Segment(s, ms, k)) == texts[k]
    requires forall k :: 0 <= k < |texts| ==> clean(texts[k]) == texts[k]
    ensures ParsedWith(s, |texts|, clean) == texts
  {
    var ps := Pieces(s, ms, clean);
    forall k | 0 <= k < |texts|
      ensures ps[k] == texts[k]
    {
      assert ps[k] == clean(Strip(Segment(s, ms, k)));
    }
    FiledInOrder(ms, ps, |ms|);
  }

  /** Round trip: for texts that hold no delimiter and that cleaning leaves
      as they are, parsing the batched request gives back the texts, one
      per delimiter, in order. */
  lemma ParseBatchedRoundTrip(texts: seq<string>)
    requires forall i :: 0 <= i < |texts| ==>
      NoDelimiter(texts[i]) && IsStripped(texts[i]) && CleanTranslation(texts[i]) == texts[i]
    ensures Parsed(BatchedText(texts), |texts|) == texts
  {
    if texts != [] {
      var ds := Delimiters(|texts|);
      forall k | 0 <= k < |ds|
        ensures Opens(ds[k], k)
      {
        DelimiterOpens(k);
      }
      JoinLines(texts, 0);
      var s := BatchedText(texts);
      RequestMatches(s, ds, texts);
      MatchesOrdered(s, 0);
      RequestPieces(s, ds, texts);
      ParsedInOrder(s, LineMatches(ds, texts, 0), texts, CleanTranslation);
    }
  }

  // ---------------------------------------------------------------------
  // Grouping texts into batches (`create_batches`)

  /** `len(text) + 10`: a text's share of the character budget. */
  function ItemCost(item: TextItem): nat
  {
    |item.text| + 10
  }

  function Cost(items: seq<TextItem>): nat
  {
    if items == [] then 0 else Cost(items[..|items| - 1]) + ItemCost(items[|items| - 1])
  }

  /** Adding `item` to the open batch would break a limit. */
  predicate Full(current: seq<TextItem>, chars: int, item: TextItem, maxItems: int, maxChars: int)
  {
    |current| >= maxItems || chars + ItemCost(item) > maxChars
  }

  /** The loop state of `create_batches`: finished batches, the open
      batch and its character count. */
  datatype Packing = Packing(done: seq<TranslationBatch>, current: seq<TextItem>, chars: nat)

  /** One step: close the open batch when the item does not fit and the
      batch is not empty, then add the item. */
  function Pack(p: Packing, item: TextItem, maxItems: int, maxChars: int): Packing
  {
    if Full(p.current, p.chars, item, maxItems, maxChars) && p.current != [] then
      Packing(p.done + [TranslationBatch(p.current)], [item], ItemCost(item))
    else Packing(p.done, p.current + [item], p.chars + ItemCost(item))
  }

  function PackAll(items: seq<TextItem>, maxItems: int, maxChars: int): Packing
  {
    if items == [] then Packing([], [], 0)
    else Pack(PackAll(items[..|items| - 1], maxItems, maxChars), items[|items| - 1], maxItems, maxChars)
  }

  /** The batches `create_batches` returns. */
  function Batches(items: seq<TextItem>, maxItems: int, maxChars: int): seq<TranslationBatch>
  {
    var p := PackAll(items, maxItems, maxChars);
    if p.current != [] then p.done + [TranslationBatch(p.current)] else p.done
  }

  /** `create_batches`. */
  method CreateBatches(items: seq<TextItem>, maxItems: int, maxChars: int)
    returns (batches: seq<TranslationBatch>)
    ensures batches == Batches(items, maxItems, maxChars)
  {
    batches := [];
    var current: seq<TextItem> := [];
    var currentChars: nat := 0;
    var i := 0;
    while i < |items|
      invariant 0 <= i <= |items|
      invariant Packing(batches, current, currentChars) == PackAll(items[..i], maxItems, maxChars)
    {
      assert items[..i + 1][..i] == items[..i];
      var item := items[i];
      var itemChars := |item.text| + 10;
      if |current| >= maxItems || currentChars + itemChars > maxChars {
        if current != [] {
          batches := batches + [TranslationBatch(current)];
          current := [];
          currentChars := 0;
        }
      }
      current := current + [item];
      currentChars := currentChars + itemChars;
      i := i + 1;
    }
    assert items[..i] == items;
    if current != [] {
      batches := batches + [TranslationBatch(current)];
    }
  }

  /** All items of a list of batches, in order. */
  function Flatten(bs: seq<TranslationBatch>): seq<TextItem>
  {
    if bs == [] then [] else Flatten(bs[..|bs| - 1]) + bs[|bs| - 1].items
  }

  /** A batch respects the limits: at most `maxItems` items (one when the
      limit is below one), and within the character budget unless it is a
      single text too long to share. */
  predicate Fits(xs: seq<TextItem>, maxItems: int, maxChars: int)
  {
    xs != [] && (|xs| <= maxItems || |xs| == 1) && (|xs| >= 2 ==> Cost(xs) <= maxChars)
  }

  /** Batch `b` was closed because `next` did not fit. */
  predicate ClosedFor(b: TranslationBatch, next: TextItem, maxItems: int, maxChars: int)
  {
    Full(b.items, Cost(b.items), next, maxItems, maxChars)
  }

  /** What the loop state keeps: the items so far are the finished batches
      then the open one; every finished batch fits and was closed for the
      item that opened the next one (the open one, for the last); the open
      batch fits its limits and its count is its cost. */
  ghost predicate PackingInv(p: Packing, prefix: seq<TextItem>, maxItems: int, maxChars: int)
  {
    Flatten(p.done) + p.current == prefix
    && p.chars == Cost(p.current)
    && (p.current != [] ==> Fits(p.current, maxItems, maxChars))
    && (p.done != [] ==> p.current != [])
    && (forall i :: 0 <= i < |p.done| ==> Fits(p.done[i].items, maxItems, maxChars))
    && (forall i, j :: 0 <= i < j < |p.done| && j == i + 1 ==>
          ClosedFor(p.done[i], p.done[j].items[0], maxItems, maxChars))
    && (p.done != [] ==> ClosedFor(p.done[|p.done| - 1], p.current[0], maxItems, maxChars))
  }

  lemma PackStep(p: Packing, prefix: seq<TextItem>, item: TextItem, next: seq<TextItem>, maxItems: int, maxChars: int)
    requires PackingInv(p, prefix, maxItems, maxChars) && next == prefix + [item]
    ensures PackingInv(Pack(p, item, maxItems, maxChars), next, maxItems, maxChars)
  {
    if Full(p.current, p.chars, item, maxItems, maxChars) && p.current != [] {
      PackClose(p, prefix, item, next, maxItems, maxChars);
    } else {
      PackExtend(p, prefix, item, next, maxItems, maxChars);
    }
  }

  /** The item does not fit: the open batch is closed and the item opens
      the next one. */
  lemma PackClose(p: Packing, prefix: seq<TextItem>, item: TextItem, next: seq<TextItem>, maxItems: int, maxChars: int)
    requires PackingInv(p, prefix, maxItems, maxChars) && next == prefix + [item]
    requires Full(p.current, p.chars, item, maxItems, maxChars) && p.current != []
    ensures PackingInv(Packing(p.done + [TranslationBatch(p.current)], [item], ItemCost(item)), next, maxItems, maxChars)
  {
    var b := TranslationBatch(p.current);
    var q := Packing(p.done + [b], [item], ItemCost(item));
    assert q.done[..|q.done| - 1] == p.done;
    assert Flatten(q.done) == Flatten(p.done) + p.current;
    assert Flatten(q.done) + q.current == next;
    assert Cost([item]) == ItemCost(item) by { assert [item][..0] == []; }
    forall i | 0 <= i < |q.done|
      ensures Fits(q.done[i].items, maxItems, maxChars)
    {
      if i < |p.done| {
        assert q.done[i] == p.done[i];
      }
    }
    forall i, j | 0 <= i < j < |q.done| && j == i + 1
      ensures ClosedFor(q.done[i], q.done[j].items[0], maxItems, maxChars)
    {
      assert q.done[i] == p.done[i];
      if j < |p.done| {
        assert q.done[j] == p.done[j];
      } else {
        assert q.done[j] == b;
      }
    }
    assert q.done[|q.done| - 1] == b;
  }

  /** The item fits (or the open batch is empty): it joins the open batch. */
  lemma PackExtend(p: Packing, prefix: seq<TextItem>, item: TextItem, next: seq<TextItem>, maxItems: int, maxChars: int)
    requires PackingInv(p, prefix, maxItems, maxChars) && next == prefix + [item]
    requires !(Full(p.current, p.chars, item, maxItems, maxChars) && p.current != [])
    ensures PackingInv(Packing(p.done, p.current + [item], p.chars + ItemCost(item)), next, maxItems, maxChars)
  {
    var c := p.current + [item];
    assert c[..|p.current|] == p.current;
    assert Cost(c) == Cost(p.current) + ItemCost(item);
    assert Flatten(p.done) + c == next;
    if p.current == [] {
      assert c == [item];
    } else {
      assert c[0] == p.current[0];
    }
  }

  lemma {:induction false} PackAllInv(items: seq<TextItem>, maxItems: int, maxChars: int)
    ensures PackingInv(PackAll(items, maxItems, maxChars), items, maxItems, maxChars)
  {
    if items != [] {
      var front, last := items[..|items| - 1], items[|items| - 1];
      assert front + [last] == items;
      assert PackAll(items, maxItems, maxChars) == Pack(PackAll(front, maxItems, maxChars), last, maxItems, maxChars);
      PackAllInv(front, maxItems, maxChars);
      PackStep(PackAll(front, maxItems, maxChars), front, last, items, maxItems, maxChars);
    }
  }

  /** `create_batches` partitions the items: in order, nothing lost or
      repeated, no batch empty, every batch within the limits (a text too
      long for the budget travels alone), and greedy: each batch was closed
      only because the first text of the next one would have broken a
      limit. */
  lemma BatchesPartition(items: seq<TextItem>, maxItems: int, maxChars: int)
    ensures var bs := Batches(items, maxItems, maxChars);
      Flatten(bs) == items
      && (forall i :: 0 <= i < |bs| ==> Fits(bs[i].items, maxItems, maxChars))
      && (forall i, j :: 0 <= i < j < |bs| && j == i + 1 ==> ClosedFor(bs[i], bs[j].items[0], maxItems, maxChars))
  {
    var p := PackAll(items, maxItems, maxChars);
    PackAllInv(items, maxItems, maxChars);
    var bs := Batches(items, maxItems, maxChars);
    if p.current != [] {
      var last := TranslationBatch(p.current);
      assert bs == p.done + [last];
      assert bs[..|bs| - 1] == p.done;
      forall i | 0 <= i < |bs|
        ensures Fits(bs[i].items, maxItems, maxChars)
      {
        if i < |p.done| {
          assert bs[i] == p.done[i];
        }
      }
      forall i, j | 0 <= i < j < |bs| && j == i + 1
        ensures ClosedFor(bs[i], bs[j].items[0], maxItems, maxChars)
      {
        assert bs[i] == p.done[i];
        if j < |p.done| {
          assert bs[j] == p.done[j];
        } else {
          assert bs[j] == last;
        }
      }
    } else {
      assert p.done == [];
    }
  }
}
