/** The list builder: bullet and numbered lists become list paragraphs, and
    every numbered list gets its own numbering definition in the sense of
    WordprocessingML (ECMA-376 Part 1, section 17.9): an abstract numbering
    with nine levels and a numbering instance that refers to it. */
module ListBuilder {
  import opened Wrappers
  import opened Text
  import opened PyValue
  import opened Output
  import PyInt
  import opened Seqs

  /** Levels 0 to 8. */
  const MaxNestingLevel: nat := 9

  /** `Inches(0.25)` in twips: the indent per level and the hanging indent. */
  const IndentPerLevel: int := 360
  const HangingIndent: int := 360

  /** The default run size, in points. */
  const DefaultSize: int := 11

  function Min(a: int, b: int): int { if a <= b then a else b }

  // ---------------------------------------------------------------------
  // Items

  /** An `InlineFormatting` as given: each field holds whatever value the
      item's dict carried (`None` when absent). */
  datatype InlineFormatting = InlineFormatting(
    bold: Value, italic: Value, underline: Value, strike: Value,
    superscript: Value, subscript: Value, fontName: Value, fontSize: Value)

  const FormattingKeys: set<string> :=
    {"bold", "italic", "underline", "strike", "superscript", "subscript", "font_name", "font_size"}

  /** A `TextRun`: its text is whatever value was given. */
  datatype TextRun = TextRun(text: Value, formatting: Option<InlineFormatting>)

  /** A `ListItem`'s content: a string, a list of runs, or (from a dict)
      some other value. */
  datatype ItemContent = TextContent(s: string) | RunsContent(runs: seq<TextRun>) | OtherContent(v: Value)

  datatype ListItem = ListItem(content: ItemContent, level: int,
                               formatting: Option<InlineFormatting>, runs: seq<TextRun>)

  /** What a list receives: a `ListItem` object or a JSON-shaped value. */
  datatype ListInput = ItemObject(item: ListItem) | ItemValue(v: Value)

  /** `InlineFormatting(**d)`: `None` (a `TypeError`) for a key that is not
      one of the eight fields. */
  function FormattingOf(d: map<string, Value>): (r: Option<InlineFormatting>)
    ensures r.Some? <==> d.Keys <= FormattingKeys
    ensures r.Some? ==> r.value.bold == Get(d, "bold", VNone) && r.value.fontSize == Get(d, "font_size", VNone)
  {
    if d.Keys <= FormattingKeys then
      Some(InlineFormatting(Get(d, "bold", VNone), Get(d, "italic", VNone), Get(d, "underline", VNone),
                            Get(d, "strike", VNone), Get(d, "superscript", VNone), Get(d, "subscript", VNone),
                            Get(d, "font_name", VNone), Get(d, "font_size", VNone)))
    else None
  }

  /** The `formatting` entry of an item or run dict: absent or falsy means
      none, a dict is unpacked into `InlineFormatting`, any other truthy
      value is ignored. The outer `None` is a `TypeError`. */
  function FormattingEntry(d: map<string, Value>): Option<Option<InlineFormatting>>
  {
    if "formatting" in d && Truthy(d["formatting"]) then
      match d["formatting"]
      case VDict(f) => (match FormattingOf(f) case Some(fm) => Some(Some(fm)) case None => None)
      case _ => Some(None)
    else Some(None)
  }

  /** The runs collected from the elements of an item's `runs` list: each
      dict becomes a run of its `text` (default "") and formatting; other
      elements are skipped. */
  function RunList(xs: seq<Value>): (r: Option<seq<TextRun>>)
    ensures r.Some? ==> |r.value| <= |xs|
  {
    if xs == [] then Some([])
    else
      match RunList(xs[..|xs| - 1])
      case None => None
      case Some(rs) =>
        match xs[|xs| - 1]
        case VDict(d) =>
          (match FormattingEntry(d)
           case None => None
           case Some(f) => Some(rs + [TextRun(Get(d, "text", VStr("")), f)]))
        case _ => Some(rs)
  }

  /** Iterating an item's `runs` value: a list yields its elements, a dict
      its keys and a string its characters (all skipped, being strings);
      anything else is not iterable. */
  function RunsEntry(v: Value): Option<seq<TextRun>>
  {
    match v
    case VList(xs) => RunList(xs)
    case VDict(_) => Some([])
    case VStr(_) => Some([])
    case _ => None
  }

  /** `min(level, 8)` on the item's `level`: an integer is capped, anything
      else fails. */
  function LevelEntry(v: Value): (r: Option<int>)
    ensures v.VInt? <==> r.Some?
    ensures r.Some? ==> r.value <= MaxNestingLevel - 1 && (v.i <= 8 ==> r.value == v.i)
  {
    if v.VInt? then Some(Min(v.i, MaxNestingLevel - 1)) else None
  }

  /** `_parse_item`: `None` where Python raises `TypeError`. */
  function ParseItem(x: ListInput): (r: Option<ListItem>)
    ensures x.ItemObject? ==> r == Some(x.item)
    ensures x.ItemValue? && x.v.VStr? ==> r == Some(ListItem(TextContent(x.v.s), 0, None, []))
    ensures x.ItemValue? && x.v.VDict? && r.Some? ==> r.value.level <= MaxNestingLevel - 1
    ensures x.ItemValue? && !x.v.VDict? ==> r.Some? && r.value.runs == []
  {
    match x
    case ItemObject(item) => Some(item)
    case ItemValue(v) =>
      match v
      case VStr(s) => Some(ListItem(TextContent(s), 0, None, []))
      case VDict(d) =>
        var c := Get(d, "content", VStr(""));
        var content := if c.VStr? then TextContent(c.s) else OtherContent(c);
        var level := LevelEntry(Get(d, "level", VInt(0)));
        var formatting := FormattingEntry(d);
        var runs := if "runs" in d then RunsEntry(d["runs"]) else Some([]);
        if level.Some? && formatting.Some? && runs.Some? then
          Some(ListItem(content, level.value, formatting.value, runs.value))
        else None
      case _ => Some(ListItem(TextContent(Str(v)), 0, None, []))
  }

  /** `get_text_runs`: the item's runs when there are any, otherwise its
      content, a string becoming one run with the item's formatting.
      Iterating any other content succeeds only when it is empty. */
  function GetTextRuns(item: ListItem): (r: Option<seq<TextRun>>)
    ensures item.runs != [] ==> r == Some(item.runs)
    ensures item.runs == [] && item.content.TextContent? ==>
      r == Some([TextRun(VStr(item.content.s), item.formatting)])
  {
    if item.runs != [] then Some(item.runs)
    else
      match item.content
      case TextContent(s) => Some([TextRun(VStr(s), item.formatting)])
      case RunsContent(rs) => Some(rs)
      case OtherContent(v) =>
        if v == VList([]) || v == VDict(map[]) || v == VStr("") then Some([]) else None
  }

  // ---------------------------------------------------------------------
  // Runs

  /** `para.add_run(text)`: a falsy value adds an empty run, a string its
      text, and anything else raises. */
  function RunText(v: Value): Option<string>
  {
    if !Truthy(v) then Some("") else if v.VStr? then Some(v.s) else None
  }

  /** A run flag may be `None` (not set) or a boolean. */
  function Flag(v: Value): Option<Option<bool>>
  {
    match v
    case VNone => Some(None)
    case VBool(b) => Some(Some(b))
    case _ => None
  }

  /** `font_size`: `None` keeps the default 11pt; a number is the size. */
  function FontSize(v: Value): Option<int>
  {
    match v
    case VNone => Some(DefaultSize)
    case VInt(i) => Some(i)
    case VBool(b) => Some(if b then 1 else 0)
    case _ => None
  }

  /** A formatting whose every field `_apply_run_formatting` accepts. */
  predicate Applicable(f: InlineFormatting)
  {
    Flag(f.bold).Some? && Flag(f.italic).Some? && Flag(f.underline).Some?
    && Flag(f.strike).Some? && Flag(f.superscript).Some? && Flag(f.subscript).Some?
    && (f.fontName.VNone? || f.fontName.VStr?) && FontSize(f.fontSize).Some?
  }

  /** A text run as added to the paragraph and formatted: without
      formatting only the 11pt size is set; with formatting each flag that
      is not `None` is set, and the size is the given one or 11pt. */
  function RenderRun(tr: TextRun): (r: Option<Run>)
    ensures r.Some? <==> RunText(tr.text).Some? && (tr.formatting.Some? ==> Applicable(tr.formatting.value))
    ensures r.Some? ==> r.value.text == RunText(tr.text).value
    ensures r.Some? && tr.formatting == None ==> r.value == Run(r.value.text, None, None, None, Some(DefaultSize))
  {
    match RunText(tr.text)
    case None => None
    case Some(t) =>
      match tr.formatting
      case None => Some(Run(t, None, None, None, Some(DefaultSize)))
      case Some(f) =>
        if Applicable(f) then
          Some(Run(t, Flag(f.bold).value, Flag(f.italic).value, Flag(f.underline).value,
                   Some(FontSize(f.fontSize).value)))
        else None
  }

  /** Each text run rendered on its own. */
  function RenderedRuns(trs: seq<TextRun>): (os: seq<Option<Run>>)
    ensures |os| == |trs| && forall i :: 0 <= i < |trs| ==> os[i] == RenderRun(trs[i])
  {
    seq(|trs|, i requires 0 <= i < |trs| => RenderRun(trs[i]))
  }

  /** The runs of a paragraph, or `None` when one of them raises. */
  function RenderRuns(trs: seq<TextRun>): Option<seq<Run>>
  {
    Sequence(RenderedRuns(trs))
  }

  /** The runs of an item's content, or `None` where rendering raises. */
  function ItemRuns(item: ListItem): Option<seq<Run>>
  {
    match GetTextRuns(item)
    case None => None
    case Some(trs) => RenderRuns(trs)
  }

  /** A string item renders as one run holding exactly its text. */
  lemma TextItemRuns(s: string, level: int)
    ensures ItemRuns(ListItem(TextContent(s), level, None, [])) == Some([Run(s, None, None, None, Some(DefaultSize))])
  {
    var trs := [TextRun(VStr(s), None)];
    var os := RenderedRuns(trs);
    assert RunText(VStr(s)) == Some(s);
    assert os[0] == Some(Run(s, None, None, None, Some(DefaultSize)));
    assert os[..0] == [];
    SequenceSnoc(os, 0, []);
    assert os[..1] == os;
    var x := Run(s, None, None, None, Some(DefaultSize));
    assert [] + [x] == [x];
    assert Sequence(os) == Some([x]);
    assert GetTextRuns(ListItem(TextContent(s), level, None, [])) == Some(trs);
    assert RenderRuns(trs) == Some([Run(s, None, None, None, Some(DefaultSize))]);
  }

  // ---------------------------------------------------------------------
  // Style names, glyphs and level patterns

  const BulletPrefix: string := "ListBulletLevel"
  const NumberPrefix: string := "ListNumberLevel"

  /** `_get_style_name`: the level is capped at 8 (and not raised). */
  function StyleName(listType: string, level: int): string
  {
    (if listType == "bullet" then BulletPrefix else NumberPrefix) + IntToString(Min(level, MaxNestingLevel - 1))
  }

  /** The names `_ensure_list_styles` creates: nine bullet levels, then nine
      number levels. */
  function ListStyleNames(): (names: seq<string>)
    ensures |names| == 2 * MaxNestingLevel
  {
    seq(MaxNestingLevel, i requires 0 <= i => BulletPrefix + NatToString(i))
    + seq(MaxNestingLevel, i requires 0 <= i => NumberPrefix + NatToString(i))
  }

  /** For every level that is not negative, the style name is one that the
      builder creates: the bullet names at their capped level, the number
      names nine places further on. */
  lemma StyleNameCreated(listType: string, level: int)
    requires level >= 0
    ensures var k := Min(level, MaxNestingLevel - 1);
      StyleName(listType, level) == ListStyleNames()[if listType == "bullet" then k else MaxNestingLevel + k]
  {
    var k := Min(level, MaxNestingLevel - 1);
    assert IntToString(k) == NatToString(k);
  }

  /** Levels beyond 8 share the level-8 style. */
  lemma StyleNameCapped(listType: string, level: int)
    requires level >= MaxNestingLevel - 1
    ensures StyleName(listType, level) == StyleName(listType, MaxNestingLevel - 1)
  {
  }

  /** Bullet glyphs: filled circle, hollow circle, small square, three times. */
  const BulletChars: seq<char> := [
    '•', '◦', '▪', '•', '◦', '▪', '•', '◦', '▪']

  /** `BULLET_CHARS[level % len(BULLET_CHARS)]`; Python's `%` and Dafny's
      agree here because the divisor is positive. */
  function BulletGlyph(level: int): (c: char)
    ensures c in {'•', '◦', '▪'}
  {
    BulletChars[level % |BulletChars|]
  }

  /** The glyph depends only on the level modulo 3. */
  lemma BulletGlyphPeriod(level: int)
    ensures BulletGlyph(level) == BulletChars[level % 3]
    ensures BulletGlyph(level + 3) == BulletGlyph(level)
  {
    var q := level / 9;
    var r := level % 9;
    assert level == 9 * q + r;
    assert level == 3 * (3 * q) + r;
    assert level % 3 == r % 3;
    assert (level + 3) % 9 == (r + 3) % 9 by {
      assert level + 3 == 9 * q + (r + 3);
    }
  }

  /** `NUMBERING_FORMATS.get(style)` after an unknown style became
      "decimal". */
  function NumberingFormat(style: string): (f: string)
    ensures style !in {"decimal", "roman_upper", "roman_lower", "letter_upper", "letter_lower", "bullet"} ==>
      f == "decimal"
  {
    if style == "roman_upper" then "upperRoman"
    else if style == "roman_lower" then "lowerRoman"
    else if style == "letter_upper" then "upperLetter"
    else if style == "letter_lower" then "lowerLetter"
    else if style == "bullet" then "bullet"
    else "decimal"
  }

  /** `_get_level_text_pattern`: `%n)` for letters, `%n.` otherwise, with
      `n = level + 1`. */
  function LevelText(level: int, numFmt: string): string
  {
    "%" + IntToString(level + 1) + (if numFmt in {"upperLetter", "lowerLetter"} then ")" else ".")
  }

  /** The pattern refers to its own level: the number between `%` and the
      closing mark reads back as `level + 1`, and the mark is `)` exactly
      for the letter formats. */
  lemma LevelTextRefersToLevel(level: int, numFmt: string)
    ensures var t := LevelText(level, numFmt);
      |t| >= 3 && t[0] == '%'
      && PyInt.ParseInt(t[1..|t| - 1], 10) == Some(level + 1)
      && (t[|t| - 1] == ')' <==> numFmt in {"upperLetter", "lowerLetter"})
  {
    var t := LevelText(level, numFmt);
    var n := IntToString(level + 1);
    assert t[1..|t| - 1] == n;
    PyInt.ParseIntOfIntToString(level + 1);
  }

  /** A `w:lvl` of level `level`: the start number only at level 0, the
      pattern, left justification, and the indents. */
  function LevelDefinition(level: nat, numFmt: string, startNumber: int): LevelDef
  {
    LevelDef(level, if level == 0 then startNumber else 1, numFmt, LevelText(level, numFmt), "left",
             IndentPerLevel * (level + 1), HangingIndent)
  }

  // ---------------------------------------------------------------------
  // Paragraphs

  /** The indent of a list paragraph at a level. */
  function ListIndent(level: int): Indent
  {
    Indent(IndentPerLevel * (level + 1), -HangingIndent)
  }

  /** `_add_list_item`: the style when the registry has it, the indent,
      0pt before and 3pt after, the glyph run and the content runs. */
  function BulletParagraph(styles: map<string, StyleRecord>, item: ListItem): (e: Option<Element>)
    ensures e.Some? <==> ItemRuns(item).Some?
    ensures e.Some? ==>
      && e.value.Para? && e.value.numbering == None
      && e.value.runs == [Run([BulletGlyph(item.level), '\t'], None, None, None, Some(DefaultSize))] + ItemRuns(item).value
      && e.value.indent == Some(ListIndent(item.level))
      && (e.value.style.Some? <==> StyleName("bullet", item.level) in styles)
  {
    match ItemRuns(item)
    case None => None
    case Some(runs) =>
      var name := StyleName("bullet", item.level);
      Some(Para([Run([BulletGlyph(item.level), '\t'], None, None, None, Some(DefaultSize))] + runs,
                if name in styles then Some(name) else None, None, Some(0), Some(3),
                Some(ListIndent(item.level)), None))
  }

  /** `_add_numbered_item`: numbering at the item's level, the indent, the
      spacing and the content runs; no style and no glyph. */
  function NumberedParagraph(item: ListItem, numId: nat): (e: Option<Element>)
    ensures e.Some? <==> ItemRuns(item).Some?
    ensures e.Some? ==>
      && e.value.Para? && e.value.style == None
      && e.value.runs == ItemRuns(item).value
      && e.value.numbering == Some(NumberingRef(numId, item.level))
      && e.value.indent == Some(ListIndent(item.level))
  {
    match ItemRuns(item)
    case None => None
    case Some(runs) =>
      Some(Para(runs, None, None, Some(0), Some(3), Some(ListIndent(item.level)), Some(NumberingRef(numId, item.level))))
  }

  /** Which kind of list an item goes into. */
  datatype ListKind = BulletKind(styles: map<string, StyleRecord>) | NumberedKind(numId: nat)

  function ItemParagraph(k: ListKind, x: ListInput): Option<Element>
  {
    match ParseItem(x)
    case None => None
    case Some(item) =>
      match k
      case BulletKind(styles) => BulletParagraph(styles, item)
      case NumberedKind(numId) => NumberedParagraph(item, numId)
  }

  /** Each item of a list rendered on its own. */
  function ItemParagraphs(k: ListKind, xs: seq<ListInput>): (os: seq<Option<Element>>)
    ensures |os| == |xs| && forall i :: 0 <= i < |xs| ==> os[i] == ItemParagraph(k, xs[i])
  {
    seq(|xs|, i requires 0 <= i < |xs| => ItemParagraph(k, xs[i]))
  }

  /** The paragraphs of a list, or `None` when some item raises. */
  function ListParagraphs(k: ListKind, xs: seq<ListInput>): Option<seq<Element>>
  {
    Sequence(ItemParagraphs(k, xs))
  }

  /** A list renders when every item does, as one paragraph per item in
      order. */
  lemma ListParagraphsSpec(k: ListKind, xs: seq<ListInput>)
    ensures ListParagraphs(k, xs).Some? <==> forall i :: 0 <= i < |xs| ==> ItemParagraph(k, xs[i]).Some?
    ensures ListParagraphs(k, xs).Some? ==>
      |ListParagraphs(k, xs).value| == |xs|
      && forall i :: 0 <= i < |xs| ==> ListParagraphs(k, xs).value[i] == ItemParagraph(k, xs[i]).value
  {
    SequenceSpec(ItemParagraphs(k, xs));
  }

  /** A list of strings always renders, each string as its own paragraph
      whose text runs hold exactly that string. */
  lemma StringItemsRender(k: ListKind, ss: seq<string>, xs: seq<ListInput>)
    requires |xs| == |ss| && forall i :: 0 <= i < |ss| ==> xs[i] == ItemValue(VStr(ss[i]))
    ensures ListParagraphs(k, xs).Some?
    ensures forall i :: 0 <= i < |ss| ==>
      ListParagraphs(k, xs).value[i].Para? && RunsText(ContentRuns(k, ListParagraphs(k, xs).value[i].runs)) == ss[i]
  {
    forall i | 0 <= i < |ss|
      ensures ItemParagraph(k, xs[i]).Some?
      ensures RunsText(ContentRuns(k, ItemParagraph(k, xs[i]).value.runs)) == ss[i]
    {
      TextItemRuns(ss[i], 0);
      var runs := [Run(ss[i], None, None, None, Some(DefaultSize))];
      assert RunsText(runs) == ss[i] + RunsText([]);
    }
    ListParagraphsSpec(k, xs);
  }

  /** The content runs of a list paragraph: a bullet paragraph's first run
      is the glyph. */
  function ContentRuns(k: ListKind, runs: seq<Run>): seq<Run>
  {
    if k.BulletKind? && runs != [] then runs[1..] else runs
  }

  // ---------------------------------------------------------------------
  // Styles the builder creates

  /** The record `_ensure_list_styles` creates for a list style of a given
      level. When the registry has no "Normal" style, setting the base
      style raises after the style was added, so the style stays as
      `add_style` made it. */
  function ListStyleRecord(level: nat, hasNormal: bool): StyleRecord
  {
    if hasNormal then
      StyleRecord(ParagraphStyle, None, Some(DefaultSize), None, None, None, None, Some(0), Some(3),
                  Some(ListIndent(level)), Some("Normal"))
    else NewParagraphStyle
  }

  /** The level a list style name ends in: its position among the nine. */
  function NameLevel(j: nat): nat { j % MaxNestingLevel }

  /** The registry after the names `names[..n]` (positions `j < n` of
      `ListStyleNames`) were ensured. */
  function WithListStyles(styles: map<string, StyleRecord>, n: nat): map<string, StyleRecord>
    requires n <= 2 * MaxNestingLevel
  {
    if n == 0 then styles
    else
      var prev := WithListStyles(styles, n - 1);
      var name := ListStyleNames()[n - 1];
      if name in prev then prev else prev[name := ListStyleRecord(NameLevel(n - 1), "Normal" in prev)]
  }

  /** Ensuring the list styles keeps every style that was already there. */
  lemma {:induction false} WithListStylesKeeps(styles: map<string, StyleRecord>, n: nat, name: string)
    requires n <= 2 * MaxNestingLevel && name in styles
    ensures name in WithListStyles(styles, n) && WithListStyles(styles, n)[name] == styles[name]
  {
    if n > 0 {
      WithListStylesKeeps(styles, n - 1, name);
    }
  }

  /** Ensuring the list styles adds every one of them. */
  lemma {:induction false} WithListStylesAdds(styles: map<string, StyleRecord>, n: nat, j: nat)
    requires j < n <= 2 * MaxNestingLevel
    ensures ListStyleNames()[j] in WithListStyles(styles, n)
  {
    if j < n - 1 {
      WithListStylesAdds(styles, n - 1, j);
    }
  }

  /** A style that was not there before is a list style, with the record
      of its level. */
  lemma {:induction false} WithListStylesNew(styles: map<string, StyleRecord>, n: nat, name: string)
    requires n <= 2 * MaxNestingLevel && name in WithListStyles(styles, n) && name !in styles
    ensures exists j ::
      && 0 <= j < n && name == ListStyleNames()[j]
      && WithListStyles(styles, n)[name] == ListStyleRecord(NameLevel(j), "Normal" in styles)
  {
    var prev := WithListStyles(styles, n - 1);
    assert "Normal" in prev <==> "Normal" in styles by {
      if "Normal" in styles {
        WithListStylesKeeps(styles, n - 1, "Normal");
      } else if "Normal" in prev {
        WithListStylesNew(styles, n - 1, "Normal");
        NormalIsNotAListStyle(n - 1);
      }
    }
    if name in prev {
      WithListStylesNew(styles, n - 1, name);
    }
  }

  /** None of the list style names is "Normal". */
  lemma NormalIsNotAListStyle(n: nat)
    requires n <= 2 * MaxNestingLevel
    ensures forall j :: 0 <= j < n ==> ListStyleNames()[j] != "Normal"
  {
    forall j | 0 <= j < n
      ensures ListStyleNames()[j] != "Normal"
    {
      assert ListStyleNames()[j][0] == 'L';
    }
  }

  // ---------------------------------------------------------------------
  // The builder

  /** The outcome of `add_list`: done, a list that raised part-way, or the
      `ValueError` of an unknown list type. */
  datatype AddOutcome = Added | Raised | UnknownListType

  /** A list block as `add_list` reads it: `type`, `list_style`, `items`
      and `start_number`. */
  datatype ListBlock = ListBlock(blockType: string, listStyle: string, items: seq<ListInput>, startNumber: int)

  class ListBuilder {
    const doc: Document
    /** `_numbering_instance_counter`: the id of the last numbering made. */
    var counter: nat

    /** `ListBuilder(doc)`: the counter starts at 0 and the eighteen list
        styles are ensured. */
    constructor (d: Document)
      modifies d
      ensures doc == d && counter == 0
      ensures d.styles == WithListStyles(old(d.styles), 2 * MaxNestingLevel)
      ensures d.body == old(d.body) && d.sections == old(d.sections)
      ensures d.abstractNums == old(d.abstractNums) && d.nums == old(d.nums)
    {
      doc := d;
      counter := 0;
      new;
      EnsureListStyles(d);
    }

    /** `_add_list_item`: the paragraph is added first and then its runs,
        so a run that raises leaves a partial paragraph behind. */
    method AddListItem(item: ListItem) returns (ok: bool)
      modifies doc
      ensures ok <==> BulletParagraph(doc.styles, item).Some?
      ensures ok ==> doc.body == old(doc.body) + [BulletParagraph(doc.styles, item).value]
      ensures !ok ==> old(doc.body) <= doc.body
      ensures SettingsUnchanged(doc)
    {
      var runs := AddContentRuns(item);
      ok := runs.Some?;
      if ok {
        var name := StyleName("bullet", item.level);
        doc.Add(Para([Run([BulletGlyph(item.level), '\t'], None, None, None, Some(DefaultSize))] + runs.value,
                     if name in doc.styles then Some(name) else None, None, Some(0), Some(3),
                     Some(ListIndent(item.level)), None));
      } else {
        doc.Add(SimplePara([]));
      }
    }

    /** `_add_numbered_item`. */
    method AddNumberedItem(item: ListItem, numId: nat) returns (ok: bool)
      modifies doc
      ensures ok <==> NumberedParagraph(item, numId).Some?
      ensures ok ==> doc.body == old(doc.body) + [NumberedParagraph(item, numId).value]
      ensures !ok ==> old(doc.body) <= doc.body
      ensures SettingsUnchanged(doc)
    {
      var runs := AddContentRuns(item);
      ok := runs.Some?;
      if ok {
        doc.Add(Para(runs.value, None, None, Some(0), Some(3), Some(ListIndent(item.level)),
                     Some(NumberingRef(numId, item.level))));
      } else {
        doc.Add(SimplePara([]));
      }
    }

    /** `add_bullet_list`: parse and add each item in turn. */
    method AddBulletList(items: seq<ListInput>) returns (ok: bool)
      modifies doc
      ensures ok <==> ListParagraphs(BulletKind(doc.styles), items).Some?
      ensures ok ==> doc.body == old(doc.body) + ListParagraphs(BulletKind(doc.styles), items).value
      ensures !ok ==> old(doc.body) <= doc.body
      ensures SettingsUnchanged(doc)
    {
      ok := AddItems(BulletKind(doc.styles), items);
    }

    /** `add_numbered_list`: an unknown style becomes "decimal", a new
        numbering definition is made, then each item is added at it. The
        numbering exists even when an item raises afterwards. */
    method AddNumberedList(items: seq<ListInput>, style: string, startNumber: int) returns (ok: bool)
      modifies this, doc
      ensures counter == old(counter) + 1
      ensures doc.abstractNums == old(doc.abstractNums) + [AbstractNumbering(counter, NumberingFormat(style), startNumber)]
      ensures doc.nums == old(doc.nums) + [NumInstance(counter, counter)]
      ensures ok <==> ListParagraphs(NumberedKind(counter), items).Some?
      ensures ok ==> doc.body == old(doc.body) + ListParagraphs(NumberedKind(counter), items).value
      ensures !ok ==> old(doc.body) <= doc.body
      ensures doc.styles == old(doc.styles) && doc.sections == old(doc.sections)
    {
      var numId := CreateNumberingDefinition(NumberingFormat(style), startNumber);
      ok := AddItems(NumberedKind(numId), items);
    }

    /** The item loop shared by both lists: parse and add each item in
        turn, stopping at the first that raises. */
    method AddItems(k: ListKind, items: seq<ListInput>) returns (ok: bool)
      requires k.BulletKind? ==> k.styles == doc.styles
      modifies doc
      ensures ok <==> ListParagraphs(k, items).Some?
      ensures ok ==> doc.body == old(doc.body) + ListParagraphs(k, items).value
      ensures !ok ==> old(doc.body) <= doc.body
      ensures SettingsUnchanged(doc)
    {
      ghost var os := ItemParagraphs(k, items);
      var i := 0;
      ok := true;
      assert items[..0] == [];
      while i < |items|
        invariant 0 <= i <= |items|
        invariant Sequence(os[..i]).Some?
        invariant doc.body == old(doc.body) + Sequence(os[..i]).value
        invariant SettingsUnchanged(doc)
      {
        ghost var done := Sequence(os[..i]).value;
        var added := AddItem(k, items[i]);
        if !added {
          SequenceFailure(os, i);
          return false;
        }
        SequenceSnoc(os, i, done);
        Assoc3(old(doc.body), done, [os[i].value]);
        i := i + 1;
      }
      assert os[..i] == os;
    }

    /** One item of either list: parsed, then added as a bullet or a
        numbered paragraph. */
    method AddItem(k: ListKind, x: ListInput) returns (ok: bool)
      requires k.BulletKind? ==> k.styles == doc.styles
      modifies doc
      ensures ok <==> ItemParagraph(k, x).Some?
      ensures ok ==> doc.body == old(doc.body) + [ItemParagraph(k, x).value]
      ensures !ok ==> old(doc.body) <= doc.body
      ensures SettingsUnchanged(doc)
    {
      var item := ParseItem(x);
      if item.None? {
        return false;
      }
      match k
      case BulletKind(_) =>
        ok := AddListItem(item.value);
      case NumberedKind(numId) =>
        ok := AddNumberedItem(item.value, numId);
    }

    /** `_create_numbering_definition`: the counter goes up by one and the
        new value is both the abstract numbering's id and the instance's. */
    method CreateNumberingDefinition(numFmt: string, startNumber: int) returns (numId: nat)
      modifies this, doc
      ensures counter == old(counter) + 1 && numId == counter
      ensures doc.abstractNums == old(doc.abstractNums) + [AbstractNumbering(numId, numFmt, startNumber)]
      ensures doc.nums == old(doc.nums) + [NumInstance(numId, numId)]
      ensures doc.body == old(doc.body) && doc.styles == old(doc.styles) && doc.sections == old(doc.sections)
    {
      counter := counter + 1;
      numId := counter;
      var a := CreateAbstractNumbering(numId, numFmt, startNumber);
      doc.abstractNums := doc.abstractNums + [a];
      doc.nums := doc.nums + [NumInstance(numId, numId)];
    }

    /** `add_list`: a bullet list, a numbered list in the block's style, or
        the `ValueError` of an unknown type, which changes nothing. */
    method AddList(block: ListBlock) returns (outcome: AddOutcome)
      modifies this, doc
      ensures block.blockType == "bullet_list" ==>
        counter == old(counter)
        && (outcome == Added <==> ListParagraphs(BulletKind(old(doc.styles)), block.items).Some?)
      ensures block.blockType == "numbered_list" ==>
        counter == old(counter) + 1
        && (outcome == Added <==> ListParagraphs(NumberedKind(counter), block.items).Some?)
      ensures outcome == UnknownListType <==> block.blockType !in {"bullet_list", "numbered_list"}
      ensures outcome == UnknownListType ==>
        counter == old(counter) && doc.body == old(doc.body) && doc.abstractNums == old(doc.abstractNums)
        && doc.nums == old(doc.nums)
      ensures doc.styles == old(doc.styles) && doc.sections == old(doc.sections)
    {
      if block.blockType == "bullet_list" {
        var ok := AddBulletList(block.items);
        outcome := if ok then Added else Raised;
      } else if block.blockType == "numbered_list" {
        var ok := AddNumberedList(block.items, block.listStyle, block.startNumber);
        outcome := if ok then Added else Raised;
      } else {
        outcome := UnknownListType;
      }
    }
  }

  /** The `w:abstractNum` of a numbered list. */
  function AbstractNumbering(id: nat, numFmt: string, startNumber: int): AbstractNum
  {
    AbstractNum(id, "hybridMultilevel", seq(MaxNestingLevel, l requires 0 <= l => LevelDefinition(l, numFmt, startNumber)))
  }

  /** `_create_abstract_numbering`: nine levels, 0 to 8, made in a loop. */
  method CreateAbstractNumbering(id: nat, numFmt: string, startNumber: int) returns (a: AbstractNum)
    ensures a == AbstractNumbering(id, numFmt, startNumber)
    ensures a.abstractNumId == id && a.multiLevelType == "hybridMultilevel" && |a.levels| == MaxNestingLevel
    ensures forall l :: 0 <= l < |a.levels| ==>
      a.levels[l].ilvl == l && a.levels[l].start == (if l == 0 then startNumber else 1)
      && a.levels[l].numFmt == numFmt && a.levels[l].lvlText == LevelText(l, numFmt)
      && a.levels[l].left == IndentPerLevel * (l + 1) && a.levels[l].hanging == HangingIndent
  {
    var levels: seq<LevelDef> := [];
    var l := 0;
    while l < MaxNestingLevel
      invariant 0 <= l <= MaxNestingLevel
      invariant |levels| == l
      invariant forall j :: 0 <= j < l ==> levels[j] == LevelDefinition(j, numFmt, startNumber)
    {
      levels := levels + [LevelDefinition(l, numFmt, startNumber)];
      l := l + 1;
    }
    a := AbstractNum(id, "hybridMultilevel", levels);
  }

  /** The content runs of an item, rendered one text run at a time. */
  method AddContentRuns(item: ListItem) returns (runs: Option<seq<Run>>)
    ensures runs == ItemRuns(item)
  {
    var trs := GetTextRuns(item);
    if trs.None? {
      return None;
    }
    var ts := trs.value;
    ghost var os := RenderedRuns(ts);
    var acc: seq<Run> := [];
    var i := 0;
    assert os[..0] == [];
    while i < |ts|
      invariant 0 <= i <= |ts|
      invariant Sequence(os[..i]) == Some(acc)
    {
      var r := RenderRun(ts[i]);
      if r.None? {
        SequenceFailure(os, i);
        return None;
      }
      SequenceSnoc(os, i, acc);
      acc := acc + [r.value];
      i := i + 1;
    }
    assert os[..i] == os;
    runs := Some(acc);
  }

  /** `_ensure_list_styles`: each of the eighteen names missing from the
      registry is added. */
  method EnsureListStyles(d: Document)
    modifies d
    ensures d.styles == WithListStyles(old(d.styles), 2 * MaxNestingLevel)
    ensures d.body == old(d.body) && d.sections == old(d.sections)
    ensures d.abstractNums == old(d.abstractNums) && d.nums == old(d.nums)
  {
    var names := ListStyleNames();
    var j := 0;
    while j < |names|
      invariant 0 <= j <= |names|
      invariant d.styles == WithListStyles(old(d.styles), j)
      invariant d.body == old(d.body) && d.sections == old(d.sections)
      invariant d.abstractNums == old(d.abstractNums) && d.nums == old(d.nums)
    {
      if names[j] !in d.styles {
        d.styles := d.styles[names[j] := ListStyleRecord(NameLevel(j), "Normal" in d.styles)];
      }
      j := j + 1;
    }
  }

}
