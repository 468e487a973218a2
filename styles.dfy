/** The style engine: the document's style registry (a map from style name
    to record), each section's page geometry, and each section's header and
    footer. Heading and body styles are overwritten from a
    `DocumentStyling`, every section gets the same page size and margins,
    and headers and footers are rewritten with text and page-number
    fields. */
module Styles {
  import opened Wrappers
  import opened Schema
  import opened Output
  import Text
  import PyInt

  // ---------------------------------------------------------------------
  // Required styles

  const HeadingNames: seq<string> := ["Heading 1", "Heading 2", "Heading 3", "Heading 4"]

  /** The styles the engine makes sure of, in the order it checks them. */
  const RequiredStyles: seq<string> := HeadingNames + ["Normal"]

  /** Space before and after a heading, in points. */
  const HeadingSpaceBefore: int := 12
  const HeadingSpaceAfter: int := 6

  /** The registry after the first `n` required styles were checked: a
      missing one is added as a bare paragraph style. */
  function WithRequiredStyles(styles: map<string, StyleRecord>, n: nat): map<string, StyleRecord>
    requires n <= |RequiredStyles|
  {
    if n == 0 then styles
    else
      var s := WithRequiredStyles(styles, n - 1);
      var name := RequiredStyles[n - 1];
      if name in s then s else s[name := NewParagraphStyle]
  }

  /** Checking the required styles adds exactly the missing ones, as bare
      paragraph styles, and keeps every existing record. */
  lemma {:induction false} WithRequiredStylesSpec(styles: map<string, StyleRecord>, n: nat)
    requires n <= |RequiredStyles|
    ensures WithRequiredStyles(styles, n).Keys == styles.Keys + set i | 0 <= i < n :: RequiredStyles[i]
    ensures forall name :: name in styles ==> WithRequiredStyles(styles, n)[name] == styles[name]
    ensures forall name :: name in WithRequiredStyles(styles, n) && name !in styles ==>
              WithRequiredStyles(styles, n)[name] == NewParagraphStyle
  {
    if n > 0 {
      WithRequiredStylesSpec(styles, n - 1);
      assert (set i | 0 <= i < n :: RequiredStyles[i])
          == (set i | 0 <= i < n - 1 :: RequiredStyles[i]) + {RequiredStyles[n - 1]};
    }
  }

  /** After construction every required style is there and nothing that
      was there changed. */
  lemma RequiredStylesPresent(styles: map<string, StyleRecord>)
    ensures forall i :: 0 <= i < |RequiredStyles| ==> RequiredStyles[i] in WithRequiredStyles(styles, |RequiredStyles|)
    ensures forall name :: name in styles ==>
      name in WithRequiredStyles(styles, |RequiredStyles|) && WithRequiredStyles(styles, |RequiredStyles|)[name] == styles[name]
  {
    WithRequiredStylesSpec(styles, |RequiredStyles|);
  }

  // ---------------------------------------------------------------------
  // Font colours

  /** Python's `s[i:j]` for `0 <= i <= j`: the bounds are clamped. */
  function PySlice(s: string, i: nat, j: nat): (r: string)
    requires i <= j
    ensures |r| <= j - i
    ensures j <= |s| ==> r == s[i..j]
  {
    if i >= |s| then [] else if j <= |s| then s[i..j] else s[i..]
  }

  /** One colour component: `int(s, 16)` as far as `RGBColor` accepts it
      (0 to 255); `None` where either raises `ValueError`. */
  function HexComponent(s: string): (r: Option<nat>)
    ensures r.Some? ==> r.value <= 255
  {
    match PyInt.ParseInt(s, 16)
    case Some(v) => if 0 <= v <= 255 then Some(v) else None
    case None => None
  }

  /** The colour a hex string denotes: leading `#`s stripped, then the
      characters 0-2, 2-4 and 4-6 read in base 16. */
  function ParseHexColor(hex: string): Option<Rgb>
  {
    var h := Text.TrimLeft(hex, {'#'});
    ColorOf(HexComponent(PySlice(h, 0, 2)), HexComponent(PySlice(h, 2, 4)), HexComponent(PySlice(h, 4, 6)))
  }

  /** The colour of three components, when all of them parsed. */
  function ColorOf(r: Option<nat>, g: Option<nat>, b: Option<nat>): Option<Rgb>
  {
    if r.Some? && g.Some? && b.Some? then Some(Rgb(r.value, g.value, b.value)) else None
  }

  /** `_set_font_color`: the style's colour after setting it from `hex`. */
  function SetFontColor(current: Option<Rgb>, hex: string): (r: Option<Rgb>)
    ensures r == current || r == ParseHexColor(hex)
    ensures r.Some? && r != current ==> ParseHexColor(hex) == r
  {
    match ParseHexColor(hex)
    case Some(c) => Some(c)
    case None => current
  }

  /** Only the first six characters after the `#`s count. */
  lemma ColorUsesFirstSix(hex: string, rest: string)
    requires |Text.TrimLeft(hex, {'#'})| >= 6
    ensures ParseHexColor(hex + rest) == ParseHexColor(hex)
  {
    Text.TrimLeftAppend(hex, rest, {'#'});
    SlicesKept(Text.TrimLeft(hex, {'#'}), rest);
  }

  lemma SlicesKept(h: string, rest: string)
    requires |h| >= 6
    ensures PySlice(h + rest, 0, 2) == PySlice(h, 0, 2)
    ensures PySlice(h + rest, 2, 4) == PySlice(h, 2, 4)
    ensures PySlice(h + rest, 4, 6) == PySlice(h, 4, 6)
  {
  }

  /** Two hexadecimal digits read as the byte they denote. */
  lemma HexPair(a: string)
    requires |a| == 2 && PyInt.IsDigitIn(a[0], 16) && PyInt.IsDigitIn(a[1], 16)
    ensures HexComponent(a) == Some(16 * PyInt.DigitValue(a[0]) + PyInt.DigitValue(a[1]))
  {
    PyInt.TwoHexDigitsValue(a);
  }

  /** A value with fewer than five characters after the `#`s (such as the
      three-digit `#ABC`) leaves the third component empty, which
      `int("", 16)` rejects, so the colour stays as it was. */
  lemma ShortColorIgnored(current: Option<Rgb>, hex: string)
    requires |Text.TrimLeft(hex, {'#'})| <= 4
    ensures ParseHexColor(hex) == None
    ensures SetFontColor(current, hex) == current
  {
    var h := Text.TrimLeft(hex, {'#'});
    assert PySlice(h, 4, 6) == [];
    assert Text.TrimLeft([], Text.Whitespace) == [];
    assert PyInt.ParseInt([], 16) == None;
  }

  /** Setting the same colour twice is setting it once. */
  lemma SetFontColorIdempotent(current: Option<Rgb>, hex: string)
    ensures SetFontColor(SetFontColor(current, hex), hex) == SetFontColor(current, hex)
  {
  }

  // ---------------------------------------------------------------------
  // Heading and body styles

  function HeadingSize(c: DocumentStyling, level: int): int
  {
    if level == 1 then c.heading1Size else if level == 2 then c.heading2Size
    else if level == 3 then c.heading3Size else c.heading4Size
  }

  function HeadingBold(c: DocumentStyling, level: int): bool
  {
    if level == 1 then c.heading1Bold else if level == 2 then c.heading2Bold
    else if level == 3 then c.heading3Bold else c.heading4Bold
  }

  function HeadingColor(c: DocumentStyling, level: int): Option<string>
  {
    if level == 1 then c.heading1Color else if level == 2 then c.heading2Color
    else if level == 3 then c.heading3Color else c.heading4Color
  }

  /** The defaults a configuration without values carries: sizes 16, 14,
      12, 11 and bold for the first three levels only. */
  lemma DefaultHeadingValues(level: int)
    requires 1 <= level <= 4
    ensures HeadingSize(DefaultStyling, level) == [16, 14, 12, 11][level - 1]
    ensures HeadingBold(DefaultStyling, level) <==> level <= 3
    ensures HeadingColor(DefaultStyling, level) == None
  {
  }

  /** Python's truth test on an optional string. */
  predicate Given(s: Option<string>) { s.Some? && s.value != "" }

  /** A heading style after configuration: heading font and this level's
      size and weight, the colour only when one is given, the line spacing
      and 12pt before and 6pt after. */
  function ConfiguredHeading(r: StyleRecord, c: DocumentStyling, level: int): (s: StyleRecord)
    ensures s.kind == r.kind && s.italic == r.italic && s.indent == r.indent && s.basedOn == r.basedOn
    ensures s.font == Some(c.headingFont) && s.size == Some(HeadingSize(c, level))
    ensures s.bold == Some(HeadingBold(c, level)) && s.lineSpacing == Some(c.lineSpacing)
    ensures s.spaceBefore == Some(HeadingSpaceBefore) && s.spaceAfter == Some(HeadingSpaceAfter)
    ensures !Given(HeadingColor(c, level)) ==> s.color == r.color
    ensures Given(HeadingColor(c, level)) ==> s.color == SetFontColor(r.color, HeadingColor(c, level).value)
  {
    r.(font := Some(c.headingFont), size := Some(HeadingSize(c, level)), bold := Some(HeadingBold(c, level)),
       color := if Given(HeadingColor(c, level)) then SetFontColor(r.color, HeadingColor(c, level).value) else r.color,
       lineSpacing := Some(c.lineSpacing), spaceBefore := Some(HeadingSpaceBefore),
       spaceAfter := Some(HeadingSpaceAfter))
  }

  lemma ConfiguredHeadingIdempotent(r: StyleRecord, c: DocumentStyling, level: int)
    ensures ConfiguredHeading(ConfiguredHeading(r, c, level), c, level) == ConfiguredHeading(r, c, level)
  {
    if Given(HeadingColor(c, level)) {
      SetFontColorIdempotent(r.color, HeadingColor(c, level).value);
    }
  }

  /** The heading level a style name belongs to, 0 for any other name. */
  function HeadingLevelOf(name: string): (l: int)
    ensures 0 <= l <= 4
    ensures 1 <= l <= 4 ==> name == HeadingNames[l - 1]
  {
    if name == "Heading 1" then 1 else if name == "Heading 2" then 2
    else if name == "Heading 3" then 3 else if name == "Heading 4" then 4 else 0
  }

  /** The registry after the heading levels 1 to `n` were configured; a
      level whose style is missing is skipped. */
  function HeadingsConfigured(styles: map<string, StyleRecord>, c: DocumentStyling, n: nat): map<string, StyleRecord>
    requires n <= 4
  {
    if n == 0 then styles
    else
      var s := HeadingsConfigured(styles, c, n - 1);
      var name := HeadingNames[n - 1];
      if name in s then s[name := ConfiguredHeading(s[name], c, n)] else s
  }

  /** Heading styles are overwritten by name: the keys do not change, the
      styles of the configured levels are reconfigured from their old
      records, and every other style is left alone. */
  lemma {:induction false} HeadingsConfiguredAt(styles: map<string, StyleRecord>, c: DocumentStyling,
                                                n: nat, name: string)
    requires n <= 4
    ensures name in HeadingsConfigured(styles, c, n) <==> name in styles
    ensures name in styles ==>
      HeadingsConfigured(styles, c, n)[name]
        == (if 1 <= HeadingLevelOf(name) <= n then ConfiguredHeading(styles[name], c, HeadingLevelOf(name))
            else styles[name])
  {
    if n > 0 {
      HeadingsConfiguredAt(styles, c, n - 1, name);
      assert HeadingLevelOf(HeadingNames[n - 1]) == n;
    }
  }

  /** `configure_body_style`: Normal gets the body font, size and line
      spacing when it exists. */
  function BodyConfigured(styles: map<string, StyleRecord>, c: DocumentStyling): map<string, StyleRecord>
  {
    if "Normal" in styles then
      styles["Normal" := styles["Normal"].(font := Some(c.defaultFont), size := Some(c.defaultFontSize),
                                           lineSpacing := Some(c.lineSpacing))]
    else styles
  }

  /** `apply_document_styling`: the body style first, then the headings. */
  function DocumentStyled(styles: map<string, StyleRecord>, c: DocumentStyling): map<string, StyleRecord>
  {
    HeadingsConfigured(BodyConfigured(styles, c), c, 4)
  }

  /** What styling changes, style by style. */
  lemma DocumentStyledAt(styles: map<string, StyleRecord>, c: DocumentStyling, name: string)
    ensures name in DocumentStyled(styles, c) <==> name in styles
    ensures name in styles && name != "Normal" && HeadingLevelOf(name) == 0 ==>
      DocumentStyled(styles, c)[name] == styles[name]
    ensures name in styles && HeadingLevelOf(name) != 0 ==>
      DocumentStyled(styles, c)[name] == ConfiguredHeading(styles[name], c, HeadingLevelOf(name))
    ensures name == "Normal" && name in styles ==>
      var n := DocumentStyled(styles, c)[name];
      n == styles[name].(font := Some(c.defaultFont), size := Some(c.defaultFontSize), lineSpacing := Some(c.lineSpacing))
  {
    HeadingsConfiguredAt(BodyConfigured(styles, c), c, 4, name);
  }

  /** Applying the same styling twice yields the same registry as applying
      it once. */
  lemma DocumentStylingIdempotent(styles: map<string, StyleRecord>, c: DocumentStyling)
    ensures DocumentStyled(DocumentStyled(styles, c), c) == DocumentStyled(styles, c)
  {
    var once := DocumentStyled(styles, c);
    var twice := DocumentStyled(once, c);
    forall name | name in twice
      ensures name in once && twice[name] == once[name]
    {
      DocumentStyledAt(once, c, name);
      DocumentStyledAt(styles, c, name);
      if HeadingLevelOf(name) != 0 {
        ConfiguredHeadingIdempotent(styles[name], c, HeadingLevelOf(name));
      }
    }
    forall name | name in once
      ensures name in twice
    {
      DocumentStyledAt(once, c, name);
    }
  }

  // ---------------------------------------------------------------------
  // Headers and footers

  const Separator: string := "  |  "

  /** The `align_map` lookup, right for anything it does not name. */
  function AlignmentNamed(name: string): (a: Alignment)
    ensures a == Left <==> name == "left"
    ensures a == Center <==> name == "center"
    ensures a != Justify
  {
    if name == "left" then Left else if name == "center" then Center else Right
  }

  /** `is_linked_to_previous = False`: a linked part gets a definition of
      its own, which starts as one empty paragraph. */
  function Unlinked(p: HFPart): (r: HFPart)
    ensures !r.linked && |r.paragraphs| >= if p.linked then 1 else |p.paragraphs|
    ensures !p.linked ==> r == p
  {
    if p.linked then HFPart(false, [HFPara(None, [])], []) else p
  }

  /** Every paragraph cleared of its runs; its alignment stays. */
  function Cleared(ps: seq<HFPara>): (r: seq<HFPara>)
    ensures |r| == |ps|
    ensures forall i :: 0 <= i < |r| ==> r[i] == HFPara(ps[i].alignment, [])
  {
    seq(|ps|, i requires 0 <= i < |ps| => HFPara(ps[i].alignment, []))
  }

  /** The first paragraph replaced by `p`, or `p` added when there is none. */
  function WithFirst(ps: seq<HFPara>, p: HFPara): (r: seq<HFPara>)
    ensures |r| == if ps == [] then 1 else |ps|
    ensures r[0] == p && r[1..] == if ps == [] then [] else ps[1..]
  {
    if ps == [] then [p] else [p] + ps[1..]
  }

  /** `add_header` on one part, for non-empty text. */
  function HeaderWithText(h: HFPart, text: string, a: Alignment): HFPart
  {
    var u := Unlinked(h);
    u.(paragraphs := WithFirst(Cleared(u.paragraphs), HFPara(Some(a), [HFText(text)])))
  }

  /** The footer's runs: the text when there is some, the separator when
      there is also a page number, and the page field when page numbers are
      on. */
  function FooterItems(text: Option<string>, showPageNumber: bool, includeTotal: bool): seq<HFItem>
  {
    (if Given(text) then [HFText(text.value)] + (if showPageNumber then [HFText(Separator)] else []) else [])
    + (if showPageNumber then [PageField(includeTotal)] else [])
  }

  /** `add_footer` on one part. */
  function FooterWith(f: HFPart, text: Option<string>, showPageNumber: bool, position: string,
                      includeTotal: bool): HFPart
  {
    var u := Unlinked(f);
    var a := if position == "footer_center" then Center else Right;
    u.(paragraphs := WithFirst(Cleared(u.paragraphs), HFPara(Some(a), FooterItems(text, showPageNumber, includeTotal))))
  }

  /** `_add_page_number_to_header` on one part: text in the first paragraph
      moves to the left cell of a new two-cell table whose right cell holds
      the page number; otherwise the first paragraph is right-aligned and
      gets the page number. */
  function HeaderWithPageNumber(h: HFPart, includeTotal: bool): HFPart
  {
    var u := Unlinked(h);
    if u.paragraphs != [] && HFParaText(u.paragraphs[0].items) != "" then
      var existing := HFParaText(u.paragraphs[0].items);
      u.(paragraphs := u.paragraphs[0 := u.paragraphs[0].(items := [])],
         tables := u.tables + [HFTable(HFPara(None, [HFText(existing)]), HFPara(Some(Right), [PageField(includeTotal)]))])
    else
      var first := if u.paragraphs != [] then u.paragraphs[0].items else [];
      u.(paragraphs := WithFirst(u.paragraphs, HFPara(Some(Right), first + [PageField(includeTotal)])))
  }

  lemma {:induction false} HFParaTextAppend(a: seq<HFItem>, b: seq<HFItem>)
    ensures HFParaText(a + b) == HFParaText(a) + HFParaText(b)
    decreases |a|
  {
    if a == [] {
      assert a + b == b;
    } else {
      assert (a + b)[0] == a[0] && (a + b)[1..] == a[1..] + b;
      HFParaTextAppend(a[1..], b);
      var head := if a[0].HFText? then a[0].text else "";
      assert HFParaText(a + b) == head + HFParaText(a[1..] + b);
      assert HFParaText(a) == head + HFParaText(a[1..]);
    }
  }

  /** The header holds its text once, in the first paragraph, with the
      requested alignment; every other paragraph is emptied. */
  lemma HeaderTextShown(h: HFPart, text: string, a: Alignment)
    ensures var r := HeaderWithText(h, text, a);
      !r.linked && r.paragraphs != [] && r.tables == Unlinked(h).tables
      && r.paragraphs[0].alignment == Some(a) && HFParaText(r.paragraphs[0].items) == text
      && forall i :: 1 <= i < |r.paragraphs| ==> r.paragraphs[i].items == []
  {
    var r := HeaderWithText(h, text, a);
    var c := Cleared(Unlinked(h).paragraphs);
    forall i | 1 <= i < |r.paragraphs|
      ensures r.paragraphs[i].items == []
    {
      assert r.paragraphs[i] == c[i];
    }
  }

  /** The footer rules: centred exactly for "footer_center"; the visible
      text is the footer text, followed by the separator only when page
      numbers are on too; a page field is there exactly when page numbers
      are on, and then it comes last. */
  lemma FooterLayout(f: HFPart, text: Option<string>, showPageNumber: bool, position: string, includeTotal: bool)
    ensures var first := FooterWith(f, text, showPageNumber, position, includeTotal).paragraphs[0];
      && (first.alignment == Some(Center) <==> position == "footer_center")
      && (first.alignment == Some(Right) <==> position != "footer_center")
      && HFParaText(first.items)
           == (if Given(text) then text.value + (if showPageNumber then Separator else "") else "")
      && ((exists k :: 0 <= k < |first.items| && first.items[k].PageField?) <==> showPageNumber)
      && (showPageNumber ==> first.items[|first.items| - 1] == PageField(includeTotal))
  {
    var items := FooterItems(text, showPageNumber, includeTotal);
    var textPart := if Given(text) then [HFText(text.value)] + (if showPageNumber then [HFText(Separator)] else []) else [];
    var fieldPart := if showPageNumber then [PageField(includeTotal)] else [];
    assert items == textPart + fieldPart;
    HFParaTextAppend(textPart, fieldPart);
    if Given(text) {
      HFParaTextAppend([HFText(text.value)], if showPageNumber then [HFText(Separator)] else []);
    }
    assert forall k :: 0 <= k < |textPart| ==> textPart[k].HFText?;
    if !showPageNumber {
      assert items == textPart;
    } else {
      assert items[|items| - 1] == PageField(includeTotal);
    }
  }

  /** The header page number when the first paragraph has text: that text
      moves into the left cell of a new table and the page field fills the
      right cell. */
  lemma PageNumberBesideText(h: HFPart, includeTotal: bool)
    requires var u := Unlinked(h); u.paragraphs != [] && HFParaText(u.paragraphs[0].items) != ""
    ensures var u := Unlinked(h); var r := HeaderWithPageNumber(h, includeTotal);
      && |r.paragraphs| == |u.paragraphs| && r.paragraphs[0].items == [] && r.paragraphs[1..] == u.paragraphs[1..]
      && |r.tables| == |u.tables| + 1 && r.tables[..|u.tables|] == u.tables
      && HFParaText(r.tables[|u.tables|].left.items) == HFParaText(u.paragraphs[0].items)
      && r.tables[|u.tables|].right == HFPara(Some(Right), [PageField(includeTotal)])
  {
    var u := Unlinked(h);
    assert HFParaText([HFText(HFParaText(u.paragraphs[0].items))]) == HFParaText(u.paragraphs[0].items);
  }

  /** The header page number when the first paragraph has no text: the
      first paragraph is right-aligned and ends with the page field, and
      its visible text is unchanged. */
  lemma PageNumberAlone(h: HFPart, includeTotal: bool)
    requires var u := Unlinked(h); u.paragraphs == [] || HFParaText(u.paragraphs[0].items) == ""
    ensures var u := Unlinked(h); var r := HeaderWithPageNumber(h, includeTotal);
      && r.tables == u.tables && r.paragraphs != []
      && r.paragraphs[0].alignment == Some(Right) && HFParaText(r.paragraphs[0].items) == ""
      && r.paragraphs[0].items[|r.paragraphs[0].items| - 1] == PageField(includeTotal)
  {
    var u := Unlinked(h);
    var first := if u.paragraphs != [] then u.paragraphs[0].items else [];
    HFParaTextAppend(first, [PageField(includeTotal)]);
  }

  // ---------------------------------------------------------------------
  // Sections

  /** What a pass over the sections does to each one. */
  datatype SectionEdit =
    | Layout(setup: PageSetup)
    | HeaderText(text: string, alignment: Alignment)
    | Footer(footerText: Option<string>, showPageNumber: bool, position: string, includeTotal: bool)
    | HeaderPageNumber(total: bool)

  function Edited(e: SectionEdit, s: PageSection): PageSection
  {
    match e
    case Layout(p) =>
      s.(pageWidth := p.pageWidth, pageHeight := p.pageHeight, marginTop := p.marginTop,
         marginBottom := p.marginBottom, marginLeft := p.marginLeft, marginRight := p.marginRight)
    case HeaderText(text, a) => s.(header := HeaderWithText(s.header, text, a))
    case Footer(text, show, position, total) => s.(footer := FooterWith(s.footer, text, show, position, total))
    case HeaderPageNumber(total) => s.(header := HeaderWithPageNumber(s.header, total))
  }

  /** Every section edited the same way, in order. */
  function EditAll(e: SectionEdit, ss: seq<PageSection>): (r: seq<PageSection>)
    ensures |r| == |ss|
  {
    seq(|ss|, i requires 0 <= i < |ss| => Edited(e, ss[i]))
  }

  /** `setup_page_layout` gives every section the same size and margins, and
      touches nothing else of it. */
  lemma LayoutUniform(p: PageSetup, ss: seq<PageSection>, i: nat)
    requires i < |ss|
    ensures var s := EditAll(Layout(p), ss)[i];
      && s.pageWidth == p.pageWidth && s.pageHeight == p.pageHeight
      && s.marginTop == p.marginTop && s.marginBottom == p.marginBottom
      && s.marginLeft == p.marginLeft && s.marginRight == p.marginRight
      && s.header == ss[i].header && s.footer == ss[i].footer
  {
  }

  /** `apply_header_footer_config` on the sections. */
  function HeaderFooterConfigured(ss: seq<PageSection>, hf: HeaderFooter): seq<PageSection>
  {
    var headerRight := hf.pageNumberPosition == "header_right";
    var withHeader :=
      if Given(hf.headerText) then EditAll(HeaderText(hf.headerText.value, if headerRight then Left else Right), ss)
      else ss;
    var withFooter := EditAll(Footer(hf.footerText, hf.showPageNumbers, hf.pageNumberPosition, hf.includeTotalPages), withHeader);
    if hf.showPageNumbers && headerRight then EditAll(HeaderPageNumber(hf.includeTotalPages), withFooter)
    else withFooter
  }

  /** `apply_header_footer_config` on one section. */
  function SectionConfigured(s: PageSection, hf: HeaderFooter): PageSection
  {
    var headerRight := hf.pageNumberPosition == "header_right";
    var h1 := if Given(hf.headerText) then HeaderWithText(s.header, hf.headerText.value, if headerRight then Left else Right)
              else s.header;
    var h2 := if hf.showPageNumbers && headerRight then HeaderWithPageNumber(h1, hf.includeTotalPages) else h1;
    s.(header := h2,
       footer := FooterWith(s.footer, hf.footerText, hf.showPageNumbers, hf.pageNumberPosition, hf.includeTotalPages))
  }

  /** The three passes over the sections act on each section on its own. */
  lemma HeaderFooterConfiguredAt(ss: seq<PageSection>, hf: HeaderFooter, i: nat)
    requires i < |ss|
    ensures |HeaderFooterConfigured(ss, hf)| == |ss|
    ensures HeaderFooterConfigured(ss, hf)[i] == SectionConfigured(ss[i], hf)
  {
  }

  /** The header text is left-aligned exactly when the page number goes to
      the header's right, and right-aligned otherwise. */
  lemma HeaderAlignmentRule(s: PageSection, hf: HeaderFooter)
    requires Given(hf.headerText)
    ensures var h := SectionConfigured(s, hf).header;
      && h.paragraphs != []
      && (h.paragraphs[0].alignment == Some(Left) <==> hf.pageNumberPosition == "header_right")
      && (h.paragraphs[0].alignment == Some(Right) <==> hf.pageNumberPosition != "header_right")
  {
    var a := if hf.pageNumberPosition == "header_right" then Left else Right;
    HeaderTextShown(s.header, hf.headerText.value, a);
  }

  /** Unless page numbers are on and placed at the header's right, the
      header gets no page number: it is only the header text, if any. */
  lemma NoHeaderPageNumber(s: PageSection, hf: HeaderFooter)
    requires !(hf.showPageNumbers && hf.pageNumberPosition == "header_right")
    ensures var a := if hf.pageNumberPosition == "header_right" then Left else Right;
      SectionConfigured(s, hf).header
        == if Given(hf.headerText) then HeaderWithText(s.header, hf.headerText.value, a) else s.header
  {
  }

  /** With page numbers at the header's right and header text, the text
      moves to the left cell of a two-cell table whose right cell holds the
      page number. */
  lemma HeaderPageNumberBesideText(s: PageSection, hf: HeaderFooter)
    requires hf.showPageNumbers && hf.pageNumberPosition == "header_right" && Given(hf.headerText)
    ensures var h := SectionConfigured(s, hf).header;
      && h.paragraphs != [] && h.paragraphs[0].items == [] && h.tables != []
      && HFParaText(h.tables[|h.tables| - 1].left.items) == hf.headerText.value
      && h.tables[|h.tables| - 1].right == HFPara(Some(Right), [PageField(hf.includeTotalPages)])
  {
    var h := HeaderWithText(s.header, hf.headerText.value, Left);
    HeaderTextShown(s.header, hf.headerText.value, Left);
    PageNumberBesideText(h, hf.includeTotalPages);
  }

  /** With page numbers at the header's right and no header text, the
      header's first paragraph is right-aligned and ends with the page
      number. */
  lemma HeaderPageNumberAlone(s: PageSection, hf: HeaderFooter)
    requires hf.showPageNumbers && hf.pageNumberPosition == "header_right" && !Given(hf.headerText)
    requires s.header.linked || s.header.paragraphs == [] || HFParaText(s.header.paragraphs[0].items) == ""
    ensures var h := SectionConfigured(s, hf).header;
      && h.paragraphs != [] && h.paragraphs[0].alignment == Some(Right)
      && h.paragraphs[0].items[|h.paragraphs[0].items| - 1] == PageField(hf.includeTotalPages)
  {
    PageNumberAlone(s.header, hf.includeTotalPages);
  }

  // ---------------------------------------------------------------------
  // The engine

  class StyleEngine {
    const doc: Document

    /** `StyleEngine(doc)`: the required styles are made to exist. */
    constructor (d: Document)
      modifies d
      ensures doc == d
      ensures d.styles == WithRequiredStyles(old(d.styles), |RequiredStyles|)
      ensures d.body == old(d.body) && d.sections == old(d.sections)
      ensures d.abstractNums == old(d.abstractNums) && d.nums == old(d.nums)
    {
      doc := d;
      new;
      var j := 0;
      while j < |RequiredStyles|
        invariant 0 <= j <= |RequiredStyles|
        invariant d.styles == WithRequiredStyles(old(d.styles), j)
        invariant d.body == old(d.body) && d.sections == old(d.sections)
        invariant d.abstractNums == old(d.abstractNums) && d.nums == old(d.nums)
      {
        var name := RequiredStyles[j];
        if name !in d.styles {
          d.styles := d.styles[name := NewParagraphStyle];
        }
        j := j + 1;
      }
    }

    /** `configure_body_style`. */
    method ConfigureBodyStyle(c: DocumentStyling)
      modifies doc
      ensures doc.styles == BodyConfigured(old(doc.styles), c)
      ensures doc.body == old(doc.body) && doc.sections == old(doc.sections)
      ensures doc.abstractNums == old(doc.abstractNums) && doc.nums == old(doc.nums)
    {
      if "Normal" in doc.styles {
        var n := doc.styles["Normal"];
        doc.styles := doc.styles["Normal" := n.(font := Some(c.defaultFont), size := Some(c.defaultFontSize),
                                                lineSpacing := Some(c.lineSpacing))];
      }
    }

    /** `configure_heading_styles`: levels 1 to 4 in order. */
    method ConfigureHeadingStyles(c: DocumentStyling)
      modifies doc
      ensures doc.styles == HeadingsConfigured(old(doc.styles), c, 4)
      ensures doc.body == old(doc.body) && doc.sections == old(doc.sections)
      ensures doc.abstractNums == old(doc.abstractNums) && doc.nums == old(doc.nums)
    {
      var level := 1;
      while level <= 4
        invariant 1 <= level <= 5
        invariant doc.styles == HeadingsConfigured(old(doc.styles), c, level - 1)
        invariant doc.body == old(doc.body) && doc.sections == old(doc.sections)
        invariant doc.abstractNums == old(doc.abstractNums) && doc.nums == old(doc.nums)
      {
        var name := HeadingNames[level - 1];
        if name in doc.styles {
          doc.styles := doc.styles[name := ConfiguredHeading(doc.styles[name], c, level)];
        }
        level := level + 1;
      }
    }

    /** `apply_document_styling`. */
    method ApplyDocumentStyling(c: DocumentStyling)
      modifies doc
      ensures doc.styles == DocumentStyled(old(doc.styles), c)
      ensures doc.body == old(doc.body) && doc.sections == old(doc.sections)
      ensures doc.abstractNums == old(doc.abstractNums) && doc.nums == old(doc.nums)
    {
      ConfigureBodyStyle(c);
      ConfigureHeadingStyles(c);
    }

    /** One pass over the document's sections. */
    method EditSections(e: SectionEdit)
      modifies doc
      ensures doc.sections == EditAll(e, old(doc.sections))
      ensures doc.body == old(doc.body) && doc.styles == old(doc.styles)
      ensures doc.abstractNums == old(doc.abstractNums) && doc.nums == old(doc.nums)
    {
      var i := 0;
      while i < |doc.sections|
        invariant 0 <= i <= |doc.sections| == |old(doc.sections)|
        invariant forall j :: 0 <= j < i ==> doc.sections[j] == Edited(e, old(doc.sections)[j])
        invariant forall j :: i <= j < |doc.sections| ==> doc.sections[j] == old(doc.sections)[j]
        invariant doc.body == old(doc.body) && doc.styles == old(doc.styles)
        invariant doc.abstractNums == old(doc.abstractNums) && doc.nums == old(doc.nums)
      {
        doc.sections := doc.sections[i := Edited(e, doc.sections[i])];
        i := i + 1;
      }
    }

    /** `setup_page_layout`. */
    method SetupPageLayout(p: PageSetup)
      modifies doc
      ensures doc.sections == EditAll(Layout(p), old(doc.sections))
      ensures doc.body == old(doc.body) && doc.styles == old(doc.styles)
      ensures doc.abstractNums == old(doc.abstractNums) && doc.nums == old(doc.nums)
    {
      EditSections(Layout(p));
    }

    /** `add_header`: empty text changes nothing. */
    method AddHeader(text: string, alignment: string)
      modifies doc
      ensures text == "" ==> doc.sections == old(doc.sections)
      ensures text != "" ==> doc.sections == EditAll(HeaderText(text, AlignmentNamed(alignment)), old(doc.sections))
      ensures doc.body == old(doc.body) && doc.styles == old(doc.styles)
      ensures doc.abstractNums == old(doc.abstractNums) && doc.nums == old(doc.nums)
    {
      if text != "" {
        EditSections(HeaderText(text, AlignmentNamed(alignment)));
      }
    }

    /** `add_footer`. */
    method AddFooter(text: Option<string>, showPageNumber: bool, position: string, includeTotal: bool)
      modifies doc
      ensures doc.sections == EditAll(Footer(text, showPageNumber, position, includeTotal), old(doc.sections))
      ensures doc.body == old(doc.body) && doc.styles == old(doc.styles)
      ensures doc.abstractNums == old(doc.abstractNums) && doc.nums == old(doc.nums)
    {
      EditSections(Footer(text, showPageNumber, position, includeTotal));
    }

    /** `_add_page_number_to_header`. */
    method AddPageNumberToHeader(includeTotal: bool)
      modifies doc
      ensures doc.sections == EditAll(HeaderPageNumber(includeTotal), old(doc.sections))
      ensures doc.body == old(doc.body) && doc.styles == old(doc.styles)
      ensures doc.abstractNums == old(doc.abstractNums) && doc.nums == old(doc.nums)
    {
      EditSections(HeaderPageNumber(includeTotal));
    }

    /** `apply_header_footer_config`. */
    method ApplyHeaderFooterConfig(hf: HeaderFooter)
      modifies doc
      ensures doc.sections == HeaderFooterConfigured(old(doc.sections), hf)
      ensures doc.body == old(doc.body) && doc.styles == old(doc.styles)
      ensures doc.abstractNums == old(doc.abstractNums) && doc.nums == old(doc.nums)
    {
      var headerRight := hf.pageNumberPosition == "header_right";
      if Given(hf.headerText) {
        AddHeader(hf.headerText.value, if headerRight then "left" else "right");
      }
      AddFooter(hf.footerText, hf.showPageNumbers, hf.pageNumberPosition, hf.includeTotalPages);
      if hf.showPageNumbers && headerRight {
        AddPageNumberToHeader(hf.includeTotalPages);
      }
    }
  }

  /** `apply_full_styling`: the given styling or the defaults, the given
      page setup or the defaults, and the header/footer only when given. */
  method ApplyFullStyling(d: Document, styling: Option<DocumentStyling>, pageSetup: Option<PageSetup>,
                          headerFooter: Option<HeaderFooter>) returns (engine: StyleEngine)
    modifies d
    ensures engine.doc == d
    ensures d.styles == DocumentStyled(WithRequiredStyles(old(d.styles), |RequiredStyles|), styling.GetOr(DefaultStyling))
    ensures var laidOut := EditAll(Layout(pageSetup.GetOr(DefaultPageSetup)), old(d.sections));
      d.sections == if headerFooter.Some? then HeaderFooterConfigured(laidOut, headerFooter.value) else laidOut
    ensures d.body == old(d.body) && d.abstractNums == old(d.abstractNums) && d.nums == old(d.nums)
  {
    engine := new StyleEngine(d);
    engine.ApplyDocumentStyling(styling.GetOr(DefaultStyling));
    engine.SetupPageLayout(pageSetup.GetOr(DefaultPageSetup));
    if headerFooter.Some? {
      engine.ApplyHeaderFooterConfig(headerFooter.value);
    }
  }
}
