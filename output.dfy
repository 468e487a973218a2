/** The output document the builders write into, described abstractly:
    the body is a sequence of headings, paragraphs of runs, page breaks and
    tables; beside it sit the style registry (name to record), the page
    sections with their headers and footers, and the numbering definitions
    of WordprocessingML (ECMA-376 Part 1, section 17.9). Lengths are kept in
    the unit the builders choose: points for spacing and font sizes,
    twips for indents, inches for page geometry and column widths. */
module Output {
  import opened Wrappers
  import opened Schema

  /** Bold, italic and underline as the section builder tracks them. */
  datatype Format = Format(bold: bool, italic: bool, underline: bool)

  const Plain: Format := Format(false, false, false)

  /** A run of text. `None` in a property means the run does not set it
      and inherits it from the paragraph style. */
  datatype Run = Run(text: string, bold: Option<bool>, italic: Option<bool>,
                     underline: Option<bool>, size: Option<int>)

  /** `paragraph.add_run(text)`: nothing set explicitly. */
  function PlainRun(text: string): Run
  {
    Run(text, None, None, None, None)
  }

  /** A run whose three flags are all set explicitly. */
  function FormattedRun(text: string, f: Format): Run
  {
    Run(text, Some(f.bold), Some(f.italic), Some(f.underline), None)
  }

  /** The concatenated text of a list of runs. */
  function RunsText(runs: seq<Run>): string
  {
    if runs == [] then "" else runs[0].text + RunsText(runs[1..])
  }

  lemma {:induction false} RunsTextAppend(a: seq<Run>, b: seq<Run>)
    ensures RunsText(a + b) == RunsText(a) + RunsText(b)
  {
    if a == [] {
      assert a + b == b;
    } else {
      assert (a + b)[1..] == a[1..] + b;
      RunsTextAppend(a[1..], b);
    }
  }

  /** Left and first-line indent of a list paragraph, in twips. */
  datatype Indent = Indent(left: int, firstLine: int)

  /** A paragraph's reference into the numbering part: `w:numId`, `w:ilvl`. */
  datatype NumberingRef = NumberingRef(numId: nat, ilvl: int)

  datatype VAlign = VTop | VCenter | VBottom

  /** How a grid cell takes part in a horizontal merge. */
  datatype Merge = Single | SpansTo(last: nat) | MergedInto(first: nat)

  datatype GridCell = GridCell(
    text: string,
    alignment: Option<Alignment>,
    vAlign: Option<VAlign>,
    shading: Option<string>,
    bold: bool,
    size: Option<int>,
    merge: Merge,
    width: Option<real>)

  /** A cell of a new table: empty, nothing set. */
  const BlankCell: GridCell := GridCell("", None, None, None, false, None, Single, None)

  datatype Element =
    | HeadingPara(text: string, level: nat, spaceBefore: Option<int>, spaceAfter: Option<int>,
                  alignment: Option<Alignment>)
    | Para(runs: seq<Run>, style: Option<string>, alignment: Option<Alignment>,
           spaceBefore: Option<int>, spaceAfter: Option<int>,
           indent: Option<Indent>, numbering: Option<NumberingRef>)
    | PageBreak
    | TableElem(style: Option<string>, centered: bool, autofit: bool, rows: seq<seq<GridCell>>)

  /** `doc.add_paragraph()` with the given runs and nothing else set. */
  function SimplePara(runs: seq<Run>): Element
  {
    Para(runs, None, None, None, None, None, None)
  }

  const EmptyPara: Element := SimplePara([])

  // ---------------------------------------------------------------------
  // Styles

  datatype StyleKind = ParagraphStyle | CharacterStyle | TableStyle

  datatype Rgb = Rgb(r: nat, g: nat, b: nat)

  datatype StyleRecord = StyleRecord(
    kind: StyleKind,
    font: Option<string>,
    size: Option<int>,
    bold: Option<bool>,
    italic: Option<bool>,
    color: Option<Rgb>,
    lineSpacing: Option<real>,
    spaceBefore: Option<int>,
    spaceAfter: Option<int>,
    indent: Option<Indent>,
    basedOn: Option<string>)

  /** `styles.add_style(name, WD_STYLE_TYPE.PARAGRAPH)`: nothing set yet. */
  const NewParagraphStyle: StyleRecord :=
    StyleRecord(ParagraphStyle, None, None, None, None, None, None, None, None, None, None)

  // ---------------------------------------------------------------------
  // Page sections, headers and footers

  /** A header or footer item: text (9pt Arial) or the page-number field,
      `Page N` or `Page N of M`. */
  datatype HFItem = HFText(text: string) | PageField(withTotal: bool)

  datatype HFPara = HFPara(alignment: Option<Alignment>, items: seq<HFItem>)

  /** The two-cell table that puts header text left and the page number right. */
  datatype HFTable = HFTable(left: HFPara, right: HFPara)

  /** A header or footer part. A linked part shows the previous section's. */
  datatype HFPart = HFPart(linked: bool, paragraphs: seq<HFPara>, tables: seq<HFTable>)

  /** The visible text of a header/footer paragraph: fields contribute none. */
  function HFParaText(items: seq<HFItem>): string
  {
    if items == [] then ""
    else (if items[0].HFText? then items[0].text else "") + HFParaText(items[1..])
  }

  datatype PageSection = PageSection(
    pageWidth: real, pageHeight: real,
    marginTop: real, marginBottom: real, marginLeft: real, marginRight: real,
    header: HFPart, footer: HFPart)

  // ---------------------------------------------------------------------
  // Numbering (ECMA-376 Part 1, section 17.9)

  /** A `w:lvl`: level index, start value, number format, level text,
      justification and the level's indents in twips. */
  datatype LevelDef = LevelDef(ilvl: nat, start: int, numFmt: string, lvlText: string,
                               jc: string, left: int, hanging: int)

  /** A `w:abstractNum` with its multi-level type and level definitions. */
  datatype AbstractNum = AbstractNum(abstractNumId: nat, multiLevelType: string, levels: seq<LevelDef>)

  /** A `w:num` instance referring to an abstract numbering. */
  datatype NumInstance = NumInstance(numId: nat, abstractNumId: nat)

  // ---------------------------------------------------------------------
  // The document

  /** Everything but the body is as it was. */
  twostate predicate SettingsUnchanged(d: Document)
    reads d
  {
    d.styles == old(d.styles) && d.sections == old(d.sections)
    && d.abstractNums == old(d.abstractNums) && d.nums == old(d.nums)
  }

  class Document {
    var body: seq<Element>
    var styles: map<string, StyleRecord>
    var sections: seq<PageSection>
    var abstractNums: seq<AbstractNum>
    var nums: seq<NumInstance>

    /** A document made from a template with the given styles and sections. */
    constructor (templateStyles: map<string, StyleRecord>, templateSections: seq<PageSection>)
      ensures body == [] && styles == templateStyles && sections == templateSections
      ensures abstractNums == [] && nums == []
    {
      body := [];
      styles := templateStyles;
      sections := templateSections;
      abstractNums := [];
      nums := [];
    }

    /** Append one element at the end of the body; nothing else changes. */
    method Add(e: Element)
      modifies this
      ensures body == old(body) + [e]
      ensures styles == old(styles) && sections == old(sections)
      ensures abstractNums == old(abstractNums) && nums == old(nums)
    {
      body := body + [e];
    }
  }
}
