/** The Universal Intermediate Format (UIF): the document tree that every
    workflow builds and the engine renders. */
module Schema {
  import opened Wrappers
  import opened PyValue
  import PyInt
  import Seqs

  datatype ContentBlockType =
    | ParagraphType
    | HeadingType
    | PageBreakType
    | BulletListType
    | NumberedListType
    | TableType
    | SignatureBlockType

  datatype ListStyle = Bullet | Decimal | RomanUpper | RomanLower | LetterUpper | LetterLower

  datatype Alignment = Left | Center | Right | Justify

  /** The enum's string value, as the builders receive it. */
  function AlignmentName(a: Alignment): string
  {
    match a
    case Left => "left"
    case Center => "center"
    case Right => "right"
    case Justify => "justify"
  }

  function ListStyleName(s: ListStyle): string
  {
    match s
    case Bullet => "bullet"
    case Decimal => "decimal"
    case RomanUpper => "roman_upper"
    case RomanLower => "roman_lower"
    case LetterUpper => "letter_upper"
    case LetterLower => "letter_lower"
  }

  /** A formatting range over the characters [start, end) of a text. */
  datatype InlineFormat = InlineFormat(start: int, end: int, bold: bool, italic: bool, underline: bool)

  datatype TableCell = TableCell(
    content: string,
    colspan: int,
    rowspan: int,
    alignment: Alignment,
    verticalAlignment: string,
    backgroundColor: Option<string>)

  /** A table row entry is either plain text or a `TableCell`. */
  datatype CellEntry = TextCell(text: string) | RichCell(cell: TableCell)

  datatype TableBlock = TableBlock(
    headers: seq<string>,
    rows: seq<seq<CellEntry>>,
    columnWidths: Option<seq<real>>,
    style: string,
    headerBackground: string)

  datatype SignatureLine = SignatureLine(labelText: string, lineWidthInches: real)

  datatype SignatureBlock = SignatureBlock(preamble: Option<string>, lines: seq<SignatureLine>)

  /** A list item is either a string or a dict. */
  datatype ListEntry = TextItem(text: string) | DictItem(fields: map<string, Value>)

  datatype ContentBlock = ContentBlock(
    kind: ContentBlockType,
    content: string,
    level: Option<int>,
    formatting: Option<seq<InlineFormat>>,
    alignment: Alignment,
    spacingBefore: int,
    spacingAfter: int,
    items: Option<seq<ListEntry>>,
    listStyle: Option<ListStyle>,
    table: Option<TableBlock>,
    signature: Option<SignatureBlock>)

  datatype Section = Section(
    id: string,
    level: int,
    heading: string,
    blocks: seq<ContentBlock>,
    subsections: seq<Section>)

  datatype DocumentStyling = DocumentStyling(
    defaultFont: string,
    defaultFontSize: int,
    headingFont: string,
    heading1Size: int, heading2Size: int, heading3Size: int, heading4Size: int,
    lineSpacing: real,
    heading1Bold: bool, heading2Bold: bool, heading3Bold: bool, heading4Bold: bool,
    heading1Color: Option<string>, heading2Color: Option<string>,
    heading3Color: Option<string>, heading4Color: Option<string>)

  datatype PageSetup = PageSetup(
    pageWidth: real, pageHeight: real,
    marginTop: real, marginBottom: real, marginLeft: real, marginRight: real)

  datatype HeaderFooter = HeaderFooter(
    headerText: Option<string>,
    footerText: Option<string>,
    showPageNumbers: bool,
    pageNumberPosition: string,
    includeTotalPages: bool)

  datatype DocumentMetadata = DocumentMetadata(
    protocolNumber: Option<string>,
    protocolTitle: Option<string>,
    sponsor: Option<string>)

  datatype UniversalDocument = UniversalDocument(
    documentType: string,
    title: string,
    metadata: DocumentMetadata,
    styling: DocumentStyling,
    pageSetup: PageSetup,
    headerFooter: HeaderFooter,
    sections: seq<Section>)

  // ---------------------------------------------------------------------
  // Field defaults

  /** `TableCell(content=...)` with every other field defaulted. */
  function NewTableCell(content: string): (c: TableCell)
    ensures c.content == content && c.colspan == 1 && c.rowspan == 1
    ensures c.alignment == Left && c.verticalAlignment == "center" && c.backgroundColor == None
  {
    TableCell(content, 1, 1, Left, "center", None)
  }

  /** `TableBlock(headers=..., rows=...)` with the defaults. */
  function NewTableBlock(headers: seq<string>, rows: seq<seq<CellEntry>>): (t: TableBlock)
    ensures t.headers == headers && t.rows == rows && t.columnWidths == None
    ensures t.style == "Table Grid" && t.headerBackground == "#CCCCCC"
  {
    TableBlock(headers, rows, None, "Table Grid", "#CCCCCC")
  }

  /** `ContentBlock(type=...)` with every other field defaulted. */
  function NewBlock(kind: ContentBlockType): (b: ContentBlock)
    ensures b.kind == kind && b.content == "" && b.alignment == Left
    ensures b.spacingBefore == 0 && b.spacingAfter == 0
    ensures b.level == None && b.formatting == None && b.items == None
    ensures b.listStyle == None && b.table == None && b.signature == None
  {
    ContentBlock(kind, "", None, None, Left, 0, 0, None, None, None, None)
  }

  /** `ContentBlock(type=PARAGRAPH, content=..., spacing_before=...,
      spacing_after=...)`. */
  function Para(text: string, before: int, after: int): ContentBlock
  {
    NewBlock(ParagraphType).(content := text, spacingBefore := before, spacingAfter := after)
  }

  /** `InlineFormat(start=..., end=..., italic=True)`. */
  function Italic(start: int, end: int): InlineFormat
  {
    InlineFormat(start, end, false, true, false)
  }

  /** `InlineFormat(start=..., end=..., bold=True)`. */
  function Bold(start: int, end: int): InlineFormat
  {
    InlineFormat(start, end, true, false, false)
  }

  /** A centred paragraph. */
  function Centered(text: string, after: int): ContentBlock
  {
    Para(text, 0, after).(alignment := Center)
  }

  /** A heading block of the given level. */
  function Heading(text: string, level: int, before: int, after: int): ContentBlock
  {
    NewBlock(HeadingType).(content := text, level := Some(level), spacingBefore := before, spacingAfter := after)
  }

  /** Plain string list items. */
  function StringItems(ss: seq<string>): (r: seq<ListEntry>)
    ensures |r| == |ss| && forall k :: 0 <= k < |ss| ==> r[k] == TextItem(ss[k])
  {
    seq(|ss|, k requires 0 <= k < |ss| => TextItem(ss[k]))
  }

  /** One paragraph block per text, in order, with the given spacing after. */
  function ParagraphBlocks(ps: seq<string>, after: int): seq<ContentBlock>
  {
    if ps == [] then [] else ParagraphBlocks(ps[..|ps| - 1], after) + [Para(ps[|ps| - 1], 0, after)]
  }

  lemma {:induction false} ParagraphBlocksSpec(ps: seq<string>, after: int)
    ensures |ParagraphBlocks(ps, after)| == |ps|
    ensures forall k :: 0 <= k < |ps| ==> ParagraphBlocks(ps, after)[k] == Para(ps[k], 0, after)
  {
    if ps != [] {
      ParagraphBlocksSpec(ps[..|ps| - 1], after);
    }
  }

  /** An `Optional[str]` model field: a string or None; anything else fails
      validation. */
  function OptionalString(v: Value): Result<Option<string>, string>
  {
    if v.VStr? then Ok(Some(v.s))
    else if v.VNone? then Ok(None)
    else Err("validation error: Input should be a valid string")
  }

  const DefaultStyling: DocumentStyling :=
    DocumentStyling("Arial", 11, "Arial", 16, 14, 12, 11, 1.15,
                    true, true, true, false, None, None, None, None)

  const DefaultPageSetup: PageSetup := PageSetup(8.5, 11.0, 1.0, 1.0, 1.0, 1.0)

  const DefaultHeaderFooter: HeaderFooter := HeaderFooter(None, None, true, "footer_right", false)

  /** Pydantic's `Section(...)`: the level is constrained to 1..4, and
      anything else is a validation error. */
  function NewSection(id: string, level: int, heading: string,
                      blocks: seq<ContentBlock>, subsections: seq<Section>): (r: Result<Section, string>)
    ensures r.Ok? <==> 1 <= level <= 4
    ensures r.Ok? ==> r.value == Section(id, level, heading, blocks, subsections)
  {
    if 1 <= level <= 4 then Ok(Section(id, level, heading, blocks, subsections))
    else Err("level: Input should be between 1 and 4")
  }

  // ---------------------------------------------------------------------
  // Validating a row entry of a table (`Union[str, TableCell]`)

  /** A string field of `TableCell`, its default when absent. */
  function StrField(f: map<string, Value>, key: string, default: string): Result<string, string>
  {
    if key !in f then Ok(default)
    else if f[key].VStr? then Ok(f[key].s)
    else Err("validation error: " + key + ": Input should be a valid string")
  }

  /** An integer field: in lax mode an int, a bool or an integer string. */
  function IntField(f: map<string, Value>, key: string, default: int): Result<int, string>
  {
    if key !in f then Ok(default)
    else match PyInt.IntOf(f[key])
      case Some(i) => Ok(i)
      case None => Err("validation error: " + key + ": Input should be a valid integer")
  }

  /** The alignment as one of the enum's values. */
  function AlignmentValue(v: Value): Option<Alignment>
  {
    if v == VStr("left") then Some(Left)
    else if v == VStr("center") then Some(Center)
    else if v == VStr("right") then Some(Right)
    else if v == VStr("justify") then Some(Justify)
    else None
  }

  function AlignmentField(f: map<string, Value>): Result<Alignment, string>
  {
    if "alignment" !in f then Ok(Left)
    else match AlignmentValue(f["alignment"])
      case Some(a) => Ok(a)
      case None => Err("validation error: alignment: Input should be 'left', 'center', 'right' or 'justify'")
  }

  /** `background_color: Optional[str]`. */
  function OptionalStrField(f: map<string, Value>, key: string): Result<Option<string>, string>
  {
    if key !in f || f[key] == VNone then Ok(None)
    else if f[key].VStr? then Ok(Some(f[key].s))
    else Err("validation error: " + key + ": Input should be a valid string")
  }

  /** A dict validated as a `TableCell`: each field from its key or its
      default; keys that are not fields are ignored. */
  function TableCellOf(f: map<string, Value>): Result<TableCell, string>
  {
    match StrField(f, "content", "")
    case Err(e) => Err(e)
    case Ok(content) =>
      match IntField(f, "colspan", 1)
      case Err(e) => Err(e)
      case Ok(colspan) =>
        match IntField(f, "rowspan", 1)
        case Err(e) => Err(e)
        case Ok(rowspan) =>
          match AlignmentField(f)
          case Err(e) => Err(e)
          case Ok(alignment) =>
            match StrField(f, "vertical_alignment", "center")
            case Err(e) => Err(e)
            case Ok(valign) =>
              match OptionalStrField(f, "background_color")
              case Err(e) => Err(e)
              case Ok(background) => Ok(TableCell(content, colspan, rowspan, alignment, valign, background))
  }

  /** One entry of a row of `TableBlock.rows`: a string stays text, a dict
      becomes the `TableCell` it validates as, and anything else fails. */
  function CellEntryOf(v: Value): Result<CellEntry, string>
  {
    match v
    case VStr(s) => Ok(TextCell(s))
    case VDict(f) =>
      (match TableCellOf(f)
       case Err(e) => Err(e)
       case Ok(c) => Ok(RichCell(c)))
    case _ => Err("validation error: Input should be a valid string or a TableCell")
  }

  /** One row of a `TableBlock`, validated entry by entry. */
  function RowCellsOf(row: seq<Value>): Result<seq<CellEntry>, string>
  {
    Seqs.Traverse(row, CellEntryOf)
  }

  /** The rows of a `TableBlock`, validated row by row. */
  function TableRowsOf(rows: seq<seq<Value>>): Result<seq<seq<CellEntry>>, string>
  {
    Seqs.Traverse(rows, RowCellsOf)
  }

  /** Whether a dict validates as a `TableCell`: each field that is
      present has a value its type accepts. */
  predicate CellFieldsValid(f: map<string, Value>)
  {
    && ("content" in f ==> f["content"].VStr?)
    && ("colspan" in f ==> PyInt.IntOf(f["colspan"]).Some?)
    && ("rowspan" in f ==> PyInt.IntOf(f["rowspan"]).Some?)
    && ("alignment" in f ==> f["alignment"] in [VStr("left"), VStr("center"), VStr("right"), VStr("justify")])
    && ("vertical_alignment" in f ==> f["vertical_alignment"].VStr?)
    && ("background_color" in f ==> f["background_color"].VNone? || f["background_color"].VStr?)
  }

  /** A string entry is a text cell; a dict entry is a `TableCell` exactly
      when its fields are valid, each field then its value or its default;
      every other value fails. */
  lemma CellEntryOfSpec(v: Value)
    ensures v.VStr? ==> CellEntryOf(v) == Ok(TextCell(v.s))
    ensures !v.VStr? && !v.VDict? ==> CellEntryOf(v).Err?
    ensures v.VDict? ==> (CellEntryOf(v).Ok? <==> CellFieldsValid(v.fields))
    ensures v.VDict? && CellEntryOf(v).Ok? ==>
      var f := v.fields;
      var c := CellEntryOf(v).value;
      && c.RichCell?
      && c.cell.content == (if "content" in f then f["content"].s else "")
      && c.cell.colspan == (if "colspan" in f then PyInt.IntOf(f["colspan"]).value else 1)
      && c.cell.rowspan == (if "rowspan" in f then PyInt.IntOf(f["rowspan"]).value else 1)
      && (("alignment" !in f) ==> c.cell.alignment == Left)
      && (("alignment" in f) ==> AlignmentName(c.cell.alignment) == f["alignment"].s)
      && c.cell.verticalAlignment == (if "vertical_alignment" in f then f["vertical_alignment"].s else "center")
      && c.cell.backgroundColor == (if "background_color" in f && f["background_color"].VStr?
                                    then Some(f["background_color"].s) else None)
  {
    if v.VDict? {
      TableCellOfValid(v.fields);
      if TableCellOf(v.fields).Ok? {
        TableCellOfFields(v.fields);
      }
    }
  }

  /** A dict validates as a `TableCell` exactly when its fields are valid. */
  lemma TableCellOfValid(f: map<string, Value>)
    ensures TableCellOf(f).Ok? <==> CellFieldsValid(f)
  {
    StrFieldOk(f, "content", "");
    IntFieldOk(f, "colspan", 1);
    IntFieldOk(f, "rowspan", 1);
    AlignmentFieldOk(f);
    StrFieldOk(f, "vertical_alignment", "center");
    OptionalStrFieldOk(f, "background_color");
  }

  lemma StrFieldOk(f: map<string, Value>, key: string, default: string)
    ensures StrField(f, key, default).Ok? <==> (key in f ==> f[key].VStr?)
  {
  }

  lemma IntFieldOk(f: map<string, Value>, key: string, default: int)
    ensures IntField(f, key, default).Ok? <==> (key in f ==> PyInt.IntOf(f[key]).Some?)
  {
  }

  lemma AlignmentFieldOk(f: map<string, Value>)
    ensures AlignmentField(f).Ok? <==>
      ("alignment" in f ==> f["alignment"] in [VStr("left"), VStr("center"), VStr("right"), VStr("justify")])
  {
  }

  lemma OptionalStrFieldOk(f: map<string, Value>, key: string)
    ensures OptionalStrField(f, key).Ok? <==> (key in f ==> f[key].VNone? || f[key].VStr?)
  {
  }

  /** Each field of a validated `TableCell` is its value or its default. */
  lemma TableCellOfFields(f: map<string, Value>)
    requires TableCellOf(f).Ok?
    ensures var c := TableCellOf(f).value;
      && c.content == (if "content" in f then f["content"].s else "")
      && c.colspan == (if "colspan" in f then PyInt.IntOf(f["colspan"]).value else 1)
      && c.rowspan == (if "rowspan" in f then PyInt.IntOf(f["rowspan"]).value else 1)
      && (("alignment" !in f) ==> c.alignment == Left)
      && (("alignment" in f) ==> AlignmentName(c.alignment) == f["alignment"].s)
      && c.verticalAlignment == (if "vertical_alignment" in f then f["vertical_alignment"].s else "center")
      && c.backgroundColor == (if "background_color" in f && f["background_color"].VStr?
                               then Some(f["background_color"].s) else None)
  {
  }

  /** An empty dict is the default `TableCell`. */
  lemma EmptyDictIsDefaultCell()
    ensures CellEntryOf(VDict(map[])) == Ok(RichCell(NewTableCell("")))
  {
  }

  /** Keys that are not fields of `TableCell` play no part. */
  lemma ExtraKeysIgnored(f: map<string, Value>, key: string, x: Value)
    requires key !in ["content", "colspan", "rowspan", "alignment", "vertical_alignment", "background_color"]
    ensures CellEntryOf(VDict(f[key := x])) == CellEntryOf(VDict(f))
  {
    assert StrField(f[key := x], "content", "") == StrField(f, "content", "");
    assert IntField(f[key := x], "colspan", 1) == IntField(f, "colspan", 1);
    assert IntField(f[key := x], "rowspan", 1) == IntField(f, "rowspan", 1);
    assert AlignmentField(f[key := x]) == AlignmentField(f);
    assert StrField(f[key := x], "vertical_alignment", "center") == StrField(f, "vertical_alignment", "center");
    assert OptionalStrField(f[key := x], "background_color") == OptionalStrField(f, "background_color");
  }

  /** A row whose every entry validates is the row of those cells. */
  lemma RowCellsOfEach(row: seq<Value>, cells: seq<CellEntry>)
    requires |row| == |cells| && forall j :: 0 <= j < |row| ==> CellEntryOf(row[j]) == Ok(cells[j])
    ensures RowCellsOf(row) == Ok(cells)
  {
    Seqs.TraverseFailIff(row, CellEntryOf);
    Seqs.TraverseSpec(row, CellEntryOf);
    assert RowCellsOf(row).value == cells;
  }

  /** The rows validate exactly when every entry does, and then each
      entry is the cell it validates as, in place. */
  lemma TableRowsOfSpec(rows: seq<seq<Value>>)
    ensures TableRowsOf(rows).Err? <==>
      exists i, j :: 0 <= i < |rows| && 0 <= j < |rows[i]| && CellEntryOf(rows[i][j]).Err?
    ensures TableRowsOf(rows).Ok? ==>
      var t := TableRowsOf(rows).value;
      && |t| == |rows|
      && forall i :: 0 <= i < |rows| ==>
           |t[i]| == |rows[i]| && forall j :: 0 <= j < |rows[i]| ==> CellEntryOf(rows[i][j]) == Ok(t[i][j])
  {
    Seqs.TraverseFailIff(rows, RowCellsOf);
    forall i | 0 <= i < |rows| ensures RowCellsOf(rows[i]).Err? <==> exists j :: 0 <= j < |rows[i]| && CellEntryOf(rows[i][j]).Err? {
      Seqs.TraverseFailIff(rows[i], CellEntryOf);
    }
    if TableRowsOf(rows).Ok? {
      Seqs.TraverseSpec(rows, RowCellsOf);
      forall i | 0 <= i < |rows| ensures forall j :: 0 <= j < |rows[i]| ==> CellEntryOf(rows[i][j]) == Ok(TableRowsOf(rows).value[i][j]) {
        Seqs.TraverseSpec(rows[i], CellEntryOf);
      }
    }
  }

  // ---------------------------------------------------------------------
  // Flattening and counting

  /** `get_all_sections_flat`: every section, each followed by its
      subsections, siblings in order. */
  function Flatten(ss: seq<Section>): seq<Section>
    decreases ss
  {
    if ss == [] then [] else [ss[0]] + Flatten(ss[0].subsections) + Flatten(ss[1..])
  }

  /** The number of sections at every depth, counted on the tree. */
  function TreeSize(ss: seq<Section>): nat
    decreases ss
  {
    if ss == [] then 0 else 1 + TreeSize(ss[0].subsections) + TreeSize(ss[1..])
  }

  /** The number of content blocks at every depth, counted on the tree. */
  function TreeBlocks(ss: seq<Section>): nat
    decreases ss
  {
    if ss == [] then 0 else |ss[0].blocks| + TreeBlocks(ss[0].subsections) + TreeBlocks(ss[1..])
  }

  /** Sum of `len(content_blocks)` over a list of sections. */
  function SumBlocks(flat: seq<Section>): nat
  {
    if flat == [] then 0 else |flat[0].blocks| + SumBlocks(flat[1..])
  }

  function GetAllSectionsFlat(doc: UniversalDocument): seq<Section>
  {
    Flatten(doc.sections)
  }

  /** `count_sections`: the total number of sections at every depth. */
  function CountSections(doc: UniversalDocument): (n: nat)
    ensures n == TreeSize(doc.sections)
  {
    FlattenLength(doc.sections);
    |GetAllSectionsFlat(doc)|
  }

  /** `count_content_blocks`: the total number of blocks at every depth. */
  function CountContentBlocks(doc: UniversalDocument): (n: nat)
    ensures n == TreeBlocks(doc.sections)
  {
    FlattenBlocks(doc.sections);
    SumBlocks(GetAllSectionsFlat(doc))
  }

  lemma {:induction false} FlattenAppend(a: seq<Section>, b: seq<Section>)
    ensures Flatten(a + b) == Flatten(a) + Flatten(b)
    decreases a
  {
    if a != [] {
      assert (a + b)[0] == a[0];
      assert (a + b)[1..] == a[1..] + b;
      FlattenAppend(a[1..], b);
    } else {
      assert a + b == b;
    }
  }

  lemma {:induction false} FlattenLength(ss: seq<Section>)
    ensures |Flatten(ss)| == TreeSize(ss)
    decreases ss
  {
    if ss != [] {
      FlattenLength(ss[0].subsections);
      FlattenLength(ss[1..]);
    }
  }

  lemma {:induction false} SumBlocksAppend(a: seq<Section>, b: seq<Section>)
    ensures SumBlocks(a + b) == SumBlocks(a) + SumBlocks(b)
  {
    if a != [] {
      assert (a + b)[1..] == a[1..] + b;
      SumBlocksAppend(a[1..], b);
    } else {
      assert a + b == b;
    }
  }

  lemma {:induction false} FlattenBlocks(ss: seq<Section>)
    ensures SumBlocks(Flatten(ss)) == TreeBlocks(ss)
    decreases ss
  {
    if ss != [] {
      var s := ss[0];
      FlattenBlocks(s.subsections);
      FlattenBlocks(ss[1..]);
      SumBlocksAppend([s] + Flatten(s.subsections), Flatten(ss[1..]));
      SumBlocksAppend([s], Flatten(s.subsections));
    }
  }

  /** Pre-order: in the flat list, every section is immediately followed by
      the flattening of its own subsections. */
  lemma {:induction false} FlattenPreOrder(ss: seq<Section>, k: nat)
    requires k < |Flatten(ss)|
    ensures var f := Flatten(ss); Flatten(f[k].subsections) <= f[k + 1..]
    decreases ss
  {
    var s := ss[0];
    var sub := Flatten(s.subsections);
    var rest := Flatten(ss[1..]);
    var f := Flatten(ss);
    assert f == [s] + sub + rest;
    ConsConcatAt(s, sub, rest, k);
    if k == 0 {
      PrefixOfConcat(sub, sub, rest);
    } else if k <= |sub| {
      FlattenPreOrder(s.subsections, k - 1);
      PrefixOfConcat(Flatten(sub[k - 1].subsections), sub[k..], rest);
    } else {
      FlattenPreOrder(ss[1..], k - 1 - |sub|);
    }
  }

  lemma PrefixOfConcat(x: seq<Section>, a: seq<Section>, b: seq<Section>)
    requires x <= a
    ensures x <= a + b
  {
    assert (a + b)[..|x|] == a[..|x|];
  }

  /** Indexing and slicing `[x] + a + b` at `k`. */
  lemma ConsConcatAt(x: Section, a: seq<Section>, b: seq<Section>, k: nat)
    requires k < 1 + |a| + |b|
    ensures var f := [x] + a + b;
      f[k] == (if k == 0 then x else if k <= |a| then a[k - 1] else b[k - 1 - |a|])
      && (k <= |a| ==> f[k + 1..] == a[k..] + b)
      && (k > |a| ==> f[k + 1..] == b[k - |a|..])
  {
    var f := [x] + a + b;
    if k <= |a| {
      assert f[k + 1..] == a[k..] + b;
    } else {
      assert f[k + 1..] == b[k - |a|..];
    }
  }

  /** Siblings keep their order: the top-level sections appear in the flat
      list in their original order, each one where its own subtree starts. */
  lemma {:induction false} FlattenTopLevel(ss: seq<Section>, i: nat)
    requires i < |ss|
    ensures var pos := TreeSize(ss[..i]);
      pos < |Flatten(ss)| && Flatten(ss)[pos] == ss[i]
  {
    assert ss == ss[..i] + ss[i..];
    FlattenAppend(ss[..i], ss[i..]);
    FlattenLength(ss[..i]);
    assert Flatten(ss[i..])[0] == ss[i];
  }
}
