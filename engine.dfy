/** The document engine's rendering path: validate first (optionally), make
    a fresh document with its builders, apply the document-wide styling,
    add the title, render every section in pre-order, and check that the
    saved archive holds the parts a Word package needs (the content-types
    part and the main document part of the Open Packaging Conventions,
    ECMA-376 Part 2). */
module Engine {
  import opened Wrappers
  import opened PyValue
  import opened Schema
  import opened Output
  import Validator
  import SectionBuilder
  import TableBuilder
  import ListBuilder
  import Styles

  // ---------------------------------------------------------------------
  // Turning UIF blocks into the builders' inputs

  /** The `ranges` dict of `_render_paragraph`: one dict per formatting
      range, with its start, end and three flags. */
  function RangeDictOf(f: InlineFormat): SectionBuilder.RangeEntry
  {
    SectionBuilder.RangeDict(map["start" := VInt(f.start), "end" := VInt(f.end), "bold" := VBool(f.bold),
                                 "italic" := VBool(f.italic), "underline" := VBool(f.underline)])
  }

  /** The block dict `_render_paragraph` hands to `add_paragraph`; ranges
      are passed only when the block has a non-empty formatting list. */
  function ParagraphDict(b: ContentBlock): (d: SectionBuilder.BlockDict)
    ensures d.blockType == "paragraph" && d.content == b.content
    ensures d.alignment == AlignmentName(b.alignment)
    ensures d.spacingBefore == b.spacingBefore && d.spacingAfter == b.spacingAfter
    ensures b.formatting.None? ==> d.ranges == []
    ensures b.formatting.Some? ==> |d.ranges| == |b.formatting.value|
    ensures b.formatting.Some? ==> forall i :: 0 <= i < |d.ranges| ==> d.ranges[i] == RangeDictOf(b.formatting.value[i])
  {
    var ranges := if b.formatting.Some? then b.formatting.value else [];
    SectionBuilder.BlockDict("paragraph", b.content, 0, AlignmentName(b.alignment), b.spacingBefore, b.spacingAfter,
                             seq(|ranges|, i requires 0 <= i < |ranges| => RangeDictOf(ranges[i])))
  }

  /** `level = block.level if block.level else 1`. */
  function HeadingBlockLevel(b: ContentBlock): (l: int)
    ensures b.level.None? || b.level.value == 0 ==> l == 1
    ensures b.level.Some? && b.level.value != 0 ==> l == b.level.value
  {
    if b.level.None? || b.level.value == 0 then 1 else b.level.value
  }

  /** `_prepare_list_items`: strings and dicts are passed through. */
  function ListInputOf(e: ListEntry): ListBuilder.ListInput
  {
    match e
    case TextItem(s) => ListBuilder.ItemValue(VStr(s))
    case DictItem(m) => ListBuilder.ItemValue(VDict(m))
  }

  function PreparedItems(items: seq<ListEntry>): (r: seq<ListBuilder.ListInput>)
    ensures |r| == |items|
  {
    seq(|items|, i requires 0 <= i < |items| => ListInputOf(items[i]))
  }

  /** `_prepare_list_items`, one item at a time. */
  method PrepareListItems(items: seq<ListEntry>) returns (processed: seq<ListBuilder.ListInput>)
    ensures processed == PreparedItems(items)
  {
    processed := [];
    var i := 0;
    while i < |items|
      invariant 0 <= i <= |items|
      invariant processed == PreparedItems(items[..i])
    {
      processed := processed + [ListInputOf(items[i])];
      i := i + 1;
    }
    assert items[..i] == items;
  }

  /** A string item renders as its own text at level 0; a dict item goes to
      the list builder's dict parsing unchanged. */
  lemma PreparedItemsAt(items: seq<ListEntry>, i: nat)
    requires i < |items|
    ensures items[i].TextItem? ==>
      ListBuilder.ParseItem(PreparedItems(items)[i])
        == Some(ListBuilder.ListItem(ListBuilder.TextContent(items[i].text), 0, None, []))
    ensures items[i].DictItem? ==> PreparedItems(items)[i] == ListBuilder.ItemValue(VDict(items[i].fields))
  {
  }

  /** The numbering style of a numbered list block: its list style, else
      "decimal". */
  function NumberedStyle(b: ContentBlock): string
  {
    if b.listStyle.Some? then ListStyleName(b.listStyle.value) else "decimal"
  }

  /** `_prepare_table_rows` on one entry: text stays text, a `TableCell`
      becomes the dict of its fields. */
  function RowEntryOf(c: CellEntry): TableBuilder.RowEntry
  {
    match c
    case TextCell(s) => TableBuilder.TextEntry(s)
    case RichCell(t) =>
      TableBuilder.DictEntry(t.content, t.colspan, t.rowspan, AlignmentName(t.alignment), t.verticalAlignment,
                             t.backgroundColor)
  }

  function PreparedRow(row: seq<CellEntry>): (r: seq<TableBuilder.RowEntry>)
    ensures |r| == |row|
  {
    seq(|row|, j requires 0 <= j < |row| => RowEntryOf(row[j]))
  }

  function PreparedRows(rows: seq<seq<CellEntry>>): (r: seq<seq<TableBuilder.RowEntry>>)
    ensures |r| == |rows|
  {
    seq(|rows|, i requires 0 <= i < |rows| => PreparedRow(rows[i]))
  }

  method PrepareRow(row: seq<CellEntry>) returns (processed: seq<TableBuilder.RowEntry>)
    ensures processed == PreparedRow(row)
  {
    processed := [];
    var j := 0;
    while j < |row|
      invariant 0 <= j <= |row|
      invariant processed == PreparedRow(row[..j])
    {
      processed := processed + [RowEntryOf(row[j])];
      j := j + 1;
    }
    assert row[..j] == row;
  }

  /** `_prepare_table_rows`: every row converted, in order. */
  method PrepareTableRows(rows: seq<seq<CellEntry>>) returns (processed: seq<seq<TableBuilder.RowEntry>>)
    ensures processed == PreparedRows(rows)
  {
    processed := [];
    var i := 0;
    while i < |rows|
      invariant 0 <= i <= |rows|
      invariant processed == PreparedRows(rows[..i])
    {
      var row := PrepareRow(rows[i]);
      processed := processed + [row];
      i := i + 1;
    }
    assert rows[..i] == rows;
  }

  /** The table dict of `_render_table`; absent widths are `[]`. */
  function TableDictOf(t: TableBlock): TableBuilder.TableDict
  {
    TableBuilder.TableDict(t.headers, PreparedRows(t.rows), t.columnWidths.GetOr([]), t.style, t.headerBackground)
  }

  /** A text cell keeps its text, and a rich cell its content and spans. */
  lemma TableDictKeepsCells(t: TableBlock, i: nat, j: nat)
    requires i < |t.rows| && j < |t.rows[i]|
    ensures var e := TableDictOf(t).rows[i][j];
      && (t.rows[i][j].TextCell? ==> e == TableBuilder.TextEntry(t.rows[i][j].text))
      && (t.rows[i][j].RichCell? ==>
            e.DictEntry? && e.content == t.rows[i][j].cell.content
            && e.colspan == t.rows[i][j].cell.colspan && e.rowspan == t.rows[i][j].cell.rowspan)
  {
  }

  // ---------------------------------------------------------------------
  // Signature blocks

  /** `int(width * 20)`, with float arithmetic taken as exact; a negative
      count gives no underscores, as `"_" * n` does. */
  function LineLength(width: real): nat
  {
    var x := width * 20.0;
    if x >= 0.0 then x.Floor else 0
  }

  function Underscores(n: nat): (s: string)
    ensures |s| == n && forall i :: 0 <= i < n ==> s[i] == '_'
  {
    seq(n, _ => '_')
  }

  /** One signature line: the bold label with ": ", then the underscores,
      and 12 points after. */
  function LineElement(l: SignatureLine): Element
  {
    Para([Run(l.labelText + ": ", Some(true), None, None, None), PlainRun(Underscores(LineLength(l.lineWidthInches)))],
         None, None, None, Some(12), None, None)
  }

  function LineElements(ls: seq<SignatureLine>): (r: seq<Element>)
    ensures |r| == |ls|
  {
    if ls == [] then [] else LineElements(ls[..|ls| - 1]) + [LineElement(ls[|ls| - 1])]
  }

  /** `_render_signature_block` with signature data: the preamble, when it
      is given, then one paragraph per line. */
  function SignatureElements(sig: SignatureBlock): seq<Element>
  {
    (if Styles.Given(sig.preamble) then [SimplePara([PlainRun(sig.preamble.value)])] else []) + LineElements(sig.lines)
  }

  lemma {:induction false} LineElementsAt(ls: seq<SignatureLine>, i: nat)
    requires i < |ls|
    ensures LineElements(ls)[i] == LineElement(ls[i])
    decreases |ls|
  {
    if i < |ls| - 1 {
      LineElementsAt(ls[..|ls| - 1], i);
    }
  }

  /** Every signature line becomes one paragraph, after the preamble if
      there is one; its text is the label, ": " and as many underscores as
      the width asks for, and only the label is bold. */
  lemma SignatureLayout(sig: SignatureBlock, i: nat)
    requires i < |sig.lines|
    ensures var k := if Styles.Given(sig.preamble) then 1 else 0;
      && |SignatureElements(sig)| == k + |sig.lines|
      && var e := SignatureElements(sig)[k + i];
      && e.Para? && |e.runs| == 2 && e.spaceAfter == Some(12)
      && RunsText(e.runs) == sig.lines[i].labelText + ": " + Underscores(LineLength(sig.lines[i].lineWidthInches))
      && e.runs[0].bold == Some(true) && e.runs[1].bold == None
  {
    LineElementsAt(sig.lines, i);
    var e := LineElement(sig.lines[i]);
    assert RunsText(e.runs) == e.runs[0].text + RunsText(e.runs[1..]);
    assert e.runs[1..][1..] == [];
  }

  // ---------------------------------------------------------------------
  // What rendering builds

  /** The parts of the document that rendering the body changes: the body,
      the list builder's numbering counter and the numbering part. */
  datatype Out = Out(body: seq<Element>, counter: nat, abstractNums: seq<AbstractNum>,
                     nums: seq<NumInstance>)

  /** What `_render_content_block` does, with the styles of the document;
      `None` when a builder raised. Lists without items, tables without
      table data and signature blocks without signature data add nothing. */
  function BlockOut(styles: map<string, StyleRecord>, o: Out, b: ContentBlock): Option<Out>
  {
    match b.kind
    case ParagraphType => Some(o.(body := o.body + [SectionBuilder.ParagraphElement(ParagraphDict(b))]))
    case HeadingType => Some(o.(body := o.body + [SectionBuilder.HeadingElement(b.content, HeadingBlockLevel(b))]))
    case PageBreakType => Some(o.(body := o.body + [PageBreak]))
    case BulletListType =>
      if b.items.None? || b.items.value == [] then Some(o)
      else
        (match ListBuilder.ListParagraphs(ListBuilder.BulletKind(styles), PreparedItems(b.items.value))
         case None => None
         case Some(ps) => Some(o.(body := o.body + ps)))
    case NumberedListType =>
      if b.items.None? || b.items.value == [] then Some(o)
      else
        var id := o.counter + 1;
        (match ListBuilder.ListParagraphs(ListBuilder.NumberedKind(id), PreparedItems(b.items.value))
         case None => None
         case Some(ps) =>
           Some(Out(o.body + ps, id,
                    o.abstractNums + [ListBuilder.AbstractNumbering(id, ListBuilder.NumberingFormat(NumberedStyle(b)), 1)],
                    o.nums + [NumInstance(id, id)])))
    case TableType =>
      if b.table.None? then Some(o)
      else
        (match TableBuilder.TableElement(styles, TableDictOf(b.table.value))
         case None => Some(o)
         case Some(e) => Some(o.(body := o.body + [e, EmptyPara])))
    case SignatureBlockType =>
      if b.signature.None? then Some(o)
      else Some(o.(body := o.body + SignatureElements(b.signature.value)))
  }

  /** A non-empty numbered list takes the next numbering id: its paragraphs
      are added under it along with its abstract and concrete numbering. */
  lemma NumberedBlockOut(styles: map<string, StyleRecord>, o: Out, b: ContentBlock, id: int)
    requires b.kind == NumberedListType && b.items.Some? && b.items.value != []
    requires id == o.counter + 1
    ensures var ps := ListBuilder.ListParagraphs(ListBuilder.NumberedKind(id), PreparedItems(b.items.value));
      ps.None? ==> BlockOut(styles, o, b) == None
    ensures var ps := ListBuilder.ListParagraphs(ListBuilder.NumberedKind(id), PreparedItems(b.items.value));
      ps.Some? ==>
        BlockOut(styles, o, b)
          == Some(Out(o.body + ps.value, id,
                      o.abstractNums + [ListBuilder.AbstractNumbering(id, ListBuilder.NumberingFormat(NumberedStyle(b)), 1)],
                      o.nums + [NumInstance(id, id)]))
  {
  }

  /** The blocks of a section, rendered in order; the first that raises
      stops the render. */
  function BlocksOut(styles: map<string, StyleRecord>, o: Out, bs: seq<ContentBlock>): Option<Out>
  {
    if bs == [] then Some(o)
    else
      match BlocksOut(styles, o, bs[..|bs| - 1])
      case None => None
      case Some(p) => BlockOut(styles, p, bs[|bs| - 1])
  }

  /** A section's own part: its heading (always, even a blank one, which
      then becomes an empty paragraph), then its blocks. */
  function OwnOut(styles: map<string, StyleRecord>, o: Out, s: Section): Option<Out>
  {
    BlocksOut(styles, o.(body := o.body + [SectionBuilder.HeadingElement(s.heading, s.level)]), s.blocks)
  }

  /** `_render_section`: its own part, then its subsections. */
  function SectionOut(styles: map<string, StyleRecord>, o: Out, s: Section): Option<Out>
    decreases s, 1
  {
    match OwnOut(styles, o, s)
    case None => None
    case Some(p) => SectionsOut(styles, p, s.subsections)
  }

  function SectionsOut(styles: map<string, StyleRecord>, o: Out, ss: seq<Section>): Option<Out>
    decreases ss, 0
  {
    if ss == [] then Some(o)
    else
      match SectionsOut(styles, o, ss[..|ss| - 1])
      case None => None
      case Some(p) => SectionOut(styles, p, ss[|ss| - 1])
  }

  /** The own parts of a flat list of sections, in order. */
  function FlatOut(styles: map<string, StyleRecord>, o: Out, flat: seq<Section>): Option<Out>
  {
    if flat == [] then Some(o)
    else
      match FlatOut(styles, o, flat[..|flat| - 1])
      case None => None
      case Some(p) => OwnOut(styles, p, flat[|flat| - 1])
  }

  /** `FlatOut` continued from a result that may have failed. */
  function FlatThen(styles: map<string, StyleRecord>, r: Option<Out>, flat: seq<Section>): Option<Out>
  {
    match r
    case None => None
    case Some(o) => FlatOut(styles, o, flat)
  }

  lemma {:induction false} FlatOutAppend(styles: map<string, StyleRecord>, o: Out, a: seq<Section>, b: seq<Section>)
    ensures FlatOut(styles, o, a + b) == FlatThen(styles, FlatOut(styles, o, a), b)
    decreases |b|
  {
    if b == [] {
      assert a + b == a;
      match FlatOut(styles, o, a)
      case None =>
      case Some(_) =>
    } else {
      var b' := b[..|b| - 1];
      assert (a + b)[..|a + b| - 1] == a + b';
      assert (a + b)[|a + b| - 1] == b[|b| - 1];
      FlatOutAppend(styles, o, a, b');
    }
  }

  lemma FlatOutSingle(styles: map<string, StyleRecord>, o: Out, s: Section)
    ensures FlatOut(styles, o, [s]) == OwnOut(styles, o, s)
  {
    assert [s][..0] == [];
  }

  /** Rendering the sections visits exactly the sections of the flattened
      tree, in its order, each with its heading and blocks: sections are
      emitted in pre-order. */
  lemma {:induction false} SectionsPreOrder(styles: map<string, StyleRecord>, o: Out, ss: seq<Section>)
    ensures SectionsOut(styles, o, ss) == FlatOut(styles, o, Flatten(ss))
    decreases ss, 0
  {
    if ss != [] {
      var front, last := ss[..|ss| - 1], ss[|ss| - 1];
      assert ss == front + [last];
      FlattenAppend(front, [last]);
      SectionsPreOrder(styles, o, front);
      FlatOutAppend(styles, o, Flatten(front), Flatten([last]));
      match SectionsOut(styles, o, front)
      case None =>
      case Some(p) =>
        SectionPreOrder(styles, p, last);
        FlattenSingle(last);
    }
  }

  lemma {:induction false} SectionPreOrder(styles: map<string, StyleRecord>, o: Out, s: Section)
    ensures SectionOut(styles, o, s) == FlatOut(styles, o, [s] + Flatten(s.subsections))
    decreases s, 1
  {
    FlatOutAppend(styles, o, [s], Flatten(s.subsections));
    FlatOutSingle(styles, o, s);
    match OwnOut(styles, o, s)
    case None =>
    case Some(p) => SectionsPreOrder(styles, p, s.subsections);
  }

  lemma FlattenSingle(s: Section)
    ensures Flatten([s]) == [s] + Flatten(s.subsections)
  {
    assert [s][1..] == [];
    assert Flatten([s][1..]) == [];
  }

  // ---------------------------------------------------------------------
  // Properties of block rendering

  /** A heading block with no level or level 0 becomes a level-1 heading. */
  lemma HeadingBlockDefault(styles: map<string, StyleRecord>, o: Out, b: ContentBlock)
    requires b.kind == HeadingType && (b.level.None? || b.level.value == 0)
    ensures BlockOut(styles, o, b) == Some(o.(body := o.body + [SectionBuilder.HeadingElement(b.content, 1)]))
  {
  }

  /** Rendering only ever appends to the body. */
  lemma BlockOutExtends(styles: map<string, StyleRecord>, o: Out, b: ContentBlock)
    requires BlockOut(styles, o, b).Some?
    ensures o.body <= BlockOut(styles, o, b).value.body
  {
  }

  lemma {:induction false} BlocksOutExtends(styles: map<string, StyleRecord>, o: Out, bs: seq<ContentBlock>)
    requires BlocksOut(styles, o, bs).Some?
    ensures o.body <= BlocksOut(styles, o, bs).value.body
    decreases |bs|
  {
    if bs != [] {
      var p := BlocksOut(styles, o, bs[..|bs| - 1]).value;
      BlocksOutExtends(styles, o, bs[..|bs| - 1]);
      BlockOutExtends(styles, p, bs[|bs| - 1]);
    }
  }

  /** Every section, blank heading or not, starts with its heading element,
      right after what was rendered before it. */
  lemma SectionHeadingFirst(styles: map<string, StyleRecord>, o: Out, s: Section)
    requires OwnOut(styles, o, s).Some?
    ensures o.body + [SectionBuilder.HeadingElement(s.heading, s.level)] <= OwnOut(styles, o, s).value.body
  {
    BlocksOutExtends(styles, o.(body := o.body + [SectionBuilder.HeadingElement(s.heading, s.level)]), s.blocks);
  }

  /** The first block that raises stops the render of all blocks. */
  lemma {:induction false} BlocksOutFailure(styles: map<string, StyleRecord>, o: Out, bs: seq<ContentBlock>, k: nat)
    requires k <= |bs| && BlocksOut(styles, o, bs[..k]) == None
    ensures BlocksOut(styles, o, bs) == None
    decreases |bs|
  {
    if k < |bs| {
      assert bs[..|bs| - 1][..k] == bs[..k];
      BlocksOutFailure(styles, o, bs[..|bs| - 1], k);
    } else {
      assert bs[..k] == bs;
    }
  }

  lemma BlocksOutSnoc(styles: map<string, StyleRecord>, o: Out, bs: seq<ContentBlock>, i: nat, p: Out)
    requires i < |bs| && BlocksOut(styles, o, bs[..i]) == Some(p)
    ensures BlocksOut(styles, o, bs[..i + 1]) == BlockOut(styles, p, bs[i])
  {
    assert bs[..i + 1][..i] == bs[..i];
  }

  lemma SectionsOutSnoc(styles: map<string, StyleRecord>, o: Out, ss: seq<Section>, i: nat, p: Out)
    requires i < |ss| && SectionsOut(styles, o, ss[..i]) == Some(p)
    ensures SectionsOut(styles, o, ss[..i + 1]) == SectionOut(styles, p, ss[i])
  {
    assert ss[..i + 1][..i] == ss[..i];
  }

  lemma {:induction false} SectionsOutFailure(styles: map<string, StyleRecord>, o: Out, ss: seq<Section>, k: nat)
    requires k <= |ss| && SectionsOut(styles, o, ss[..k]) == None
    ensures SectionsOut(styles, o, ss) == None
    decreases |ss|
  {
    if k < |ss| {
      assert ss[..|ss| - 1][..k] == ss[..k];
      SectionsOutFailure(styles, o, ss[..|ss| - 1], k);
    } else {
      assert ss[..k] == ss;
    }
  }

  // ---------------------------------------------------------------------
  // Numbering ids

  /** The numbering part holds one definition per numbered list so far,
      the k-th with abstract id and instance id k + 1: ids are 1, 2, ...
      in order, hence unique. */
  predicate NumberingConsistent(o: Out)
  {
    && |o.abstractNums| == o.counter && |o.nums| == o.counter
    && (forall k :: 0 <= k < o.counter ==> o.nums[k] == NumInstance(k + 1, k + 1))
    && (forall k :: 0 <= k < o.counter ==> o.abstractNums[k].abstractNumId == k + 1)
  }

  lemma BlockKeepsNumbering(styles: map<string, StyleRecord>, o: Out, b: ContentBlock)
    requires NumberingConsistent(o) && BlockOut(styles, o, b).Some?
    ensures NumberingConsistent(BlockOut(styles, o, b).value)
  {
    if b.kind == NumberedListType && !(b.items.None? || b.items.value == []) {
      var o' := BlockOut(styles, o, b).value;
      assert forall k :: 0 <= k < o.counter ==> o'.nums[k] == o.nums[k];
      assert forall k :: 0 <= k < o.counter ==> o'.abstractNums[k] == o.abstractNums[k];
    }
  }

  lemma {:induction false} BlocksKeepNumbering(styles: map<string, StyleRecord>, o: Out, bs: seq<ContentBlock>)
    requires NumberingConsistent(o) && BlocksOut(styles, o, bs).Some?
    ensures NumberingConsistent(BlocksOut(styles, o, bs).value)
    decreases |bs|
  {
    if bs != [] {
      BlocksKeepNumbering(styles, o, bs[..|bs| - 1]);
      BlockKeepsNumbering(styles, BlocksOut(styles, o, bs[..|bs| - 1]).value, bs[|bs| - 1]);
    }
  }

  lemma {:induction false} FlatKeepsNumbering(styles: map<string, StyleRecord>, o: Out, flat: seq<Section>)
    requires NumberingConsistent(o) && FlatOut(styles, o, flat).Some?
    ensures NumberingConsistent(FlatOut(styles, o, flat).value)
    decreases |flat|
  {
    if flat != [] {
      FlatKeepsNumbering(styles, o, flat[..|flat| - 1]);
      var p := FlatOut(styles, o, flat[..|flat| - 1]).value;
      var s := flat[|flat| - 1];
      BlocksKeepNumbering(styles, p.(body := p.body + [SectionBuilder.HeadingElement(s.heading, s.level)]), s.blocks);
    }
  }

  /** However the sections are nested, the numbering ids of a render are
      1, 2, ... in the order the numbered lists appear. */
  lemma SectionsKeepNumbering(styles: map<string, StyleRecord>, o: Out, ss: seq<Section>)
    requires NumberingConsistent(o) && SectionsOut(styles, o, ss).Some?
    ensures NumberingConsistent(SectionsOut(styles, o, ss).value)
  {
    SectionsPreOrder(styles, o, ss);
    FlatKeepsNumbering(styles, o, Flatten(ss));
  }

  // ---------------------------------------------------------------------
  // Document-wide styling as the engine applies it

  /** `_apply_styling` on one section: page layout, then the header text
      (default alignment: right) when given, then the footer when there is
      footer text or page numbers are on. No page number ever goes into the
      header, whatever the position says. */
  function EngineSection(s: PageSection, setup: PageSetup, hf: HeaderFooter): PageSection
  {
    var laid := Styles.Edited(Styles.Layout(setup), s);
    var withHeader :=
      if Styles.Given(hf.headerText) then Styles.Edited(Styles.HeaderText(hf.headerText.value, Right), laid) else laid;
    if Styles.Given(hf.footerText) || hf.showPageNumbers then
      Styles.Edited(Styles.Footer(Some(hf.footerText.GetOr("")), hf.showPageNumbers, hf.pageNumberPosition,
                                  hf.includeTotalPages), withHeader)
    else withHeader
  }

  /** `_apply_styling`'s three passes over the sections. */
  function EngineSections(ss: seq<PageSection>, setup: PageSetup, hf: HeaderFooter): seq<PageSection>
  {
    var laid := Styles.EditAll(Styles.Layout(setup), ss);
    var withHeader :=
      if Styles.Given(hf.headerText) then Styles.EditAll(Styles.HeaderText(hf.headerText.value, Right), laid) else laid;
    if Styles.Given(hf.footerText) || hf.showPageNumbers then
      Styles.EditAll(Styles.Footer(Some(hf.footerText.GetOr("")), hf.showPageNumbers, hf.pageNumberPosition,
                                   hf.includeTotalPages), withHeader)
    else withHeader
  }

  lemma EngineSectionsAt(ss: seq<PageSection>, setup: PageSetup, hf: HeaderFooter, i: nat)
    requires i < |ss|
    ensures |EngineSections(ss, setup, hf)| == |ss|
    ensures EngineSections(ss, setup, hf)[i] == EngineSection(ss[i], setup, hf)
  {
  }

  /** The engine's header is the header text, right-aligned, or the
      template's header; even with the page number placed at the header's
      right, the page number goes to the footer, right-aligned. */
  lemma EngineHeaderRule(s: PageSection, setup: PageSetup, hf: HeaderFooter)
    ensures EngineSection(s, setup, hf).header
      == if Styles.Given(hf.headerText) then Styles.HeaderWithText(s.header, hf.headerText.value, Right) else s.header
    ensures hf.showPageNumbers && hf.pageNumberPosition == "header_right" ==>
      var f := EngineSection(s, setup, hf).footer;
      && f.paragraphs != [] && f.paragraphs[0].alignment == Some(Right)
      && f.paragraphs[0].items != [] && f.paragraphs[0].items[|f.paragraphs[0].items| - 1] == PageField(hf.includeTotalPages)
  {
    if hf.showPageNumbers && hf.pageNumberPosition == "header_right" {
      var w := if Styles.Given(hf.headerText) then Styles.HeaderWithText(s.header, hf.headerText.value, Right) else s.header;
      Styles.FooterLayout(s.footer, Some(hf.footerText.GetOr("")), true, hf.pageNumberPosition, hf.includeTotalPages);
    }
  }

  /** Neither footer text nor page numbers: the footer is the template's. */
  lemma EngineFooterUntouched(s: PageSection, setup: PageSetup, hf: HeaderFooter)
    requires !Styles.Given(hf.footerText) && !hf.showPageNumbers
    ensures EngineSection(s, setup, hf).footer == s.footer
  {
  }

  // ---------------------------------------------------------------------
  // The archive check

  const RequiredParts: seq<string> := ["[Content_Types].xml", "word/document.xml"]

  /** The archive as saved: its entry names, and the first entry whose
      check fails, if any. */
  datatype Archive = Archive(entries: set<string>, corrupt: Option<string>)

  /** `[f for f in required_files if f not in zip_files]`. */
  function MissingParts(entries: set<string>): (m: seq<string>)
    ensures forall x :: x in m <==> x in RequiredParts && x !in entries
  {
    (if RequiredParts[0] in entries then [] else [RequiredParts[0]])
    + (if RequiredParts[1] in entries then [] else [RequiredParts[1]])
  }

  datatype RenderError =
    | ValidationFailed(errors: seq<Validator.ValidationError>)
    | BlockFailed
    | CorruptEntry(name: string)
    | MissingRequiredParts(missing: seq<string>)

  /** The checks after saving: a corrupt entry first, then missing parts. */
  function ArchiveCheck(a: Archive): Option<RenderError>
  {
    if a.corrupt.Some? then Some(CorruptEntry(a.corrupt.value))
    else
      var m := MissingParts(a.entries);
      if m != [] then Some(MissingRequiredParts(m)) else None
  }

  /** An archive passes exactly when no entry is corrupt and both required
      parts are present. */
  lemma ArchiveAccepted(a: Archive)
    ensures ArchiveCheck(a) == None
      <==> a.corrupt.None? && "[Content_Types].xml" in a.entries && "word/document.xml" in a.entries
    ensures a.corrupt.None? && "word/document.xml" !in a.entries ==>
      ArchiveCheck(a).Some? && ArchiveCheck(a).value.MissingRequiredParts?
      && "word/document.xml" in ArchiveCheck(a).value.missing
  {
    var m := MissingParts(a.entries);
    if "[Content_Types].xml" !in a.entries {
      assert "[Content_Types].xml" in m;
    }
    if "word/document.xml" !in a.entries {
      assert "word/document.xml" in m;
    }
  }

  // ---------------------------------------------------------------------
  // The whole render

  /** The styles of the fresh document once the builders are made and the
      styling is applied. */
  function RenderedStyles(u: UniversalDocument, templateStyles: map<string, StyleRecord>): map<string, StyleRecord>
  {
    Styles.DocumentStyled(
      Styles.WithRequiredStyles(ListBuilder.WithListStyles(templateStyles, 2 * ListBuilder.MaxNestingLevel),
                                |Styles.RequiredStyles|),
      u.styling)
  }

  /** The title, centred at heading level 0, when there is one. */
  function TitleBody(title: string): seq<Element>
  {
    if title != "" then [HeadingPara(title, 0, None, None, Some(Center))] else []
  }

  /** The body and numbering that rendering the title and the sections
      builds, or `None` when a block raised. */
  function RenderedOut(u: UniversalDocument, templateStyles: map<string, StyleRecord>): Option<Out>
  {
    SectionsOut(RenderedStyles(u, templateStyles), Out(TitleBody(u.title), 0, [], []), u.sections)
  }

  /** `render`: what it raises, or what the saved document holds. */
  function Rendering(u: UniversalDocument, validateFirst: bool, templateStyles: map<string, StyleRecord>,
                     saved: Archive): Result<Out, RenderError>
  {
    if validateFirst && Validator.DocErrors(u) != [] then Err(ValidationFailed(Validator.DocErrors(u)))
    else
      match RenderedOut(u, templateStyles)
      case None => Err(BlockFailed)
      case Some(o) =>
        match ArchiveCheck(saved)
        case Some(e) => Err(e)
        case None => Ok(o)
  }

  /** With `validate_first`, a document that is not well-formed is refused
      with its validation errors, before anything is rendered or saved. */
  lemma ValidateFirstRefuses(u: UniversalDocument, templateStyles: map<string, StyleRecord>, saved: Archive)
    requires !Validator.WellFormedDocument(u)
    ensures Rendering(u, true, templateStyles, saved) == Err(ValidationFailed(Validator.DocErrors(u)))
    ensures Validator.DocErrors(u) != []
  {
    Validator.ValidIffWellFormed(u);
  }

  /** A render succeeds exactly when validation (if asked for) passes, no
      block raises and the saved archive passes its check; the numbering
      of a successful render is then consistent and its body starts with
      the title. */
  lemma RenderingOk(u: UniversalDocument, validateFirst: bool, templateStyles: map<string, StyleRecord>, saved: Archive)
    ensures Rendering(u, validateFirst, templateStyles, saved).Ok? <==>
      && (!validateFirst || Validator.WellFormedDocument(u))
      && RenderedOut(u, templateStyles).Some?
      && saved.corrupt.None? && "[Content_Types].xml" in saved.entries && "word/document.xml" in saved.entries
    ensures Rendering(u, validateFirst, templateStyles, saved).Ok? ==>
      var o := Rendering(u, validateFirst, templateStyles, saved).value;
      NumberingConsistent(o) && TitleBody(u.title) <= o.body
  {
    Validator.ValidIffWellFormed(u);
    ArchiveAccepted(saved);
    var o0 := Out(TitleBody(u.title), 0, [], []);
    var st := RenderedStyles(u, templateStyles);
    if RenderedOut(u, templateStyles).Some? {
      SectionsKeepNumbering(st, o0, u.sections);
      SectionsPreOrder(st, o0, u.sections);
      FlatOutExtends(st, o0, Flatten(u.sections));
    }
  }

  lemma {:induction false} FlatOutExtends(styles: map<string, StyleRecord>, o: Out, flat: seq<Section>)
    requires FlatOut(styles, o, flat).Some?
    ensures o.body <= FlatOut(styles, o, flat).value.body
    decreases |flat|
  {
    if flat != [] {
      FlatOutExtends(styles, o, flat[..|flat| - 1]);
      var p := FlatOut(styles, o, flat[..|flat| - 1]).value;
      var s := flat[|flat| - 1];
      SectionHeadingFirst(styles, p, s);
    }
  }

  // ---------------------------------------------------------------------
  // The engine's state

  /** `_init_document`: a fresh document with its builders. The section
      and table builders hold nothing but the document, so their
      operations take it directly. */
  class Renderer {
    const doc: Document
    const lists: ListBuilder.ListBuilder
    const styler: Styles.StyleEngine

    /** The parts of the document rendering changes. */
    function State(): Out
      reads doc, lists
    {
      Out(doc.body, lists.counter, doc.abstractNums, doc.nums)
    }

    constructor (templateStyles: map<string, StyleRecord>, templateSections: seq<PageSection>)
      ensures fresh(doc) && fresh(lists) && fresh(styler)
      ensures lists.doc == doc && styler.doc == doc
      ensures State() == Out([], 0, [], [])
      ensures doc.styles == Styles.WithRequiredStyles(
        ListBuilder.WithListStyles(templateStyles, 2 * ListBuilder.MaxNestingLevel), |Styles.RequiredStyles|)
      ensures doc.sections == templateSections
    {
      var d := new Document(templateStyles, templateSections);
      var lb := new ListBuilder.ListBuilder(d);
      var se := new Styles.StyleEngine(d);
      doc := d;
      lists := lb;
      styler := se;
    }

    /** `_apply_styling`. */
    method ApplyStyling(u: UniversalDocument)
      requires styler.doc == doc
      modifies doc
      ensures doc.styles == Styles.DocumentStyled(old(doc.styles), u.styling)
      ensures doc.sections == EngineSections(old(doc.sections), u.pageSetup, u.headerFooter)
      ensures doc.body == old(doc.body) && doc.abstractNums == old(doc.abstractNums) && doc.nums == old(doc.nums)
    {
      styler.ApplyDocumentStyling(u.styling);
      styler.SetupPageLayout(u.pageSetup);
      var hf := u.headerFooter;
      if Styles.Given(hf.headerText) {
        styler.AddHeader(hf.headerText.value, "right");
      }
      if Styles.Given(hf.footerText) || hf.showPageNumbers {
        styler.AddFooter(Some(hf.footerText.GetOr("")), hf.showPageNumbers, hf.pageNumberPosition,
                         hf.includeTotalPages);
      }
    }

    /** `_render_title`. */
    method RenderTitle(title: string)
      requires title != ""
      modifies doc
      ensures doc.body == old(doc.body) + TitleBody(title)
      ensures SettingsUnchanged(doc)
    {
      doc.Add(HeadingPara(title, 0, None, None, Some(Center)));
    }

    /** `_render_signature_block` with signature data. */
    method RenderSignature(sig: SignatureBlock)
      modifies doc
      ensures doc.body == old(doc.body) + SignatureElements(sig)
      ensures SettingsUnchanged(doc)
    {
      if Styles.Given(sig.preamble) {
        doc.Add(SimplePara([PlainRun(sig.preamble.value)]));
      }
      ghost var start := doc.body;
      var i := 0;
      while i < |sig.lines|
        invariant 0 <= i <= |sig.lines|
        invariant doc.body == start + LineElements(sig.lines[..i])
        invariant SettingsUnchanged(doc)
      {
        var l := sig.lines[i];
        doc.Add(Para([Run(l.labelText + ": ", Some(true), None, None, None),
                      PlainRun(Underscores(LineLength(l.lineWidthInches)))],
                     None, None, None, Some(12), None, None));
        assert sig.lines[..i + 1][..i] == sig.lines[..i];
        i := i + 1;
      }
      assert sig.lines[..i] == sig.lines;
    }

    /** `_render_bullet_list`. */
    method RenderBulletList(b: ContentBlock) returns (ok: bool)
      requires b.kind == BulletListType && lists.doc == doc
      modifies doc
      ensures ok <==> BlockOut(doc.styles, old(State()), b).Some?
      ensures ok ==> State() == BlockOut(doc.styles, old(State()), b).value
      ensures doc.styles == old(doc.styles) && doc.sections == old(doc.sections)
    {
      if b.items.None? || b.items.value == [] {
        return true;
      }
      var items := PrepareListItems(b.items.value);
      ok := lists.AddBulletList(items);
    }

    /** `_render_numbered_list`. */
    method RenderNumberedList(b: ContentBlock) returns (ok: bool)
      requires b.kind == NumberedListType && lists.doc == doc
      modifies doc, lists
      ensures ok <==> BlockOut(doc.styles, old(State()), b).Some?
      ensures ok ==> State() == BlockOut(doc.styles, old(State()), b).value
      ensures doc.styles == old(doc.styles) && doc.sections == old(doc.sections)
    {
      if b.items.None? || b.items.value == [] {
        return true;
      }
      var style := "decimal";
      if b.listStyle.Some? {
        style := ListStyleName(b.listStyle.value);
      }
      var items := PrepareListItems(b.items.value);
      ghost var o := State();
      ok := lists.AddNumberedList(items, style, 1);
      NumberedBlockOut(doc.styles, o, b, lists.counter);
    }

    /** `_render_table`. */
    method RenderTable(b: ContentBlock)
      requires b.kind == TableType
      modifies doc
      ensures Some(State()) == BlockOut(doc.styles, old(State()), b)
      ensures SettingsUnchanged(doc)
    {
      if b.table.None? {
        return;
      }
      var t := b.table.value;
      var rows := PrepareTableRows(t.rows);
      var made := TableBuilder.AddTable(doc, TableBuilder.TableDict(t.headers, rows, t.columnWidths.GetOr([]), t.style,
                                                                    t.headerBackground));
    }

    /** `_render_content_block`: dispatch on the block type; `false` when a
        builder raised. */
    method RenderContentBlock(b: ContentBlock) returns (ok: bool)
      requires lists.doc == doc
      modifies doc, lists
      ensures ok <==> BlockOut(doc.styles, old(State()), b).Some?
      ensures ok ==> State() == BlockOut(doc.styles, old(State()), b).value
      ensures doc.styles == old(doc.styles) && doc.sections == old(doc.sections)
    {
      ok := true;
      match b.kind {
        case ParagraphType => SectionBuilder.AddParagraph(doc, ParagraphDict(b));
        case HeadingType => SectionBuilder.AddHeading(doc, b.content, HeadingBlockLevel(b));
        case PageBreakType => doc.Add(PageBreak);
        case BulletListType => ok := RenderBulletList(b);
        case NumberedListType => ok := RenderNumberedList(b);
        case TableType => RenderTable(b);
        case SignatureBlockType =>
          if b.signature.Some? {
            RenderSignature(b.signature.value);
          }
      }
    }

    /** The loop over a section's content blocks. */
    method RenderBlocks(bs: seq<ContentBlock>) returns (ok: bool)
      requires lists.doc == doc
      modifies doc, lists
      ensures ok <==> BlocksOut(doc.styles, old(State()), bs).Some?
      ensures ok ==> State() == BlocksOut(doc.styles, old(State()), bs).value
      ensures doc.styles == old(doc.styles) && doc.sections == old(doc.sections)
    {
      ghost var o0, st := State(), doc.styles;
      var i := 0;
      while i < |bs|
        invariant 0 <= i <= |bs|
        invariant doc.styles == st && doc.sections == old(doc.sections)
        invariant BlocksOut(st, o0, bs[..i]) == Some(State())
      {
        ghost var p := State();
        BlocksOutSnoc(st, o0, bs, i, p);
        ok := RenderContentBlock(bs[i]);
        if !ok {
          BlocksOutFailure(st, o0, bs, i + 1);
          return;
        }
        i := i + 1;
      }
      assert bs[..i] == bs;
      ok := true;
    }

    /** `_render_section`: heading, blocks, then subsections. */
    method RenderSection(s: Section) returns (ok: bool)
      requires lists.doc == doc
      modifies doc, lists
      ensures ok <==> SectionOut(doc.styles, old(State()), s).Some?
      ensures ok ==> State() == SectionOut(doc.styles, old(State()), s).value
      ensures doc.styles == old(doc.styles) && doc.sections == old(doc.sections)
      decreases s, 1
    {
      SectionBuilder.AddHeading(doc, s.heading, s.level);
      ok := RenderBlocks(s.blocks);
      if ok {
        ok := RenderSections(s.subsections);
      }
    }

    /** The loop over a list of sibling sections. */
    method RenderSections(ss: seq<Section>) returns (ok: bool)
      requires lists.doc == doc
      modifies doc, lists
      ensures ok <==> SectionsOut(doc.styles, old(State()), ss).Some?
      ensures ok ==> State() == SectionsOut(doc.styles, old(State()), ss).value
      ensures doc.styles == old(doc.styles) && doc.sections == old(doc.sections)
      decreases ss, 0
    {
      ghost var o0, st := State(), doc.styles;
      var i := 0;
      while i < |ss|
        invariant 0 <= i <= |ss|
        invariant doc.styles == st && doc.sections == old(doc.sections)
        invariant SectionsOut(st, o0, ss[..i]) == Some(State())
      {
        ghost var p := State();
        SectionsOutSnoc(st, o0, ss, i, p);
        ok := RenderSection(ss[i]);
        if !ok {
          SectionsOutFailure(st, o0, ss, i + 1);
          return;
        }
        i := i + 1;
      }
      assert ss[..i] == ss;
      ok := true;
    }
  }

  /** `render` from `_init_document` up to the save: a fresh document,
      styled, with the title and every section; `false` when a block
      raised. */
  method BuildDocument(u: UniversalDocument, templateStyles: map<string, StyleRecord>,
                       templateSections: seq<PageSection>) returns (engine: Renderer, ok: bool)
    ensures fresh(engine.doc)
    ensures ok <==> RenderedOut(u, templateStyles).Some?
    ensures ok ==> engine.State() == RenderedOut(u, templateStyles).value
    ensures engine.doc.styles == RenderedStyles(u, templateStyles)
    ensures engine.doc.sections == EngineSections(templateSections, u.pageSetup, u.headerFooter)
  {
    engine := new Renderer(templateStyles, templateSections);
    engine.ApplyStyling(u);
    if u.title != "" {
      engine.RenderTitle(u.title);
    }
    assert engine.State() == Out(TitleBody(u.title), 0, [], []);
    ok := engine.RenderSections(u.sections);
  }

  /** `render`: validate when asked, build the document, then check the
      archive it was saved as. The archive's entries, which writing the
      file decides, are a parameter. */
  method Render(u: UniversalDocument, validateFirst: bool, templateStyles: map<string, StyleRecord>,
                templateSections: seq<PageSection>, saved: Archive) returns (r: Result<Document, RenderError>)
    ensures r.Ok? <==> Rendering(u, validateFirst, templateStyles, saved).Ok?
    ensures r.Err? ==> r.error == Rendering(u, validateFirst, templateStyles, saved).error
    ensures r.Ok? ==>
      && fresh(r.value)
      && var o := Rendering(u, validateFirst, templateStyles, saved).value;
      && r.value.body == o.body && r.value.abstractNums == o.abstractNums && r.value.nums == o.nums
      && r.value.styles == RenderedStyles(u, templateStyles)
      && r.value.sections == EngineSections(templateSections, u.pageSetup, u.headerFooter)
  {
    if validateFirst {
      var valid, errors := Validator.Validate(u);
      if !valid {
        return Err(ValidationFailed(errors));
      }
    }
    var engine, ok := BuildDocument(u, templateStyles, templateSections);
    if !ok {
      return Err(BlockFailed);
    }
    var check := ArchiveCheck(saved);
    if check.Some? {
      return Err(check.value);
    }
    r := Ok(engine.doc);
  }
}
