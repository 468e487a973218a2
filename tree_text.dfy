/** The translatable texts of a UIF document: which texts the translator
    collects, in what order, where each one sits, and what writing a map
    from paths to new texts back into the tree does. */
module TreeText {
  import opened Wrappers
  import opened Seqs
  import opened Text
  import opened PyValue
  import opened Schema
  import opened TextPaths
  import B = Batcher

  type Item = B.TextItem

  /** The item for field `f` of block `j` of the section at `loc`. */
  function BlockItem(loc: seq<nat>, j: nat, f: BlockField, t: string): Item
  {
    B.TextItem(SectionText(loc, BlockAt(j, f)), t)
  }

  // ---------------------------------------------------------------------
  // Where texts sit

  /** The section at a location: `loc[0]` among the top-level sections,
      then `loc[1]` among its subsections, and so on. */
  function Walk(ss: seq<Section>, loc: seq<nat>): Option<Section>
    decreases |loc|
  {
    if loc == [] then None
    else if |loc| == 1 then (if loc[0] < |ss| then Some(ss[loc[0]]) else None)
    else
      match Walk(ss, loc[..|loc| - 1])
      case None => None
      case Some(p) =>
        var i := loc[|loc| - 1];
        if i < |p.subsections| then Some(p.subsections[i]) else None
  }

  /** The text a block holds at a field, if it has that field as text. */
  function BlockText(b: ContentBlock, f: BlockField): Option<string>
  {
    match f
    case ContentField => Some(b.content)
    case ItemField(k) =>
      if b.items.Some? && k < |b.items.value| && b.items.value[k].TextItem?
      then Some(b.items.value[k].text) else None
    case ItemTextField(k) =>
      if b.items.Some? && k < |b.items.value| && b.items.value[k].DictItem?
         && "text" in b.items.value[k].fields && b.items.value[k].fields["text"].VStr?
      then Some(b.items.value[k].fields["text"].s) else None
    case HeaderField(k) =>
      if b.table.Some? && k < |b.table.value.headers| then Some(b.table.value.headers[k]) else None
    case CellField(r, c) =>
      if b.table.Some? && r < |b.table.value.rows| && c < |b.table.value.rows[r]|
         && b.table.value.rows[r][c].TextCell?
      then Some(b.table.value.rows[r][c].text) else None
    case CellContentField(r, c) =>
      if b.table.Some? && r < |b.table.value.rows| && c < |b.table.value.rows[r]|
         && b.table.value.rows[r][c].RichCell?
      then Some(b.table.value.rows[r][c].cell.content) else None
    case PreambleField =>
      if b.signature.Some? && b.signature.value.preamble.Some?
      then Some(b.signature.value.preamble.value) else None
    case LabelField(l) =>
      if b.signature.Some? && l < |b.signature.value.lines|
      then Some(b.signature.value.lines[l].labelText) else None
  }

  function FieldText(s: Section, f: SectionField): Option<string>
  {
    match f
    case HeadingField => Some(s.heading)
    case BlockAt(j, bf) => if j < |s.blocks| then BlockText(s.blocks[j], bf) else None
  }

  /** The text at a path, or `None` when the document has no text there. */
  function TextAt(doc: UniversalDocument, p: Path): Option<string>
  {
    match p
    case TitlePath => Some(doc.title)
    case SectionText(loc, f) =>
      match Walk(doc.sections, loc)
      case None => None
      case Some(s) => FieldText(s, f)
  }

  /** Which texts are worth translating: plain list items, headers and
      cells must hold more than whitespace; every other text must not be
      empty. */
  predicate Includable(p: Path, t: string)
  {
    match p
    case TitlePath => t != ""
    case SectionText(_, HeadingField) => t != ""
    case SectionText(_, BlockAt(_, f)) =>
      if f.ItemField? || f.HeaderField? || f.CellField? || f.CellContentField? then !IsBlank(t) else t != ""
  }

  // ---------------------------------------------------------------------
  // Collection (`_collect_text_items`)

  function EntryItems(e: ListEntry, loc: seq<nat>, j: nat, k: nat): seq<Item>
  {
    match e
    case TextItem(s) => if !IsBlank(s) then [BlockItem(loc, j, ItemField(k), s)] else []
    case DictItem(fields) =>
      if "text" in fields && fields["text"].VStr? && fields["text"].s != ""
      then [BlockItem(loc, j, ItemTextField(k), fields["text"].s)] else []
  }

  function ListParts(entries: seq<ListEntry>, loc: seq<nat>, j: nat): seq<seq<Item>>
  {
    seq(|entries|, k requires 0 <= k < |entries| => EntryItems(entries[k], loc, j, k))
  }

  function HeaderItems(h: string, loc: seq<nat>, j: nat, k: nat): seq<Item>
  {
    if !IsBlank(h) then [BlockItem(loc, j, HeaderField(k), h)] else []
  }

  function HeaderParts(headers: seq<string>, loc: seq<nat>, j: nat): seq<seq<Item>>
  {
    seq(|headers|, k requires 0 <= k < |headers| => HeaderItems(headers[k], loc, j, k))
  }

  function CellItems(e: CellEntry, loc: seq<nat>, j: nat, r: nat, c: nat): seq<Item>
  {
    match e
    case TextCell(s) => if !IsBlank(s) then [BlockItem(loc, j, CellField(r, c), s)] else []
    case RichCell(cell) =>
      if !IsBlank(cell.content) then [BlockItem(loc, j, CellContentField(r, c), cell.content)] else []
  }

  function RowParts(row: seq<CellEntry>, loc: seq<nat>, j: nat, r: nat): seq<seq<Item>>
  {
    seq(|row|, c requires 0 <= c < |row| => CellItems(row[c], loc, j, r, c))
  }

  function RowsParts(rows: seq<seq<CellEntry>>, loc: seq<nat>, j: nat): seq<seq<Item>>
  {
    seq(|rows|, r requires 0 <= r < |rows| => Concat(RowParts(rows[r], loc, j, r)))
  }

  function PreambleItems(sig: SignatureBlock, loc: seq<nat>, j: nat): seq<Item>
  {
    if sig.preamble.Some? && sig.preamble.value != "" then [BlockItem(loc, j, PreambleField, sig.preamble.value)] else []
  }

  function LabelItems(line: SignatureLine, loc: seq<nat>, j: nat, l: nat): seq<Item>
  {
    if line.labelText != "" then [BlockItem(loc, j, LabelField(l), line.labelText)] else []
  }

  function LabelParts(lines: seq<SignatureLine>, loc: seq<nat>, j: nat): seq<seq<Item>>
  {
    seq(|lines|, l requires 0 <= l < |lines| => LabelItems(lines[l], loc, j, l))
  }

  function ContentItems(b: ContentBlock, loc: seq<nat>, j: nat): seq<Item>
  {
    if b.content != "" then [BlockItem(loc, j, ContentField, b.content)] else []
  }

  function ListItemsOf(b: ContentBlock, loc: seq<nat>, j: nat): seq<Item>
  {
    if b.items.Some? then Concat(ListParts(b.items.value, loc, j)) else []
  }

  function TableItemsOf(b: ContentBlock, loc: seq<nat>, j: nat): seq<Item>
  {
    if b.table.Some? then Concat(HeaderParts(b.table.value.headers, loc, j)) + Concat(RowsParts(b.table.value.rows, loc, j))
    else []
  }

  function SignatureItemsOf(b: ContentBlock, loc: seq<nat>, j: nat): seq<Item>
  {
    if b.signature.Some? then PreambleItems(b.signature.value, loc, j) + Concat(LabelParts(b.signature.value.lines, loc, j))
    else []
  }

  /** `_collect_from_block`: content, list items, headers, cells row by
      row, preamble, signature labels. */
  function BlockItems(b: ContentBlock, loc: seq<nat>, j: nat): seq<Item>
  {
    ContentItems(b, loc, j) + ListItemsOf(b, loc, j) + TableItemsOf(b, loc, j) + SignatureItemsOf(b, loc, j)
  }

  function BlockParts(bs: seq<ContentBlock>, loc: seq<nat>): seq<seq<Item>>
  {
    seq(|bs|, j requires 0 <= j < |bs| => BlockItems(bs[j], loc, j))
  }

  function HeadingItems(s: Section, loc: seq<nat>): seq<Item>
  {
    if s.heading != "" then [B.TextItem(SectionText(loc, HeadingField), s.heading)] else []
  }

  /** One section in pre-order: its heading, its blocks, its subsections. */
  function SectionItems(s: Section, loc: seq<nat>): seq<Item>
    decreases s, 1
  {
    HeadingItems(s, loc) + Concat(BlockParts(s.blocks, loc)) + Concat(SectionParts(s.subsections, loc))
  }

  /** Sibling sections, the `i`-th at `base + [i]`. */
  function SectionParts(ss: seq<Section>, base: seq<nat>): seq<seq<Item>>
    decreases ss, 0
  {
    seq(|ss|, i requires 0 <= i < |ss| => SectionItems(ss[i], base + [i]))
  }

  function TitleItems(doc: UniversalDocument): seq<Item>
  {
    if doc.title != "" then [B.TextItem(TitlePath, doc.title)] else []
  }

  /** `_collect_text_items`: the title first, then every section. */
  function TextItems(doc: UniversalDocument): seq<Item>
  {
    TitleItems(doc) + Concat(SectionParts(doc.sections, []))
  }

  // ---------------------------------------------------------------------
  // Apply (`_apply_translations`)

  function Written(m: map<Path, string>, p: Path, current: string): string
  {
    if p in m then m[p] else current
  }

  /** A list item: a translation at `.items.k` replaces the item, whatever
      it was; otherwise a dict item takes one at `.items.k.text`. */
  function ApplyEntry(e: ListEntry, loc: seq<nat>, j: nat, k: nat, m: map<Path, string>): ListEntry
  {
    var p := SectionText(loc, BlockAt(j, ItemField(k)));
    var q := SectionText(loc, BlockAt(j, ItemTextField(k)));
    if p in m then TextItem(m[p])
    else if e.DictItem? && q in m then DictItem(e.fields["text" := VStr(m[q])])
    else e
  }

  /** A table cell: a translation at `.rows.r.c` replaces the cell, even a
      rich one; otherwise a rich cell takes one at `.rows.r.c.content`. */
  function ApplyCell(e: CellEntry, loc: seq<nat>, j: nat, r: nat, c: nat, m: map<Path, string>): CellEntry
  {
    var p := SectionText(loc, BlockAt(j, CellField(r, c)));
    var q := SectionText(loc, BlockAt(j, CellContentField(r, c)));
    if p in m then TextCell(m[p])
    else if e.RichCell? && q in m then RichCell(e.cell.(content := m[q]))
    else e
  }

  function ApplyRow(row: seq<CellEntry>, loc: seq<nat>, j: nat, r: nat, m: map<Path, string>): seq<CellEntry>
  {
    seq(|row|, c requires 0 <= c < |row| => ApplyCell(row[c], loc, j, r, c, m))
  }

  function ApplyTable(t: TableBlock, loc: seq<nat>, j: nat, m: map<Path, string>): TableBlock
  {
    t.(headers := seq(|t.headers|, k requires 0 <= k < |t.headers| =>
                        Written(m, SectionText(loc, BlockAt(j, HeaderField(k))), t.headers[k])),
       rows := seq(|t.rows|, r requires 0 <= r < |t.rows| => ApplyRow(t.rows[r], loc, j, r, m)))
  }

  function ApplyLine(line: SignatureLine, loc: seq<nat>, j: nat, l: nat, m: map<Path, string>): SignatureLine
  {
    line.(labelText := Written(m, SectionText(loc, BlockAt(j, LabelField(l))), line.labelText))
  }

  /** A preamble path sets the preamble even where there was none. */
  function ApplySignature(sig: SignatureBlock, loc: seq<nat>, j: nat, m: map<Path, string>): SignatureBlock
  {
    var p := SectionText(loc, BlockAt(j, PreambleField));
    sig.(preamble := if p in m then Some(m[p]) else sig.preamble,
         lines := seq(|sig.lines|, l requires 0 <= l < |sig.lines| => ApplyLine(sig.lines[l], loc, j, l, m)))
  }

  /** `_apply_to_block`. */
  function ApplyBlock(b: ContentBlock, loc: seq<nat>, j: nat, m: map<Path, string>): ContentBlock
  {
    b.(content := Written(m, SectionText(loc, BlockAt(j, ContentField)), b.content),
       items := if b.items.Some? then
                  Some(seq(|b.items.value|, k requires 0 <= k < |b.items.value| => ApplyEntry(b.items.value[k], loc, j, k, m)))
                else None,
       table := if b.table.Some? then Some(ApplyTable(b.table.value, loc, j, m)) else None,
       signature := if b.signature.Some? then Some(ApplySignature(b.signature.value, loc, j, m)) else None)
  }

  /** `_apply_to_sections` for one section at `loc`. */
  function ApplySection(s: Section, loc: seq<nat>, m: map<Path, string>): Section
    decreases s, 1
  {
    s.(heading := Written(m, SectionText(loc, HeadingField), s.heading),
       blocks := seq(|s.blocks|, j requires 0 <= j < |s.blocks| => ApplyBlock(s.blocks[j], loc, j, m)),
       subsections := ApplySections(s.subsections, loc, m))
  }

  function ApplySections(ss: seq<Section>, base: seq<nat>, m: map<Path, string>): seq<Section>
    decreases ss, 0
  {
    seq(|ss|, i requires 0 <= i < |ss| => ApplySection(ss[i], base + [i], m))
  }

  /** `_apply_translations`: paths that name no text are ignored. */
  function Apply(doc: UniversalDocument, m: map<Path, string>): UniversalDocument
  {
    doc.(title := Written(m, TitlePath, doc.title), sections := ApplySections(doc.sections, [], m))
  }

  /** Every path of the map names a text of the document. */
  ghost predicate WellTyped(doc: UniversalDocument, m: map<Path, string>)
  {
    forall p :: p in m ==> TextAt(doc, p).Some?
  }

  // ---------------------------------------------------------------------
  // Collection reads what is there, and everything worth translating

  /** What an item of block `j` at `loc` promises: it names a field of
      that block and carries the text the block holds there. */
  predicate ReadsBlock(b: ContentBlock, loc: seq<nat>, j: nat, x: Item)
  {
    x.path.SectionText? && x.path.field.BlockAt? && x.path == SectionText(loc, BlockAt(j, x.path.field.field))
    && BlockText(b, x.path.field.field) == Some(x.text) && Includable(x.path, x.text)
  }

  lemma ListItemsSound(b: ContentBlock, loc: seq<nat>, j: nat, x: Item)
    requires x in ListItemsOf(b, loc, j)
    ensures ReadsBlock(b, loc, j, x)
  {
    var k := ConcatFrom(ListParts(b.items.value, loc, j), x);
  }

  lemma TableItemsSound(b: ContentBlock, loc: seq<nat>, j: nat, x: Item)
    requires x in TableItemsOf(b, loc, j)
    ensures ReadsBlock(b, loc, j, x)
  {
    var t := b.table.value;
    if x in Concat(HeaderParts(t.headers, loc, j)) {
      var k := ConcatFrom(HeaderParts(t.headers, loc, j), x);
    } else {
      var r := ConcatFrom(RowsParts(t.rows, loc, j), x);
      var c := ConcatFrom(RowParts(t.rows[r], loc, j, r), x);
    }
  }

  lemma SignatureItemsSound(b: ContentBlock, loc: seq<nat>, j: nat, x: Item)
    requires x in SignatureItemsOf(b, loc, j)
    ensures ReadsBlock(b, loc, j, x)
  {
    var sig := b.signature.value;
    if x !in PreambleItems(sig, loc, j) {
      var l := ConcatFrom(LabelParts(sig.lines, loc, j), x);
    }
  }

  /** Every item collected from a block reads a text the block holds and
      that is worth translating. */
  lemma BlockItemsSound(b: ContentBlock, loc: seq<nat>, j: nat, x: Item)
    requires x in BlockItems(b, loc, j)
    ensures ReadsBlock(b, loc, j, x)
  {
    if x in ListItemsOf(b, loc, j) {
      ListItemsSound(b, loc, j, x);
    } else if x in TableItemsOf(b, loc, j) {
      TableItemsSound(b, loc, j, x);
    } else if x in SignatureItemsOf(b, loc, j) {
      SignatureItemsSound(b, loc, j, x);
    }
  }

  /** The subsection `i` of the section at `loc` is at `loc + [i]`. */
  lemma WalkChild(ss: seq<Section>, loc: seq<nat>, s: Section, i: nat)
    requires Walk(ss, loc) == Some(s) && i < |s.subsections|
    ensures Walk(ss, loc + [i]) == Some(s.subsections[i])
  {
    assert (loc + [i])[..|loc|] == loc;
  }

  lemma {:induction false} SectionItemsSound(doc: UniversalDocument, s: Section, loc: seq<nat>, x: Item)
    requires Walk(doc.sections, loc) == Some(s) && x in SectionItems(s, loc)
    ensures TextAt(doc, x.path) == Some(x.text) && Includable(x.path, x.text)
    decreases s
  {
    if x in Concat(BlockParts(s.blocks, loc)) {
      var j := ConcatFrom(BlockParts(s.blocks, loc), x);
      BlockItemsSound(s.blocks[j], loc, j, x);
    } else if x in Concat(SectionParts(s.subsections, loc)) {
      var i := ConcatFrom(SectionParts(s.subsections, loc), x);
      WalkChild(doc.sections, loc, s, i);
      SectionItemsSound(doc, s.subsections[i], loc + [i], x);
    }
  }

  /** Every collected item carries the text found at its path, and that
      text passes the inclusion rule of its kind. */
  lemma CollectedSound(doc: UniversalDocument, x: Item)
    requires x in TextItems(doc)
    ensures TextAt(doc, x.path) == Some(x.text) && Includable(x.path, x.text)
  {
    if x !in TitleItems(doc) {
      var i := ConcatFrom(SectionParts(doc.sections, []), x);
      assert Walk(doc.sections, [] + [i]) == Some(doc.sections[i]);
      SectionItemsSound(doc, doc.sections[i], [] + [i], x);
    }
  }

  /** A text of a block that passes its inclusion rule is collected. */
  lemma BlockItemsComplete(b: ContentBlock, loc: seq<nat>, j: nat, f: BlockField, t: string)
    requires BlockText(b, f) == Some(t) && Includable(SectionText(loc, BlockAt(j, f)), t)
    ensures BlockItem(loc, j, f, t) in BlockItems(b, loc, j)
  {
    var x := BlockItem(loc, j, f, t);
    match f
    case ContentField =>
    case ItemField(k) =>
      ConcatHolds(ListParts(b.items.value, loc, j), k, x);
    case ItemTextField(k) =>
      ConcatHolds(ListParts(b.items.value, loc, j), k, x);
    case HeaderField(k) =>
      ConcatHolds(HeaderParts(b.table.value.headers, loc, j), k, x);
    case CellField(r, c) =>
      var rows := b.table.value.rows;
      ConcatHolds(RowParts(rows[r], loc, j, r), c, x);
      ConcatHolds(RowsParts(rows, loc, j), r, x);
    case CellContentField(r, c) =>
      var rows := b.table.value.rows;
      ConcatHolds(RowParts(rows[r], loc, j, r), c, x);
      ConcatHolds(RowsParts(rows, loc, j), r, x);
    case PreambleField =>
    case LabelField(l) =>
      ConcatHolds(LabelParts(b.signature.value.lines, loc, j), l, x);
  }

  /** What a section at `loc` collects, the whole document collects. */
  lemma {:induction false} Lift(doc: UniversalDocument, loc: seq<nat>, s: Section, x: Item)
    requires Walk(doc.sections, loc) == Some(s) && x in SectionItems(s, loc)
    ensures x in TextItems(doc)
    decreases |loc|
  {
    var i := loc[|loc| - 1];
    if |loc| == 1 {
      assert [] + [i] == loc;
      ConcatHolds(SectionParts(doc.sections, []), i, x);
    } else {
      var front := loc[..|loc| - 1];
      var p := Walk(doc.sections, front).value;
      assert front + [i] == loc;
      ConcatHolds(SectionParts(p.subsections, front), i, x);
      Lift(doc, front, p, x);
    }
  }

  /** Every text of the document that passes its inclusion rule is
      collected, with its path. */
  lemma CollectedComplete(doc: UniversalDocument, p: Path, t: string)
    requires TextAt(doc, p) == Some(t) && Includable(p, t)
    ensures B.TextItem(p, t) in TextItems(doc)
  {
    var x := B.TextItem(p, t);
    if p.SectionText? {
      var s := Walk(doc.sections, p.loc).value;
      match p.field
      case HeadingField =>
        Lift(doc, p.loc, s, x);
      case BlockAt(j, f) =>
        BlockItemsComplete(s.blocks[j], p.loc, j, f, t);
        ConcatHolds(BlockParts(s.blocks, p.loc), j, x);
        Lift(doc, p.loc, s, x);
    }
  }

  /** The two directions together: an item is collected exactly when it
      carries the document's text at its path and that text is worth
      translating. */
  lemma CollectedIff(doc: UniversalDocument, x: Item)
    ensures x in TextItems(doc) <==> TextAt(doc, x.path) == Some(x.text) && Includable(x.path, x.text)
  {
    if x in TextItems(doc) {
      CollectedSound(doc, x);
    } else if TextAt(doc, x.path) == Some(x.text) && Includable(x.path, x.text) {
      CollectedComplete(doc, x.path, x.text);
    }
  }

  // ---------------------------------------------------------------------
  // Apply writes exactly the mapped texts

  /** Writing into the tree keeps every section where it was. */
  lemma {:induction false} WalkApply(ss: seq<Section>, m: map<Path, string>, loc: seq<nat>)
    ensures Walk(ApplySections(ss, [], m), loc) ==
            (if Walk(ss, loc).Some? then Some(ApplySection(Walk(ss, loc).value, loc, m)) else None)
    decreases |loc|
  {
    if |loc| == 1 {
      assert [] + [loc[0]] == loc;
    } else if |loc| > 1 {
      var front := loc[..|loc| - 1];
      WalkApply(ss, m, front);
      assert front + [loc[|loc| - 1]] == loc;
    }
  }

  /** Where `.items.k` replaces a dict item or `.rows.r.c` a rich cell, the
      text below it goes away; a well-typed map never does that. */
  predicate NotShadowed(b: ContentBlock, loc: seq<nat>, j: nat, m: map<Path, string>, f: BlockField)
  {
    (SectionText(loc, BlockAt(j, f)) in m ==> BlockText(b, f).Some?)
    && (f.ItemTextField? && SectionText(loc, BlockAt(j, ItemField(f.k))) in m ==> BlockText(b, ItemField(f.k)).Some?)
    && (f.CellContentField? && SectionText(loc, BlockAt(j, CellField(f.r, f.c))) in m ==>
          BlockText(b, CellField(f.r, f.c)).Some?)
  }

  lemma BlockTextApply(b: ContentBlock, loc: seq<nat>, j: nat, m: map<Path, string>, f: BlockField)
    requires NotShadowed(b, loc, j, m, f)
    ensures BlockText(ApplyBlock(b, loc, j, m), f) == Written'(m, SectionText(loc, BlockAt(j, f)), BlockText(b, f))
  {
    var a := ApplyBlock(b, loc, j, m);
    match f
    case ContentField =>
    case ItemField(k) =>
      if b.items.Some? && k < |b.items.value| {
        assert a.items.value[k] == ApplyEntry(b.items.value[k], loc, j, k, m);
      }
    case ItemTextField(k) =>
      if b.items.Some? && k < |b.items.value| {
        assert a.items.value[k] == ApplyEntry(b.items.value[k], loc, j, k, m);
      }
    case HeaderField(k) =>
    case CellField(r, c) =>
      if b.table.Some? && r < |b.table.value.rows| && c < |b.table.value.rows[r]| {
        assert a.table.value.rows[r][c] == ApplyCell(b.table.value.rows[r][c], loc, j, r, c, m);
      }
    case CellContentField(r, c) =>
      if b.table.Some? && r < |b.table.value.rows| && c < |b.table.value.rows[r]| {
        assert a.table.value.rows[r][c] == ApplyCell(b.table.value.rows[r][c], loc, j, r, c, m);
      }
    case PreambleField =>
    case LabelField(l) =>
  }

  /** The text read at a path after writing: the mapped one, if any. */
  function Written'(m: map<Path, string>, p: Path, current: Option<string>): Option<string>
  {
    if p in m then Some(m[p]) else current
  }

  /** Read after write: with a well-typed map, the text at every path
      afterwards is the mapped translation where the map has the path and
      the old text everywhere else. */
  lemma ApplyAt(doc: UniversalDocument, m: map<Path, string>, p: Path)
    requires WellTyped(doc, m)
    ensures TextAt(Apply(doc, m), p) == Written'(m, p, TextAt(doc, p))
  {
    if p.SectionText? {
      var loc := p.loc;
      WalkApply(doc.sections, m, loc);
      if Walk(doc.sections, loc).Some? {
        var s := Walk(doc.sections, loc).value;
        var a := ApplySection(s, loc, m);
        if p.field.BlockAt? && p.field.j < |s.blocks| {
          var j, f := p.field.j, p.field.field;
          assert a.blocks[j] == ApplyBlock(s.blocks[j], loc, j, m);
          if f.ItemTextField? {
            var q := SectionText(loc, BlockAt(j, ItemField(f.k)));
            if q in m { assert TextAt(doc, q).Some?; }
          }
          if f.CellContentField? {
            var q := SectionText(loc, BlockAt(j, CellField(f.r, f.c)));
            if q in m { assert TextAt(doc, q).Some?; }
          }
          if p in m { assert TextAt(doc, p).Some?; }
          BlockTextApply(s.blocks[j], loc, j, m, f);
        } else if p.field.BlockAt? {
          assert p !in m;
        }
      } else {
        assert p !in m;
      }
    }
  }

  // ---------------------------------------------------------------------
  // Writing back what is there changes nothing

  /** Every mapped text of block `j` at `loc` is the one it holds. */
  ghost predicate BlockStable(b: ContentBlock, loc: seq<nat>, j: nat, m: map<Path, string>)
  {
    forall f :: SectionText(loc, BlockAt(j, f)) in m ==> BlockText(b, f) == Some(m[SectionText(loc, BlockAt(j, f))])
  }

  lemma ApplyItemsId(b: ContentBlock, loc: seq<nat>, j: nat, m: map<Path, string>)
    requires BlockStable(b, loc, j, m) && b.items.Some?
    ensures ApplyBlock(b, loc, j, m).items == b.items
  {
    var es := b.items.value;
    forall k | 0 <= k < |es| ensures ApplyEntry(es[k], loc, j, k, m) == es[k]
    {
      var p := SectionText(loc, BlockAt(j, ItemField(k)));
      var q := SectionText(loc, BlockAt(j, ItemTextField(k)));
      if p in m {
        assert BlockText(b, ItemField(k)) == Some(m[p]);
      } else if es[k].DictItem? && q in m {
        assert BlockText(b, ItemTextField(k)) == Some(m[q]);
        assert es[k].fields["text" := VStr(m[q])] == es[k].fields;
      }
    }
    var a := ApplyBlock(b, loc, j, m).items.value;
    assert |a| == |es|;
    forall k | 0 <= k < |es| ensures a[k] == es[k]
    {
      assert a[k] == ApplyEntry(es[k], loc, j, k, m);
    }
    assert a == es;
  }

  lemma ApplyTableId(b: ContentBlock, loc: seq<nat>, j: nat, m: map<Path, string>)
    requires BlockStable(b, loc, j, m) && b.table.Some?
    ensures ApplyTable(b.table.value, loc, j, m) == b.table.value
  {
    var t := b.table.value;
    forall k | 0 <= k < |t.headers|
      ensures Written(m, SectionText(loc, BlockAt(j, HeaderField(k))), t.headers[k]) == t.headers[k]
    {
      var p := SectionText(loc, BlockAt(j, HeaderField(k)));
      if p in m {
        assert BlockText(b, HeaderField(k)) == Some(m[p]);
      }
    }
    forall r, c | 0 <= r < |t.rows| && 0 <= c < |t.rows[r]|
      ensures ApplyCell(t.rows[r][c], loc, j, r, c, m) == t.rows[r][c]
    {
      var p := SectionText(loc, BlockAt(j, CellField(r, c)));
      var q := SectionText(loc, BlockAt(j, CellContentField(r, c)));
      if p in m {
        assert BlockText(b, CellField(r, c)) == Some(m[p]);
      } else if t.rows[r][c].RichCell? && q in m {
        assert BlockText(b, CellContentField(r, c)) == Some(m[q]);
      }
    }
    forall r | 0 <= r < |t.rows| ensures ApplyRow(t.rows[r], loc, j, r, m) == t.rows[r]
    {
    }
  }

  lemma ApplySignatureId(b: ContentBlock, loc: seq<nat>, j: nat, m: map<Path, string>)
    requires BlockStable(b, loc, j, m) && b.signature.Some?
    ensures ApplySignature(b.signature.value, loc, j, m) == b.signature.value
  {
    var sig := b.signature.value;
    var p := SectionText(loc, BlockAt(j, PreambleField));
    if p in m {
      assert BlockText(b, PreambleField) == Some(m[p]);
    }
    forall l | 0 <= l < |sig.lines| ensures ApplyLine(sig.lines[l], loc, j, l, m) == sig.lines[l]
    {
      var q := SectionText(loc, BlockAt(j, LabelField(l)));
      if q in m {
        assert BlockText(b, LabelField(l)) == Some(m[q]);
      }
    }
  }

  lemma ApplyBlockId(b: ContentBlock, loc: seq<nat>, j: nat, m: map<Path, string>)
    requires BlockStable(b, loc, j, m)
    ensures ApplyBlock(b, loc, j, m) == b
  {
    var c := SectionText(loc, BlockAt(j, ContentField));
    if c in m {
      assert BlockText(b, ContentField) == Some(m[c]);
    }
    if b.items.Some? {
      ApplyItemsId(b, loc, j, m);
    }
    if b.table.Some? {
      ApplyTableId(b, loc, j, m);
    }
    if b.signature.Some? {
      ApplySignatureId(b, loc, j, m);
    }
  }

  /** The texts of the map agree with the document wherever it has them. */
  ghost predicate Agrees(doc: UniversalDocument, m: map<Path, string>)
  {
    forall p :: p in m ==> TextAt(doc, p) == Some(m[p])
  }

  lemma {:induction false} ApplySectionId(doc: UniversalDocument, s: Section, loc: seq<nat>, m: map<Path, string>)
    requires Agrees(doc, m) && Walk(doc.sections, loc) == Some(s)
    ensures ApplySection(s, loc, m) == s
    decreases s
  {
    var h := SectionText(loc, HeadingField);
    assert h in m ==> TextAt(doc, h) == Some(m[h]);
    forall j | 0 <= j < |s.blocks| ensures ApplyBlock(s.blocks[j], loc, j, m) == s.blocks[j]
    {
      forall f | SectionText(loc, BlockAt(j, f)) in m
        ensures BlockText(s.blocks[j], f) == Some(m[SectionText(loc, BlockAt(j, f))])
      {
        assert TextAt(doc, SectionText(loc, BlockAt(j, f))) == Some(m[SectionText(loc, BlockAt(j, f))]);
      }
      ApplyBlockId(s.blocks[j], loc, j, m);
    }
    forall i | 0 <= i < |s.subsections| ensures ApplySection(s.subsections[i], loc + [i], m) == s.subsections[i]
    {
      WalkChild(doc.sections, loc, s, i);
      ApplySectionId(doc, s.subsections[i], loc + [i], m);
    }
    assert ApplySections(s.subsections, loc, m) == s.subsections;
  }

  /** Writing back texts the document already holds gives the document
      back unchanged. */
  lemma ApplyIdentity(doc: UniversalDocument, m: map<Path, string>)
    requires Agrees(doc, m)
    ensures Apply(doc, m) == doc
  {
    assert TitlePath in m ==> TextAt(doc, TitlePath) == Some(m[TitlePath]);
    forall i | 0 <= i < |doc.sections| ensures ApplySection(doc.sections[i], [] + [i], m) == doc.sections[i]
    {
      assert Walk(doc.sections, [] + [i]) == Some(doc.sections[i]);
      ApplySectionId(doc, doc.sections[i], [] + [i], m);
    }
    assert ApplySections(doc.sections, [], m) == doc.sections;
  }

  // ---------------------------------------------------------------------
  // Round trip

  /** The map built by assigning, item after item, `m[item.path] := text`. */
  function PathMap(items: seq<Item>): (m: map<Path, string>)
  {
    if items == [] then map[] else PathMap(items[..|items| - 1])[items[|items| - 1].path := items[|items| - 1].text]
  }

  /** Every entry of a path map comes from one of its items. */
  lemma {:induction false} PathMapFrom(items: seq<Item>, p: Path)
    requires p in PathMap(items)
    ensures B.TextItem(p, PathMap(items)[p]) in items
  {
    var front := items[..|items| - 1];
    if p != items[|items| - 1].path {
      PathMapFrom(front, p);
    }
  }

  /** Round trip: writing back every collected text unchanged reproduces
      the document exactly. */
  lemma CollectApplyRoundTrip(doc: UniversalDocument)
    ensures Apply(doc, PathMap(TextItems(doc))) == doc
  {
    var m := PathMap(TextItems(doc));
    forall p | p in m ensures TextAt(doc, p) == Some(m[p])
    {
      PathMapFrom(TextItems(doc), p);
      CollectedSound(doc, B.TextItem(p, m[p]));
    }
    ApplyIdentity(doc, m);
  }

  // ---------------------------------------------------------------------
  // Collected paths are distinct

  /** No two items share a path. */
  predicate Distinct(items: seq<Item>)
  {
    forall i, j :: 0 <= i < j < |items| ==> items[i].path != items[j].path
  }

  lemma DistinctAppend(a: seq<Item>, b: seq<Item>)
    requires Distinct(a) && Distinct(b)
    requires forall x: Item, y: Item :: x in a && y in b ==> x.path != y.path
    ensures Distinct(a + b)
  {
    forall i, j | 0 <= i < j < |a + b| ensures (a + b)[i].path != (a + b)[j].path
    {
      if i >= |a| {
        assert (a + b)[i] == b[i - |a|] && (a + b)[j] == b[j - |a|];
      } else if j >= |a| {
        assert (a + b)[i] in a && (a + b)[j] in b;
      }
    }
  }

  /** Parts told apart by a tag of their paths concatenate without
      repeating a path. */
  lemma {:induction false} DistinctParts(xss: seq<seq<Item>>, tag: Path -> int)
    requires forall i :: 0 <= i < |xss| ==> Distinct(xss[i])
    requires forall i: int, x: Item :: 0 <= i < |xss| && x in xss[i] ==> tag(x.path) == i
    ensures Distinct(Concat(xss))
  {
    if xss != [] {
      var front := xss[..|xss| - 1];
      assert forall i :: 0 <= i < |front| ==> front[i] == xss[i];
      DistinctParts(front, tag);
      forall x: Item, y: Item | x in Concat(front) && y in xss[|xss| - 1] ensures x.path != y.path
      {
        var i := ConcatFrom(front, x);
      }
      DistinctAppend(Concat(front), xss[|xss| - 1]);
    }
  }

  /** Which group of `_collect_from_block` a field belongs to. */
  function Kind(f: BlockField): nat
  {
    match f
    case ContentField => 0
    case ItemField(_) => 1
    case ItemTextField(_) => 1
    case HeaderField(_) => 2
    case CellField(_, _) => 3
    case CellContentField(_, _) => 3
    case PreambleField => 4
    case LabelField(_) => 5
  }

  /** The block field a path names, or `None`. */
  function FieldOf(p: Path): Option<BlockField>
  {
    if p.SectionText? && p.field.BlockAt? then Some(p.field.field) else None
  }

  predicate OfKind(items: seq<Item>, kind: nat)
  {
    forall x: Item :: x in items ==> FieldOf(x.path).Some? && Kind(FieldOf(x.path).value) == kind
  }

  lemma ListDistinct(b: ContentBlock, loc: seq<nat>, j: nat)
    ensures Distinct(ListItemsOf(b, loc, j)) && OfKind(ListItemsOf(b, loc, j), 1)
  {
    if b.items.Some? {
      var xss := ListParts(b.items.value, loc, j);
      var tag := (p: Path) => if FieldOf(p).Some? && Kind(FieldOf(p).value) == 1 then FieldOf(p).value.k else -1;
      DistinctParts(xss, tag);
      forall x: Item | x in Concat(xss) ensures FieldOf(x.path).Some? && Kind(FieldOf(x.path).value) == 1
      {
        var k := ConcatFrom(xss, x);
      }
    }
  }

  lemma RowDistinct(row: seq<CellEntry>, loc: seq<nat>, j: nat, r: nat)
    ensures var xs := Concat(RowParts(row, loc, j, r));
      Distinct(xs) && forall x: Item :: x in xs ==> FieldOf(x.path).Some? && Kind(FieldOf(x.path).value) == 3 && FieldOf(x.path).value.r == r
  {
    var xss := RowParts(row, loc, j, r);
    var tag := (p: Path) => if FieldOf(p).Some? && Kind(FieldOf(p).value) == 3 then FieldOf(p).value.c else -1;
    DistinctParts(xss, tag);
    forall x: Item | x in Concat(xss) ensures FieldOf(x.path).Some? && Kind(FieldOf(x.path).value) == 3 && FieldOf(x.path).value.r == r
    {
      var c := ConcatFrom(xss, x);
    }
  }

  lemma TableDistinct(b: ContentBlock, loc: seq<nat>, j: nat)
    ensures Distinct(TableItemsOf(b, loc, j))
    ensures forall x: Item :: x in TableItemsOf(b, loc, j) ==> FieldOf(x.path).Some? && Kind(FieldOf(x.path).value) in {2, 3}
  {
    if b.table.Some? {
      var t := b.table.value;
      var hs := HeaderParts(t.headers, loc, j);
      var htag := (p: Path) => if FieldOf(p).Some? && Kind(FieldOf(p).value) == 2 then FieldOf(p).value.k else -1;
      DistinctParts(hs, htag);
      forall x: Item | x in Concat(hs) ensures FieldOf(x.path).Some? && Kind(FieldOf(x.path).value) == 2
      {
        var k := ConcatFrom(hs, x);
      }
      var rs := RowsParts(t.rows, loc, j);
      forall r | 0 <= r < |rs| ensures Distinct(rs[r])
      {
        RowDistinct(t.rows[r], loc, j, r);
      }
      forall r: nat, x: Item | 0 <= r < |rs| && x in rs[r]
        ensures FieldOf(x.path).Some? && Kind(FieldOf(x.path).value) == 3 && FieldOf(x.path).value.r == r
      {
        RowDistinct(t.rows[r], loc, j, r);
      }
      var rtag := (p: Path) => if FieldOf(p).Some? && Kind(FieldOf(p).value) == 3 then FieldOf(p).value.r else -1;
      DistinctParts(rs, rtag);
      forall x: Item | x in Concat(rs) ensures FieldOf(x.path).Some? && Kind(FieldOf(x.path).value) == 3
      {
        var r := ConcatFrom(rs, x);
      }
      DistinctAppend(Concat(hs), Concat(rs));
    }
  }

  lemma SignatureDistinct(b: ContentBlock, loc: seq<nat>, j: nat)
    ensures Distinct(SignatureItemsOf(b, loc, j))
    ensures forall x: Item :: x in SignatureItemsOf(b, loc, j) ==> FieldOf(x.path).Some? && Kind(FieldOf(x.path).value) in {4, 5}
  {
    if b.signature.Some? {
      var sig := b.signature.value;
      var ls := LabelParts(sig.lines, loc, j);
      var tag := (p: Path) => if FieldOf(p).Some? && Kind(FieldOf(p).value) == 5 then FieldOf(p).value.l else -1;
      DistinctParts(ls, tag);
      forall x: Item | x in Concat(ls) ensures FieldOf(x.path).Some? && Kind(FieldOf(x.path).value) == 5
      {
        var l := ConcatFrom(ls, x);
      }
      DistinctAppend(PreambleItems(sig, loc, j), Concat(ls));
    }
  }

  /** A block never yields the same path twice. */
  lemma BlockDistinct(b: ContentBlock, loc: seq<nat>, j: nat)
    ensures Distinct(BlockItems(b, loc, j))
  {
    var c, l, t, g := ContentItems(b, loc, j), ListItemsOf(b, loc, j), TableItemsOf(b, loc, j), SignatureItemsOf(b, loc, j);
    ListDistinct(b, loc, j);
    TableDistinct(b, loc, j);
    SignatureDistinct(b, loc, j);
    DistinctAppend(c, l);
    DistinctAppend(c + l, t);
    DistinctAppend(c + l + t, g);
  }

  /** Every path a section yields lies at or below its location. */
  lemma {:induction false} SectionUnder(s: Section, loc: seq<nat>, x: Item)
    requires x in SectionItems(s, loc)
    ensures x.path.SectionText? && loc <= x.path.loc
    ensures x.path.loc == loc ==> x.path.field.HeadingField? || x in Concat(BlockParts(s.blocks, loc))
    decreases s
  {
    if x in Concat(BlockParts(s.blocks, loc)) {
      var j := ConcatFrom(BlockParts(s.blocks, loc), x);
      BlockItemsSound(s.blocks[j], loc, j, x);
    } else if x in Concat(SectionParts(s.subsections, loc)) {
      var i := ConcatFrom(SectionParts(s.subsections, loc), x);
      SectionUnder(s.subsections[i], loc + [i], x);
      assert x.path.loc[..|loc|] == (loc + [i])[..|loc|] == loc;
    }
  }

  lemma BlocksDistinct(bs: seq<ContentBlock>, loc: seq<nat>)
    ensures Distinct(Concat(BlockParts(bs, loc)))
    ensures forall x: Item :: x in Concat(BlockParts(bs, loc)) ==> x.path.SectionText? && x.path.loc == loc && x.path.field.BlockAt?
  {
    var xss := BlockParts(bs, loc);
    forall j | 0 <= j < |xss| ensures Distinct(xss[j])
    {
      BlockDistinct(bs[j], loc, j);
    }
    forall j: nat, x: Item | 0 <= j < |xss| && x in xss[j]
      ensures x.path.SectionText? && x.path.loc == loc && x.path.field.BlockAt? && x.path.field.j == j
    {
      BlockItemsSound(bs[j], loc, j, x);
    }
    var tag := (p: Path) => if p.SectionText? && p.field.BlockAt? then p.field.j else -1;
    DistinctParts(xss, tag);
    forall x: Item | x in Concat(xss) ensures x.path.SectionText? && x.path.loc == loc && x.path.field.BlockAt?
    {
      var j := ConcatFrom(xss, x);
    }
  }

  lemma {:induction false} SectionDistinct(s: Section, loc: seq<nat>)
    ensures Distinct(SectionItems(s, loc))
    decreases s, 1
  {
    var h, bl, sub := HeadingItems(s, loc), Concat(BlockParts(s.blocks, loc)), Concat(SectionParts(s.subsections, loc));
    BlocksDistinct(s.blocks, loc);
    SectionsDistinct(s.subsections, loc);
    DistinctAppend(h, bl);
    forall x: Item, y: Item | x in h + bl && y in sub ensures x.path != y.path
    {
      var i := ConcatFrom(SectionParts(s.subsections, loc), y);
      SectionUnder(s.subsections[i], loc + [i], y);
    }
    DistinctAppend(h + bl, sub);
  }

  lemma {:induction false} SectionsDistinct(ss: seq<Section>, base: seq<nat>)
    ensures Distinct(Concat(SectionParts(ss, base)))
    decreases ss, 0
  {
    var xss := SectionParts(ss, base);
    forall i | 0 <= i < |xss| ensures Distinct(xss[i])
    {
      SectionDistinct(ss[i], base + [i]);
    }
    var tag := (p: Path) => if p.SectionText? && |p.loc| > |base| then p.loc[|base|] as int else -1;
    forall i: nat, x: Item | 0 <= i < |xss| && x in xss[i] ensures tag(x.path) == i
    {
      SectionUnder(ss[i], base + [i], x);
      assert x.path.loc[|base|] == (base + [i])[|base|];
    }
    DistinctParts(xss, tag);
  }

  /** `_collect_text_items` never yields the same path twice, so the
      path-keyed maps built from its items lose nothing. */
  lemma CollectedDistinct(doc: UniversalDocument)
    ensures Distinct(TextItems(doc))
  {
    SectionsDistinct(doc.sections, []);
    forall x: Item, y: Item | x in TitleItems(doc) && y in Concat(SectionParts(doc.sections, [])) ensures x.path != y.path
    {
      var i := ConcatFrom(SectionParts(doc.sections, []), y);
      SectionUnder(doc.sections[i], [] + [i], y);
    }
    DistinctAppend(TitleItems(doc), Concat(SectionParts(doc.sections, [])));
  }
}
