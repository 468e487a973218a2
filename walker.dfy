/** The tree walks of the parallel translator, as the loops they are:
    `_collect_text_items` appends to a growing list of items, and
    `_apply_translations` overwrites texts of the (copied) document one by
    one. Each method is proved to compute the corresponding function of
    `TreeText`, whose properties are proved there. */
module Walker {
  import opened Wrappers
  import opened Seqs
  import opened Text
  import opened PyValue
  import opened Schema
  import opened TextPaths
  import opened TreeText
  import B = Batcher

  // ---------------------------------------------------------------------
  // `_collect_text_items`

  method CollectListItems(entries: seq<ListEntry>, loc: seq<nat>, j: nat, items: seq<Item>) returns (out: seq<Item>)
    ensures out == items + Concat(ListParts(entries, loc, j))
  {
    ghost var parts := ListParts(entries, loc, j);
    out := items;
    for k := 0 to |entries|
      invariant out == items + Concat(parts[..k])
    {
      ConcatSnoc(parts, k);
      assert parts[k] == EntryItems(entries[k], loc, j, k);
      match entries[k]
      case TextItem(s) =>
        if !IsBlank(s) {
          out := out + [BlockItem(loc, j, ItemField(k), s)];
        }
      case DictItem(fields) =>
        if "text" in fields && fields["text"].VStr? && fields["text"].s != "" {
          out := out + [BlockItem(loc, j, ItemTextField(k), fields["text"].s)];
        }
    }
    assert parts[..|entries|] == parts;
  }

  method CollectHeaders(headers: seq<string>, loc: seq<nat>, j: nat, items: seq<Item>) returns (out: seq<Item>)
    ensures out == items + Concat(HeaderParts(headers, loc, j))
  {
    ghost var parts := HeaderParts(headers, loc, j);
    out := items;
    for k := 0 to |headers|
      invariant out == items + Concat(parts[..k])
    {
      ConcatSnoc(parts, k);
      assert parts[k] == HeaderItems(headers[k], loc, j, k);
      if !IsBlank(headers[k]) {
        out := out + [BlockItem(loc, j, HeaderField(k), headers[k])];
      }
    }
    assert parts[..|headers|] == parts;
  }

  method CollectRow(row: seq<CellEntry>, loc: seq<nat>, j: nat, r: nat, items: seq<Item>) returns (out: seq<Item>)
    ensures out == items + Concat(RowParts(row, loc, j, r))
  {
    ghost var parts := RowParts(row, loc, j, r);
    out := items;
    for c := 0 to |row|
      invariant out == items + Concat(parts[..c])
    {
      ConcatSnoc(parts, c);
      assert parts[c] == CellItems(row[c], loc, j, r, c);
      match row[c]
      case TextCell(s) =>
        if !IsBlank(s) {
          out := out + [BlockItem(loc, j, CellField(r, c), s)];
        }
      case RichCell(cell) =>
        if !IsBlank(cell.content) {
          out := out + [BlockItem(loc, j, CellContentField(r, c), cell.content)];
        }
    }
    assert parts[..|row|] == parts;
  }

  method CollectRows(rows: seq<seq<CellEntry>>, loc: seq<nat>, j: nat, items: seq<Item>) returns (out: seq<Item>)
    ensures out == items + Concat(RowsParts(rows, loc, j))
  {
    ghost var parts := RowsParts(rows, loc, j);
    out := items;
    for r := 0 to |rows|
      invariant out == items + Concat(parts[..r])
    {
      ConcatSnoc(parts, r);
      assert parts[r] == Concat(RowParts(rows[r], loc, j, r));
      out := CollectRow(rows[r], loc, j, r, out);
    }
    assert parts[..|rows|] == parts;
  }

  method CollectLabels(lines: seq<SignatureLine>, loc: seq<nat>, j: nat, items: seq<Item>) returns (out: seq<Item>)
    ensures out == items + Concat(LabelParts(lines, loc, j))
  {
    ghost var parts := LabelParts(lines, loc, j);
    out := items;
    for l := 0 to |lines|
      invariant out == items + Concat(parts[..l])
    {
      ConcatSnoc(parts, l);
      assert parts[l] == LabelItems(lines[l], loc, j, l);
      if lines[l].labelText != "" {
        out := out + [BlockItem(loc, j, LabelField(l), lines[l].labelText)];
      }
    }
    assert parts[..|lines|] == parts;
  }

  method CollectTable(t: TableBlock, loc: seq<nat>, j: nat, items: seq<Item>) returns (out: seq<Item>)
    ensures out == items + (Concat(HeaderParts(t.headers, loc, j)) + Concat(RowsParts(t.rows, loc, j)))
  {
    out := CollectHeaders(t.headers, loc, j, items);
    out := CollectRows(t.rows, loc, j, out);
    Assoc3(items, Concat(HeaderParts(t.headers, loc, j)), Concat(RowsParts(t.rows, loc, j)));
  }

  method CollectSignature(sig: SignatureBlock, loc: seq<nat>, j: nat, items: seq<Item>) returns (out: seq<Item>)
    ensures out == items + (PreambleItems(sig, loc, j) + Concat(LabelParts(sig.lines, loc, j)))
  {
    out := items;
    if sig.preamble.Some? && sig.preamble.value != "" {
      out := out + [BlockItem(loc, j, PreambleField, sig.preamble.value)];
    }
    assert out == items + PreambleItems(sig, loc, j);
    out := CollectLabels(sig.lines, loc, j, out);
    Assoc3(items, PreambleItems(sig, loc, j), Concat(LabelParts(sig.lines, loc, j)));
  }

  /** `_collect_from_block`: appends exactly the block's items. */
  method CollectFromBlock(b: ContentBlock, loc: seq<nat>, j: nat, items: seq<Item>) returns (out: seq<Item>)
    ensures out == items + BlockItems(b, loc, j)
  {
    ghost var c, l, t, g := ContentItems(b, loc, j), ListItemsOf(b, loc, j), TableItemsOf(b, loc, j), SignatureItemsOf(b, loc, j);
    out := items;
    if b.content != "" {
      out := out + [BlockItem(loc, j, ContentField, b.content)];
    }
    assert out == items + c;
    if b.items.Some? {
      out := CollectListItems(b.items.value, loc, j, out);
    }
    assert out == (items + c) + l;
    Assoc3(items, c, l);
    if b.table.Some? {
      out := CollectTable(b.table.value, loc, j, out);
    }
    assert out == (items + (c + l)) + t;
    Assoc3(items, c + l, t);
    if b.signature.Some? {
      out := CollectSignature(b.signature.value, loc, j, out);
    }
    assert out == (items + (c + l + t)) + g;
    Assoc3(items, c + l + t, g);
    assert BlockItems(b, loc, j) == c + l + t + g;
  }

  method CollectFromBlocks(bs: seq<ContentBlock>, loc: seq<nat>, items: seq<Item>) returns (out: seq<Item>)
    ensures out == items + Concat(BlockParts(bs, loc))
  {
    ghost var parts := BlockParts(bs, loc);
    out := items;
    for j := 0 to |bs|
      invariant out == items + Concat(parts[..j])
    {
      ConcatSnoc(parts, j);
      Assoc3(items, Concat(parts[..j]), parts[j]);
      out := CollectFromBlock(bs[j], loc, j, out);
    }
    assert parts[..|bs|] == parts;
  }

  /** The body of `_collect_from_sections` for the section at `loc`:
      its heading, its blocks, then its subsections. */
  method CollectFromSection(s: Section, loc: seq<nat>, items: seq<Item>) returns (out: seq<Item>)
    ensures out == items + SectionItems(s, loc)
    decreases s, 1
  {
    ghost var h, bl, sub := HeadingItems(s, loc), Concat(BlockParts(s.blocks, loc)), Concat(SectionParts(s.subsections, loc));
    out := items;
    if s.heading != "" {
      out := out + [B.TextItem(SectionText(loc, HeadingField), s.heading)];
    }
    assert out == items + h;
    out := CollectFromBlocks(s.blocks, loc, out);
    Assoc3(items, h, bl);
    if s.subsections != [] {
      out := CollectFromSections(s.subsections, loc, out);
    }
    assert out == (items + (h + bl)) + sub;
    Assoc3(items, h + bl, sub);
  }

  /** `_collect_from_sections`: section `i` sits at `base + [i]`. */
  method CollectFromSections(ss: seq<Section>, base: seq<nat>, items: seq<Item>) returns (out: seq<Item>)
    ensures out == items + Concat(SectionParts(ss, base))
    decreases ss, 0
  {
    ghost var parts := SectionParts(ss, base);
    out := items;
    for i := 0 to |ss|
      invariant out == items + Concat(parts[..i])
    {
      ConcatSnoc(parts, i);
      Assoc3(items, Concat(parts[..i]), parts[i]);
      out := CollectFromSection(ss[i], base + [i], out);
    }
    assert parts[..|ss|] == parts;
  }

  /** `_collect_text_items`: the title, then every section. */
  method CollectTextItems(doc: UniversalDocument) returns (items: seq<Item>)
    ensures items == TextItems(doc)
  {
    items := [];
    if doc.title != "" {
      items := items + [B.TextItem(TitlePath, doc.title)];
    }
    items := CollectFromSections(doc.sections, [], items);
  }

  // ---------------------------------------------------------------------
  // `_apply_translations`, on values: every assignment into the copied
  // document becomes an update of the sequence that holds the text.

  method ApplyToItems(entries: seq<ListEntry>, loc: seq<nat>, j: nat, m: map<Path, string>) returns (out: seq<ListEntry>)
    ensures |out| == |entries|
    ensures forall k :: 0 <= k < |entries| ==> out[k] == ApplyEntry(entries[k], loc, j, k, m)
  {
    out := entries;
    for k := 0 to |entries|
      invariant |out| == |entries|
      invariant forall k' :: 0 <= k' < k ==> out[k'] == ApplyEntry(entries[k'], loc, j, k', m)
      invariant forall k' :: k <= k' < |entries| ==> out[k'] == entries[k']
    {
      var itemPath := SectionText(loc, BlockAt(j, ItemField(k)));
      if itemPath in m {
        out := out[k := TextItem(m[itemPath])];
      } else if entries[k].DictItem? {
        var textPath := SectionText(loc, BlockAt(j, ItemTextField(k)));
        if textPath in m {
          out := out[k := DictItem(entries[k].fields["text" := VStr(m[textPath])])];
        }
      }
    }
  }

  method ApplyToHeaders(headers: seq<string>, loc: seq<nat>, j: nat, m: map<Path, string>) returns (out: seq<string>)
    ensures |out| == |headers|
    ensures forall k :: 0 <= k < |headers| ==> out[k] == Written(m, SectionText(loc, BlockAt(j, HeaderField(k))), headers[k])
  {
    out := headers;
    for k := 0 to |headers|
      invariant |out| == |headers|
      invariant forall k' :: 0 <= k' < k ==> out[k'] == Written(m, SectionText(loc, BlockAt(j, HeaderField(k'))), headers[k'])
      invariant forall k' :: k <= k' < |headers| ==> out[k'] == headers[k']
    {
      var headerPath := SectionText(loc, BlockAt(j, HeaderField(k)));
      if headerPath in m {
        out := out[k := m[headerPath]];
      }
    }
  }

  method ApplyToRow(row: seq<CellEntry>, loc: seq<nat>, j: nat, r: nat, m: map<Path, string>) returns (out: seq<CellEntry>)
    ensures out == ApplyRow(row, loc, j, r, m)
  {
    out := row;
    for c := 0 to |row|
      invariant |out| == |row|
      invariant forall c' :: 0 <= c' < c ==> out[c'] == ApplyCell(row[c'], loc, j, r, c', m)
      invariant forall c' :: c <= c' < |row| ==> out[c'] == row[c']
    {
      var cellPath := SectionText(loc, BlockAt(j, CellField(r, c)));
      if cellPath in m {
        out := out[c := TextCell(m[cellPath])];
      } else if row[c].RichCell? {
        var contentPath := SectionText(loc, BlockAt(j, CellContentField(r, c)));
        if contentPath in m {
          out := out[c := RichCell(row[c].cell.(content := m[contentPath]))];
        }
      }
    }
  }

  method ApplyToTable(t: TableBlock, loc: seq<nat>, j: nat, m: map<Path, string>) returns (out: TableBlock)
    ensures out == ApplyTable(t, loc, j, m)
  {
    var headers := ApplyToHeaders(t.headers, loc, j, m);
    var rows := t.rows;
    for r := 0 to |t.rows|
      invariant |rows| == |t.rows|
      invariant forall r' :: 0 <= r' < r ==> rows[r'] == ApplyRow(t.rows[r'], loc, j, r', m)
      invariant forall r' :: r <= r' < |t.rows| ==> rows[r'] == t.rows[r']
    {
      var row := ApplyToRow(t.rows[r], loc, j, r, m);
      rows := rows[r := row];
    }
    out := t.(headers := headers, rows := rows);
  }

  method ApplyToSignature(sig: SignatureBlock, loc: seq<nat>, j: nat, m: map<Path, string>) returns (out: SignatureBlock)
    ensures out == ApplySignature(sig, loc, j, m)
  {
    out := sig;
    var preamblePath := SectionText(loc, BlockAt(j, PreambleField));
    if preamblePath in m {
      out := out.(preamble := Some(m[preamblePath]));
    }
    var lines := sig.lines;
    for l := 0 to |sig.lines|
      invariant |lines| == |sig.lines|
      invariant forall l' :: 0 <= l' < l ==> lines[l'] == ApplyLine(sig.lines[l'], loc, j, l', m)
      invariant forall l' :: l <= l' < |sig.lines| ==> lines[l'] == sig.lines[l']
    {
      var labelPath := SectionText(loc, BlockAt(j, LabelField(l)));
      if labelPath in m {
        lines := lines[l := lines[l].(labelText := m[labelPath])];
      }
    }
    out := out.(lines := lines);
  }

  /** `_apply_to_block`. */
  method ApplyToBlock(b: ContentBlock, loc: seq<nat>, j: nat, m: map<Path, string>) returns (out: ContentBlock)
    ensures out == ApplyBlock(b, loc, j, m)
  {
    out := b;
    var contentPath := SectionText(loc, BlockAt(j, ContentField));
    if contentPath in m {
      out := out.(content := m[contentPath]);
    }
    if b.items.Some? {
      var entries := ApplyToItems(b.items.value, loc, j, m);
      assert entries == ApplyBlock(b, loc, j, m).items.value;
      out := out.(items := Some(entries));
    }
    if b.table.Some? {
      var t := ApplyToTable(b.table.value, loc, j, m);
      out := out.(table := Some(t));
    }
    if b.signature.Some? {
      var sig := ApplyToSignature(b.signature.value, loc, j, m);
      out := out.(signature := Some(sig));
    }
  }

  method ApplyToBlocks(bs: seq<ContentBlock>, loc: seq<nat>, m: map<Path, string>) returns (out: seq<ContentBlock>)
    ensures |out| == |bs|
    ensures forall j :: 0 <= j < |bs| ==> out[j] == ApplyBlock(bs[j], loc, j, m)
  {
    out := bs;
    for j := 0 to |bs|
      invariant |out| == |bs|
      invariant forall j' :: 0 <= j' < j ==> out[j'] == ApplyBlock(bs[j'], loc, j', m)
    {
      var block := ApplyToBlock(bs[j], loc, j, m);
      out := out[j := block];
    }
  }

  /** `_apply_to_sections`. */
  method ApplyToSections(ss: seq<Section>, base: seq<nat>, m: map<Path, string>) returns (out: seq<Section>)
    ensures out == ApplySections(ss, base, m)
    decreases ss
  {
    out := ss;
    for i := 0 to |ss|
      invariant |out| == |ss|
      invariant forall i' :: 0 <= i' < i ==> out[i'] == ApplySection(ss[i'], base + [i'], m)
    {
      var s := ss[i];
      var loc := base + [i];
      var headingPath := SectionText(loc, HeadingField);
      if headingPath in m {
        s := s.(heading := m[headingPath]);
      }
      var blocks := ApplyToBlocks(s.blocks, loc, m);
      s := s.(blocks := blocks);
      if s.subsections != [] {
        var subs := ApplyToSections(s.subsections, loc, m);
        s := s.(subsections := subs);
      }
      assert s == ApplySection(ss[i], loc, m);
      out := out[i := s];
    }
  }

  /** `_apply_translations`: the title, then every section. */
  method ApplyTranslations(doc: UniversalDocument, m: map<Path, string>) returns (out: UniversalDocument)
    ensures out == Apply(doc, m)
  {
    out := doc;
    if TitlePath in m {
      out := out.(title := m[TitlePath]);
    }
    var sections := ApplyToSections(doc.sections, [], m);
    out := out.(sections := sections);
  }
}
