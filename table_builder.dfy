/** The table builder: a grid of `rows x cols` blank cells is created, the
    header row is written bold and centred on a shaded background, each data
    row places its entries from the left (a cell spanning several columns is
    merged with its neighbours, an entry that starts past the last column is
    dropped, and the rest of the row is blanked), column widths are applied
    to every row, and an empty paragraph follows the table. */
module TableBuilder {
  import opened Wrappers
  import opened Text
  import PyInt
  import opened Schema
  import opened Output
  import SectionBuilder

  /** A column or row span after `max(1, n)`. */
  type Span = n: int | n >= 1 witness 1

  /** The builder's `TableCell`: spans are at least one and both alignment
      names are lower-cased. */
  datatype BuilderCell = BuilderCell(content: string, colspan: Span, rowspan: Span,
                                     alignment: string, verticalAlignment: string,
                                     background: Option<string>)

  /** The `TableCell` constructor. */
  function NewBuilderCell(content: string, colspan: int, rowspan: int, alignment: string,
                          verticalAlignment: string, background: Option<string>): (c: BuilderCell)
    ensures c.content == content && c.background == background
    ensures colspan >= 1 ==> c.colspan == colspan
    ensures colspan < 1 ==> c.colspan == 1
    ensures c.alignment == Lower(alignment) && c.verticalAlignment == Lower(verticalAlignment)
  {
    BuilderCell(content, if colspan < 1 then 1 else colspan, if rowspan < 1 then 1 else rowspan,
                Lower(alignment), Lower(verticalAlignment), background)
  }

  /** An entry of a data row: text (`str(x)` of whatever it was), `None`,
      a dict with the `TableCell` keys already looked up, or a `TableCell`. */
  datatype RowEntry =
    | TextEntry(text: string)
    | NoneEntry
    | DictEntry(content: string, colspan: int, rowspan: int, alignment: string,
                verticalAlignment: string, background: Option<string>)
    | ConfigEntry(cell: BuilderCell)

  /** How `_add_data_row` turns an entry into a cell configuration. */
  function EntryCell(e: RowEntry): (c: BuilderCell)
    ensures c.colspan == ColSpan(e)
  {
    match e
    case TextEntry(t) => BuilderCell(t, 1, 1, "left", "center", None)
    case NoneEntry => BuilderCell("", 1, 1, "left", "center", None)
    case DictEntry(content, cs, rs, al, va, bg) => NewBuilderCell(content, cs, rs, al, va, bg)
    case ConfigEntry(c) => c
  }

  /** Columns an entry occupies when it is placed: `max(1, colspan)`. */
  function ColSpan(e: RowEntry): Span
  {
    match e
    case DictEntry(_, cs, _, _, _, _) => if cs < 1 then 1 else cs
    case ConfigEntry(c) => c.colspan
    case _ => 1
  }

  /** `VERTICAL_ALIGNMENT_MAP.get(name, CENTER)`. */
  function VAlignOf(name: string): (v: VAlign)
    ensures name == "top" <==> v == VTop
    ensures name == "bottom" <==> v == VBottom
  {
    if name == "top" then VTop else if name == "bottom" then VBottom else VCenter
  }

  // ---------------------------------------------------------------------
  // Cell shading

  /** `"".join(c * 2 for c in s)`. */
  function Doubled(s: string): (r: string)
    ensures |r| == 2 * |s|
    ensures forall i :: 0 <= i < |s| ==> r[2 * i] == s[i] && r[2 * i + 1] == s[i]
  {
    if s == [] then []
    else
      var rest := Doubled(s[1..]);
      var r := [s[0], s[0]] + rest;
      assert forall i :: 1 <= i < |s| ==> r[2 * i] == rest[2 * (i - 1)] && r[2 * i + 1] == rest[2 * (i - 1) + 1];
      r
  }

  predicate IsHexDigit(c: char) { PyInt.IsDigitIn(c, 16) }

  predicate AllHex(s: string) { forall i :: 0 <= i < |s| ==> IsHexDigit(s[i]) }

  predicate IsUpperHex(c: char) { '0' <= c <= '9' || 'A' <= c <= 'F' }

  lemma UpperOfHex(d: string)
    requires AllHex(d)
    ensures forall i :: 0 <= i < |d| ==> IsUpperHex(Upper(d)[i])
  {
  }

  /** The colour `_set_cell_shading` writes, as the code is written: after
      dropping leading `#`s the colour must have 3 or 6 characters (3 are
      doubled), and `int(color, 16)` must not raise. */
  function ShadingFillAsWritten(color: string): (r: Option<string>)
    ensures r.Some? ==> |r.value| == 6
  {
    var c := TrimLeft(color, {'#'});
    if |c| != 3 && |c| != 6 then None
    else
      var d := if |c| == 3 then Doubled(c) else c;
      if PyInt.ParseInt(d, 16).Some? then Some(Upper(d)) else None
  }

  /** The shading check as intended: the 3 or 6 characters must all be
      hexadecimal digits, so the fill is always six upper-case digits. */
  function ShadingFill(color: string): (r: Option<string>)
    ensures r.Some? <==> var c := TrimLeft(color, {'#'}); (|c| == 3 || |c| == 6) && AllHex(c)
    ensures r.Some? ==> |r.value| == 6 && forall i :: 0 <= i < 6 ==> IsUpperHex(r.value[i])
  {
    var c := TrimLeft(color, {'#'});
    if |c| != 3 && |c| != 6 then None
    else
      var d := if |c| == 3 then Doubled(c) else c;
      DoubledHex(c);
      if AllHex(d) then
        UpperOfHex(d);
        Some(Upper(d))
      else None
  }

  lemma DoubledHex(c: string)
    ensures AllHex(Doubled(c)) <==> AllHex(c)
  {
    var d := Doubled(c);
    if AllHex(c) {
      forall i | 0 <= i < |d| ensures IsHexDigit(d[i]) {
        if i % 2 == 0 {
          assert d[2 * (i / 2)] == c[i / 2];
        } else {
          assert d[2 * (i / 2) + 1] == c[i / 2];
        }
      }
    } else {
      var k :| 0 <= k < |c| && !IsHexDigit(c[k]);
      assert d[2 * k] == c[k];
    }
  }

  /** A fill the intended check accepts is accepted by the code as written,
      with the same result. */
  lemma ShadingFillAgrees(color: string)
    requires ShadingFill(color).Some?
    ensures ShadingFillAsWritten(color) == ShadingFill(color)
  {
    var c := TrimLeft(color, {'#'});
    var d := if |c| == 3 then Doubled(c) else c;
    DoubledHex(c);
    PyInt.ParseHexDigits(d);
  }

  /** `"0x"` followed by four hexadecimal digits passes `int(color, 16)`,
      so the as-written check writes a fill such as `0X1234`, whose second
      character is not a digit; the intended check refuses it. */
  lemma ShadingFillPrefixCounterexample(digits: string)
    requires |digits| == 4 && AllHex(digits)
    ensures ShadingFillAsWritten("0x" + digits) == Some(Upper("0x" + digits))
    ensures Upper("0x" + digits)[1] == 'X'
    ensures ShadingFill("0x" + digits) == None
  {
    var d := "0x" + digits;
    assert d[0] !in {'#'};
    assert TrimLeft(d, {'#'}) == d;
    PyInt.ParseHexPrefixed(d, digits);
    assert !IsHexDigit(d[1]);
  }

  /** A fill the builder wrote is accepted again unchanged. */
  lemma ShadingFillIdempotent(color: string)
    requires ShadingFill(color).Some?
    ensures ShadingFill(ShadingFill(color).value) == ShadingFill(color)
  {
    var f := ShadingFill(color).value;
    assert f[0] != '#';
    assert TrimLeft(f, {'#'}) == f;
    assert AllHex(f);
    assert Upper(f) == f;
  }

  /** `_set_cell_shading(cell, color)`: an empty colour or one the check
      as written refuses leaves the shading as it was. */
  function ShadingApplied(old_: Option<string>, color: string): Option<string>
  {
    if color == [] then old_
    else match ShadingFillAsWritten(color)
      case Some(f) => Some(f)
      case None => old_
  }

  /** Every colour of three or six hexadecimal digits, with or without
      `#`s, is written as its six upper-case digits; a colour the check
      refuses whatever it is keeps the old shading. */
  lemma ShadingAppliedSpec(old_: Option<string>, color: string)
    ensures ShadingFill(color).Some? ==> ShadingApplied(old_, color) == ShadingFill(color)
    ensures var c := TrimLeft(color, {'#'}); |c| != 3 && |c| != 6 ==> ShadingApplied(old_, color) == old_
    ensures ShadingApplied(old_, color) == old_ || |ShadingApplied(old_, color).value| == 6
  {
    if ShadingFill(color).Some? {
      ShadingFillAgrees(color);
      assert color != [];
    }
  }

  /** The leniency of `int(color, 16)` reaches the document: a colour
      such as `0x1234` is written as the fill `0X1234`, whose second
      character is not a hexadecimal digit. */
  lemma ShadingAppliedPrefix(old_: Option<string>, digits: string)
    requires |digits| == 4 && AllHex(digits)
    ensures ShadingApplied(old_, "0x" + digits) == Some(Upper("0x" + digits))
    ensures Upper("0x" + digits)[1] == 'X'
  {
    ShadingFillPrefixCounterexample(digits);
  }

  // ---------------------------------------------------------------------
  // The table being built

  function BlankRow(cols: nat): (r: seq<GridCell>)
    ensures |r| == cols && forall k :: 0 <= k < cols ==> r[k] == BlankCell
  {
    seq(cols, _ => BlankCell)
  }

  /** Everything but the cells is as it was. */
  twostate predicate PropsUnchanged(t: Table)
    reads t
  {
    t.style == old(t.style) && t.centered == old(t.centered) && t.autofit == old(t.autofit)
  }

  /** A python-docx table: its grid of cells (one per row and grid column,
      a merged cell marked on each column it covers), its style, whether it
      is centred on the page and whether Word may resize its columns. */
  class Table {
    var rows: seq<seq<GridCell>>
    var style: Option<string>
    var centered: bool
    var autofit: bool

    /** `doc.add_table(rows=n, cols=m)`. */
    constructor (numRows: nat, numCols: nat)
      ensures rows == seq(numRows, _ => BlankRow(numCols))
      ensures style == None && !centered && autofit
    {
      rows := seq(numRows, _ => BlankRow(numCols));
      style := None;
      centered := false;
      autofit := true;
    }

    /** Replace one cell. */
    method SetCell(r: nat, c: nat, cell: GridCell)
      requires r < |rows| && c < |rows[r]|
      modifies this
      ensures rows == old(rows)[r := old(rows)[r][c := cell]]
      ensures PropsUnchanged(this)
    {
      rows := rows[r := rows[r][c := cell]];
    }

    /** `cell.merge(other)` on one row, from column `a` to column `b`. */
    method MergeCells(r: nat, a: nat, b: nat)
      requires r < |rows| && a < b < |rows[r]|
      modifies this
      ensures rows == old(rows)[r := MergeSpan(old(rows)[r], a, b)]
      ensures PropsUnchanged(this)
    {
      rows := rows[r := MergeSpan(rows[r], a, b)];
    }
  }

  /** The row after merging columns `a..b`: the first cell spans to `b`,
      the others are marked as covered by it. */
  function MergeSpan(cells: seq<GridCell>, a: nat, b: nat): (r: seq<GridCell>)
    requires a < b < |cells|
    ensures |r| == |cells|
  {
    seq(|cells|, k requires 0 <= k < |cells| =>
      if k == a then cells[k].(merge := SpansTo(b))
      else if a < k <= b then cells[k].(merge := MergedInto(a))
      else cells[k])
  }

  // ---------------------------------------------------------------------
  // Header row

  /** A header cell: the text, centred, bold at 11pt, shaded, centred
      vertically. */
  function HeaderCell(c: GridCell, text: string, background: string): GridCell
  {
    c.(text := text, alignment := Some(Center), bold := true, size := Some(11),
       shading := ShadingApplied(c.shading, background), vAlign := Some(VCenter))
  }

  /** The header row: one header per column, extra headers dropped. */
  function HeaderRowCells(cells: seq<GridCell>, headers: seq<string>, background: string): (r: seq<GridCell>)
    ensures |r| == |cells|
  {
    seq(|cells|, k requires 0 <= k < |cells| =>
      if k < |headers| then HeaderCell(cells[k], headers[k], background) else cells[k])
  }

  /** `_add_header_row`. A row index past the table changes nothing. */
  method AddHeaderRow(t: Table, headers: seq<string>, background: string, rowIdx: nat)
    modifies t
    ensures rowIdx >= |old(t.rows)| ==> t.rows == old(t.rows)
    ensures rowIdx < |old(t.rows)| ==>
      t.rows == old(t.rows)[rowIdx := HeaderRowCells(old(t.rows)[rowIdx], headers, background)]
    ensures PropsUnchanged(t)
  {
    if rowIdx >= |t.rows| {
      return;
    }
    ghost var original := t.rows[rowIdx];
    var col := 0;
    while col < |headers|
      invariant 0 <= col <= |headers|
      invariant |t.rows| == |old(t.rows)| && |t.rows[rowIdx]| == |original|
      invariant t.rows == old(t.rows)[rowIdx := t.rows[rowIdx]]
      invariant forall k :: 0 <= k < |original| ==>
        t.rows[rowIdx][k] == if k < col then HeaderCell(original[k], headers[k], background) else original[k]
      invariant PropsUnchanged(t)
    {
      if col >= |t.rows[rowIdx]| {
        break;
      }
      t.SetCell(rowIdx, col, HeaderCell(t.rows[rowIdx][col], headers[col], background));
      col := col + 1;
    }
    assert t.rows[rowIdx] == HeaderRowCells(original, headers, background);
  }

  // ---------------------------------------------------------------------
  // Data rows

  /** A data cell: its content, its horizontal and vertical alignment and,
      when it has a background colour, its shading. */
  function DataCell(c: GridCell, cfg: BuilderCell): GridCell
  {
    c.(text := cfg.content,
       alignment := Some(SectionBuilder.AlignmentOf(cfg.alignment)),
       vAlign := Some(VAlignOf(cfg.verticalAlignment)),
       shading := if cfg.background.Some? then ShadingApplied(c.shading, cfg.background.value) else c.shading)
  }

  /** The closing loop: blank the text of the remaining columns. */
  function FillFrom(cells: seq<GridCell>, col: nat, numCols: int): (r: seq<GridCell>)
    ensures |r| == |cells|
    decreases |cells| - col
  {
    if col >= numCols || col >= |cells| then cells
    else FillFrom(cells[col := cells[col].(text := "")], col + 1, numCols)
  }

  /** Exactly the columns from `col` up to the last one lose their text. */
  lemma {:induction false} FillFromAt(cells: seq<GridCell>, col: nat, numCols: int, k: nat)
    requires k < |cells|
    ensures FillFrom(cells, col, numCols)[k] == if col <= k < numCols then cells[k].(text := "") else cells[k]
    decreases |cells| - col
  {
    if !(col >= numCols || col >= |cells|) {
      FillFromAt(cells[col := cells[col].(text := "")], col + 1, numCols, k);
    }
  }

  /** One entry placed at column `col`: merged up to its capped end when it
      spans more than one column, then written. */
  function PlaceOne(cells: seq<GridCell>, e: RowEntry, col: nat, numCols: int): (r: seq<GridCell>)
    requires col < numCols && col < |cells|
    ensures |r| == |cells|
  {
    var c := EntryCell(e);
    var merged := MergeFor(cells, c, col, numCols);
    merged[col := DataCell(merged[col], c)]
  }

  /** The entry's content is written at `col`, and the columns left of it
      are untouched. */
  lemma PlaceOneAt(cells: seq<GridCell>, e: RowEntry, col: nat, numCols: int, k: nat)
    requires col < numCols && col < |cells| && k <= col
    ensures k == col ==> PlaceOne(cells, e, col, numCols)[k].text == EntryCell(e).content
    ensures k < col ==> PlaceOne(cells, e, col, numCols)[k] == cells[k]
  {
    var c := EntryCell(e);
    var merged := MergeFor(cells, c, col, numCols);
    if k < col {
      var end := SectionBuilder.Min(col + c.colspan - 1, numCols - 1);
      if c.colspan > 1 && col < end < |cells| {
        assert merged[k] == MergeSpan(cells, col, end)[k];
      }
    }
  }

  /** The merge of a cell spanning more than one column, up to the last
      column; a merge whose end is past the row fails and is skipped. */
  function MergeFor(cells: seq<GridCell>, c: BuilderCell, col: nat, numCols: int): (r: seq<GridCell>)
    requires col < |cells|
    ensures |r| == |cells|
  {
    var end := SectionBuilder.Min(col + c.colspan - 1, numCols - 1);
    if c.colspan > 1 && col < end < |cells| then MergeSpan(cells, col, end) else cells
  }

  /** The row `_add_data_row` leaves, placing `entries[i..]` from column
      `col`: stop at the last column, place an entry, move on by its span,
      and blank whatever columns are left. */
  function PlaceFrom(cells: seq<GridCell>, entries: seq<RowEntry>, i: nat, col: nat, numCols: int): (r: seq<GridCell>)
    requires i <= |entries|
    ensures |r| == |cells|
    decreases |entries| - i
  {
    if i == |entries| || col >= numCols || col >= |cells| then FillFrom(cells, col, numCols)
    else PlaceFrom(PlaceOne(cells, entries[i], col, numCols), entries, i + 1, col + ColSpan(entries[i]), numCols)
  }

  /** The whole row. */
  function PlaceEntries(cells: seq<GridCell>, entries: seq<RowEntry>, numCols: int): (r: seq<GridCell>)
    ensures |r| == |cells|
  {
    PlaceFrom(cells, entries, 0, 0, numCols)
  }

  /** Unfolding `PlaceFrom` once when an entry is placed: the rest of the
      row is placed from `next`, the row with that entry written. */
  lemma PlaceFromStep(cells: seq<GridCell>, next: seq<GridCell>, entries: seq<RowEntry>,
                      i: nat, col: nat, col': nat, numCols: int)
    requires i < |entries| && col < numCols && col < |cells|
    requires next == PlaceOne(cells, entries[i], col, numCols) && col' == col + ColSpan(entries[i])
    ensures PlaceFrom(cells, entries, i, col, numCols) == PlaceFrom(next, entries, i + 1, col', numCols)
  {
    assert !(i == |entries| || col >= numCols || col >= |cells|);
  }

  /** Where placement stops, only the closing loop is left. */
  lemma PlaceFromStop(cells: seq<GridCell>, entries: seq<RowEntry>, i: nat, col: nat, numCols: int)
    requires i <= |entries|
    requires i == |entries| || col >= numCols || col >= |cells|
    ensures PlaceFrom(cells, entries, i, col, numCols) == FillFrom(cells, col, numCols)
  {
  }

  /** One iteration of `_add_data_row`'s loop on row `rowIdx`: merge the
      cell's columns when it spans several, then write it at `col`. */
  method PlaceCell(t: Table, rowIdx: nat, e: RowEntry, col: nat, numCols: int) returns (span: Span)
    requires rowIdx < |t.rows| && col < numCols && col < |t.rows[rowIdx]|
    modifies t
    ensures span == ColSpan(e)
    ensures t.rows == old(t.rows)[rowIdx := PlaceOne(old(t.rows)[rowIdx], e, col, numCols)]
    ensures PropsUnchanged(t)
  {
    var c := EntryCell(e);
    var end := SectionBuilder.Min(col + c.colspan - 1, numCols - 1);
    if c.colspan > 1 && col < end && end < |t.rows[rowIdx]| {
      t.MergeCells(rowIdx, col, end);
    }
    assert t.rows[rowIdx] == MergeFor(old(t.rows)[rowIdx], c, col, numCols);
    t.SetCell(rowIdx, col, DataCell(t.rows[rowIdx][col], c));
    span := c.colspan;
  }

  lemma UpdateTwice<T>(s: seq<T>, i: nat, a: T, b: T)
    requires i < |s|
    ensures s[i := a][i := b] == s[i := b]
  {
  }

  /** `PlaceCell` on entry `i`, returning the next entry and its column,
      with what is left of the row's placement. */
  method PlaceAndStep(t: Table, rowIdx: nat, entries: seq<RowEntry>, i: nat, col: nat, numCols: int,
                      ghost row: seq<GridCell>) returns (i': nat, next: nat)
    requires rowIdx < |t.rows| && i < |entries| && col < numCols && row == t.rows[rowIdx] && col < |row|
    modifies t
    ensures i' == i + 1 && next == col + ColSpan(entries[i]) && |t.rows| == |old(t.rows)|
    ensures t.rows == old(t.rows)[rowIdx := t.rows[rowIdx]]
    ensures PlaceFrom(row, entries, i, col, numCols) == PlaceFrom(t.rows[rowIdx], entries, i', next, numCols)
    ensures PropsUnchanged(t)
  {
    var span := PlaceCell(t, rowIdx, entries[i], col, numCols);
    i', next := i + 1, col + span;
    PlaceFromStep(row, t.rows[rowIdx], entries, i, col, next, numCols);
  }

  /** The closing loop of `_add_data_row`: blank the columns left. */
  method FillRest(t: Table, rowIdx: nat, col: nat, numCols: int)
    requires rowIdx < |t.rows|
    modifies t
    ensures t.rows == old(t.rows)[rowIdx := FillFrom(old(t.rows)[rowIdx], col, numCols)]
    ensures PropsUnchanged(t)
  {
    ghost var target := FillFrom(t.rows[rowIdx], col, numCols);
    var k: nat := col;
    while k < numCols && k < |t.rows[rowIdx]|
      invariant |t.rows| == |old(t.rows)| && t.rows == old(t.rows)[rowIdx := t.rows[rowIdx]]
      invariant FillFrom(t.rows[rowIdx], k, numCols) == target
      invariant PropsUnchanged(t)
      decreases |t.rows[rowIdx]| - k
    {
      t.SetCell(rowIdx, k, t.rows[rowIdx][k].(text := ""));
      k := k + 1;
    }
  }

  /** `_add_data_row`. A row index past the table changes nothing. */
  method AddDataRow(t: Table, entries: seq<RowEntry>, rowIdx: nat, numCols: int)
    modifies t
    ensures rowIdx >= |old(t.rows)| ==> t.rows == old(t.rows)
    ensures rowIdx < |old(t.rows)| ==>
      t.rows == old(t.rows)[rowIdx := PlaceEntries(old(t.rows)[rowIdx], entries, numCols)]
    ensures PropsUnchanged(t)
  {
    if rowIdx >= |t.rows| {
      return;
    }
    ghost var target := PlaceEntries(t.rows[rowIdx], entries, numCols);
    var col: nat := 0;
    var i: nat := 0;
    while i < |entries| && col < numCols && col < |t.rows[rowIdx]|
      invariant i <= |entries| && |t.rows| == |old(t.rows)|
      invariant t.rows == old(t.rows)[rowIdx := t.rows[rowIdx]]
      invariant PlaceFrom(t.rows[rowIdx], entries, i, col, numCols) == target
      invariant PropsUnchanged(t)
    {
      ghost var before := t.rows;
      i, col := PlaceAndStep(t, rowIdx, entries, i, col, numCols, t.rows[rowIdx]);
      UpdateTwice(old(t.rows), rowIdx, before[rowIdx], t.rows[rowIdx]);
    }
    PlaceFromStop(t.rows[rowIdx], entries, i, col, numCols);
    FillRest(t, rowIdx, col, numCols);
  }

  /** Total columns the entries `i..j` occupy. */
  function Offset(entries: seq<RowEntry>, i: nat, j: nat): (n: nat)
    requires i <= j <= |entries|
    ensures n >= j - i
    decreases j
  {
    if j == i then 0 else Offset(entries, i, j - 1) + ColSpan(entries[j - 1])
  }

  /** Total columns the first `j` entries occupy: where entry `j` starts. */
  function Start(entries: seq<RowEntry>, j: nat): (n: nat)
    requires j <= |entries|
    ensures n >= j
  {
    Offset(entries, 0, j)
  }

  lemma {:induction false} OffsetShift(entries: seq<RowEntry>, i: nat, j: nat)
    requires i < j <= |entries|
    ensures Offset(entries, i, j) == ColSpan(entries[i]) + Offset(entries, i + 1, j)
    decreases j
  {
    if j > i + 1 {
      OffsetShift(entries, i, j - 1);
    }
  }

  /** Columns left of where placement starts are not touched. */
  lemma {:induction false} PlaceFromKeepsLeft(cells: seq<GridCell>, entries: seq<RowEntry>, i: nat, col: nat, numCols: int, k: nat)
    requires i <= |entries| && k < col && k < |cells|
    ensures PlaceFrom(cells, entries, i, col, numCols)[k] == cells[k]
    decreases |entries| - i, 1
  {
    if i == |entries| || col >= numCols || col >= |cells| {
      StopKeepsLeft(cells, entries, i, col, numCols, k);
    } else {
      StepKeepsLeft(cells, entries, i, col, numCols, k);
    }
  }

  /** A placement step leaves the columns left of it alone, and so does
      the rest of the placement. */
  lemma {:induction false} StepKeepsLeft(cells: seq<GridCell>, entries: seq<RowEntry>, i: nat, col: nat, numCols: int, k: nat)
    requires i < |entries| && col < numCols && col < |cells| && k < col
    ensures PlaceFrom(cells, entries, i, col, numCols)[k] == cells[k]
    decreases |entries| - i, 0
  {
    var next, col' := PlaceNext(cells, entries, i, col, numCols, k);
    PlaceFromKeepsLeft(next, entries, i + 1, col', numCols, k);
  }

  /** Where placement stops, the columns left of `col` keep their cells. */
  lemma StopKeepsLeft(cells: seq<GridCell>, entries: seq<RowEntry>, i: nat, col: nat, numCols: int, k: nat)
    requires i <= |entries| && k < col && k < |cells|
    requires i == |entries| || col >= numCols || col >= |cells|
    ensures PlaceFrom(cells, entries, i, col, numCols)[k] == cells[k]
  {
    PlaceFromStop(cells, entries, i, col, numCols);
    FillFromAt(cells, col, numCols, k);
  }

  /** One placement step seen from a column `k` left of it: the rest of
      the row is placed from a row that still holds `cells[k]`, further on. */
  lemma PlaceNext(cells: seq<GridCell>, entries: seq<RowEntry>, i: nat, col: nat, numCols: int, k: nat)
    returns (next: seq<GridCell>, col': nat)
    requires i < |entries| && col < numCols && col < |cells| && k < col
    ensures |next| == |cells| && next[k] == cells[k] && k < col'
    ensures PlaceFrom(cells, entries, i, col, numCols) == PlaceFrom(next, entries, i + 1, col', numCols)
  {
    next := PlaceOne(cells, entries[i], col, numCols);
    col' := col + ColSpan(entries[i]);
    PlaceFromStep(cells, next, entries, i, col, col', numCols);
    PlaceOneAt(cells, entries[i], col, numCols, k);
  }

  /** Entry `j` is written at column `k == col + Offset(entries, i, j)`
      whenever that column exists: its text is the entry's content. */
  lemma {:induction false} EntryTextPlaced(cells: seq<GridCell>, entries: seq<RowEntry>, i: nat, col: nat,
                                           numCols: int, j: nat, k: nat)
    requires i <= j < |entries| && k == col + Offset(entries, i, j) && k < numCols && k < |cells|
    ensures PlaceFrom(cells, entries, i, col, numCols)[k].text == EntryCell(entries[j]).content
    decreases j - i
  {
    var next := PlaceOne(cells, entries[i], col, numCols);
    var col' := col + ColSpan(entries[i]);
    PlaceFromStep(cells, next, entries, i, col, col', numCols);
    if j == i {
      PlaceOneAt(cells, entries[i], col, numCols, col);
      PlaceFromKeepsLeft(next, entries, i + 1, col', numCols, col);
    } else {
      OffsetShift(entries, i, j);
      EntryTextPlaced(next, entries, i + 1, col', numCols, j, k);
    }
  }

  // ---------------------------------------------------------------------
  // Column counting

  /** `_get_max_columns` as written: dict cells count their raw `colspan`. */
  function RawSpan(e: RowEntry): int
  {
    match e
    case DictEntry(_, cs, _, _, _, _) => cs
    case ConfigEntry(c) => c.colspan
    case _ => 1
  }

  function RawWidth(row: seq<RowEntry>): int
  {
    if row == [] then 0 else RawWidth(row[..|row| - 1]) + RawSpan(row[|row| - 1])
  }

  /** The widest non-empty row, each entry counted with its raw span; the
      count starts at 0, so it is never negative. */
  function MaxColumnsAsWritten(rows: seq<seq<RowEntry>>): (m: nat)
    ensures forall i :: 0 <= i < |rows| && rows[i] != [] ==> RawWidth(rows[i]) <= m
  {
    if rows == [] then 0
    else
      var m := MaxColumnsAsWritten(rows[..|rows| - 1]);
      var row := rows[|rows| - 1];
      assert forall i :: 0 <= i < |rows| - 1 ==> rows[i] == rows[..|rows| - 1][i];
      if row == [] then m else if RawWidth(row) > m then RawWidth(row) else m
  }

  /** No dict entry asks for a span below one. */
  predicate PositiveSpans(row: seq<RowEntry>)
  {
    forall j :: 0 <= j < |row| ==> RawSpan(row[j]) >= 1
  }

  /** With positive spans the raw count and the placed count agree. */
  lemma {:induction false} RawWidthAgrees(row: seq<RowEntry>, j: nat)
    requires j <= |row| && PositiveSpans(row)
    ensures RawWidth(row[..j]) == Start(row, j)
  {
    if j > 0 {
      RawWidthAgrees(row, j - 1);
      assert row[..j][..j - 1] == row[..j - 1];
      assert row[..j][j - 1] == row[j - 1];
    }
  }

  /** With positive spans everywhere the column count as written is the
      intended one. */
  lemma {:induction false} MaxColumnsAgree(rows: seq<seq<RowEntry>>)
    requires forall i :: 0 <= i < |rows| ==> PositiveSpans(rows[i])
    ensures MaxColumnsAsWritten(rows) == MaxColumns(rows)
  {
    if rows != [] {
      var front := rows[..|rows| - 1];
      var row := rows[|rows| - 1];
      assert forall i :: 0 <= i < |front| ==> front[i] == rows[i];
      MaxColumnsAgree(front);
      RawWidthAgrees(row, |row|);
      assert row[..|row|] == row;
    }
  }

  /** The columns a row needs, counting each entry as it is placed. */
  function RowWidth(row: seq<RowEntry>): nat
  {
    Start(row, |row|)
  }

  /** The widest row, counted as the rows are placed. */
  function MaxColumns(rows: seq<seq<RowEntry>>): (m: nat)
    ensures forall i :: 0 <= i < |rows| ==> RowWidth(rows[i]) <= m
    ensures m == 0 <==> forall i :: 0 <= i < |rows| ==> rows[i] == []
  {
    if rows == [] then 0
    else
      var m := MaxColumns(rows[..|rows| - 1]);
      var row := rows[|rows| - 1];
      var w := RowWidth(row);
      assert forall i :: 0 <= i < |rows| - 1 ==> rows[i] == rows[..|rows| - 1][i];
      if w > m then w else m
  }

  /** `_get_max_columns`: the widest non-empty row, a dict entry counting
      its `colspan` as given. */
  method GetMaxColumns(rows: seq<seq<RowEntry>>) returns (m: nat)
    ensures m == MaxColumnsAsWritten(rows)
  {
    m := 0;
    var i := 0;
    while i < |rows|
      invariant 0 <= i <= |rows|
      invariant m == MaxColumnsAsWritten(rows[..i])
    {
      var row := rows[i];
      assert rows[..i + 1][..i] == rows[..i];
      assert rows[..i + 1][i] == row;
      if row != [] {
        var count := 0;
        var j := 0;
        while j < |row|
          invariant 0 <= j <= |row|
          invariant count == RawWidth(row[..j])
        {
          assert row[..j + 1][..j] == row[..j];
          count := count + RawSpan(row[j]);
          j := j + 1;
        }
        assert row[..j] == row;
        m := if count > m then count else m;
      }
      i := i + 1;
    }
    assert rows[..i] == rows;
  }

  /** When the table is as wide as its widest row, every entry of every row
      is written at its start column. */
  lemma EveryEntryPlaced(row: seq<RowEntry>, numCols: nat, j: nat)
    requires RowWidth(row) <= numCols && j < |row|
    ensures Start(row, j) < numCols
    ensures PlaceEntries(BlankRow(numCols), row, numCols)[Start(row, j)].text == EntryCell(row[j]).content
  {
    StartBelowWidth(row, j);
    EntryTextPlaced(BlankRow(numCols), row, 0, 0, numCols, j, Start(row, j));
  }

  lemma {:induction false} StartBelowWidth(row: seq<RowEntry>, j: nat)
    requires j < |row|
    ensures Start(row, j) < RowWidth(row)
    decreases |row| - j
  {
    if j + 1 < |row| {
      StartBelowWidth(row, j + 1);
    }
  }

  /** A dict cell with `colspan` 0 counts as no column in the code as
      written, though it is placed in one: the one-column table the code
      makes for `[{"colspan": 0}, "a"]` has no room left for "a". */
  lemma MaxColumnsCounterexample()
    ensures var row := [DictEntry("", 0, 1, "left", "center", None), TextEntry("a")];
      MaxColumnsAsWritten([row]) == 1 && MaxColumns([row]) == 2
      && PlaceEntries(BlankRow(1), row, 1) == [BlankCell.(alignment := Some(Left), vAlign := Some(VCenter))]
  {
    var row := [DictEntry("", 0, 1, "left", "center", None), TextEntry("a")];
    var rows: seq<seq<RowEntry>> := [row];
    assert rows[..0] == [];
    assert row[..1] == [row[0]];
    assert RawWidth(row) == 1;
    assert RowWidth(row) == 2;
    var first := PlaceOne(BlankRow(1), row[0], 0, 1);
    assert first == [BlankCell.(alignment := Some(Left), vAlign := Some(VCenter))];
    assert PlaceFrom(first, row, 1, 1, 1) == first;
  }

  // ---------------------------------------------------------------------
  // Column widths

  /** Each grid column given a width gets it; the rest keep theirs. */
  function WidthRow(cells: seq<GridCell>, widths: seq<real>): (r: seq<GridCell>)
    ensures |r| == |cells|
    ensures forall k :: 0 <= k < |cells| ==> r[k].(width := cells[k].width) == cells[k]
  {
    seq(|cells|, k requires 0 <= k < |cells| =>
      if k < |widths| then cells[k].(width := Some(widths[k])) else cells[k])
  }

  /** `_set_column_widths`: no widths or no rows leaves the table alone;
      otherwise autofit is switched off and every row gets the widths. */
  method SetColumnWidths(t: Table, widths: seq<real>)
    modifies t
    ensures widths == [] || old(t.rows) == [] ==> t.rows == old(t.rows) && t.autofit == old(t.autofit)
    ensures widths != [] && old(t.rows) != [] ==>
      !t.autofit && t.rows == seq(|old(t.rows)|, r requires 0 <= r < |old(t.rows)| => WidthRow(old(t.rows)[r], widths))
    ensures t.style == old(t.style) && t.centered == old(t.centered)
  {
    if widths == [] || t.rows == [] {
      return;
    }
    t.autofit := false;
    ghost var original := t.rows;
    var r := 0;
    while r < |t.rows|
      invariant 0 <= r <= |t.rows| == |original|
      invariant forall q :: 0 <= q < |original| ==> t.rows[q] == if q < r then WidthRow(original[q], widths) else original[q]
      invariant !t.autofit && t.style == old(t.style) && t.centered == old(t.centered)
    {
      var c := 0;
      while c < |widths|
        invariant 0 <= c <= |widths|
        invariant |t.rows| == |original| && |t.rows[r]| == |original[r]|
        invariant forall q :: 0 <= q < |original| && q != r ==> t.rows[q] == if q < r then WidthRow(original[q], widths) else original[q]
        invariant forall k :: 0 <= k < |original[r]| ==>
          t.rows[r][k] == if k < c then original[r][k].(width := Some(widths[k])) else original[r][k]
        invariant !t.autofit && t.style == old(t.style) && t.centered == old(t.centered)
      {
        if c >= |t.rows[r]| {
          break;
        }
        t.SetCell(r, c, t.rows[r][c].(width := Some(widths[c])));
        c := c + 1;
      }
      assert t.rows[r] == WidthRow(original[r], widths);
      r := r + 1;
    }
  }

  // ---------------------------------------------------------------------
  // Whole tables

  /** The table dict `add_table` receives, with `.get` defaults applied:
      an empty dict is one with no headers and no rows. An absent or empty
      `column_widths` is `[]`. */
  datatype TableDict = TableDict(headers: seq<string>, rows: seq<seq<RowEntry>>,
                                 columnWidths: seq<real>, style: string, headerBackground: string)

  /** `table.style = name`, falling back to "Table Grid" and then to the
      document default when a name is not a style of the document. */
  function ResolveTableStyle(styles: map<string, StyleRecord>, name: string): (s: Option<string>)
    ensures s.Some? ==> s.value in styles
    ensures name in styles ==> s == Some(name)
  {
    if name in styles then Some(name)
    else if "Table Grid" in styles then Some("Table Grid")
    else None
  }

  /** Header columns if there are headers, else the widest data row as
      `_get_max_columns` counts it. */
  function NumCols(block: TableDict): nat
  {
    if block.headers != [] then |block.headers| else MaxColumnsAsWritten(block.rows)
  }

  /** The column count as intended: every entry counted with the span it
      is placed with. */
  function NumColsIntended(block: TableDict): nat
  {
    if block.headers != [] then |block.headers| else MaxColumns(block.rows)
  }

  /** The grid before widths: header row, then one placed row per data row. */
  function Grid(block: TableDict, numCols: nat): (g: seq<seq<GridCell>>)
    ensures |g| == (if block.headers != [] then 1 else 0) + |block.rows|
    ensures forall r :: 0 <= r < |g| ==> |g[r]| == numCols
  {
    var head := if block.headers != [] then [HeaderRowCells(BlankRow(numCols), block.headers, block.headerBackground)] else [];
    head + seq(|block.rows|, i requires 0 <= i < |block.rows| => PlaceEntries(BlankRow(numCols), block.rows[i], numCols))
  }

  /** Row `i` of a grid is the header row or the placed data row. */
  lemma GridAt(block: TableDict, numCols: nat, r: nat)
    requires r < |Grid(block, numCols)|
    ensures block.headers != [] && r == 0 ==>
      Grid(block, numCols)[r] == HeaderRowCells(BlankRow(numCols), block.headers, block.headerBackground)
    ensures block.headers != [] && r > 0 ==>
      Grid(block, numCols)[r] == PlaceEntries(BlankRow(numCols), block.rows[r - 1], numCols)
    ensures block.headers == [] ==>
      Grid(block, numCols)[r] == PlaceEntries(BlankRow(numCols), block.rows[r], numCols)
  {
  }

  function WithWidths(g: seq<seq<GridCell>>, widths: seq<real>): (w: seq<seq<GridCell>>)
    ensures |w| == |g|
  {
    if widths == [] || g == [] then g
    else seq(|g|, r requires 0 <= r < |g| => WidthRow(g[r], widths))
  }

  /** Widths change nothing in a row but the cells' widths. */
  lemma WithWidthsAt(g: seq<seq<GridCell>>, widths: seq<real>, r: nat, k: nat)
    requires r < |g| && k < |g[r]|
    ensures |WithWidths(g, widths)[r]| == |g[r]|
    ensures WithWidths(g, widths)[r][k].(width := g[r][k].width) == g[r][k]
  {
  }

  /** The table for a block over `n` columns, or `None` when there is no
      header, no row or no column to put anything in. */
  function TableOver(styles: map<string, StyleRecord>, block: TableDict, n: nat): Option<Element>
  {
    if block.headers == [] && block.rows == [] then None
    else if n == 0 then None
    else Some(TableElem(ResolveTableStyle(styles, block.style), true, block.columnWidths == [],
                        WithWidths(Grid(block, n), block.columnWidths)))
  }

  /** What `add_table` adds for a block, or `None` when it adds nothing. */
  function TableElement(styles: map<string, StyleRecord>, block: TableDict): Option<Element>
  {
    TableOver(styles, block, NumCols(block))
  }

  /** The table the intended column count makes. */
  function TableElementIntended(styles: map<string, StyleRecord>, block: TableDict): Option<Element>
  {
    TableOver(styles, block, NumColsIntended(block))
  }

  /** With positive spans everywhere the table as written is the intended
      one. */
  lemma TableElementAgrees(styles: map<string, StyleRecord>, block: TableDict)
    requires forall i :: 0 <= i < |block.rows| ==> PositiveSpans(block.rows[i])
    ensures TableElement(styles, block) == TableElementIntended(styles, block)
  {
    MaxColumnsAgree(block.rows);
  }

  /** `add_table`: the table and an empty paragraph after it, or nothing. */
  method AddTable(doc: Document, block: TableDict) returns (made: bool)
    modifies doc
    ensures made == TableElement(old(doc.styles), block).Some?
    ensures made ==> doc.body == old(doc.body) + [TableElement(old(doc.styles), block).value, EmptyPara]
    ensures !made ==> doc.body == old(doc.body)
    ensures SettingsUnchanged(doc)
  {
    if block.headers == [] && block.rows == [] {
      return false;
    }
    var numCols;
    if block.headers != [] {
      numCols := |block.headers|;
    } else {
      numCols := GetMaxColumns(block.rows);
    }
    if numCols == 0 {
      return false;
    }
    var t := BuildTable(doc.styles, block, numCols);
    doc.Add(TableElem(t.style, t.centered, t.autofit, t.rows));
    doc.Add(EmptyPara);
    made := true;
  }

  /** The data-row loop of `add_table`: data row `i` goes into table row
      `offset + i`, over rows that are still blank. */
  method AddDataRows(t: Table, rows: seq<seq<RowEntry>>, offset: nat, numCols: nat)
    requires |t.rows| == offset + |rows|
    requires forall r :: offset <= r < |t.rows| ==> t.rows[r] == BlankRow(numCols)
    modifies t
    ensures t.rows == old(t.rows)[..offset] + seq(|rows|, i requires 0 <= i < |rows| => PlaceEntries(BlankRow(numCols), rows[i], numCols))
    ensures PropsUnchanged(t)
  {
    ghost var placed := seq(|rows|, i requires 0 <= i < |rows| => PlaceEntries(BlankRow(numCols), rows[i], numCols));
    ghost var start := t.rows;
    var i, row := 0, offset;
    while i < |rows|
      invariant 0 <= i <= |rows| && row == offset + i
      invariant Filled(t.rows, start, offset, placed, row, numCols)
      invariant t.style == old(t.style) && t.centered == old(t.centered) && t.autofit == old(t.autofit)
    {
      ghost var before := t.rows;
      AddDataRow(t, rows[i], row, numCols);
      var next := row + 1;
      FilledStep(before, t.rows, start, offset, placed, row, next, rows[i], numCols);
      i, row := i + 1, next;
    }
    FilledAll(t.rows, start, offset, placed, numCols);
  }

  /** The rows while the data-row loop stands at table row `row`: rows
      before `offset` as they were, data rows placed up to `row`, blank
      rows after. */
  ghost predicate Filled(rows: seq<seq<GridCell>>, start: seq<seq<GridCell>>, offset: nat,
                         placed: seq<seq<GridCell>>, row: nat, numCols: nat)
  {
    |rows| == |start| == offset + |placed| && offset <= row <= |rows|
    && (forall r :: 0 <= r < offset ==> rows[r] == start[r])
    && (forall r :: offset <= r < row ==> rows[r] == placed[r - offset])
    && (forall r :: row <= r < |rows| ==> rows[r] == BlankRow(numCols))
  }

  lemma FilledStep(before: seq<seq<GridCell>>, after: seq<seq<GridCell>>, start: seq<seq<GridCell>>, offset: nat,
                   placed: seq<seq<GridCell>>, row: nat, next: nat, entries: seq<RowEntry>, numCols: nat)
    requires Filled(before, start, offset, placed, row, numCols) && row < |before| && next == row + 1
    requires placed[row - offset] == PlaceEntries(BlankRow(numCols), entries, numCols)
    requires after == before[row := PlaceEntries(before[row], entries, numCols)]
    ensures Filled(after, start, offset, placed, next, numCols)
  {
    assert before[row] == BlankRow(numCols);
  }

  lemma FilledAll(rows: seq<seq<GridCell>>, start: seq<seq<GridCell>>, offset: nat, placed: seq<seq<GridCell>>, numCols: nat)
    requires Filled(rows, start, offset, placed, |rows|, numCols)
    ensures rows == start[..offset] + placed
  {
  }

  /** The body of `add_table` once the column count is known: create the
      grid, set style and centring, write the header row and the data rows,
      then the column widths. */
  method BuildTable(styles: map<string, StyleRecord>, block: TableDict, numCols: nat) returns (t: Table)
    requires block.headers != [] || block.rows != []
    ensures fresh(t)
    ensures t.rows == WithWidths(Grid(block, numCols), block.columnWidths)
    ensures t.style == ResolveTableStyle(styles, block.style) && t.centered
    ensures t.autofit == (block.columnWidths == [])
  {
    var numRows := (if block.headers != [] then 1 else 0) + |block.rows|;
    t := new Table(numRows, numCols);
    t.style := ResolveTableStyle(styles, block.style);
    t.centered := true;
    var offset := 0;
    if block.headers != [] {
      AddHeaderRow(t, block.headers, block.headerBackground, 0);
      offset := 1;
    }
    AddDataRows(t, block.rows, offset, numCols);
    assert t.rows == Grid(block, numCols);
    SetColumnWidths(t, block.columnWidths);
  }

  /** With headers, the first row holds every header, bold and centred. */
  lemma HeaderRowHoldsHeaders(styles: map<string, StyleRecord>, block: TableDict, k: nat)
    requires block.headers != [] && k < |block.headers|
    ensures TableElement(styles, block).Some?
    ensures var e := TableElement(styles, block).value;
      |e.rows[0]| == |block.headers| && e.rows[0][k].text == block.headers[k]
      && e.rows[0][k].bold && e.rows[0][k].alignment == Some(Center)
  {
    var n := NumCols(block);
    var g := Grid(block, n);
    GridAt(block, n, 0);
    WithWidthsAt(g, block.columnWidths, 0, k);
  }

  /** Without headers the intended table is as wide as its widest row, so
      every entry of every row is written at its start column: nothing a
      row holds is dropped. */
  lemma HeaderlessTableKeepsEveryEntry(styles: map<string, StyleRecord>, block: TableDict, i: nat, j: nat)
    requires block.headers == [] && i < |block.rows| && j < |block.rows[i]|
    ensures TableElementIntended(styles, block).Some?
    ensures var e := TableElementIntended(styles, block).value;
      Start(block.rows[i], j) < |e.rows[i]|
      && e.rows[i][Start(block.rows[i], j)].text == EntryCell(block.rows[i][j]).content
  {
    var n := NumColsIntended(block);
    var row := block.rows[i];
    assert RowWidth(row) <= n;
    assert RowWidth(row) > 0 by { StartBelowWidth(row, j); }
    EveryEntryPlaced(row, n, j);
    var g := Grid(block, n);
    GridAt(block, n, i);
    WithWidthsAt(g, block.columnWidths, i, Start(row, j));
  }

  /** The same holds for the table as written when no dict entry asks for
      a span below one. */
  lemma HeaderlessTableKeepsPositiveEntries(styles: map<string, StyleRecord>, block: TableDict, i: nat, j: nat)
    requires block.headers == [] && i < |block.rows| && j < |block.rows[i]|
    requires forall r :: 0 <= r < |block.rows| ==> PositiveSpans(block.rows[r])
    ensures TableElement(styles, block).Some?
    ensures var e := TableElement(styles, block).value;
      Start(block.rows[i], j) < |e.rows[i]|
      && e.rows[i][Start(block.rows[i], j)].text == EntryCell(block.rows[i][j]).content
  {
    TableElementAgrees(styles, block);
    HeaderlessTableKeepsEveryEntry(styles, block, i, j);
  }

  /** The code as written makes no table at all for a single dict cell with
      `colspan` 0, whose content the intended count places. */
  lemma ZeroSpanTableCounterexample(styles: map<string, StyleRecord>)
    ensures var block := TableDict([], [[DictEntry("x", 0, 1, "left", "center", None)]], [], "Table Grid", "#CCCCCC");
      MaxColumnsAsWritten(block.rows) == 0
      && TableElement(styles, block) == None
      && TableElementIntended(styles, block).Some?
      && TableElementIntended(styles, block).value.rows[0][0].text == "x"
  {
    var block := TableDict([], [[DictEntry("x", 0, 1, "left", "center", None)]], [], "Table Grid", "#CCCCCC");
    assert block.rows[..0] == [];
    assert block.rows[0][..0] == [];
    HeaderlessTableKeepsEveryEntry(styles, block, 0, 0);
  }
}
