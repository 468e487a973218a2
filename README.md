# TraceScribe document pipeline in Dafny

TraceScribe turns the structured data parsed from a clinical trial protocol
into regulatory documents: the informed consent form (ICF), the data
management plan (DMP) and the statistical analysis plan (SAP). Each
workflow generates section texts (with a language model), optionally
polishes them, and builds a document in the Universal Intermediate Format
(UIF): a tree of sections holding typed content blocks. The document
engine validates the tree and renders it to Word through a set of
builders. A translation pipeline collects every text of a UIF document,
sends it in numbered batches, and writes the answers back by path. A
separate script reconciles EDC lab metadata against a central lab file.

The model follows that structure, one module per component:

- `Schema`, `Validator`, `Output`, `SectionBuilder`, `TableBuilder`,
  `ListBuilder`, `Styles`, `Engine`: the UIF datatypes, validation, an
  abstract Word document, the builders and the renderer (classes where
  the source mutates a document or a table, with `modifies` frames);
- `TextPaths`, `TreeText`, `Walker`, `Batcher`, `Cache`, `Translator`:
  collecting and applying texts by path, the batch format and its parser,
  the translation cache, and the retrying, merging translator;
- `WorkflowBase`, `IcfGuru`, `IcfSubsections`, `IcfValidator`,
  `IcfAssembler`, `IcfFixedSections`, `Sap`, `SapContent`, `SapSections`,
  `SapTexts`, `Dmp`, `DmpTexts`, `IcfLegacy`, `IcfLegacyTexts`,
  `AeBuckets`, `IcfGenerator`: the document workflows;
- `LabRecon`: visit and date standardisation, the outer join with its
  match status, the date comparison, the summary and the gap tabs;
- `Wrappers`, `Text`, `PyValue`, `PyInt`, `StringOrder`, `Seqs`: Python's
  `str` operations, JSON-shaped values with truthiness and `dict.get`,
  `int()`, string ordering and `sorted(set(...))`, and list traversal.

Language-model calls, JSON decoding, clocks and the date are parameters
of the operations that use them. Loops of the source are methods proved
against the functions that specify them; those functions carry the
properties as lemmas.

## Model

| member | source | states |
|---|---|---|
| Schema.NewTableCell | backend/app/core/docengine/schema.py:70-78 | a new cell keeps its content and takes colspan 1, rowspan 1, left alignment, centred vertical alignment and no background |
| Schema.NewTableBlock | backend/app/core/docengine/schema.py:81-88 | a new table keeps headers and rows, has no column widths, style "Table Grid" and header background "#CCCCCC" |
| Schema.NewBlock | backend/app/core/docengine/schema.py:108-149 | a new block has the given type, empty content, left alignment, zero spacing and no level, formatting, items, list style, table or signature |
| Schema.NewSection | backend/app/core/docengine/schema.py:152-169 | building a section succeeds exactly when its level lies in 1..4, and then keeps every field |
| Schema.FlattenLength | backend/app/core/docengine/schema.py:278-293 | the flat list has one entry per section of the tree at every depth |
| Schema.FlattenPreOrder | backend/app/core/docengine/schema.py:287-290 | in the flat list every section is directly followed by the flattening of its own subsections |
| Schema.FlattenTopLevel | backend/app/core/docengine/schema.py:287-292 | the top-level sections appear in the flat list in their order, each where its subtree starts |
| Schema.FlattenAppend | backend/app/core/docengine/schema.py:287-290 | flattening two sibling lists one after the other is the concatenation of their flattenings |
| Schema.CountSections | backend/app/core/docengine/schema.py:295-297 | the count is the number of sections of the tree at every depth |
| Schema.FlattenBlocks | backend/app/core/docengine/schema.py:299-304 | summing the blocks over the flat list counts every block of the tree |
| Schema.CountContentBlocks | backend/app/core/docengine/schema.py:299-304 | the count is the number of content blocks of the tree at every depth |
| Schema.CellEntryOfSpec | backend/app/core/docengine/schema.py:70-85 | a row entry of `List[List[Union[str, TableCell]]]`: a string stays a text cell, a dict validates as a `TableCell` exactly when each field it has is of the field's type, taking each field's value or default; any other value is refused |
| Schema.TableCellOfValid | backend/app/core/docengine/schema.py:70-78 | a dict validates as a `TableCell` exactly when each field it has is of that field's type |
| Schema.TableCellOfFields | backend/app/core/docengine/schema.py:70-78 | each field of a validated `TableCell` is the dict's value when present and the field's default otherwise |
| Schema.EmptyDictIsDefaultCell | backend/app/core/docengine/schema.py:70-78 | an empty dict validates as the `TableCell` of all defaults |
| Schema.ExtraKeysIgnored | backend/app/core/docengine/schema.py:70-78 | a key that is not a `TableCell` field does not change how a dict validates |
| Schema.TableRowsOfSpec | backend/app/core/docengine/schema.py:85 | the rows validate exactly when every entry does, and each validated entry stays in its row and column |
| Schema.RowCellsOfEach | backend/app/core/docengine/schema.py:85 | a row whose every entry validates is the row of those cells in order |
| Validator.Validate | backend/app/core/docengine/engine.py:110-168 | the errors are exactly the specification's list in the engine's order (head checks, sections, page setup, styling) and the document is valid exactly when that list is empty |
| Validator.ValidateSection | backend/app/core/docengine/engine.py:170-208 | a section appends its own checks, then its blocks' errors, then for each subsection the depth check followed by that subsection's errors |
| Validator.ValidateBlocks | backend/app/core/docengine/engine.py:192-195 | the block loop appends each block's errors at path `.content_blocks[i]` in order |
| Validator.ValidateSubsections | backend/app/core/docengine/engine.py:197-208 | the subsection loop appends the depth check and the errors of each subsection at `.subsections[i]` in order |
| Validator.ValidateSubsection | backend/app/core/docengine/engine.py:199-208 | one subsection: the depth error (when its level is not greater than the parent's) and then its own errors |
| Validator.ValidateContentBlock | backend/app/core/docengine/engine.py:210-238 | a block appends exactly the type-specific errors of the specification |
| Validator.BlockErrorsEmptyIff | backend/app/core/docengine/engine.py:221-238 | a block raises no error exactly when it is well-formed: heading level 1..4, table present with headers or rows, list with items, signature data present |
| Validator.BlocksErrorsEmptyIff | backend/app/core/docengine/engine.py:192-195 | a block list raises no error exactly when every block is well-formed |
| Validator.SectionErrorsEmptyIff | backend/app/core/docengine/engine.py:170-208 | a section raises no error exactly when it is well-formed (id, heading, level 1..4, blocks, strictly deeper well-formed subsections) |
| Validator.SubsErrorsEmptyIff | backend/app/core/docengine/engine.py:197-208 | the subsection loop raises no error exactly when every subsection is deeper than the parent and well-formed |
| Validator.TopSectionsErrorsEmptyIff | backend/app/core/docengine/engine.py:140-143 | the top-level loop raises no error exactly when every top-level section is well-formed |
| Validator.HeadErrorsEmptyIff | backend/app/core/docengine/engine.py:122-138 | the head checks pass exactly when title and type are non-empty, there is a section and the lowered type is icf, dmp or sap |
| Validator.LayoutErrorsEmptyIff | backend/app/core/docengine/engine.py:145-166 | the page-setup and styling checks pass exactly when no layout rule is broken |
| Validator.LayoutErrorsEmptyIffWellFormed | backend/app/core/docengine/engine.py:145-166 | the layout checks pass exactly when the page sizes, font size and line spacing are positive and the margins are not negative |
| Validator.ValidIffWellFormed | backend/app/core/docengine/engine.py:110-168 | `validate` finds no error exactly when the document is well-formed |
| Validator.SectionErrorsUnder | backend/app/core/docengine/engine.py:170-208 | every error found inside a section lies at or below its path, and those at exactly its path are its own checks |
| Validator.BlocksErrorsUnder | backend/app/core/docengine/engine.py:193-195 | every block error sits one step below the section's path |
| Validator.SubsErrorsUnder | backend/app/core/docengine/engine.py:198-208 | every subsection error sits below `.subsections[n]` of the parent's path |
| Validator.TopSectionsErrorsUnder | backend/app/core/docengine/engine.py:141-143 | every section error starts with a `sections[i]` step |
| Validator.RuleErrorsIn | backend/app/core/docengine/engine.py:145-166 | the layout errors are exactly the broken rules of the list |
| Validator.DocumentLevelSplit | backend/app/core/docengine/engine.py:120-168 | the errors without a path are exactly the head errors and the layout errors |
| Validator.HeadErrorsIff | backend/app/core/docengine/engine.py:122-138 | each head error is raised exactly when its condition holds, both directions |
| Validator.HeadLevelErrors | backend/app/core/docengine/engine.py:122-138 | each document-level error is reported by `validate` exactly when its condition holds |
| Validator.HeadOnly | backend/app/core/docengine/engine.py:122-138 | a document-level error that is not a layout error comes from the head checks alone |
| Validator.LayoutLevelErrors | backend/app/core/docengine/engine.py:145-166 | each layout error is reported exactly when its rule is broken |
| Validator.SectionLevelErrors | backend/app/core/docengine/engine.py:181-190 | the id, heading and level errors of a section are reported at its path exactly when their conditions hold |
| Validator.SubsectionDepthError | backend/app/core/docengine/engine.py:198-206 | the depth error at `.subsections[k]` is reported exactly when that subsection is not strictly deeper than its parent |
| Validator.SubsDepthError | backend/app/core/docengine/engine.py:198-206 | within the subsection loop, the depth error for subsection k is reported exactly when its level is not greater than the parent's |
| Validator.BlocksNoDepth | backend/app/core/docengine/engine.py:192-195 | block errors are never depth errors |
| SectionBuilder.HeadingLevel | backend/app/core/docengine/builders/section.py:145 | the level is clamped into 1..4: kept inside the range, 1 below it, 4 above it |
| SectionBuilder.HeadingElement | backend/app/core/docengine/builders/section.py:130-153 | a blank heading becomes an empty paragraph; otherwise a heading with the stripped text, the clamped level and both spacings set |
| SectionBuilder.HeadingSpacingMonotone | backend/app/core/docengine/builders/section.py:89-90 | the spacing before and after a heading never grows with depth and stays at least 12 and 6 points |
| SectionBuilder.CheckRange | backend/app/core/docengine/builders/section.py:274-294 | a non-dict entry is skipped; a dict is kept exactly when its int start and end, clamped to the content, give a non-empty range, and then carries the clamped bounds and its flags |
| SectionBuilder.Validated | backend/app/core/docengine/builders/section.py:272-294 | the kept ranges are no more than the entries and each is a non-empty piece of the content |
| SectionBuilder.ValidatedMembers | backend/app/core/docengine/builders/section.py:274-294 | a range is kept exactly when some entry validates to it |
| SectionBuilder.InsertByStart | backend/app/core/docengine/builders/section.py:296 | inserting one range adds it exactly once and nothing else |
| SectionBuilder.SortByStart | backend/app/core/docengine/builders/section.py:296 | the sort is a permutation of its input |
| SectionBuilder.InsertKeepsSorted | backend/app/core/docengine/builders/section.py:296 | inserting into ranges sorted by start keeps them sorted |
| SectionBuilder.SortByStartSorted | backend/app/core/docengine/builders/section.py:296 | the sorted ranges are ordered by start |
| SectionBuilder.ValidateAndSortSpec | backend/app/core/docengine/builders/section.py:261-297 | the result is sorted by start, is a permutation of the kept ranges, and each lies inside the content |
| SectionBuilder.FormatAtIff | backend/app/core/docengine/builders/section.py:321-328 | a flag is set on character i exactly when some range covering i sets it |
| SectionBuilder.FormatMap | backend/app/core/docengine/builders/section.py:316-330 | the map has one format per character, each the merge of the ranges covering it |
| SectionBuilder.BuildCharacterFormatMap | backend/app/core/docengine/builders/section.py:299-330 | the loop over the ranges and their characters computes exactly that map |
| SectionBuilder.SegmentsDecompose | backend/app/core/docengine/builders/section.py:349-361 | the run decomposition cuts the content into non-empty runs, neighbours in different formats, covering the content with its formats |
| SectionBuilder.DecompositionUnique | backend/app/core/docengine/builders/section.py:341-361 | any other cut into maximal runs is the same decomposition |
| SectionBuilder.CreateFormattedRuns | backend/app/core/docengine/builders/section.py:332-361 | the loop that closes a run at every change of format yields the maximal-run decomposition |
| SectionBuilder.SegmentRuns | backend/app/core/docengine/builders/section.py:363-384 | one run per segment with its text and all three flags set explicitly, so the run texts join to the content |
| SectionBuilder.InlineRuns | backend/app/core/docengine/builders/section.py:226-259 | the runs spell the content; with no surviving range one plain run; otherwise the runs of the maximal decomposition of the format map |
| SectionBuilder.AlignmentOf | backend/app/core/docengine/builders/section.py:82-87 | a known alignment name maps to its alignment and any other name to left |
| SectionBuilder.PositiveSpacing | backend/app/core/docengine/builders/section.py:176-182 | a spacing is set exactly when it is positive, and then to that value |
| SectionBuilder.ParagraphElement | backend/app/core/docengine/builders/section.py:155-190 | a paragraph with the lowered alignment, the positive spacings and runs spelling the stripped content, with no run when the content is blank |
| SectionBuilder.BlockElement | backend/app/core/docengine/builders/section.py:196-224 | a heading block becomes a heading, a page break a page break, and every other type (known or not) a paragraph |
| SectionBuilder.BlockElementsAt | backend/app/core/docengine/builders/section.py:124-125 | block i becomes element i, one element per block |
| SectionBuilder.SectionHeadingRule | backend/app/core/docengine/builders/section.py:118-128 | a blank heading is skipped but the blocks and subsections still render; otherwise the stripped heading comes first |
| SectionBuilder.AddHeading | backend/app/core/docengine/builders/section.py:130-153 | the body grows by exactly the heading element and no document setting changes |
| SectionBuilder.AddParagraph | backend/app/core/docengine/builders/section.py:155-190 | the body grows by exactly the paragraph element and no document setting changes |
| SectionBuilder.ProcessContentBlock | backend/app/core/docengine/builders/section.py:196-224 | the body grows by exactly the block's element |
| SectionBuilder.AddBlocks | backend/app/core/docengine/builders/section.py:124-125 | the body grows by the elements of the blocks in order |
| SectionBuilder.AddSection | backend/app/core/docengine/builders/section.py:101-128 | the body grows by the heading (unless blank), the blocks and each subsection in order |
| SectionBuilder.AddSubsections | backend/app/core/docengine/builders/section.py:127-128 | the body grows by each subsection's elements in order |
| TableBuilder.NewBuilderCell | backend/app/core/docengine/builders/table.py:35-49 | a cell configuration keeps content and background, raises a span below one to one, and lowers both alignment names |
| TableBuilder.EntryCell | backend/app/core/docengine/builders/table.py:303-317 | a cell configuration of an entry carries the span the placement loop moves by |
| TableBuilder.VAlignOf | backend/app/core/docengine/builders/table.py:96-100 | "top" and "bottom" map to their alignments and every other name to centre |
| TableBuilder.Doubled | backend/app/core/docengine/builders/table.py:377-378 | each character of a three-character colour is written twice, in place |
| TableBuilder.ShadingFillAsWritten | backend/app/core/docengine/builders/table.py:365-393 | the fill the code writes after stripping `#`s, checking the length and `int(color, 16)` always has six characters |
| TableBuilder.ShadingFill | backend/app/core/docengine/builders/table.py:365-393 | the intended check: a fill is written exactly when the colour without `#`s is three or six hexadecimal digits, and it is six upper-case digits |
| TableBuilder.DoubledHex | backend/app/core/docengine/builders/table.py:377-385 | doubling keeps exactly the hexadecimal colours hexadecimal |
| TableBuilder.ShadingFillAgrees | backend/app/core/docengine/builders/table.py:365-393 | every colour the intended check accepts is accepted by the code as written with the same fill |
| TableBuilder.ShadingFillPrefixCounterexample | backend/app/core/docengine/builders/table.py:381-393 | `"0x"` and four hexadecimal digits passes `int(color, 16)`, so the code writes a fill whose second character is `X`, which the intended check refuses |
| TableBuilder.ShadingFillIdempotent | backend/app/core/docengine/builders/table.py:365-393 | a fill the intended check wrote is accepted again unchanged |
| TableBuilder.ShadingAppliedSpec | backend/app/core/docengine/builders/table.py:357-410 | every six- or three-digit hexadecimal colour is written as its upper-case fill; a colour of the wrong length keeps the old shading; otherwise the result is the old shading or six characters |
| TableBuilder.ShadingAppliedPrefix | backend/app/core/docengine/builders/table.py:365-393 | the shading the builder applies for `0x` and four hexadecimal digits is the upper-cased colour with `X` in second place |
| TableBuilder.BlankRow | backend/app/core/docengine/builders/table.py:155 | a new table row holds the requested number of blank cells |
| TableBuilder.Table.constructor | backend/app/core/docengine/builders/table.py:155 | a new table has the requested rows of blank cells, no style, no centring, and autofit on |
| TableBuilder.Table.MergeCells | backend/app/core/docengine/builders/table.py:319-326 | merging columns a..b of one row changes only that row, into the merged span |
| TableBuilder.MergeSpan | backend/app/core/docengine/builders/table.py:324 | a merged row keeps its length |
| TableBuilder.HeaderRowCells | backend/app/core/docengine/builders/table.py:244-268 | the header row keeps its width, one header per column and extra headers dropped |
| TableBuilder.AddHeaderRow | backend/app/core/docengine/builders/table.py:222-268 | a row index past the table changes nothing; otherwise only that row becomes the header row |
| TableBuilder.FillFromAt | backend/app/core/docengine/builders/table.py:352-355 | the closing loop blanks exactly the columns from the current one up to the last |
| TableBuilder.PlaceOneAt | backend/app/core/docengine/builders/table.py:319-329 | an entry's content is written at its column and the columns left of it are untouched |
| TableBuilder.PlaceFromStep | backend/app/core/docengine/builders/table.py:293-350 | one placement step writes the entry and moves on by its span |
| TableBuilder.PlaceFromStop | backend/app/core/docengine/builders/table.py:294-299 | once the entries or the columns run out only the closing loop is left |
| TableBuilder.PlaceCell | backend/app/core/docengine/builders/table.py:300-350 | one iteration of the data-row loop writes the entry (merged when it spans) and returns the span it moves by |
| TableBuilder.FillRest | backend/app/core/docengine/builders/table.py:352-355 | the closing loop changes only the row being filled, as the specification says |
| TableBuilder.AddDataRow | backend/app/core/docengine/builders/table.py:270-355 | a row index past the table changes nothing; otherwise only that row changes, into the placement of its entries |
| TableBuilder.Offset | backend/app/core/docengine/builders/table.py:349-350 | the columns a run of entries occupies are at least one per entry |
| TableBuilder.PlaceFromKeepsLeft | backend/app/core/docengine/builders/table.py:293-355 | placement never touches the columns left of where it starts |
| TableBuilder.EntryTextPlaced | backend/app/core/docengine/builders/table.py:293-350 | entry j is written at the column its predecessors' spans lead to, whenever that column exists |
| TableBuilder.MaxColumnsAsWritten | backend/app/core/docengine/builders/table.py:195-220 | the count as written is at least the raw width of every non-empty row |
| TableBuilder.RawWidthAgrees | backend/app/core/docengine/builders/table.py:211-218 | with spans of at least one, the raw width of a prefix is where the next entry is placed |
| TableBuilder.MaxColumnsAgree | backend/app/core/docengine/builders/table.py:195-220 | with spans of at least one everywhere, the count as written is the intended one |
| TableBuilder.MaxColumns | backend/app/core/docengine/builders/table.py:195-220 | the intended count is at least every row's width and is zero exactly when every row is empty |
| TableBuilder.GetMaxColumns | backend/app/core/docengine/builders/table.py:195-220 | the loop computes the count as written, dict spans added raw |
| TableBuilder.EveryEntryPlaced | backend/app/core/docengine/builders/table.py:291-350 | when the table is as wide as a row, every entry of that row is written at its start column |
| TableBuilder.StartBelowWidth | backend/app/core/docengine/builders/table.py:349-350 | every entry starts inside the row's width |
| TableBuilder.MaxColumnsCounterexample | backend/app/core/docengine/builders/table.py:211-218 | a dict cell with colspan 0 counts no column though it is placed in one, so the one-column table for `[{"colspan": 0}, "a"]` has no room for "a" |
| TableBuilder.WidthRow | backend/app/core/docengine/builders/table.py:426-434 | setting widths changes nothing in a row but the widths of the columns given one |
| TableBuilder.SetColumnWidths | backend/app/core/docengine/builders/table.py:412-434 | no widths or no rows leaves the table alone; otherwise autofit is off and every row gets the widths |
| TableBuilder.ResolveTableStyle | backend/app/core/docengine/builders/table.py:157-166 | the style is the named one when the document has it, otherwise "Table Grid", otherwise the default; always a style of the document |
| TableBuilder.Grid | backend/app/core/docengine/builders/table.py:149-183 | the grid has a header row when there are headers plus one row per data row, each as wide as the table |
| TableBuilder.GridAt | backend/app/core/docengine/builders/table.py:172-183 | row 0 is the header row when there are headers, and every other row is its data row placed |
| TableBuilder.WithWidthsAt | backend/app/core/docengine/builders/table.py:185-188 | widths change nothing in a cell but its width |
| TableBuilder.TableElementAgrees | backend/app/core/docengine/builders/table.py:130-193 | with spans of at least one everywhere, the table as written is the intended one |
| TableBuilder.AddTable | backend/app/core/docengine/builders/table.py:111-193 | a table and an empty paragraph are added exactly when the block has headers or rows and a non-zero column count as written; otherwise the body is unchanged |
| TableBuilder.AddDataRows | backend/app/core/docengine/builders/table.py:180-183 | data row i goes into table row offset + i, placed over a blank row |
| TableBuilder.BuildTable | backend/app/core/docengine/builders/table.py:154-188 | the table holds the grid with widths, the resolved style, centring and autofit exactly when no widths are given |
| TableBuilder.HeaderRowHoldsHeaders | backend/app/core/docengine/builders/table.py:174-178 | with headers, the first row holds every header, bold and centred |
| TableBuilder.HeaderlessTableKeepsEveryEntry | backend/app/core/docengine/builders/table.py:142-183 | without headers, the table made with the intended count holds every entry at its start column |
| TableBuilder.HeaderlessTableKeepsPositiveEntries | backend/app/core/docengine/builders/table.py:142-183 | the same for the table as written when no dict entry has a span below one |
| TableBuilder.ZeroSpanTableCounterexample | backend/app/core/docengine/builders/table.py:142-146 | for a single dict cell with colspan 0 the code makes no table, while the intended count makes one holding "x" |
| ListBuilder.FormattingOf | backend/app/core/docengine/builders/list.py:38-58 | building inline formatting from a dict succeeds exactly when every key is one of the eight fields, and each field takes the dict's value or `None` |
| ListBuilder.RunList | backend/app/core/docengine/builders/list.py:259-274 | the runs collected from an item's `runs` list are never more than its elements (non-dict elements are skipped) |
| ListBuilder.LevelEntry | backend/app/core/docengine/builders/list.py:276-281 | an item's level is accepted exactly when it is an integer, capped at 8 and otherwise kept |
| ListBuilder.ParseItem | backend/app/core/docengine/builders/list.py:232-285 | an item object is kept as is; a string becomes a level-0 text item with no runs; a dict item's level never exceeds 8; any other value becomes a text item of its `str` |
| ListBuilder.GetTextRuns | backend/app/core/docengine/builders/list.py:88-98 | an item's own runs win; otherwise string content becomes one run carrying the item's formatting |
| ListBuilder.RenderRun | backend/app/core/docengine/builders/list.py:374-408 | a run renders exactly when its text is a string and its formatting applies; it keeps its text, and an unformatted run only sets the 11pt size |
| ListBuilder.RenderedRuns | backend/app/core/docengine/builders/list.py:330-334 | each text run of an item is rendered independently, in order |
| ListBuilder.TextItemRuns | backend/app/core/docengine/builders/list.py:88-98 | a string item renders as one 11pt run holding exactly its text |
| ListBuilder.ListStyleNames | backend/app/core/docengine/builders/list.py:410-454 | there are eighteen list style names, nine bullet levels and nine number levels |
| ListBuilder.StyleNameCreated | backend/app/core/docengine/builders/list.py:456-471 | every style name a list paragraph asks for, at any level that is not negative, is one of the names the builder creates |
| ListBuilder.StyleNameCapped | backend/app/core/docengine/builders/list.py:456-471 | levels above 8 share the level-8 style |
| ListBuilder.BulletGlyph | backend/app/core/docengine/builders/list.py:142-152 | the bullet glyph is always one of the three bullet characters |
| ListBuilder.BulletGlyphPeriod | backend/app/core/docengine/builders/list.py:142-152 | the glyph cycles with period three in the level |
| ListBuilder.NumberingFormat | backend/app/core/docengine/builders/list.py:132-139 | a list style outside the known six falls back to decimal numbering |
| ListBuilder.LevelTextRefersToLevel | backend/app/core/docengine/builders/list.py:608-626 | each level's number pattern names its own level plus one and closes with `)` exactly for letter formats |
| ListBuilder.BulletParagraph | backend/app/core/docengine/builders/list.py:287-334 | a bullet paragraph exists exactly when its runs render; it has the level glyph run then the content runs, the level's indent, no numbering, and a style exactly when the registry has the level's name |
| ListBuilder.NumberedParagraph | backend/app/core/docengine/builders/list.py:336-372 | a numbered paragraph exists exactly when its runs render; it has the content runs only, numbering at the item's level, the indent and no style |
| ListBuilder.ItemParagraphs | backend/app/core/docengine/builders/list.py:192-230 | each list item is turned into its paragraph independently, in order |
| ListBuilder.ListParagraphsSpec | backend/app/core/docengine/builders/list.py:192-230 | a whole list renders exactly when every item does, as one paragraph per item in order |
| ListBuilder.StringItemsRender | backend/app/core/docengine/builders/list.py:192-240 | a list of plain strings always renders, each paragraph's content text being exactly that string |
| ListBuilder.WithListStylesKeeps | backend/app/core/docengine/builders/list.py:410-454 | styles already present are left as they were |
| ListBuilder.WithListStylesAdds | backend/app/core/docengine/builders/list.py:410-454 | after ensuring, all eighteen list style names exist |
| ListBuilder.WithListStylesNew | backend/app/core/docengine/builders/list.py:410-454 | every style added is a list style with the record of its level |
| ListBuilder.NormalIsNotAListStyle | backend/app/core/docengine/builders/list.py:410-454 | no list style name collides with "Normal" |
| ListBuilder.ListBuilder.constructor | backend/app/core/docengine/builders/list.py:154-162 | a new builder has counter 0 and the list styles ensured, with the document body and numbering untouched |
| ListBuilder.ListBuilder.AddListItem | backend/app/core/docengine/builders/list.py:287-334 | the bullet paragraph is appended exactly when it renders; a run that raises may leave a partial paragraph but never removes one |
| ListBuilder.ListBuilder.AddNumberedItem | backend/app/core/docengine/builders/list.py:336-372 | the numbered paragraph is appended exactly when it renders; otherwise the body only grows |
| ListBuilder.ListBuilder.AddBulletList | backend/app/core/docengine/builders/list.py:192-201 | all item paragraphs are appended in order exactly when every item renders; styles and numbering are untouched |
| ListBuilder.ListBuilder.AddNumberedList | backend/app/core/docengine/builders/list.py:203-230 | the counter goes up by one and one numbering definition is added even if an item later raises; the item paragraphs refer to that numbering |
| ListBuilder.ListBuilder.AddItems | backend/app/core/docengine/builders/list.py:192-230 | the shared item loop appends every paragraph exactly when all items render, stopping at the first that raises |
| ListBuilder.ListBuilder.AddItem | backend/app/core/docengine/builders/list.py:192-230 | one item is parsed and appended as its bullet or numbered paragraph exactly when it renders |
| ListBuilder.ListBuilder.CreateNumberingDefinition | backend/app/core/docengine/builders/list.py:473-521 | the counter grows by one and both the abstract numbering and its instance take the new id |
| ListBuilder.ListBuilder.AddList | backend/app/core/docengine/builders/list.py:164-190 | a bullet block adds a bullet list, a numbered block a numbered list, and any other type is a `ValueError` that changes nothing |
| ListBuilder.CreateAbstractNumbering | backend/app/core/docengine/builders/list.py:523-606 | nine levels 0 to 8, each with its pattern, left justification and indent; only level 0 takes the start number |
| ListBuilder.AddContentRuns | backend/app/core/docengine/builders/list.py:330-334 | the rendering loop of an item's runs agrees with rendering each run and stops at the first that fails |
| ListBuilder.EnsureListStyles | backend/app/core/docengine/builders/list.py:410-454 | the registry becomes the list styles added to it, with the rest of the document untouched |
| Styles.WithRequiredStylesSpec | backend/app/core/docengine/builders/styles.py:126-144 | checking the required styles adds exactly the missing names as bare paragraph styles and keeps every existing record |
| Styles.RequiredStylesPresent | backend/app/core/docengine/builders/styles.py:116-144 | after construction every required style exists and no existing style changed |
| Styles.PySlice | backend/app/core/docengine/builders/styles.py:458-464 | a Python slice never yields more than the requested width and is the exact slice when in range |
| Styles.HexComponent | backend/app/core/docengine/builders/styles.py:458-467 | a colour component that parses is at most 255 |
| Styles.SetFontColor | backend/app/core/docengine/builders/styles.py:452-469 | setting a colour either keeps the old one (on `ValueError`) or yields the parsed colour |
| Styles.ColorUsesFirstSix | backend/app/core/docengine/builders/styles.py:458-464 | characters after the first six hexadecimal digits are ignored |
| Styles.SlicesKept | backend/app/core/docengine/builders/styles.py:462-464 | the three two-character slices only look at the first six characters |
| Styles.HexPair | backend/app/core/docengine/builders/styles.py:462-467 | two hexadecimal digits read as the byte they denote |
| Styles.ShortColorIgnored | backend/app/core/docengine/builders/styles.py:458-469 | a colour with fewer than five characters after the `#` (three-digit `#ABC`) fails to parse and leaves the colour unchanged |
| Styles.SetFontColorIdempotent | backend/app/core/docengine/builders/styles.py:452-469 | setting the same colour twice is setting it once |
| Styles.DefaultHeadingValues | backend/app/core/docengine/builders/styles.py:23-41 | the default heading sizes are 16, 14, 12 and 11, bold for the first three levels only, with no colour |
| Styles.ConfiguredHeading | backend/app/core/docengine/builders/styles.py:233-275 | a configured heading takes the heading font, its level's size and weight, the line spacing, 12pt before and 6pt after, and a colour only when one is given; its kind, italics, indent and parent stay |
| Styles.ConfiguredHeadingIdempotent | backend/app/core/docengine/builders/styles.py:233-275 | configuring a heading twice is configuring it once |
| Styles.HeadingLevelOf | backend/app/core/docengine/builders/styles.py:233-275 | a style name belongs to heading level 1 to 4 exactly when it is that level's name, otherwise to level 0 |
| Styles.HeadingsConfiguredAt | backend/app/core/docengine/builders/styles.py:233-275 | heading configuration keeps the style names, reconfigures each configured level from its old record and leaves every other style alone |
| Styles.DocumentStyledAt | backend/app/core/docengine/builders/styles.py:146-194 | document styling changes "Normal" to the body style, headings to their level's style, and nothing else |
| Styles.DocumentStylingIdempotent | backend/app/core/docengine/builders/styles.py:146-194 | applying the same styling twice gives the same registry as applying it once |
| Styles.AlignmentNamed | backend/app/core/docengine/builders/styles.py:315-337 | "left" and "center" name their alignments and every other name is right; nothing is justified |
| Styles.Unlinked | backend/app/core/docengine/builders/styles.py:322-324 | unlinking a linked header or footer gives it a definition of its own with at least one paragraph; an unlinked one is unchanged |
| Styles.Cleared | backend/app/core/docengine/builders/styles.py:326-328 | clearing keeps every paragraph and its alignment and removes all its runs |
| Styles.WithFirst | backend/app/core/docengine/builders/styles.py:330-334 | the first paragraph is replaced, or added when there is none, and the rest are kept |
| Styles.HFParaTextAppend | backend/app/core/docengine/builders/styles.py:336-338 | the visible text of a paragraph is the concatenation over its runs |
| Styles.HeaderTextShown | backend/app/core/docengine/builders/styles.py:302-338 | the header shows the text once, in the first paragraph, with the requested alignment, and every other paragraph is emptied |
| Styles.FooterLayout | backend/app/core/docengine/builders/styles.py:340-397 | the footer is centred exactly for "footer_center"; its text is the footer text followed by the separator only when page numbers are on; a page field appears exactly when page numbers are on, with a total exactly when asked |
| Styles.PageNumberBesideText | backend/app/core/docengine/builders/styles.py:566-608 | a header page number beside existing text moves that text to the left cell of a new table and puts the page field in the right cell |
| Styles.PageNumberAlone | backend/app/core/docengine/builders/styles.py:566-608 | a header page number without text right-aligns the first paragraph and ends it with the page field, leaving its text unchanged |
| Styles.EditAll | backend/app/core/docengine/builders/styles.py:196-231 | a pass over the sections edits each one the same way and keeps their number and order |
| Styles.LayoutUniform | backend/app/core/docengine/builders/styles.py:196-231 | page layout gives every section the same size, orientation and margins and touches nothing else of it |
| Styles.HeaderFooterConfiguredAt | backend/app/core/docengine/builders/styles.py:399-434 | the header/footer configuration acts on each section on its own |
| Styles.HeaderAlignmentRule | backend/app/core/docengine/builders/styles.py:399-434 | header text is left-aligned exactly when the page number goes to the header's right, right-aligned otherwise |
| Styles.NoHeaderPageNumber | backend/app/core/docengine/builders/styles.py:399-434 | unless page numbers are on and placed at the header's right, the header gets no page number |
| Styles.HeaderPageNumberBesideText | backend/app/core/docengine/builders/styles.py:399-434 | with the page number at the header's right and header text, the header becomes a two-cell table with the text left and the number right |
| Styles.HeaderPageNumberAlone | backend/app/core/docengine/builders/styles.py:399-434 | with the page number at the header's right and no header text, the first paragraph is right-aligned and ends with the number |
| Styles.StyleEngine.constructor | backend/app/core/docengine/builders/styles.py:116-124 | a new engine ensures the required styles and touches nothing else |
| Styles.StyleEngine.ConfigureBodyStyle | backend/app/core/docengine/builders/styles.py:277-300 | only the body style changes |
| Styles.StyleEngine.ConfigureHeadingStyles | backend/app/core/docengine/builders/styles.py:233-275 | the four heading levels are configured, in a loop, and nothing else changes |
| Styles.StyleEngine.ApplyDocumentStyling | backend/app/core/docengine/builders/styles.py:146-194 | the registry becomes the document-styled registry, the rest of the document is untouched |
| Styles.StyleEngine.EditSections | backend/app/core/docengine/builders/styles.py:196-231 | one pass edits every section and nothing else |
| Styles.StyleEngine.SetupPageLayout | backend/app/core/docengine/builders/styles.py:196-231 | every section is laid out by the page setup and nothing else changes |
| Styles.StyleEngine.AddHeader | backend/app/core/docengine/builders/styles.py:302-338 | empty header text changes nothing; otherwise every section's header shows it |
| Styles.StyleEngine.AddFooter | backend/app/core/docengine/builders/styles.py:340-397 | every section gets the configured footer and nothing else changes |
| Styles.StyleEngine.AddPageNumberToHeader | backend/app/core/docengine/builders/styles.py:566-608 | every section's header gets the page number and nothing else changes |
| Styles.StyleEngine.ApplyHeaderFooterConfig | backend/app/core/docengine/builders/styles.py:399-434 | the sections become the configured header/footer sections and nothing else changes |
| Styles.ApplyFullStyling | backend/app/core/docengine/builders/styles.py:668-717 | the registry is the required styles plus the given styling or the defaults, the sections are laid out by the given page setup or the defaults, and headers and footers are configured only when given |
| Engine.ParagraphDict | backend/app/core/docengine/engine.py:440-471 | a paragraph block is handed on with its content, alignment name and spacing, and one range dict per formatting range, none when it has no formatting |
| Engine.HeadingBlockLevel | backend/app/core/docengine/engine.py:413-415 | a heading block with no level or level 0 becomes level 1, any other level is kept |
| Engine.PreparedItems | backend/app/core/docengine/engine.py:508-530 | list preparation keeps one entry per item, in order |
| Engine.PrepareListItems | backend/app/core/docengine/engine.py:508-530 | the preparation loop agrees with converting each item on its own |
| Engine.PreparedItemsAt | backend/app/core/docengine/engine.py:508-530 | a string item goes on as its own text, and a dict item goes on unchanged to the list builder's dict parsing |
| Engine.PreparedRow | backend/app/core/docengine/engine.py:559-585 | row preparation keeps one entry per cell |
| Engine.PreparedRows | backend/app/core/docengine/engine.py:559-585 | table preparation keeps one row per row |
| Engine.PrepareRow | backend/app/core/docengine/engine.py:566-582 | the loop over a row's cells agrees with converting each cell on its own |
| Engine.PrepareTableRows | backend/app/core/docengine/engine.py:559-585 | the loop over rows agrees with converting every row, in order |
| Engine.TableDictKeepsCells | backend/app/core/docengine/engine.py:532-585 | a text cell keeps its text and a rich cell its content and spans on the way to the table builder |
| Engine.Underscores | backend/app/core/docengine/engine.py:587-620 | the signature underline is exactly the requested number of underscores |
| Engine.LineElements | backend/app/core/docengine/engine.py:587-620 | there is one paragraph per signature line |
| Engine.LineElementsAt | backend/app/core/docengine/engine.py:587-620 | each signature line becomes its own paragraph, in order |
| Engine.SignatureLayout | backend/app/core/docengine/engine.py:587-620 | each signature line becomes one paragraph after the preamble, if any, reading label, ": " and the underline, with only the label bold |
| Engine.FlatOutAppend | backend/app/core/docengine/engine.py:384-400 | rendering a list of sections in pre-order splits over concatenation |
| Engine.FlatOutSingle | backend/app/core/docengine/engine.py:384-400 | a single section's own output is its heading and blocks |
| Engine.SectionsPreOrder | backend/app/core/docengine/engine.py:283-284 | rendering the sections visits exactly the sections of the flattened tree, in pre-order, each with its heading and blocks |
| Engine.SectionPreOrder | backend/app/core/docengine/engine.py:384-400 | one section renders itself and then its subsections, which is its pre-order flattening |
| Engine.FlattenSingle | backend/app/core/docengine/schema.py:278-293 | the flattening of one section is the section followed by the flattening of its subsections |
| Engine.HeadingBlockDefault | backend/app/core/docengine/engine.py:413-415 | a heading block with no level or level 0 renders as a level-1 heading |
| Engine.BlockOutExtends | backend/app/core/docengine/engine.py:402-438 | rendering a block only ever appends to the body |
| Engine.BlocksOutExtends | backend/app/core/docengine/engine.py:384-400 | rendering a section's blocks only ever appends to the body |
| Engine.SectionHeadingFirst | backend/app/core/docengine/engine.py:384-400 | every section, whether or not its heading is blank, starts with its heading element right after what came before |
| Engine.BlocksOutFailure | backend/app/core/docengine/engine.py:395-396 | once a block raises, rendering the rest of the blocks raises too |
| Engine.BlocksOutSnoc | backend/app/core/docengine/engine.py:395-396 | rendering one more block continues from the output of the blocks before it |
| Engine.SectionsOutSnoc | backend/app/core/docengine/engine.py:399-400 | rendering one more section continues from the output of the sections before it |
| Engine.SectionsOutFailure | backend/app/core/docengine/engine.py:399-400 | once a section raises, rendering the later sections raises too |
| Engine.BlockKeepsNumbering | backend/app/core/docengine/engine.py:488-506 | rendering a block keeps the numbering ids consecutive |
| Engine.BlocksKeepNumbering | backend/app/core/docengine/engine.py:488-506 | rendering a block sequence keeps the numbering ids consecutive |
| Engine.FlatKeepsNumbering | backend/app/core/docengine/engine.py:488-506 | rendering a flattened section list keeps the numbering ids consecutive |
| Engine.SectionsKeepNumbering | backend/app/core/docengine/engine.py:488-506 | however the sections are nested, the numbering ids of a render are 1, 2, ... in the order the numbered lists appear |
| Engine.EngineSectionsAt | backend/app/core/docengine/engine.py:353-382 | the engine's own header and footer setup acts on each template section independently |
| Engine.EngineHeaderRule | backend/app/core/docengine/engine.py:353-382 | the header is the header text right-aligned, or the template's header; the page number always goes to the footer, right-aligned, even when placed at the header's right |
| Engine.EngineFooterUntouched | backend/app/core/docengine/engine.py:353-382 | with neither footer text nor page numbers the footer stays as the template made it |
| Engine.MissingParts | backend/app/core/docengine/engine.py:320-323 | a part is reported missing exactly when it is required and not in the archive |
| Engine.ArchiveAccepted | backend/app/core/docengine/engine.py:310-334 | an archive passes exactly when no entry is corrupt and both required parts are present |
| Engine.ValidateFirstRefuses | backend/app/core/docengine/engine.py:263-270 | with validation on, a document that is not well-formed is refused with its validation errors, before anything is rendered or saved |
| Engine.RenderingOk | backend/app/core/docengine/engine.py:240-338 | a render succeeds exactly when validation (if asked for) passes, no block raises and the saved archive passes; the numbering is then consistent and the body starts with the title |
| Engine.FlatOutExtends | backend/app/core/docengine/engine.py:384-400 | rendering flattened sections only appends to the body |
| Engine.Renderer.constructor | backend/app/core/docengine/engine.py:102-108 | a fresh renderer owns a fresh document with the required styles and the template's sections, and an empty output |
| Engine.Renderer.ApplyStyling | backend/app/core/docengine/engine.py:353-382 | the registry becomes the document-styled registry and the sections get the engine's page setup and header/footer; the body and numbering are untouched |
| Engine.Renderer.RenderTitle | backend/app/core/docengine/engine.py:340-351 | the title paragraphs are appended and nothing else changes |
| Engine.Renderer.RenderSignature | backend/app/core/docengine/engine.py:587-620 | the signature paragraphs are appended and nothing else changes |
| Engine.Renderer.RenderBulletList | backend/app/core/docengine/engine.py:473-486 | a bullet block succeeds exactly when its model output exists, and then the state is that output |
| Engine.Renderer.RenderNumberedList | backend/app/core/docengine/engine.py:488-506 | a numbered block succeeds exactly when its model output exists, and then the state is that output |
| Engine.Renderer.RenderTable | backend/app/core/docengine/engine.py:532-557 | a table block always renders to its model output |
| Engine.Renderer.RenderContentBlock | backend/app/core/docengine/engine.py:402-438 | dispatching a block succeeds exactly when its model output exists, and then the state is that output |
| Engine.Renderer.RenderBlocks | backend/app/core/docengine/engine.py:395-396 | the block loop succeeds exactly when every block does, leaving the model output of all of them |
| Engine.Renderer.RenderSection | backend/app/core/docengine/engine.py:384-400 | a section renders as its heading, blocks and subsections exactly when none raises |
| Engine.Renderer.RenderSections | backend/app/core/docengine/engine.py:283-284 | the section loop succeeds exactly when every section does, leaving the model output of all of them |
| Engine.BuildDocument | backend/app/core/docengine/engine.py:272-284 | building succeeds exactly when the model render of the document exists; the styles and sections are those of styling the template |
| Engine.Render | backend/app/core/docengine/engine.py:240-338 | the render result agrees with the model rendering: the validation error, a raising builder, a failed archive check, or success |
| Output.RunsTextAppend | backend/app/core/docengine/builders/section.py:332-361 | the visible text of a paragraph's runs splits over concatenation, so runs added in pieces read as one text |
| Output.Document.constructor | backend/app/core/docengine/engine.py:102-108 | a document made from a template starts with an empty body and no numbering, and the template's styles and sections |
| Output.Document.Add | backend/app/core/docengine/builders/section.py:130-153 | adding an element appends it at the end of the body and changes nothing else |
| Batcher.Texts | backend/app/modules/documents/translation/batcher.py:21-28 | the texts of a batch, one per item in order |
| Batcher.Blanks | backend/app/modules/documents/translation/batcher.py:63-65 | `[""] * n` has n empty strings |
| Batcher.ToBatchedText | backend/app/modules/documents/translation/batcher.py:37-49 | the loop builds the request text: one `\|\|\|i\|\|\|` line per item, in order, joined by newlines |
| Batcher.DigitRun | backend/app/modules/documents/translation/batcher.py:17 | the digit run at the start of a text is maximal and holds only digits |
| Batcher.MatchLength | backend/app/modules/documents/translation/batcher.py:17 | a delimiter match at a position is absent or at least seven characters long and inside the text |
| Batcher.MatchesOrdered | backend/app/modules/documents/translation/batcher.py:67-68 | the delimiters a scan finds lie inside the text, in order, without overlapping |
| Batcher.SpaceRun | backend/app/modules/documents/translation/batcher.py:126-134 | a whitespace run never goes past the text |
| Batcher.WordRun | backend/app/modules/documents/translation/batcher.py:126-134 | a word-character run never goes past the text |
| Batcher.WithArticle | backend/app/modules/documents/translation/batcher.py:126-134 | an accepted wrapper prefix never goes past the text |
| Batcher.FirstNote | backend/app/modules/documents/translation/batcher.py:137 | the trailing-note search returns the leftmost position where a note starts, or none exists from there on |
| Batcher.CleanStripped | backend/app/modules/documents/translation/batcher.py:107-140 | a cleaned translation never starts or ends with whitespace |
| Batcher.CleanKeepsPlain | backend/app/modules/documents/translation/batcher.py:107-140 | a stripped text with no fence, no wrapper label and no trailing note is left as it is |
| Batcher.LanguageGroup | backend/app/modules/documents/translation/batcher.py:129 | `\s+in\s+\w+` takes " in " and a whole run of word characters, Latin-1 accented letters included |
| Batcher.LanguageLabelCut | backend/app/modules/documents/translation/batcher.py:129-131 | on "Translation in <language>: x" the first pattern matches up to `x` and the colon-only third pattern does not match at all |
| Batcher.LanguageLabelDropped | backend/app/modules/documents/translation/batcher.py:128-134 | the three wrapper patterns turn "Translation in <language>: x" into `x` when `x` carries no wrapper of its own |
| Batcher.StackedLabelKept | backend/app/modules/documents/translation/batcher.py:128-134 | "Translation: Translation in <language>: x" loses only the bare label; the colon-only third pattern leaves the language label in place |
| Batcher.WordNoArticle | backend/app/modules/documents/translation/batcher.py:129-130 | a text opening with "Translation" starts with neither article and not with "translated text:" |
| Batcher.SegmentInBounds | backend/app/modules/documents/translation/batcher.py:82-91 | the text between a delimiter and the next (or the end) is always in bounds |
| Batcher.Pieces | backend/app/modules/documents/translation/batcher.py:81-92 | there is one cleaned piece per delimiter found |
| Batcher.Numbered | backend/app/modules/documents/translation/batcher.py:96-102 | the ordered result has one slot per expected translation, filled from the map or empty |
| Batcher.ParseResponse | backend/app/modules/documents/translation/batcher.py:52-104 | the parse agrees with the model parse of the reply for the expected count |
| Batcher.CollectPieces | backend/app/modules/documents/translation/batcher.py:81-92 | the first loop files each cleaned piece under its delimiter's number, a later number overwriting an earlier one |
| Batcher.FiledSnoc | backend/app/modules/documents/translation/batcher.py:81-92 | filing one more piece sets exactly that delimiter's number |
| Batcher.InOrder | backend/app/modules/documents/translation/batcher.py:96-102 | the second loop reads numbers 0 to n-1 from the map, with `""` where one is missing |
| Batcher.ParsedLength | backend/app/modules/documents/translation/batcher.py:52-104 | a batch of one or more texts always gets exactly one translation per text, and an empty reply gets only empty ones |
| Batcher.ParsedWithoutDelimiters | backend/app/modules/documents/translation/batcher.py:70-78 | a reply without delimiters is taken whole: cleaned for one text, else stripped into the first slot with the rest empty |
| Batcher.NoMatches | backend/app/modules/documents/translation/batcher.py:67-70 | a text with no delimiter yields no matches |
| Batcher.DelimiterMatch | backend/app/modules/documents/translation/batcher.py:17-49 | each request line starts with its own delimiter and nothing longer matches there |
| Batcher.Delimiters | backend/app/modules/documents/translation/batcher.py:37-49 | the delimiters of a request are numbered 0 to n-1 in order |
| Batcher.JoinLines | backend/app/modules/documents/translation/batcher.py:37-49 | joining the lines with newlines is the request text |
| Batcher.LineMatches | backend/app/modules/documents/translation/batcher.py:37-49 | the matches of a request from line j on are each line's delimiter at its offset with its own number |
| Batcher.StripPadding | backend/app/modules/documents/translation/batcher.py:91 | stripping undoes the padding a request line puts around a stripped text |
| Batcher.RequestMatches | backend/app/modules/documents/translation/batcher.py:37-68 | scanning a request finds one delimiter per line, numbered in order |
| Batcher.RequestPieces | backend/app/modules/documents/translation/batcher.py:37-92 | the stripped piece after each delimiter of a request is that line's text |
| Batcher.ParsedInOrder | backend/app/modules/documents/translation/batcher.py:81-102 | a reply whose delimiters are numbered 0, 1, ... one per text, with pieces that clean to the texts, parses to the texts |
| Batcher.ParseBatchedRoundTrip | backend/app/modules/documents/translation/batcher.py:37-104 | round trip: for texts holding no delimiter that cleaning leaves alone, parsing the batched request gives back exactly the texts, in order |
| Batcher.CreateBatches | backend/app/modules/documents/translation/batcher.py:143-184 | the batching loop agrees with the model greedy packing |
| Batcher.PackClose | backend/app/modules/documents/translation/batcher.py:167-173 | an item that does not fit closes the open batch and opens the next one |
| Batcher.PackExtend | backend/app/modules/documents/translation/batcher.py:175-177 | an item that fits, or meets an empty batch, joins the open batch |
| Batcher.BatchesPartition | backend/app/modules/documents/translation/batcher.py:143-184 | batching partitions the items: in order, nothing lost or repeated, no batch empty, every batch within the limits (an item too long travels alone), and each batch was closed only because the next item would not fit |
| Cache.MakeKeyInjective | backend/app/modules/documents/translation/cache.py:61-63 | distinct text and language pairs never share a cache key (the key keeps the text itself; see Left out) |
| Cache.TranslationCache.constructor | backend/app/modules/documents/translation/cache.py:21-24 | a new cache is empty with no hits and no misses |
| Cache.TranslationCache.Get | backend/app/modules/documents/translation/cache.py:26-46 | a lookup returns the stored translation or `None`, counts exactly one hit or one miss, and leaves the store as it was |
| Cache.TranslationCache.Set | backend/app/modules/documents/translation/cache.py:48-59 | storing adds or overwrites that one entry and leaves the counters alone |
| Cache.TranslationCache.Size | backend/app/modules/documents/translation/cache.py:66-73 | the reported size is the number of distinct keys stored |
| Cache.GetAfterSet | backend/app/modules/documents/translation/cache.py:26-59 | after storing a translation, looking the same text and language up finds it |
| Cache.SetOverwrites | backend/app/modules/documents/translation/cache.py:48-59 | a later store for the same text and language replaces the earlier one |
| Cache.SetIndependent | backend/app/modules/documents/translation/cache.py:26-63 | storing for one text and language changes nothing that a lookup finds for any other text or language |
| Cache.SizeAfterSet | backend/app/modules/documents/translation/cache.py:48-73 | the size grows by one exactly when the key was new |
| Cache.GetSetScenario | backend/app/modules/documents/translation/cache.py:21-73 | a miss, a store, a hit on the same text and a miss for another language leave one hit, two misses and one entry |
| Translator.NonEmptyCount | backend/app/modules/documents/translation/parallel_translator.py:226 | the count of non-blank translations is at most their number, and zero exactly when all are blank |
| Translator.RunFails | backend/app/modules/documents/translation/parallel_translator.py:194-239 | a batch fails exactly when every attempt before the last was retried and the last one raised |
| Translator.FailedOnlyIf | backend/app/modules/documents/translation/parallel_translator.py:194-239 | a failed batch had every earlier attempt retried and its last attempt raise |
| Translator.FailedIf | backend/app/modules/documents/translation/parallel_translator.py:233-239 | retried attempts followed by a last attempt that raises make the batch fail |
| Translator.RunFirstAccepted | backend/app/modules/documents/translation/parallel_translator.py:219-232 | the first attempt that is not retried decides the batch, with the parse of its reply |
| Translator.RunLength | backend/app/modules/documents/translation/parallel_translator.py:217-232 | a batch that does not fail returns at least one translation per item |
| Translator.RunAllBlank | backend/app/modules/documents/translation/parallel_translator.py:210-217 | blank replies on every attempt end in empty translations, not a failure |
| Translator.TranslateBatch | backend/app/modules/documents/translation/parallel_translator.py:160-242 | at most four calls, every call but the last retried, fewer calls only when one was accepted, and the outcome is the model outcome of the attempts |
| Translator.Retry | backend/app/modules/documents/translation/parallel_translator.py:194-237 | the attempts before the last stop at the first accepted one, or leave the last attempt to be made with all before it retried |
| Translator.Attempt | backend/app/modules/documents/translation/parallel_translator.py:210-232 | one attempt before the last is retried exactly when its reply is blank, raises or has too few non-blank translations; otherwise it yields the parsed reply |
| Translator.LastAttempt | backend/app/modules/documents/translation/parallel_translator.py:210-239 | the last attempt returns blanks for a blank reply, raises when the call raised, and otherwise returns the parse |
| Translator.RetriedStep | backend/app/modules/documents/translation/parallel_translator.py:194-237 | a retried attempt hands the batch on to the next attempt |
| Translator.LastStep | backend/app/modules/documents/translation/parallel_translator.py:210-239 | the last attempt is decided by its reply alone |
| Translator.AcceptedStep | backend/app/modules/documents/translation/parallel_translator.py:219-232 | an accepted attempt before the last returns the parse of its reply |
| Translator.Outcomes | backend/app/modules/documents/translation/parallel_translator.py:127-132 | there is one outcome per batch, in order |
| Translator.TranslateAll | backend/app/modules/documents/translation/parallel_translator.py:127-132 | translating every batch agrees with the outcomes of the batches in order |
| Translator.OutcomesComplete | backend/app/modules/documents/translation/parallel_translator.py:127-147 | a translated batch's outcome covers every item of the batch |
| Translator.SplitSizes | backend/app/modules/documents/translation/parallel_translator.py:107-115 | each collected item is either a hit or uncached, never both |
| Translator.HitsFrom | backend/app/modules/documents/translation/parallel_translator.py:107-115 | a hit comes from a collected item with the same path that the cache knows, and carries the cached translation |
| Translator.UncachedFrom | backend/app/modules/documents/translation/parallel_translator.py:107-115 | an uncached item is a collected item the cache does not know |
| Translator.HitsHolds | backend/app/modules/documents/translation/parallel_translator.py:107-115 | a collected item the cache knows is a hit |
| Translator.UncachedHolds | backend/app/modules/documents/translation/parallel_translator.py:107-115 | a collected item the cache does not know is uncached |
| Translator.SplitDistinct | backend/app/modules/documents/translation/parallel_translator.py:107-115 | with distinct paths, the hits and the uncached items have distinct paths and none in common |
| Translator.ParallelTranslator.constructor | backend/app/modules/documents/translation/parallel_translator.py:70-79 | a new translator starts with a fresh, empty cache with no hits or misses |
| Translator.ParallelTranslator.SplitCached | backend/app/modules/documents/translation/parallel_translator.py:107-115 | hits go into the path map and misses into the list to translate, counting one hit or miss per item, with the store unchanged |
| Translator.ParallelTranslator.MergeOutcome | backend/app/modules/documents/translation/parallel_translator.py:135-149 | one batch result is put into the path map, and its translations into the cache |
| Translator.ParallelTranslator.MergeFailed | backend/app/modules/documents/translation/parallel_translator.py:137-141 | a failed batch puts every item's original text into the path map |
| Translator.ParallelTranslator.MergeTranslated | backend/app/modules/documents/translation/parallel_translator.py:143-149 | translation j, or the original when it is empty, goes to item j and into the cache; extra translations are ignored |
| Translator.ParallelTranslator.TranslateUif | backend/app/modules/documents/translation/parallel_translator.py:81-158 | the document comes back with every collected text replaced by its cached translation, its batch translation, or itself for a failed batch or empty translation; hits and misses are counted once per item |
| Translator.ParallelTranslator.MergeAll | backend/app/modules/documents/translation/parallel_translator.py:134-149 | the loop over batch results puts every result into the path map and caches every new translation |
| Translator.PathMapAt | backend/app/modules/documents/translation/parallel_translator.py:107-149 | with distinct paths, each item's text is what the path map holds at its path |
| Translator.LearnFinds | backend/app/modules/documents/translation/parallel_translator.py:147-149 | every translation stored is found again under its original text |
| Translator.LearnIndependent | backend/app/modules/documents/translation/parallel_translator.py:147-149 | texts and languages not stored keep what the cache had |
| Translator.ResultsAt | backend/app/modules/documents/translation/parallel_translator.py:143-147 | a batch's results keep its items' paths, in order |
| Translator.ResolvedFailed | backend/app/modules/documents/translation/parallel_translator.py:137-141 | when every batch fails, the results are the original items and nothing is cached |
| Translator.CachedNeverBatched | backend/app/modules/documents/translation/parallel_translator.py:107-124 | only items the cache does not know are sent, in order, in batches within the limits |
| Translator.UncachedBatched | backend/app/modules/documents/translation/parallel_translator.py:107-124 | every item the cache does not know is sent in some batch |
| Translator.MergedDistinct | backend/app/modules/documents/translation/parallel_translator.py:107-149 | the merged map is the hits' path map followed by the batch results, whose paths are distinct |
| Translator.MergedKeyFrom | backend/app/modules/documents/translation/parallel_translator.py:107-149 | every path of the merged map is the path of a collected item |
| Translator.MergedWellTyped | backend/app/modules/documents/translation/parallel_translator.py:107-152 | every path of the merged map names a text of the document |
| Translator.CachedText | backend/app/modules/documents/translation/parallel_translator.py:109-113 | a text the cache knows becomes its cached translation |
| Translator.BatchText | backend/app/modules/documents/translation/parallel_translator.py:135-147 | item j of batch i becomes its translation, or stays as it was when the batch failed or the translation is empty |
| Translator.Untouched | backend/app/modules/documents/translation/parallel_translator.py:151-152 | nothing but collected texts changes |
| Translator.NoHits | backend/app/modules/documents/translation/parallel_translator.py:107-115 | with nothing cached, there are no hits and every item is uncached |
| Translator.AllFailedKeepsDocument | backend/app/modules/documents/translation/parallel_translator.py:81-158 | with nothing cached and every batch failed, the document comes back exactly as it was and the cache learns nothing |
| Translator.BlankKeepsOriginals | backend/app/modules/documents/translation/parallel_translator.py:143-149 | a batch whose replies were all blank writes its originals back and caches each original as its own translation |
| TreeText.BlockItemsSound | backend/app/modules/documents/translation/parallel_translator.py:295-355 | every item collected from a block reads a text the block holds and that passes the inclusion rule of its kind |
| TreeText.WalkChild | backend/app/modules/documents/translation/parallel_translator.py:287-293 | subsection i of the section at a location sits at that location extended by i |
| TreeText.SectionItemsSound | backend/app/modules/documents/translation/parallel_translator.py:265-293 | every item a section yields carries the document's text at its path and passes its inclusion rule |
| TreeText.CollectedSound | backend/app/modules/documents/translation/parallel_translator.py:244-355 | every collected item carries the text found at its path, and that text passes the inclusion rule of its kind |
| TreeText.BlockItemsComplete | backend/app/modules/documents/translation/parallel_translator.py:295-355 | a block text that passes its inclusion rule is collected |
| TreeText.Lift | backend/app/modules/documents/translation/parallel_translator.py:265-293 | what a section collects, the whole document collects |
| TreeText.CollectedComplete | backend/app/modules/documents/translation/parallel_translator.py:244-355 | every text of the document that passes its inclusion rule is collected, with its path |
| TreeText.CollectedIff | backend/app/modules/documents/translation/parallel_translator.py:244-355 | an item is collected exactly when it carries the document's text at its path and that text is worth translating |
| TreeText.WalkApply | backend/app/modules/documents/translation/parallel_translator.py:376-402 | writing translations into the tree keeps every section where it was |
| TreeText.BlockTextApply | backend/app/modules/documents/translation/parallel_translator.py:404-453 | each field of a block afterwards holds the mapped translation where the map has its path, or its old text |
| TreeText.ApplyAt | backend/app/modules/documents/translation/parallel_translator.py:357-453 | read after write: with a well-typed map, every path afterwards holds the mapped translation where the map has the path and the old text elsewhere |
| TreeText.ApplyBlockId | backend/app/modules/documents/translation/parallel_translator.py:404-453 | writing back texts a block already holds leaves it unchanged |
| TreeText.ApplyIdentity | backend/app/modules/documents/translation/parallel_translator.py:357-402 | writing back texts the document already holds gives the document back unchanged |
| TreeText.PathMapFrom | backend/app/modules/documents/translation/parallel_translator.py:107-147 | every entry of a path map comes from one of its items |
| TreeText.CollectApplyRoundTrip | backend/app/modules/documents/translation/parallel_translator.py:244-453 | round trip: writing back every collected text unchanged reproduces the document exactly |
| TreeText.DistinctParts | backend/app/modules/documents/translation/parallel_translator.py:295-355 | parts told apart by a tag of their paths concatenate without repeating a path |
| TreeText.BlockDistinct | backend/app/modules/documents/translation/parallel_translator.py:295-355 | a block never yields the same path twice |
| TreeText.SectionUnder | backend/app/modules/documents/translation/parallel_translator.py:265-293 | every path a section yields lies at or below its location |
| TreeText.CollectedDistinct | backend/app/modules/documents/translation/parallel_translator.py:244-293 | collection never yields the same path twice, so the path-keyed maps built from its items lose nothing |
| Walker.CollectListItems | backend/app/modules/documents/translation/parallel_translator.py:309-321 | the loop over list items appends exactly the list's items |
| Walker.CollectHeaders | backend/app/modules/documents/translation/parallel_translator.py:323-330 | the loop over table headers appends exactly the header items |
| Walker.CollectRow | backend/app/modules/documents/translation/parallel_translator.py:332-341 | the loop over a row's cells appends exactly the row's items |
| Walker.CollectRows | backend/app/modules/documents/translation/parallel_translator.py:331-341 | the loop over rows appends exactly the rows' items |
| Walker.CollectLabels | backend/app/modules/documents/translation/parallel_translator.py:350-355 | the loop over signature lines appends exactly the label items |
| Walker.CollectTable | backend/app/modules/documents/translation/parallel_translator.py:323-341 | a table appends its header items, then its row items |
| Walker.CollectSignature | backend/app/modules/documents/translation/parallel_translator.py:343-355 | a signature appends its preamble item, then its label items |
| Walker.CollectFromBlock | backend/app/modules/documents/translation/parallel_translator.py:295-355 | collecting a block appends exactly the block's items |
| Walker.CollectFromBlocks | backend/app/modules/documents/translation/parallel_translator.py:282-285 | the loop over a section's blocks appends exactly their items |
| Walker.CollectFromSection | backend/app/modules/documents/translation/parallel_translator.py:272-293 | a section appends its heading, its blocks' items, then its subsections' items |
| Walker.CollectFromSections | backend/app/modules/documents/translation/parallel_translator.py:265-293 | section i is collected at the base location extended by i |
| Walker.CollectTextItems | backend/app/modules/documents/translation/parallel_translator.py:244-263 | the items collected are the title then every section's, as the collection function says |
| Walker.ApplyToItems | backend/app/modules/documents/translation/parallel_translator.py:416-425 | each list item becomes the mapped translation of its path or stays, one for one |
| Walker.ApplyToHeaders | backend/app/modules/documents/translation/parallel_translator.py:427-432 | each header becomes the mapped translation of its path or stays, one for one |
| Walker.ApplyToRow | backend/app/modules/documents/translation/parallel_translator.py:434-442 | each cell of a row is written from the map as the apply function says |
| Walker.ApplyToTable | backend/app/modules/documents/translation/parallel_translator.py:427-442 | a table is written from the map as the apply function says |
| Walker.ApplyToSignature | backend/app/modules/documents/translation/parallel_translator.py:444-453 | a signature is written from the map as the apply function says |
| Walker.ApplyToBlock | backend/app/modules/documents/translation/parallel_translator.py:404-453 | a block is written from the map as the apply function says |
| Walker.ApplyToBlocks | backend/app/modules/documents/translation/parallel_translator.py:391-394 | each block of a section is written from the map, one for one |
| Walker.ApplyToSections | backend/app/modules/documents/translation/parallel_translator.py:376-402 | the sections are written from the map as the apply function says |
| Walker.ApplyTranslations | backend/app/modules/documents/translation/parallel_translator.py:357-374 | the document is written from the map as the apply function says |
| WorkflowBase.Execute | backend/app/modules/documents/workflows/base.py:76-133 | a failed generation is a content-generation error; otherwise the content, polished when asked and Claude is available, is built, and a failed build is a document-build error |
| WorkflowBase.ExecuteBuiltIff | backend/app/modules/documents/workflows/base.py:76-133 | a document comes out exactly when generation and the build of the (possibly polished) content both succeed |
| WorkflowBase.PolishFailureIsSwallowed | backend/app/modules/documents/workflows/base.py:110-118 | a polish failure is not fatal: the run is the run without polish |
| WorkflowBase.PolishSkipped | backend/app/modules/documents/workflows/base.py:110-114 | without the polish flag or without Claude, the polish step is never consulted |
| WorkflowBase.FirstFenceFrom | backend/app/modules/documents/workflows/base.py:228-237 | the closing-fence scan finds the first fence line at or after the start, or runs to the end |
| WorkflowBase.ParseJsonText | backend/app/modules/documents/workflows/base.py:220-241 | the line scan with its mutable start and end agrees with the text the decoder is given |
| WorkflowBase.FirstFenceUnique | backend/app/modules/documents/workflows/base.py:228-237 | the first fence at or after a position is characterised by having no fence before it |
| WorkflowBase.JsonTextUnfenced | backend/app/modules/documents/workflows/base.py:220-223 | a reply that does not open with a fence is decoded from its stripped text |
| WorkflowBase.SplitConcat | backend/app/modules/documents/workflows/base.py:224 | splitting on one character distributes over a concatenation at that character |
| WorkflowBase.FencedLines | backend/app/modules/documents/workflows/base.py:224 | the lines of a fenced block are the opening line, the body's lines and the closing fence |
| WorkflowBase.FencedBody | backend/app/modules/documents/workflows/base.py:228-237 | in a fenced block whose body has no fence line, the closing fence is the first fence after the opening line |
| WorkflowBase.FencedRoundTrip | backend/app/modules/documents/workflows/base.py:204-241 | wrapping a body in a fenced block with any language tag and decoding it gives back the stripped body, provided no body line is itself a fence |
| WorkflowBase.StripKeepsEnds | backend/app/modules/documents/workflows/base.py:241 | a text that starts and ends with a non-space character is already stripped |
| WorkflowBase.DefaultPolish | backend/app/modules/documents/workflows/base.py:177-202 | without Claude, or when the call or the decoding fails, the content comes back unchanged; otherwise the decoded reply replaces it |
| WorkflowBase.FillMissing | backend/app/modules/documents/workflows/dmp.py:112-117 | the loop fills every listed section left empty from the fallback, as the model filling says |
| WorkflowBase.MissingSectionsSpec | backend/app/modules/documents/workflows/dmp.py:112 | a section is missing exactly when it is listed and its value is falsy or absent |
| WorkflowBase.FilledFromSpec | backend/app/modules/documents/workflows/dmp.py:115-117 | every filled section holds its fallback value or `""`, and every other key is untouched |
| WorkflowBase.ChunkParagraphsStep | backend/app/modules/documents/workflows/sap.py:480-485 | one more chunk adds its stripped paragraph unless it is blank |
| WorkflowBase.BuildChunkParagraphs | backend/app/modules/documents/workflows/sap.py:480-485 | the loop over `text.split("\n\n")` adds one paragraph per chunk that is not blank once stripped, in order |
| WorkflowBase.SubValue | backend/app/modules/documents/workflows/base.py:243-307 | the value is taken from the sub-dict when it is a dict holding the key, and is the default otherwise |
| WorkflowBase.StoredNoneIsReturned | backend/app/modules/documents/workflows/base.py:260-262 | a stored `None` is returned as it is, not replaced by the default |
| WorkflowBase.Or3 | backend/app/modules/documents/workflows/base.py:327 | Python's `a or b or c` gives the first truthy operand, else the last, and is truthy exactly when one operand is |
| WorkflowBase.FormatListItems | backend/app/modules/documents/workflows/base.py:309-332 | the accumulate-then-filter loop agrees with the model formatting |
| WorkflowBase.FormattedLength | backend/app/modules/documents/workflows/base.py:321-331 | each item contributes at most one string |
| WorkflowBase.NonEmptySpec | backend/app/modules/documents/workflows/base.py:332 | the filter keeps only non-empty strings and no more than it was given |
| WorkflowBase.NonEmptyKeepsAll | backend/app/modules/documents/workflows/base.py:332 | a list without empty strings passes the filter unchanged |
| WorkflowBase.FormatListItemsBounds | backend/app/modules/documents/workflows/base.py:309-332 | the formatted list has no empty strings and is no longer than the input |
| WorkflowBase.FormattedStrings | backend/app/modules/documents/workflows/base.py:322-324 | non-blank string items come out stripped, one for one, in order |
| WorkflowBase.DictItemPiece | backend/app/modules/documents/workflows/base.py:325-329 | a dict item takes its text from the first truthy of "text", "content" and "name", and contributes nothing when none is truthy |
| IcfGuru.ItemTexts | backend/app/modules/documents/workflows/icf_guru.py:848-849 | a JSON list reply contributes the `str` of each item, one for one |
| IcfGuru.FencedReplyCleans | backend/app/modules/documents/workflows/icf_guru.py:821-853 | a reply wrapped in a code block with any language tag cleans to its stripped body, unless the body looks like JSON |
| IcfGuru.UnfenceFenced | backend/app/modules/documents/workflows/icf_guru.py:832-839 | dropping the fence lines of a fenced block leaves its body |
| IcfGuru.WithoutFencesOfBlock | backend/app/modules/documents/workflows/icf_guru.py:833-838 | with a fence as the first line and the closing fence last, exactly the inner lines remain |
| IcfGuru.PlainReplyCleans | backend/app/modules/documents/workflows/icf_guru.py:829-853 | a reply that neither opens a code block nor looks like JSON is only stripped |
| IcfGuru.JsonContentCleans | backend/app/modules/documents/workflows/icf_guru.py:842-847 | a JSON dict reply gives its stripped "content" string |
| IcfGuru.UndecodableReplyKept | backend/app/modules/documents/workflows/icf_guru.py:844-851 | a reply that looks like JSON but does not decode is kept, stripped |
| IcfGuru.GenerateContent | backend/app/modules/documents/workflows/icf_guru.py:647-749 | the subsections are visited in ascending order and each is skipped, generated, validated or replaced by its fallback, as the model generation says; the closing completeness check only logs |
| IcfGuru.GenerateOne | backend/app/modules/documents/workflows/icf_guru.py:663-738 | one subsection of the loop is handled as the model step says |
| IcfGuru.TryGenerate | backend/app/modules/documents/workflows/icf_guru.py:698-738 | the `try` block keeps valid text, falls back on invalid or failed text when it can, and raises only for a critical subsection without a fallback |
| IcfGuru.ErrorEndsGeneration | backend/app/modules/documents/workflows/icf_guru.py:732-736 | once an error has ended the loop, later subsections change nothing |
| IcfGuru.ValidContentKept | backend/app/modules/documents/workflows/icf_guru.py:705-712 | valid generated text is stored exactly as generated |
| IcfGuru.InvalidContentReplaced | backend/app/modules/documents/workflows/icf_guru.py:713-723 | invalid generated text gives way to the fallback when there is one and is stored anyway when there is none |
| IcfGuru.FailedGeneration | backend/app/modules/documents/workflows/icf_guru.py:725-738 | a failed generation falls back when it can; without a fallback it raises for the critical subsections only and leaves any other subsection out |
| IcfGuru.StepTouchesOwnId | backend/app/modules/documents/workflows/icf_guru.py:663-738 | a step stores at most its own subsection, never a skipped or structural one |
| IcfGuru.StoredKeysComeFromSubsections | backend/app/modules/documents/workflows/icf_guru.py:647-749 | every stored key is the id of a subsection that was visited and neither skipped nor structural |
| IcfGuru.GenerationErrorCause | backend/app/modules/documents/workflows/icf_guru.py:647-749 | generation fails only through a subsection whose data could not be extracted, or a critical subsection that failed without a fallback |
| IcfValidator.TermErrors | backend/app/modules/documents/workflows/icf_guru.py:83-86 | there is one error message per prohibited term found |
| IcfValidator.ValidateSubsection | backend/app/modules/documents/workflows/icf_guru.py:59-93 | the verdict is set and messages appended as each check runs, as the model validation says |
| IcfValidator.ScanProhibited | backend/app/modules/documents/workflows/icf_guru.py:82-86 | the loop over the prohibited terms appends one error per term found, in list order |
| IcfValidator.FoundTermsSpec | backend/app/modules/documents/workflows/icf_guru.py:82-86 | a term is reported exactly when it is a listed term that occurs; no unlisted term is ever reported |
| IcfValidator.SubsectionValidIff | backend/app/modules/documents/workflows/icf_guru.py:59-93 | content is valid exactly when no prohibited term occurs in it, ignoring case, and it is not too short; the paragraph count never affects the verdict |
| IcfValidator.OneErrorPerTerm | backend/app/modules/documents/workflows/icf_guru.py:82-86 | each prohibited term found adds its own error, in list order |
| IcfValidator.LowerKeepsOccurrence | backend/app/modules/documents/workflows/icf_guru.py:82 | lower-casing turns an occurrence of any casing of a lower-case term into an occurrence of the term |
| IcfValidator.ProhibitedInAnyCase | backend/app/modules/documents/workflows/icf_guru.py:82-86 | a prohibited term in any mix of (ASCII) cases makes the content invalid |
| IcfValidator.StructuralSkipsLengthChecks | backend/app/modules/documents/workflows/icf_guru.py:74-91 | structural subsections (no paragraph limit) are never warned about and never too short |
| IcfValidator.ExceedingWarnsOnly | backend/app/modules/documents/workflows/icf_guru.py:74-79 | too many paragraphs only warns and never adds an error |
| IcfValidator.MissingErrors | backend/app/modules/documents/workflows/icf_guru.py:114-117 | there is one error message per missing required subsection |
| IcfValidator.ValidateCompleteIcf | backend/app/modules/documents/workflows/icf_guru.py:95-119 | the completeness result lists each required subsection that is absent or empty, and is valid exactly when none is |
| IcfValidator.CheckRequired | backend/app/modules/documents/workflows/icf_guru.py:113-117 | the loop adds one error per required key that is absent or empty |
| IcfValidator.MissingKeysSpec | backend/app/modules/documents/workflows/icf_guru.py:113-117 | a key is reported missing exactly when it is required and absent or empty |
| IcfValidator.CompleteIff | backend/app/modules/documents/workflows/icf_guru.py:95-119 | the form is complete exactly when all five required subsections are present and non-empty |
| IcfAssembler.TextToParagraphs | backend/app/modules/documents/workflows/icf_guru.py:588-598 | one paragraph block per non-blank chunk between blank lines |
| IcfAssembler.TextToParagraphsSpec | backend/app/modules/documents/workflows/icf_guru.py:588-598 | every block is a paragraph holding a stripped, non-empty chunk |
| IcfAssembler.BlankTextNoParagraphs | backend/app/modules/documents/workflows/icf_guru.py:588-598 | a text that is only whitespace gives no paragraphs |
| IcfAssembler.JoinBlank | backend/app/modules/documents/workflows/icf_guru.py:588-598 | when a join is blank, so is every piece |
| IcfAssembler.TextToBulletList | backend/app/modules/documents/workflows/icf_guru.py:600-610 | one item per bullet line; without any, the whole stripped text is the single item |
| IcfAssembler.BulletLineKept | backend/app/modules/documents/workflows/icf_guru.py:600-610 | every bullet line contributes its item |
| IcfAssembler.BulletItemFromLine | backend/app/modules/documents/workflows/icf_guru.py:600-610 | every item comes from a bullet line |
| IcfAssembler.BulletFallback | backend/app/modules/documents/workflows/icf_guru.py:607-610 | without a single bullet line the list falls back to the stripped text |
| IcfAssembler.FirstCharSurvives | backend/app/modules/documents/workflows/icf_guru.py:602-606 | stripping never removes a first character outside the stripped set |
| IcfAssembler.BulletGlyphKept | backend/app/modules/documents/workflows/icf_guru.py:602-606 | a "•" line is a bullet line and its item keeps the glyph |
| IcfAssembler.DashMarkerDropped | backend/app/modules/documents/workflows/icf_guru.py:602-606 | a "- " line is a bullet line and its dash marker is dropped |
| IcfAssembler.HeaderBlocksSpec | backend/app/modules/documents/workflows/icf_guru.py:356-386 | the header always starts with the study title; the protocol and sponsor lines appear exactly when their values are truthy |
| IcfAssembler.GivenParagraphsEmptyIff | backend/app/modules/documents/workflows/icf_guru.py:184-354 | a gathered question gives no paragraphs exactly when none of its texts is truthy with a paragraph |
| IcfAssembler.QuestionSectionIff | backend/app/modules/documents/workflows/icf_guru.py:184-354 | a single-text question appears exactly when its text is truthy; a gathered one exactly when some truthy text has a paragraph |
| IcfAssembler.WhitespaceOnlyText | backend/app/modules/documents/workflows/icf_guru.py:184-354 | on whitespace-only text a single-text question still appears with no blocks, while a gathered one does not |
| IcfAssembler.BuildRisksSection | backend/app/modules/documents/workflows/icf_guru.py:388-505 | the risks section agrees with the model section built part by part |
| IcfAssembler.AddPart | backend/app/modules/documents/workflows/icf_guru.py:388-505 | one part adds its heading, then its text as a bullet list or as paragraphs |
| IcfAssembler.AddParts | backend/app/modules/documents/workflows/icf_guru.py:388-505 | the parts are added one after the other |
| IcfAssembler.PartsBlocksEmptyIff | backend/app/modules/documents/workflows/icf_guru.py:388-505 | the parts give no block exactly when every part's text is missing or empty |
| IcfAssembler.RisksSectionNoneIff | backend/app/modules/documents/workflows/icf_guru.py:388-505 | there is no risks section exactly when the introduction gives no paragraph and every part's text is missing or empty |
| IcfAssembler.Present | backend/app/modules/documents/workflows/icf_guru.py:184-354 | the sections of the questions whose content is there, in order |
| IcfAssembler.BuildInvitation | backend/app/modules/documents/workflows/icf_guru.py:196-209 | the invitation holds the header blocks, then the invitation and preamble texts when they are truthy |
| IcfAssembler.AddGiven | backend/app/modules/documents/workflows/icf_guru.py:184-354 | a truthy text appends its paragraphs, and any other leaves the blocks unchanged |
| IcfAssembler.AppendSingle | backend/app/modules/documents/workflows/icf_guru.py:184-354 | a single-text question appends its section exactly when its text is truthy |
| IcfAssembler.AppendGroup | backend/app/modules/documents/workflows/icf_guru.py:184-354 | a gathered question appends the paragraphs of its subsections, key by key, and the section only when there are any |
| IcfAssembler.AppendQuestion | backend/app/modules/documents/workflows/icf_guru.py:184-354 | one question of either kind is appended as the model says |
| IcfAssembler.AppendQuestions | backend/app/modules/documents/workflows/icf_guru.py:184-354 | a run of questions appends their sections in order |
| IcfAssembler.BuildSections | backend/app/modules/documents/workflows/icf_guru.py:184-354 | the sections are appended in document order, as the model section list says |
| IcfAssembler.SectionsEnds | backend/app/modules/documents/workflows/icf_guru.py:184-354 | the invitation always comes first and the contact section then the signature page always close the form, with at most one section per question and one for the risks between |
| IcfAssembler.SectionListSize | backend/app/modules/documents/workflows/icf_guru.py:184-354 | the consent form has between 3 and 17 sections |
| IcfAssembler.QuestionIncluded | backend/app/modules/documents/workflows/icf_guru.py:184-354 | every question whose content is there has its section in the form |
| IcfAssembler.SectionsMembers | backend/app/modules/documents/workflows/icf_guru.py:184-354 | every section is the invitation, the contact section, the signature page, the risks section, or a question whose content is there |
| IcfAssembler.AssembleOkIff | backend/app/modules/documents/workflows/icf_guru.py:129-182 | the form is built exactly when the metadata is a dict whose title, protocol number and sponsor are strings or None |
| IcfAssembler.AssembleSpec | backend/app/modules/documents/workflows/icf_guru.py:129-182 | a built form has the fixed type and title, the metadata fields, the section list, and a "Protocol:" header line exactly when there is a protocol number |
| IcfSubsections.GetSubsection | backend/app/modules/documents/workflows/icf_guru_subsections.py:485-487 | a found definition is in the registry with the requested id; none is found exactly when no definition has it |
| IcfSubsections.InsertKeepsSorted | backend/app/modules/documents/workflows/icf_guru_subsections.py:489-491 | inserting a definition by order into a sorted list keeps it sorted |
| IcfSubsections.InsertKeepsElements | backend/app/modules/documents/workflows/icf_guru_subsections.py:489-491 | inserting adds exactly the one definition |
| IcfSubsections.OrderedIsSorted | backend/app/modules/documents/workflows/icf_guru_subsections.py:489-491 | the ordered list is sorted by ascending order |
| IcfSubsections.OrderedIsPermutation | backend/app/modules/documents/workflows/icf_guru_subsections.py:489-491 | the ordered list holds every definition exactly as often as the registry does |
| IcfSubsections.OrderedStrictly | backend/app/modules/documents/workflows/icf_guru_subsections.py:489-491 | without ties in the orders, the ordered list is strictly ascending |
| IcfSubsections.OrderedFirst | backend/app/modules/documents/workflows/icf_guru_subsections.py:489-491 | a definition whose order is below every other comes first |
| IcfSubsections.OrderedLast | backend/app/modules/documents/workflows/icf_guru_subsections.py:489-491 | a definition whose order is above every other comes last |
| IcfSubsections.GetNestedValue | backend/app/modules/documents/workflows/icf_guru_subsections.py:557-581 | the loop that reassigns the value key by key agrees with the model walk along the dotted path |
| IcfSubsections.NestedValueAppend | backend/app/modules/documents/workflows/icf_guru_subsections.py:570-581 | a walk along a concatenated path is the walk along the first part, continued unless it already gave up |
| IcfSubsections.NestedValueTwoLevels | backend/app/modules/documents/workflows/icf_guru_subsections.py:557-581 | a value two levels down is found, and `None` is found for a missing outer or inner key |
| IcfSubsections.ShouldSkip | backend/app/modules/documents/workflows/icf_guru_subsections.py:532-555 | the early-return loop agrees with the model skip rule |
| IcfSubsections.SingleCondition | backend/app/modules/documents/workflows/icf_guru_subsections.py:545-555 | a definition with one condition skips exactly when the value found along its path is one of the condition's values |
| IcfSubsections.FilterAdverseEvents | backend/app/modules/documents/workflows/icf_guru_subsections.py:583-623 | the filtering loop agrees with the model filter, including the error of a non-dict event |
| IcfSubsections.SubsequenceExtend | backend/app/modules/documents/workflows/icf_guru_subsections.py:601-623 | extending the input list keeps the sub-list relation |
| IcfSubsections.SubsequenceSnoc | backend/app/modules/documents/workflows/icf_guru_subsections.py:601-623 | extending both lists by the same event keeps the relation |
| IcfSubsections.ErrorStops | backend/app/modules/documents/workflows/icf_guru_subsections.py:603-604 | once a prefix raises, the whole loop raises the same error |
| IcfSubsections.FilteredEventsSpec | backend/app/modules/documents/workflows/icf_guru_subsections.py:583-623 | what passes the filter is an order-preserving sub-list of the input, and every event kept is a dict whose frequency passes |
| IcfSubsections.UnknownFilterKeepsNothing | backend/app/modules/documents/workflows/icf_guru_subsections.py:605-623 | an unrecognised filter keeps nothing |
| IcfSubsections.UncommonPassesCommonFilter | backend/app/modules/documents/workflows/icf_guru_subsections.py:614-616 | the "1-10%" filter also keeps "uncommon" events that do not say "very" |
| IcfSubsections.VeryCommonIsVeryCommon | backend/app/modules/documents/workflows/icf_guru_subsections.py:607-611 | a frequency that says "very common" passes the ">10%" filter |
| IcfSubsections.ExtractRelevantData | backend/app/modules/documents/workflows/icf_guru_subsections.py:493-530 | extraction agrees with the model relevant data, including the filter's error |
| IcfSubsections.CollectedValuesFound | backend/app/modules/documents/workflows/icf_guru_subsections.py:516-521 | every collected value is one that was found, never `None` |
| IcfSubsections.CollectedKeyOrigin | backend/app/modules/documents/workflows/icf_guru_subsections.py:516-521 | every collected key is the last segment of a required path and holds the value found along a path with that last segment |
| IcfSubsections.CollectedHasFound | backend/app/modules/documents/workflows/icf_guru_subsections.py:516-521 | a path whose value is found always contributes its last segment |
| IcfSubsections.RelevantDataUnknownId | backend/app/modules/documents/workflows/icf_guru_subsections.py:510-512 | an id the registry does not know gives the empty dict |
| IcfSubsections.RelevantDataUnfiltered | backend/app/modules/documents/workflows/icf_guru_subsections.py:514-530 | without a frequency filter the relevant data is exactly what was collected |
| IcfSubsections.SplitAtChar | backend/app/modules/documents/workflows/icf_guru_subsections.py:570 | a path with one dot splits into its two keys |
| IcfSubsections.SplitWithoutChar | backend/app/modules/documents/workflows/icf_guru_subsections.py:570 | a path without a dot is a single key |
| IcfSubsections.GetSubsectionAt | backend/app/modules/documents/workflows/icf_guru_subsections.py:485-487 | the look-up finds the first definition with the id |
| IcfSubsections.RegistryOrderBounds | backend/app/modules/documents/workflows/icf_guru_subsections.py:50-483 | the registry has 31 subsections, every order lies between the header's and voluntary participation's |
| IcfSubsections.RegistryOrdersDistinct | backend/app/modules/documents/workflows/icf_guru_subsections.py:50-491 | no two subsections share an order, so the rendering order is strictly ascending and does not depend on the stability of the sort |
| IcfSubsections.OrderedEnds | backend/app/modules/documents/workflows/icf_guru_subsections.py:489-491 | the lowest order leads and the highest order closes the rendering order |
| IcfSubsections.RegistryExtremes | backend/app/modules/documents/workflows/icf_guru_subsections.py:50-483 | the header's order is the lowest of the registry and voluntary participation's the highest |
| IcfSubsections.RegistryFirstAndLast | backend/app/modules/documents/workflows/icf_guru_subsections.py:50-491 | the rendering order has 31 entries, opens with the document header and closes with voluntary participation |
| IcfSubsections.SkipsOnTwoKeys | backend/app/modules/documents/workflows/icf_guru_subsections.py:545-581 | a definition with one condition on a two-key path skips exactly when the value found along the two keys is one of its values |
| IcfSubsections.SkipsOnKey | backend/app/modules/documents/workflows/icf_guru_subsections.py:545-581 | a definition with one condition on a key without a dot skips exactly when that key holds one of its values |
| IcfSubsections.RandomizationEntry | backend/app/modules/documents/workflows/icf_guru_subsections.py:220-232 | the randomization subsection and its one condition on `design.blinding` |
| IcfSubsections.BlindingMissingSkipsRandomization | backend/app/modules/documents/workflows/icf_guru_subsections.py:220-232 | randomization is skipped exactly when `design.blinding` is "open" or absent, so a protocol without a design has no randomization subsection |
| IcfSubsections.FrequencyEntries | backend/app/modules/documents/workflows/icf_guru_subsections.py:295-327 | the three frequency subsections each carry the one condition on `adverse_events_filtered` |
| IcfSubsections.AdverseEventsFilteredNeedsLiteralKey | backend/app/modules/documents/workflows/icf_guru_subsections.py:295-327 | the frequency subsections are skipped only when the literal key `adverse_events_filtered` holds "empty", which no protocol field sets |
| Sap.RunBuilders | backend/app/modules/documents/workflows/sap.py:262-318 | the builders that hold loops run as methods and together agree with the model builders |
| Sap.BuildSections | backend/app/modules/documents/workflows/sap.py:262-318 | the sections are appended builder by builder, and an exception from a builder ends the build, as the model run says |
| Sap.ErrorPersists | backend/app/modules/documents/workflows/sap.py:262-318 | once a prefix of the builders fails, the whole run fails with the same error |
| Sap.SectionsSpec | backend/app/modules/documents/workflows/sap.py:262-318 | a successful run holds exactly what each builder returned, one section per builder, in order |
| Sap.SectionsFailIff | backend/app/modules/documents/workflows/sap.py:262-318 | the run fails exactly when one of the builders does, and then with the error of the first that fails |
| Sap.BuildersIdentified | backend/app/modules/documents/workflows/sap.py:320-1256 | every builder gives its own section id and heading |
| Sap.PartIdentified | backend/app/modules/documents/workflows/sap.py:262-318 | with identified builders, every section carries the id and heading of its builder, at level 1 |
| Sap.SectionsInOrder | backend/app/modules/documents/workflows/sap.py:262-318 | a successful run yields the thirteen sections from the title page to the signatures, in order, each with its builder's id and heading, at level 1 |
| Sap.WhichPartsFail | backend/app/modules/documents/workflows/sap.py:320-1256 | the fixed sections never fail, nor do the builders outside the model when they succeed; the content-driven sections fail exactly as their builders do |
| Sap.DocumentSpec | backend/app/modules/documents/workflows/sap.py:203-260 | a built plan is of type "sap", its header names the protocol number when there is one, its page numbers count the total, its metadata carries the protocol's fields and its sections are those built |
| Sap.DocumentFails | backend/app/modules/documents/workflows/sap.py:203-260 | a protocol field that is neither a string nor None fails metadata validation whatever the sections; otherwise the document fails exactly when the sections do |
| Sap.DocumentSections | backend/app/modules/documents/workflows/sap.py:203-318 | a plan built from identified builders has the thirteen sections in order |
| SapContent.GenerateFrom | backend/app/modules/documents/workflows/sap.py:84-130 | the steps of generation, given the endpoint lookup and the fallback, agree with the model outcome: fallback without a client or on an undecodable reply, a wrapped error on a failed call, a scalar, list or string reply, non-dict endpoints or a failing fallback that was needed, and otherwise the completed dict |
| SapContent.GenerateContent | backend/app/modules/documents/workflows/sap.py:68-130 | generation agrees with the model outcome of the call, the decoding and the protocol data |
| SapContent.WithVerbatimSpec | backend/app/modules/documents/workflows/sap.py:103-107 | after the overwrite the three endpoint keys hold the protocol's lists (an empty list when absent); every other key is kept as it was |
| SapContent.WithVerbatimKeepsRequired | backend/app/modules/documents/workflows/sap.py:103-107 | the endpoint overwrite keeps the required sections |
| SapContent.CompletedSpec | backend/app/modules/documents/workflows/sap.py:103-121 | after generation the three endpoint keys hold the protocol's lists; each required section is the generated value when truthy and the fallback's (or "") otherwise; every other key is as generated |
| SapContent.RequiredSectionsPresent | backend/app/modules/documents/workflows/sap.py:109-121 | when the fallback has every required section, so does the result |
| SapContent.NothingMissing | backend/app/modules/documents/workflows/sap.py:109-117 | a dict with no required section falsy or absent has all four, each truthy |
| SapContent.GeneratedOutcome | backend/app/modules/documents/workflows/sap.py:84-130 | with a fallback that fails exactly when the endpoints do, generation fails exactly when the call fails, the reply decodes to something other than a dict, or the endpoints are not a dict; without a client and on an undecodable reply the outcome is the fallback's |
| SapContent.GenerationErrorWrapped | backend/app/modules/documents/workflows/sap.py:93-130 | every failure inside the `try` (a client, and a reply that decodes) is a message starting "Failed to generate SAP content: " |
| SapContent.GeneratedHasRequired | backend/app/modules/documents/workflows/sap.py:103-123 | with a fallback that has them, a successful generation has the four required sections, each truthy, and the three endpoint lists as the endpoints give them |
| SapContent.GeneratedContentOutcome | backend/app/modules/documents/workflows/sap.py:68-130 | generation of the plan fails exactly when the call fails, the reply decodes to something other than a dict, or the protocol's endpoints are not a dict, with or without a client |
| SapContent.GeneratedContentFallback | backend/app/modules/documents/workflows/sap.py:84-86 | without a client, or on a reply that does not decode, the content is the fallback's, its error included |
| SapContent.GeneratedContentHasRequired | backend/app/modules/documents/workflows/sap.py:68-130 | whatever the reply and the protocol data, a successful generation has the four required sections, each truthy, and the protocol's three endpoint lists |
| SapContent.FallbackContentSpec | backend/app/modules/documents/workflows/sap.py:1258-1348 | the fallback fails exactly when the protocol's endpoints are not a dict; otherwise it has the four required sections, each truthy, and the protocol's three endpoint lists |
| SapContent.FallbackFails | backend/app/modules/documents/workflows/sap.py:1270-1274 | the fallback fails exactly when the protocol's endpoints are not a dict |
| SapContent.FallbackFromSpec | backend/app/modules/documents/workflows/sap.py:1276-1348 | with dict endpoints the fallback has the four required sections, each truthy, and the three endpoint lists as given |
| SapContent.FallbackFromHasRequired | backend/app/modules/documents/workflows/sap.py:1276-1348 | the introduction, design summary, populations and methods of the fallback are present and truthy, whatever the protocol's metadata |
| SapContent.FallbackFromVerbatim | backend/app/modules/documents/workflows/sap.py:1293-1295 | the fallback's endpoint lists are the protocol's, an empty list when absent |
| SapContent.FallbackMapHasRequired | backend/app/modules/documents/workflows/sap.py:1276-1348 | the fallback dict has the four required sections when its introduction, design summary, populations and methods are truthy |
| SapTexts.FallbackTextsNonEmpty | backend/app/modules/documents/workflows/sap.py:1277-1300 | the fallback introduction and design summary are non-empty whatever the protocol values spliced in |
| SapContent.PolishContent | backend/app/modules/documents/workflows/sap.py:132-201 | polishing agrees with the model polish |
| SapContent.VerbatimSuffixes | backend/app/modules/documents/workflows/sap.py:148-158 | the three endpoint keys all end in "_verbatim" |
| SapContent.PolishSeesNoVerbatim | backend/app/modules/documents/workflows/sap.py:148-158 | the polishing prompt sees every key except the "_verbatim" ones, with their values |
| SapContent.VerbatimSurvivesPolish | backend/app/modules/documents/workflows/sap.py:132-201 | whatever the polish step does, the three endpoint lists read the same afterwards |
| SapContent.PolishOutcome | backend/app/modules/documents/workflows/sap.py:132-201 | without Claude, on a failed call or on a reply that is not a JSON dict, the content comes back unchanged; otherwise every other key is the polished one |
| SapSections.TitlePagePhase | backend/app/modules/documents/workflows/sap.py:320-414 | some title-page block starts with "Phase: " exactly when the protocol's phase is non-empty; it is the sixth block, and without it the page has one block fewer |
| SapSections.BuildIntroduction | backend/app/modules/documents/workflows/sap.py:461-507 | the introduction agrees with the model section |
| SapSections.IntroductionBlocksSpec | backend/app/modules/documents/workflows/sap.py:479-507 | one stripped, non-empty paragraph per paragraph of the text, in order, then the reference |
| SapSections.IntroductionTextSpec | backend/app/modules/documents/workflows/sap.py:461-478 | a falsy introduction is replaced by the default text naming the protocol; a truthy value that is not a string is an error |
| SapSections.BuildEndpointBlocks | backend/app/modules/documents/workflows/sap.py:509-668 | one endpoint subsection's blocks agree with the model |
| SapSections.BuildTopicSections | backend/app/modules/documents/workflows/sap.py:509-668 | the endpoint topic subsections agree with the model |
| SapSections.BuildExploratorySections | backend/app/modules/documents/workflows/sap.py:509-668 | the exploratory subsection agrees with the model |
| SapSections.BuildEndpoints | backend/app/modules/documents/workflows/sap.py:509-668 | the endpoints section agrees with the model |
| SapSections.TopicLayout | backend/app/modules/documents/workflows/sap.py:509-668 | an endpoint subsection lists its endpoints as a decimal numbered list exactly when the list is non-empty, and shows the placeholder otherwise |
| SapSections.EndpointsLayout | backend/app/modules/documents/workflows/sap.py:509-668 | sections 2.1 to 2.4 are always there, in order; 2.5 is there exactly when the exploratory list is non-empty |
| SapSections.EndpointListsOrPlaceholders | backend/app/modules/documents/workflows/sap.py:509-668 | the primary and secondary endpoint subsections follow the list-or-placeholder rule |
| SapSections.EndpointsListedVerbatim | backend/app/modules/documents/workflows/sap.py:509-668 | endpoints given as non-blank strings are listed one for one, in order, stripped: nothing is reworded |
| SapSections.BuildMissingDataBlocks | backend/app/modules/documents/workflows/sap.py:967-1011 | the loop over the chunks agrees with the model blocks |
| SapSections.BuildMissingData | backend/app/modules/documents/workflows/sap.py:967-1011 | the missing-data section agrees with the model |
| SapSections.BulletLinesStripped | backend/app/modules/documents/workflows/sap.py:967-1011 | each non-blank line gives at most one item, with whitespace and leading dashes removed |
| SapSections.BulletLinesAll | backend/app/modules/documents/workflows/sap.py:967-1011 | when no line is blank, every line gives its item, in order |
| SapSections.MissingDataBlocksSpec | backend/app/modules/documents/workflows/sap.py:967-1011 | one block per blank-line chunk, empty chunks included, then the closing paragraph; a chunk starting with "-" becomes a bullet list, any other a paragraph |
| SapSections.BlankChunkKept | backend/app/modules/documents/workflows/sap.py:967-1011 | an empty or blank chunk is kept as an empty paragraph |
| SapSections.WithPrefixSpec | backend/app/modules/documents/workflows/sap.py:1067-1178 | the shells kept for a prefix are exactly those that start with it, ignoring case, in order |
| SapSections.PartitionSize | backend/app/modules/documents/workflows/sap.py:1067-1178 | the three groups together hold no more entries than there are shells |
| SapSections.ShellsPartitioned | backend/app/modules/documents/workflows/sap.py:1067-1178 | a shell lands in a group exactly when it starts with one of the three prefixes; others are dropped |
| SapSections.TlfPlaceholders | backend/app/modules/documents/workflows/sap.py:1067-1178 | empty listings and figures get a placeholder; empty tables get nothing, so "9.1 Tables" is followed directly by "9.2 Listings" |
| SapSections.TitlePageShape | backend/app/modules/documents/workflows/sap.py:320-414 | the title page builder returns its own id and heading, at level 1 |
| SapSections.IntroductionShape | backend/app/modules/documents/workflows/sap.py:461-507 | the introduction builder returns its own id and heading, at level 1 |
| SapSections.EndpointsShape | backend/app/modules/documents/workflows/sap.py:509-668 | the endpoints builder returns its own id and heading, at level 1 |
| SapSections.MissingDataShape | backend/app/modules/documents/workflows/sap.py:967-1011 | the missing-data builder returns its own id and heading, at level 1 |
| SapSections.TlfShape | backend/app/modules/documents/workflows/sap.py:1067-1178 | the TLF builder returns its own id and heading, at level 1 |
| Dmp.FallbackMapHasRequired | backend/app/modules/documents/workflows/dmp.py:735-851 | the fallback content has every required section when its texts are non-empty |
| Dmp.FallbackHasRequired | backend/app/modules/documents/workflows/dmp.py:735-851 | whatever the protocol data, the fallback content has each of the eight required sections as a non-empty text |
| Dmp.FallbackWithHasRequired | backend/app/modules/documents/workflows/dmp.py:735-851 | with non-empty protocol texts, the fallback content has every required section |
| Dmp.GenerateFrom | backend/app/modules/documents/workflows/dmp.py:82-126 | the steps after the fallback is known agree with the model outcome |
| Dmp.GenerateContent | backend/app/modules/documents/workflows/dmp.py:69-126 | generation agrees with the model outcome of the call and the decoding |
| Dmp.CompletedSpec | backend/app/modules/documents/workflows/dmp.py:101-119 | each required section is the generated value when truthy and the fallback's (or "") otherwise; every other key is as generated |
| Dmp.GeneratedHasRequired | backend/app/modules/documents/workflows/dmp.py:69-126 | with a fallback that has them, successful generation delivers every required section non-empty, whatever the reply |
| Dmp.GeneratedOutcome | backend/app/modules/documents/workflows/dmp.py:69-126 | generation fails exactly when the call fails or the reply decodes to something that is not a dict; a missing client or an undecodable reply gives the fallback |
| Dmp.GeneratedContentHasRequired | backend/app/modules/documents/workflows/dmp.py:69-126 | successful generation delivers every required section non-empty, whatever the reply and the protocol data |
| Dmp.TitlePageShape | backend/app/modules/documents/workflows/dmp.py:266-338 | the title page is the level-1 section "title_page", its lines naming the protocol, study and sponsor, with placeholders where the metadata lacks them |
| Dmp.BuildNumberedSection | backend/app/modules/documents/workflows/dmp.py:385-420 | the numbered section agrees with the model |
| Dmp.NumberedSectionSpec | backend/app/modules/documents/workflows/dmp.py:385-420 | a numbered section sits at level 1 under "{num}. {heading}" and holds one stripped, non-empty paragraph per paragraph of its text, in order, with 6 points after each |
| Dmp.BuildTextParagraphs | backend/app/modules/documents/workflows/dmp.py:385-420 | the paragraph loop agrees with the model paragraphs, and fails on a truthy text that is not a string |
| Dmp.BuildRolesSection | backend/app/modules/documents/workflows/dmp.py:422-502 | the roles section agrees with the model |
| Dmp.RolesTableShape | backend/app/modules/documents/workflows/dmp.py:422-502 | the roles table has three columns and six rows of three cells |
| Dmp.RolesSectionSpec | backend/app/modules/documents/workflows/dmp.py:422-502 | the roles section holds the paragraphs of its text, then the two numbered sub-headings around the six-row roles table; it fails only on a truthy text that is not a string |
| Dmp.BuildCodingSection | backend/app/modules/documents/workflows/dmp.py:504-623 | the coding section agrees with the model |
| Dmp.CodingSectionSpec | backend/app/modules/documents/workflows/dmp.py:504-623 | the default paragraph stands first exactly when the coding text is falsy; a truthy text gives its own paragraphs, so a text of blanks gives none; the dictionary table follows |
| Dmp.DictionaryTableRows | backend/app/modules/documents/workflows/dmp.py:504-623 | the dictionary table names MedDRA 26.1 for adverse events and medical history, and WHODrug Global March 2024 for medications |
| Dmp.BlankHasNoParagraphs | backend/app/modules/documents/workflows/dmp.py:527-535 | a text of blanks yields no paragraphs |
| Dmp.Truncated | backend/app/modules/documents/workflows/dmp.py:654 | `s[:100]` keeps a prefix of at most the bound, the whole text when it fits |
| Dmp.BuildRows | backend/app/modules/documents/workflows/dmp.py:649-661 | the row loop of either appendix gives one row per item, in order, and stops at the first item whose row fails |
| Dmp.BuildAppendix | backend/app/modules/documents/workflows/dmp.py:625-733 | the appendix loop and the `TableBlock` validation agree with the model appendix |
| Dmp.DictTimingRow | backend/app/modules/documents/workflows/dmp.py:650-661 | a visit `{"name": "V1", "timing": {}}` gets the row "V1", the default `TableCell`, "N/A", "See protocol" |
| Dmp.DictTimingCells | backend/app/core/docengine/schema.py:85 | the entries "V1", `{}`, "N/A", "See protocol" validate as three text cells around the default `TableCell` |
| Dmp.VisitRowSpec | backend/app/modules/documents/workflows/dmp.py:650-661 | a visit's window is kept when truthy and is "N/A" otherwise; its procedures cell is the joined list cut to 100 characters, and "See protocol" when that is empty |
| Dmp.VisitProceduresBounded | backend/app/modules/documents/workflows/dmp.py:654 | the procedures cell never exceeds 100 characters, and a list of names joins with ", " between them |
| Dmp.ProcedureRowSpec | backend/app/modules/documents/workflows/dmp.py:705-716 | the CRF page and collection method take their defaults only when the key is absent, and falsy notes become "-" |
| Dmp.AppendixSpec | backend/app/modules/documents/workflows/dmp.py:625-733 | a truthy list gives a page break and a four-column table with one row per item, each cell what the item's row entry validates as, a text or a `TableCell`; a falsy list gives the "not available" paragraph |
| Dmp.AppendixFails | backend/app/modules/documents/workflows/dmp.py:625-733 | an appendix fails exactly when the list is truthy and cannot be iterated, has an item whose row fails, or yields an entry that validates neither as a string nor as a `TableCell` |
| Dmp.AppendixIdentified | backend/app/modules/documents/workflows/dmp.py:625-733 | either appendix carries its id and heading at level 1, whether it lists its items or not |
| Dmp.RunBuilders | backend/app/modules/documents/workflows/dmp.py:187-264 | the builders, the looping ones as methods, agree with the model builders |
| Dmp.BuildConfigSection | backend/app/modules/documents/workflows/dmp.py:187-264 | one configured section agrees with the model |
| Dmp.BuildConfigSections | backend/app/modules/documents/workflows/dmp.py:187-264 | the loop over the fifteen configured sections stops at the first that raises |
| Dmp.BuildSections | backend/app/modules/documents/workflows/dmp.py:187-264 | the section list agrees with the model |
| Dmp.BuildVisitAppendix | backend/app/modules/documents/workflows/dmp.py:625-678 | the visit appendix agrees with the model appendix, dict entries validated as `TableCell`s |
| Dmp.BuildProcedureAppendix | backend/app/modules/documents/workflows/dmp.py:680-733 | the procedure appendix agrees with the model appendix, dict entries validated as `TableCell`s |
| Dmp.RolesSectionIdentified | backend/app/modules/documents/workflows/dmp.py:422-502 | the roles section carries the id and numbered heading it is given |
| Dmp.CodingSectionIdentified | backend/app/modules/documents/workflows/dmp.py:504-623 | the coding section carries the id and numbered heading it is given |
| Dmp.BuildersIdentified | backend/app/modules/documents/workflows/dmp.py:187-264 | between them, the builders identify their sections |
| Dmp.SpecialEntries | backend/app/modules/documents/workflows/dmp.py:187-264 | only the third configured entry is the roles section and only the seventh the coding section |
| Dmp.ConfigSectionShape | backend/app/modules/documents/workflows/dmp.py:187-264 | with identified builders, every configured section is level 1 under its entry's id and numbered heading |
| Dmp.ConfigSectionFails | backend/app/modules/documents/workflows/dmp.py:187-264 | a roles or coding entry fails exactly as its builder did; any other fails exactly when its text is truthy and not a string |
| Dmp.SectionsLayout | backend/app/modules/documents/workflows/dmp.py:187-264 | a successful list is the front matter, the configured sections and the appendices, in that order |
| Dmp.ConfiguredShape | backend/app/modules/documents/workflows/dmp.py:187-264 | the configured sections carry their entries' ids and numbered headings, at level 1, in order |
| Dmp.SectionsShape | backend/app/modules/documents/workflows/dmp.py:187-264 | a built list starts with the title page, version history and contents, continues with the fifteen numbered sections in their configured order, and ends with the visit and procedure appendices |
| Dmp.SectionsEnds | backend/app/modules/documents/workflows/dmp.py:187-264 | the front matter and the appendices of a successful list |
| Dmp.SectionsConfigured | backend/app/modules/documents/workflows/dmp.py:187-264 | the middle of a successful list is the configured sections, in order |
| Dmp.FrontIds | backend/app/modules/documents/workflows/dmp.py:266-383 | the front matter is three sections, starting with the title page |
| Dmp.SectionsFail | backend/app/modules/documents/workflows/dmp.py:187-264 | the list fails exactly when a configured section or an appendix fails; the configured sections are tried first |
| Dmp.DocumentSpec | backend/app/modules/documents/workflows/dmp.py:128-185 | a built plan is of type "dmp" with total page numbers, a header naming the protocol number when there is one, the protocol's metadata and exactly the built sections |
| Dmp.DocumentFails | backend/app/modules/documents/workflows/dmp.py:128-185 | a metadata field that is neither a string nor None fails the document whatever the sections; otherwise it fails exactly when the sections do |
| Dmp.DocumentSections | backend/app/modules/documents/workflows/dmp.py:128-264 | a plan built from identified builders holds the front matter, the fifteen numbered sections in order and the appendices |
| Dmp.DocumentKeepsSections | backend/app/modules/documents/workflows/dmp.py:128-185 | a built document holds exactly the sections it is given |
| DmpTexts.PurposeFallback | backend/app/modules/documents/workflows/dmp.py:753-760 | the fallback purpose and scope is never empty, whatever the protocol number |
| DmpTexts.StudyInformationFallback | backend/app/modules/documents/workflows/dmp.py:747-851 | the fallback study information is never empty, whatever the study type, indication and enrolment |
| DmpTexts.RequiredFallbacksNonEmpty | backend/app/modules/documents/workflows/dmp.py:752-851 | the six fixed fallback texts of required sections are all non-empty |
| AeBuckets.Append | backend/app/modules/documents/workflows/icf_legacy.py:514-524 | appending a term grows the bucket of its band by that term and leaves every other bucket alone |
| AeBuckets.SortedBucket | backend/app/modules/documents/workflows/icf_legacy.py:495-526 | each bucket holds exactly the terms of the events of its band, in input order |
| AeBuckets.SortedPartition | backend/app/modules/documents/workflows/icf_legacy.py:495-526 | every filed event lands in exactly one bucket: together the buckets hold each term as often as the events do |
| AeBuckets.SortEvents | backend/app/modules/documents/workflows/icf_legacy.py:495-526 | the loop that classifies each event and appends its term agrees with the model buckets, and stops at the first event that raises |
| AeBuckets.FilingPersists | backend/app/modules/documents/workflows/icf_legacy.py:503-526 | once an event raises, the whole loop raises the same error |
| AeBuckets.FilingFailsIff | backend/app/modules/documents/workflows/icf_legacy.py:503-526 | the loop raises exactly when some event's classification does |
| AeBuckets.UncommonHoldsCommon | backend/app/modules/documents/workflows/icf_legacy.py:517-519 | every frequency containing "uncommon" also passes the test for "common" |
| AeBuckets.RangesHoldTenPercent | backend/app/modules/documents/workflows/icf_legacy.py:515-517 | every frequency containing "1-10%", "1%-10%" or ">10%" also contains "10%" |
| IcfLegacy.OrganizeAdverseEvents | backend/app/modules/documents/workflows/icf_legacy.py:485-526 | organizing the events agrees with the model buckets |
| IcfLegacy.FilingStep | backend/app/modules/documents/workflows/icf_legacy.py:503-526 | one more event is filed exactly when it is accepted: a dict with a truthy term |
| IcfLegacy.FilingKeepsAccepted | backend/app/modules/documents/workflows/icf_legacy.py:503-526 | a successful loop files every accepted event, in input order, and nothing else |
| IcfLegacy.FilingKeepsBands | backend/app/modules/documents/workflows/icf_legacy.py:512-524 | a successful loop files each accepted event under the band of its lowered frequency |
| IcfLegacy.OrganizedSpec | backend/app/modules/documents/workflows/icf_legacy.py:485-526 | each bucket lists exactly the accepted events of its band, in input order, and together the buckets list each accepted event once |
| IcfLegacy.OrganizedFailsIff | backend/app/modules/documents/workflows/icf_legacy.py:485-526 | the loop raises exactly when an accepted event has a truthy frequency that is not a string |
| IcfLegacy.NonListEventsAreEmpty | backend/app/modules/documents/workflows/icf_legacy.py:502-503 | a string or a dict in place of the list sorts nothing |
| IcfLegacy.LegacyVeryCommonIff | backend/app/modules/documents/workflows/icf_legacy.py:515-518 | a frequency is very common exactly when it holds "very common" or "10%", so "1-10%" and "1%-10%" land there too and the common band is reached only through the word "common" |
| IcfLegacy.LegacyUncommonIff | backend/app/modules/documents/workflows/icf_legacy.py:517-520 | an uncommon frequency that is not very common is filed as common; the uncommon band is reached only through "<1%" or "0.1%-1%" without the word "common" |
| IcfLegacy.LegacyQuirkExamples | backend/app/modules/documents/workflows/icf_legacy.py:515-520 | "common (1-10%)" is filed as very common and "uncommon (<1%)" as common |
| IcfLegacy.BuildHeaderSection | backend/app/modules/documents/workflows/icf_legacy.py:300-340 | the header section agrees with the model |
| IcfLegacy.HeaderBlocksSpec | backend/app/modules/documents/workflows/icf_legacy.py:300-340 | the header always opens with the title heading and the study title, followed by one line for each truthy field |
| IcfLegacy.HeaderInitials | backend/app/modules/documents/workflows/icf_legacy.py:300-340 | the header lines are the title, then the protocol number, then the sponsor, each with its own label |
| IcfLegacy.HeaderProtocolIff | backend/app/modules/documents/workflows/icf_legacy.py:326-331 | a protocol-number line is there exactly when the number is truthy |
| IcfLegacy.HeaderSponsorIff | backend/app/modules/documents/workflows/icf_legacy.py:333-338 | a sponsor line is there exactly when the sponsor is truthy |
| IcfLegacy.BuildTextSection | backend/app/modules/documents/workflows/icf_legacy.py:367-400 | a text section agrees with the model |
| IcfLegacy.TextSectionSpec | backend/app/modules/documents/workflows/icf_legacy.py:367-400 | a text section fails exactly on a truthy non-string, and otherwise holds one non-empty stripped paragraph per paragraph of the text, each with 6 points after it |
| IcfLegacy.NothingFilled | backend/app/modules/documents/workflows/icf_legacy.py:438-461 | with no events in any band, no band is filled |
| IcfLegacy.BandBlocksSpec | backend/app/modules/documents/workflows/icf_legacy.py:445-476 | a band adds nothing when it is empty, and otherwise a level-3 heading with its label and then a bullet list of its events |
| IcfLegacy.ListBlocksShape | backend/app/modules/documents/workflows/icf_legacy.py:438-476 | the lists come in heading-and-list pairs, one pair per band with events |
| IcfLegacy.BuildRisksSection | backend/app/modules/documents/workflows/icf_legacy.py:402-483 | the risks section agrees with the model |
| IcfLegacy.NoEventsNoLists | backend/app/modules/documents/workflows/icf_legacy.py:402-483 | without adverse events the risks section holds only the paragraphs of its text |
| IcfLegacy.RunBuilders | backend/app/modules/documents/workflows/icf_legacy.py:238-298 | the builders, the looping ones as methods, agree with the model builders |
| IcfLegacy.BuildSections | backend/app/modules/documents/workflows/icf_legacy.py:238-298 | the section list agrees with the model |
| IcfLegacy.BuildConfigured | backend/app/modules/documents/workflows/icf_legacy.py:238-298 | the loop over the configured entries builds each in turn and stops at the first that raises |
| IcfLegacy.FrameShape | backend/app/modules/documents/workflows/icf_legacy.py:238-298 | where each section sits in the list of two sections before the entries and two after |
| IcfLegacy.BuildersIdentified | backend/app/modules/documents/workflows/icf_legacy.py:238-298 | the model builders identify their sections |
| IcfLegacy.RisksOnlyFourth | backend/app/modules/documents/workflows/icf_legacy.py:238-298 | only the fourth configured entry is the risks entry |
| IcfLegacy.ConfiguredShape | backend/app/modules/documents/workflows/icf_legacy.py:238-298 | a successful loop gives one level-1 section per entry, each with its entry's id and heading |
| IcfLegacy.SectionsShape | backend/app/modules/documents/workflows/icf_legacy.py:238-298 | a successful build yields thirteen sections: the header, the introduction, the nine entries in order, the contact information and the signature page |
| IcfLegacy.SectionsFailIff | backend/app/modules/documents/workflows/icf_legacy.py:238-298 | the build fails exactly when one of the nine entries does |
| IcfLegacy.DocumentSpec | backend/app/modules/documents/workflows/icf_legacy.py:182-236 | a built form is of type "icf", numbers its pages at the centre of the footer, has a "Protocol: ..." header exactly when the protocol number is truthy, and holds exactly the built sections |
| IcfLegacy.BuildDocumentSections | backend/app/modules/documents/workflows/icf_legacy.py:182-298 | a built form opens with the header and the introduction and ends with the contact and signature sections, with the nine numbered sections between them |
| IcfGenerator.MergedSpec | backend/app/modules/documents/generators/icf.py:142-152 | each of the nine texts takes the polished value of its key, and keeps its own value when the reply lacks the key |
| IcfGenerator.MergedIdempotent | backend/app/modules/documents/generators/icf.py:142-152 | merging the same reply twice changes nothing more |
| IcfGenerator.FullReplyReplaces | backend/app/modules/documents/generators/icf.py:142-152 | a reply holding all nine keys replaces every text, whatever the texts were before |
| IcfGenerator.FailedPolishKeeps | backend/app/modules/documents/generators/icf.py:118-157 | without Claude, on a failed call or on a reply that is not a JSON dict, the texts stay as they were |
| IcfGenerator.FilingKeepsAll | backend/app/modules/documents/generators/icf.py:170-183 | no event is skipped: a successful loop files each event, in input order, under the band of its lowered frequency with its plain-language term |
| IcfGenerator.ClassifyOk | backend/app/modules/documents/generators/icf.py:170-183 | an event that classifies is a dict with a string frequency, filed under the band of that frequency |
| IcfGenerator.OrganizedFailsIff | backend/app/modules/documents/generators/icf.py:169-183 | the loop raises exactly when some event is not a dict or has a frequency that is not a string |
| IcfGenerator.OrganizedPartition | backend/app/modules/documents/generators/icf.py:161-183 | every event lands in exactly one bucket: the buckets hold as many terms as there are events, each term as often |
| IcfGenerator.LowerUnknown | backend/app/modules/documents/generators/icf.py:171 | the default frequency "Unknown" lowers to "unknown" |
| IcfGenerator.MissingFrequencyIsUnknown | backend/app/modules/documents/generators/icf.py:171-183 | an event without a frequency goes to the unknown bucket |
| IcfGenerator.UnknownIsUnknownBand | backend/app/modules/documents/generators/icf.py:173-183 | the lowered default frequency is classified as unknown |
| IcfGenerator.GeneratorUncommonIff | backend/app/modules/documents/generators/icf.py:173-180 | "common" is tested before "uncommon", so an uncommon frequency that is not very common lands in the common bucket; the uncommon bucket is reached only without the word "common" |
| IcfGenerator.SitePlaceholdersLiteral | backend/app/modules/documents/generators/icf.py:207-213 | every site field is present and holds "{{" + its name + "}}", and there are no other keys |
| IcfGenerator.IcfContent.constructor | backend/app/modules/documents/generators/icf.py:18-34 | the extracted content holds the fields it is given |
| IcfGenerator.IcfContent.PolishContent | backend/app/modules/documents/generators/icf.py:118-157 | only the nine texts change, and they become the polished texts; study title, protocol number, sponsor, phase, visits and events stay |
| IcfGenerator.IcfContent.BuildTemplateContext | backend/app/modules/documents/generators/icf.py:159-214 | the context agrees with the model: the fields, the five buckets of the loop and the site placeholders |
| LabRecon.PlainVisitOnlyStripped | additions/data-recon/lab_reconciliation.py:133-144 | a present visit name that mentions no screening and has neither misspelling comes back only stripped |
| LabRecon.ScreeningVisits | additions/data-recon/lab_reconciliation.py:133-144 | every stripped visit name that mentions "screening" in any case becomes "Screening" |
| LabRecon.ScreeningStable | additions/data-recon/lab_reconciliation.py:133-144 | the standard screening name is a fixed point of the standardisation |
| LabRecon.NoDateSentinels | additions/data-recon/lab_reconciliation.py:99-116 | "ND" and "NOT DONE" in any case, and the empty text, are no date, whatever the date parser would make of them |
| LabRecon.OtherTextsParsed | additions/data-recon/lab_reconciliation.py:99-116 | a text that is not a sentinel is whatever the date parser makes of it |
| LabRecon.FindGroup | additions/data-recon/lab_reconciliation.py:147-164 | the aggregated lab group of a key is found exactly when the lab data has a group with that key |
| LabRecon.MetaSideSpec | additions/data-recon/lab_reconciliation.py:176-191 | each metadata row gives exactly one joined row with its key: MATCHED when the lab has the key, METADATA_ONLY otherwise |
| LabRecon.LabSideSpec | additions/data-recon/lab_reconciliation.py:176-191 | the lab-side rows are LAB_ONLY rows of lab keys, one for every lab group whose key the metadata lacks |
| LabRecon.ReconcileStatus | additions/data-recon/lab_reconciliation.py:176-191 | each joined row carries exactly one status, the one its key's presence calls for, and every key of either frame appears in the join |
| LabRecon.DateMatchIff | additions/data-recon/lab_reconciliation.py:194-201 | the dates compare as "MATCH" exactly when the row is matched and both dates are present and equal, as "MISMATCH" exactly when both are present and differ, and as "N/A" exactly when the row is unmatched |
| LabRecon.DateDiffOnlyForMismatch | additions/data-recon/lab_reconciliation.py:206-214 | a day count is reported only for a mismatch, and for every mismatch it is the difference of the two dates |
| LabRecon.UnmatchedHasNoDiff | additions/data-recon/lab_reconciliation.py:176-214 | a row that one system lacks never carries a date difference |
| LabRecon.CountStatusTotal | additions/data-recon/lab_reconciliation.py:219-223 | the three status counts add up to the number of joined rows |
| LabRecon.MismatchesAreMatched | additions/data-recon/lab_reconciliation.py:219-221 | there are never more date mismatches than matched rows |
| LabRecon.SummaryAddsUp | additions/data-recon/lab_reconciliation.py:296-340 | the patients of each system are those it alone has plus those both have; the three category counts cover every joined row; every date mismatch is a matched row |
| LabRecon.RowsOf | additions/data-recon/lab_reconciliation.py:354 | the rows of one patient are exactly that patient's rows |
| LabRecon.Patients | additions/data-recon/lab_reconciliation.py:300-301 | the listed patients are exactly the patient set of the frame |
| LabRecon.Without | additions/data-recon/lab_reconciliation.py:317-318 | the elements kept are those outside the other set |
| LabRecon.Within | additions/data-recon/lab_reconciliation.py:302 | the elements kept are those inside the other set |
| LabRecon.SubjectGapRowsSpec | additions/data-recon/lab_reconciliation.py:353-374 | one row per listed patient, in order, each the row of that patient |
| LabRecon.BuildSubjectGapsTab | additions/data-recon/lab_reconciliation.py:343-379 | the loops of the subject gaps tab agree with the model tab |
| LabRecon.AddSubjectGaps | additions/data-recon/lab_reconciliation.py:353-374 | one loop appends a row for each patient, in order |
| LabRecon.MissingFromSpec | additions/data-recon/lab_reconciliation.py:347-353 | the patients one system has and the other lacks are listed in strictly increasing order and are exactly the set difference |
| LabRecon.MissingFromEmptyIff | additions/data-recon/lab_reconciliation.py:347-353 | no patient is missing exactly when one system's patients are among the other's |
| LabRecon.SubjectGapsEmptyIff | additions/data-recon/lab_reconciliation.py:376-377 | the tab is the placeholder row alone exactly when both systems have the same patients |
| LabRecon.SubjectGapsListing | additions/data-recon/lab_reconciliation.py:350-374 | otherwise it lists a row for each metadata patient the lab lacks, in sorted order, then one for each lab patient the metadata lacks, in sorted order |
| LabRecon.SortedDistinctCard | additions/data-recon/lab_reconciliation.py:317-319 | a strictly increasing listing of a set is as long as the set |
| LabRecon.VisitsSpec | additions/data-recon/lab_reconciliation.py:393-394 | the listed visits are exactly the visit set of the rows |
| LabRecon.VisitGapRowsSpec | additions/data-recon/lab_reconciliation.py:397-416 | one row per listed visit, in order, each the row of that patient and visit |
| LabRecon.VisitsMissingSpec | additions/data-recon/lab_reconciliation.py:393-408 | the visits one system lacks for a patient are exactly those of the other system's set difference |
| LabRecon.RowLeqTotal | additions/data-recon/lab_reconciliation.py:422 | any two visit-gap rows compare one way or the other by (subject, visit) |
| LabRecon.RowLeqTransitive | additions/data-recon/lab_reconciliation.py:422 | the (subject, visit) order is transitive |
| LabRecon.InsertRow | additions/data-recon/lab_reconciliation.py:422 | inserting a row keeps every row a visit gap and adds exactly that row |
| LabRecon.InsertRowSorted | additions/data-recon/lab_reconciliation.py:422 | inserting into sorted rows keeps them sorted |
| LabRecon.SortRows | additions/data-recon/lab_reconciliation.py:422 | the final sort keeps exactly the rows it is given |
| LabRecon.SortRowsSorted | additions/data-recon/lab_reconciliation.py:422 | the final sort orders the rows by (subject, visit) |
| LabRecon.BuildVisitGapsTab | additions/data-recon/lab_reconciliation.py:382-422 | the loops of the visit gaps tab agree with the model tab |
| LabRecon.AddPatientGaps | additions/data-recon/lab_reconciliation.py:393-416 | one patient's two inner loops append that patient's rows |
| LabRecon.AddVisitGaps | additions/data-recon/lab_reconciliation.py:397-416 | one inner loop appends a row for each visit, in order |
| LabRecon.HasVisitGapAppend | additions/data-recon/lab_reconciliation.py:390-416 | a gap is in two row lists joined exactly when it is in one of them |
| LabRecon.VisitGapRowsHas | additions/data-recon/lab_reconciliation.py:397-416 | the rows of one inner loop are those of its patient, its gap type and its visits |
| LabRecon.PatientVisitGapsHas | additions/data-recon/lab_reconciliation.py:393-416 | one patient's rows are its visits that one system has and the other lacks |
| LabRecon.VisitGapsOfHas | additions/data-recon/lab_reconciliation.py:390-416 | the rows over a list of patients are, for each, what one system has and the other lacks |
| LabRecon.VisitGapsSpec | additions/data-recon/lab_reconciliation.py:382-422 | the tab lists exactly the visits a patient present in both systems has in one and lacks in the other; it is the placeholder row alone exactly when no such visit exists, and otherwise its rows are in strictly increasing (subject, visit) order, so no pair appears twice |
| LabRecon.VisitGapsNone | additions/data-recon/lab_reconciliation.py:418-419 | the placeholder row stands alone exactly when every patient in both systems has the same visits in both |
| LabRecon.VisitGapsOrdered | additions/data-recon/lab_reconciliation.py:392-422 | the gap rows are in strictly increasing (subject, visit) order |
| LabRecon.VisitGapsOfDistinct | additions/data-recon/lab_reconciliation.py:392-416 | over strictly sorted patients no two rows name the same (subject, visit) pair |
| LabRecon.PatientGapsDistinct | additions/data-recon/lab_reconciliation.py:393-416 | one patient's rows all belong to that patient and name distinct visits: a visit is in one set difference or the other, never both |
| LabRecon.RowsApart | additions/data-recon/lab_reconciliation.py:397-416 | rows built over disjoint visit lists name different pairs |
| LabRecon.VisitGapRowsOf | additions/data-recon/lab_reconciliation.py:397-416 | the rows of one inner loop are gap rows of its patient for its visits |
| LabRecon.VisitGapRowsDistinct | additions/data-recon/lab_reconciliation.py:397-405 | one inner loop over sorted distinct visits gives rows with distinct pairs |
| LabRecon.AppendDistinct | additions/data-recon/lab_reconciliation.py:399-416 | two row lists with distinct pairs and no pair in common join into one with distinct pairs |
| LabRecon.InsertRowDistinct | additions/data-recon/lab_reconciliation.py:422 | inserting a row whose pair is new keeps the pairs distinct |
| LabRecon.SortRowsDistinct | additions/data-recon/lab_reconciliation.py:422 | the final sort keeps the pairs distinct |
| LabRecon.StrictFromSorted | additions/data-recon/lab_reconciliation.py:422 | rows sorted by (subject, visit) with distinct pairs are strictly increasing |
| PyInt.ParseInt | backend/app/core/docengine/builders/table.py:381-386 | `int(s, base)` for base 10 or 16 accepts surrounding whitespace, an optional sign and, in base 16, an optional "0x", and yields None where Python raises |
| PyInt.IntOf | backend/app/core/docengine/builders/section.py:279-280 | `int(v)` passes integers, reads booleans as 0 and 1, and raises on None, lists and dicts |
| PyInt.ParseIntOfIntToString | backend/app/core/docengine/builders/section.py:279-280 | `int(str(i)) == i` for every integer |
| PyInt.HexDigitsAccepted | backend/app/core/docengine/builders/table.py:381-386 | every string of hexadecimal digits is a valid `int(s, 16)` input |
| PyInt.ParseHexDigits | backend/app/core/docengine/builders/table.py:381-386 | `int(d, 16)` accepts a non-empty string of hexadecimal digits |
| PyInt.ParseHexPrefixed | backend/app/core/docengine/builders/table.py:381-386 | `int("0x" + digits, 16)` is accepted as well |
| PyInt.TwoHexDigitsValue | backend/app/core/docengine/builders/table.py:381-393 | two hexadecimal digits parse to their value as a byte |
| PyValue.Get | backend/app/modules/documents/workflows/icf_legacy.py:508 | `d.get(key, default)`: the stored value when the key is present, the default otherwise |
| Text.TrimLeft | backend/app/modules/documents/workflows/base.py:220 | `lstrip` keeps a suffix of its input and removes only characters of the set |
| Text.TrimRight | backend/app/modules/documents/workflows/base.py:220 | `rstrip` keeps a prefix of its input and removes only characters of the set |
| Text.TrimLeftSpec | backend/app/modules/documents/workflows/base.py:220 | what `lstrip` keeps is a suffix, what it cuts away is made of characters of the set, and the rest does not start with one |
| Text.TrimRightSpec | backend/app/modules/documents/workflows/base.py:220 | what `rstrip` keeps is a prefix, what it cuts away is made of characters of the set, and the rest does not end with one |
| Text.StripSetSpec | backend/app/modules/documents/workflows/base.py:220 | `strip` gives a slice of the input, cuts only characters of the set on either side, and its result neither starts nor ends with one |
| Text.StripSetIdempotent | backend/app/modules/documents/workflows/base.py:220 | stripping twice is stripping once |
| Text.StripEmptyIffBlank | backend/app/modules/documents/workflows/sap.py:480-484 | `not s.strip()` holds exactly when the text is all whitespace |
| Text.Lower | backend/app/modules/documents/workflows/icf_legacy.py:513 | `lower()` keeps the length and maps each ASCII capital to its small letter |
| Text.Upper | additions/data-recon/lab_reconciliation.py:103-105 | `upper()` keeps the length and maps each ASCII small letter to its capital |
| Text.IndexOf | backend/app/modules/documents/workflows/base.py:220-241 | `find` gives the first position where the text occurs, or -1 when it does not |
| Text.ContainsIffIndexOf | backend/app/modules/documents/workflows/base.py:220-241 | a text contains a substring exactly when `find` does not give -1 |
| Text.Split | backend/app/modules/documents/workflows/base.py:224 | `split(sep)` cuts at every occurrence: joining the pieces with the separator gives the text back, and no piece holds the separator |
| Text.SplitNoSeparator | backend/app/modules/documents/workflows/sap.py:480 | a text without the separator splits into itself alone |
| Text.NatToStringRoundTrip | backend/app/modules/documents/translation/batcher.py:16 | parsing what `str(n)` prints gives the number back, so different numbers print differently |
| Text.NonBlankStripped | backend/app/modules/documents/workflows/sap.py:480-484 | the non-blank pieces, stripped, in order: at most one result per piece, none empty |
| Text.NonBlankStrippedOfBlanks | backend/app/modules/documents/workflows/sap.py:480-484 | an all-whitespace text yields no paragraphs at all |
| Text.ParagraphsSingle | backend/app/modules/documents/workflows/sap.py:480-484 | a non-blank text without a blank line is one paragraph, the text stripped |
| StringOrder.SortedSet | additions/data-recon/lab_reconciliation.py:360 | `sorted(set(xs))` lists each element of xs once, in strictly increasing order, and nothing else |
| StringOrder.StrictlySortedUnique | additions/data-recon/lab_reconciliation.py:360 | two strictly increasing listings of the same elements are equal, so the result depends on the set alone |
| StringOrder.LessTotal | additions/data-recon/lab_reconciliation.py:360 | Python's string order is total: of two different strings one comes first |
| StringOrder.LessTransitive | additions/data-recon/lab_reconciliation.py:360 | Python's string order is transitive |
| Schema.ParagraphBlocksSpec | backend/app/modules/documents/workflows/sap.py:480-484 | one paragraph block per text, in order, each with the given spacing after it |
| SapSections.ChunkBlocksSpec | backend/app/modules/documents/workflows/sap.py:981-1002 | one block per blank-line chunk, in order, each the block of its chunk |
| SapSections.PrefixesExclusive | backend/app/modules/documents/workflows/sap.py:1067-1178 | no shell starts with two of "table", "listing" and "figure" at once |

## Left out

- Language-model clients (OpenAI, Claude, Gemini), their prompts and retries: each call is a parameter giving its reply or its exception.
- `json.loads` is a `decode` parameter; `json.dumps` of prompts is not modelled, since only the reply matters.
- asyncio in the translator (`Semaphore`, `gather`, `asyncio.sleep` back-off): batches are translated in sequence. Applying is keyed by path, so the order does not change the result.
- Logging is left out everywhere.
- `render_and_upload` and `render_to_bytes` (backend/app/core/docengine/engine.py:622-743) are storage and byte I/O.
- The compliance metadata put into the upload (engine.py:675-678) belongs to that I/O and is not in the model's `UniversalDocument`.
- python-docx and lxml emission is an abstract document: body elements, a style map, header and footer parts, and numbering definitions. The XML elements, `doc.save`, the zip `testzip`, `fsync` and the sleeps are not modelled.
- Floats: line spacing, page sizes, margins and column widths are `real`s copied through. The float arithmetic is not modelled: `int(width*20)` for signature lines and the cache `hit_rate`.
- `parse_inline_formatting` (backend/app/core/docengine/builders/list.py:705-752) is an uninterpreted parameter, since it is regex-heavy.
- PyInt.ParseInt: only ASCII digits (and ASCII letters in base 16) are digits. Python's `int()` also reads other Unicode decimal digits, such as "٣" or full-width "３", which the model refuses.
- Schema.IntField: a string `colspan` or `rowspan` is read by `int()`'s rules (`PyInt.IntOf`). Pydantic's lax string-to-int conversion may differ in details such as underscores. Values carry no floats, so Pydantic's acceptance of a float without a fractional part is not modelled.
- SapContent.GeneratedFrom: a JSON reply that decodes to a bare number with a fraction (a Python `float`) is not modelled, because values carry no floats; `len()` refuses it like an `int`.
- Batcher.StartsWithCI: `re.IGNORECASE` in the wrapper and "Note:" patterns folds ASCII letters only. Python also lets "ſ" (U+017F) match "s" and "İ"/"ı" (U+0130, U+0131) match "i".
- Batcher.SpaceRun: `\s` is `Text.Whitespace`, so the Unicode spaces beyond U+00A0 are not matched.
- Batcher.WordRun: `\w` is exact up to U+00FF, Latin-1 accented letters included. A letter beyond U+00FF, as in "Čeština" or "Русский", is not a word character here, whereas Python's Unicode `\w` takes it.
- Batcher.CleanKeepsPlain, Batcher.LanguageLabelCut, Batcher.LanguageLabelDropped, Batcher.StackedLabelKept: these rest on the `\w`, `\s` and case folding above, so a language name or label using characters beyond U+00FF is outside what they state.
- Batcher.ParseResponse, Batcher.CollectPieces, Batcher.ParsedWithoutDelimiters, Batcher.ParsedInOrder, Batcher.ParseBatchedRoundTrip: each piece is cleaned with the `clean_translation` model above and shares its character-class limits.
- Batcher.DigitRun: `\d` in the delimiter pattern (batcher.py:16) is ASCII digits only. Python's `\d` also matches other Unicode decimal digits.
- Text.Lower, Text.Upper: case mapping covers ASCII letters only, not Unicode `str.lower`/`str.upper`.
- Text.Strip: the whitespace set is ASCII whitespace plus U+0085 and U+00A0. The other Unicode spaces that `str.strip` also removes are not included.
- WorkflowBase.Iterated: `for x in d` over a dict is an error in the model. Python yields the keys. This reaches the SAP endpoint lists and TLF shells and the `", ".join` of DMP visit procedures when those hold a dict.
- PyValue.Str: `str()` of a list or dict renders as "[...]" or "{...}" instead of its Python `repr`. This reaches error messages and the `str(item)` fallback of `ListBuilder.ParseItem`.
- ListBuilder.RenderRun: a run carries text, bold, italic, underline and size. Strike, superscript, subscript and font name of the inline format (list.py:45-60) are not set.
- Styles.FooterItems: the page-number field is one abstract item. Its runs PAGE, " of " and NUMPAGES (styles.py:499-560) are not spelled out.
- Styles.Unlinked: unlinking a linked header or footer gives it a definition of one empty paragraph. Python-docx's copy of the previous section's definition is not modelled.
- SectionBuilder.AddHeading: the level is an `int`. The `int(level)` raise for None or a non-numeric string (section.py:145) is not modelled.
- WorkflowBase.DefaultPolish: `decode` yields a dict or nothing. A reply that decodes to a list or scalar is not modelled; the source would return it as the content.
- TreeText.EntryItems: a dict list item is collected only when its "text" is a non-empty string. A truthy non-string "text" is not collected, where the source would pass it on to the translator.
- Validator.KindText: the invalid-type message lists "icf, dmp, sap" in a fixed order. The source joins a set, whose iteration order Python does not fix (engine.py:132-137).
- Cache.MakeKey: the key is the language and the text itself, not `hash(text)`, so hash collisions are not modelled.
- Translation paths are a datatype (`TextPaths`), not the dotted strings of the source. Parsing and printing those strings is not modelled.
- The consent-form generator (generators/icf.py): `extract_for_document`, `_generate_icf_content`, `_generate_fallback_content` and `_add_content_to_document` are left out. They copy fields, call Gemini and write to python-docx.
- SAP builders for study design, populations, statistical methods, sample size and interim analysis are parameters with fixed ids and headings. Their bodies are text formatting with nothing to state beyond the ids.
- Lab reconciliation: pandas loading, NaN handling beyond `None`, date parsing and arithmetic (a `parse` and a `days` parameter), the category and date-mismatch tabs, and the CSV and Excel writers are left out.
- DmpTexts: the fallback literals are written as concatenations of short pieces, which keeps the proofs about them small.
- SapTexts: the same holds for the section defaults and the `_generate_fallback_content` literals.

## Findings

| source | as written | input that shows it | evidently intended | confidence | as-written member | corrected member |
|---|---|---|---|---|---|---|
| backend/app/core/docengine/builders/table.py:381-393 | the colour is checked with `int(color, 16)`, which also accepts a `0x` prefix, and the upper-cased text is written as the fill | colour `"0x1234"`: it passes the length check and `int`, and the fill written is `"0X1234"`, which is not a hexadecimal colour | only three or six hexadecimal digits are written as a fill | not executed | TableBuilder.ShadingFillPrefixCounterexample | TableBuilder.ShadingFillIdempotent |
| backend/app/core/docengine/builders/table.py:211-218 | `_get_max_columns` adds a dict cell's `colspan` raw, while placing a cell always takes at least one column | headerless table `[[{"colspan": 0, "content": "x"}]]`: the count is 0, so `add_table` returns None (table.py:143-146) and the cell is lost | every cell counts at least one column, so the table holds every entry | not executed | TableBuilder.ZeroSpanTableCounterexample | TableBuilder.HeaderlessTableKeepsEveryEntry |
