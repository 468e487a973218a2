/** The section builder: headings with clamped levels, paragraphs whose
    inline formatting ranges are clamped, sorted, OR-merged into one format
    per character and cut into maximal runs, page breaks, the block-type
    dispatch and whole sections given as dicts. */
module SectionBuilder {
  import opened Wrappers
  import opened Text
  import opened PyValue
  import PyInt
  import opened Schema
  import opened Output

  // ---------------------------------------------------------------------
  // Headings

  /** `max(1, min(4, level))`. */
  function HeadingLevel(level: int): (l: nat)
    ensures 1 <= l <= 4
    ensures 1 <= level <= 4 ==> l == level
    ensures level < 1 ==> l == 1
    ensures level > 4 ==> l == 4
  {
    if level < 1 then 1 else if level > 4 then 4 else level
  }

  /** `DEFAULT_HEADING_SPACING_BEFORE.get(level, 12)`. */
  function SpaceBeforeHeading(level: nat): int
  {
    if level == 1 then 24 else if level == 2 then 18 else 12
  }

  /** `DEFAULT_HEADING_SPACING_AFTER.get(level, 6)`. */
  function SpaceAfterHeading(level: nat): int
  {
    if level == 1 then 12 else 6
  }

  /** What `add_heading(text, level)` appends: an empty paragraph for blank
      text, else a heading of the stripped text at the clamped level with
      that level's spacing. */
  function HeadingElement(text: string, level: int): (e: Element)
    ensures IsBlank(text) <==> e == EmptyPara
    ensures !IsBlank(text) ==> e.HeadingPara? && e.text == Strip(text) && e.text != []
    ensures e.HeadingPara? ==> e.level == HeadingLevel(level) && e.alignment == None
    ensures e.HeadingPara? ==> e.spaceBefore.Some? && e.spaceAfter.Some?
                               && e.spaceBefore.value >= e.spaceAfter.value
  {
    StripEmptyIffBlank(text);
    var t := Strip(text);
    if t == [] then EmptyPara
    else
      var l := HeadingLevel(level);
      HeadingPara(t, l, Some(SpaceBeforeHeading(l)), Some(SpaceAfterHeading(l)), None)
  }

  /** Heading spacing shrinks as the level deepens and never goes below
      12pt before and 6pt after. */
  lemma HeadingSpacingMonotone(a: nat, b: nat)
    requires 1 <= a <= b <= 4
    ensures SpaceBeforeHeading(a) >= SpaceBeforeHeading(b) >= 12
    ensures SpaceAfterHeading(a) >= SpaceAfterHeading(b) >= 6
  {
  }

  // ---------------------------------------------------------------------
  // Inline formatting ranges

  /** An entry of `formatting["ranges"]`: a dict, or anything else. */
  datatype RangeEntry = NotADict(v: Value) | RangeDict(fields: map<string, Value>)

  /** A validated range: `0 <= start < end <= len(content)`. */
  datatype FormatRange = FormatRange(start: nat, end: nat, format: Format)

  function Min(a: int, b: int): int { if a <= b then a else b }
  function Max(a: int, b: int): int { if a >= b then a else b }

  /** The flags of a range dict, each `bool(range.get(flag, False))`. */
  function FlagsOf(fields: map<string, Value>): Format
  {
    Format(Truthy(Get(fields, "bold", VBool(false))),
           Truthy(Get(fields, "italic", VBool(false))),
           Truthy(Get(fields, "underline", VBool(false))))
  }

  /** One step of `_validate_and_sort_ranges`: a dict whose start and end
      pass `int()` is clamped (start into [0, n], end into [start, n]) and
      kept when it is non-empty; everything else is skipped. */
  function CheckRange(e: RangeEntry, n: nat): (r: Option<FormatRange>)
    ensures e.NotADict? ==> r == None
    ensures r.Some? ==> r.value.start < r.value.end <= n
    ensures e.RangeDict? ==>
      var s := PyInt.IntOf(Get(e.fields, "start", VInt(0)));
      var t := PyInt.IntOf(Get(e.fields, "end", VInt(0)));
      (r.Some? <==> s.Some? && t.Some? && Max(0, Min(s.value, n)) < Min(t.value, n))
      && (r.Some? ==> r.value.start == Max(0, Min(s.value, n)) && r.value.end == Min(t.value, n)
                      && r.value.format == FlagsOf(e.fields))
  {
    match e
    case NotADict(_) => None
    case RangeDict(fields) =>
      var s := PyInt.IntOf(Get(fields, "start", VInt(0)));
      var t := PyInt.IntOf(Get(fields, "end", VInt(0)));
      if s.None? || t.None? then None
      else
        var start := Max(0, Min(s.value, n));
        var end := Max(start, Min(t.value, n));
        if start >= end then None
        else Some(FormatRange(start, end, FlagsOf(fields)))
  }

  /** The ranges that survive, in input order. */
  function Validated(entries: seq<RangeEntry>, n: nat): (r: seq<FormatRange>)
    ensures |r| <= |entries|
    ensures forall k :: 0 <= k < |r| ==> r[k].start < r[k].end <= n
  {
    if entries == [] then []
    else
      var rest := Validated(entries[1..], n);
      match CheckRange(entries[0], n)
      case None => rest
      case Some(x) => [x] + rest
  }

  /** A range survives exactly when some entry validates to it. */
  lemma {:induction false} ValidatedMembers(entries: seq<RangeEntry>, n: nat, x: FormatRange)
    ensures x in Validated(entries, n) <==> exists k :: 0 <= k < |entries| && CheckRange(entries[k], n) == Some(x)
  {
    if entries != [] {
      ValidatedMembers(entries[1..], n, x);
      if exists k :: 0 <= k < |entries| && CheckRange(entries[k], n) == Some(x) {
        var k :| 0 <= k < |entries| && CheckRange(entries[k], n) == Some(x);
        if k > 0 {
          assert CheckRange(entries[1..][k - 1], n) == Some(x);
        }
      }
      if x in Validated(entries[1..], n) {
        var k :| 0 <= k < |entries[1..]| && CheckRange(entries[1..][k], n) == Some(x);
        assert CheckRange(entries[k + 1], n) == Some(x);
      }
    }
  }

  /** Insert keeping the order by `start`; `x` goes before the first range
      with a start at least its own. */
  function InsertByStart(x: FormatRange, s: seq<FormatRange>): (r: seq<FormatRange>)
    ensures multiset(r) == multiset(s) + multiset{x}
    ensures |r| == |s| + 1
    ensures r[0] == x || (s != [] && r[0] == s[0])
  {
    if s == [] then [x]
    else if x.start <= s[0].start then [x] + s
    else
      assert s == [s[0]] + s[1..];
      [s[0]] + InsertByStart(x, s[1..])
  }

  /** `sorted(ranges, key=start)`, stable. */
  function SortByStart(s: seq<FormatRange>): (r: seq<FormatRange>)
    ensures multiset(r) == multiset(s)
  {
    if s == [] then []
    else
      assert s == [s[0]] + s[1..];
      InsertByStart(s[0], SortByStart(s[1..]))
  }

  /** Each range starts no earlier than the one before it. */
  predicate SortedByStart(s: seq<FormatRange>)
  {
    forall i :: 0 < i < |s| ==> s[i - 1].start <= s[i].start
  }

  lemma {:induction false} InsertKeepsSorted(x: FormatRange, s: seq<FormatRange>)
    requires SortedByStart(s)
    ensures SortedByStart(InsertByStart(x, s))
  {
    if s != [] && x.start > s[0].start {
      InsertKeepsSorted(x, s[1..]);
      var t := InsertByStart(x, s[1..]);
      var r := [s[0]] + t;
      assert InsertByStart(x, s) == r;
      forall i | 0 < i < |r| ensures r[i - 1].start <= r[i].start {
        if i > 1 {
          assert r[i - 1] == t[i - 2] && r[i] == t[i - 1];
        }
      }
    }
  }

  lemma {:induction false} SortByStartSorted(s: seq<FormatRange>)
    ensures SortedByStart(SortByStart(s))
  {
    if s != [] {
      SortByStartSorted(s[1..]);
      InsertKeepsSorted(s[0], SortByStart(s[1..]));
    }
  }

  /** `_validate_and_sort_ranges(ranges, n)`. */
  function ValidateAndSortRanges(entries: seq<RangeEntry>, n: nat): seq<FormatRange>
  {
    SortByStart(Validated(entries, n))
  }

  /** The result is sorted by start, holds exactly the ranges that survive
      validation (with their multiplicity), and each is a non-empty piece
      of the content. */
  lemma ValidateAndSortSpec(entries: seq<RangeEntry>, n: nat)
    ensures var r := ValidateAndSortRanges(entries, n);
      SortedByStart(r)
      && multiset(r) == multiset(Validated(entries, n))
      && forall k :: 0 <= k < |r| ==> r[k].start < r[k].end <= n
  {
    var v := Validated(entries, n);
    var r := ValidateAndSortRanges(entries, n);
    SortByStartSorted(v);
    forall k | 0 <= k < |r| ensures r[k].start < r[k].end <= n {
      assert r[k] in multiset(v);
      var m :| 0 <= m < |v| && v[m] == r[k];
    }
  }

  // ---------------------------------------------------------------------
  // The per-character format map

  predicate Covers(r: FormatRange, i: int) { r.start <= i < r.end }

  function Union(a: Format, b: Format): Format
  {
    Format(a.bold || b.bold, a.italic || b.italic, a.underline || b.underline)
  }

  /** The format of character `i` after applying the ranges in order. */
  function FormatAt(rs: seq<FormatRange>, i: int): Format
  {
    if rs == [] then Plain
    else
      var f := FormatAt(rs[..|rs| - 1], i);
      if Covers(rs[|rs| - 1], i) then Union(f, rs[|rs| - 1].format) else f
  }

  /** OR-merge: a flag is set on character `i` exactly when some range
      covering `i` carries it. */
  lemma {:induction false} FormatAtIff(rs: seq<FormatRange>, i: int)
    ensures FormatAt(rs, i).bold <==> exists k :: 0 <= k < |rs| && Covers(rs[k], i) && rs[k].format.bold
    ensures FormatAt(rs, i).italic <==> exists k :: 0 <= k < |rs| && Covers(rs[k], i) && rs[k].format.italic
    ensures FormatAt(rs, i).underline <==> exists k :: 0 <= k < |rs| && Covers(rs[k], i) && rs[k].format.underline
  {
    if rs != [] {
      var p := rs[..|rs| - 1];
      FormatAtIff(p, i);
      assert forall k :: 0 <= k < |p| ==> p[k] == rs[k];
    }
  }

  /** The map `_build_character_format_map` returns: one format per
      character. */
  function FormatMap(rs: seq<FormatRange>, n: nat): (m: seq<Format>)
    ensures |m| == n && forall i :: 0 <= i < n ==> m[i] == FormatAt(rs, i)
  {
    seq(n, i => FormatAt(rs, i))
  }

  /** `_build_character_format_map`: start with all flags off and, range by
      range, switch on the flags it carries over the characters it covers. */
  method BuildCharacterFormatMap(rs: seq<FormatRange>, n: nat) returns (m: seq<Format>)
    requires forall k :: 0 <= k < |rs| ==> rs[k].start >= rs[k].end || rs[k].end <= n
    ensures m == FormatMap(rs, n)
  {
    var a := new Format[n](_ => Plain);
    var k := 0;
    while k < |rs|
      invariant 0 <= k <= |rs|
      invariant forall j :: 0 <= j < n ==> a[j] == FormatAt(rs[..k], j)
    {
      var r := rs[k];
      assert rs[..k + 1][..k] == rs[..k];
      var i := r.start;
      while i < r.end
        invariant r.start <= i && (i <= r.end || i == r.start)
        invariant forall j :: 0 <= j < n ==>
          a[j] == (if r.start <= j < i then FormatAt(rs[..k + 1], j) else FormatAt(rs[..k], j))
      {
        var f := a[i];
        a[i] := Format(f.bold || r.format.bold, f.italic || r.format.italic,
                       f.underline || r.format.underline);
        i := i + 1;
      }
      k := k + 1;
    }
    assert rs[..k] == rs;
    m := a[..];
  }

  // ---------------------------------------------------------------------
  // Runs

  /** A stretch of content carrying one format. */
  datatype Segment = Segment(text: string, format: Format)

  function Copies(f: Format, k: nat): (r: seq<Format>)
    ensures |r| == k && forall i :: 0 <= i < k ==> r[i] == f
  {
    if k == 0 then [] else [f] + Copies(f, k - 1)
  }

  function SegText(segs: seq<Segment>): string
  {
    if segs == [] then "" else segs[0].text + SegText(segs[1..])
  }

  /** The format of every character the segments cover, in order. */
  function SegFormats(segs: seq<Segment>): seq<Format>
  {
    if segs == [] then [] else Copies(segs[0].format, |segs[0].text|) + SegFormats(segs[1..])
  }

  /** No segment is empty and neighbours differ in format. */
  predicate Maximal(segs: seq<Segment>)
  {
    (forall k :: 0 <= k < |segs| ==> segs[k].text != [])
    && (forall k :: 0 < k < |segs| ==> segs[k - 1].format != segs[k].format)
  }

  /** `segs` cuts `content` into maximal runs whose formats are `formats`. */
  predicate Decomposes(segs: seq<Segment>, content: string, formats: seq<Format>)
  {
    SegText(segs) == content && SegFormats(segs) == formats && Maximal(segs)
  }

  /** The maximal-run decomposition, built from the front. */
  function Segments(content: string, formats: seq<Format>): (segs: seq<Segment>)
    requires |content| == |formats|
    ensures content != [] ==> segs != [] && segs[0].format == formats[0]
    decreases |content|
  {
    if content == [] then []
    else
      var rest := Segments(content[1..], formats[1..]);
      if rest != [] && rest[0].format == formats[0] then
        [Segment([content[0]] + rest[0].text, formats[0])] + rest[1..]
      else
        [Segment([content[0]], formats[0])] + rest
  }

  /** Prepending one character in the first run's format lengthens that run. */
  lemma GrowFirst(c: char, f: Format, rest: seq<Segment>, content: string, formats: seq<Format>)
    requires rest != [] && rest[0].format == f && Decomposes(rest, content, formats)
    ensures Decomposes([Segment([c] + rest[0].text, f)] + rest[1..], [c] + content, [f] + formats)
  {
    var head := Segment([c] + rest[0].text, f);
    var segs := [head] + rest[1..];
    assert segs[1..] == rest[1..];
    assert Copies(f, |head.text|) == [f] + Copies(f, |rest[0].text|);
    assert forall k :: 1 <= k < |segs| ==> segs[k] == rest[k];
  }

  /** Prepending one character in a new format starts a new run. */
  lemma NewFirst(c: char, f: Format, rest: seq<Segment>, content: string, formats: seq<Format>)
    requires (rest == [] || rest[0].format != f) && Decomposes(rest, content, formats)
    ensures Decomposes([Segment([c], f)] + rest, [c] + content, [f] + formats)
  {
    var segs := [Segment([c], f)] + rest;
    assert segs[1..] == rest;
    assert forall k :: 1 <= k < |segs| ==> segs[k] == rest[k - 1];
  }

  /** `Segments` cuts the content into maximal runs with the given formats. */
  lemma {:induction false} SegmentsDecompose(content: string, formats: seq<Format>)
    requires |content| == |formats|
    ensures Decomposes(Segments(content, formats), content, formats)
    decreases |content|
  {
    if content != [] {
      var rest := Segments(content[1..], formats[1..]);
      SegmentsDecompose(content[1..], formats[1..]);
      assert content == [content[0]] + content[1..];
      assert formats == [formats[0]] + formats[1..];
      if rest != [] && rest[0].format == formats[0] {
        GrowFirst(content[0], formats[0], rest, content[1..], formats[1..]);
      } else {
        NewFirst(content[0], formats[0], rest, content[1..], formats[1..]);
      }
    }
  }

  lemma SegAppend(segs: seq<Segment>, s: Segment)
    ensures SegText(segs + [s]) == SegText(segs) + s.text
    ensures SegFormats(segs + [s]) == SegFormats(segs) + Copies(s.format, |s.text|)
    decreases |segs|
  {
    if segs == [] {
      assert segs + [s] == [s];
    } else {
      assert (segs + [s])[1..] == segs[1..] + [s];
      SegAppend(segs[1..], s);
    }
  }

  /** The maximal-run decomposition is unique: any other cut of the same
      content into maximal runs with the same per-character formats is the
      same list of runs. */
  lemma {:induction false} DecompositionUnique(segs: seq<Segment>, c: string, f: seq<Format>)
    requires |c| == |f| && Decomposes(segs, c, f)
    ensures segs == Segments(c, f)
    decreases |c|
  {
    if c != [] {
      assert segs != [];
      var s0 := segs[0];
      var tail := segs[1..];
      var t := s0.text[1..];
      assert s0.text != [];
      assert c == s0.text + SegText(tail);
      assert f == Copies(s0.format, |s0.text|) + SegFormats(tail);
      assert c[0] == s0.text[0] && f[0] == s0.format;
      assert Maximal(tail) by {
        assert forall k :: 0 <= k < |tail| ==> tail[k] == segs[k + 1];
      }
      if t == [] {
        assert c[1..] == SegText(tail);
        assert f[1..] == SegFormats(tail);
        DecompositionUnique(tail, c[1..], f[1..]);
        assert s0 == Segment([c[0]], f[0]);
        assert segs == [s0] + tail;
      } else {
        var d := [Segment(t, s0.format)] + tail;
        assert d[1..] == tail;
        assert s0.text == [c[0]] + t;
        assert c[1..] == t + SegText(tail);
        assert Copies(s0.format, |s0.text|) == [s0.format] + Copies(s0.format, |t|);
        assert f[1..] == Copies(s0.format, |t|) + SegFormats(tail);
        assert Maximal(d) by {
          assert forall k :: 1 <= k < |d| ==> d[k] == segs[k];
        }
        DecompositionUnique(d, c[1..], f[1..]);
        assert segs == [Segment([c[0]] + t, f[0])] + tail;
      }
    }
  }

  /** Closing the run `content[a..b]` in format `f` extends a maximal
      decomposition of `content[..a]` to one of `content[..b]`. */
  lemma CloseRun(segs: seq<Segment>, content: string, formats: seq<Format>, a: nat, b: nat, f: Format)
    requires a < b <= |content| == |formats|
    requires SegText(segs) == content[..a] && SegFormats(segs) == formats[..a] && Maximal(segs)
    requires segs != [] ==> segs[|segs| - 1].format != f
    requires forall j :: a <= j < b ==> formats[j] == f
    ensures var t := segs + [Segment(content[a..b], f)];
      SegText(t) == content[..b] && SegFormats(t) == formats[..b] && Maximal(t)
      && t[|t| - 1].format == f
  {
    var s := Segment(content[a..b], f);
    SegAppend(segs, s);
    assert content[..b] == content[..a] + content[a..b];
    assert formats[..b] == formats[..a] + Copies(f, b - a);
  }

  /** `_create_formatted_runs`: walk the characters, closing a run whenever
      the format changes, and close the last run at the end. */
  method CreateFormattedRuns(content: string, formats: seq<Format>) returns (segs: seq<Segment>)
    requires |formats| == |content|
    ensures Decomposes(segs, content, formats)
    ensures segs == Segments(content, formats)
  {
    if |content| == 0 {
      segs := [];
      return;
    }
    var currentStart := 0;
    var current := formats[0];
    segs := [];
    var i := 1;
    while i < |content|
      invariant 1 <= i <= |content|
      invariant 0 <= currentStart < i
      invariant current == formats[currentStart]
      invariant forall j :: currentStart <= j < i ==> formats[j] == current
      invariant SegText(segs) == content[..currentStart]
      invariant SegFormats(segs) == formats[..currentStart]
      invariant Maximal(segs)
      invariant segs != [] ==> segs[|segs| - 1].format != current
    {
      if formats[i] != current {
        CloseRun(segs, content, formats, currentStart, i, current);
        segs := segs + [Segment(content[currentStart..i], current)];
        currentStart := i;
        current := formats[i];
      }
      i := i + 1;
    }
    CloseRun(segs, content, formats, currentStart, |content|, current);
    assert content[..|content|] == content && formats[..|content|] == formats;
    segs := segs + [Segment(content[currentStart..|content|], current)];
    DecompositionUnique(segs, content, formats);
  }

  /** The runs a list of segments becomes: every flag set explicitly. */
  function SegmentRuns(segs: seq<Segment>): (runs: seq<Run>)
    ensures |runs| == |segs|
    ensures RunsText(runs) == SegText(segs)
    ensures forall k :: 0 <= k < |runs| ==> runs[k] == FormattedRun(segs[k].text, segs[k].format)
  {
    if segs == [] then [] else [FormattedRun(segs[0].text, segs[0].format)] + SegmentRuns(segs[1..])
  }

  /** The runs `_apply_inline_formatting` adds. */
  function InlineRuns(content: string, ranges: seq<RangeEntry>): (runs: seq<Run>)
    ensures RunsText(runs) == content
    ensures ValidateAndSortRanges(ranges, |content|) == [] ==> runs == [PlainRun(content)]
    ensures ValidateAndSortRanges(ranges, |content|) != [] ==>
      runs == SegmentRuns(Segments(content, FormatMap(ValidateAndSortRanges(ranges, |content|), |content|)))
  {
    if ranges == [] then [PlainRun(content)]
    else
      var v := ValidateAndSortRanges(ranges, |content|);
      if v == [] then [PlainRun(content)]
      else
        SegmentsDecompose(content, FormatMap(v, |content|));
        SegmentRuns(Segments(content, FormatMap(v, |content|)))
  }

  // ---------------------------------------------------------------------
  // Paragraphs and blocks

  /** A content-block dict as the builder reads it: `type` (after `str`),
      `content`, `level`, `alignment`, `spacing_before`, `spacing_after`
      and the `ranges` of `formatting` (empty when there is no formatting
      or no ranges key). */
  datatype BlockDict = BlockDict(
    blockType: string,
    content: string,
    level: int,
    alignment: string,
    spacingBefore: int,
    spacingAfter: int,
    ranges: seq<RangeEntry>)

  /** `ALIGNMENT_MAP.get(name, LEFT)`. */
  function AlignmentOf(name: string): (a: Alignment)
    ensures name == AlignmentName(a) || (a == Left && name !in {"left", "center", "right", "justify"})
    ensures forall b :: name == AlignmentName(b) ==> a == b
  {
    if name == "center" then Center
    else if name == "right" then Right
    else if name == "justify" then Justify
    else Left
  }

  /** `Pt(x)` only when `x > 0`. */
  function PositiveSpacing(x: int): (r: Option<int>)
    ensures r.Some? <==> x > 0
    ensures r.Some? ==> r.value == x
  {
    if x > 0 then Some(x) else None
  }

  /** What `add_paragraph(block)` appends. */
  function ParagraphElement(b: BlockDict): (e: Element)
    ensures e.Para? && e.style == None && e.indent == None && e.numbering == None
    ensures RunsText(e.runs) == Strip(b.content)
    ensures e.runs == [] <==> IsBlank(b.content)
    ensures e.alignment == Some(AlignmentOf(Lower(b.alignment)))
    ensures e.spaceBefore == PositiveSpacing(b.spacingBefore)
    ensures e.spaceAfter == PositiveSpacing(b.spacingAfter)
  {
    StripEmptyIffBlank(b.content);
    var content := Strip(b.content);
    var runs := if content == [] then [] else InlineRuns(content, b.ranges);
    Para(runs, None, Some(AlignmentOf(Lower(b.alignment))),
         PositiveSpacing(b.spacingBefore), PositiveSpacing(b.spacingAfter), None, None)
  }

  /** What `_process_content_block(block)` appends: headings and page
      breaks by name (case-insensitively), a paragraph for everything else. */
  function BlockElement(b: BlockDict): (e: Element)
    ensures Lower(b.blockType) == "heading" ==> e == HeadingElement(b.content, b.level)
    ensures Lower(b.blockType) == "page_break" ==> e == PageBreak
    ensures Lower(b.blockType) != "heading" && Lower(b.blockType) != "page_break" ==> e == ParagraphElement(b)
  {
    var t := Lower(b.blockType);
    if t == "paragraph" then ParagraphElement(b)
    else if t == "heading" then HeadingElement(b.content, b.level)
    else if t == "page_break" then PageBreak
    else ParagraphElement(b)
  }

  /** What `add_content_blocks(bs)` appends. */
  function BlockElements(bs: seq<BlockDict>): (r: seq<Element>)
    ensures |r| == |bs|
  {
    if bs == [] then [] else BlockElements(bs[..|bs| - 1]) + [BlockElement(bs[|bs| - 1])]
  }

  /** Block `i` becomes element `i`: one element per block, in order. */
  lemma {:induction false} BlockElementsAt(bs: seq<BlockDict>, i: nat)
    requires i < |bs|
    ensures BlockElements(bs)[i] == BlockElement(bs[i])
    decreases |bs|
  {
    if i < |bs| - 1 {
      BlockElementsAt(bs[..|bs| - 1], i);
    }
  }

  /** A section dict: `heading`, `level`, `content_blocks`, `subsections`. */
  datatype SectionDict = SectionDict(heading: string, level: int, blocks: seq<BlockDict>,
                                     subsections: seq<SectionDict>)

  /** What `add_section(section)` appends: the heading unless it is blank,
      then the blocks in order, then each subsection the same way. */
  function SectionElements(s: SectionDict): seq<Element>
    decreases s, 1
  {
    (if Strip(s.heading) != [] then [HeadingElement(Strip(s.heading), s.level)] else [])
    + BlockElements(s.blocks) + SubsElements(s.subsections)
  }

  function SubsElements(ss: seq<SectionDict>): seq<Element>
    decreases ss, 0
  {
    if ss == [] then [] else SubsElements(ss[..|ss| - 1]) + SectionElements(ss[|ss| - 1])
  }

  /** A blank heading is skipped, but the section's blocks and subsections
      are still rendered; a non-blank one comes first, stripped. */
  lemma SectionHeadingRule(s: SectionDict)
    ensures IsBlank(s.heading) ==>
      SectionElements(s) == BlockElements(s.blocks) + SubsElements(s.subsections)
    ensures !IsBlank(s.heading) ==>
      |SectionElements(s)| > 0
      && SectionElements(s)[0] == HeadingElement(s.heading, s.level)
      && SectionElements(s)[0].HeadingPara? && SectionElements(s)[0].text == Strip(s.heading)
  {
    StripEmptyIffBlank(s.heading);
    StripSetIdempotent(s.heading, Whitespace);
    if IsBlank(s.heading) {
      assert [] + BlockElements(s.blocks) == BlockElements(s.blocks);
    }
  }

  // ---------------------------------------------------------------------
  // The builder's operations on a document

  /** `add_heading`. */
  method AddHeading(doc: Document, text: string, level: int)
    modifies doc
    ensures doc.body == old(doc.body) + [HeadingElement(text, level)]
    ensures SettingsUnchanged(doc)
  {
    doc.Add(HeadingElement(text, level));
  }

  /** `add_paragraph`: the runs come from the format-map and run-building
      loops. */
  method AddParagraph(doc: Document, b: BlockDict)
    modifies doc
    ensures doc.body == old(doc.body) + [ParagraphElement(b)]
    ensures SettingsUnchanged(doc)
  {
    var content := Strip(b.content);
    var runs: seq<Run> := [];
    if content != [] {
      if b.ranges == [] {
        runs := [PlainRun(content)];
      } else {
        var v := ValidateAndSortRanges(b.ranges, |content|);
        ValidateAndSortSpec(b.ranges, |content|);
        if v == [] {
          runs := [PlainRun(content)];
        } else {
          var formats := BuildCharacterFormatMap(v, |content|);
          var segs := CreateFormattedRuns(content, formats);
          runs := SegmentRuns(segs);
        }
      }
    }
    doc.Add(Para(runs, None, Some(AlignmentOf(Lower(b.alignment))),
                 PositiveSpacing(b.spacingBefore), PositiveSpacing(b.spacingAfter), None, None));
  }

  /** `_process_content_block`. */
  method ProcessContentBlock(doc: Document, b: BlockDict)
    modifies doc
    ensures doc.body == old(doc.body) + [BlockElement(b)]
    ensures SettingsUnchanged(doc)
  {
    var t := Lower(b.blockType);
    if t == "paragraph" {
      AddParagraph(doc, b);
    } else if t == "heading" {
      AddHeading(doc, b.content, b.level);
    } else if t == "page_break" {
      doc.Add(PageBreak);
    } else {
      AddParagraph(doc, b);
    }
  }

  /** The blocks of a section, in order. */
  method AddBlocks(doc: Document, bs: seq<BlockDict>)
    modifies doc
    ensures doc.body == old(doc.body) + BlockElements(bs)
    ensures SettingsUnchanged(doc)
  {
    var i := 0;
    while i < |bs|
      invariant 0 <= i <= |bs|
      invariant doc.body == old(doc.body) + BlockElements(bs[..i])
      invariant SettingsUnchanged(doc)
    {
      assert bs[..i + 1][..i] == bs[..i];
      ghost var done := BlockElements(bs[..i]);
      ghost var e := BlockElement(bs[i]);
      assert BlockElements(bs[..i + 1]) == done + [e];
      ProcessContentBlock(doc, bs[i]);
      Assoc3(old(doc.body), done, [e]);
      i := i + 1;
    }
    assert bs[..i] == bs;
  }

  /** `add_section`: heading unless blank, blocks, then subsections. */
  method AddSection(doc: Document, s: SectionDict)
    modifies doc
    ensures doc.body == old(doc.body) + SectionElements(s)
    ensures SettingsUnchanged(doc)
    decreases s, 1
  {
    var heading := Strip(s.heading);
    ghost var h: seq<Element> := if heading != [] then [HeadingElement(heading, s.level)] else [];
    if heading != [] {
      AddHeading(doc, heading, s.level);
    }
    assert doc.body == old(doc.body) + h;
    AddBlocks(doc, s.blocks);
    AddSubsections(doc, s.subsections);
    AppendAssoc(old(doc.body), h, BlockElements(s.blocks), SubsElements(s.subsections));
  }

  lemma AppendAssoc(a: seq<Element>, b: seq<Element>, c: seq<Element>, d: seq<Element>)
    ensures a + b + c + d == a + (b + c + d)
  {
  }

  lemma Assoc3(a: seq<Element>, b: seq<Element>, c: seq<Element>)
    ensures (a + b) + c == a + (b + c)
  {
  }

  lemma SubsElementsSnoc(ss: seq<SectionDict>, j: nat)
    requires j < |ss|
    ensures SubsElements(ss[..j + 1]) == SubsElements(ss[..j]) + SectionElements(ss[j])
  {
    assert ss[..j + 1][..j] == ss[..j];
  }

  /** The subsections, each as a whole section, in order. */
  method AddSubsections(doc: Document, ss: seq<SectionDict>)
    modifies doc
    ensures doc.body == old(doc.body) + SubsElements(ss)
    ensures SettingsUnchanged(doc)
    decreases ss, 0
  {
    ghost var start := doc.body;
    var j := 0;
    while j < |ss|
      invariant 0 <= j <= |ss|
      invariant doc.body == start + SubsElements(ss[..j])
      invariant SettingsUnchanged(doc)
    {
      SubsElementsSnoc(ss, j);
      ghost var before := doc.body;
      AddSection(doc, ss[j]);
      assert doc.body == before + SectionElements(ss[j]);
      Assoc3(start, SubsElements(ss[..j]), SectionElements(ss[j]));
      j := j + 1;
    }
    assert ss[..j] == ss;
  }
}
