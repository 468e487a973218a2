/** `DocEngine.validate`: the structural check run before rendering. It
    walks the document tree and collects one error per violated rule, each
    tagged with the path of the offending section or block. */
module Validator {
  import opened Wrappers
  import opened Text
  import opened Schema

  /** One step of an error path: `sections[i]`, `.subsections[i]` or
      `.content_blocks[i]`. */
  datatype PathStep = SectionStep(i: nat) | SubsectionStep(i: nat) | BlockStep(i: nat)

  datatype ErrorKind =
    | TitleRequired
    | TypeRequired
    | NoSections
    | InvalidType(documentType: string)
    | SectionIdRequired
    | SectionHeadingRequired
    | SectionLevelRange(level: int)
    | SubsectionNotDeeper(subLevel: int, parentLevel: int)
    | HeadingLevelRange
    | TableDataRequired
    | TableEmpty
    | ListItemsRequired
    | SignatureRequired
    | Layout(rule: LayoutRule)

  /** The page-setup and styling checks, in the order `validate` runs them. */
  datatype LayoutRule =
    | PageWidthPositive
    | PageHeightPositive
    | TopMarginNonNegative
    | BottomMarginNonNegative
    | LeftMarginNonNegative
    | RightMarginNonNegative
    | FontSizePositive
    | LineSpacingPositive

  datatype ValidationError = ValidationError(path: seq<PathStep>, kind: ErrorKind)

  const ValidTypes: set<string> := {"icf", "dmp", "sap"}

  // ---------------------------------------------------------------------
  // The messages, as the engine words them

  function StepText(step: PathStep): string
  {
    match step
    case SectionStep(i) => "sections[" + NatToString(i) + "]"
    case SubsectionStep(i) => ".subsections[" + NatToString(i) + "]"
    case BlockStep(i) => ".content_blocks[" + NatToString(i) + "]"
  }

  function PathText(path: seq<PathStep>): string
  {
    if path == [] then "" else PathText(path[..|path| - 1]) + StepText(path[|path| - 1])
  }

  function KindText(kind: ErrorKind): string
  {
    match kind
    case TitleRequired => "Document title is required"
    case TypeRequired => "Document type is required"
    case NoSections => "Document must have at least one section"
    case InvalidType(t) => "Invalid document type '" + t + "'. Must be one of: icf, dmp, sap"
    case SectionIdRequired => "Section ID is required"
    case SectionHeadingRequired => "Section heading is required"
    case SectionLevelRange(l) => "Section level must be between 1 and 4, got " + IntToString(l)
    case SubsectionNotDeeper(sub, parent) =>
      "Subsection level (" + IntToString(sub) + ") must be greater than parent level (" + IntToString(parent) + ")"
    case HeadingLevelRange => "Heading level must be between 1 and 4"
    case TableDataRequired => "Table block requires table data"
    case TableEmpty => "Table must have headers or rows"
    case ListItemsRequired => "List block requires items"
    case SignatureRequired => "Signature block requires signature data"
    case Layout(r) => LayoutText(r)
  }

  function LayoutText(r: LayoutRule): string
  {
    match r
    case PageWidthPositive => "Page width must be positive"
    case PageHeightPositive => "Page height must be positive"
    case TopMarginNonNegative => "Top margin cannot be negative"
    case BottomMarginNonNegative => "Bottom margin cannot be negative"
    case LeftMarginNonNegative => "Left margin cannot be negative"
    case RightMarginNonNegative => "Right margin cannot be negative"
    case FontSizePositive => "Default font size must be positive"
    case LineSpacingPositive => "Line spacing must be positive"
  }

  /** The error string the engine appends: `"{path}: {text}"`, or the bare
      text for document-level errors. */
  function Message(e: ValidationError): string
  {
    if e.path == [] then KindText(e.kind) else PathText(e.path) + ": " + KindText(e.kind)
  }

  // ---------------------------------------------------------------------
  // The errors, as specification functions

  /** A single error when the condition holds, none otherwise. */
  function When(c: bool, e: ValidationError): (r: seq<ValidationError>)
    ensures forall x :: x in r <==> c && x == e
  {
    if c then [e] else []
  }

  function BlockErrors(b: ContentBlock, path: seq<PathStep>): seq<ValidationError>
  {
    match b.kind
    case HeadingType =>
      if b.level.None? || b.level.value < 1 || b.level.value > 4
      then [ValidationError(path, HeadingLevelRange)] else []
    case TableType =>
      if b.table.None? then [ValidationError(path, TableDataRequired)]
      else if b.table.value.headers == [] && b.table.value.rows == [] then [ValidationError(path, TableEmpty)]
      else []
    case BulletListType =>
      if b.items.None? || b.items.value == [] then [ValidationError(path, ListItemsRequired)] else []
    case NumberedListType =>
      if b.items.None? || b.items.value == [] then [ValidationError(path, ListItemsRequired)] else []
    case SignatureBlockType =>
      if b.signature.None? then [ValidationError(path, SignatureRequired)] else []
    case _ => []
  }

  /** Errors of the first `|bs|` blocks of a section at `path`. */
  function BlocksErrors(bs: seq<ContentBlock>, path: seq<PathStep>): seq<ValidationError>
  {
    if bs == [] then []
    else BlocksErrors(bs[..|bs| - 1], path) + BlockErrors(bs[|bs| - 1], path + [BlockStep(|bs| - 1)])
  }

  /** A section's own checks: id, heading and level. */
  function OwnErrors(s: Section, path: seq<PathStep>): seq<ValidationError>
  {
    When(s.id == "", ValidationError(path, SectionIdRequired))
    + When(s.heading == "", ValidationError(path, SectionHeadingRequired))
    + When(s.level < 1 || s.level > 4, ValidationError(path, SectionLevelRange(s.level)))
  }

  /** The depth check of one subsection against its parent's level. */
  function DepthErrors(parentLevel: int, sub: Section, subPath: seq<PathStep>): seq<ValidationError>
  {
    When(sub.level <= parentLevel, ValidationError(subPath, SubsectionNotDeeper(sub.level, parentLevel)))
  }

  /** `_validate_section`: own checks, then blocks, then every subsection
      (depth check, then its own errors). */
  function SectionErrors(s: Section, path: seq<PathStep>): seq<ValidationError>
    decreases s, 1
  {
    OwnErrors(s, path) + BlocksErrors(s.blocks, path) + SubsErrors(s.level, s.subsections, path)
  }

  function SubsErrors(parentLevel: int, subs: seq<Section>, path: seq<PathStep>): seq<ValidationError>
    decreases subs, 0
  {
    if subs == [] then []
    else
      var i := |subs| - 1;
      SubsErrors(parentLevel, subs[..i], path)
      + DepthErrors(parentLevel, subs[i], path + [SubsectionStep(i)])
      + SectionErrors(subs[i], path + [SubsectionStep(i)])
  }

  function TopSectionsErrors(ss: seq<Section>): seq<ValidationError>
  {
    if ss == [] then []
    else TopSectionsErrors(ss[..|ss| - 1]) + SectionErrors(ss[|ss| - 1], [SectionStep(|ss| - 1)])
  }

  function HeadErrors(doc: UniversalDocument): seq<ValidationError>
  {
    When(doc.title == "", ValidationError([], TitleRequired))
    + When(doc.documentType == "", ValidationError([], TypeRequired))
    + When(doc.sections == [], ValidationError([], NoSections))
    + When(doc.documentType != "" && Lower(doc.documentType) !in ValidTypes,
           ValidationError([], InvalidType(doc.documentType)))
  }

  const LayoutRules: seq<LayoutRule> :=
    [PageWidthPositive, PageHeightPositive, TopMarginNonNegative, BottomMarginNonNegative,
     LeftMarginNonNegative, RightMarginNonNegative, FontSizePositive, LineSpacingPositive]

  /** The condition under which a layout rule is reported as broken. */
  predicate Broken(doc: UniversalDocument, r: LayoutRule)
  {
    var ps := doc.pageSetup;
    match r
    case PageWidthPositive => ps.pageWidth <= 0.0
    case PageHeightPositive => ps.pageHeight <= 0.0
    case TopMarginNonNegative => ps.marginTop < 0.0
    case BottomMarginNonNegative => ps.marginBottom < 0.0
    case LeftMarginNonNegative => ps.marginLeft < 0.0
    case RightMarginNonNegative => ps.marginRight < 0.0
    case FontSizePositive => doc.styling.defaultFontSize <= 0
    case LineSpacingPositive => doc.styling.lineSpacing <= 0.0
  }

  function RuleErrors(doc: UniversalDocument, rules: seq<LayoutRule>): seq<ValidationError>
  {
    if rules == [] then []
    else When(Broken(doc, rules[0]), ValidationError([], Layout(rules[0]))) + RuleErrors(doc, rules[1..])
  }

  function LayoutErrors(doc: UniversalDocument): seq<ValidationError>
  {
    RuleErrors(doc, LayoutRules)
  }

  /** Every error `validate` reports, in the order it reports them. */
  function DocErrors(doc: UniversalDocument): seq<ValidationError>
  {
    HeadErrors(doc) + TopSectionsErrors(doc.sections) + LayoutErrors(doc)
  }

  // ---------------------------------------------------------------------
  // The procedures, as the engine runs them

  method ValidateContentBlock(b: ContentBlock, path: seq<PathStep>, errors: seq<ValidationError>)
    returns (out: seq<ValidationError>)
    ensures out == errors + BlockErrors(b, path)
  {
    out := errors;
    match b.kind {
      case HeadingType =>
        if b.level.None? || b.level.value < 1 || b.level.value > 4 {
          out := out + [ValidationError(path, HeadingLevelRange)];
        }
      case TableType =>
        if b.table.None? {
          out := out + [ValidationError(path, TableDataRequired)];
        } else if b.table.value.headers == [] && b.table.value.rows == [] {
          out := out + [ValidationError(path, TableEmpty)];
        }
      case BulletListType =>
        if b.items.None? || b.items.value == [] {
          out := out + [ValidationError(path, ListItemsRequired)];
        }
      case NumberedListType =>
        if b.items.None? || b.items.value == [] {
          out := out + [ValidationError(path, ListItemsRequired)];
        }
      case SignatureBlockType =>
        if b.signature.None? {
          out := out + [ValidationError(path, SignatureRequired)];
        }
      case _ =>
    }
  }

  lemma AppendAssoc(a: seq<ValidationError>, b: seq<ValidationError>, c: seq<ValidationError>)
    ensures (a + b) + c == a + (b + c)
  {
  }

  lemma BlocksErrorsSnoc(bs: seq<ContentBlock>, i: nat, path: seq<PathStep>)
    requires i < |bs|
    ensures BlocksErrors(bs[..i + 1], path) == BlocksErrors(bs[..i], path) + BlockErrors(bs[i], path + [BlockStep(i)])
  {
    assert bs[..i + 1][..i] == bs[..i];
  }

  /** One turn of the subsection loop extends the reported errors by the
      depth check and the subsection's own errors. */
  lemma SubsErrorsStep(level: int, subs: seq<Section>, j: nat, path: seq<PathStep>)
    requires j < |subs|
    ensures SubsErrors(level, subs[..j + 1], path) ==
      SubsErrors(level, subs[..j], path) + (DepthErrors(level, subs[j], path + [SubsectionStep(j)])
      + SectionErrors(subs[j], path + [SubsectionStep(j)]))
  {
    var prefix := subs[..j + 1];
    assert prefix[..j] == subs[..j] && prefix[j] == subs[j];
  }

  /** `_validate_section`: the section's own checks, then its blocks, then
      its subsections. */
  method ValidateSection(s: Section, path: seq<PathStep>, errors: seq<ValidationError>)
    returns (out: seq<ValidationError>)
    ensures out == errors + SectionErrors(s, path)
    decreases s, 1
  {
    out := errors;
    if s.id == "" {
      out := out + [ValidationError(path, SectionIdRequired)];
    }
    if s.heading == "" {
      out := out + [ValidationError(path, SectionHeadingRequired)];
    }
    if s.level < 1 || s.level > 4 {
      out := out + [ValidationError(path, SectionLevelRange(s.level))];
    }
    assert out == errors + OwnErrors(s, path);
    out := ValidateBlocks(s.blocks, path, out);
    out := ValidateSubsections(s.level, s.subsections, path, out);
    AppendAssoc(errors, OwnErrors(s, path), BlocksErrors(s.blocks, path));
    AppendAssoc(errors, OwnErrors(s, path) + BlocksErrors(s.blocks, path), SubsErrors(s.level, s.subsections, path));
  }

  /** The loop over a section's blocks. */
  method ValidateBlocks(bs: seq<ContentBlock>, path: seq<PathStep>, errors: seq<ValidationError>)
    returns (out: seq<ValidationError>)
    ensures out == errors + BlocksErrors(bs, path)
  {
    out := errors;
    var i := 0;
    while i < |bs|
      invariant 0 <= i <= |bs|
      invariant out == errors + BlocksErrors(bs[..i], path)
    {
      BlocksErrorsSnoc(bs, i, path);
      AppendAssoc(errors, BlocksErrors(bs[..i], path), BlockErrors(bs[i], path + [BlockStep(i)]));
      out := ValidateContentBlock(bs[i], path + [BlockStep(i)], out);
      i := i + 1;
    }
    assert bs[..i] == bs;
  }

  /** The loop over a section's subsections. */
  method ValidateSubsections(parentLevel: int, subs: seq<Section>, path: seq<PathStep>, errors: seq<ValidationError>)
    returns (out: seq<ValidationError>)
    ensures out == errors + SubsErrors(parentLevel, subs, path)
    decreases subs, 0
  {
    out := errors;
    var j := 0;
    while j < |subs|
      invariant 0 <= j <= |subs|
      invariant out == errors + SubsErrors(parentLevel, subs[..j], path)
    {
      ghost var done := SubsErrors(parentLevel, subs[..j], path);
      ghost var step := DepthErrors(parentLevel, subs[j], path + [SubsectionStep(j)])
                        + SectionErrors(subs[j], path + [SubsectionStep(j)]);
      out := ValidateSubsection(parentLevel, subs[j], path + [SubsectionStep(j)], out);
      SubsErrorsStep(parentLevel, subs, j, path);
      AppendAssoc(errors, done, step);
      j := j + 1;
    }
    assert subs[..j] == subs;
  }

  /** One subsection: the depth check, then the subsection itself. */
  method ValidateSubsection(parentLevel: int, sub: Section, subPath: seq<PathStep>, errors: seq<ValidationError>)
    returns (out: seq<ValidationError>)
    ensures out == errors + (DepthErrors(parentLevel, sub, subPath) + SectionErrors(sub, subPath))
    decreases sub, 2
  {
    out := errors;
    if sub.level <= parentLevel {
      out := out + [ValidationError(subPath, SubsectionNotDeeper(sub.level, parentLevel))];
    }
    ghost var depth := DepthErrors(parentLevel, sub, subPath);
    assert out == errors + depth;
    out := ValidateSection(sub, subPath, out);
    AppendAssoc(errors, depth, SectionErrors(sub, subPath));
  }

  lemma TopSectionsErrorsSnoc(ss: seq<Section>, i: nat)
    requires i < |ss|
    ensures TopSectionsErrors(ss[..i + 1]) == TopSectionsErrors(ss[..i]) + SectionErrors(ss[i], [SectionStep(i)])
  {
    assert ss[..i + 1][..i] == ss[..i];
  }

  /** `validate`: the document is valid exactly when no error was found. */
  method Validate(doc: UniversalDocument) returns (valid: bool, errors: seq<ValidationError>)
    ensures errors == DocErrors(doc)
    ensures valid <==> errors == []
  {
    errors := HeadErrors(doc);
    var i := 0;
    while i < |doc.sections|
      invariant 0 <= i <= |doc.sections|
      invariant errors == HeadErrors(doc) + TopSectionsErrors(doc.sections[..i])
    {
      TopSectionsErrorsSnoc(doc.sections, i);
      AppendAssoc(HeadErrors(doc), TopSectionsErrors(doc.sections[..i]), SectionErrors(doc.sections[i], [SectionStep(i)]));
      errors := ValidateSection(doc.sections[i], [SectionStep(i)], errors);
      i := i + 1;
    }
    assert doc.sections[..i] == doc.sections;
    errors := errors + LayoutErrors(doc);
    valid := |errors| == 0;
  }

  // ---------------------------------------------------------------------
  // An independent, declarative statement of validity

  predicate WellFormedBlock(b: ContentBlock)
  {
    (b.kind == HeadingType ==> b.level.Some? && 1 <= b.level.value <= 4)
    && (b.kind == TableType ==> b.table.Some? && (b.table.value.headers != [] || b.table.value.rows != []))
    && (b.kind in {BulletListType, NumberedListType} ==> b.items.Some? && b.items.value != [])
    && (b.kind == SignatureBlockType ==> b.signature.Some?)
  }

  /** A well-formed section: id and heading present, level in 1..4, every
      block well-formed, and every subsection strictly deeper and itself
      well-formed. */
  predicate WellFormedSection(s: Section)
    decreases s
  {
    s.id != "" && s.heading != "" && 1 <= s.level <= 4
    && (forall k :: 0 <= k < |s.blocks| ==> WellFormedBlock(s.blocks[k]))
    && (forall k :: 0 <= k < |s.subsections| ==>
          s.subsections[k].level > s.level && WellFormedSection(s.subsections[k]))
  }

  /** Title and type present, at least one section, and a known type. */
  predicate WellFormedHead(doc: UniversalDocument)
  {
    doc.title != "" && doc.documentType != "" && doc.sections != []
    && Lower(doc.documentType) in ValidTypes
  }

  /** Positive page size, non-negative margins, positive font size and
      line spacing. */
  predicate WellFormedLayout(doc: UniversalDocument)
  {
    doc.pageSetup.pageWidth > 0.0 && doc.pageSetup.pageHeight > 0.0
    && doc.pageSetup.marginTop >= 0.0 && doc.pageSetup.marginBottom >= 0.0
    && doc.pageSetup.marginLeft >= 0.0 && doc.pageSetup.marginRight >= 0.0
    && doc.styling.defaultFontSize > 0 && doc.styling.lineSpacing > 0.0
  }

  predicate WellFormedDocument(doc: UniversalDocument)
  {
    WellFormedHead(doc)
    && (forall k :: 0 <= k < |doc.sections| ==> WellFormedSection(doc.sections[k]))
    && WellFormedLayout(doc)
  }

  lemma BlockErrorsEmptyIff(b: ContentBlock, path: seq<PathStep>)
    ensures BlockErrors(b, path) == [] <==> WellFormedBlock(b)
  {
  }

  lemma {:induction false} BlocksErrorsEmptyIff(bs: seq<ContentBlock>, path: seq<PathStep>)
    ensures BlocksErrors(bs, path) == [] <==> forall k :: 0 <= k < |bs| ==> WellFormedBlock(bs[k])
  {
    if bs != [] {
      var n := |bs| - 1;
      BlocksErrorsEmptyIff(bs[..n], path);
      BlockErrorsEmptyIff(bs[n], path + [BlockStep(n)]);
      assert forall k :: 0 <= k < n ==> bs[..n][k] == bs[k];
    }
  }

  lemma {:induction false} SectionErrorsEmptyIff(s: Section, path: seq<PathStep>)
    ensures SectionErrors(s, path) == [] <==> WellFormedSection(s)
    decreases s, 1
  {
    BlocksErrorsEmptyIff(s.blocks, path);
    SubsErrorsEmptyIff(s.level, s.subsections, path);
  }

  lemma {:induction false} SubsErrorsEmptyIff(parentLevel: int, subs: seq<Section>, path: seq<PathStep>)
    ensures SubsErrors(parentLevel, subs, path) == [] <==>
      forall k :: 0 <= k < |subs| ==> subs[k].level > parentLevel && WellFormedSection(subs[k])
    decreases subs, 0
  {
    if subs != [] {
      var n := |subs| - 1;
      SubsErrorsEmptyIff(parentLevel, subs[..n], path);
      SectionErrorsEmptyIff(subs[n], path + [SubsectionStep(n)]);
      var front := SubsErrors(parentLevel, subs[..n], path);
      var depth := DepthErrors(parentLevel, subs[n], path + [SubsectionStep(n)]);
      var last := SectionErrors(subs[n], path + [SubsectionStep(n)]);
      assert SubsErrors(parentLevel, subs, path) == front + depth + last;
      ConcatEmpty(front + depth, last);
      ConcatEmpty(front, depth);
      SubsWellFormedSnoc(parentLevel, subs, n);
    }
  }

  lemma SubsWellFormedSnoc(parentLevel: int, subs: seq<Section>, n: nat)
    requires n + 1 == |subs|
    ensures (forall k :: 0 <= k < |subs| ==> subs[k].level > parentLevel && WellFormedSection(subs[k])) <==>
      (forall k :: 0 <= k < n ==> subs[..n][k].level > parentLevel && WellFormedSection(subs[..n][k]))
      && subs[n].level > parentLevel && WellFormedSection(subs[n])
  {
    assert forall k :: 0 <= k < n ==> subs[..n][k] == subs[k];
  }

  lemma ConcatEmpty(a: seq<ValidationError>, b: seq<ValidationError>)
    ensures a + b == [] <==> a == [] && b == []
  {
    assert |a + b| == |a| + |b|;
  }

  lemma {:induction false} TopSectionsErrorsEmptyIff(ss: seq<Section>)
    ensures TopSectionsErrors(ss) == [] <==> forall k :: 0 <= k < |ss| ==> WellFormedSection(ss[k])
  {
    if ss != [] {
      var n := |ss| - 1;
      var front, last := TopSectionsErrors(ss[..n]), SectionErrors(ss[n], [SectionStep(n)]);
      assert TopSectionsErrors(ss) == front + last;
      ConcatEmpty(front, last);
      TopSectionsErrorsEmptyIff(ss[..n]);
      SectionErrorsEmptyIff(ss[n], [SectionStep(n)]);
      AllWellFormedSnoc(ss, n);
    }
  }

  lemma AllWellFormedSnoc(ss: seq<Section>, n: nat)
    requires n + 1 == |ss|
    ensures (forall k :: 0 <= k < |ss| ==> WellFormedSection(ss[k])) <==>
      (forall k :: 0 <= k < n ==> WellFormedSection(ss[..n][k])) && WellFormedSection(ss[n])
  {
    assert forall k :: 0 <= k < n ==> ss[..n][k] == ss[k];
  }

  lemma LayoutErrorsEmptyIff(doc: UniversalDocument)
    ensures LayoutErrors(doc) == [] <==> forall r: LayoutRule :: !Broken(doc, r)
  {
    if LayoutErrors(doc) != [] {
      RuleErrorsIn(doc, LayoutRules, LayoutErrors(doc)[0]);
    }
    forall r: LayoutRule | Broken(doc, r) ensures LayoutErrors(doc) != [] {
      RuleErrorsIn(doc, LayoutRules, ValidationError([], Layout(r)));
    }
  }

  lemma HeadErrorsEmptyIff(doc: UniversalDocument)
    ensures HeadErrors(doc) == [] <==> WellFormedHead(doc)
  {
  }

  lemma LayoutErrorsEmptyIffWellFormed(doc: UniversalDocument)
    ensures LayoutErrors(doc) == [] <==> WellFormedLayout(doc)
  {
    LayoutErrorsEmptyIff(doc);
    assert (forall r: LayoutRule :: !Broken(doc, r)) <==>
      !Broken(doc, PageWidthPositive) && !Broken(doc, PageHeightPositive)
      && !Broken(doc, TopMarginNonNegative) && !Broken(doc, BottomMarginNonNegative)
      && !Broken(doc, LeftMarginNonNegative) && !Broken(doc, RightMarginNonNegative)
      && !Broken(doc, FontSizePositive) && !Broken(doc, LineSpacingPositive);
  }

  /** `validate` accepts a document exactly when it is well-formed. */
  lemma ValidIffWellFormed(doc: UniversalDocument)
    ensures DocErrors(doc) == [] <==> WellFormedDocument(doc)
  {
    var h, t, l := HeadErrors(doc), TopSectionsErrors(doc.sections), LayoutErrors(doc);
    assert DocErrors(doc) == h + t + l;
    ConcatEmpty(h + t, l);
    ConcatEmpty(h, t);
    HeadErrorsEmptyIff(doc);
    TopSectionsErrorsEmptyIff(doc.sections);
    LayoutErrorsEmptyIffWellFormed(doc);
  }

  // ---------------------------------------------------------------------
  // Where each error is reported

  /** Every error found inside a section lies at or below that section's
      path; errors at exactly that path are the section's own checks. */
  lemma {:induction false} SectionErrorsUnder(s: Section, path: seq<PathStep>)
    ensures forall e :: e in SectionErrors(s, path) ==> path <= e.path
    ensures forall e :: e in SectionErrors(s, path) && |e.path| == |path| ==>
              e.kind.SectionIdRequired? || e.kind.SectionHeadingRequired? || e.kind.SectionLevelRange?
    decreases s, 1
  {
    BlocksErrorsUnder(s.blocks, path);
    SubsErrorsUnder(s.level, s.subsections, path);
  }

  lemma {:induction false} BlocksErrorsUnder(bs: seq<ContentBlock>, path: seq<PathStep>)
    ensures forall e :: e in BlocksErrors(bs, path) ==> |e.path| == |path| + 1 && e.path[..|path|] == path
  {
    if bs != [] {
      BlocksErrorsUnder(bs[..|bs| - 1], path);
    }
  }

  lemma {:induction false} SubsErrorsUnder(parentLevel: int, subs: seq<Section>, path: seq<PathStep>)
    ensures forall e :: e in SubsErrors(parentLevel, subs, path) ==>
              |e.path| > |path| && e.path[..|path|] == path && e.path[|path|].SubsectionStep?
              && e.path[|path|].i < |subs|
    decreases subs, 0
  {
    if subs != [] {
      var n := |subs| - 1;
      SubsErrorsUnder(parentLevel, subs[..n], path);
      var p := path + [SubsectionStep(n)];
      SectionErrorsUnder(subs[n], p);
      forall e | e in SectionErrors(subs[n], p)
        ensures |e.path| > |path| && e.path[..|path|] == path && e.path[|path|] == SubsectionStep(n)
      {
        assert p <= e.path;
        assert e.path[..|path|] == p[..|path|];
      }
    }
  }

  lemma {:induction false} TopSectionsErrorsUnder(ss: seq<Section>)
    ensures forall e :: e in TopSectionsErrors(ss) ==> |e.path| > 0 && e.path[0].SectionStep?
  {
    if ss != [] {
      var n := |ss| - 1;
      TopSectionsErrorsUnder(ss[..n]);
      SectionErrorsUnder(ss[n], [SectionStep(n)]);
    }
  }

  /** The layout errors are exactly the broken rules of the list. */
  lemma {:induction false} RuleErrorsIn(doc: UniversalDocument, rules: seq<LayoutRule>, e: ValidationError)
    ensures e in RuleErrors(doc, rules) <==>
      e.path == [] && e.kind.Layout? && e.kind.rule in rules && Broken(doc, e.kind.rule)
  {
    if rules != [] {
      RuleErrorsIn(doc, rules[1..], e);
      assert rules == [rules[0]] + rules[1..];
    }
  }

  /** The errors `validate` reports without a path are exactly the
      document-level ones. */
  lemma DocumentLevelSplit(doc: UniversalDocument, e: ValidationError)
    requires e.path == []
    ensures e in DocErrors(doc) <==> e in HeadErrors(doc) || e in LayoutErrors(doc)
  {
    TopSectionsErrorsUnder(doc.sections);
  }

  lemma HeadErrorsIff(doc: UniversalDocument)
    ensures ValidationError([], TitleRequired) in HeadErrors(doc) <==> doc.title == ""
    ensures ValidationError([], TypeRequired) in HeadErrors(doc) <==> doc.documentType == ""
    ensures ValidationError([], NoSections) in HeadErrors(doc) <==> doc.sections == []
    ensures ValidationError([], InvalidType(doc.documentType)) in HeadErrors(doc) <==>
              doc.documentType != "" && Lower(doc.documentType) !in ValidTypes
  {
  }

  /** The document-level rules: each is reported, without a path, exactly
      when its condition holds. */
  lemma HeadLevelErrors(doc: UniversalDocument)
    ensures ValidationError([], TitleRequired) in DocErrors(doc) <==> doc.title == ""
    ensures ValidationError([], TypeRequired) in DocErrors(doc) <==> doc.documentType == ""
    ensures ValidationError([], NoSections) in DocErrors(doc) <==> doc.sections == []
    ensures ValidationError([], InvalidType(doc.documentType)) in DocErrors(doc) <==>
              doc.documentType != "" && Lower(doc.documentType) !in ValidTypes
  {
    HeadErrorsIff(doc);
    HeadOnly(doc, ValidationError([], TitleRequired));
    HeadOnly(doc, ValidationError([], TypeRequired));
    HeadOnly(doc, ValidationError([], NoSections));
    HeadOnly(doc, ValidationError([], InvalidType(doc.documentType)));
  }

  /** A document-level error that is not a layout error comes from the
      head checks alone. */
  lemma HeadOnly(doc: UniversalDocument, e: ValidationError)
    requires e.path == [] && !e.kind.Layout?
    ensures e in DocErrors(doc) <==> e in HeadErrors(doc)
  {
    DocumentLevelSplit(doc, e);
    RuleErrorsIn(doc, LayoutRules, e);
  }

  /** The page-setup and styling rules: each is reported, without a path,
      exactly when it is broken. */
  lemma LayoutLevelErrors(doc: UniversalDocument, r: LayoutRule)
    ensures ValidationError([], Layout(r)) in DocErrors(doc) <==> Broken(doc, r)
  {
    var e := ValidationError([], Layout(r));
    DocumentLevelSplit(doc, e);
    RuleErrorsIn(doc, LayoutRules, e);
  }

  /** A section's own rules: each is reported at the section's path exactly
      when its condition holds. */
  lemma SectionLevelErrors(s: Section, path: seq<PathStep>)
    ensures ValidationError(path, SectionIdRequired) in SectionErrors(s, path) <==> s.id == ""
    ensures ValidationError(path, SectionHeadingRequired) in SectionErrors(s, path) <==> s.heading == ""
    ensures ValidationError(path, SectionLevelRange(s.level)) in SectionErrors(s, path) <==> s.level < 1 || s.level > 4
  {
    BlocksErrorsUnder(s.blocks, path);
    SubsErrorsUnder(s.level, s.subsections, path);
  }

  /** The depth rule: the error at `.subsections[k]` of a section is
      reported exactly when that subsection is not strictly deeper. */
  lemma SubsectionDepthError(s: Section, path: seq<PathStep>, k: nat)
    requires k < |s.subsections|
    ensures var c := s.subsections[k];
      ValidationError(path + [SubsectionStep(k)], SubsectionNotDeeper(c.level, s.level)) in SectionErrors(s, path)
      <==> c.level <= s.level
  {
    var c := s.subsections[k];
    var e := ValidationError(path + [SubsectionStep(k)], SubsectionNotDeeper(c.level, s.level));
    OwnAndBlocksNotDeeper(s, path);
    SubsDepthError(s.level, s.subsections, path, k);
  }

  lemma OwnAndBlocksNotDeeper(s: Section, path: seq<PathStep>)
    ensures forall e :: e in OwnErrors(s, path) + BlocksErrors(s.blocks, path) ==> !e.kind.SubsectionNotDeeper?
  {
    BlocksNoDepth(s.blocks, path);
  }

  lemma {:induction false} BlocksNoDepth(bs: seq<ContentBlock>, path: seq<PathStep>)
    ensures forall e :: e in BlocksErrors(bs, path) ==> !e.kind.SubsectionNotDeeper?
  {
    if bs != [] {
      BlocksNoDepth(bs[..|bs| - 1], path);
    }
  }

  lemma {:induction false} SubsDepthError(parentLevel: int, subs: seq<Section>, path: seq<PathStep>, k: nat)
    requires k < |subs|
    ensures ValidationError(path + [SubsectionStep(k)], SubsectionNotDeeper(subs[k].level, parentLevel))
              in SubsErrors(parentLevel, subs, path)
            <==> subs[k].level <= parentLevel
    decreases subs
  {
    var n := |subs| - 1;
    var e := ValidationError(path + [SubsectionStep(k)], SubsectionNotDeeper(subs[k].level, parentLevel));
    var p := path + [SubsectionStep(n)];
    var front := SubsErrors(parentLevel, subs[..n], path);
    var depth := DepthErrors(parentLevel, subs[n], p);
    var last := SectionErrors(subs[n], p);
    assert SubsErrors(parentLevel, subs, path) == front + depth + last;
    assert e.path[|path|] == SubsectionStep(k);
    SectionErrorsUnder(subs[n], p);
    assert e !in last;
    if k < n {
      SubsDepthError(parentLevel, subs[..n], path, k);
      assert subs[..n][k] == subs[k];
      assert e !in depth;
    } else {
      SubsErrorsUnder(parentLevel, subs[..n], path);
      assert e !in front;
    }
  }
}
