/** The statistical analysis plan document: the thirteen sections of
    `_build_sections` in their fixed order, and `build_document`. */
module Sap {
  import opened Wrappers
  import opened PyValue
  import opened Schema
  import opened SapTexts
  import opened SapContent
  import opened SapSections
  import WorkflowBase

  // ---------------------------------------------------------------------
  // The thirteen sections

  datatype Part =
    | TitlePage | VersionHistory | TableOfContents | Introduction | ObjectivesEndpoints
    | StudyDesign | Populations | StatisticalMethods | SampleSize | MissingData
    | InterimAnalysis | TablesListingsFigures | Signatures

  /** `_build_sections`: the builders in the order they are called. */
  const Parts: seq<Part> := [
    TitlePage, VersionHistory, TableOfContents, Introduction, ObjectivesEndpoints,
    StudyDesign, Populations, StatisticalMethods, SampleSize, MissingData,
    InterimAnalysis, TablesListingsFigures, Signatures
  ]

  function PartId(p: Part): string
  {
    match p
    case TitlePage => "title_page"
    case VersionHistory => "version_history"
    case TableOfContents => "toc"
    case Introduction => "introduction"
    case ObjectivesEndpoints => "objectives_endpoints"
    case StudyDesign => "study_design"
    case Populations => "populations"
    case StatisticalMethods => "statistical_methods"
    case SampleSize => "sample_size"
    case MissingData => "missing_data"
    case InterimAnalysis => "interim_analysis"
    case TablesListingsFigures => "tlf_shells"
    case Signatures => "signatures"
  }

  function PartHeading(p: Part): string
  {
    match p
    case TitlePage => "Title Page"
    case VersionHistory => "VERSION HISTORY"
    case TableOfContents => "TABLE OF CONTENTS"
    case Introduction => "1. INTRODUCTION"
    case ObjectivesEndpoints => "2. STUDY OBJECTIVES AND ENDPOINTS"
    case StudyDesign => "3. STUDY DESIGN OVERVIEW"
    case Populations => "4. ANALYSIS POPULATIONS"
    case StatisticalMethods => "5. STATISTICAL METHODS"
    case SampleSize => "6. SAMPLE SIZE AND POWER"
    case MissingData => "7. HANDLING OF MISSING DATA"
    case InterimAnalysis => "8. INTERIM ANALYSIS"
    case TablesListingsFigures => "9. TABLES, LISTINGS, AND FIGURES"
    case Signatures => "SIGNATURE PAGE"
  }

  /** The blocks and subsections of a section whose builder is not part of
      this model (design, populations, methods, sample size, interim). */
  datatype Body = Body(blocks: seq<ContentBlock>, subsections: seq<Section>)

  /** What the builders return on one input: the title page, the four
      sections built from the content (each a section or the error its
      builder raises), and the builders outside the model. */
  datatype Built = Built(
    titlePage: Section,
    introduction: Result<Section, string>,
    endpoints: Result<Section, string>,
    missingData: Result<Section, string>,
    tlf: Result<Section, string>,
    other: Part -> Result<Body, string>)

  /** The builders' results on the given content and protocol data. */
  function BuiltFrom(content: Content, pd: Content, date: string, other: Part -> Result<Body, string>): Built
  {
    Built(TitlePageSection(pd, date), IntroductionSection(content, pd), EndpointsSection(content, pd),
          MissingDataSection(content), TlfSection(content), other)
  }

  /** Runs the builders of the model: the ones with loops are methods,
      the others functions. */
  method RunBuilders(content: Content, pd: Content, date: string, other: Part -> Result<Body, string>)
    returns (b: Built)
    ensures b == BuiltFrom(content, pd, date, other)
  {
    var introduction := BuildIntroduction(content, pd);
    var endpoints := BuildEndpoints(content, pd);
    var missingData := BuildMissingData(content);
    b := Built(TitlePageSection(pd, date), introduction, endpoints, missingData, TlfSection(content), other);
  }

  /** The section one builder returns, or the error it raises. */
  function PartSection(p: Part, b: Built): Result<Section, string>
  {
    match p
    case TitlePage => Ok(b.titlePage)
    case VersionHistory => Ok(VersionHistorySection)
    case TableOfContents => Ok(TocSection)
    case Introduction => b.introduction
    case ObjectivesEndpoints => b.endpoints
    case MissingData => b.missingData
    case TablesListingsFigures => b.tlf
    case Signatures => Ok(SignaturePage)
    case _ =>
      match b.other(p)
      case Err(e) => Err(e)
      case Ok(body) => Ok(Section(PartId(p), 1, PartHeading(p), body.blocks, body.subsections))
  }

  /** The builders run in order; the first to fail ends the build. */
  function Sections(ps: seq<Part>, b: Built): Result<seq<Section>, string>
  {
    if ps == [] then Ok([])
    else
      match Sections(ps[..|ps| - 1], b)
      case Err(e) => Err(e)
      case Ok(ss) =>
        match PartSection(ps[|ps| - 1], b)
        case Err(e) => Err(e)
        case Ok(s) => Ok(ss + [s])
  }

  /** `_build_sections`, appending each builder's section in turn; an
      exception from a builder ends the build. */
  method BuildSections(b: Built) returns (r: Result<seq<Section>, string>)
    ensures r == Sections(Parts, b)
  {
    var sections: seq<Section> := [];
    for i := 0 to |Parts|
      invariant Sections(Parts[..i], b) == Ok(sections)
    {
      assert Parts[..i + 1][..i] == Parts[..i];
      var s := PartSection(Parts[i], b);
      if s.Err? {
        ErrorPersists(Parts, i + 1, b);
        return Err(s.error);
      }
      sections := sections + [s.value];
    }
    assert Parts[..|Parts|] == Parts;
    r := Ok(sections);
  }

  /** Once a prefix of the builders fails, the whole run fails with the
      same error. */
  lemma {:induction false} ErrorPersists(ps: seq<Part>, n: nat, b: Built)
    requires n <= |ps| && Sections(ps[..n], b).Err?
    ensures Sections(ps, b) == Sections(ps[..n], b)
    decreases |ps| - n
  {
    if n < |ps| {
      assert ps[..n + 1][..n] == ps[..n];
      ErrorPersists(ps, n + 1, b);
    } else {
      assert ps[..n] == ps;
    }
  }

  /** A successful run holds exactly what each builder returned, one
      section per builder, in order. */
  lemma {:induction false} SectionsSpec(ps: seq<Part>, b: Built)
    requires Sections(ps, b).Ok?
    ensures var ss := Sections(ps, b).value;
      |ss| == |ps| && forall k :: 0 <= k < |ps| ==> PartSection(ps[k], b) == Ok(ss[k])
  {
    if ps != [] {
      var front := ps[..|ps| - 1];
      SectionsSpec(front, b);
      assert forall k :: 0 <= k < |front| ==> front[k] == ps[k];
    }
  }

  /** The run fails exactly when one of the builders does, and then with
      the error of the first that fails. */
  lemma {:induction false} SectionsFailIff(ps: seq<Part>, b: Built)
    ensures Sections(ps, b).Err? <==> exists k :: 0 <= k < |ps| && PartSection(ps[k], b).Err?
    ensures Sections(ps, b).Err? ==>
      exists k :: 0 <= k < |ps| && PartSection(ps[k], b) == Err(Sections(ps, b).error)
        && forall j :: 0 <= j < k ==> PartSection(ps[j], b).Ok?
  {
    if ps != [] {
      var front := ps[..|ps| - 1];
      SectionsFailIff(front, b);
      assert forall k :: 0 <= k < |front| ==> front[k] == ps[k];
    }
  }

  /** The sections built from content carry their builder's id and
      heading, at level 1. */
  predicate Identified(b: Built)
  {
    && b.titlePage.id == "title_page" && b.titlePage.heading == "Title Page" && b.titlePage.level == 1
    && (b.introduction.Ok? ==>
          b.introduction.value.id == "introduction"
          && b.introduction.value.heading == "1. INTRODUCTION" && b.introduction.value.level == 1)
    && (b.endpoints.Ok? ==>
          b.endpoints.value.id == "objectives_endpoints"
          && b.endpoints.value.heading == "2. STUDY OBJECTIVES AND ENDPOINTS" && b.endpoints.value.level == 1)
    && (b.missingData.Ok? ==>
          b.missingData.value.id == "missing_data"
          && b.missingData.value.heading == "7. HANDLING OF MISSING DATA" && b.missingData.value.level == 1)
    && (b.tlf.Ok? ==>
          b.tlf.value.id == "tlf_shells"
          && b.tlf.value.heading == "9. TABLES, LISTINGS, AND FIGURES" && b.tlf.value.level == 1)
  }

  /** Between them, the builders of the model identify their sections. */
  lemma BuildersIdentified(content: Content, pd: Content, date: string, other: Part -> Result<Body, string>)
    ensures Identified(BuiltFrom(content, pd, date, other))
  {
    TitlePageShape(pd, date);
    IntroductionShape(content, pd);
    EndpointsShape(content, pd);
    MissingDataShape(content);
    TlfShape(content);
  }

  /** With identified builders, every section carries the id and heading
      of the builder it comes from, at level 1. */
  lemma PartIdentified(b: Built, p: Part)
    requires Identified(b)
    ensures var r := PartSection(p, b);
      r.Ok? ==> r.value.id == PartId(p) && r.value.heading == PartHeading(p) && r.value.level == 1
  {
  }

  /** A successful run of identified builders yields the thirteen
      sections in the order of `Parts`, from the title page to the
      signatures, each with its builder's id and heading, at level 1. */
  lemma SectionsInOrder(b: Built)
    requires Identified(b) && Sections(Parts, b).Ok?
    ensures var ss := Sections(Parts, b).value;
      |ss| == 13 && forall k :: 0 <= k < 13 ==>
        ss[k].id == PartId(Parts[k]) && ss[k].heading == PartHeading(Parts[k]) && ss[k].level == 1
  {
    SectionsSpec(Parts, b);
    forall k | 0 <= k < 13
      ensures PartSection(Parts[k], b).Ok? ==>
        PartSection(Parts[k], b).value.id == PartId(Parts[k])
        && PartSection(Parts[k], b).value.heading == PartHeading(Parts[k]) && PartSection(Parts[k], b).value.level == 1
    {
      PartIdentified(b, Parts[k]);
    }
  }

  /** The fixed sections never fail, nor do the builders outside the
      model when `other` succeeds; the sections built from content fail
      exactly as their builders do. */
  lemma WhichPartsFail(b: Built, p: Part)
    ensures PartSection(p, b).Err? <==>
      (p == Introduction && b.introduction.Err?) || (p == ObjectivesEndpoints && b.endpoints.Err?)
      || (p == MissingData && b.missingData.Err?) || (p == TablesListingsFigures && b.tlf.Err?)
      || (p in {StudyDesign, Populations, StatisticalMethods, SampleSize, InterimAnalysis} && b.other(p).Err?)
  {
  }

  // ---------------------------------------------------------------------
  // The document

  const SapStyling: DocumentStyling :=
    DefaultStyling.(heading1Size := 14, heading2Size := 12, heading3Size := 11, heading4Size := 11)

  function HeaderText(number: Value): string
  {
    if Truthy(number) then "Statistical Analysis Plan - " + Str(number) else "Statistical Analysis Plan"
  }

  /** The document `build_document` creates around the outcome of
      `_build_sections`. The metadata fields must be strings or None. */
  function Document(pd: Content, sections: Result<seq<Section>, string>): Result<UniversalDocument, string>
  {
    var number := WorkflowBase.GetMetadataValue(pd, "protocol_number", VStr(""));
    var title := WorkflowBase.GetMetadataValue(pd, "title", VStr("Clinical Study"));
    var sponsor := WorkflowBase.GetMetadataValue(pd, "sponsor", VStr(""));
    var n, t, s := OptionalString(number), OptionalString(title), OptionalString(sponsor);
    if n.Err? || t.Err? || s.Err? then Err("validation error: Input should be a valid string")
    else
      match sections
      case Err(e) => Err(e)
      case Ok(ss) =>
        Ok(UniversalDocument("sap", "STATISTICAL ANALYSIS PLAN", DocumentMetadata(n.value, t.value, s.value),
          SapStyling, DefaultPageSetup, HeaderFooter(Some(HeaderText(number)), None, true, "footer_right", true),
          ss))
  }

  /** `build_document`. */
  function BuildDocument(content: Content, pd: Content, date: string,
                         other: Part -> Result<Body, string>): Result<UniversalDocument, string>
  {
    Document(pd, Sections(Parts, BuiltFrom(content, pd, date, other)))
  }

  /** A built plan is of type "sap", its header names the protocol number
      when there is one, its page numbers count the total, its metadata
      carries the protocol's fields, and its sections are exactly the
      built ones. */
  lemma DocumentSpec(pd: Content, sections: Result<seq<Section>, string>)
    requires Document(pd, sections).Ok?
    ensures var doc := Document(pd, sections).value;
      var number := WorkflowBase.GetMetadataValue(pd, "protocol_number", VStr(""));
      && doc.documentType == "sap"
      && (number.VStr? && number.s != "" ==> doc.headerFooter.headerText == Some("Statistical Analysis Plan - " + number.s))
      && (!Truthy(number) ==> doc.headerFooter.headerText == Some("Statistical Analysis Plan"))
      && doc.headerFooter.pageNumberPosition == "footer_right" && doc.headerFooter.includeTotalPages
      && sections == Ok(doc.sections)
      && (number.VStr? ==> doc.metadata.protocolNumber == Some(number.s))
      && (number.VNone? ==> doc.metadata.protocolNumber == None)
  {
  }

  /** A protocol field that is neither a string nor None fails the
      metadata validation whatever the sections; otherwise the document
      fails exactly when the sections do. */
  lemma DocumentFails(pd: Content, sections: Result<seq<Section>, string>)
    ensures var number := WorkflowBase.GetMetadataValue(pd, "protocol_number", VStr(""));
      !number.VStr? && !number.VNone? ==> Document(pd, sections) == Err("validation error: Input should be a valid string")
    ensures var number := WorkflowBase.GetMetadataValue(pd, "protocol_number", VStr(""));
      var title := WorkflowBase.GetMetadataValue(pd, "title", VStr("Clinical Study"));
      var sponsor := WorkflowBase.GetMetadataValue(pd, "sponsor", VStr(""));
      (number.VStr? || number.VNone?) && (title.VStr? || title.VNone?) && (sponsor.VStr? || sponsor.VNone?) ==>
        (Document(pd, sections).Err? <==> sections.Err?)
  {
  }

  /** A plan built from identified builders has the thirteen sections
      of `_build_sections` in order. */
  lemma DocumentSections(pd: Content, b: Built)
    requires Identified(b) && Document(pd, Sections(Parts, b)).Ok?
    ensures var ss := Document(pd, Sections(Parts, b)).value.sections;
      |ss| == 13 && forall k :: 0 <= k < 13 ==> ss[k].id == PartId(Parts[k]) && ss[k].heading == PartHeading(Parts[k])
  {
    DocumentSpec(pd, Sections(Parts, b));
    SectionsInOrder(b);
  }
}
