/** The fixed texts and blocks of the statistical analysis plan: the
    default paragraphs used when generation leaves a section empty, the
    placeholders, and the three sections whose content never varies. */
module SapTexts {
  import opened Wrappers
  import opened Schema

  function BoldItalic(start: int, end: int): InlineFormat
  {
    InlineFormat(start, end, true, true, false)
  }

  /** A paragraph carrying one formatting range. */
  function Formatted(text: string, f: InlineFormat, before: int, after: int): ContentBlock
  {
    Para(text, before, after).(formatting := Some([f]))
  }

  // ---------------------------------------------------------------------
  // Title page

  const TitleHeading: ContentBlock := Heading("STATISTICAL ANALYSIS PLAN", 1, 0, 24).(alignment := Center)

  const Ich9Statement: string := "This document complies with ICH E9 "
    + "Statistical Principles for Clinical Trials"

  /** The blocks after the identification lines: version, date, the
      ICH E9 statement, the confidentiality mark and a page break. */
  function TitleTail(date: string): seq<ContentBlock>
  {
    [ Para("", 0, 12),
      Centered("Document Version: 1.0", 6),
      Centered("Date: " + date, 24),
      Centered(Ich9Statement, 12).(formatting := Some([Italic(0, 73)])),
      Centered("CONFIDENTIAL", 12).(formatting := Some([Bold(0, 12)])),
      NewBlock(PageBreakType) ]
  }

  // ---------------------------------------------------------------------
  // Version history and table of contents

  const VersionHistorySection: Section :=
    Section("version_history", 1, "VERSION HISTORY", [
      NewBlock(TableType).(table := Some(TableBlock(
        ["Version", "Date", "Author", "Description of Changes"],
        [[TextCell("1.0"), TextCell("[Date]"), TextCell("[Biostatistician]"), TextCell("Initial version")]],
        Some([1.0, 1.5, 2.0, 3.0]), "Table Grid", "#4472C4"))),
      NewBlock(PageBreakType)
    ], [])

  const TocSection: Section :=
    Section("toc", 1, "TABLE OF CONTENTS", [
      Formatted("[Table of Contents - to be generated in final document]", Italic(0, 57), 0, 12),
      NewBlock(PageBreakType)
    ], [])

  // ---------------------------------------------------------------------
  // Introduction

  const IntroductionOpening: string :=
    "This " + "Statistical " + "Analysis " + "Plan (SAP) " + "describes " + "the planned " + "statistical " + "analyses " + "for " + "protocol "

  const IntroductionClosing: string :=
    ". This SAP should be read in conjunction with the study protocol and has been developed in "
    + "accordance with ICH E9 Statistical Principles for Clinical Trials.\n\n"
    + "The SAP was developed prior to database lock and unblinding. Any deviations "
    + "from this plan will be documented and justified in the Clinical Study Report."

  /** The default introduction, naming the protocol. */
  function IntroductionDefault(protocolNumber: string): string
  {
    IntroductionOpening + protocolNumber + IntroductionClosing
  }

  const ReferenceNote: ContentBlock :=
    Formatted("Reference: ICH E9 Guideline for Industry - Statistical Principles for Clinical Trials "
      + "(September 1998)", Italic(0, 96), 12, 6)

  // ---------------------------------------------------------------------
  // Fallback content (`_generate_fallback_content`)

  const FallbackIntroductionClosing: string :=
    ". This SAP " + "should be " + "read in " + "conjunction " + "with the " + "study " + "protocol " + "and has " + "been " + "developed " + "in "
    + "accordance " + "with ICH E9 " + "Statistical " + "Principles " + "for " + "Clinical " + "Trials.\n\n"
    + "The SAP was " + "finalized " + "prior to " + "database " + "lock and " + "unblinding. " + "Any " + "deviations "
    + "from this " + "plan will " + "be " + "documented " + "and " + "justified " + "in the " + "Clinical " + "Study " + "Report."

  /** The fallback introduction, naming the protocol; it says "finalized"
      where the section builder's default says "developed". */
  function FallbackIntroduction(protocolNumber: string): string
  {
    IntroductionOpening + protocolNumber + FallbackIntroductionClosing
  }

  function FallbackStudyDesign(studyType: string, enrollment: string): string
  {
    "This is a " + studyType + " study. " + "Approximately " + enrollment + " subjects " + "will be "
    + "enrolled. " + "The study " + "design " + "details are " + "provided in " + "the " + "protocol."
  }

  const IttPopulation: string := "Intent-to-Treat " + "(ITT): All " + "randomized " + "subjects"
  const MittPopulation: string :=
    "Modified " + "ITT (mITT): " + "All " + "randomized " + "subjects " + "who " + "received at " + "least one " + "dose of " + "study drug"
  const PerProtocolPopulation: string :=
    "Per-Protocol " + "(PP): All " + "subjects " + "who " + "completed " + "the study " + "without " + "major " + "protocol " + "deviations"
  const SafetyPopulation: string :=
    "Safety " + "Population: " + "All " + "subjects " + "who " + "received at " + "least one " + "dose of " + "study drug"

  const GeneralMethods: string :=
    "All " + "statistical " + "analyses " + "will be " + "performed " + "using SAS " + "Version 9.4 " + "or later. "
    + "A two-sided " + "significance " + "level of " + "0.05 will " + "be used " + "unless " + "otherwise " + "specified."
  const PrimaryAnalysisMethods: string :=
    "The primary " + "efficacy " + "analysis " + "will be " + "based on " + "the mITT " + "population. "
    + "The primary " + "endpoint " + "will be " + "analyzed " + "using " + "appropriate " + "statistical " + "methods."
  const SecondaryAnalysisMethods: string :=
    "Secondary " + "endpoints " + "will be " + "analyzed " + "using " + "appropriate " + "statistical " + "methods. "
    + "No " + "adjustments " + "for " + "multiplicity " + "will be " + "made for " + "secondary " + "endpoints."
  const SafetyAnalysisMethods: string :=
    "Safety " + "analyses " + "will be " + "conducted " + "on the " + "Safety " + "Population. " + "Adverse " + "events "
    + "will be " + "summarized " + "by System " + "Organ Class " + "and " + "Preferred " + "Term using " + "MedDRA " + "coding."

  function FallbackSampleSize(enrollment: string): string
  {
    "The planned " + "sample size " + "is " + enrollment + " subjects. " + "Sample size " + "calculations "
    + "are " + "provided in " + "the " + "protocol."
  }

  const FallbackMissingData: string :=
    "Missing " + "data will " + "be handled " + "using " + "appropriate " + "methods. " + "The primary " + "analysis "
    + "will use " + "observed " + "data. " + "Sensitivity " + "analyses " + "may include " + "multiple " + "imputation "
    + "or last " + "observation " + "carried " + "forward."

  const FallbackInterimAnalysis: string :=
    "No formal " + "interim " + "analysis is " + "planned " + "unless " + "specified " + "in the " + "protocol."

  const FallbackTlfShells: seq<string> := [
    "Table " + "14.1.1: " + "Subject " + "Disposition",
    "Table " + "14.2.1: " + "Demographics " + "and " + "Baseline " + "Characteristics",
    "Table " + "14.3.1: " + "Primary " + "Efficacy " + "Analysis",
    "Table " + "14.4.1: " + "Overall " + "Summary of " + "Treatment-Emergent " + "Adverse " + "Events",
    "Table " + "14.4.2: " + "Treatment-Emergent " + "Adverse " + "Events by " + "System " + "Organ Class " + "and " + "Preferred " + "Term",
    "Listing " + "16.2.1: " + "Subject " + "Demographics",
    "Listing " + "16.2.2: All " + "Adverse " + "Events",
    "Figure " + "14.2.1: " + "Primary " + "Endpoint " + "Over Time"
  ]

  /** The fallback texts of the two required sections that are strings
      are never empty, whatever the protocol supplies. */
  lemma FallbackTextsNonEmpty(protocolNumber: string, studyType: string, enrollment: string)
    ensures FallbackIntroduction(protocolNumber) != ""
    ensures FallbackStudyDesign(studyType, enrollment) != ""
  {
    assert |FallbackIntroduction(protocolNumber)| >= |IntroductionOpening| > 0;
  }

  // ---------------------------------------------------------------------
  // Objectives and endpoints

  const PrimaryObjectiveOpening: string :=
    "To evaluate " + "the " + "efficacy " + "and safety " + "of the " + "investigational " + "product in " + "patients " + "with "

  /** The default primary objective, naming the indication. */
  function PrimaryObjectiveDefault(indication: string): string
  {
    PrimaryObjectiveOpening + indication + "."
  }

  const SecondaryObjectivesDefault: string :=
    "To evaluate " + "secondary " + "efficacy " + "measures " + "and " + "characterize " + "the safety " + "profile."

  const PrimaryEndpointsIntro: ContentBlock :=
    Formatted("The primary endpoint(s) are (verbatim from protocol):", BoldItalic(28, 51), 0, 6)

  const SecondaryEndpointsIntro: ContentBlock :=
    Formatted("The secondary endpoint(s) are (verbatim from protocol):", BoldItalic(30, 53), 0, 6)

  const ExploratoryEndpointsIntro: ContentBlock :=
    Formatted("The exploratory endpoint(s) are (verbatim from protocol):", BoldItalic(32, 55), 0, 6)

  const PrimaryEndpointsPlaceholder: ContentBlock :=
    Formatted("[Primary endpoints to be extracted from protocol]", Italic(0, 49), 0, 6)

  const SecondaryEndpointsPlaceholder: ContentBlock :=
    Formatted("[Secondary endpoints to be extracted from protocol]", Italic(0, 51), 0, 6)

  // ---------------------------------------------------------------------
  // Missing data

  const MissingDataDefault: string :=
    "Missing data will be handled using appropriate methods. The primary analysis "
    + "will use observed data. The following sensitivity analyses may be conducted:\n\n"
    + "- Multiple imputation for missing endpoint data\n"
    + "- Last observation carried forward (LOCF) as a sensitivity analysis\n"
    + "- Tipping point analysis for missing data under varying assumptions"

  const MissingDataClosing: ContentBlock :=
    Para("The approach for handling missing data will be finalized prior to database lock "
      + "and documented in the statistical programming specifications.", 0, 6)

  // ---------------------------------------------------------------------
  // Tables, listings and figures

  const DefaultTlfShells: seq<string> := [
    "Table 14.1.1: Subject Disposition",
    "Table 14.1.2: Protocol Deviations",
    "Table 14.2.1: Demographics and Baseline Characteristics",
    "Table 14.2.2: Medical History",
    "Table 14.3.1: Primary Efficacy Analysis",
    "Table 14.3.2: Secondary Efficacy Analyses",
    "Table 14.4.1: Overall Summary of Treatment-Emergent Adverse Events",
    "Table 14.4.2: Treatment-Emergent Adverse Events by System Organ Class and Preferred Term",
    "Table 14.4.3: Serious Adverse Events",
    "Table 14.4.4: Laboratory Parameters Summary",
    "Listing 16.2.1: Subject Demographics",
    "Listing 16.2.2: All Adverse Events",
    "Listing 16.2.3: Serious Adverse Events",
    "Listing 16.2.4: Concomitant Medications",
    "Figure 14.2.1: Primary Endpoint Over Time",
    "Figure 14.2.2: Kaplan-Meier Plot (if applicable)"
  ]

  const TlfIntro: ContentBlock :=
    Para("The following Tables, Listings, and Figures (TLFs) will be produced for this study:", 0, 6)

  const TablesHeading: ContentBlock := Heading("9.1 Tables", 2, 12, 6)

  const ListingsHeading: ContentBlock := Heading("9.2 Listings", 2, 12, 6)

  const FiguresHeading: ContentBlock := Heading("9.3 Figures", 2, 12, 6)

  const ListingsPlaceholder: ContentBlock :=
    Formatted("[Listings to be defined in TLF specifications]", Italic(0, 46), 0, 6)

  const FiguresPlaceholder: ContentBlock :=
    Formatted("[Figures to be defined in TLF specifications]", Italic(0, 45), 0, 6)

  const TlfClosing: ContentBlock :=
    Para("Detailed TLF shells and programming specifications will be provided in a "
      + "separate TLF Shells document.", 12, 6)

  // ---------------------------------------------------------------------
  // Signature page

  /** `"_" * 50 + "    Date: _____________"`. */
  const DatedRule: string := "__________________________________________________    Date: _____________"

  const NameLine: string := "Name: ________________________________"

  const SignaturePage: Section :=
    Section("signatures", 1, "SIGNATURE PAGE", [
      NewBlock(PageBreakType),
      Heading("SIGNATURE PAGE", 1, 0, 24).(alignment := Center),
      Para("This Statistical Analysis Plan has been reviewed and approved by the "
        + "undersigned. Any deviations from this plan will be documented and justified "
        + "in the Clinical Study Report.", 0, 24),
      Para(DatedRule, 24, 3),
      Para("Lead Biostatistician", 0, 6),
      Para(NameLine, 0, 24),
      Para(DatedRule, 0, 3),
      Para("Medical Monitor", 0, 6),
      Para(NameLine, 0, 24),
      Para(DatedRule, 0, 3),
      Para("Sponsor Representative", 0, 6),
      Para(NameLine, 0, 12)
    ], [])
}
