/** The fixed texts and blocks of the data management plan: the default
    dictionary versions and EDC system, the front matter, the tables of the
    roles and coding sections, and the fallback content used when the
    language model is unavailable or its reply cannot be decoded. Long
    texts are written as short literal pieces joined with `+`, which
    keeps the proofs that mention them small. */
module DmpTexts {
  import opened Wrappers
  import opened Schema

  const MeddraVersion: string := "26.1"
  const WhoDrugVersion: string := "March 2024"
  const EdcSystem: string := "Medidata Rave"

  /** The blue header row shared by every table of the plan. */
  const HeaderBlue: string := "#4472C4"

  /** A table of plain text rows with the blue header row. */
  function BlueTable(headers: seq<string>, rows: seq<seq<string>>, widths: seq<real>): ContentBlock
  {
    NewBlock(TableType).(table := Some(TableBlock(headers, TextRows(rows), Some(widths), "Table Grid", HeaderBlue)))
  }

  /** Rows of strings as rows of text cells. */
  function TextRows(rows: seq<seq<string>>): (r: seq<seq<CellEntry>>)
    ensures |r| == |rows|
    ensures forall i :: 0 <= i < |rows| ==> |r[i]| == |rows[i]|
  {
    seq(|rows|, i requires 0 <= i < |rows| => seq(|rows[i]|, j requires 0 <= j < |rows[i]| => TextCell(rows[i][j])))
  }

  // ---------------------------------------------------------------------
  // Front matter

  const TitleHeading: ContentBlock := Heading("DATA " + "MANAGEMENT " + "PLAN", 1, 0, 24).(alignment := Center)

  /** The title page lines after the sponsor: EDC system, version, date,
      confidentiality mark and a page break. The date is given. */
  function TitleTail(date: string): seq<ContentBlock>
  {
    [ Centered("EDC System: " + EdcSystem, 6),
      Centered("Document " + "Version: " + "1.0", 6),
      Centered("Date: " + date, 24),
      Centered("CONFIDENTIAL", 12).(formatting := Some([Bold(0, 12)])),
      NewBlock(PageBreakType) ]
  }

  const VersionHistorySection: Section :=
    Section("version_history", 1, "VERSION " + "HISTORY", [
      BlueTable(["Version", "Date", "Author", "Description " + "of Changes"],
        [["1.0", "[Date]", "[Author]", "Initial " + "version"]], [1.0, 1.5, 2.0, 3.0]),
      NewBlock(PageBreakType)
    ], [])

  const TocSection: Section :=
    Section("toc", 1, "TABLE OF " + "CONTENTS", [
      Para("[Table of " + "Contents " + "- to " + "be " + "generated " + "in final " + "document]", 0, 12).(formatting := Some([Italic(0, 57)])),
      NewBlock(PageBreakType)
    ], [])

  // ---------------------------------------------------------------------
  // Roles and responsibilities

  const RolesTable: ContentBlock :=
    BlueTable(["Role", "Organization", "Key " + "Responsibilities"], [
      ["Data Manager", "Sponsor/CRO", "Database " + "design, " + "edit " + "checks, query " + "management, " + "database " + "lock"],
      ["Medical Coder", "Sponsor/CRO", "AE/MedHx " + "coding, " + "concomitant " + "medication " + "coding, " + "dictionary " + "management"],
      ["Lead " + "Biostatistician", "Sponsor/CRO", "SAP " + "oversight, " + "TLF " + "review, " + "database " + "lock " + "approval"],
      ["Clinical " + "Data Lead", "Sponsor", "Data " + "review, " + "study " + "oversight, " + "sign-off " + "on " + "deliverables"],
      ["Site Data " + "Entry " + "Personnel", "Sites", "Data " + "entry, " + "query " + "resolution, " + "source " + "verification"],
      ["Clinical " + "Monitor " + "(CRA)", "Sponsor/CRO", "Source data " + "verification, " + "site " + "monitoring"]
    ], [2.0, 1.5, 4.0])

  const ContactNote: ContentBlock :=
    Para("Data " + "management " + "queries " + "should be " + "directed " + "to " + "the Data " + "Manager. " + "Contact " + "information "
      + "will be " + "provided " + "in the " + "study-specific " + "contact " + "list.", 0, 6)

  // ---------------------------------------------------------------------
  // Medical coding

  const CodingDefault: ContentBlock :=
    Para("Medical " + "coding " + "will be " + "performed " + "for " + "adverse " + "events, " + "medical " + "history, "
      + "and " + "concomitant " + "medications " + "using " + "industry-standard " + "dictionaries. "
      + "Coding " + "will be " + "performed " + "by " + "qualified " + "medical " + "coders " + "according to "
      + "sponsor " + "Standard " + "Operating " + "Procedures " + "(SOPs).", 0, 6)

  const DictionaryIntro: ContentBlock :=
    Para("The following " + "dictionary " + "versions " + "will be " + "used for " + "this " + "study:", 0, 6)

  const DictionaryTable: ContentBlock :=
    BlueTable(["Dictionary", "Version", "Application"], [
      ["MedDRA", MeddraVersion, "Adverse " + "Events, " + "Medical " + "History"],
      ["WHODrug Global", WhoDrugVersion, "Concomitant " + "Medications, " + "Prior " + "Medications"]
    ], [2.0, 1.5, 3.5])

  const CodingProcedures: ContentBlock :=
    Para("Adverse " + "events " + "will be " + "coded to " + "the " + "Lowest " + "Level " + "Term " + "(LLT) in " + "MedDRA. "
      + "The " + "System " + "Organ " + "Class " + "(SOC) and " + "Preferred " + "Term (PT) " + "will be " + "used " + "for "
      + "summarization " + "in " + "Tables, " + "Listings, " + "and " + "Figures " + "(TLFs). "
      + "Concomitant " + "medications " + "will be " + "coded to " + "the " + "drug name " + "level " + "using " + "WHODrug " + "Global.", 0, 6)

  const DictionaryUpgrades: ContentBlock :=
    Para("Dictionary " + "versions " + "will be " + "frozen at " + "database " + "lock. If " + "a " + "dictionary " + "upgrade "
      + "is " + "required " + "during " + "the " + "study, " + "the " + "impact " + "will " + "be " + "assessed " + "and " + "documented. "
      + "Re-coding " + "to a new " + "dictionary " + "version, " + "if " + "performed, " + "will be " + "documented "
      + "and include " + "reconciliation " + "of " + "affected " + "terms.", 0, 6)

  // ---------------------------------------------------------------------
  // Appendices

  const VisitsUnavailable: ContentBlock :=
    Para("Visit " + "schedule " + "information " + "not " + "available " + "in " + "protocol " + "data.", 0, 6)

  const ProceduresUnavailable: ContentBlock :=
    Para("Procedure " + "information " + "not " + "available " + "in " + "protocol data.", 0, 6)

  const VisitHeaders: seq<string> := ["Visit", "Timing", "Window", "Key Procedures"]

  const VisitWidths: seq<real> := [1.5, 1.5, 1.0, 4.0]

  const ProcedureHeaders: seq<string> := ["Procedure/Assessment", "CRF Page", "Collection " + "Method", "Notes"]

  const ProcedureWidths: seq<real> := [2.5, 1.0, 1.5, 3.0]

  // ---------------------------------------------------------------------
  // Fallback content

  const PurposeOpening: string :=
    "This Data " + "Management " + "Plan " + "(DMP) " + "describes " + "the data " + "management " + "activities " + "for " + "protocol "

  const PurposeClosing: string :=
    ". The DMP " + "defines " + "the " + "processes and " + "procedures "
    + "for data " + "collection, " + "entry, " + "validation, " + "query " + "management, " + "coding, " + "and " + "database " + "lock.\n\n"
    + "This " + "document " + "should be " + "read in " + "conjunction " + "with the " + "study " + "protocol " + "and other "
    + "relevant " + "study " + "documentation. " + "The DMP " + "will be " + "updated " + "as " + "necessary " + "to " + "reflect "
    + "any " + "changes " + "in data " + "management " + "processes."

  /** The fallback purpose and scope, naming the protocol. */
  function PurposeFallback(protocolNumber: string): (r: string)
    ensures r != ""
  {
    PurposeOpening + protocolNumber + PurposeClosing
  }

  const EnrollmentClosing: string :=
    " subjects " + "are " + "planned " + "to be " + "enrolled " + "at " + "multiple " + "study " + "sites.\n\n"
    + "Study " + "design " + "details, " + "including " + "endpoints, " + "visit " + "schedule, " + "and " + "assessments, "
    + "are " + "provided " + "in the " + "protocol " + "and will " + "be " + "reflected " + "in the " + "Case " + "Report " + "Form " + "(CRF) " + "design."

  /** The fallback study information, naming the study type, the
      indication and the planned enrolment. */
  function StudyInformationFallback(studyType: string, indication: string, enrollment: string): (r: string)
    ensures r != ""
  {
    "This is a " + studyType + " study " + "evaluating " + indication + ". " + "Approximately "
      + enrollment + EnrollmentClosing
  }

  const RolesFallback: string :=
    "Data " + "management " + "responsibilities " + "are " + "shared " + "among the " + "Sponsor, " + "Contract " + "Research "
    + "Organization " + "(CRO), " + "and " + "investigational " + "sites. " + "Key roles " + "include " + "Data " + "Manager, "
    + "Medical " + "Coder, " + "Biostatistician, " + "and " + "Site " + "Personnel.\n\n"
    + "Each role " + "has " + "specific " + "responsibilities " + "as " + "outlined " + "in this " + "section " + "and in " + "the "
    + "study-specific " + "training " + "materials."

  const DatabaseDesignFallback: string :=
    "The " + "clinical " + "database " + "will be " + "designed " + "in the " + "Electronic " + "Data " + "Capture " + "(EDC) system "
    + "based on " + "the " + "protocol " + "visit " + "schedule " + "and " + "assessments. " + "Case " + "Report " + "Forms " + "(CRFs) "
    + "will be " + "developed " + "for " + "each " + "study " + "visit and " + "assessment.\n\n"
    + "The " + "database " + "design " + "will " + "undergo " + "User " + "Acceptance " + "Testing " + "(UAT) " + "prior to " + "site " + "activation. "
    + "Any " + "changes " + "to the " + "database " + "design " + "after " + "UAT will " + "follow " + "the " + "change " + "control " + "process."

  const DataEntryFallback: string :=
    "Data " + "entry " + "will be " + "performed " + "by " + "trained " + "site " + "personnel " + "directly " + "into the " + "EDC " + "system. "
    + "Double " + "data " + "entry is " + "not " + "required " + "due to " + "built-in " + "edit " + "checks " + "and " + "validation " + "rules.\n\n"
    + "Sites " + "must " + "complete " + "data " + "entry " + "within " + "the " + "timelines " + "specified " + "in " + "the study " + "guidelines. "
    + "The data " + "entry " + "deadline " + "is " + "typically " + "within 3 " + "business " + "days of " + "the " + "visit date."

  const DataValidationFallback: string :=
    "Edit " + "checks " + "will be " + "programmed " + "to " + "identify " + "data " + "discrepancies, " + "out-of-range " + "values, "
    + "and protocol " + "deviations. " + "These " + "checks " + "will run " + "at the " + "time of " + "data " + "entry " + "(real-time) "
    + "and in " + "batch " + "mode.\n\n"
    + "Edit check " + "specifications " + "will be " + "documented " + "in a " + "separate " + "Edit " + "Check " + "Specification "
    + "document " + "and " + "tested " + "during UAT."

  const MedicalCodingFallback: string :=
    "Adverse " + "events " + "will be " + "coded " + "using " + "MedDRA " + "(Medical " + "Dictionary " + "for " + "Regulatory " + "Activities). "
    + "Concomitant " + "medications " + "will be " + "coded " + "using " + "WHODrug " + "Global.\n\n"
    + "Coding " + "will be " + "performed " + "by " + "qualified " + "medical " + "coders " + "according " + "to " + "sponsor " + "SOPs."

  const QueryManagementFallback: string :=
    "Data " + "queries " + "will be " + "managed " + "through " + "the EDC " + "system. " + "Queries " + "will be " + "generated "
    + "automatically " + "based on " + "edit " + "checks or " + "manually " + "by data " + "management " + "review.\n\n"
    + "Sites are " + "expected " + "to " + "respond " + "to " + "queries " + "within 5 " + "business " + "days. " + "Query " + "resolution "
    + "will be " + "tracked " + "and " + "reported " + "in data " + "management " + "status " + "reports."

  const SaeReconciliationFallback: string :=
    "SAE " + "(Serious " + "Adverse " + "Event) " + "reconciliation " + "between " + "the " + "clinical " + "database " + "and " + "safety "
    + "database " + "will be " + "performed " + "monthly. " + "Any " + "discrepancies " + "will be " + "documented " + "and " + "resolved "
    + "prior to " + "database " + "lock.\n\n"
    + "The " + "reconciliation " + "process " + "will " + "follow " + "the " + "SAE " + "Reconciliation " + "Plan " + "for this " + "study."

  const ExternalDataFallback: string :=
    "External " + "data " + "(e.g., " + "central " + "laboratory, " + "ECG, " + "biomarkers) " + "will " + "be " + "transferred "
    + "electronically " + "and " + "reconciled " + "with eCRF " + "data. " + "Transfer " + "specifications " + "will be "
    + "documented " + "in Data " + "Transfer " + "Agreements " + "with each " + "external " + "vendor.\n\n"
    + "External " + "data will " + "be " + "loaded " + "into the " + "clinical " + "database " + "and " + "subject " + "to the " + "same "
    + "quality " + "checks as " + "eCRF data."

  const DatabaseLockFallback: string :=
    "Database " + "lock will " + "occur " + "after all " + "data " + "has been " + "entered, " + "queries " + "resolved, "
    + "and " + "medical " + "coding " + "completed. " + "A " + "database " + "lock " + "checklist " + "will be " + "completed "
    + "prior to " + "the lock " + "meeting.\n\n"
    + "The " + "database " + "lock " + "meeting " + "will " + "include " + "Data " + "Management, " + "Biostatistics, "
    + "Clinical " + "Operations, " + "and " + "Medical " + "Monitor. " + "Approval " + "from all " + "key " + "stakeholders "
    + "is " + "required " + "prior to " + "database lock."

  const DataTransferFallback: string :=
    "Data " + "transfers " + "to the " + "Sponsor " + "will be " + "performed " + "using " + "secure " + "file transfer " + "protocols. "
    + "Transfer " + "specifications " + "and " + "schedules " + "will be " + "documented " + "in a " + "separate " + "Data " + "Transfer "
    + "Agreement.\n\n"
    + "Standard " + "data " + "formats " + "(e.g., " + "SAS, " + "CDISC) " + "will " + "be used " + "for data " + "transfers. "
    + "All " + "transfers " + "will be " + "logged " + "for audit " + "trail " + "purposes."

  const QualityControlFallback: string :=
    "Quality " + "control " + "reviews " + "will be " + "performed " + "throughout " + "the study " + "to " + "ensure " + "data " + "integrity. "
    + "These " + "reviews " + "include " + "targeted " + "data " + "listings, " + "cross-form " + "checks, " + "and " + "trend " + "analyses.\n\n"
    + "Quality " + "metrics " + "will be " + "tracked " + "and " + "reported " + "regularly " + "to study " + "management."

  const AuditTrailFallback: string :=
    "The EDC " + "system " + "maintains " + "a " + "complete " + "audit " + "trail of " + "all data " + "changes, " + "including "
    + "the " + "date/time " + "of " + "change, " + "user ID, " + "and " + "reason " + "for " + "change. " + "This " + "audit " + "trail is "
    + "compliant " + "with 21 " + "CFR " + "Part 11 " + "requirements.\n\n"
    + "Audit " + "trail " + "reports " + "will be " + "available " + "for " + "review by " + "Sponsors, " + "regulatory " + "authorities, "
    + "and study " + "monitors."

  const ArchivingFallback: string :=
    "All study " + "data and " + "documentation " + "will be " + "archived " + "according " + "to " + "regulatory " + "requirements "
    + "and " + "sponsor " + "SOPs. " + "Electronic " + "data will " + "be " + "archived in a " + "validated, " + "secure " + "repository.\n\n"
    + "Paper " + "source " + "documents " + "and " + "essential " + "documents " + "will be " + "retained " + "at the " + "site as per "
    + "local " + "regulations " + "and " + "sponsor " + "requirements " + "(minimum " + "15 years " + "or as " + "required)."

  /** The six fixed texts of required sections are not empty. Each is
      shown on its own, which keeps each proof small. */
  lemma RequiredFallbacksNonEmpty()
    ensures DatabaseDesignFallback != "" && DataEntryFallback != "" && DataValidationFallback != ""
    ensures MedicalCodingFallback != "" && QueryManagementFallback != "" && DatabaseLockFallback != ""
  {
    DatabaseDesignNonEmpty();
    DataEntryNonEmpty();
    DataValidationNonEmpty();
    MedicalCodingNonEmpty();
    QueryManagementNonEmpty();
    DatabaseLockNonEmpty();
  }

  lemma DatabaseDesignNonEmpty() ensures DatabaseDesignFallback != "" {}
  lemma DataEntryNonEmpty() ensures DataEntryFallback != "" {}
  lemma DataValidationNonEmpty() ensures DataValidationFallback != "" {}
  lemma MedicalCodingNonEmpty() ensures MedicalCodingFallback != "" {}
  lemma QueryManagementNonEmpty() ensures QueryManagementFallback != "" {}
  lemma DatabaseLockNonEmpty() ensures DatabaseLockFallback != "" {}
}
