/** The data management plan workflow: content generation with the
    fallback fill, the section list of `_build_sections` (front matter,
    fifteen numbered sections, the two appendices when the protocol
    lists visits or procedures) and the document around it. The plan is
    never polished. */
module Dmp {
  import opened Wrappers
  import opened Text
  import opened PyValue
  import opened Schema
  import opened DmpTexts
  import WorkflowBase
  import Seqs

  type Content = map<string, Value>

  /** The sections generation must deliver; any that is missing or
      falsy is taken from the fallback. */
  const RequiredSections: seq<string> := [
    "purpose_and_scope", "study_information", "database_design", "data_entry",
    "data_validation", "medical_coding", "query_management", "database_lock"
  ]

  function GenerationError(e: string): string
  {
    "Failed to generate DMP content: " + e
  }

  // ---------------------------------------------------------------------
  // Fallback content

  /** The fifteen sections of `_generate_fallback_content`, each under its
      key; the eight required ones are listed last. */
  function FallbackMap(purpose: Value, studyInformation: Value, roles: Value, databaseDesign: Value,
                       dataEntry: Value, dataValidation: Value, medicalCoding: Value, queryManagement: Value,
                       saeReconciliation: Value, externalData: Value, databaseLock: Value, dataTransfer: Value,
                       qualityControl: Value, auditTrail: Value, archiving: Value): Content
  {
    map[
      "roles_and_responsibilities" := roles, "sae_reconciliation" := saeReconciliation,
      "external_data" := externalData, "data_transfer" := dataTransfer, "quality_control" := qualityControl,
      "audit_trail" := auditTrail, "archiving" := archiving,
      "purpose_and_scope" := purpose, "study_information" := studyInformation,
      "database_design" := databaseDesign, "data_entry" := dataEntry, "data_validation" := dataValidation,
      "medical_coding" := medicalCoding, "query_management" := queryManagement, "database_lock" := databaseLock
    ]
  }

  /** `_generate_fallback_content`: a text for each of the fifteen
      sections, two of them naming values from the protocol. */
  function FallbackContent(pd: Content): Content
  {
    var number := WorkflowBase.GetMetadataValue(pd, "protocol_number", VStr("TBD"));
    var studyType := WorkflowBase.GetDesignValue(pd, "study_type", VStr("clinical"));
    var indication := WorkflowBase.GetMetadataValue(pd, "indication", VStr("the target indication"));
    var enrollment := WorkflowBase.GetDesignValue(pd, "planned_enrollment", VStr("N"));
    FallbackWith(PurposeFallback(Str(number)), StudyInformationFallback(Str(studyType), Str(indication), Str(enrollment)))
  }

  /** The fallback content around its two texts that depend on the
      protocol. */
  function FallbackWith(purpose: string, studyInformation: string): Content
  {
    FallbackMap(
      VStr(purpose), VStr(studyInformation),
      VStr(RolesFallback), VStr(DatabaseDesignFallback), VStr(DataEntryFallback), VStr(DataValidationFallback),
      VStr(MedicalCodingFallback), VStr(QueryManagementFallback), VStr(SaeReconciliationFallback),
      VStr(ExternalDataFallback), VStr(DatabaseLockFallback), VStr(DataTransferFallback),
      VStr(QualityControlFallback), VStr(AuditTrailFallback), VStr(ArchivingFallback))
  }

  /** Every required section is present and truthy. */
  predicate HasRequired(c: Content)
  {
    forall k :: 0 <= k < |RequiredSections| ==> RequiredSections[k] in c && Truthy(c[RequiredSections[k]])
  }

  /** The fallback map has the required sections when their eight texts
      are non-empty strings. */
  lemma FallbackMapHasRequired(purpose: Value, studyInformation: Value, roles: Value, databaseDesign: Value,
                               dataEntry: Value, dataValidation: Value, medicalCoding: Value, queryManagement: Value,
                               saeReconciliation: Value, externalData: Value, databaseLock: Value, dataTransfer: Value,
                               qualityControl: Value, auditTrail: Value, archiving: Value)
    requires purpose.VStr? && purpose.s != "" && studyInformation.VStr? && studyInformation.s != ""
    requires databaseDesign.VStr? && databaseDesign.s != "" && dataEntry.VStr? && dataEntry.s != ""
    requires dataValidation.VStr? && dataValidation.s != "" && medicalCoding.VStr? && medicalCoding.s != ""
    requires queryManagement.VStr? && queryManagement.s != "" && databaseLock.VStr? && databaseLock.s != ""
    ensures HasRequired(FallbackMap(purpose, studyInformation, roles, databaseDesign, dataEntry, dataValidation,
      medicalCoding, queryManagement, saeReconciliation, externalData, databaseLock, dataTransfer,
      qualityControl, auditTrail, archiving))
  {
  }

  /** Whatever the protocol data, the fallback content has every required
      section as a non-empty text. */
  lemma FallbackHasRequired(pd: Content)
    ensures HasRequired(FallbackContent(pd))
  {
    var number := WorkflowBase.GetMetadataValue(pd, "protocol_number", VStr("TBD"));
    var studyType := WorkflowBase.GetDesignValue(pd, "study_type", VStr("clinical"));
    var indication := WorkflowBase.GetMetadataValue(pd, "indication", VStr("the target indication"));
    var enrollment := WorkflowBase.GetDesignValue(pd, "planned_enrollment", VStr("N"));
    FallbackWithHasRequired(PurposeFallback(Str(number)),
      StudyInformationFallback(Str(studyType), Str(indication), Str(enrollment)));
  }

  /** With non-empty protocol texts, the fallback content has every
      required section. */
  lemma FallbackWithHasRequired(purpose: string, studyInformation: string)
    requires purpose != "" && studyInformation != ""
    ensures HasRequired(FallbackWith(purpose, studyInformation))
  {
    RequiredFallbacksNonEmpty();
    FallbackMapHasRequired(
      VStr(purpose), VStr(studyInformation),
      VStr(RolesFallback), VStr(DatabaseDesignFallback), VStr(DataEntryFallback), VStr(DataValidationFallback),
      VStr(MedicalCodingFallback), VStr(QueryManagementFallback), VStr(SaeReconciliationFallback),
      VStr(ExternalDataFallback), VStr(DatabaseLockFallback), VStr(DataTransferFallback),
      VStr(QualityControlFallback), VStr(AuditTrailFallback), VStr(ArchivingFallback));
  }

  // ---------------------------------------------------------------------
  // Generation

  /** A decoded dict reply after the fallback fill. */
  function Completed(content: Content, fallback: Content): Content
  {
    WorkflowBase.FilledFrom(content, fallback, WorkflowBase.MissingSections(content, RequiredSections))
  }

  /** `generate_content` with the fallback content given. `reply` is what
      the OpenAI call returned or the exception it raised, and `decode`
      stands for `json.loads`. Without a client, and on an undecodable
      reply, the fallback is the content; a failed call, or a reply that
      decodes to something other than a dict, is an error. */
  function GeneratedFrom(hasOpenAi: bool, reply: Result<string, string>,
                         decode: string -> Option<Value>, fallback: Content): Result<Content, string>
  {
    if !hasOpenAi then Ok(fallback)
    else match reply
      case Err(e) => Err(GenerationError(e))
      case Ok(text) =>
        match decode(WorkflowBase.JsonText(text))
        case None => Ok(fallback)
        case Some(parsed) =>
          if parsed.VDict? then Ok(Completed(parsed.fields, fallback))
          else Err(GenerationError("the decoded reply has no attribute 'get'"))
  }

  /** `generate_content`. */
  function GeneratedContent(hasOpenAi: bool, reply: Result<string, string>,
                            decode: string -> Option<Value>, pd: Content): Result<Content, string>
  {
    GeneratedFrom(hasOpenAi, reply, decode, FallbackContent(pd))
  }

  /** The steps of `generate_content` once the fallback is known. */
  method GenerateFrom(hasOpenAi: bool, reply: Result<string, string>,
                      decode: string -> Option<Value>, fallback: Content) returns (r: Result<Content, string>)
    ensures r == GeneratedFrom(hasOpenAi, reply, decode, fallback)
  {
    if !hasOpenAi {
      return Ok(fallback);
    }
    if reply.Err? {
      return Err(GenerationError(reply.error));
    }
    var text := WorkflowBase.ParseJsonText(reply.value);
    var parsed := decode(text);
    if parsed.None? {
      return Ok(fallback);
    }
    if !parsed.value.VDict? {
      return Err(GenerationError("the decoded reply has no attribute 'get'"));
    }
    var content := parsed.value.fields;
    var missing := WorkflowBase.MissingSections(content, RequiredSections);
    if missing != [] {
      content := WorkflowBase.FillMissing(content, fallback, RequiredSections);
    }
    r := Ok(content);
  }

  method GenerateContent(hasOpenAi: bool, reply: Result<string, string>,
                         decode: string -> Option<Value>, pd: Content) returns (r: Result<Content, string>)
    ensures r == GeneratedContent(hasOpenAi, reply, decode, pd)
  {
    r := GenerateFrom(hasOpenAi, reply, decode, FallbackContent(pd));
  }

  /** After the fill, each required section is the generated value when
      that is truthy and the fallback's (or "") otherwise, and every other
      key is as generated. */
  lemma CompletedSpec(content: Content, fallback: Content)
    ensures var r := Completed(content, fallback);
      && (forall k :: 0 <= k < |RequiredSections| ==>
            var s := RequiredSections[k];
            s in r && r[s] == (if Truthy(Get(content, s, VNone)) then content[s] else Get(fallback, s, VStr(""))))
      && (forall key :: key !in RequiredSections ==>
            (key in r <==> key in content) && (key in content ==> r[key] == content[key]))
  {
    var missing := WorkflowBase.MissingSections(content, RequiredSections);
    WorkflowBase.MissingSectionsSpec(content, RequiredSections);
    WorkflowBase.FilledFromSpec(content, fallback, missing);
  }

  /** With a fallback that has them, successful generation delivers every
      required section non-empty, whatever the reply. */
  lemma GeneratedHasRequired(hasOpenAi: bool, reply: Result<string, string>,
                             decode: string -> Option<Value>, fallback: Content)
    requires HasRequired(fallback) && GeneratedFrom(hasOpenAi, reply, decode, fallback).Ok?
    ensures HasRequired(GeneratedFrom(hasOpenAi, reply, decode, fallback).value)
  {
    if hasOpenAi && reply.Ok? && decode(WorkflowBase.JsonText(reply.value)).Some? {
      var content := decode(WorkflowBase.JsonText(reply.value)).value.fields;
      CompletedSpec(content, fallback);
      var r := Completed(content, fallback);
      forall k | 0 <= k < |RequiredSections|
        ensures RequiredSections[k] in r && Truthy(r[RequiredSections[k]])
      {
        var s := RequiredSections[k];
        if !Truthy(Get(content, s, VNone)) {
          assert r[s] == fallback[s];
        }
      }
    }
  }

  /** Generation fails exactly when the call fails or the reply decodes
      to something other than a dict; a missing client or an undecodable
      reply gives the fallback content. */
  lemma GeneratedOutcome(hasOpenAi: bool, reply: Result<string, string>,
                         decode: string -> Option<Value>, fallback: Content)
    ensures var r := GeneratedFrom(hasOpenAi, reply, decode, fallback);
      && (r.Err? <==>
            hasOpenAi && (reply.Err? || (decode(WorkflowBase.JsonText(reply.value)).Some?
              && !decode(WorkflowBase.JsonText(reply.value)).value.VDict?)))
      && (!hasOpenAi || (reply.Ok? && decode(WorkflowBase.JsonText(reply.value)).None?) ==> r == Ok(fallback))
  {
  }

  /** Successful generation of the plan delivers every required section
      non-empty, whatever the reply and the protocol data. */
  lemma GeneratedContentHasRequired(hasOpenAi: bool, reply: Result<string, string>,
                                    decode: string -> Option<Value>, pd: Content)
    requires GeneratedContent(hasOpenAi, reply, decode, pd).Ok?
    ensures HasRequired(GeneratedContent(hasOpenAi, reply, decode, pd).value)
  {
    FallbackHasRequired(pd);
    GeneratedHasRequired(hasOpenAi, reply, decode, FallbackContent(pd));
  }

  // ---------------------------------------------------------------------
  // Title page

  /** `_build_title_page`: the identification lines with their
      placeholders, then the fixed tail. The date is given. */
  function TitlePage(pd: Content, date: string): Section
  {
    var number := WorkflowBase.GetMetadataValue(pd, "protocol_number", VStr("[Protocol Number]"));
    var title := WorkflowBase.GetMetadataValue(pd, "title", VStr("[Study Title]"));
    var sponsor := WorkflowBase.GetMetadataValue(pd, "sponsor", VStr("[Sponsor]"));
    Section("title_page", 1, "Title Page",
      [ TitleHeading,
        Para("", 0, 12),
        Centered("Protocol Number: " + Str(number), 6),
        Centered("Study Title: " + Str(title), 6),
        Centered("Sponsor: " + Str(sponsor), 24) ] + TitleTail(date), [])
  }

  /** The title page is the level-1 section "title_page", its lines
      naming the protocol, study and sponsor, with placeholders for what
      the metadata lacks. */
  lemma TitlePageShape(pd: Content, date: string)
    ensures var t := TitlePage(pd, date);
      && t.id == "title_page" && t.level == 1 && t.heading == "Title Page"
      && |t.blocks| == 5 + |TitleTail(date)|
      && t.blocks[2] == Centered("Protocol Number: "
           + Str(WorkflowBase.GetMetadataValue(pd, "protocol_number", VStr("[Protocol Number]"))), 6)
      && t.blocks[4] == Centered("Sponsor: "
           + Str(WorkflowBase.GetMetadataValue(pd, "sponsor", VStr("[Sponsor]"))), 24)
  {
  }

  /** The three sections before the numbered ones. */
  function FrontMatter(pd: Content, date: string): seq<Section>
  {
    [TitlePage(pd, date), VersionHistorySection, TocSection]
  }

  // ---------------------------------------------------------------------
  // Numbered sections

  /** `"{num}. {heading}"`. */
  function NumberedHeading(num: string, heading: string): string
  {
    num + ". " + heading
  }

  /** `_build_numbered_section`: a level-1 section with one paragraph for
      each non-blank `\n\n` chunk of the text, stripped. */
  function NumberedSection(id: string, num: string, heading: string, text: string): Section
  {
    Section(id, 1, NumberedHeading(num, heading), ParagraphBlocks(Paragraphs(text), 6), [])
  }

  method BuildNumberedSection(id: string, num: string, heading: string, text: string) returns (s: Section)
    ensures s == NumberedSection(id, num, heading, text)
  {
    var blocks := WorkflowBase.BuildChunkParagraphs(Split(text, "\n\n"));
    s := Section(id, 1, NumberedHeading(num, heading), blocks, []);
  }

  /** A numbered section is level 1 under `"{num}. {heading}"` and holds
      exactly one stripped, non-empty paragraph per paragraph of its
      text, in order, with 6 points after each. */
  lemma NumberedSectionSpec(id: string, num: string, heading: string, text: string)
    ensures var s := NumberedSection(id, num, heading, text);
      var ps := Paragraphs(text);
      && s.id == id && s.level == 1 && s.heading == num + ". " + heading && s.subsections == []
      && |s.blocks| == |ps|
      && forall k :: 0 <= k < |ps| ==>
           s.blocks[k] == Para(ps[k], 0, 6) && s.blocks[k].kind == ParagraphType && ps[k] != "" && IsStripped(ps[k])
  {
    ParagraphBlocksSpec(Paragraphs(text), 6);
  }

  /** The paragraphs of a text field read as `content.get(key, "")`,
      under `if text:`; a truthy value other than a string has no
      `split`. */
  function TextParagraphs(v: Value): Result<seq<ContentBlock>, string>
  {
    if !Truthy(v) then Ok([])
    else if v.VStr? then Ok(ParagraphBlocks(Paragraphs(v.s), 6))
    else Err("expected a string, got " + Str(v))
  }

  method BuildTextParagraphs(v: Value) returns (r: Result<seq<ContentBlock>, string>)
    ensures r == TextParagraphs(v)
  {
    if !Truthy(v) {
      return Ok([]);
    }
    if !v.VStr? {
      return Err("expected a string, got " + Str(v));
    }
    var blocks := WorkflowBase.BuildChunkParagraphs(Split(v.s, "\n\n"));
    r := Ok(blocks);
  }

  // ---------------------------------------------------------------------
  // Roles and responsibilities

  /** A level-2 sub-heading with 12 points before and 6 after. */
  function SubHeading(text: string): ContentBlock
  {
    Heading(text, 2, 12, 6)
  }

  /** The blocks after the optional text: the roles table under its
      sub-heading, then the contact note under its own. */
  function RolesTail(num: string): seq<ContentBlock>
  {
    [SubHeading(num + ".1 Roles Table"), RolesTable, SubHeading(num + ".2 Contact Information"), ContactNote]
  }

  /** `_build_roles_section`. */
  function RolesSection(id: string, num: string, heading: string, content: Content): Result<Section, string>
  {
    match TextParagraphs(Get(content, "roles_and_responsibilities", VStr("")))
    case Err(e) => Err(e)
    case Ok(lead) => Ok(Section(id, 1, NumberedHeading(num, heading), lead + RolesTail(num), []))
  }

  method BuildRolesSection(id: string, num: string, heading: string, content: Content) returns (r: Result<Section, string>)
    ensures r == RolesSection(id, num, heading, content)
  {
    var lead := BuildTextParagraphs(Get(content, "roles_and_responsibilities", VStr("")));
    if lead.Err? {
      return Err(lead.error);
    }
    var blocks := lead.value;
    blocks := blocks + [SubHeading(num + ".1 Roles Table")];
    blocks := blocks + [RolesTable];
    blocks := blocks + [SubHeading(num + ".2 Contact Information")];
    blocks := blocks + [ContactNote];
    assert blocks == lead.value + RolesTail(num);
    r := Ok(Section(id, 1, NumberedHeading(num, heading), blocks, []));
  }

  /** The roles table has three columns and six rows of three cells. */
  lemma RolesTableShape()
    ensures RolesTable.kind == TableType && RolesTable.table.Some?
    ensures |RolesTable.table.value.headers| == 3 && |RolesTable.table.value.rows| == 6
    ensures forall i :: 0 <= i < 6 ==> |RolesTable.table.value.rows[i]| == 3
  {
  }

  /** Whatever the text, the roles section ends with the two numbered
      sub-headings around the six-row roles table, after one paragraph per
      paragraph of the text; it fails only on a truthy text that is not a
      string. */
  lemma RolesSectionSpec(id: string, num: string, heading: string, content: Content)
    ensures var v := Get(content, "roles_and_responsibilities", VStr(""));
      RolesSection(id, num, heading, content).Err? <==> Truthy(v) && !v.VStr?
    ensures RolesSection(id, num, heading, content).Ok? ==>
      var s := RolesSection(id, num, heading, content).value;
      var v := Get(content, "roles_and_responsibilities", VStr(""));
      var n := if Truthy(v) then |Paragraphs(v.s)| else 0;
      && s.id == id && s.level == 1 && s.heading == num + ". " + heading
      && |s.blocks| == n + 4
      && s.blocks[n] == Heading(num + ".1 Roles Table", 2, 12, 6)
      && s.blocks[n + 1] == RolesTable
      && s.blocks[n + 2] == Heading(num + ".2 Contact Information", 2, 12, 6)
      && s.blocks[n + 3] == ContactNote
      && (Truthy(v) ==> s.blocks[..n] == ParagraphBlocks(Paragraphs(v.s), 6))
  {
    var v := Get(content, "roles_and_responsibilities", VStr(""));
    if Truthy(v) && v.VStr? {
      ParagraphBlocksSpec(Paragraphs(v.s), 6);
    }
  }

  // ---------------------------------------------------------------------
  // Medical coding

  /** The blocks before the dictionary subsections: the text's
      paragraphs when the text is truthy, the default paragraph when it
      is not. */
  function CodingLead(v: Value): Result<seq<ContentBlock>, string>
  {
    if !Truthy(v) then Ok([CodingDefault]) else TextParagraphs(v)
  }

  /** The three numbered subsections: dictionary versions with their
      table, coding procedures, and dictionary upgrades. */
  function CodingTail(num: string): seq<ContentBlock>
  {
    [ SubHeading(num + ".1 Dictionary Versions"), DictionaryIntro, DictionaryTable,
      SubHeading(num + ".2 Coding Procedures"), CodingProcedures,
      SubHeading(num + ".3 Dictionary Upgrades"), DictionaryUpgrades ]
  }

  /** `_build_coding_section`. */
  function CodingSection(id: string, num: string, heading: string, content: Content): Result<Section, string>
  {
    match CodingLead(Get(content, "medical_coding", VStr("")))
    case Err(e) => Err(e)
    case Ok(lead) => Ok(Section(id, 1, NumberedHeading(num, heading), lead + CodingTail(num), []))
  }

  method BuildCodingSection(id: string, num: string, heading: string, content: Content) returns (r: Result<Section, string>)
    ensures r == CodingSection(id, num, heading, content)
  {
    var text := Get(content, "medical_coding", VStr(""));
    var blocks: seq<ContentBlock>;
    if Truthy(text) {
      var lead := BuildTextParagraphs(text);
      if lead.Err? {
        return Err(lead.error);
      }
      blocks := lead.value;
    } else {
      blocks := [CodingDefault];
    }
    var lead := blocks;
    blocks := blocks + [SubHeading(num + ".1 Dictionary Versions")];
    blocks := blocks + [DictionaryIntro];
    blocks := blocks + [DictionaryTable];
    blocks := blocks + [SubHeading(num + ".2 Coding Procedures")];
    blocks := blocks + [CodingProcedures];
    blocks := blocks + [SubHeading(num + ".3 Dictionary Upgrades")];
    blocks := blocks + [DictionaryUpgrades];
    assert blocks == lead + CodingTail(num);
    r := Ok(Section(id, 1, NumberedHeading(num, heading), blocks, []));
  }

  /** The default paragraph stands first exactly when the coding text is
      falsy; a truthy text gives its own paragraphs instead, so a text of
      blanks gives none at all. The dictionary table names MedDRA 26.1
      and WHODrug Global March 2024. */
  lemma CodingSectionSpec(id: string, num: string, heading: string, content: Content)
    ensures var v := Get(content, "medical_coding", VStr(""));
      CodingSection(id, num, heading, content).Err? <==> Truthy(v) && !v.VStr?
    ensures CodingSection(id, num, heading, content).Ok? ==>
      var s := CodingSection(id, num, heading, content).value;
      var v := Get(content, "medical_coding", VStr(""));
      var n := if Truthy(v) then |Paragraphs(v.s)| else 1;
      && s.id == id && s.level == 1 && s.heading == num + ". " + heading
      && |s.blocks| == n + 7
      && (!Truthy(v) ==> s.blocks[0] == CodingDefault)
      && (Truthy(v) ==> s.blocks[..n] == ParagraphBlocks(Paragraphs(v.s), 6))
      && (Truthy(v) && IsBlank(v.s) ==> s.blocks[0] == Heading(num + ".1 Dictionary Versions", 2, 12, 6))
      && s.blocks[n + 2] == DictionaryTable
  {
    var v := Get(content, "medical_coding", VStr(""));
    if Truthy(v) && v.VStr? {
      ParagraphBlocksSpec(Paragraphs(v.s), 6);
      if IsBlank(v.s) {
        BlankHasNoParagraphs(v.s);
      }
    }
  }

  /** The dictionary table names MedDRA 26.1 for adverse events and
      medical history and WHODrug Global March 2024 for medications. */
  lemma DictionaryTableRows()
    ensures DictionaryTable.kind == TableType && DictionaryTable.table.Some?
    ensures var t := DictionaryTable.table.value;
      && t.headers == ["Dictionary", "Version", "Application"]
      && |t.rows| == 2 && |t.rows[0]| == 3 && |t.rows[1]| == 3
      && t.rows[0][0] == TextCell("MedDRA") && t.rows[0][1] == TextCell("26.1")
      && t.rows[1][0] == TextCell("WHODrug Global") && t.rows[1][1] == TextCell("March 2024")
  {
  }

  /** A text of blanks has no paragraphs. */
  lemma BlankHasNoParagraphs(s: string)
    requires IsBlank(s)
    ensures Paragraphs(s) == []
  {
    var chunks := Split(s, "\n\n");
    forall k | 0 <= k < |chunks| ensures IsBlank(chunks[k]) {
      JoinedPartIsBlank(chunks, "\n\n", k);
    }
    NonBlankStrippedOfBlanks(chunks);
  }

  /** Every part of a blank joined text is blank. */
  lemma {:induction false} JoinedPartIsBlank(parts: seq<string>, sep: string, k: nat)
    requires k < |parts| && IsBlank(Join(parts, sep))
    ensures IsBlank(parts[k])
  {
    if |parts| > 1 {
      var rest := Join(parts[1..], sep);
      assert Join(parts, sep) == parts[0] + sep + rest;
      if k == 0 {
        assert forall i :: 0 <= i < |parts[0]| ==> parts[0][i] == Join(parts, sep)[i];
      } else {
        assert forall i :: 0 <= i < |rest| ==> rest[i] == Join(parts, sep)[|parts[0]| + |sep| + i];
        JoinedPartIsBlank(parts[1..], sep, k - 1);
      }
    }
  }

  // ---------------------------------------------------------------------
  // The appendices

  /** `s[:n]`. */
  function Truncated(s: string, n: nat): (r: string)
    ensures |r| <= n && r <= s
    ensures |s| <= n ==> r == s
    ensures |s| > n ==> |r| == n
  {
    if |s| <= n then s else s[..n]
  }

  /** The texts of a list of string values. */
  function Texts(xs: seq<Value>): (r: seq<string>)
    requires forall k :: 0 <= k < |xs| ==> xs[k].VStr?
    ensures |r| == |xs| && forall k :: 0 <= k < |xs| ==> r[k] == xs[k].s
  {
    seq(|xs|, k requires 0 <= k < |xs| => xs[k].s)
  }

  /** `", ".join(v)`: every item iterated must be a string. */
  function JoinedProcedures(v: Value): Result<string, string>
  {
    match WorkflowBase.Iterated(v)
    case Err(e) => Err(e)
    case Ok(xs) =>
      if forall k :: 0 <= k < |xs| ==> xs[k].VStr? then Ok(Join(Texts(xs), ", "))
      else Err("sequence item: expected str instance")
  }

  /** The row the loop of `_build_visit_schedule_appendix` appends for
      one visit: name, timing, the window or "N/A", and the procedures
      joined and cut to 100 characters, or "See protocol". */
  function VisitRow(visit: Value): Result<seq<Value>, string>
  {
    if !visit.VDict? then Err("object has no attribute 'get'")
    else
      var f := visit.fields;
      var window := Get(f, "window", VStr(""));
      match JoinedProcedures(Get(f, "procedures", VList([])))
      case Err(e) => Err(e)
      case Ok(joined) =>
        var procedures := Truncated(joined, 100);
        Ok([ Get(f, "name", VStr("")),
             Get(f, "timing", VStr("")),
             if Truthy(window) then window else VStr("N/A"),
             VStr(if procedures != "" then procedures else "See protocol") ])
  }

  /** The row the loop of `_build_procedures_appendix` appends for one
      procedure: the name, the CRF page (default "TBD"), the collection
      method (default "eCRF") and the notes or "-". */
  function ProcedureRow(proc: Value): Result<seq<Value>, string>
  {
    if !proc.VDict? then Err("object has no attribute 'get'")
    else
      var f := proc.fields;
      var notes := Get(f, "notes", VStr(""));
      Ok([ Get(f, "name", VStr("")),
           Get(f, "crf_page", VStr("TBD")),
           Get(f, "collection_method", VStr("eCRF")),
           if Truthy(notes) then notes else VStr("-") ])
  }

  /** An appendix: a page break, then either the note for a falsy list
      or the table of one row per item. */
  function Appendix(id: string, heading: string, items: Value, unavailable: ContentBlock,
                    row: Value -> Result<seq<Value>, string>,
                    headers: seq<string>, widths: seq<real>): Result<Section, string>
  {
    if !Truthy(items) then Ok(Section(id, 1, heading, [NewBlock(PageBreakType), unavailable], []))
    else match WorkflowBase.Iterated(items)
      case Err(e) => Err(e)
      case Ok(xs) =>
        match Seqs.Traverse(xs, row)
        case Err(e) => Err(e)
        case Ok(rows) =>
          match TableRowsOf(rows)
          case Err(e) => Err(e)
          case Ok(cells) =>
            Ok(Section(id, 1, heading, [NewBlock(PageBreakType),
              NewBlock(TableType).(table := Some(TableBlock(headers, cells, Some(widths), "Table Grid", HeaderBlue)))], []))
  }

  /** `_build_visit_schedule_appendix`. */
  function VisitAppendix(visits: Value): Result<Section, string>
  {
    Appendix("appendix_visits", "APPENDIX A: VISIT SCHEDULE", visits, VisitsUnavailable, VisitRow, VisitHeaders, VisitWidths)
  }

  /** `_build_procedures_appendix`. */
  function ProcedureAppendix(procedures: Value): Result<Section, string>
  {
    Appendix("appendix_procedures", "APPENDIX B: CRF COMPLETION GUIDELINES", procedures, ProceduresUnavailable,
      ProcedureRow, ProcedureHeaders, ProcedureWidths)
  }

  /** The row loop of either appendix: one row per item, in order; the
      first item whose row cannot be built ends the loop with its error. */
  method BuildRows(xs: seq<Value>, row: Value -> Result<seq<Value>, string>) returns (r: Result<seq<seq<Value>>, string>)
    ensures r == Seqs.Traverse(xs, row)
  {
    var rows: seq<seq<Value>> := [];
    for i := 0 to |xs|
      invariant Seqs.Traverse(xs[..i], row) == Ok(rows)
    {
      Seqs.TraverseSnoc(xs, i, row, rows);
      var next := row(xs[i]);
      if next.Err? {
        Seqs.TraversePersists(xs, i + 1, row);
        return Err(next.error);
      }
      rows := rows + [next.value];
    }
    assert xs[..|xs|] == xs;
    r := Ok(rows);
  }

  method BuildAppendix(id: string, heading: string, items: Value, unavailable: ContentBlock,
                       row: Value -> Result<seq<Value>, string>,
                       headers: seq<string>, widths: seq<real>) returns (r: Result<Section, string>)
    ensures r == Appendix(id, heading, items, unavailable, row, headers, widths)
  {
    var blocks := [NewBlock(PageBreakType)];
    if !Truthy(items) {
      blocks := blocks + [unavailable];
      assert blocks == [NewBlock(PageBreakType), unavailable];
      return Ok(Section(id, 1, heading, blocks, []));
    }
    var xs := WorkflowBase.Iterated(items);
    if xs.Err? {
      return Err(xs.error);
    }
    var rows := BuildRows(xs.value, row);
    if rows.Err? {
      return Err(rows.error);
    }
    var cells := TableRowsOf(rows.value);
    if cells.Err? {
      return Err(cells.error);
    }
    var table := TableBlock(headers, cells.value, Some(widths), "Table Grid", HeaderBlue);
    blocks := blocks + [NewBlock(TableType).(table := Some(table))];
    assert blocks == [NewBlock(PageBreakType), NewBlock(TableType).(table := Some(table))];
    assert WorkflowBase.Iterated(items) == Ok(xs.value);
    assert Seqs.Traverse(xs.value, row) == Ok(rows.value);
    r := Ok(Section(id, 1, heading, blocks, []));
  }

  /** A visit's window is kept when truthy and is "N/A" otherwise; its
      procedures cell is the joined list when that is at most 100
      characters, its first 100 characters when longer, and "See
      protocol" when the list joins to nothing. */
  lemma VisitRowSpec(f: map<string, Value>)
    requires JoinedProcedures(Get(f, "procedures", VList([]))).Ok?
    ensures var row := VisitRow(VDict(f));
      var joined := JoinedProcedures(Get(f, "procedures", VList([]))).value;
      var window := Get(f, "window", VStr(""));
      && row.Ok? && |row.value| == 4
      && row.value[0] == Get(f, "name", VStr("")) && row.value[1] == Get(f, "timing", VStr(""))
      && (Truthy(window) ==> row.value[2] == window)
      && (!Truthy(window) ==> row.value[2] == VStr("N/A"))
      && (joined == "" ==> row.value[3] == VStr("See protocol"))
      && (0 < |joined| <= 100 ==> row.value[3] == VStr(joined))
      && (|joined| > 100 ==> row.value[3] == VStr(joined[..100]))
  {
  }

  /** The procedures cell never exceeds 100 characters, and a list of
      procedures joins with ", " between them. */
  lemma VisitProceduresBounded(f: map<string, Value>, names: seq<string>)
    requires Get(f, "procedures", VList([])) == VList(seq(|names|, k requires 0 <= k < |names| => VStr(names[k])))
    ensures JoinedProcedures(Get(f, "procedures", VList([]))) == Ok(Join(names, ", "))
    ensures VisitRow(VDict(f)).Ok?
    ensures var cell := VisitRow(VDict(f)).value[3];
      cell.VStr? && (|cell.s| <= 100 || cell.s == "See protocol")
  {
    var xs := seq(|names|, k requires 0 <= k < |names| => VStr(names[k]));
    assert Texts(xs) == names;
  }

  /** The CRF page and the collection method take their defaults only
      when the key is absent (a stored empty value is kept), and falsy
      notes become "-". */
  lemma ProcedureRowSpec(f: map<string, Value>)
    ensures var row := ProcedureRow(VDict(f));
      && row.Ok? && |row.value| == 4
      && row.value[0] == Get(f, "name", VStr(""))
      && ("crf_page" !in f ==> row.value[1] == VStr("TBD"))
      && ("crf_page" in f ==> row.value[1] == f["crf_page"])
      && ("collection_method" !in f ==> row.value[2] == VStr("eCRF"))
      && ("collection_method" in f ==> row.value[2] == f["collection_method"])
      && (("notes" !in f || !Truthy(f["notes"])) ==> row.value[3] == VStr("-"))
      && ("notes" in f && Truthy(f["notes"]) ==> row.value[3] == f["notes"])
  {
  }

  /** A built appendix of a truthy list holds a page break and a table
      with one row per item, each entry the cell that the value of the
      item's row validates as: a string stays text, a dict becomes a
      `TableCell`. */
  lemma AppendixSpec(id: string, heading: string, items: Value, unavailable: ContentBlock,
                     row: Value -> Result<seq<Value>, string>, headers: seq<string>, widths: seq<real>)
    requires Truthy(items) && Appendix(id, heading, items, unavailable, row, headers, widths).Ok?
    ensures var s := Appendix(id, heading, items, unavailable, row, headers, widths).value;
      var xs := WorkflowBase.Iterated(items).value;
      && s.id == id && s.level == 1 && s.heading == heading && |s.blocks| == 2
      && s.blocks[0].kind == PageBreakType && s.blocks[1].table.Some?
      && s.blocks[1].table.value.headers == headers
      && |s.blocks[1].table.value.rows| == |xs|
      && forall i :: 0 <= i < |xs| ==>
           && row(xs[i]).Ok?
           && |s.blocks[1].table.value.rows[i]| == |row(xs[i]).value|
           && forall j :: 0 <= j < |row(xs[i]).value| ==>
                CellEntryOf(row(xs[i]).value[j]) == Ok(s.blocks[1].table.value.rows[i][j])
  {
    var xs := WorkflowBase.Iterated(items).value;
    Seqs.TraverseSpec(xs, row);
    TableRowsOfSpec(Seqs.Traverse(xs, row).value);
  }

  /** An appendix fails exactly when the list is truthy and either cannot
      be iterated, or has an item whose row fails, or yields a value that
      validates neither as a string nor as a `TableCell`. */
  lemma AppendixFails(id: string, heading: string, items: Value, unavailable: ContentBlock,
                      row: Value -> Result<seq<Value>, string>, headers: seq<string>, widths: seq<real>)
    ensures Appendix(id, heading, items, unavailable, row, headers, widths).Err? <==>
      Truthy(items) && (WorkflowBase.Iterated(items).Err?
        || (exists k :: 0 <= k < |WorkflowBase.Iterated(items).value| && row(WorkflowBase.Iterated(items).value[k]).Err?)
        || (Seqs.Traverse(WorkflowBase.Iterated(items).value, row).Ok?
            && var rows := Seqs.Traverse(WorkflowBase.Iterated(items).value, row).value;
               exists i, j :: 0 <= i < |rows| && 0 <= j < |rows[i]| && CellEntryOf(rows[i][j]).Err?))
  {
    if Truthy(items) && WorkflowBase.Iterated(items).Ok? {
      Seqs.TraverseFailIff(WorkflowBase.Iterated(items).value, row);
      if Seqs.Traverse(WorkflowBase.Iterated(items).value, row).Ok? {
        TableRowsOfSpec(Seqs.Traverse(WorkflowBase.Iterated(items).value, row).value);
      }
    }
  }

  /** Either appendix carries its id and heading at level 1, whether it
      lists its items or says they are not available. */
  lemma AppendixIdentified(id: string, heading: string, items: Value, unavailable: ContentBlock,
                           row: Value -> Result<seq<Value>, string>, headers: seq<string>, widths: seq<real>)
    ensures var r := Appendix(id, heading, items, unavailable, row, headers, widths);
      r.Ok? ==> r.value.id == id && r.value.level == 1 && r.value.heading == heading
  {
  }

  /** A visit whose timing is a dict still gets its row: the dict is
      validated as a `TableCell`, here the default one, and the rest of
      the row is filled in as for any visit. */
  lemma DictTimingRow(f: map<string, Value>)
    requires f == map["name" := VStr("V1"), "timing" := VDict(map[])]
    ensures VisitRow(VDict(f)) == Ok([VStr("V1"), VDict(map[]), VStr("N/A"), VStr("See protocol")])
    ensures RowCellsOf(VisitRow(VDict(f)).value)
      == Ok([TextCell("V1"), RichCell(NewTableCell("")), TextCell("N/A"), TextCell("See protocol")])
  {
    assert "procedures"[0] == 'p' && "window"[0] == 'w';
    assert "procedures" !in f && "window" !in f;
    assert Join([], ", ") == "";
    assert JoinedProcedures(VList([])) == Ok("");
    DictTimingCells([VStr("V1"), VDict(map[]), VStr("N/A"), VStr("See protocol")]);
  }

  /** The cells of that row, entry by entry. */
  lemma DictTimingCells(row: seq<Value>)
    requires row == [VStr("V1"), VDict(map[]), VStr("N/A"), VStr("See protocol")]
    ensures RowCellsOf(row) == Ok([TextCell("V1"), RichCell(NewTableCell("")), TextCell("N/A"), TextCell("See protocol")])
  {
    EmptyDictIsDefaultCell();
    var cells := [TextCell("V1"), RichCell(NewTableCell("")), TextCell("N/A"), TextCell("See protocol")];
    assert CellEntryOf(row[1]) == Ok(cells[1]);
    RowCellsOfEach(row, cells);
  }

  // ---------------------------------------------------------------------
  // The section list

  /** One entry of `section_configs`: the number, the id, the heading,
      and the content key of its text (None for the two special
      sections). */
  datatype Config = Config(num: string, id: string, heading: string, textKey: Option<string>)

  const RolesEntry: Config := Config("3", "roles", "ROLES AND RESPONSIBILITIES", None)

  const CodingEntry: Config := Config("7", "coding", "MEDICAL CODING", None)

  const Configs: seq<Config> := [
    Config("1", "purpose_scope", "PURPOSE AND SCOPE", Some("purpose_and_scope")),
    Config("2", "study_info", "STUDY INFORMATION", Some("study_information")),
    RolesEntry,
    Config("4", "database", "DATABASE DESIGN", Some("database_design")),
    Config("5", "data_entry", "DATA ENTRY PROCEDURES", Some("data_entry")),
    Config("6", "validation", "DATA VALIDATION (EDIT CHECKS)", Some("data_validation")),
    CodingEntry,
    Config("8", "query", "DATA REVIEW AND QUERY MANAGEMENT", Some("query_management")),
    Config("9", "sae", "SAE RECONCILIATION", Some("sae_reconciliation")),
    Config("10", "external", "EXTERNAL DATA MANAGEMENT", Some("external_data")),
    Config("11", "lock", "DATABASE LOCK PROCEDURES", Some("database_lock")),
    Config("12", "transfer", "DATA TRANSFER", Some("data_transfer")),
    Config("13", "qc", "QUALITY CONTROL", Some("quality_control")),
    Config("14", "audit", "AUDIT TRAIL", Some("audit_trail")),
    Config("15", "archive", "ARCHIVING", Some("archiving"))
  ]

  /** The text of a configuration: `content.get(key, "")`, or None. */
  function ConfigText(c: Config, content: Content): Value
  {
    match c.textKey
    case Some(key) => Get(content, key, VStr(""))
    case None => VNone
  }

  /** What the builders return on one input: the content the numbered
      sections read, the title page, the roles and coding sections (each
      a section or the error its builder raises), and for each appendix
      whether the protocol lists its items and what its builder returns. */
  datatype Built = Built(
    content: Content,
    titlePage: Section,
    roles: Result<Section, string>,
    coding: Result<Section, string>,
    visitsListed: bool,
    visits: Result<Section, string>,
    proceduresListed: bool,
    procedures: Result<Section, string>)

  function Visits(pd: Content): Value
  {
    Get(pd, "visits", VList([]))
  }

  function Procedures(pd: Content): Value
  {
    Get(pd, "procedures", VList([]))
  }

  /** The builders' results on the given content and protocol data. */
  function BuiltFrom(content: Content, pd: Content, date: string): Built
  {
    Built(content, TitlePage(pd, date),
      RolesSection(RolesEntry.id, RolesEntry.num, RolesEntry.heading, content),
      CodingSection(CodingEntry.id, CodingEntry.num, CodingEntry.heading, content),
      Truthy(Visits(pd)), VisitAppendix(Visits(pd)),
      Truthy(Procedures(pd)), ProcedureAppendix(Procedures(pd)))
  }

  /** Runs the builders, the ones with loops as methods. */
  method RunBuilders(content: Content, pd: Content, date: string) returns (b: Built)
    ensures b == BuiltFrom(content, pd, date)
  {
    var roles := BuildRolesSection(RolesEntry.id, RolesEntry.num, RolesEntry.heading, content);
    var coding := BuildCodingSection(CodingEntry.id, CodingEntry.num, CodingEntry.heading, content);
    var visits := BuildVisitAppendix(Visits(pd));
    var procedures := BuildProcedureAppendix(Procedures(pd));
    b := Built(content, TitlePage(pd, date), roles, coding, Truthy(Visits(pd)), visits,
      Truthy(Procedures(pd)), procedures);
  }

  /** The section the loop of `_build_sections` appends for one entry:
      the roles or coding section, or the numbered section of its text. */
  function ConfigSection(c: Config, b: Built): Result<Section, string>
  {
    if c.id == "roles" then b.roles
    else if c.id == "coding" then b.coding
    else
      match WorkflowBase.FieldText(ConfigText(c, b.content), "")
      case Err(e) => Err(e)
      case Ok(text) => Ok(NumberedSection(c.id, c.num, c.heading, text))
  }

  /** `ConfigSection` as the function the loop applies to each entry. */
  function ConfigSectionOf(b: Built): Config -> Result<Section, string>
  {
    (c: Config) => ConfigSection(c, b)
  }

  method BuildConfigSection(c: Config, b: Built) returns (r: Result<Section, string>)
    ensures r == ConfigSection(c, b)
  {
    if c.id == "roles" {
      r := b.roles;
    } else if c.id == "coding" {
      r := b.coding;
    } else {
      var text := WorkflowBase.FieldText(ConfigText(c, b.content), "");
      if text.Err? {
        return Err(text.error);
      }
      var s := BuildNumberedSection(c.id, c.num, c.heading, text.value);
      r := Ok(s);
    }
  }

  /** The loop over the configured sections, stopping at the first that
      raises. */
  method BuildConfigSections(b: Built) returns (r: Result<seq<Section>, string>)
    ensures r == Seqs.Traverse(Configs, ConfigSectionOf(b))
  {
    var sections: seq<Section> := [];
    for i := 0 to |Configs|
      invariant Seqs.Traverse(Configs[..i], ConfigSectionOf(b)) == Ok(sections)
    {
      Seqs.TraverseSnoc(Configs, i, ConfigSectionOf(b), sections);
      var s := BuildConfigSection(Configs[i], b);
      if s.Err? {
        Seqs.TraversePersists(Configs, i + 1, ConfigSectionOf(b));
        return Err(s.error);
      }
      sections := sections + [s.value];
    }
    assert Configs[..|Configs|] == Configs;
    r := Ok(sections);
  }

  /** The list so far with an appendix added when its list is truthy;
      the first error stays. */
  function WithAppendix(acc: Result<seq<Section>, string>, present: bool,
                        appendix: Result<Section, string>): Result<seq<Section>, string>
  {
    if acc.Err? || !present then acc
    else if appendix.Err? then Err(appendix.error)
    else Ok(acc.value + [appendix.value])
  }

  /** The title page, version history and table of contents. */
  function Front(b: Built): seq<Section>
  {
    [b.titlePage, VersionHistorySection, TocSection]
  }

  /** The front matter followed by the configured sections. */
  function AfterFront(front: seq<Section>, main: Result<seq<Section>, string>): Result<seq<Section>, string>
  {
    if main.Err? then Err(main.error) else Ok(front + main.value)
  }

  /** `_build_sections`. */
  function Sections(b: Built): Result<seq<Section>, string>
  {
    WithAppendix(
      WithAppendix(AfterFront(Front(b), Seqs.Traverse(Configs, ConfigSectionOf(b))), b.visitsListed, b.visits),
      b.proceduresListed, b.procedures)
  }

  method BuildSections(b: Built) returns (r: Result<seq<Section>, string>)
    ensures r == Sections(b)
  {
    var sections := [b.titlePage, VersionHistorySection, TocSection];
    var main := BuildConfigSections(b);
    if main.Err? {
      return Err(main.error);
    }
    sections := sections + main.value;
    if b.visitsListed {
      if b.visits.Err? {
        return Err(b.visits.error);
      }
      sections := sections + [b.visits.value];
    }
    if b.proceduresListed {
      if b.procedures.Err? {
        return Err(b.procedures.error);
      }
      sections := sections + [b.procedures.value];
    }
    r := Ok(sections);
  }

  method BuildVisitAppendix(visits: Value) returns (r: Result<Section, string>)
    ensures r == VisitAppendix(visits)
  {
    r := BuildAppendix("appendix_visits", "APPENDIX A: VISIT SCHEDULE", visits, VisitsUnavailable,
      VisitRow, VisitHeaders, VisitWidths);
  }

  method BuildProcedureAppendix(procedures: Value) returns (r: Result<Section, string>)
    ensures r == ProcedureAppendix(procedures)
  {
    r := BuildAppendix("appendix_procedures", "APPENDIX B: CRF COMPLETION GUIDELINES", procedures,
      ProceduresUnavailable, ProcedureRow, ProcedureHeaders, ProcedureWidths);
  }

  /** The built sections carry their builder's id and numbered heading,
      at level 1. */
  predicate Identified(b: Built)
  {
    && b.titlePage.id == "title_page" && b.titlePage.level == 1
    && (b.roles.Ok? ==>
          b.roles.value.id == RolesEntry.id && b.roles.value.level == 1
          && b.roles.value.heading == RolesEntry.num + ". " + RolesEntry.heading)
    && (b.coding.Ok? ==>
          b.coding.value.id == CodingEntry.id && b.coding.value.level == 1
          && b.coding.value.heading == CodingEntry.num + ". " + CodingEntry.heading)
    && (b.visits.Ok? ==> b.visits.value.id == "appendix_visits" && b.visits.value.level == 1)
    && (b.procedures.Ok? ==> b.procedures.value.id == "appendix_procedures" && b.procedures.value.level == 1)
  }

  /** The roles section carries the id and numbered heading it is given. */
  lemma RolesSectionIdentified(id: string, num: string, heading: string, content: Content)
    ensures var r := RolesSection(id, num, heading, content);
      r.Ok? ==> r.value.id == id && r.value.level == 1 && r.value.heading == num + ". " + heading
  {
    RolesSectionSpec(id, num, heading, content);
  }

  /** The coding section carries the id and numbered heading it is given. */
  lemma CodingSectionIdentified(id: string, num: string, heading: string, content: Content)
    ensures var r := CodingSection(id, num, heading, content);
      r.Ok? ==> r.value.id == id && r.value.level == 1 && r.value.heading == num + ". " + heading
  {
    CodingSectionSpec(id, num, heading, content);
  }

  /** Between them, the builders identify their sections. */
  lemma BuildersIdentified(content: Content, pd: Content, date: string)
    ensures Identified(BuiltFrom(content, pd, date))
  {
    var b := BuiltFrom(content, pd, date);
    TitlePageShape(pd, date);
    RolesSectionIdentified(RolesEntry.id, RolesEntry.num, RolesEntry.heading, content);
    CodingSectionIdentified(CodingEntry.id, CodingEntry.num, CodingEntry.heading, content);
    AppendixIdentified("appendix_visits", "APPENDIX A: VISIT SCHEDULE", Visits(pd), VisitsUnavailable,
      VisitRow, VisitHeaders, VisitWidths);
    AppendixIdentified("appendix_procedures", "APPENDIX B: CRF COMPLETION GUIDELINES", Procedures(pd),
      ProceduresUnavailable, ProcedureRow, ProcedureHeaders, ProcedureWidths);
  }

  /** Only the third entry is the roles section and only the seventh the
      coding section. */
  lemma SpecialEntries()
    ensures forall k :: 0 <= k < |Configs| ==> (Configs[k].id == "roles" <==> k == 2)
    ensures forall k :: 0 <= k < |Configs| ==> (Configs[k].id == "coding" <==> k == 6)
  {
  }

  /** The roles and coding ids name only their own entries. */
  predicate SpecialsFixed(cs: seq<Config>)
  {
    forall k :: 0 <= k < |cs| ==>
      (cs[k].id == "roles" ==> cs[k] == RolesEntry) && (cs[k].id == "coding" ==> cs[k] == CodingEntry)
  }

  lemma ConfigsSpecialsFixed()
    ensures SpecialsFixed(Configs)
  {
    SpecialEntries();
  }

  /** With identified builders, every configured section is level 1 under
      its entry's id and numbered heading. */
  lemma ConfigSectionShape(c: Config, b: Built)
    requires Identified(b) && ConfigSection(c, b).Ok?
    requires c.id == "roles" ==> c == RolesEntry
    requires c.id == "coding" ==> c == CodingEntry
    ensures var s := ConfigSection(c, b).value;
      s.id == c.id && s.level == 1 && s.heading == c.num + ". " + c.heading
  {
    if c.id != "roles" && c.id != "coding" {
      NumberedSectionSpec(c.id, c.num, c.heading, WorkflowBase.FieldText(ConfigText(c, b.content), "").value);
    }
  }

  /** A roles or coding entry fails exactly as its builder did; any other
      entry fails exactly when its text is truthy and not a string. */
  lemma ConfigSectionFails(c: Config, b: Built)
    ensures c.id == "roles" ==> ConfigSection(c, b) == b.roles
    ensures c.id == "coding" ==> ConfigSection(c, b) == b.coding
    ensures c.id != "roles" && c.id != "coding" ==>
      (ConfigSection(c, b).Err? <==> Truthy(ConfigText(c, b.content)) && !ConfigText(c, b.content).VStr?)
  {
  }

  /** A successful list is the front matter, the configured sections and
      the listed appendices, in that order. */
  lemma SectionsLayout(b: Built)
    requires Sections(b).Ok?
    ensures var main := Seqs.Traverse(Configs, ConfigSectionOf(b));
      && main.Ok? && (b.visitsListed ==> b.visits.Ok?) && (b.proceduresListed ==> b.procedures.Ok?)
      && Sections(b).value == Front(b) + main.value
           + (if b.visitsListed then [b.visits.value] else [])
           + (if b.proceduresListed then [b.procedures.value] else [])
  {
  }

  /** With identified builders, the configured sections carry their
      entries' ids and numbered headings, at level 1, in order. */
  lemma ConfiguredShape(cs: seq<Config>, b: Built)
    requires Identified(b) && Seqs.Traverse(cs, ConfigSectionOf(b)).Ok?
    requires SpecialsFixed(cs)
    ensures var m := Seqs.Traverse(cs, ConfigSectionOf(b)).value;
      |m| == |cs| && forall k :: 0 <= k < |cs| ==>
        m[k].id == cs[k].id && m[k].level == 1 && m[k].heading == cs[k].num + ". " + cs[k].heading
  {
    var m := Seqs.Traverse(cs, ConfigSectionOf(b)).value;
    Seqs.TraverseSpec(cs, ConfigSectionOf(b));
    forall k | 0 <= k < |cs|
      ensures m[k].id == cs[k].id && m[k].level == 1 && m[k].heading == cs[k].num + ". " + cs[k].heading
    {
      assert ConfigSection(cs[k], b) == Ok(m[k]);
      ConfigSectionShape(cs[k], b);
    }
  }

  /** A built list of identified builders starts with the title page,
      version history and table of contents, continues with the fifteen
      numbered sections in their configured order, and ends with the
      visit appendix exactly when the protocol lists visits and the
      procedure appendix exactly when it lists procedures. */
  lemma SectionsShape(b: Built)
    requires Identified(b) && Sections(b).Ok?
    ensures var ss := Sections(b).value;
      var a := if b.visitsListed then 1 else 0;
      var p := if b.proceduresListed then 1 else 0;
      && |ss| == 18 + a + p
      && ss[0].id == "title_page" && ss[1].id == "version_history" && ss[2].id == "toc"
      && (forall k :: 0 <= k < 15 ==>
            ss[3 + k].id == Configs[k].id && ss[3 + k].level == 1
            && ss[3 + k].heading == Configs[k].num + ". " + Configs[k].heading)
      && (a == 1 ==> ss[18] == b.visits.value && ss[18].id == "appendix_visits")
      && (p == 1 ==> ss[18 + a] == b.procedures.value && ss[18 + a].id == "appendix_procedures")
  {
    SectionsEnds(b);
    SectionsConfigured(b);
  }

  /** The front matter and the appendices of a successful list. */
  lemma SectionsEnds(b: Built)
    requires Identified(b) && Sections(b).Ok?
    ensures var ss := Sections(b).value;
      var a := if b.visitsListed then 1 else 0;
      var p := if b.proceduresListed then 1 else 0;
      && |ss| == 18 + a + p
      && ss[0].id == "title_page" && ss[1].id == "version_history" && ss[2].id == "toc"
      && (a == 1 ==> ss[18] == b.visits.value && ss[18].id == "appendix_visits")
      && (p == 1 ==> ss[18 + a] == b.procedures.value && ss[18 + a].id == "appendix_procedures")
  {
    SectionsLayout(b);
    FrontIds(b);
    assert |Configs| == 15;
  }

  /** The middle of a successful list: the configured sections, in order. */
  lemma SectionsConfigured(b: Built)
    requires Identified(b) && Sections(b).Ok?
    ensures var ss := Sections(b).value;
      |ss| >= 18 && forall k :: 0 <= k < 15 ==>
        ss[3 + k].id == Configs[k].id && ss[3 + k].level == 1
        && ss[3 + k].heading == Configs[k].num + ". " + Configs[k].heading
  {
    SectionsLayout(b);
    ConfigsSpecialsFixed();
    ConfiguredShape(Configs, b);
    FrontIds(b);
    var m := Seqs.Traverse(Configs, ConfigSectionOf(b)).value;
    Seqs.MiddleOf(Front(b), m, if b.visitsListed then [b.visits.value] else [],
      if b.proceduresListed then [b.procedures.value] else []);
    assert |Configs| == 15;
  }

  /** The ids of the front matter. */
  lemma FrontIds(b: Built)
    requires Identified(b)
    ensures |Front(b)| == 3 && Front(b)[0].id == "title_page"
      && Front(b)[1].id == "version_history" && Front(b)[2].id == "toc"
  {
  }

  /** The list fails exactly when a configured section fails or a listed
      appendix does; the configured sections are tried first. */
  lemma SectionsFail(b: Built)
    ensures Sections(b).Err? <==>
      (exists k :: 0 <= k < |Configs| && ConfigSection(Configs[k], b).Err?)
      || (b.visitsListed && b.visits.Err?)
      || (b.proceduresListed && b.procedures.Err?)
    ensures (exists k :: 0 <= k < |Configs| && ConfigSection(Configs[k], b).Err?) ==>
      Seqs.Traverse(Configs, ConfigSectionOf(b)).Err?
      && Sections(b) == Err(Seqs.Traverse(Configs, ConfigSectionOf(b)).error)
  {
    Seqs.TraverseFailIff(Configs, ConfigSectionOf(b));
  }

  // ---------------------------------------------------------------------
  // The document

  const DmpStyling: DocumentStyling :=
    DefaultStyling.(heading1Size := 14, heading2Size := 12, heading3Size := 11, heading4Size := 11)

  function HeaderText(number: Value): string
  {
    if Truthy(number) then "Data Management Plan - " + Str(number) else "Data Management Plan"
  }

  /** The document `build_document` creates around the outcome of
      `_build_sections`. The metadata fields must be strings or None. */
  function Document(pd: Content, sections: Result<seq<Section>, string>): Result<UniversalDocument, string>
  {
    var number := WorkflowBase.GetMetadataValue(pd, "protocol_number", VStr(""));
    var title := WorkflowBase.GetMetadataValue(pd, "title", VStr("Clinical Study"));
    var sponsor := WorkflowBase.GetMetadataValue(pd, "sponsor", VStr(""));
    var n, t, s := OptionalString(number), OptionalString(title), OptionalString(sponsor);
    if n.Err? || t.Err? || s.Err? then Err("validation error: Input should be a valid string")
    else
      match sections
      case Err(e) => Err(e)
      case Ok(ss) =>
        Ok(UniversalDocument("dmp", "DATA MANAGEMENT PLAN", DocumentMetadata(n.value, t.value, s.value),
          DmpStyling, DefaultPageSetup, HeaderFooter(Some(HeaderText(number)), None, true, "footer_right", true),
          ss))
  }

  /** `build_document`. */
  function BuildDocument(content: Content, pd: Content, date: string): Result<UniversalDocument, string>
  {
    Document(pd, Sections(BuiltFrom(content, pd, date)))
  }

  /** A built plan is of type "dmp" with total page numbers in the
      footer, a header naming the protocol number when there is one, the
      protocol's metadata, and exactly the built sections. */
  lemma DocumentSpec(pd: Content, sections: Result<seq<Section>, string>)
    requires Document(pd, sections).Ok?
    ensures var doc := Document(pd, sections).value;
      var number := WorkflowBase.GetMetadataValue(pd, "protocol_number", VStr(""));
      && doc.documentType == "dmp" && doc.title == "DATA MANAGEMENT PLAN"
      && (number.VStr? && number.s != "" ==> doc.headerFooter.headerText == Some("Data Management Plan - " + number.s))
      && (!Truthy(number) ==> doc.headerFooter.headerText == Some("Data Management Plan"))
      && doc.headerFooter.pageNumberPosition == "footer_right" && doc.headerFooter.includeTotalPages
      && sections == Ok(doc.sections)
      && (number.VStr? ==> doc.metadata.protocolNumber == Some(number.s))
      && (number.VNone? ==> doc.metadata.protocolNumber == None)
  {
  }

  /** A metadata field that is neither a string nor None fails the
      document whatever the sections; otherwise it fails exactly when the
      sections do. */
  lemma DocumentFails(pd: Content, sections: Result<seq<Section>, string>)
    ensures var title := WorkflowBase.GetMetadataValue(pd, "title", VStr("Clinical Study"));
      !title.VStr? && !title.VNone? ==> Document(pd, sections) == Err("validation error: Input should be a valid string")
    ensures var number := WorkflowBase.GetMetadataValue(pd, "protocol_number", VStr(""));
      var title := WorkflowBase.GetMetadataValue(pd, "title", VStr("Clinical Study"));
      var sponsor := WorkflowBase.GetMetadataValue(pd, "sponsor", VStr(""));
      (number.VStr? || number.VNone?) && (title.VStr? || title.VNone?) && (sponsor.VStr? || sponsor.VNone?) ==>
        (Document(pd, sections).Err? <==> sections.Err?)
  {
  }

  /** A plan built from identified builders holds the front matter, the
      fifteen numbered sections in order and the listed appendices;
      `BuildersIdentified` shows the model's builders are identified. */
  lemma DocumentSections(pd: Content, b: Built)
    requires Identified(b) && Document(pd, Sections(b)).Ok?
    ensures var ss := Document(pd, Sections(b)).value.sections;
      && |ss| == 18 + (if b.visitsListed then 1 else 0) + (if b.proceduresListed then 1 else 0)
      && ss[0].id == "title_page"
      && (forall k :: 0 <= k < 15 ==>
            ss[3 + k].id == Configs[k].id && ss[3 + k].heading == Configs[k].num + ". " + Configs[k].heading)
  {
    DocumentKeepsSections(pd, Sections(b));
    SectionsShape(b);
  }

  /** A built document holds exactly the sections it is given. */
  lemma DocumentKeepsSections(pd: Content, sections: Result<seq<Section>, string>)
    requires Document(pd, sections).Ok?
    ensures sections.Ok? && Document(pd, sections).value.sections == sections.value
  {
  }
}
