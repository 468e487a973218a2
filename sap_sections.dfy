/** The section builders of the statistical analysis plan that depend on
    the content: the title page, the introduction, objectives and
    endpoints, missing data, and tables, listings and figures. */
module SapSections {
  import opened Wrappers
  import opened Text
  import opened PyValue
  import opened Schema
  import opened SapTexts
  import opened SapContent
  import WorkflowBase
  import Seqs

  // ---------------------------------------------------------------------
  // Title page

  /** `_build_title_page`: identification lines, a phase line only when
      the phase is non-empty, then the fixed tail. The date is given. */
  function TitlePageSection(pd: Content, date: string): Section
  {
    var number := WorkflowBase.GetMetadataValue(pd, "protocol_number", VStr("[Protocol Number]"));
    var title := WorkflowBase.GetMetadataValue(pd, "title", VStr("[Study Title]"));
    var sponsor := WorkflowBase.GetMetadataValue(pd, "sponsor", VStr("[Sponsor]"));
    var phase := WorkflowBase.GetMetadataValue(pd, "phase", VStr(""));
    Section("title_page", 1, "Title Page",
      TitleHead(number, title, sponsor)
      + (if Truthy(phase) then [Centered("Phase: " + Str(phase), 6)] else [])
      + TitleTail(date), [])
  }

  lemma NotPhaseLine(s: string)
    requires |s| >= 2 && (s[0] != 'P' || s[1] != 'h')
    ensures !StartsWith(s, "Phase: ")
  {
    if |s| >= 7 {
      assert s[..7][0] == s[0] && s[..7][1] == s[1];
    }
  }

  /** The identification lines of the title page. */
  function TitleHead(number: Value, title: Value, sponsor: Value): seq<ContentBlock>
  {
    [ TitleHeading,
      Para("", 0, 12),
      Centered("Protocol Number: " + Str(number), 6),
      Centered("Study Title: " + Str(title), 6),
      Centered("Sponsor: " + Str(sponsor), 6) ]
  }

  lemma HeadHasNoPhase(number: Value, title: Value, sponsor: Value)
    ensures forall k :: 0 <= k < 5 ==> !StartsWith(TitleHead(number, title, sponsor)[k].content, "Phase: ")
  {
    var head := TitleHead(number, title, sponsor);
    HeadingNotPhase();
    LabelledNotPhase("Protocol Number: ", Str(number));
    LabelledNotPhase("Study Title: ", Str(title));
    LabelledNotPhase("Sponsor: ", Str(sponsor));
    assert head[0].content == TitleHeading.content;
    assert head[2].content == "Protocol Number: " + Str(number);
    assert head[3].content == "Study Title: " + Str(title);
    assert head[4].content == "Sponsor: " + Str(sponsor);
  }

  lemma HeadingNotPhase()
    ensures !StartsWith(TitleHeading.content, "Phase: ")
  {
    NotPhaseLine(TitleHeading.content);
  }

  /** A line opened by a lead that does not start with "Ph". */
  lemma LabelledNotPhase(lead: string, rest: string)
    requires |lead| >= 2 && (lead[0] != 'P' || lead[1] != 'h')
    ensures !StartsWith(lead + rest, "Phase: ")
  {
    NotPhaseLine(lead + rest);
  }

  lemma TailHasNoPhase(date: string)
    ensures forall k :: 0 <= k < 6 ==> !StartsWith(TitleTail(date)[k].content, "Phase: ")
  {
    var tail := TitleTail(date);
    NotPhaseLine(tail[1].content);
    NotPhaseLine(tail[2].content);
    NotPhaseLine(tail[3].content);
    NotPhaseLine(tail[4].content);
  }

  /** Some block of the title page starts with "Phase: " exactly when the
      protocol's phase is non-empty; that block is the sixth, and without
      it the page has one block fewer. */
  lemma TitlePagePhase(pd: Content, date: string)
    ensures var blocks := TitlePageSection(pd, date).blocks;
      var phase := WorkflowBase.GetMetadataValue(pd, "phase", VStr(""));
      && |blocks| == (if Truthy(phase) then 12 else 11)
      && (Truthy(phase) ==> blocks[5].content == "Phase: " + Str(phase))
      && ((exists k :: 0 <= k < |blocks| && StartsWith(blocks[k].content, "Phase: ")) <==> Truthy(phase))
  {
    var number := WorkflowBase.GetMetadataValue(pd, "protocol_number", VStr("[Protocol Number]"));
    var title := WorkflowBase.GetMetadataValue(pd, "title", VStr("[Study Title]"));
    var sponsor := WorkflowBase.GetMetadataValue(pd, "sponsor", VStr("[Sponsor]"));
    var phase := WorkflowBase.GetMetadataValue(pd, "phase", VStr(""));
    var head := TitleHead(number, title, sponsor);
    var tail := TitleTail(date);
    var blocks := TitlePageSection(pd, date).blocks;
    HeadHasNoPhase(number, title, sponsor);
    TailHasNoPhase(date);
    if Truthy(phase) {
      assert blocks == head + [Centered("Phase: " + Str(phase), 6)] + tail;
      assert StartsWith(blocks[5].content, "Phase: ");
    } else {
      assert blocks == head + tail;
      forall k | 0 <= k < |blocks|
        ensures !StartsWith(blocks[k].content, "Phase: ")
      {
        if k < 5 {
          assert blocks[k] == head[k];
        } else {
          assert blocks[k] == tail[k - 5];
        }
      }
    }
  }

  // ---------------------------------------------------------------------
  // 1. Introduction

  /** The blocks of the introduction for a given text: one paragraph per
      non-blank chunk, stripped, then the ICH E9 reference. */
  function IntroductionBlocks(text: string): seq<ContentBlock>
  {
    ParagraphBlocks(Paragraphs(text), 6) + [ReferenceNote]
  }

  /** The introduction text, or the default naming the protocol number. */
  function IntroductionText(content: Content, pd: Content): Result<string, string>
  {
    var number := WorkflowBase.GetMetadataValue(pd, "protocol_number", VStr("TBD"));
    WorkflowBase.FieldText(Get(content, "introduction", VStr("")), IntroductionDefault(Str(number)))
  }

  /** `_build_introduction_section`. */
  function IntroductionSection(content: Content, pd: Content): Result<Section, string>
  {
    match IntroductionText(content, pd)
    case Err(e) => Err(e)
    case Ok(text) => Ok(Section("introduction", 1, "1. INTRODUCTION", IntroductionBlocks(text), []))
  }

  method BuildIntroduction(content: Content, pd: Content) returns (r: Result<Section, string>)
    ensures r == IntroductionSection(content, pd)
  {
    var intro := IntroductionText(content, pd);
    if intro.Err? {
      return Err(intro.error);
    }
    var blocks := WorkflowBase.BuildChunkParagraphs(Split(intro.value, "\n\n"));
    blocks := blocks + [ReferenceNote];
    r := Ok(Section("introduction", 1, "1. INTRODUCTION", blocks, []));
  }

  /** The introduction has one stripped, non-empty paragraph per
      paragraph of its text, in order, and ends with the reference. */
  lemma IntroductionBlocksSpec(text: string)
    ensures var blocks := IntroductionBlocks(text);
      var ps := Paragraphs(text);
      && |blocks| == |ps| + 1
      && blocks[|ps|] == ReferenceNote
      && forall k :: 0 <= k < |ps| ==> blocks[k] == Para(ps[k], 0, 6) && ps[k] != "" && IsStripped(ps[k])
  {
    ParagraphBlocksSpec(Paragraphs(text), 6);
  }

  /** A falsy introduction is replaced by the default text naming the
      protocol; a truthy value that is not a string is an error. */
  lemma IntroductionTextSpec(content: Content, pd: Content)
    ensures var v := Get(content, "introduction", VStr(""));
      var number := WorkflowBase.GetMetadataValue(pd, "protocol_number", VStr("TBD"));
      && (!Truthy(v) ==> IntroductionText(content, pd) == Ok(IntroductionDefault(Str(number))))
      && (Truthy(v) && v.VStr? ==> IntroductionText(content, pd) == Ok(v.s))
      && (IntroductionSection(content, pd).Err? <==> Truthy(v) && !v.VStr?)
  {
  }

  // ---------------------------------------------------------------------
  // 2. Objectives and endpoints

  /** `content.get("objectives_and_endpoints", {})`, which `.get` needs
      to be a dict. */
  function ObjectivesOf(content: Content): Result<Content, string>
  {
    var o := Get(content, "objectives_and_endpoints", VDict(map[]));
    if o.VDict? then Ok(o.fields) else Err("'objectives_and_endpoints' has no attribute 'get'")
  }

  /** A DECIMAL numbered list of the given items. */
  function NumberedList(items: seq<string>): ContentBlock
  {
    NewBlock(NumberedListType).(items := Some(StringItems(items)), listStyle := Some(Decimal))
  }

  /** `_format_list_items` over an iterable value. */
  function EndpointItems(v: Value): Result<seq<string>, string>
  {
    match WorkflowBase.Iterated(v)
    case Err(e) => Err(e)
    case Ok(xs) => Ok(WorkflowBase.NonEmpty(WorkflowBase.Formatted(xs)))
  }

  /** The blocks of an endpoint subsection: the intro line, then the
      formatted endpoints as a numbered list, or the placeholder when the
      list is empty. */
  function EndpointBlocks(v: Value, intro: ContentBlock, placeholder: ContentBlock): Result<seq<ContentBlock>, string>
  {
    if !Truthy(v) then Ok([intro, placeholder])
    else match EndpointItems(v)
      case Err(e) => Err(e)
      case Ok(items) => Ok([intro, NumberedList(items)])
  }

  /** An objective and its endpoints: the keys they are read from and the
      ids, headings and fixed blocks of their two subsections. */
  datatype Topic = Topic(
    objectiveKey: string, objectiveId: string, objectiveHeading: string,
    endpointsKey: string, endpointsId: string, endpointsHeading: string,
    intro: ContentBlock, placeholder: ContentBlock)

  const PrimaryTopic: Topic :=
    Topic("primary_objective", "primary_objective", "2.1 Primary Objective",
          PrimaryVerbatim, "primary_endpoints", "2.2 Primary Endpoint(s)",
          PrimaryEndpointsIntro, PrimaryEndpointsPlaceholder)

  const SecondaryTopic: Topic :=
    Topic("secondary_objectives", "secondary_objectives", "2.3 Secondary Objectives",
          SecondaryVerbatim, "secondary_endpoints", "2.4 Secondary Endpoint(s)",
          SecondaryEndpointsIntro, SecondaryEndpointsPlaceholder)

  /** The objective subsection, then the endpoint subsection; the
      objective's default replaces a falsy value. */
  function TopicSections(t: Topic, content: Content, objectives: Content, default: string): Result<seq<Section>, string>
  {
    match WorkflowBase.FieldText(Get(objectives, t.objectiveKey, VStr("")), default)
    case Err(e) => Err(e)
    case Ok(objective) =>
      match EndpointBlocks(Get(content, t.endpointsKey, VList([])), t.intro, t.placeholder)
      case Err(e) => Err(e)
      case Ok(blocks) =>
        Ok([Section(t.objectiveId, 2, t.objectiveHeading, [Para(objective, 0, 6)], []),
            Section(t.endpointsId, 2, t.endpointsHeading, blocks, [])])
  }

  /** The subsection 2.5, present only for a non-empty exploratory list. */
  function ExploratorySections(v: Value): Result<seq<Section>, string>
  {
    if !Truthy(v) then Ok([])
    else match EndpointItems(v)
      case Err(e) => Err(e)
      case Ok(items) =>
        Ok([Section("exploratory_endpoints", 2, "2.5 Exploratory Endpoint(s)",
          [ExploratoryEndpointsIntro, NumberedList(items)], [])])
  }

  /** `_build_endpoints_section`: the subsections 2.1 to 2.4, and 2.5 when
      there are exploratory endpoints, under a parent section without
      blocks. The steps fail in source order. */
  function EndpointsSection(content: Content, pd: Content): Result<Section, string>
  {
    match ObjectivesOf(content)
    case Err(e) => Err(e)
    case Ok(objectives) =>
      var indication := WorkflowBase.GetMetadataValue(pd, "indication", VStr("the target indication"));
      match TopicSections(PrimaryTopic, content, objectives, PrimaryObjectiveDefault(Str(indication)))
      case Err(e) => Err(e)
      case Ok(primary) =>
        match TopicSections(SecondaryTopic, content, objectives, SecondaryObjectivesDefault)
        case Err(e) => Err(e)
        case Ok(secondary) =>
          match ExploratorySections(Get(content, ExploratoryVerbatim, VList([])))
          case Err(e) => Err(e)
          case Ok(exploratory) =>
            Ok(Section("objectives_endpoints", 1, "2. STUDY OBJECTIVES AND ENDPOINTS", [],
              primary + secondary + exploratory))
  }

  method BuildEndpointBlocks(v: Value, intro: ContentBlock, placeholder: ContentBlock)
    returns (r: Result<seq<ContentBlock>, string>)
    ensures r == EndpointBlocks(v, intro, placeholder)
  {
    var blocks := [intro];
    if Truthy(v) {
      var xs := WorkflowBase.Iterated(v);
      if xs.Err? {
        return Err(xs.error);
      }
      var items := WorkflowBase.FormatListItems(xs.value);
      blocks := blocks + [NumberedList(items)];
      assert blocks == [intro, NumberedList(items)];
    } else {
      blocks := blocks + [placeholder];
      assert blocks == [intro, placeholder];
    }
    r := Ok(blocks);
  }

  method BuildTopicSections(t: Topic, content: Content, objectives: Content, default: string)
    returns (r: Result<seq<Section>, string>)
    ensures r == TopicSections(t, content, objectives, default)
  {
    var objective := WorkflowBase.FieldText(Get(objectives, t.objectiveKey, VStr("")), default);
    if objective.Err? {
      return Err(objective.error);
    }
    var subsections := [Section(t.objectiveId, 2, t.objectiveHeading, [Para(objective.value, 0, 6)], [])];
    var blocks := BuildEndpointBlocks(Get(content, t.endpointsKey, VList([])), t.intro, t.placeholder);
    if blocks.Err? {
      return Err(blocks.error);
    }
    subsections := subsections + [Section(t.endpointsId, 2, t.endpointsHeading, blocks.value, [])];
    assert subsections == [Section(t.objectiveId, 2, t.objectiveHeading, [Para(objective.value, 0, 6)], []),
                           Section(t.endpointsId, 2, t.endpointsHeading, blocks.value, [])];
    r := Ok(subsections);
  }

  method BuildExploratorySections(v: Value) returns (r: Result<seq<Section>, string>)
    ensures r == ExploratorySections(v)
  {
    if !Truthy(v) {
      return Ok([]);
    }
    var xs := WorkflowBase.Iterated(v);
    if xs.Err? {
      return Err(xs.error);
    }
    var items := WorkflowBase.FormatListItems(xs.value);
    r := Ok([Section("exploratory_endpoints", 2, "2.5 Exploratory Endpoint(s)",
      [ExploratoryEndpointsIntro, NumberedList(items)], [])]);
  }

  method BuildEndpoints(content: Content, pd: Content) returns (r: Result<Section, string>)
    ensures r == EndpointsSection(content, pd)
  {
    var objectives := ObjectivesOf(content);
    if objectives.Err? {
      return Err(objectives.error);
    }
    var indication := WorkflowBase.GetMetadataValue(pd, "indication", VStr("the target indication"));
    var primary := BuildTopicSections(PrimaryTopic, content, objectives.value, PrimaryObjectiveDefault(Str(indication)));
    if primary.Err? {
      return Err(primary.error);
    }
    var secondary := BuildTopicSections(SecondaryTopic, content, objectives.value, SecondaryObjectivesDefault);
    if secondary.Err? {
      return Err(secondary.error);
    }
    var exploratory := BuildExploratorySections(Get(content, ExploratoryVerbatim, VList([])));
    if exploratory.Err? {
      return Err(exploratory.error);
    }
    r := Ok(Section("objectives_endpoints", 1, "2. STUDY OBJECTIVES AND ENDPOINTS", [],
      primary.value + secondary.value + exploratory.value));
  }

  /** An endpoint subsection lists its endpoints as a DECIMAL numbered list
      exactly when the list is non-empty, and shows the placeholder
      otherwise. */
  lemma TopicLayout(t: Topic, content: Content, objectives: Content, default: string)
    requires t.placeholder.kind == ParagraphType
    requires TopicSections(t, content, objectives, default).Ok?
    ensures var ss := TopicSections(t, content, objectives, default).value;
      var v := Get(content, t.endpointsKey, VList([]));
      && |ss| == 2 && ss[0].id == t.objectiveId && ss[1].id == t.endpointsId
      && ss[1].blocks[0] == t.intro
      && (ss[1].blocks[1].kind == NumberedListType <==> Truthy(v))
      && (Truthy(v) ==> ss[1].blocks[1].listStyle == Some(Decimal))
      && (!Truthy(v) ==> ss[1].blocks[1] == t.placeholder)
  {
  }

  /** Sections 2.1 to 2.4 are always there, in order; 2.5 is there exactly
      when the exploratory list is non-empty. */
  lemma EndpointsLayout(content: Content, pd: Content)
    requires EndpointsSection(content, pd).Ok?
    ensures var s := EndpointsSection(content, pd).value;
      var ss := s.subsections;
      && s.blocks == []
      && |ss| == (if Truthy(Get(content, ExploratoryVerbatim, VList([]))) then 5 else 4)
      && ss[0].id == "primary_objective" && ss[1].id == "primary_endpoints"
      && ss[2].id == "secondary_objectives" && ss[3].id == "secondary_endpoints"
      && (|ss| == 5 ==> ss[4].id == "exploratory_endpoints")
  {
    var objectives := ObjectivesOf(content).value;
    var indication := WorkflowBase.GetMetadataValue(pd, "indication", VStr("the target indication"));
    var primary := TopicSections(PrimaryTopic, content, objectives, PrimaryObjectiveDefault(Str(indication))).value;
    var secondary := TopicSections(SecondaryTopic, content, objectives, SecondaryObjectivesDefault).value;
    var exploratory := ExploratorySections(Get(content, ExploratoryVerbatim, VList([]))).value;
    assert EndpointsSection(content, pd).value.subsections == primary + secondary + exploratory;
    assert |primary| == 2 && primary[0].id == "primary_objective" && primary[1].id == "primary_endpoints";
    assert |secondary| == 2 && secondary[0].id == "secondary_objectives" && secondary[1].id == "secondary_endpoints";
  }

  /** The primary and secondary endpoint subsections follow the DECIMAL
      list or placeholder rule. */
  lemma EndpointListsOrPlaceholders(content: Content, objectives: Content, default: string)
    ensures TopicSections(PrimaryTopic, content, objectives, default).Ok? ==>
      var ss := TopicSections(PrimaryTopic, content, objectives, default).value;
      (ss[1].blocks[1].kind == NumberedListType <==> Truthy(Get(content, PrimaryVerbatim, VList([]))))
    ensures TopicSections(SecondaryTopic, content, objectives, default).Ok? ==>
      var ss := TopicSections(SecondaryTopic, content, objectives, default).value;
      (ss[1].blocks[1].kind == NumberedListType <==> Truthy(Get(content, SecondaryVerbatim, VList([]))))
  {
    if TopicSections(PrimaryTopic, content, objectives, default).Ok? {
      TopicLayout(PrimaryTopic, content, objectives, default);
    }
    if TopicSections(SecondaryTopic, content, objectives, default).Ok? {
      TopicLayout(SecondaryTopic, content, objectives, default);
    }
  }

  /** Endpoints given as non-blank strings are listed one for one, in
      order, stripped: nothing is reworded. */
  lemma EndpointsListedVerbatim(xs: seq<Value>, intro: ContentBlock, placeholder: ContentBlock)
    requires xs != [] && forall k :: 0 <= k < |xs| ==> xs[k].VStr? && !IsBlank(xs[k].s)
    ensures EndpointBlocks(VList(xs), intro, placeholder).Ok?
    ensures var items := EndpointBlocks(VList(xs), intro, placeholder).value[1].items.value;
      |items| == |xs| && forall k :: 0 <= k < |xs| ==> items[k] == TextItem(Strip(xs[k].s))
  {
    WorkflowBase.FormatListItemsOfStrings(xs);
  }

  // ---------------------------------------------------------------------
  // 7. Missing data

  /** `line.strip().lstrip("-").strip()`. */
  function BulletItem(line: string): string
  {
    Strip(TrimLeft(Strip(line), {'-'}))
  }

  /** `[line.strip().lstrip("-").strip() for line in lines if line.strip()]`. */
  function BulletLines(lines: seq<string>): seq<string>
  {
    if lines == [] then []
    else
      var line := lines[|lines| - 1];
      BulletLines(lines[..|lines| - 1]) + (if Strip(line) != "" then [BulletItem(line)] else [])
  }

  /** A chunk starting with "-" becomes a bullet list of its lines; any
      other chunk, even an empty one, a paragraph of its stripped text. */
  function ChunkBlock(chunk: string): ContentBlock
  {
    if StartsWith(Strip(chunk), "-") then
      NewBlock(BulletListType).(items := Some(StringItems(BulletLines(Split(chunk, "\n")))))
    else Para(Strip(chunk), 0, 6)
  }

  function ChunkBlocks(chunks: seq<string>): seq<ContentBlock>
  {
    Seqs.Map(chunks, ChunkBlock)
  }

  /** The blocks of the missing-data section for a given text. */
  function MissingDataBlocks(text: string): seq<ContentBlock>
  {
    ChunkBlocks(Split(text, "\n\n")) + [MissingDataClosing]
  }

  /** `_build_missing_data_section`. */
  function MissingDataSection(content: Content): Result<Section, string>
  {
    match WorkflowBase.FieldText(Get(content, "missing_data", VStr("")), MissingDataDefault)
    case Err(e) => Err(e)
    case Ok(text) => Ok(Section("missing_data", 1, "7. HANDLING OF MISSING DATA", MissingDataBlocks(text), []))
  }

  /** The loop of `_build_missing_data_section` over the chunks. */
  method BuildMissingDataBlocks(text: string) returns (blocks: seq<ContentBlock>)
    ensures blocks == MissingDataBlocks(text)
  {
    var chunks := Split(text, "\n\n");
    blocks := [];
    for i := 0 to |chunks|
      invariant blocks == ChunkBlocks(chunks[..i])
    {
      Seqs.MapSnoc(chunks, i, ChunkBlock);
      var chunk := chunks[i];
      if StartsWith(Strip(chunk), "-") {
        var items := BulletLines(Split(chunk, "\n"));
        blocks := blocks + [NewBlock(BulletListType).(items := Some(StringItems(items)))];
      } else {
        blocks := blocks + [Para(Strip(chunk), 0, 6)];
      }
    }
    assert chunks[..|chunks|] == chunks;
    blocks := blocks + [MissingDataClosing];
  }

  method BuildMissingData(content: Content) returns (r: Result<Section, string>)
    ensures r == MissingDataSection(content)
  {
    var missing := WorkflowBase.FieldText(Get(content, "missing_data", VStr("")), MissingDataDefault);
    if missing.Err? {
      return Err(missing.error);
    }
    var blocks := BuildMissingDataBlocks(missing.value);
    r := Ok(Section("missing_data", 1, "7. HANDLING OF MISSING DATA", blocks, []));
  }

  lemma ChunkBlocksSpec(chunks: seq<string>)
    ensures |ChunkBlocks(chunks)| == |chunks|
    ensures forall k :: 0 <= k < |chunks| ==> ChunkBlocks(chunks)[k] == ChunkBlock(chunks[k])
  {
    Seqs.MapSpec(chunks, ChunkBlock);
  }

  /** Each non-blank line gives at most one item, with its surrounding
      whitespace and leading dashes removed. */
  lemma {:induction false} BulletLinesStripped(lines: seq<string>)
    ensures |BulletLines(lines)| <= |lines|
    ensures forall k :: 0 <= k < |BulletLines(lines)| ==> IsStripped(BulletLines(lines)[k])
  {
    if lines != [] {
      var line := lines[|lines| - 1];
      BulletLinesStripped(lines[..|lines| - 1]);
      StripSetIdempotent(TrimLeft(Strip(line), {'-'}), Whitespace);
    }
  }

  /** When no line is blank, every line gives its item, in order. */
  lemma {:induction false} BulletLinesAll(lines: seq<string>)
    requires forall k :: 0 <= k < |lines| ==> Strip(lines[k]) != ""
    ensures |BulletLines(lines)| == |lines|
    ensures forall k :: 0 <= k < |lines| ==> BulletLines(lines)[k] == BulletItem(lines[k])
  {
    if lines != [] {
      var front, last := lines[..|lines| - 1], lines[|lines| - 1];
      forall k | 0 <= k < |front|
        ensures Strip(front[k]) != ""
      {
        assert front[k] == lines[k];
      }
      BulletLinesAll(front);
      assert Strip(last) != "";
      assert BulletLines(lines) == BulletLines(front) + [BulletItem(last)];
      forall k | 0 <= k < |lines|
        ensures BulletLines(lines)[k] == BulletItem(lines[k])
      {
        if k < |front| {
          assert front[k] == lines[k];
        }
      }
    }
  }

  /** One block per blank-line separated chunk, empty chunks included,
      then the closing paragraph: a chunk whose stripped text starts with
      "-" becomes a bullet list, any other a paragraph of its stripped
      text. */
  lemma MissingDataBlocksSpec(text: string)
    ensures var blocks := MissingDataBlocks(text);
      var chunks := Split(text, "\n\n");
      && |blocks| == |chunks| + 1
      && blocks[|chunks|] == MissingDataClosing
      && forall k :: 0 <= k < |chunks| ==>
           (blocks[k].kind == BulletListType <==> StartsWith(Strip(chunks[k]), "-"))
           && (blocks[k].kind == BulletListType ==> blocks[k].items == Some(StringItems(BulletLines(Split(chunks[k], "\n")))))
           && (blocks[k].kind != BulletListType ==> blocks[k] == Para(Strip(chunks[k]), 0, 6))
  {
    ChunkBlocksSpec(Split(text, "\n\n"));
  }

  /** An empty or blank chunk is kept as an empty paragraph. */
  lemma BlankChunkKept(chunk: string)
    requires IsBlank(chunk)
    ensures ChunkBlock(chunk) == Para("", 0, 6)
  {
    StripEmptyIffBlank(chunk);
  }

  // ---------------------------------------------------------------------
  // 9. Tables, listings and figures

  /** The shell titles: the default list for a falsy value; otherwise
      every entry must be a string, since each is lower-cased. */
  function ShellTitles(v: Value): Result<seq<string>, string>
  {
    if !Truthy(v) then Ok(DefaultTlfShells)
    else match WorkflowBase.Iterated(v)
      case Err(e) => Err(e)
      case Ok(xs) =>
        if forall k :: 0 <= k < |xs| ==> xs[k].VStr? then Ok(seq(|xs|, k requires 0 <= k < |xs| => xs[k].s))
        else Err("object has no attribute 'lower'")
  }

  /** `[t for t in shells if t.lower().startswith(prefix)]`. */
  function WithPrefix(shells: seq<string>, prefix: string): seq<string>
  {
    if shells == [] then []
    else
      var t := shells[|shells| - 1];
      WithPrefix(shells[..|shells| - 1], prefix) + (if StartsWith(Lower(t), prefix) then [t] else [])
  }

  function BulletList(items: seq<string>): ContentBlock
  {
    NewBlock(BulletListType).(items := Some(StringItems(items)))
  }

  /** The blocks of section 9 for the three groups of shells: tables
      without a placeholder, listings and figures each with one. */
  function TlfBlocks(tables: seq<string>, listings: seq<string>, figures: seq<string>): seq<ContentBlock>
  {
    [TlfIntro, TablesHeading]
      + (if tables != [] then [BulletList(tables)] else [])
      + [ListingsHeading]
      + (if listings != [] then [BulletList(listings)] else [ListingsPlaceholder])
      + [FiguresHeading]
      + (if figures != [] then [BulletList(figures)] else [FiguresPlaceholder])
      + [TlfClosing]
  }

  /** `_build_tlf_section`. */
  function TlfSection(content: Content): Result<Section, string>
  {
    match ShellTitles(Get(content, "tlf_shells", VList([])))
    case Err(e) => Err(e)
    case Ok(shells) => Ok(Section("tlf_shells", 1, "9. TABLES, LISTINGS, AND FIGURES",
      TlfBlocks(WithPrefix(shells, "table"), WithPrefix(shells, "listing"), WithPrefix(shells, "figure")), []))
  }

  /** The entries kept for a prefix are exactly the shells that start
      with it, ignoring case, in their original order. */
  lemma {:induction false} WithPrefixSpec(shells: seq<string>, prefix: string)
    ensures |WithPrefix(shells, prefix)| <= |shells|
    ensures forall t :: t in WithPrefix(shells, prefix) <==> t in shells && StartsWith(Lower(t), prefix)
  {
    if shells != [] {
      WithPrefixSpec(shells[..|shells| - 1], prefix);
      assert shells == shells[..|shells| - 1] + [shells[|shells| - 1]];
    }
  }

  lemma PrefixesExclusive(s: string)
    ensures !(StartsWith(s, "table") && StartsWith(s, "listing"))
    ensures !(StartsWith(s, "table") && StartsWith(s, "figure"))
    ensures !(StartsWith(s, "listing") && StartsWith(s, "figure"))
  {
    if StartsWith(s, "table") {
      assert s[0] == 't';
    } else if StartsWith(s, "listing") {
      assert s[0] == 'l';
    }
  }

  /** The three groups are disjoint: together they hold no more entries
      than there are shells. */
  lemma {:induction false} PartitionSize(shells: seq<string>)
    ensures |WithPrefix(shells, "table")| + |WithPrefix(shells, "listing")| + |WithPrefix(shells, "figure")| <= |shells|
  {
    if shells != [] {
      PartitionSize(shells[..|shells| - 1]);
      PrefixesExclusive(Lower(shells[|shells| - 1]));
    }
  }

  /** A shell lands in one of the groups exactly when it starts with one
      of the three prefixes; the others are dropped. */
  lemma ShellsPartitioned(shells: seq<string>, t: string)
    requires t in shells
    ensures t in WithPrefix(shells, "table") || t in WithPrefix(shells, "listing") || t in WithPrefix(shells, "figure")
      <==> StartsWith(Lower(t), "table") || StartsWith(Lower(t), "listing") || StartsWith(Lower(t), "figure")
  {
    WithPrefixSpec(shells, "table");
    WithPrefixSpec(shells, "listing");
    WithPrefixSpec(shells, "figure");
  }

  /** Empty listings and figures are shown by a placeholder; empty tables
      by nothing, so that the "9.1 Tables" heading is followed directly by
      "9.2 Listings". */
  lemma TlfPlaceholders(tables: seq<string>, listings: seq<string>, figures: seq<string>)
    ensures var blocks := TlfBlocks(tables, listings, figures);
      var t := if tables == [] then 0 else 1;
      && |blocks| == 7 + t
      && blocks[1] == TablesHeading
      && (tables != [] ==> blocks[2] == BulletList(tables))
      && blocks[2 + t] == ListingsHeading
      && blocks[3 + t] == (if listings == [] then ListingsPlaceholder else BulletList(listings))
      && blocks[4 + t] == FiguresHeading
      && blocks[5 + t] == (if figures == [] then FiguresPlaceholder else BulletList(figures))
  {
  }

  // ---------------------------------------------------------------------
  // Identification of the built sections

  /** Each builder returns its own section id and heading, at level 1. */
  lemma TitlePageShape(pd: Content, date: string)
    ensures var s := TitlePageSection(pd, date);
      s.id == "title_page" && s.heading == "Title Page" && s.level == 1
  {
  }

  lemma IntroductionShape(content: Content, pd: Content)
    ensures var r := IntroductionSection(content, pd);
      r.Ok? ==> r.value.id == "introduction" && r.value.heading == "1. INTRODUCTION" && r.value.level == 1
  {
  }

  lemma EndpointsShape(content: Content, pd: Content)
    ensures var r := EndpointsSection(content, pd);
      r.Ok? ==>
        r.value.id == "objectives_endpoints" && r.value.heading == "2. STUDY OBJECTIVES AND ENDPOINTS" && r.value.level == 1
  {
  }

  lemma MissingDataShape(content: Content)
    ensures var r := MissingDataSection(content);
      r.Ok? ==> r.value.id == "missing_data" && r.value.heading == "7. HANDLING OF MISSING DATA" && r.value.level == 1
  {
  }

  lemma TlfShape(content: Content)
    ensures var r := TlfSection(content);
      r.Ok? ==> r.value.id == "tlf_shells" && r.value.heading == "9. TABLES, LISTINGS, AND FIGURES" && r.value.level == 1
  {
  }
}
