/** The ICF content assembler: how the generated subsection texts become
    the question-headed sections of a consent form, from the invitation to
    the signature page. */
module IcfAssembler {
  import opened Wrappers
  import opened Text
  import opened PyValue
  import opened Schema
  import Seqs
  import opened IcfFixedSections

  /** Generated text by subsection id. */
  type SubsectionContent = map<string, string>

  /** `subsection_content.get(key)` is truthy. */
  predicate Given(c: SubsectionContent, key: string)
  {
    key in c && c[key] != ""
  }


  /** The level-3 heading that opens each part of the risks section. */
  function RiskHeading(text: string): ContentBlock
  {
    NewBlock(HeadingType).(content := text, level := Some(3), spacingBefore := 12, spacingAfter := 6)
  }

  // ---------------------------------------------------------------------
  // Text conversion

  /** `_text_to_paragraphs`: one paragraph block per non-blank chunk
      between blank lines. */
  function TextToParagraphs(text: string): (r: seq<ContentBlock>)
    ensures |r| == |Paragraphs(text)|
    ensures forall k :: 0 <= k < |r| ==> r[k] == Para(Paragraphs(text)[k], 0, 6)
  {
    var ps := Paragraphs(text);
    seq(|ps|, k requires 0 <= k < |ps| => Para(ps[k], 0, 6))
  }

  /** Every block is a paragraph holding a stripped, non-empty chunk. */
  lemma TextToParagraphsSpec(text: string)
    ensures forall k :: 0 <= k < |TextToParagraphs(text)| ==>
      var b := TextToParagraphs(text)[k];
      b.kind == ParagraphType && b.content != "" && IsStripped(b.content)
  {
  }

  /** A text made only of whitespace gives no paragraphs. */
  lemma BlankTextNoParagraphs(text: string)
    requires IsBlank(text)
    ensures TextToParagraphs(text) == []
  {
    var parts := Split(text, "\n\n");
    JoinBlank(parts, "\n\n");
    NonBlankStrippedOfBlanks(parts);
  }

  /** When a join is blank, so is every piece. */
  lemma {:induction false} JoinBlank(parts: seq<string>, sep: string)
    requires IsBlank(Join(parts, sep))
    ensures forall k :: 0 <= k < |parts| ==> IsBlank(parts[k])
  {
    if |parts| > 1 {
      var j := Join(parts, sep);
      assert j == parts[0] + sep + Join(parts[1..], sep);
      assert forall i :: 0 <= i < |parts[0]| ==> parts[0][i] == j[i];
      var off := |parts[0]| + |sep|;
      assert forall i :: 0 <= i < |Join(parts[1..], sep)| ==> Join(parts[1..], sep)[i] == j[off + i];
      JoinBlank(parts[1..], sep);
      forall k | 0 <= k < |parts| ensures IsBlank(parts[k]) {
        if k > 0 {
          assert parts[k] == parts[1..][k - 1];
        }
      }
    }
  }

  /** The characters `line.strip("- ")` removes. */
  const DashAndSpace: set<char> := {'-', ' '}

  /** A line that `_text_to_bullet_list` keeps: non-blank once stripped,
      and starting with a dash or a bullet glyph. */
  predicate IsBulletLine(line: string)
  {
    var s := Strip(line);
    s != "" && (StartsWith(s, "-") || StartsWith(s, "•"))
  }

  /** `line.strip("- ").strip()`: dashes and spaces go from both ends, a
      bullet glyph stays. */
  function BulletItem(line: string): string
  {
    Strip(StripSet(line, DashAndSpace))
  }

  /** The items of the bullet lines, in order. */
  function BulletItems(lines: seq<string>): seq<string>
  {
    if lines == [] then []
    else (if IsBulletLine(lines[0]) then [BulletItem(lines[0])] else []) + BulletItems(lines[1..])
  }

  /** `_text_to_bullet_list`: one item per bullet line; without any, the
      whole stripped text as the single item. */
  function TextToBulletList(text: string): (b: ContentBlock)
    ensures b.kind == BulletListType && b.items.Some? && |b.items.value| >= 1
  {
    var items := BulletItems(Split(text, "\n"));
    NewBlock(BulletListType).(items := Some(StringItems(if items != [] then items else [Strip(text)])))
  }

  /** Every bullet line contributes its item ... */
  lemma {:induction false} BulletLineKept(lines: seq<string>, k: nat)
    requires k < |lines| && IsBulletLine(lines[k])
    ensures BulletItem(lines[k]) in BulletItems(lines)
  {
    if k > 0 {
      BulletLineKept(lines[1..], k - 1);
    }
  }

  /** ... and every item comes from a bullet line. */
  lemma {:induction false} BulletItemFromLine(lines: seq<string>, x: string)
    requires x in BulletItems(lines)
    ensures exists k :: 0 <= k < |lines| && IsBulletLine(lines[k]) && x == BulletItem(lines[k])
  {
    if !(IsBulletLine(lines[0]) && x == BulletItem(lines[0])) {
      BulletItemFromLine(lines[1..], x);
      var k :| 0 <= k < |lines[1..]| && IsBulletLine(lines[1..][k]) && x == BulletItem(lines[1..][k]);
      assert lines[k + 1] == lines[1..][k];
    }
  }

  lemma {:induction false} NoBulletLines(lines: seq<string>)
    requires forall k :: 0 <= k < |lines| ==> !IsBulletLine(lines[k])
    ensures BulletItems(lines) == []
  {
    if lines != [] {
      NoBulletLines(lines[1..]);
    }
  }

  /** Without a single bullet line the list falls back to the stripped
      text. */
  lemma BulletFallback(text: string)
    requires forall k :: 0 <= k < |Split(text, "\n")| ==> !IsBulletLine(Split(text, "\n")[k])
    ensures TextToBulletList(text).items == Some([TextItem(Strip(text))])
  {
    NoBulletLines(Split(text, "\n"));
    assert StringItems([Strip(text)]) == [TextItem(Strip(text))];
  }

  /** Stripping never removes a first character outside the set. */
  lemma FirstCharSurvives(s: string, cs: set<char>)
    requires s != [] && s[0] !in cs
    ensures StripSet(s, cs) != [] && StripSet(s, cs)[0] == s[0]
  {
    assert TrimLeft(s, cs) == s;
    TrimRightSpec(s, cs);
  }

  /** A "•" line is a bullet line and its item keeps the glyph. */
  lemma BulletGlyphKept(rest: string)
    ensures IsBulletLine("• " + rest)
    ensures BulletItem("• " + rest) != [] && BulletItem("• " + rest)[0] == '•'
  {
    var line := "• " + rest;
    FirstCharSurvives(line, Whitespace);
    FirstCharSurvives(line, DashAndSpace);
    FirstCharSurvives(StripSet(line, DashAndSpace), Whitespace);
  }

  /** A "- " line is a bullet line, and its dash marker is dropped. */
  lemma DashMarkerDropped(rest: string)
    ensures IsBulletLine("- " + rest)
    ensures BulletItem("- " + rest) == BulletItem(rest)
  {
    var line := "- " + rest;
    FirstCharSurvives(line, Whitespace);
    assert line[1..] == " " + rest && (" " + rest)[1..] == rest;
    assert TrimLeft(line, DashAndSpace) == TrimLeft(rest, DashAndSpace);
  }

  // ---------------------------------------------------------------------
  // Header

  /** `_build_header_blocks`: the study title, then the protocol number and
      the sponsor when they are truthy. */
  function HeaderBlocks(meta: map<string, Value>): seq<ContentBlock>
  {
    var title := Get(meta, "title", VStr("Clinical Study"));
    var number := Get(meta, "protocol_number", VStr(""));
    var sponsor := Get(meta, "sponsor", VStr(""));
    [Para("Study Title: " + Str(title), 0, 6)]
      + (if Truthy(number) then [Para("Protocol Number: " + Str(number), 0, 6)] else [])
      + (if Truthy(sponsor) then [Para("Sponsor: " + Str(sponsor), 0, 12)] else [])
  }

  /** The header always starts with the study title; the other two lines
      appear exactly when their values are truthy. */
  lemma HeaderBlocksSpec(meta: map<string, Value>)
    ensures var h := HeaderBlocks(meta);
      var number := Get(meta, "protocol_number", VStr(""));
      var sponsor := Get(meta, "sponsor", VStr(""));
      |h| == 1 + (if Truthy(number) then 1 else 0) + (if Truthy(sponsor) then 1 else 0)
      && h[0].content == "Study Title: " + Str(Get(meta, "title", VStr("Clinical Study")))
      && (Truthy(number) ==> h[1].content == "Protocol Number: " + Str(number))
      && (Truthy(sponsor) ==> h[|h| - 1].content == "Sponsor: " + Str(sponsor))
  {
  }

  // ---------------------------------------------------------------------
  // Question sections

  /** A question section: either one subsection's text, present whenever
      that text is truthy, or several subsections' paragraphs gathered,
      present only when they gave at least one paragraph. */
  datatype Question =
    | Single(id: string, heading: string, key: string)
    | Group(id: string, heading: string, keys: seq<string>)

  const Purpose := Group("purpose", "WHY IS THIS STUDY BEING DONE?",
    ["study_purpose_overview", "study_purpose_learnings"])
  const Eligibility := Single("eligibility", "WHY HAVE I BEEN ASKED TO TAKE PART?", "eligibility_why_asked")
  const Enrollment := Single("enrollment", "HOW MANY PEOPLE WILL PARTICIPATE?", "enrollment_numbers")
  const Time := Group("time", "HOW LONG WILL I BE IN THE STUDY?",
    ["time_visits_schedule", "time_total_duration"])
  const Procedures := Group("procedures", "WHAT WILL HAPPEN IF I TAKE PART?",
    ["procedures_overview", "procedures_visits", "procedures_tests",
     "procedures_randomization", "procedures_study_drug"])
  const Benefits := Single("benefits", "WHAT ARE THE BENEFITS?", "benefits")
  const Alternatives := Single("alternatives", "WHAT OTHER CHOICES DO I HAVE?", "alternatives")
  const Costs := Single("costs", "WILL BEING IN THIS STUDY COST ME ANYTHING?", "costs_to_participant")
  const Payment := Single("payment", "WILL I BE PAID FOR BEING IN THIS STUDY?", "payment_to_participant")
  const Compensation := Single("compensation", "WHAT HAPPENS IF I AM INJURED?", "compensation_injury")
  const Confidentiality := Single("confidentiality", "WHAT ABOUT CONFIDENTIALITY?", "confidentiality")
  const Rights := Single("rights", "WHAT ARE MY RIGHTS AS A RESEARCH PARTICIPANT?", "participant_rights")
  const Voluntary := Single("voluntary", "VOLUNTARY PARTICIPATION", "voluntary_participation")


  /** The paragraphs of one subsection's text when it is truthy. */
  function GivenText(c: SubsectionContent, key: string): seq<ContentBlock>
  {
    if Given(c, key) then TextToParagraphs(c[key]) else []
  }

  /** The paragraphs of the truthy texts among `keys`, in key order. */
  function GivenParagraphs(c: SubsectionContent, keys: seq<string>): seq<ContentBlock>
  {
    if keys == [] then [] else GivenText(c, keys[0]) + GivenParagraphs(c, keys[1..])
  }

  function QuestionSection(c: SubsectionContent, q: Question): Option<Section>
  {
    match q
    case Single(id, heading, key) =>
      if Given(c, key) then Some(Section(id, 1, heading, TextToParagraphs(c[key]), [])) else None
    case Group(id, heading, keys) =>
      var blocks := GivenParagraphs(c, keys);
      if blocks == [] then None else Some(Section(id, 1, heading, blocks, []))
  }

  function Opt(o: Option<Section>): seq<Section>
  {
    if o.Some? then [o.value] else []
  }

  lemma {:induction false} GivenParagraphsEmptyIff(c: SubsectionContent, keys: seq<string>)
    ensures GivenParagraphs(c, keys) == [] <==>
      forall k :: 0 <= k < |keys| && Given(c, keys[k]) ==> Paragraphs(c[keys[k]]) == []
  {
    if keys != [] {
      GivenParagraphsEmptyIff(c, keys[1..]);
      assert forall k :: 1 <= k < |keys| ==> keys[k] == keys[1..][k - 1];
    }
  }

  /** A single-text question appears exactly when its text is truthy; a
      gathered one exactly when some truthy text has a paragraph. */
  lemma QuestionSectionIff(c: SubsectionContent, q: Question)
    ensures q.Single? ==> (QuestionSection(c, q).Some? <==> Given(c, q.key))
    ensures q.Group? ==> (QuestionSection(c, q).Some? <==>
      exists k :: 0 <= k < |q.keys| && Given(c, q.keys[k]) && Paragraphs(c[q.keys[k]]) != [])
    ensures QuestionSection(c, q).Some? ==>
      QuestionSection(c, q).value.id == q.id && QuestionSection(c, q).value.heading == q.heading
  {
    if q.Group? {
      GivenParagraphsEmptyIff(c, q.keys);
    }
  }

  /** The two kinds differ on whitespace-only text: a single-text question
      still appears, with no blocks, while a gathered one does not. */
  lemma WhitespaceOnlyText(c: SubsectionContent, q: Question)
    requires q.Single? && Given(c, q.key) && IsBlank(c[q.key])
    ensures QuestionSection(c, q) == Some(Section(q.id, 1, q.heading, [], []))
    ensures forall keys :: (forall k :: 0 <= k < |keys| ==> keys[k] == q.key) ==>
      QuestionSection(c, Group(q.id, q.heading, keys)).None?
  {
    BlankTextNoParagraphs(c[q.key]);
    forall keys | forall k :: 0 <= k < |keys| ==> keys[k] == q.key
      ensures QuestionSection(c, Group(q.id, q.heading, keys)).None?
    {
      GivenParagraphsEmptyIff(c, keys);
    }
  }

  // ---------------------------------------------------------------------
  // Risks

  /** A part of the risks section after the introduction: a frequency band,
      shown as a bullet list, or a topic, shown as paragraphs. */
  datatype RiskPart =
    | Band(key: string, heading: string)
    | Topic(key: string, heading: string)

  /** A part's heading and blocks, when its text is truthy. */
  function PartBlocks(c: SubsectionContent, p: RiskPart): seq<ContentBlock>
  {
    if !Given(c, p.key) then []
    else match p
      case Band(key, heading) => [RiskHeading(heading), TextToBulletList(c[key])]
      case Topic(key, heading) => [RiskHeading(heading)] + TextToParagraphs(c[key])
  }

  /** The parts' blocks, in order. */
  function PartsBlocks(c: SubsectionContent, ps: seq<RiskPart>): seq<ContentBlock>
  {
    if ps == [] then [] else PartsBlocks(c, ps[..|ps| - 1]) + PartBlocks(c, ps[|ps| - 1])
  }

  /** The parts of `_build_risks_section`, in order. */
  const RiskParts: seq<RiskPart> := [
    Band("risks_very_common", "Very Common Side Effects (more than 1 in 10 people):"),
    Band("risks_common", "Common Side Effects (1 to 10 in 100 people):"),
    Band("risks_uncommon", "Uncommon Side Effects (fewer than 1 in 100 people):"),
    Topic("risks_unknown", "Unknown Risks:"),
    Topic("risks_pregnancy", "Pregnancy and Reproductive Risks:"),
    Topic("risks_procedures", "Risks from Study Procedures:")
  ]

  function RiskIntroduction(c: SubsectionContent): seq<ContentBlock>
  {
    GivenText(c, "risks_introduction")
  }

  /** The blocks of the risks section: the introduction's paragraphs, then
      the parts. */
  function RiskBlocks(c: SubsectionContent): seq<ContentBlock>
  {
    RiskIntroduction(c) + PartsBlocks(c, RiskParts)
  }

  function RisksSection(c: SubsectionContent): Option<Section>
  {
    var blocks := RiskBlocks(c);
    if blocks == [] then None else Some(Section("risks", 1, "WHAT ARE THE RISKS AND DISCOMFORTS?", blocks, []))
  }

  /** `_build_risks_section`, appending each part's blocks in turn. */
  method BuildRisksSection(c: SubsectionContent) returns (r: Option<Section>)
    ensures r == RisksSection(c)
  {
    var blocks := AddGiven([], c, "risks_introduction");
    assert blocks == RiskIntroduction(c);
    blocks := AddParts(blocks, c, RiskParts);
    if blocks == [] {
      return None;
    }
    return Some(Section("risks", 1, "WHAT ARE THE RISKS AND DISCOMFORTS?", blocks, []));
  }

  /** One part of `_build_risks_section`: its heading, then its text as a
      bullet list or as paragraphs. */
  method AddPart(blocks: seq<ContentBlock>, c: SubsectionContent, p: RiskPart) returns (r: seq<ContentBlock>)
    ensures r == blocks + PartBlocks(c, p)
  {
    r := blocks;
    if p.key in c && c[p.key] != "" {
      ghost var body := if p.Band? then [TextToBulletList(c[p.key])] else TextToParagraphs(c[p.key]);
      assert PartBlocks(c, p) == [RiskHeading(p.heading)] + body;
      r := r + [RiskHeading(p.heading)];
      if p.Band? {
        r := r + [TextToBulletList(c[p.key])];
      } else {
        r := r + TextToParagraphs(c[p.key]);
      }
      Seqs.Assoc3(blocks, [RiskHeading(p.heading)], body);
    }
  }

  /** The parts of `_build_risks_section`, one after the other. */
  method AddParts(blocks: seq<ContentBlock>, c: SubsectionContent, ps: seq<RiskPart>) returns (r: seq<ContentBlock>)
    ensures r == blocks + PartsBlocks(c, ps)
  {
    r := blocks;
    for i := 0 to |ps|
      invariant r == blocks + PartsBlocks(c, ps[..i])
    {
      assert ps[..i + 1][..i] == ps[..i];
      Seqs.Assoc3(blocks, PartsBlocks(c, ps[..i]), PartBlocks(c, ps[i]));
      r := AddPart(r, c, ps[i]);
    }
    assert ps[..|ps|] == ps;
  }

  /** The parts give no block exactly when every part's text is missing or
      empty. */
  lemma {:induction false} PartsBlocksEmptyIff(c: SubsectionContent, ps: seq<RiskPart>)
    ensures PartsBlocks(c, ps) == [] <==> forall k :: 0 <= k < |ps| ==> !Given(c, ps[k].key)
  {
    if ps != [] {
      var front := ps[..|ps| - 1];
      PartsBlocksEmptyIff(c, front);
      assert forall k :: 0 <= k < |front| ==> front[k] == ps[k];
    }
  }

  /** There is no risks section exactly when the introduction gives no
      paragraph and every part's text is missing or empty. */
  lemma RisksSectionNoneIff(c: SubsectionContent)
    ensures RisksSection(c).None? <==>
      RiskIntroduction(c) == [] && forall k :: 0 <= k < |RiskParts| ==> !Given(c, RiskParts[k].key)
  {
    PartsBlocksEmptyIff(c, RiskParts);
  }

  // ---------------------------------------------------------------------
  // All sections

  /** The invitation: the header, then the invitation and preamble texts. */
  function InvitationSection(c: SubsectionContent, header: seq<ContentBlock>): Section
  {
    Section("invitation", 1, "INVITATION TO PARTICIPATE",
      header + GivenText(c, "invitation_to_participate") + GivenText(c, "introduction_preamble"), [])
  }

  /** The question sections before the risks section, and after it. */
  const QuestionsBeforeRisks: seq<Question> := [Purpose, Eligibility, Enrollment, Time, Procedures]
  const QuestionsAfterRisks: seq<Question> :=
    [Benefits, Alternatives, Costs, Payment, Compensation, Confidentiality, Rights, Voluntary]

  /** All question sections, in document order. */
  const Questions: seq<Question> := QuestionsBeforeRisks + QuestionsAfterRisks

  /** The sections of the questions whose content is there, in order. */
  function Present(c: SubsectionContent, qs: seq<Question>): (r: seq<Section>)
    ensures |r| <= |qs|
  {
    if qs == [] then [] else Present(c, qs[..|qs| - 1]) + Opt(QuestionSection(c, qs[|qs| - 1]))
  }

  /** The invitation, the questions before the risks, the risks section,
      the questions after it, then the contact and signature sections. */
  function Sections(c: SubsectionContent, header: seq<ContentBlock>,
                    before: seq<Question>, risks: Option<Section>, after: seq<Question>): seq<Section>
  {
    [InvitationSection(c, header)]
      + Present(c, before)
      + Opt(risks)
      + Present(c, after)
      + [ContactSection, SignatureSection]
  }

  /** The sections `_build_sections` yields, in order. */
  function SectionList(c: SubsectionContent, header: seq<ContentBlock>): seq<Section>
  {
    Sections(c, header, QuestionsBeforeRisks, RisksSection(c), QuestionsAfterRisks)
  }

  /** The invitation of `_build_sections`: the header blocks, then the
      invitation and preamble texts when they are truthy. */
  method BuildInvitation(c: SubsectionContent, header: seq<ContentBlock>) returns (s: Section)
    ensures s == InvitationSection(c, header)
  {
    var intro := AddGiven(header, c, "invitation_to_participate");
    intro := AddGiven(intro, c, "introduction_preamble");
    s := Section("invitation", 1, "INVITATION TO PARTICIPATE", intro, []);
  }

  /** `if subsection_content.get(key): blocks.extend(...)`: the text's
      paragraphs appended when it is truthy. */
  method AddGiven(blocks: seq<ContentBlock>, c: SubsectionContent, key: string) returns (r: seq<ContentBlock>)
    ensures r == blocks + GivenText(c, key)
  {
    r := blocks;
    if key in c && c[key] != "" {
      r := r + TextToParagraphs(c[key]);
    }
  }

  /** One single-text question of `_build_sections`. */
  method AppendSingle(sections: seq<Section>, c: SubsectionContent, q: Question) returns (r: seq<Section>)
    requires q.Single?
    ensures r == sections + Opt(QuestionSection(c, q))
  {
    r := sections;
    if q.key in c && c[q.key] != "" {
      r := r + [Section(q.id, 1, q.heading, TextToParagraphs(c[q.key]), [])];
    }
  }

  /** One gathered question of `_build_sections`: the paragraphs of its
      subsections, key by key, and the section only if there are any. */
  method AppendGroup(sections: seq<Section>, c: SubsectionContent, q: Question) returns (r: seq<Section>)
    requires q.Group?
    ensures r == sections + Opt(QuestionSection(c, q))
  {
    var keys := q.keys;
    var blocks: seq<ContentBlock> := [];
    for i := 0 to |keys|
      invariant blocks + GivenParagraphs(c, keys[i..]) == GivenParagraphs(c, keys)
    {
      GivenParagraphsStep(c, keys, i);
      var more: seq<ContentBlock> := [];
      if keys[i] in c && c[keys[i]] != "" {
        more := TextToParagraphs(c[keys[i]]);
      }
      Seqs.Assoc3(blocks, more, GivenParagraphs(c, keys[i + 1..]));
      blocks := blocks + more;
    }
    assert keys[|keys|..] == [];
    assert blocks == GivenParagraphs(c, keys);
    r := sections;
    if blocks != [] {
      r := r + [Section(q.id, 1, q.heading, blocks, [])];
    }
  }

  lemma GivenParagraphsStep(c: SubsectionContent, keys: seq<string>, i: nat)
    requires i < |keys|
    ensures GivenParagraphs(c, keys[i..]) ==
      GivenText(c, keys[i]) + GivenParagraphs(c, keys[i + 1..])
  {
    assert keys[i..][0] == keys[i] && keys[i..][1..] == keys[i + 1..];
  }

  /** One question of `_build_sections`, of either kind. */
  method AppendQuestion(sections: seq<Section>, c: SubsectionContent, q: Question) returns (r: seq<Section>)
    ensures r == sections + Opt(QuestionSection(c, q))
  {
    if q.Single? {
      r := AppendSingle(sections, c, q);
    } else {
      r := AppendGroup(sections, c, q);
    }
  }

  /** A run of consecutive questions of `_build_sections`, in order. */
  method AppendQuestions(sections: seq<Section>, c: SubsectionContent, qs: seq<Question>) returns (r: seq<Section>)
    ensures r == sections + Present(c, qs)
  {
    r := sections;
    for i := 0 to |qs|
      invariant r == sections + Present(c, qs[..i])
    {
      assert qs[..i + 1][..i] == qs[..i];
      Seqs.Assoc3(sections, Present(c, qs[..i]), Opt(QuestionSection(c, qs[i])));
      r := AppendQuestion(r, c, qs[i]);
    }
    assert qs[..|qs|] == qs;
  }

  /** `_build_sections`, appending section after section in document
      order, for the question tables `before` and after the risks section
      (`SectionList` fixes them to the form's own). The header blocks are
      built by the caller from the metadata. */
  method BuildSections(c: SubsectionContent, header: seq<ContentBlock>, before: seq<Question>, after: seq<Question>)
    returns (sections: seq<Section>)
    ensures sections == Sections(c, header, before, RisksSection(c), after)
  {
    var invitation := BuildInvitation(c, header);
    sections := [invitation];
    sections := AppendQuestions(sections, c, before);
    var risks := BuildRisksSection(c);
    if risks.Some? {
      sections := sections + [risks.value];
    }
    ghost var middle := sections;
    assert middle == [invitation] + Present(c, before) + Opt(risks);
    sections := AppendQuestions(sections, c, after);
    sections := sections + [ContactSection];
    sections := sections + [SignatureSection];
    assert sections == middle + Present(c, after) + [ContactSection, SignatureSection];
  }

  /** The invitation always comes first, and the contact section followed
      by the signature page always closes the form, with at most one
      section per question and one for the risks in between. */
  lemma SectionsEnds(c: SubsectionContent, header: seq<ContentBlock>,
                     before: seq<Question>, risks: Option<Section>, after: seq<Question>)
    ensures var ss := Sections(c, header, before, risks, after);
      3 <= |ss| <= 4 + |before| + |after| && ss[0] == InvitationSection(c, header)
      && ss[|ss| - 2] == ContactSection && ss[|ss| - 1] == SignatureSection
  {
  }

  /** The consent form has between 3 and 17 sections. */
  lemma SectionListSize(c: SubsectionContent, header: seq<ContentBlock>)
    ensures 3 <= |SectionList(c, header)| <= 17
  {
    SectionsEnds(c, header, QuestionsBeforeRisks, RisksSection(c), QuestionsAfterRisks);
  }

  /** Every question whose content is there has its section in the form. */
  lemma QuestionIncluded(c: SubsectionContent, header: seq<ContentBlock>,
                         before: seq<Question>, risks: Option<Section>, after: seq<Question>, q: Question)
    requires (q in before || q in after) && QuestionSection(c, q).Some?
    ensures QuestionSection(c, q).value in Sections(c, header, before, risks, after)
  {
    if q in before {
      PresentIncludes(c, before, q);
    } else {
      PresentIncludes(c, after, q);
    }
  }

  /** Every section of the form is the invitation, the contact section, the
      signature page, the risks section, or a question whose content is
      there. */
  lemma SectionsMembers(c: SubsectionContent, header: seq<ContentBlock>,
                        before: seq<Question>, risks: Option<Section>, after: seq<Question>, x: Section)
    requires x in Sections(c, header, before, risks, after)
    ensures x == InvitationSection(c, header) || x == ContactSection || x == SignatureSection
      || risks == Some(x)
      || exists q :: (q in before || q in after) && QuestionSection(c, q) == Some(x)
  {
    if x in Present(c, before) {
      PresentMembers(c, before, x);
    } else if x in Present(c, after) {
      PresentMembers(c, after, x);
    }
  }

  lemma {:induction false} PresentIncludes(c: SubsectionContent, qs: seq<Question>, q: Question)
    requires q in qs && QuestionSection(c, q).Some?
    ensures QuestionSection(c, q).value in Present(c, qs)
  {
    if qs[|qs| - 1] != q {
      var front := qs[..|qs| - 1];
      assert qs == front + [qs[|qs| - 1]];
      PresentIncludes(c, front, q);
    }
  }

  lemma {:induction false} PresentMembers(c: SubsectionContent, qs: seq<Question>, x: Section)
    requires x in Present(c, qs)
    ensures exists q :: q in qs && QuestionSection(c, q) == Some(x)
  {
    var front := qs[..|qs| - 1];
    if x in Present(c, front) {
      PresentMembers(c, front, x);
      var q :| q in front && QuestionSection(c, q) == Some(x);
      assert q in qs;
    } else {
      assert QuestionSection(c, qs[|qs| - 1]) == Some(x);
    }
  }

  // ---------------------------------------------------------------------
  // The document

  /** `protocol_data.get("metadata", {})`, which must be a dict for the
      later `.get` calls to work. */
  function MetadataOf(pd: map<string, Value>): Result<map<string, Value>, string>
  {
    var m := Get(pd, "metadata", VDict(map[]));
    if m.VDict? then Ok(m.fields) else Err("AttributeError: metadata has no attribute 'get'")
  }

  /** The consent form's styling: Arial 11 with 14/12/11 point headings. */
  const IcfStyling: DocumentStyling :=
    DefaultStyling.(heading1Size := 14, heading2Size := 12, heading3Size := 11)

  /** `assemble`. */
  function Assemble(c: SubsectionContent, pd: map<string, Value>): Result<UniversalDocument, string>
  {
    match MetadataOf(pd)
    case Err(e) => Err(e)
    case Ok(meta) =>
      var title := Get(meta, "title", VStr("Clinical Study"));
      var number := Get(meta, "protocol_number", VStr(""));
      var sponsor := Get(meta, "sponsor", VStr(""));
      match (OptionalString(number), OptionalString(title), OptionalString(sponsor))
      case (Ok(n), Ok(t), Ok(s)) =>
        var headerText := if Truthy(number) then Some("Protocol: " + Str(number)) else None;
        Ok(UniversalDocument("icf", "INFORMED CONSENT FORM", DocumentMetadata(n, t, s), IcfStyling,
          DefaultPageSetup, HeaderFooter(headerText, None, true, "footer_center", false),
          SectionList(c, HeaderBlocks(meta))))
      case _ => Err("validation error: Input should be a valid string")
  }

  /** The form is built exactly when the metadata is a dict whose title,
      protocol number and sponsor are strings or None. */
  lemma AssembleOkIff(c: SubsectionContent, pd: map<string, Value>)
    ensures Assemble(c, pd).Ok? <==> (MetadataOf(pd).Ok? &&
      var meta := MetadataOf(pd).value;
      OptionalString(Get(meta, "title", VStr("Clinical Study"))).Ok?
      && OptionalString(Get(meta, "protocol_number", VStr(""))).Ok?
      && OptionalString(Get(meta, "sponsor", VStr(""))).Ok?)
  {
  }

  /** A built form carries the fixed type and title, the metadata fields,
      the section list, and a "Protocol:" header exactly when there is a
      protocol number. */
  lemma AssembleSpec(c: SubsectionContent, pd: map<string, Value>)
    ensures Assemble(c, pd).Ok? ==>
      var doc := Assemble(c, pd).value;
      var meta := MetadataOf(pd).value;
      var number := Get(meta, "protocol_number", VStr(""));
      doc.documentType == "icf" && doc.title == "INFORMED CONSENT FORM"
      && doc.sections == SectionList(c, HeaderBlocks(meta))
      && doc.metadata.protocolNumber == OptionalString(number).value
      && doc.metadata.protocolTitle == OptionalString(Get(meta, "title", VStr("Clinical Study"))).value
      && doc.styling == IcfStyling
      && doc.headerFooter.headerText == (if Truthy(number) then Some("Protocol: " + Str(number)) else None)
  {
  }
}
