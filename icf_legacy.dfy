/** The legacy informed consent form workflow: the header, introduction,
    nine numbered sections (the risks section listing adverse events by
    frequency), contact information and signature page, assembled into a
    UIF document. */
module IcfLegacy {
  import opened Wrappers
  import opened Text
  import opened PyValue
  import opened Schema
  import opened AeBuckets
  import opened IcfLegacyTexts
  import WorkflowBase
  import Seqs

  type Content = map<string, Value>

  // ---------------------------------------------------------------------
  // Organizing adverse events

  /** The band of a lowered frequency: the tests run in this order, so
      the first that matches decides. */
  function LegacyBand(freq: string): Band
  {
    if Contains(freq, "very common") || Contains(freq, ">10%") || Contains(freq, "10%") then VeryCommon
    else if Contains(freq, "common") || Contains(freq, "1-10%") || Contains(freq, "1%-10%") then Common
    else if Contains(freq, "uncommon") || Contains(freq, "<1%") || Contains(freq, "0.1%-1%") then Uncommon
    else if Contains(freq, "rare") || Contains(freq, "<0.1%") then Rare
    else UnknownBand
  }

  /** An event the loop keeps: a dict with a truthy term. */
  predicate Accepted(ae: Value)
  {
    ae.VDict? && Truthy(EventTerm(ae.fields))
  }

  /** `(ae.get("frequency", "") or "").lower()`: a truthy frequency that
      is not a string has no `lower` and raises. */
  function Frequency(ae: map<string, Value>): Result<string, string>
  {
    match WorkflowBase.FieldText(Get(ae, "frequency", VStr("")), "")
    case Err(e) => Err(e)
    case Ok(f) => Ok(Lower(f))
  }

  /** One turn of the loop of `_organize_adverse_events`: entries that are
      not dicts, and dicts without a term, are skipped. */
  function Classify(ae: Value): Result<Option<Filed>, string>
  {
    if !Accepted(ae) then Ok(None)
    else
      match Frequency(ae.fields)
      case Err(e) => Err(e)
      case Ok(freq) => Ok(Some(Filed(LegacyBand(freq), EventTerm(ae.fields))))
  }

  /** `for ae in adverse_events`: a list yields its items. A string yields
      its characters and a dict its keys, all strings, which the loop
      skips whatever their order; anything else is not iterable. */
  function EventsOf(v: Value): Result<seq<Value>, string>
  {
    match v
    case VList(xs) => Ok(xs)
    case VStr(_) => Ok([])
    case VDict(_) => Ok([])
    case _ => Err("object is not iterable")
  }

  /** `_organize_adverse_events`. */
  function Organized(v: Value): Result<Buckets, string>
  {
    match EventsOf(v)
    case Err(e) => Err(e)
    case Ok(events) => SortedFiling(Filing(events, Classify))
  }

  method OrganizeAdverseEvents(v: Value) returns (r: Result<Buckets, string>)
    ensures r == Organized(v)
  {
    var events := EventsOf(v);
    if events.Err? {
      return Err(events.error);
    }
    r := SortEvents(events.value, Classify);
  }

  /** The terms of the accepted events of one band, in input order: the
      reference the buckets are checked against. */
  function AcceptedIn(events: seq<Value>, band: Band): seq<Value>
  {
    if events == [] then []
    else
      var ae := events[|events| - 1];
      AcceptedIn(events[..|events| - 1], band)
        + (if Accepted(ae) && Frequency(ae.fields).Ok? && LegacyBand(Frequency(ae.fields).value) == band
           then [EventTerm(ae.fields)] else [])
  }

  /** The terms of all accepted events, in input order. */
  function AcceptedTerms(events: seq<Value>): seq<Value>
  {
    if events == [] then []
    else
      var ae := events[|events| - 1];
      AcceptedTerms(events[..|events| - 1]) + (if Accepted(ae) then [EventTerm(ae.fields)] else [])
  }

  /** One more event: the loop files it exactly when it is accepted. */
  lemma FilingStep(events: seq<Value>)
    requires events != [] && Filing(events, Classify).Ok?
    ensures var ae := events[|events| - 1];
      var fs := Filing(events[..|events| - 1], Classify).value;
      Filing(events, Classify).value ==
        if Accepted(ae) then fs + [Filed(LegacyBand(Frequency(ae.fields).value), EventTerm(ae.fields))] else fs
  {
  }

  /** A successful loop files every accepted event, in input order, and
      nothing else. */
  lemma {:induction false} FilingKeepsAccepted(events: seq<Value>)
    requires Filing(events, Classify).Ok?
    ensures Terms(Filing(events, Classify).value) == AcceptedTerms(events)
  {
    if events != [] {
      var front := events[..|events| - 1];
      FilingKeepsAccepted(front);
      FilingStep(events);
      var fs := Filing(front, Classify).value;
      var ae := events[|events| - 1];
      if Accepted(ae) {
        var f := Filed(LegacyBand(Frequency(ae.fields).value), EventTerm(ae.fields));
        assert Terms(fs + [f]) == Terms(fs) + [f.term];
      }
    }
  }

  /** A successful loop files each accepted event under the band of its
      frequency. */
  lemma {:induction false} FilingKeepsBands(events: seq<Value>, band: Band)
    requires Filing(events, Classify).Ok?
    ensures TermsIn(Filing(events, Classify).value, band) == AcceptedIn(events, band)
  {
    if events != [] {
      var front := events[..|events| - 1];
      FilingKeepsBands(front, band);
      FilingStep(events);
      var fs := Filing(front, Classify).value;
      var ae := events[|events| - 1];
      if Accepted(ae) {
        var f := Filed(LegacyBand(Frequency(ae.fields).value), EventTerm(ae.fields));
        assert (fs + [f])[..|fs|] == fs;
      }
    }
  }

  /** Each bucket lists exactly the accepted events of its band, in
      input order, and together the buckets list every accepted event
      once. */
  lemma OrganizedSpec(events: seq<Value>)
    requires Organized(VList(events)).Ok?
    ensures forall band :: Bucket(Organized(VList(events)).value, band) == AcceptedIn(events, band)
    ensures multiset(AllBuckets(Organized(VList(events)).value)) == multiset(AcceptedTerms(events))
  {
    var fs := Filing(events, Classify).value;
    forall band
      ensures Bucket(Sorted(fs), band) == AcceptedIn(events, band)
    {
      SortedBucket(fs, band);
      FilingKeepsBands(events, band);
    }
    SortedPartition(fs);
    FilingKeepsAccepted(events);
  }

  /** The loop raises exactly when an accepted event has a truthy
      frequency that is not a string. */
  lemma OrganizedFailsIff(events: seq<Value>)
    ensures Organized(VList(events)).Err? <==>
      exists k :: 0 <= k < |events| && Accepted(events[k]) && Frequency(events[k].fields).Err?
  {
    FilingFailsIff(events, Classify);
  }

  /** A string or a dict in place of the list sorts nothing. */
  lemma NonListEventsAreEmpty(v: Value)
    requires v.VStr? || v.VDict?
    ensures Organized(v) == Ok(NoEvents)
  {
  }

  /** Quirk: "10%" is tested first, so any frequency holding "10%" (the
      "1-10%" and "1%-10%" of the common band among them) is very common,
      and the common band is reached only through the word "common". */
  lemma LegacyVeryCommonIff(freq: string)
    ensures LegacyBand(freq) == VeryCommon <==> Contains(freq, "very common") || Contains(freq, "10%")
    ensures LegacyBand(freq) == Common <==>
      !Contains(freq, "very common") && !Contains(freq, "10%") && Contains(freq, "common")
  {
    RangesHoldTenPercent(freq);
  }

  /** Quirk: "uncommon" holds "common", so an uncommon frequency that is
      not very common is filed as common; the uncommon band is reached only through
      "<1%" or "0.1%-1%" without the word "common". */
  lemma LegacyUncommonIff(freq: string)
    ensures Contains(freq, "uncommon") && !Contains(freq, "10%") && !Contains(freq, "very common") ==>
      LegacyBand(freq) == Common
    ensures LegacyBand(freq) == Uncommon <==>
      !Contains(freq, "10%") && !Contains(freq, "common") && (Contains(freq, "<1%") || Contains(freq, "0.1%-1%"))
  {
    RangesHoldTenPercent(freq);
    if Contains(freq, "uncommon") {
      UncommonHoldsCommon(freq);
    }
    if Contains(freq, "very common") {
      ContainsSuffix(freq, "very common", 5);
      assert "very common"[5..] == "common";
    }
  }

  /** The two frequencies of the quirks, once lowered. */
  lemma LegacyQuirkExamples()
    ensures LegacyBand("common (1-10%)") == VeryCommon
    ensures LegacyBand("uncommon (<1%)") == Common
  {
    assert OccursAt("common (1-10%)", "10%", 10);
    MissingChar("uncommon (<1%)", "10%", 1);
    MissingChar("uncommon (<1%)", "very common", 0);
    LegacyUncommonIff("uncommon (<1%)");
    assert OccursAt("uncommon (<1%)", "uncommon", 0);
  }

  // ---------------------------------------------------------------------
  // Sections

  /** `_build_header_section`: the title heading and the study title, then
      the protocol number and the sponsor only when they are truthy. */
  function HeaderBlocks(title: Value, number: Value, sponsor: Value): seq<ContentBlock>
  {
    [Heading("INFORMED CONSENT FORM", 1, 0, 12).(alignment := Center), Para("Study Title: " + Str(title), 0, 6)]
      + (if Truthy(number) then [Para("Protocol Number: " + Str(number), 0, 6)] else [])
      + (if Truthy(sponsor) then [Para("Sponsor: " + Str(sponsor), 0, 12)] else [])
  }

  function HeaderSection(pd: Content): Section
  {
    Section("header", 1, "Document Header",
      HeaderBlocks(WorkflowBase.GetMetadataValue(pd, "title", VStr("Clinical Study")),
                   WorkflowBase.GetMetadataValue(pd, "protocol_number", VStr("")),
                   WorkflowBase.GetMetadataValue(pd, "sponsor", VStr(""))), [])
  }

  method BuildHeaderSection(pd: Content) returns (s: Section)
    ensures s == HeaderSection(pd)
  {
    var title := WorkflowBase.GetMetadataValue(pd, "title", VStr("Clinical Study"));
    var number := WorkflowBase.GetMetadataValue(pd, "protocol_number", VStr(""));
    var sponsor := WorkflowBase.GetMetadataValue(pd, "sponsor", VStr(""));
    s := Section("header", 1, "Document Header",
      [Heading("INFORMED CONSENT FORM", 1, 0, 12).(alignment := Center), Para("Study Title: " + Str(title), 0, 6)], []);
    if Truthy(number) {
      s := s.(blocks := s.blocks + [Para("Protocol Number: " + Str(number), 0, 6)]);
    }
    if Truthy(sponsor) {
      s := s.(blocks := s.blocks + [Para("Sponsor: " + Str(sponsor), 0, 12)]);
    }
  }

  /** The header always opens with the title heading and the study
      title, followed by one line for each truthy field. */
  lemma HeaderBlocksSpec(title: Value, number: Value, sponsor: Value)
    ensures var bs := HeaderBlocks(title, number, sponsor);
      && |bs| == 2 + (if Truthy(number) then 1 else 0) + (if Truthy(sponsor) then 1 else 0)
      && bs[0].kind == HeadingType && bs[0].content == "INFORMED CONSENT FORM" && bs[0].alignment == Center
      && bs[1].content == "Study Title: " + Str(title)
  {
  }

  /** The first letters of the header lines. */
  lemma HeaderInitials(title: Value, number: Value, sponsor: Value)
    ensures var bs := HeaderBlocks(title, number, sponsor);
      forall k :: 0 <= k < |bs| ==>
        |bs[k].content| >= 2
        && (bs[k].content[0] == 'P' <==> Truthy(number) && k == 2)
        && (bs[k].content[..2] == "Sp" <==> Truthy(sponsor) && k == |bs| - 1)
  {
    var bs := HeaderBlocks(title, number, sponsor);
    assert bs[0].content[..2] == "IN";
    assert bs[1].content[..2] == "St";
    if Truthy(number) {
      assert bs[2].content[..2] == "Pr";
    }
    if Truthy(sponsor) {
      assert bs[|bs| - 1].content[..2] == "Sp";
    }
  }

  /** A protocol-number line is there exactly when the number is
      truthy. */
  lemma HeaderProtocolIff(title: Value, number: Value, sponsor: Value)
    ensures var bs := HeaderBlocks(title, number, sponsor);
      Truthy(number) <==> exists k :: 0 <= k < |bs| && StartsWith(bs[k].content, "Protocol Number: ")
  {
    var bs := HeaderBlocks(title, number, sponsor);
    HeaderInitials(title, number, sponsor);
    if Truthy(number) {
      assert StartsWith(bs[2].content, "Protocol Number: ");
    }
    forall k | 0 <= k < |bs| && StartsWith(bs[k].content, "Protocol Number: ") ensures Truthy(number) {
      assert bs[k].content[0] == 'P';
    }
  }

  /** A sponsor line is there exactly when the sponsor is truthy. */
  lemma HeaderSponsorIff(title: Value, number: Value, sponsor: Value)
    ensures var bs := HeaderBlocks(title, number, sponsor);
      Truthy(sponsor) <==> exists k :: 0 <= k < |bs| && StartsWith(bs[k].content, "Sponsor: ")
  {
    var bs := HeaderBlocks(title, number, sponsor);
    HeaderInitials(title, number, sponsor);
    if Truthy(sponsor) {
      assert StartsWith(bs[|bs| - 1].content, "Sponsor: ");
    }
    forall k | 0 <= k < |bs| && StartsWith(bs[k].content, "Sponsor: ") ensures Truthy(sponsor) {
      assert bs[k].content[..2] == "Sp";
    }
  }

  /** `_build_text_section`: one paragraph per non-blank stripped
      paragraph of the text; a truthy text that is not a string has no
      `split` and raises. */
  function TextSection(id: string, heading: string, text: Value): Result<Section, string>
  {
    match WorkflowBase.FieldText(text, "")
    case Err(e) => Err(e)
    case Ok(t) => Ok(Section(id, 1, heading, ParagraphBlocks(Paragraphs(t), 6), []))
  }

  method BuildTextSection(id: string, heading: string, text: Value) returns (r: Result<Section, string>)
    ensures r == TextSection(id, heading, text)
  {
    var t := WorkflowBase.FieldText(text, "");
    if t.Err? {
      return Err(t.error);
    }
    var blocks := WorkflowBase.BuildChunkParagraphs(Split(t.value, "\n\n"));
    r := Ok(Section(id, 1, heading, blocks, []));
  }

  /** A text section fails exactly on a truthy non-string, and otherwise
      holds one non-empty stripped paragraph per blank-line separated
      paragraph of the text, each with 6 points after it. */
  lemma TextSectionSpec(id: string, heading: string, text: Value)
    ensures TextSection(id, heading, text).Err? <==> Truthy(text) && !text.VStr?
    ensures TextSection(id, heading, text).Ok? ==>
      var s := TextSection(id, heading, text).value;
      && s.id == id && s.level == 1 && s.heading == heading && s.subsections == []
      && (!Truthy(text) ==> s.blocks == [])
      && forall k :: 0 <= k < |s.blocks| ==>
           s.blocks[k].kind == ParagraphType && s.blocks[k].content != []
           && IsStripped(s.blocks[k].content) && s.blocks[k].spacingAfter == 6
  {
    if TextSection(id, heading, text).Ok? {
      var t := WorkflowBase.FieldText(text, "").value;
      ParagraphBlocksSpec(Paragraphs(t), 6);
      if !Truthy(text) {
        assert Split("", "\n\n") == [""];
        assert Strip("") == [];
      }
    }
  }

  // ---------------------------------------------------------------------
  // The risks section

  /** An item of a bullet list: the schema takes a string or a dict and
      rejects anything else. */
  function ListEntryOf(v: Value): Result<ListEntry, string>
  {
    match v
    case VStr(s) => Ok(TextItem(s))
    case VDict(m) => Ok(DictItem(m))
    case _ => Err("validation error: Input should be a valid string or dict")
  }

  /** The heading and bullet list of one band, none for an empty one. */
  function BandBlocks(caption: string, events: seq<Value>): Result<seq<ContentBlock>, string>
  {
    if events == [] then Ok([])
    else
      match Seqs.Traverse(events, ListEntryOf)
      case Err(e) => Err(e)
      case Ok(items) => Ok([Heading(caption, 3, 12, 6), NewBlock(BulletListType).(items := Some(items))])
  }

  datatype Labelled = Labelled(band: Band, caption: string)

  /** The bands in the order the section lists them, with their labels. */
  const Labels: seq<Labelled> := [
    Labelled(VeryCommon, "Very Common (more than 1 in 10 people):"),
    Labelled(Common, "Common (1 to 10 in 100 people):"),
    Labelled(Uncommon, "Uncommon (less than 1 in 100 people):"),
    Labelled(Rare, "Rare:"),
    Labelled(UnknownBand, "Other possible side effects:")
  ]

  /** The blocks of the given bands, one after the other; the first list
      that fails validation raises. */
  function ListBlocks(ls: seq<Labelled>, b: Buckets): Result<seq<ContentBlock>, string>
  {
    if ls == [] then Ok([])
    else
      match ListBlocks(ls[..|ls| - 1], b)
      case Err(e) => Err(e)
      case Ok(front) =>
        match BandBlocks(ls[|ls| - 1].caption, Bucket(b, ls[|ls| - 1].band))
        case Err(e) => Err(e)
        case Ok(last) => Ok(front + last)
  }

  /** How many of the given bands have events. */
  function Filled(ls: seq<Labelled>, b: Buckets): nat
  {
    if ls == [] then 0
    else Filled(ls[..|ls| - 1], b) + (if Bucket(b, ls[|ls| - 1].band) == [] then 0 else 1)
  }

  lemma {:induction false} NothingFilled(ls: seq<Labelled>)
    ensures Filled(ls, NoEvents) == 0
  {
    if ls != [] {
      NothingFilled(ls[..|ls| - 1]);
    }
  }

  /** A band adds nothing when it is empty, and otherwise a level-3
      heading with its label followed by a bullet list of its events. */
  lemma BandBlocksSpec(caption: string, events: seq<Value>)
    ensures events == [] ==> BandBlocks(caption, events) == Ok([])
    ensures events != [] && BandBlocks(caption, events).Ok? ==>
      var bs := BandBlocks(caption, events).value;
      && |bs| == 2
      && bs[0].kind == HeadingType && bs[0].content == caption && bs[0].level == Some(3)
      && bs[0].spacingBefore == 12 && bs[0].spacingAfter == 6
      && bs[1].kind == BulletListType && bs[1].items.Some? && |bs[1].items.value| == |events|
      && forall k :: 0 <= k < |events| ==> Ok(bs[1].items.value[k]) == ListEntryOf(events[k])
    ensures (forall k :: 0 <= k < |events| ==> events[k].VStr? || events[k].VDict?) ==> BandBlocks(caption, events).Ok?
  {
    if events != [] {
      Seqs.TraverseFailIff(events, ListEntryOf);
      if BandBlocks(caption, events).Ok? {
        Seqs.TraverseSpec(events, ListEntryOf);
      }
    }
  }

  /** The lists come in heading-and-list pairs, one pair for each band
      with events. */
  lemma {:induction false} ListBlocksShape(ls: seq<Labelled>, b: Buckets)
    requires ListBlocks(ls, b).Ok?
    ensures var bs := ListBlocks(ls, b).value;
      && |bs| == 2 * Filled(ls, b)
      && forall k :: 0 <= k < Filled(ls, b) ==>
           bs[2 * k].kind == HeadingType && bs[2 * k].level == Some(3) && bs[2 * k + 1].kind == BulletListType
  {
    if ls != [] {
      var front := ls[..|ls| - 1];
      var l := ls[|ls| - 1];
      ListBlocksShape(front, b);
      BandBlocksSpec(l.caption, Bucket(b, l.band));
    }
  }

  /** `_build_risks_section`: the paragraphs of the risks text, then the
      heading and list of each band with events. */
  function RisksSection(content: Content, pd: Content, heading: string): Result<Section, string>
  {
    match WorkflowBase.FieldText(Get(content, "risks_section", VStr("")), "")
    case Err(e) => Err(e)
    case Ok(text) =>
      match Organized(Get(pd, "adverse_events", VList([])))
      case Err(e) => Err(e)
      case Ok(b) =>
        match ListBlocks(Labels, b)
        case Err(e) => Err(e)
        case Ok(lists) => Ok(Section("risks", 1, heading, ParagraphBlocks(Paragraphs(text), 6) + lists, []))
  }

  method BuildRisksSection(content: Content, pd: Content, heading: string) returns (r: Result<Section, string>)
    ensures r == RisksSection(content, pd, heading)
  {
    var text := WorkflowBase.FieldText(Get(content, "risks_section", VStr("")), "");
    if text.Err? {
      return Err(text.error);
    }
    var blocks := WorkflowBase.BuildChunkParagraphs(Split(text.value, "\n\n"));
    var organized := OrganizeAdverseEvents(Get(pd, "adverse_events", VList([])));
    if organized.Err? {
      return Err(organized.error);
    }
    var lists := ListBlocks(Labels, organized.value);
    if lists.Err? {
      return Err(lists.error);
    }
    r := Ok(Section("risks", 1, heading, blocks + lists.value, []));
  }

  /** Without adverse events the risks section holds only the paragraphs
      of its text. */
  lemma NoEventsNoLists(content: Content, pd: Content, heading: string)
    requires "adverse_events" !in pd && RisksSection(content, pd, heading).Ok?
    ensures var text := WorkflowBase.FieldText(Get(content, "risks_section", VStr("")), "").value;
      RisksSection(content, pd, heading).value.blocks == ParagraphBlocks(Paragraphs(text), 6)
  {
    assert Filing([], Classify) == Ok([]);
    assert Organized(VList([])) == Ok(NoEvents);
    NothingFilled(Labels);
    ListBlocksShape(Labels, NoEvents);
    assert ListBlocks(Labels, NoEvents) == Ok([]);
  }

  // ---------------------------------------------------------------------
  // The whole set of sections

  /** One entry of the configured sections: its id, heading and the
      content key of its text (none for the risks section). */
  datatype Config = Config(id: string, heading: string, textKey: Option<string>)

  const RisksEntry: Config := Config("risks", "4. RISKS AND SIDE EFFECTS", None)

  const Configs: seq<Config> := [
    Config("purpose", "1. PURPOSE OF THE STUDY", Some("study_purpose")),
    Config("procedures", "2. STUDY PROCEDURES", Some("procedures_section")),
    Config("time", "3. TIME COMMITMENT", Some("time_commitment")),
    RisksEntry,
    Config("benefits", "5. BENEFITS", Some("benefits_section")),
    Config("alternatives", "6. ALTERNATIVES", Some("alternatives_section")),
    Config("confidentiality", "7. CONFIDENTIALITY", Some("confidentiality_section")),
    Config("compensation", "8. COMPENSATION FOR INJURY", Some("compensation_section")),
    Config("voluntary", "9. VOLUNTARY PARTICIPATION", Some("voluntary_section"))
  ]

  /** The text of an entry: `content.get(key, "")`, or None. */
  function ConfigText(c: Config, content: Content): Value
  {
    match c.textKey
    case Some(key) => Get(content, key, VStr(""))
    case None => VNone
  }

  /** What the builders return on one input: the content, the header and
      the risks section (or the error its builder raises). */
  datatype Built = Built(content: Content, header: Section, risks: Result<Section, string>)

  function BuiltFrom(content: Content, pd: Content): Built
  {
    Built(content, HeaderSection(pd), RisksSection(content, pd, RisksEntry.heading))
  }

  method RunBuilders(content: Content, pd: Content) returns (b: Built)
    ensures b == BuiltFrom(content, pd)
  {
    var header := BuildHeaderSection(pd);
    var risks := BuildRisksSection(content, pd, RisksEntry.heading);
    b := Built(content, header, risks);
  }

  /** The section the loop appends for one entry. */
  function ConfigSection(c: Config, b: Built): Result<Section, string>
  {
    if c.id == "risks" then b.risks else TextSection(c.id, c.heading, ConfigText(c, b.content))
  }

  function ConfigSectionOf(b: Built): Config -> Result<Section, string>
  {
    (c: Config) => ConfigSection(c, b)
  }

  /** The fixed sections around the nine configured ones. */
  function Framed(header: Section, main: seq<Section>): seq<Section>
  {
    [header, IntroductionSection] + main + [ContactSection, SignatureSection()]
  }

  /** `_build_sections`: header, introduction, the nine entries in order,
      contact and signature page. */
  function Sections(b: Built): Result<seq<Section>, string>
  {
    match Seqs.Traverse(Configs, ConfigSectionOf(b))
    case Err(e) => Err(e)
    case Ok(main) => Ok(Framed(b.header, main))
  }

  method BuildSections(b: Built) returns (r: Result<seq<Section>, string>)
    ensures r == Sections(b)
  {
    var main := BuildConfigured(Configs, b);
    if main.Err? {
      return Err(main.error);
    }
    r := Ok([b.header, IntroductionSection] + main.value + [ContactSection, SignatureSection()]);
  }

  /** The loop over the configured entries, each built in turn; the first
      that raises ends it. */
  method BuildConfigured(cs: seq<Config>, b: Built) returns (r: Result<seq<Section>, string>)
    ensures r == Seqs.Traverse(cs, ConfigSectionOf(b))
  {
    var main: seq<Section> := [];
    for i := 0 to |cs|
      invariant Seqs.Traverse(cs[..i], ConfigSectionOf(b)) == Ok(main)
    {
      Seqs.TraverseSnoc(cs, i, ConfigSectionOf(b), main);
      var s: Result<Section, string>;
      if cs[i].id == "risks" {
        s := b.risks;
      } else {
        s := BuildTextSection(cs[i].id, cs[i].heading, ConfigText(cs[i], b.content));
      }
      if s.Err? {
        Seqs.TraversePersists(cs, i + 1, ConfigSectionOf(b));
        return Err(s.error);
      }
      main := main + [s.value];
    }
    assert cs[..|cs|] == cs;
    r := Ok(main);
  }

  /** Where each section sits in a frame of two sections before and two
      after. */
  lemma FrameShape<T>(first: T, second: T, main: seq<T>, third: T, fourth: T)
    ensures var ss := [first, second] + main + [third, fourth];
      && |ss| == |main| + 4 && ss[0] == first && ss[1] == second
      && (forall k :: 0 <= k < |main| ==> ss[k + 2] == main[k])
      && ss[|main| + 2] == third && ss[|main| + 3] == fourth
  {
  }

  /** The builders identify their sections: the header as "header", the
      risks section with the risks entry's id and heading. */
  predicate Identified(b: Built)
  {
    && b.header.id == "header" && b.header.level == 1
    && (b.risks.Ok? ==>
          b.risks.value.id == RisksEntry.id && b.risks.value.heading == RisksEntry.heading && b.risks.value.level == 1)
  }

  lemma BuildersIdentified(content: Content, pd: Content)
    ensures Identified(BuiltFrom(content, pd))
  {
  }

  /** Only the fourth entry is the risks entry. */
  lemma RisksOnlyFourth()
    ensures forall k :: 0 <= k < |Configs| ==> (Configs[k].id == "risks" <==> k == 3)
    ensures Configs[3] == RisksEntry
  {
  }

  /** Over any entries whose only risks entry is the risks entry, a
      successful loop gives one level-1 section per entry, each with its
      entry's id and heading. */
  lemma {:induction false} ConfiguredShape(cs: seq<Config>, b: Built)
    requires Identified(b)
    requires forall k :: 0 <= k < |cs| && cs[k].id == "risks" ==> cs[k] == RisksEntry
    requires Seqs.Traverse(cs, ConfigSectionOf(b)).Ok?
    ensures var main := Seqs.Traverse(cs, ConfigSectionOf(b)).value;
      |main| == |cs| && forall k :: 0 <= k < |cs| ==>
        main[k].id == cs[k].id && main[k].heading == cs[k].heading && main[k].level == 1
  {
    if cs != [] {
      var front := cs[..|cs| - 1];
      assert forall k :: 0 <= k < |front| ==> front[k] == cs[k];
      ConfiguredShape(front, b);
    }
  }

  /** A successful build yields thirteen sections: the header, the
      introduction, the nine entries with their ids and headings in order,
      the contact information and the signature page. */
  lemma SectionsShape(b: Built)
    requires Identified(b) && Sections(b).Ok?
    ensures var ss := Sections(b).value;
      && |ss| == 13 && ss[0] == b.header && ss[1] == IntroductionSection
      && (forall k :: 0 <= k < 9 ==> ss[k + 2].id == Configs[k].id && ss[k + 2].heading == Configs[k].heading)
      && ss[11] == ContactSection && ss[12] == SignatureSection()
  {
    RisksOnlyFourth();
    ConfiguredShape(Configs, b);
    FrameShape(b.header, IntroductionSection, Seqs.Traverse(Configs, ConfigSectionOf(b)).value, ContactSection, SignatureSection());
  }

  /** The build fails exactly when one of the nine entries does. */
  lemma SectionsFailIff(b: Built)
    ensures Sections(b).Err? <==> exists k :: 0 <= k < 9 && ConfigSection(Configs[k], b).Err?
  {
    Seqs.TraverseFailIff(Configs, ConfigSectionOf(b));
  }

  // ---------------------------------------------------------------------
  // The document

  const IcfStyling: DocumentStyling := DefaultStyling.(heading1Size := 14, heading2Size := 12, heading3Size := 11)

  /** `build_document`: the metadata is validated first, then the sections
      are built; the header names the protocol number when it is truthy. */
  function Document(pd: Content, sections: Result<seq<Section>, string>): Result<UniversalDocument, string>
  {
    var title := WorkflowBase.GetMetadataValue(pd, "title", VStr("Clinical Study"));
    var number := WorkflowBase.GetMetadataValue(pd, "protocol_number", VStr(""));
    var sponsor := WorkflowBase.GetMetadataValue(pd, "sponsor", VStr(""));
    var n, t, s := OptionalString(number), OptionalString(title), OptionalString(sponsor);
    if n.Err? || t.Err? || s.Err? then Err("validation error: Input should be a valid string")
    else
      match sections
      case Err(e) => Err(e)
      case Ok(ss) =>
        Ok(UniversalDocument("icf", "INFORMED CONSENT FORM", DocumentMetadata(n.value, t.value, s.value),
          IcfStyling, DefaultPageSetup,
          HeaderFooter(if Truthy(number) then Some("Protocol: " + Str(number)) else None, None, true,
                       "footer_center", false),
          ss))
  }

  function BuildDocument(content: Content, pd: Content): Result<UniversalDocument, string>
  {
    Document(pd, Sections(BuiltFrom(content, pd)))
  }

  /** A built form is of type "icf", numbers its pages at the centre of
      the footer, has a "Protocol: ..." header exactly when the protocol
      number is truthy, and holds exactly the built sections. */
  lemma DocumentSpec(pd: Content, sections: Result<seq<Section>, string>)
    requires Document(pd, sections).Ok?
    ensures var doc := Document(pd, sections).value;
      var number := WorkflowBase.GetMetadataValue(pd, "protocol_number", VStr(""));
      && doc.documentType == "icf" && doc.title == "INFORMED CONSENT FORM"
      && doc.headerFooter.showPageNumbers && doc.headerFooter.pageNumberPosition == "footer_center"
      && (doc.headerFooter.headerText.Some? <==> Truthy(number))
      && (number.VStr? && number.s != "" ==> doc.headerFooter.headerText == Some("Protocol: " + number.s))
      && doc.styling.defaultFont == "Arial" && doc.styling.defaultFontSize == 11
      && doc.styling.heading1Size == 14 && doc.styling.heading2Size == 12 && doc.styling.heading3Size == 11
      && sections == Ok(doc.sections)
  {
  }

  /** A built form opens with the header and the introduction and ends
      with the contact information and the signature page, with the nine
      numbered sections between them. */
  lemma BuildDocumentSections(content: Content, pd: Content)
    requires BuildDocument(content, pd).Ok?
    ensures var ss := BuildDocument(content, pd).value.sections;
      && |ss| == 13 && ss[0] == HeaderSection(pd) && ss[1] == IntroductionSection
      && (forall k :: 0 <= k < 9 ==> ss[k + 2].id == Configs[k].id && ss[k + 2].heading == Configs[k].heading)
      && ss[11] == ContactSection && ss[12] == SignatureSection()
  {
    var b := BuiltFrom(content, pd);
    BuildersIdentified(content, pd);
    DocumentSpec(pd, Sections(b));
    SectionsShape(b);
  }
}
