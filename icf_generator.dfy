/** The template-based consent form generator: the extracted content as
    an object whose polish step merges the reply field by field, and the
    template context with the adverse events sorted into frequency
    buckets and the site details left as placeholders. */
module IcfGenerator {
  import opened Wrappers
  import opened Text
  import opened PyValue
  import opened AeBuckets

  /** The nine section texts of `ICFContent`, the fields polish rewrites. */
  datatype Texts = Texts(
    studyPurpose: Value,
    proceduresSection: Value,
    timeCommitment: Value,
    risksSection: Value,
    benefitsSection: Value,
    alternativesSection: Value,
    confidentialitySection: Value,
    compensationSection: Value,
    voluntarySection: Value)

  /** The keys of the polish request, in the order of the dataclass. */
  const TextKeys: seq<string> := [
    "study_purpose", "procedures_section", "time_commitment", "risks_section", "benefits_section",
    "alternatives_section", "confidentiality_section", "compensation_section", "voluntary_section"
  ]

  /** The field of a text key. */
  function TextField(t: Texts, key: string): Option<Value>
  {
    if key == "study_purpose" then Some(t.studyPurpose)
    else if key == "procedures_section" then Some(t.proceduresSection)
    else if key == "time_commitment" then Some(t.timeCommitment)
    else if key == "risks_section" then Some(t.risksSection)
    else if key == "benefits_section" then Some(t.benefitsSection)
    else if key == "alternatives_section" then Some(t.alternativesSection)
    else if key == "confidentiality_section" then Some(t.confidentialitySection)
    else if key == "compensation_section" then Some(t.compensationSection)
    else if key == "voluntary_section" then Some(t.voluntarySection)
    else None
  }

  /** `extracted.x = polished_dict.get("x", extracted.x)` for each of the
      nine fields. */
  function Merged(t: Texts, polished: map<string, Value>): Texts
  {
    Texts(
      Get(polished, "study_purpose", t.studyPurpose),
      Get(polished, "procedures_section", t.proceduresSection),
      Get(polished, "time_commitment", t.timeCommitment),
      Get(polished, "risks_section", t.risksSection),
      Get(polished, "benefits_section", t.benefitsSection),
      Get(polished, "alternatives_section", t.alternativesSection),
      Get(polished, "confidentiality_section", t.confidentialitySection),
      Get(polished, "compensation_section", t.compensationSection),
      Get(polished, "voluntary_section", t.voluntarySection))
  }

  /** The texts after `polish_content`: unchanged without Claude, when the
      call fails, when the reply is not JSON, and when the JSON is not a
      dict (its `get` raises before any field is set); merged otherwise.
      `decode` stands for `json.loads`. */
  function Polished(t: Texts, hasClaude: bool, reply: Result<string, string>,
                    decode: string -> Option<Value>): Texts
  {
    if !hasClaude || reply.Err? then t
    else
      match decode(reply.value)
      case Some(VDict(polished)) => Merged(t, polished)
      case _ => t
  }

  /** Each of the nine fields takes the polished value of its key, and
      keeps its own value when the reply lacks the key. */
  lemma MergedSpec(t: Texts, polished: map<string, Value>)
    ensures forall key :: key in TextKeys ==>
      TextField(t, key).Some?
      && TextField(Merged(t, polished), key) == Some(Get(polished, key, TextField(t, key).value))
    ensures forall key :: key in TextKeys && key !in polished ==> TextField(Merged(t, polished), key) == TextField(t, key)
  {
  }

  /** Merging the same reply twice changes nothing more. */
  lemma MergedIdempotent(t: Texts, polished: map<string, Value>)
    ensures Merged(Merged(t, polished), polished) == Merged(t, polished)
  {
  }

  /** A reply holding all nine keys replaces every text by its value,
      whatever the texts were before. */
  lemma FullReplyReplaces(t: Texts, u: Texts, polished: map<string, Value>)
    requires forall key :: key in TextKeys ==> key in polished
    ensures Merged(t, polished) == Merged(u, polished)
  {
    assert TextKeys[0] in polished && TextKeys[8] in polished;
    assert TextKeys[1] in polished && TextKeys[2] in polished && TextKeys[3] in polished;
    assert TextKeys[4] in polished && TextKeys[5] in polished && TextKeys[6] in polished;
    assert TextKeys[7] in polished;
  }

  /** A polish that fails anywhere leaves the texts as they were. */
  lemma FailedPolishKeeps(t: Texts, hasClaude: bool, reply: Result<string, string>, decode: string -> Option<Value>)
    requires !hasClaude || reply.Err? || !(decode(reply.value).Some? && decode(reply.value).value.VDict?)
    ensures Polished(t, hasClaude, reply, decode) == t
  {
  }

  // ---------------------------------------------------------------------
  // Adverse-event bucketing

  /** The band of a lowered frequency; the first test that matches
      decides. */
  function GeneratorBand(freq: string): Band
  {
    if Contains(freq, "very common") || Contains(freq, ">10%") then VeryCommon
    else if Contains(freq, "common") || Contains(freq, "1-10%") then Common
    else if Contains(freq, "uncommon") || Contains(freq, "<1%") then Uncommon
    else if Contains(freq, "rare") then Rare
    else UnknownBand
  }

  /** One turn of the loop of `build_template_context`: every event is
      filed; one that is not a dict has no `get`, and a frequency that is
      not a string has no `lower`, and both raise. A missing frequency is
      "Unknown". */
  function Classify(ae: Value): Result<Option<Filed>, string>
  {
    if !ae.VDict? then Err("object has no attribute 'get'")
    else
      var freq := Get(ae.fields, "frequency", VStr("Unknown"));
      if !freq.VStr? then Err("object has no attribute 'lower'")
      else Ok(Some(Filed(GeneratorBand(Lower(freq.s)), EventTerm(ae.fields))))
  }

  /** `for ae in extracted.adverse_events`: a list yields its items; a
      non-empty string or dict yields strings, whose missing `get` raises
      at the first; an empty one yields nothing; anything else is not
      iterable. */
  function EventsOf(v: Value): Result<seq<Value>, string>
  {
    match v
    case VList(xs) => Ok(xs)
    case VStr(s) => if s == "" then Ok([]) else Err("object has no attribute 'get'")
    case VDict(m) => if m == map[] then Ok([]) else Err("object has no attribute 'get'")
    case _ => Err("object is not iterable")
  }

  function Organized(v: Value): Result<Buckets, string>
  {
    match EventsOf(v)
    case Err(e) => Err(e)
    case Ok(events) => SortedFiling(Filing(events, Classify))
  }

  /** The band an event that classifies lands in. */
  function EventBand(ae: Value): Band
    requires ae.VDict? && Get(ae.fields, "frequency", VStr("Unknown")).VStr?
  {
    GeneratorBand(Lower(Get(ae.fields, "frequency", VStr("Unknown")).s))
  }

  /** `f` is how an event that classifies is filed: the event is a dict
      with a string frequency, and `f` holds the band of that frequency and
      the event's term. */
  predicate FiledAs(ae: Value, f: Filed)
  {
    ae.VDict? && Get(ae.fields, "frequency", VStr("Unknown")).VStr?
    && f == Filed(EventBand(ae), EventTerm(ae.fields))
  }

  /** No event is skipped: a successful loop files each event, in input
      order, under the band of its frequency with its plain-language term. */
  lemma {:induction false} FilingKeepsAll(events: seq<Value>)
    requires Filing(events, Classify).Ok?
    ensures var fs := Filing(events, Classify).value;
      |fs| == |events| && forall k :: 0 <= k < |events| ==> FiledAs(events[k], fs[k])
  {
    if events != [] {
      var front := events[..|events| - 1];
      FilingSnoc(events, Classify);
      FilingKeepsAll(front);
      var last := events[|events| - 1];
      ClassifyOk(last);
      var fs0 := Filing(front, Classify).value;
      assert Filing(events, Classify).value == fs0 + [Classify(last).value.value];
      assert forall k :: 0 <= k < |front| ==> front[k] == events[k];
    }
  }

  /** An event that classifies is a dict with a string frequency, and is
      filed under the band of that frequency. */
  lemma ClassifyOk(ae: Value)
    requires Classify(ae).Ok?
    ensures Classify(ae).value.Some? && FiledAs(ae, Classify(ae).value.value)
  {
  }

  /** The loop raises exactly when some event is not a dict or has a
      frequency that is not a string. */
  lemma OrganizedFailsIff(events: seq<Value>)
    ensures Organized(VList(events)).Err? <==>
      exists k :: 0 <= k < |events| &&
        (!events[k].VDict? || !Get(events[k].fields, "frequency", VStr("Unknown")).VStr?)
  {
    FilingFailsIff(events, Classify);
  }

  /** Every event lands in exactly one bucket: the buckets hold as many
      terms as there are events, and each term as often. */
  lemma OrganizedPartition(events: seq<Value>)
    requires Organized(VList(events)).Ok?
    ensures |AllBuckets(Organized(VList(events)).value)| == |events|
    ensures multiset(AllBuckets(Organized(VList(events)).value))
         == multiset(Terms(Filing(events, Classify).value))
  {
    SortedPartition(Filing(events, Classify).value);
    FilingKeepsAll(events);
  }

  /** "Unknown", lowered. */
  lemma LowerUnknown()
    ensures Lower("Unknown") == "unknown"
  {
    var r := Lower("Unknown");
    assert r[0] == 'u' && r[1] == 'n' && r[2] == 'k' && r[3] == 'n';
    assert r[4] == 'o' && r[5] == 'w' && r[6] == 'n';
  }

  /** An event without a frequency goes to the unknown bucket. */
  lemma MissingFrequencyIsUnknown(ae: map<string, Value>)
    requires "frequency" !in ae
    ensures Classify(VDict(ae)) == Ok(Some(Filed(UnknownBand, EventTerm(ae))))
  {
    assert Get(ae, "frequency", VStr("Unknown")) == VStr("Unknown");
    LowerUnknown();
    UnknownIsUnknownBand();
  }

  lemma UnknownIsUnknownBand()
    ensures GeneratorBand("unknown") == UnknownBand
  {
    MissingChar("unknown", ">10%", 0);
    MissingChar("unknown", "common", 0);
    MissingChar("unknown", "1-10%", 0);
    MissingChar("unknown", "<1%", 0);
    MissingChar("unknown", "rare", 0);
  }

  /** Quirk: "common" is tested before "uncommon", so an uncommon
      frequency that is not very common lands in the common bucket; the
      uncommon bucket is reached only through "<1%" without "common"
      or "1-10%". */
  lemma GeneratorUncommonIff(freq: string)
    ensures Contains(freq, "uncommon") && GeneratorBand(freq) != VeryCommon ==> GeneratorBand(freq) == Common
    ensures GeneratorBand(freq) == Uncommon <==>
      !Contains(freq, "very common") && !Contains(freq, ">10%") && !Contains(freq, "common")
      && !Contains(freq, "1-10%") && Contains(freq, "<1%")
  {
    if Contains(freq, "uncommon") {
      UncommonHoldsCommon(freq);
    }
  }

  // ---------------------------------------------------------------------
  // The template context

  /** The site details, each the literal placeholder of its own name. */
  const SiteFields: seq<string> := ["site_name", "pi_name", "pi_phone", "irb_name", "irb_phone", "emergency_contact"]

  function SitePlaceholders(): (m: map<string, string>)
  {
    map[
      "site_name" := "{{site_name}}",
      "pi_name" := "{{pi_name}}",
      "pi_phone" := "{{pi_phone}}",
      "irb_name" := "{{irb_name}}",
      "irb_phone" := "{{irb_phone}}",
      "emergency_contact" := "{{emergency_contact}}"]
  }

  /** Every site field is present and holds `{{` + its name + `}}`. */
  lemma SitePlaceholdersLiteral()
    ensures forall f :: f in SiteFields ==> f in SitePlaceholders() && SitePlaceholders()[f] == "{{" + f + "}}"
    ensures SitePlaceholders().Keys == set f | f in SiteFields
  {
  }

  /** The dict `build_template_context` returns: the title, the study
      fields, the nine texts (study purpose under "purpose_section"), the
      visits and events as given, the five buckets, and the site
      placeholders. */
  datatype TemplateContext = TemplateContext(
    title: string,
    studyTitle: Value,
    protocolNumber: Value,
    sponsor: Value,
    phase: Value,
    texts: Texts,
    visits: Value,
    adverseEvents: Value,
    buckets: Buckets,
    site: map<string, string>)

  function ContextOf(studyTitle: Value, protocolNumber: Value, sponsor: Value, phase: Value, texts: Texts,
                     visits: Value, adverseEvents: Value): Result<TemplateContext, string>
  {
    match Organized(adverseEvents)
    case Err(e) => Err(e)
    case Ok(b) =>
      Ok(TemplateContext("INFORMED CONSENT FORM", studyTitle, protocolNumber, sponsor, phase, texts,
        visits, adverseEvents, b, SitePlaceholders()))
  }

  // ---------------------------------------------------------------------
  // The extracted content

  /** `ICFContent`, whose polish step reassigns its text fields. */
  class IcfContent {
    var studyTitle: Value
    var protocolNumber: Value
    var sponsor: Value
    var phase: Value
    var texts: Texts
    var visits: Value
    var adverseEvents: Value

    constructor (studyTitle: Value, protocolNumber: Value, sponsor: Value, phase: Value, texts: Texts,
                 visits: Value, adverseEvents: Value)
      ensures this.studyTitle == studyTitle && this.protocolNumber == protocolNumber
      ensures this.sponsor == sponsor && this.phase == phase && this.texts == texts
      ensures this.visits == visits && this.adverseEvents == adverseEvents
    {
      this.studyTitle := studyTitle;
      this.protocolNumber := protocolNumber;
      this.sponsor := sponsor;
      this.phase := phase;
      this.texts := texts;
      this.visits := visits;
      this.adverseEvents := adverseEvents;
    }

    /** `polish_content`: only the nine texts can change. */
    method PolishContent(hasClaude: bool, reply: Result<string, string>, decode: string -> Option<Value>)
      modifies this
      ensures texts == Polished(old(texts), hasClaude, reply, decode)
      ensures studyTitle == old(studyTitle) && protocolNumber == old(protocolNumber)
      ensures sponsor == old(sponsor) && phase == old(phase)
      ensures visits == old(visits) && adverseEvents == old(adverseEvents)
    {
      if !hasClaude || reply.Err? {
        return;
      }
      var decoded := decode(reply.value);
      if decoded.None? || !decoded.value.VDict? {
        return;
      }
      var polished := decoded.value.fields;
      texts := texts.(studyPurpose := Get(polished, "study_purpose", texts.studyPurpose));
      texts := texts.(proceduresSection := Get(polished, "procedures_section", texts.proceduresSection));
      texts := texts.(timeCommitment := Get(polished, "time_commitment", texts.timeCommitment));
      texts := texts.(risksSection := Get(polished, "risks_section", texts.risksSection));
      texts := texts.(benefitsSection := Get(polished, "benefits_section", texts.benefitsSection));
      texts := texts.(alternativesSection := Get(polished, "alternatives_section", texts.alternativesSection));
      texts := texts.(confidentialitySection := Get(polished, "confidentiality_section", texts.confidentialitySection));
      texts := texts.(compensationSection := Get(polished, "compensation_section", texts.compensationSection));
      texts := texts.(voluntarySection := Get(polished, "voluntary_section", texts.voluntarySection));
    }

    /** `build_template_context`: the loop sorts the events into the five
        buckets, then the context is assembled. */
    method BuildTemplateContext() returns (r: Result<TemplateContext, string>)
      ensures r == ContextOf(studyTitle, protocolNumber, sponsor, phase, texts, visits, adverseEvents)
    {
      var events := EventsOf(adverseEvents);
      if events.Err? {
        return Err(events.error);
      }
      var buckets := SortEvents(events.value, Classify);
      if buckets.Err? {
        return Err(buckets.error);
      }
      r := Ok(TemplateContext("INFORMED CONSENT FORM", studyTitle, protocolNumber, sponsor, phase, texts,
        visits, adverseEvents, buckets.value, SitePlaceholders()));
    }
  }
}
