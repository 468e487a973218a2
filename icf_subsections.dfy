/** The ICF subsection registry: the thirty-one subsection definitions,
    their rendering order, dotted look-ups into protocol data, skip
    conditions and the adverse-event frequency filters. The operations take
    the definitions as a value; the lemmas at the end of the module are
    about the registry itself, `Registry`. */
module IcfSubsections {
  import opened Wrappers
  import opened Text
  import opened PyValue

  /** One entry of `skip_conditions`: skip when the value found at `path`
      is one of `values`. */
  datatype SkipCondition = SkipCondition(path: string, values: seq<Value>)

  /** The subsections that carry fallback content; the text itself is
      `FallbackText`. */
  datatype FallbackKey =
    | InvitationToParticipate
    | IntroductionPreamble
    | StudyPurposeOverview
    | StudyPurposeLearnings
    | EligibilityWhyAsked
    | EnrollmentNumbers
    | ProceduresOverview
    | ProceduresVisits
    | ProceduresTests
    | ProceduresRandomization
    | ProceduresStudyDrug
    | TimeVisitsSchedule
    | TimeTotalDuration
    | RisksIntroduction
    | RisksUnknown
    | RisksPregnancy
    | RisksProcedures
    | Benefits
    | Alternatives
    | CostsToParticipant
    | PaymentToParticipant
    | Confidentiality
    | CompensationInjury
    | ParticipantRights
    | VoluntaryParticipation

  /** `SubsectionDefinition`, without the title and parent section, which
      only label prompts. The order is kept in tenths (the source uses 1.5,
      4.6, 20.5 and the like), which preserves every comparison. Of
      `validation_rules` only the `frequency_filter` entry is ever read. */
  datatype SubsectionDefinition = SubsectionDefinition(
    id: string,
    order: int,
    requiredFields: seq<string>,
    frequencyFilter: Option<string>,
    maxParagraphs: int,
    fallback: Option<FallbackKey>,
    skipConditions: seq<SkipCondition>)

  /** The registry, in the source's insertion order. */
  const Registry: seq<SubsectionDefinition> := [
    SubsectionDefinition("document_header", 10, ["metadata.title", "metadata.protocol_number", "metadata.sponsor"],
      None, 0, None, []),
    SubsectionDefinition("invitation_to_participate", 15, ["metadata.title", "investigational_product.name"],
      None, 2, Some(InvitationToParticipate), []),
    SubsectionDefinition("introduction_preamble", 20, [],
      None, 2, Some(IntroductionPreamble), []),
    SubsectionDefinition("contact_information", 230, [],
      None, 0, None, []),
    SubsectionDefinition("signature_page", 240, [],
      None, 0, None, []),
    SubsectionDefinition("study_purpose_overview", 30, ["investigational_product.name", "metadata.indication", "metadata.phase", "design.study_type"],
      None, 3, Some(StudyPurposeOverview), []),
    SubsectionDefinition("study_purpose_learnings", 40, ["endpoints.primary", "design.planned_enrollment"],
      None, 2, Some(StudyPurposeLearnings), []),
    SubsectionDefinition("eligibility_why_asked", 45, ["eligibility.inclusion", "metadata.indication"],
      None, 2, Some(EligibilityWhyAsked), []),
    SubsectionDefinition("enrollment_numbers", 46, ["design.planned_enrollment"],
      None, 1, Some(EnrollmentNumbers), []),
    SubsectionDefinition("procedures_overview", 50, ["design.study_type", "design.planned_enrollment"],
      None, 2, Some(ProceduresOverview), []),
    SubsectionDefinition("procedures_visits", 60, ["visits", "design.study_duration_weeks"],
      None, 3, Some(ProceduresVisits), []),
    SubsectionDefinition("procedures_tests", 70, ["procedures"],
      None, 3, Some(ProceduresTests), []),
    SubsectionDefinition("procedures_randomization", 80, ["design.blinding", "design.control", "design.arms"],
      None, 2, Some(ProceduresRandomization), [SkipCondition("design.blinding", [VStr("open"), VNone])]),
    SubsectionDefinition("procedures_study_drug", 90, ["investigational_product.name", "investigational_product.route", "investigational_product.dose", "investigational_product.frequency"],
      None, 2, Some(ProceduresStudyDrug), []),
    SubsectionDefinition("time_visits_schedule", 100, ["visits", "design.study_duration_weeks"],
      None, 2, Some(TimeVisitsSchedule), []),
    SubsectionDefinition("time_total_duration", 110, ["design.study_duration_weeks"],
      None, 2, Some(TimeTotalDuration), []),
    SubsectionDefinition("risks_introduction", 120, ["investigational_product.name", "design.study_type"],
      None, 2, Some(RisksIntroduction), []),
    SubsectionDefinition("risks_very_common", 130, ["adverse_events"],
      Some(">10%"), 1, None, [SkipCondition("adverse_events_filtered", [VStr("empty")])]),
    SubsectionDefinition("risks_common", 140, ["adverse_events"],
      Some("1-10%"), 1, None, [SkipCondition("adverse_events_filtered", [VStr("empty")])]),
    SubsectionDefinition("risks_uncommon", 150, ["adverse_events"],
      Some("<1%"), 1, None, [SkipCondition("adverse_events_filtered", [VStr("empty")])]),
    SubsectionDefinition("risks_unknown", 160, ["investigational_product.name", "metadata.phase"],
      None, 2, Some(RisksUnknown), []),
    SubsectionDefinition("risks_pregnancy", 170, ["eligibility.sex", "eligibility.exclusion"],
      None, 3, Some(RisksPregnancy), [SkipCondition("eligibility.sex", [VStr("Male")])]),
    SubsectionDefinition("risks_procedures", 180, ["procedures"],
      None, 2, Some(RisksProcedures), []),
    SubsectionDefinition("benefits", 190, ["investigational_product.name", "metadata.indication"],
      None, 3, Some(Benefits), []),
    SubsectionDefinition("alternatives", 200, ["metadata.indication"],
      None, 2, Some(Alternatives), []),
    SubsectionDefinition("costs_to_participant", 205, ["metadata.sponsor"],
      None, 2, Some(CostsToParticipant), []),
    SubsectionDefinition("payment_to_participant", 206, [],
      None, 2, Some(PaymentToParticipant), []),
    SubsectionDefinition("confidentiality", 210, ["metadata.sponsor"],
      None, 3, Some(Confidentiality), []),
    SubsectionDefinition("compensation_injury", 220, ["metadata.sponsor"],
      None, 3, Some(CompensationInjury), []),
    SubsectionDefinition("participant_rights", 245, [],
      None, 3, Some(ParticipantRights), []),
    SubsectionDefinition("voluntary_participation", 250, [],
      None, 3, Some(VoluntaryParticipation), [])
  ]

  /** The fallback content of each subsection that has one. */
  function FallbackText(k: FallbackKey): string
  {
    match k
    case InvitationToParticipate =>
      "You are invited to take part in a research study. Before you decide whether to participate, please read this form carefully. Ask questions about anything you do not understand."
    case IntroductionPreamble =>
      "You are being asked to take part in a research study. This form gives you important information about the study. Please read it carefully and take your time. Ask your study doctor or study staff to explain anything you do not understand. You can ask questions at any time. Taking part in this study is your choice."
    case StudyPurposeOverview =>
      "This research study is being done to learn about an investigational treatment for your condition. The study will help researchers understand if the treatment is safe and works well.\n\nResearch studies help doctors learn new ways to treat diseases. You do not have to join this study to get treatment for your condition."
    case StudyPurposeLearnings =>
      "The study will help researchers learn if the treatment works and is safe. The information learned may help other people in the future."
    case EligibilityWhyAsked =>
      "You have been asked to participate because you meet the requirements for this study. Your study doctor can explain why you may be eligible for this research."
    case EnrollmentNumbers =>
      "This study will include people at multiple sites. Your study doctor can tell you how many people are expected to join."
    case ProceduresOverview =>
      "During this study, you will have regular visits with the study team. At these visits, the study team will check your health and see how the treatment is working."
    case ProceduresVisits =>
      "You will need to come to the study site for visits as scheduled by your study team. The study team will give you a schedule of your visits."
    case ProceduresTests =>
      "At each visit, we will do some tests to check your health. These may include blood tests, physical exams, and other tests. The study team will explain each test before it is done."
    case ProceduresRandomization =>
      "You will be assigned to a treatment group by chance. This is like flipping a coin. You will have an equal chance of being in any group."
    case ProceduresStudyDrug =>
      "You will take the study treatment as directed by the study team. The study team will tell you how and when to take it."
    case TimeVisitsSchedule =>
      "You will need to come to the study site for several visits. Each visit may take several hours."
    case TimeTotalDuration =>
      "This study will last several months. The study team will tell you exactly how long you will be in the study."
    case RisksIntroduction =>
      "Like all treatments, this study treatment may cause side effects. A side effect is something unwanted that happens during the study. Your study doctor will watch you closely for any side effects."
    case RisksUnknown =>
      "This is an investigational treatment. There may be side effects or risks that we do not know about yet. You will be told about any new information that might affect your decision to stay in the study."
    case RisksPregnancy =>
      "If you are a woman who could become pregnant, you must use effective birth control during the study. Tell your study doctor right away if you become pregnant."
    case RisksProcedures =>
      "The study procedures may cause some discomfort. Your study doctor will explain the risks of each procedure before it is done."
    case Benefits =>
      "You may or may not benefit from being in this study. We do not know if the study treatment will help you. The information we learn from this study may help other people in the future."
    case Alternatives =>
      "Instead of being in this study, you could choose standard treatment from your doctor, treatment in a different research study, or no treatment. Your doctor can explain these options and help you decide what is best for you."
    case CostsToParticipant =>
      "There is no cost to you for taking part in this study. The study sponsor will pay for the study drug and study-related tests. You will still need to pay for your regular medical care and any treatments not related to the study."
    case PaymentToParticipant =>
      "You will not be paid for taking part in this study. However, you may receive compensation for travel expenses or time. Your study team will provide you with details about any compensation available."
    case Confidentiality =>
      "We will keep your information private. Your name will not appear in any reports about this study. Only people who work on this study will see your information. We will use a code number instead of your name on study records."
    case CompensationInjury =>
      "If you are injured as a result of being in this study, medical treatment is available. Please contact your study doctor right away if you have any problems. Ask your study team for more details about compensation for study-related injuries."
    case ParticipantRights =>
      "As a research participant, you have rights. You have the right to ask questions at any time. You have the right to leave the study at any time. You have the right to receive information about the study results when they are available. You do not give up any legal rights by signing this form."
    case VoluntaryParticipation =>
      "Taking part in this study is your choice. You may decide not to take part or may leave the study at any time. Your decision will not affect your regular medical care. You will still receive the care you need. If you decide to stop being in the study, please tell your study doctor."
  }

  /** `subsection.fallback_content`, as Python sees it. */
  function FallbackContent(d: SubsectionDefinition): Option<string>
  {
    match d.fallback
    case None => None
    case Some(k) => Some(FallbackText(k))
  }

  // ---------------------------------------------------------------------
  // Look-up and order

  /** `self.subsections.get(subsection_id)`. */
  function GetSubsection(defs: seq<SubsectionDefinition>, id: string): (r: Option<SubsectionDefinition>)
    ensures r.Some? ==> r.value in defs && r.value.id == id
    ensures r.None? ==> forall k :: 0 <= k < |defs| ==> defs[k].id != id
  {
    if defs == [] then None
    else if defs[0].id == id then Some(defs[0])
    else GetSubsection(defs[1..], id)
  }

  /** Place `d` before the first definition whose order is not smaller:
      with equal orders the earlier definition stays first, as Python's
      stable `sorted` keeps it. */
  function InsertByOrder(d: SubsectionDefinition, xs: seq<SubsectionDefinition>): seq<SubsectionDefinition>
  {
    if xs == [] then [d]
    else if d.order <= xs[0].order then [d] + xs
    else [xs[0]] + InsertByOrder(d, xs[1..])
  }

  /** `sorted(self.subsections.values(), key=lambda s: s.order)`. */
  function GetOrderedSubsections(defs: seq<SubsectionDefinition>): seq<SubsectionDefinition>
  {
    if defs == [] then [] else InsertByOrder(defs[0], GetOrderedSubsections(defs[1..]))
  }

  predicate SortedByOrder(xs: seq<SubsectionDefinition>)
  {
    forall i, j :: 0 <= i < j < |xs| ==> xs[i].order <= xs[j].order
  }

  predicate StrictlyByOrder(xs: seq<SubsectionDefinition>)
  {
    forall i, j :: 0 <= i < j < |xs| ==> xs[i].order < xs[j].order
  }

  /** No two definitions share an order value. */
  predicate OrdersDistinct(xs: seq<SubsectionDefinition>)
  {
    forall i, j :: 0 <= i < j < |xs| ==> xs[i].order != xs[j].order
  }

  /** Every order in the list is at least `m`. */
  predicate OrdersAtLeast(xs: seq<SubsectionDefinition>, m: int)
  {
    forall k :: 0 <= k < |xs| ==> m <= xs[k].order
  }

  /** Every order in the list differs from `o`. */
  predicate AvoidsOrder(xs: seq<SubsectionDefinition>, o: int)
  {
    forall k :: 0 <= k < |xs| ==> xs[k].order != o
  }

  lemma {:induction false} InsertKeepsBound(d: SubsectionDefinition, xs: seq<SubsectionDefinition>, m: int)
    requires m <= d.order && OrdersAtLeast(xs, m)
    ensures OrdersAtLeast(InsertByOrder(d, xs), m)
  {
    if xs != [] && d.order > xs[0].order {
      InsertKeepsBound(d, xs[1..], m);
    }
  }

  lemma {:induction false} InsertKeepsAvoid(d: SubsectionDefinition, xs: seq<SubsectionDefinition>, o: int)
    requires d.order != o && AvoidsOrder(xs, o)
    ensures AvoidsOrder(InsertByOrder(d, xs), o)
  {
    if xs != [] && d.order > xs[0].order {
      InsertKeepsAvoid(d, xs[1..], o);
    }
  }

  lemma {:induction false} InsertKeepsSorted(d: SubsectionDefinition, xs: seq<SubsectionDefinition>)
    requires SortedByOrder(xs)
    ensures SortedByOrder(InsertByOrder(d, xs))
  {
    if xs != [] && d.order > xs[0].order {
      InsertKeepsSorted(d, xs[1..]);
      InsertKeepsBound(d, xs[1..], xs[0].order);
    }
  }

  lemma {:induction false} InsertKeepsStrict(d: SubsectionDefinition, xs: seq<SubsectionDefinition>)
    requires StrictlyByOrder(xs) && AvoidsOrder(xs, d.order)
    ensures StrictlyByOrder(InsertByOrder(d, xs))
  {
    if xs != [] && d.order > xs[0].order {
      InsertKeepsStrict(d, xs[1..]);
      InsertKeepsBound(d, xs[1..], xs[0].order + 1);
    }
  }

  lemma {:induction false} InsertKeepsElements(d: SubsectionDefinition, xs: seq<SubsectionDefinition>)
    ensures multiset(InsertByOrder(d, xs)) == multiset(xs) + multiset{d}
  {
    if xs != [] && d.order > xs[0].order {
      InsertKeepsElements(d, xs[1..]);
      assert xs == [xs[0]] + xs[1..];
    }
  }

  /** The ordered list is sorted by ascending order. */
  lemma {:induction false} OrderedIsSorted(defs: seq<SubsectionDefinition>)
    ensures SortedByOrder(GetOrderedSubsections(defs))
  {
    if defs != [] {
      OrderedIsSorted(defs[1..]);
      InsertKeepsSorted(defs[0], GetOrderedSubsections(defs[1..]));
    }
  }

  /** The ordered list holds every definition exactly as often as the
      registry does. */
  lemma {:induction false} OrderedIsPermutation(defs: seq<SubsectionDefinition>)
    ensures multiset(GetOrderedSubsections(defs)) == multiset(defs)
  {
    if defs != [] {
      OrderedIsPermutation(defs[1..]);
      InsertKeepsElements(defs[0], GetOrderedSubsections(defs[1..]));
      assert defs == [defs[0]] + defs[1..];
    }
  }

  lemma {:induction false} OrderedAvoids(defs: seq<SubsectionDefinition>, o: int)
    requires AvoidsOrder(defs, o)
    ensures AvoidsOrder(GetOrderedSubsections(defs), o)
  {
    if defs != [] {
      OrderedAvoids(defs[1..], o);
      InsertKeepsAvoid(defs[0], GetOrderedSubsections(defs[1..]), o);
    }
  }

  /** Without ties, the order is strictly ascending. */
  lemma {:induction false} OrderedStrictly(defs: seq<SubsectionDefinition>)
    requires OrdersDistinct(defs)
    ensures StrictlyByOrder(GetOrderedSubsections(defs))
  {
    if defs != [] {
      var tail := defs[1..];
      assert OrdersDistinct(tail) by {
        forall i, j | 0 <= i < j < |tail| ensures tail[i].order != tail[j].order {
          assert tail[i] == defs[i + 1] && tail[j] == defs[j + 1];
        }
      }
      assert AvoidsOrder(tail, defs[0].order) by {
        forall k | 0 <= k < |tail| ensures tail[k].order != defs[0].order {
          assert tail[k] == defs[k + 1];
        }
      }
      OrderedStrictly(tail);
      OrderedAvoids(tail, defs[0].order);
      InsertKeepsStrict(defs[0], GetOrderedSubsections(tail));
    }
  }

  // ---------------------------------------------------------------------
  // Dotted look-up

  /** `_get_nested_value` on the keys of the path: follow one key per step
      through dicts, and give up with `None` at a non-dict, a missing key
      or a `None` value. */
  function NestedValue(v: Value, keys: seq<string>): Value
  {
    if keys == [] then v
    else if v.VDict? && keys[0] in v.fields && v.fields[keys[0]] != VNone then
      NestedValue(v.fields[keys[0]], keys[1..])
    else VNone
  }

  /** The loop of `_get_nested_value`, reassigning `value` key by key. */
  method GetNestedValue(data: map<string, Value>, path: string) returns (r: Value)
    ensures r == NestedValue(VDict(data), Split(path, "."))
  {
    var keys := Split(path, ".");
    var value := VDict(data);
    var i := 0;
    while i < |keys|
      invariant 0 <= i <= |keys|
      invariant NestedValue(VDict(data), keys) == NestedValue(value, keys[i..])
    {
      assert keys[i..][0] == keys[i] && keys[i..][1..] == keys[i + 1..];
      if value.VDict? {
        value := Get(value.fields, keys[i], VNone);
        if value == VNone {
          return VNone;
        }
      } else {
        return VNone;
      }
      i := i + 1;
    }
    assert keys[i..] == [];
    return value;
  }

  /** A walk along `a + b` is the walk along `a`, continued along `b`
      unless it already gave up. */
  lemma {:induction false} NestedValueAppend(v: Value, a: seq<string>, b: seq<string>)
    ensures NestedValue(v, a + b) ==
      if a != [] && NestedValue(v, a) == VNone then VNone else NestedValue(NestedValue(v, a), b)
  {
    if a != [] {
      assert (a + b)[0] == a[0] && (a + b)[1..] == a[1..] + b;
      if v.VDict? && a[0] in v.fields && v.fields[a[0]] != VNone {
        NestedValueAppend(v.fields[a[0]], a[1..], b);
      }
    } else {
      assert a + b == b;
    }
  }

  /** A value stored two levels down is found; `None` is found for a
      missing outer key. */
  lemma NestedValueTwoLevels(data: map<string, Value>, outer: string, inner: string)
    ensures outer !in data ==> NestedValue(VDict(data), [outer, inner]) == VNone
    ensures outer in data && data[outer].VDict? && inner in data[outer].fields ==>
      NestedValue(VDict(data), [outer, inner]) == data[outer].fields[inner]
    ensures outer in data && data[outer].VDict? && inner !in data[outer].fields ==>
      NestedValue(VDict(data), [outer, inner]) == VNone
  {
    assert [outer, inner][1..] == [inner] && [inner][1..] == [];
    if outer in data && data[outer].VDict? && inner in data[outer].fields {
      assert NestedValue(VDict(data), [outer, inner]) == NestedValue(data[outer], [inner]);
    }
  }

  // ---------------------------------------------------------------------
  // Skip conditions

  /** `value in skip_values` for the value found at the condition's path. */
  predicate ConditionHolds(c: SkipCondition, data: map<string, Value>)
  {
    NestedValue(VDict(data), Split(c.path, ".")) in c.values
  }

  /** `should_skip`: an unknown id or one without conditions never skips;
      otherwise skip iff some condition holds. */
  predicate Skips(defs: seq<SubsectionDefinition>, id: string, data: map<string, Value>)
  {
    match GetSubsection(defs, id)
    case None => false
    case Some(d) => exists k :: 0 <= k < |d.skipConditions| && ConditionHolds(d.skipConditions[k], data)
  }

  /** The loop of `should_skip`, returning at the first condition that
      holds. */
  method ShouldSkip(defs: seq<SubsectionDefinition>, id: string, data: map<string, Value>) returns (skip: bool)
    ensures skip == Skips(defs, id, data)
  {
    var d := GetSubsection(defs, id);
    if d.None? || d.value.skipConditions == [] {
      return false;
    }
    var conds := d.value.skipConditions;
    for k := 0 to |conds|
      invariant forall j :: 0 <= j < k ==> !ConditionHolds(conds[j], data)
    {
      var value := GetNestedValue(data, conds[k].path);
      if value in conds[k].values {
        return true;
      }
    }
    return false;
  }

  /** A definition whose only condition is `path: values`. */
  lemma SingleCondition(defs: seq<SubsectionDefinition>, id: string, data: map<string, Value>, c: SkipCondition)
    requires GetSubsection(defs, id).Some? && GetSubsection(defs, id).value.skipConditions == [c]
    ensures Skips(defs, id, data) <==> NestedValue(VDict(data), Split(c.path, ".")) in c.values
  {
    if ConditionHolds(c, data) {
      assert GetSubsection(defs, id).value.skipConditions[0] == c;
    }
  }

  // ---------------------------------------------------------------------
  // Adverse-event frequency filters

  /** Some `f"{p}%"` with 11 <= p <= 100 occurs in the text. */
  predicate PercentAboveTen(freq: string)
  {
    exists p | 11 <= p <= 100 :: Contains(freq, NatToString(p) + "%")
  }

  /** Whether an event with the (lower-cased) frequency text passes the
      filter; an unrecognised filter passes nothing. */
  predicate KeepsFrequency(filter: string, freq: string)
  {
    if filter == ">10%" then
      Contains(freq, "very common") || Contains(freq, ">10%") || PercentAboveTen(freq)
    else if filter == "1-10%" then
      (Contains(freq, "common") && !Contains(freq, "very")) || Contains(freq, "1-10%")
    else if filter == "<1%" then
      Contains(freq, "uncommon") || Contains(freq, "<1%") || Contains(freq, "0.")
    else false
  }

  /** `(ae.get("frequency", "") or "").lower()`, with the two ways it
      raises: the event is not a dict, or a truthy frequency is not a
      string. */
  function FrequencyText(ae: Value): Result<string, string>
  {
    if !ae.VDict? then Err("AttributeError: object has no attribute 'get'")
    else
      var f := Get(ae.fields, "frequency", VStr(""));
      if !Truthy(f) then Ok("")
      else if f.VStr? then Ok(Lower(f.s))
      else Err("AttributeError: object has no attribute 'lower'")
  }

  /** The events the loop appends, or the first error it raises. */
  function FilteredEvents(events: seq<Value>, filter: string): Result<seq<Value>, string>
  {
    if events == [] then Ok([])
    else
      match FilteredEvents(events[..|events| - 1], filter)
      case Err(e) => Err(e)
      case Ok(kept) =>
        var ae := events[|events| - 1];
        match FrequencyText(ae)
        case Err(e) => Err(e)
        case Ok(freq) => Ok(if KeepsFrequency(filter, freq) then kept + [ae] else kept)
  }

  /** `_filter_adverse_events` on whatever value sits under
      "adverse_events": a falsy value gives []; a list is filtered; any
      other truthy value cannot be iterated as a list of dicts and raises. */
  function FilterAdverseEventsSpec(events: Value, filter: string): Result<seq<Value>, string>
  {
    if !Truthy(events) then Ok([])
    else if events.VList? then FilteredEvents(events.items, filter)
    else Err("AttributeError: adverse events are not a list of dicts")
  }

  method FilterAdverseEvents(events: Value, filter: string) returns (r: Result<seq<Value>, string>)
    ensures r == FilterAdverseEventsSpec(events, filter)
  {
    if !Truthy(events) {
      return Ok([]);
    }
    if !events.VList? {
      return Err("AttributeError: adverse events are not a list of dicts");
    }
    var items := events.items;
    var filtered: seq<Value> := [];
    for i := 0 to |items|
      invariant FilteredEvents(items[..i], filter) == Ok(filtered)
    {
      assert items[..i + 1][..i] == items[..i];
      var freq := FrequencyText(items[i]);
      if freq.Err? {
        ErrorStops(items, i + 1, filter);
        return Err(freq.error);
      }
      if KeepsFrequency(filter, freq.value) {
        filtered := filtered + [items[i]];
      }
    }
    assert items[..|items|] == items;
    return Ok(filtered);
  }

  /** `xs` is `ys` with some elements left out, the rest in order. */
  predicate IsSubsequence(xs: seq<Value>, ys: seq<Value>)
    decreases |ys|
  {
    if xs == [] then true
    else if ys == [] then false
    else if xs[|xs| - 1] == ys[|ys| - 1] then IsSubsequence(xs[..|xs| - 1], ys[..|ys| - 1])
    else IsSubsequence(xs, ys[..|ys| - 1])
  }

  lemma {:induction false} SubsequenceDropLast(xs: seq<Value>, ys: seq<Value>)
    requires xs != [] && IsSubsequence(xs, ys)
    ensures IsSubsequence(xs[..|xs| - 1], ys)
    decreases |ys|, 0
  {
    var xs' := xs[..|xs| - 1];
    if xs' != [] {
      var ys' := ys[..|ys| - 1];
      if xs[|xs| - 1] != ys[|ys| - 1] {
        SubsequenceDropLast(xs, ys');
      }
      SubsequenceExtend(xs', ys', ys[|ys| - 1]);
      assert ys' + [ys[|ys| - 1]] == ys;
    }
  }

  /** Extending the larger list keeps the relation. */
  lemma {:induction false} SubsequenceExtend(xs: seq<Value>, ys: seq<Value>, y: Value)
    requires IsSubsequence(xs, ys)
    ensures IsSubsequence(xs, ys + [y])
    decreases |ys|, 1
  {
    assert (ys + [y])[..|ys|] == ys;
    if xs != [] && xs[|xs| - 1] == y {
      SubsequenceDropLast(xs, ys);
    }
  }

  /** Extending both lists by the same element keeps the relation. */
  lemma SubsequenceSnoc(xs: seq<Value>, ys: seq<Value>, y: Value)
    requires IsSubsequence(xs, ys)
    ensures IsSubsequence(xs + [y], ys + [y])
  {
    assert (xs + [y])[..|xs|] == xs && (ys + [y])[..|ys|] == ys;
  }

  /** Once a prefix raises, the whole loop raises the same error. */
  lemma {:induction false} ErrorStops(events: seq<Value>, n: nat, filter: string)
    requires n <= |events| && FilteredEvents(events[..n], filter).Err?
    ensures FilteredEvents(events, filter) == FilteredEvents(events[..n], filter)
    decreases |events| - n
  {
    if n < |events| {
      var front := events[..|events| - 1];
      assert front[..n] == events[..n];
      ErrorStops(front, n, filter);
    } else {
      assert events[..n] == events;
    }
  }

  /** What passes the filter is an order-preserving sub-list of the input,
      and every event kept is a dict whose frequency passes. */
  lemma {:induction false} FilteredEventsSpec(events: seq<Value>, filter: string)
    requires FilteredEvents(events, filter).Ok?
    ensures IsSubsequence(FilteredEvents(events, filter).value, events)
    ensures forall k :: 0 <= k < |FilteredEvents(events, filter).value| ==>
      var ae := FilteredEvents(events, filter).value[k];
      FrequencyText(ae).Ok? && KeepsFrequency(filter, FrequencyText(ae).value)
  {
    if events != [] {
      var front, ae := events[..|events| - 1], events[|events| - 1];
      FilteredEventsSpec(front, filter);
      var kept := FilteredEvents(front, filter).value;
      assert events == front + [ae];
      SubsequenceExtend(kept, front, ae);
      SubsequenceSnoc(kept, front, ae);
    }
  }

  /** An unrecognised filter keeps nothing (dicts still have their
      frequency read, so a non-dict still raises). */
  lemma {:induction false} UnknownFilterKeepsNothing(events: seq<Value>, filter: string)
    requires filter != ">10%" && filter != "1-10%" && filter != "<1%"
    requires FilteredEvents(events, filter).Ok?
    ensures FilteredEvents(events, filter).value == []
  {
    if events != [] {
      UnknownFilterKeepsNothing(events[..|events| - 1], filter);
    }
  }

  /** The "1-10%" filter also keeps "uncommon" events: "uncommon" contains
      "common", and nothing in it says "very". */
  lemma UncommonPassesCommonFilter(freq: string)
    requires Contains(freq, "uncommon") && !Contains(freq, "very")
    ensures KeepsFrequency("1-10%", freq)
  {
    var j :| 0 <= j <= |freq| - |"uncommon"| && OccursAt(freq, "uncommon", j);
    assert freq[j + 2..j + 8] == freq[j..j + 8][2..];
    assert OccursAt(freq, "common", j + 2);
  }

  /** A frequency text that says "very common" passes the ">10%" filter. */
  lemma VeryCommonIsVeryCommon(freq: string)
    requires Contains(freq, "very common")
    ensures KeepsFrequency(">10%", freq)
  {
  }

  // ---------------------------------------------------------------------
  // Relevant data

  /** `field_path.split(".")[-1]`. */
  function LastSegment(path: string): string
  {
    var parts := Split(path, ".");
    parts[|parts| - 1]
  }

  /** The dict the loop of `extract_relevant_data` builds from the
      required fields: the last path segment maps to the value found,
      when it is not `None`; a later path overwrites an earlier one. */
  function Collected(paths: seq<string>, data: map<string, Value>): map<string, Value>
  {
    if paths == [] then map[]
    else
      var m := Collected(paths[..|paths| - 1], data);
      var p := paths[|paths| - 1];
      var v := NestedValue(VDict(data), Split(p, "."));
      if v != VNone then m[LastSegment(p) := v] else m
  }

  /** `extract_relevant_data`: {} for an unknown id; the collected fields;
      adverse events filtered when a frequency filter is configured. */
  function RelevantData(defs: seq<SubsectionDefinition>, id: string, data: map<string, Value>): Result<map<string, Value>, string>
  {
    match GetSubsection(defs, id)
    case None => Ok(map[])
    case Some(d) =>
      var relevant := Collected(d.requiredFields, data);
      if "adverse_events" in relevant && d.frequencyFilter.Some? && d.frequencyFilter.value != "" then
        match FilterAdverseEventsSpec(relevant["adverse_events"], d.frequencyFilter.value)
        case Err(e) => Err(e)
        case Ok(kept) => Ok(relevant["adverse_events" := VList(kept)])
      else Ok(relevant)
  }

  method ExtractRelevantData(defs: seq<SubsectionDefinition>, id: string, data: map<string, Value>)
    returns (r: Result<map<string, Value>, string>)
    ensures r == RelevantData(defs, id, data)
  {
    var d := GetSubsection(defs, id);
    if d.None? {
      return Ok(map[]);
    }
    var paths := d.value.requiredFields;
    var relevant: map<string, Value> := map[];
    for i := 0 to |paths|
      invariant relevant == Collected(paths[..i], data)
    {
      assert paths[..i + 1][..i] == paths[..i];
      var value := GetNestedValue(data, paths[i]);
      if value != VNone {
        relevant := relevant[LastSegment(paths[i]) := value];
      }
    }
    assert paths[..|paths|] == paths;
    var filter := d.value.frequencyFilter;
    if "adverse_events" in relevant && filter.Some? && filter.value != "" {
      var kept := FilterAdverseEvents(relevant["adverse_events"], filter.value);
      if kept.Err? {
        return Err(kept.error);
      }
      relevant := relevant["adverse_events" := VList(kept.value)];
    }
    return Ok(relevant);
  }

  /** Every collected value is one that was found. */
  lemma {:induction false} CollectedValuesFound(paths: seq<string>, data: map<string, Value>)
    ensures forall k :: k in Collected(paths, data) ==> Collected(paths, data)[k] != VNone
  {
    if paths != [] {
      CollectedValuesFound(paths[..|paths| - 1], data);
    }
  }

  /** Every collected key is the last segment of a required path, and its
      value is the value found at that path. */
  lemma {:induction false} CollectedKeyOrigin(paths: seq<string>, data: map<string, Value>, k: string)
    requires k in Collected(paths, data)
    ensures exists i :: (0 <= i < |paths| && LastSegment(paths[i]) == k &&
      Collected(paths, data)[k] == NestedValue(VDict(data), Split(paths[i], ".")))
  {
    var front, p := paths[..|paths| - 1], paths[|paths| - 1];
    var v := NestedValue(VDict(data), Split(p, "."));
    if v != VNone && LastSegment(p) == k {
      assert LastSegment(paths[|paths| - 1]) == k;
    } else {
      CollectedKeyOrigin(front, data, k);
      var i :| 0 <= i < |front| && LastSegment(front[i]) == k &&
        Collected(front, data)[k] == NestedValue(VDict(data), Split(front[i], "."));
      assert paths[i] == front[i];
    }
  }

  /** A path whose value is found always contributes its last segment. */
  lemma {:induction false} CollectedHasFound(paths: seq<string>, data: map<string, Value>, i: nat)
    requires i < |paths| && NestedValue(VDict(data), Split(paths[i], ".")) != VNone
    ensures LastSegment(paths[i]) in Collected(paths, data)
  {
    var front := paths[..|paths| - 1];
    if i < |paths| - 1 {
      assert front[i] == paths[i];
      CollectedHasFound(front, data, i);
    }
  }

  /** An id the registry does not know gives the empty dict. */
  lemma RelevantDataUnknownId(defs: seq<SubsectionDefinition>, id: string, data: map<string, Value>)
    requires forall k :: 0 <= k < |defs| ==> defs[k].id != id
    ensures RelevantData(defs, id, data) == Ok(map[])
  {
  }

  /** Without a frequency filter, the relevant data is exactly what was
      collected. */
  lemma RelevantDataUnfiltered(defs: seq<SubsectionDefinition>, id: string, data: map<string, Value>)
    requires GetSubsection(defs, id).Some? && GetSubsection(defs, id).value.frequencyFilter.None?
    ensures RelevantData(defs, id, data) == Ok(Collected(GetSubsection(defs, id).value.requiredFields, data))
  {
  }

  // ---------------------------------------------------------------------
  // The registry itself

  /** A path cut at its one dot. */
  lemma SplitAtChar(a: string, b: string, c: char)
    requires c !in a && c !in b
    ensures Split(a + [c] + b, [c]) == [a, b]
  {
    var s := a + [c] + b;
    assert s[|a|..|a| + 1] == [c];
    assert forall j :: 0 <= j < |a| ==> !OccursAt(s, [c], j) by {
      forall j | 0 <= j < |a| ensures !OccursAt(s, [c], j) {
        assert s[j..j + 1][0] == a[j];
      }
    }
    assert OccursAt(s, [c], |a|);
    var k := IndexOf(s, [c]);
    assert k >= 0 && k <= |a|;
    assert k == |a|;
    assert s[..|a|] == a && s[|a| + 1..] == b;
    SplitWithoutChar(b, c);
  }

  /** A path without a dot is a single key. */
  lemma SplitWithoutChar(a: string, c: char)
    requires c !in a
    ensures Split(a, [c]) == [a]
  {
    forall j | 0 <= j && j + 1 <= |a| ensures !OccursAt(a, [c], j) {
      assert a[j..j + 1][0] == a[j];
    }
    SplitNoSeparator(a, [c]);
  }

  /** The look-up finds the first definition with the id. */
  lemma {:induction false} GetSubsectionAt(defs: seq<SubsectionDefinition>, k: nat, id: string)
    requires k < |defs| && defs[k].id == id
    requires forall j :: 0 <= j < k ==> defs[j].id != id
    ensures GetSubsection(defs, id) == Some(defs[k])
  {
    if k > 0 {
      assert forall j :: 0 <= j < k - 1 ==> defs[1..][j] == defs[j + 1];
      GetSubsectionAt(defs[1..], k - 1, id);
    }
  }

  /** A definition whose order is below every other comes first in the
      rendering order. */
  lemma OrderedFirst(defs: seq<SubsectionDefinition>, m: nat)
    requires m < |defs|
    requires forall k :: 0 <= k < |defs| && k != m ==> defs[m].order < defs[k].order
    ensures |GetOrderedSubsections(defs)| == |defs|
    ensures GetOrderedSubsections(defs)[0] == defs[m]
  {
    var o := GetOrderedSubsections(defs);
    OrderedIsSorted(defs);
    OrderedIsPermutation(defs);
    assert |multiset(o)| == |multiset(defs)|;
    assert o[0] in multiset(defs) && defs[m] in multiset(o);
    var i :| 0 <= i < |o| && o[i] == defs[m];
    var a :| 0 <= a < |defs| && defs[a] == o[0];
    assert o[0].order <= o[i].order;
  }

  /** A definition whose order is above every other comes last. */
  lemma OrderedLast(defs: seq<SubsectionDefinition>, m: nat)
    requires m < |defs|
    requires forall k :: 0 <= k < |defs| && k != m ==> defs[k].order < defs[m].order
    ensures |GetOrderedSubsections(defs)| == |defs|
    ensures GetOrderedSubsections(defs)[|defs| - 1] == defs[m]
  {
    var o := GetOrderedSubsections(defs);
    OrderedIsSorted(defs);
    OrderedIsPermutation(defs);
    assert |multiset(o)| == |multiset(defs)|;
    assert o[|o| - 1] in multiset(defs) && defs[m] in multiset(o);
    var i :| 0 <= i < |o| && o[i] == defs[m];
    var a :| 0 <= a < |defs| && defs[a] == o[|o| - 1];
    assert o[i].order <= o[|o| - 1].order;
  }

  /** The position in the registry of each order it uses, found by
      halving the range of orders. */
  function RegistryPosition(order: int): int
  {
    if order < 130 then
      (if order < 50 then
        (if order < 30 then
          (if order < 15 then
            (if order == 10 then 0 else -1)
          else
            (if order < 20 then
              (if order == 15 then 1 else -1)
            else
              (if order == 20 then 2 else -1)))
        else
          (if order < 45 then
            (if order < 40 then
              (if order == 30 then 5 else -1)
            else
              (if order == 40 then 6 else -1))
          else
            (if order < 46 then
              (if order == 45 then 7 else -1)
            else
              (if order == 46 then 8 else -1))))
      else
        (if order < 90 then
          (if order < 70 then
            (if order < 60 then
              (if order == 50 then 9 else -1)
            else
              (if order == 60 then 10 else -1))
          else
            (if order < 80 then
              (if order == 70 then 11 else -1)
            else
              (if order == 80 then 12 else -1)))
        else
          (if order < 110 then
            (if order < 100 then
              (if order == 90 then 13 else -1)
            else
              (if order == 100 then 14 else -1))
          else
            (if order < 120 then
              (if order == 110 then 15 else -1)
            else
              (if order == 120 then 16 else -1)))))
    else
      (if order < 205 then
        (if order < 170 then
          (if order < 150 then
            (if order < 140 then
              (if order == 130 then 17 else -1)
            else
              (if order == 140 then 18 else -1))
          else
            (if order < 160 then
              (if order == 150 then 19 else -1)
            else
              (if order == 160 then 20 else -1)))
        else
          (if order < 190 then
            (if order < 180 then
              (if order == 170 then 21 else -1)
            else
              (if order == 180 then 22 else -1))
          else
            (if order < 200 then
              (if order == 190 then 23 else -1)
            else
              (if order == 200 then 24 else -1))))
      else
        (if order < 230 then
          (if order < 210 then
            (if order < 206 then
              (if order == 205 then 25 else -1)
            else
              (if order == 206 then 26 else -1))
          else
            (if order < 220 then
              (if order == 210 then 27 else -1)
            else
              (if order == 220 then 28 else -1)))
        else
          (if order < 245 then
            (if order < 240 then
              (if order == 230 then 3 else -1)
            else
              (if order == 240 then 4 else -1))
          else
            (if order < 250 then
              (if order == 245 then 29 else -1)
            else
              (if order == 250 then 30 else -1)))))
  }

  /** Each order of the registry leads back to its own position, eight
      positions at a time. */
  lemma RegistryPositionsA()
    ensures forall k :: 0 <= k < 8 ==> RegistryPosition(Registry[k].order) == k
  {
  }

  lemma RegistryPositionsB()
    ensures forall k :: 8 <= k < 16 ==> RegistryPosition(Registry[k].order) == k
  {
  }

  lemma RegistryPositionsC()
    ensures forall k :: 16 <= k < 24 ==> RegistryPosition(Registry[k].order) == k
  {
  }

  lemma RegistryPositionsD()
    ensures forall k :: 24 <= k < |Registry| ==> RegistryPosition(Registry[k].order) == k
  {
  }

  /** Every order lies between the header's and voluntary
      participation's. */
  lemma RegistryOrderBounds()
    ensures |Registry| == 31
    ensures forall k :: 0 <= k < |Registry| ==> 10 <= Registry[k].order <= 250
    ensures Registry[0].order == 10 && Registry[30].order == 250
  {
  }

  lemma RegistryOrders()
    ensures |Registry| == 31
    ensures forall k :: 0 <= k < |Registry| ==> RegistryPosition(Registry[k].order) == k
  {
    RegistryOrderBounds();
    RegistryPositionsA();
    RegistryPositionsB();
    RegistryPositionsC();
    RegistryPositionsD();
  }

  /** No two subsections of the registry share an order, so its rendering
      order is strictly ascending and does not depend on the stability of
      the sort. */
  lemma RegistryOrdersDistinct()
    ensures OrdersDistinct(Registry)
    ensures StrictlyByOrder(GetOrderedSubsections(Registry))
  {
    RegistryOrders();
    forall i, j | 0 <= i < j < |Registry| ensures Registry[i].order != Registry[j].order {
      assert RegistryPosition(Registry[i].order) != RegistryPosition(Registry[j].order);
    }
    OrderedStrictly(Registry);
  }

  lemma RegistryEnds()
    ensures Registry[0].id == "document_header" && Registry[30].id == "voluntary_participation"
  {
  }

  /** The lowest order leads and the highest order closes the
      rendering order. */
  lemma OrderedEnds(defs: seq<SubsectionDefinition>, first: string, last: string)
    requires |defs| >= 2 && defs[0].id == first && defs[|defs| - 1].id == last
    requires forall k :: 0 < k < |defs| ==> defs[0].order < defs[k].order
    requires forall k :: 0 <= k < |defs| - 1 ==> defs[k].order < defs[|defs| - 1].order
    ensures |GetOrderedSubsections(defs)| == |defs|
    ensures GetOrderedSubsections(defs)[0].id == first
    ensures GetOrderedSubsections(defs)[|defs| - 1].id == last
  {
    OrderedFirst(defs, 0);
    OrderedLast(defs, |defs| - 1);
  }

  /** The header's order is the registry's lowest and voluntary
      participation's its highest. */
  lemma RegistryExtremes()
    ensures |Registry| == 31
    ensures forall k :: 0 < k < |Registry| ==> Registry[0].order < Registry[k].order
    ensures forall k :: 0 <= k < |Registry| - 1 ==> Registry[k].order < Registry[|Registry| - 1].order
  {
    RegistryOrders();
    RegistryOrderBounds();
    forall k | 0 < k < |Registry| ensures Registry[0].order < Registry[k].order {
      assert RegistryPosition(Registry[k].order) != RegistryPosition(Registry[0].order);
    }
    forall k | 0 <= k < |Registry| - 1 ensures Registry[k].order < Registry[|Registry| - 1].order {
      assert RegistryPosition(Registry[k].order) != RegistryPosition(Registry[30].order);
    }
  }

  /** The rendering order opens with the document header and closes with
      voluntary participation. */
  lemma RegistryFirstAndLast()
    ensures |GetOrderedSubsections(Registry)| == 31
    ensures GetOrderedSubsections(Registry)[0].id == "document_header"
    ensures GetOrderedSubsections(Registry)[30].id == "voluntary_participation"
  {
    RegistryExtremes();
    RegistryEnds();
    OrderedEnds(Registry, "document_header", "voluntary_participation");
  }

  /** A definition with one condition on a two-key path skips exactly
      when the value found along the two keys is one of its values. */
  lemma SkipsOnTwoKeys(defs: seq<SubsectionDefinition>, id: string, data: map<string, Value>,
                       d: SubsectionDefinition, path: string, outer: string, inner: string, values: seq<Value>)
    requires '.' !in outer && '.' !in inner && path == outer + "." + inner
    requires GetSubsection(defs, id) == Some(d) && d.skipConditions == [SkipCondition(path, values)]
    ensures Skips(defs, id, data) <==> NestedValue(VDict(data), [outer, inner]) in values
  {
    SplitAtChar(outer, inner, '.');
    SingleCondition(defs, id, data, SkipCondition(path, values));
  }

  /** A definition with one condition on a key without a dot skips exactly
      when that key holds one of its values. */
  lemma SkipsOnKey(defs: seq<SubsectionDefinition>, id: string, data: map<string, Value>,
                   d: SubsectionDefinition, key: string, values: seq<Value>)
    requires '.' !in key && VNone !in values
    requires GetSubsection(defs, id) == Some(d) && d.skipConditions == [SkipCondition(key, values)]
    ensures Skips(defs, id, data) <==> key in data && data[key] in values
  {
    SplitWithoutChar(key, '.');
    SingleCondition(defs, id, data, SkipCondition(key, values));
    assert [key][1..] == [];
  }

  lemma InPair(x: Value, a: Value, b: Value)
    ensures x in [a, b] <==> x == a || x == b
  {
  }

  /** The keys of the registry's skip conditions hold no dot. */
  lemma DotFreeKeys()
    ensures '.' !in "adverse_events_filtered" && '.' !in "design" && '.' !in "blinding"
    ensures "design.blinding" == "design" + "." + "blinding"
  {
  }

  /** The randomization subsection and its one condition. */
  lemma RandomizationEntry()
    ensures GetSubsection(Registry, "procedures_randomization") == Some(Registry[12])
    ensures Registry[12].skipConditions == [SkipCondition("design.blinding", [VStr("open"), VNone])]
  {
    GetSubsectionAt(Registry, 12, "procedures_randomization");
  }

  /** Randomization is skipped exactly when `design.blinding` is "open" or
      absent: a protocol without a design, or whose design does not say
      how it is blinded, has no randomization subsection. */
  lemma BlindingMissingSkipsRandomization(data: map<string, Value>)
    ensures var blinding := NestedValue(VDict(data), ["design", "blinding"]);
      Skips(Registry, "procedures_randomization", data) <==> blinding == VStr("open") || blinding == VNone
    ensures "design" !in data ==> Skips(Registry, "procedures_randomization", data)
    ensures "design" in data && data["design"].VDict? && "blinding" !in data["design"].fields ==>
      Skips(Registry, "procedures_randomization", data)
  {
    RandomizationEntry();
    DotFreeKeys();
    SkipsOnTwoKeys(Registry, "procedures_randomization", data, Registry[12], "design.blinding",
                   "design", "blinding", [VStr("open"), VNone]);
    NestedValueTwoLevels(data, "design", "blinding");
    InPair(NestedValue(VDict(data), ["design", "blinding"]), VStr("open"), VNone);
  }

  /** The three frequency subsections and their one condition. */
  lemma FrequencyEntries(id: string) returns (k: nat)
    requires id == "risks_very_common" || id == "risks_common" || id == "risks_uncommon"
    ensures k < |Registry| && GetSubsection(Registry, id) == Some(Registry[k])
    ensures Registry[k].skipConditions == [SkipCondition("adverse_events_filtered", [VStr("empty")])]
  {
    k := if id == "risks_very_common" then 17 else if id == "risks_common" then 18 else 19;
    GetSubsectionAt(Registry, k, id);
  }

  /** The three frequency subsections are skipped only when the literal
      key `adverse_events_filtered` holds "empty"; nothing in the protocol
      data sets it, so filtering every event away does not skip them. */
  lemma AdverseEventsFilteredNeedsLiteralKey(data: map<string, Value>, id: string)
    requires id == "risks_very_common" || id == "risks_common" || id == "risks_uncommon"
    ensures Skips(Registry, id, data) <==>
      "adverse_events_filtered" in data && data["adverse_events_filtered"] == VStr("empty")
  {
    var k := FrequencyEntries(id);
    DotFreeKeys();
    SkipsOnKey(Registry, id, data, Registry[k], "adverse_events_filtered", [VStr("empty")]);
  }
}
