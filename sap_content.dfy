/** Content generation and polishing for the statistical analysis plan:
    the endpoint lists are forced to the protocol's own text, empty
    required sections are filled from the fallback content, and polishing
    neither sees nor changes the endpoint lists. */
module SapContent {
  import opened Wrappers
  import opened Text
  import opened PyValue
  import WorkflowBase
  import opened SapTexts

  type Content = map<string, Value>

  const PrimaryVerbatim: string := "primary_endpoints_verbatim"
  const SecondaryVerbatim: string := "secondary_endpoints_verbatim"
  const ExploratoryVerbatim: string := "exploratory_endpoints_verbatim"

  /** The sections generation must deliver. */
  const RequiredSections: seq<string> :=
    ["introduction", "study_design_summary", "analysis_populations", "statistical_methods"]

  const GenerationPrefix: string := "Failed to " + "generate SAP " + "content: "

  function GenerationError(e: string): string
  {
    GenerationPrefix + e
  }

  // ---------------------------------------------------------------------
  // Generation

  /** `protocol_data.get("endpoints", {})`, which the following `.get`
      calls need to be a dict. */
  function EndpointsOf(pd: Content): Result<Content, string>
  {
    var e := Get(pd, "endpoints", VDict(map[]));
    if e.VDict? then Ok(e.fields) else Err("'" + TypeName(e) + "' object has no attribute 'get'")
  }

  /** The content with the three endpoint lists taken from the protocol. */
  function WithVerbatim(content: Content, endpoints: Content): Content
  {
    content[PrimaryVerbatim := Get(endpoints, "primary", VList([]))]
           [SecondaryVerbatim := Get(endpoints, "secondary", VList([]))]
           [ExploratoryVerbatim := Get(endpoints, "exploratory", VList([]))]
  }

  /** The dict `_generate_fallback_content` returns, around its parts;
      the endpoint lists are added by `WithVerbatim`. */
  function FallbackMap(introduction: Value, objectives: Value, design: Value, populations: Value,
                       methods: Value, sampleSize: Value, missingData: Value, interim: Value,
                       shells: Value): Content
  {
    map[
      "objectives_and_endpoints" := objectives, "sample_size" := sampleSize, "missing_data" := missingData,
      "interim_analysis" := interim, "tlf_shells" := shells,
      "introduction" := introduction, "study_design_summary" := design,
      "analysis_populations" := populations, "statistical_methods" := methods
    ]
  }

  function ObjectivesFallback(indication: string): Value
  {
    VDict(map["primary_objective" := VStr(PrimaryObjectiveDefault(indication)),
              "secondary_objectives" := VStr(SecondaryObjectivesDefault)])
  }

  const PopulationsFallback: Value :=
    VDict(map["itt" := VStr(IttPopulation), "mitt" := VStr(MittPopulation),
              "per_protocol" := VStr(PerProtocolPopulation), "safety" := VStr(SafetyPopulation)])

  const MethodsFallback: Value :=
    VDict(map["general" := VStr(GeneralMethods), "primary_analysis" := VStr(PrimaryAnalysisMethods),
              "secondary_analysis" := VStr(SecondaryAnalysisMethods), "safety_analysis" := VStr(SafetyAnalysisMethods)])

  /** A list of strings as a list value. */
  function StrValues(xs: seq<string>): (r: seq<Value>)
    ensures |r| == |xs| && forall k :: 0 <= k < |xs| ==> r[k] == VStr(xs[k])
  {
    if xs == [] then [] else [VStr(xs[0])] + StrValues(xs[1..])
  }

  /** `_generate_fallback_content` once the endpoints are known to be a
      dict: fixed texts, four of them naming values from the protocol,
      and the endpoint lists taken as they stand. */
  function FallbackFrom(pd: Content, endpoints: Content): Content
  {
    var number := Str(WorkflowBase.GetMetadataValue(pd, "protocol_number", VStr("TBD")));
    var indication := Str(WorkflowBase.GetMetadataValue(pd, "indication", VStr("the target indication")));
    var studyType := Str(WorkflowBase.GetDesignValue(pd, "study_type", VStr("randomized")));
    var enrollment := Str(WorkflowBase.GetDesignValue(pd, "planned_enrollment", VStr("N")));
    WithVerbatim(
      FallbackMap(VStr(FallbackIntroduction(number)), ObjectivesFallback(indication),
        VStr(FallbackStudyDesign(studyType, enrollment)), PopulationsFallback, MethodsFallback,
        VStr(FallbackSampleSize(enrollment)), VStr(FallbackMissingData), VStr(FallbackInterimAnalysis),
        VList(StrValues(FallbackTlfShells))),
      endpoints)
  }

  /** `_generate_fallback_content`: the `.get` on the endpoints raises
      when the protocol's endpoints are not a dict. */
  function FallbackContent(pd: Content): Result<Content, string>
  {
    match EndpointsOf(pd)
    case Err(e) => Err(e)
    case Ok(endpoints) => Ok(FallbackFrom(pd, endpoints))
  }

  /** Every required section is present and truthy. */
  predicate HasRequired(c: Content)
  {
    forall k :: 0 <= k < |RequiredSections| ==> RequiredSections[k] in c && Truthy(c[RequiredSections[k]])
  }

  /** The three endpoint keys hold the protocol's lists. */
  predicate HasVerbatim(c: Content, endpoints: Content)
  {
    && PrimaryVerbatim in c && c[PrimaryVerbatim] == Get(endpoints, "primary", VList([]))
    && SecondaryVerbatim in c && c[SecondaryVerbatim] == Get(endpoints, "secondary", VList([]))
    && ExploratoryVerbatim in c && c[ExploratoryVerbatim] == Get(endpoints, "exploratory", VList([]))
  }

  /** The endpoint lists written last are the ones read back. */
  lemma WithVerbatimSpec(content: Content, endpoints: Content)
    ensures HasVerbatim(WithVerbatim(content, endpoints), endpoints)
    ensures forall key :: key !in {PrimaryVerbatim, SecondaryVerbatim, ExploratoryVerbatim} ==>
      (key in WithVerbatim(content, endpoints) <==> key in content)
      && (key in content ==> WithVerbatim(content, endpoints)[key] == content[key])
  {
  }

  /** The fallback fails exactly when the endpoints are not a dict;
      otherwise it has the four required sections, each truthy, and the
      three endpoint lists as the protocol gives them. */
  lemma FallbackContentSpec(pd: Content)
    ensures FallbackContent(pd).Err? <==> EndpointsOf(pd).Err?
    ensures FallbackContent(pd).Ok? ==>
      HasRequired(FallbackContent(pd).value) && HasVerbatim(FallbackContent(pd).value, EndpointsOf(pd).value)
  {
    if EndpointsOf(pd).Ok? {
      FallbackFromSpec(pd, EndpointsOf(pd).value);
    }
  }

  /** The fallback fails exactly when the endpoints are not a dict. */
  lemma FallbackFails(pd: Content)
    ensures FallbackContent(pd).Err? <==> EndpointsOf(pd).Err?
  {
  }

  lemma FallbackFromSpec(pd: Content, endpoints: Content)
    ensures HasRequired(FallbackFrom(pd, endpoints)) && HasVerbatim(FallbackFrom(pd, endpoints), endpoints)
  {
    FallbackFromHasRequired(pd, endpoints);
    FallbackFromVerbatim(pd, endpoints);
  }

  /** The fallback's four required sections are truthy. */
  lemma FallbackFromHasRequired(pd: Content, endpoints: Content)
    ensures HasRequired(FallbackFrom(pd, endpoints))
  {
    var number := Str(WorkflowBase.GetMetadataValue(pd, "protocol_number", VStr("TBD")));
    var indication := Str(WorkflowBase.GetMetadataValue(pd, "indication", VStr("the target indication")));
    var studyType := Str(WorkflowBase.GetDesignValue(pd, "study_type", VStr("randomized")));
    var enrollment := Str(WorkflowBase.GetDesignValue(pd, "planned_enrollment", VStr("N")));
    FallbackTextsNonEmpty(number, studyType, enrollment);
    assert "itt" in PopulationsFallback.fields && "general" in MethodsFallback.fields;
    var m := FallbackMap(VStr(FallbackIntroduction(number)), ObjectivesFallback(indication),
        VStr(FallbackStudyDesign(studyType, enrollment)), PopulationsFallback, MethodsFallback,
        VStr(FallbackSampleSize(enrollment)), VStr(FallbackMissingData), VStr(FallbackInterimAnalysis),
        VList(StrValues(FallbackTlfShells)));
    FallbackMapHasRequired(VStr(FallbackIntroduction(number)), ObjectivesFallback(indication),
        VStr(FallbackStudyDesign(studyType, enrollment)), PopulationsFallback, MethodsFallback,
        VStr(FallbackSampleSize(enrollment)), VStr(FallbackMissingData), VStr(FallbackInterimAnalysis),
        VList(StrValues(FallbackTlfShells)));
    WithVerbatimKeepsRequired(m, endpoints);
  }

  /** The fallback's endpoint lists are the protocol's. */
  lemma FallbackFromVerbatim(pd: Content, endpoints: Content)
    ensures HasVerbatim(FallbackFrom(pd, endpoints), endpoints)
  {
    var number := Str(WorkflowBase.GetMetadataValue(pd, "protocol_number", VStr("TBD")));
    var indication := Str(WorkflowBase.GetMetadataValue(pd, "indication", VStr("the target indication")));
    var studyType := Str(WorkflowBase.GetDesignValue(pd, "study_type", VStr("randomized")));
    var enrollment := Str(WorkflowBase.GetDesignValue(pd, "planned_enrollment", VStr("N")));
    WithVerbatimSpec(FallbackMap(VStr(FallbackIntroduction(number)), ObjectivesFallback(indication),
        VStr(FallbackStudyDesign(studyType, enrollment)), PopulationsFallback, MethodsFallback,
        VStr(FallbackSampleSize(enrollment)), VStr(FallbackMissingData), VStr(FallbackInterimAnalysis),
        VList(StrValues(FallbackTlfShells))), endpoints);
  }

  /** The fallback dict has the required sections when their four parts
      are truthy. */
  lemma FallbackMapHasRequired(introduction: Value, objectives: Value, design: Value, populations: Value,
                               methods: Value, sampleSize: Value, missingData: Value, interim: Value,
                               shells: Value)
    requires Truthy(introduction) && Truthy(design) && Truthy(populations) && Truthy(methods)
    ensures HasRequired(FallbackMap(introduction, objectives, design, populations, methods,
      sampleSize, missingData, interim, shells))
  {
    assert RequiredSections[0] == "introduction" && RequiredSections[1] == "study_design_summary";
    assert RequiredSections[2] == "analysis_populations" && RequiredSections[3] == "statistical_methods";
  }

  /** Writing the endpoint lists leaves the required sections alone. */
  lemma WithVerbatimKeepsRequired(c: Content, endpoints: Content)
    requires HasRequired(c)
    ensures HasRequired(WithVerbatim(c, endpoints))
  {
    assert PrimaryVerbatim !in RequiredSections && SecondaryVerbatim !in RequiredSections
      && ExploratoryVerbatim !in RequiredSections;
    WithVerbatimSpec(c, endpoints);
  }

  /** A decoded reply after the endpoint overwrite and the fallback fill. */
  function Completed(content: Content, endpoints: Content, fallback: Content): Content
  {
    var c := WithVerbatim(content, endpoints);
    WorkflowBase.FilledFrom(c, fallback, WorkflowBase.MissingSections(c, RequiredSections))
  }

  /** `generate_content` with the endpoints and the fallback content
      given. `reply` is what the OpenAI call returned or the exception it
      raised, and `decode` stands for `json.loads`. Without a client and
      on an undecodable reply the content is the fallback, whose own error
      is not wrapped. Inside the `try`, `len(content)` refuses a decoded
      scalar, the endpoint `.get` needs a dict, and the item assignment
      needs a dict reply, and the fallback is built only when a required
      section is left empty; these and a failed call are wrapped in
      `ContentGenerationError`. */
  function GeneratedFrom(hasOpenAi: bool, reply: Result<string, string>, decode: string -> Option<Value>,
                         endpoints: Result<Content, string>, fallback: Result<Content, string>): Result<Content, string>
  {
    if !hasOpenAi then fallback
    else match reply
      case Err(e) => Err(GenerationError(e))
      case Ok(text) =>
        match decode(WorkflowBase.JsonText(text))
        case None => fallback
        case Some(parsed) =>
          if parsed.VNone? || parsed.VBool? || parsed.VInt? then
            Err(GenerationError("object of type '" + TypeName(parsed) + "' has no len()"))
          else match endpoints
            case Err(e) => Err(GenerationError(e))
            case Ok(eps) =>
              if parsed.VList? then Err(GenerationError("list indices must be integers or slices, not str"))
              else if parsed.VStr? then Err(GenerationError("'str' object does not support item assignment"))
              else if WorkflowBase.MissingSections(WithVerbatim(parsed.fields, eps), RequiredSections) == [] then
                Ok(WithVerbatim(parsed.fields, eps))
              else match fallback
                case Err(e) => Err(GenerationError(e))
                case Ok(fb) => Ok(Completed(parsed.fields, eps, fb))
  }

  /** `generate_content`. */
  function GeneratedContent(hasOpenAi: bool, reply: Result<string, string>,
                            decode: string -> Option<Value>, pd: Content): Result<Content, string>
  {
    GeneratedFrom(hasOpenAi, reply, decode, EndpointsOf(pd), FallbackContent(pd))
  }

  /** The steps of `generate_content` once the endpoints and the fallback
      are known. */
  method GenerateFrom(hasOpenAi: bool, reply: Result<string, string>, decode: string -> Option<Value>,
                      endpoints: Result<Content, string>, fallback: Result<Content, string>)
    returns (r: Result<Content, string>)
    ensures r == GeneratedFrom(hasOpenAi, reply, decode, endpoints, fallback)
  {
    if !hasOpenAi {
      return fallback;
    }
    if reply.Err? {
      return Err(GenerationError(reply.error));
    }
    var text := WorkflowBase.ParseJsonText(reply.value);
    var parsed := decode(text);
    if parsed.None? {
      return fallback;
    }
    var content := parsed.value;
    if content.VNone? || content.VBool? || content.VInt? {
      return Err(GenerationError("object of type '" + TypeName(content) + "' has no len()"));
    }
    if endpoints.Err? {
      return Err(GenerationError(endpoints.error));
    }
    if content.VList? {
      return Err(GenerationError("list indices must be integers or slices, not str"));
    }
    if content.VStr? {
      return Err(GenerationError("'str' object does not support item assignment"));
    }
    var fields := content.fields;
    fields := fields[PrimaryVerbatim := Get(endpoints.value, "primary", VList([]))];
    fields := fields[SecondaryVerbatim := Get(endpoints.value, "secondary", VList([]))];
    fields := fields[ExploratoryVerbatim := Get(endpoints.value, "exploratory", VList([]))];
    var missing := WorkflowBase.MissingSections(fields, RequiredSections);
    if missing != [] {
      if fallback.Err? {
        return Err(GenerationError(fallback.error));
      }
      fields := WorkflowBase.FillMissing(fields, fallback.value, RequiredSections);
    }
    r := Ok(fields);
  }

  method GenerateContent(hasOpenAi: bool, reply: Result<string, string>,
                         decode: string -> Option<Value>, pd: Content) returns (r: Result<Content, string>)
    ensures r == GeneratedContent(hasOpenAi, reply, decode, pd)
  {
    r := GenerateFrom(hasOpenAi, reply, decode, EndpointsOf(pd), FallbackContent(pd));
  }

  /** After generation the three endpoint keys hold the protocol's lists;
      each required section is the generated value when that is truthy
      and the fallback's otherwise; every other key is as generated. */
  lemma CompletedSpec(content: Content, endpoints: Content, fallback: Content)
    ensures var r := Completed(content, endpoints, fallback);
      && HasVerbatim(r, endpoints)
      && (forall k :: 0 <= k < |RequiredSections| ==>
            var s := RequiredSections[k];
            s in r && r[s] == (if Truthy(Get(content, s, VNone)) then content[s] else Get(fallback, s, VStr(""))))
      && (forall key :: key !in RequiredSections && key !in {PrimaryVerbatim, SecondaryVerbatim, ExploratoryVerbatim} ==>
            (key in r <==> key in content) && (key in content ==> r[key] == content[key]))
  {
    var c := WithVerbatim(content, endpoints);
    var missing := WorkflowBase.MissingSections(c, RequiredSections);
    WorkflowBase.MissingSectionsSpec(c, RequiredSections);
    WorkflowBase.FilledFromSpec(c, fallback, missing);
    assert PrimaryVerbatim !in RequiredSections && SecondaryVerbatim !in RequiredSections
      && ExploratoryVerbatim !in RequiredSections;
    assert forall k :: 0 <= k < |RequiredSections| ==> Get(c, RequiredSections[k], VNone) == Get(content, RequiredSections[k], VNone);
  }

  /** When the fallback has every required section, so does the result. */
  lemma RequiredSectionsPresent(content: Content, endpoints: Content, fallback: Content)
    requires HasRequired(fallback)
    ensures HasRequired(Completed(content, endpoints, fallback))
  {
    CompletedSpec(content, endpoints, fallback);
  }

  /** Content with no required section left empty has them all. */
  lemma NothingMissing(c: Content)
    requires WorkflowBase.MissingSections(c, RequiredSections) == []
    ensures HasRequired(c)
  {
    WorkflowBase.MissingSectionsSpec(c, RequiredSections);
    forall k | 0 <= k < |RequiredSections|
      ensures RequiredSections[k] in c && Truthy(c[RequiredSections[k]])
    {
      assert RequiredSections[k] !in WorkflowBase.MissingSections(c, RequiredSections);
    }
  }

  /** With a fallback that fails exactly when the endpoints do,
      generation fails exactly when the call fails, the reply decodes to
      something other than a dict, or the endpoints are not a dict, with
      or without a client. Without a client and on an undecodable reply
      the outcome is the fallback's. */
  lemma GeneratedOutcome(hasOpenAi: bool, reply: Result<string, string>, decode: string -> Option<Value>,
                         endpoints: Result<Content, string>, fallback: Result<Content, string>)
    requires fallback.Err? <==> endpoints.Err?
    ensures var r := GeneratedFrom(hasOpenAi, reply, decode, endpoints, fallback);
      var decoded := if reply.Ok? then decode(WorkflowBase.JsonText(reply.value)) else None;
      && (r.Err? <==>
            endpoints.Err? || (hasOpenAi && (reply.Err? || (decoded.Some? && !decoded.value.VDict?))))
      && (!hasOpenAi || (reply.Ok? && decoded.None?) ==> r == fallback)
  {
  }

  /** Every failure inside the `try`, that is with a client and a reply
      that is not undecodable, is a `ContentGenerationError`. */
  lemma GenerationErrorWrapped(hasOpenAi: bool, reply: Result<string, string>, decode: string -> Option<Value>,
                               endpoints: Result<Content, string>, fallback: Result<Content, string>)
    requires hasOpenAi && !(reply.Ok? && decode(WorkflowBase.JsonText(reply.value)).None?)
    ensures var r := GeneratedFrom(hasOpenAi, reply, decode, endpoints, fallback);
      r.Err? ==> StartsWith(r.error, GenerationPrefix)
  {
    var r := GeneratedFrom(hasOpenAi, reply, decode, endpoints, fallback);
    if reply.Err? {
      GenerationErrorPrefix(reply.error);
    } else if r.Err? {
      var parsed := decode(WorkflowBase.JsonText(reply.value)).value;
      var e: string;
      if parsed.VNone? || parsed.VBool? || parsed.VInt? {
        e := "object of type '" + TypeName(parsed) + "' has no len()";
      } else if endpoints.Err? {
        e := endpoints.error;
      } else if parsed.VList? {
        e := "list indices must be integers or slices, not str";
      } else if parsed.VStr? {
        e := "'str' object does not support item assignment";
      } else {
        e := fallback.error;
      }
      assert r.error == GenerationError(e);
      GenerationErrorPrefix(e);
    }
  }

  lemma GenerationErrorPrefix(e: string)
    ensures StartsWith(GenerationError(e), GenerationPrefix)
  {
    assert GenerationError(e)[..|GenerationPrefix|] == GenerationPrefix;
  }

  /** With a fallback that has them, a successful generation has the four
      required sections, each truthy, and, when a reply was used, the
      three endpoint lists as the endpoints give them. */
  lemma GeneratedHasRequired(hasOpenAi: bool, reply: Result<string, string>, decode: string -> Option<Value>,
                             endpoints: Result<Content, string>, fallback: Result<Content, string>)
    requires fallback.Ok? ==> endpoints.Ok? && HasRequired(fallback.value) && HasVerbatim(fallback.value, endpoints.value)
    ensures var r := GeneratedFrom(hasOpenAi, reply, decode, endpoints, fallback);
      r.Ok? ==> endpoints.Ok? && HasRequired(r.value) && HasVerbatim(r.value, endpoints.value)
  {
    var r := GeneratedFrom(hasOpenAi, reply, decode, endpoints, fallback);
    if r.Ok? && hasOpenAi && reply.Ok? {
      var decoded := decode(WorkflowBase.JsonText(reply.value));
      if decoded.Some? {
        var c := WithVerbatim(decoded.value.fields, endpoints.value);
        WithVerbatimSpec(decoded.value.fields, endpoints.value);
        if WorkflowBase.MissingSections(c, RequiredSections) == [] {
          NothingMissing(c);
        } else {
          RequiredSectionsPresent(decoded.value.fields, endpoints.value, fallback.value);
          CompletedSpec(decoded.value.fields, endpoints.value, fallback.value);
        }
      }
    }
  }

  /** Generation of the plan fails exactly when the call fails, the reply
      decodes to something other than a dict, or the protocol's endpoints
      are not a dict, with or without a client. */
  lemma GeneratedContentOutcome(hasOpenAi: bool, reply: Result<string, string>,
                                decode: string -> Option<Value>, pd: Content)
    ensures var r := GeneratedContent(hasOpenAi, reply, decode, pd);
      var decoded := if reply.Ok? then decode(WorkflowBase.JsonText(reply.value)) else None;
      r.Err? <==> EndpointsOf(pd).Err? || (hasOpenAi && (reply.Err? || (decoded.Some? && !decoded.value.VDict?)))
  {
    FallbackFails(pd);
    GeneratedOutcome(hasOpenAi, reply, decode, EndpointsOf(pd), FallbackContent(pd));
  }

  /** Without a client and on an undecodable reply the plan's content is
      the fallback's, error included. */
  lemma GeneratedContentFallback(hasOpenAi: bool, reply: Result<string, string>,
                                 decode: string -> Option<Value>, pd: Content)
    requires !hasOpenAi || (reply.Ok? && decode(WorkflowBase.JsonText(reply.value)).None?)
    ensures GeneratedContent(hasOpenAi, reply, decode, pd) == FallbackContent(pd)
  {
  }

  /** Whatever the reply and the protocol data, a successful generation
      has the four required sections, each truthy, and the three endpoint
      lists as the protocol gives them. */
  lemma GeneratedContentHasRequired(hasOpenAi: bool, reply: Result<string, string>,
                                    decode: string -> Option<Value>, pd: Content)
    ensures var r := GeneratedContent(hasOpenAi, reply, decode, pd);
      r.Ok? ==> EndpointsOf(pd).Ok? && HasRequired(r.value) && HasVerbatim(r.value, EndpointsOf(pd).value)
  {
    FallbackContentSpec(pd);
    GeneratedHasRequired(hasOpenAi, reply, decode, EndpointsOf(pd), FallbackContent(pd));
  }

  // ---------------------------------------------------------------------
  // Polish

  /** The dict sent for polishing: every key not ending in "_verbatim". */
  function ToPolish(content: Content): Content
  {
    map k | k in content && !EndsWith(k, "_verbatim") :: content[k]
  }

  /** The polished dict with the three saved endpoint lists put back. */
  function Restored(polished: Content, content: Content): Content
  {
    polished[PrimaryVerbatim := Get(content, PrimaryVerbatim, VList([]))]
            [SecondaryVerbatim := Get(content, SecondaryVerbatim, VList([]))]
            [ExploratoryVerbatim := Get(content, ExploratoryVerbatim, VList([]))]
  }

  /** `polish_content`. `claude` is the reply to the prompt built from the
      dict it is given (or the exception raised); any failure, including a
      reply that is not a JSON dict, keeps the input. */
  function PolishedContent(hasClaude: bool, content: Content,
                           claude: Content -> Result<string, string>,
                           decode: string -> Option<Value>): Content
  {
    if !hasClaude then content
    else match claude(ToPolish(content))
      case Err(_) => content
      case Ok(reply) =>
        match decode(WorkflowBase.JsonText(reply))
        case Some(VDict(polished)) => Restored(polished, content)
        case _ => content
  }

  method PolishContent(hasClaude: bool, content: Content,
                       claude: Content -> Result<string, string>,
                       decode: string -> Option<Value>) returns (r: Content)
    ensures r == PolishedContent(hasClaude, content, claude, decode)
  {
    if !hasClaude {
      return content;
    }
    var verbatimPrimary := Get(content, PrimaryVerbatim, VList([]));
    var verbatimSecondary := Get(content, SecondaryVerbatim, VList([]));
    var verbatimExploratory := Get(content, ExploratoryVerbatim, VList([]));
    var response := claude(ToPolish(content));
    if response.Err? {
      return content;
    }
    var text := WorkflowBase.ParseJsonText(response.value);
    var parsed := decode(text);
    if parsed.None? || !parsed.value.VDict? {
      return content;
    }
    var polished := parsed.value.fields;
    polished := polished[PrimaryVerbatim := verbatimPrimary];
    polished := polished[SecondaryVerbatim := verbatimSecondary];
    polished := polished[ExploratoryVerbatim := verbatimExploratory];
    r := polished;
  }

  lemma VerbatimSuffixes()
    ensures EndsWith(PrimaryVerbatim, "_verbatim")
    ensures EndsWith(SecondaryVerbatim, "_verbatim")
    ensures EndsWith(ExploratoryVerbatim, "_verbatim")
  {
    assert PrimaryVerbatim[|PrimaryVerbatim| - 9..] == "_verbatim";
    assert SecondaryVerbatim[|SecondaryVerbatim| - 9..] == "_verbatim";
    assert ExploratoryVerbatim[|ExploratoryVerbatim| - 9..] == "_verbatim";
  }

  /** The polishing prompt sees every key except the "_verbatim" ones,
      with their values, and in particular none of the endpoint lists. */
  lemma PolishSeesNoVerbatim(content: Content)
    ensures forall k :: k in ToPolish(content) <==> k in content && !EndsWith(k, "_verbatim")
    ensures forall k :: k in ToPolish(content) ==> ToPolish(content)[k] == content[k]
    ensures PrimaryVerbatim !in ToPolish(content) && SecondaryVerbatim !in ToPolish(content)
      && ExploratoryVerbatim !in ToPolish(content)
  {
    VerbatimSuffixes();
  }

  /** Whatever the polish step does, the three endpoint lists read the
      same afterwards. */
  lemma VerbatimSurvivesPolish(hasClaude: bool, content: Content,
                               claude: Content -> Result<string, string>,
                               decode: string -> Option<Value>)
    ensures var r := PolishedContent(hasClaude, content, claude, decode);
      && Get(r, PrimaryVerbatim, VList([])) == Get(content, PrimaryVerbatim, VList([]))
      && Get(r, SecondaryVerbatim, VList([])) == Get(content, SecondaryVerbatim, VList([]))
      && Get(r, ExploratoryVerbatim, VList([])) == Get(content, ExploratoryVerbatim, VList([]))
  {
  }

  /** Without Claude, on a failed call, or on a reply that is not a JSON
      dict, the content comes back unchanged; otherwise every other key
      is the polished one. */
  lemma PolishOutcome(hasClaude: bool, content: Content,
                      claude: Content -> Result<string, string>,
                      decode: string -> Option<Value>)
    ensures var r := PolishedContent(hasClaude, content, claude, decode);
      var reply := claude(ToPolish(content));
      && ((!hasClaude || reply.Err? || !(decode(WorkflowBase.JsonText(reply.value)).Some?
             && decode(WorkflowBase.JsonText(reply.value)).value.VDict?)) ==> r == content)
      && (hasClaude && reply.Ok? && decode(WorkflowBase.JsonText(reply.value)).Some?
            && decode(WorkflowBase.JsonText(reply.value)).value.VDict? ==>
            var p := decode(WorkflowBase.JsonText(reply.value)).value.fields;
            forall k :: k !in {PrimaryVerbatim, SecondaryVerbatim, ExploratoryVerbatim} ==>
              (k in r <==> k in p) && (k in p ==> r[k] == p[k]))
  {
  }

}
